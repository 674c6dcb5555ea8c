/** The two-step registration form: per-step validation whose messages are
    merged into the existing errors, the step machine, the double-submit
    guard, and the redirect to `/login` only on a reply that says `success`. */
module Register {
  import opened Common
  import opened Browser

  /** The `validator` package's checks, left uninterpreted: each is given
      as the set of strings it accepts. */
  datatype Validator = Validator(emails: iset<string>, strongPasswords: iset<string>, urls: iset<string>)
  {
    predicate IsEmail(s: string) { s in emails }
    predicate IsStrongPassword(s: string) { s in strongPasswords }
    predicate IsURL(s: string) { s in urls }
  }

  datatype RegField = Name | Email | Password | ConfirmPassword | ProfilePicture

  datatype RegisterForm = RegisterForm(name: string, email: string, password: string,
                                       confirmPassword: string, profilePicture: string)
  {
    function Get(f: RegField): string
    {
      match f
      case Name => name
      case Email => email
      case Password => password
      case ConfirmPassword => confirmPassword
      case ProfilePicture => profilePicture
    }

    /** `{ ...prev, [field]: value }` */
    function Set(f: RegField, value: string): (r: RegisterForm)
      ensures r.Get(f) == value
      ensures forall g :: g != f ==> r.Get(g) == Get(g)
    {
      match f
      case Name => this.(name := value)
      case Email => this.(email := value)
      case Password => this.(password := value)
      case ConfirmPassword => this.(confirmPassword := value)
      case ProfilePicture => this.(profilePicture := value)
    }
  }

  const EmptyForm := RegisterForm("", "", "", "", "")
  const NoErrors: map<RegField, string> :=
    map[Name := "", Email := "", Password := "", ConfirmPassword := "", ProfilePicture := ""]

  const LoginPath := "/login"

  /** Step 1 has nothing to report: a non-blank name of at least two
      characters and an email the validator accepts. */
  predicate Step1Passes(form: RegisterForm, v: Validator)
  {
    !Blank(form.name) && |form.name| >= 2 && v.IsEmail(form.email)
  }

  /** Step 2 has nothing to report: a strong password, a matching
      confirmation and a non-blank picture URL the validator accepts. */
  predicate Step2Passes(form: RegisterForm, v: Validator)
  {
    && v.IsStrongPassword(form.password) && form.password == form.confirmPassword
    && !Blank(form.profilePicture) && v.IsURL(form.profilePicture)
  }

  /** The messages `validateStep1` produces: the name rules (blank first,
      then shorter than two characters) and the email check. */
  function Step1Errors(form: RegisterForm, v: Validator): (r: map<RegField, string>)
    ensures Name in r <==> Blank(form.name) || |form.name| < 2
    ensures Name in r && Blank(form.name) ==> r[Name] == "Name is required"
    ensures Name in r && !Blank(form.name) ==> r[Name] == "Name must be at least 2 characters"
    ensures Email in r <==> !v.IsEmail(form.email)
    ensures Email in r ==> r[Email] == "Please enter a valid email"
    ensures forall f :: f in r ==> f == Name || f == Email
    ensures r == map[] <==> Step1Passes(form, v)
  {
    var nameErrors: map<RegField, string> :=
      if Blank(form.name) then map[Name := "Name is required"]
      else if |form.name| < 2 then map[Name := "Name must be at least 2 characters"]
      else map[];
    var emailErrors: map<RegField, string> :=
      if !v.IsEmail(form.email) then map[Email := "Please enter a valid email"] else map[];
    var r := nameErrors + emailErrors;
    assert Name in nameErrors ==> Name in r;
    assert Email in emailErrors ==> Email in r;
    r
  }

  /** The messages `validateStep2` produces: the strength check and the
      confirmation check independently of each other, and the picture rules
      (blank first, then not a URL). */
  function Step2Errors(form: RegisterForm, v: Validator): (r: map<RegField, string>)
    ensures Password in r <==> !v.IsStrongPassword(form.password)
    ensures Password in r ==> r[Password] == "Password must be strong (8+ chars, upper, lower, number, symbol)"
    ensures ConfirmPassword in r <==> form.password != form.confirmPassword
    ensures ConfirmPassword in r ==> r[ConfirmPassword] == "Passwords do not match"
    ensures ProfilePicture in r <==> Blank(form.profilePicture) || !v.IsURL(form.profilePicture)
    ensures ProfilePicture in r && Blank(form.profilePicture) ==> r[ProfilePicture] == "Profile picture URL is required"
    ensures ProfilePicture in r && !Blank(form.profilePicture) ==> r[ProfilePicture] == "Please enter a valid URL"
    ensures forall f :: f in r ==> f == Password || f == ConfirmPassword || f == ProfilePicture
    ensures r == map[] <==> Step2Passes(form, v)
  {
    var passwordErrors: map<RegField, string> :=
      if !v.IsStrongPassword(form.password)
      then map[Password := "Password must be strong (8+ chars, upper, lower, number, symbol)"]
      else map[];
    var confirmErrors: map<RegField, string> :=
      if form.password != form.confirmPassword then map[ConfirmPassword := "Passwords do not match"] else map[];
    var pictureErrors: map<RegField, string> :=
      if Blank(form.profilePicture) then map[ProfilePicture := "Profile picture URL is required"]
      else if !v.IsURL(form.profilePicture) then map[ProfilePicture := "Please enter a valid URL"]
      else map[];
    var r := passwordErrors + confirmErrors + pictureErrors;
    assert Password in passwordErrors ==> Password in r;
    assert ConfirmPassword in confirmErrors ==> ConfirmPassword in r;
    assert ProfilePicture in pictureErrors ==> ProfilePicture in r;
    r
  }

  /** `{ ...errors, ...newErrors }`: the new messages win, and a field the
      step did not flag keeps whatever message it had. */
  function MergeErrors(errors: map<RegField, string>, newErrors: map<RegField, string>): (r: map<RegField, string>)
    ensures r.Keys == errors.Keys + newErrors.Keys
    ensures forall f :: f in newErrors ==> r[f] == newErrors[f]
    ensures forall f :: f in errors && f !in newErrors ==> r[f] == errors[f]
  {
    errors + newErrors
  }

  /** The step after `nextStep`: 1 moves to 2 only when step 1 validates. */
  function StepAfterNext(step: int, step1Passes: bool): (s: int)
    ensures step == 1 ==> (s == 2 <==> step1Passes)
    ensures step != 1 ==> s == step
  {
    if step == 1 && step1Passes then 2 else step
  }

  /** The step after `prevStep`: only a step above 1 goes back one. */
  function StepAfterPrev(step: int): (s: int)
    ensures step > 1 ==> s == step - 1
    ensures step <= 1 ==> s == step
  {
    if step > 1 then step - 1 else step
  }

  predicate StepInRange(step: int)
  {
    step == 1 || step == 2
  }

  /** Starting from step 1, any sequence of `nextStep`/`prevStep` calls keeps
      the step in {1, 2}; `moves[i]` is `Some(passes)` for a `nextStep` whose
      step-1 validation gave `passes`, and `None` for a `prevStep`. */
  function Walk(step: int, moves: seq<Option<bool>>): int
    decreases |moves|
  {
    if moves == [] then step
    else
      var next := if moves[0].Some? then StepAfterNext(step, moves[0].value) else StepAfterPrev(step);
      Walk(next, moves[1..])
  }

  lemma {:induction false} WalkStaysInRange(step: int, moves: seq<Option<bool>>)
    requires StepInRange(step)
    ensures StepInRange(Walk(step, moves))
    decreases |moves|
  {
    if moves != [] {
      var next := if moves[0].Some? then StepAfterNext(step, moves[0].value) else StepAfterPrev(step);
      assert StepInRange(next);
      WalkStaysInRange(next, moves[1..]);
    }
  }

  /** Errors are only ever added or replaced by validation: a field whose
      message was non-empty still has a non-empty message after any number
      of validations, whatever they find. */
  function MergeAll(errors: map<RegField, string>, rounds: seq<map<RegField, string>>): map<RegField, string>
    decreases |rounds|
  {
    if rounds == [] then errors else MergeAll(MergeErrors(errors, rounds[0]), rounds[1..])
  }

  lemma {:induction false} ValidationNeverClears(errors: map<RegField, string>, rounds: seq<map<RegField, string>>, f: RegField)
    requires forall i, g :: 0 <= i < |rounds| && g in rounds[i] ==> rounds[i][g] != ""
    requires f in errors && errors[f] != ""
    ensures f in MergeAll(errors, rounds) && MergeAll(errors, rounds)[f] != ""
    decreases |rounds|
  {
    if rounds != [] {
      var merged := MergeErrors(errors, rounds[0]);
      assert f in merged && merged[f] != "" by {
        if f in rounds[0] {
          assert rounds[0][f] != "";
        }
      }
      ValidationNeverClears(merged, rounds[1..], f);
    }
  }

  /** Every message the two steps produce is non-empty, so `MergeAll` over
      their results satisfies the hypothesis above. */
  lemma StepMessagesNonEmpty(form: RegisterForm, v: Validator)
    ensures forall f :: f in Step1Errors(form, v) ==> Step1Errors(form, v)[f] != ""
    ensures forall f :: f in Step2Errors(form, v) ==> Step2Errors(form, v)[f] != ""
  {
  }

  class RegisterPage {
    const window: Window
    const validator: Validator
    var form: RegisterForm
    var errors: map<RegField, string>
    var isSubmitting: bool
    var currentStep: int

    constructor (window: Window, validator: Validator)
      ensures this.window == window && this.validator == validator
      ensures form == EmptyForm && errors == NoErrors && !isSubmitting && currentStep == 1
    {
      this.window := window;
      this.validator := validator;
      form := EmptyForm;
      errors := NoErrors;
      isSubmitting := false;
      currentStep := 1;
    }

    /** `validateStep1` */
    method ValidateStep1() returns (ok: bool)
      modifies this
      ensures ok <==> Step1Passes(form, validator)
      ensures errors == MergeErrors(old(errors), Step1Errors(form, validator))
      ensures form == old(form) && isSubmitting == old(isSubmitting) && currentStep == old(currentStep)
    {
      errors := MergeErrors(errors, Step1Errors(form, validator));
      ok := Step1Passes(form, validator);
    }

    /** `validateStep2` */
    method ValidateStep2() returns (ok: bool)
      modifies this
      ensures ok <==> Step2Passes(form, validator)
      ensures errors == MergeErrors(old(errors), Step2Errors(form, validator))
      ensures form == old(form) && isSubmitting == old(isSubmitting) && currentStep == old(currentStep)
    {
      errors := MergeErrors(errors, Step2Errors(form, validator));
      ok := Step2Passes(form, validator);
    }

    /** `nextStep`: step 1 validates and, when it passes, moves to step 2;
        in any other step nothing is validated. */
    method NextStep()
      modifies this
      ensures currentStep == StepAfterNext(old(currentStep), Step1Passes(form, validator))
      ensures old(currentStep) == 1 ==> errors == MergeErrors(old(errors), Step1Errors(form, validator))
      ensures old(currentStep) != 1 ==> errors == old(errors)
      ensures form == old(form) && isSubmitting == old(isSubmitting)
    {
      if currentStep == 1 {
        var ok := ValidateStep1();
        if ok {
          currentStep := 2;
        }
      }
    }

    /** `prevStep` */
    method PrevStep()
      modifies this
      ensures currentStep == StepAfterPrev(old(currentStep))
      ensures form == old(form) && errors == old(errors) && isSubmitting == old(isSubmitting)
    {
      if currentStep > 1 {
        currentStep := currentStep - 1;
      }
    }

    /** `handleSubmit` up to its `await`. In step 1 it only runs `nextStep`
        and never sends; in step 2 it validates (the messages are merged even
        while a submission is under way) and sends the registration only when
        step 2 passes and nothing is being submitted. */
    method BeginSubmit() returns (sent: bool)
      modifies this, window
      ensures sent <==> old(currentStep) != 1 && Step2Passes(form, validator) && !old(isSubmitting)
      ensures old(currentStep) == 1 ==>
                currentStep == StepAfterNext(1, Step1Passes(form, validator))
                && errors == MergeErrors(old(errors), Step1Errors(form, validator))
      ensures old(currentStep) != 1 ==>
                currentStep == old(currentStep)
                && errors == MergeErrors(old(errors), Step2Errors(form, validator))
      ensures sent ==>
                isSubmitting
                && window.requests == old(window.requests)
                   + [PostRegister(form.name, form.email, form.password, form.profilePicture)]
      ensures !sent ==> isSubmitting == old(isSubmitting) && window.requests == old(window.requests)
      ensures form == old(form)
      ensures window.storage == old(window.storage) && window.path == old(window.path)
      ensures window.query == old(window.query) && window.title == old(window.title)
      ensures window.toasts == old(window.toasts)
    {
      if currentStep == 1 {
        NextStep();
        return false;
      }
      var ok := ValidateStep2();
      if !ok || isSubmitting {
        return false;
      }
      isSubmitting := true;
      window.requests := window.requests + [PostRegister(form.name, form.email, form.password, form.profilePicture)];
      sent := true;
    }

    /** `handleSubmit` after its `await`: a reply with `success` raises the
        success toast and goes to `/login`; a 200 without it does nothing; an
        error shows the server's message or "Registration failed". */
    method CompleteSubmit(response: Outcome<bool>)
      requires isSubmitting
      modifies this, window
      ensures window.path == (if response.Ok? && response.payload then LoginPath else old(window.path))
      ensures response.Ok? && response.payload ==>
                window.toasts == old(window.toasts) + [Toast(Success, "Registration successful!")]
      ensures response.Ok? && !response.payload ==> window.toasts == old(window.toasts)
      ensures !response.Ok? ==>
                window.toasts == old(window.toasts) + [Toast(Error, ErrorMessage(response, "Registration failed"))]
      ensures !isSubmitting && form == old(form) && errors == old(errors) && currentStep == old(currentStep)
      ensures window.storage == old(window.storage) && window.requests == old(window.requests)
      ensures window.query == old(window.query) && window.title == old(window.title)
    {
      if response.Ok? {
        if response.payload {
          window.toasts := window.toasts + [Toast(Success, "Registration successful!")];
          window.path := LoginPath;
        }
      } else {
        window.toasts := window.toasts + [Toast(Error, ErrorMessage(response, "Registration failed"))];
      }
      isSubmitting := false;
    }

    /** `handleChange(field)(value)`: sets one field and clears only its message. */
    method HandleChange(field: RegField, value: string)
      modifies this
      ensures form == old(form).Set(field, value)
      ensures errors == old(errors)[field := ""]
      ensures isSubmitting == old(isSubmitting) && currentStep == old(currentStep)
    {
      form := form.Set(field, value);
      errors := errors[field := ""];
    }
  }
}
