/** The note submission form: the three field rules, an error map replaced
    wholesale on every validation, the character counters, the redirect of a
    visitor with no user, and the double-submit guard. */
module SubmitPost {
  import opened Common
  import opened Browser
  import opened Auth
  import FormField

  const TitleMax := 50
  const DescMax := 4000
  const LoginPath := "/login"
  const HomePath := "/"

  datatype NoteField = Title | Description | Subject

  datatype NoteForm = NoteForm(title: string, description: string, subject: string)
  {
    function Get(f: NoteField): string
    {
      match f
      case Title => title
      case Description => description
      case Subject => subject
    }

    /** `{ ...prev, [field]: value }` */
    function Set(f: NoteField, value: string): (r: NoteForm)
      ensures r.Get(f) == value
      ensures forall g :: g != f ==> r.Get(g) == Get(g)
    {
      match f
      case Title => this.(title := value)
      case Description => this.(description := value)
      case Subject => this.(subject := value)
    }
  }

  const InitialForm := NoteForm("", "", "Computer Science")
  const NoErrors: map<NoteField, string> := map[Title := "", Description := "", Subject := ""]

  /** The title is acceptable: not blank and at most 50 characters. */
  predicate TitleValid(title: string)
  {
    !Blank(title) && |title| <= TitleMax
  }

  /** The content is acceptable: not blank and at most 4000 characters. */
  predicate DescriptionValid(description: string)
  {
    !Blank(description) && |description| <= DescMax
  }

  predicate FormValid(form: NoteForm)
  {
    TitleValid(form.title) && DescriptionValid(form.description) && form.subject != ""
  }

  /** The messages `validateForm` produces. */
  function FormErrors(form: NoteForm): (r: map<NoteField, string>)
    ensures Title in r <==> !TitleValid(form.title)
    ensures Title in r && Blank(form.title) ==> r[Title] == "Title is required"
    ensures Title in r && !Blank(form.title) ==> r[Title] == "Title cannot exceed 50 characters"
    ensures Description in r <==> !DescriptionValid(form.description)
    ensures Description in r && Blank(form.description) ==> r[Description] == "Note content is required"
    ensures Description in r && !Blank(form.description) ==> r[Description] == "Content cannot exceed 4000 characters"
    ensures Subject in r <==> form.subject == ""
    ensures Subject in r ==> r[Subject] == "Subject is required"
    ensures r == map[] <==> FormValid(form)
  {
    var titleErrors: map<NoteField, string> :=
      if Blank(form.title) then map[Title := "Title is required"]
      else if |form.title| > TitleMax then map[Title := "Title cannot exceed 50 characters"]
      else map[];
    var descriptionErrors: map<NoteField, string> :=
      if Blank(form.description) then map[Description := "Note content is required"]
      else if |form.description| > DescMax then map[Description := "Content cannot exceed 4000 characters"]
      else map[];
    var subjectErrors: map<NoteField, string> :=
      if form.subject == "" then map[Subject := "Subject is required"] else map[];
    var r := titleErrors + descriptionErrors + subjectErrors;
    assert Title in titleErrors ==> Title in r;
    assert Description in descriptionErrors ==> Description in r;
    r
  }

  /** `charCount`: the lengths of the title and the content. */
  datatype CharCount = CharCount(title: nat, description: nat)

  function CountsOf(form: NoteForm): (c: CharCount)
    ensures c.title == |form.title| && c.description == |form.description|
  {
    CharCount(|form.title|, |form.description|)
  }

  /** A title the counter shows within its limit (and not blank) is one that
      validation accepts, and conversely. */
  lemma TitleCounterAgreesWithValidation(form: NoteForm)
    requires !Blank(form.title)
    ensures Title !in FormErrors(form) <==> CountsOf(form).title <= TitleMax
  {
  }

  /** The title counter turns red at exactly 50 characters, although a
      non-blank title of that length still passes validation. */
  lemma RedCounterAtTitleLimit(form: NoteForm)
    requires !Blank(form.title) && |form.title| == TitleMax
    ensures FormField.ColourOf(CountsOf(form).title, TitleMax) == FormField.Red
    ensures Title !in FormErrors(form)
  {
  }

  class SubmitPostPage {
    const auth: AuthProvider
    var form: NoteForm
    var errors: map<NoteField, string>
    var isSubmitting: bool
    var charCount: CharCount

    constructor (auth: AuthProvider)
      ensures this.auth == auth && form == InitialForm && errors == NoErrors
      ensures !isSubmitting && charCount == CharCount(0, 0)
    {
      this.auth := auth;
      form := InitialForm;
      errors := NoErrors;
      isSubmitting := false;
      charCount := CharCount(0, 0);
    }

    /** The counters describe the form. */
    predicate CountsCurrent()
      reads this
    {
      charCount == CountsOf(form)
    }

    /** The effect on `[user]`: a visitor with no user is sent to `/login`. */
    method UserChanged()
      modifies auth.window
      ensures auth.window.path == (if auth.user.None? then LoginPath else old(auth.window.path))
      ensures auth.window.storage == old(auth.window.storage) && auth.window.query == old(auth.window.query)
      ensures auth.window.title == old(auth.window.title)
      ensures auth.window.requests == old(auth.window.requests) && auth.window.toasts == old(auth.window.toasts)
    {
      if auth.user.None? {
        auth.window.path := LoginPath;
      }
    }

    /** `validateForm`: the new messages replace the old map entirely. */
    method ValidateForm() returns (ok: bool)
      modifies this
      ensures ok <==> FormValid(form)
      ensures errors == FormErrors(form)
      ensures form == old(form) && isSubmitting == old(isSubmitting) && charCount == old(charCount)
    {
      ok := FormValid(form);
      errors := FormErrors(form);
    }

    /** `handleSubmit` up to its `await`: validation runs first, even while a
        submission is under way; the note is posted only when the form is
        valid and nothing is being submitted. */
    method BeginSubmit() returns (sent: bool)
      modifies this, auth.window
      ensures sent <==> FormValid(form) && !old(isSubmitting)
      ensures errors == FormErrors(form)
      ensures sent ==>
                isSubmitting
                && auth.window.requests == old(auth.window.requests) + [PostNote(form.title, form.description, form.subject)]
      ensures !sent ==> isSubmitting == old(isSubmitting) && auth.window.requests == old(auth.window.requests)
      ensures form == old(form) && charCount == old(charCount)
      ensures auth.window.storage == old(auth.window.storage) && auth.window.path == old(auth.window.path)
      ensures auth.window.query == old(auth.window.query) && auth.window.title == old(auth.window.title)
      ensures auth.window.toasts == old(auth.window.toasts)
    {
      var ok := ValidateForm();
      if !ok || isSubmitting {
        return false;
      }
      isSubmitting := true;
      auth.window.requests := auth.window.requests + [PostNote(form.title, form.description, form.subject)];
      sent := true;
    }

    /** `handleSubmit` after its `await`: a reply with `success` raises the
        notice and goes home; a 200 without it does nothing; an error shows
        the server's message or "Failed to submit notes". */
    method CompleteSubmit(response: Outcome<bool>)
      requires isSubmitting
      modifies this, auth.window
      ensures auth.window.path == (if response.Ok? && response.payload then HomePath else old(auth.window.path))
      ensures response.Ok? && response.payload ==>
                auth.window.toasts == old(auth.window.toasts)
                + [Toast(Success, "Your notes have been submitted and are awaiting approval!")]
      ensures response.Ok? && !response.payload ==> auth.window.toasts == old(auth.window.toasts)
      ensures !response.Ok? ==>
                auth.window.toasts == old(auth.window.toasts)
                + [Toast(Error, ErrorMessage(response, "Failed to submit notes"))]
      ensures !isSubmitting && form == old(form) && errors == old(errors) && charCount == old(charCount)
      ensures auth.window.storage == old(auth.window.storage) && auth.window.requests == old(auth.window.requests)
      ensures auth.window.query == old(auth.window.query) && auth.window.title == old(auth.window.title)
    {
      if response.Ok? {
        if response.payload {
          auth.window.toasts := auth.window.toasts + [Toast(Success, "Your notes have been submitted and are awaiting approval!")];
          auth.window.path := HomePath;
        }
      } else {
        auth.window.toasts := auth.window.toasts + [Toast(Error, ErrorMessage(response, "Failed to submit notes"))];
      }
      isSubmitting := false;
    }

    /** `handleChange(field)(value)`, followed by the effect on the title and
        content that refreshes the counters. */
    method HandleChange(field: NoteField, value: string)
      modifies this
      ensures form == old(form).Set(field, value)
      ensures errors == old(errors)[field := ""]
      ensures CountsCurrent()
      ensures isSubmitting == old(isSubmitting)
    {
      form := form.Set(field, value);
      errors := errors[field := ""];
      charCount := CountsOf(form);
    }
  }
}
