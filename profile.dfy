/** The profile page's name form: the 2..15 length rule (on the untrimmed
    name), an error map replaced wholesale, the double-submit guard, and the
    signed-in user replaced only by a reply that says `success`. */
module Profile {
  import opened Common
  import opened Entities
  import opened Browser
  import opened Auth

  const NameMax := 15
  const NameKey := "name"
  const HomePath := "/"
  const TooShort := "Name must be at least 2 characters"
  const TooLong := "Name cannot exceed 15 characters"

  /** The body of the update-name reply. */
  datatype NameReply = NameReply(success: bool, user: User)

  /** A name `validateForm` accepts: not blank, and between 2 and 15
      characters counted on the name as typed, spaces included. */
  predicate NameValid(name: string)
  {
    !Blank(name) && 2 <= |name| <= NameMax
  }

  /** The messages `validateForm` produces. */
  function NameErrors(name: string): (r: map<string, string>)
    ensures r == map[] <==> NameValid(name)
    ensures Blank(name) || |name| < 2 ==> r == map[NameKey := TooShort]
    ensures !Blank(name) && |name| > NameMax ==> r == map[NameKey := TooLong]
  {
    var r: map<string, string> :=
      if Blank(name) || |name| < 2 then map[NameKey := TooShort]
      else if |name| > NameMax then map[NameKey := TooLong]
      else map[];
    assert !NameValid(name) ==> NameKey in r;
    r
  }

  /** The length rule counts the spaces that `trim` would remove: a single
      letter after a space passes, although it is one character once trimmed. */
  lemma PaddedLetterAccepted(c: char)
    requires !IsWhitespace(c)
    ensures NameValid([' ', c]) && |Trim([' ', c])| == 1
  {
    var s := [' ', c];
    assert !AllWhitespace(s) by {
      assert s[1] == c;
    }
    assert TrimStart(s) == [c] by {
      assert IsWhitespace(s[0]);
      assert s[1..] == [c];
      assert TrimStart([c]) == [c];
    }
    assert TrimEnd([c]) == [c];
  }

  /** A valid name is never blank, so trimming keeps at least one character. */
  lemma ValidNameSurvivesTrim(name: string)
    requires NameValid(name)
    ensures Trim(name) != ""
  {
    BlankIffTrimmedEmpty(name);
  }

  class ProfilePage {
    const auth: AuthProvider
    var name: string
    var errors: map<string, string>
    var isSubmitting: bool
    var isEditing: bool

    constructor (auth: AuthProvider)
      ensures this.auth == auth
      ensures name == (if auth.user.Some? then auth.user.value.name else "")
      ensures errors == map[NameKey := ""] && !isSubmitting && !isEditing
    {
      this.auth := auth;
      name := if auth.user.Some? then auth.user.value.name else "";
      errors := map[NameKey := ""];
      isSubmitting := false;
      isEditing := false;
    }

    /** The effect on `[user]`: with no user the page goes home; otherwise the
        form takes the user's current name. */
    method UserChanged()
      modifies this, auth.window
      ensures auth.user.None? ==> auth.window.path == HomePath && name == old(name)
      ensures auth.user.Some? ==> auth.window.path == old(auth.window.path) && name == auth.user.value.name
      ensures errors == old(errors) && isSubmitting == old(isSubmitting) && isEditing == old(isEditing)
      ensures auth.window.storage == old(auth.window.storage) && auth.window.query == old(auth.window.query)
      ensures auth.window.title == old(auth.window.title)
      ensures auth.window.requests == old(auth.window.requests) && auth.window.toasts == old(auth.window.toasts)
    {
      if auth.user.None? {
        auth.window.path := HomePath;
      } else {
        name := auth.user.value.name;
      }
    }

    method StartEditing()
      modifies this
      ensures isEditing && name == old(name) && errors == old(errors) && isSubmitting == old(isSubmitting)
    {
      isEditing := true;
    }

    /** Cancel closes the form; the typed name and its message stay. */
    method CancelEditing()
      modifies this
      ensures !isEditing && name == old(name) && errors == old(errors) && isSubmitting == old(isSubmitting)
    {
      isEditing := false;
    }

    /** `validateForm`: the new messages replace the old map entirely. */
    method ValidateForm() returns (ok: bool)
      modifies this
      ensures ok <==> NameValid(name)
      ensures errors == NameErrors(name)
      ensures name == old(name) && isSubmitting == old(isSubmitting) && isEditing == old(isEditing)
    {
      ok := NameValid(name);
      errors := NameErrors(name);
    }

    /** `handleSubmitName` up to its `await`: validation runs first, and the
        update is sent only for a valid name while nothing is being submitted. */
    method BeginSubmitName() returns (sent: bool)
      modifies this, auth.window
      ensures sent <==> NameValid(name) && !old(isSubmitting)
      ensures errors == NameErrors(name)
      ensures sent ==> isSubmitting && auth.window.requests == old(auth.window.requests) + [PutUpdateName(name)]
      ensures !sent ==> isSubmitting == old(isSubmitting) && auth.window.requests == old(auth.window.requests)
      ensures name == old(name) && isEditing == old(isEditing)
      ensures auth.window.storage == old(auth.window.storage) && auth.window.path == old(auth.window.path)
      ensures auth.window.query == old(auth.window.query) && auth.window.title == old(auth.window.title)
      ensures auth.window.toasts == old(auth.window.toasts)
    {
      var ok := ValidateForm();
      if !ok || isSubmitting {
        return false;
      }
      isSubmitting := true;
      auth.window.requests := auth.window.requests + [PutUpdateName(name)];
      sent := true;
    }

    /** `handleSubmitName` after its `await`: only a reply with `success`
        replaces the signed-in user and closes the form; an error shows the
        server's message or "Error updating name" and leaves the user alone. */
    method CompleteSubmitName(response: Outcome<NameReply>)
      requires isSubmitting
      modifies this, auth, auth.window
      ensures response.Ok? && response.payload.success ==>
                auth.user == Some(response.payload.user) && !isEditing
                && auth.window.toasts == old(auth.window.toasts) + [Toast(Success, "Name updated successfully!")]
      ensures response.Ok? && !response.payload.success ==>
                auth.user == old(auth.user) && isEditing == old(isEditing)
                && auth.window.toasts == old(auth.window.toasts)
      ensures !response.Ok? ==>
                auth.user == old(auth.user) && isEditing == old(isEditing)
                && auth.window.toasts == old(auth.window.toasts) + [Toast(Error, ErrorMessage(response, "Error updating name"))]
      ensures !isSubmitting && name == old(name) && errors == old(errors)
      ensures auth.loading == old(auth.loading) && auth.authDefault == old(auth.authDefault)
      ensures auth.window.storage == old(auth.window.storage) && auth.window.path == old(auth.window.path)
      ensures auth.window.requests == old(auth.window.requests)
      ensures auth.window.query == old(auth.window.query) && auth.window.title == old(auth.window.title)
    {
      if response.Ok? {
        if response.payload.success {
          auth.user := Some(response.payload.user);
          auth.window.toasts := auth.window.toasts + [Toast(Success, "Name updated successfully!")];
          isEditing := false;
        }
      } else {
        auth.window.toasts := auth.window.toasts + [Toast(Error, ErrorMessage(response, "Error updating name"))];
      }
      isSubmitting := false;
    }

    /** `handleChange("name")(value)`: sets the name and clears only its message. */
    method HandleChange(value: string)
      modifies this
      ensures name == value && errors == old(errors)[NameKey := ""]
      ensures isSubmitting == old(isSubmitting) && isEditing == old(isEditing)
    {
      name := value;
      errors := errors[NameKey := ""];
    }
  }
}
