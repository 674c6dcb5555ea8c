/** The admin login page: redirect when an admin token is already stored,
    a double-submit guard, and the admin token stored only on a reply that
    says `success`. */
module AdminLogin {
  import opened Common
  import opened Browser
  import Api

  const DashboardPath := "/admin5839201/dashboard"

  /** The body of the admin login reply. */
  datatype AdminLoginPayload = AdminLoginPayload(success: bool, token: string)

  /** `isSubmitting || !email || !password` is false. */
  predicate SubmitAllowed(isSubmitting: bool, email: string, password: string)
  {
    !isSubmitting && email != "" && password != ""
  }

  /** The reply stores an admin token exactly when it arrived and said `success`. */
  predicate Accepted(response: Outcome<AdminLoginPayload>)
  {
    response.Ok? && response.payload.success
  }

  /** `localStorage` after the reply: an accepted reply stores its token under
      `adminToken`; anything else, including a 200 without `success`, leaves
      storage alone. */
  function AdminLoginStorage(storage: map<string, string>, response: Outcome<AdminLoginPayload>): (r: map<string, string>)
    ensures Accepted(response) ==> Lookup(r, AdminTokenKey) == Some(response.payload.token)
    ensures Accepted(response) ==> forall k :: k in storage && k != AdminTokenKey ==> k in r && r[k] == storage[k]
    ensures Accepted(response) ==> forall k :: k in r ==> k in storage || k == AdminTokenKey
    ensures !Accepted(response) ==> r == storage
  {
    if Accepted(response) then storage[AdminTokenKey := response.payload.token] else storage
  }

  /** The toasts of the reply: success, the server's message or "Admin login
      failed" on an error, and none for a 200 without `success`. */
  function AdminLoginToasts(response: Outcome<AdminLoginPayload>): (t: seq<Toast>)
    ensures |t| <= 1
    ensures Accepted(response) <==> t == [Toast(Success, "Admin login successful!")]
    ensures response.Ok? && !response.payload.success ==> t == []
    ensures !response.Ok? ==> t == [Toast(Error, ErrorMessage(response, "Admin login failed"))]
  {
    if Accepted(response) then [Toast(Success, "Admin login successful!")]
    else if response.Ok? then []
    else [Toast(Error, ErrorMessage(response, "Admin login failed"))]
  }

  /** Once an accepted reply has stored a non-empty token, every admin-prefixed
      request other than the login itself carries that token as a bearer token. */
  lemma AcceptedLoginAuthorizesAdminRequests(storage: map<string, string>, response: Outcome<AdminLoginPayload>, path: string)
    requires Accepted(response) && response.payload.token != ""
    requires Api.StartsWith(path, Api.AdminPrefix) && path != Api.AdminLoginUrl
    ensures Api.AuthorizationFor(Some(path), AdminLoginStorage(storage, response))
         == Some(Api.BearerValue(response.payload.token))
  {
    assert path != Api.UserLoginUrl by {
      assert Api.UserLoginUrl[5] != Api.AdminPrefix[5];
    }
    Api.TokenByNamespace(path, AdminLoginStorage(storage, response));
  }

  class AdminLoginPage {
    const window: Window
    var email: string
    var password: string
    var isSubmitting: bool

    constructor (window: Window)
      ensures this.window == window && email == "" && password == "" && !isSubmitting
    {
      this.window := window;
      email := "";
      password := "";
      isSubmitting := false;
    }

    /** The mount effect: an already stored admin token goes to the dashboard. */
    method OnMount()
      modifies window
      ensures window.path == if old(window.Has(AdminTokenKey)) then DashboardPath else old(window.path)
      ensures window.storage == old(window.storage) && window.query == old(window.query)
      ensures window.title == old(window.title)
      ensures window.requests == old(window.requests) && window.toasts == old(window.toasts)
    {
      if window.Has(AdminTokenKey) {
        window.path := DashboardPath;
      }
    }

    /** `handleSubmit` up to its `await`: sends the login request only when the
        guard lets it through, and marks the form as submitting. */
    method BeginSubmit() returns (sent: bool)
      modifies this, window
      ensures sent <==> SubmitAllowed(old(isSubmitting), email, password)
      ensures sent ==> isSubmitting && window.requests == old(window.requests) + [PostAdminLogin(email, password)]
      ensures !sent ==> isSubmitting == old(isSubmitting) && window.requests == old(window.requests)
      ensures email == old(email) && password == old(password)
      ensures window.storage == old(window.storage) && window.path == old(window.path)
      ensures window.query == old(window.query) && window.title == old(window.title)
      ensures window.toasts == old(window.toasts)
    {
      if isSubmitting || email == "" || password == "" {
        return false;
      }
      isSubmitting := true;
      window.requests := window.requests + [PostAdminLogin(email, password)];
      sent := true;
    }

    /** `handleSubmit` after its `await`: stores the token and goes to the
        dashboard on an accepted reply; always clears the submitting flag. */
    method CompleteSubmit(response: Outcome<AdminLoginPayload>)
      requires isSubmitting
      modifies this, window
      ensures !isSubmitting && email == old(email) && password == old(password)
      ensures window.storage == AdminLoginStorage(old(window.storage), response)
      ensures window.toasts == old(window.toasts) + AdminLoginToasts(response)
      ensures window.path == if Accepted(response) then DashboardPath else old(window.path)
      ensures window.requests == old(window.requests)
      ensures window.query == old(window.query) && window.title == old(window.title)
    {
      if response.Ok? {
        if response.payload.success {
          window.storage := window.storage[AdminTokenKey := response.payload.token];
          window.toasts := window.toasts + [Toast(Success, "Admin login successful!")];
          window.path := DashboardPath;
        }
      } else {
        window.toasts := window.toasts + [Toast(Error, ErrorMessage(response, "Admin login failed"))];
      }
      isSubmitting := false;
    }
  }
}
