/** The session store of `AuthProvider`: the current user, the loading flag,
    the axios default Authorization header, and the three credential keys it
    keeps in `localStorage` (`token`, `refreshToken`, `profilePicture`).
    Each operation is specified by a pure transition on a `Session` value;
    the class methods apply those transitions to the shared window. */
module Auth {
  import opened Common
  import opened Entities
  import opened Browser

  /** What the auth operations read and write: the whole of `localStorage`,
      the current user and `api.defaults.headers.common.Authorization`. */
  datatype Session = Session(storage: map<string, string>, user: Option<User>, authDefault: Option<string>)

  /** The body of a successful login response. */
  datatype LoginPayload = LoginPayload(token: string, refreshToken: Option<string>, user: User)

  /** The keys an operation leaves alone keep their values. */
  ghost predicate SameOutside(a: map<string, string>, b: map<string, string>, keys: set<string>)
  {
    forall k :: k !in keys ==> Lookup(a, k) == Lookup(b, k)
  }

  predicate HasToken(s: Session)
  {
    Truthy(Lookup(s.storage, TokenKey))
  }

  const SessionExpired := Toast(Error, "Session expired, please log in again")
  const BlockedNotice := Toast(Error, "Your account has been blocked. Contact support.")
  const LoggedOut := Toast(Success, "Logged out successfully")

  /** `checkAuth`: with no stored token nothing happens; otherwise the profile
      is fetched, downgraded if its premium has lapsed, stored as the user and
      its picture cached; a 401 drops the access token and the picture (the
      refresh token stays) and clears the user; any other error changes nothing. */
  function CheckAuthResult(s: Session, profile: Outcome<User>, now: int): (r: Session)
    ensures !HasToken(s) ==> r == s
    ensures HasToken(s) && profile.Ok? ==>
              && r.user == Some(ApplyPremiumExpiry(profile.payload, now))
              && r.authDefault == Some(s.storage[TokenKey])
              && Lookup(r.storage, ProfilePictureKey)
                 == (if Truthy(profile.payload.profilePicture) then profile.payload.profilePicture
                     else Lookup(s.storage, ProfilePictureKey))
              && SameOutside(r.storage, s.storage, {ProfilePictureKey})
    ensures HasToken(s) && IsUnauthorized(profile) ==>
              && r.user == None && r.authDefault == None
              && TokenKey !in r.storage && ProfilePictureKey !in r.storage
              && SameOutside(r.storage, s.storage, {TokenKey, ProfilePictureKey})
    ensures HasToken(s) && !profile.Ok? && !IsUnauthorized(profile) ==>
              r == s.(authDefault := Some(s.storage[TokenKey]))
  {
    if !HasToken(s) then s
    else
      var token := s.storage[TokenKey];
      if profile.Ok? then
        var u := ApplyPremiumExpiry(profile.payload, now);
        var storage := if Truthy(u.profilePicture) then s.storage[ProfilePictureKey := u.profilePicture.value]
                       else s.storage;
        Session(storage, Some(u), Some(token))
      else if IsUnauthorized(profile) then Session(s.storage - {TokenKey, ProfilePictureKey}, None, None)
      else s.(authDefault := Some(token))
  }

  function CheckAuthRequests(s: Session): seq<Request>
  {
    if HasToken(s) then [GetProfile] else []
  }

  function CheckAuthToasts(s: Session, profile: Outcome<User>): seq<Toast>
  {
    if HasToken(s) && IsUnauthorized(profile) then [SessionExpired] else []
  }

  /** The storage writes of the bootstrap step: a URL `token` is stored, and
      the URL `refreshToken` only together with it. */
  function BootstrapStorage(storage: map<string, string>, query: map<string, string>): (r: map<string, string>)
    ensures !Truthy(Lookup(query, "token")) ==> r == storage
    ensures Truthy(Lookup(query, "token")) ==> Lookup(r, TokenKey) == Lookup(query, "token")
    ensures Truthy(Lookup(query, "token")) ==>
              Lookup(r, RefreshTokenKey)
              == if Truthy(Lookup(query, "refreshToken")) then Lookup(query, "refreshToken")
                 else Lookup(storage, RefreshTokenKey)
    ensures SameOutside(r, storage, {TokenKey, RefreshTokenKey})
  {
    var urlToken := Lookup(query, "token");
    var urlRefresh := Lookup(query, "refreshToken");
    if !Truthy(urlToken) then storage
    else
      var withToken := storage[TokenKey := urlToken.value];
      if Truthy(urlRefresh) then withToken[RefreshTokenKey := urlRefresh.value] else withToken
  }

  /** The toast the bootstrap raises for `?error=user_blocked`, whatever the tokens. */
  function BootstrapToasts(query: map<string, string>): seq<Toast>
  {
    if Lookup(query, "error") == Some("user_blocked") then [BlockedNotice] else []
  }

  /** `login` on its outcome: success stores the token, the refresh token and
      the picture when present, sets the user and the default header; a
      failure leaves the session exactly as it was. */
  function LoginResult(s: Session, response: Outcome<LoginPayload>): (r: Session)
    ensures !response.Ok? ==> r == s
    ensures response.Ok? ==>
              && Lookup(r.storage, TokenKey) == Some(response.payload.token)
              && Lookup(r.storage, RefreshTokenKey)
                 == (if Truthy(response.payload.refreshToken) then response.payload.refreshToken
                     else Lookup(s.storage, RefreshTokenKey))
              && Lookup(r.storage, ProfilePictureKey)
                 == (if Truthy(response.payload.user.profilePicture) then response.payload.user.profilePicture
                     else Lookup(s.storage, ProfilePictureKey))
              && SameOutside(r.storage, s.storage, {TokenKey, RefreshTokenKey, ProfilePictureKey})
              && r.user == Some(response.payload.user)
              && r.authDefault == Some(response.payload.token)
  {
    match response
    case Ok(p) =>
      var st := s.storage[TokenKey := p.token];
      var st := if Truthy(p.refreshToken) then st[RefreshTokenKey := p.refreshToken.value] else st;
      var st := if Truthy(p.user.profilePicture) then st[ProfilePictureKey := p.user.profilePicture.value] else st;
      Session(st, Some(p.user), Some(p.token))
    case _ => s
  }

  /** `logout`: exactly the three credential keys go, the user and the
      default header are cleared; `adminToken`, `theme` and every other key stay. */
  function LogoutResult(s: Session): (r: Session)
    ensures TokenKey !in r.storage && RefreshTokenKey !in r.storage && ProfilePictureKey !in r.storage
    ensures SameOutside(r.storage, s.storage, {TokenKey, RefreshTokenKey, ProfilePictureKey})
    ensures r.user == None && r.authDefault == None
  {
    Session(s.storage - {TokenKey, RefreshTokenKey, ProfilePictureKey}, None, None)
  }

  /** Logging out twice is logging out once. */
  lemma LogoutIdempotent(s: Session)
    ensures LogoutResult(LogoutResult(s)) == LogoutResult(s)
  {
  }

  /** `refreshToken`: no stored refresh token, or a failed exchange, ends in
      logout; a new access token is stored and the profile re-resolved. */
  function RefreshResult(s: Session, refresh: Outcome<string>, profile: Outcome<User>, now: int): (r: Session)
    ensures !Truthy(Lookup(s.storage, RefreshTokenKey)) ==> r == LogoutResult(s)
    ensures !refresh.Ok? ==> r == LogoutResult(s)
    ensures Truthy(Lookup(s.storage, RefreshTokenKey)) && refresh.Ok? ==>
              r == CheckAuthResult(Session(s.storage[TokenKey := refresh.payload], s.user, Some(refresh.payload)), profile, now)
  {
    if Truthy(Lookup(s.storage, RefreshTokenKey)) && refresh.Ok? then
      CheckAuthResult(Session(s.storage[TokenKey := refresh.payload], s.user, Some(refresh.payload)), profile, now)
    else LogoutResult(s)
  }

  /** After a successful exchange the profile fetch that follows cannot
      end the session: on a 401 the refresh token survives and only the new
      access token and the picture go; on success the new token is kept. */
  lemma RefreshThenProfile(s: Session, newToken: string, profile: Outcome<User>, now: int)
    requires Truthy(Lookup(s.storage, RefreshTokenKey)) && newToken != ""
    ensures IsUnauthorized(profile) ==>
              var r := RefreshResult(s, Ok(newToken), profile, now);
              && r.user == None && TokenKey !in r.storage
              && Lookup(r.storage, RefreshTokenKey) == Lookup(s.storage, RefreshTokenKey)
    ensures profile.Ok? ==>
              var r := RefreshResult(s, Ok(newToken), profile, now);
              && Lookup(r.storage, TokenKey) == Some(newToken)
              && Lookup(r.storage, RefreshTokenKey) == Lookup(s.storage, RefreshTokenKey)
              && r.user == Some(ApplyPremiumExpiry(profile.payload, now))
  {
    var s' := Session(s.storage[TokenKey := newToken], s.user, Some(newToken));
    assert HasToken(s');
    assert Lookup(s'.storage, RefreshTokenKey) == Lookup(s.storage, RefreshTokenKey);
  }

  /** After a successful login followed by a profile check that succeeds,
      the stored user is never a lapsed premium user. */
  lemma ResolvedUserNotLapsed(s: Session, profile: Outcome<User>, now: int)
    requires HasToken(s) && profile.Ok?
    ensures CheckAuthResult(s, profile, now).user.Some?
    ensures !PremiumExpired(CheckAuthResult(s, profile, now).user.value, now)
  {
  }

  class AuthProvider {
    const window: Window
    var user: Option<User>
    var loading: bool
    /** `api.defaults.headers.common["Authorization"]` */
    var authDefault: Option<string>

    function State(): Session
      reads this, window
    {
      Session(window.storage, user, authDefault)
    }

    constructor (window: Window)
      ensures this.window == window && user == None && loading && authDefault == None
    {
      this.window := window;
      user := None;
      loading := true;
      authDefault := None;
    }

    /** `checkAuth`, given the outcome of the profile request and the clock. */
    method CheckAuth(profile: Outcome<User>, now: int)
      modifies this, window
      ensures State() == CheckAuthResult(old(State()), profile, now)
      ensures window.requests == old(window.requests) + CheckAuthRequests(old(State()))
      ensures window.toasts == old(window.toasts) + CheckAuthToasts(old(State()), profile)
      ensures loading == old(loading) && window.path == old(window.path)
      ensures window.query == old(window.query) && window.title == old(window.title)
    {
      if !window.Has(TokenKey) {
        return;
      }
      var token := window.storage[TokenKey];
      authDefault := Some(token);
      window.requests := window.requests + [GetProfile];
      if profile.Ok? {
        var u := ApplyPremiumExpiry(profile.payload, now);
        if Truthy(u.profilePicture) {
          window.storage := window.storage[ProfilePictureKey := u.profilePicture.value];
        }
        user := Some(u);
      } else if IsUnauthorized(profile) {
        window.storage := window.storage - {TokenKey} - {ProfilePictureKey};
        authDefault := None;
        user := None;
        window.toasts := window.toasts + [SessionExpired];
      }
      assert window.storage == CheckAuthResult(old(State()), profile, now).storage;
    }

    /** `initializeAuth`: reads the URL, stores delivered tokens, strips the
      query string (replacing history, title "AppName") only when a token came
      with it, resolves the profile, and always ends with loading false. */
    method InitializeAuth(profile: Outcome<User>, now: int)
      modifies this, window
      ensures var boot := Session(BootstrapStorage(old(window.storage), old(window.query)), old(user), old(authDefault));
              && State() == CheckAuthResult(boot, profile, now)
              && window.requests == old(window.requests) + CheckAuthRequests(boot)
              && window.toasts == old(window.toasts) + BootstrapToasts(old(window.query)) + CheckAuthToasts(boot, profile)
      ensures Truthy(Lookup(old(window.query), "token")) ==>
                window.path == "/" && window.query == map[] && window.title == "AppName"
      ensures !Truthy(Lookup(old(window.query), "token")) ==>
                window.path == old(window.path) && window.query == old(window.query) && window.title == old(window.title)
      ensures !loading
    {
      var query := window.query;
      var tokenFromUrl := Lookup(query, "token");
      var error := Lookup(query, "error");
      if error == Some("user_blocked") {
        window.toasts := window.toasts + [BlockedNotice];
      }
      var refreshTokenFromUrl := Lookup(query, "refreshToken");
      if Truthy(tokenFromUrl) {
        var storage := window.storage[TokenKey := tokenFromUrl.value];
        if Truthy(refreshTokenFromUrl) {
          storage := storage[RefreshTokenKey := refreshTokenFromUrl.value];
        }
        window.storage := storage;
        window.path := "/";
        window.query := map[];
        window.title := "AppName";
      }
      CheckAuth(profile, now);
      loading := false;
    }

    /** `login`: returns true, or throws the server's message ("Login failed"
        when it sent none); loading is false afterwards either way. */
    method Login(email: string, password: string, response: Outcome<LoginPayload>) returns (r: Completion)
      modifies this, window
      ensures State() == LoginResult(old(State()), response)
      ensures window.requests == old(window.requests) + [PostLogin(email, password)]
      ensures response.Ok? ==>
                r == Returned && window.path == "/"
                && window.toasts == old(window.toasts) + [Toast(Success, "Login successful!")]
      ensures !response.Ok? ==>
                r == Threw(ErrorMessage(response, "Login failed")) && window.path == old(window.path)
                && window.toasts == old(window.toasts) + [Toast(Error, ErrorMessage(response, "Login failed"))]
      ensures !loading && window.query == old(window.query) && window.title == old(window.title)
    {
      loading := true;
      window.requests := window.requests + [PostLogin(email, password)];
      match response {
        case Ok(p) =>
          var storage := window.storage[TokenKey := p.token];
          if Truthy(p.refreshToken) {
            storage := storage[RefreshTokenKey := p.refreshToken.value];
          }
          if Truthy(p.user.profilePicture) {
            storage := storage[ProfilePictureKey := p.user.profilePicture.value];
          }
          window.storage := storage;
          authDefault := Some(p.token);
          user := Some(p.user);
          window.toasts := window.toasts + [Toast(Success, "Login successful!")];
          window.path := "/";
          r := Returned;
        case _ =>
          var msg := ErrorMessage(response, "Login failed");
          window.toasts := window.toasts + [Toast(Error, msg)];
          r := Threw(msg);
      }
      loading := false;
    }

    /** `logout`: cannot fail; navigates to `/login`. */
    method Logout()
      modifies this, window
      ensures State() == LogoutResult(old(State()))
      ensures window.path == "/login" && window.toasts == old(window.toasts) + [LoggedOut]
      ensures window.requests == old(window.requests) && loading == old(loading)
      ensures window.query == old(window.query) && window.title == old(window.title)
    {
      window.storage := window.storage - {TokenKey} - {RefreshTokenKey} - {ProfilePictureKey};
      authDefault := None;
      user := None;
      window.toasts := window.toasts + [LoggedOut];
      window.path := "/login";
    }

    /** `refreshToken`, given the outcome of the exchange and of the profile
        fetch that follows it. Without a stored refresh token no request is sent. */
    method RefreshToken(refresh: Outcome<string>, profile: Outcome<User>, now: int)
      modifies this, window
      ensures State() == RefreshResult(old(State()), refresh, profile, now)
      ensures !Truthy(Lookup(old(window.storage), RefreshTokenKey)) ==>
                window.requests == old(window.requests)
                && window.path == "/login" && window.toasts == old(window.toasts) + [LoggedOut]
      ensures Truthy(Lookup(old(window.storage), RefreshTokenKey)) && !refresh.Ok? ==>
                window.requests == old(window.requests) + [PostRefreshToken(old(window.storage)[RefreshTokenKey])]
                && window.path == "/login" && window.toasts == old(window.toasts) + [LoggedOut]
      ensures Truthy(Lookup(old(window.storage), RefreshTokenKey)) && refresh.Ok? ==>
                var next := Session(old(window.storage)[TokenKey := refresh.payload], old(user), Some(refresh.payload));
                && window.requests == old(window.requests) + [PostRefreshToken(old(window.storage)[RefreshTokenKey])]
                   + CheckAuthRequests(next)
                && window.toasts == old(window.toasts) + CheckAuthToasts(next, profile) + [Toast(Success, "Session refreshed")]
                && window.path == old(window.path)
      ensures loading == old(loading) && window.query == old(window.query) && window.title == old(window.title)
    {
      var stored := Lookup(window.storage, RefreshTokenKey);
      if !Truthy(stored) {
        Logout();
        return;
      }
      window.requests := window.requests + [PostRefreshToken(stored.value)];
      match refresh {
        case Ok(token) =>
          window.storage := window.storage[TokenKey := token];
          authDefault := Some(token);
          CheckAuth(profile, now);
          window.toasts := window.toasts + [Toast(Success, "Session refreshed")];
        case _ =>
          Logout();
      }
    }
  }
}
