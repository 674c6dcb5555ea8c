/** The axios instance's interceptors: which stored token a request carries,
    the two login URLs that carry none, and the `Bearer ` prefix of the
    bearer scheme (section 2.1 of RFC 6750). */
module Api {
  import opened Common
  import opened Browser

  const AdminPrefix := "/api/5839201"
  const AdminLoginUrl := "/api/5839201/login"
  const UserLoginUrl := "/api/user/login"
  const BearerPrefix := "Bearer "
  const AuthorizationHeader := "Authorization"

  /** `s.startsWith(p)` */
  predicate StartsWith(s: string, p: string)
  {
    |p| <= |s| && s[..|p|] == p
  }

  /** `s.includes(p)` */
  predicate Contains(s: string, p: string)
    decreases |s|
  {
    StartsWith(s, p) || (s != [] && Contains(s[1..], p))
  }

  /** `p` occurs in `s` starting at position `i`. */
  predicate OccursAt(s: string, p: string, i: int)
  {
    0 <= i <= |s| - |p| && s[i..i + |p|] == p
  }

  /** `includes` finds `p` exactly when `p` occurs at some position of `s`. */
  lemma {:induction false} ContainsAt(s: string, p: string)
    ensures Contains(s, p) <==> exists i :: OccursAt(s, p, i)
    decreases |s|
  {
    if StartsWith(s, p) {
      assert OccursAt(s, p, 0);
    } else if s != [] {
      ContainsAt(s[1..], p);
      if exists i :: OccursAt(s[1..], p, i) {
        var i :| OccursAt(s[1..], p, i);
        assert s[i + 1..i + 1 + |p|] == s[1..][i..i + |p|];
        assert OccursAt(s, p, i + 1);
      }
      if exists i :: OccursAt(s, p, i) {
        var i :| OccursAt(s, p, i);
        assert i != 0;
        assert s[1..][i - 1..i - 1 + |p|] == s[i..i + |p|];
        assert OccursAt(s[1..], p, i - 1);
      }
    }
  }

  /** The `localStorage` key the request interceptor reads:
      `config.url?.startsWith("/api/5839201") ? "adminToken" : "token"`. */
  function StorageKeyFor(url: Option<string>): (k: string)
    ensures k == AdminTokenKey <==> url.Some? && StartsWith(url.value, AdminPrefix)
    ensures k == TokenKey <==> !(url.Some? && StartsWith(url.value, AdminPrefix))
  {
    if url.Some? && StartsWith(url.value, AdminPrefix) then AdminTokenKey else TokenKey
  }

  /** `token.includes("Bearer ") ? token : `Bearer ${token}`` */
  function BearerValue(token: string): (v: string)
    ensures Contains(v, BearerPrefix)
    ensures v == token || v == BearerPrefix + token
    ensures v == token <==> Contains(token, BearerPrefix)
  {
    if Contains(token, BearerPrefix) then token
    else
      assert StartsWith(BearerPrefix + token, BearerPrefix);
      BearerPrefix + token
  }

  /** Prefixing is idempotent: a value already carrying the scheme is kept. */
  lemma BearerIdempotent(token: string)
    ensures BearerValue(BearerValue(token)) == BearerValue(token)
  {
  }

  /** The Authorization value the request interceptor sets, if any: the
      namespace's stored token with the bearer prefix, unless the token is
      missing or empty or the URL is one of the two login URLs. */
  function AuthorizationFor(url: Option<string>, storage: map<string, string>): (h: Option<string>)
    ensures h.Some? <==> Truthy(Lookup(storage, StorageKeyFor(url)))
                         && url != Some(AdminLoginUrl) && url != Some(UserLoginUrl)
    ensures h.Some? ==> h.value == BearerValue(storage[StorageKeyFor(url)])
  {
    var token := Lookup(storage, StorageKeyFor(url));
    if Truthy(token) && url != Some(AdminLoginUrl) && url != Some(UserLoginUrl)
    then Some(BearerValue(token.value))
    else None
  }

  /** The mutable request config axios hands to the interceptor. */
  class RequestConfig {
    var url: Option<string>
    var headers: map<string, string>

    constructor (url: Option<string>, headers: map<string, string>)
      ensures this.url == url && this.headers == headers
    {
      this.url := url;
      this.headers := headers;
    }
  }

  /** The request interceptor: sets `config.headers.Authorization` in place,
      touches no other header and nothing else, and returns the same config. */
  method InterceptRequest(config: RequestConfig, window: Window) returns (r: RequestConfig)
    modifies config
    ensures r == config && config.url == old(config.url)
    ensures AuthorizationFor(config.url, window.storage).Some? ==>
              config.headers == old(config.headers)[AuthorizationHeader := AuthorizationFor(config.url, window.storage).value]
    ensures AuthorizationFor(config.url, window.storage).None? ==> config.headers == old(config.headers)
  {
    var h := AuthorizationFor(config.url, window.storage);
    if h.Some? {
      config.headers := config.headers[AuthorizationHeader := h.value];
    }
    r := config;
  }

  /** The header a request finally carries when its caller also passed
      `headers: { Authorization: explicit }`: the interceptor runs last. */
  function SentAuthorization(url: Option<string>, explicit: Option<string>, storage: map<string, string>): (h: Option<string>)
    ensures AuthorizationFor(url, storage).Some? ==> h == AuthorizationFor(url, storage)
    ensures AuthorizationFor(url, storage).None? ==> h == explicit
  {
    var fromStore := AuthorizationFor(url, storage);
    if fromStore.Some? then fromStore else explicit
  }

  /** Requests under the admin prefix (other than its login) carry the admin
      token, every other request the user token. */
  lemma TokenByNamespace(path: string, storage: map<string, string>)
    requires path != AdminLoginUrl && path != UserLoginUrl
    ensures StartsWith(path, AdminPrefix) && Truthy(Lookup(storage, AdminTokenKey)) ==>
              AuthorizationFor(Some(path), storage) == Some(BearerValue(storage[AdminTokenKey]))
    ensures !StartsWith(path, AdminPrefix) && Truthy(Lookup(storage, TokenKey)) ==>
              AuthorizationFor(Some(path), storage) == Some(BearerValue(storage[TokenKey]))
  {
  }

  /** The admin moderation pages call `/api/posts/...`, which is outside the
      admin prefix: when a user token is also stored, that token, and not the
      admin token the page passes, is what the request carries. */
  lemma AdminPostsRouteCarriesUserToken(postId: string, storage: map<string, string>, adminToken: string)
    requires Truthy(Lookup(storage, TokenKey))
    ensures SentAuthorization(Some("/api/posts/" + postId + "/approve"), Some(adminToken), storage)
         == Some(BearerValue(storage[TokenKey]))
  {
    var url := "/api/posts/" + postId + "/approve";
    assert url[..|AdminPrefix|][5] == 'p';
    assert !StartsWith(url, AdminPrefix);
  }

  /** A missing or empty token leaves the caller's header as it was. */
  lemma NoTokenKeepsExplicit(url: Option<string>, explicit: Option<string>, storage: map<string, string>)
    requires !Truthy(Lookup(storage, StorageKeyFor(url)))
    ensures SentAuthorization(url, explicit, storage) == explicit
  {
  }
}
