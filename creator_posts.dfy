/** The creator review page: a creator-only, server-filtered page of notes,
    approve and reject with a refetch of the current page, and the pending badge. */
module CreatorPosts {
  import opened Common
  import opened Entities
  import opened Lists
  import opened Collections
  import opened Pagination
  import opened Browser
  import opened Moderation
  import opened Auth
  import AdminPosts

  const LoginPath := "/login"
  const Limit := 10

  const CreatorGuard := FetchGuard(TokenKey, LoginPath, Toast(Error, "You must be a creator to view this page"))

  /** `user?.creator` */
  predicate IsCreatorUser(user: Option<User>)
  {
    user.Some? && user.value.creator
  }

  /** The page fetches only for a stored `token` and a creator. */
  predicate MayFetch(storage: map<string, string>, user: Option<User>)
  {
    Truthy(Lookup(storage, TokenKey)) && IsCreatorUser(user)
  }

  /** The two actions this page knows; "delete" and anything else send nothing. */
  function CreatorAction(action: string): (a: Option<PostAction>)
    ensures a == Some(Approve) <==> action == "approve"
    ensures a == Some(Reject) <==> action == "reject"
    ensures a != Some(Delete)
  {
    if action == "approve" then Some(Approve)
    else if action == "reject" then Some(Reject)
    else None
  }

  /** The badge: the page's unapproved posts under the "pending" filter, 0 under any other. */
  function CreatorBadge(posts: seq<Post>, filter: string): (n: nat)
    ensures n <= |posts|
    ensures filter == "pending" ==> n == |Filter(posts, Unapproved)|
    ensures filter != "pending" ==> n == 0
  {
    var pendingCount := PendingCount(posts);
    if filter == "pending" then pendingCount else 0
  }

  /** The page is left for `/login` exactly when the guard refuses or the
      token turns out to be stale; then no usable token or no creator remains. */
  lemma CreatorLeavesExactly<T>(storage: map<string, string>, user: Option<User>, path: string,
                                response: Outcome<T>)
    requires path != LoginPath
    ensures var e := FetchEffectOf(MayFetch(storage, user), response, "Failed to fetch notes");
            EffectPath(CreatorGuard, path, e) == LoginPath
            <==> !MayFetch(EffectStorage(CreatorGuard, storage, e), user)
  {
  }

  class CreatorPostsPage {
    const auth: AuthProvider
    var posts: seq<Post>
    var pagination: PageInfo
    var loading: bool
    /** "pending", "approved" or "all"; sent to the server */
    var filter: string
    var processing: bool

    constructor (auth: AuthProvider)
      ensures this.auth == auth && posts == [] && pagination == FirstPage
      ensures loading && filter == "pending" && !processing
    {
      this.auth := auth;
      posts := [];
      pagination := FirstPage;
      loading := true;
      filter := "pending";
      processing := false;
    }

    /** What `fetchPosts(page, currentFilter)` does, given its outcome. */
    twostate predicate FetchedPosts(page: int, currentFilter: string, response: Outcome<AdminPosts.PostsPage>)
      reads this, auth, auth.window
    {
      var e := FetchEffectOf(MayFetch(old(auth.window.storage), auth.user), response, "Failed to fetch notes");
      && auth.user == old(auth.user)
      && auth.window.storage == EffectStorage(CreatorGuard, old(auth.window.storage), e)
      && auth.window.path == EffectPath(CreatorGuard, old(auth.window.path), e)
      && auth.window.toasts == old(auth.window.toasts) + EffectToasts(CreatorGuard, e)
      && auth.window.requests == old(auth.window.requests)
         + (if e != Refused then [GetPostsPage(page, Limit, Some(currentFilter))] else [])
      && (e == Loaded ==> posts == response.payload.posts && pagination == response.payload.pagination)
      && (e != Loaded ==> posts == old(posts) && pagination == old(pagination))
      && !loading && processing == old(processing)
      && auth.window.query == old(auth.window.query) && auth.window.title == old(auth.window.title)
    }

    method FetchPosts(page: int, currentFilter: string, response: Outcome<AdminPosts.PostsPage>)
      modifies this, auth.window
      ensures FetchedPosts(page, currentFilter, response) && filter == old(filter)
    {
      var window := auth.window;
      loading := true;
      if !window.Has(TokenKey) || !IsCreatorUser(auth.user) {
        window.toasts := window.toasts + [CreatorGuard.refusal];
        window.path := LoginPath;
        loading := false;
        return;
      }
      window.requests := window.requests + [GetPostsPage(page, Limit, Some(currentFilter))];
      if response.Ok? {
        posts := response.payload.posts;
        pagination := response.payload.pagination;
      } else if IsUnauthorized(response) {
        window.toasts := window.toasts + [GuardSessionExpired];
        window.storage := window.storage - {TokenKey};
        window.path := LoginPath;
      } else {
        window.toasts := window.toasts + [Toast(Error, ErrorMessage(response, "Failed to fetch notes"))];
      }
      loading := false;
    }

    /** The effect on `[user]` (it also runs on mount): page 1 with the
        current filter, for a creator only. */
    method UserChanged(response: Outcome<AdminPosts.PostsPage>)
      modifies this, auth.window
      ensures IsCreatorUser(auth.user) ==> FetchedPosts(1, old(filter), response)
      ensures !IsCreatorUser(auth.user) ==>
                posts == old(posts) && pagination == old(pagination) && loading == old(loading)
                && auth.window.requests == old(auth.window.requests)
                && auth.window.toasts == old(auth.window.toasts)
                && auth.window.storage == old(auth.window.storage) && auth.window.path == old(auth.window.path)
      ensures filter == old(filter) && processing == old(processing)
      ensures auth.window.query == old(auth.window.query) && auth.window.title == old(auth.window.title)
    {
      if IsCreatorUser(auth.user) {
        FetchPosts(1, filter, response);
      }
    }

    /** Choosing a filter; the effect on `[filter]` runs only when the value
        changes, and fetches page 1 with it only for a creator. */
    method SetFilter(newFilter: string, response: Outcome<AdminPosts.PostsPage>)
      modifies this, auth.window
      ensures filter == newFilter
      ensures newFilter != old(filter) && IsCreatorUser(auth.user) ==> FetchedPosts(1, newFilter, response)
      ensures newFilter == old(filter) || !IsCreatorUser(auth.user) ==>
                posts == old(posts) && pagination == old(pagination) && loading == old(loading)
                && auth.window.requests == old(auth.window.requests)
                && auth.window.toasts == old(auth.window.toasts)
                && auth.window.storage == old(auth.window.storage) && auth.window.path == old(auth.window.path)
      ensures processing == old(processing)
      ensures auth.window.query == old(auth.window.query) && auth.window.title == old(auth.window.title)
    {
      if newFilter != filter {
        filter := newFilter;
        if IsCreatorUser(auth.user) {
          FetchPosts(1, newFilter, response);
        }
      }
    }

    /** `handlePageChange` */
    method HandlePageChange(newPage: int, response: Outcome<AdminPosts.PostsPage>)
      modifies this, auth.window
      ensures PageChangeAllowed(newPage, old(pagination.totalPages)) ==> FetchedPosts(newPage, old(filter), response)
      ensures !PageChangeAllowed(newPage, old(pagination.totalPages)) ==>
                posts == old(posts) && pagination == old(pagination) && loading == old(loading)
                && auth.window.requests == old(auth.window.requests)
                && auth.window.toasts == old(auth.window.toasts)
                && auth.window.storage == old(auth.window.storage) && auth.window.path == old(auth.window.path)
      ensures filter == old(filter) && processing == old(processing)
      ensures auth.window.query == old(auth.window.query) && auth.window.title == old(auth.window.title)
    {
      if 1 <= newPage <= pagination.totalPages {
        FetchPosts(newPage, filter, response);
      }
    }

    /** `handlePostAction(postId, action)` given the outcome of the action and
        of the refetch it triggers. A failed action shows the error and is not
        followed by a refetch; a successful one, and an unknown action (which
        sends nothing), patch the list and then re-fetch the current page with
        the current filter. */
    method HandlePostAction(postId: string, action: string, response: Outcome<()>,
                            refetch: Outcome<AdminPosts.PostsPage>)
      modifies this, auth.window
      ensures var a := CreatorAction(action);
              a.Some? && !response.Ok? ==>
                && posts == old(posts) && pagination == old(pagination) && loading == old(loading)
                && auth.window.requests == old(auth.window.requests) + [ActionRequest(a.value, postId)]
                && auth.window.toasts == old(auth.window.toasts)
                   + [Toast(Error, ErrorMessage(response, ActionFailureFallback(action)))]
                && auth.window.storage == old(auth.window.storage) && auth.window.path == old(auth.window.path)
      ensures var a := CreatorAction(action);
              a.Some? && response.Ok? ==>
                var e := FetchEffectOf(MayFetch(old(auth.window.storage), auth.user), refetch, "Failed to fetch notes");
                && auth.window.requests == old(auth.window.requests) + [ActionRequest(a.value, postId)]
                   + (if e != Refused then [GetPostsPage(old(pagination.currentPage), Limit, Some(filter))] else [])
                && auth.window.toasts == old(auth.window.toasts) + [Toast(Success, ActionSuccessMessage(a.value))]
                   + EffectToasts(CreatorGuard, e)
                && auth.window.storage == EffectStorage(CreatorGuard, old(auth.window.storage), e)
                && auth.window.path == EffectPath(CreatorGuard, old(auth.window.path), e)
                && (e == Loaded ==> posts == refetch.payload.posts && pagination == refetch.payload.pagination)
                && (e != Loaded ==> posts == ApplyPostAction(old(posts), postId, a.value) && pagination == old(pagination))
      ensures CreatorAction(action).None? ==>
                var e := FetchEffectOf(MayFetch(old(auth.window.storage), auth.user), refetch, "Failed to fetch notes");
                && auth.window.requests == old(auth.window.requests)
                   + (if e != Refused then [GetPostsPage(old(pagination.currentPage), Limit, Some(filter))] else [])
                && auth.window.toasts == old(auth.window.toasts) + EffectToasts(CreatorGuard, e)
                && auth.window.storage == EffectStorage(CreatorGuard, old(auth.window.storage), e)
                && auth.window.path == EffectPath(CreatorGuard, old(auth.window.path), e)
                && (e == Loaded ==> posts == refetch.payload.posts && pagination == refetch.payload.pagination)
                && (e != Loaded ==> posts == old(posts) && pagination == old(pagination))
      ensures !processing && filter == old(filter) && auth.user == old(auth.user)
      ensures auth.window.query == old(auth.window.query) && auth.window.title == old(auth.window.title)
    {
      processing := true;
      var a := CreatorAction(action);
      if a.Some? {
        auth.window.requests := auth.window.requests + [ActionRequest(a.value, postId)];
        if !response.Ok? {
          auth.window.toasts := auth.window.toasts + [Toast(Error, ErrorMessage(response, ActionFailureFallback(action)))];
          processing := false;
          return;
        }
        posts := ApplyPostAction(posts, postId, a.value);
        auth.window.toasts := auth.window.toasts + [Toast(Success, ActionSuccessMessage(a.value))];
      }
      FetchPosts(pagination.currentPage, filter, refetch);
      processing := false;
    }

    function Badge(): (n: nat)
      reads this
      ensures n <= |posts|
      ensures filter == "pending" ==> n == |Filter(posts, Unapproved)|
      ensures filter != "pending" ==> n == 0
    {
      CreatorBadge(posts, filter)
    }
  }
}
