/** The admin notes table: one page of notes at a time, a status filter over
    the loaded page, the pending badge, and the moderation actions. */
module AdminPosts {
  import opened Common
  import opened Entities
  import opened Lists
  import opened Collections
  import opened Pagination
  import opened Browser
  import opened Moderation

  /** The body of `GET /api/posts?page&limit`. */
  datatype PostsPage = PostsPage(posts: seq<Post>, pagination: PageInfo)

  const Limit := 10

  class AdminPostsPage {
    const window: Window
    var posts: seq<Post>
    var pagination: PageInfo
    var loading: bool
    /** "all", "pending" or "approved", from the select element */
    var filter: string
    var processing: bool

    constructor (window: Window)
      ensures this.window == window && posts == [] && pagination == FirstPage
      ensures loading && filter == "all" && !processing
    {
      this.window := window;
      posts := [];
      pagination := FirstPage;
      loading := true;
      filter := "all";
      processing := false;
    }

    /** What `fetchPosts(page)` does to the page and the window, given the
        outcome of its request. */
    twostate predicate FetchedPosts(page: int, response: Outcome<PostsPage>)
      reads this, window
    {
      var e := FetchEffectOf(old(window.Has(AdminTokenKey)), response, "Failed to fetch notes");
      && window.storage == EffectStorage(AdminGuard, old(window.storage), e)
      && window.path == EffectPath(AdminGuard, old(window.path), e)
      && window.toasts == old(window.toasts) + EffectToasts(AdminGuard, e)
      && window.requests == old(window.requests) + (if e != Refused then [GetPostsPage(page, Limit, None)] else [])
      && (e == Loaded ==> posts == response.payload.posts && pagination == response.payload.pagination)
      && (e != Loaded ==> posts == old(posts) && pagination == old(pagination))
      && !loading && filter == old(filter) && processing == old(processing)
      && window.query == old(window.query) && window.title == old(window.title)
    }

    /** `fetchPosts(page)`; the mount effect is `fetchPosts(1)`. The filter
        is not sent: it applies to the loaded page only. */
    method FetchPosts(page: int, response: Outcome<PostsPage>)
      modifies this, window
      ensures FetchedPosts(page, response)
    {
      loading := true;
      if !window.Has(AdminTokenKey) {
        window.toasts := window.toasts + [PleaseLogIn];
        window.path := AdminLoginPath;
        loading := false;
        return;
      }
      window.requests := window.requests + [GetPostsPage(page, Limit, None)];
      if response.Ok? {
        posts := response.payload.posts;
        pagination := response.payload.pagination;
      } else if IsUnauthorized(response) {
        window.toasts := window.toasts + [GuardSessionExpired];
        window.storage := window.storage - {AdminTokenKey};
        window.path := AdminLoginPath;
      } else {
        window.toasts := window.toasts + [Toast(Error, ErrorMessage(response, "Failed to fetch notes"))];
      }
      loading := false;
    }

    /** `handlePageChange`: only a page within `1..totalPages` is fetched;
        any other leaves everything as it was. */
    method HandlePageChange(newPage: int, response: Outcome<PostsPage>)
      modifies this, window
      ensures PageChangeAllowed(newPage, old(pagination.totalPages)) ==> FetchedPosts(newPage, response)
      ensures !PageChangeAllowed(newPage, old(pagination.totalPages)) ==>
                posts == old(posts) && pagination == old(pagination) && loading == old(loading)
                && window.requests == old(window.requests) && window.toasts == old(window.toasts)
                && window.storage == old(window.storage) && window.path == old(window.path)
      ensures filter == old(filter) && processing == old(processing)
      ensures window.query == old(window.query) && window.title == old(window.title)
    {
      if 1 <= newPage <= pagination.totalPages {
        FetchPosts(newPage, response);
      }
    }

    /** `handlePostAction(postId, action)`: the buttons are disabled while
        `processing`, but the handler itself does not check it; it always
        ends with `processing` false. */
    method HandlePostAction(postId: string, action: string, response: Outcome<()>)
      modifies this, window
      ensures posts == PostActionPosts(old(posts), postId, action, response)
      ensures window.requests == old(window.requests) + PostActionRequests(postId, action)
      ensures window.toasts == old(window.toasts) + PostActionToasts(action, response)
      ensures !processing && pagination == old(pagination) && filter == old(filter) && loading == old(loading)
      ensures window.storage == old(window.storage) && window.path == old(window.path)
      ensures window.query == old(window.query) && window.title == old(window.title)
    {
      processing := true;
      var a := ParsePostAction(action);
      if a.Some? {
        window.requests := window.requests + [ActionRequest(a.value, postId)];
        if response.Ok? {
          posts := ApplyPostAction(posts, postId, a.value);
          window.toasts := window.toasts + [Toast(Success, ActionSuccessMessage(a.value))];
        } else {
          window.toasts := window.toasts + [Toast(Error, ErrorMessage(response, ActionFailureFallback(action)))];
        }
      }
      processing := false;
    }

    /** `filteredPosts` */
    function FilteredPosts(): (r: seq<Post>)
      reads this
      ensures filter == "pending" ==> r == Filter(posts, Unapproved)
      ensures filter == "approved" ==> r == Filter(posts, Approved)
      ensures filter != "pending" && filter != "approved" ==> r == posts
      ensures |r| <= |posts| && forall i :: 0 <= i < |r| ==> r[i] in posts
    {
      StatusFilter(posts, filter)
    }

    /** The "pending" badge: the length of the filtered list under the
        "pending" filter and a fresh count otherwise; both are the number of
        unapproved posts on the page. */
    function PendingBadge(): (n: nat)
      reads this
      ensures n == PendingCount(posts)
    {
      if filter == "pending" then |FilteredPosts()| else PendingCount(posts)
    }

    /** The pager shows only when the filtered list is non-empty and there is
        more than one page. */
    predicate PagerVisible()
      reads this
    {
      |FilteredPosts()| > 0 && pagination.totalPages > 1
    }
  }
}
