/** The admin dashboard: all users and all notes fetched together, the
    statistics computed from them once, the reviewer toggle, the moderation
    actions, and the two five-row previews. */
module Dashboard {
  import opened Common
  import opened Entities
  import opened Lists
  import opened Collections
  import opened Browser
  import opened Moderation

  /** The same error, carried over to another payload type. */
  function Rethrow<A, B>(o: Outcome<A>): (r: Outcome<B>)
    requires !o.Ok?
    ensures !r.Ok? && (IsUnauthorized(r) <==> IsUnauthorized(o))
    ensures forall fallback :: ErrorMessage(r, fallback) == ErrorMessage(o, fallback)
  {
    match o
    case HttpError(status, msg) => HttpError(status, msg)
    case NoResponse => NoResponse
  }

  /** `Promise.all` of the two fetches: both payloads when both arrive,
      otherwise an error of one that failed (the users request is taken
      first when both fail). */
  function Both<A, B>(a: Outcome<A>, b: Outcome<B>): (r: Outcome<(A, B)>)
    ensures r.Ok? <==> a.Ok? && b.Ok?
    ensures r.Ok? ==> r.payload == (a.payload, b.payload)
    ensures IsUnauthorized(r) <==> IsUnauthorized(a) || (a.Ok? && IsUnauthorized(b))
    ensures !a.Ok? ==> forall fallback :: ErrorMessage(r, fallback) == ErrorMessage(a, fallback)
    ensures a.Ok? && !b.Ok? ==> forall fallback :: ErrorMessage(r, fallback) == ErrorMessage(b, fallback)
  {
    if !a.Ok? then Rethrow(a)
    else if !b.Ok? then Rethrow(b)
    else Ok((a.payload, b.payload))
  }

  class DashboardPage {
    const window: Window
    var users: seq<User>
    var posts: seq<Post>
    var stats: Stats
    var loading: bool

    constructor (window: Window)
      ensures this.window == window && users == [] && posts == [] && loading
      ensures stats == Stats(0, 0, 0, 0, 0, 0, 0)
    {
      this.window := window;
      users := [];
      posts := [];
      stats := Stats(0, 0, 0, 0, 0, 0, 0);
      loading := true;
    }

    /** The figures describe the lists on the page. */
    predicate StatsCurrent()
      reads this
    {
      stats == ComputeStats(users, posts)
    }

    /** The mount effect `fetchData`, given the outcomes of its two requests. */
    method FetchData(usersResponse: Outcome<seq<User>>, postsResponse: Outcome<seq<Post>>)
      modifies this, window
      ensures var e := FetchEffectOf(old(window.Has(AdminTokenKey)), Both(usersResponse, postsResponse), "Failed to fetch data");
              && window.storage == EffectStorage(AdminGuard, old(window.storage), e)
              && window.path == EffectPath(AdminGuard, old(window.path), e)
              && window.toasts == old(window.toasts) + EffectToasts(AdminGuard, e)
              && window.requests == old(window.requests) + (if e != Refused then [GetAllUsers, GetAllPosts] else [])
              && (e == Loaded ==> users == usersResponse.payload && posts == postsResponse.payload && StatsCurrent())
              && (e != Loaded ==> users == old(users) && posts == old(posts) && stats == old(stats))
      ensures !loading
      ensures window.query == old(window.query) && window.title == old(window.title)
    {
      if !window.Has(AdminTokenKey) {
        window.toasts := window.toasts + [PleaseLogIn];
        window.path := AdminLoginPath;
        loading := false;
        return;
      }
      window.requests := window.requests + [GetAllUsers, GetAllPosts];
      var both := Both(usersResponse, postsResponse);
      if both.Ok? {
        var fetchedUsers := both.payload.0;
        var fetchedPosts := both.payload.1;
        users := fetchedUsers;
        posts := fetchedPosts;
        stats := ComputeStats(fetchedUsers, fetchedPosts);
      } else if IsUnauthorized(both) {
        window.toasts := window.toasts + [GuardSessionExpired];
        window.storage := window.storage - {AdminTokenKey};
        window.path := AdminLoginPath;
      } else {
        window.toasts := window.toasts + [Toast(Error, ErrorMessage(both, "Failed to fetch data"))];
      }
      loading := false;
    }

    /** `toggleCreator`: the matching users are replaced wholesale by the
        returned user; the statistics are not recomputed. */
    method ToggleCreator(userId: string, response: Outcome<User>)
      modifies this, window
      ensures window.requests == old(window.requests) + [PutToggle(userId, Creator)]
      ensures response.Ok? ==>
                users == ReplaceUser(old(users), userId, response.payload)
                && window.toasts == old(window.toasts) + [Toast(Success, "Reviewer status updated")]
      ensures !response.Ok? ==>
                users == old(users)
                && window.toasts == old(window.toasts)
                   + [Toast(Error, ErrorMessage(response, "Failed to update reviewer status"))]
      ensures posts == old(posts) && stats == old(stats) && loading == old(loading)
      ensures window.storage == old(window.storage) && window.path == old(window.path)
      ensures window.query == old(window.query) && window.title == old(window.title)
    {
      window.requests := window.requests + [PutToggle(userId, Creator)];
      if response.Ok? {
        users := ReplaceUser(users, userId, response.payload);
        window.toasts := window.toasts + [Toast(Success, "Reviewer status updated")];
      } else {
        window.toasts := window.toasts + [Toast(Error, ErrorMessage(response, "Failed to update reviewer status"))];
      }
    }

    /** `handlePostAction`, as on the notes page but without a busy flag; the
        statistics are not recomputed. */
    method HandlePostAction(postId: string, action: string, response: Outcome<()>)
      modifies this, window
      ensures posts == PostActionPosts(old(posts), postId, action, response)
      ensures window.requests == old(window.requests) + PostActionRequests(postId, action)
      ensures window.toasts == old(window.toasts) + PostActionToasts(action, response)
      ensures users == old(users) && stats == old(stats) && loading == old(loading)
      ensures window.storage == old(window.storage) && window.path == old(window.path)
      ensures window.query == old(window.query) && window.title == old(window.title)
    {
      var a := ParsePostAction(action);
      if a.Some? {
        window.requests := window.requests + [ActionRequest(a.value, postId)];
        if response.Ok? {
          posts := ApplyPostAction(posts, postId, a.value);
          window.toasts := window.toasts + [Toast(Success, ActionSuccessMessage(a.value))];
        } else {
          window.toasts := window.toasts + [Toast(Error, ErrorMessage(response, ActionFailureFallback(action)))];
        }
      }
    }

    /** The "recent users" table. */
    function RecentUsersShown(): (r: seq<User>)
      reads this
      ensures |r| == Min(5, |users|)
      ensures forall i :: 0 <= i < |r| ==> r[i] == users[i]
    {
      RecentUsers(users)
    }

    /** The "pending notes" table. */
    function PendingShown(): (r: seq<Post>)
      reads this
      ensures |r| == Min(5, PendingCount(posts))
      ensures forall i :: 0 <= i < |r| ==> !r[i].approved && r[i] in posts
      ensures |r| <= |Filter(posts, Unapproved)| && r == Filter(posts, Unapproved)[..|r|]
    {
      PendingPreview(posts)
    }
  }

  /** Approving a pending note on the dashboard leaves the pending figure
      behind the list: the figure was current before and the list now has one
      pending note fewer. */
  lemma StatsLagAfterApprove(users: seq<User>, posts: seq<Post>, postId: string)
    requires exists i :: 0 <= i < |posts| && posts[i].id == postId && !posts[i].approved
    ensures PendingCount(ApplyPostAction(posts, postId, Approve)) < ComputeStats(users, posts).pendingPosts
  {
    var i :| 0 <= i < |posts| && posts[i].id == postId && !posts[i].approved;
    PendingCountAfterAction(posts, postId, Approve);
    var hit := Filter(posts, (p: Post) => !p.approved && p.id == postId);
    assert posts[i] in hit;
  }
}
