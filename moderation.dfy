/** What the moderation pages (admin and creator) share: the token guard
    around every fetch (what a missing token, a 401 and any other error do),
    and the approve / reject / delete handler of the notes tables. */
module Moderation {
  import opened Common
  import opened Entities
  import opened Lists
  import opened Collections
  import opened Browser

  const AdminLoginPath := "/admin5839201"
  const PleaseLogIn := Toast(Error, "Please log in as admin")
  const GuardSessionExpired := Toast(Error, "Session expired, please log in again")

  /** What a guarded page fetch needs: the `localStorage` key of its token,
      the page it sends the visitor to, and the toast that says why. */
  datatype FetchGuard = FetchGuard(tokenKey: string, loginPath: string, refusal: Toast)

  const AdminGuard := FetchGuard(AdminTokenKey, AdminLoginPath, PleaseLogIn)

  /** How a guarded fetch ends. */
  datatype FetchEffect =
    | Refused                 // the guard failed: nothing is sent
    | Loaded                  // the response arrived
    | Expired                 // 401: the token is dropped
    | Failed(message: string) // any other error, with the text shown

  function FetchEffectOf<T>(allowed: bool, response: Outcome<T>, fallback: string): (e: FetchEffect)
    ensures e == Refused <==> !allowed
    ensures e == Loaded <==> allowed && response.Ok?
    ensures e == Expired <==> allowed && IsUnauthorized(response)
    ensures e.Failed? <==> allowed && !response.Ok? && !IsUnauthorized(response)
    ensures e.Failed? ==> e.message == ErrorMessage(response, fallback)
  {
    if !allowed then Refused
    else if response.Ok? then Loaded
    else if IsUnauthorized(response) then Expired
    else Failed(ErrorMessage(response, fallback))
  }

  function EffectToasts(g: FetchGuard, e: FetchEffect): seq<Toast>
  {
    match e
    case Refused => [g.refusal]
    case Loaded => []
    case Expired => [GuardSessionExpired]
    case Failed(m) => [Toast(Error, m)]
  }

  function EffectStorage(g: FetchGuard, storage: map<string, string>, e: FetchEffect): map<string, string>
  {
    if e == Expired then storage - {g.tokenKey} else storage
  }

  function EffectPath(g: FetchGuard, path: string, e: FetchEffect): string
  {
    if e == Refused || e == Expired then g.loginPath else path
  }

  /** A page whose guard is "a token is stored" is left exactly when, after
      its fetch, no usable token is stored: a missing token and a 401 both end
      at the login page, and nothing else does. */
  lemma LeavesExactlyWithoutToken<T>(g: FetchGuard, storage: map<string, string>, path: string,
                                     response: Outcome<T>, fallback: string)
    requires path != g.loginPath
    ensures var e := FetchEffectOf(Truthy(Lookup(storage, g.tokenKey)), response, fallback);
            EffectPath(g, path, e) == g.loginPath <==> !Truthy(Lookup(EffectStorage(g, storage, e), g.tokenKey))
  {
  }

  /** Only a 401 costs the token; every other key is always kept. */
  lemma FetchKeepsOtherKeys(g: FetchGuard, storage: map<string, string>, e: FetchEffect, k: string)
    requires k != g.tokenKey
    ensures Lookup(EffectStorage(g, storage, e), k) == Lookup(storage, k)
    ensures g.tokenKey in EffectStorage(g, storage, e) <==> g.tokenKey in storage && e != Expired
  {
  }

  datatype PostAction = Approve | Reject | Delete

  /** The `action` strings `handlePostAction` knows; any other does nothing. */
  function ParsePostAction(action: string): (a: Option<PostAction>)
    ensures a == Some(Approve) <==> action == "approve"
    ensures a == Some(Reject) <==> action == "reject"
    ensures a == Some(Delete) <==> action == "delete"
  {
    if action == "approve" then Some(Approve)
    else if action == "reject" then Some(Reject)
    else if action == "delete" then Some(Delete)
    else None
  }

  function ActionRequest(a: PostAction, postId: string): Request
  {
    match a
    case Approve => PutApprovePost(postId)
    case Reject => DeleteRejectPost(postId)
    case Delete => DeletePost(postId)
  }

  function ActionSuccessMessage(a: PostAction): string
  {
    match a
    case Approve => "Notes approved"
    case Reject => "Notes rejected and deleted"
    case Delete => "Notes deleted"
  }

  /** `Failed to ${action} notes` */
  function ActionFailureFallback(action: string): string
  {
    "Failed to " + action + " notes"
  }

  /** The list after a successful action: approving marks the post approved
      in place, rejecting and deleting drop it. Either way no pending post with
      that id is left, and every other post stays. */
  function ApplyPostAction(posts: seq<Post>, postId: string, a: PostAction): (r: seq<Post>)
    ensures forall i :: 0 <= i < |r| && r[i].id == postId ==> r[i].approved
    ensures forall i :: 0 <= i < |posts| && posts[i].id != postId ==> posts[i] in r
    ensures forall i :: 0 <= i < |r| && r[i].id != postId ==> r[i] in posts
    ensures a == Approve ==> |r| == |posts|
    ensures a != Approve ==> forall i :: 0 <= i < |r| ==> r[i].id != postId
  {
    if a == Approve then ApprovePost(posts, postId) else RemovePost(posts, postId)
  }

  /** Every action removes exactly the pending posts with that id from the
      pending view, and keeps the order of the rest. */
  lemma PendingAfterAction(posts: seq<Post>, postId: string, a: PostAction)
    ensures Filter(ApplyPostAction(posts, postId, a), Unapproved)
         == Filter(posts, (p: Post) => !p.approved && p.id != postId)
  {
    if a == Approve {
      ApprovePending(posts, postId);
    } else {
      FilterCompose(posts, (p: Post) => p.id != postId, Unapproved, (p: Post) => !p.approved && p.id != postId);
    }
  }

  /** So the pending badge drops by the number of pending posts with that id. */
  lemma PendingCountAfterAction(posts: seq<Post>, postId: string, a: PostAction)
    ensures PendingCount(ApplyPostAction(posts, postId, a))
            + |Filter(posts, (p: Post) => !p.approved && p.id == postId)| == PendingCount(posts)
  {
    PendingAfterAction(posts, postId, a);
    var pending := Filter(posts, Unapproved);
    FilterCompose(posts, Unapproved, (p: Post) => p.id != postId, (p: Post) => !p.approved && p.id != postId);
    FilterCompose(posts, Unapproved, (p: Post) => p.id == postId, (p: Post) => !p.approved && p.id == postId);
    FilterPartition(pending, (p: Post) => p.id != postId, (p: Post) => p.id == postId);
  }

  /** `handlePostAction` on its outcome: the list, the requests and the toasts. */
  function PostActionPosts(posts: seq<Post>, postId: string, action: string, response: Outcome<()>): (r: seq<Post>)
    ensures ParsePostAction(action).None? || !response.Ok? ==> r == posts
    ensures ParsePostAction(action).Some? && response.Ok? ==>
              r == ApplyPostAction(posts, postId, ParsePostAction(action).value)
  {
    var a := ParsePostAction(action);
    if a.Some? && response.Ok? then ApplyPostAction(posts, postId, a.value) else posts
  }

  function PostActionRequests(postId: string, action: string): seq<Request>
  {
    var a := ParsePostAction(action);
    if a.Some? then [ActionRequest(a.value, postId)] else []
  }

  function PostActionToasts(action: string, response: Outcome<()>): seq<Toast>
  {
    var a := ParsePostAction(action);
    if a.None? then []
    else if response.Ok? then [Toast(Success, ActionSuccessMessage(a.value))]
    else [Toast(Error, ErrorMessage(response, ActionFailureFallback(action)))]
  }
}
