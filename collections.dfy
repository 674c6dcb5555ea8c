/** The list updates the moderation pages apply after a successful call, and
    the counts and previews they show: approve (map), reject/delete (filter),
    like patch, merge and replace by id, status filter, pending count, stats. */
module Collections {
  import opened Common
  import opened Entities
  import opened Lists

  predicate Unapproved(p: Post) { !p.approved }
  predicate Approved(p: Post) { p.approved }

  /** `posts.map(p => p._id === id ? { ...p, approved: true } : p)` */
  function ApprovePost(posts: seq<Post>, id: string): (r: seq<Post>)
    ensures |r| == |posts|
    ensures forall i :: 0 <= i < |r| && posts[i].id != id ==> r[i] == posts[i]
    ensures forall i :: 0 <= i < |r| && posts[i].id == id ==>
              r[i].approved && r[i] == posts[i].(approved := true)
  {
    seq(|posts|, i requires 0 <= i < |posts| =>
      if posts[i].id == id then posts[i].(approved := true) else posts[i])
  }

  /** After approving `id`, the pending posts are the old pending posts
      except those with that id, in the same order. */
  lemma {:induction false} ApprovePending(posts: seq<Post>, id: string)
    ensures Filter(ApprovePost(posts, id), Unapproved)
         == Filter(posts, (p: Post) => !p.approved && p.id != id)
  {
    if posts != [] {
      ApprovePending(posts[1..], id);
      assert ApprovePost(posts, id)[1..] == ApprovePost(posts[1..], id);
    }
  }

  /** Approving twice is approving once. */
  lemma {:induction false} ApproveIdempotent(posts: seq<Post>, id: string)
    ensures ApprovePost(ApprovePost(posts, id), id) == ApprovePost(posts, id)
  {
    if posts != [] {
      ApproveIdempotent(posts[1..], id);
      assert ApprovePost(posts, id)[1..] == ApprovePost(posts[1..], id);
    }
  }

  /** `posts.filter(p => p._id !== id)` */
  function RemovePost(posts: seq<Post>, id: string): (r: seq<Post>)
    ensures forall i :: 0 <= i < |r| ==> r[i].id != id && r[i] in posts
    ensures forall i :: 0 <= i < |posts| && posts[i].id != id ==> posts[i] in r
  {
    Filter(posts, (p: Post) => p.id != id)
  }

  /** Removal drops exactly the posts with that id: every other post stays
      as many times as it was there, and the removed ones are all gone. */
  lemma RemovePostExact(posts: seq<Post>, id: string, p: Post)
    ensures multiset(RemovePost(posts, id))[p] == if p.id == id then 0 else multiset(posts)[p]
    ensures |RemovePost(posts, id)| + |Filter(posts, (q: Post) => q.id == id)| == |posts|
  {
    FilterMultiset(posts, (q: Post) => q.id != id, p);
    FilterPartition(posts, (q: Post) => q.id != id, (q: Post) => q.id == id);
  }

  /** Removal keeps the relative order of the remaining posts. */
  lemma RemovePostOrder(a: seq<Post>, b: seq<Post>, id: string)
    ensures RemovePost(a + b, id) == RemovePost(a, id) + RemovePost(b, id)
  {
    FilterConcat(a, b, (p: Post) => p.id != id);
  }

  /** Removing a post no one has changes nothing. */
  lemma RemovePostAbsent(posts: seq<Post>, id: string)
    requires forall i :: 0 <= i < |posts| ==> posts[i].id != id
    ensures RemovePost(posts, id) == posts
  {
    FilterAll(posts, (p: Post) => p.id != id);
  }

  /** `posts.map(post => post._id === id ? { ...post, likeCount, hasLiked } : post)` */
  function LikePatch(posts: seq<Post>, id: string, likeCount: int, hasLiked: bool): (r: seq<Post>)
    ensures |r| == |posts|
    ensures forall i :: 0 <= i < |r| && posts[i].id != id ==> r[i] == posts[i]
    ensures forall i :: 0 <= i < |r| && posts[i].id == id ==>
              r[i].likeCount == likeCount && r[i].hasLiked == hasLiked
              && r[i].(likeCount := posts[i].likeCount, hasLiked := posts[i].hasLiked) == posts[i]
  {
    if posts == [] then []
    else [if posts[0].id == id then posts[0].(likeCount := likeCount, hasLiked := hasLiked) else posts[0]]
         + LikePatch(posts[1..], id, likeCount, hasLiked)
  }

  /** `filteredPosts`: "pending" keeps the unapproved posts, "approved" the
      approved ones, and any other filter value (the page uses "all") keeps
      every post. */
  function StatusFilter(posts: seq<Post>, filter: string): (r: seq<Post>)
    ensures filter == "pending" ==> r == Filter(posts, Unapproved)
    ensures filter == "approved" ==> r == Filter(posts, Approved)
    ensures filter != "pending" && filter != "approved" ==> r == posts
  {
    if filter == "pending" then Filter(posts, Unapproved)
    else if filter == "approved" then Filter(posts, Approved)
    else posts
  }

  /** The pending and approved views partition the list. */
  lemma StatusFilterPartition(posts: seq<Post>)
    ensures |StatusFilter(posts, "pending")| + |StatusFilter(posts, "approved")| == |posts|
    ensures multiset(StatusFilter(posts, "pending")) + multiset(StatusFilter(posts, "approved"))
         == multiset(posts)
  {
    FilterPartition(posts, Unapproved, Approved);
  }

  /** `posts.filter(post => !post.approved).length` */
  function PendingCount(posts: seq<Post>): (n: nat)
    ensures n <= |posts|
    ensures n == 0 <==> forall i :: 0 <= i < |posts| ==> posts[i].approved
  {
    var pending := Filter(posts, Unapproved);
    assert pending != [] ==> pending[0] in posts && !pending[0].approved;
    |pending|
  }

  /** `users.map(u => u._id === id ? updated : u)`: the matching users are
      replaced wholesale. */
  function ReplaceUser(users: seq<User>, id: string, updated: User): (r: seq<User>)
    ensures |r| == |users|
    ensures forall i :: 0 <= i < |r| ==> r[i] == if users[i].id == id then updated else users[i]
  {
    seq(|users|, i requires 0 <= i < |users| => if users[i].id == id then updated else users[i])
  }

  /** `users.map(u => u._id === id ? { ...u, ...patch } : u)` */
  function MergeUser(users: seq<User>, id: string, patch: UserPatch): (r: seq<User>)
    ensures |r| == |users|
    ensures forall i :: 0 <= i < |r| && users[i].id != id ==> r[i] == users[i]
    ensures forall i :: 0 <= i < |r| && users[i].id == id ==> r[i] == Merge(users[i], patch)
  {
    seq(|users|, i requires 0 <= i < |users| => if users[i].id == id then Merge(users[i], patch) else users[i])
  }

  /** Merging a complete user object is the wholesale replacement. */
  lemma MergeFullIsReplace(users: seq<User>, id: string, v: User)
    ensures MergeUser(users, id, FullPatch(v)) == ReplaceUser(users, id, v)
  {
    forall i | 0 <= i < |users| ensures MergeUser(users, id, FullPatch(v))[i] == ReplaceUser(users, id, v)[i] {
      MergeFullPatch(users[i], v);
    }
  }

  predicate IsCreator(u: User) { u.creator }
  predicate IsPremium(u: User) { u.premium }
  predicate IsBlocked(u: User) { u.blocked }

  datatype Stats = Stats(
    totalUsers: nat,
    totalCreators: nat,
    totalPremium: nat,
    totalBlocked: nat,
    totalPosts: nat,
    pendingPosts: nat,
    approvedPosts: nat)

  /** The dashboard statistics of the fetched lists. */
  function ComputeStats(users: seq<User>, posts: seq<Post>): (s: Stats)
    ensures s.totalUsers == |users| && s.totalPosts == |posts|
    ensures s.totalCreators <= s.totalUsers && s.totalPremium <= s.totalUsers
    ensures s.totalBlocked <= s.totalUsers
    ensures s.totalCreators == Count(users, IsCreator) && s.totalPremium == Count(users, IsPremium)
    ensures s.totalBlocked == Count(users, IsBlocked)
    ensures s.pendingPosts + s.approvedPosts == s.totalPosts
    ensures s.pendingPosts == PendingCount(posts)
  {
    FilterPartition(posts, Unapproved, Approved);
    Stats(|users|, Count(users, IsCreator), Count(users, IsPremium), Count(users, IsBlocked),
          |posts|, Count(posts, Unapproved), Count(posts, Approved))
  }

  /** The dashboard's "recent users" table: the first five users. */
  function RecentUsers(users: seq<User>): (r: seq<User>)
    ensures |r| == Min(5, |users|)
    ensures forall i :: 0 <= i < |r| ==> r[i] == users[i]
  {
    Take(users, 5)
  }

  /** The dashboard's "pending notes" table: the first five unapproved posts, in list order. */
  function PendingPreview(posts: seq<Post>): (r: seq<Post>)
    ensures |r| == Min(5, PendingCount(posts))
    ensures forall i :: 0 <= i < |r| ==> !r[i].approved && r[i] in posts
    ensures |r| <= |Filter(posts, Unapproved)| && r == Filter(posts, Unapproved)[..|r|]
  {
    Take(Filter(posts, Unapproved), 5)
  }
}
