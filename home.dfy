/** The home page: a story viewer over one page of public notes (five per
    page), with Previous/Next that cross page boundaries, sorting, and likes
    behind a busy flag. */
module Home {
  import opened Common
  import opened Entities
  import opened Collections
  import opened Pagination
  import opened Browser
  import opened Auth
  import AdminPosts

  const Limit := 5

  /** What a Previous/Next press does: nothing, a move within the page, or a
      request for a neighbouring page together with the index to show there. */
  datatype StoryMove = Stay | Step(index: int) | Turn(page: int, index: int)

  /** `nextStory` */
  function NextStory(index: int, len: int, currentPage: int, totalPages: int): (m: StoryMove)
    ensures index < len - 1 <==> m.Step?
    ensures m.Step? ==> m.index == index + 1
    ensures m.Turn? <==> index >= len - 1 && currentPage < totalPages
    ensures m.Turn? ==> m.page == currentPage + 1 && m.index == 0
  {
    if index < len - 1 then Step(index + 1)
    else if currentPage < totalPages then Turn(currentPage + 1, 0)
    else Stay
  }

  /** `prevStory`: turning back shows the last index of the page being left. */
  function PrevStory(index: int, len: int, currentPage: int): (m: StoryMove)
    ensures index > 0 <==> m.Step?
    ensures m.Step? ==> m.index == index - 1
    ensures m.Turn? <==> index <= 0 && currentPage > 1
    ensures m.Turn? ==> m.page == currentPage - 1 && m.index == len - 1
  {
    if index > 0 then Step(index - 1)
    else if currentPage > 1 then Turn(currentPage - 1, len - 1)
    else Stay
  }

  /** The `disabled` expressions of the two buttons. */
  predicate NextDisabled(index: int, len: int, currentPage: int, totalPages: int)
  {
    index == len - 1 && currentPage == totalPages
  }

  predicate PrevDisabled(index: int, currentPage: int)
  {
    index == 0 && currentPage == 1
  }

  /** The buttons are shown only for a non-empty page with the index on it
      and the current page a real page; there each is disabled exactly when
      pressing it would do nothing. */
  lemma DisabledIffNoMove(index: int, len: int, currentPage: int, totalPages: int)
    requires 0 <= index < len && 1 <= currentPage <= totalPages
    ensures NextDisabled(index, len, currentPage, totalPages) <==> NextStory(index, len, currentPage, totalPages) == Stay
    ensures PrevDisabled(index, currentPage) <==> PrevStory(index, len, currentPage) == Stay
  {
  }

  /** A move within the page keeps the index on the page, and a turn asks
      for a page the page-change guard lets through. */
  lemma MovesStayInRange(index: int, len: int, currentPage: int, totalPages: int)
    requires 0 <= index < len && 1 <= currentPage
    ensures NextStory(index, len, currentPage, totalPages).Step? ==> 0 <= NextStory(index, len, currentPage, totalPages).index < len
    ensures PrevStory(index, len, currentPage).Step? ==> 0 <= PrevStory(index, len, currentPage).index < len
    ensures NextStory(index, len, currentPage, totalPages).Turn? ==>
              PageChangeAllowed(NextStory(index, len, currentPage, totalPages).page, totalPages)
    ensures PrevStory(index, len, currentPage).Turn? && currentPage <= totalPages ==>
              PageChangeAllowed(PrevStory(index, len, currentPage).page, totalPages)
  {
  }

  /** The body of a like response. */
  datatype LikeResult = LikeResult(likeCount: int, hasLiked: bool)

  class HomePage {
    const auth: AuthProvider
    var posts: seq<Post>
    var pagination: PageInfo
    var loading: bool
    var sortBy: string
    var activePostIndex: int
    var isLiking: bool

    constructor (auth: AuthProvider)
      ensures this.auth == auth && posts == [] && pagination == FirstPage && loading
      ensures sortBy == "newest" && activePostIndex == 0 && !isLiking
    {
      this.auth := auth;
      posts := [];
      pagination := FirstPage;
      loading := true;
      sortBy := "newest";
      activePostIndex := 0;
      isLiking := false;
    }

    /** What `fetchPosts(page, sort)` does, given its outcome; there is no
        guard, and the request goes out with or without a token. */
    twostate predicate FetchedPosts(page: int, sort: string, response: Outcome<AdminPosts.PostsPage>)
      reads this, auth, auth.window
    {
      && auth.window.requests == old(auth.window.requests) + [GetPublicPosts(page, Limit, sort)]
      && (response.Ok? ==> posts == response.payload.posts && pagination == response.payload.pagination
                           && auth.window.toasts == old(auth.window.toasts))
      && (!response.Ok? ==> posts == old(posts) && pagination == old(pagination)
                            && auth.window.toasts == old(auth.window.toasts)
                               + [Toast(Error, ErrorMessage(response, "Failed to load notes"))])
      && !loading && isLiking == old(isLiking) && auth.user == old(auth.user)
      && auth.window.storage == old(auth.window.storage) && auth.window.path == old(auth.window.path)
      && auth.window.query == old(auth.window.query) && auth.window.title == old(auth.window.title)
    }

    method FetchPosts(page: int, sort: string, response: Outcome<AdminPosts.PostsPage>)
      modifies this, auth.window
      ensures FetchedPosts(page, sort, response)
      ensures sortBy == old(sortBy) && activePostIndex == old(activePostIndex)
    {
      loading := true;
      auth.window.requests := auth.window.requests + [GetPublicPosts(page, Limit, sort)];
      if response.Ok? {
        posts := response.payload.posts;
        pagination := response.payload.pagination;
      } else {
        auth.window.toasts := auth.window.toasts + [Toast(Error, ErrorMessage(response, "Failed to load notes"))];
      }
      loading := false;
    }

    /** The effect on `[user]`: fetch page 1 only for a signed-in user;
        otherwise just stop loading. */
    method UserChanged(response: Outcome<AdminPosts.PostsPage>)
      modifies this, auth.window
      ensures auth.user.Some? ==> FetchedPosts(1, old(sortBy), response)
      ensures auth.user.None? ==>
                !loading && posts == old(posts) && pagination == old(pagination)
                && auth.window.requests == old(auth.window.requests) && auth.window.toasts == old(auth.window.toasts)
      ensures sortBy == old(sortBy) && activePostIndex == old(activePostIndex) && isLiking == old(isLiking)
      ensures auth.window.storage == old(auth.window.storage) && auth.window.path == old(auth.window.path)
      ensures auth.window.query == old(auth.window.query) && auth.window.title == old(auth.window.title)
    {
      if auth.user.Some? {
        FetchPosts(1, sortBy, response);
      } else {
        loading := false;
      }
    }

    /** The `sortChange` listener: remember the order and fetch page 1 with it. */
    method HandleSort(newSort: string, response: Outcome<AdminPosts.PostsPage>)
      modifies this, auth.window
      ensures sortBy == newSort && FetchedPosts(1, newSort, response)
      ensures activePostIndex == old(activePostIndex)
    {
      sortBy := newSort;
      FetchPosts(1, newSort, response);
    }

    /** `handlePageChange` */
    method HandlePageChange(newPage: int, response: Outcome<AdminPosts.PostsPage>)
      modifies this, auth.window
      ensures PageChangeAllowed(newPage, old(pagination.totalPages)) ==> FetchedPosts(newPage, old(sortBy), response)
      ensures !PageChangeAllowed(newPage, old(pagination.totalPages)) ==>
                posts == old(posts) && pagination == old(pagination) && loading == old(loading)
                && auth.window.requests == old(auth.window.requests) && auth.window.toasts == old(auth.window.toasts)
      ensures sortBy == old(sortBy) && activePostIndex == old(activePostIndex) && isLiking == old(isLiking)
      ensures auth.window.storage == old(auth.window.storage) && auth.window.path == old(auth.window.path)
      ensures auth.window.query == old(auth.window.query) && auth.window.title == old(auth.window.title)
    {
      if 1 <= newPage <= pagination.totalPages {
        FetchPosts(newPage, sortBy, response);
      }
    }

    /** `nextStory`, given the outcome of the page fetch a turn triggers. */
    method Next(response: Outcome<AdminPosts.PostsPage>)
      modifies this, auth.window
      ensures var m := NextStory(old(activePostIndex), old(|posts|), old(pagination.currentPage), old(pagination.totalPages));
              && (m == Stay ==> activePostIndex == old(activePostIndex) && posts == old(posts)
                                && auth.window.requests == old(auth.window.requests))
              && (m.Step? ==> activePostIndex == m.index && posts == old(posts)
                              && auth.window.requests == old(auth.window.requests))
              && (m.Turn? ==> activePostIndex == m.index)
              && (m.Turn? && PageChangeAllowed(m.page, old(pagination.totalPages)) ==>
                    FetchedPosts(m.page, old(sortBy), response))
              && (m.Turn? && !PageChangeAllowed(m.page, old(pagination.totalPages)) ==>
                    posts == old(posts) && auth.window.requests == old(auth.window.requests))
      ensures sortBy == old(sortBy) && isLiking == old(isLiking)
    {
      var m := NextStory(activePostIndex, |posts|, pagination.currentPage, pagination.totalPages);
      match m {
        case Stay =>
        case Step(i) =>
          activePostIndex := i;
        case Turn(page, i) =>
          HandlePageChange(page, response);
          activePostIndex := i;
      }
    }

    /** `prevStory`, given the outcome of the page fetch a turn triggers. */
    method Prev(response: Outcome<AdminPosts.PostsPage>)
      modifies this, auth.window
      ensures var m := PrevStory(old(activePostIndex), old(|posts|), old(pagination.currentPage));
              && (m == Stay ==> activePostIndex == old(activePostIndex) && posts == old(posts)
                                && auth.window.requests == old(auth.window.requests))
              && (m.Step? ==> activePostIndex == m.index && posts == old(posts)
                              && auth.window.requests == old(auth.window.requests))
              && (m.Turn? ==> activePostIndex == m.index)
              && (m.Turn? && PageChangeAllowed(m.page, old(pagination.totalPages)) ==>
                    FetchedPosts(m.page, old(sortBy), response))
              && (m.Turn? && !PageChangeAllowed(m.page, old(pagination.totalPages)) ==>
                    posts == old(posts) && auth.window.requests == old(auth.window.requests))
      ensures sortBy == old(sortBy) && isLiking == old(isLiking)
    {
      var m := PrevStory(activePostIndex, |posts|, pagination.currentPage);
      match m {
        case Stay =>
        case Step(i) =>
          activePostIndex := i;
        case Turn(page, i) =>
          HandlePageChange(page, response);
          activePostIndex := i;
      }
    }

    /** `handleLike` up to its `await`: nothing without a user or while a
        like is in flight. */
    method BeginLike(postId: string) returns (sent: bool)
      modifies this, auth.window
      ensures sent <==> auth.user.Some? && !old(isLiking)
      ensures sent ==> isLiking && auth.window.requests == old(auth.window.requests) + [PostLike(postId)]
      ensures !sent ==> isLiking == old(isLiking) && auth.window.requests == old(auth.window.requests)
      ensures posts == old(posts) && pagination == old(pagination) && loading == old(loading)
      ensures sortBy == old(sortBy) && activePostIndex == old(activePostIndex)
      ensures auth.window.toasts == old(auth.window.toasts) && auth.user == old(auth.user)
      ensures auth.window.storage == old(auth.window.storage) && auth.window.path == old(auth.window.path)
      ensures auth.window.query == old(auth.window.query) && auth.window.title == old(auth.window.title)
    {
      if auth.user.None? || isLiking {
        return false;
      }
      isLiking := true;
      auth.window.requests := auth.window.requests + [PostLike(postId)];
      sent := true;
    }

    /** `handleLike` after its `await`: the count and flag of the matching
        post come from the response; nothing else changes. */
    method CompleteLike(postId: string, response: Outcome<LikeResult>)
      requires isLiking
      modifies this, auth.window
      ensures response.Ok? ==>
                posts == LikePatch(old(posts), postId, response.payload.likeCount, response.payload.hasLiked)
                && auth.window.toasts == old(auth.window.toasts)
      ensures !response.Ok? ==>
                posts == old(posts)
                && auth.window.toasts == old(auth.window.toasts) + [Toast(Error, ErrorMessage(response, "Failed to rate note"))]
      ensures !isLiking && pagination == old(pagination) && loading == old(loading)
      ensures sortBy == old(sortBy) && activePostIndex == old(activePostIndex)
      ensures auth.window.requests == old(auth.window.requests) && auth.user == old(auth.user)
      ensures auth.window.storage == old(auth.window.storage) && auth.window.path == old(auth.window.path)
      ensures auth.window.query == old(auth.window.query) && auth.window.title == old(auth.window.title)
    {
      if response.Ok? {
        posts := LikePatch(posts, postId, response.payload.likeCount, response.payload.hasLiked);
      } else {
        auth.window.toasts := auth.window.toasts + [Toast(Error, ErrorMessage(response, "Failed to rate note"))];
      }
      isLiking := false;
    }
  }
}
