/** The admin users table: one page of users or a search result list, the
    three role toggles behind one busy flag, and the "Showing X - Y" label. */
module AdminUsers {
  import opened Common
  import opened Entities
  import opened Collections
  import opened Pagination
  import opened Browser
  import opened Moderation

  /** The body of `GET /api/5839201/users?page&limit`. */
  datatype UsersPage = UsersPage(users: seq<User>, pagination: PageInfo)

  const Limit := 10

  /** The confirmation types `executeAction` dispatches on; any other does nothing. */
  function ParseToggle(kind: string): (t: Option<Toggle>)
    ensures t == Some(Creator) <==> kind == "creator"
    ensures t == Some(Premium) <==> kind == "premium"
    ensures t == Some(Block) <==> kind == "block"
  {
    if kind == "creator" then Some(Creator)
    else if kind == "premium" then Some(Premium)
    else if kind == "block" then Some(Block)
    else None
  }

  /** The success toast of a toggle; the block toggle reads the new flag
      from the returned user (a missing flag reads as false). */
  function ToggleSuccess(t: Toggle, updated: UserPatch): string
  {
    match t
    case Creator => "Reviewer status updated"
    case Premium => "Pro status updated"
    case Block => if updated.blocked == Some(true) then "User blocked" else "User unblocked"
  }

  function ToggleFailureFallback(t: Toggle): string
  {
    match t
    case Creator => "Failed to update reviewer status"
    case Premium => "Failed to update pro status"
    case Block => "Failed to toggle block status"
  }

  /** `displayUsers`: the search results when there are any, else the page. */
  function DisplayUsers(users: seq<User>, searchResults: seq<User>): (r: seq<User>)
    ensures |searchResults| > 0 ==> r == searchResults
    ensures |searchResults| == 0 ==> r == users
  {
    if |searchResults| > 0 then searchResults else users
  }

  /** The two lists after `updateUserState(id, patch)`: the patch is merged
      into the search results when there are any, otherwise into the page. */
  datatype UserLists = UserLists(users: seq<User>, searchResults: seq<User>)

  function UpdatedLists(lists: UserLists, id: string, updated: UserPatch): (r: UserLists)
    ensures |lists.searchResults| > 0 ==>
              r.users == lists.users && r.searchResults == MergeUser(lists.searchResults, id, updated)
    ensures |lists.searchResults| == 0 ==>
              r.users == MergeUser(lists.users, id, updated) && r.searchResults == lists.searchResults
  {
    if |lists.searchResults| > 0 then lists.(searchResults := MergeUser(lists.searchResults, id, updated))
    else lists.(users := MergeUser(lists.users, id, updated))
  }

  /** A toggle updates exactly the list on screen: what is displayed next is
      the displayed list with the patch merged into the matching users. */
  lemma UpdateHitsDisplayedList(lists: UserLists, id: string, updated: UserPatch)
    ensures var r := UpdatedLists(lists, id, updated);
            DisplayUsers(r.users, r.searchResults)
            == MergeUser(DisplayUsers(lists.users, lists.searchResults), id, updated)
  {
  }

  /** The label above the table: a result count while searching, else the range. */
  datatype Label = ResultCount(n: nat) | Showing(range: Range)

  function UsersLabel(users: seq<User>, searchResults: seq<User>, currentPage: int): (l: Label)
    ensures |searchResults| > 0 <==> l.ResultCount?
    ensures l.ResultCount? ==> l.n == |searchResults|
    ensures l.Showing? ==>
              l.range.first == (currentPage - 1) * PageSize + 1
              && l.range.last - l.range.first + 1 == Lists.Min(PageSize, |users|)
  {
    if |searchResults| > 0 then ResultCount(|searchResults|)
    else Showing(ShowingRange(currentPage, |DisplayUsers(users, searchResults)|))
  }

  class AdminUsersPage {
    const window: Window
    var users: seq<User>
    var pagination: PageInfo
    var loading: bool
    var searchQuery: string
    var searchResults: seq<User>
    var isToggling: bool
    var isSearching: bool

    constructor (window: Window)
      ensures this.window == window && users == [] && pagination == FirstPage && loading
      ensures searchQuery == "" && searchResults == [] && !isToggling && !isSearching
    {
      this.window := window;
      users := [];
      pagination := FirstPage;
      loading := true;
      searchQuery := "";
      searchResults := [];
      isToggling := false;
      isSearching := false;
    }

    /** What `fetchUsers(page)` does, given its outcome. */
    twostate predicate FetchedUsers(page: int, response: Outcome<UsersPage>)
      reads this, window
    {
      var e := FetchEffectOf(old(window.Has(AdminTokenKey)), response, "Failed to fetch users");
      && window.storage == EffectStorage(AdminGuard, old(window.storage), e)
      && window.path == EffectPath(AdminGuard, old(window.path), e)
      && window.toasts == old(window.toasts) + EffectToasts(AdminGuard, e)
      && window.requests == old(window.requests) + (if e != Refused then [GetUsersPage(page, Limit)] else [])
      && (e == Loaded ==> users == response.payload.users && pagination == response.payload.pagination)
      && (e != Loaded ==> users == old(users) && pagination == old(pagination))
      && !loading && searchQuery == old(searchQuery) && isToggling == old(isToggling)
      && isSearching == old(isSearching)
      && window.query == old(window.query) && window.title == old(window.title)
    }

    /** `fetchUsers(page)`; the mount effect is `fetchUsers(1)`. */
    method FetchUsers(page: int, response: Outcome<UsersPage>)
      modifies this, window
      ensures FetchedUsers(page, response) && searchResults == old(searchResults)
    {
      if !window.Has(AdminTokenKey) {
        window.toasts := window.toasts + [PleaseLogIn];
        window.path := AdminLoginPath;
        loading := false;
        return;
      }
      window.requests := window.requests + [GetUsersPage(page, Limit)];
      if response.Ok? {
        users := response.payload.users;
        pagination := response.payload.pagination;
      } else if IsUnauthorized(response) {
        window.toasts := window.toasts + [GuardSessionExpired];
        window.storage := window.storage - {AdminTokenKey};
        window.path := AdminLoginPath;
      } else {
        window.toasts := window.toasts + [Toast(Error, ErrorMessage(response, "Failed to fetch users"))];
      }
      loading := false;
    }

    /** `handleSearch`, given the outcome of the search and of the page-1
        fetch a blank query triggers instead. */
    method HandleSearch(response: Outcome<seq<User>>, refetch: Outcome<UsersPage>)
      modifies this, window
      ensures Blank(old(searchQuery)) ==> searchResults == [] && FetchedUsers(1, refetch)
      ensures !Blank(old(searchQuery)) ==>
                window.requests == old(window.requests) + [SearchUsers(old(searchQuery))] && !isSearching
      ensures !Blank(old(searchQuery)) && response.Ok? ==>
                searchResults == response.payload && users == [] && window.toasts == old(window.toasts)
      ensures !Blank(old(searchQuery)) && !response.Ok? ==>
                searchResults == old(searchResults) && users == old(users)
                && window.toasts == old(window.toasts) + [Toast(Error, ErrorMessage(response, "Failed to search users"))]
      ensures !Blank(old(searchQuery)) ==>
                pagination == old(pagination) && loading == old(loading)
                && window.storage == old(window.storage) && window.path == old(window.path)
      ensures searchQuery == old(searchQuery) && isToggling == old(isToggling)
      ensures window.query == old(window.query) && window.title == old(window.title)
    {
      var blank := Blank(searchQuery);
      if blank {
        searchResults := [];
        FetchUsers(1, refetch);
        return;
      }
      isSearching := true;
      window.requests := window.requests + [SearchUsers(searchQuery)];
      if response.Ok? {
        searchResults := response.payload;
        users := [];
      } else {
        window.toasts := window.toasts + [Toast(Error, ErrorMessage(response, "Failed to search users"))];
      }
      isSearching := false;
    }

    /** A toggle up to its `await`: a no-op while another toggle is in flight. */
    method BeginToggle(userId: string, t: Toggle) returns (sent: bool)
      modifies this, window
      ensures sent <==> !old(isToggling)
      ensures isToggling
      ensures window.requests == old(window.requests) + (if sent then [PutToggle(userId, t)] else [])
      ensures users == old(users) && searchResults == old(searchResults) && pagination == old(pagination)
      ensures loading == old(loading) && searchQuery == old(searchQuery) && isSearching == old(isSearching)
      ensures window.storage == old(window.storage) && window.path == old(window.path)
      ensures window.toasts == old(window.toasts)
      ensures window.query == old(window.query) && window.title == old(window.title)
    {
      if isToggling {
        return false;
      }
      isToggling := true;
      window.requests := window.requests + [PutToggle(userId, t)];
      sent := true;
    }

    /** A toggle after its `await`: the returned user is merged into the
        list on screen; the flag is cleared either way. */
    method CompleteToggle(userId: string, t: Toggle, response: Outcome<UserPatch>)
      requires isToggling
      modifies this, window
      ensures response.Ok? ==>
                UserLists(users, searchResults)
                == UpdatedLists(UserLists(old(users), old(searchResults)), userId, response.payload)
                && window.toasts == old(window.toasts) + [Toast(Success, ToggleSuccess(t, response.payload))]
      ensures !response.Ok? ==>
                users == old(users) && searchResults == old(searchResults)
                && window.toasts == old(window.toasts) + [Toast(Error, ErrorMessage(response, ToggleFailureFallback(t)))]
      ensures !isToggling && pagination == old(pagination) && loading == old(loading)
      ensures searchQuery == old(searchQuery) && isSearching == old(isSearching)
      ensures window.requests == old(window.requests)
      ensures window.storage == old(window.storage) && window.path == old(window.path)
      ensures window.query == old(window.query) && window.title == old(window.title)
    {
      if response.Ok? {
        UpdateUserState(userId, response.payload);
        window.toasts := window.toasts + [Toast(Success, ToggleSuccess(t, response.payload))];
      } else {
        window.toasts := window.toasts + [Toast(Error, ErrorMessage(response, ToggleFailureFallback(t)))];
      }
      isToggling := false;
    }

    /** `updateUserState` */
    method UpdateUserState(userId: string, updated: UserPatch)
      modifies this
      ensures UserLists(users, searchResults) == UpdatedLists(UserLists(old(users), old(searchResults)), userId, updated)
      ensures pagination == old(pagination) && loading == old(loading) && searchQuery == old(searchQuery)
      ensures isToggling == old(isToggling) && isSearching == old(isSearching)
    {
      if |searchResults| > 0 {
        searchResults := MergeUser(searchResults, userId, updated);
      } else {
        users := MergeUser(users, userId, updated);
      }
    }

    /** `executeAction` up to the toggle's `await`: "creator", "premium" and
        "block" start their toggle; any other type does nothing. */
    method ExecuteAction(kind: string, userId: string) returns (sent: bool)
      modifies this, window
      ensures ParseToggle(kind).None? ==>
                !sent && window.requests == old(window.requests) && isToggling == old(isToggling)
      ensures ParseToggle(kind).Some? ==>
                (sent <==> !old(isToggling)) && isToggling
                && window.requests == old(window.requests)
                   + (if sent then [PutToggle(userId, ParseToggle(kind).value)] else [])
      ensures users == old(users) && searchResults == old(searchResults) && pagination == old(pagination)
      ensures loading == old(loading) && searchQuery == old(searchQuery) && isSearching == old(isSearching)
      ensures window.storage == old(window.storage) && window.path == old(window.path)
      ensures window.toasts == old(window.toasts)
      ensures window.query == old(window.query) && window.title == old(window.title)
    {
      var t := ParseToggle(kind);
      if t.Some? {
        sent := BeginToggle(userId, t.value);
      } else {
        sent := false;
      }
    }

    /** `handlePageChange` */
    method HandlePageChange(newPage: int, response: Outcome<UsersPage>)
      modifies this, window
      ensures PageChangeAllowed(newPage, old(pagination.totalPages)) ==> FetchedUsers(newPage, response)
      ensures !PageChangeAllowed(newPage, old(pagination.totalPages)) ==>
                users == old(users) && pagination == old(pagination) && loading == old(loading)
                && window.requests == old(window.requests) && window.toasts == old(window.toasts)
                && window.storage == old(window.storage) && window.path == old(window.path)
      ensures searchResults == old(searchResults) && searchQuery == old(searchQuery)
      ensures isToggling == old(isToggling) && isSearching == old(isSearching)
      ensures window.query == old(window.query) && window.title == old(window.title)
    {
      if 1 <= newPage <= pagination.totalPages {
        FetchUsers(newPage, response);
      }
    }

    /** The pager shows only while no search results are listed and there is
        more than one page. */
    predicate PagerVisible()
      reads this
    {
      |searchResults| == 0 && pagination.totalPages > 1
    }

    function Label(): (l: Label)
      reads this
      ensures |searchResults| > 0 <==> l.ResultCount?
      ensures l.ResultCount? ==> l.n == |searchResults|
      ensures l.Showing? ==>
                l.range.first == (pagination.currentPage - 1) * PageSize + 1
                && l.range.last <= pagination.currentPage * PageSize
                && l.range.last - l.range.first + 1 == Lists.Min(PageSize, |users|)
      ensures PagerVisible() ==> l.Showing?
    {
      UsersLabel(users, searchResults, pagination.currentPage)
    }
  }
}
