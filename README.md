# NoteExchange front end: a Dafny model

NoteExchange is a notes-sharing web application. Its React front end lets
students read and like approved notes, submit notes for review, and manage
their profile. Creators review pending notes, and administrators (under the
`/admin5839201` routes) moderate notes and toggle the creator, premium and
blocked flags of users.

This project models the deterministic rules of that front end:

- **The session store** (`AuthProvider`) and the **admin login**:
  - which `localStorage` keys are written and removed by the URL bootstrap,
    `checkAuth`, `login`, `logout`, `refreshToken` and the admin login;
  - the lazy premium-expiry downgrade.
- **The request interceptor of the axios instance**:
  - it picks the admin or the user token by URL prefix;
  - it does not touch the two login URLs;
  - it adds the `Bearer ` prefix of the bearer scheme (section 2.1 of RFC 6750).
- **The page window and the page-change guard** shared by the three paginated
  tables. The source copies the window code three times; it is modelled once,
  in `Pagination.PageWindow`.
- **The list updates of the moderation pages**: approve, reject and delete,
  merge or replace a user by id, the like patch, the status filter, the counts
  and the five-row previews.
- **The home page's story viewer**: Previous/Next moves across page boundaries,
  and the predicates that disable the two buttons.
- **The forms** of the register page (two steps), the submit page and the
  profile page: their validation messages, how their error maps are updated,
  and their double-submit guards.
- **The `FormField` component**: its character counter and colours, and the
  password show/hide toggle.

How the model is built:

- The browser is one `Browser.Window` object. It holds:
  - `localStorage` as a string map;
  - the location path and query;
  - the document title;
  - two logs that stand for the outside world: the requests sent, one value
    per endpoint, and the toasts raised.
- Every awaited HTTP call is a parameter of type `Common.Outcome`: the payload,
  an error response with its status and optional `msg`, or no response at all.
- A handler guarded by a busy flag (`isSubmitting`, `isToggling`, `isLiking`)
  is split at its `await` into two methods:
  - `Begin…` runs the guard, sets the flag and logs the request;
  - `Complete…` takes the outcome and requires the flag to be set.
- Each page is a class. Its fields are the page's React state, and its methods
  are the page's handlers and effects.
- Each method's postcondition is stated against pure functions. The properties
  the source promises are proved about those functions as lemmas.

## Code over documentation

The written description of the auth flow and the code disagree in several
places. The model follows the code in each of them:

- **A 401 on the profile request** removes only `token` and `profilePicture`.
  The refresh token stays in `localStorage` (`Auth.CheckAuthResult`).
- **A successful login** stores `refreshToken` and `profilePicture` only when
  the reply carries them (`Auth.LoginResult`). The stored user is the reply's
  user as sent, with no premium-expiry downgrade. The downgrade happens only in
  `checkAuth` (`Auth.ResolvedUserNotLapsed` states it for that path only).
- **After a successful token exchange**, a failing profile request does not end
  in `logout`, and "Session refreshed" is still raised:
  - on a 401 the refresh token survives and no user remains;
  - on any other error the session is kept as it was.

  See `Auth.RefreshThenProfile` and `Auth.AuthProvider.RefreshToken`.
- **`logout` removes exactly three keys**. `adminToken` and every other key
  remain (`Auth.LogoutResult`).
- **`checkAuth` with no stored token** changes nothing. A user already in
  memory stays.

## Model

| member | source | states |
|---|---|---|
| Common.ErrorMessage | src/contexts/AuthContext.jsx:107 | the text shown for a failed call is the server's `msg` when it sent a non-empty one, otherwise the fallback |
| Common.BlankIffTrimmedEmpty | src/app/register/page.jsx:45 | `s.trim()` is empty exactly when `s` consists of whitespace only, so the `Blank` test used by every form is `!s.trim()` |
| Entities.Merge | src/app/admin5839201/users/page.jsx:193-199 | spreading a toggle reply over a user: each of the creator, premium and blocked flags the reply carries wins, each it lacks keeps the user's value, and a reply without an id keeps the user's id |
| Entities.MergeIdempotent | src/app/admin5839201/users/page.jsx:193-199 | spreading the same reply twice is spreading it once |
| Entities.MergeFullPatch | src/app/admin5839201/users/page.jsx:193-199 | spreading a complete user object replaces the user wholesale |
| Entities.MergeEmptyPatch | src/app/admin5839201/users/page.jsx:193-199 | spreading an empty object changes nothing |
| Entities.ApplyPremiumExpiry | src/contexts/AuthContext.jsx:64-71 | the fetched user is changed exactly when premium, an expiry is set and the clock is past it; then premium is false and the expiry null, no other field changes, and the result is never a lapsed premium user |
| Entities.PremiumExpiryIdempotent | src/contexts/AuthContext.jsx:64-71 | applying the downgrade again changes nothing |
| Lists.Filter | src/app/admin5839201/posts/page.jsx:146-150 | `filter` keeps exactly the passing elements: every kept element passes and is from the input, and every passing input element is kept |
| Lists.FilterConcat | src/app/admin5839201/posts/page.jsx:121 | filtering a concatenation filters the parts in order, so the survivors keep their relative order |
| Lists.FilterMultiset | src/app/admin5839201/posts/page.jsx:121 | a passing element survives as often as it occurs in the input, and a failing one not at all |
| Lists.FilterPartition | src/app/admin5839201/posts/page.jsx:146-150 | a test and its negation split the list: the lengths add up, and so do the multisets |
| Lists.FilterAll | src/app/admin5839201/posts/page.jsx:149 | when every element passes, filtering is the identity |
| Lists.FilterCompose | src/app/admin5839201/dashboard/page.jsx:439-441 | filtering by one test and then another keeps the elements that pass both |
| Lists.Take | src/app/admin5839201/dashboard/page.jsx:339 | `slice(0, n)` has `min(n, length)` elements and they are the first ones |
| Api.ContainsAt | src/lib/api.js:31 | `includes` finds a pattern exactly when it occurs at some position |
| Api.StorageKeyFor | src/lib/api.js:23-25 | the interceptor reads `adminToken` exactly for URLs that start with `/api/5839201`, and `token` for every other URL, including a missing URL |
| Api.BearerValue | src/lib/api.js:31-33 | a token containing `Bearer ` is used verbatim, otherwise `Bearer ` is put in front; either way the value carries the scheme |
| Api.BearerIdempotent | src/lib/api.js:31-33 | prefixing an already prefixed value returns it unchanged |
| Api.AuthorizationFor | src/lib/api.js:23-34 | a header is set exactly when the namespace's stored token is non-empty and the URL is neither `/api/5839201/login` nor `/api/user/login`; its value is the prefixed token |
| Api.InterceptRequest | src/lib/api.js:21-45 | the interceptor changes only `headers.Authorization`, leaves the headers alone when no header is due, and returns the same config object |
| Api.SentAuthorization | src/lib/api.js:26-34 | a header a page passes explicitly is overwritten by the interceptor whenever the interceptor sets one, and is kept otherwise |
| Api.TokenByNamespace | src/lib/api.js:23-30 | every non-login URL under the admin prefix carries the admin token, and every other URL carries the user token, when that token is stored |
| Api.AdminPostsRouteCarriesUserToken | src/app/admin5839201/posts/page.jsx:108-112 | the admin approve request goes to `/api/posts/...`, which is outside the admin prefix; when a user token is stored, that token, not the admin token the page passes, is what the request carries |
| Api.NoTokenKeepsExplicit | src/lib/api.js:26-34 | a missing or empty token leaves the caller's header as it was |
| Auth.CheckAuthResult | src/contexts/AuthContext.jsx:56-86 | no token: nothing changes. Success: the downgraded user is stored, the picture is cached when present, and no other key changes. 401: `token` and `profilePicture` go, the user and the default header are cleared, and the refresh token stays. Other errors: only the default header is set |
| Auth.BootstrapStorage | src/contexts/AuthContext.jsx:35-38 | a URL `token` is stored; the URL `refreshToken` is stored only together with it; no other key changes |
| Auth.LoginResult | src/contexts/AuthContext.jsx:89-113 | success stores the token, stores the refresh token and the picture only when present, sets the user and the default header, and changes no other key; failure leaves the whole session as it was |
| Auth.LogoutResult | src/contexts/AuthContext.jsx:129-137 | exactly `token`, `refreshToken` and `profilePicture` are removed, every other key keeps its value, and the user and the default header are cleared |
| Auth.LogoutIdempotent | src/contexts/AuthContext.jsx:129-134 | logging out twice is logging out once |
| Auth.RefreshResult | src/contexts/AuthContext.jsx:140-157 | with no stored refresh token, or a failed exchange, the result is logout; otherwise the new token is stored and the profile is re-resolved with it |
| Auth.RefreshThenProfile | src/contexts/AuthContext.jsx:145-152 | after a successful exchange, a profile 401 leaves no user and no access token but keeps the refresh token; a profile success keeps the new token and the refresh token and stores the downgraded user |
| Auth.ResolvedUserNotLapsed | src/contexts/AuthContext.jsx:64-76 | a successful profile check always stores a user, and never a lapsed premium one |
| Auth.AuthProvider.constructor | src/contexts/AuthContext.jsx:17-18 | no user, loading, no default header |
| Auth.AuthProvider.CheckAuth | src/contexts/AuthContext.jsx:56-86 | the new session is `CheckAuthResult` of the old one. The profile request is sent only with a token, and the "Session expired" toast is raised only on a 401 |
| Auth.AuthProvider.InitializeAuth | src/contexts/AuthContext.jsx:21-53 | the blocked notice depends only on `error=user_blocked`. The bootstrap storage is followed by `checkAuth`. The URL is rewritten to `/` with the title "AppName" only when a token came with it. Loading ends false |
| Auth.AuthProvider.Login | src/contexts/AuthContext.jsx:89-113 | the session becomes `LoginResult`. Success returns true, raises "Login successful!" and goes to `/`. Failure throws and shows the server's message or "Login failed", with the path unchanged. Loading ends false |
| Auth.AuthProvider.Logout | src/contexts/AuthContext.jsx:129-137 | the session becomes `LogoutResult`, the path becomes `/login`, one success toast is raised, and no request is sent |
| Auth.AuthProvider.RefreshToken | src/contexts/AuthContext.jsx:140-157 | with no refresh token: no request, then logout. A failed exchange: the exchange request, then logout. A successful one: the exchange, the profile check with the new token, then "Session refreshed" |
| Collections.ApprovePost | src/app/admin5839201/posts/page.jsx:113-115 | same length and order; posts with the id become approved with no other field changed, and all other posts are unchanged |
| Collections.ApprovePending | src/app/admin5839201/posts/page.jsx:113-115 | after approving, the pending posts are the old pending posts without that id, in the same order |
| Collections.ApproveIdempotent | src/app/admin5839201/posts/page.jsx:113-115 | approving twice is approving once |
| Collections.RemovePost | src/app/admin5839201/posts/page.jsx:121 | no post with the id remains, and every other post is kept |
| Collections.RemovePostExact | src/app/admin5839201/posts/page.jsx:121 | every post without the id is kept as many times as it occurred, and the removed posts are exactly those with the id |
| Collections.RemovePostOrder | src/app/admin5839201/posts/page.jsx:127 | removal keeps the relative order of the remaining posts |
| Collections.RemovePostAbsent | src/app/admin5839201/posts/page.jsx:127 | removing an id no post has changes nothing |
| Collections.LikePatch | src/app/page.jsx:97-107 | same length; the matching posts take `likeCount` and `hasLiked` from the reply with no other field changed, and all other posts are unchanged |
| Collections.StatusFilter | src/app/admin5839201/posts/page.jsx:146-150 | "pending" keeps the unapproved posts, "approved" the approved ones, and any other value keeps all of them |
| Collections.StatusFilterPartition | src/app/admin5839201/posts/page.jsx:146-150 | the pending and the approved views partition the list: lengths and multisets add up |
| Collections.PendingCount | src/app/creator-posts/page.jsx:157 | the count is 0 exactly when every post is approved |
| Collections.ReplaceUser | src/app/admin5839201/dashboard/page.jsx:99 | same length; the matching users are replaced by the reply's user, and all others are unchanged |
| Collections.MergeUser | src/app/admin5839201/users/page.jsx:193-199 | same length; the matching users get the reply merged in, and all others are unchanged |
| Collections.MergeFullIsReplace | src/app/admin5839201/dashboard/page.jsx:99 | merging a complete user is the dashboard's wholesale replacement |
| Collections.ComputeStats | src/app/admin5839201/dashboard/page.jsx:61-69 | the user and post totals are the lengths; the creator, premium and blocked figures are the numbers of users with that flag, each at most the user total; pending plus approved is the post total; pending is the number of unapproved posts |
| Collections.RecentUsers | src/app/admin5839201/dashboard/page.jsx:339 | the first `min(5, n)` users, in order |
| Collections.PendingPreview | src/app/admin5839201/dashboard/page.jsx:439-441 | the first `min(5, pending)` unapproved posts, in list order, all from the list |
| Moderation.FetchEffectOf | src/app/admin5839201/posts/page.jsx:54-86 | a guarded fetch is refused exactly without its token, loads exactly on success, expires exactly on a 401, and otherwise fails with the server's message or the page's fallback |
| Moderation.LeavesExactlyWithoutToken | src/app/admin5839201/posts/page.jsx:57-76 | a guarded page goes to its login page exactly when, after the fetch, no usable token is stored |
| Moderation.FetchKeepsOtherKeys | src/app/admin5839201/posts/page.jsx:73-76 | only a 401 costs the token, and no other key is ever touched |
| Moderation.ParsePostAction | src/app/admin5839201/posts/page.jsx:107-129 | "approve", "reject" and "delete" are recognised, each exactly, and nothing else is |
| Moderation.ApplyPostAction | src/app/admin5839201/posts/page.jsx:113-127 | after any action no unapproved post with the id is left and every other post stays; approve keeps the length, and reject and delete leave no post with the id |
| Moderation.PendingAfterAction | src/app/admin5839201/posts/page.jsx:113-127 | every action removes exactly the pending posts with the id from the pending view, in order |
| Moderation.PendingCountAfterAction | src/app/admin5839201/posts/page.jsx:218-220 | the pending badge drops by exactly the number of pending posts with the id |
| Moderation.PostActionPosts | src/app/admin5839201/posts/page.jsx:103-138 | an unknown action or a failed call leaves the list alone; a successful known action applies it |
| AdminPosts.AdminPostsPage.FetchPosts | src/app/admin5839201/posts/page.jsx:54-86 | no `adminToken`: no request, "Please log in as admin", go to `/admin5839201`. Success replaces posts and pagination. 401: drops `adminToken` and redirects. Other errors: a toast. `loading` ends false |
| AdminPosts.AdminPostsPage.HandlePageChange | src/app/admin5839201/posts/page.jsx:140-144 | only a page in `1..totalPages` is fetched; any other changes nothing |
| AdminPosts.AdminPostsPage.HandlePostAction | src/app/admin5839201/posts/page.jsx:103-138 | the list becomes `PostActionPosts`; only a known action sends a request; the success or failure toast is raised; `processing` ends false |
| AdminPosts.AdminPostsPage.FilteredPosts | src/app/admin5839201/posts/page.jsx:146-150 | the view under "pending" is the unapproved posts in order, under "approved" the approved ones, and under any other filter all posts |
| AdminPosts.AdminPostsPage.PendingBadge | src/app/admin5839201/posts/page.jsx:218-220 | under every filter the badge is the number of unapproved posts |
| AdminUsers.ParseToggle | src/app/admin5839201/users/page.jsx:113-119 | "creator", "premium" and "block" each select their toggle; any other type selects none |
| AdminUsers.DisplayUsers | src/app/admin5839201/users/page.jsx:240 | the search results when there are any, otherwise the page of users |
| AdminUsers.UpdatedLists | src/app/admin5839201/users/page.jsx:191-201 | the reply is merged into the search results when there are any, otherwise into the page; the other list is unchanged |
| AdminUsers.UpdateHitsDisplayedList | src/app/admin5839201/users/page.jsx:191-201 | what is displayed after a toggle is the previously displayed list with the reply merged into the matching users |
| AdminUsers.UsersLabel | src/app/admin5839201/users/page.jsx:253-260 | a result count exactly while searching; otherwise "Showing" from `(c-1)*10+1`, spanning `min(10, n)` users |
| AdminUsers.AdminUsersPage.FetchUsers | src/app/admin5839201/users/page.jsx:39-73 | the admin token guard, and what success, a 401 and other errors do, as on the notes page; the search results are untouched |
| AdminUsers.AdminUsersPage.HandleSearch | src/app/admin5839201/users/page.jsx:75-102 | a blank query clears the results and fetches page 1 without a search request. Otherwise the search is sent; success sets the results and empties the page; failure shows a toast and changes no list |
| AdminUsers.AdminUsersPage.BeginToggle | src/app/admin5839201/users/page.jsx:122-189 | a toggle sends its request exactly when no toggle is in flight, the busy flag is set afterwards either way, and no list, toast or stored key changes |
| AdminUsers.AdminUsersPage.CompleteToggle | src/app/admin5839201/users/page.jsx:122-189 | a reply is merged into the displayed list with the toggle's message (blocked or unblocked from the reply); an error shows its message and changes no list; the flag is cleared |
| AdminUsers.AdminUsersPage.UpdateUserState | src/app/admin5839201/users/page.jsx:191-201 | the two lists become `UpdatedLists` of the old ones; nothing else changes |
| AdminUsers.AdminUsersPage.ExecuteAction | src/app/admin5839201/users/page.jsx:109-120 | the three known types start their toggle under the busy guard; any other type does nothing |
| AdminUsers.AdminUsersPage.HandlePageChange | src/app/admin5839201/users/page.jsx:203-207 | only a page in `1..totalPages` is fetched |
| AdminUsers.AdminUsersPage.Label | src/app/admin5839201/users/page.jsx:253-260 | a result count exactly while searching; otherwise "Showing" from `(currentPage-1)*10+1`, ending at most at `currentPage*10` and spanning `min(10, n)` users; whenever the pager is visible, the label is a "Showing" range |
| CreatorPosts.CreatorAction | src/app/creator-posts/page.jsx:112-128 | the creator page knows "approve" and "reject" only; "delete" is never an action there |
| CreatorPosts.CreatorBadge | src/app/creator-posts/page.jsx:244 | the number of unapproved posts under the "pending" filter, 0 under any other |
| CreatorPosts.CreatorLeavesExactly | src/app/creator-posts/page.jsx:48-71 | the page goes to `/login` exactly when, after the fetch, there is no usable token or no creator |
| CreatorPosts.CreatorPostsPage.FetchPosts | src/app/creator-posts/page.jsx:45-81 | without `token` or a creator: no request and a redirect to `/login`. Otherwise the request carries the filter. A 401 removes only `token`. The user is not changed |
| CreatorPosts.CreatorPostsPage.UserChanged | src/app/creator-posts/page.jsx:84-88 | page 1 with the current filter is fetched for a creator only; otherwise nothing happens |
| CreatorPosts.CreatorPostsPage.SetFilter | src/app/creator-posts/page.jsx:91-95 | a changed filter fetches page 1 with the new filter, for a creator only |
| CreatorPosts.CreatorPostsPage.HandlePageChange | src/app/creator-posts/page.jsx:142-146 | only a page in `1..totalPages` is fetched, with the current filter |
| CreatorPosts.CreatorPostsPage.HandlePostAction | src/app/creator-posts/page.jsx:108-140 | a failed action shows its error and is not followed by a refetch. A successful one patches the list, raises its toast and refetches the current page with the current filter. An unknown action sends nothing and refetches. `processing` ends false |
| CreatorPosts.CreatorPostsPage.Badge | src/app/creator-posts/page.jsx:244 | the number of unapproved posts on the page under the "pending" filter, 0 under any other, never more than the posts on the page |
| Dashboard.Rethrow | src/app/admin5839201/dashboard/page.jsx:49-52 | the same error, with the same 401 test and the same message |
| Dashboard.Both | src/app/admin5839201/dashboard/page.jsx:49-52 | both payloads exactly when both calls succeed; otherwise a failing call's error, the users call first |
| Dashboard.DashboardPage.FetchData | src/app/admin5839201/dashboard/page.jsx:39-87 | without `adminToken`: no requests and a redirect. On success the lists are stored and the statistics describe them. A 401 drops `adminToken` and redirects. `loading` ends false |
| Dashboard.DashboardPage.ToggleCreator | src/app/admin5839201/dashboard/page.jsx:89-107 | the toggle request is sent; on success the matching users are replaced wholesale by the reply with "Reviewer status updated"; on an error the users stay and its message is shown; the posts and the statistics are not changed |
| Dashboard.DashboardPage.HandlePostAction | src/app/admin5839201/dashboard/page.jsx:109-141 | the posts become `PostActionPosts`; the users and the statistics are not changed |
| Dashboard.DashboardPage.RecentUsersShown | src/app/admin5839201/dashboard/page.jsx:339 | exactly the first `min(5, n)` users of the list, in order |
| Dashboard.DashboardPage.PendingShown | src/app/admin5839201/dashboard/page.jsx:439-441 | exactly the first `min(5, pending)` unapproved posts of the list, in list order |
| Dashboard.StatsLagAfterApprove | src/app/admin5839201/dashboard/page.jsx:112-121 | approving a pending note leaves the pending figure above the list's new pending count |
| Pagination.PageWindow | src/app/admin5839201/posts/page.jsx:480-495 | the window shows `min(5, totalPages)` pages, each in `1..totalPages`, consecutive and ascending |
| Pagination.WindowContainsCurrent | src/app/creator-posts/page.jsx:439-454 | the window contains the current page whenever that page is in `1..totalPages` |
| Pagination.WindowCentred | src/app/admin5839201/users/page.jsx:472-487 | away from both ends the current page is in the middle of the window |
| Pagination.WindowPagesAllowed | src/app/admin5839201/posts/page.jsx:480-495 | every button of the window leads to a page the page-change guard accepts |
| Pagination.NeighbourPages | src/app/admin5839201/posts/page.jsx:472-474 | from a real page, the guard refuses `currentPage - 1` exactly on page 1 and `currentPage + 1` exactly on the last page |
| Pagination.ShowingRange | src/app/admin5839201/users/page.jsx:255-260 | starts at `(c-1)*10+1`, ends at most at `c*10`, and spans `min(10, n)` entries |
| Home.NextStory | src/app/page.jsx:120-127 | moves up by one within the page exactly when not on its last post; otherwise turns to the next page at index 0 exactly when one exists; otherwise stays |
| Home.PrevStory | src/app/page.jsx:129-136 | moves down by one exactly when not at index 0; otherwise turns to the previous page, at the last index of the page being left, exactly when one exists |
| Home.DisabledIffNoMove | src/app/page.jsx:397-426 | on a shown story, each button is disabled exactly when pressing it would do nothing |
| Home.MovesStayInRange | src/app/page.jsx:120-136 | a move within the page keeps the index on the page, and a turn asks for a page the guard accepts |
| Home.HomePage.FetchPosts | src/app/page.jsx:39-62 | the public page request is always sent; success replaces posts and pagination; an error shows "Failed to load notes" or the server's text |
| Home.HomePage.UserChanged | src/app/page.jsx:75-78 | with a user, page 1 is fetched with the current order; without one, loading stops and no request is sent |
| Home.HomePage.HandleSort | src/app/page.jsx:64-73 | the new order is remembered and page 1 is fetched with it |
| Home.HomePage.HandlePageChange | src/app/page.jsx:80-82 | only a page in `1..totalPages` is fetched |
| Home.HomePage.Next | src/app/page.jsx:120-127 | the index and the fetch follow `NextStory`; a step or no move sends no request and keeps the posts, as does a turn the page guard refuses |
| Home.HomePage.Prev | src/app/page.jsx:129-136 | the index and the fetch follow `PrevStory`; a step or no move sends no request and keeps the posts, as does a turn the page guard refuses |
| Home.HomePage.BeginLike | src/app/page.jsx:84-96 | a like is sent exactly when there is a user and no like is in flight |
| Home.HomePage.CompleteLike | src/app/page.jsx:97-115 | success patches only the matching post's count and flag from the reply; an error changes no post and shows "Failed to rate note" or the reply's message; the flag is cleared |
| Register.RegisterForm.Set | src/app/register/page.jsx:122 | exactly one field takes the new value |
| Register.Step1Errors | src/app/register/page.jsx:42-54 | a name message exactly for a blank or one-character name ("required" when blank); an email message exactly when the validator rejects the email; no other key; no message exactly when step 1 passes |
| Register.Step2Errors | src/app/register/page.jsx:56-75 | the strength message and the mismatch message each independently; a picture message exactly when blank ("required") or not a URL; no other key; no message exactly when step 2 passes |
| Register.MergeErrors | src/app/register/page.jsx:52 | the keys are the union; new messages win; a field the step did not flag keeps its message |
| Register.StepAfterNext | src/app/register/page.jsx:77-81 | step 1 moves to 2 exactly when step 1 validates; other steps stay |
| Register.StepAfterPrev | src/app/register/page.jsx:83-87 | only a step above 1 goes back by one |
| Register.WalkStaysInRange | src/app/register/page.jsx:77-87 | from step 1 or 2, any sequence of next and previous presses stays in {1, 2} |
| Register.ValidationNeverClears | src/app/register/page.jsx:52-73 | through any number of validations, a field with a message keeps a non-empty message |
| Register.StepMessagesNonEmpty | src/app/register/page.jsx:42-75 | every message either step produces is non-empty |
| Register.RegisterPage.constructor | src/app/register/page.jsx:24-39 | an empty form, empty messages for all five fields, step 1, not submitting |
| Register.RegisterPage.ValidateStep1 | src/app/register/page.jsx:42-54 | returns whether step 1 passes; merges its messages into the error map |
| Register.RegisterPage.ValidateStep2 | src/app/register/page.jsx:56-75 | returns whether step 2 passes; merges its messages into the error map |
| Register.RegisterPage.NextStep | src/app/register/page.jsx:77-81 | only step 1 validates, and it advances exactly when step 1 passes |
| Register.RegisterPage.PrevStep | src/app/register/page.jsx:83-87 | the step after is `StepAfterPrev`; nothing else changes |
| Register.RegisterPage.BeginSubmit | src/app/register/page.jsx:89-108 | step 1 only runs `nextStep` and never sends; step 2 sends the registration exactly when step 2 passes and nothing is being submitted |
| Register.RegisterPage.CompleteSubmit | src/app/register/page.jsx:101-118 | only a reply with `success` raises the toast and goes to `/login`; an error shows its message; the flag is cleared |
| Register.RegisterPage.HandleChange | src/app/register/page.jsx:121-124 | sets one field and clears only that field's message |
| SubmitPost.NoteForm.Set | src/app/submit-post/page.jsx:108 | exactly one field takes the new value |
| SubmitPost.FormErrors | src/app/submit-post/page.jsx:64-81 | a title message exactly when the title is blank or over 50 characters, a content message exactly when blank or over 4000, a subject message exactly when empty, each with its exact text; no message exactly when the form is valid |
| SubmitPost.CountsOf | src/app/submit-post/page.jsx:57-62 | the counters are the lengths of the title and the content |
| SubmitPost.TitleCounterAgreesWithValidation | src/app/submit-post/page.jsx:67-69 | for a non-blank title, validation accepts it exactly when the counter is within 50 |
| SubmitPost.RedCounterAtTitleLimit | src/app/submit-post/page.jsx:67-69 | a title of exactly 50 characters shows a red counter yet passes validation |
| SubmitPost.SubmitPostPage.constructor | src/app/submit-post/page.jsx:23-34 | empty title and content, subject "Computer Science", empty messages, zero counters |
| SubmitPost.SubmitPostPage.UserChanged | src/app/submit-post/page.jsx:53-55 | a visitor with no user is sent to `/login` |
| SubmitPost.SubmitPostPage.ValidateForm | src/app/submit-post/page.jsx:64-81 | returns whether the form is valid and replaces the error map wholesale |
| SubmitPost.SubmitPostPage.BeginSubmit | src/app/submit-post/page.jsx:83-89 | validates, then posts the note exactly when the form is valid and nothing is being submitted |
| SubmitPost.SubmitPostPage.CompleteSubmit | src/app/submit-post/page.jsx:89-104 | a reply with `success` raises the notice and goes home; an error shows its message; the flag is cleared |
| SubmitPost.SubmitPostPage.HandleChange | src/app/submit-post/page.jsx:107-110 | sets one field, clears only its message, and the counters describe the new form |
| Profile.NameErrors | src/app/profile/page.jsx:37-46 | no message exactly for a valid name; a blank or short name gets exactly the "at least 2" message; a long one exactly the "cannot exceed 15" message |
| Profile.PaddedLetterAccepted | src/app/profile/page.jsx:39 | the length rule counts the untrimmed name: a space and one letter pass, although one character remains after trimming |
| Profile.ValidNameSurvivesTrim | src/app/profile/page.jsx:39 | a valid name keeps at least one character after trimming |
| Profile.ProfilePage.constructor | src/app/profile/page.jsx:25-28 | the name starts as the user's name or empty; not submitting, not editing |
| Profile.ProfilePage.UserChanged | src/app/profile/page.jsx:32-35 | with no user the page goes home; otherwise the form takes the user's name |
| Profile.ProfilePage.StartEditing | src/app/profile/page.jsx:142 | opens the form and changes nothing else |
| Profile.ProfilePage.CancelEditing | src/app/profile/page.jsx:166 | closes the form; the typed name and its message stay |
| Profile.ProfilePage.ValidateForm | src/app/profile/page.jsx:37-46 | returns whether the name is valid and replaces the error map wholesale |
| Profile.ProfilePage.BeginSubmitName | src/app/profile/page.jsx:48-56 | validates, then sends the update exactly for a valid name while nothing is being submitted |
| Profile.ProfilePage.CompleteSubmitName | src/app/profile/page.jsx:53-66 | only a reply with `success` replaces the user and closes the form; otherwise the user is unchanged; the flag is cleared |
| Profile.ProfilePage.HandleChange | src/app/profile/page.jsx:69-72 | sets the name and clears only its message |
| FormField.ColourOf | src/components/FormField.jsx:109-113 | grey exactly up to 80 % of the limit, yellow exactly above 80 % and below the limit, red exactly at or above a non-zero limit |
| FormField.ColourMonotone | src/components/FormField.jsx:109-113 | typing more characters never makes the counter calmer |
| FormField.InputType | src/components/FormField.jsx:37-38 | a password field shows text exactly while `showPassword` is on; other types are kept |
| FormField.InitialCount | src/components/FormField.jsx:18 | the initial count is the value's length, or 0 without a value |
| FormField.Field.constructor | src/components/FormField.jsx:16-18 | the counter starts at `InitialCount`, the password hidden, nothing forwarded |
| FormField.Field.HandleChange | src/components/FormField.jsx:20-25 | the value is always forwarded; the counter follows it only when there is a `maxLength` |
| FormField.Field.TogglePassword | src/components/FormField.jsx:87 | flips `showPassword` and nothing else |
| FormField.Field.RenderedType | src/components/FormField.jsx:37-38 | the rendered type follows `InputType` |
| FormField.Field.Counter | src/components/FormField.jsx:106-113 | the counter is shown exactly with a `maxLength` and no error, and is red exactly at or above the limit |
| AdminLogin.AdminLoginStorage | src/app/admin5839201/page.jsx:35-36 | only an accepted reply stores its token under `adminToken`; every other key is kept, and a 200 without `success` stores nothing |
| AdminLogin.AdminLoginToasts | src/app/admin5839201/page.jsx:35-41 | the success toast exactly for an accepted reply, none for a 200 without `success`, and the server's message or "Admin login failed" on an error |
| AdminLogin.AcceptedLoginAuthorizesAdminRequests | src/app/admin5839201/page.jsx:35-36 | after an accepted login with a non-empty token, every admin request other than the login carries that token as a bearer token |
| AdminLogin.AdminLoginPage.OnMount | src/app/admin5839201/page.jsx:18-23 | an already stored admin token goes to the dashboard; otherwise nothing changes |
| AdminLogin.AdminLoginPage.BeginSubmit | src/app/admin5839201/page.jsx:25-31 | the login is sent exactly when not submitting and both email and password are non-empty |
| AdminLogin.AdminLoginPage.CompleteSubmit | src/app/admin5839201/page.jsx:29-44 | the storage becomes `AdminLoginStorage`; an accepted reply goes to the dashboard; the flag is cleared |

## Left out

- `loginWithGoogle`: its only effect is a navigation to an address built from a build-time environment variable.
- The response interceptor of `src/lib/api.js`: it returns the response unchanged and rejects with the same error. Its only other effect is development-mode logging.
- All development-mode console logging.
- The `./routes` module (`loginRoute`, `profileRoute`, `registerRoute`) is not part of this model:
  - requests are identified by endpoint, not by URL;
  - the model does not assume that `loginRoute` is the `/api/user/login` the interceptor compares against.
- Rendering: markup, styles, animations, the `isFocused` styling of `FormField`, and expanding a post.
- Resize, scroll and touch listeners, and the `sortChange` event dispatch. `Home.HomePage.HandleSort` starts from the event's value.
- The confirmation modals: `handleConfirmAction` and the `executeAction` of the notes pages only forward the chosen action.
- The 300 ms debounce of `handleLike`.
- Navigation is recorded as the new path only. The page reload that `location.href`, `location.assign` and `router.push` cause is not modelled.
- React effects that re-run after a state change (for example after `setUser`) are separate method calls that the caller makes.
- The clock: `new Date()` is the integer parameter `now`, and dates are integers in the same unit.
- Home.HomePage.CompleteLike: patches the posts current when the like completes. The source patches the posts captured in the debounced handler's closure, which can be older.
- AdminPosts.AdminPostsPage.HandlePostAction: applies the action to the current list. The source applies it to the list captured when the handler was rendered. The same holds for Dashboard.DashboardPage.HandlePostAction and Dashboard.DashboardPage.ToggleCreator.
- CreatorPosts.CreatorPostsPage.HandlePostAction: the refetch completes before `processing` is cleared. In the source the refetch is not awaited and finishes later.
- CreatorPosts.CreatorPostsPage.UserChanged: on mount the source also runs the `[filter]` effect, so page 1 is requested twice. The model runs the filter effect only when the filter changes (`SetFilter`).
- Dashboard.Both: when both requests fail, `Promise.all` rejects with whichever fails first. The model takes the users request's error.
- AdminUsers.AdminUsersPage.HandleSearch: the query is logged without `encodeURIComponent`. The page-1 fetch that a blank query triggers is not awaited in the source; here it completes within the call.
- Register.Validator: the `validator` package's `isEmail`, `isStrongPassword` and `isURL` are left uninterpreted, each as the set of strings it accepts.
- SubmitPost.FormErrors, SubmitPost.CountsOf, Profile.NameErrors, Register.Step1Errors and FormField.Field.HandleChange count Unicode scalar values. JavaScript's `length` counts UTF-16 code units, so the two differ for characters outside the Basic Multilingual Plane.
- Pagination.PageWindow: `totalPages` is a natural number. A negative value from the server would make `Array()` throw in the source.
- Replies are taken to be well-formed: every payload has the fields its type names. The source does not check this. A login reply without `user` stores `token` and then throws inside the success path, so "Login failed" is shown with the token already stored; `Auth.LoginResult` does not cover that case. An admin login reply without `token` stores the string "undefined"; `AdminLogin.AdminLoginStorage` does not cover that case either.
- The premium, login, about and layout pages, the navigation bars, `ClientLayout`, `ProfileImage` and `Toast` are not part of this model. `ColoredToast` is modelled as an entry in the toast log.
