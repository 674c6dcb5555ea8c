/** The browser globals the pages share: `localStorage`, the location (path
    and query string), the document title, and two logs that stand for the
    outside world: the HTTP requests sent and the toasts raised. */
module Browser {
  import opened Common

  datatype Toggle = Creator | Premium | Block

  /** One HTTP request, by endpoint. Page numbers and limits are the ones the
      pages put in the query string. */
  datatype Request =
    | GetProfile                                         // GET profileRoute
    | PostLogin(email: string, password: string)         // POST loginRoute
    | PostRefreshToken(refreshToken: string)             // POST /api/user/refresh-token
    | PostAdminLogin(email: string, password: string)    // POST /api/5839201/login
    | GetPostsPage(page: int, limit: int, filter: Option<string>) // GET /api/posts?page&limit[&filter]
    | GetAllPosts                                        // GET /api/posts
    | PutApprovePost(postId: string)                     // PUT /api/posts/:id/approve
    | DeleteRejectPost(postId: string)                   // DELETE /api/posts/:id/reject
    | DeletePost(postId: string)                         // DELETE /api/posts/:id
    | GetUsersPage(page: int, limit: int)                // GET /api/5839201/users?page&limit
    | GetAllUsers                                        // GET /api/5839201/users
    | SearchUsers(query: string)                         // GET /api/5839201/users/search?query
    | PutToggle(userId: string, toggle: Toggle)          // PUT /api/5839201/users/:id/toggle-*
    | GetPublicPosts(page: int, limit: int, sortBy: string) // GET /api/posts/public?page&limit&sortBy
    | PostLike(postId: string)                           // POST /api/posts/:id/like
    | PostRegister(name: string, email: string, password: string, profilePicture: string)
    | PostNote(title: string, description: string, subject: string) // POST /api/posts
    | PutUpdateName(name: string)                        // PUT /api/user/update-name

  datatype ToastKind = Success | Error

  /** One call of `ColoredToast(message, kind)`. */
  datatype Toast = Toast(kind: ToastKind, message: string)

  const TokenKey := "token"
  const RefreshTokenKey := "refreshToken"
  const ProfilePictureKey := "profilePicture"
  const AdminTokenKey := "adminToken"

  class Window {
    /** `localStorage` */
    var storage: map<string, string>
    /** `window.location.pathname`, changed by `router.push`, `location.assign`,
        `location.href = …` and `history.replaceState` */
    var path: string
    /** the parsed `window.location.search` */
    var query: map<string, string>
    var title: string
    var requests: seq<Request>
    var toasts: seq<Toast>

    constructor (storage: map<string, string>, path: string, query: map<string, string>)
      ensures this.storage == storage && this.path == path && this.query == query
      ensures requests == [] && toasts == []
    {
      this.storage := storage;
      this.path := path;
      this.query := query;
      title := "";
      requests := [];
      toasts := [];
    }

    /** `localStorage.getItem(key)` is a non-empty string. */
    predicate Has(key: string)
      reads this
    {
      Truthy(Lookup(storage, key))
    }
  }
}
