/** The session guards: `isAuthenticated`, installed for every route
    registered after it, and the `hasRole` middleware factory. */
module Guards {
  import opened Json

  /** `req.session.user`; `role` is absent when the stored user has none. */
  datatype SessionUser = SessionUser(id: int, role: Option<string>)

  /** What a middleware does with a request: pass it on, answer it with an
      error status, or redirect the browser. */
  datatype Gate = Next | Deny(code: int) | RedirectTo(url: string)

  /** `isAuthenticated`: a logged-in user passes; otherwise an API request
      gets 401 and a page request is sent to the login page. */
  function IsAuthenticated(user: Option<SessionUser>, path: string): (g: Gate)
    ensures g.Next? <==> user.Some?
    ensures g.Deny? <==> user.None? && StartsWith(path, "/api/")
    ensures g.Deny? ==> g.code == 401
    ensures g.RedirectTo? ==> g.url == "/login.html"
  {
    if user.Some? then Next
    else if StartsWith(path, "/api/") then Deny(401)
    else RedirectTo("/login.html")
  }

  /** `hasRole(roles)`: passes only a session user whose role is listed;
      everything else, including a missing session, gets 403. */
  function HasRole(roles: seq<string>, user: Option<SessionUser>): (g: Gate)
    ensures g.Next? <==> user.Some? && user.value.role.Some? && user.value.role.value in roles
    ensures !g.Next? ==> g == Deny(403)
  {
    if user.Some? && user.value.role.Some? && user.value.role.value in roles then Next else Deny(403)
  }

  /** The roles of `canUpload`. */
  const UploadRoles: seq<string> := ["Администратор", "Начальник отдела испытания", "Отдел испытаний"]

  /** Two middlewares in a row: the second runs only when the first calls
      `next()`. */
  function Then(first: Gate, second: Gate): (g: Gate)
    ensures first.Next? ==> g == second
    ensures !first.Next? ==> g == first
  {
    if first.Next? then second else first
  }

  /** Listing more roles never locks anyone out. */
  lemma HasRoleMonotone(roles: seq<string>, more: seq<string>, user: Option<SessionUser>)
    requires forall r :: r in roles ==> r in more
    ensures HasRole(roles, user).Next? ==> HasRole(more, user).Next?
  {
  }

  /** An API path is never redirected: a client calling the API gets a JSON
      status, never the login page. */
  lemma ApiRequestsAreNotRedirected(user: Option<SessionUser>, path: string)
    requires StartsWith(path, "/api/")
    ensures !IsAuthenticated(user, path).RedirectTo?
  {
  }

  /** An upload route (`isAuthenticated` from `app.use`, then `canUpload`)
      answers 401 without a session, 403 for a user whose role is not
      listed and passes a listed role. */
  lemma UploadGuardChain(user: Option<SessionUser>, path: string)
    requires StartsWith(path, "/api/")
    ensures user.None? ==> Then(IsAuthenticated(user, path), HasRole(UploadRoles, user)) == Deny(401)
    ensures user.Some? && (user.value.role.None? || user.value.role.value !in UploadRoles) ==>
      Then(IsAuthenticated(user, path), HasRole(UploadRoles, user)) == Deny(403)
    ensures user.Some? && user.value.role.Some? && user.value.role.value in UploadRoles ==>
      Then(IsAuthenticated(user, path), HasRole(UploadRoles, user)) == Next
  {
  }
}
