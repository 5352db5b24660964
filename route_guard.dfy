/** The frontend middleware's routing decision. The request is reduced to its
    path and the presence of the two cookies; the refresh `fetch` is reduced
    to whether it throws. */
module RouteGuard {

  const ProtectedRoutes: seq<string> := ["/home", "/sessions"]

  /** As spelled in the middleware: "/rest-password", not "/reset-password". */
  const PublicRoutes: seq<string> :=
    ["/", "/signup", "/confirm-account", "/forgot-password", "/rest-password", "/verify-mfa"]

  datatype Outcome = Next | Redirect(to: string)

  /** What the middleware answers, and whether it called the refresh endpoint. */
  datatype Decision = Decision(outcome: Outcome, refreshAttempted: bool)

  datatype RouteKind = Protected | Public | Unlisted

  /** Which list a path belongs to (the two lists share no path). */
  function Classify(path: string): RouteKind
  {
    if path in ProtectedRoutes then Protected
    else if path in PublicRoutes then Public
    else Unlisted
  }

  /** The intended decision table, one row per kind of route. */
  function DecisionTable(kind: RouteKind, hasAccessToken: bool, hasRefreshToken: bool, refreshThrows: bool): Decision
  {
    match kind
    case Protected =>
      if hasAccessToken then Decision(Next, false)
      else if !hasRefreshToken then Decision(Redirect("/"), false)
      else if refreshThrows then Decision(Redirect("/"), true)
      else Decision(Next, true)
    case Public =>
      if hasAccessToken then Decision(Redirect("/home"), false) else Decision(Next, false)
    case Unlisted => Decision(Next, false)
  }

  /** No path is both protected and public. */
  lemma RoutesDisjoint(path: string)
    ensures !(path in ProtectedRoutes && path in PublicRoutes)
  {
  }

  /** The middleware, branch for branch. On every input it follows the
      decision table. */
  function Middleware(path: string, hasAccessToken: bool, hasRefreshToken: bool, refreshThrows: bool): (d: Decision)
    ensures d == DecisionTable(Classify(path), hasAccessToken, hasRefreshToken, refreshThrows)
  {
    RoutesDisjoint(path);
    var isProtectedRoute := path in ProtectedRoutes;
    var isPublicRoute := path in PublicRoutes;
    if isProtectedRoute && !hasAccessToken && (hasRefreshToken || !hasRefreshToken) then
      if hasRefreshToken then
        if refreshThrows then Decision(Redirect("/"), true) else Decision(Next, true)
      else Decision(Redirect("/"), false)
    else if isPublicRoute && hasAccessToken then Decision(Redirect("/home"), false)
    else Decision(Next, false)
  }

  /** Redirects only ever go to "/" or "/home"; the refresh endpoint is called
      exactly for a protected path with a refresh cookie and no access cookie. */
  lemma MiddlewareShape(path: string, hasAccessToken: bool, hasRefreshToken: bool, refreshThrows: bool)
    ensures var d := Middleware(path, hasAccessToken, hasRefreshToken, refreshThrows);
            && (d.outcome.Redirect? ==> d.outcome.to == "/" || d.outcome.to == "/home")
            && (d.refreshAttempted <==> path in ProtectedRoutes && !hasAccessToken && hasRefreshToken)
            && (path !in ProtectedRoutes && path !in PublicRoutes ==> d == Decision(Next, false))
  {
  }

  /** Matching is exact: a trailing slash or the correctly spelled reset page
      falls outside both lists and is let through. */
  lemma ExactMatching(hasAccessToken: bool, hasRefreshToken: bool, refreshThrows: bool)
    ensures Middleware("/home/", hasAccessToken, hasRefreshToken, refreshThrows) == Decision(Next, false)
    ensures Middleware("/reset-password", hasAccessToken, hasRefreshToken, refreshThrows) == Decision(Next, false)
  {
  }
}
