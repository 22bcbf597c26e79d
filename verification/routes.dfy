/**
 * The route table: what each path shows, as a function of whether the user is
 * logged in.
 */
module Routes {

  /** The paths of the route table; `Unmatched` stands for every other path. */
  datatype Location = Root | AuthPath | DashboardPath | ChatPath(chatId: string) | Unmatched(path: string)

  /** What a route renders: a redirect, one of the three pages, or nothing. */
  datatype Element = Redirect(to: Location) | AuthPage | ChatroomListPage | ChatroomPage(chatId: string) | Nothing

  /** `/` redirects by login state; `/auth` always shows the login page; `/dashboard` and
    * `/chat/:chatId` show their pages exactly when logged in and otherwise redirect to `/auth`. */
  function Route(loc: Location, isLoggedIn: bool): (e: Element)
    ensures e.AuthPage? <==> loc == AuthPath
    ensures e.ChatroomListPage? <==> loc == DashboardPath && isLoggedIn
    ensures e.ChatroomPage? <==> loc.ChatPath? && isLoggedIn
    ensures e.ChatroomPage? ==> e.chatId == loc.chatId
    ensures e.Redirect? ==> e.to == (if isLoggedIn then DashboardPath else AuthPath)
    ensures e.Nothing? <==> loc.Unmatched?
  {
    match loc
    case Root => Redirect(if isLoggedIn then DashboardPath else AuthPath)
    case AuthPath => AuthPage
    case DashboardPath => if isLoggedIn then ChatroomListPage else Redirect(AuthPath)
    case ChatPath(id) => if isLoggedIn then ChatroomPage(id) else Redirect(AuthPath)
    case Unmatched(_) => Nothing
  }

  /** A page behind the login. */
  predicate IsProtected(e: Element) {
    e.ChatroomListPage? || e.ChatroomPage?
  }

  /** A logged-out user never reaches a protected page, from any path. */
  lemma LoggedOutNeverProtected(loc: Location)
    ensures !IsProtected(Route(loc, false))
    ensures Route(loc, false).Redirect? ==> Route(loc, false).to == AuthPath
  {
  }

  /** Following a redirect once always lands on a page: there are no redirect chains or loops. */
  lemma RedirectSettles(loc: Location, isLoggedIn: bool)
    ensures Route(loc, isLoggedIn).Redirect? ==>
      var next := Route(Route(loc, isLoggedIn).to, isLoggedIn);
      next == (if isLoggedIn then ChatroomListPage else AuthPage)
  {
  }
}
