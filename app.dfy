/** The application shell: session restore at start-up and the route guard
    that picks the screen for each path from the authentication flag. */
module App {
  import Storage

  /** The paths the router knows, and any other path. */
  datatype Path = LoginPath | RegisterPath | HomePath | OtherPath(path: string)

  /** The element a route renders: one of the three screens, a `<Navigate>`
      to another path, or nothing when no route matches. */
  datatype Screen = LoginScreen | RegisterScreen | BookmarksScreen | RedirectTo(target: Path) | NoRoute

  /** What the shell renders: the start-up spinner, or the page with the
      navigation bar (when shown) above the routed screen. */
  datatype View = Splash | Page(navbar: bool, screen: Screen)

  /** The route table: `/login` and `/register` show their form to signed-out
      users and send signed-in users to `/`; `/` shows the bookmark screen
      (capture form above the list) to signed-in users and sends the others to
      `/login`. */
  function RouteElement(path: Path, authenticated: bool): (s: Screen)
    ensures s == BookmarksScreen <==> path == HomePath && authenticated
    ensures s == LoginScreen <==> path == LoginPath && !authenticated
    ensures s == RegisterScreen <==> path == RegisterPath && !authenticated
    ensures s == NoRoute <==> path.OtherPath?
    ensures s.RedirectTo? ==> s.target == (if authenticated then HomePath else LoginPath)
  {
    match path
    case LoginPath => if !authenticated then LoginScreen else RedirectTo(HomePath)
    case RegisterPath => if !authenticated then RegisterScreen else RedirectTo(HomePath)
    case HomePath => if authenticated then BookmarksScreen else RedirectTo(LoginPath)
    case OtherPath(_) => NoRoute
  }

  /** The screen the user ends up on after following the route's redirect, if
      any: one redirect always lands on a rendered screen, signed-in users
      always reach their bookmarks and signed-out users never do. */
  function Navigate(path: Path, authenticated: bool): (s: Screen)
    ensures !s.RedirectTo?
    ensures !path.OtherPath? ==> (s == BookmarksScreen <==> authenticated)
    ensures !path.OtherPath? && !authenticated ==> s == LoginScreen || s == RegisterScreen
    ensures path.OtherPath? ==> s == NoRoute
  {
    match RouteElement(path, authenticated)
    case RedirectTo(target) => RouteElement(target, authenticated)
    case other => other
  }

  /** The `App` component's state. */
  class Root {
    var isAuthenticated: bool
    var loading: bool

    /** The two `useState` initialisers: signed out, still checking. */
    constructor ()
      ensures !isAuthenticated && loading
    {
      isAuthenticated := false;
      loading := true;
    }

    /** The mount effect: a truthy stored token signs the user in; the check
        ends the start-up spinner whatever it finds. An absent or empty token
        leaves the flag as it was. */
    method RestoreSession(slot: Storage.TokenSlot)
      modifies this
      ensures isAuthenticated == (old(isAuthenticated) || Storage.Truthy(slot.token))
      ensures !loading
    {
      var token := slot.token;
      if Storage.Truthy(token) {
        isAuthenticated := true;
      }
      loading := false;
    }

    /** What the shell renders at `path`: the spinner until the start-up check
        is done, then the navigation bar exactly when signed in, above the
        element the route guard picks. */
    function Render(path: Path): (v: View)
      reads this
      ensures v == Splash <==> loading
      ensures v.Page? ==> v.navbar == isAuthenticated && v.screen == RouteElement(path, isAuthenticated)
    {
      if loading then Splash else Page(isAuthenticated, RouteElement(path, isAuthenticated))
    }
  }

  /** Mounting the shell: the initial state followed by the mount effect.
      Afterwards the user is signed in exactly when a truthy token is stored,
      and the spinner is gone. */
  method Start(slot: Storage.TokenSlot) returns (root: Root)
    ensures fresh(root)
    ensures root.isAuthenticated == Storage.Truthy(slot.token)
    ensures !root.loading
    ensures slot.token == old(slot.token)
  {
    root := new Root();
    root.RestoreSession(slot);
  }
}
