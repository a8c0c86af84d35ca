/** The application's routes and the navigation guard that runs before every
    navigation. */
module Router {
  import opened Base
  import AuthStore

  /** The named routes. */
  datatype RouteName = Login | Home

  /** A route record: its path pattern, its name, `meta.requiresAuth`, and
      the path it redirects to, if any. */
  datatype RouteRecord = RouteRecord(path: string, name: Option<RouteName>, requiresAuth: bool, redirect: Option<string>)

  /** The route table, in declaration order: the login view at "/", the home
      view at "/home" behind authentication, and a catch-all that redirects to "/". */
  const Routes: seq<RouteRecord> := [
    RouteRecord("/", Some(Login), false, None),
    RouteRecord("/home", Some(Home), true, None),
    RouteRecord("/:catchAll(.*)", None, false, Some("/"))
  ]

  /** A resolved navigation target: its route name and the records it matched. */
  datatype Target = Target(name: Option<RouteName>, matched: seq<RouteRecord>)

  /** The target a navigation to `path` resolves to. An unmatched path takes
      the catch-all route, whose redirect to "/" is followed before any guard runs. */
  function ResolvePath(path: string): (t: Target)
    ensures path == "/home" ==> t == Target(Some(Home), [Routes[1]])
    ensures path != "/home" ==> t == Target(Some(Login), [Routes[0]])
  {
    if path == Routes[1].path then Target(Some(Home), [Routes[1]])
    else if path == Routes[0].path then Target(Some(Login), [Routes[0]])
    else
      // the catch-all's redirect target "/" is the login route
      assert Routes[2].redirect == Some(Routes[0].path);
      Target(Some(Login), [Routes[0]])
  }

  /** The target a navigation to a named route resolves to. */
  function ResolveName(name: RouteName): (t: Target)
    ensures t.name == Some(name)
    ensures |t.matched| == 1 && t.matched[0] in Routes && t.matched[0].name == Some(name)
  {
    match name
    case Login => Target(Some(Login), [Routes[0]])
    case Home => Target(Some(Home), [Routes[1]])
  }

  /** `to.matched.some(record => record.meta.requiresAuth)`. */
  function RequiresAuth(matched: seq<RouteRecord>): (b: bool)
    ensures b <==> exists i :: 0 <= i < |matched| && matched[i].requiresAuth
  {
    if matched == [] then false
    else matched[0].requiresAuth || RequiresAuth(matched[1..])
  }

  /** What the guard passes to `next`: no argument, or a named route. */
  datatype Decision = Proceed | RedirectTo(name: RouteName)

  /** The guard's decision, its three cases tried in order. */
  function Guard(to: Target, isAuthenticated: bool): (d: Decision)
    ensures d == RedirectTo(Login) <==> RequiresAuth(to.matched) && !isAuthenticated
    ensures d == RedirectTo(Home) <==> !(RequiresAuth(to.matched) && !isAuthenticated) && to.name == Some(Login) && isAuthenticated
    ensures d == Proceed <==> !(RequiresAuth(to.matched) && !isAuthenticated) && !(to.name == Some(Login) && isAuthenticated)
  {
    if RequiresAuth(to.matched) && !isAuthenticated then RedirectTo(Login)
    else if to.name == Some(Login) && isAuthenticated then RedirectTo(Home)
    else Proceed
  }

  /** `AuthService.isAuthenticated()`: a truthy "token" entry in storage. */
  function TokenPresent(items: map<string, string>): (b: bool)
    ensures b <==> "token" in items && items["token"] != ""
  {
    "token" in items && items["token"] != ""
  }

  /** Of all paths, only "/home" leads to a target that requires authentication. */
  lemma OnlyHomeRequiresAuth(path: string)
    ensures RequiresAuth(ResolvePath(path).matched) <==> path == "/home"
  {
    assert RequiresAuth([Routes[1]]);
    assert !RequiresAuth([Routes[0]]) by {
      assert !RequiresAuth([Routes[0]][1..]);
    }
  }

  /** A redirect the guard issues leads to a target on which the guard lets
      navigation proceed: there is never a second redirect. */
  lemma RedirectIsFinal(path: string, isAuthenticated: bool)
    ensures Guard(ResolvePath(path), isAuthenticated).RedirectTo? ==>
            Guard(ResolveName(Guard(ResolvePath(path), isAuthenticated).name), isAuthenticated) == Proceed
  {
    OnlyHomeRequiresAuth(path);
    OnlyHomeRequiresAuth("/");
    OnlyHomeRequiresAuth("/home");
  }

  /** Where a navigation to `path` ends once the guard's redirect, if any, is followed. */
  function Destination(path: string, isAuthenticated: bool): RouteName
  {
    var to := ResolvePath(path);
    match Guard(to, isAuthenticated)
    case RedirectTo(name) => name
    case Proceed => to.name.value
  }

  /** Every navigation ends on the home view when authenticated and on the
      login view otherwise. */
  lemma DestinationByAuthentication(path: string, isAuthenticated: bool)
    ensures Destination(path, isAuthenticated) == if isAuthenticated then Home else Login
  {
    OnlyHomeRequiresAuth(path);
  }

  /** The auth store's session key is not the guard's token: `SET_USER`
      never changes what the guard sees. */
  lemma SetUserLeavesGuardInput(items: map<string, string>, json: AuthStore.JsonCodec, u: Option<AuthStore.User>)
    ensures TokenPresent(AuthStore.AfterSetUser(items, json, u).1) == TokenPresent(items)
  {
  }
}
