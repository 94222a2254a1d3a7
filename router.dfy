/**
 * The frontend's route table and its navigation guard. A route's `meta` is
 * what vue-router gives the guard: the flags of the matched record merged
 * with those of its parent. Path matching itself (parameters such as
 * `:id`) is not modelled; routes are compared by their declared path.
 */
module Router {
  import opened Wrappers
  import opened Browser

  /** The flags a route can carry; an absent flag is false. */
  datatype Meta = Meta(auth: bool, guest: bool, requiresAdmin: bool)

  /** A route record as declared: its path, its flags, a redirect, and its
      nested routes. */
  datatype RouteDef = RouteDef(path: string, meta: Meta, redirect: Option<string>, children: seq<RouteDef>)

  /** A route as the guard sees it: its full path, merged flags and redirect. */
  datatype Route = Route(path: string, meta: Meta, redirect: Option<string>)

  /** Where the guard sends the navigation. */
  datatype Decision = Proceed | RedirectTo(path: string)

  const NoMeta: Meta := Meta(false, false, false)
  const DashboardPath: string := "/dashboard"
  const AdminRole: string := "admin"

  function Page(path: string): RouteDef {
    RouteDef(path, NoMeta, None, [])
  }

  function AdminPage(path: string): RouteDef {
    RouteDef(path, Meta(false, false, true), None, [])
  }

  /** The declared routes. */
  function Routes(): seq<RouteDef> {
    [ RouteDef(LoginPath, Meta(false, true, false), None, []),
      RouteDef("/register", Meta(false, true, false), None, []),
      RouteDef("/", Meta(true, false, false), None, LayoutChildren()) ]
  }

  /** The pages shown inside the application layout at `/`. */
  function LayoutChildren(): seq<RouteDef> {
    [ RouteDef("", NoMeta, Some(DashboardPath), []),
      Page("dashboard"),
      Page("projects"),
      Page("projects/:id"),
      Page("record"),
      Page("specifications/new"),
      Page("specifications/:id"),
      AdminPage("admin/users"),
      AdminPage("/admin/users/:id"),
      Page("prompts") ]
  }

  /** A nested path: absolute paths stand alone, an empty one is the
      parent's own, any other is joined to the parent's with one slash. */
  function JoinPath(parent: string, child: string): string {
    if |child| > 0 && child[0] == '/' then child
    else if child == [] then parent
    else if |parent| > 0 && parent[|parent| - 1] == '/' then parent + child
    else parent + "/" + child
  }

  /** Parent flags hold for every nested route. */
  function Merge(parent: Meta, child: Meta): (r: Meta)
    ensures parent.auth ==> r.auth
    ensures parent.requiresAdmin ==> r.requiresAdmin
  {
    Meta(parent.auth || child.auth, parent.guest || child.guest,
         parent.requiresAdmin || child.requiresAdmin)
  }

  /** The children of a record under the given parent path and flags. */
  function FlattenChildren(parentPath: string, parentMeta: Meta, children: seq<RouteDef>): (r: seq<Route>)
    ensures |r| == |children|
  {
    seq(|children|, i requires 0 <= i < |children| =>
      Route(JoinPath(parentPath, children[i].path), Merge(parentMeta, children[i].meta), children[i].redirect))
  }

  /** The routes the guard can be asked about: a record without children is
      one route, a record with children stands for its children. */
  function Flatten(defs: seq<RouteDef>): seq<Route> {
    if defs == [] then []
    else
      var d := defs[0];
      (if d.children == [] then [Route(d.path, d.meta, d.redirect)]
       else FlattenChildren(d.path, d.meta, d.children))
        + Flatten(defs[1..])
  }

  function Table(): seq<Route> {
    Flatten(Routes())
  }

  /** The resolved table: the two sign-in pages, then the layout's pages
      with the layout's flags merged in. */
  lemma TableShape()
    ensures Table() ==
      [ Route(LoginPath, Meta(false, true, false), None),
        Route("/register", Meta(false, true, false), None) ]
      + FlattenChildren("/", Meta(true, false, false), LayoutChildren())
  {
    var defs := Routes();
    assert defs[1..][1..][1..] == [];
    assert Flatten(defs) == [Route(LoginPath, Meta(false, true, false), None)] + Flatten(defs[1..]);
    assert Flatten(defs[1..]) == [Route("/register", Meta(false, true, false), None)] + Flatten(defs[1..][1..]);
  }

  /** The first two pages of the layout: the redirect at `/` and the
      dashboard. */
  lemma LayoutStartsWithDashboard()
    ensures var r := FlattenChildren("/", Meta(true, false, false), LayoutChildren());
      && r[0] == Route("/", Meta(true, false, false), Some(DashboardPath))
      && r[1] == Route(DashboardPath, Meta(true, false, false), None)
  {
    var r := FlattenChildren("/", Meta(true, false, false), LayoutChildren());
    assert r[1].path == "/" + "dashboard";
  }

  /** The guard: the authentication check first, then the guest check, then
      the admin check; a route passing all three proceeds. A missing user
      counts as not an admin. */
  function Guard(to: Meta, isAuth: bool, user: Option<User>): (r: Decision)
    ensures to.auth && !isAuth ==> r == RedirectTo(LoginPath)
    ensures !(to.auth && !isAuth) && to.guest && isAuth ==> r == RedirectTo(DashboardPath)
    ensures (!(to.auth && !isAuth) && !(to.guest && isAuth) && to.requiresAdmin
             && (user.None? || user.value.role != AdminRole)) ==> r == RedirectTo(DashboardPath)
    ensures r == Proceed <==>
              && !(to.auth && !isAuth) && !(to.guest && isAuth)
              && !(to.requiresAdmin && (user.None? || user.value.role != AdminRole))
  {
    if to.auth && !isAuth then RedirectTo(LoginPath)
    else if to.guest && isAuth then RedirectTo(DashboardPath)
    else if to.requiresAdmin && (user.None? || user.value.role != AdminRole) then RedirectTo(DashboardPath)
    else Proceed
  }

  /** The flags of the route declared at `path`, if any. */
  function MetaOf(routes: seq<Route>, path: string): Option<Meta> {
    if routes == [] then None
    else if routes[0].path == path then Some(routes[0].meta)
    else MetaOf(routes[1..], path)
  }

  /** The empty child of `/` redirects to the dashboard. */
  lemma RootRedirectsToDashboard()
    ensures exists i :: 0 <= i < |Table()| && Table()[i] == Route("/", Meta(true, false, false), Some(DashboardPath))
  {
    TableShape();
    LayoutStartsWithDashboard();
    assert Table()[2] == Route("/", Meta(true, false, false), Some(DashboardPath));
  }

  /** Every page but the two sign-in pages needs authentication, and so does
      every admin page. */
  lemma OnlySignInPagesArePublic()
    ensures forall i :: 0 <= i < |Table()| && Table()[i].path !in {LoginPath, "/register"} ==> Table()[i].meta.auth
    ensures forall i :: 0 <= i < |Table()| && Table()[i].meta.requiresAdmin ==> Table()[i].meta.auth
  {
    TableShape();
  }

  /** The guard never sends a navigation round in circles: wherever it
      redirects from a route of the table, the target is a route of the table
      that the same session is let into. */
  lemma RedirectsSettle(i: nat, isAuth: bool, user: Option<User>)
    requires i < |Table()|
    ensures Guard(Table()[i].meta, isAuth, user).RedirectTo? ==>
              var target := Guard(Table()[i].meta, isAuth, user).path;
              MetaOf(Table(), target).Some? && Guard(MetaOf(Table(), target).value, isAuth, user) == Proceed
  {
    TableShape();
    LayoutStartsWithDashboard();
    var t := Table();
    assert MetaOf(t, LoginPath) == Some(Meta(false, true, false));
    assert t[1..][1..][1..][0] == t[3];
    assert MetaOf(t, DashboardPath) == Some(Meta(true, false, false));
  }
}
