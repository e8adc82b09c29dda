/** The dashboard page (src/pages/Dashboard/Dashboard.jsx): the auth guard, the
    role-gated sidebar and main panel, the `drawerOpen` toggle and the sign-out button.
    The session itself is the shared provider of module Session. */
module DashboardPage {
  import opened Api
  import Session

  /** A sidebar entry: a destination, or the Logout button. */
  datatype Entry = Go(caption: string, target: string) | LogoutEntry

  const HrEntries := [Go("Manage Assets", "/assets"), Go("My Employees", "/my-employees"),
                      Go("Manage Requests", "/requests"), Go("Subscribe", "/subscription")]

  /** The sidebar from top to bottom: Dashboard (to `/`), the hr-only entries, Settings, Logout. */
  function Sidebar(role: string): (entries: seq<Entry>)
    ensures |entries| >= 3
    ensures entries[0] == Go("Dashboard", "/")
    ensures entries[|entries| - 2] == Go("Settings", "/settings") && entries[|entries| - 1] == LogoutEntry
    ensures entries[1..|entries| - 2] == (if role == "hr" then HrEntries else [])
    ensures |entries| == (if role == "hr" then 7 else 3)
  {
    [Go("Dashboard", "/")] + (if role == "hr" then HrEntries else []) + [Go("Settings", "/settings"), LogoutEntry]
  }

  /** An entry shows its caption only while the drawer is open; the icon is always shown. */
  function Caption(e: Entry, drawerOpen: bool): (c: Option<string>)
    ensures c.Some? <==> drawerOpen
    ensures drawerOpen && e.Go? ==> c == Some(e.caption)
    ensures drawerOpen && e.LogoutEntry? ==> c == Some("Logout")
  {
    if !drawerOpen then None else if e.Go? then Some(e.caption) else Some("Logout")
  }

  /** The main panel below the welcome card: charts for hr, otherwise three shortcuts over the request list. */
  datatype Panel = Charts | Shortcuts(buttons: seq<Entry>)

  const EmployeeShortcuts := [Go("My Assets", "/my-assets"), Go("Request Asset", "/request-asset"), Go("My Team", "/my-team")]

  function MainPanel(role: string): (p: Panel)
    ensures p.Charts? <==> role == "hr"
    ensures p.Shortcuts? ==> p.buttons == EmployeeShortcuts
  {
    if role == "hr" then Charts else Shortcuts(EmployeeShortcuts)
  }

  /** What the page renders: the Loading view while the session loads or when nobody is signed in. */
  datatype Screen = LoadingView | Page(welcome: string, role: string, sidebar: seq<Entry>, panel: Panel)

  function Render(loading: bool, user: Option<User>): (s: Screen)
    ensures s.LoadingView? <==> loading || user.None?
    ensures s.Page? ==> s == Page(user.value.name, user.value.role, Sidebar(user.value.role), MainPanel(user.value.role))
  {
    if loading || user.None? then LoadingView
    else Page(user.value.name, user.value.role, Sidebar(user.value.role), MainPanel(user.value.role))
  }

  /** The redirect effect's test: `!loading && !user`. */
  predicate MustRedirect(loading: bool, user: Option<User>) {
    !loading && user.None?
  }

  /** Whenever the guard redirects, the page shows only the Loading view. */
  lemma RedirectOnlyFromLoadingView(loading: bool, user: Option<User>)
    requires MustRedirect(loading, user)
    ensures Render(loading, user) == LoadingView
  {
  }

  /** Only hr sees the subscription entry, in the sidebar; the remaining roles get no hr destination at all. */
  lemma SubscribeOnlyForHr(role: string)
    ensures Go("Subscribe", "/subscription") in Sidebar(role) <==> role == "hr"
    ensures role != "hr" ==> forall e :: e in HrEntries ==> e !in Sidebar(role)
  {
    if role != "hr" {
      assert Sidebar(role) == [Go("Dashboard", "/"), Go("Settings", "/settings"), LogoutEntry];
    } else {
      assert Sidebar(role)[4] == Go("Subscribe", "/subscription");
    }
  }

  class Dashboard {
    const auth: Session.AuthProvider
    var drawerOpen: bool
    var navigations: seq<string>

    constructor (auth: Session.AuthProvider)
      ensures this.auth == auth && drawerOpen && navigations == []
    {
      this.auth := auth;
      drawerOpen := true;
      navigations := [];
    }

    /** The effect on [user, loading]: navigate to `/login` once loading is over and nobody is signed in. */
    method RedirectEffect()
      modifies this`navigations
      ensures navigations == old(navigations) + (if MustRedirect(auth.loading, auth.user) then ["/login"] else [])
    {
      if !auth.loading && auth.user.None? {
        navigations := navigations + ["/login"];
      }
    }

    /** Both toggle buttons: `setDrawerOpen(!drawerOpen)`. */
    method ToggleDrawer()
      modifies this`drawerOpen
      ensures drawerOpen == !old(drawerOpen)
    {
      drawerOpen := !drawerOpen;
    }

    /** A sidebar destination or main-panel shortcut: navigate to it. */
    method Select(e: Entry)
      requires e.Go?
      modifies this`navigations
      ensures navigations == old(navigations) + [e.target]
    {
      navigations := navigations + [e.target];
    }

    /** Sign out, then go to `/login`; a failed sign-out is only logged and nothing navigates. */
    method HandleLogout(reply: Reply<()>)
      modifies this`navigations, auth
      ensures auth.user == Session.LoggedOut(old(auth.user), reply) && !auth.loading
      ensures auth.calls == old(auth.calls) + [Session.Pending(Session.LogoutCall, true)]
      ensures auth.mounted == old(auth.mounted)
      ensures navigations == old(navigations) + (if reply.Resolved? then ["/login"] else [])
    {
      var settled := auth.Logout(reply);
      if settled.Resolved? {
        navigations := navigations + ["/login"];
      }
    }
  }

  /** After a successful sign-out from the dashboard the guard fires as well: the page
      navigates to `/login` a second time, from the redirect effect. */
  method SignOutFromDashboard(page: Dashboard, reply: Reply<()>)
    modifies page, page.auth
    ensures reply.Resolved? ==> page.navigations == old(page.navigations) + ["/login", "/login"]
    ensures reply.Rejected? && old(page.auth.user).Some? ==> page.navigations == old(page.navigations)
  {
    page.HandleLogout(reply);
    page.RedirectEffect();
  }
}
