/** The top navigation bar (src/components/Navbar/Navbar.jsx): the menus as pure
    functions of the fetched user and its role, the avatar fallback, and the bar's own
    `user` and `menuOpen` state. */
module Navigation {
  import opened Api
  import Uri
  import Query
  import Session

  datatype Link = Link(caption: string, target: string)

  const HomeLink := Link("Home", "/")
  const JoinEmployeeLink := Link("Join as Employee", "/register/employee")
  const JoinHrLink := Link("Join as HR Manager", "/register/hr")
  const LoginLink := Link("Login", "/login")
  const DashboardLink := Link("Dashboard", "/dashboard")

  const PublicLinks := [HomeLink, JoinEmployeeLink, JoinHrLink]
  const HrLinks := [Link("Assets", "/assets"), Link("My Team", "/my-employees"), Link("Requests", "/requests")]
  const EmployeeLinks := [Link("My Assets", "/my-assets"), Link("My Team", "/my-team"), Link("Request Asset", "/request-asset")]

  /** The links a signed-in user gets for a role: `user.role === "hr"` and `user.role === "employee"`. */
  function RoleLinks(role: string): (links: seq<Link>)
    ensures role == "hr" ==> links == HrLinks
    ensures role == "employee" ==> links == EmployeeLinks
    ensures role != "hr" && role != "employee" ==> links == []
    ensures DashboardLink !in links
  {
    if role == "hr" then HrLinks else if role == "employee" then EmployeeLinks else []
  }

  /** The desktop centre menu. Dashboard is offered exactly to a signed-in user, always last. */
  function DesktopMenu(user: Option<User>): (menu: seq<Link>)
    ensures user.None? ==> menu == PublicLinks
    ensures user.Some? ==> |menu| >= 1 && menu[|menu| - 1] == DashboardLink &&
                           menu[..|menu| - 1] == RoleLinks(user.value.role)
    ensures DashboardLink in menu <==> user.Some?
    ensures user.Some? && user.value.role != "hr" && user.value.role != "employee" ==> menu == [DashboardLink]
  {
    if user.None? then PublicLinks else RoleLinks(user.value.role) + [DashboardLink]
  }

  /** The mobile menu: the public links and Login, or Dashboard first and then the role's links. */
  function MobileMenu(user: Option<User>): (menu: seq<Link>)
    ensures user.None? ==> menu == PublicLinks + [LoginLink]
    ensures user.Some? ==> menu == [DashboardLink] + RoleLinks(user.value.role)
  {
    if user.None? then PublicLinks + [LoginLink] else [DashboardLink] + RoleLinks(user.value.role)
  }

  /** Both menus offer the same destinations; the mobile one lists Dashboard first instead
      of last, and for a visitor adds the Login link the desktop bar shows as a button. */
  lemma MenusAgree(user: Option<User>)
    ensures user.Some? ==> multiset(MobileMenu(user)) == multiset(DesktopMenu(user))
    ensures user.None? ==> MobileMenu(user) == DesktopMenu(user) + [LoginLink]
  {
    if user.Some? {
      var r := RoleLinks(user.value.role);
      assert DesktopMenu(user) == r + [DashboardLink];
      assert MobileMenu(user) == [DashboardLink] + r;
    }
  }

  /** No destination appears twice in either menu, and the HR and employee menus share only Dashboard. */
  lemma MenusWithoutRepeats(user: Option<User>)
    ensures forall i, j :: 0 <= i < j < |DesktopMenu(user)| ==> DesktopMenu(user)[i].target != DesktopMenu(user)[j].target
    ensures forall i, j :: 0 <= i < j < |MobileMenu(user)| ==> MobileMenu(user)[i].target != MobileMenu(user)[j].target
    ensures forall l :: l in HrLinks + [DashboardLink] && l in EmployeeLinks + [DashboardLink] ==> l == DashboardLink
  {
  }

  const AvatarService := "https://ui-avatars.com/api/"

  /** The avatar image: the profile image when set, otherwise the generated avatar for
      the URI-encoded name. */
  function Avatar(u: User): (src: string)
    ensures u.profileImage.Some? && u.profileImage.value != "" ==> src == u.profileImage.value
    ensures u.profileImage.None? || u.profileImage.value == "" ==>
              src == AvatarService + "?name=" + Uri.EncodeComponent(u.name)
  {
    OrElse(u.profileImage, AvatarService + "?name=" + Uri.EncodeComponent(u.name))
  }

  /** Whatever characters the name holds, the generated avatar URL carries it as the
      single parameter `name`, so no part of a name can be read as a further parameter. */
  lemma AvatarCarriesWholeName(u: User)
    requires u.profileImage.None? || u.profileImage.value == ""
    requires u.name != ""
    ensures Query.Parse(Query.QueryOf(Avatar(u)) + "&") == [("name", Uri.EncodeComponent(u.name))]
  {
    var e := Uri.EncodeComponent(u.name);
    AvatarUrl(u);
    GeneratedQuery(e);
    NameParam(e);
  }

  lemma AvatarUrl(u: User)
    requires u.profileImage.None? || u.profileImage.value == ""
    ensures Avatar(u) == AvatarService + "?" + ("name=" + Uri.EncodeComponent(u.name))
  {
    var e := Uri.EncodeComponent(u.name);
    assert AvatarService + "?name=" + e == AvatarService + "?" + ("name=" + e);
  }

  lemma GeneratedQuery(e: string)
    requires forall i :: 0 <= i < |e| ==> Uri.Unreserved(e[i]) || e[i] == '%'
    ensures Query.QueryOf(AvatarService + "?" + ("name=" + e)) == "name=" + e
  {
    assert '?' !in AvatarService && '#' !in AvatarService;
    NoSeparators(e);
    Query.QueryOfUrl(AvatarService, "name=" + e);
  }

  /** The encoded name holds none of `&`, `=` and `#`, so the piece `name=<e>&` reads back whole. */
  lemma NameParam(e: string)
    requires e != [] && forall i :: 0 <= i < |e| ==> Uri.Unreserved(e[i]) || e[i] == '%'
    ensures Query.Parse(("name=" + e) + "&") == [("name", e)]
  {
    NoSeparators(e);
    Query.ParseParam("name", e, "");
    var piece := Query.Param("name", e) + "";
    assert piece == "name" + "=" + e + "&";
    assert "name" + "=" == "name=";
    assert piece == ("name=" + e) + "&";
  }

  lemma NoSeparators(e: string)
    requires forall i :: 0 <= i < |e| ==> Uri.Unreserved(e[i]) || e[i] == '%'
    ensures Query.Safe(("name", e))
  {
    forall i | 0 <= i < |e|
      ensures e[i] != '&' && e[i] != '#'
    {
      assert Uri.Unreserved(e[i]) || e[i] == '%';
    }
  }

  /** The right corner: a Login button for a visitor, otherwise avatar, name, role and Logout. */
  datatype Corner = LoginButton | Signed(avatar: string, name: string, role: string)

  function ProfileCorner(user: Option<User>): (c: Corner)
    ensures c.LoginButton? <==> user.None?
    ensures user.Some? ==> c == Signed(Avatar(user.value), user.value.name, user.value.role)
  {
    if user.None? then LoginButton else Signed(Avatar(user.value), user.value.name, user.value.role)
  }


  class Navbar {
    var user: Option<User>
    var menuOpen: bool
    var log: seq<Effect>

    constructor ()
      ensures user.None? && !menuOpen && log == []
    {
      user, menuOpen, log := None, false, [];
    }

    /** The mount effect: the identity from the session cookie, or nobody on any failure. */
    method FetchUser(me: Reply<User>)
      modifies this
      ensures log == old(log) + [Sent(Session.MeCall)]
      ensures user == (if me.Resolved? then Some(me.data) else None)
      ensures menuOpen == old(menuOpen)
    {
      log := log + [Sent(Session.MeCall)];
      if me.Resolved? {
        user := Some(me.data);
      } else {
        user := None;
      }
    }

    /** Clears the user and goes to `/login` only when the POST succeeds; a failure is swallowed. */
    method HandleLogout(reply: Reply<()>)
      modifies this
      ensures reply.Resolved? ==> user.None? && log == old(log) + [Sent(Session.LogoutCall), Navigated("/login")]
      ensures reply.Rejected? ==> user == old(user) && log == old(log) + [Sent(Session.LogoutCall)]
      ensures menuOpen == old(menuOpen)
    {
      log := log + [Sent(Session.LogoutCall)];
      if reply.Resolved? {
        user := None;
        log := log + [Navigated("/login")];
      }
    }

    method ToggleMenu()
      modifies this`menuOpen
      ensures menuOpen == !old(menuOpen)
    {
      menuOpen := !menuOpen;
    }

    /** Following any link of the open mobile menu closes it. */
    method FollowMobileLink(link: Link)
      requires menuOpen && link in MobileMenu(user)
      modifies this
      ensures !menuOpen && user == old(user)
      ensures log == old(log) + [Navigated(link.target)]
    {
      menuOpen := false;
      log := log + [Navigated(link.target)];
    }
  }
}
