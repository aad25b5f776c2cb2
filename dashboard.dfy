/** The dashboard layout: the sidebar's navigation items per role, the
    sidebar toggle and the avatar's initials. */
module Dashboard {
  import opened Models
  import opened Text
  import Lists

  /** A sidebar entry (its icon is presentation and left out). */
  datatype NavItem = NavItem(name: string, href: string, roles: seq<Role>)

  const DashboardItem := NavItem("Dashboard", "/dashboard", [SuperAdmin, Owner, User])

  /** The names of a list of items, in order. */
  function Names(items: seq<NavItem>): seq<string>
  {
    Lists.Map(items, (item: NavItem) => item.name)
  }

  /** The number of items each role sees. */
  function ItemCount(role: Role): nat
  {
    match role
    case SuperAdmin => 6
    case Owner => 4
    case User => 3
  }

  /** The entries of each role's own block of `navigationItems`. */
  function RoleBlock(role: Role): seq<NavItem>
  {
    match role
    case SuperAdmin => [
      NavItem("Tenant Management", "/dashboard/tenants", [SuperAdmin]),
      NavItem("Company Management", "/dashboard/companies", [SuperAdmin]),
      NavItem("User Management", "/dashboard/users", [SuperAdmin]),
      NavItem("Coupon Management", "/dashboard/coupons", [SuperAdmin]),
      NavItem("Global Settings", "/dashboard/settings", [SuperAdmin])]
    case Owner => [
      NavItem("Company Users", "/dashboard/company-users", [Owner]),
      NavItem("Company Settings", "/dashboard/company-settings", [Owner]),
      NavItem("Reports", "/dashboard/reports", [Owner])]
    case User => [
      NavItem("My Tasks", "/dashboard/tasks", [User]),
      NavItem("Profile", "/dashboard/profile", [User])]
  }

  /** What a sidebar for `role` must be: the dashboard entry first, the
      role's items after it with only that role, every link under
      "/dashboard" and no link twice. */
  predicate WellFormedMenu(role: Role, items: seq<NavItem>)
  {
    && |items| == ItemCount(role)
    && items[0] == DashboardItem
    && (forall i :: 0 <= i < |items| ==> role in items[i].roles)
    && (forall i :: 1 <= i < |items| ==> items[i].roles == [role])
    && (forall i :: 0 <= i < |items| ==> StartsWith(items[i].href, "/dashboard"))
    && (forall i, j :: 0 <= i < j < |items| ==> items[i].href != items[j].href)
  }

  /** The links of a menu, in order. */
  function Hrefs(items: seq<NavItem>): seq<string>
  {
    Lists.Map(items, (item: NavItem) => item.href)
  }

  /** A menu whose links are the given distinct links under "/dashboard" and
      whose items after the first list only `role` is well formed. */
  lemma {:induction false} WellFormedFromLinks(role: Role, items: seq<NavItem>, links: seq<string>)
    requires |items| == ItemCount(role) && items[0] == DashboardItem
    requires forall i :: 1 <= i < |items| ==> items[i].roles == [role]
    requires Hrefs(items) == links
    requires forall i :: 0 <= i < |links| ==> StartsWith(links[i], "/dashboard")
    requires forall i, j :: 0 <= i < j < |links| ==> links[i] != links[j]
    ensures WellFormedMenu(role, items)
  {
    forall i | 0 <= i < |items|
      ensures role in items[i].roles && StartsWith(items[i].href, "/dashboard")
    {
      assert items[i].href == links[i];
      if i == 0 {
        assert items[0].roles[2] == User;
      } else {
        assert items[i].roles[0] == role;
      }
    }
    forall i, j | 0 <= i < j < |items|
      ensures items[i].href != items[j].href
    {
      assert items[i].href == links[i] && items[j].href == links[j];
    }
  }

  /** The superadmin's menu is well formed. */
  lemma SuperAdminMenuWellFormed()
    ensures WellFormedMenu(SuperAdmin, [DashboardItem] + RoleBlock(SuperAdmin))
  {
    var items := [DashboardItem] + RoleBlock(SuperAdmin);
    var links := Hrefs(items);
    assert links == ["/dashboard", "/dashboard/tenants", "/dashboard/companies",
                     "/dashboard/users", "/dashboard/coupons", "/dashboard/settings"];
    assert forall i :: 0 <= i < |links| ==> links[i][..10] == "/dashboard";
    WellFormedFromLinks(SuperAdmin, items, links);
  }

  /** The owner's menu is well formed. */
  lemma OwnerMenuWellFormed()
    ensures WellFormedMenu(Owner, [DashboardItem] + RoleBlock(Owner))
  {
    var items := [DashboardItem] + RoleBlock(Owner);
    var links := Hrefs(items);
    assert links == ["/dashboard", "/dashboard/company-users", "/dashboard/company-settings",
                     "/dashboard/reports"];
    assert forall i :: 0 <= i < |links| ==> links[i][..10] == "/dashboard";
    WellFormedFromLinks(Owner, items, links);
  }

  /** The user's menu is well formed. */
  lemma UserMenuWellFormed()
    ensures WellFormedMenu(User, [DashboardItem] + RoleBlock(User))
  {
    var items := [DashboardItem] + RoleBlock(User);
    var links := Hrefs(items);
    assert links == ["/dashboard", "/dashboard/tasks", "/dashboard/profile"];
    assert forall i :: 0 <= i < |links| ==> links[i][..10] == "/dashboard";
    WellFormedFromLinks(User, items, links);
  }

  /** The superadmin's menu lists its six entries in order. */
  lemma SuperAdminMenuNames()
    ensures Names([DashboardItem] + RoleBlock(SuperAdmin)) ==
      ["Dashboard", "Tenant Management", "Company Management",
       "User Management", "Coupon Management", "Global Settings"]
  {
    var names := Names([DashboardItem] + RoleBlock(SuperAdmin));
    assert |names| == 6;
  }

  /** The owner's menu lists its four entries in order. */
  lemma OwnerMenuNames()
    ensures Names([DashboardItem] + RoleBlock(Owner)) ==
      ["Dashboard", "Company Users", "Company Settings", "Reports"]
  {
    var names := Names([DashboardItem] + RoleBlock(Owner));
    assert |names| == 4;
  }

  /** The user's menu lists its three entries in order. */
  lemma UserMenuNames()
    ensures Names([DashboardItem] + RoleBlock(User)) == ["Dashboard", "My Tasks", "Profile"]
  {
    var names := Names([DashboardItem] + RoleBlock(User));
    assert |names| == 3;
  }

  /** `navigationItems`: start from the dashboard entry and push the entries
      of the role's own block; the three blocks test different roles, so only
      one of them adds anything. */
  method NavigationItems(userRole: Role) returns (items: seq<NavItem>)
    ensures items == [DashboardItem] + RoleBlock(userRole)
    ensures WellFormedMenu(userRole, items)
    ensures userRole == SuperAdmin ==>
      Names(items) == ["Dashboard", "Tenant Management", "Company Management",
                       "User Management", "Coupon Management", "Global Settings"]
    ensures userRole == Owner ==>
      Names(items) == ["Dashboard", "Company Users", "Company Settings", "Reports"]
    ensures userRole == User ==>
      Names(items) == ["Dashboard", "My Tasks", "Profile"]
  {
    items := [DashboardItem];
    if userRole == SuperAdmin {
      items := items + RoleBlock(SuperAdmin);
    }
    if userRole == Owner {
      items := items + RoleBlock(Owner);
    }
    if userRole == User {
      items := items + RoleBlock(User);
    }
    match userRole
    case SuperAdmin => SuperAdminMenuWellFormed(); SuperAdminMenuNames();
    case Owner => OwnerMenuWellFormed(); OwnerMenuNames();
    case User => UserMenuWellFormed(); UserMenuNames();
  }

  /** The layout's `sidebarOpen` state. */
  class Sidebar {
    var sidebarOpen: bool

    constructor ()
      ensures !sidebarOpen
    {
      sidebarOpen := false;
    }

    /** `toggleSidebar`. */
    method Toggle()
      modifies this
      ensures sidebarOpen == !old(sidebarOpen)
    {
      sidebarOpen := !sidebarOpen;
    }
  }

  /** Toggling twice leaves the sidebar as it was. */
  method ToggleTwice(s: Sidebar)
    modifies s
    ensures s.sidebarOpen == old(s.sidebarOpen)
  {
    s.Toggle();
    s.Toggle();
  }

  /** `parts.map(n => n[0]).join("")`: an empty part's `n[0]` is undefined,
      which `join` writes as nothing. */
  function FirstChars(parts: seq<string>): string
  {
    if parts == [] then []
    else (if parts[0] == [] then [] else [parts[0][0]]) + FirstChars(parts[1..])
  }

  /** The avatar's fallback text: `userName.split(" ").map(n => n[0]).join("")`. */
  function Initials(userName: string): string
  {
    FirstChars(Split(userName))
  }

  /** The reference definition: the non-space characters of `s` that start it
      (when `atStart`) or follow a space, in order. */
  function WordStarts(s: string, atStart: bool): string
  {
    if s == [] then []
    else (if atStart && s[0] != ' ' then [s[0]] else []) + WordStarts(s[1..], s[0] == ' ')
  }

  lemma {:induction false} FirstCharsAppend(a: seq<string>, b: seq<string>)
    ensures FirstChars(a + b) == FirstChars(a) + FirstChars(b)
  {
    if a != [] {
      FirstCharsAppend(a[1..], b);
      assert (a + b)[1..] == a[1..] + b;
    } else {
      assert a + b == b;
    }
  }

  /** The initials of a name are its word starts; also for the pieces after
      the first, which start after a space. */
  lemma {:induction false} FirstCharsOfSplit(s: string)
    ensures FirstChars(Split(s)) == WordStarts(s, true)
    ensures FirstChars(Split(s)[1..]) == WordStarts(s, false)
  {
    if s != [] {
      FirstCharsOfSplit(s[1..]);
      var rest := Split(s[1..]);
      if s[0] == ' ' {
        assert Split(s) == [[]] + rest;
        assert Split(s)[1..] == rest;
      } else {
        var first := [s[0]] + rest[0];
        assert Split(s) == [first] + rest[1..];
        assert Split(s)[1..] == rest[1..];
        assert FirstChars([first] + rest[1..]) == [s[0]] + FirstChars(rest[1..]);
      }
    }
  }

  /** The avatar shows the first character of every word of the name, in
      order; runs of spaces contribute nothing, and no space is shown. */
  lemma InitialsAreWordStarts(userName: string)
    ensures Initials(userName) == WordStarts(userName, true)
    ensures ' ' !in Initials(userName)
    ensures |Initials(userName)| <= |userName|
  {
    FirstCharsOfSplit(userName);
    WordStartsBounds(userName, true);
  }

  lemma {:induction false} WordStartsBounds(s: string, atStart: bool)
    ensures ' ' !in WordStarts(s, atStart)
    ensures |WordStarts(s, atStart)| <= |s|
  {
    if s != [] {
      WordStartsBounds(s[1..], s[0] == ' ');
    }
  }
}
