/**
 * The role's navigation list shared by the desktop sidebar and the mobile
 * sheet: which list is shown, which entry is highlighted for the current
 * path, and the sheet closing once an entry is chosen.
 */
module Navigation {
  import opened Wrappers
  import Text

  datatype NavItem = NavItem(title: string, href: string)

  /** `isActivePath`: the page itself or any page below it. */
  predicate IsActivePath(pathname: string, href: string)
  {
    pathname == href || Text.StartsWith(pathname, href + "/")
  }

  /** Active means equal, or longer with the href followed by a slash. */
  lemma ActiveIff(pathname: string, href: string)
    ensures IsActivePath(pathname, href) <==>
      pathname == href
      || (|pathname| > |href| && pathname[..|href|] == href && pathname[|href|] == '/')
  {
    var h := href + "/";
    if |pathname| > |href| && pathname[..|href|] == href && pathname[|href|] == '/' {
      assert pathname[..|h|] == pathname[..|href|] + [pathname[|href|]];
    }
    if Text.StartsWith(pathname, h) {
      assert pathname[..|href|] == pathname[..|h|][..|href|] == h[..|href|] == href;
      assert pathname[|href|] == pathname[..|h|][|href|] == h[|href|];
    }
  }

  /** A sibling that shares the href only as text is not active ("/claimsx" against "/claims"). */
  lemma SiblingInactive(href: string, rest: string)
    requires rest != [] && rest[0] != '/'
    ensures !IsActivePath(href + rest, href)
  {
    ActiveIff(href + rest, href);
    assert (href + rest)[|href|] == rest[0];
  }

  lemma ClaimsSibling()
    ensures !IsActivePath("/claimsx", "/claims")
    ensures IsActivePath("/claims/7", "/claims")
  {
    SiblingInactive("/claims", "x");
    assert "/claims" + "x" == "/claimsx";
    ActiveIff("/claims/7", "/claims");
  }

  /** Everything below an active page keeps its entry active. */
  lemma DeeperStaysActive(pathname: string, href: string, tail: string)
    requires IsActivePath(pathname, href)
    ensures IsActivePath(pathname + "/" + tail, href)
  {
    var p := pathname + "/" + tail;
    ActiveIff(pathname, href);
    ActiveIff(p, href);
    assert p[..|pathname|] == pathname;
    assert p[|pathname|] == '/';
    assert p[..|href|] == pathname[..|href|] || pathname == href;
  }

  /** The home href "/" is active on "/" and on paths that start with a second slash, nowhere else. */
  lemma RootHref(pathname: string)
    ensures IsActivePath(pathname, "/") <==> pathname == "/" || Text.StartsWith(pathname, "//")
  {
    assert "/" + "/" == "//";
  }

  /** Nested entries light up together: on "/donations/new" both "/donations" and "/donations/new" are active. */
  lemma NestedEntriesBothActive()
    ensures IsActivePath("/donations/new", "/donations")
    ensures IsActivePath("/donations/new", "/donations/new")
  {
    ActiveIff("/donations/new", "/donations");
  }

  /** `user?.roles?.[0] ?? "donor"`: the first role, or donor when there is none. */
  function CurrentRole(roles: Option<seq<string>>): (r: string)
    ensures roles.None? || roles.value == [] ==> r == "donor"
    ensures roles.Some? && roles.value != [] ==> r == roles.value[0]
  {
    match roles
    case Some(rs) => if rs != [] then rs[0] else "donor"
    case None => "donor"
  }

  /** `NAV_ITEMS[role] ?? []`: the role's list, empty for a role without one. */
  function ItemsFor(navItems: map<string, seq<NavItem>>, role: string): (r: seq<NavItem>)
    ensures role in navItems ==> r == navItems[role]
    ensures role !in navItems ==> r == []
  {
    if role in navItems then navItems[role] else []
  }

  /** A rendered entry: the item and whether it is highlighted. */
  datatype NavLink = NavLink(item: NavItem, active: bool)

  /** The list both menus render for a user on a path. */
  function Links(navItems: map<string, seq<NavItem>>, roles: Option<seq<string>>, pathname: string): (r: seq<NavLink>)
    ensures var items := ItemsFor(navItems, CurrentRole(roles));
      |r| == |items|
      && forall k :: 0 <= k < |r| ==> r[k].item == items[k] && (r[k].active <==> IsActivePath(pathname, items[k].href))
  {
    var items := ItemsFor(navItems, CurrentRole(roles));
    seq(|items|, k requires 0 <= k < |items| => NavLink(items[k], IsActivePath(pathname, items[k].href)))
  }

  /** A user without roles sees the donor menu. */
  lemma NoRolesSeeDonorMenu(navItems: map<string, seq<NavItem>>, pathname: string)
    ensures Links(navItems, None, pathname) == Links(navItems, Some([]), pathname)
    ensures |Links(navItems, None, pathname)| == |ItemsFor(navItems, "donor")|
  {
  }

  /** The mobile sheet's open flag. */
  class MobileSheet {
    var open: bool

    constructor ()
      ensures !open
    {
      open := false;
    }

    /** `onOpenChange`: the sheet's own trigger and close controls. */
    method SetOpen(value: bool)
      modifies this
      ensures open == value
    {
      open := value;
    }

    /** A link's `onClick`: choosing any entry closes the sheet. */
    method Choose(item: NavItem)
      modifies this
      ensures !open
    {
      open := false;
    }
  }
}
