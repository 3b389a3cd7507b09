/**
 * The bottom navigation bar (components/navigation.tsx): hidden on profile pages,
 * otherwise three buttons, each marked active by a prefix test on the pathname.
 */
module Navigation {
  import opened Wrappers
  import opened Strings

  datatype NavItem = NavItem(path: string, text: string)

  /** The fixed items, in display order. */
  const NavItems: seq<NavItem> := [
    NavItem("/", "Home"),
    NavItem("/explore", "Explore"),
    NavItem("/settings", "Settings")
  ]

  /** A rendered button and whether it is highlighted. */
  datatype Button = Button(item: NavItem, active: bool)

  /** The bar renders nothing on a path under "/profile/"; `pathname` is None when there is none. */
  predicate Hidden(pathname: Option<string>) {
    pathname.Some? && StartsWith(pathname.value, "/profile/")
  }

  /** `isActive(path)`: the root only on "/" itself, any other item on every path it prefixes. */
  function IsActive(path: string, pathname: Option<string>): (active: bool)
    ensures pathname.None? ==> !active
    ensures path == "/" ==> (active <==> pathname == Some("/"))
    ensures path != "/" ==> (active <==> pathname.Some? && StartsWith(pathname.value, path))
  {
    if path == "/" && pathname == Some("/") then true
    else if path != "/" && pathname.Some? && StartsWith(pathname.value, path) then true
    else false
  }

  /** The bar for a pathname: None when hidden, else every item with its active flag. */
  function Render(pathname: Option<string>): (bar: Option<seq<Button>>)
    ensures bar.None? <==> Hidden(pathname)
    ensures bar.Some? ==> |bar.value| == |NavItems|
    ensures bar.Some? ==> forall i :: 0 <= i < |NavItems| ==>
      bar.value[i].item == NavItems[i] && bar.value[i].active == IsActive(NavItems[i].path, pathname)
  {
    if Hidden(pathname) then None
    else Some(seq(|NavItems|, i requires 0 <= i < |NavItems| => Button(NavItems[i], IsActive(NavItems[i].path, pathname))))
  }

  /** The index of the item a pathname selects, tried in display order. */
  function ActiveIndex(pathname: Option<string>): Option<nat> {
    if pathname == Some("/") then Some(0)
    else if pathname.Some? && StartsWith(pathname.value, "/explore") then Some(1)
    else if pathname.Some? && StartsWith(pathname.value, "/settings") then Some(2)
    else None
  }

  /** An item is active exactly when it is the one `ActiveIndex` selects. */
  lemma ActiveIndexIsTheActiveItem(pathname: Option<string>, i: nat)
    requires i < |NavItems|
    ensures IsActive(NavItems[i].path, pathname) <==> ActiveIndex(pathname) == Some(i)
  {
    if pathname.Some? {
      var p := pathname.value;
      if StartsWith(p, "/explore") {
        assert p[1] == 'e' && |p| > 1;
      }
      if StartsWith(p, "/settings") {
        assert p[1] == 's' && |p| > 1;
      }
    }
  }

  /** With the fixed items, no pathname activates two of them. */
  lemma AtMostOneActive(pathname: Option<string>, i: nat, j: nat)
    requires i < |NavItems| && j < |NavItems|
    requires IsActive(NavItems[i].path, pathname) && IsActive(NavItems[j].path, pathname)
    ensures i == j
  {
    ActiveIndexIsTheActiveItem(pathname, i);
    ActiveIndexIsTheActiveItem(pathname, j);
  }

  /** Every path below "/explore" activates Explore, and only Explore. */
  lemma ExploreSubpathsActivateExplore(rest: string)
    ensures IsActive("/explore", Some("/explore" + rest))
    ensures !IsActive("/", Some("/explore" + rest)) && !IsActive("/settings", Some("/explore" + rest))
  {
    var p := "/explore" + rest;
    assert p[..|"/explore"|] == "/explore";
    assert p[1] == 'e';
    assert p != "/" by { assert |p| > 1; }
  }

  /** The test is a bare prefix test: "/explorer" activates Explore too. */
  lemma PrefixWithoutSegmentBoundary()
    ensures IsActive("/explore", Some("/explorer"))
  {
    assert "/explorer"[..|"/explore"|] == "/explore";
  }

  /** On a profile page nothing is rendered, whatever follows "/profile/". */
  lemma HiddenOnProfilePages(fid: string)
    ensures Render(Some("/profile/" + fid)).None?
  {
    assert ("/profile/" + fid)[..|"/profile/"|] == "/profile/";
  }
}
