/**
 * The navigation bar: which of the six links is highlighted for the
 * current path, and the open/closed state of the mobile menu.
 */
module Navigation {

  import opened Text

  datatype NavItem = NavItem(href: string, caption: string)

  const NavItems: seq<NavItem> := [
    NavItem("/", "Home"),
    NavItem("/launches", "Launches"),
    NavItem("/rockets", "Rockets"),
    NavItem("/satellites", "Satellites"),
    NavItem("/organizations", "Organizations"),
    NavItem("/news", "News")
  ]

  /**
   * `isActive`: the home link only on "/" itself, every other link whenever
   * the path begins with its href, with no check for a segment boundary.
   */
  predicate IsActive(href: string, pathname: string)
  {
    if href == "/" then pathname == "/" else StartsWith(pathname, href)
  }

  /** The home link is highlighted exactly on the root path. */
  lemma RootActiveIff(pathname: string)
    ensures IsActive("/", pathname) <==> pathname == "/"
  {
  }

  /** Any other link is highlighted exactly when its href is a prefix of the path. */
  lemma OtherActiveIff(href: string, pathname: string)
    requires href != "/"
    ensures IsActive(href, pathname) <==> |href| <= |pathname| && pathname[..|href|] == href
  {
  }

  /** The prefix rule has no segment boundary: "/rocketsX" highlights "/rockets", "/" highlights nothing else. */
  lemma PrefixWithoutBoundary()
    ensures IsActive("/rockets", "/rocketsX")
    ensures IsActive("/rockets", "/rockets/12")
    ensures !IsActive("/", "/rockets")
    ensures !IsActive("/rockets", "/")
    ensures forall i :: 1 <= i < |NavItems| ==> !IsActive(NavItems[i].href, "/")
  {
  }

  /**
   * Apart from the root, the hrefs differ already in their second character,
   * so none of them begins with another.
   */
  lemma HrefsDifferAfterSlash(i: nat, j: nat)
    requires i < |NavItems| && j < |NavItems|
    ensures NavItems[i].href[0] == '/'
    ensures NavItems[i].href == "/" <==> i == 0
    ensures i != 0 && j != 0 ==> (NavItems[i].href[1] == NavItems[j].href[1] <==> i == j)
  {
  }

  /** Whatever the path, at most one link is highlighted. */
  lemma AtMostOneActive(pathname: string, i: nat, j: nat)
    requires i < |NavItems| && j < |NavItems|
    requires IsActive(NavItems[i].href, pathname) && IsActive(NavItems[j].href, pathname)
    ensures i == j
  {
    HrefsDifferAfterSlash(i, j);
    var a, b := NavItems[i].href, NavItems[j].href;
    if i != 0 && j != 0 {
      assert pathname[..|a|] == a && pathname[..|b|] == b;
      assert a[1] == pathname[1] == b[1];
    }
  }

  /** The mobile menu: closed at first, toggled by the menu button, closed by choosing a link. */
  class MobileMenu {
    var isOpen: bool

    constructor ()
      ensures !isOpen
    {
      isOpen := false;
    }

    /** The menu button: `setIsOpen(!isOpen)`. */
    method Toggle()
      modifies this
      ensures isOpen == !old(isOpen)
    {
      isOpen := !isOpen;
    }

    /** A link in the open mobile menu: `setIsOpen(false)`. */
    method Close()
      modifies this
      ensures !isOpen
    {
      isOpen := false;
    }
  }

  /** Pressing the menu button twice leaves the menu as it was. */
  method ToggleTwiceRestores(menu: MobileMenu)
    modifies menu
    ensures menu.isOpen == old(menu.isOpen)
  {
    menu.Toggle();
    menu.Toggle();
  }
}
