/** The navigation bar's logic: which link is active for the current path, which links
    exist for a visitor with or without a session, and the two menu flags. */
module Navbar {
  import opened Text

  /** An entry of `navLinks`; `name` holds the entry's `label` (a reserved word in Dafny). */
  datatype NavLink = NavLink(href: string, name: string, icon: string)

  /** `isActiveLink`: the home link only on "/" itself; any other link whenever the
      path begins with its href. */
  predicate IsActiveLink(path: string, pathname: string)
  {
    (path == "/" && pathname == "/") || (path != "/" && StartsWith(pathname, path))
  }

  /** Home is active exactly on "/". */
  lemma HomeActiveOnlyAtRoot(pathname: string)
    ensures IsActiveLink("/", pathname) <==> pathname == "/"
  {
  }

  /** Any other link is active on every path that extends its href, related or not:
      "/ProductsX" activates "/Products". */
  lemma PrefixActivates(path: string, rest: string)
    requires path != "/"
    ensures IsActiveLink(path, path + rest)
    ensures IsActiveLink("/Products", "/ProductsX")
  {
    assert (path + rest)[..|path|] == path;
    assert "/ProductsX"[..|"/Products"|] == "/Products";
  }

  /** A link other than home is active only if the path is at least as long as its href. */
  lemma ActiveLinkIsPrefix(path: string, pathname: string)
    requires path != "/" && IsActiveLink(path, pathname)
    ensures |path| <= |pathname| && pathname[..|path|] == path
  {
  }

  const HomeLink: NavLink := NavLink("/", "Home", "\U{1F3E0}")
  const ProductsLink: NavLink := NavLink("/Products", "Products", "\U{1F6CD}\U{FE0F}")
  const AddProductLink: NavLink := NavLink("/dashboard/AddProduct", "Add Product", "\U{2795}")

  /** `navLinks`: Home and Products, then Add Product for a signed-in visitor. */
  function NavLinks(hasSession: bool): (links: seq<NavLink>)
    ensures |links| == if hasSession then 3 else 2
    ensures links[..2] == [HomeLink, ProductsLink]
    ensures AddProductLink in links <==> hasSession
  {
    [HomeLink, ProductsLink] + (if hasSession then [AddProductLink] else [])
  }

  /** The mobile-menu and user-menu flags. */
  class NavMenus {
    var pathname: string
    var isMenuOpen: bool
    var isUserMenuOpen: bool

    constructor(pathname: string)
      ensures this.pathname == pathname && !isMenuOpen && !isUserMenuOpen
    {
      this.pathname := pathname;
      isMenuOpen := false;
      isUserMenuOpen := false;
    }

    method ToggleMenu()
      modifies this
      ensures isMenuOpen == !old(isMenuOpen)
      ensures isUserMenuOpen == old(isUserMenuOpen) && pathname == old(pathname)
    {
      isMenuOpen := !isMenuOpen;
    }

    method ToggleUserMenu()
      modifies this
      ensures isUserMenuOpen == !old(isUserMenuOpen)
      ensures isMenuOpen == old(isMenuOpen) && pathname == old(pathname)
    {
      isUserMenuOpen := !isUserMenuOpen;
    }

    /** A navigation: the effect on [pathname] closes both menus when the path changes. */
    method RouteChanged(newPathname: string)
      modifies this
      ensures pathname == newPathname
      ensures newPathname != old(pathname) ==> !isMenuOpen && !isUserMenuOpen
      ensures newPathname == old(pathname) ==> isMenuOpen == old(isMenuOpen) && isUserMenuOpen == old(isUserMenuOpen)
    {
      if newPathname != pathname {
        pathname := newPathname;
        isMenuOpen := false;
        isUserMenuOpen := false;
      }
    }
  }
}
