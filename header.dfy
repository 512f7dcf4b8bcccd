/** The site header: the cart badge count, the navigation links and which
    one is active, and the mobile-menu and scrolled flags. */
module Header {
  import opened Entities

  /** `cartItems.reduce((sum, item) => sum + item.quantity, 0)`, folded
      from the left. */
  function TotalItems(items: seq<CartItem>): int {
    if items == [] then 0 else TotalItems(items[..|items| - 1]) + items[|items| - 1].quantity
  }

  /** The count of a cart is the count of its parts added up. */
  lemma {:induction false} TotalItemsAppend(xs: seq<CartItem>, ys: seq<CartItem>)
    ensures TotalItems(xs + ys) == TotalItems(xs) + TotalItems(ys)
  {
    if ys != [] {
      var init := ys[..|ys| - 1];
      assert (xs + ys)[..|xs + ys| - 1] == xs + init;
      TotalItemsAppend(xs, init);
    } else {
      assert xs + ys == xs;
    }
  }

  /** When every line holds at least one ticket, the badge count is at least
      the number of lines, so it is positive exactly for a non-empty cart. */
  lemma {:induction false} TotalItemsBounds(items: seq<CartItem>)
    requires forall i :: 0 <= i < |items| ==> items[i].quantity >= 1
    ensures TotalItems(items) >= |items|
    ensures TotalItems(items) > 0 <==> |items| > 0
  {
    if items != [] {
      TotalItemsBounds(items[..|items| - 1]);
    }
  }

  /** `totalItems > 0 && <badge/>`. */
  predicate BadgeShown(items: seq<CartItem>) {
    TotalItems(items) > 0
  }

  /** An empty cart shows no badge; one more ticket in a shown cart keeps it
      shown. */
  lemma BadgeSpec(items: seq<CartItem>, item: CartItem)
    ensures items == [] ==> !BadgeShown(items)
    ensures BadgeShown(items) && item.quantity >= 0 ==> BadgeShown(items + [item])
  {
    assert (items + [item])[..|items|] == items;
  }

  datatype NavLink = NavLink(path: string, text: string)

  /** `navLinks`. */
  const NavLinks: seq<NavLink> := [
    NavLink("/", "Home"),
    NavLink("/events", "Events"),
    NavLink("/gallery", "Gallery"),
    NavLink("/schedule", "Schedule"),
    NavLink("/sponsors", "Sponsors"),
    NavLink("/faq", "FAQ"),
    NavLink("/about", "About")]

  /** `location.pathname === link.path`: an exact match, so `/events/1`
      activates no link. */
  predicate IsActive(pathname: string, link: NavLink) {
    pathname == link.path
  }

  /** At most one link is highlighted, and one is exactly when the path is
      one of the seven. */
  lemma ActiveLinkUnique(pathname: string)
    ensures forall i, j :: (0 <= i < |NavLinks| && 0 <= j < |NavLinks| &&
              IsActive(pathname, NavLinks[i]) && IsActive(pathname, NavLinks[j])) ==> i == j
    ensures (exists i :: 0 <= i < |NavLinks| && IsActive(pathname, NavLinks[i])) <==>
              pathname in {"/", "/events", "/gallery", "/schedule", "/sponsors", "/faq", "/about"}
  {
    if pathname in {"/", "/events", "/gallery", "/schedule", "/sponsors", "/faq", "/about"} {
      var k := if pathname == "/" then 0 else if pathname == "/events" then 1
        else if pathname == "/gallery" then 2 else if pathname == "/schedule" then 3
        else if pathname == "/sponsors" then 4 else if pathname == "/faq" then 5 else 6;
      assert IsActive(pathname, NavLinks[k]);
    }
  }

  /** The header's own state. */
  class HeaderState {
    var isMenuOpen: bool
    var scrolled: bool

    constructor ()
      ensures !isMenuOpen && !scrolled
    {
      isMenuOpen, scrolled := false, false;
    }

    /** The menu button. */
    method ToggleMenu()
      modifies this`isMenuOpen
      ensures isMenuOpen == !old(isMenuOpen)
    {
      isMenuOpen := !isMenuOpen;
    }

    /** Any link of the mobile menu. */
    method CloseMenu()
      modifies this`isMenuOpen
      ensures !isMenuOpen
    {
      isMenuOpen := false;
    }

    /** The scroll listener, at vertical offset `scrollY` (whole pixels). */
    method OnScroll(scrollY: int)
      modifies this`scrolled
      ensures scrolled <==> scrollY > 20
    {
      scrolled := scrollY > 20;
    }
  }
}
