/** The cart page: what it shows for the cart store's lines and which store
    call each button makes. The store (its lines, `getTotalPrice` and the
    effect of each call) is not part of this model: lines and total are
    inputs, and a click yields the call it makes. */
module Cart {
  import opened Common
  import opened Entities

  /** A call into the cart store. */
  datatype StoreCall = UpdateQuantity(id: string, quantity: int) | RemoveItem(id: string) | ClearCart

  /** The buttons of a cart line. */
  datatype LineButton = Minus | Plus | Remove

  /** The call a line button makes. */
  function Click(item: CartItem, button: LineButton): (call: StoreCall)
    ensures !call.ClearCart? && call.id == item.id
    ensures button == Minus ==> call == UpdateQuantity(item.id, item.quantity - 1)
    ensures button == Plus ==> call == UpdateQuantity(item.id, item.quantity + 1)
    ensures button == Remove ==> call == RemoveItem(item.id)
  {
    match button
    case Minus => UpdateQuantity(item.id, item.quantity - 1)
    case Plus => UpdateQuantity(item.id, item.quantity + 1)
    case Remove => RemoveItem(item.id)
  }

  /** The "Clear Cart" button. */
  const ClearButtonCall: StoreCall := ClearCart

  /** Pressing plus on the line the minus button asked for asks for the
      original quantity again, and the other way round. */
  lemma MinusPlusInverse(item: CartItem)
    ensures Click(item.(quantity := Click(item, Minus).quantity), Plus) == UpdateQuantity(item.id, item.quantity)
    ensures Click(item.(quantity := Click(item, Plus).quantity), Minus) == UpdateQuantity(item.id, item.quantity)
  {
  }

  /** The page does not guard the minus button: on a line of one it asks the
      store for quantity 0, leaving the outcome to the store. */
  lemma MinusOnSingleAsksZero(item: CartItem)
    requires item.quantity == 1
    ensures Click(item, Minus) == UpdateQuantity(item.id, 0)
  {
  }

  /** The digits at the start of a string. */
  function LeadingDigits(s: string): (d: string)
    ensures |d| <= |s| && d == s[..|d|]
    ensures forall i :: 0 <= i < |d| ==> '0' <= d[i] <= '9'
  {
    if s != [] && '0' <= s[0] <= '9' then [s[0]] + LeadingDigits(s[1..]) else []
  }

  lemma {:induction false} LeadingDigitsOfNumber(d: string, rest: string)
    requires forall i :: 0 <= i < |d| ==> '0' <= d[i] <= '9'
    requires rest != [] && !('0' <= rest[0] <= '9')
    ensures LeadingDigits(d + rest) == d
  {
    if d != [] {
      assert (d + rest)[1..] == d[1..] + rest;
      LeadingDigitsOfNumber(d[1..], rest);
    } else {
      assert d + rest == rest;
    }
  }

  const EmptyHeading := "Your cart is empty"

  /** The line under the title for a cart of `count` lines. */
  function Heading(count: nat): string {
    if count > 0 then Decimal(count) + " event" + (if count > 1 then "s" else "") + " in your cart"
    else EmptyHeading
  }

  /** The tail of a non-empty heading. */
  function Tail(count: nat): string {
    " event" + (if count > 1 then "s" else "") + " in your cart"
  }

  lemma HeadingSplits(count: nat)
    requires count > 0
    ensures Heading(count) == Decimal(count) + Tail(count)
  {
  }

  /** The heading reads the empty message exactly for an empty cart. */
  lemma HeadingEmptyIff(count: nat)
    ensures Heading(count) == EmptyHeading <==> count == 0
  {
    if count > 0 {
      HeadingSplits(count);
      assert Heading(count)[0] == Decimal(count)[0];
      assert EmptyHeading[0] == 'Y';
    }
  }

  /** The number the heading starts with is the number of lines. */
  lemma HeadingCount(count: nat)
    requires count > 0
    ensures ParseDecimal(LeadingDigits(Heading(count))) == count
  {
    HeadingSplits(count);
    LeadingDigitsOfNumber(Decimal(count), Tail(count));
    DecimalRoundTrip(count);
  }

  /** The heading says "events" exactly when there is more than one line. */
  lemma HeadingPlural(count: nat)
    requires count > 0
    ensures |Heading(count)| >= 14
    ensures Heading(count)[|Heading(count)| - 14..] == "s in your cart" <==> count > 1
  {
    HeadingSplits(count);
    var h, t := Heading(count), Tail(count);
    assert h[|h| - 14..] == t[|t| - 14..];
    if count > 1 {
      assert t[|t| - 14..] == "s in your cart";
    } else {
      assert t[|t| - 14] == 't';
    }
  }

  /** A line as the page shows it. */
  datatype LineView = LineView(
    id: string,
    name: string,
    date: string,
    image: Option<string>,
    quantity: int,
    subtotal: int,
    each: Option<int>)

  /** The "Order Summary" box. */
  datatype Summary = Summary(subtotal: int, serviceFee: int, total: int)

  /** The body of the page below the heading. */
  datatype CartView = EmptyCart | Filled(lines: seq<LineView>, summary: Summary)

  /** One line: its subtotal, the unit price only for more than one ticket,
      and the image placeholder when the image is empty. */
  function Line(item: CartItem): (v: LineView)
    ensures v.id == item.id && v.quantity == item.quantity
    ensures v.subtotal == item.price * item.quantity
    ensures v.each.Some? <==> item.quantity > 1
    ensures v.each.Some? ==> v.each.value == item.price
    ensures v.image.Some? <==> item.image != ""
  {
    LineView(item.id, item.name, item.date, if item.image != "" then Some(item.image) else None,
             item.quantity, item.price * item.quantity,
             if item.quantity > 1 then Some(item.price) else None)
  }

  /** The page for the store's lines `items` and `total = getTotalPrice()`. */
  function View(items: seq<CartItem>, total: int): (v: CartView)
    ensures v.EmptyCart? <==> |items| == 0
    ensures v.Filled? ==> |v.lines| == |items| && forall i :: 0 <= i < |items| ==> v.lines[i] == Line(items[i])
    ensures v.Filled? ==> v.summary.serviceFee == 0 && v.summary.subtotal == total && v.summary.total == total
  {
    if |items| == 0 then EmptyCart
    else Filled(seq(|items|, i requires 0 <= i < |items| => Line(items[i])), Summary(total, 0, total))
  }

  /** With no service fee the total line always repeats the subtotal. */
  lemma TotalEqualsSubtotal(items: seq<CartItem>, total: int)
    ensures View(items, total).Filled? ==>
              View(items, total).summary.total == View(items, total).summary.subtotal + View(items, total).summary.serviceFee
  {
  }

  /** The heading and the body agree on whether the cart is empty. */
  lemma HeadingMatchesView(items: seq<CartItem>, total: int)
    ensures Heading(|items|) == EmptyHeading <==> View(items, total).EmptyCart?
  {
    HeadingEmptyIff(|items|);
  }
}
