/** The events page: the location buttons and filter, the "in cart" test
    against the cart store's lines, the payload handed to the store's
    `addItem`, the transient `addedItems` set and the add button's state.

    date-fns `format(new Date(d), 'MMM dd, yyyy')` is the parameter
    `dateLabel`; the cart store is not part of this model, so a click
    returns the payload it would pass to `addItem`. */
module Events {
  import opened Common
  import opened Entities

  /** The object passed to the cart store's `addItem`. */
  datatype CartPayload = CartPayload(id: string, name: string, price: int, image: string, date: string)

  /** The payload of `handleAddToCart(event)`. */
  function AddPayload(e: Event, dateLabel: string -> string): CartPayload {
    CartPayload(
      e.id,
      OrElse(e.eventName, "Unnamed Event"),
      OrZero(e.eventPrice),
      OrElse(e.eventImage, ""),
      if Truthy(e.eventDate) then dateLabel(e.eventDate.value) else "TBA")
  }

  /** The payload carries the event's id; each field is the event's own value
      when present and its default otherwise. */
  lemma AddPayloadSpec(e: Event, dateLabel: string -> string)
    ensures AddPayload(e, dateLabel).id == e.id
    ensures AddPayload(e, dateLabel).name != ""
    ensures AddPayload(e, dateLabel).name == (if Truthy(e.eventName) then e.eventName.value else "Unnamed Event")
    ensures AddPayload(e, dateLabel).price == (if e.eventPrice.Some? then e.eventPrice.value else 0)
    ensures AddPayload(e, dateLabel).image == (if e.eventImage.Some? then e.eventImage.value else "")
    ensures Truthy(e.eventDate) ==> AddPayload(e, dateLabel).date == dateLabel(e.eventDate.value)
    ensures !Truthy(e.eventDate) ==> AddPayload(e, dateLabel).date == "TBA"
  {
  }

  /** `isInCart(id)`: `cartItems.some(item => item.id === id)`. */
  function InCart(cart: seq<CartItem>, id: string): (r: bool)
    ensures r <==> exists i :: 0 <= i < |cart| && cart[i].id == id
  {
    if cart == [] then false
    else if cart[0].id == id then true
    else
      var r := InCart(cart[1..], id);
      assert r ==> exists i :: 0 <= i < |cart| && cart[i].id == id by {
        if r {
          var i :| 0 <= i < |cart[1..]| && cart[1..][i].id == id;
          assert cart[i + 1].id == id;
        }
      }
      r
  }

  /** What the add button shows. */
  datatype ButtonLabel = InCartLabel | AddedLabel | AddToCartLabel

  /** "In Cart" beats "Added!", which beats "Add to Cart". */
  function Label(cart: seq<CartItem>, addedItems: set<string>, id: string): (l: ButtonLabel)
    ensures l == InCartLabel <==> InCart(cart, id)
    ensures l == AddedLabel <==> !InCart(cart, id) && id in addedItems
    ensures l == AddToCartLabel <==> !InCart(cart, id) && id !in addedItems
  {
    if InCart(cart, id) then InCartLabel
    else if id in addedItems then AddedLabel
    else AddToCartLabel
  }

  /** `disabled={isInCart(event._id)}`. */
  predicate Disabled(cart: seq<CartItem>, id: string) {
    InCart(cart, id)
  }

  /** The button is disabled exactly when it reads "In Cart". */
  lemma DisabledIffInCartLabel(cart: seq<CartItem>, addedItems: set<string>, id: string)
    ensures Disabled(cart, id) <==> Label(cart, addedItems, id) == InCartLabel
  {
  }

  function LocationOf(e: Event): Option<string> {
    e.eventLocation
  }

  /** The location filter buttons of the events page. */
  function Categories(events: seq<Event>): seq<string> {
    Choices(Keys(events, LocationOf))
  }

  /** The location buttons: `'all'` first, then each non-empty location
      once, in the order in which the events first carry them. */
  lemma CategoriesSpec(events: seq<Event>)
    ensures |Categories(events)| >= 1 && Categories(events)[0] == "all"
    ensures forall c :: c in Categories(events)[1..] <==>
              c != "" && exists i :: 0 <= i < |events| && events[i].eventLocation == Some(c)
    ensures NoDuplicates(Categories(events)[1..])
    ensures forall a, b :: 1 <= a < b < |Categories(events)| ==>
              exists k :: 0 <= k < |events| && events[k].eventLocation == Some(Categories(events)[a]) &&
                forall k' :: 0 <= k' <= k ==> events[k'].eventLocation != Some(Categories(events)[b])
  {
    ChoicesFollowItems(events, LocationOf);
  }

  /** `filteredEvents`: every event for `'all'`, otherwise those at the
      selected location. */
  function FilteredEvents(events: seq<Event>, selected: string): (r: seq<Event>)
    ensures selected == "all" ==> r == events
    ensures selected != "all" ==> forall e :: e in r <==> e in events && e.eventLocation == Some(selected)
  {
    SelectAllOrEqual(events, LocationOf, selected)
  }

  /** The state of the events page. */
  class EventsPage {
    var events: seq<Event>
    var loading: bool
    var selectedCategory: string
    var addedItems: set<string>

    constructor ()
      ensures events == [] && loading && selectedCategory == "all" && addedItems == {}
    {
      events, loading, selectedCategory, addedItems := [], true, "all", {};
    }

    /** `loadEvents`: keeps the fetched list, or the empty one if the fetch
        threw; loading ends either way. */
    method LoadEvents(fetched: Fetch<seq<Event>>)
      modifies this`events, this`loading
      ensures !loading
      ensures events == if fetched.Fetched? then fetched.items else old(events)
    {
      if fetched.Fetched? {
        events := fetched.items;
      }
      loading := false;
    }

    /** A location button. */
    method SelectCategory(category: string)
      modifies this`selectedCategory
      ensures selectedCategory == category
    {
      selectedCategory := category;
    }

    /** A click on an event's add button while the store holds `cart`. A
        disabled button does nothing; otherwise `handleAddToCart` hands the
        payload to the store and marks the event as just added. */
    method ClickAdd(e: Event, cart: seq<CartItem>, dateLabel: string -> string) returns (request: Option<CartPayload>)
      modifies this`addedItems
      ensures Disabled(cart, e.id) ==> request == None && addedItems == old(addedItems)
      ensures !Disabled(cart, e.id) ==>
                request == Some(AddPayload(e, dateLabel)) && addedItems == old(addedItems) + {e.id}
    {
      if Disabled(cart, e.id) {
        request := None;
      } else {
        request := Some(AddPayload(e, dateLabel));
        addedItems := addedItems + {e.id};
      }
    }

    /** The timeout two seconds after an add: deletes that one id. */
    method AddedExpired(id: string)
      modifies this`addedItems
      ensures addedItems == old(addedItems) - {id}
    {
      addedItems := addedItems - {id};
    }
  }

  /** After an add and before its timeout the event reads "Added!" unless
      the store now lists it; the timeout clears only that event's mark. */
  lemma AddThenExpire(addedItems: set<string>, cart: seq<CartItem>, id: string, other: string)
    requires other != id
    ensures !InCart(cart, id) ==> Label(cart, addedItems + {id}, id) == AddedLabel
    ensures Label(cart, addedItems + {id} - {id}, id) != AddedLabel
    ensures Label(cart, addedItems - {id}, other) == Label(cart, addedItems, other)
  {
  }
}
