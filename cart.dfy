/** The customer page: the cart held in component state, its total, and
    the checks and payloads of placing an order and booking a table. Each
    `setCart` replaces the cart with a new array; the class below holds that
    array as a field its methods reassign. */
module CustomerPage {
  import opened Common
  import opened Sorting
  import opened Auth
  import Models
  import Reservations
  import StaffController

  /** A cart entry `{_id, name, price, quantity}`; the price is copied from
      the menu item and may be missing. */
  datatype CartItem = CartItem(id: Id, name: string, price: Option<int>, quantity: int)

  /** The fields of a menu item the cart reads. */
  datatype MenuPick = MenuPick(id: Id, name: string, price: Option<int>)

  /** `Number(item.price || 0) * Number(item.quantity || 0)`. */
  function LineTotal(c: CartItem): int {
    c.price.GetOr(0) * c.quantity
  }

  function UnitPrice(c: CartItem): int {
    c.price.GetOr(0)
  }

  /** `totalAmount`: the reduce over the cart. */
  function CartTotal(cart: seq<CartItem>): int {
    SumOf(cart, LineTotal)
  }

  predicate HasId(cart: seq<CartItem>, id: Id) {
    exists i :: 0 <= i < |cart| && cart[i].id == id
  }

  /** No two entries share an id, and every quantity is at least 1. */
  ghost predicate CartValid(cart: seq<CartItem>) {
    (forall i, j :: 0 <= i < j < |cart| ==> cart[i].id != cart[j].id)
    && forall i :: 0 <= i < |cart| ==> cart[i].quantity >= 1
  }

  /** The entries with id `id` get one more. */
  function Bumped(cart: seq<CartItem>, id: Id): (r: seq<CartItem>)
    ensures |r| == |cart|
    ensures forall i :: 0 <= i < |cart| ==>
              r[i] == if cart[i].id == id then cart[i].(quantity := cart[i].quantity + 1) else cart[i]
  {
    if |cart| == 0 then []
    else
      var rest := Bumped(cart[1..], id);
      var head := if cart[0].id == id then cart[0].(quantity := cart[0].quantity + 1) else cart[0];
      assert forall i :: 1 <= i < |cart| ==> cart[i] == cart[1..][i - 1];
      [head] + rest
  }

  /** `addToCart`: one more of an item already in the cart, otherwise a new
      entry of quantity 1 at the end. */
  function AddedToCart(cart: seq<CartItem>, m: MenuPick): seq<CartItem> {
    if HasId(cart, m.id) then Bumped(cart, m.id)
    else cart + [CartItem(m.id, m.name, m.price, 1)]
  }

  /** `updateQty` once the quantity has passed its check: the matching entry
      takes the new quantity. */
  function WithQty(cart: seq<CartItem>, id: Id, q: int): (r: seq<CartItem>)
    ensures |r| == |cart|
    ensures forall i :: 0 <= i < |cart| ==> r[i] == if cart[i].id == id then cart[i].(quantity := q) else cart[i]
  {
    seq(|cart|, i requires 0 <= i < |cart| => if cart[i].id == id then cart[i].(quantity := q) else cart[i])
  }

  /** `Number(qty)` is NaN (modelled as a missing value) or below 1. */
  predicate QtyRejected(qty: Option<int>) {
    qty.None? || qty.value < 1
  }

  function NotId(id: Id): CartItem -> bool {
    (c: CartItem) => c.id != id
  }

  /** `removeFromCart`: the entries with another id, in order. */
  function Removed(cart: seq<CartItem>, id: Id): (r: seq<CartItem>)
    ensures !HasId(r, id)
    ensures forall i :: 0 <= i < |cart| && cart[i].id != id ==> cart[i] in r
    ensures forall i :: 0 <= i < |r| ==> r[i] in cart
  {
    Filter(cart, NotId(id))
  }

  // -----------------------------------------------------------------------
  // What the cart operations promise

  /** Adding an item already in the cart bumps its quantity and touches
      nothing else; adding a new one appends it with quantity 1. */
  lemma AddToCartFacts(cart: seq<CartItem>, m: MenuPick)
    ensures HasId(cart, m.id) ==>
              |AddedToCart(cart, m)| == |cart|
              && forall i :: 0 <= i < |cart| ==>
                   AddedToCart(cart, m)[i] == if cart[i].id == m.id then cart[i].(quantity := cart[i].quantity + 1) else cart[i]
    ensures !HasId(cart, m.id) ==> AddedToCart(cart, m) == cart + [CartItem(m.id, m.name, m.price, 1)]
  {
  }

  lemma AddKeepsValid(cart: seq<CartItem>, m: MenuPick)
    requires CartValid(cart)
    ensures CartValid(AddedToCart(cart, m))
  {
    var r := AddedToCart(cart, m);
    if !HasId(cart, m.id) {
      forall i, j | 0 <= i < j < |r| ensures r[i].id != r[j].id {
        if j == |cart| {
          assert r[i] == cart[i];
        } else {
          assert r[i] == cart[i] && r[j] == cart[j];
        }
      }
    }
  }

  lemma UpdateKeepsValid(cart: seq<CartItem>, id: Id, q: int)
    requires CartValid(cart) && q >= 1
    ensures CartValid(WithQty(cart, id, q))
  {
  }

  /** The tail of a valid cart is valid and does not repeat the head's id. */
  lemma TailValid(cart: seq<CartItem>)
    requires |cart| > 0 && CartValid(cart)
    ensures CartValid(cart[1..])
    ensures forall k :: 0 <= k < |cart| - 1 ==> cart[1..][k].id != cart[0].id
  {
    var tail := cart[1..];
    forall i, j | 0 <= i < j < |tail| ensures tail[i].id != tail[j].id {
      assert tail[i] == cart[i + 1] && tail[j] == cart[j + 1];
    }
    forall k | 0 <= k < |tail| ensures tail[k].id != cart[0].id && tail[k].quantity >= 1 {
      assert tail[k] == cart[k + 1];
    }
  }

  /** An entry with a fresh id and a positive quantity extends a valid cart. */
  lemma ConsValid(x: CartItem, rest: seq<CartItem>)
    requires CartValid(rest) && x.quantity >= 1
    requires forall j :: 0 <= j < |rest| ==> rest[j].id != x.id
    ensures CartValid([x] + rest)
  {
    var r := [x] + rest;
    forall i, j | 0 <= i < j < |r| ensures r[i].id != r[j].id {
      assert r[j] == rest[j - 1];
      if i > 0 { assert r[i] == rest[i - 1]; }
    }
    forall i | 0 <= i < |r| ensures r[i].quantity >= 1 {
      if i > 0 { assert r[i] == rest[i - 1]; }
    }
  }

  lemma {:induction false} FilterKeepsValid(cart: seq<CartItem>, id: Id)
    requires CartValid(cart)
    ensures CartValid(Filter(cart, NotId(id)))
    decreases |cart|
  {
    if |cart| > 0 {
      var tail := cart[1..];
      TailValid(cart);
      FilterKeepsValid(tail, id);
      var rest := Filter(tail, NotId(id));
      if cart[0].id != id {
        forall j | 0 <= j < |rest| ensures rest[j].id != cart[0].id {
          var k :| 0 <= k < |tail| && tail[k] == rest[j];
        }
        ConsValid(cart[0], rest);
        assert Filter(cart, NotId(id)) == [cart[0]] + rest;
      } else {
        assert Filter(cart, NotId(id)) == rest;
      }
    }
  }

  lemma RemoveKeepsValid(cart: seq<CartItem>, id: Id)
    requires CartValid(cart)
    ensures CartValid(Removed(cart, id))
  {
    FilterKeepsValid(cart, id);
  }

  /** The sum of `f` over the entries with id `id`. */
  function SumForId(cart: seq<CartItem>, id: Id, f: CartItem -> int): int {
    if |cart| == 0 then 0
    else (if cart[0].id == id then f(cart[0]) else 0) + SumForId(cart[1..], id, f)
  }

  /** In a valid cart, the entries with the id of entry `k` are that entry alone. */
  lemma {:induction false} SumForUniqueId(cart: seq<CartItem>, k: nat, f: CartItem -> int)
    requires k < |cart|
    requires forall i, j :: 0 <= i < j < |cart| ==> cart[i].id != cart[j].id
    ensures SumForId(cart, cart[k].id, f) == f(cart[k])
    decreases |cart|
  {
    var tail := cart[1..];
    assert forall i :: 0 <= i < |tail| ==> tail[i] == cart[i + 1];
    if k == 0 {
      SumForAbsentId(tail, cart[0].id, f);
    } else {
      SumForUniqueId(tail, k - 1, f);
    }
  }

  lemma {:induction false} SumForAbsentId(cart: seq<CartItem>, id: Id, f: CartItem -> int)
    requires forall i :: 0 <= i < |cart| ==> cart[i].id != id
    ensures SumForId(cart, id, f) == 0
    decreases |cart|
  {
    if |cart| > 0 {
      assert forall i :: 0 <= i < |cart| - 1 ==> cart[1..][i] == cart[i + 1];
      SumForAbsentId(cart[1..], id, f);
    }
  }

  /** Bumping adds one unit price per bumped entry. */
  lemma {:induction false} BumpedTotal(cart: seq<CartItem>, id: Id)
    ensures CartTotal(Bumped(cart, id)) == CartTotal(cart) + SumForId(cart, id, UnitPrice)
    decreases |cart|
  {
    if |cart| > 0 {
      BumpedTotal(cart[1..], id);
      assert Bumped(cart, id)[1..] == Bumped(cart[1..], id);
    }
  }

  /** What setting the quantity of an entry to `q` adds to the total. */
  function QtyDelta(q: int): CartItem -> int {
    (c: CartItem) => UnitPrice(c) * (q - c.quantity)
  }

  lemma {:induction false} WithQtyTotal(cart: seq<CartItem>, id: Id, q: int)
    ensures CartTotal(WithQty(cart, id, q)) == CartTotal(cart) + SumForId(cart, id, QtyDelta(q))
    decreases |cart|
  {
    if |cart| > 0 {
      WithQtyTotal(cart[1..], id, q);
      assert WithQty(cart, id, q)[1..] == WithQty(cart[1..], id, q);
    }
  }

  /** Setting the quantity of an entry of a valid cart changes the total by
      its unit price times the change in quantity, and nothing else. */
  lemma UpdateQtyTotal(cart: seq<CartItem>, k: nat, q: int)
    requires CartValid(cart) && k < |cart|
    ensures CartTotal(WithQty(cart, cart[k].id, q)) == CartTotal(cart) + UnitPrice(cart[k]) * (q - cart[k].quantity)
  {
    WithQtyTotal(cart, cart[k].id, q);
    SumForUniqueId(cart, k, QtyDelta(q));
  }

  /** The total splits into the line of id `id` and the rest of the cart. */
  lemma {:induction false} TotalSplits(cart: seq<CartItem>, id: Id)
    ensures CartTotal(cart) == SumForId(cart, id, LineTotal) + CartTotal(Removed(cart, id))
    decreases |cart|
  {
    if |cart| > 0 {
      TotalSplits(cart[1..], id);
    }
  }

  /** Adding an item raises the total by its price (0 when it has none). */
  lemma AddRaisesTotal(cart: seq<CartItem>, m: MenuPick)
    requires CartValid(cart)
    ensures !HasId(cart, m.id) ==> CartTotal(AddedToCart(cart, m)) == CartTotal(cart) + m.price.GetOr(0)
    ensures forall k :: 0 <= k < |cart| && cart[k].id == m.id ==>
              CartTotal(AddedToCart(cart, m)) == CartTotal(cart) + cart[k].price.GetOr(0)
  {
    if HasId(cart, m.id) {
      BumpedTotal(cart, m.id);
      forall k | 0 <= k < |cart| && cart[k].id == m.id
        ensures CartTotal(AddedToCart(cart, m)) == CartTotal(cart) + cart[k].price.GetOr(0)
      {
        SumForUniqueId(cart, k, UnitPrice);
      }
    } else {
      SumOfAppendOne(cart, CartItem(m.id, m.name, m.price, 1));
    }
  }

  lemma {:induction false} SumOfAppendOne(cart: seq<CartItem>, c: CartItem)
    ensures CartTotal(cart + [c]) == CartTotal(cart) + LineTotal(c)
    decreases |cart|
  {
    if |cart| == 0 {
      assert cart + [c] == [c];
    } else {
      assert (cart + [c])[1..] == cart[1..] + [c];
      SumOfAppendOne(cart[1..], c);
    }
  }

  /** Removing an entry of a valid cart lowers the total by that entry's line. */
  lemma RemoveLowersTotal(cart: seq<CartItem>, k: nat)
    requires CartValid(cart) && k < |cart|
    ensures CartTotal(Removed(cart, cart[k].id)) == CartTotal(cart) - LineTotal(cart[k])
  {
    TotalSplits(cart, cart[k].id);
    SumForUniqueId(cart, k, LineTotal);
  }

  /** `Removed` on a non-empty cart: the head if it is kept, then the rest. */
  lemma RemovedCons(cart: seq<CartItem>, id: Id)
    requires |cart| > 0
    ensures Removed(cart, id) == (if cart[0].id != id then [cart[0]] else []) + Removed(cart[1..], id)
  {
  }

  /** Removing keeps the other entries in their order. */
  lemma RemoveKeepsOrder(cart: seq<CartItem>, id: Id, i: nat, j: nat)
    requires i < j < |cart| && cart[i].id != id && cart[j].id != id
    ensures exists a, b :: 0 <= a < b < |Removed(cart, id)| && Removed(cart, id)[a] == cart[i] && Removed(cart, id)[b] == cart[j]
  {
    var front, back := cart[..j], cart[j..];
    assert cart == front + back;
    FilterConcat(front, back, NotId(id));
    var fr, br := Removed(front, id), Removed(back, id);
    RemovedCons(back, id);
    assert br[0] == cart[j];
    assert front[i] == cart[i];
    var a :| 0 <= a < |fr| && fr[a] == cart[i];
    var r := Removed(cart, id);
    assert r == fr + br;
    assert r[a] == cart[i] && r[|fr|] == cart[j];
  }

  // -----------------------------------------------------------------------
  // Placing an order

  /** The checkout fields held in component state. */
  datatype CheckoutForm = CheckoutForm(
    customerName: string,
    phone: string,
    orderType: string,
    deliveryAddress: string,
    scheduledTime: string,
    paymentMethod: string)

  /** An item as posted: the cart entry without its `_id`. */
  datatype PayloadItem = PayloadItem(name: string, price: Option<int>, quantity: int)

  datatype OrderPayload = OrderPayload(
    customerName: string,
    phone: string,
    orderType: string,
    deliveryAddress: string,
    scheduledTime: string,
    paymentMethod: string,
    paymentStatus: string,
    items: seq<PayloadItem>,
    totalAmount: int)

  /** The first check `placeOrder` fails, if any. */
  function OrderRejection(cart: seq<CartItem>, f: CheckoutForm): (r: Option<string>)
    ensures |cart| == 0 <==> r == Some("Cart is empty. Add items first.")
    ensures |cart| > 0 && (f.customerName == "" || f.phone == "") <==> r == Some("Name and phone are required.")
    ensures |cart| > 0 && f.customerName != "" && f.phone != "" && f.orderType == "Delivery" && f.deliveryAddress == ""
            <==> r == Some("Delivery address required for Delivery.")
    ensures r.None? <==> |cart| > 0 && f.customerName != "" && f.phone != ""
                         && (f.orderType == "Delivery" ==> f.deliveryAddress != "")
  {
    if |cart| == 0 then Some("Cart is empty. Add items first.")
    else if f.customerName == "" || f.phone == "" then Some("Name and phone are required.")
    else if f.orderType == "Delivery" && f.deliveryAddress == "" then Some("Delivery address required for Delivery.")
    else None
  }

  function PayloadItemOf(c: CartItem): PayloadItem {
    PayloadItem(c.name, c.price, c.quantity)
  }

  function PayloadItems(cart: seq<CartItem>): (r: seq<PayloadItem>)
    ensures |r| == |cart| && forall i :: 0 <= i < |cart| ==> r[i] == PayloadItemOf(cart[i])
  {
    seq(|cart|, i requires 0 <= i < |cart| => PayloadItemOf(cart[i]))
  }

  function PayloadLine(it: PayloadItem): int {
    it.price.GetOr(0) * it.quantity
  }

  /** The order posted: the address only for Delivery, always Unpaid, the
      items without ids, and the cart total. */
  function OrderPayloadOf(cart: seq<CartItem>, f: CheckoutForm): (p: OrderPayload)
    ensures p.deliveryAddress == (if f.orderType == "Delivery" then f.deliveryAddress else "")
    ensures p.paymentStatus == "Unpaid" && p.totalAmount == CartTotal(cart)
    ensures |p.items| == |cart|
    ensures forall i :: 0 <= i < |cart| ==>
              p.items[i].name == cart[i].name && p.items[i].price == cart[i].price && p.items[i].quantity == cart[i].quantity
  {
    OrderPayload(f.customerName, f.phone, f.orderType,
                 if f.orderType == "Delivery" then f.deliveryAddress else "",
                 f.scheduledTime, f.paymentMethod, "Unpaid", PayloadItems(cart), CartTotal(cart))
  }

  lemma {:induction false} PayloadSum(cart: seq<CartItem>)
    ensures SumOf(PayloadItems(cart), PayloadLine) == CartTotal(cart)
    decreases |cart|
  {
    if |cart| > 0 {
      assert PayloadItems(cart)[1..] == PayloadItems(cart[1..]);
      PayloadSum(cart[1..]);
    }
  }

  /** The posted total is the sum of the posted lines. */
  lemma PayloadTotalMatchesItems(cart: seq<CartItem>, f: CheckoutForm)
    ensures OrderPayloadOf(cart, f).totalAmount == SumOf(OrderPayloadOf(cart, f).items, PayloadLine)
  {
    PayloadSum(cart);
  }

  datatype PlaceOutcome = Rejected(message: string) | Placed(payload: OrderPayload) | PostFailed(payload: OrderPayload)

  // -----------------------------------------------------------------------
  // Booking a table

  /** The guests field: the number 2 until the user types, then the text
      of the number input (`e.target.value`), a string. */
  datatype GuestsField = InitialTwo | Typed(text: string)

  /** The reservation fields held in component state. */
  datatype BookingForm = BookingForm(name: string, phone: string, date: string, time: string, guests: GuestsField,
                                     notes: string)

  /** `Number(text)` for the text of a number input: the empty text is 0,
      a decimal with an optional minus sign is its value, and any other
      text is NaN (None, which the request body carries as `null`). */
  function NumberOfText(text: string): (r: Option<int>)
    ensures text == "" ==> r == Some(0)
    ensures text != "" && StaffController.AllDigits(text) ==> r == Some(StaffController.DecimalValue(text))
  {
    if StaffController.AllDigits(text) then Some(StaffController.DecimalValue(text) as int)
    else if |text| > 1 && text[0] == '-' && StaffController.AllDigits(text[1..])
    then Some(-(StaffController.DecimalValue(text[1..]) as int))
    else None
  }

  /** `Number(resGuests)`. */
  function GuestsNumber(g: GuestsField): Option<int> {
    match g
    case InitialTwo => Some(2)
    case Typed(text) => NumberOfText(text)
  }

  /** `!resGuests` is false: the number 2 and every non-empty text are truthy. */
  predicate GuestsFilled(g: GuestsField) {
    g.InitialTwo? || g.text != ""
  }

  predicate BookingComplete(f: BookingForm) {
    f.name != "" && f.phone != "" && f.date != "" && f.time != "" && GuestsFilled(f.guests)
  }

  /** `bookReservation`: "Please fill all reservation fields." unless every
      field is filled; otherwise the body posted, which never names a table. */
  function BookingRequest(f: BookingForm): (r: Result<Reservations.BookingBody>)
    ensures !BookingComplete(f) <==> r == Refused("Please fill all reservation fields.")
    ensures r.Sent? ==> r.body.tableNo.None? && r.body.customerName == Some(f.name) && r.body.phone == Some(f.phone)
                        && r.body.date == Some(f.date) && r.body.time == Some(f.time)
                        && r.body.guests == GuestsNumber(f.guests) && r.body.notes == Some(f.notes)
  {
    if !BookingComplete(f) then Refused("Please fill all reservation fields.")
    else Sent(Reservations.BookingBody(Some(f.name), Some(f.phone), Some(f.date), Some(f.time), GuestsNumber(f.guests),
                                       Some(f.notes), None))
  }

  /** A typed count reaches the server as the number it spells. */
  lemma TypedGuestsRoundTrip(n: nat)
    ensures GuestsNumber(Typed(StaffController.Decimal(n))) == Some(n)
  {
    StaffController.DecimalRoundTrip(n);
  }

  /** Only an emptied guests field stops a booking: a typed "0" is posted as
      0 guests, and the untouched field as 2. */
  lemma GuestsCheckOnlyEmpty(f: BookingForm)
    requires f.name != "" && f.phone != "" && f.date != "" && f.time != ""
    ensures BookingRequest(f.(guests := Typed(""))).Refused?
    ensures BookingRequest(f.(guests := Typed("0"))) == Sent(Reservations.BookingBody(
              Some(f.name), Some(f.phone), Some(f.date), Some(f.time), Some(0), Some(f.notes), None))
    ensures BookingRequest(f.(guests := InitialTwo)).Sent? && BookingRequest(f.(guests := InitialTwo)).body.guests == Some(2)
  {
    assert StaffController.AllDigits("0");
  }

  datatype Result<T> = Refused(message: string) | Sent(body: T)

  /** Two bookings from this page for the same date and time collide: once
      the first is stored, the server refuses the second while the first is
      Pending, whatever the tables free at that time. */
  lemma PageBookingsCollide(rs: seq<Models.Reservation>, f: BookingForm, g: BookingForm, caller: Caller,
                            newId: Id, now: Time)
    requires BookingRequest(f).Sent? && BookingRequest(g).Sent? && f.date == g.date && f.time == g.time
    requires Reservations.Booked(BookingRequest(f).body, caller, newId, now).Some?
    ensures Reservations.SlotTaken(rs + [Reservations.Booked(BookingRequest(f).body, caller, newId, now).value],
                                   BookingRequest(g).body.date, BookingRequest(g).body.time, BookingRequest(g).body.tableNo)
  {
    Reservations.TablelessBookingsCollide(rs, BookingRequest(f).body, caller, newId, now);
  }

  // -----------------------------------------------------------------------
  // The cart as component state

  class Cart {
    var items: seq<CartItem>

    ghost predicate Valid()
      reads this
    {
      CartValid(items)
    }

    /** `useState([])`. */
    constructor()
      ensures items == [] && Valid()
    {
      items := [];
    }

    method AddToCart(m: MenuPick)
      modifies this
      ensures items == AddedToCart(old(items), m)
      ensures old(Valid()) ==> Valid()
    {
      if old(Valid()) {
        AddKeepsValid(items, m);
      }
      items := AddedToCart(items, m);
    }

    method UpdateQty(id: Id, qty: Option<int>)
      modifies this
      ensures items == if QtyRejected(qty) then old(items) else WithQty(old(items), id, qty.value)
      ensures old(Valid()) ==> Valid()
    {
      if QtyRejected(qty) {
        return;
      }
      if Valid() {
        UpdateKeepsValid(items, id, qty.value);
      }
      items := WithQty(items, id, qty.value);
    }

    method RemoveFromCart(id: Id)
      modifies this
      ensures items == Removed(old(items), id)
      ensures old(Valid()) ==> Valid()
    {
      if Valid() {
        RemoveKeepsValid(items, id);
      }
      items := Removed(items, id);
    }

    /** `placeOrder`: a failed check leaves the cart; otherwise the payload
      is posted, and the cart is cleared only when the server accepts it
      (`accepted` stands for the outcome of the request). */
    method PlaceOrder(f: CheckoutForm, accepted: bool) returns (outcome: PlaceOutcome)
      modifies this
      ensures OrderRejection(old(items), f).Some? ==>
                outcome == Rejected(OrderRejection(old(items), f).value) && items == old(items)
      ensures OrderRejection(old(items), f).None? && accepted ==>
                outcome == Placed(OrderPayloadOf(old(items), f)) && items == []
      ensures OrderRejection(old(items), f).None? && !accepted ==>
                outcome == PostFailed(OrderPayloadOf(old(items), f)) && items == old(items)
      ensures old(Valid()) ==> Valid()
    {
      var rejection := OrderRejection(items, f);
      if rejection.Some? {
        return Rejected(rejection.value);
      }
      var payload := OrderPayloadOf(items, f);
      if accepted {
        items := [];
        outcome := Placed(payload);
      } else {
        outcome := PostFailed(payload);
      }
    }
  }
}
