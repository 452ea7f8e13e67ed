/** The cart screen: the bill derived from the cart, the order summary handed
    on when the order is placed, and the quantity buttons of each line. */
module CartScreen {
  import opened Types
  import opened Seqs
  import Decimal

  const FreeShippingAbove: int := 5000
  const ShippingFee: int := 99

  function LineTotal(item: CartItem): int {
    item.price * item.quantity
  }

  /** The sum of price x quantity over the cart, folded from the left. */
  function Subtotal(items: seq<CartItem>): int {
    Sum(items, LineTotal)
  }

  lemma SubtotalEmpty()
    ensures Subtotal([]) == 0
  {
  }

  /** The subtotal of a cart is the subtotal of its parts. */
  lemma SubtotalAppend(a: seq<CartItem>, b: seq<CartItem>)
    ensures Subtotal(a + b) == Subtotal(a) + Subtotal(b)
  {
    SumAppend(a, b, LineTotal);
  }

  /** Shipping is free strictly above 5000 and costs 99 otherwise. */
  function Shipping(subtotal: int): (fee: int)
    ensures fee == 0 <==> subtotal > FreeShippingAbove
    ensures fee == 0 || fee == ShippingFee
  {
    if subtotal > FreeShippingAbove then 0 else ShippingFee
  }

  /** GST: Math.round(subtotal * 0.18), that is 18% rounded to the nearest
      integer with halves rounded up. */
  function Tax(subtotal: int): (tax: int)
    ensures 18 * subtotal - 50 < 100 * tax <= 18 * subtotal + 50
  {
    (18 * subtotal + 50) / 100
  }

  /** The rounding in Tax is the only one possible: any integer within half a
      unit of 18% (halves going up) is Tax. */
  lemma TaxIsNearest(subtotal: int, t: int)
    requires 18 * subtotal - 50 < 100 * t <= 18 * subtotal + 50
    ensures t == Tax(subtotal)
  {
  }

  /** The four amounts the screen shows. */
  datatype Bill = Bill(subtotal: int, shipping: int, tax: int, total: int)

  ghost predicate Consistent(items: seq<CartItem>, b: Bill) {
    && b.subtotal == Subtotal(items)
    && b.shipping == Shipping(b.subtotal)
    && b.tax == Tax(b.subtotal)
    && b.total == b.subtotal + b.shipping + b.tax
  }

  function BillFor(items: seq<CartItem>): (b: Bill)
    ensures Consistent(items, b)
  {
    var subtotal := Subtotal(items);
    var shipping := Shipping(subtotal);
    var tax := Tax(subtotal);
    Bill(subtotal, shipping, tax, subtotal + shipping + tax)
  }

  /** The "add more for free shipping" hint: shown only while shipping is
      charged, and then the amount it asks for is never negative and brings
      the subtotal up to exactly 5000. */
  function FreeShippingHint(subtotal: int): (more: Option<int>)
    ensures more.Some? <==> Shipping(subtotal) > 0
    ensures more.Some? ==> more.value >= 0 && subtotal + more.value == FreeShippingAbove
  {
    if Shipping(subtotal) > 0 then Some(FreeShippingAbove - subtotal) else None
  }

  /** A cart of one line, 2 pieces at 299. */
  lemma TwoShirtsExample()
    ensures var items := [CartItem("1", "Premium Cotton T-Shirts", 299, 2, 1, "/placeholder.svg", "Fashion")];
            BillFor(items) == Bill(598, 99, 108, 805)
  {
    var items := [CartItem("1", "Premium Cotton T-Shirts", 299, 2, 1, "/placeholder.svg", "Fashion")];
    assert items[..0] == [];
  }

  /** A subtotal of 6000 ships free: 6000 + 0 + 1080. */
  lemma SixThousandExample()
    ensures Shipping(6000) == 0 && Tax(6000) == 1080 && 6000 + Shipping(6000) + Tax(6000) == 7080
  {
  }

  /** The boundary: exactly 5000 still pays shipping. */
  lemma FiveThousandPaysShipping()
    ensures Shipping(5000) == ShippingFee && FreeShippingHint(5000) == Some(0)
  {
  }

  /** Where the order is delivered: the user's saved address, or the fixed
      placeholder record used when none was given. */
  datatype DeliveryAddress =
    | UserAddress(fields: AddressFields)
    | Fallback(name: string, phone: string, address: string, city: string, state: string, pincode: string)

  const DefaultDelivery: DeliveryAddress :=
    Fallback("Default User", "+91 98765 43210", "Default Address", "Your City", "Your State", "123456")

  const CashOnDelivery: string := "Cash on Delivery"

  /** The order details handed to the app when an order is placed. */
  datatype OrderSummary = OrderSummary(
    orderId: string,
    items: seq<CartItem>,
    bill: Bill,
    estimatedDelivery: string,
    paymentMethod: string,
    deliveryAddress: DeliveryAddress)

  /** 'ORD' followed by the last eight digits of the clock in milliseconds. */
  function OrderId(nowMillis: nat): (id: string)
    ensures 3 < |id| <= 11 && id[..3] == "ORD"
    ensures |id| - 3 <= |Decimal.NatToString(nowMillis)|
    ensures id[3..] == Decimal.NatToString(nowMillis)[|Decimal.NatToString(nowMillis)| - (|id| - 3)..]
  {
    "ORD" + Decimal.LastChars(Decimal.NatToString(nowMillis), 8)
  }

  /** With a present-day clock (at least 10^7 ms) the id is always eleven
      characters long. */
  lemma OrderIdLength(nowMillis: nat)
    requires nowMillis >= 10000000
    ensures |OrderId(nowMillis)| == 11
  {
    assert Pow10(7) == 10000000;
    NumeralLength(nowMillis, 7);
  }

  function Pow10(k: nat): nat {
    if k == 0 then 1 else 10 * Pow10(k - 1)
  }

  /** A number of at least 10^k has at least k + 1 digits. */
  lemma {:induction false} NumeralLength(n: nat, k: nat)
    requires n >= Pow10(k)
    ensures |Decimal.NatToString(n)| >= k + 1
  {
    if k > 0 {
      NumeralLength(n / 10, k - 1);
    }
  }

  /** handlePlaceOrder: snapshot the cart and its bill.  The clock reading
      and the (random, locale-formatted) delivery date are inputs. */
  function PlaceOrder(items: seq<CartItem>, userAddress: Option<AddressFields>, nowMillis: nat, estimatedDelivery: string): (o: OrderSummary)
    ensures o.items == items
    ensures Consistent(o.items, o.bill)
    ensures o.paymentMethod == CashOnDelivery
    ensures o.deliveryAddress == match userAddress
                                 case Some(a) => UserAddress(a)
                                 case None => DefaultDelivery
    ensures o.orderId == OrderId(nowMillis) && o.estimatedDelivery == estimatedDelivery
  {
    var delivery := match userAddress
                    case Some(a) => UserAddress(a)
                    case None => DefaultDelivery;
    OrderSummary(OrderId(nowMillis), items, BillFor(items), estimatedDelivery, CashOnDelivery, delivery)
  }

  /** The minus button of a line: disabled at or below the line's moq, so
      whatever it requests is at least the moq. */
  function DecrementRequest(item: CartItem): (q: Option<int>)
    ensures q.Some? <==> item.quantity > item.moq
    ensures q.Some? ==> q.value == item.quantity - 1 && q.value >= item.moq
  {
    if item.quantity <= item.moq then None else Some(item.quantity - 1)
  }

  /** The plus button is always enabled. */
  function IncrementRequest(item: CartItem): (q: int)
    ensures q > item.quantity
  {
    item.quantity + 1
  }
}
