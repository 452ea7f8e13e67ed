/** The product page: a quantity picker that never goes below the product's
    minimum order quantity, the price lines derived from it, and the hand-off
    to the cart. */
module ProductScreen {
  import opened Types

  /** `product.moq || 1`: a zero moq falls back to one piece. */
  function InitialQuantity(moq: int): (q: int)
    ensures q >= moq
    ensures moq != 0 ==> q == moq
    ensures moq == 0 ==> q == 1
  {
    if moq == 0 then 1 else moq
  }

  /** handleQuantityChange: a request is taken only when it reaches the moq. */
  function Guarded(current: int, requested: int, moq: int): int {
    if requested >= moq then requested else current
  }

  /** The guard takes every request at or above the moq and refuses every
      other, so a quantity at or above the moq stays there. */
  lemma GuardKeepsMinimum(current: int, requested: int, moq: int)
    requires current >= moq
    ensures Guarded(current, requested, moq) >= moq
    ensures Guarded(current, requested, moq) == requested <==> requested >= moq || requested == current
  {
  }

  /** The line total shown for the chosen quantity. */
  function TotalPrice(p: Product, quantity: int): int {
    p.price * quantity
  }

  /** What the chosen quantity saves against the original price. */
  function Savings(p: Product, quantity: int): int {
    (p.originalPrice - p.price) * quantity
  }

  /** Paying the total and keeping the savings adds up to the original price
      of the quantity; no savings are claimed when the price is not below the
      original. */
  lemma PriceLines(p: Product, quantity: int)
    requires quantity >= 0
    ensures TotalPrice(p, quantity) + Savings(p, quantity) == p.originalPrice * quantity
    ensures p.originalPrice <= p.price ==> Savings(p, quantity) <= 0
    ensures p.originalPrice >= p.price ==> Savings(p, quantity) >= 0
  {
    assert TotalPrice(p, quantity) + Savings(p, quantity) == (p.price + (p.originalPrice - p.price)) * quantity;
  }

  /** The minus button: disabled at or below the moq, otherwise one less
      through the guard. */
  function AfterDecrement(quantity: int, moq: int): (q: int)
    ensures quantity >= moq ==> q >= moq
    ensures quantity > moq ==> q == quantity - 1
    ensures quantity <= moq ==> q == quantity
  {
    if quantity <= moq then quantity else Guarded(quantity, quantity - 1, moq)
  }

  /** The plus button: always enabled, and the guard lets it through. */
  function AfterIncrement(quantity: int, moq: int): (q: int)
    ensures quantity >= moq ==> q == quantity + 1
  {
    Guarded(quantity, quantity + 1, moq)
  }

  /** The page's state for one product. */
  class QuantityPicker {
    const product: Product
    var quantity: int

    ghost predicate Valid()
      reads this
    {
      quantity >= product.moq
    }

    constructor (product: Product)
      ensures this.product == product && quantity == InitialQuantity(product.moq)
      ensures Valid()
    {
      this.product := product;
      quantity := InitialQuantity(product.moq);
    }

    method ChangeQuantity(newQuantity: int)
      requires Valid()
      modifies this
      ensures quantity == Guarded(old(quantity), newQuantity, product.moq)
      ensures Valid()
    {
      GuardKeepsMinimum(quantity, newQuantity, product.moq);
      if newQuantity >= product.moq {
        quantity := newQuantity;
      }
    }

    method Decrement()
      requires Valid()
      modifies this
      ensures quantity == AfterDecrement(old(quantity), product.moq)
      ensures Valid()
    {
      if quantity > product.moq {
        ChangeQuantity(quantity - 1);
      }
    }

    method Increment()
      requires Valid()
      modifies this
      ensures quantity == old(quantity) + 1
      ensures Valid()
    {
      ChangeQuantity(quantity + 1);
    }

    function Total(): (t: int)
      reads this
      requires Valid()
      ensures t == TotalPrice(product, quantity)
      ensures product.price >= 0 ==> t >= product.price * product.moq
    {
      assert product.price * quantity - product.price * product.moq == product.price * (quantity - product.moq);
      TotalPrice(product, quantity)
    }

    /** handleAddToCart: the product and the quantity as they stand, which is
        never below the moq. */
    method AddToCart() returns (p: Product, q: int)
      requires Valid()
      ensures p == product && q == quantity && q >= p.moq
    {
      p, q := product, quantity;
    }
  }
}
