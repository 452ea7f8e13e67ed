/** The main application shell: the cart operations, the cart badge and the
    screen the shell shows. */
module MainApp {
  import opened Types
  import opened Seqs
  import CartScreen

  // ---------------------------------------------------------------------
  // Cart operations (each computes a new cart from the old one)

  predicate HasId(items: seq<CartItem>, id: string) {
    exists i :: 0 <= i < |items| && items[i].id == id
  }

  predicate UniqueIds(items: seq<CartItem>) {
    forall i, j :: 0 <= i < j < |items| ==> items[i].id != items[j].id
  }

  /** The line created when a product is first added. */
  function NewLine(product: Product, quantity: int): (line: CartItem)
    ensures line.id == product.id && line.quantity == quantity
    ensures line.price == product.price && line.moq == product.moq && line.category == product.category
    ensures line.name == product.name && line.image == product.image
  {
    CartItem(product.id, product.name, product.price, quantity, product.moq, product.image, product.category)
  }

  /** addToCart: a product already in the cart has its quantity raised;
      a new product is appended as a new line. */
  function CartWithAdded(items: seq<CartItem>, product: Product, quantity: int): (r: seq<CartItem>)
    ensures HasId(items, product.id) ==>
      && |r| == |items|
      && (forall i :: 0 <= i < |items| && items[i].id != product.id ==> r[i] == items[i])
      && (forall i :: 0 <= i < |items| && items[i].id == product.id ==>
            r[i] == items[i].(quantity := items[i].quantity + quantity))
    ensures !HasId(items, product.id) ==> r == items + [NewLine(product, quantity)]
    ensures HasId(r, product.id)
    ensures UniqueIds(items) ==> UniqueIds(r)
  {
    if HasId(items, product.id) then
      seq(|items|, i requires 0 <= i < |items| =>
        if items[i].id == product.id then items[i].(quantity := items[i].quantity + quantity) else items[i])
    else
      var r := items + [NewLine(product, quantity)];
      assert r[|items|].id == product.id;
      r
  }

  /** removeFromCart: drop every line with the id, keep the rest in order. */
  function CartWithout(items: seq<CartItem>, id: string): (r: seq<CartItem>)
    ensures !HasId(r, id)
    ensures forall i :: 0 <= i < |items| && items[i].id != id ==> items[i] in r
    ensures forall x :: x in r ==> x in items
    ensures !HasId(items, id) ==> r == items
  {
    var r := Filter(items, (item: CartItem) => item.id != id);
    if !HasId(items, id) then
      FilterKeepsAll(items, (item: CartItem) => item.id != id);
      r
    else
      r
  }

  /** The lines that remain form an order-preserving subsequence of the cart. */
  lemma CartWithoutKeepsOrder(items: seq<CartItem>, id: string)
    ensures IsSubsequence(CartWithout(items, id), items)
  {
    FilterIsSubsequence(items, (item: CartItem) => item.id != id);
  }

  /** With unique ids, removing a present id removes exactly its line. */
  lemma CartWithoutOne(items: seq<CartItem>, k: nat)
    requires UniqueIds(items) && k < |items|
    ensures CartWithout(items, items[k].id) == items[..k] + items[k + 1..]
  {
    var id := items[k].id;
    FilterRemovesOne(items, (item: CartItem) => item.id != id, k);
  }

  /** updateCartQuantity: a quantity of zero or less removes the line;
      otherwise the matching line gets exactly that quantity. */
  function CartWithQuantity(items: seq<CartItem>, id: string, quantity: int): (r: seq<CartItem>)
    ensures quantity <= 0 ==> r == CartWithout(items, id)
    ensures quantity > 0 ==>
      && |r| == |items|
      && (forall i :: 0 <= i < |items| && items[i].id != id ==> r[i] == items[i])
      && (forall i :: 0 <= i < |items| && items[i].id == id ==> r[i] == items[i].(quantity := quantity))
  {
    if quantity <= 0 then CartWithout(items, id)
    else
      seq(|items|, i requires 0 <= i < |items| =>
        if items[i].id == id then items[i].(quantity := quantity) else items[i])
  }

  function Quantity(item: CartItem): int {
    item.quantity
  }

  /** totalCartItems: the sum of the quantities of all lines. */
  function TotalCartItems(items: seq<CartItem>): int {
    Sum(items, Quantity)
  }

  /** A non-empty cart whose lines all hold at least one piece holds a
      positive number of pieces. */
  lemma {:induction false} PositiveTotal(items: seq<CartItem>)
    ensures items != [] && (forall i :: 0 <= i < |items| ==> items[i].quantity > 0) ==>
              TotalCartItems(items) > 0
    decreases |items|
  {
    if items != [] {
      var front := items[..|items| - 1];
      PositiveTotal(front);
      assert forall i :: 0 <= i < |front| ==> front[i] == items[i];
      assert TotalCartItems(items) == TotalCartItems(front) + items[|items| - 1].quantity;
    }
  }

  /** With unique ids, the line matching an id present in the cart is at a
      single index `k`, and updating "every matching line" updates just it. */
  lemma OnlyLineWithId(items: seq<CartItem>, k: nat, r: seq<CartItem>, x: CartItem)
    requires UniqueIds(items) && k < |items|
    requires |r| == |items| && r[k] == x
    requires forall i :: 0 <= i < |items| && items[i].id != items[k].id ==> r[i] == items[i]
    ensures r == items[k := x]
  {
  }

  /** Adding q pieces of a product raises the piece count by q and the
      subtotal by q times the line's price, whether the line is new or not. */
  lemma {:induction false} AddToCartTotals(items: seq<CartItem>, product: Product, quantity: int)
    requires UniqueIds(items)
    ensures TotalCartItems(CartWithAdded(items, product, quantity)) == TotalCartItems(items) + quantity
    ensures !HasId(items, product.id) ==>
      CartScreen.Subtotal(CartWithAdded(items, product, quantity)) == CartScreen.Subtotal(items) + product.price * quantity
    ensures forall k :: 0 <= k < |items| && items[k].id == product.id ==>
      CartScreen.Subtotal(CartWithAdded(items, product, quantity)) == CartScreen.Subtotal(items) + items[k].price * quantity
  {
    if HasId(items, product.id) {
      var k :| 0 <= k < |items| && items[k].id == product.id;
      AddToExistingLine(items, k, product, quantity);
      forall k' | 0 <= k' < |items| && items[k'].id == product.id
        ensures CartScreen.Subtotal(CartWithAdded(items, product, quantity)) ==
                CartScreen.Subtotal(items) + items[k'].price * quantity
      {
        AddToExistingLine(items, k', product, quantity);
      }
    } else {
      AddNewLine(items, product, quantity);
    }
  }

  /** Adding to a line already in the cart. */
  lemma AddToExistingLine(items: seq<CartItem>, k: nat, product: Product, quantity: int)
    requires UniqueIds(items) && k < |items| && items[k].id == product.id
    ensures TotalCartItems(CartWithAdded(items, product, quantity)) == TotalCartItems(items) + quantity
    ensures CartScreen.Subtotal(CartWithAdded(items, product, quantity)) ==
            CartScreen.Subtotal(items) + items[k].price * quantity
  {
    var x := items[k].(quantity := items[k].quantity + quantity);
    OnlyLineWithId(items, k, CartWithAdded(items, product, quantity), x);
    SumUpdate(items, k, x, Quantity);
    SumUpdate(items, k, x, CartScreen.LineTotal);
    assert CartScreen.LineTotal(x) == CartScreen.LineTotal(items[k]) + items[k].price * quantity by {
      assert items[k].price * (items[k].quantity + quantity) == items[k].price * items[k].quantity + items[k].price * quantity;
    }
  }

  /** Adding a product not yet in the cart. */
  lemma AddNewLine(items: seq<CartItem>, product: Product, quantity: int)
    requires !HasId(items, product.id)
    ensures TotalCartItems(CartWithAdded(items, product, quantity)) == TotalCartItems(items) + quantity
    ensures CartScreen.Subtotal(CartWithAdded(items, product, quantity)) ==
            CartScreen.Subtotal(items) + product.price * quantity
  {
    SumAppend(items, [NewLine(product, quantity)], Quantity);
    SumAppend(items, [NewLine(product, quantity)], CartScreen.LineTotal);
    assert [NewLine(product, quantity)][..0] == [];
  }

  /** Setting a positive quantity on a present line changes the piece count by
      the difference. */
  lemma SetQuantityTotals(items: seq<CartItem>, k: nat, quantity: int)
    requires UniqueIds(items) && k < |items| && quantity > 0
    ensures TotalCartItems(CartWithQuantity(items, items[k].id, quantity)) == TotalCartItems(items) - items[k].quantity + quantity
  {
    var x := items[k].(quantity := quantity);
    OnlyLineWithId(items, k, CartWithQuantity(items, items[k].id, quantity), x);
    SumUpdate(items, k, x, Quantity);
  }

  /** Every line holds at least its minimum order quantity. */
  predicate AboveMoq(items: seq<CartItem>) {
    forall i :: 0 <= i < |items| ==> items[i].quantity >= items[i].moq
  }

  /** Adding a product at or above its moq (as the product page does) keeps
      every line at or above its moq. */
  lemma AddKeepsAboveMoq(items: seq<CartItem>, product: Product, quantity: int)
    requires AboveMoq(items) && quantity >= product.moq && quantity >= 0
    ensures AboveMoq(CartWithAdded(items, product, quantity))
  {
    var r := CartWithAdded(items, product, quantity);
    if !HasId(items, product.id) {
      assert r[|items|] == NewLine(product, quantity);
    }
  }

  /** The cart line's minus and plus buttons keep every line at or above its
      moq: the minus button only asks for a quantity at or above the moq, and
      a request of zero or less removes the line instead. */
  lemma ButtonsKeepAboveMoq(items: seq<CartItem>, k: nat)
    requires UniqueIds(items) && AboveMoq(items) && k < |items|
    ensures var q := CartScreen.DecrementRequest(items[k]);
            q.Some? ==> AboveMoq(CartWithQuantity(items, items[k].id, q.value))
    ensures AboveMoq(CartWithQuantity(items, items[k].id, CartScreen.IncrementRequest(items[k])))
  {
    var q := CartScreen.DecrementRequest(items[k]);
    if q.Some? {
      ButtonKeepsAboveMoq(items, k, q.value);
    }
    ButtonKeepsAboveMoq(items, k, CartScreen.IncrementRequest(items[k]));
  }

  lemma ButtonKeepsAboveMoq(items: seq<CartItem>, k: nat, quantity: int)
    requires UniqueIds(items) && AboveMoq(items) && k < |items|
    requires quantity >= items[k].moq
    ensures AboveMoq(CartWithQuantity(items, items[k].id, quantity))
  {
    var r := CartWithQuantity(items, items[k].id, quantity);
    if quantity > 0 {
      forall i | 0 <= i < |r|
        ensures r[i].quantity >= r[i].moq
      {
        if i != k {
          assert items[i].id != items[k].id;
        }
      }
    } else {
      forall i | 0 <= i < |r|
        ensures r[i].quantity >= r[i].moq
      {
        assert r[i] in items;
      }
    }
  }

  /** The cart badge on the bottom bar. */
  datatype Badge = Hidden | Count(n: int) | NinePlus

  function CartBadge(totalItems: int): (b: Badge)
    ensures b == Hidden <==> totalItems <= 0
    ensures b == NinePlus <==> totalItems > 9
    ensures b.Count? ==> 1 <= b.n <= 9 && b.n == totalItems
  {
    if totalItems > 0 then (if totalItems > 9 then NinePlus else Count(totalItems)) else Hidden
  }

  // ---------------------------------------------------------------------
  // Screens

  datatype Screen =
    | Home | Orders | Profile | Cart | ProductPage | CategoryPage
    | AddressManagement | OrderConfirmation | HelpSupport

  /** The screen each back arrow returns to; screens without a back arrow
      have none. */
  function BackTarget(s: Screen): (t: Option<Screen>)
    ensures t == Some(Home) <==> s in {Cart, ProductPage, CategoryPage}
    ensures t == Some(Profile) <==> s in {AddressManagement, HelpSupport}
    ensures t.None? <==> s in {Home, Orders, Profile, OrderConfirmation}
  {
    match s
    case Cart | ProductPage | CategoryPage => Some(Home)
    case AddressManagement | HelpSupport => Some(Profile)
    case _ => None
  }

  /** The four buttons of the bottom bar. */
  datatype Tab = HomeTab | OrdersTab | CartTab | ProfileTab

  function TabScreen(tab: Tab): (s: Screen)
    ensures s in {Home, Orders, Cart, Profile}
    ensures tab == HomeTab <==> s == Home
    ensures tab == OrdersTab <==> s == Orders
    ensures tab == CartTab <==> s == Cart
    ensures tab == ProfileTab <==> s == Profile
  {
    match tab
    case HomeTab => Home
    case OrdersTab => Orders
    case CartTab => Cart
    case ProfileTab => Profile
  }

  /** The state of the main application component. */
  class Shell {
    var currentScreen: Screen
    var cartItems: seq<CartItem>
    var selectedProduct: Option<Product>
    var selectedCategory: string
    var orderDetails: Option<CartScreen.OrderSummary>
    const userAddress: Option<AddressFields>

    /** Cart lines have distinct ids; the product and confirmation screens
        always have what they display. */
    ghost predicate Valid()
      reads this
    {
      && UniqueIds(cartItems)
      && (currentScreen == ProductPage ==> selectedProduct.Some?)
      && (currentScreen == OrderConfirmation ==> orderDetails.Some?)
    }

    constructor (userAddress: Option<AddressFields>)
      ensures Valid()
      ensures currentScreen == Home && cartItems == [] && selectedProduct == None
      ensures selectedCategory == "" && orderDetails == None && this.userAddress == userAddress
    {
      currentScreen := Home;
      cartItems := [];
      selectedProduct := None;
      selectedCategory := "";
      orderDetails := None;
      this.userAddress := userAddress;
    }

    method AddToCart(product: Product, quantity: int)
      requires Valid()
      modifies this
      ensures Valid()
      ensures cartItems == CartWithAdded(old(cartItems), product, quantity)
      ensures currentScreen == old(currentScreen) && selectedProduct == old(selectedProduct)
      ensures selectedCategory == old(selectedCategory) && orderDetails == old(orderDetails)
    {
      cartItems := CartWithAdded(cartItems, product, quantity);
    }

    method RemoveFromCart(productId: string)
      requires Valid()
      modifies this
      ensures Valid()
      ensures cartItems == CartWithout(old(cartItems), productId)
      ensures currentScreen == old(currentScreen) && selectedProduct == old(selectedProduct)
      ensures selectedCategory == old(selectedCategory) && orderDetails == old(orderDetails)
    {
      var r := CartWithout(cartItems, productId);
      CartWithoutKeepsOrder(cartItems, productId);
      SubsequenceKeepsUnique(r, cartItems);
      cartItems := r;
    }

    method UpdateCartQuantity(productId: string, quantity: int)
      requires Valid()
      modifies this
      ensures Valid()
      ensures cartItems == CartWithQuantity(old(cartItems), productId, quantity)
      ensures currentScreen == old(currentScreen) && selectedProduct == old(selectedProduct)
      ensures selectedCategory == old(selectedCategory) && orderDetails == old(orderDetails)
    {
      if quantity <= 0 {
        RemoveFromCart(productId);
        return;
      }
      var r := CartWithQuantity(cartItems, productId, quantity);
      assert forall i :: 0 <= i < |r| ==> r[i].id == cartItems[i].id;
      cartItems := r;
    }

    method NavigateToProduct(product: Product)
      requires Valid()
      modifies this
      ensures Valid()
      ensures selectedProduct == Some(product) && currentScreen == ProductPage
      ensures cartItems == old(cartItems) && selectedCategory == old(selectedCategory) && orderDetails == old(orderDetails)
    {
      selectedProduct := Some(product);
      currentScreen := ProductPage;
    }

    method NavigateToCategory(category: string)
      requires Valid()
      modifies this
      ensures Valid()
      ensures selectedCategory == category && currentScreen == CategoryPage
      ensures cartItems == old(cartItems) && selectedProduct == old(selectedProduct) && orderDetails == old(orderDetails)
    {
      selectedCategory := category;
      currentScreen := CategoryPage;
    }

    method NavigateToAddressManagement()
      requires Valid()
      modifies this`currentScreen
      ensures Valid() && currentScreen == AddressManagement
    {
      currentScreen := AddressManagement;
    }

    method NavigateToHelpSupport()
      requires Valid()
      modifies this`currentScreen
      ensures Valid() && currentScreen == HelpSupport
    {
      currentScreen := HelpSupport;
    }

    /** handleOrderPlaced: keep the order, empty the cart, confirm. */
    method HandleOrderPlaced(details: CartScreen.OrderSummary)
      requires Valid()
      modifies this
      ensures Valid()
      ensures orderDetails == Some(details) && cartItems == [] && currentScreen == OrderConfirmation
      ensures selectedProduct == old(selectedProduct) && selectedCategory == old(selectedCategory)
    {
      orderDetails := Some(details);
      cartItems := [];
      currentScreen := OrderConfirmation;
    }

    /** The cart screen's "Place Order" button, which exists only while the
        cart has lines: snapshot the cart and hand the summary to
        HandleOrderPlaced. */
    method PlaceOrder(nowMillis: nat, estimatedDelivery: string) returns (placed: bool)
      requires Valid()
      modifies this
      ensures Valid()
      ensures placed <==> old(cartItems) != []
      ensures placed ==>
        && orderDetails == Some(CartScreen.PlaceOrder(old(cartItems), userAddress, nowMillis, estimatedDelivery))
        && |orderDetails.value.items| == |old(cartItems)|
        && cartItems == [] && currentScreen == OrderConfirmation
      ensures !placed ==> cartItems == old(cartItems) && currentScreen == old(currentScreen) && orderDetails == old(orderDetails)
    {
      placed := cartItems != [];
      if placed {
        var details := CartScreen.PlaceOrder(cartItems, userAddress, nowMillis, estimatedDelivery);
        HandleOrderPlaced(details);
      }
    }

    method ContinueShopping()
      requires Valid()
      modifies this`currentScreen
      ensures Valid() && currentScreen == Home
    {
      currentScreen := Home;
    }

    method TrackOrder()
      requires Valid()
      modifies this`currentScreen
      ensures Valid() && currentScreen == Orders
    {
      currentScreen := Orders;
    }

    /** A press on the bottom bar. */
    method SelectTab(tab: Tab)
      requires Valid()
      modifies this`currentScreen
      ensures Valid() && currentScreen == TabScreen(tab)
    {
      currentScreen := TabScreen(tab);
    }

    /** The back arrow of the current screen, where it has one. */
    method Back()
      requires Valid()
      modifies this`currentScreen
      ensures Valid()
      ensures currentScreen == match BackTarget(old(currentScreen))
                               case Some(s) => s
                               case None => old(currentScreen)
    {
      match BackTarget(currentScreen)
      case Some(s) => currentScreen := s;
      case None =>
    }

    /** The cart icon's badge: hidden for an empty cart, and when every line
        holds at least one piece, hidden for nothing else. */
    function Badge(): (b: Badge)
      reads this
      ensures cartItems == [] ==> b == Hidden
      ensures (forall i :: 0 <= i < |cartItems| ==> cartItems[i].quantity > 0) ==>
                (b == Hidden <==> cartItems == [])
      ensures b == NinePlus <==> TotalCartItems(cartItems) > 9
      ensures b.Count? ==> b.n == TotalCartItems(cartItems)
    {
      PositiveTotal(cartItems);
      CartBadge(TotalCartItems(cartItems))
    }
  }

  lemma {:induction false} SubsequenceKeepsUnique(r: seq<CartItem>, s: seq<CartItem>)
    requires IsSubsequence(r, s) && UniqueIds(s)
    ensures UniqueIds(r)
    decreases |s|
  {
    if r != [] && s != [] {
      assert UniqueIds(s[1..]);
      if r[0] == s[0] && IsSubsequence(r[1..], s[1..]) {
        SubsequenceKeepsUnique(r[1..], s[1..]);
        SubsequenceMembers(r[1..], s[1..]);
        forall j | 0 < j < |r| ensures r[0].id != r[j].id {
          assert r[j] == r[1..][j - 1];
          var m :| 0 <= m < |s[1..]| && s[1..][m] == r[j];
          assert s[m + 1] == r[j];
        }
      } else {
        SubsequenceKeepsUnique(r, s[1..]);
      }
    }
  }

  lemma {:induction false} SubsequenceMembers<T>(r: seq<T>, s: seq<T>)
    requires IsSubsequence(r, s)
    ensures forall i :: 0 <= i < |r| ==> exists m :: 0 <= m < |s| && s[m] == r[i]
    decreases |s|
  {
    if r != [] && s != [] {
      if r[0] == s[0] && IsSubsequence(r[1..], s[1..]) {
        SubsequenceMembers(r[1..], s[1..]);
        forall i | 0 < i < |r| ensures exists m :: 0 <= m < |s| && s[m] == r[i] {
          assert r[i] == r[1..][i - 1];
          var m :| 0 <= m < |s[1..]| && s[1..][m] == r[i];
          assert s[m + 1] == r[i];
        }
      } else {
        SubsequenceMembers(r, s[1..]);
        forall i | 0 <= i < |r| ensures exists m :: 0 <= m < |s| && s[m] == r[i] {
          var m :| 0 <= m < |s[1..]| && s[1..][m] == r[i];
          assert s[m + 1] == r[i];
        }
      }
    }
  }
}
