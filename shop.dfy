/** The shop's tables and the views that change them: the cart, checkout and order views of
    orders/views.py, the CartViewSet of api/views.py, the review views of reviews/views.py and
    Product.increment_views. One Store object holds every table; each view is a method whose
    contract states the new contents of the tables it writes, in terms of the effect functions
    of CartRules, Orders, CardPayment and Reviews, and which tables it leaves alone. */
module Shop {
  import opened Common
  import opened Catalog
  import opened OrderNumbers
  import opened Orders
  import opened CardPayment
  import opened Reviews
  import opened CartRules
  import opened Schema

  /** How a view ends: the redirect or response it returns, without the rendering. */
  datatype Outcome =
    | Done             // the change was made (redirect to the cart, the order or the product)
    | NotFound         // get_object_or_404 / DoesNotExist: HTTP 404
    | BadRequest       // a required API field is missing: HTTP 400
    | OutOfStock       // "Only N items available."
    | EmptyCart        // "Your cart is empty!"
    | AlreadyReviewed  // "You have already reviewed this product."
    | FormErrors       // the posted form is invalid and is shown again
    | FormShown        // a GET: the page with its form

  /** The POST fields checkout reads; a missing optional field is None. */
  datatype CheckoutForm = CheckoutForm(
    paymentMethod: Option<string>,
    shippingAddress: string,
    shippingCity: string,
    postalCode: string,
    phoneNumber: string,
    notes: Option<string>,
    cardNumber: Option<string>)

  /** The cart of a user, if one was created: `Cart.objects.get(user=user)`. */
  function CartOf(carts: map<nat, nat>, user: nat): (r: Option<nat>)
    ensures r.Some? <==> user in carts
    ensures r.Some? ==> r.value == carts[user]
  {
    if user in carts then Some(carts[user]) else None
  }

  /** The active product with this slug, if any. */
  ghost function ActiveWithSlug(products: map<nat, Product>, slug: string): (r: Option<nat>)
    ensures r.Some? ==> r.value in products && products[r.value].slug == Some(slug) && products[r.value].isActive
    ensures r.None? ==> forall id :: id in products ==> !(products[id].slug == Some(slug) && products[id].isActive)
  {
    if exists id :: id in products && products[id].slug == Some(slug) && products[id].isActive
    then Some(var id :| id in products && products[id].slug == Some(slug) && products[id].isActive; id)
    else None
  }

  /** Slugs are unique, so at most one active product carries a given slug. */
  lemma SlugLookupUnique(products: map<nat, Product>, slug: string, id: nat)
    requires SlugsUnique(products)
    requires id in products && products[id].slug == Some(slug) && products[id].isActive
    ensures ActiveWithSlug(products, slug) == Some(id)
  {
  }

  /** The product add_to_cart adds: the active product with the posted variant_slug when that is
      non-empty, otherwise the active product with the id in the URL. */
  ghost function ProductToAdd(products: map<nat, Product>, productId: nat, variantSlug: Option<string>): (r: Option<nat>)
    ensures r.Some? ==> r.value in products && products[r.value].isActive
    ensures Truthy(variantSlug) && r.Some? ==> products[r.value].slug == variantSlug
    ensures Truthy(variantSlug) ==>
      (r.None? <==> forall id :: id in products ==> !(products[id].slug == variantSlug && products[id].isActive))
    ensures !Truthy(variantSlug) ==> (r.Some? <==> productId in products && products[productId].isActive)
    ensures !Truthy(variantSlug) && r.Some? ==> r.value == productId
  {
    if Truthy(variantSlug) then ActiveWithSlug(products, variantSlug.value)
    else if productId in products && products[productId].isActive then Some(productId)
    else None
  }

  /** The order row checkout inserts: pending, both amounts set to the cart total, notes
      defaulting to "", numbered by set_order_number when the insert's post_save fires, then
      marked paid with the card note appended when the mock card payment runs (its save fires
      post_save again, with created false). */
  function PlacedOrder(id: nat, user: nat, form: CheckoutForm, total: int, uuidHex: string): (o: Order)
    requires |uuidHex| >= 6
    ensures o.id == id && o.user == user && o.status == Pending
    ensures o.totalAmount == total && o.finalAmount == total
    ensures o.discountAmount == 0 && o.shippingCost == 0
    ensures total >= 0 ==> ValidAmounts(o)
    ensures o.paymentMethod == form.paymentMethod.GetOr(DefaultPaymentMethod)
    ensures o.shippingAddress == form.shippingAddress && o.shippingCity == form.shippingCity
    ensures o.shippingPostalCode == form.postalCode && o.phoneNumber == form.phoneNumber
    ensures o.orderNumber == OrderNumber(id, uuidHex)
    ensures ParseOrderId(o.orderNumber) == Some(id)
    ensures o.isPaid <==> PaysByCard(o.paymentMethod, form.cardNumber)
    ensures o.notes.Some? && |o.notes.value| >= |form.notes.GetOr("")|
    ensures o.notes.value[..|form.notes.GetOr("")|] == form.notes.GetOr("")
    ensures o.notes == Some(if PaysByCard(o.paymentMethod, form.cardNumber)
                            then form.notes.GetOr("") + PaymentNote(Last4(StripSpaces(form.cardNumber.value)))
                            else form.notes.GetOr(""))
  {
    var paymentMethod := form.paymentMethod.GetOr(DefaultPaymentMethod);
    var inserted := Order(id, user, "", Pending, paymentMethod, false, total, 0, 0, total,
                          form.shippingAddress, form.shippingCity, form.postalCode, form.phoneNumber,
                          Some(form.notes.GetOr("")));
    var numbered := NumberOnSave(inserted, true, uuidHex);
    OrderNumberRoundTrip(id, uuidHex);
    if PaysByCard(paymentMethod, form.cardNumber) then
      PaymentAppendsToNotes(numbered, form.cardNumber.value);
      NumberOnSave(ApplyCardPayment(numbered, form.cardNumber.value), false, uuidHex)
    else numbered
  }

  /** is_purchased in create_review: some order line of a paid order of the user is for the product. */
  predicate PaidPurchase(orderItems: seq<OrderItem>, orders: map<nat, Order>, user: nat, product: nat) {
    exists x :: x in orderItems && x.product == product && x.order in orders
      && orders[x.order].user == user && orders[x.order].isPaid
  }

  /** Review.objects.filter(product=product, user=user).first() is not None. */
  predicate HasReviewed(reviews: map<nat, Review>, user: nat, product: nat) {
    exists id :: id in reviews && reviews[id].product == product && reviews[id].user == user
  }

  class Store {
    var products: map<nat, Product>
    var carts: map<nat, nat>
    var nextCartId: nat
    var cartItems: seq<CartItem>
    var nextCartItemId: nat
    var orders: map<nat, Order>
    var nextOrderId: nat
    var orderItems: seq<OrderItem>
    var nextOrderItemId: nat
    var reviews: map<nat, Review>
    var nextReviewId: nat

    /** The database constraints of every table. */
    ghost predicate Valid()
      reads this
    {
      && SlugsUnique(products)
      && CartsValid(carts, nextCartId)
      && CartItemsValid(cartItems, nextCartItemId, products, nextCartId)
      && OrdersValid(orders, nextOrderId)
      && OrderItemsValid(orderItems, nextOrderItemId, orders, products)
      && ReviewsValid(reviews, nextReviewId, products)
    }

    twostate predicate CatalogKept()
      reads this
    {
      products == old(products)
    }

    twostate predicate CartItemsKept()
      reads this
    {
      cartItems == old(cartItems) && nextCartItemId == old(nextCartItemId)
    }

    twostate predicate OrdersKept()
      reads this
    {
      && orders == old(orders) && nextOrderId == old(nextOrderId)
      && orderItems == old(orderItems) && nextOrderItemId == old(nextOrderItemId)
    }

    twostate predicate ReviewsKept()
      reads this
    {
      reviews == old(reviews) && nextReviewId == old(nextReviewId)
    }

    /** `Cart.objects.get_or_create(user=user)` has run: the user's cart is kept, or a new
        one is created under the next cart id. */
    twostate predicate CartOpened(user: nat)
      reads this
    {
      && user in carts
      && (user in old(carts) ==> carts == old(carts) && nextCartId == old(nextCartId))
      && (user !in old(carts) ==> carts == old(carts)[user := old(nextCartId)] && nextCartId == old(nextCartId) + 1)
    }

    /** An empty shop over the given catalogue; every id sequence starts at 1. */
    constructor (catalog: map<nat, Product>)
      requires SlugsUnique(catalog)
      ensures Valid()
      ensures products == catalog && carts == map[] && cartItems == [] && orders == map[]
      ensures orderItems == [] && reviews == map[]
    {
      products := catalog;
      carts := map[];
      nextCartId := 1;
      cartItems := [];
      nextCartItemId := 1;
      orders := map[];
      nextOrderId := 1;
      orderItems := [];
      nextOrderItemId := 1;
      reviews := map[];
      nextReviewId := 1;
    }

    /** `Cart.objects.get_or_create(user=user)`; a cart it creates is empty. */
    method GetOrCreateCart(user: nat) returns (cart: nat)
      requires Valid()
      modifies this
      ensures Valid()
      ensures CartOpened(user) && cart == carts[user] && cart < nextCartId
      ensures user !in old(carts) ==> LinesOf(cartItems, cart) == []
      ensures CatalogKept() && CartItemsKept() && OrdersKept() && ReviewsKept()
    {
      if user in carts {
        cart := carts[user];
      } else {
        cart := nextCartId;
        NewCartIsEmpty(cartItems, nextCartItemId, products, nextCartId);
        carts := carts[user := cart];
        nextCartId := nextCartId + 1;
      }
    }

    /** cart_view: the lines of the user's cart, Cart.get_total_price and Cart.get_total_items. */
    method CartView(user: nat) returns (lines: seq<CartItem>, totalPrice: int, totalItems: int)
      requires Valid()
      modifies this
      ensures Valid()
      ensures CartOpened(user)
      ensures lines == LinesOf(cartItems, carts[user])
      ensures forall x :: x in lines <==> x in cartItems && x.cart == carts[user]
      ensures ProductsKnown(lines, products)
      ensures totalPrice == TotalPrice(lines, products) == SumOfSubtotals(lines, products)
      ensures totalItems == TotalItems(lines)
      ensures CatalogKept() && CartItemsKept() && OrdersKept() && ReviewsKept()
    {
      var cart := GetOrCreateCart(user);
      lines := LinesOf(cartItems, cart);
      totalPrice := TotalPrice(lines, products);
      TotalIsSumOfSubtotals(lines, products);
      totalItems := TotalItems(lines);
    }

    /** The product lookup of add_to_cart: get_object_or_404 by the posted variant_slug when it
        is non-empty, by the id in the URL otherwise, among active products only. */
    method FindProductToAdd(productId: nat, variantSlug: Option<string>) returns (r: Option<nat>)
      requires SlugsUnique(products)
      ensures r == ProductToAdd(products, productId, variantSlug)
    {
      if Truthy(variantSlug) {
        if exists id :: id in products && products[id].slug == variantSlug && products[id].isActive {
          var pid :| pid in products && products[pid].slug == variantSlug && products[pid].isActive;
          SlugLookupUnique(products, variantSlug.value, pid);
          r := Some(pid);
        } else {
          r := None;
        }
      } else if productId in products && products[productId].isActive {
        r := Some(productId);
      } else {
        r := None;
      }
    }

    /** add_to_cart. An unknown or inactive product is a 404 and changes nothing. Otherwise the
        cart is created if needed (even when the stock test then fails); a quantity above the
        stock changes no line; else the line is added or incremented and clamped, as
        AddToCartLines says. The quantity defaults to 1. */
    method AddToCart(user: nat, productId: nat, variantSlug: Option<string>, quantity: Option<int>) returns (outcome: Outcome)
      requires Valid()
      modifies this
      ensures Valid()
      ensures CatalogKept() && OrdersKept() && ReviewsKept()
      ensures ProductToAdd(old(products), productId, variantSlug).None? ==> outcome == NotFound && unchanged(this)
      ensures ProductToAdd(old(products), productId, variantSlug).Some? ==>
        var pid := ProductToAdd(old(products), productId, variantSlug).value;
        var p := old(products)[pid];
        var q := quantity.GetOr(1);
        && CartOpened(user)
        && (ExceedsStock(q, p) ==> outcome == OutOfStock && CartItemsKept())
        && (!ExceedsStock(q, p) ==>
              && outcome == Done
              && cartItems == AddToCartLines(old(cartItems), carts[user], pid, q, p.stock, old(nextCartItemId))
              && nextCartItemId == old(nextCartItemId) + (if FindLine(old(cartItems), carts[user], pid).None? then 1 else 0))
    {
      var found := FindProductToAdd(productId, variantSlug);
      if found.None? {
        return NotFound;
      }
      var pid := found.value;
      var cart := GetOrCreateCart(user);
      var p := products[pid];
      var q := quantity.GetOr(1);
      if ExceedsStock(q, p) {
        return OutOfStock;
      }
      PutLine(cart, pid, q, Some(p.stock));
      outcome := Done;
    }

    /** The get_or_create of a cart line with its increment: with a stock (add_to_cart) the
        line is clamped to it, without one (add_item) it is not. */
    method PutLine(cart: nat, pid: nat, q: int, clampTo: Option<int>)
      requires Valid() && cart < nextCartId && pid in products
      modifies this
      ensures CatalogKept() && OrdersKept() && ReviewsKept()
      ensures carts == old(carts) && nextCartId == old(nextCartId)
      ensures clampTo.Some? ==> cartItems == AddToCartLines(old(cartItems), cart, pid, q, clampTo.value, old(nextCartItemId))
      ensures clampTo.None? ==> cartItems == ApiAddItemLines(old(cartItems), cart, pid, q, old(nextCartItemId))
      ensures nextCartItemId == old(nextCartItemId) + (if FindLine(old(cartItems), cart, pid).None? then 1 else 0)
      ensures Valid()
    {
      var inserted := FindLine(cartItems, cart, pid).None?;
      if clampTo.Some? {
        AddToCartKeepsCartItems(cartItems, nextCartItemId, products, nextCartId, cart, pid, q, clampTo.value);
        cartItems := AddToCartLines(cartItems, cart, pid, q, clampTo.value, nextCartItemId);
      } else {
        ApiAddItemKeepsCartItems(cartItems, nextCartItemId, products, nextCartId, cart, pid, q);
        cartItems := ApiAddItemLines(cartItems, cart, pid, q, nextCartItemId);
      }
      if inserted {
        nextCartItemId := nextCartItemId + 1;
      }
    }

    /** remove_from_cart: the line with this id in the user's own cart is deleted; any other id
        is a 404 and changes nothing. */
    method RemoveFromCart(user: nat, itemId: nat) returns (outcome: Outcome)
      requires Valid()
      modifies this
      ensures Valid()
      ensures CatalogKept() && OrdersKept() && ReviewsKept()
      ensures carts == old(carts) && nextCartId == old(nextCartId) && nextCartItemId == old(nextCartItemId)
      ensures match FindOwnedLine(old(cartItems), CartOf(old(carts), user), itemId)
        case None => outcome == NotFound && cartItems == old(cartItems)
        case Some(k) => outcome == Done && cartItems == RemoveAt(old(cartItems), k)
    {
      var found := FindOwnedLine(cartItems, CartOf(carts, user), itemId);
      match found
      case None =>
        outcome := NotFound;
      case Some(k) =>
        RemoveKeepsCartItems(cartItems, nextCartItemId, products, nextCartId, k);
        cartItems := RemoveAt(cartItems, k);
        outcome := Done;
    }

    /** update_cart_item: on the line with this id in the user's own cart, a quantity <= 0
        deletes the line, one above the product's stock changes nothing, anything else is
        stored; any other id is a 404. The quantity defaults to 1. */
    method UpdateCartItem(user: nat, itemId: nat, quantity: Option<int>) returns (outcome: Outcome)
      requires Valid()
      modifies this
      ensures Valid()
      ensures CatalogKept() && OrdersKept() && ReviewsKept()
      ensures carts == old(carts) && nextCartId == old(nextCartId) && nextCartItemId == old(nextCartItemId)
      ensures match FindOwnedLine(old(cartItems), CartOf(old(carts), user), itemId)
        case None => outcome == NotFound && cartItems == old(cartItems)
        case Some(k) =>
          var q := quantity.GetOr(1);
          var stock := old(products)[old(cartItems)[k].product].stock;
          && cartItems == UpdateLines(old(cartItems), k, q, stock)
          && outcome == (if q > 0 && q > stock then OutOfStock else Done)
    {
      var found := FindOwnedLine(cartItems, CartOf(carts, user), itemId);
      match found
      case None =>
        outcome := NotFound;
      case Some(k) =>
        var q := quantity.GetOr(1);
        assert cartItems[k] in cartItems;
        var stock := products[cartItems[k].product].stock;
        UpdateKeepsCartItems(cartItems, nextCartItemId, products, nextCartId, k, q, stock);
        cartItems := UpdateLines(cartItems, k, q, stock);
        outcome := if q > 0 && q > stock then OutOfStock else Done;
    }

    /** checkout. Without a cart it is a 404 and with an empty cart it changes nothing; a GET
        only shows the form. A POST inserts the order of PlacedOrder with the cart total, then
        one order line per cart line in cart order with the price frozen to current_price
        (FrozenItems), then deletes the cart's lines; no other table changes. */
    method Checkout(user: nat, isPost: bool, form: CheckoutForm, uuidHex: string) returns (outcome: Outcome, orderId: Option<nat>)
      requires Valid()
      requires IsUuidHex(uuidHex)
      modifies this
      ensures Valid()
      ensures CatalogKept() && ReviewsKept()
      ensures carts == old(carts) && nextCartId == old(nextCartId) && nextCartItemId == old(nextCartItemId)
      ensures user !in old(carts) ==> outcome == NotFound && unchanged(this)
      ensures user in old(carts) && LinesOf(old(cartItems), old(carts)[user]) == [] ==>
        outcome == EmptyCart && unchanged(this)
      ensures user in old(carts) && LinesOf(old(cartItems), old(carts)[user]) != [] && !isPost ==>
        outcome == FormShown && unchanged(this)
      ensures outcome == Done <==> user in old(carts) && LinesOf(old(cartItems), old(carts)[user]) != [] && isPost
      ensures outcome == Done ==>
        var cart := old(carts)[user];
        var lines := LinesOf(old(cartItems), cart);
        var id := old(nextOrderId);
        && ProductsKnown(lines, old(products))
        && orderId == Some(id)
        && orders == old(orders)[id := PlacedOrder(id, user, form, TotalPrice(lines, old(products)), uuidHex)]
        && nextOrderId == id + 1
        && orderItems == old(orderItems) + FrozenItems(lines, id, old(nextOrderItemId), old(products))
        && ItemsOf(orderItems, id) == FrozenItems(lines, id, old(nextOrderItemId), old(products))
        && nextOrderItemId == old(nextOrderItemId) + |lines|
        && cartItems == OtherLines(old(cartItems), cart)
        && LinesOf(cartItems, cart) == []
    {
      orderId := None;
      if user !in carts {
        return NotFound, None;
      }
      var cart := carts[user];
      var lines := LinesOf(cartItems, cart);
      if lines == [] {
        return EmptyCart, None;
      }
      if !isPost {
        return FormShown, None;
      }
      assert ProductsKnown(lines, products);
      CartLinesDistinctProducts(cartItems, cart);
      var id := InsertOrder(user, form, TotalPrice(lines, products), uuidHex);
      assert forall x :: x in orderItems ==> x.order in old(orders);
      NewOrderItems(orderItems, nextOrderItemId, old(orders), products, lines, id, nextOrderItemId);
      AddOrderLines(id, lines);
      ClearCart(cart);
      outcome := Done;
      orderId := Some(id);
    }

    /** `Order.objects.create(...)` in checkout, with the receivers its saves trigger. */
    method InsertOrder(user: nat, form: CheckoutForm, total: int, uuidHex: string) returns (id: nat)
      requires Valid() && |uuidHex| >= 6
      modifies this
      ensures CatalogKept() && CartItemsKept() && ReviewsKept()
      ensures carts == old(carts) && nextCartId == old(nextCartId)
      ensures orderItems == old(orderItems) && nextOrderItemId == old(nextOrderItemId)
      ensures id == old(nextOrderId) && nextOrderId == id + 1
      ensures orders == old(orders)[id := PlacedOrder(id, user, form, total, uuidHex)]
      ensures id !in old(orders)
      ensures Valid()
    {
      id := nextOrderId;
      assert id !in orders;
      var o := PlacedOrder(id, user, form, total, uuidHex);
      InsertOrderKeepsOrders(orders, nextOrderId, o);
      InsertOrderKeepsOrderItems(orderItems, nextOrderItemId, orders, products, id, o);
      orders := orders[id := o];
      nextOrderId := nextOrderId + 1;
    }

    /** The loop of checkout that creates one order line per cart line, in cart order, each
        saved with the product's current_price (so with its subtotal). */
    method AddOrderLines(id: nat, lines: seq<CartItem>)
      requires Valid() && id in orders && ProductsKnown(lines, products)
      requires forall x :: x in orderItems ==> x.order != id
      requires forall i, j :: 0 <= i < j < |lines| ==> lines[i].product != lines[j].product
      modifies this
      ensures CatalogKept() && CartItemsKept() && ReviewsKept()
      ensures carts == old(carts) && nextCartId == old(nextCartId)
      ensures orders == old(orders) && nextOrderId == old(nextOrderId)
      ensures orderItems == old(orderItems) + FrozenItems(lines, id, old(nextOrderItemId), products)
      ensures nextOrderItemId == old(nextOrderItemId) + |lines|
      ensures Valid()
    {
      var firstItemId := nextOrderItemId;
      AppendFrozenKeepsOrderItems(orderItems, firstItemId, orders, products, lines, id);
      var frozen := FreezeLines(id, lines, firstItemId);
      orderItems := orderItems + frozen;
      nextOrderItemId := nextOrderItemId + |lines|;
    }

    /** The rows the loop of checkout creates: one per cart line, in cart order, under
        consecutive ids from firstId, each with the product's current_price and its subtotal. */
    method FreezeLines(id: nat, lines: seq<CartItem>, firstId: nat) returns (items: seq<OrderItem>)
      requires ProductsKnown(lines, products)
      ensures items == FrozenItems(lines, id, firstId, products)
    {
      items := [];
      var i := 0;
      while i < |lines|
        invariant 0 <= i <= |lines|
        invariant ProductsKnown(lines[..i], products)
        invariant items == FrozenItems(lines[..i], id, firstId, products)
      {
        FrozenItemsSnoc(lines, i, id, firstId, products);
        items := items + [FrozenLine(lines[i], id, firstId + i, products[lines[i].product])];
        i := i + 1;
      }
      assert lines[..|lines|] == lines;
    }

    /** `cart.items.all().delete()`: the cart's lines go, every other cart's stay. */
    method ClearCart(cart: nat)
      requires Valid()
      modifies this
      ensures Valid()
      ensures cartItems == OtherLines(old(cartItems), cart)
      ensures LinesOf(cartItems, cart) == []
      ensures forall other :: other != cart ==> LinesOf(cartItems, other) == LinesOf(old(cartItems), other)
      ensures nextCartItemId == old(nextCartItemId)
      ensures CatalogKept() && OrdersKept() && ReviewsKept()
      ensures carts == old(carts) && nextCartId == old(nextCartId)
    {
      ClearCartKeepsCartItems(cartItems, nextCartItemId, products, nextCartId, cart);
      forall other ensures LinesOf(OtherLines(cartItems, cart), cart) == []
        && (other != cart ==> LinesOf(OtherLines(cartItems, cart), other) == LinesOf(cartItems, other))
      {
        ClearingOneCart(cartItems, cart, other);
      }
      cartItems := OtherLines(cartItems, cart);
    }

    /** CartViewSet.list: the lines of the user's cart, created if needed. */
    method ApiCartList(user: nat) returns (lines: seq<CartItem>)
      requires Valid()
      modifies this
      ensures Valid()
      ensures CartOpened(user) && lines == LinesOf(cartItems, carts[user])
      ensures CatalogKept() && CartItemsKept() && OrdersKept() && ReviewsKept()
    {
      var cart := GetOrCreateCart(user);
      lines := LinesOf(cartItems, cart);
    }

    /** CartViewSet.add_item: a missing or zero product_id is a 400, an unknown or inactive
        product a 404, both changing nothing; otherwise the cart is created if needed and the
        line added or incremented as ApiAddItemLines says, with no stock test. The quantity
        defaults to 1. The response holds the cart's lines. */
    method ApiAddItem(user: nat, productId: Option<nat>, quantity: Option<int>) returns (outcome: Outcome, lines: seq<CartItem>)
      requires Valid()
      modifies this
      ensures Valid()
      ensures CatalogKept() && OrdersKept() && ReviewsKept()
      ensures productId.None? || productId.value == 0 ==> outcome == BadRequest && unchanged(this)
      ensures productId.Some? && productId.value != 0 ==>
        var pid := productId.value;
        && (!(pid in old(products) && old(products)[pid].isActive) ==> outcome == NotFound && unchanged(this))
        && (pid in old(products) && old(products)[pid].isActive ==>
              && outcome == Done
              && CartOpened(user)
              && cartItems == ApiAddItemLines(old(cartItems), carts[user], pid, quantity.GetOr(1), old(nextCartItemId))
              && nextCartItemId == old(nextCartItemId) + (if FindLine(old(cartItems), carts[user], pid).None? then 1 else 0)
              && lines == LinesOf(cartItems, carts[user]))
    {
      lines := [];
      if productId.None? || productId.value == 0 {
        return BadRequest, [];
      }
      var pid := productId.value;
      if !(pid in products && products[pid].isActive) {
        return NotFound, [];
      }
      var cart := GetOrCreateCart(user);
      var q := quantity.GetOr(1);
      PutLine(cart, pid, q, None);
      outcome := Done;
      lines := LinesOf(cartItems, cart);
    }

    /** CartViewSet.remove_item: a missing or zero item_id is a 400; the line with this id in
        the user's own cart is deleted; any other id is a 404. The response holds the cart's lines. */
    method ApiRemoveItem(user: nat, itemId: Option<nat>) returns (outcome: Outcome, lines: seq<CartItem>)
      requires Valid()
      modifies this
      ensures Valid()
      ensures CatalogKept() && OrdersKept() && ReviewsKept()
      ensures carts == old(carts) && nextCartId == old(nextCartId) && nextCartItemId == old(nextCartItemId)
      ensures itemId.None? || itemId.value == 0 ==> outcome == BadRequest && cartItems == old(cartItems)
      ensures itemId.Some? && itemId.value != 0 ==>
        match FindOwnedLine(old(cartItems), CartOf(old(carts), user), itemId.value)
        case None => outcome == NotFound && cartItems == old(cartItems)
        case Some(k) =>
          && outcome == Done
          && cartItems == RemoveAt(old(cartItems), k)
          && user in carts && lines == LinesOf(cartItems, carts[user])
    {
      lines := [];
      if itemId.None? || itemId.value == 0 {
        return BadRequest, [];
      }
      var found := FindOwnedLine(cartItems, CartOf(carts, user), itemId.value);
      match found
      case None =>
        outcome := NotFound;
      case Some(k) =>
        RemoveKeepsCartItems(cartItems, nextCartItemId, products, nextCartId, k);
        cartItems := RemoveAt(cartItems, k);
        outcome := Done;
        lines := LinesOf(cartItems, carts[user]);
    }

    /** create_review. An unknown or inactive product is a 404; a user who already reviewed the
        product is turned away, on GET as well as POST; a GET shows the form; an invalid form is
        shown again; a valid one inserts NewReview, unapproved, marked as a verified purchase
        exactly when a paid order of the user holds the product. */
    method CreateReview(user: nat, productId: nat, isPost: bool, form: ReviewForm) returns (outcome: Outcome)
      requires Valid()
      modifies this
      ensures Valid()
      ensures CatalogKept() && CartItemsKept() && OrdersKept()
      ensures carts == old(carts) && nextCartId == old(nextCartId)
      ensures !(productId in old(products) && old(products)[productId].isActive) ==>
        outcome == NotFound && ReviewsKept()
      ensures productId in old(products) && old(products)[productId].isActive ==>
        if HasReviewed(old(reviews), user, productId) then outcome == AlreadyReviewed && ReviewsKept()
        else if !isPost then outcome == FormShown && ReviewsKept()
        else if !FormIsValid(form) then outcome == FormErrors && ReviewsKept()
        else
          && outcome == Done
          && reviews == old(reviews)[old(nextReviewId) := NewReview(old(nextReviewId), productId, user, form,
                                                                   PaidPurchase(orderItems, orders, user, productId))]
          && nextReviewId == old(nextReviewId) + 1
    {
      if !(productId in products && products[productId].isActive) {
        return NotFound;
      }
      if HasReviewed(reviews, user, productId) {
        return AlreadyReviewed;
      }
      if !isPost {
        return FormShown;
      }
      if !FormIsValid(form) {
        return FormErrors;
      }
      var verified := PaidPurchase(orderItems, orders, user, productId);
      var id := nextReviewId;
      InsertReviewKeepsReviews(reviews, id, products, NewReview(id, productId, user, form, verified));
      reviews := reviews[id := NewReview(id, productId, user, form, verified)];
      nextReviewId := nextReviewId + 1;
      outcome := Done;
    }

    /** edit_review: the review must exist and belong to the user (else 404); a GET shows the
        form; an invalid form is shown again; a valid one changes rating, title and content only. */
    method EditReview(user: nat, reviewId: nat, isPost: bool, form: ReviewForm) returns (outcome: Outcome)
      requires Valid()
      modifies this
      ensures Valid()
      ensures CatalogKept() && CartItemsKept() && OrdersKept() && nextReviewId == old(nextReviewId)
      ensures carts == old(carts) && nextCartId == old(nextCartId)
      ensures !(reviewId in old(reviews) && old(reviews)[reviewId].user == user) ==>
        outcome == NotFound && reviews == old(reviews)
      ensures reviewId in old(reviews) && old(reviews)[reviewId].user == user ==>
        if !isPost then outcome == FormShown && reviews == old(reviews)
        else if !FormIsValid(form) then outcome == FormErrors && reviews == old(reviews)
        else outcome == Done && reviews == old(reviews)[reviewId := ApplyForm(old(reviews)[reviewId], form)]
    {
      if !(reviewId in reviews && reviews[reviewId].user == user) {
        return NotFound;
      }
      if !isPost {
        return FormShown;
      }
      if !FormIsValid(form) {
        return FormErrors;
      }
      reviews := reviews[reviewId := ApplyForm(reviews[reviewId], form)];
      outcome := Done;
    }

    /** delete_review: the user's own review is deleted; any other id is a 404. */
    method DeleteReview(user: nat, reviewId: nat) returns (outcome: Outcome)
      requires Valid()
      modifies this
      ensures Valid()
      ensures CatalogKept() && CartItemsKept() && OrdersKept() && nextReviewId == old(nextReviewId)
      ensures carts == old(carts) && nextCartId == old(nextCartId)
      ensures !(reviewId in old(reviews) && old(reviews)[reviewId].user == user) ==>
        outcome == NotFound && reviews == old(reviews)
      ensures reviewId in old(reviews) && old(reviews)[reviewId].user == user ==>
        outcome == Done && reviews == old(reviews) - {reviewId}
    {
      if !(reviewId in reviews && reviews[reviewId].user == user) {
        return NotFound;
      }
      reviews := reviews - {reviewId};
      outcome := Done;
    }

    /** mark_helpful: any user may vote on any review, once per POST (no vote is recorded, so
        repeated POSTs keep counting); a GET changes nothing; an unknown id is a 404. */
    method MarkHelpful(reviewId: nat, isPost: bool) returns (outcome: Outcome)
      requires Valid()
      modifies this
      ensures Valid()
      ensures CatalogKept() && CartItemsKept() && OrdersKept() && nextReviewId == old(nextReviewId)
      ensures carts == old(carts) && nextCartId == old(nextCartId)
      ensures reviewId !in old(reviews) ==> outcome == NotFound && reviews == old(reviews)
      ensures reviewId in old(reviews) ==> outcome == Done
      ensures reviewId in old(reviews) && !isPost ==> reviews == old(reviews)
      ensures reviewId in old(reviews) && isPost ==>
        reviews == old(reviews)[reviewId := MarkedHelpful(old(reviews)[reviewId])]
    {
      if reviewId !in reviews {
        return NotFound;
      }
      if isPost {
        reviews := reviews[reviewId := MarkedHelpful(reviews[reviewId])];
      }
      outcome := Done;
    }

    /** Product.increment_views on a stored product: one more view, nothing else changes. */
    method IncrementViews(productId: nat)
      requires Valid() && productId in products
      modifies this
      ensures Valid()
      ensures products == old(products)[productId := Catalog.IncrementViews(old(products)[productId])]
      ensures carts == old(carts) && nextCartId == old(nextCartId)
      ensures CartItemsKept() && OrdersKept() && ReviewsKept()
    {
      products := products[productId := Catalog.IncrementViews(products[productId])];
    }
  }
}
