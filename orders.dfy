/** Orders, order lines and cart lines (orders/models.py), with the aggregates computed
    over them. Amounts are integer cents. */
module Orders {
  import opened Common
  import opened Catalog
  import opened OrderNumbers

  /** Order.STATUS_CHOICES; the model's default is Pending. No transition rules exist in code. */
  datatype Status = Pending | Processing | Shipped | Delivered | Cancelled

  /** The default of Order.payment_method. The column is a free string here: the checkout view
      stores whatever method was posted, and the four PAYMENT_METHOD_CHOICES are never checked. */
  const DefaultPaymentMethod: string := "card"

  datatype Order = Order(
    id: nat,
    user: nat,
    orderNumber: string,
    status: Status,
    paymentMethod: string,
    isPaid: bool,
    totalAmount: int,
    discountAmount: int,
    shippingCost: int,
    finalAmount: int,
    shippingAddress: string,
    shippingCity: string,
    shippingPostalCode: string,
    phoneNumber: string,
    notes: Option<string>)

  datatype OrderItem = OrderItem(id: nat, order: nat, product: nat, quantity: int, price: int, subtotal: int)

  datatype CartItem = CartItem(id: nat, cart: nat, product: nat, quantity: int)

  /** The field validators of OrderItem (quantity >= 1, price >= 0.01), CartItem (quantity >= 1)
      and Order (all four amounts >= 0). Django runs them in forms, not in save(). */
  predicate ValidOrderItem(item: OrderItem) {
    item.quantity >= 1 && item.price >= 1 && item.subtotal >= 0
  }

  predicate ValidCartItem(item: CartItem) {
    item.quantity >= 1
  }

  predicate ValidAmounts(o: Order) {
    o.totalAmount >= 0 && o.discountAmount >= 0 && o.shippingCost >= 0 && o.finalAmount >= 0
  }

  /** Every product of the catalogue passes its validators. */
  predicate CatalogValid(products: map<nat, Product>) {
    forall id :: id in products ==> ValidProduct(products[id])
  }

  /** Every line refers to a product that exists (the foreign key). */
  predicate ProductsKnown(lines: seq<CartItem>, products: map<nat, Product>) {
    forall line :: line in lines ==> line.product in products
  }

  // ---------------------------------------------------------------------------------------
  // Cart aggregates

  /** The lines of one cart, in table order: `cart.items.all()`. */
  function LinesOf(items: seq<CartItem>, cart: nat): (r: seq<CartItem>)
    ensures |r| <= |items|
    ensures forall x :: x in r <==> x in items && x.cart == cart
  {
    if items == [] then []
    else if items[0].cart == cart then [items[0]] + LinesOf(items[1..], cart)
    else LinesOf(items[1..], cart)
  }

  /** The lines of every other cart: what `cart.items.all().delete()` leaves behind. */
  function OtherLines(items: seq<CartItem>, cart: nat): (r: seq<CartItem>)
    ensures |r| <= |items|
    ensures forall x :: x in r <==> x in items && x.cart != cart
  {
    if items == [] then []
    else if items[0].cart != cart then [items[0]] + OtherLines(items[1..], cart)
    else OtherLines(items[1..], cart)
  }

  /** The unit price of Cart.get_total_price: Coalesce(discount_price, price). */
  function UnitPrice(p: Product): int {
    p.discountPrice.GetOr(p.price)
  }

  /** Cart.get_total_price over the given lines: Sum(quantity * unit price), or 0 when empty. */
  function TotalPrice(lines: seq<CartItem>, products: map<nat, Product>): int
    requires ProductsKnown(lines, products)
  {
    if lines == [] then 0
    else lines[0].quantity * UnitPrice(products[lines[0].product]) + TotalPrice(lines[1..], products)
  }

  /** CartItem.subtotal: `price = discount_price if discount_price is not None else price`. */
  function Subtotal(line: CartItem, p: Product): int {
    (if p.discountPrice != None then p.discountPrice.value else p.price) * line.quantity
  }

  function SumOfSubtotals(lines: seq<CartItem>, products: map<nat, Product>): int
    requires ProductsKnown(lines, products)
  {
    if lines == [] then 0
    else Subtotal(lines[0], products[lines[0].product]) + SumOfSubtotals(lines[1..], products)
  }

  /** The cart total is the sum of the line subtotals: both make the same NULL check. */
  lemma {:induction false} TotalIsSumOfSubtotals(lines: seq<CartItem>, products: map<nat, Product>)
    requires ProductsKnown(lines, products)
    ensures TotalPrice(lines, products) == SumOfSubtotals(lines, products)
  {
    if lines != [] {
      TotalIsSumOfSubtotals(lines[1..], products);
    }
  }

  /** Cart.get_total_items over the given lines: Sum(quantity), or 0 when empty. */
  function TotalItems(lines: seq<CartItem>): int {
    if lines == [] then 0 else lines[0].quantity + TotalItems(lines[1..])
  }

  lemma {:induction false} TotalPriceAppend(a: seq<CartItem>, b: seq<CartItem>, products: map<nat, Product>)
    requires ProductsKnown(a, products) && ProductsKnown(b, products)
    ensures ProductsKnown(a + b, products)
    ensures TotalPrice(a + b, products) == TotalPrice(a, products) + TotalPrice(b, products)
  {
    if a == [] {
      assert a + b == b;
    } else {
      assert (a + b)[0] == a[0];
      assert (a + b)[1..] == a[1..] + b;
      TotalPriceAppend(a[1..], b, products);
    }
  }

  lemma {:induction false} TotalItemsAppend(a: seq<CartItem>, b: seq<CartItem>)
    ensures TotalItems(a + b) == TotalItems(a) + TotalItems(b)
  {
    if a == [] {
      assert a + b == b;
    } else {
      assert (a + b)[0] == a[0];
      assert (a + b)[1..] == a[1..] + b;
      TotalItemsAppend(a[1..], b);
    }
  }

  /** With every quantity positive and every unit price non-negative the total is not negative,
      and the item count is at least the number of lines. */
  lemma {:induction false} TotalsNonNegative(lines: seq<CartItem>, products: map<nat, Product>)
    requires ProductsKnown(lines, products)
    requires forall line :: line in lines ==> line.quantity >= 1 && UnitPrice(products[line.product]) >= 0
    ensures TotalPrice(lines, products) >= 0
    ensures TotalItems(lines) >= |lines|
  {
    if lines != [] {
      TotalsNonNegative(lines[1..], products);
    }
  }

  // ---------------------------------------------------------------------------------------
  // Order lines

  /** OrderItem.save(): the stored subtotal is price × quantity, and nothing else changes. */
  function Saved(item: OrderItem): (r: OrderItem)
    ensures r.subtotal == r.price * r.quantity
    ensures r.(subtotal := item.subtotal) == item
  {
    item.(subtotal := item.price * item.quantity)
  }

  /** The lines of one order: `order.items`. */
  function ItemsOf(items: seq<OrderItem>, order: nat): (r: seq<OrderItem>)
    ensures |r| <= |items|
    ensures forall x :: x in r <==> x in items && x.order == order
  {
    if items == [] then []
    else if items[0].order == order then [items[0]] + ItemsOf(items[1..], order)
    else ItemsOf(items[1..], order)
  }

  /** Order.get_items_count over the given lines: Sum(quantity), or 0 when empty. */
  function ItemsCount(items: seq<OrderItem>): int {
    if items == [] then 0 else items[0].quantity + ItemsCount(items[1..])
  }

  function SumOfOrderSubtotals(items: seq<OrderItem>): int {
    if items == [] then 0 else items[0].subtotal + SumOfOrderSubtotals(items[1..])
  }

  /** The order line checkout creates for one cart line: same product and quantity, the price
      frozen to the product's current_price, saved (so with its subtotal). */
  function FrozenLine(line: CartItem, order: nat, id: nat, p: Product): OrderItem {
    Saved(OrderItem(id, order, line.product, line.quantity, CurrentPrice(p), 0))
  }

  /** One order line per cart line, in cart order, with consecutive ids from firstId. */
  function FrozenItems(lines: seq<CartItem>, order: nat, firstId: nat, products: map<nat, Product>): (r: seq<OrderItem>)
    requires ProductsKnown(lines, products)
    ensures |r| == |lines|
    ensures forall k :: 0 <= k < |r| ==> r[k] == FrozenLine(lines[k], order, firstId + k, products[lines[k].product])
  {
    if lines == [] then []
    else [FrozenLine(lines[0], order, firstId, products[lines[0].product])]
         + FrozenItems(lines[1..], order, firstId + 1, products)
  }

  /** Extending the cart lines by one extends the frozen lines by that line's order line. */
  lemma FrozenItemsSnoc(lines: seq<CartItem>, i: nat, order: nat, firstId: nat, products: map<nat, Product>)
    requires i < |lines| && ProductsKnown(lines, products)
    ensures ProductsKnown(lines[..i], products) && ProductsKnown(lines[..i + 1], products)
    ensures FrozenItems(lines[..i + 1], order, firstId, products)
         == FrozenItems(lines[..i], order, firstId, products)
            + [FrozenLine(lines[i], order, firstId + i, products[lines[i].product])]
  {
    var pre, pre1 := lines[..i], lines[..i + 1];
    assert forall x :: x in pre1 ==> x in lines;
    assert forall x :: x in pre ==> x in lines;
    var a := FrozenItems(pre1, order, firstId, products);
    var b := FrozenItems(pre, order, firstId, products) + [FrozenLine(lines[i], order, firstId + i, products[lines[i].product])];
    forall k | 0 <= k < |a| ensures a[k] == b[k] {
      assert pre1[k] == lines[k];
      if k < i {
        assert pre[k] == lines[k];
      }
    }
  }

  /** With a catalogue that passes its validators and cart lines of at least one unit, every
      order line checkout creates passes the OrderItem validators. */
  lemma FrozenItemsPassValidators(lines: seq<CartItem>, order: nat, firstId: nat, products: map<nat, Product>)
    requires ProductsKnown(lines, products) && CatalogValid(products)
    requires forall line :: line in lines ==> ValidCartItem(line)
    ensures forall x :: x in FrozenItems(lines, order, firstId, products) ==> ValidOrderItem(x)
  {
    var r := FrozenItems(lines, order, firstId, products);
    forall x | x in r ensures ValidOrderItem(x) {
      var k :| 0 <= k < |r| && r[k] == x;
      assert lines[k] in lines;
      var p := products[lines[k].product];
      assert ValidProduct(p);
      assert x.price == CurrentPrice(p) >= 1 && x.quantity >= 1;
      assert x.subtotal == x.price * x.quantity;
    }
  }

  /** The frozen lines of a cart are the lines of their order, with the same item count. */
  lemma {:induction false} FrozenItemsCount(lines: seq<CartItem>, order: nat, firstId: nat, products: map<nat, Product>)
    requires ProductsKnown(lines, products)
    ensures ItemsOf(FrozenItems(lines, order, firstId, products), order) == FrozenItems(lines, order, firstId, products)
    ensures ItemsCount(FrozenItems(lines, order, firstId, products)) == TotalItems(lines)
  {
    if lines != [] {
      var r := FrozenItems(lines, order, firstId, products);
      assert r[1..] == FrozenItems(lines[1..], order, firstId + 1, products);
      FrozenItemsCount(lines[1..], order, firstId + 1, products);
    }
  }

  /** No product in the cart carries a stored discount of exactly 0.00. */
  predicate NoZeroDiscount(lines: seq<CartItem>, products: map<nat, Product>)
    requires ProductsKnown(lines, products)
  {
    forall line :: line in lines ==> products[line.product].discountPrice != Some(0)
  }

  /** Whenever no product in the cart has a stored discount of 0.00, the frozen order lines add
      up to the cart total that checkout stores as total_amount and final_amount. */
  lemma {:induction false} FrozenTotalMatchesCartTotal(lines: seq<CartItem>, order: nat, firstId: nat, products: map<nat, Product>)
    requires ProductsKnown(lines, products) && NoZeroDiscount(lines, products)
    ensures SumOfOrderSubtotals(FrozenItems(lines, order, firstId, products)) == TotalPrice(lines, products)
  {
    if lines != [] {
      var r := FrozenItems(lines, order, firstId, products);
      assert r[1..] == FrozenItems(lines[1..], order, firstId + 1, products);
      var p := products[lines[0].product];
      assert lines[0] in lines;
      assert CurrentPrice(p) == UnitPrice(p);
      assert forall line :: line in lines[1..] ==> line in lines;
      FrozenTotalMatchesCartTotal(lines[1..], order, firstId + 1, products);
    }
  }

  /** The one case left over parts the two prices: a stored discount of 0.00 is used by the
      cart total (Coalesce keeps it) but ignored by current_price (0 is falsy). */
  lemma ZeroDiscountSplitsTotals()
    ensures var products := map[7 := Product("Ball", Some("ball"), 2000, Some(0), 5, true, 0, None)];
            var lines := [CartItem(1, 1, 7, 1)];
            TotalPrice(lines, products) == 0
            && SumOfOrderSubtotals(FrozenItems(lines, 1, 1, products)) == 2000
  {
    var products := map[7 := Product("Ball", Some("ball"), 2000, Some(0), 5, true, 0, None)];
    var lines := [CartItem(1, 1, 7, 1)];
    var r := FrozenItems(lines, 1, 1, products);
    assert r[0] == FrozenLine(lines[0], 1, 1, products[7]);
    assert r[1..] == [];
  }

  /** A worked example: three units at 20.00 make a 60.00 cart, frozen as one 60.00 order line. */
  lemma CheckoutExample()
    ensures var products := map[1 := Product("A", Some("a"), 2000, None, 5, true, 0, None)];
            var lines := [CartItem(1, 1, 1, 3)];
            TotalPrice(lines, products) == 6000
            && FrozenItems(lines, 1, 1, products) == [OrderItem(1, 1, 1, 3, 2000, 6000)]
  {
    var products := map[1 := Product("A", Some("a"), 2000, None, 5, true, 0, None)];
    var lines := [CartItem(1, 1, 1, 3)];
    assert FrozenItems(lines, 1, 1, products)[0] == OrderItem(1, 1, 1, 3, 2000, 6000);
  }

  // ---------------------------------------------------------------------------------------
  // The set_order_number receiver

  /** set_order_number on one post_save: only a newly created order whose number is still empty
      gets one, and the write-back (update_fields=['order_number']) touches no other field. */
  function NumberOnSave(o: Order, created: bool, uuidHex: string): (r: Order)
    ensures r == o.(orderNumber := r.orderNumber)
    ensures !(created && o.orderNumber == "") ==> r == o
    ensures created && o.orderNumber == "" ==> r.orderNumber == OrderNumber(o.id, uuidHex)
  {
    if created && o.orderNumber == "" then o.(orderNumber := OrderNumber(o.id, uuidHex)) else o
  }

  /** The number assigned when an order is inserted is kept by every later save. */
  lemma NumberNeverOverwritten(o: Order, uuidHex: string, later: bool, laterHex: string)
    ensures var first := NumberOnSave(o.(orderNumber := ""), true, uuidHex);
            NumberOnSave(first, later, laterHex) == first
  {
    var first := NumberOnSave(o.(orderNumber := ""), true, uuidHex);
    assert |first.orderNumber| >= 6;
  }
}
