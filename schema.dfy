/** The table constraints of the shopping core (primary keys, foreign keys, unique and
    unique_together constraints, the OrderItem.save rule), stated over the tables' contents. */
module Schema {
  import opened Common
  import opened Catalog
  import opened OrderNumbers
  import opened Orders
  import opened Reviews
  import opened CartRules

  /** Product.slug is unique. */
  predicate SlugsUnique(products: map<nat, Product>) {
    forall a, b :: a in products && b in products && a != b && products[a].slug.Some? ==>
      products[a].slug != products[b].slug
  }

  /** Cart.user is a OneToOneField: one cart per user, and no two users share a cart; every
      cart id was handed out before `next`. */
  predicate CartsValid(carts: map<nat, nat>, next: nat) {
    && (forall u :: u in carts ==> carts[u] < next)
    && (forall u, v :: u in carts && v in carts && u != v ==> carts[u] != carts[v])
  }

  /** CartItem: unique ids, one line per (cart, product), foreign keys to a product and to a
      cart that was created. */
  predicate CartItemsValid(items: seq<CartItem>, next: nat, products: map<nat, Product>, nextCart: nat) {
    && LineConstraints(items, next)
    && ProductsKnown(items, products)
    && (forall x :: x in items ==> x.cart < nextCart)
  }

  /** Orders are stored under their id, and each carries the number set_order_number gave it,
      from which its id can be read back. */
  predicate OrdersValid(orders: map<nat, Order>, next: nat) {
    forall id :: id in orders ==>
      && orders[id].id == id
      && id < next
      && ParseOrderId(orders[id].orderNumber) == Some(id)
  }

  /** OrderItem: unique ids, unique_together = ('order', 'product'), foreign keys to an order
      and a product, and the subtotal that OrderItem.save() stores. */
  predicate OrderItemsValid(items: seq<OrderItem>, next: nat, orders: map<nat, Order>, products: map<nat, Product>) {
    && (forall i, j :: 0 <= i < j < |items| ==> items[i].id != items[j].id)
    && (forall i, j :: 0 <= i < j < |items| ==>
          !(items[i].order == items[j].order && items[i].product == items[j].product))
    && (forall x :: x in items ==>
          && x.id < next
          && x.order in orders
          && x.product in products
          && x.subtotal == x.price * x.quantity)
  }

  /** Review: stored under its id, a foreign key to a product, the model's field constraints,
      and unique_together = ('product', 'user'). */
  predicate ReviewsValid(reviews: map<nat, Review>, next: nat, products: map<nat, Product>) {
    && (forall id :: id in reviews ==>
          && reviews[id].id == id
          && id < next
          && reviews[id].product in products
          && ReviewFieldsValid(reviews[id]))
    && (forall a, b :: a in reviews && b in reviews && a != b ==>
          !(reviews[a].product == reviews[b].product && reviews[a].user == reviews[b].user))
  }

  /** order_number is unique: it follows from every stored number reading back as its id. */
  lemma OrderNumbersUnique(orders: map<nat, Order>, next: nat, a: nat, b: nat)
    requires OrdersValid(orders, next)
    requires a in orders && b in orders && a != b
    ensures orders[a].orderNumber != orders[b].orderNumber
  {
    assert ParseOrderId(orders[a].orderNumber) != ParseOrderId(orders[b].orderNumber);
  }

  /** A cart created under the next cart id starts empty. */
  lemma NewCartIsEmpty(items: seq<CartItem>, next: nat, products: map<nat, Product>, nextCart: nat)
    requires CartItemsValid(items, next, products, nextCart)
    ensures LinesOf(items, nextCart) == []
  {
    if LinesOf(items, nextCart) != [] {
      assert LinesOf(items, nextCart)[0] in LinesOf(items, nextCart);
    }
  }

  /** The lines of one cart have one line per product, so they never name a product twice. */
  lemma {:induction false} CartLinesDistinctProducts(items: seq<CartItem>, cart: nat)
    requires OneLinePerProduct(items)
    ensures forall i, j :: 0 <= i < j < |LinesOf(items, cart)| ==>
      LinesOf(items, cart)[i].product != LinesOf(items, cart)[j].product
  {
    if items != [] {
      var tail := items[1..];
      assert OneLinePerProduct(tail) by {
        forall i, j | 0 <= i < j < |tail|
          ensures !(tail[i].cart == tail[j].cart && tail[i].product == tail[j].product)
        {
          assert tail[i] == items[i + 1] && tail[j] == items[j + 1];
        }
      }
      CartLinesDistinctProducts(tail, cart);
      if items[0].cart == cart {
        var r := LinesOf(items, cart);
        assert r == [items[0]] + LinesOf(tail, cart);
        forall j | 1 <= j < |r| ensures r[0].product != r[j].product {
          assert r[j] in LinesOf(tail, cart);
          var m :| 0 <= m < |tail| && tail[m] == r[j];
          assert items[m + 1] == r[j];
        }
      }
    }
  }

  /** Appending the frozen lines of a stored order that has no lines yet, under fresh ids, keeps
      the OrderItem constraints, provided the cart lines name each product once. */
  lemma AppendFrozenKeepsOrderItems(items: seq<OrderItem>, next: nat, orders: map<nat, Order>, products: map<nat, Product>,
                                    lines: seq<CartItem>, order: nat)
    requires OrderItemsValid(items, next, orders, products) && ProductsKnown(lines, products)
    requires order in orders && forall x :: x in items ==> x.order != order
    requires forall i, j :: 0 <= i < j < |lines| ==> lines[i].product != lines[j].product
    ensures OrderItemsValid(items + FrozenItems(lines, order, next, products), next + |lines|, orders, products)
  {
    var f := FrozenItems(lines, order, next, products);
    var r := items + f;
    forall i, j | 0 <= i < j < |r|
      ensures r[i].id != r[j].id
      ensures !(r[i].order == r[j].order && r[i].product == r[j].product)
    {
      if j >= |items| && i < |items| {
        assert r[i] in items;
      } else if i >= |items| {
        assert r[i] == f[i - |items|] && r[j] == f[j - |items|];
      }
    }
    forall x | x in r
      ensures x.id < next + |lines| && x.order in orders && x.product in products
      ensures x.subtotal == x.price * x.quantity
    {
      if x !in items {
        var k :| 0 <= k < |f| && f[k] == x;
        assert lines[k] in lines;
      }
    }
  }

  /** The items of an order created after the existing ones are exactly its frozen cart lines. */
  lemma {:induction false} NewOrderItems(items: seq<OrderItem>, next: nat, orders: map<nat, Order>, products: map<nat, Product>,
                                         lines: seq<CartItem>, order: nat, firstId: nat)
    requires OrderItemsValid(items, next, orders, products) && ProductsKnown(lines, products)
    requires order !in orders
    ensures ItemsOf(items + FrozenItems(lines, order, firstId, products), order) == FrozenItems(lines, order, firstId, products)
  {
    var f := FrozenItems(lines, order, firstId, products);
    FrozenItemsCount(lines, order, firstId, products);
    ItemsOfAppend(items, f, order);
    assert forall x :: x in items ==> x.order != order;
    NoItemsOf(items, order);
  }

  lemma {:induction false} ItemsOfAppend(a: seq<OrderItem>, b: seq<OrderItem>, order: nat)
    ensures ItemsOf(a + b, order) == ItemsOf(a, order) + ItemsOf(b, order)
  {
    if a == [] {
      assert a + b == b;
    } else {
      assert (a + b)[0] == a[0] && (a + b)[1..] == a[1..] + b;
      ItemsOfAppend(a[1..], b, order);
    }
  }

  lemma NoItemsOf(items: seq<OrderItem>, order: nat)
    requires forall x :: x in items ==> x.order != order
    ensures ItemsOf(items, order) == []
  {
  }

  // ---------------------------------------------------------------------------------------
  // The cart views keep the CartItem constraints

  /** add_to_cart's effect, for a cart that exists and a product that exists, keeps the
      CartItem constraints; the id sequence advances only when a line is inserted. */
  lemma AddToCartKeepsCartItems(items: seq<CartItem>, next: nat, products: map<nat, Product>, nextCart: nat,
                                cart: nat, product: nat, quantity: int, stock: int)
    requires CartItemsValid(items, next, products, nextCart) && cart < nextCart && product in products
    ensures CartItemsValid(AddToCartLines(items, cart, product, quantity, stock, next),
                           if FindLine(items, cart, product).None? then next + 1 else next, products, nextCart)
  {
    var r := AddToCartLines(items, cart, product, quantity, stock, next);
    match FindLine(items, cart, product)
    case None =>
      AddToCartNewLine(items, cart, product, quantity, stock, next);
      forall x | x in r ensures x.product in products && x.cart < nextCart {
        var i :| 0 <= i < |r| && r[i] == x;
        if i < |items| {
          assert items[i] in items;
        }
      }
    case Some(k) =>
      AddToCartExistingLine(items, cart, product, quantity, stock, next, k);
      forall x | x in r ensures x.product in products && x.cart < nextCart {
        var i :| 0 <= i < |r| && r[i] == x;
        assert items[i] in items;
      }
  }

  /** add_item's effect, for a cart that exists and a product that exists, keeps the CartItem
      constraints; the id sequence advances only when a line is inserted. */
  lemma ApiAddItemKeepsCartItems(items: seq<CartItem>, next: nat, products: map<nat, Product>, nextCart: nat,
                                 cart: nat, product: nat, quantity: int)
    requires CartItemsValid(items, next, products, nextCart) && cart < nextCart && product in products
    ensures CartItemsValid(ApiAddItemLines(items, cart, product, quantity, next),
                           if FindLine(items, cart, product).None? then next + 1 else next, products, nextCart)
  {
    var r := ApiAddItemLines(items, cart, product, quantity, next);
    match FindLine(items, cart, product)
    case None =>
      ApiAddItemNewLine(items, cart, product, quantity, next);
      forall x | x in r ensures x.product in products && x.cart < nextCart {
        var i :| 0 <= i < |r| && r[i] == x;
        if i < |items| {
          assert items[i] in items;
        }
      }
    case Some(k) =>
      ApiAddItemExistingLine(items, cart, product, quantity, next, k);
      forall x | x in r ensures x.product in products && x.cart < nextCart {
        var i :| 0 <= i < |r| && r[i] == x;
        assert items[i] in items;
      }
  }

  /** update_cart_item's effect keeps the CartItem constraints. */
  lemma UpdateKeepsCartItems(items: seq<CartItem>, next: nat, products: map<nat, Product>, nextCart: nat,
                             k: nat, quantity: int, stock: int)
    requires CartItemsValid(items, next, products, nextCart) && k < |items|
    ensures CartItemsValid(UpdateLines(items, k, quantity, stock), next, products, nextCart)
  {
    UpdateLinesEffect(items, k, quantity, stock, next);
    var r := UpdateLines(items, k, quantity, stock);
    if 0 < quantity <= stock {
      forall x | x in r ensures x.product in products && x.cart < nextCart {
        var i :| 0 <= i < |r| && r[i] == x;
        assert items[i] in items;
      }
    }
  }

  /** Deleting a line keeps the CartItem constraints. */
  lemma RemoveKeepsCartItems(items: seq<CartItem>, next: nat, products: map<nat, Product>, nextCart: nat, k: nat)
    requires CartItemsValid(items, next, products, nextCart) && k < |items|
    ensures CartItemsValid(RemoveAt(items, k), next, products, nextCart)
  {
    RemoveAtEffect(items, k, next);
  }

  /** Clearing one cart keeps the CartItem constraints. */
  lemma ClearCartKeepsCartItems(items: seq<CartItem>, next: nat, products: map<nat, Product>, nextCart: nat, cart: nat)
    requires CartItemsValid(items, next, products, nextCart)
    ensures CartItemsValid(OtherLines(items, cart), next, products, nextCart)
  {
    OtherLinesKeepConstraints(items, cart, next);
  }

  // ---------------------------------------------------------------------------------------
  // Inserting orders and reviews

  /** Inserting an order under the next id, numbered after that id, keeps the Order constraints. */
  lemma InsertOrderKeepsOrders(orders: map<nat, Order>, next: nat, o: Order)
    requires OrdersValid(orders, next)
    requires o.id == next && ParseOrderId(o.orderNumber) == Some(next)
    ensures OrdersValid(orders[next := o], next + 1)
  {
  }

  /** Inserting an order keeps the foreign keys of the existing order lines. */
  lemma InsertOrderKeepsOrderItems(items: seq<OrderItem>, next: nat, orders: map<nat, Order>, products: map<nat, Product>,
                                   id: nat, o: Order)
    requires OrderItemsValid(items, next, orders, products)
    ensures OrderItemsValid(items, next, orders[id := o], products)
  {
  }

  /** Inserting a review under the next id, for an existing product and a (product, user) pair
      with no review yet, keeps the Review constraints, unique_together included. */
  lemma InsertReviewKeepsReviews(reviews: map<nat, Review>, next: nat, products: map<nat, Product>, r: Review)
    requires ReviewsValid(reviews, next, products)
    requires r.id == next && r.product in products && ReviewFieldsValid(r)
    requires forall id :: id in reviews ==> !(reviews[id].product == r.product && reviews[id].user == r.user)
    ensures ReviewsValid(reviews[next := r], next + 1, products)
  {
    var m := reviews[next := r];
    forall a, b | a in m && b in m && a != b
      ensures !(m[a].product == m[b].product && m[a].user == m[b].user)
    {
      if a == next {
        assert b in reviews;
      } else if b == next {
        assert a in reviews;
      }
    }
  }
}
