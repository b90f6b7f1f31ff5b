/** The stock rules of the cart views: add_to_cart, update_cart_item and remove_from_cart in
    orders/views.py, and add_item / remove_item of CartViewSet in api/views.py. Each view's
    effect on the CartItem table is a function here; the view methods of Shop.Store are proved
    to perform exactly that effect, and the lemmas below state what the effect guarantees. */
module CartRules {
  import opened Common
  import opened Catalog
  import opened Orders

  /** The stock test of add_to_cart and update_cart_item: `quantity > product.stock`. */
  predicate ExceedsStock(quantity: int, p: Product) {
    quantity > p.stock
  }

  /** is_in_stock holds exactly when add_to_cart would accept one unit of the product. */
  lemma InStockIffOneUnitAccepted(p: Product)
    ensures IsInStock(p) <==> !ExceedsStock(1, p)
  {
  }

  // ---------------------------------------------------------------------------------------
  // Table constraints

  /** Primary keys are unique. */
  predicate UniqueLineIds(items: seq<CartItem>) {
    forall i, j :: 0 <= i < j < |items| ==> items[i].id != items[j].id
  }

  /** unique_together = ('cart', 'product'). */
  predicate OneLinePerProduct(items: seq<CartItem>) {
    forall i, j :: 0 <= i < j < |items| ==> !(items[i].cart == items[j].cart && items[i].product == items[j].product)
  }

  /** Every id was handed out before `next`. */
  predicate IdsBelow(items: seq<CartItem>, next: nat) {
    forall x :: x in items ==> x.id < next
  }

  predicate LineConstraints(items: seq<CartItem>, next: nat) {
    UniqueLineIds(items) && OneLinePerProduct(items) && IdsBelow(items, next)
  }

  /** MinValueValidator(1) on CartItem.quantity. */
  predicate PositiveQuantities(items: seq<CartItem>) {
    forall x :: x in items ==> x.quantity >= 1
  }

  // ---------------------------------------------------------------------------------------
  // Lookups

  /** The line for (cart, product), if any: the lookup half of get_or_create. */
  function FindLine(items: seq<CartItem>, cart: nat, product: nat): (r: Option<nat>)
    ensures r.Some? ==> r.value < |items| && items[r.value].cart == cart && items[r.value].product == product
    ensures r.None? ==> forall x :: x in items ==> !(x.cart == cart && x.product == product)
  {
    if items == [] then None
    else if items[0].cart == cart && items[0].product == product then Some(0)
    else match FindLine(items[1..], cart, product)
      case None => None
      case Some(k) => Some(k + 1)
  }

  /** With one line per product, the line found is the only one. */
  lemma FindLineIsTheLine(items: seq<CartItem>, k: nat)
    requires OneLinePerProduct(items) && k < |items|
    ensures FindLine(items, items[k].cart, items[k].product) == Some(k)
  {
    assert items[k] in items;
  }

  /** `CartItem.objects.get(id=item_id, cart__user=request.user)`: the line with this id in the
      requesting user's cart (`cart` is None when the user has no cart). */
  function FindOwnedLine(items: seq<CartItem>, cart: Option<nat>, id: nat): (r: Option<nat>)
    ensures r.Some? ==> cart.Some? && r.value < |items| && items[r.value].id == id && items[r.value].cart == cart.value
    ensures r.None? ==> cart.None? || forall x :: x in items ==> !(x.id == id && x.cart == cart.value)
  {
    if cart.None? || items == [] then None
    else if items[0].id == id && items[0].cart == cart.value then Some(0)
    else match FindOwnedLine(items[1..], cart, id)
      case None => None
      case Some(k) => Some(k + 1)
  }

  // ---------------------------------------------------------------------------------------
  // The effects of the views on the CartItem table

  /** `if quantity > stock: quantity = stock`. */
  function Clamp(quantity: int, stock: int): int {
    if quantity > stock then stock else quantity
  }

  /** add_to_cart once the stock test has passed: a new line with the requested quantity, or
      the existing line incremented and clamped to the stock. */
  function AddToCartLines(items: seq<CartItem>, cart: nat, product: nat, quantity: int, stock: int, nextId: nat): seq<CartItem> {
    match FindLine(items, cart, product)
    case None => items + [CartItem(nextId, cart, product, quantity)]
    case Some(k) => items[k := items[k].(quantity := Clamp(items[k].quantity + quantity, stock))]
  }

  /** CartViewSet.add_item: a new line with the requested quantity, or the existing line
      incremented, with no stock test and no clamp. */
  function ApiAddItemLines(items: seq<CartItem>, cart: nat, product: nat, quantity: int, nextId: nat): seq<CartItem> {
    match FindLine(items, cart, product)
    case None => items + [CartItem(nextId, cart, product, quantity)]
    case Some(k) => items[k := items[k].(quantity := items[k].quantity + quantity)]
  }

  /** `cart_item.delete()`. */
  function RemoveAt(items: seq<CartItem>, k: nat): seq<CartItem>
    requires k < |items|
  {
    items[..k] + items[k + 1..]
  }

  /** update_cart_item on the line at k: delete on a quantity <= 0, refuse above the stock,
      otherwise set the quantity. */
  function UpdateLines(items: seq<CartItem>, k: nat, quantity: int, stock: int): seq<CartItem>
    requires k < |items|
  {
    if quantity <= 0 then RemoveAt(items, k)
    else if quantity > stock then items
    else items[k := items[k].(quantity := quantity)]
  }

  // ---------------------------------------------------------------------------------------
  // What the effects guarantee

  /** Changing only the quantity of one line keeps the table constraints and every other line. */
  lemma SetQuantityKeepsConstraints(items: seq<CartItem>, k: nat, q: int, next: nat)
    requires LineConstraints(items, next) && k < |items|
    ensures LineConstraints(items[k := items[k].(quantity := q)], next)
    ensures FindLine(items[k := items[k].(quantity := q)], items[k].cart, items[k].product) == Some(k)
  {
    var r := items[k := items[k].(quantity := q)];
    assert forall i :: 0 <= i < |r| ==> r[i].id == items[i].id && r[i].cart == items[i].cart && r[i].product == items[i].product;
    assert forall x :: x in r ==> exists i :: 0 <= i < |items| && x.id == items[i].id;
    FindLineIsTheLine(r, k);
  }

  /** Appending a line for a (cart, product) pair that has none, under a fresh id, keeps the
      table constraints, and the new line is the one found for that pair. */
  lemma AppendKeepsConstraints(items: seq<CartItem>, line: CartItem, next: nat)
    requires LineConstraints(items, next)
    requires FindLine(items, line.cart, line.product).None? && line.id == next
    ensures LineConstraints(items + [line], next + 1)
    ensures FindLine(items + [line], line.cart, line.product) == Some(|items|)
  {
    var r := items + [line];
    forall i, j | 0 <= i < j < |r|
      ensures r[i].id != r[j].id
      ensures !(r[i].cart == r[j].cart && r[i].product == r[j].product)
    {
      if j == |items| {
        assert r[i] in items;
      }
    }
    FindLineIsTheLine(r, |items|);
  }

  /** add_to_cart for a product not yet in the cart: one new line under the next id, holding
      the requested quantity, after the existing lines, which are all kept. */
  lemma AddToCartNewLine(items: seq<CartItem>, cart: nat, product: nat, quantity: int, stock: int, nextId: nat)
    requires LineConstraints(items, nextId) && FindLine(items, cart, product).None?
    ensures var r := AddToCartLines(items, cart, product, quantity, stock, nextId);
      && LineConstraints(r, nextId + 1)
      && |r| == |items| + 1 && r[..|items|] == items
      && FindLine(r, cart, product) == Some(|items|)
      && r[|items|].id == nextId && r[|items|].quantity == quantity
  {
    AppendKeepsConstraints(items, CartItem(nextId, cart, product, quantity), nextId);
    var r := AddToCartLines(items, cart, product, quantity, stock, nextId);
    assert r[..|items|] == items;
  }

  /** add_to_cart for a product already in the cart: the same line, under the same id, now
      holds min(old + quantity, stock); every other line stays in place. */
  lemma AddToCartExistingLine(items: seq<CartItem>, cart: nat, product: nat, quantity: int, stock: int, nextId: nat, k: nat)
    requires LineConstraints(items, nextId) && FindLine(items, cart, product) == Some(k)
    ensures var r := AddToCartLines(items, cart, product, quantity, stock, nextId);
      && LineConstraints(r, nextId)
      && |r| == |items| && FindLine(r, cart, product) == Some(k)
      && r[k].id == items[k].id && r[k].quantity == Clamp(items[k].quantity + quantity, stock)
      && (forall i :: 0 <= i < |items| && i != k ==> r[i] == items[i])
  {
    var r := items[k := items[k].(quantity := Clamp(items[k].quantity + quantity, stock))];
    assert AddToCartLines(items, cart, product, quantity, stock, nextId) == r;
    SetQuantityKeepsConstraints(items, k, Clamp(items[k].quantity + quantity, stock), nextId);
  }

  /** When the stock test passed (quantity <= stock), the line add_to_cart leaves for the
      product never holds more than the stock. */
  lemma AddToCartWithinStock(items: seq<CartItem>, cart: nat, product: nat, quantity: int, stock: int, nextId: nat)
    requires LineConstraints(items, nextId) && quantity <= stock
    ensures var r := AddToCartLines(items, cart, product, quantity, stock, nextId);
      FindLine(r, cart, product).Some? && r[FindLine(r, cart, product).value].quantity <= stock
  {
    match FindLine(items, cart, product)
    case None => AddToCartNewLine(items, cart, product, quantity, stock, nextId);
    case Some(k) => AddToCartExistingLine(items, cart, product, quantity, stock, nextId, k);
  }

  /** For a quantity of at least one that passed the stock test, add_to_cart keeps every
      quantity at least one (the stock is then at least one as well). */
  lemma AddToCartKeepsQuantitiesPositive(items: seq<CartItem>, cart: nat, product: nat, quantity: int, stock: int, nextId: nat)
    requires LineConstraints(items, nextId) && PositiveQuantities(items)
    requires 1 <= quantity <= stock
    ensures PositiveQuantities(AddToCartLines(items, cart, product, quantity, stock, nextId))
  {
    var r := AddToCartLines(items, cart, product, quantity, stock, nextId);
    match FindLine(items, cart, product)
    case None =>
      AddToCartNewLine(items, cart, product, quantity, stock, nextId);
      forall x | x in r ensures x.quantity >= 1 {
        var i :| 0 <= i < |r| && r[i] == x;
        if i < |items| {
          assert items[i] in items;
        }
      }
    case Some(k) =>
      AddToCartExistingLine(items, cart, product, quantity, stock, nextId, k);
      assert items[k] in items;
      forall x | x in r ensures x.quantity >= 1 {
        var i :| 0 <= i < |r| && r[i] == x;
        if i != k {
          assert items[i] in items;
        }
      }
  }

  /** The web view checks only `quantity > stock`: a posted quantity of 0 for a product not yet
      in the cart is accepted and stored as a line of quantity 0. */
  lemma AddToCartAcceptsZeroQuantity(items: seq<CartItem>, cart: nat, product: nat, stock: int, nextId: nat)
    requires FindLine(items, cart, product).None? && stock >= 0
    ensures forall p: Product :: p.stock >= 0 ==> !ExceedsStock(0, p)
    ensures !PositiveQuantities(AddToCartLines(items, cart, product, 0, stock, nextId))
  {
    var r := AddToCartLines(items, cart, product, 0, stock, nextId);
    assert r[|items|] in r;
  }

  /** add_item for a product not yet in the cart: one new line under the next id, holding the
      requested quantity, after the existing lines, which are all kept. */
  lemma ApiAddItemNewLine(items: seq<CartItem>, cart: nat, product: nat, quantity: int, nextId: nat)
    requires LineConstraints(items, nextId) && FindLine(items, cart, product).None?
    ensures var r := ApiAddItemLines(items, cart, product, quantity, nextId);
      && LineConstraints(r, nextId + 1)
      && |r| == |items| + 1 && r[..|items|] == items
      && FindLine(r, cart, product) == Some(|items|)
      && r[|items|].id == nextId && r[|items|].quantity == quantity
  {
    AppendKeepsConstraints(items, CartItem(nextId, cart, product, quantity), nextId);
    var r := ApiAddItemLines(items, cart, product, quantity, nextId);
    assert r[..|items|] == items;
  }

  /** add_item for a product already in the cart: the same line now holds old + quantity,
      whatever the stock; every other line stays in place. */
  lemma ApiAddItemExistingLine(items: seq<CartItem>, cart: nat, product: nat, quantity: int, nextId: nat, k: nat)
    requires LineConstraints(items, nextId) && FindLine(items, cart, product) == Some(k)
    ensures var r := ApiAddItemLines(items, cart, product, quantity, nextId);
      && LineConstraints(r, nextId)
      && |r| == |items| && FindLine(r, cart, product) == Some(k)
      && r[k].id == items[k].id && r[k].quantity == items[k].quantity + quantity
      && (forall i :: 0 <= i < |items| && i != k ==> r[i] == items[i])
  {
    var r := items[k := items[k].(quantity := items[k].quantity + quantity)];
    assert ApiAddItemLines(items, cart, product, quantity, nextId) == r;
    SetQuantityKeepsConstraints(items, k, items[k].quantity + quantity, nextId);
  }

  /** The two add paths differ exactly in the stock rule: on an existing line of 4 units of a
      product with 5 in stock, adding 3 leaves 5 through the web view and 7 through the API. */
  lemma WebClampsApiDoesNot()
    ensures var items := [CartItem(1, 1, 9, 4)];
      && AddToCartLines(items, 1, 9, 3, 5, 2) == [CartItem(1, 1, 9, 5)]
      && ApiAddItemLines(items, 1, 9, 3, 2) == [CartItem(1, 1, 9, 7)]
  {
    var items := [CartItem(1, 1, 9, 4)];
    assert FindLine(items, 1, 9) == Some(0);
  }

  /** Deleting a line removes exactly that line: every other line is kept, the deleted id is
      gone, and the table constraints still hold. */
  lemma RemoveAtEffect(items: seq<CartItem>, k: nat, next: nat)
    requires LineConstraints(items, next) && k < |items|
    ensures var r := RemoveAt(items, k);
      && LineConstraints(r, next)
      && |r| == |items| - 1
      && (forall x :: x in r <==> x in items && x.id != items[k].id)
  {
    RemoveAtIndices(items, k);
    RemoveAtKeepsConstraints(items, k, next);
    RemoveAtMembers(items, k, next);
  }

  lemma RemoveAtKeepsConstraints(items: seq<CartItem>, k: nat, next: nat)
    requires LineConstraints(items, next) && k < |items|
    ensures LineConstraints(RemoveAt(items, k), next)
  {
    RemoveAtIndices(items, k);
    var r := RemoveAt(items, k);
    forall i, j | 0 <= i < j < |r|
      ensures r[i].id != r[j].id
      ensures !(r[i].cart == r[j].cart && r[i].product == r[j].product)
    {
      var i' := if i < k then i else i + 1;
      var j' := if j < k then j else j + 1;
      assert i' < j' && r[i] == items[i'] && r[j] == items[j'];
    }
    forall x | x in r ensures x.id < next {
      var i :| 0 <= i < |r| && r[i] == x;
      assert items[if i < k then i else i + 1] in items;
    }
  }

  lemma RemoveAtMembers(items: seq<CartItem>, k: nat, next: nat)
    requires LineConstraints(items, next) && k < |items|
    ensures forall x :: x in RemoveAt(items, k) <==> x in items && x.id != items[k].id
  {
    RemoveAtIndices(items, k);
    var r := RemoveAt(items, k);
    forall x | x in items && x.id != items[k].id ensures x in r {
      var i :| 0 <= i < |items| && items[i] == x;
      assert r[if i < k then i else i - 1] == x;
    }
    forall x | x in r ensures x in items && x.id != items[k].id {
      var i :| 0 <= i < |r| && r[i] == x;
      var j := if i < k then i else i + 1;
      assert items[j] == x && j != k;
    }
  }

  /** Where each remaining line of a deletion came from. */
  lemma RemoveAtIndices(items: seq<CartItem>, k: nat)
    requires k < |items|
    ensures |RemoveAt(items, k)| == |items| - 1
    ensures forall i :: 0 <= i < |items| - 1 ==> RemoveAt(items, k)[i] == items[if i < k then i else i + 1]
  {
  }

  /** update_cart_item on the line at k: a quantity <= 0 deletes it, a quantity above the stock
      leaves the table as it was, anything else sets exactly that quantity; no other line
      changes and the table constraints still hold. */
  lemma UpdateLinesEffect(items: seq<CartItem>, k: nat, quantity: int, stock: int, next: nat)
    requires LineConstraints(items, next) && k < |items|
    ensures var r := UpdateLines(items, k, quantity, stock);
      && LineConstraints(r, next)
      && (quantity <= 0 ==> forall x :: x in r <==> x in items && x.id != items[k].id)
      && (0 < quantity && quantity > stock ==> r == items)
      && (0 < quantity <= stock ==>
            |r| == |items| && r[k] == items[k].(quantity := quantity)
            && forall i :: 0 <= i < |items| && i != k ==> r[i] == items[i])
  {
    if quantity <= 0 {
      RemoveAtEffect(items, k, next);
    } else if quantity <= stock {
      SetQuantityKeepsConstraints(items, k, quantity, next);
    }
  }

  /** update_cart_item never leaves a line below one unit, and every line it writes is within the
      stock: a line of the result is either an unchanged line or holds at most `stock` units. */
  lemma UpdateLinesKeepsQuantitiesPositive(items: seq<CartItem>, k: nat, quantity: int, stock: int, next: nat)
    requires LineConstraints(items, next) && k < |items| && PositiveQuantities(items)
    ensures PositiveQuantities(UpdateLines(items, k, quantity, stock))
    ensures forall x :: x in UpdateLines(items, k, quantity, stock) ==> x in items || x.quantity <= stock
  {
    UpdateLinesEffect(items, k, quantity, stock, next);
    var r := UpdateLines(items, k, quantity, stock);
    if 0 < quantity <= stock {
      forall x | x in r ensures x.quantity >= 1 && (x in items || x.quantity <= stock) {
        var i :| 0 <= i < |r| && r[i] == x;
        if i != k {
          assert items[i] in items;
        }
      }
    }
  }

  /** Adding a product that was not in the cart and then deleting that line restores the table,
      so the cart's total price and item count are back where they were. */
  lemma AddThenRemoveRestores(items: seq<CartItem>, cart: nat, product: nat, quantity: int, stock: int, nextId: nat)
    requires FindLine(items, cart, product).None?
    ensures var r := AddToCartLines(items, cart, product, quantity, stock, nextId);
      |r| == |items| + 1 && RemoveAt(r, |items|) == items
  {
    var r := AddToCartLines(items, cart, product, quantity, stock, nextId);
    assert r[..|items|] == items;
  }

  /** Dropping the first line keeps the table constraints. */
  lemma TailKeepsConstraints(items: seq<CartItem>, next: nat)
    requires LineConstraints(items, next) && items != []
    ensures LineConstraints(items[1..], next)
  {
    var tail := items[1..];
    forall i, j | 0 <= i < j < |tail|
      ensures tail[i].id != tail[j].id
      ensures !(tail[i].cart == tail[j].cart && tail[i].product == tail[j].product)
    {
      assert tail[i] == items[i + 1] && tail[j] == items[j + 1];
    }
    assert forall x :: x in tail ==> x in items;
  }

  /** Putting in front a line that clashes with none of the others keeps the constraints. */
  lemma ConsKeepsConstraints(x: CartItem, rest: seq<CartItem>, next: nat)
    requires LineConstraints(rest, next) && x.id < next
    requires forall y :: y in rest ==> y.id != x.id && !(y.cart == x.cart && y.product == x.product)
    ensures LineConstraints([x] + rest, next)
  {
    var r := [x] + rest;
    forall i, j | 0 <= i < j < |r|
      ensures r[i].id != r[j].id
      ensures !(r[i].cart == r[j].cart && r[i].product == r[j].product)
    {
      assert r[j] == rest[j - 1];
      if i > 0 {
        assert r[i] == rest[i - 1];
      } else {
        assert rest[j - 1] in rest;
      }
    }
  }

  /** Clearing one cart (`cart.items.all().delete()`) keeps the table constraints. */
  lemma {:induction false} OtherLinesKeepConstraints(items: seq<CartItem>, cart: nat, next: nat)
    requires LineConstraints(items, next)
    ensures LineConstraints(OtherLines(items, cart), next)
  {
    if items != [] {
      var tail := items[1..];
      TailKeepsConstraints(items, next);
      OtherLinesKeepConstraints(tail, cart, next);
      if items[0].cart != cart {
        forall y | y in OtherLines(tail, cart)
          ensures y.id != items[0].id && !(y.cart == items[0].cart && y.product == items[0].product)
        {
          var m :| 0 <= m < |tail| && tail[m] == y;
          assert items[m + 1] == y;
        }
        assert items[0] in items;
        ConsKeepsConstraints(items[0], OtherLines(tail, cart), next);
      }
    }
  }

  /** Clearing one cart empties it and leaves the lines of every other cart as they were. */
  lemma {:induction false} ClearingOneCart(items: seq<CartItem>, cart: nat, other: nat)
    ensures LinesOf(OtherLines(items, cart), cart) == []
    ensures other != cart ==> LinesOf(OtherLines(items, cart), other) == LinesOf(items, other)
  {
    if items != [] {
      ClearingOneCart(items[1..], cart, other);
      if items[0].cart != cart {
        assert OtherLines(items, cart) == [items[0]] + OtherLines(items[1..], cart);
        assert ([items[0]] + OtherLines(items[1..], cart))[1..] == OtherLines(items[1..], cart);
      }
    }
  }
}
