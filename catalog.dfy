/** The product catalogue (products/models.py): prices, stock and the slug default.
    Money is held in integer cents, the two decimal places of the source's DecimalField. */
module Catalog {
  import opened Common

  /** A Product row. `categoryId` is the foreign key that the category migration fills in. */
  datatype Product = Product(
    name: string,
    slug: Option<string>,
    price: int,
    discountPrice: Option<int>,
    stock: int,
    isActive: bool,
    viewsCount: int,
    categoryId: Option<nat>)

  /** A Category row (only the fields its save() reads or writes). */
  datatype Category = Category(name: string, slug: Option<string>, isActive: bool)

  /** The field validators: price at least one cent, discount NULL or at least one cent,
      stock not negative. Django runs them in forms and full_clean(), not in save(). */
  predicate ValidProduct(p: Product) {
    && p.price >= 1
    && (p.discountPrice.Some? ==> p.discountPrice.value >= 1)
    && p.stock >= 0
  }

  /** `if self.discount_price:` is set and non-zero (a Decimal zero is falsy). */
  predicate HasDiscount(p: Product) {
    p.discountPrice.Some? && p.discountPrice.value != 0
  }

  /** Product.current_price. */
  function CurrentPrice(p: Product): (r: int)
    ensures HasDiscount(p) ==> r == p.discountPrice.value
    ensures !HasDiscount(p) ==> r == p.price
    ensures ValidProduct(p) ==> r >= 1
    ensures ValidProduct(p) && p.discountPrice.Some? ==> r == p.discountPrice.value
  {
    if HasDiscount(p) then p.discountPrice.value else p.price
  }

  /** Product.discount_percentage: `int(((price - discount) / price) * 100)`. The Decimal
      quotient is exact at these magnitudes, so this is the rational value truncated toward zero. */
  function DiscountPercentage(p: Product): (r: int)
    requires HasDiscount(p) ==> p.price != 0
    ensures !HasDiscount(p) ==> r == 0
    ensures p.discountPrice.Some? && 1 <= p.discountPrice.value <= p.price ==>
      && 0 <= r <= 99
      && r * p.price <= 100 * (p.price - p.discountPrice.value) < (r + 1) * p.price
    ensures p.price >= 1 && HasDiscount(p) && p.discountPrice.value > p.price ==>
      && r <= 0
      && -r * p.price <= 100 * (p.discountPrice.value - p.price) < (-r + 1) * p.price
    ensures p.price >= 1 && p.discountPrice.Some? && p.discountPrice.value < 0 ==>
      && r >= 100
      && r * p.price <= 100 * (p.price - p.discountPrice.value) < (r + 1) * p.price
  {
    if HasDiscount(p) then
      var q := TruncDiv(100 * (p.price - p.discountPrice.value), p.price);
      if 1 <= p.discountPrice.value <= p.price then
        PercentageBound(q, p.price, p.discountPrice.value);
        q
      else if p.price >= 1 && p.discountPrice.value > p.price then
        MarkupBound(q, p.price, p.discountPrice.value);
        q
      else if p.price >= 1 && p.discountPrice.value < 0 then
        NegativeDiscountBound(q, p.price, p.discountPrice.value);
        q
      else q
    else 0
  }

  /** The arithmetic behind the 0..99 bound of DiscountPercentage. */
  lemma PercentageBound(q: int, price: int, discount: int)
    requires price >= 1 && 1 <= discount <= price
    requires q == TruncDiv(100 * (price - discount), price)
    ensures 0 <= q <= 99
    ensures q * price <= 100 * (price - discount) < (q + 1) * price
  {
    var a := 100 * (price - discount);
    assert 0 <= a < 100 * price;
    assert q == a / price;
  }

  /** A discount above the price gives a negative percentage, truncated toward zero. */
  lemma MarkupBound(q: int, price: int, discount: int)
    requires 1 <= price < discount
    requires q == TruncDiv(100 * (price - discount), price)
    ensures q <= 0
    ensures -q * price <= 100 * (discount - price) < (-q + 1) * price
  {
    var a := 100 * (price - discount);
    assert a < 0 && Abs(a) == 100 * (discount - price);
    assert q == -(Abs(a) / price);
  }

  /** A negative discount, which save() stores without running the validators, gives a
      percentage of at least 100. */
  lemma NegativeDiscountBound(q: int, price: int, discount: int)
    requires price >= 1 && discount < 0
    requires q == TruncDiv(100 * (price - discount), price)
    ensures q >= 100
    ensures q * price <= 100 * (price - discount) < (q + 1) * price
  {
    var a := 100 * (price - discount);
    assert a > 100 * price > 0;
    assert Abs(a) == a && Abs(price) == price && q >= 0;
    assert 100 * price < (q + 1) * price;
    FactorStrictlyBelow(100, q + 1, price);
  }

  /** Cancelling a positive factor from a strict inequality between products. */
  lemma FactorStrictlyBelow(x: int, y: int, c: int)
    requires c >= 1 && x * c < y * c
    ensures x < y
  {
    assert (y - x) * c == y * c - x * c;
  }

  /** Product.is_in_stock. */
  predicate IsInStock(p: Product) {
    p.stock > 0
  }

  /** The slug a save() stores: `if not self.slug: self.slug = slugify(self.name)`.
      Django's slugify is not part of this model and is passed in. */
  function SlugOnSave(name: string, slug: Option<string>, slugify: string -> string): Option<string> {
    if Truthy(slug) then slug else Some(slugify(name))
  }

  /** An existing slug is kept; an empty or NULL one is derived from the name; saving twice
      stores the same slug as saving once. */
  lemma SlugOnSaveProperties(name: string, slug: Option<string>, slugify: string -> string)
    ensures Truthy(slug) ==> SlugOnSave(name, slug, slugify) == slug
    ensures !Truthy(slug) ==> SlugOnSave(name, slug, slugify) == Some(slugify(name))
    ensures SlugOnSave(name, SlugOnSave(name, slug, slugify), slugify) == SlugOnSave(name, slug, slugify)
  {
  }

  /** Product.save(): only the slug may change. */
  function SaveProduct(p: Product, slugify: string -> string): (r: Product)
    ensures r == p.(slug := r.slug)
    ensures r.slug == SlugOnSave(p.name, p.slug, slugify)
  {
    p.(slug := SlugOnSave(p.name, p.slug, slugify))
  }

  /** Category.save(): only the slug may change. */
  function SaveCategory(c: Category, slugify: string -> string): (r: Category)
    ensures r == c.(slug := r.slug)
    ensures r.slug == SlugOnSave(c.name, c.slug, slugify)
  {
    c.(slug := SlugOnSave(c.name, c.slug, slugify))
  }

  /** Product.increment_views(): the counter goes up by exactly one and nothing else changes. */
  function IncrementViews(p: Product): (r: Product)
    ensures r.viewsCount == p.viewsCount + 1
    ensures r == p.(viewsCount := r.viewsCount)
  {
    p.(viewsCount := p.viewsCount + 1)
  }
}
