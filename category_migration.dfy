/** The data step of products/migrations/0003_add_category_fk.py: copy_category_data gives every
    product the category of its first row in the old product/category join table. The rows are
    an input (the SQL that reads them is not part of this model). */
module CategoryMigration {
  import opened Common
  import opened Catalog

  /** Row i is the first row of the join table that names product p. */
  predicate IsFirstRowFor(rows: seq<(nat, nat)>, i: int, p: nat) {
    0 <= i < |rows| && rows[i].0 == p && forall j :: 0 <= j < i ==> rows[j].0 != p
  }

  /** The first loop: `product_to_category`, filled so that the first category per product wins. */
  method FirstCategoryPerProduct(rows: seq<(nat, nat)>) returns (m: map<nat, nat>)
    ensures forall p :: p in m <==> exists i :: 0 <= i < |rows| && rows[i].0 == p
    ensures forall p :: p in m ==> exists i :: IsFirstRowFor(rows, i, p) && m[p] == rows[i].1
  {
    m := map[];
    var k := 0;
    while k < |rows|
      invariant 0 <= k <= |rows|
      invariant forall p :: p in m <==> exists i :: 0 <= i < k && rows[i].0 == p
      invariant forall p :: p in m ==> exists i :: i < k && IsFirstRowFor(rows, i, p) && m[p] == rows[i].1
    {
      var (prodId, catId) := rows[k];
      if prodId !in m {
        m := m[prodId := catId];
        assert IsFirstRowFor(rows, k, prodId);
      }
      k := k + 1;
    }
  }

  /** The second loop: each mapped product that exists gets its category; ids with no product
      are skipped (DoesNotExist is swallowed); every other product is left as it was. */
  method AssignCategories(products: map<nat, Product>, firstCategory: map<nat, nat>) returns (r: map<nat, Product>)
    ensures r.Keys == products.Keys
    ensures forall id :: id in products && id in firstCategory ==>
      r[id] == products[id].(categoryId := Some(firstCategory[id]))
    ensures forall id :: id in products && id !in firstCategory ==> r[id] == products[id]
  {
    r := products;
    var pending := firstCategory.Keys;
    while pending != {}
      invariant pending <= firstCategory.Keys
      invariant r.Keys == products.Keys
      invariant forall id :: id in products && id in firstCategory && id !in pending ==>
        r[id] == products[id].(categoryId := Some(firstCategory[id]))
      invariant forall id :: id in products && (id !in firstCategory || id in pending) ==> r[id] == products[id]
      decreases pending
    {
      var id :| id in pending;
      if id in r {
        r := r[id := r[id].(categoryId := Some(firstCategory[id]))];
      }
      pending := pending - {id};
    }
  }

  /** copy_category_data: a product named in some row ends with the category of its first row;
      every other product, and every field other than the category, is untouched. */
  method CopyCategoryData(rows: seq<(nat, nat)>, products: map<nat, Product>) returns (r: map<nat, Product>)
    ensures r.Keys == products.Keys
    ensures forall id, i :: id in products && IsFirstRowFor(rows, i, id) ==>
      r[id] == products[id].(categoryId := Some(rows[i].1))
    ensures forall id :: id in products && (forall i :: 0 <= i < |rows| ==> rows[i].0 != id) ==>
      r[id] == products[id]
  {
    var firstCategory := FirstCategoryPerProduct(rows);
    r := AssignCategories(products, firstCategory);
    forall id, i | id in products && IsFirstRowFor(rows, i, id)
      ensures r[id] == products[id].(categoryId := Some(rows[i].1))
    {
      assert id in firstCategory;
      var k :| IsFirstRowFor(rows, k, id) && firstCategory[id] == rows[k].1;
      FirstRowUnique(rows, i, k, id);
    }
  }

  lemma FirstRowUnique(rows: seq<(nat, nat)>, i: int, k: int, p: nat)
    requires IsFirstRowFor(rows, i, p) && IsFirstRowFor(rows, k, p)
    ensures i == k
  {
  }
}
