/** Joining cart entries against the product catalog, and the sums computed
    from the result. The cart and checkout pages join in cart order; the home
    page joins in catalog order. The catalog itself is a parameter. */
module CatalogJoin {
  import opened CartTypes
  import opened CartList

  /** `products.find(p => p.id === id)`: a product with that id, if any. */
  function FindProduct(catalog: seq<Product>, id: int): (r: Option<Product>)
    ensures r.Some? ==> r.value in catalog && r.value.id == id
    ensures r.None? <==> forall p :: p in catalog ==> p.id != id
  {
    if catalog == [] then None
    else if catalog[0].id == id then Some(catalog[0])
    else FindProduct(catalog[1..], id)
  }

  /** The product found is the first one with the id: no earlier product has it. */
  lemma {:induction false} FindProductIsFirst(catalog: seq<Product>, id: int)
    requires FindProduct(catalog, id).Some?
    ensures exists k :: 0 <= k < |catalog| && catalog[k] == FindProduct(catalog, id).value &&
                        forall j :: 0 <= j < k ==> catalog[j].id != id
  {
    if catalog[0].id != id {
      var tail := catalog[1..];
      FindProductIsFirst(tail, id);
      var k :| 0 <= k < |tail| && tail[k] == FindProduct(tail, id).value &&
               forall j :: 0 <= j < k ==> tail[j].id != id;
      assert catalog[k + 1] == tail[k];
      assert forall j :: 1 <= j <= k ==> catalog[j] == tail[j - 1];
    }
  }

  /** No two catalog products share an id. */
  predicate UniqueProductIds(catalog: seq<Product>)
  {
    forall i, j :: 0 <= i < j < |catalog| ==> catalog[i].id != catalog[j].id
  }

  /** `cartProducts` of the cart and checkout pages: one line per entry whose
      product exists, in cart order, with the entry's quantity. */
  function JoinInCartOrder(items: seq<CartItem>, catalog: seq<Product>): (r: seq<CartProduct>)
    ensures |r| <= |items|
    ensures forall l :: l in r ==>
              FindProduct(catalog, l.product.id) == Some(l.product) &&
              CartItem(l.product.id, l.quantity) in items
    ensures forall x :: x in items && FindProduct(catalog, x.id).Some? ==>
              CartProduct(FindProduct(catalog, x.id).value, x.quantity) in r
  {
    if items == [] then []
    else
      var rest := JoinInCartOrder(items[1..], catalog);
      assert forall x :: x in items[1..] ==> x in items;
      assert forall x :: x in items ==> x == items[0] || x in items[1..];
      match FindProduct(catalog, items[0].id)
      case Some(p) => [CartProduct(p, items[0].quantity)] + rest
      case None => rest
  }

  /** `cartProducts` of the home page: one line per catalog product that has
      an entry, in catalog order, with the quantity of its first entry. */
  function JoinInCatalogOrder(catalog: seq<Product>, items: seq<CartItem>): (r: seq<CartProduct>)
    ensures |r| <= |catalog|
    ensures forall l :: l in r ==>
              l.product in catalog &&
              FindEntry(items, l.product.id) == Some(CartItem(l.product.id, l.quantity))
    ensures forall p :: p in catalog && InCart(items, p.id) ==>
              CartProduct(p, FindEntry(items, p.id).value.quantity) in r
  {
    if catalog == [] then []
    else
      var rest := JoinInCatalogOrder(catalog[1..], items);
      assert forall p :: p in catalog[1..] ==> p in catalog;
      assert forall p :: p in catalog ==> p == catalog[0] || p in catalog[1..];
      match FindEntry(items, catalog[0].id)
      case Some(e) => [CartProduct(catalog[0], e.quantity)] + rest
      case None => rest
  }

  /** `total` / `subtotal`: the sum of price times quantity over the lines. */
  function Total(lines: seq<CartProduct>): real
  {
    if lines == [] then 0.0
    else lines[0].product.price * lines[0].quantity as real + Total(lines[1..])
  }

  // ---------------------------------------------------------------------
  // The cart-order join

  /** The join is computed entry by entry: it distributes over
      concatenation, so the lines keep the cart's order. */
  lemma {:induction false} JoinDistributes(a: seq<CartItem>, b: seq<CartItem>, catalog: seq<Product>)
    ensures JoinInCartOrder(a + b, catalog)
         == JoinInCartOrder(a, catalog) + JoinInCartOrder(b, catalog)
  {
    if a == [] {
      assert a + b == b;
    } else {
      assert (a + b)[0] == a[0];
      assert (a + b)[1..] == a[1..] + b;
      JoinDistributes(a[1..], b, catalog);
    }
  }

  /** The line an entry with a known product turns into. */
  function LineOf(x: CartItem, catalog: seq<Product>): CartProduct
    requires FindProduct(catalog, x.id).Some?
  {
    CartProduct(FindProduct(catalog, x.id).value, x.quantity)
  }

  /** When every entry names a catalog product, the join has one line per
      entry, at the same position, with the entry's quantity. */
  lemma {:induction false} JoinOfKnownEntries(items: seq<CartItem>, catalog: seq<Product>)
    requires forall i :: 0 <= i < |items| ==> FindProduct(catalog, items[i].id).Some?
    ensures |JoinInCartOrder(items, catalog)| == |items|
    ensures forall i :: 0 <= i < |items| ==> JoinInCartOrder(items, catalog)[i] == LineOf(items[i], catalog)
  {
    if items != [] {
      var tail := items[1..];
      assert forall i :: 0 <= i < |tail| ==> FindProduct(catalog, tail[i].id).Some? by {
        forall i | 0 <= i < |tail| ensures FindProduct(catalog, tail[i].id).Some? {
          assert tail[i] == items[i + 1];
        }
      }
      JoinOfKnownEntries(tail, catalog);
      var rest := JoinInCartOrder(tail, catalog);
      assert JoinInCartOrder(items, catalog) == [LineOf(items[0], catalog)] + rest;
      LinesShift(items, rest, catalog);
    }
  }

  lemma LinesShift(items: seq<CartItem>, rest: seq<CartProduct>, catalog: seq<Product>)
    requires |items| > 0 && |rest| == |items| - 1
    requires FindProduct(catalog, items[0].id).Some?
    requires forall i :: 0 <= i < |items| - 1 ==>
               FindProduct(catalog, items[1..][i].id).Some? && rest[i] == LineOf(items[1..][i], catalog)
    ensures forall i :: 0 <= i < |items| ==>
              FindProduct(catalog, items[i].id).Some? &&
              ([LineOf(items[0], catalog)] + rest)[i] == LineOf(items[i], catalog)
  {
    var r := [LineOf(items[0], catalog)] + rest;
    forall i | 1 <= i < |items|
      ensures FindProduct(catalog, items[i].id).Some? && r[i] == LineOf(items[i], catalog)
    {
      assert items[1..][i - 1] == items[i];
      assert r[i] == rest[i - 1];
    }
  }

  /** Entries whose product is missing from the catalog contribute nothing. */
  lemma {:induction false} JoinDropsDangling(items: seq<CartItem>, catalog: seq<Product>, id: int)
    requires FindProduct(catalog, id).None?
    ensures JoinInCartOrder(RemoveFromCart(items, id), catalog) == JoinInCartOrder(items, catalog)
  {
    if items != [] {
      JoinDropsDangling(items[1..], catalog, id);
      if items[0].id != id {
        var kept := [items[0]] + RemoveFromCart(items[1..], id);
        assert kept[0] == items[0];
        assert kept[1..] == RemoveFromCart(items[1..], id);
      }
    }
  }

  // ---------------------------------------------------------------------
  // The catalog-order join

  /** The home page's join is computed product by product: it distributes
      over concatenation of catalogs, so the lines keep the catalog's order
      and each product contributes at most one line. */
  lemma {:induction false} JoinInCatalogOrderDistributes(a: seq<Product>, b: seq<Product>, items: seq<CartItem>)
    ensures JoinInCatalogOrder(a + b, items)
         == JoinInCatalogOrder(a, items) + JoinInCatalogOrder(b, items)
  {
    if a == [] {
      assert a + b == b;
    } else {
      assert (a + b)[0] == a[0];
      assert (a + b)[1..] == a[1..] + b;
      JoinInCatalogOrderDistributes(a[1..], b, items);
    }
  }

  /** A single product yields its line exactly when it has an entry, with the
      quantity of the first entry for it. */
  lemma JoinInCatalogOrderSingle(p: Product, items: seq<CartItem>)
    ensures !InCart(items, p.id) ==> JoinInCatalogOrder([p], items) == []
    ensures InCart(items, p.id) ==>
              JoinInCatalogOrder([p], items) == [CartProduct(p, FindEntry(items, p.id).value.quantity)]
  {
  }

  // ---------------------------------------------------------------------
  // Totals

  /** The total is additive over concatenation. */
  lemma {:induction false} TotalDistributes(a: seq<CartProduct>, b: seq<CartProduct>)
    ensures Total(a + b) == Total(a) + Total(b)
  {
    if a == [] {
      assert a + b == b;
    } else {
      assert (a + b)[0] == a[0];
      assert (a + b)[1..] == a[1..] + b;
      TotalDistributes(a[1..], b);
    }
  }

  /** Lines with non-negative prices and quantities have a non-negative total. */
  lemma {:induction false} LinesTotalNonNegative(lines: seq<CartProduct>)
    requires forall l :: l in lines ==> l.product.price >= 0.0 && l.quantity >= 0
    ensures Total(lines) >= 0.0
  {
    if lines != [] {
      assert lines[0] in lines;
      var price := lines[0].product.price;
      var q := lines[0].quantity as real;
      assert price * q >= 0.0;
      assert forall l :: l in lines[1..] ==> l in lines;
      LinesTotalNonNegative(lines[1..]);
    }
  }

  /** A cart never totals below zero when no price and no quantity is negative. */
  lemma CartTotalNonNegative(items: seq<CartItem>, catalog: seq<Product>)
    requires forall p :: p in catalog ==> p.price >= 0.0
    requires forall x :: x in items ==> x.quantity >= 0
    ensures Total(JoinInCartOrder(items, catalog)) >= 0.0
  {
    LinesTotalNonNegative(JoinInCartOrder(items, catalog));
  }

  /** A cleared cart shows no units and costs nothing. */
  lemma ClearedCartIsEmpty(catalog: seq<Product>)
    ensures ItemCount(ClearCart()) == 0
    ensures Total(JoinInCartOrder(ClearCart(), catalog)) == 0.0
  {
  }

  /** An entry whose product is not in the catalog is counted in the navbar
      badge but adds nothing to the total. */
  lemma DanglingEntryCountedNotCharged(items: seq<CartItem>, catalog: seq<Product>, id: int, q: int)
    requires FindProduct(catalog, id).None?
    ensures ItemCount(items + [CartItem(id, q)]) == ItemCount(items) + q
    ensures Total(JoinInCartOrder(items + [CartItem(id, q)], catalog))
         == Total(JoinInCartOrder(items, catalog))
  {
    ItemCountDistributes(items, [CartItem(id, q)]);
    JoinDistributes(items, [CartItem(id, q)], catalog);
    assert JoinInCartOrder(items, catalog) + [] == JoinInCartOrder(items, catalog);
  }

  // ---------------------------------------------------------------------
  // The two joins compared

  lemma {:induction false} FindEntryOfUnique(items: seq<CartItem>, x: CartItem)
    requires UniqueIds(items) && x in items
    ensures FindEntry(items, x.id) == Some(x)
  {
    var r := FindEntry(items, x.id);
    FindEntryIsFirst(items, x.id);
    var k :| 0 <= k < |items| && items[k] == r.value &&
             forall j :: 0 <= j < k ==> items[j].id != x.id;
    var i :| 0 <= i < |items| && items[i] == x;
    assert !(i < k);
    assert !(k < i);
  }

  lemma {:induction false} FindProductOfUnique(catalog: seq<Product>, p: Product)
    requires UniqueProductIds(catalog) && p in catalog
    ensures FindProduct(catalog, p.id) == Some(p)
  {
    var r := FindProduct(catalog, p.id);
    FindProductIsFirst(catalog, p.id);
    var k :| 0 <= k < |catalog| && catalog[k] == r.value &&
             forall j :: 0 <= j < k ==> catalog[j].id != p.id;
    var i :| 0 <= i < |catalog| && catalog[i] == p;
    assert !(i < k);
    assert !(k < i);
  }

  /** With at most one entry per id and one product per id, the home page and
      the cart page show the same lines (in their own orders). */
  lemma JoinsAgreeOnLines(items: seq<CartItem>, catalog: seq<Product>)
    requires UniqueIds(items) && UniqueProductIds(catalog)
    ensures forall l :: l in JoinInCartOrder(items, catalog) <==> l in JoinInCatalogOrder(catalog, items)
  {
    var a := JoinInCartOrder(items, catalog);
    var b := JoinInCatalogOrder(catalog, items);
    forall l | l in a ensures l in b {
      var x := CartItem(l.product.id, l.quantity);
      FindEntryOfUnique(items, x);
    }
    forall l | l in b ensures l in a {
      FindProductOfUnique(catalog, l.product);
      var x := CartItem(l.product.id, l.quantity);
      assert x in items;
    }
  }

  /** A product used in the examples below. */
  function SampleProduct(id: int, price: real): Product
  {
    Product(id, "Tee", price, "", "", [], [], 4.5, 10)
  }

  /** Without unique ids the joins differ: two entries for one product give
      two cart-order lines but a single catalog-order line, and the
      catalog-order line takes the first entry's quantity. */
  lemma JoinsDifferOnDuplicateEntries()
    ensures var catalog := [SampleProduct(1, 20.0)];
            var items := [CartItem(1, 2), CartItem(1, 5)];
            JoinInCartOrder(items, catalog)
              == [CartProduct(catalog[0], 2), CartProduct(catalog[0], 5)] &&
            JoinInCatalogOrder(catalog, items) == [CartProduct(catalog[0], 2)]
  {
  }

  /** The joins order their lines differently. */
  lemma JoinsDifferInOrder()
    ensures var catalog := [SampleProduct(1, 20.0), SampleProduct(2, 5.0)];
            var items := [CartItem(2, 1), CartItem(1, 1)];
            JoinInCartOrder(items, catalog)
              == [CartProduct(catalog[1], 1), CartProduct(catalog[0], 1)] &&
            JoinInCatalogOrder(catalog, items)
              == [CartProduct(catalog[0], 1), CartProduct(catalog[1], 1)]
  {
  }
}
