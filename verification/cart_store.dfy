/** The cart as it is kept in browser storage under the key "cart", and the
    three page-specific loaders that turn the parsed value back into entries.
    Reading the key and `JSON.parse` are not modelled: their outcome is the
    input `Stored`. */
module CartStore {
  import opened CartTypes
  import opened CartList

  /** One element of a stored array, classified as the loaders see it. */
  datatype Elem =
    | Num(n: int)            // `typeof` is "number": a legacy bare product id
    | Entry(item: CartItem)  // an object with a numeric id and quantity
    | OtherObject            // any other value whose `typeof` is "object": null, an array, a foreign object
    | OtherScalar            // a string or a boolean

  /** The outcome of reading and parsing the stored cart. */
  datatype Stored =
    | Absent                 // no key, or an empty string: both are falsy
    | Unparsable             // `JSON.parse` threw
    | Array(elems: seq<Elem>)
    | NotArray               // a number, string, boolean, null or object

  /** What a page holds as its cart after loading: entries, or a value that is
      not a list of cart entries (the page is not followed past that point). */
  datatype Load = Loaded(items: seq<CartItem>) | IllTyped

  /** What a save effect does to storage. */
  datatype Write = Keep | Put(items: seq<CartItem>) | Erase

  predicate IsObject(e: Elem)
  {
    e.Entry? || e.OtherObject?
  }

  /** The stored form of an entry list, as `JSON.stringify` writes it and
      `JSON.parse` reads it back. */
  function Encode(items: seq<CartItem>): (s: Stored)
    ensures s.Array? && |s.elems| == |items|
    ensures forall i :: 0 <= i < |items| ==> s.elems[i] == Entry(items[i])
  {
    Array(seq(|items|, i requires 0 <= i < |items| => Entry(items[i])))
  }

  /** The legacy stored form: a bare array of product ids. */
  function LegacyBlob(ids: seq<int>): (s: Stored)
    ensures s.Array? && |s.elems| == |ids|
    ensures forall i :: 0 <= i < |ids| ==> s.elems[i] == Num(ids[i])
  {
    Array(seq(|ids|, i requires 0 <= i < |ids| => Num(ids[i])))
  }

  /** Every element is a cart entry. */
  predicate AllEntries(es: seq<Elem>)
  {
    forall i :: 0 <= i < |es| ==> es[i].Entry?
  }

  /** Every element is a number: a legacy array of ids. */
  predicate AllNums(es: seq<Elem>)
  {
    forall i :: 0 <= i < |es| ==> es[i].Num?
  }

  /** An array taken as-is: a cart exactly when every element is an entry. */
  function AsCartItems(es: seq<Elem>): (r: Load)
    ensures r.Loaded? <==> AllEntries(es)
    ensures r.Loaded? ==> |r.items| == |es| &&
                          forall i :: 0 <= i < |es| ==> r.items[i] == es[i].item
  {
    if es == [] then Loaded([])
    else if !es[0].Entry? then IllTyped
    else
      var rest := AsCartItems(es[1..]);
      assert forall i :: 1 <= i < |es| ==> es[1..][i - 1] == es[i];
      match rest
      case IllTyped => IllTyped
      case Loaded(tail) => Loaded([es[0].item] + tail)
  }

  /** `parsed.map((id) => ({ id, quantity: 1 }))`: a cart exactly when every
      element is a number. */
  function UpgradeLegacy(es: seq<Elem>): (r: Load)
    ensures r.Loaded? <==> AllNums(es)
    ensures r.Loaded? ==> |r.items| == |es| &&
                          forall i :: 0 <= i < |es| ==> r.items[i] == CartItem(es[i].n, 1)
  {
    if es == [] then Loaded([])
    else if !es[0].Num? then IllTyped
    else
      var rest := UpgradeLegacy(es[1..]);
      assert forall i :: 1 <= i < |es| ==> es[1..][i - 1] == es[i];
      match rest
      case IllTyped => IllTyped
      case Loaded(tail) => Loaded([CartItem(es[0].n, 1)] + tail)
  }

  /** The cart page's loader: a non-empty array whose first element is a
      number is upgraded; anything else that parses is taken as-is; a missing
      or unparsable value leaves the initial empty cart. */
  function LoadForCartPage(s: Stored): (r: Load)
    ensures s.Absent? || s.Unparsable? ==> r == Loaded([])
    ensures r.Loaded? <==>
              !s.NotArray? && (s.Array? ==> AllEntries(s.elems) || (|s.elems| > 0 && AllNums(s.elems)))
  {
    match s
    case Absent => Loaded([])
    case Unparsable => Loaded([])
    case NotArray => IllTyped
    case Array(es) =>
      if |es| > 0 && es[0].Num? then UpgradeLegacy(es) else AsCartItems(es)
  }

  /** The home page's loader: only a non-empty array is used; it is taken
      as-is when its first element is an object and upgraded when it is a
      number; everything else leaves the initial empty cart. */
  function LoadForHomePage(s: Stored): (r: Load)
    ensures !s.Array? ==> r == Loaded([])
    ensures s.Array? && (|s.elems| == 0 || s.elems[0].OtherScalar?) ==> r == Loaded([])
    ensures r.Loaded? <==>
              !s.Array? || |s.elems| == 0 || s.elems[0].OtherScalar? ||
              AllEntries(s.elems) || AllNums(s.elems)
  {
    match s
    case Array(es) =>
      if |es| > 0 && IsObject(es[0]) then AsCartItems(es)
      else if |es| > 0 && es[0].Num? then UpgradeLegacy(es)
      else Loaded([])
    case _ => Loaded([])
  }

  /** The checkout page's loader: whatever parses is taken as-is. */
  function LoadForCheckout(s: Stored): (r: Load)
    ensures s.Absent? || s.Unparsable? ==> r == Loaded([])
    ensures r.Loaded? <==> !s.NotArray? && (s.Array? ==> AllEntries(s.elems))
    ensures s.Array? && r.Loaded? ==> |r.items| == |s.elems|
  {
    match s
    case Absent => Loaded([])
    case Unparsable => Loaded([])
    case NotArray => IllTyped
    case Array(es) => AsCartItems(es)
  }

  /** Storage after a write. */
  function Apply(w: Write, s: Stored): Stored
  {
    match w
    case Keep => s
    case Put(items) => Encode(items)
    case Erase => Absent
  }

  /** The cart page's save effect: nothing is written while loading. */
  function CartPageSave(loading: bool, items: seq<CartItem>): (w: Write)
    ensures loading ==> w.Keep?
    ensures !loading ==> w == Put(items)
  {
    if loading then Keep else Put(items)
  }

  /** The home page's save effect: every state is written, the initial empty
      one included. */
  function HomePageSave(items: seq<CartItem>): (w: Write)
    ensures w == Put(items)
  {
    Put(items)
  }

  // ---------------------------------------------------------------------
  // Properties

  /** Every page reads back exactly the entries that were saved. */
  lemma SavedCartReloads(items: seq<CartItem>)
    ensures LoadForCartPage(Encode(items)) == Loaded(items)
    ensures LoadForHomePage(Encode(items)) == Loaded(items)
    ensures LoadForCheckout(Encode(items)) == Loaded(items)
  {
  }

  /** The loaders do not check quantities: a stored entry holding no units
      is loaded as it is, on every page. */
  lemma UncheckedQuantityLoads(q: int)
    ensures var items := [CartItem(1, q)];
            LoadForCartPage(Encode(items)) == Loaded(items) &&
            LoadForHomePage(Encode(items)) == Loaded(items) &&
            LoadForCheckout(Encode(items)) == Loaded(items)
  {
    SavedCartReloads([CartItem(1, q)]);
  }

  /** Whatever state the home page saves, every page reads it back. */
  lemma HomePageSaveReloads(items: seq<CartItem>, s: Stored)
    ensures LoadForHomePage(Apply(HomePageSave(items), s)) == Loaded(items)
    ensures LoadForCartPage(Apply(HomePageSave(items), s)) == Loaded(items)
    ensures LoadForCheckout(Apply(HomePageSave(items), s)) == Loaded(items)
  {
    SavedCartReloads(items);
  }

  /** Nothing stored, or a value that does not parse, gives an empty cart on
      every page. */
  lemma MissingOrCorruptLoadsEmpty(s: Stored)
    requires s.Absent? || s.Unparsable?
    ensures LoadForCartPage(s) == Loaded([])
    ensures LoadForHomePage(s) == Loaded([])
    ensures LoadForCheckout(s) == Loaded([])
  {
  }

  /** A non-empty legacy array of ids becomes quantity-1 entries, in order, on
      the cart and home pages; the checkout page does not upgrade it. */
  lemma LegacyCartUpgraded(ids: seq<int>)
    requires |ids| > 0
    ensures var upgraded := Loaded(seq(|ids|, i requires 0 <= i < |ids| => CartItem(ids[i], 1)));
            LoadForCartPage(LegacyBlob(ids)) == upgraded &&
            LoadForHomePage(LegacyBlob(ids)) == upgraded
    ensures LoadForCheckout(LegacyBlob(ids)) == IllTyped
  {
  }

  /** The legacy value `[3, 7]` reads as two single-unit entries. */
  lemma LegacyExample()
    ensures LoadForCartPage(LegacyBlob([3, 7])) == Loaded([CartItem(3, 1), CartItem(7, 1)])
  {
    LegacyCartUpgraded([3, 7]);
  }

  /** The home loader accepts everything the cart-page loader accepts, and
      then agrees with it. */
  lemma HomeLoaderExtendsCartLoader(s: Stored)
    requires LoadForCartPage(s).Loaded?
    ensures LoadForHomePage(s) == LoadForCartPage(s)
  {
    if s.Array? && |s.elems| > 0 && !s.elems[0].Num? {
      assert s.elems[0].Entry?;
    }
  }

  /** The checkout loader accepts less than the cart-page loader, and agrees
      with it wherever it yields a cart. */
  lemma CheckoutLoaderAgreesWithCartLoader(s: Stored)
    requires LoadForCheckout(s).Loaded?
    ensures LoadForCartPage(s) == LoadForCheckout(s)
  {
    if s.Array? && |s.elems| > 0 {
      assert s.elems[0].Entry?;
    }
  }

  /** Where the loaders differ: a parsed value that is not an array empties
      the home page's cart but leaves a non-cart value on the other pages. */
  lemma NonArrayLoadsDiffer()
    ensures LoadForHomePage(NotArray) == Loaded([])
    ensures LoadForCartPage(NotArray) == IllTyped && LoadForCheckout(NotArray) == IllTyped
  {
  }

  /** While the cart page is loading its save leaves storage untouched; once
      loaded, storage holds exactly the current entries. */
  lemma CartPageSaveGated(s: Stored, items: seq<CartItem>)
    ensures Apply(CartPageSave(true, items), s) == s
    ensures LoadForCartPage(Apply(CartPageSave(false, items), s)) == Loaded(items)
  {
    SavedCartReloads(items);
  }

  /** The home page's save is not gated: its initial empty state overwrites
      whatever was stored. */
  lemma HomePageSaveUngated(s: Stored)
    ensures Apply(HomePageSave([]), s) == Array([])
    ensures LoadForHomePage(Apply(HomePageSave([]), s)) == Loaded([])
  {
  }

  /** Removing the key leaves an empty cart on every page. */
  lemma ErasedCartLoadsEmpty(s: Stored)
    ensures LoadForCartPage(Apply(Erase, s)) == Loaded([])
    ensures LoadForHomePage(Apply(Erase, s)) == Loaded([])
    ensures LoadForCheckout(Apply(Erase, s)) == Loaded([])
  {
  }

  /** The legacy upgrade yields entries of one unit each. */
  lemma UpgradedQuantitiesPositive(es: seq<Elem>)
    requires UpgradeLegacy(es).Loaded?
    ensures PositiveQuantities(UpgradeLegacy(es).items)
  {
    var items := UpgradeLegacy(es).items;
    forall x | x in items ensures x.quantity >= 1 {
      var i :| 0 <= i < |items| && items[i] == x;
    }
  }
}
