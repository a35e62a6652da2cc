/** The stock tab (stok_w.py): the product list ordered by shelf life, one framed row
    per product, red for products that keep fewer than 60 days. */
module Stock {

  /** A products row as the stock tab shows it. The shelf_life column is an Integer
      count of days. */
  datatype StockItem = StockItem(
    id: int, name: string, brand: string, category: string,
    price: real, stockQuantity: int, shelfLife: int)

  /** The two style sheets of get_style_for_product: the red warning frame and the
      normal green one. */
  datatype Style = Warning | Normal

  /** One QFrame of the list: the product it describes and its style sheet. */
  datatype Frame = Frame(item: StockItem, style: Style)

  /** An entry of the scroll layout: a product frame, or the stretch added after them. */
  datatype LayoutItem = FrameItem(frame: Frame) | Stretch

  /** Products that keep fewer days than this get the warning style. */
  const WarningShelfLife := 60

  /** get_style_for_product (the `today` argument it receives is not used by the rule). */
  function StyleFor(p: StockItem): (s: Style)
    ensures s == Warning <==> p.shelfLife < WarningShelfLife
  {
    if p.shelfLife < WarningShelfLife then Warning else Normal
  }

  /** A product that keeps no longer than a flagged one is flagged too. */
  lemma StyleMonotone(p: StockItem, q: StockItem)
    requires p.shelfLife <= q.shelfLife
    ensures StyleFor(q) == Warning ==> StyleFor(p) == Warning
    ensures StyleFor(p) == Normal ==> StyleFor(q) == Normal
  {
  }

  /** The product list is in non-decreasing shelf-life order. */
  predicate ShelfSorted(s: seq<StockItem>) {
    forall i, j :: 0 <= i < j < |s| ==> s[i].shelfLife <= s[j].shelfLife
  }

  /** Exchanges a[j - 1] and a[j]. */
  method SwapDown(a: array<StockItem>, j: int)
    requires 0 < j < a.Length
    modifies a
    ensures a[..] == old(a[..])[j - 1 := old(a[j])][j := old(a[j - 1])]
    ensures multiset(a[..]) == multiset(old(a[..]))
  {
    a[j - 1], a[j] := a[j], a[j - 1];
  }

  /** Moves a[i] down past every larger shelf life before it, so that a[..i + 1] is
      sorted once a[..i] is. */
  method InsertDown(a: array<StockItem>, i: int)
    requires 0 <= i < a.Length
    requires ShelfSorted(a[..i])
    modifies a
    ensures ShelfSorted(a[..i + 1])
    ensures multiset(a[..]) == multiset(old(a[..]))
  {
    var j := i;
    while j > 0 && a[j - 1].shelfLife > a[j].shelfLife
      invariant 0 <= j <= i
      invariant forall k, l :: 0 <= k < l <= i && l != j ==> a[k].shelfLife <= a[l].shelfLife
      invariant multiset(a[..]) == multiset(old(a[..]))
    {
      SwapDown(a, j);
      j := j - 1;
    }
  }

  /** Line 56: products.sort(key=lambda p: p.shelf_life), in place. */
  method SortByShelfLife(a: array<StockItem>)
    modifies a
    ensures ShelfSorted(a[..])
    ensures multiset(a[..]) == multiset(old(a[..]))
  {
    var i := 0;
    while i < a.Length
      invariant 0 <= i <= a.Length
      invariant ShelfSorted(a[..i])
      invariant multiset(a[..]) == multiset(old(a[..]))
    {
      InsertDown(a, i);
      i := i + 1;
    }
    assert a[..] == a[..a.Length];
  }

  /** The frame built for a product in the loop of load_products. */
  function FrameFor(p: StockItem): (f: Frame)
    ensures f.item == p && f.style == StyleFor(p)
  {
    Frame(p, StyleFor(p))
  }

  /** The layout entries for a product list: one frame per product, in list order. */
  function FrameItems(ps: seq<StockItem>): (items: seq<LayoutItem>)
    ensures |items| == |ps|
    ensures forall i :: 0 <= i < |ps| ==> items[i] == FrameItem(FrameFor(ps[i]))
  {
    seq(|ps|, i requires 0 <= i < |ps| => FrameItem(FrameFor(ps[i])))
  }

  /** The products a layout shows, in the order of their frames. */
  function Shown(items: seq<LayoutItem>): seq<StockItem> {
    if items == [] then []
    else
      var init := Shown(items[..|items| - 1]);
      match items[|items| - 1]
      case FrameItem(f) => init + [f.item]
      case Stretch => init
  }

  /** Reading the products back from their frames gives the list the frames were built from. */
  lemma {:induction false} ShownFrameItems(ps: seq<StockItem>)
    ensures Shown(FrameItems(ps)) == ps
    ensures Shown(FrameItems(ps) + [Stretch]) == ps
  {
    if ps != [] {
      var init := ps[..|ps| - 1];
      ShownFrameItems(init);
      assert FrameItems(ps)[..|ps| - 1] == FrameItems(init);
    }
    assert (FrameItems(ps) + [Stretch])[..|ps|] == FrameItems(ps);
  }

  /** In a sorted list the warning frames come first: once a frame is normal, every
      frame after it is normal as well. */
  lemma WarningsFirst(ps: seq<StockItem>, i: int, j: int)
    requires ShelfSorted(ps)
    requires 0 <= i < j < |ps|
    ensures FrameFor(ps[j]).style == Warning ==> FrameFor(ps[i]).style == Warning
  {
    StyleMonotone(ps[i], ps[j]);
  }

  /** Sorting loses and adds no product, so a product is flagged on the screen exactly
      when it is flagged in the query result. */
  lemma FlaggedProductsKept(query: seq<StockItem>, ps: seq<StockItem>, p: StockItem)
    requires multiset(ps) == multiset(query)
    ensures (p in ps && StyleFor(p) == Warning) <==> (p in query && p.shelfLife < WarningShelfLife)
  {
    assert p in ps <==> p in multiset(ps);
    assert p in query <==> p in multiset(query);
  }

  /** StokWidget: the entries of its scroll layout. */
  class StockWidget {
    var layout: seq<LayoutItem>

    /** __init__: an empty scroll layout, then load_products on the query result. */
    constructor(query: seq<StockItem>)
      ensures ShelfSorted(Shown(layout)) && multiset(Shown(layout)) == multiset(query)
      ensures layout == FrameItems(Shown(layout)) + [Stretch]
    {
      layout := [];
      new;
      var products := LoadProducts(query);
      assert layout == FrameItems(products) + [Stretch];
      ShownFrameItems(products);
    }

    /** load_products: sort the queried products by shelf life, add one styled frame per
        product in that order, then the stretch. `query` is the result of
        session.query(Product).all(). */
    method LoadProducts(query: seq<StockItem>) returns (products: seq<StockItem>)
      modifies this
      ensures ShelfSorted(products) && multiset(products) == multiset(query)
      ensures layout == old(layout) + FrameItems(products) + [Stretch]
    {
      var a := new StockItem[|query|](i requires 0 <= i < |query| => query[i]);
      assert a[..] == query;
      SortByShelfLife(a);
      products := a[..];
      var k := 0;
      while k < |products|
        invariant 0 <= k <= |products|
        invariant layout == old(layout) + FrameItems(products[..k])
      {
        assert FrameItems(products[..k + 1]) == FrameItems(products[..k]) + [FrameItem(FrameFor(products[k]))];
        layout := layout + [FrameItem(FrameFor(products[k]))];
        k := k + 1;
      }
      assert products[..k] == products;
      layout := layout + [Stretch];
    }
  }
}
