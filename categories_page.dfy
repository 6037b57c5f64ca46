/** The categories page: the loaded products grouped by category (groups in
    order of first appearance, products in list order within a group), an
    open/closed flag per category with the first category opened on the
    first render, a toggle per category header, and the table cells. */
module CategoriesPage {
  import opened Wrappers
  import opened RequestStatus
  import opened Seqs
  import opened Catalog

  /** The products of one category, in list order. */
  function Group(products: seq<Product>, c: string): (r: seq<Product>)
    ensures forall p :: p in r <==> p in products && p.category == c
  {
    FilterMembers(products, (p: Product) => p.category == c);
    Filter(products, (p: Product) => p.category == c)
  }

  /** Grouping a longer list extends each group in order. */
  lemma GroupAppend(a: seq<Product>, b: seq<Product>, c: string)
    ensures Group(a + b, c) == Group(a, c) + Group(b, c)
  {
    FilterAppend(a, b, (p: Product) => p.category == c);
  }

  /** Meeting one more product: the key list grows only when its category
      is new. */
  lemma KeysStep(products: seq<Product>, i: nat)
    requires i < |products|
    ensures var c := products[i].category; var before := Distinct(CategoryList(products[..i]));
      Distinct(CategoryList(products[..i + 1])) == if c in before then before else before + [c]
  {
    var s := CategoryList(products[..i + 1]);
    assert s[..|s| - 1] == CategoryList(products[..i]);
  }

  /** Meeting one more product: only its own category's group grows, by
      that product at the end. */
  lemma GroupStep(products: seq<Product>, i: nat, d: string)
    requires i < |products|
    ensures Group(products[..i + 1], d) ==
      Group(products[..i], d) + (if products[i].category == d then [products[i]] else [])
  {
    assert products[..i + 1] == products[..i] + [products[i]];
    GroupAppend(products[..i], [products[i]], d);
  }

  /** A category not met yet has an empty group. */
  lemma GroupOfUnseen(products: seq<Product>, c: string)
    requires c !in Distinct(CategoryList(products))
    ensures Group(products, c) == []
  {
    forall k | 0 <= k < |products| ensures products[k].category != c {
      assert CategoryList(products)[k] == products[k].category;
    }
    FilterDropsAll(products, (p: Product) => p.category == c);
  }

  /** After the first i products: the keys are their distinct categories
      in first-appearance order, and each key maps to its group. */
  ghost predicate GroupedUpTo(products: seq<Product>, i: nat, keys: seq<string>, groups: map<string, seq<Product>>)
    requires i <= |products|
  {
    keys == Distinct(CategoryList(products[..i])) &&
    (forall c :: c in groups <==> c in keys) &&
    (forall c :: c in groups ==> groups[c] == Group(products[..i], c))
  }

  /** One step of the `forEach` keeps the grouping exact. */
  lemma GroupedStep(products: seq<Product>, i: nat, keys: seq<string>, groups: map<string, seq<Product>>)
    requires i < |products| && GroupedUpTo(products, i, keys, groups)
    ensures var c := products[i].category;
      GroupedUpTo(products, i + 1,
        if c in groups then keys else keys + [c],
        groups[c := (if c in groups then groups[c] else []) + [products[i]]])
  {
    var c := products[i].category;
    KeysStep(products, i);
    if c !in groups {
      GroupOfUnseen(products[..i], c);
    }
    GroupsStep(products, i, groups);
  }

  /** The groups after one more product, given exact groups before it. */
  lemma GroupsStep(products: seq<Product>, i: nat, groups: map<string, seq<Product>>)
    requires i < |products|
    requires forall c :: c in groups ==> groups[c] == Group(products[..i], c)
    requires products[i].category !in groups ==> Group(products[..i], products[i].category) == []
    ensures var c := products[i].category;
      var groups' := groups[c := (if c in groups then groups[c] else []) + [products[i]]];
      forall d :: d in groups' ==> groups'[d] == Group(products[..i + 1], d)
  {
    var c := products[i].category;
    var groups' := groups[c := (if c in groups then groups[c] else []) + [products[i]]];
    forall d | d in groups' ensures groups'[d] == Group(products[..i + 1], d) {
      GroupStep(products, i, d);
    }
  }

  /** `categoriesMap` built by the `forEach`: a key is added the first time
      its category is met, and every product is pushed onto its category's
      list. `keys` is the map's key order. */
  method GroupByCategory(products: seq<Product>) returns (keys: seq<string>, groups: map<string, seq<Product>>)
    ensures keys == Distinct(CategoryList(products))
    ensures forall c :: c in groups <==> c in keys
    ensures forall c :: c in groups ==> groups[c] == Group(products, c)
  {
    keys := [];
    groups := map[];
    var i := 0;
    while i < |products|
      invariant 0 <= i <= |products|
      invariant GroupedUpTo(products, i, keys, groups)
    {
      var c := products[i].category;
      GroupedStep(products, i, keys, groups);
      var group := if c in groups then groups[c] else [];
      if c !in groups {
        keys := keys + [c];
      }
      groups := groups[c := group + [products[i]]];
      i := i + 1;
    }
    assert products[..i] == products;
  }

  /** Every product sits in the group of its own category and in no other. */
  lemma EachProductInItsGroup(products: seq<Product>, p: Product, c: string)
    requires p in products
    ensures p in Group(products, c) <==> c == p.category
  {
  }

  /** The first distinct category is the first product's category. */
  lemma {:induction false} FirstCategoryFirst(products: seq<Product>)
    requires |products| > 0
    ensures |Distinct(CategoryList(products))| > 0
    ensures Distinct(CategoryList(products))[0] == products[0].category
  {
    var s := CategoryList(products);
    var d := Distinct(s);
    assert s[0] in s;
    var k :| 0 <= k < |d| && d[k] == s[0];
  }

  /** Whether a category is open: a missing key reads as closed. */
  predicate IsOpen(open: map<string, bool>, c: string)
  {
    c in open && open[c]
  }

  /** The render-time effect: with products loaded and no open-state yet,
      exactly the first category is opened; otherwise nothing changes. */
  function OpenOnRender(open: map<string, bool>, products: seq<Product>): (r: map<string, bool>)
    ensures |products| > 0 && |open| == 0 ==>
      r.Keys == {products[0].category} && IsOpen(r, products[0].category)
    ensures !(|products| > 0 && |open| == 0) ==> r == open
  {
    if |products| > 0 && |open| == 0 then
      FirstCategoryFirst(products);
      map[Distinct(CategoryList(products))[0] := true]
    else open
  }

  /** `toggleCategory`: the category's flag becomes the negation of what
      it read, and a category never seen before becomes open. */
  function Toggle(open: map<string, bool>, c: string): (r: map<string, bool>)
    ensures IsOpen(r, c) <==> !IsOpen(open, c)
    ensures c !in open ==> IsOpen(r, c)
    ensures forall d :: d != c ==> (d in r <==> d in open) && (IsOpen(r, d) <==> IsOpen(open, d))
  {
    open[c := !IsOpen(open, c)]
  }

  /** Toggling twice restores every category's open state. */
  lemma ToggleTwice(open: map<string, bool>, c: string, d: string)
    ensures IsOpen(Toggle(Toggle(open, c), c), d) <==> IsOpen(open, d)
  {
  }

  /** The mount effect fetches only while the products are idle. */
  function ShouldFetch(status: Status): (fetch: bool)
    ensures fetch ==> status == Idle
    ensures status == Idle ==> fetch
  {
    status == Idle
  }

  /** The rating cell: the rate, or "N/A" when there is no rating or the
      rate is 0 (falsy). */
  datatype RateCell = Rate(value: real) | NotAvailable

  function RateCellOf(rating: Option<Rating>): (r: RateCell)
    ensures r.Rate? <==> rating.Some? && rating.value.rate != 0.0
    ensures r.Rate? ==> r.value == rating.value.rate
  {
    if rating.Some? && rating.value.rate != 0.0 then Rate(rating.value.rate) else NotAvailable
  }

  /** The rating count: the count, or 0 without a rating. */
  function CountCellOf(rating: Option<Rating>): (n: int)
    ensures rating.Some? ==> n == rating.value.count
    ensures rating.None? ==> n == 0
  {
    if rating.Some? then rating.value.count else 0
  }

  /** The stock cell: the `stock` value when the product has that key,
      otherwise "In Stock". */
  datatype StockCell = StockCount(n: int) | InStock

  function StockCellOf(p: Product): (r: StockCell)
    ensures p.stock.Some? ==> r == StockCount(p.stock.value)
    ensures p.stock.None? ==> r == InStock
  {
    if p.stock.Some? then StockCount(p.stock.value) else InStock
  }
}
