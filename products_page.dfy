/** The storefront product list: category buttons built from the loaded
    products, a case-insensitive search over title and description, a
    category filter in which "" and "all" mean every category, and a grid
    shown only once the products have loaded. */
module ProductsPage {
  import opened RequestStatus
  import opened Text
  import opened Seqs
  import opened Catalog

  const ALL: string := "all"

  /** The category buttons: "all" followed by each product category once,
      in order of first appearance. */
  function CategoryButtons(products: seq<Product>): (r: seq<string>)
    ensures |r| >= 1 && r[0] == ALL
    ensures forall c :: c in r[1..] <==> exists i :: 0 <= i < |products| && products[i].category == c
    ensures NoDuplicates(r[1..])
    ensures forall i, j :: 1 <= i < j < |r| ==>
      IndexOf(CategoryList(products), r[i]) < IndexOf(CategoryList(products), r[j])
  {
    var cats := CategoryList(products);
    var d := Distinct(cats);
    assert ([ALL] + d)[1..] == d;
    assert forall c :: c in cats <==> exists i :: 0 <= i < |products| && products[i].category == c by {
      forall c ensures c in cats <==> exists i :: 0 <= i < |products| && products[i].category == c {
        if c in cats {
          var i :| 0 <= i < |cats| && cats[i] == c;
          assert products[i].category == c;
        }
      }
    }
    [ALL] + d
  }

  /** The title or the description contains the term, ignoring case. */
  predicate MatchesSearch(p: Product, term: string)
  {
    IncludesIgnoringCase(p.title, term) || IncludesIgnoringCase(p.description, term)
  }

  /** No category chosen ("" or "all"), or the product's own category. */
  predicate MatchesCategory(p: Product, selected: string)
  {
    selected == "" || selected == ALL || p.category == selected
  }

  predicate Shown(p: Product, term: string, selected: string)
  {
    MatchesSearch(p, term) && MatchesCategory(p, selected)
  }

  /** `filteredProducts`: the products passing both tests, in list order. */
  function FilteredProducts(products: seq<Product>, term: string, selected: string): (r: seq<Product>)
    ensures |r| <= |products|
    ensures forall p :: p in r <==> p in products && MatchesSearch(p, term) && MatchesCategory(p, selected)
  {
    FilterMembers(products, (p: Product) => Shown(p, term, selected));
    Filter(products, (p: Product) => Shown(p, term, selected))
  }

  /** With an empty search and no category every product is shown. */
  lemma NoFilterKeepsAll(products: seq<Product>)
    ensures FilteredProducts(products, "", "") == products
  {
    forall i | 0 <= i < |products| ensures Shown(products[i], "", "") {
      EmptyTermMatches(products[i].title);
    }
    FilterKeepsAll(products, (p: Product) => Shown(p, "", ""));
  }

  /** Filtering keeps the products' relative order: the list filtered in two
      parts is the two filtered parts in sequence. */
  lemma FilterKeepsOrder(a: seq<Product>, b: seq<Product>, term: string, selected: string)
    ensures FilteredProducts(a + b, term, selected) ==
            FilteredProducts(a, term, selected) + FilteredProducts(b, term, selected)
  {
    FilterAppend(a, b, (p: Product) => Shown(p, term, selected));
  }

  /** "all" and "" select the same products. */
  lemma AllMeansNoCategory(products: seq<Product>, term: string)
    ensures FilteredProducts(products, term, ALL) == FilteredProducts(products, term, "")
  {
    SameFilter(products, term, ALL, "");
  }

  lemma {:induction false} SameFilter(products: seq<Product>, term: string, s1: string, s2: string)
    requires forall p :: MatchesCategory(p, s1) == MatchesCategory(p, s2)
    ensures FilteredProducts(products, term, s1) == FilteredProducts(products, term, s2)
  {
    if products != [] {
      SameFilter(products[1..], term, s1, s2);
    }
  }

  /** A product can always be found by its own title. */
  lemma FoundByOwnTitle(p: Product)
    ensures MatchesSearch(p, p.title)
  {
    IncludesItself(Lower(p.title));
  }

  /** The category a button stores: "all" stores "", any other button its
      own category. */
  function ChooseCategory(button: string): (selected: string)
    ensures button == ALL ==> selected == ""
    ensures button != ALL ==> selected == button
  {
    if button == ALL then "" else button
  }

  /** The highlighted button: "all" while nothing is chosen, otherwise the
      button equal to the stored category. */
  predicate IsHighlighted(button: string, selected: string)
  {
    (button == ALL && selected == "") || selected == button
  }

  /** Choosing a (non-empty) button highlights exactly that button. */
  lemma ChoiceHighlightsItself(chosen: string, button: string)
    requires chosen != "" && button != ""
    ensures IsHighlighted(button, ChooseCategory(chosen)) <==> button == chosen
  {
  }

  /** A product with the empty category gets a "" button, and choosing it
      stores the same "" that "all" stores: whichever of the two is chosen,
      both are highlighted, and no other button is. */
  lemma EmptyChoiceHighlightsBoth(chosen: string, button: string)
    requires chosen == ALL || chosen == ""
    ensures ChooseCategory(chosen) == ""
    ensures IsHighlighted(button, ChooseCategory(chosen)) <==> button == ALL || button == ""
  {
  }

  /** Choosing a category button shows exactly the matching products of that
      category; choosing "all" shows every matching product. */
  lemma ChoiceFilters(products: seq<Product>, term: string, chosen: string, p: Product)
    ensures chosen != ALL && chosen != "" ==>
      (p in FilteredProducts(products, term, ChooseCategory(chosen)) <==>
       p in products && MatchesSearch(p, term) && p.category == chosen)
    ensures chosen == ALL ==>
      (p in FilteredProducts(products, term, ChooseCategory(chosen)) <==> p in products && MatchesSearch(p, term))
  {
  }

  /** What the grid lists: nothing unless the products have loaded. */
  function GridProducts(status: Status, products: seq<Product>, term: string, selected: string): (r: seq<Product>)
    ensures status != Succeeded ==> r == []
    ensures status == Succeeded ==> forall p :: p in r <==> p in products && Shown(p, term, selected)
  {
    if status == Succeeded then FilteredProducts(products, term, selected) else []
  }
}
