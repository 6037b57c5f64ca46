/** The breadcrumb trail of the top navigation bar. Every non-empty path
    segment other than "admin" gets a crumb; its link is rebuilt from the
    non-empty segments (including "admin") up to the FIRST occurrence of that
    segment, and its title is the capitalised segment, except that a numeric
    segment right after "products" is titled by the selected product. */
module TopNavBar {
  import opened Wrappers
  import opened Text
  import opened Seqs

  const ADMIN: string := "admin"
  const PRODUCTS: string := "products"
  const PRODUCT_PREFIX: string := "Product "
  const TITLE_LIMIT: nat := 30

  datatype Crumb = Crumb(path: string, title: string)

  predicate IsSegment(s: string) { s != "" && s != ADMIN }

  predicate NonEmpty(s: string) { s != "" }

  /** The segments that get a crumb, in path order. */
  function Segments(pathname: string): seq<string>
  {
    Filter(Split(pathname, '/'), IsSegment)
  }

  /** The crumb segments are exactly the non-empty pieces other than "admin". */
  lemma SegmentsMembers(pathname: string)
    ensures forall x :: x in Segments(pathname) <==> x in Split(pathname, '/') && x != "" && x != ADMIN
  {
    FilterMembers(Split(pathname, '/'), IsSegment);
  }

  /** The segments the links are built from: every non-empty one. */
  function PathSegments(pathname: string): seq<string>
  {
    Filter(Split(pathname, '/'), NonEmpty)
  }

  /** The link segments are exactly the non-empty pieces. */
  lemma PathSegmentsMembers(pathname: string)
    ensures forall x :: x in PathSegments(pathname) <==> x in Split(pathname, '/') && x != ""
  {
    FilterMembers(Split(pathname, '/'), NonEmpty);
  }

  /** "/" followed by each of the first n segments, separated by "/". */
  function PathUpTo(all: seq<string>, n: nat): string
    requires n <= |all|
  {
    if n == 0 then "" else PathUpTo(all, n - 1) + "/" + all[n - 1]
  }

  /** The link of the crumb for `segment`: the loop runs up to and including
      `pathSegments.indexOf(segment)`, so not past its first occurrence. */
  function CrumbPath(all: seq<string>, segment: string): string
  {
    PathUpTo(all, IndexOf(all, segment) + 1)
  }

  /** The crumb at `index` is a product crumb when it is numeric and follows
      "products" in the crumb segments. */
  predicate IsProductCrumb(segments: seq<string>, index: nat, numeric: string -> bool)
    requires index < |segments|
  {
    index > 0 && segments[index - 1] == PRODUCTS && numeric(segments[index])
  }

  /** The crumb title: the capitalised segment, or for a product crumb the
      selected product's title (or "Product <segment>" when there is none),
      cut to 30 characters plus "..." when longer. */
  function CrumbTitle(segments: seq<string>, index: nat, selectedTitle: Option<string>,
                      numeric: string -> bool): string
    requires index < |segments|
  {
    if IsProductCrumb(segments, index, numeric) then
      Truncate(if Truthy(selectedTitle) then selectedTitle.value else PRODUCT_PREFIX + segments[index], TITLE_LIMIT)
    else
      Capitalize(segments[index])
  }

  /** The crumb for the segment at `index`, given both segment lists. */
  function CrumbOf(segments: seq<string>, pathSegments: seq<string>, index: nat, selectedTitle: Option<string>,
                   numeric: string -> bool): Crumb
    requires index < |segments|
  {
    Crumb(CrumbPath(pathSegments, segments[index]), CrumbTitle(segments, index, selectedTitle, numeric))
  }

  /** One crumb per crumb segment, in order. */
  function CrumbsOf(segments: seq<string>, pathSegments: seq<string>, selectedTitle: Option<string>,
                    numeric: string -> bool): seq<Crumb>
  {
    seq(|segments|, index requires 0 <= index < |segments| =>
      CrumbOf(segments, pathSegments, index, selectedTitle, numeric))
  }

  /** `generateBreadcrumbs`. `numeric` stands for `!isNaN(Number(s))` and
      `selectedTitle` for `selectedProduct?.title`. A missing or empty
      pathname gives no crumbs; otherwise there is one crumb per segment. */
  function Breadcrumbs(pathname: Option<string>, selectedTitle: Option<string>, numeric: string -> bool)
    : (r: seq<Crumb>)
    ensures !Truthy(pathname) ==> r == []
    ensures Truthy(pathname) ==> |r| == |Segments(pathname.value)|
  {
    if !Truthy(pathname) then []
    else CrumbsOf(Segments(pathname.value), PathSegments(pathname.value), selectedTitle, numeric)
  }

  /** The loop that accumulates one crumb's link: `/` and a segment for every
      position up to the first occurrence of `segment`. */
  method AccumulatePath(pathSegments: seq<string>, segment: string) returns (path: string)
    ensures path == CrumbPath(pathSegments, segment)
  {
    path := "";
    var last := IndexOf(pathSegments, segment);
    var i := 0;
    while i <= last
      invariant 0 <= i <= last + 1
      invariant path == PathUpTo(pathSegments, i)
    {
      path := path + "/" + pathSegments[i];
      i := i + 1;
    }
  }

  /** One crumb's title as the component computes it, by reassigning one
      variable: the capitalised segment, replaced for a product crumb and
      then cut when too long. `CrumbTitle` is the same title as one
      expression, which the lemmas reason about; this method is proved
      equal to it. */
  method ComputeTitle(segments: seq<string>, index: nat, selectedTitle: Option<string>, numeric: string -> bool)
    returns (title: string)
    requires index < |segments|
    ensures title == CrumbTitle(segments, index, selectedTitle, numeric)
  {
    var segment := segments[index];
    title := Capitalize(segment);
    if index > 0 && segments[index - 1] == PRODUCTS && numeric(segment) {
      title := if Truthy(selectedTitle) then selectedTitle.value else PRODUCT_PREFIX + segment;
      if |title| > TITLE_LIMIT {
        title := title[..TITLE_LIMIT] + "...";
      }
    }
  }

  /** The component's computation step by step: a pass over the segments
      that builds each crumb's link and title. */
  method GenerateBreadcrumbs(pathname: Option<string>, selectedTitle: Option<string>, numeric: string -> bool)
    returns (crumbs: seq<Crumb>)
    ensures crumbs == Breadcrumbs(pathname, selectedTitle, numeric)
  {
    if !Truthy(pathname) {
      return [];
    }
    var segments := Segments(pathname.value);
    var pathSegments := PathSegments(pathname.value);
    crumbs := MapSegments(segments, pathSegments, selectedTitle, numeric);
  }

  /** The `segments.map` pass: each crumb's link and title in turn. */
  method MapSegments(segments: seq<string>, pathSegments: seq<string>, selectedTitle: Option<string>,
                     numeric: string -> bool)
    returns (crumbs: seq<Crumb>)
    ensures crumbs == CrumbsOf(segments, pathSegments, selectedTitle, numeric)
  {
    crumbs := [];
    var index := 0;
    while index < |segments|
      invariant 0 <= index <= |segments|
      invariant |crumbs| == index
      invariant forall j :: 0 <= j < index ==> crumbs[j] == CrumbOf(segments, pathSegments, j, selectedTitle, numeric)
    {
      var path := AccumulatePath(pathSegments, segments[index]);
      var title := ComputeTitle(segments, index, selectedTitle, numeric);
      crumbs := crumbs + [Crumb(path, title)];
      index := index + 1;
    }
  }

  /** Titles: an ordinary crumb shows its segment capitalised and of the same
      length; a product crumb never exceeds 33 characters, and without a
      selected title it reads "Product <segment>" when that fits. */
  lemma CrumbTitles(pathname: string, selectedTitle: Option<string>, numeric: string -> bool, i: nat)
    requires pathname != "" && i < |Segments(pathname)|
    ensures var segments := Segments(pathname);
      var title := Breadcrumbs(Some(pathname), selectedTitle, numeric)[i].title;
      (!IsProductCrumb(segments, i, numeric) ==>
        title == Capitalize(segments[i]) && |title| == |segments[i]|) &&
      (IsProductCrumb(segments, i, numeric) ==> |title| <= TITLE_LIMIT + 3) &&
      (IsProductCrumb(segments, i, numeric) && Truthy(selectedTitle) ==>
        title == Truncate(selectedTitle.value, TITLE_LIMIT)) &&
      (IsProductCrumb(segments, i, numeric) && !Truthy(selectedTitle) &&
       |PRODUCT_PREFIX + segments[i]| <= TITLE_LIMIT
       ==> title == PRODUCT_PREFIX + segments[i])
  {
  }

  /** Two crumbs for the same segment link to the same place: the link
      stops at the first occurrence. */
  lemma RepeatedSegmentsSharePath(pathname: string, selectedTitle: Option<string>, numeric: string -> bool,
                                  i: nat, j: nat)
    requires pathname != ""
    requires i < |Segments(pathname)| && j < |Segments(pathname)|
    requires Segments(pathname)[i] == Segments(pathname)[j]
    ensures Breadcrumbs(Some(pathname), selectedTitle, numeric)[i].path ==
            Breadcrumbs(Some(pathname), selectedTitle, numeric)[j].path
  {
  }

  /** The accumulated link is the slash-joined prefix of the segments. */
  lemma {:induction false} PathUpToIsJoin(all: seq<string>, n: nat)
    requires 1 <= n <= |all|
    ensures PathUpTo(all, n) == "/" + Join(all[..n], '/')
  {
    if n > 1 {
      PathUpToIsJoin(all, n - 1);
      JoinSnoc(all[..n - 1], all[n - 1], '/');
      assert all[..n - 1] + [all[n - 1]] == all[..n];
    }
  }

  /** Joining one more piece appends the separator and the piece. */
  lemma {:induction false} JoinSnoc(parts: seq<string>, x: string, sep: char)
    requires |parts| >= 1
    ensures Join(parts + [x], sep) == Join(parts, sep) + [sep] + x
    decreases |parts|
  {
    if |parts| == 1 {
      assert (parts + [x])[1..] == [x];
    } else {
      JoinSnoc(parts[1..], x, sep);
      assert (parts + [x])[1..] == parts[1..] + [x];
    }
  }

  /** A join of a longer list starts with the join of its prefix followed by
      the separator. */
  lemma {:induction false} JoinPrefix(parts: seq<string>, n: nat, sep: char)
    requires 1 <= n < |parts|
    ensures StartsWith(Join(parts, sep), Join(parts[..n], sep) + [sep])
    decreases |parts|
  {
    if n == 1 {
      assert parts[..1] == [parts[0]];
    } else {
      JoinPrefix(parts[1..], n - 1, sep);
      assert parts[1..][..n - 1] == parts[..n][1..];
      assert Join(parts[..n], sep) == parts[0] + [sep] + Join(parts[..n][1..], sep);
    }
  }

  /** A well-formed pathname ("/" then non-empty, slash-free segments joined
      by single slashes) splits back into exactly its segments. */
  lemma WellFormedSplit(parts: seq<string>)
    requires |parts| >= 1
    requires forall k :: 0 <= k < |parts| ==> parts[k] != "" && '/' !in parts[k]
    ensures Split("/" + Join(parts, '/'), '/') == [""] + parts
  {
    var all := [""] + parts;
    assert all[1..] == parts;
    assert Join(all, '/') == "/" + Join(parts, '/');
    SplitJoin(all, '/');
  }

  /** The link segments of a well-formed pathname are its segments. */
  lemma WellFormedPathSegments(parts: seq<string>)
    requires |parts| >= 1
    requires forall k :: 0 <= k < |parts| ==> parts[k] != "" && '/' !in parts[k]
    ensures PathSegments("/" + Join(parts, '/')) == parts
  {
    WellFormedSplit(parts);
    assert ([""] + parts)[1..] == parts;
    FilterKeepsAll(parts, NonEmpty);
  }

  /** Without an "admin" segment, the crumb segments are the segments too. */
  lemma WellFormedSegments(parts: seq<string>)
    requires |parts| >= 1
    requires forall k :: 0 <= k < |parts| ==> parts[k] != "" && '/' !in parts[k] && parts[k] != ADMIN
    ensures Segments("/" + Join(parts, '/')) == parts
  {
    WellFormedSplit(parts);
    assert ([""] + parts)[1..] == parts;
    FilterKeepsAll(parts, IsSegment);
  }

  /** A prefix followed by more text stays a prefix under a leading slash. */
  lemma SlashPrefix(s: string, p: string, c: char)
    requires StartsWith(s, p + [c])
    ensures StartsWith("/" + s, "/" + p)
  {
    var pc := p + [c];
    assert s[..|p|] == s[..|pc|][..|p|];
    assert pc[..|p|] == p;
    assert ("/" + s)[..|p| + 1] == "/" + s[..|p|];
  }

  /** A suffix stays a suffix under a leading slash. */
  lemma SlashSuffix(p: string, x: string)
    requires |x| <= |p| && p[|p| - |x|..] == x
    ensures var q := "/" + p; |x| <= |q| && q[|q| - |x|..] == x
  {
    var q := "/" + p;
    assert q[|q| - |x|..] == p[|p| - |x|..];
  }

  /** The slash-joined first k + 1 segments, after a slash, are a prefix of
      the pathname. */
  lemma JoinedPrefix(parts: seq<string>, k: nat)
    requires k < |parts|
    ensures StartsWith("/" + Join(parts, '/'), "/" + Join(parts[..k + 1], '/'))
  {
    if k + 1 < |parts| {
      JoinedProperPrefix(parts, k + 1);
    } else {
      assert parts[..k + 1] == parts;
      SelfPrefix("/" + Join(parts, '/'));
    }
  }

  /** The same for fewer than all the segments. */
  lemma JoinedProperPrefix(parts: seq<string>, n: nat)
    requires 1 <= n < |parts|
    ensures StartsWith("/" + Join(parts, '/'), "/" + Join(parts[..n], '/'))
  {
    JoinPrefix(parts, n, '/');
    SlashPrefix(Join(parts, '/'), Join(parts[..n], '/'), '/');
  }

  lemma SelfPrefix(s: string)
    ensures StartsWith(s, s)
  {
    assert s[..|s|] == s;
  }

  /** The slash-joined first k + 1 segments, after a slash, start with the
      slash and end with segment k. */
  lemma JoinedEnds(parts: seq<string>, k: nat)
    requires k < |parts|
    ensures var q := "/" + Join(parts[..k + 1], '/');
      StartsWith(q, "/") && |parts[k]| <= |q| && q[|q| - |parts[k]|..] == parts[k]
  {
    var prefix := parts[..k + 1];
    assert prefix[k] == parts[k];
    JoinSnocEnds(prefix, '/');
    SlashSuffix(Join(prefix, '/'), parts[k]);
  }

  /** The link accumulated up to position k is a prefix of the pathname and
      ends with the segment at k. */
  lemma PathUpToIsPrefix(parts: seq<string>, k: nat)
    requires k < |parts|
    ensures var path := PathUpTo(parts, k + 1);
      StartsWith("/" + Join(parts, '/'), path) && StartsWith(path, "/") &&
      |parts[k]| <= |path| && path[|path| - |parts[k]|..] == parts[k]
  {
    PathUpToIsJoin(parts, k + 1);
    JoinedPrefix(parts, k);
    JoinedEnds(parts, k);
  }

  /** For a well-formed pathname every crumb links to a prefix of the
      pathname that ends with the crumb's own segment. */
  lemma CrumbPathsArePrefixes(parts: seq<string>, selectedTitle: Option<string>, numeric: string -> bool, i: nat)
    requires |parts| >= 1
    requires forall k :: 0 <= k < |parts| ==> parts[k] != "" && '/' !in parts[k]
    requires i < |Segments("/" + Join(parts, '/'))|
    ensures var pathname := "/" + Join(parts, '/');
      var c := Breadcrumbs(Some(pathname), selectedTitle, numeric)[i];
      StartsWith(pathname, c.path) && StartsWith(c.path, "/") &&
      c.path[|c.path| - |Segments(pathname)[i]|..] == Segments(pathname)[i]
  {
    var pathname := "/" + Join(parts, '/');
    WellFormedPathSegments(parts);
    SegmentsMembers(pathname);
    PathSegmentsMembers(pathname);
    var segment := Segments(pathname)[i];
    assert segment in Segments(pathname);
    assert segment in parts;
    var k := IndexOf(parts, segment);
    assert Breadcrumbs(Some(pathname), selectedTitle, numeric)[i].path == PathUpTo(parts, k + 1);
    PathUpToIsPrefix(parts, k);
  }

  /** A join ends with its last piece. */
  lemma {:induction false} JoinSnocEnds(parts: seq<string>, sep: char)
    requires |parts| >= 1
    ensures var j := Join(parts, sep);
      |parts[|parts| - 1]| <= |j| && j[|j| - |parts[|parts| - 1]|..] == parts[|parts| - 1]
    decreases |parts|
  {
    if |parts| > 1 {
      JoinSnocEnds(parts[1..], sep);
    }
  }

  /** On a well-formed pathname without "admin", crumb i links to the
      segments up to the first occurrence of segment i. */
  lemma WellFormedCrumbPath(parts: seq<string>, selectedTitle: Option<string>, numeric: string -> bool, i: nat)
    requires |parts| >= 1 && i < |parts|
    requires forall k :: 0 <= k < |parts| ==> parts[k] != "" && '/' !in parts[k] && parts[k] != ADMIN
    ensures var b := Breadcrumbs(Some("/" + Join(parts, '/')), selectedTitle, numeric);
      |b| == |parts| && b[i].path == PathUpTo(parts, IndexOf(parts, parts[i]) + 1)
  {
    WellFormedBreadcrumbs(parts, selectedTitle, numeric);
    assert CrumbsOf(parts, parts, selectedTitle, numeric)[i] == CrumbOf(parts, parts, i, selectedTitle, numeric);
  }

  /** On a well-formed pathname without "admin", both segment lists are the
      pathname's pieces. */
  lemma WellFormedBreadcrumbs(parts: seq<string>, selectedTitle: Option<string>, numeric: string -> bool)
    requires |parts| >= 1
    requires forall k :: 0 <= k < |parts| ==> parts[k] != "" && '/' !in parts[k] && parts[k] != ADMIN
    ensures Breadcrumbs(Some("/" + Join(parts, '/')), selectedTitle, numeric) == CrumbsOf(parts, parts, selectedTitle, numeric)
  {
    WellFormedPathSegments(parts);
    WellFormedSegments(parts);
  }

  /** Each accumulated segment lengthens the link. */
  lemma {:induction false} PathUpToGrows(all: seq<string>, m: nat, n: nat)
    requires m < n <= |all|
    requires forall k :: 0 <= k < |all| ==> all[k] != ""
    ensures |PathUpTo(all, m)| < |PathUpTo(all, n)|
    decreases n
  {
    if m < n - 1 {
      PathUpToGrows(all, m, n - 1);
    }
  }

  /** The link for a repeated segment is shorter than the path up to it. */
  lemma RepeatedLinkShorter(parts: seq<string>, i: nat, j: nat)
    requires i < j < |parts| && parts[i] == parts[j]
    requires forall k :: 0 <= k < |parts| ==> parts[k] != ""
    ensures IndexOf(parts, parts[j]) <= i
    ensures |PathUpTo(parts, IndexOf(parts, parts[j]) + 1)| < |PathUpTo(parts, j + 1)|
  {
    PathUpToGrows(parts, IndexOf(parts, parts[j]) + 1, j + 1);
  }

  /** The `indexOf` quirk: on a well-formed pathname where segment j repeats
      an earlier segment i, crumb j links to crumb i's place, which is shorter
      than the path up to segment j. */
  lemma LinkStopsAtFirstOccurrence(parts: seq<string>, selectedTitle: Option<string>, numeric: string -> bool,
                                   i: nat, j: nat)
    requires i < j < |parts| && parts[i] == parts[j]
    requires forall k :: 0 <= k < |parts| ==> parts[k] != "" && '/' !in parts[k] && parts[k] != ADMIN
    ensures var b := Breadcrumbs(Some("/" + Join(parts, '/')), selectedTitle, numeric);
      |b| == |parts| && b[j].path == b[i].path && |b[j].path| < |PathUpTo(parts, j + 1)|
  {
    WellFormedBreadcrumbs(parts, selectedTitle, numeric);
    var c := CrumbsOf(parts, parts, selectedTitle, numeric);
    assert c[i] == CrumbOf(parts, parts, i, selectedTitle, numeric);
    assert c[j] == CrumbOf(parts, parts, j, selectedTitle, numeric);
    RepeatedLinkShorter(parts, i, j);
  }
}
