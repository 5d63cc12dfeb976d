/** The catalog query engine of the products page: search and category filtering,
    the category choices, nine-per-page pagination and the page-number bar. */
module Catalog {
  import opened Js
  import opened Text
  import opened Seqs
  import opened Products

  /** Products shown on one page. */
  const PageSize: nat := 9

  /** The category choice that matches every product. */
  const AllCategories: string := "all"

  // ---------------------------------------------------------------- filtering

  /** `field?.toLowerCase().includes(term.toLowerCase())`: a missing field never matches. */
  predicate FieldMatches(field: Option<string>, term: string)
  {
    field.Some? && Contains(Lower(field.value), Lower(term))
  }

  /** The search term occurs, case-insensitively, in the name or the description. */
  predicate MatchesSearch(p: Product, term: string)
  {
    FieldMatches(p.name, term) || FieldMatches(p.description, term)
  }

  /** "all" matches everything; otherwise the categories must agree case-insensitively. */
  predicate MatchesCategory(p: Product, selected: string)
  {
    selected == AllCategories || (p.category.Some? && Lower(p.category.value) == Lower(selected))
  }

  predicate Keep(p: Product, term: string, selected: string)
  {
    MatchesSearch(p, term) && MatchesCategory(p, selected)
  }

  /** The products that pass both the search and the category test, in catalog order. */
  function FilterProducts(products: seq<Product>, term: string, selected: string): (r: seq<Product>)
    ensures |r| <= |products|
    ensures forall p :: p in r <==> p in products && MatchesSearch(p, term) && MatchesCategory(p, selected)
  {
    Filter(products, p => Keep(p, term, selected))
  }

  /** Filtering never reorders the catalog: the result is a subsequence of the input. */
  lemma FilterKeepsOrder(products: seq<Product>, term: string, selected: string)
    ensures IsSubsequence(FilterProducts(products, term, selected), products)
  {
    FilterIsSubsequence(products, p => Keep(p, term, selected));
  }

  /** Applying the same search and category a second time changes nothing. */
  lemma FilterProductsIdempotent(products: seq<Product>, term: string, selected: string)
    ensures FilterProducts(FilterProducts(products, term, selected), term, selected)
         == FilterProducts(products, term, selected)
  {
    FilterIdempotent(products, p => Keep(p, term, selected));
  }

  /** Two selections that agree on every element select the same subsequence. */
  lemma {:induction false} FilterAgree(s: seq<Product>, f: Product -> bool, g: Product -> bool)
    requires forall p :: p in s ==> f(p) == g(p)
    ensures Filter(s, f) == Filter(s, g)
    decreases |s|
  {
    if s != [] {
      FilterAgree(s[1..], f, g);
    }
  }

  /** `toLowerCase` applied twice is `toLowerCase` applied once. */
  lemma LowerIdempotent(s: string)
    ensures Lower(Lower(s)) == Lower(s)
  {
    forall i | 0 <= i < |s| ensures Lower(Lower(s))[i] == Lower(s)[i] {
      assert 'A' <= Lower(s)[i] <= 'Z' ==> false;
    }
  }

  /** Search is case-insensitive: the term and its lower-case form select the same products. */
  lemma SearchIgnoresCase(products: seq<Product>, term: string, selected: string)
    ensures FilterProducts(products, Lower(term), selected) == FilterProducts(products, term, selected)
  {
    LowerIdempotent(term);
    FilterAgree(products, p => Keep(p, Lower(term), selected), p => Keep(p, term, selected));
  }

  /** The category test is case-insensitive in the same way. */
  lemma CategoryIgnoresCase(products: seq<Product>, term: string, selected: string)
    requires selected != AllCategories && Lower(selected) != AllCategories
    ensures FilterProducts(products, term, Lower(selected)) == FilterProducts(products, term, selected)
  {
    LowerIdempotent(selected);
    FilterAgree(products, p => Keep(p, term, Lower(selected)), p => Keep(p, term, selected));
  }

  /** With an empty search term and "all" selected, exactly the products that have a
      name or a description are listed: a product with neither is never shown. */
  lemma EmptySearchListsDescribedProducts(products: seq<Product>)
    ensures FilterProducts(products, "", AllCategories)
         == Filter(products, (p: Product) => p.name.Some? || p.description.Some?)
  {
    forall p | p in products
      ensures Keep(p, "", AllCategories) == (p.name.Some? || p.description.Some?)
    {
      if p.name.Some? { ContainsEmpty(Lower(p.name.value)); }
      if p.description.Some? { ContainsEmpty(Lower(p.description.value)); }
    }
    FilterAgree(products, p => Keep(p, "", AllCategories), (p: Product) => p.name.Some? || p.description.Some?);
  }

  // --------------------------------------------------------------- categories

  ghost predicate NoDuplicates(xs: seq<string>)
  {
    forall i, j :: 0 <= i < j < |xs| ==> xs[i] != xs[j]
  }

  /** The truthy categories of the products, in catalog order, repeats included. */
  function CategoryValues(products: seq<Product>): (cs: seq<string>)
    ensures forall c :: c in cs <==> c != "" && exists p :: p in products && p.category == Some(c)
    decreases |products|
  {
    if products == [] then []
    else
      var p := products[0];
      var rest := CategoryValues(products[1..]);
      assert forall q :: q in products <==> q == p || q in products[1..];
      if p.category.Some? && p.category.value != "" then [p.category.value] + rest else rest
  }

  /** `[...new Set(xs)]`: each value once, at the place of its first occurrence. */
  function Distinct(xs: seq<string>): (r: seq<string>)
    ensures forall x :: x in r <==> x in xs
    ensures NoDuplicates(r)
    ensures |r| <= |xs|
    decreases |xs|
  {
    if xs == [] then []
    else
      var init := xs[..|xs| - 1];
      var last := xs[|xs| - 1];
      assert xs == init + [last];
      var r := Distinct(init);
      if last in r then r else r + [last]
  }

  /** The position of the first occurrence of `x` in `xs`. */
  function FirstIndex(xs: seq<string>, x: string): (k: nat)
    requires x in xs
    ensures k < |xs| && xs[k] == x && x !in xs[..k]
    decreases |xs|
  {
    if xs[0] == x then 0
    else
      var k := FirstIndex(xs[1..], x);
      assert xs[..k + 1] == [xs[0]] + xs[1..][..k];
      k + 1
  }

  /** The first occurrence of a value is the same in a sequence and in any prefix holding it. */
  lemma FirstIndexPrefix(xs: seq<string>, n: nat, x: string)
    requires n <= |xs| && x in xs[..n]
    ensures FirstIndex(xs, x) == FirstIndex(xs[..n], x)
  {
    var k := FirstIndex(xs[..n], x);
    var m := FirstIndex(xs, x);
    assert xs[..n][..k] == xs[..k];
    assert forall i :: 0 <= i < k ==> xs[..k][i] != x;
    assert forall i :: 0 <= i < m ==> xs[..m][i] != x;
  }

  /** The values of `Distinct(xs)` appear in the order of their first occurrence in `xs`. */
  lemma {:induction false} DistinctFirstOccurrenceOrder(xs: seq<string>)
    ensures forall i, j :: 0 <= i < j < |Distinct(xs)| ==>
      FirstIndex(xs, Distinct(xs)[i]) < FirstIndex(xs, Distinct(xs)[j])
    decreases |xs|
  {
    if xs != [] {
      var init := xs[..|xs| - 1];
      var last := xs[|xs| - 1];
      assert xs == init + [last];
      assert xs[..|xs| - 1] == init;
      DistinctFirstOccurrenceOrder(init);
      var r := Distinct(init);
      forall x | x in r ensures FirstIndex(xs, x) == FirstIndex(init, x) < |init| {
        FirstIndexPrefix(xs, |xs| - 1, x);
      }
      if last !in r {
        assert last !in init;
        assert FirstIndex(xs, last) == |init|;
        var d := r + [last];
        forall i, j | 0 <= i < j < |d| ensures FirstIndex(xs, d[i]) < FirstIndex(xs, d[j]) {
          assert d[i] == r[i];
          if j < |r| {
            assert d[j] == r[j];
          }
        }
      }
    }
  }

  /** The category dropdown: "all" first, then every distinct truthy category. */
  function CategoryOptions(products: seq<Product>): (r: seq<string>)
    ensures |r| >= 1 && r[0] == AllCategories
    ensures forall c :: c in r[1..] <==> c != "" && exists p :: p in products && p.category == Some(c)
    ensures NoDuplicates(r[1..])
  {
    var r := [AllCategories] + Distinct(CategoryValues(products));
    assert r[1..] == Distinct(CategoryValues(products));
    r
  }

  /** "all" is offered twice exactly when some product's category is literally "all". */
  lemma AllOfferedOnce(products: seq<Product>)
    ensures (forall i :: 1 <= i < |CategoryOptions(products)| ==> CategoryOptions(products)[i] != AllCategories)
        <==> (forall p :: p in products ==> p.category != Some(AllCategories))
  {
    var r := CategoryOptions(products);
    if exists p :: p in products && p.category == Some(AllCategories) {
      assert AllCategories in r[1..];
      var k :| 0 <= k < |r[1..]| && r[1..][k] == AllCategories;
      assert r[k + 1] == AllCategories;
    }
    if exists i :: 1 <= i < |r| && r[i] == AllCategories {
      var i :| 1 <= i < |r| && r[i] == AllCategories;
      assert r[1..][i - 1] == AllCategories;
    }
  }

  /** The index of the first product whose category is `c`, or the catalog's length when
      no product carries it. */
  function FirstCarrier(products: seq<Product>, c: string): (k: nat)
    ensures k <= |products|
    ensures k < |products| ==> products[k].category == Some(c)
    ensures forall j :: 0 <= j < k ==> products[j].category != Some(c)
    decreases |products|
  {
    if products == [] then 0
    else if products[0].category == Some(c) then 0
    else 1 + FirstCarrier(products[1..], c)
  }

  /** A category comes earlier among the truthy categories exactly when its first
      carrier comes earlier in the catalog. */
  lemma {:induction false} CarrierOrder(products: seq<Product>, c: string, d: string)
    requires c in CategoryValues(products) && d in CategoryValues(products)
    requires FirstIndex(CategoryValues(products), c) < FirstIndex(CategoryValues(products), d)
    ensures FirstCarrier(products, c) < FirstCarrier(products, d)
    decreases |products|
  {
    var p := products[0];
    var rest := products[1..];
    var cs := CategoryValues(products);
    assert c != "" && d != "";
    if p.category.Some? && p.category.value != "" {
      var x := p.category.value;
      assert cs == [x] + CategoryValues(rest);
      assert cs[1..] == CategoryValues(rest);
      if c != x {
        assert d != x;
        CarrierOrder(rest, c, d);
      }
    } else {
      assert cs == CategoryValues(rest);
      CarrierOrder(rest, c, d);
    }
  }

  /** The dropdown lists the categories after "all" in the order in which the catalog
      first mentions them, and each one is carried by some product. */
  lemma CategoryOptionsInCatalogOrder(products: seq<Product>)
    ensures forall i :: 1 <= i < |CategoryOptions(products)| ==>
      FirstCarrier(products, CategoryOptions(products)[i]) < |products|
    ensures forall i, j :: 1 <= i < j < |CategoryOptions(products)| ==>
      FirstCarrier(products, CategoryOptions(products)[i]) < FirstCarrier(products, CategoryOptions(products)[j])
  {
    var cs := CategoryValues(products);
    var r := CategoryOptions(products);
    var d := Distinct(cs);
    assert r[1..] == d;
    DistinctFirstOccurrenceOrder(cs);
    forall i | 1 <= i < |r| ensures FirstCarrier(products, r[i]) < |products| {
      assert r[i] == d[i - 1] && d[i - 1] in d;
    }
    forall i, j | 1 <= i < j < |r|
      ensures FirstCarrier(products, r[i]) < FirstCarrier(products, r[j])
    {
      assert r[i] == d[i - 1] && d[i - 1] in d;
      assert r[j] == d[j - 1] && d[j - 1] in d;
      CarrierOrder(products, r[i], r[j]);
    }
  }

  // --------------------------------------------------------------- pagination

  function Min(a: int, b: int): int { if a <= b then a else b }
  function Max(a: int, b: int): int { if a >= b then a else b }

  /** `Math.ceil(count / 9)`: the fewest pages of nine that hold `count` products. */
  function TotalPages(count: nat): (t: nat)
    ensures t * PageSize >= count
    ensures t > 0 ==> (t - 1) * PageSize < count
    ensures t == 0 <==> count == 0
  {
    (count + PageSize - 1) / PageSize
  }

  /** `items.slice((page - 1) * 9, (page - 1) * 9 + 9)`, clamped as `slice` clamps. */
  function PageOf<T>(items: seq<T>, page: int): (r: seq<T>)
    requires page >= 1
    ensures |r| == Max(0, Min(PageSize, |items| - (page - 1) * PageSize))
    ensures forall i :: 0 <= i < |r| ==> r[i] == items[(page - 1) * PageSize + i]
  {
    var start := (page - 1) * PageSize;
    items[Min(start, |items|)..Min(start + PageSize, |items|)]
  }

  /** The pages 1 to `k`, one after another. */
  function FirstPages<T>(items: seq<T>, k: nat): seq<T>
  {
    if k == 0 then [] else FirstPages(items, k - 1) + PageOf(items, k)
  }

  lemma {:induction false} FirstPagesArePrefix<T>(items: seq<T>, k: nat)
    ensures FirstPages(items, k) == items[..Min(k * PageSize, |items|)]
  {
    if k > 0 {
      FirstPagesArePrefix(items, k - 1);
      var a := Min((k - 1) * PageSize, |items|);
      var b := Min(k * PageSize, |items|);
      assert PageOf(items, k) == items[a..b];
      assert items[..a] + items[a..b] == items[..b];
    }
  }

  /** Reading pages 1 to `TotalPages` in turn shows every filtered product exactly once, in order. */
  lemma PagesCoverList<T>(items: seq<T>)
    ensures FirstPages(items, TotalPages(|items|)) == items
  {
    FirstPagesArePrefix(items, TotalPages(|items|));
    assert items[..|items|] == items;
  }

  /** The last page is never empty, and every page after it is. */
  lemma LastPageNonEmpty<T>(items: seq<T>, page: int)
    requires page >= 1
    ensures page <= TotalPages(|items|) ==> 1 <= |PageOf(items, page)| <= PageSize
    ensures page > TotalPages(|items|) ==> PageOf(items, page) == []
  {
  }

  /** The Previous button: `Math.max(prev - 1, 1)`. */
  function PreviousPage(current: int): (p: int)
    ensures p >= 1
    ensures current > 1 ==> p == current - 1
    ensures current <= 1 ==> p == 1
  {
    Max(current - 1, 1)
  }

  /** The Next button: `Math.min(prev + 1, totalPages)`. */
  function NextPage(current: int, total: nat): (p: int)
    ensures p <= total
    ensures current < total ==> p == current + 1
    ensures current >= total ==> p == total
  {
    Min(current + 1, total)
  }

  /** The bar is rendered only when there is more than one page. */
  predicate PaginationShown(total: nat)
  {
    total > 1
  }

  // ---------------------------------------------------------- page-number bar

  /** A button of the bar: a page number or the disabled "..." marker. */
  datatype PageItem = Number(n: int) | Ellipsis

  /** The numbers in the bar strictly increase from left to right. */
  ghost predicate Ascending(items: seq<PageItem>)
  {
    forall i, j :: 0 <= i < j < |items| && items[i].Number? && items[j].Number? ==> items[i].n < items[j].n
  }

  /** Neighbouring numbers are consecutive pages, and an ellipsis sits between two numbers
      and hides at least one page. */
  ghost predicate GapsMarked(items: seq<PageItem>)
  {
    && (forall i :: 0 <= i < |items| - 1 && items[i].Number? && items[i + 1].Number? ==>
          items[i + 1].n == items[i].n + 1)
    && (forall i :: 0 <= i < |items| && items[i].Ellipsis? ==>
          0 < i < |items| - 1 && items[i - 1].Number? && items[i + 1].Number? &&
          items[i - 1].n + 1 < items[i + 1].n)
  }

  /** What the bar promises: pages 1 to t in full when t <= 5; otherwise six or seven
      buttons from page 1 to page t; every number a real page, numbers ascending, an
      ellipsis for every gap and only for gaps, and the current page always listed. */
  ghost predicate WellFormedBar(pages: seq<PageItem>, totalPages: nat, currentPage: int)
  {
    && (totalPages <= 5 ==> |pages| == totalPages && forall i :: 0 <= i < |pages| ==> pages[i] == Number(i + 1))
    && (totalPages > 5 ==>
          (|pages| == 6 || |pages| == 7) && pages[0] == Number(1) && pages[|pages| - 1] == Number(totalPages))
    && (forall i :: 0 <= i < |pages| && pages[i].Number? ==> 1 <= pages[i].n <= totalPages)
    && Ascending(pages)
    && GapsMarked(pages)
    && (1 <= currentPage <= totalPages ==> Number(currentPage) in pages)
  }

  /** A bar that lists the pages 1 to t in full. */
  lemma FullBarWellFormed(pages: seq<PageItem>, t: nat, c: int)
    requires t <= 5 && |pages| == t
    requires forall k :: 0 <= k < |pages| ==> pages[k] == Number(k + 1)
    ensures WellFormedBar(pages, t, c)
  {
    if 1 <= c <= t {
      assert pages[c - 1] == Number(c);
    }
  }

  /** The bar near the first page: 1 2 3 4 ... t. */
  lemma HeadBarWellFormed(t: nat, c: int)
    requires t > 5 && c <= 3
    ensures WellFormedBar([Number(1), Number(2), Number(3), Number(4), Ellipsis, Number(t)], t, c)
  {
  }

  /** The bar near the last page: 1 ... t-3 t-2 t-1 t. */
  lemma TailBarWellFormed(t: nat, c: int)
    requires t > 5 && c >= t - 2
    ensures WellFormedBar([Number(1), Ellipsis, Number(t - 3), Number(t - 2), Number(t - 1), Number(t)], t, c)
  {
  }

  /** The bar in the middle: 1 ... c-1 c c+1 ... t. */
  lemma MiddleBarWellFormed(t: nat, c: int)
    requires 3 < c < t - 2
    ensures WellFormedBar([Number(1), Ellipsis, Number(c - 1), Number(c), Number(c + 1), Ellipsis, Number(t)], t, c)
  {
  }

  /** `getPageNumbers`: at most five pages are listed in full; beyond that the bar shows
      the first and last page, a window around the current page, and "..." for each gap. */
  method PageNumbers(totalPages: nat, currentPage: int) returns (pages: seq<PageItem>)
    ensures WellFormedBar(pages, totalPages, currentPage)
  {
    pages := [];
    var maxVisiblePages := 5;
    if totalPages <= maxVisiblePages {
      for i := 1 to totalPages + 1
        invariant |pages| == i - 1
        invariant forall k :: 0 <= k < |pages| ==> pages[k] == Number(k + 1)
      {
        pages := pages + [Number(i)];
      }
      FullBarWellFormed(pages, totalPages, currentPage);
    } else if currentPage <= 3 {
      for i := 1 to 5
        invariant |pages| == i - 1
        invariant forall k :: 0 <= k < |pages| ==> pages[k] == Number(k + 1)
      {
        pages := pages + [Number(i)];
      }
      pages := pages + [Ellipsis, Number(totalPages)];
      assert pages == [Number(1), Number(2), Number(3), Number(4), Ellipsis, Number(totalPages)];
      HeadBarWellFormed(totalPages, currentPage);
    } else if currentPage >= totalPages - 2 {
      pages := [Number(1), Ellipsis];
      for i := totalPages - 3 to totalPages + 1
        invariant |pages| == i - totalPages + 5
        invariant pages[..2] == [Number(1), Ellipsis]
        invariant forall k :: 2 <= k < |pages| ==> pages[k] == Number(totalPages - 5 + k)
      {
        pages := pages + [Number(i)];
      }
      assert pages == [Number(1), Ellipsis, Number(totalPages - 3), Number(totalPages - 2),
                       Number(totalPages - 1), Number(totalPages)];
      TailBarWellFormed(totalPages, currentPage);
    } else {
      pages := [Number(1), Ellipsis];
      for i := currentPage - 1 to currentPage + 2
        invariant |pages| == i - currentPage + 3
        invariant pages[..2] == [Number(1), Ellipsis]
        invariant forall k :: 2 <= k < |pages| ==> pages[k] == Number(currentPage - 3 + k)
      {
        pages := pages + [Number(i)];
      }
      pages := pages + [Ellipsis, Number(totalPages)];
      assert pages == [Number(1), Ellipsis, Number(currentPage - 1), Number(currentPage),
                       Number(currentPage + 1), Ellipsis, Number(totalPages)];
      MiddleBarWellFormed(totalPages, currentPage);
    }
  }
}
