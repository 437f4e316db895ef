/**
 * The search results page: the effect that filters the catalogue by the
 * query parameter `q` and sorts it by the selected key, and the handlers that
 * submit and clear the search box.
 */
module SearchResults {
  import opened Wrappers
  import opened Text

  /** The fields of a catalogue product that filtering and sorting read. */
  datatype Product = Product(
    id: string,
    name: string,
    category: string,
    price: real,
    rating: Option<real>,
    isNew: bool)

  /** `product.rating || 0`. */
  function RatingOrZero(p: Product): real
  {
    match p.rating
    case Some(r) => r
    case None => 0.0
  }

  // ---------------------------------------------------------------------------
  // Filtering
  // ---------------------------------------------------------------------------

  /** The filter predicate: the lower-cased query occurs in the lower-cased name or category. */
  predicate Matches(p: Product, query: string)
  {
    Contains(Lower(p.name), Lower(query)) || Contains(Lower(p.category), Lower(query))
  }

  /** r keeps some of the elements of s, in their original relative order. */
  ghost predicate Subsequence<T>(r: seq<T>, s: seq<T>)
    decreases |s|
  {
    r == []
    || (s != [] && ((r[0] == s[0] && Subsequence(r[1..], s[1..])) || Subsequence(r, s[1..])))
  }

  /** `products.filter(product => Matches(product, query))`. */
  function Filter(s: seq<Product>, query: string): (r: seq<Product>)
    ensures forall p :: multiset(r)[p] == if Matches(p, query) then multiset(s)[p] else 0
    ensures forall p :: p in r <==> p in s && Matches(p, query)
    ensures Subsequence(r, s)
    decreases |s|
  {
    if s == [] then []
    else
      var rest := Filter(s[1..], query);
      assert s == [s[0]] + s[1..];
      if Matches(s[0], query) then
        assert ([s[0]] + rest)[1..] == rest;
        [s[0]] + rest
      else rest
  }

  /** The list the effect starts sorting from: everything when `q` is empty, else the filtered list. */
  function Visible(allProducts: seq<Product>, query: string): seq<Product>
  {
    if query != "" then Filter(allProducts, query) else allProducts
  }

  /** The empty query matches every product, so filtering by it would keep the whole list too. */
  lemma {:induction false} FilterByEmptyQueryKeepsAll(s: seq<Product>)
    ensures Filter(s, "") == s
    decreases |s|
  {
    if s != [] {
      assert Lower("") == "";
      EmptyOccursEverywhere(Lower(s[0].name));
      assert Matches(s[0], "");
      assert Filter(s, "") == [s[0]] + Filter(s[1..], "");
      FilterByEmptyQueryKeepsAll(s[1..]);
      assert s == [s[0]] + s[1..];
    }
  }

  /** The visible list is exactly the products that pass the filter, for every query. */
  lemma VisibleIsFilter(allProducts: seq<Product>, query: string)
    ensures Visible(allProducts, query) == Filter(allProducts, query)
    ensures query == "" ==> Visible(allProducts, query) == allProducts
  {
    if query == "" {
      FilterByEmptyQueryKeepsAll(allProducts);
    }
  }

  // ---------------------------------------------------------------------------
  // Sorting
  // ---------------------------------------------------------------------------

  /** The cases of the comparator's `switch (sortBy)`; every other string takes the `default`. */
  datatype SortKey = PriceLow | PriceHigh | Newest | Rating | Unordered

  function KeyOf(sortBy: string): (key: SortKey)
    ensures key == PriceLow <==> sortBy == "price-low"
    ensures key == PriceHigh <==> sortBy == "price-high"
    ensures key == Newest <==> sortBy == "newest"
    ensures key == Rating <==> sortBy == "rating"
    ensures key == Unordered <==> sortBy !in {"price-low", "price-high", "newest", "rating"}
  {
    if sortBy == "price-low" then PriceLow
    else if sortBy == "price-high" then PriceHigh
    else if sortBy == "newest" then Newest
    else if sortBy == "rating" then Rating
    else Unordered
  }

  /** The comparator passed to `filtered.sort`; a positive result puts b before a. */
  function Compare(key: SortKey, a: Product, b: Product): real
  {
    match key
    case PriceLow => a.price - b.price
    case PriceHigh => b.price - a.price
    case Newest => if b.isNew then 1.0 else -1.0
    case Rating => RatingOrZero(b) - RatingOrZero(a)
    case Unordered => 0.0
  }

  /** Every key except Newest compares two products by a numeric rank. */
  predicate Consistent(key: SortKey)
  {
    key != Newest
  }

  /** The rank that a consistent comparator orders by, ascending. */
  function Rank(key: SortKey, p: Product): real
  {
    match key
    case PriceLow => p.price
    case PriceHigh => -p.price
    case Rating => -RatingOrZero(p)
    case _ => 0.0
  }

  lemma CompareIsRankDifference(key: SortKey, a: Product, b: Product)
    requires Consistent(key)
    ensures Compare(key, a, b) == Rank(key, a) - Rank(key, b)
  {
  }

  /** Insert x into t from the right, passing over every element that compares greater than x. */
  function Insert(key: SortKey, t: seq<Product>, x: Product): seq<Product>
    decreases |t|
  {
    if t == [] then [x]
    else if Compare(key, t[|t| - 1], x) > 0.0 then Insert(key, t[..|t| - 1], x) + [t[|t| - 1]]
    else t + [x]
  }

  /**
   * The result of the stable `Array.prototype.sort` with the comparator of key:
   * each element in turn is inserted into the sorted prefix before it.
   */
  function SortWith(key: SortKey, s: seq<Product>): seq<Product>
    decreases |s|
  {
    if s == [] then [] else Insert(key, SortWith(key, s[..|s| - 1]), s[|s| - 1])
  }

  predicate Ordered(key: SortKey, s: seq<Product>)
  {
    forall i, j :: 0 <= i < j < |s| ==> Rank(key, s[i]) <= Rank(key, s[j])
  }

  predicate PriceAscending(s: seq<Product>)
  {
    forall i, j :: 0 <= i < j < |s| ==> s[i].price <= s[j].price
  }

  predicate PriceDescending(s: seq<Product>)
  {
    forall i, j :: 0 <= i < j < |s| ==> s[i].price >= s[j].price
  }

  predicate RatingDescending(s: seq<Product>)
  {
    forall i, j :: 0 <= i < j < |s| ==> RatingOrZero(s[i]) >= RatingOrZero(s[j])
  }

  /** [p] when p has rank v, else []. */
  function TieOf(key: SortKey, p: Product, v: real): seq<Product>
  {
    if Rank(key, p) == v then [p] else []
  }

  /** The products of s whose rank is v, in order. */
  function Ties(key: SortKey, s: seq<Product>, v: real): seq<Product>
    decreases |s|
  {
    if s == [] then [] else Ties(key, s[..|s| - 1], v) + TieOf(key, s[|s| - 1], v)
  }

  lemma MultisetOfInitAndLast<T>(s: seq<T>)
    requires s != []
    ensures multiset(s) == multiset(s[..|s| - 1]) + multiset{s[|s| - 1]}
  {
    assert s == s[..|s| - 1] + [s[|s| - 1]];
  }

  lemma {:induction false} InsertPermutes(key: SortKey, t: seq<Product>, x: Product)
    ensures multiset(Insert(key, t, x)) == multiset(t) + multiset{x}
    decreases |t|
  {
    if t != [] && Compare(key, t[|t| - 1], x) > 0.0 {
      InsertPermutes(key, t[..|t| - 1], x);
      MultisetOfInitAndLast(t);
    }
  }

  /** Sorting adds and drops nothing, whatever the key (also for the inconsistent Newest). */
  lemma {:induction false} SortPermutes(key: SortKey, s: seq<Product>)
    ensures multiset(SortWith(key, s)) == multiset(s)
    decreases |s|
  {
    if s != [] {
      SortPermutes(key, s[..|s| - 1]);
      InsertPermutes(key, SortWith(key, s[..|s| - 1]), s[|s| - 1]);
      MultisetOfInitAndLast(s);
    }
  }

  lemma {:induction false} InsertKeepsOrdered(key: SortKey, t: seq<Product>, x: Product)
    requires Consistent(key) && Ordered(key, t)
    ensures Ordered(key, Insert(key, t, x))
    decreases |t|
  {
    if t != [] {
      var init, last := t[..|t| - 1], t[|t| - 1];
      CompareIsRankDifference(key, last, x);
      if Compare(key, last, x) > 0.0 {
        InsertKeepsOrdered(key, init, x);
        InsertPermutes(key, init, x);
        var u := Insert(key, init, x);
        forall k | 0 <= k < |u|
          ensures Rank(key, u[k]) <= Rank(key, last)
        {
          assert u[k] in multiset(u);
          if u[k] != x {
            assert u[k] in init;
          }
        }
      }
    }
  }

  /** For every key but Newest the result is ordered by rank. */
  lemma {:induction false} SortOrdered(key: SortKey, s: seq<Product>)
    requires Consistent(key)
    ensures Ordered(key, SortWith(key, s))
    decreases |s|
  {
    if s != [] {
      SortOrdered(key, s[..|s| - 1]);
      InsertKeepsOrdered(key, SortWith(key, s[..|s| - 1]), s[|s| - 1]);
    }
  }

  /** "price-low": prices never decrease along the result. */
  lemma SortByPriceLowAscends(s: seq<Product>)
    ensures PriceAscending(SortWith(PriceLow, s))
  {
    SortOrdered(PriceLow, s);
  }

  /** "price-high": prices never increase along the result. */
  lemma SortByPriceHighDescends(s: seq<Product>)
    ensures PriceDescending(SortWith(PriceHigh, s))
  {
    SortOrdered(PriceHigh, s);
    var r := SortWith(PriceHigh, s);
    assert forall i, j :: 0 <= i < j < |r| ==> -r[i].price <= -r[j].price;
  }

  /** "rating": ratings, a missing one read as 0, never increase along the result. */
  lemma SortByRatingDescends(s: seq<Product>)
    ensures RatingDescending(SortWith(Rating, s))
  {
    SortOrdered(Rating, s);
    var r := SortWith(Rating, s);
    assert forall i, j :: 0 <= i < j < |r| ==> -RatingOrZero(r[i]) <= -RatingOrZero(r[j]);
  }

  /** "relevance" and every unknown key: the comparator is 0, so the order is unchanged. */
  lemma {:induction false} ZeroComparatorKeepsOrder(key: SortKey, s: seq<Product>)
    requires key == Unordered
    ensures SortWith(key, s) == s
    decreases |s|
  {
    if s != [] {
      ZeroComparatorKeepsOrder(key, s[..|s| - 1]);
      assert s == s[..|s| - 1] + [s[|s| - 1]];
    }
  }

  lemma SwapAroundEmpty<T>(a: seq<T>, b: seq<T>, c: seq<T>)
    requires b == [] || c == []
    ensures a + b + c == a + c + b
  {
    if b == [] {
      assert a + b == a && a + c + b == a + c;
    } else {
      assert a + c == a && a + b + c == a + b;
    }
  }

  lemma TiesOfSnoc(key: SortKey, u: seq<Product>, p: Product, v: real)
    ensures Ties(key, u + [p], v) == Ties(key, u, v) + TieOf(key, p, v)
  {
    assert (u + [p])[..|u|] == u;
  }

  lemma {:induction false} InsertTies(key: SortKey, t: seq<Product>, x: Product, v: real)
    requires Consistent(key)
    ensures Ties(key, Insert(key, t, x), v) == Ties(key, t, v) + TieOf(key, x, v)
    decreases |t|
  {
    if t == [] {
      TiesOfSnoc(key, [], x, v);
      assert [] + [x] == [x];
    } else {
      var init, last := t[..|t| - 1], t[|t| - 1];
      assert Ties(key, t, v) == Ties(key, init, v) + TieOf(key, last, v);
      if Compare(key, last, x) > 0.0 {
        CompareIsRankDifference(key, last, x);
        var u := Insert(key, init, x);
        assert Insert(key, t, x) == u + [last];
        InsertTies(key, init, x, v);
        TiesOfSnoc(key, u, last, v);
        assert Ties(key, u + [last], v) == Ties(key, init, v) + TieOf(key, x, v) + TieOf(key, last, v);
        assert TieOf(key, x, v) == [] || TieOf(key, last, v) == [];
        SwapAroundEmpty(Ties(key, init, v), TieOf(key, x, v), TieOf(key, last, v));
      } else {
        assert Insert(key, t, x) == t + [x];
        TiesOfSnoc(key, t, x, v);
      }
    }
  }

  /** The sort is stable: products of equal rank keep their original relative order. */
  lemma {:induction false} SortStable(key: SortKey, s: seq<Product>, v: real)
    requires Consistent(key)
    ensures Ties(key, SortWith(key, s), v) == Ties(key, s, v)
    decreases |s|
  {
    if s != [] {
      SortStable(key, s[..|s| - 1], v);
      InsertTies(key, SortWith(key, s[..|s| - 1]), s[|s| - 1], v);
    }
  }

  /** Swapping x left past a greater neighbour keeps the pending insertion's result. */
  lemma SwapStep(key: SortKey, before: seq<Product>, after: seq<Product>, j: nat, i: nat)
    requires 0 < j <= i < |before|
    requires Compare(key, before[j - 1], before[j]) > 0.0
    requires after == before[j - 1 := before[j]][j := before[j - 1]]
    ensures Insert(key, before[..j], before[j]) + before[j + 1..i + 1]
         == Insert(key, after[..j - 1], after[j - 1]) + after[j..i + 1]
  {
    var t := before[..j];
    assert t[|t| - 1] == before[j - 1] && t[..|t| - 1] == after[..j - 1];
    assert after[j..i + 1] == [before[j - 1]] + before[j + 1..i + 1];
  }

  /** Once x meets no greater left neighbour, the pending insertion is already in place. */
  lemma StopStep(key: SortKey, cur: seq<Product>, j: nat, i: nat)
    requires j <= i < |cur|
    requires j == 0 || Compare(key, cur[j - 1], cur[j]) <= 0.0
    ensures Insert(key, cur[..j], cur[j]) + cur[j + 1..i + 1] == cur[..i + 1]
  {
    assert cur[..i + 1] == cur[..j] + [cur[j]] + cur[j + 1..i + 1];
    if j > 0 {
      var t := cur[..j];
      assert t[|t| - 1] == cur[j - 1];
    }
  }

  /** One step of the in-place sort: move a[i] left past the greater elements of the sorted a[..i]. */
  method InsertAt(a: array<Product>, i: nat, key: SortKey)
    requires i < a.Length
    modifies a
    ensures a[..i + 1] == Insert(key, old(a[..i]), old(a[i]))
    ensures a[i + 1..] == old(a[i + 1..])
  {
    ghost var sorted := a[..i];
    ghost var x := a[i];
    var j := i;
    while j > 0 && Compare(key, a[j - 1], a[j]) > 0.0
      invariant 0 <= j <= i
      invariant a[j] == x
      invariant a[i + 1..] == old(a[i + 1..])
      invariant Insert(key, sorted, x) == Insert(key, a[..j], x) + a[j + 1..i + 1]
    {
      ghost var before := a[..];
      a[j - 1], a[j] := a[j], a[j - 1];
      SwapStep(key, before, a[..], j, i);
      j := j - 1;
    }
    StopStep(key, a[..], j, i);
  }

  /** `a.sort(comparator)` in place: each element in turn is inserted into the sorted prefix. */
  method SortInPlace(a: array<Product>, key: SortKey)
    modifies a
    ensures a[..] == SortWith(key, old(a[..]))
  {
    ghost var input := a[..];
    var i := 0;
    while i < a.Length
      invariant 0 <= i <= a.Length
      invariant a[..i] == SortWith(key, input[..i])
      invariant a[i..] == input[i..]
    {
      assert a[i] == input[i];
      InsertAt(a, i, key);
      assert input[..i + 1][..i] == input[..i];
      i := i + 1;
    }
    assert input[..a.Length] == input;
  }

  /** What the sort promises for each key. */
  lemma SortWithProperties(key: SortKey, s: seq<Product>)
    ensures multiset(SortWith(key, s)) == multiset(s)
    ensures key == PriceLow ==> PriceAscending(SortWith(key, s))
    ensures key == PriceHigh ==> PriceDescending(SortWith(key, s))
    ensures key == Rating ==> RatingDescending(SortWith(key, s))
    ensures key == Unordered ==> SortWith(key, s) == s
  {
    SortPermutes(key, s);
    match key {
      case PriceLow => SortByPriceLowAscends(s);
      case PriceHigh => SortByPriceHighDescends(s);
      case Rating => SortByRatingDescends(s);
      case Unordered => ZeroComparatorKeepsOrder(key, s);
      case Newest =>
    }
  }

  /**
   * The effect body: copy the catalogue, filter it when `q` is non-empty, sort the copy
   * in place with the comparator of sortBy.
   */
  method ComputeResults(allProducts: seq<Product>, query: string, sortBy: string)
    returns (results: seq<Product>)
    ensures results == SortWith(KeyOf(sortBy), Visible(allProducts, query))
    ensures multiset(results) == multiset(Filter(allProducts, query))
    ensures forall p :: p in results <==> p in allProducts && Matches(p, query)
    ensures query == "" ==> multiset(results) == multiset(allProducts)
    ensures KeyOf(sortBy) == PriceLow ==> PriceAscending(results)
    ensures KeyOf(sortBy) == PriceHigh ==> PriceDescending(results)
    ensures KeyOf(sortBy) == Rating ==> RatingDescending(results)
    ensures KeyOf(sortBy) == Unordered ==> results == Visible(allProducts, query)
  {
    var filtered := allProducts;
    if query != "" {
      filtered := Filter(filtered, query);
    }
    var a := new Product[|filtered|](i requires 0 <= i < |filtered| => filtered[i]);
    assert a[..] == filtered;
    var key := KeyOf(sortBy);
    SortInPlace(a, key);
    results := a[..];
    VisibleIsFilter(allProducts, query);
    SortWithProperties(key, filtered);
    assert forall p :: p in results <==> p in multiset(results);
  }

  // ---------------------------------------------------------------------------
  // Page state
  // ---------------------------------------------------------------------------

  /** `searchParams.get("q") || ""`. */
  function QueryOf(params: map<string, string>): string
  {
    if "q" in params then params["q"] else ""
  }

  /** The page component: catalogue, URL parameters, search box, sort selection and shown results. */
  class SearchPage {
    const allProducts: seq<Product>
    var searchParams: map<string, string>
    var searchInput: string
    var sortBy: string
    var filteredProducts: seq<Product>

    function Query(): string
      reads this
    {
      QueryOf(searchParams)
    }

    /** Mount: the box shows the current `q`, the sort is "relevance", the whole catalogue is shown. */
    constructor (catalog: seq<Product>, params: map<string, string>)
      ensures allProducts == catalog && searchParams == params
      ensures searchInput == QueryOf(params) && sortBy == "relevance"
      ensures filteredProducts == catalog
    {
      allProducts := catalog;
      searchParams := params;
      searchInput := QueryOf(params);
      sortBy := "relevance";
      filteredProducts := catalog;
    }

    /** The effect that runs whenever `q` or the sort key changes. */
    method Refresh()
      modifies this`filteredProducts
      ensures filteredProducts == SortWith(KeyOf(sortBy), Visible(allProducts, Query()))
      ensures forall p :: p in filteredProducts <==> p in allProducts && Matches(p, Query())
    {
      filteredProducts := ComputeResults(allProducts, Query(), sortBy);
    }

    /** The search box's `onChange`. */
    method EditSearchInput(text: string)
      modifies this`searchInput
      ensures searchInput == text
    {
      searchInput := text;
    }

    /** The sort selector's `onValueChange`. */
    method SetSortBy(key: string)
      modifies this`sortBy
      ensures sortBy == key
    {
      sortBy := key;
    }

    /** `handleSearch`: a non-blank input replaces all parameters by `q` = the trimmed input. */
    method HandleSearch()
      modifies this`searchParams
      ensures Trim(searchInput) != "" ==> searchParams == map["q" := Trim(searchInput)]
      ensures Trim(searchInput) != "" ==> Query() == Trim(searchInput)
      ensures Trim(searchInput) == "" ==> searchParams == old(searchParams)
    {
      var trimmed := Trim(searchInput);
      if trimmed != "" {
        searchParams := map["q" := trimmed];
      }
    }

    /** `clearSearch`: empties the box and removes every parameter, so `q` reads as "". */
    method ClearSearch()
      modifies this`searchInput, this`searchParams
      ensures searchInput == "" && searchParams == map[]
      ensures Query() == ""
    {
      searchInput := "";
      searchParams := map[];
    }
  }
}
