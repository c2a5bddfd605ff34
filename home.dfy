/**
 * The product listing page (src/pages/Home.tsx): the category/sort selection held in the
 * URL query, the fetch-merge-sort pipeline behind `fetchProducts`, and the two handlers
 * that rewrite the query. The catalog service is a parameter: `service(req)` is the
 * response body of request `req`, or None when that request fails.
 */
module Home {
  import opened Wrappers
  import opened SearchParams
  import StableSort

  /** A catalog product; `price` is in integer cents. */
  datatype Product = Product(id: int, title: string, price: int, category: string,
                             description: string, image: string)

  /** A catalog request: the whole catalog, or the products of one category. */
  datatype Request = AllProducts | ByCategory(category: string)

  // ---------------------------------------------------------------- selection state

  /** `searchParams.getAll('category')` */
  function SelectedCategories(ps: Params): seq<string>
  {
    GetAll(ps, "category")
  }

  /** `searchParams.get('sort') || 'asc'`: an absent or empty value reads as "asc". */
  function SortParam(ps: Params): string
  {
    match Get(ps, "sort")
    case Some(v) => if v != "" then v else "asc"
    case None => "asc"
  }

  /** The listing is in ascending price order exactly when the sort value is "asc". */
  predicate Ascending(ps: Params)
  {
    SortParam(ps) == "asc"
  }

  /** Without a usable `sort` parameter the listing is ascending; only "asc" itself is. */
  lemma SortDefaultsToAscending(ps: Params)
    ensures Get(ps, "sort") == None ==> Ascending(ps)
    ensures Get(ps, "sort") == Some("") ==> Ascending(ps)
    ensures Ascending(ps) <==> GetAll(ps, "sort") == [] || GetAll(ps, "sort")[0] in {"", "asc"}
  {
  }

  // ---------------------------------------------------------------- the price order

  /** The comparator handed to `sort`. */
  function Compare(sort: string, a: Product, b: Product): int
  {
    if sort == "asc" then a.price - b.price else b.price - a.price
  }

  /** The key whose difference is that comparator: the price, or its negation. */
  function PriceKey(ascending: bool): Product -> int
  {
    if ascending then (p: Product) => p.price else (p: Product) => -p.price
  }

  lemma CompareIsKeyDifference(sort: string, a: Product, b: Product)
    ensures Compare(sort, a, b) == PriceKey(sort == "asc")(a) - PriceKey(sort == "asc")(b)
  {
  }

  /** The products of `s` priced `c`, in their order in `s`. */
  function PricedAt(s: seq<Product>, c: int): seq<Product>
  {
    if s == [] then []
    else (if s[0].price == c then [s[0]] else []) + PricedAt(s[1..], c)
  }

  lemma {:induction false} PricedAtConcat(a: seq<Product>, b: seq<Product>, c: int)
    ensures PricedAt(a + b, c) == PricedAt(a, c) + PricedAt(b, c)
  {
    if a == [] {
      assert a + b == b;
    } else {
      var ab := a + b;
      assert ab[0] == a[0] && ab[1..] == a[1..] + b;
      PricedAtConcat(a[1..], b, c);
      assert PricedAt(ab, c) == (if a[0].price == c then [a[0]] else []) + PricedAt(ab[1..], c);
    }
  }

  /** The key groups of PriceKey are the price groups. */
  lemma {:induction false} KeyGroupIsPriceGroup(s: seq<Product>, ascending: bool, c: int)
    ensures StableSort.WithKey(s, PriceKey(ascending), if ascending then c else -c) == PricedAt(s, c)
  {
    if s != [] {
      KeyGroupIsPriceGroup(s[1..], ascending, c);
    }
  }

  /** `[...result].sort(compare)`: the stable sort of a copy by price. */
  function SortProducts(xs: seq<Product>, sort: string): (r: seq<Product>)
    ensures multiset(r) == multiset(xs)
    ensures forall i, j :: 0 <= i < j < |r| ==> Compare(sort, r[i], r[j]) <= 0
    ensures sort == "asc" ==> forall i, j :: 0 <= i < j < |r| ==> r[i].price <= r[j].price
    ensures sort != "asc" ==> forall i, j :: 0 <= i < j < |r| ==> r[i].price >= r[j].price
    ensures forall c :: PricedAt(r, c) == PricedAt(xs, c)
  {
    var key := PriceKey(sort == "asc");
    var r := StableSort.SortBy(xs, key);
    assert forall i, j :: 0 <= i < j < |r| ==> key(r[i]) <= key(r[j]);
    assert forall c :: PricedAt(r, c) == PricedAt(xs, c) by {
      forall c ensures PricedAt(r, c) == PricedAt(xs, c) {
        var k := if sort == "asc" then c else -c;
        KeyGroupIsPriceGroup(r, sort == "asc", c);
        KeyGroupIsPriceGroup(xs, sort == "asc", c);
        assert StableSort.WithKey(r, key, k) == StableSort.WithKey(xs, key, k);
      }
    }
    r
  }

  /** Any list the stable sort may return, the one above is it. */
  lemma SortProductsIsTheStableSort(xs: seq<Product>, r: seq<Product>, sort: string)
    requires multiset(r) == multiset(xs)
    requires forall i, j :: 0 <= i < j < |r| ==> Compare(sort, r[i], r[j]) <= 0
    requires forall c :: PricedAt(r, c) == PricedAt(xs, c)
    ensures r == SortProducts(xs, sort)
  {
    var ascending := sort == "asc";
    var key := PriceKey(ascending);
    forall i, j | 0 <= i < j < |r| ensures key(r[i]) <= key(r[j]) {
      assert Compare(sort, r[i], r[j]) <= 0;
    }
    forall k ensures StableSort.WithKey(r, key, k) == StableSort.WithKey(xs, key, k) {
      var c := if ascending then k else -k;
      KeyGroupIsPriceGroup(r, ascending, c);
      KeyGroupIsPriceGroup(xs, ascending, c);
      assert PricedAt(r, c) == PricedAt(xs, c);
    }
    StableSort.StableSortIsUnique(xs, r, key);
  }

  lemma PricedAtSingle(p: Product, c: int)
    ensures PricedAt([p], c) == if p.price == c then [p] else []
  {
    assert [p][1..] == [];
  }

  lemma PricedAtFour(a: Product, b: Product, d: Product, e: Product, c: int)
    ensures PricedAt([a, b, d, e], c) == PricedAt([a], c) + PricedAt([b], c) + PricedAt([d], c) + PricedAt([e], c)
  {
    assert [a, b, d, e] == [a] + [b] + [d] + [e];
    PricedAtConcat([a] + [b] + [d], [e], c);
    PricedAtConcat([a] + [b], [d], c);
    PricedAtConcat([a], [b], c);
  }

  /** Four products priced 20, 5, 5 and 15, in that input order. */
  const Example: seq<Product> := [Product(1, "w", 20, "c", "", ""), Product(2, "x", 5, "c", "", ""),
                                  Product(3, "y", 5, "c", "", ""), Product(4, "z", 15, "c", "", "")]

  /** Either sorted order of the example holds the same products. */
  lemma ExamplePermuted(r: seq<Product>)
    requires r == [Example[1], Example[2], Example[3], Example[0]]
          || r == [Example[0], Example[3], Example[1], Example[2]]
    ensures multiset(r) == multiset(Example)
  {
    assert multiset(Example) == multiset{Example[0], Example[1], Example[2], Example[3]};
    assert multiset(r) == multiset{r[0], r[1], r[2], r[3]};
  }

  /** Either sorted order of the example has its price groups. */
  lemma ExampleGroup(r: seq<Product>, c: int)
    requires r == [Example[1], Example[2], Example[3], Example[0]]
          || r == [Example[0], Example[3], Example[1], Example[2]]
    ensures PricedAt(r, c) == PricedAt(Example, c)
  {
    var xs := Example;
    PricedAtFour(xs[0], xs[1], xs[2], xs[3], c);
    PricedAtFour(r[0], r[1], r[2], r[3], c);
    PricedAtSingle(xs[0], c);
    PricedAtSingle(xs[1], c);
    PricedAtSingle(xs[2], c);
    PricedAtSingle(xs[3], c);
  }

  /** The requirements of the stable sort's uniqueness, for either sorted order of the example. */
  lemma ExampleRearranged(r: seq<Product>)
    requires r == [Example[1], Example[2], Example[3], Example[0]]
          || r == [Example[0], Example[3], Example[1], Example[2]]
    ensures multiset(r) == multiset(Example)
    ensures forall c :: PricedAt(r, c) == PricedAt(Example, c)
  {
    ExamplePermuted(r);
    forall c ensures PricedAt(r, c) == PricedAt(Example, c) {
      ExampleGroup(r, c);
    }
  }

  /** Prices 20, 5, 5, 15 list as 5, 5, 15, 20 under "asc", the two 5s in their order. */
  lemma SortExampleAscending()
    ensures SortProducts(Example, "asc") == [Example[1], Example[2], Example[3], Example[0]]
  {
    var r := [Example[1], Example[2], Example[3], Example[0]];
    ExampleRearranged(r);
    SortProductsIsTheStableSort(Example, r, "asc");
  }

  /** Under "desc" they list as 20, 15, 5, 5, the two 5s still in their order. */
  lemma SortExampleDescending()
    ensures SortProducts(Example, "desc") == [Example[0], Example[3], Example[1], Example[2]]
  {
    var r := [Example[0], Example[3], Example[1], Example[2]];
    ExampleRearranged(r);
    SortProductsIsTheStableSort(Example, r, "desc");
  }

  // ---------------------------------------------------------------- fetch and merge

  /** The requests `fetchProducts` issues for a selection, in issue order. */
  function Requests(selected: seq<string>): (rs: seq<Request>)
  {
    if |selected| > 0 then seq(|selected|, i requires 0 <= i < |selected| => ByCategory(selected[i]))
    else [AllProducts]
  }

  /** `Promise.all`: every response in request order, or None as soon as one request fails. */
  function AwaitAll(service: Request -> Option<seq<Product>>, rs: seq<Request>)
    : (r: Option<seq<seq<Product>>>)
    ensures r.Some? <==> forall i :: 0 <= i < |rs| ==> service(rs[i]).Some?
    ensures r.Some? ==> |r.value| == |rs| && forall i :: 0 <= i < |rs| ==> r.value[i] == service(rs[i]).value
  {
    if rs == [] then Some([])
    else match service(rs[0])
      case None => None
      case Some(first) =>
        match AwaitAll(service, rs[1..])
        case None => None
        case Some(rest) => Some([first] + rest)
  }

  /** `responses.flatMap(r => r.data)`: the responses back to back, duplicates kept. */
  function Concat(responses: seq<seq<Product>>): seq<Product>
  {
    if responses == [] then [] else responses[0] + Concat(responses[1..])
  }

  lemma {:induction false} ConcatAppend(a: seq<seq<Product>>, b: seq<seq<Product>>)
    ensures Concat(a + b) == Concat(a) + Concat(b)
  {
    if a == [] {
      assert a + b == b;
    } else {
      assert (a + b)[0] == a[0];
      assert (a + b)[1..] == a[1..] + b;
      ConcatAppend(a[1..], b);
    }
  }

  /** The i-th response sits, whole and in order, between the responses before and after it. */
  lemma {:induction false} ConcatSplit(rs: seq<seq<Product>>, i: nat)
    requires i < |rs|
    ensures Concat(rs) == Concat(rs[..i]) + rs[i] + Concat(rs[i + 1..])
  {
    if i == 0 {
      assert rs[..0] == [];
    } else {
      var tail := rs[1..];
      ConcatSplit(tail, i - 1);
      assert tail[..i - 1] == rs[..i][1..];
      assert tail[i - 1] == rs[i] && tail[i..] == rs[i + 1..];
      assert rs[..i][0] == rs[0];
    }
  }

  lemma ConcatSingle(r: seq<Product>)
    ensures Concat([r]) == r
  {
    assert [r][1..] == [];
  }

  /** The single whole-catalog request succeeds with its one response. */
  lemma AwaitSingle(service: Request -> Option<seq<Product>>, r: Request)
    ensures AwaitAll(service, [r]) == if service(r).Some? then Some([service(r).value]) else None
  {
    if service(r).Some? {
      var v := AwaitAll(service, [r]).value;
      assert |v| == 1 && v[0] == service(r).value;
      assert v == [service(r).value];
    }
  }

  /**
   * The list `fetchProducts` hands to `setProducts` for the query `ps`, or None when a
   * request fails (the `catch` path, which leaves `products` as it was).
   */
  function FetchResult(ps: Params, service: Request -> Option<seq<Product>>): Option<seq<Product>>
  {
    match AwaitAll(service, Requests(SelectedCategories(ps)))
    case None => None
    case Some(responses) => Some(SortProducts(Concat(responses), SortParam(ps)))
  }

  /** The fetch fails exactly when one of its requests fails. */
  lemma FetchFailsIffARequestFails(ps: Params, service: Request -> Option<seq<Product>>)
    ensures FetchResult(ps, service).None?
            <==> exists r :: r in Requests(SelectedCategories(ps)) && service(r).None?
  {
    var rs := Requests(SelectedCategories(ps));
    if FetchResult(ps, service).None? {
      var i :| 0 <= i < |rs| && service(rs[i]).None?;
      assert rs[i] in rs;
    }
  }

  /** With no category selected: one request for the whole catalog, and the listing is its sort. */
  lemma FetchWithoutSelection(ps: Params, service: Request -> Option<seq<Product>>)
    requires SelectedCategories(ps) == []
    ensures Requests(SelectedCategories(ps)) == [AllProducts]
    ensures FetchResult(ps, service).Some? <==> service(AllProducts).Some?
    ensures service(AllProducts).Some? ==>
              FetchResult(ps, service) == Some(SortProducts(service(AllProducts).value, SortParam(ps)))
  {
    AwaitSingle(service, AllProducts);
    if service(AllProducts).Some? {
      ConcatSingle(service(AllProducts).value);
    }
  }

  /** With categories selected: one request per category, merged in selection order. */
  lemma FetchWithSelection(ps: Params, service: Request -> Option<seq<Product>>)
    requires SelectedCategories(ps) != []
    ensures |Requests(SelectedCategories(ps))| == |SelectedCategories(ps)|
    ensures forall i :: 0 <= i < |SelectedCategories(ps)| ==>
              Requests(SelectedCategories(ps))[i] == ByCategory(SelectedCategories(ps)[i])
    ensures FetchResult(ps, service).Some? ==>
              var merged := Concat(AwaitAll(service, Requests(SelectedCategories(ps))).value);
              && multiset(FetchResult(ps, service).value) == multiset(merged)
              && forall c :: PricedAt(FetchResult(ps, service).value, c) == PricedAt(merged, c)
  {
  }

  /**
   * Two selected categories: among equally priced products, those of the first category's
   * response come first, each response keeping its own order.
   */
  lemma TwoCategoriesTieOrder(ps: Params, service: Request -> Option<seq<Product>>, c: int)
    requires SelectedCategories(ps) == ["a", "b"]
    requires service(ByCategory("a")).Some? && service(ByCategory("b")).Some?
    ensures FetchResult(ps, service).Some?
    ensures PricedAt(FetchResult(ps, service).value, c)
            == PricedAt(service(ByCategory("a")).value, c) + PricedAt(service(ByCategory("b")).value, c)
  {
    var sel := SelectedCategories(ps);
    var rs := Requests(sel);
    assert rs == [ByCategory("a"), ByCategory("b")];
    var responses := AwaitAll(service, rs).value;
    var ra, rb := service(ByCategory("a")).value, service(ByCategory("b")).value;
    assert responses == [ra, rb];
    assert Concat(responses) == ra + Concat([rb]);
    assert Concat([rb]) == rb + Concat([]);
    PricedAtConcat(ra, rb, c);
    assert Concat(responses) == ra + rb;
  }

  /** The order of the listing: ascending when the sort value is "asc", descending otherwise. */
  lemma FetchOrder(ps: Params, service: Request -> Option<seq<Product>>)
    requires FetchResult(ps, service).Some?
    ensures var r := FetchResult(ps, service).value;
            && (Ascending(ps) ==> forall i, j :: 0 <= i < j < |r| ==> r[i].price <= r[j].price)
            && (!Ascending(ps) ==> forall i, j :: 0 <= i < j < |r| ==> r[i].price >= r[j].price)
  {
  }

  // ---------------------------------------------------------------- toggling

  /** `existing.filter(c => c !== cat)` */
  function Without(s: seq<string>, x: string): (r: seq<string>)
    ensures forall c :: c in r <==> c in s && c != x
    ensures |r| <= |s|
  {
    if s == [] then []
    else if s[0] == x then Without(s[1..], x)
    else [s[0]] + Without(s[1..], x)
  }

  lemma {:induction false} WithoutConcat(a: seq<string>, b: seq<string>, x: string)
    ensures Without(a + b, x) == Without(a, x) + Without(b, x)
  {
    if a == [] {
      assert a + b == b;
    } else {
      assert (a + b)[0] == a[0];
      assert (a + b)[1..] == a[1..] + b;
      WithoutConcat(a[1..], b, x);
    }
  }

  lemma {:induction false} WithoutAbsent(s: seq<string>, x: string)
    requires x !in s
    ensures Without(s, x) == s
  {
    if s != [] {
      WithoutAbsent(s[1..], x);
      assert s == [s[0]] + s[1..];
    }
  }

  /** Removing the single occurrence of `x` leaves the other categories in their order. */
  lemma RemoveSingleOccurrence(s: seq<string>, i: nat)
    requires i < |s|
    requires s[i] !in s[..i] && s[i] !in s[i + 1..]
    ensures Without(s, s[i]) == s[..i] + s[i + 1..]
  {
    assert s == s[..i] + [s[i]] + s[i + 1..];
    WithoutConcat(s[..i] + [s[i]], s[i + 1..], s[i]);
    WithoutConcat(s[..i], [s[i]], s[i]);
    WithoutAbsent(s[..i], s[i]);
    WithoutAbsent(s[i + 1..], s[i]);
  }

  /** The selection after `toggleCategory(cat)`. */
  function Toggled(selected: seq<string>, cat: string): seq<string>
  {
    if cat in selected then Without(selected, cat) else selected + [cat]
  }

  /** A selection without repeats. */
  predicate Distinct(s: seq<string>)
  {
    forall i, j :: 0 <= i < j < |s| ==> s[i] != s[j]
  }

  lemma {:induction false} WithoutKeepsDistinct(s: seq<string>, x: string)
    requires Distinct(s)
    ensures Distinct(Without(s, x))
  {
    if s != [] {
      assert Distinct(s[1..]) by {
        forall i, j | 0 <= i < j < |s[1..]| ensures s[1..][i] != s[1..][j] {
          assert s[1..][i] == s[i + 1] && s[1..][j] == s[j + 1];
        }
      }
      WithoutKeepsDistinct(s[1..], x);
      if s[0] != x {
        var rest := Without(s[1..], x);
        assert s[0] !in s[1..];
        assert s[0] !in rest;
        var r := [s[0]] + rest;
        forall i, j | 0 <= i < j < |r| ensures r[i] != r[j] {
          if i == 0 {
            assert r[j] == rest[j - 1] && rest[j - 1] in rest;
          } else {
            assert r[i] == rest[i - 1] && r[j] == rest[j - 1];
          }
        }
      }
    }
  }

  /** Toggling keeps a selection free of repeats. */
  lemma ToggleKeepsDistinct(selected: seq<string>, cat: string)
    requires Distinct(selected)
    ensures Distinct(Toggled(selected, cat))
  {
    if cat in selected {
      WithoutKeepsDistinct(selected, cat);
    }
  }

  /** Toggling an unselected category twice restores the selection. */
  lemma ToggleTwiceRestores(selected: seq<string>, cat: string)
    requires cat !in selected
    ensures Toggled(Toggled(selected, cat), cat) == selected
  {
    WithoutConcat(selected, [cat], cat);
    WithoutAbsent(selected, cat);
    assert Without([cat], cat) == Without([], cat);
  }

  /** Toggling a selected category twice moves it to the end of the selection. */
  lemma ToggleSelectedTwiceMovesLast(selected: seq<string>, cat: string)
    requires cat in selected
    ensures Toggled(Toggled(selected, cat), cat) == Without(selected, cat) + [cat]
  {
  }

  /** The query after `toggleCategory(cat)` on the query `ps`. */
  function ToggleParams(ps: Params, cat: string): (r: Params)
    ensures SelectedCategories(r) == Toggled(SelectedCategories(ps), cat)
    ensures forall n :: n != "category" ==> GetAll(r, n) == GetAll(ps, n)
    ensures SortParam(r) == SortParam(ps)
  {
    var existing := GetAll(ps, "category");
    if cat in existing then AppendAll(Delete(ps, "category"), "category", Without(existing, cat))
    else Append(ps, "category", cat)
  }

  /** Toggling an unselected category twice restores every query value. */
  lemma ToggleParamsTwiceRestores(ps: Params, cat: string, n: string)
    requires cat !in SelectedCategories(ps)
    ensures GetAll(ToggleParams(ToggleParams(ps, cat), cat), n) == GetAll(ps, n)
  {
    if n == "category" {
      ToggleTwiceRestores(SelectedCategories(ps), cat);
    }
  }

  /** The query after `handleSortChange(val)`. */
  function SortChangeParams(ps: Params, val: string): (r: Params)
    ensures SelectedCategories(r) == SelectedCategories(ps)
    ensures GetAll(r, "sort") == [val]
    ensures forall n :: n != "sort" ==> GetAll(r, n) == GetAll(ps, n)
    ensures SortParam(r) == if val == "" then "asc" else val
  {
    Set(ps, "sort", val)
  }

  // ---------------------------------------------------------------- the page

  /** The page's state: the URL query, the listed products and the loading flag. */
  class HomePage {
    var params: Params
    var products: seq<Product>
    var loading: bool

    constructor (query: Params)
      ensures params == query && products == [] && !loading
    {
      params := query;
      products := [];
      loading := false;
    }

    /**
     * `fetchProducts`: issues the requests for the current selection, and on success
     * replaces `products` by the sorted merge of the responses; on failure `products`
     * stays as it was. Either way `loading` ends false.
     */
    method FetchProducts(service: Request -> Option<seq<Product>>) returns (issued: seq<Request>)
      modifies this`products, this`loading
      ensures issued == Requests(SelectedCategories(params))
      ensures products == match FetchResult(params, service)
                          case Some(listing) => listing
                          case None => old(products)
      ensures !loading
    {
      loading := true;
      var selected := SelectedCategories(params);
      var sort := SortParam(params);
      var result: seq<Product> := [];
      if |selected| > 0 {
        issued := seq(|selected|, i requires 0 <= i < |selected| => ByCategory(selected[i]));
        assert issued == Requests(selected);
        var responses := AwaitAll(service, issued);
        if responses.None? {
          loading := false;
          return;
        }
        result := Concat(responses.value);
      } else {
        issued := [AllProducts];
        var res := service(AllProducts);
        if res.None? {
          loading := false;
          return;
        }
        result := res.value;
        AwaitSingle(service, AllProducts);
        ConcatSingle(result);
      }
      var sorted := SortProducts(result, sort);
      products := sorted;
      loading := false;
    }

    /** `toggleCategory(cat)`: rewrites the `category` values of the query. */
    method ToggleCategory(cat: string)
      modifies this`params
      ensures params == ToggleParams(old(params), cat)
    {
      var newParams := params;
      var existing := GetAll(params, "category");
      if cat in existing {
        var updated := Without(existing, cat);
        newParams := Delete(newParams, "category");
        var i := 0;
        while i < |updated|
          invariant 0 <= i <= |updated|
          invariant AppendAll(newParams, "category", updated[i..])
                    == AppendAll(Delete(params, "category"), "category", updated)
        {
          assert updated[i..][0] == updated[i] && updated[i..][1..] == updated[i + 1..];
          newParams := Append(newParams, "category", updated[i]);
          i := i + 1;
        }
      } else {
        newParams := Append(newParams, "category", cat);
      }
      params := newParams;
    }

    /** `handleSortChange(val)`: sets the `sort` value of the query. */
    method HandleSortChange(val: string)
      modifies this`params
      ensures params == SortChangeParams(old(params), val)
    {
      var newParams := params;
      newParams := Set(newParams, "sort", val);
      params := newParams;
    }
  }
}
