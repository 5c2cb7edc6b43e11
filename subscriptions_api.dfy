/** The mock subscriptions API: a filtered, sorted and paginated query over
    an in-memory table, and create/update/delete on that table. */
module SubscriptionsApi {
  import opened Wrappers
  import opened Strings
  import opened Types
  import Sorting
  import Seqs

  /** What the query needs from the platform: `new Date(text).getTime()`
      (`None` for an invalid date, where the platform yields NaN) and
      `String.prototype.localeCompare`. */
  datatype Env = Env(parseInstant: string -> Option<int>, localeCompare: (string, string) -> int)

  const NotFound: string := "Subscription not found"

  // ---------------------------------------------------------------------
  // Filtering

  /** `tags.some(tag => tag.toLowerCase().includes(q))`. */
  predicate AnyTagContains(tags: seq<string>, q: string)
    ensures AnyTagContains(tags, q) <==> exists i :: 0 <= i < |tags| && Contains(Lower(tags[i]), q)
  {
    if tags == [] then false
    else if Contains(Lower(tags[0]), q) then true
    else
      assert forall i :: 0 < i < |tags| ==> tags[i] == tags[1..][i - 1];
      AnyTagContains(tags[1..], q)
  }

  /** The search test for an already lower-cased query: the name, the
      description if there is one, or some tag contains it. */
  predicate MatchesSearch(s: Subscription, q: string) {
    || Contains(Lower(s.name), q)
    || (s.description.Some? && Contains(Lower(s.description.value), q))
    || AnyTagContains(s.tags, q)
  }

  /** One filtering step of the query. */
  datatype Criterion =
    | SearchText(query: string)
    | InCategories(categories: seq<Category>)
    | InStatuses(statuses: seq<Status>)
    | InCurrencies(currencies: seq<Currency>)
    | PriceBetween(min: int, max: int)

  predicate Holds(c: Criterion, s: Subscription) {
    match c
    case SearchText(q) => MatchesSearch(s, q)
    case InCategories(cs) => s.category in cs
    case InStatuses(ss) => s.status in ss
    case InCurrencies(cs) => s.currency in cs
    case PriceBetween(lo, hi) => lo <= s.price && s.price <= hi
  }

  predicate HoldsAll(cs: seq<Criterion>, s: Subscription) {
    forall i :: 0 <= i < |cs| ==> Holds(cs[i], s)
  }

  /** `rows.filter(...)` for one criterion. */
  function Keep(rows: seq<Subscription>, c: Criterion): (r: seq<Subscription>)
    ensures forall x :: x in r ==> Holds(c, x)
  {
    if rows == [] then []
    else (if Holds(c, rows[0]) then [rows[0]] else []) + Keep(rows[1..], c)
  }

  /** One pass keeping the rows that meet every criterion at once, in
      input order. */
  function KeepAll(rows: seq<Subscription>, cs: seq<Criterion>): (r: seq<Subscription>)
    ensures Seqs.IsSubsequence(r, rows)
  {
    if rows == [] then []
    else
      var rest := KeepAll(rows[1..], cs);
      if HoldsAll(cs, rows[0]) then
        assert ([rows[0]] + rest)[1..] == rest;
        [rows[0]] + rest
      else rest
  }

  /** The single pass keeps exactly the qualifying rows, each as often as
      the input holds it. */
  lemma {:induction false} KeepAllCounts(rows: seq<Subscription>, cs: seq<Criterion>)
    ensures forall x :: multiset(KeepAll(rows, cs))[x] == if HoldsAll(cs, x) then multiset(rows)[x] else 0
    decreases |rows|
  {
    if rows != [] {
      KeepAllCounts(rows[1..], cs);
      assert rows == [rows[0]] + rows[1..];
    }
  }

  lemma HoldsAllSingle(c: Criterion, s: Subscription)
    ensures HoldsAll([c], s) <==> Holds(c, s)
  {
    assert [c][0] == c;
  }

  lemma HoldsAllAppend(a: seq<Criterion>, b: seq<Criterion>, s: Subscription)
    ensures HoldsAll(a + b, s) <==> HoldsAll(a, s) && HoldsAll(b, s)
  {
    if HoldsAll(a, s) && HoldsAll(b, s) {
      forall i | 0 <= i < |a + b| ensures Holds((a + b)[i], s) {
        if i >= |a| { assert (a + b)[i] == b[i - |a|]; }
      }
    }
    if HoldsAll(a + b, s) {
      forall i | 0 <= i < |b| ensures Holds(b[i], s) {
        assert (a + b)[i + |a|] == b[i];
      }
      forall i | 0 <= i < |a| ensures Holds(a[i], s) {
        assert (a + b)[i] == a[i];
      }
    }
  }

  /** Runs the criteria one after another, as the query reassigns its
      working list once per active filter. */
  function ApplyAll(rows: seq<Subscription>, cs: seq<Criterion>): seq<Subscription>
    decreases |cs|
  {
    if cs == [] then rows else ApplyAll(Keep(rows, cs[0]), cs[1..])
  }

  lemma {:induction false} KeepThenKeepAll(rows: seq<Subscription>, c: Criterion, cs: seq<Criterion>)
    ensures KeepAll(Keep(rows, c), cs) == KeepAll(rows, [c] + cs)
    decreases |rows|
  {
    if rows != [] {
      var h, t := rows[0], rows[1..];
      KeepThenKeepAll(t, c, cs);
      HoldsAllAppend([c], cs, h);
      HoldsAllSingle(c, h);
      if Holds(c, h) {
        assert Keep(rows, c) == [h] + Keep(t, c);
        assert ([h] + Keep(t, c))[1..] == Keep(t, c);
      } else {
        assert Keep(rows, c) == Keep(t, c);
      }
    }
  }

  /** Filtering step by step is filtering once by the conjunction. */
  lemma {:induction false} ApplyAllIsKeepAll(rows: seq<Subscription>, cs: seq<Criterion>)
    ensures ApplyAll(rows, cs) == KeepAll(rows, cs)
    decreases |cs|
  {
    if cs == [] {
      KeepAllNothing(rows);
    } else {
      ApplyAllIsKeepAll(Keep(rows, cs[0]), cs[1..]);
      KeepThenKeepAll(rows, cs[0], cs[1..]);
      assert [cs[0]] + cs[1..] == cs;
    }
  }

  lemma {:induction false} KeepAllNothing(rows: seq<Subscription>)
    ensures KeepAll(rows, []) == rows
    decreases |rows|
  {
    if rows != [] {
      KeepAllNothing(rows[1..]);
      assert [rows[0]] + rows[1..] == rows;
    }
  }

  /** The active criteria of a filter, in the order the query applies them:
      search only for a non-empty query, each allow-list only when it is
      non-empty, and the price range always. */
  function ActiveCriteria(f: SubscriptionFilters): seq<Criterion> {
    (if f.search != "" then [SearchText(Lower(f.search))] else [])
    + (if |f.categories| > 0 then [InCategories(f.categories)] else [])
    + (if |f.statuses| > 0 then [InStatuses(f.statuses)] else [])
    + (if |f.currencies| > 0 then [InCurrencies(f.currencies)] else [])
    + [PriceBetween(f.priceRange.min, f.priceRange.max)]
  }

  /** Whether a subscription passes the filter: every dimension must agree
      (an empty allow-list or empty search restricts nothing), and the price
      lies in the inclusive range. */
  predicate Admits(f: SubscriptionFilters, s: Subscription) {
    && (f.search == "" || MatchesSearch(s, Lower(f.search)))
    && (f.categories == [] || s.category in f.categories)
    && (f.statuses == [] || s.status in f.statuses)
    && (f.currencies == [] || s.currency in f.currencies)
    && f.priceRange.min <= s.price <= f.priceRange.max
  }

  lemma ActiveCriteriaMeanAdmits(f: SubscriptionFilters, s: Subscription)
    ensures HoldsAll(ActiveCriteria(f), s) <==> Admits(f, s)
  {
    var a := if f.search != "" then [SearchText(Lower(f.search))] else [];
    var b := if |f.categories| > 0 then [InCategories(f.categories)] else [];
    var c := if |f.statuses| > 0 then [InStatuses(f.statuses)] else [];
    var d := if |f.currencies| > 0 then [InCurrencies(f.currencies)] else [];
    var e := [PriceBetween(f.priceRange.min, f.priceRange.max)];
    HoldsAllAppend(a, b, s);
    HoldsAllAppend(a + b, c, s);
    HoldsAllAppend(a + b + c, d, s);
    HoldsAllAppend(a + b + c + d, e, s);
    HoldsAllSingle(SearchText(Lower(f.search)), s);
    HoldsAllSingle(InCategories(f.categories), s);
    HoldsAllSingle(InStatuses(f.statuses), s);
    HoldsAllSingle(InCurrencies(f.currencies), s);
    HoldsAllSingle(PriceBetween(f.priceRange.min, f.priceRange.max), s);
  }

  /** The filtering half of `fetchSubscriptions`. */
  function FilterSubscriptions(rows: seq<Subscription>, f: SubscriptionFilters): seq<Subscription> {
    ApplyAll(rows, ActiveCriteria(f))
  }

  /** The filtered rows are a subsequence of the table holding exactly the
      admitted rows, each as many times as the table holds it. */
  lemma FilterSound(rows: seq<Subscription>, f: SubscriptionFilters)
    ensures Seqs.IsSubsequence(FilterSubscriptions(rows, f), rows)
    ensures forall x :: multiset(FilterSubscriptions(rows, f))[x] == if Admits(f, x) then multiset(rows)[x] else 0
    ensures forall x :: x in FilterSubscriptions(rows, f) <==> x in rows && Admits(f, x)
  {
    ApplyAllIsKeepAll(rows, ActiveCriteria(f));
    KeepAllCounts(rows, ActiveCriteria(f));
    forall x ensures HoldsAll(ActiveCriteria(f), x) <==> Admits(f, x) {
      ActiveCriteriaMeanAdmits(f, x);
    }
    forall x ensures x in FilterSubscriptions(rows, f) <==> x in rows && Admits(f, x) {
      assert x in FilterSubscriptions(rows, f) <==> x in multiset(FilterSubscriptions(rows, f));
    }
  }

  /** An empty category list admits the same rows as any filter that lists
      every category. */
  lemma EmptyCategoriesRestrictNothing(rows: seq<Subscription>, f: SubscriptionFilters)
    requires f.categories == []
    ensures FilterSubscriptions(rows, f) == FilterSubscriptions(rows, f.(categories := AllCategories))
  {
    var g := f.(categories := AllCategories);
    EnumerationsAreExact();
    forall x ensures HoldsAll(ActiveCriteria(f), x) == HoldsAll(ActiveCriteria(g), x) {
      ActiveCriteriaMeanAdmits(f, x);
      ActiveCriteriaMeanAdmits(g, x);
      assert x.category in AllCategories;
    }
    ApplyAllIsKeepAll(rows, ActiveCriteria(f));
    ApplyAllIsKeepAll(rows, ActiveCriteria(g));
    KeepAllSameTest(rows, ActiveCriteria(f), ActiveCriteria(g));
  }

  lemma {:induction false} KeepAllSameTest(rows: seq<Subscription>, cs: seq<Criterion>, ds: seq<Criterion>)
    requires forall x :: HoldsAll(cs, x) == HoldsAll(ds, x)
    ensures KeepAll(rows, cs) == KeepAll(rows, ds)
    decreases |rows|
  {
    if rows != [] { KeepAllSameTest(rows[1..], cs, ds); }
  }

  // ---------------------------------------------------------------------
  // Sorting

  function SortFactor(order: string): int {
    if order == "asc" then 1 else -1
  }

  /** `new Date(a).getTime() - new Date(b).getTime()`; a NaN difference is
      read by the sort as 0. */
  function InstantDiff(env: Env, a: string, b: string): int {
    match (env.parseInstant(a), env.parseInstant(b))
    case (Some(x), Some(y)) => x - y
    case _ => 0
  }

  /** The query's comparator. Any `sortBy` other than the five declared keys
      compares everything equal. */
  function Compare(f: SubscriptionFilters, env: Env, a: Subscription, b: Subscription): int {
    var factor := SortFactor(f.sortOrder);
    if f.sortBy == "name" then factor * env.localeCompare(a.name, b.name)
    else if f.sortBy == "price" then factor * (a.price - b.price)
    else if f.sortBy == "nextBilling" then factor * InstantDiff(env, a.nextBillingDate, b.nextBillingDate)
    else if f.sortBy == "created" then factor * InstantDiff(env, a.createdAt, b.createdAt)
    else if f.sortBy == "updated" then factor * InstantDiff(env, a.updatedAt, b.updatedAt)
    else 0
  }

  function Cmp(f: SubscriptionFilters, env: Env): (Subscription, Subscription) -> int {
    (a: Subscription, b: Subscription) => Compare(f, env, a, b)
  }

  function SortSubscriptions(rows: seq<Subscription>, f: SubscriptionFilters, env: Env): seq<Subscription> {
    Sorting.Sort(Cmp(f, env), rows)
  }

  /** The comparator is a consistent total preorder on `dom`: names are
      collated consistently when sorting by name, and every date of the
      sort key parses when sorting by a date. */
  ghost predicate ComparatorConsistent(f: SubscriptionFilters, env: Env, dom: set<Subscription>) {
    && (f.sortBy == "name" ==> Sorting.PreorderOn(env.localeCompare, set s | s in dom :: s.name))
    && (f.sortBy == "nextBilling" ==> forall s :: s in dom ==> env.parseInstant(s.nextBillingDate).Some?)
    && (f.sortBy == "created" ==> forall s :: s in dom ==> env.parseInstant(s.createdAt).Some?)
    && (f.sortBy == "updated" ==> forall s :: s in dom ==> env.parseInstant(s.updatedAt).Some?)
  }

  /** The instant a date-valued sort key gives a subscription. */
  function KeyInstant(env: Env, key: string, s: Subscription): int {
    var text := if key == "nextBilling" then s.nextBillingDate
                else if key == "created" then s.createdAt else s.updatedAt;
    env.parseInstant(text).GetOr(0)
  }

  /** When the sort key is a number, the comparator is its difference times
      the direction factor. */
  lemma CompareByKey(f: SubscriptionFilters, env: Env, dom: set<Subscription>, a: Subscription, b: Subscription)
    requires ComparatorConsistent(f, env, dom) && a in dom && b in dom
    requires f.sortBy in ["price", "nextBilling", "created", "updated"]
    ensures Compare(f, env, a, b) == SortFactor(f.sortOrder) *
      (if f.sortBy == "price" then a.price - b.price else KeyInstant(env, f.sortBy, a) - KeyInstant(env, f.sortBy, b))
  {
  }

  lemma ComparatorPreorder(f: SubscriptionFilters, env: Env, dom: set<Subscription>)
    requires ComparatorConsistent(f, env, dom)
    ensures Sorting.PreorderOn(Cmp(f, env), dom)
  {
    var cmp := Cmp(f, env);
    var k := SortFactor(f.sortOrder);
    if f.sortBy == "name" {
      var names := set s | s in dom :: s.name;
      forall a, b | a in dom && b in dom ensures cmp(a, b) < 0 <==> cmp(b, a) > 0 {
        assert a.name in names && b.name in names;
      }
      forall a, b, c | a in dom && b in dom && c in dom && cmp(a, b) <= 0 && cmp(b, c) <= 0
        ensures cmp(a, c) <= 0
      {
        assert a.name in names && b.name in names && c.name in names;
        var lc := env.localeCompare;
        if k == 1 {
          assert lc(a.name, b.name) <= 0 && lc(b.name, c.name) <= 0;
          assert lc(a.name, c.name) <= 0;
        } else {
          assert lc(a.name, b.name) >= 0 && lc(b.name, c.name) >= 0;
          assert lc(b.name, a.name) <= 0 && lc(c.name, b.name) <= 0;
          assert lc(c.name, a.name) <= 0;
        }
      }
    } else if f.sortBy in ["price", "nextBilling", "created", "updated"] {
      forall a, b | a in dom && b in dom ensures cmp(a, b) < 0 <==> cmp(b, a) > 0 {
        CompareByKey(f, env, dom, a, b);
        CompareByKey(f, env, dom, b, a);
      }
      forall a, b, c | a in dom && b in dom && c in dom && cmp(a, b) <= 0 && cmp(b, c) <= 0
        ensures cmp(a, c) <= 0
      {
        CompareByKey(f, env, dom, a, b);
        CompareByKey(f, env, dom, b, c);
        CompareByKey(f, env, dom, a, c);
      }
    }
  }

  /** Sorting reorders the filtered rows without adding or dropping any,
      puts them in the order of the chosen key and direction, and keeps rows
      with equal keys in their filtered order. */
  lemma SortSound(rows: seq<Subscription>, f: SubscriptionFilters, env: Env)
    requires ComparatorConsistent(f, env, set x | x in rows)
    ensures multiset(SortSubscriptions(rows, f, env)) == multiset(rows)
    ensures Sorting.Sorted(Cmp(f, env), SortSubscriptions(rows, f, env))
    ensures forall k :: k in rows ==>
      Sorting.Ties(Cmp(f, env), SortSubscriptions(rows, f, env), k) == Sorting.Ties(Cmp(f, env), rows, k)
  {
    var dom := set x | x in rows;
    ComparatorPreorder(f, env, dom);
    Sorting.SortSorted(Cmp(f, env), dom, rows);
    forall k | k in rows
      ensures Sorting.Ties(Cmp(f, env), SortSubscriptions(rows, f, env), k) == Sorting.Ties(Cmp(f, env), rows, k)
    {
      Sorting.SortStable(Cmp(f, env), dom, rows, k);
    }
  }

  /** Sorting by price ascending makes prices non-decreasing, descending
      non-increasing. */
  lemma SortByPriceOrders(rows: seq<Subscription>, f: SubscriptionFilters, env: Env)
    requires f.sortBy == "price"
    ensures var r := SortSubscriptions(rows, f, env);
      forall i, j :: 0 <= i < j < |r| ==>
        if f.sortOrder == "asc" then r[i].price <= r[j].price else r[i].price >= r[j].price
  {
    SortSound(rows, f, env);
  }

  /** Sorting by next billing date, when every such date parses, makes the
      billing instants non-decreasing (ascending) or non-increasing. */
  lemma SortByNextBillingOrders(rows: seq<Subscription>, f: SubscriptionFilters, env: Env)
    requires f.sortBy == "nextBilling"
    requires forall s :: s in rows ==> env.parseInstant(s.nextBillingDate).Some?
    ensures var r := SortSubscriptions(rows, f, env);
      forall i, j :: 0 <= i < j < |r| ==>
        var a, b := KeyInstant(env, "nextBilling", r[i]), KeyInstant(env, "nextBilling", r[j]);
        if f.sortOrder == "asc" then a <= b else a >= b
  {
    var dom := set x | x in rows;
    SortSound(rows, f, env);
    var r := SortSubscriptions(rows, f, env);
    forall i, j | 0 <= i < j < |r|
      ensures var a, b := KeyInstant(env, "nextBilling", r[i]), KeyInstant(env, "nextBilling", r[j]);
        if f.sortOrder == "asc" then a <= b else a >= b
    {
      assert r[i] in multiset(rows) && r[j] in multiset(rows);
      CompareByKey(f, env, dom, r[i], r[j]);
    }
  }

  /** An unrecognised sort key leaves the rows in filter order. */
  lemma UnknownSortKeyKeepsOrder(rows: seq<Subscription>, f: SubscriptionFilters, env: Env)
    requires f.sortBy !in DeclaredSortKeys
    ensures SortSubscriptions(rows, f, env) == rows
  {
    forall a, b | a in rows && b in rows ensures Cmp(f, env)(a, b) == 0 {
      UnknownKeyComparesEqual(f, env, a, b);
    }
    Sorting.SortAllTiesIsIdentity(Cmp(f, env), rows);
  }

  lemma UnknownKeyComparesEqual(f: SubscriptionFilters, env: Env, a: Subscription, b: Subscription)
    requires f.sortBy !in DeclaredSortKeys
    ensures Compare(f, env, a, b) == 0
  {
    assert f.sortBy != DeclaredSortKeys[0] && f.sortBy != DeclaredSortKeys[1] && f.sortBy != DeclaredSortKeys[2];
    assert f.sortBy != DeclaredSortKeys[3] && f.sortBy != DeclaredSortKeys[4];
  }

  // ---------------------------------------------------------------------
  // Pagination

  /** How `Array.prototype.slice` reads an index: negative counts from the
      end, and the result is clamped to the array. */
  function RelativeIndex(k: int, n: nat): (i: nat)
    ensures i <= n
    ensures 0 <= k <= n ==> i == k
    ensures k > n ==> i == n
    ensures k < 0 ==> i == (if n + k < 0 then 0 else n + k)
  {
    if k < 0 then (if n + k < 0 then 0 else n + k) else if k < n then k else n
  }

  /** `s.slice(start, end)`. */
  function JsSlice<T>(s: seq<T>, start: int, end: int): (r: seq<T>)
    ensures |r| <= |s|
    ensures var from, to := RelativeIndex(start, |s|), RelativeIndex(end, |s|);
      |r| == (if from < to then to - from else 0)
    ensures forall j :: 0 <= j < |r| ==> r[j] == s[RelativeIndex(start, |s|) + j]
  {
    var from, to := RelativeIndex(start, |s|), RelativeIndex(end, |s|);
    if from < to then s[from..to] else []
  }

  /** A slice holds nothing the array does not, and no element more often. */
  lemma JsSliceWithin<T>(s: seq<T>, start: int, end: int)
    ensures multiset(JsSlice(s, start, end)) <= multiset(s)
    ensures forall x :: x in JsSlice(s, start, end) ==> x in s
  {
    var from, to := RelativeIndex(start, |s|), RelativeIndex(end, |s|);
    if from < to {
      assert s == s[..from] + s[from..to] + s[to..];
    }
  }

  function Min(a: int, b: int): int { if a < b then a else b }

  /** The sorted, filtered rows every page is cut from. */
  function Listing(rows: seq<Subscription>, f: SubscriptionFilters, env: Env): (l: seq<Subscription>)
    ensures multiset(l) == multiset(FilterSubscriptions(rows, f))
  {
    SortSubscriptions(FilterSubscriptions(rows, f), f, env)
  }

  /** The query: filter, sort, then cut out page `page` of `limit` rows. */
  function FetchSubscriptions(rows: seq<Subscription>, f: SubscriptionFilters, page: int, limit: int, env: Env)
    : (r: SubscriptionResponse)
    ensures r.page == page && r.limit == limit
    ensures r.total == |FilterSubscriptions(rows, f)|
    ensures forall x :: x in r.data ==> x in rows && Admits(f, x)
  {
    var sorted := Listing(rows, f, env);
    ListingWithin(rows, f, env);
    var start := PageStart(page, limit);
    JsSliceWithin(sorted, start, start + limit);
    SubscriptionResponse(JsSlice(sorted, start, start + limit), |sorted|, page, limit)
  }

  /** Every row of the listing is a row of the table the filters admit. */
  lemma ListingWithin(rows: seq<Subscription>, f: SubscriptionFilters, env: Env)
    ensures forall x :: x in Listing(rows, f, env) ==> x in rows && Admits(f, x)
  {
    var sorted := Listing(rows, f, env);
    FilterSound(rows, f);
    forall x | x in sorted ensures x in FilterSubscriptions(rows, f) { assert x in multiset(sorted); }
  }

  /** Where page `page` of `limit` rows begins: `(page - 1) * limit`. */
  function PageStart(page: int, limit: int): (start: int)
    ensures page >= 1 && limit >= 0 ==> start >= 0
    ensures start + limit == page * limit
  {
    (page - 1) * limit
  }

  /** For a positive page and a non-negative limit, page `page` is the
      window of `limit` rows starting at `(page-1)*limit` in the listing,
      clamped to its end, so it never holds more than `limit` rows; `total`
      does not depend on the page or the limit. */
  lemma PageWindow(rows: seq<Subscription>, f: SubscriptionFilters, page: int, limit: int, env: Env,
                   page2: int, limit2: int)
    requires page >= 1 && limit >= 0
    ensures var l := Listing(rows, f, env);
      var r := FetchSubscriptions(rows, f, page, limit, env);
      var lo := PageStart(page, limit);
      && r.data == l[Min(lo, |l|)..Min(lo + limit, |l|)]
      && |r.data| <= limit
      && r.total == |l| == FetchSubscriptions(rows, f, page2, limit2, env).total
  {
    FetchData(rows, f, page, limit, env);
    FetchTotal(rows, f, page, limit, env);
    FetchTotal(rows, f, page2, limit2, env);
    PageOf(Listing(rows, f, env), page, limit);
  }

  lemma FetchTotal(rows: seq<Subscription>, f: SubscriptionFilters, page: int, limit: int, env: Env)
    ensures FetchSubscriptions(rows, f, page, limit, env).total == |Listing(rows, f, env)|
  {
  }

  lemma FetchData(rows: seq<Subscription>, f: SubscriptionFilters, page: int, limit: int, env: Env)
    ensures var lo := PageStart(page, limit);
      FetchSubscriptions(rows, f, page, limit, env).data == JsSlice(Listing(rows, f, env), lo, lo + limit)
  {
  }

  /** A page below 1 is not rejected: its window counts from the end of
      the listing. Page -1 of 10 rows over 25 rows is rows 5 to 14, and
      page 0 is empty. */
  lemma NonPositivePageCountsFromEnd<T>(l: seq<T>)
    requires |l| == 25
    ensures JsSlice(l, PageStart(-1, 10), PageStart(-1, 10) + 10) == l[5..15]
    ensures JsSlice(l, PageStart(0, 10), PageStart(0, 10) + 10) == []
  {
    var r := JsSlice(l, PageStart(-1, 10), PageStart(-1, 10) + 10);
    assert RelativeIndex(-20, 25) == 5 && RelativeIndex(-10, 25) == 15;
    assert |r| == 10;
  }

  /** Page `page` of `l` for a window of `limit`. */
  lemma PageOf<T>(l: seq<T>, page: int, limit: int)
    requires page >= 1 && limit >= 0
    ensures var lo := PageStart(page, limit);
      && JsSlice(l, lo, lo + limit) == l[Min(lo, |l|)..Min(lo + limit, |l|)]
      && |JsSlice(l, lo, lo + limit)| <= limit
  {
    Window(l, PageStart(page, limit), limit);
  }

  lemma Window<T>(l: seq<T>, lo: int, len: int)
    requires lo >= 0 && len >= 0
    ensures var r := JsSlice(l, lo, lo + len);
      && r == l[Min(lo, |l|)..Min(lo + len, |l|)]
      && |r| <= len
  {
  }

  /** Pages 1..k of the listing, concatenated. */
  function PagesUpTo(rows: seq<Subscription>, f: SubscriptionFilters, limit: int, env: Env, k: nat)
    : seq<Subscription>
  {
    if k == 0 then [] else PagesUpTo(rows, f, limit, env, k - 1) + FetchSubscriptions(rows, f, k, limit, env).data
  }

  lemma {:induction false} PagesUpToPrefix(rows: seq<Subscription>, f: SubscriptionFilters, limit: int, env: Env, k: nat)
    requires limit >= 1
    ensures var l := Listing(rows, f, env);
      PagesUpTo(rows, f, limit, env, k) == l[..Min(PageStart(k + 1, limit), |l|)]
  {
    var l := Listing(rows, f, env);
    if k == 0 {
      assert PageStart(1, limit) == 0;
    } else {
      PagesUpToPrefix(rows, f, limit, env, k - 1);
      PageWindow(rows, f, k, limit, env, k, limit);
      PageStartNext(k, limit);
      var a, b := Min(PageStart(k, limit), |l|), Min(PageStart(k + 1, limit), |l|);
      var prev, page := PagesUpTo(rows, f, limit, env, k - 1), FetchSubscriptions(rows, f, k, limit, env).data;
      assert prev == l[..a];
      assert page == l[a..b];
      Seqs.TakeSplit(l, a, b);
    }
  }

  lemma PageStartNext(k: int, limit: int)
    ensures PageStart(k + 1, limit) == PageStart(k, limit) + limit
  {
    assert PageStart(k + 1, limit) == k * limit;
  }

  /** Concatenating pages 1..k, once they cover the total, gives back the
      whole listing: every filtered row exactly once. */
  lemma PagesPartitionListing(rows: seq<Subscription>, f: SubscriptionFilters, limit: int, env: Env, k: nat)
    requires limit >= 1 && k * limit >= FetchSubscriptions(rows, f, 1, limit, env).total
    ensures PagesUpTo(rows, f, limit, env, k) == Listing(rows, f, env)
    ensures multiset(PagesUpTo(rows, f, limit, env, k)) == multiset(FilterSubscriptions(rows, f))
  {
    PagesUpToPrefix(rows, f, limit, env, k);
    FetchTotal(rows, f, 1, limit, env);
    var l := Listing(rows, f, env);
    assert PageStart(k + 1, limit) == k * limit;
    assert l[..|l|] == l;
  }

  // ---------------------------------------------------------------------
  // The table

  /** `findIndex(sub => sub.id === id)`. */
  function IndexOfId(rows: seq<Subscription>, id: string): (r: Option<nat>)
    ensures r.None? <==> forall i :: 0 <= i < |rows| ==> rows[i].id != id
    ensures r.Some? ==>
      && r.value < |rows| && rows[r.value].id == id
      && forall i :: 0 <= i < r.value ==> rows[i].id != id
  {
    if rows == [] then None
    else if rows[0].id == id then Some(0)
    else match IndexOfId(rows[1..], id)
      case None => None
      case Some(i) => Some(i + 1)
  }

  /** The module-level table of subscriptions. */
  class SubscriptionStore {
    var rows: seq<Subscription>

    constructor (initial: seq<Subscription>)
      ensures rows == initial
    {
      rows := initial;
    }

    /** `fetchSubscriptions`: reads the table and changes nothing. */
    method Fetch(f: SubscriptionFilters, page: int, limit: int, env: Env) returns (r: SubscriptionResponse)
      ensures r == FetchSubscriptions(rows, f, page, limit, env)
    {
      r := FetchSubscriptions(rows, f, page, limit, env);
    }

    /** `createSubscription`: the new row goes in front. */
    method Create(data: CreateSubscriptionRequest, id: string, now: string) returns (s: Subscription)
      modifies this
      ensures s == FromCreateRequest(data, id, now)
      ensures rows == [s] + old(rows)
    {
      s := FromCreateRequest(data, id, now);
      rows := [s] + rows;
    }

    /** `updateSubscription`: the first row with the id gets the request's
      fields and a fresh `updatedAt`; an unknown id fails and changes
      nothing. */
    method Update(req: UpdateSubscriptionRequest, now: string) returns (r: Result<Subscription>)
      modifies this
      ensures IndexOfId(old(rows), req.id).None? ==> r == Err(NotFound) && rows == old(rows)
      ensures IndexOfId(old(rows), req.id).Some? ==>
        var i := IndexOfId(old(rows), req.id).value;
        r == Ok(ApplyUpdate(old(rows)[i], req, now)) && rows == old(rows)[i := r.value]
    {
      var index := IndexOfId(rows, req.id);
      if index.None? {
        return Err(NotFound);
      }
      var updated := ApplyUpdate(rows[index.value], req, now);
      rows := rows[index.value := updated];
      r := Ok(updated);
    }

    /** `deleteSubscription`: the first row with the id is spliced out; an
      unknown id fails and changes nothing. */
    method Delete(id: string) returns (r: Result<()>)
      modifies this
      ensures IndexOfId(old(rows), id).None? ==> r == Err(NotFound) && rows == old(rows)
      ensures IndexOfId(old(rows), id).Some? ==>
        var i := IndexOfId(old(rows), id).value;
        r == Ok(()) && rows == old(rows)[..i] + old(rows)[i + 1..]
    {
      var index := IndexOfId(rows, id);
      if index.None? {
        return Err(NotFound);
      }
      rows := rows[..index.value] + rows[index.value + 1..];
      r := Ok(());
    }
  }

  /** A successful update keeps the table's length, the ids and the order
      of all rows, and changes no row but the first with the id. */
  lemma UpdateFrame(rows: seq<Subscription>, req: UpdateSubscriptionRequest, now: string)
    requires IndexOfId(rows, req.id).Some?
    ensures var i := IndexOfId(rows, req.id).value;
      var after := rows[i := ApplyUpdate(rows[i], req, now)];
      && |after| == |rows|
      && (forall j :: 0 <= j < |rows| ==> after[j].id == rows[j].id)
      && (forall j :: 0 <= j < |rows| && j != i ==> after[j] == rows[j])
  {
  }

  /** A successful delete removes exactly one row holding the id and keeps
      the others in order. */
  lemma DeleteFrame(rows: seq<Subscription>, id: string)
    requires IndexOfId(rows, id).Some?
    ensures var i := IndexOfId(rows, id).value;
      var after := rows[..i] + rows[i + 1..];
      && |after| == |rows| - 1
      && multiset(after) + multiset{rows[i]} == multiset(rows)
      && rows[i].id == id
      && Seqs.IsSubsequence(after, rows)
  {
    var i := IndexOfId(rows, id).value;
    assert rows == rows[..i] + [rows[i]] + rows[i + 1..];
    SkipOneIsSubsequence(rows, i);
  }

  lemma {:induction false} SkipOneIsSubsequence<T>(s: seq<T>, i: nat)
    requires i < |s|
    ensures Seqs.IsSubsequence(s[..i] + s[i + 1..], s)
    decreases i
  {
    if i == 0 {
      assert s[..0] + s[1..] == s[1..];
      SelfSubsequence(s[1..]);
    } else {
      SkipOneIsSubsequence(s[1..], i - 1);
      var r := s[..i] + s[i + 1..];
      assert r[0] == s[0];
      assert r[1..] == s[1..][..i - 1] + s[1..][i..];
    }
  }

  lemma {:induction false} SelfSubsequence<T>(s: seq<T>)
    ensures Seqs.IsSubsequence(s, s)
    decreases |s|
  {
    if s != [] { SelfSubsequence(s[1..]); }
  }
}
