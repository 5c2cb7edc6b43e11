/** The editing helpers of the subscription filter dialog: the allow-list
    toggles, the price slider, the sort selector and the active-filter
    badge. Each handler builds a partial filter record that the list state
    merges with `setFilters`. */
module FilterDialog {
  import opened Wrappers
  import opened Strings
  import opened Types
  import SubscriptionsApi
  import SubscriptionsSlice
  import Seqs

  // ---------------------------------------------------------------------
  // Toggles

  /** `list.filter(x => x !== v)`. */
  function Without<T(==, !new)>(list: seq<T>, v: T): (r: seq<T>)
    ensures forall x :: x in r <==> x in list && x != v
    ensures forall x :: x != v ==> multiset(r)[x] == multiset(list)[x]
    ensures multiset(r)[v] == 0
  {
    if list == [] then []
    else
      assert list == [list[0]] + list[1..];
      (if list[0] == v then [] else [list[0]]) + Without(list[1..], v)
  }

  /** Drops every occurrence of a value that is present, appends one that
      is absent. */
  function Toggle<T(==, !new)>(list: seq<T>, v: T): (r: seq<T>)
    ensures v in r <==> v !in list
    ensures forall x :: x != v ==> multiset(r)[x] == multiset(list)[x]
  {
    if v in list then Without(list, v) else list + [v]
  }

  lemma {:induction false} WithoutAbsent<T(!new)>(list: seq<T>, v: T)
    requires v !in list
    ensures Without(list, v) == list
  {
    if list != [] {
      WithoutAbsent(list[1..], v);
      assert [list[0]] + list[1..] == list;
    }
  }

  lemma {:induction false} WithoutLast<T(!new)>(list: seq<T>, v: T)
    requires v !in list
    ensures Without(list + [v], v) == list
  {
    if list == [] {
      assert [v][1..] == [];
    } else {
      Seqs.TailAppend(list, v);
      WithoutLast(list[1..], v);
      assert (list + [v])[0] == list[0] != v;
      Seqs.HeadTail(list);
    }
  }

  /** Toggling an absent value twice restores the list exactly; toggling a
      present value twice moves it, once, to the end. */
  lemma ToggleTwice<T(!new)>(list: seq<T>, v: T)
    ensures v !in list ==> Toggle(Toggle(list, v), v) == list
    ensures v in list ==> Toggle(Toggle(list, v), v) == Without(list, v) + [v]
  {
    if v !in list {
      WithoutLast(list, v);
    }
  }

  /** `handleCategoryToggle`: only the categories change. */
  function CategoryToggle(f: SubscriptionFilters, c: Category): (p: FiltersPatch)
    ensures MergeFilters(f, p) == f.(categories := Toggle(f.categories, c))
  {
    EmptyFiltersPatch.(categories := Some(Toggle(f.categories, c)))
  }

  /** `handleStatusToggle`: only the statuses change. */
  function StatusToggle(f: SubscriptionFilters, s: Status): (p: FiltersPatch)
    ensures MergeFilters(f, p) == f.(statuses := Toggle(f.statuses, s))
  {
    EmptyFiltersPatch.(statuses := Some(Toggle(f.statuses, s)))
  }

  /** `handleCurrencyToggle`: only the currencies change. */
  function CurrencyToggle(f: SubscriptionFilters, c: Currency): (p: FiltersPatch)
    ensures MergeFilters(f, p) == f.(currencies := Toggle(f.currencies, c))
  {
    EmptyFiltersPatch.(currencies := Some(Toggle(f.currencies, c)))
  }

  /** Toggling a category in and out again leaves the list of matches as it
      was, whatever the other filters. */
  lemma CategoryToggleTwiceRestoresMatches(rows: seq<Subscription>, f: SubscriptionFilters, c: Category)
    requires c !in f.categories
    ensures var g := MergeFilters(f, CategoryToggle(f, c));
      SubscriptionsApi.FilterSubscriptions(rows, MergeFilters(g, CategoryToggle(g, c)))
        == SubscriptionsApi.FilterSubscriptions(rows, f)
  {
    ToggleTwice(f.categories, c);
  }

  // ---------------------------------------------------------------------
  // Price slider

  const SliderMin: int := 0
  const SliderMax: int := 10000

  /** `handlePriceRangeChange` with the slider's two thumb values. */
  function PriceRangeChange(f: SubscriptionFilters, low: int, high: int): (p: FiltersPatch)
    ensures MergeFilters(f, p) == f.(priceRange := PriceRange(low, high))
  {
    EmptyFiltersPatch.(priceRange := Some(PriceRange(low, high)))
  }

  // ---------------------------------------------------------------------
  // Sort selector

  /** A missing `sortOrder` after the split is `undefined`, which the
      comparator reads as "not ascending" and the selector prints as this
      text. */
  const Undefined: string := "undefined"

  /** The selector's current value. */
  function SortValue(f: SubscriptionFilters): string {
    f.sortBy + "-" + f.sortOrder
  }

  /** `handleSortChange`: the text before the first '-' is the key, the
      next piece the direction, and the rest is ignored. */
  function SortChange(value: string): (p: FiltersPatch)
    ensures p.sortBy == Some(Split(value, '-')[0])
    ensures '-' !in value ==> p.sortOrder == Some(Undefined)
    ensures p == EmptyFiltersPatch.(sortBy := p.sortBy, sortOrder := p.sortOrder)
  {
    var parts := Split(value, '-');
    SplitCount(value, '-');
    EmptyFiltersPatch.(sortBy := Some(parts[0]),
                       sortOrder := Some(if |parts| > 1 then parts[1] else Undefined))
  }

  /** Choosing the value the selector shows changes nothing when neither
      the key nor the direction contains '-': the split inverts the
      encoding. */
  lemma SortChangeRoundTrip(f: SubscriptionFilters, g: SubscriptionFilters)
    requires '-' !in f.sortBy && '-' !in f.sortOrder
    ensures MergeFilters(g, SortChange(SortValue(f))) == g.(sortBy := f.sortBy, sortOrder := f.sortOrder)
    ensures MergeFilters(f, SortChange(SortValue(f))) == f
  {
    SplitAroundSep(f.sortBy, f.sortOrder, '-');
    assert SortValue(f) == f.sortBy + ['-'] + f.sortOrder;
  }

  /** The options as written: the next-billing options use the key
      "nextBillingDate", which the query does not know. */
  const SortOptions: seq<string> :=
    ["name-asc", "name-desc", "price-asc", "price-desc", "nextBillingDate-asc", "nextBillingDate-desc"]

  /** The options with the key the query sorts on. */
  const CorrectedSortOptions: seq<string> :=
    ["name-asc", "name-desc", "price-asc", "price-desc", "nextBilling-asc", "nextBilling-desc"]

  /** The (key, direction) pair an option selects. */
  lemma OptionSelects(key: string, order: string)
    requires '-' !in key && '-' !in order
    ensures SortChange(key + "-" + order).sortBy == Some(key)
    ensures SortChange(key + "-" + order).sortOrder == Some(order)
  {
    SplitAroundSep(key, order, '-');
    assert key + "-" + order == key + ['-'] + order;
  }

  /** As written, choosing either next-billing option (the last two of
      `SortOptions`, "nextBillingDate-" followed by a direction) leaves the
      rows in filter order: the key is unknown to the comparator. */
  lemma NextBillingOptionKeepsOrder(rows: seq<Subscription>, f: SubscriptionFilters, env: SubscriptionsApi.Env, i: nat)
    requires i == 4 || i == 5
    ensures SubscriptionsApi.SortSubscriptions(rows, MergeFilters(f, SortChange(SortOptions[i])), env) == rows
  {
    var g := MergeFilters(f, SortChange(SortOptions[i]));
    NextBillingDateSelected(f, i);
    NextBillingDateUndeclared();
    SubscriptionsApi.UnknownSortKeyKeepsOrder(rows, g, env);
  }

  lemma NextBillingDateSelected(f: SubscriptionFilters, i: nat)
    requires i == 4 || i == 5
    ensures MergeFilters(f, SortChange(SortOptions[i])).sortBy == "nextBillingDate"
  {
    var order := if i == 4 then "asc" else "desc";
    assert SortOptions[i] == "nextBillingDate" + "-" + order;
    OptionSelects("nextBillingDate", order);
  }

  lemma NextBillingDateUndeclared()
    ensures "nextBillingDate" !in DeclaredSortKeys
  {
    assert "nextBillingDate"[4] == 'B';
  }

  /** Every corrected option selects a declared key and direction. */
  lemma CorrectedOptionsDeclared(i: nat)
    requires i < |CorrectedSortOptions|
    ensures SortChange(CorrectedSortOptions[i]).sortBy.value in DeclaredSortKeys
    ensures SortChange(CorrectedSortOptions[i]).sortOrder.value in DeclaredSortOrders
  {
    var key := ["name", "price", "nextBilling"][i / 2];
    var order := if i % 2 == 0 then "asc" else "desc";
    OptionSelects(key, order);
    assert CorrectedSortOptions[i] == key + "-" + order;
  }

  /** With the corrected options ("nextBilling-" followed by a direction),
      the next-billing choices order the rows by billing instant, soonest
      first or latest first. */
  lemma CorrectedNextBillingOptionOrders(rows: seq<Subscription>, f: SubscriptionFilters, env: SubscriptionsApi.Env, i: nat)
    requires i == 4 || i == 5
    requires forall s :: s in rows ==> env.parseInstant(s.nextBillingDate).Some?
    ensures var r := SubscriptionsApi.SortSubscriptions(rows, MergeFilters(f, SortChange(CorrectedSortOptions[i])), env);
      forall j, k :: 0 <= j < k < |r| ==>
        var a := SubscriptionsApi.KeyInstant(env, "nextBilling", r[j]);
        var b := SubscriptionsApi.KeyInstant(env, "nextBilling", r[k]);
        if i == 4 then a <= b else a >= b
  {
    var g := MergeFilters(f, SortChange(CorrectedSortOptions[i]));
    CorrectedNextBillingSelected(f, i);
    SubscriptionsApi.SortByNextBillingOrders(rows, g, env);
  }

  lemma CorrectedNextBillingSelected(f: SubscriptionFilters, i: nat)
    requires i == 4 || i == 5
    ensures var g := MergeFilters(f, SortChange(CorrectedSortOptions[i]));
      g.sortBy == "nextBilling" && (g.sortOrder == "asc" <==> i == 4)
  {
    var order := if i == 4 then "asc" else "desc";
    assert CorrectedSortOptions[i] == "nextBilling" + "-" + order;
    OptionSelects("nextBilling", order);
  }

  // ---------------------------------------------------------------------
  // Active-filter badge

  /** One per selected category, status and currency, and one more when
      the price range is narrower than the slider's track. The search text
      is not counted. */
  function ActiveFilterCount(f: SubscriptionFilters): (n: nat)
    ensures n == 0 <==>
      && f.categories == [] && f.statuses == [] && f.currencies == []
      && f.priceRange.min <= SliderMin && SliderMax <= f.priceRange.max
  {
    |f.categories| + |f.statuses| + |f.currencies|
      + (if f.priceRange.min > SliderMin || f.priceRange.max < SliderMax then 1 else 0)
  }

  /** With no badge and no search text, every subscription whose price is
      on the slider's track passes the filter. */
  lemma NoActiveFiltersAdmitAll(f: SubscriptionFilters, s: Subscription)
    requires ActiveFilterCount(f) == 0 && f.search == ""
    requires SliderMin <= s.price <= SliderMax
    ensures SubscriptionsApi.Admits(f, s)
  {
  }

  /** The slider alone adds one to the badge exactly when it is moved off
      the ends of its track; the cleared filters show no badge. */
  lemma SliderCount(f: SubscriptionFilters, low: int, high: int)
    requires f.categories == [] && f.statuses == [] && f.currencies == []
    requires SliderMin <= low <= high <= SliderMax
    ensures ActiveFilterCount(MergeFilters(f, PriceRangeChange(f, low, high))) == if low == SliderMin && high == SliderMax then 0 else 1
    ensures ActiveFilterCount(SubscriptionsSlice.InitialFilters) == 0
  {
  }
}
