/** The mock dashboard API: spending totals, the per-category breakdown,
    a twelve-month trend and the payments due in the next thirty days, all
    computed from the subscription table. */
module DashboardApi {
  import opened Wrappers
  import opened Strings
  import opened Types
  import Sorting
  import Seqs

  /** Thirty days in milliseconds: how far ahead a payment is upcoming. */
  const UpcomingHorizon: int := 30 * 24 * 60 * 60 * 1000

  /** A price in minor units as an amount in major units. */
  function Major(price: int): real {
    price as real / 100.0
  }

  // ---------------------------------------------------------------------
  // Monthly spend

  /** What a subscription costs per month, in major units: weekly prices
      count 4.33 weeks a month, custom cycles scale to thirty days, and a
      custom cycle without a non-zero length costs nothing. Each case gives
      back the price it was computed from. */
  function MonthlyEquivalent(s: Subscription): (m: real)
    ensures s.billingCycle.Monthly? ==> m * 100.0 == s.price as real
    ensures s.billingCycle.Yearly? ==> m * 1200.0 == s.price as real
    ensures s.billingCycle.Weekly? ==> m * 10000.0 == s.price as real * 433.0
    ensures s.billingCycle.Custom? && s.customCycleDays.Some? && s.customCycleDays.value != 0 ==>
      m * (s.customCycleDays.value as real) * 100.0 == s.price as real * 30.0
    ensures s.billingCycle.Custom? && (s.customCycleDays.None? || s.customCycleDays == Some(0)) ==> m == 0.0
  {
    var p := Major(s.price);
    match s.billingCycle
    case Monthly => p
    case Yearly => p / 12.0
    case Weekly => p * 4.33
    case Custom =>
      match s.customCycleDays
      case Some(d) => if d != 0 then p * (30.0 / d as real) else 0.0
      case None => 0.0
  }

  /** A non-negative price gives a non-negative monthly amount, unless the
      custom cycle length is negative. */
  lemma MonthlyEquivalentNonNegative(s: Subscription)
    requires s.price >= 0
    requires s.billingCycle.Custom? && s.customCycleDays.Some? ==> s.customCycleDays.value >= 0
    ensures MonthlyEquivalent(s) >= 0.0
  {
    if s.billingCycle.Custom? && s.customCycleDays.Some? && s.customCycleDays.value != 0 {
      var d := s.customCycleDays.value as real;
      assert 30.0 / d > 0.0;
    }
  }

  /** The monthly amounts of the active subscriptions, in table order. */
  function ActiveSpends(rows: seq<Subscription>): (r: seq<real>)
    ensures |r| <= |rows|
  {
    if rows == [] then []
    else (if rows[0].status.Active? then [MonthlyEquivalent(rows[0])] else []) + ActiveSpends(rows[1..])
  }

  /** When every subscription is active, the spends list is their monthly
      amounts position by position. */
  lemma {:induction false} ActiveSpendsAllActive(rows: seq<Subscription>)
    requires forall j :: 0 <= j < |rows| ==> rows[j].status.Active?
    ensures |ActiveSpends(rows)| == |rows|
    ensures forall j :: 0 <= j < |rows| ==> ActiveSpends(rows)[j] == MonthlyEquivalent(rows[j])
    decreases |rows|
  {
    if rows != [] {
      ActiveSpendsAllActive(rows[1..]);
      var r := ActiveSpends(rows);
      assert r == [MonthlyEquivalent(rows[0])] + ActiveSpends(rows[1..]);
      forall j | 1 <= j < |rows| ensures r[j] == MonthlyEquivalent(rows[j]) {
        assert rows[j] == rows[1..][j - 1];
      }
    }
  }

  function Sum(s: seq<real>): real {
    if s == [] then 0.0 else s[0] + Sum(s[1..])
  }

  lemma {:induction false} SumAppend(a: seq<real>, b: seq<real>)
    ensures Sum(a + b) == Sum(a) + Sum(b)
    decreases |a|
  {
    if a != [] {
      SumAppend(a[1..], b);
      assert (a + b)[1..] == a[1..] + b;
    } else {
      assert a + b == b;
    }
  }

  function TotalMonthlySpend(rows: seq<Subscription>): real {
    Sum(ActiveSpends(rows))
  }

  lemma {:induction false} ActiveSpendsAppend(a: seq<Subscription>, b: seq<Subscription>)
    ensures ActiveSpends(a + b) == ActiveSpends(a) + ActiveSpends(b)
    decreases |a|
  {
    if a == [] {
      assert a + b == b;
    } else {
      ActiveSpendsAppend(a[1..], b);
      var ab := a + b;
      assert ab[0] == a[0] && ab[1..] == a[1..] + b;
      var h := if a[0].status.Active? then [MonthlyEquivalent(a[0])] else [];
      calc {
        ActiveSpends(ab);
        h + ActiveSpends(a[1..] + b);
        h + (ActiveSpends(a[1..]) + ActiveSpends(b));
        (h + ActiveSpends(a[1..])) + ActiveSpends(b);
      }
    }
  }

  lemma TotalMonthlySpendCons(rows: seq<Subscription>)
    requires rows != []
    ensures TotalMonthlySpend(rows) ==
      (if rows[0].status.Active? then MonthlyEquivalent(rows[0]) else 0.0) + TotalMonthlySpend(rows[1..])
  {
    var rest := ActiveSpends(rows[1..]);
    if rows[0].status.Active? {
      assert ([MonthlyEquivalent(rows[0])] + rest)[1..] == rest;
    } else {
      assert [] + rest == rest;
    }
  }

  /** The monthly total of two tables together is the sum of their totals,
      and a subscription that is not active adds nothing. */
  lemma TotalMonthlySpendAdditive(a: seq<Subscription>, b: seq<Subscription>, x: Subscription)
    ensures TotalMonthlySpend(a + b) == TotalMonthlySpend(a) + TotalMonthlySpend(b)
    ensures TotalMonthlySpend([x]) == if x.status.Active? then MonthlyEquivalent(x) else 0.0
  {
    ActiveSpendsAppend(a, b);
    SumAppend(ActiveSpends(a), ActiveSpends(b));
    TotalMonthlySpendCons([x]);
    assert [x][1..] == [];
  }

  /** With no active subscription the monthly total is zero. */
  lemma {:induction false} NothingActiveSpendsNothing(rows: seq<Subscription>)
    requires forall j :: 0 <= j < |rows| ==> !rows[j].status.Active?
    ensures TotalMonthlySpend(rows) == 0.0
    decreases |rows|
  {
    if rows != [] {
      NothingActiveSpendsNothing(rows[1..]);
      TotalMonthlySpendCons(rows);
    }
  }

  // ---------------------------------------------------------------------
  // Category breakdown

  function Get(m: map<Category, real>, c: Category): real {
    if c in m then m[c] else 0.0
  }

  /** `acc[c] = (acc[c] || 0) + v`. */
  function AddSpend(m: map<Category, real>, c: Category, v: real): map<Category, real> {
    m[c := Get(m, c) + v]
  }

  /** What the active subscriptions of one category cost per month. */
  function CategorySpend(rows: seq<Subscription>, c: Category): real {
    if rows == [] then 0.0
    else
      var own := if rows[0].status.Active? && rows[0].category == c then MonthlyEquivalent(rows[0]) else 0.0;
      own + CategorySpend(rows[1..], c)
  }

  /** The categories that have an active subscription. */
  ghost function ActiveCategories(rows: seq<Subscription>): set<Category> {
    set x | x in rows && x.status.Active? :: x.category
  }

  /** The breakdown's reduction over the table: each active subscription
      adds its own monthly amount to its category. */
  function BreakdownFrom(rows: seq<Subscription>, acc: map<Category, real>): map<Category, real> {
    if rows == [] then acc
    else
      var s := rows[0];
      BreakdownFrom(rows[1..], if s.status.Active? then AddSpend(acc, s.category, MonthlyEquivalent(s)) else acc)
  }

  function CategoryBreakdown(rows: seq<Subscription>): map<Category, real> {
    BreakdownFrom(rows, map[])
  }

  /** Each category gains what its active subscriptions cost per month. */
  lemma {:induction false} BreakdownFromValues(rows: seq<Subscription>, acc: map<Category, real>)
    ensures forall c :: Get(BreakdownFrom(rows, acc), c) == Get(acc, c) + CategorySpend(rows, c)
    decreases |rows|
  {
    if rows != [] {
      var s := rows[0];
      var next := if s.status.Active? then AddSpend(acc, s.category, MonthlyEquivalent(s)) else acc;
      BreakdownFromValues(rows[1..], next);
    }
  }

  /** The keys gained are the categories with an active subscription. */
  lemma {:induction false} BreakdownFromKeys(rows: seq<Subscription>, acc: map<Category, real>)
    ensures BreakdownFrom(rows, acc).Keys == acc.Keys + ActiveCategories(rows)
    decreases |rows|
  {
    if rows != [] {
      var s := rows[0];
      var next := if s.status.Active? then AddSpend(acc, s.category, MonthlyEquivalent(s)) else acc;
      BreakdownFromKeys(rows[1..], next);
      ActiveCategoriesCons(rows);
    }
  }

  lemma ActiveCategoriesCons(rows: seq<Subscription>)
    requires rows != []
    ensures ActiveCategories(rows) ==
      (if rows[0].status.Active? then {rows[0].category} else {}) + ActiveCategories(rows[1..])
  {
    Seqs.HeadTail(rows);
  }

  /** Each category maps to what its active subscriptions cost per month,
      and exactly the categories with an active subscription have a key. */
  lemma CategoryBreakdownMeaning(rows: seq<Subscription>, c: Category)
    ensures Get(CategoryBreakdown(rows), c) == CategorySpend(rows, c)
    ensures c in CategoryBreakdown(rows) <==> exists x :: x in rows && x.status.Active? && x.category == c
  {
    BreakdownFromValues(rows, map[]);
    BreakdownFromKeys(rows, map[]);
    assert c in ActiveCategories(rows) <==> exists x :: x in rows && x.status.Active? && x.category == c;
  }

  /** The sum of the breakdown's values: every category's amount, a missing
      key counting zero. */
  function CategoryTotal(m: map<Category, real>): real {
    Get(m, Streaming) + Get(m, Productivity) + Get(m, Cloud) + Get(m, Development)
      + Get(m, Design) + Get(m, Marketing) + Get(m, Finance) + Get(m, Other)
  }

  /** Adding to one category adds the same to the sum. */
  lemma CategoryTotalAdd(m: map<Category, real>, c: Category, v: real)
    ensures CategoryTotal(AddSpend(m, c, v)) == CategoryTotal(m) + v
  {
  }

  lemma {:induction false} BreakdownFromSums(rows: seq<Subscription>, acc: map<Category, real>)
    ensures CategoryTotal(BreakdownFrom(rows, acc)) == CategoryTotal(acc) + TotalMonthlySpend(rows)
    decreases |rows|
  {
    if rows != [] {
      var s := rows[0];
      var next := if s.status.Active? then AddSpend(acc, s.category, MonthlyEquivalent(s)) else acc;
      BreakdownFromSums(rows[1..], next);
      TotalMonthlySpendCons(rows);
      if s.status.Active? {
        CategoryTotalAdd(acc, s.category, MonthlyEquivalent(s));
      }
    }
  }

  /** The category amounts add up to the monthly total. */
  lemma CategoryBreakdownSums(rows: seq<Subscription>)
    ensures CategoryTotal(CategoryBreakdown(rows)) == TotalMonthlySpend(rows)
  {
    BreakdownFromSums(rows, map[]);
  }

  function Lookup(s: seq<real>, i: nat): real {
    if i < |s| then s[i] else 0.0
  }

  /** The breakdown as the dashboard API writes it: the subscription at
      table position `j` is charged `spends[j]`, although `spends` lists the
      active subscriptions only. */
  function BreakdownAsWrittenFrom(all: seq<Subscription>, spends: seq<real>, j: nat, acc: map<Category, real>)
    : map<Category, real>
    decreases |all| - j
  {
    if j >= |all| then acc
    else
      var s := all[j];
      BreakdownAsWrittenFrom(all, spends, j + 1,
        if s.status.Active? then AddSpend(acc, s.category, Lookup(spends, j)) else acc)
  }

  function CategoryBreakdownAsWritten(all: seq<Subscription>): map<Category, real> {
    BreakdownAsWrittenFrom(all, ActiveSpends(all), 0, map[])
  }

  lemma {:induction false} AsWrittenFromAgrees(all: seq<Subscription>, spends: seq<real>, j: nat, acc: map<Category, real>)
    requires j <= |all| && |spends| == |all|
    requires forall i :: j <= i < |all| ==> spends[i] == MonthlyEquivalent(all[i])
    ensures BreakdownAsWrittenFrom(all, spends, j, acc) == BreakdownFrom(all[j..], acc)
    decreases |all| - j
  {
    if j < |all| {
      var s := all[j];
      var next := if s.status.Active? then AddSpend(acc, s.category, MonthlyEquivalent(s)) else acc;
      AsWrittenFromAgrees(all, spends, j + 1, next);
      assert all[j..][1..] == all[j + 1..];
    }
  }

  /** When every subscription is active the positions agree, and the
      breakdown as written is the intended one. */
  lemma AsWrittenAgreesWhenAllActive(all: seq<Subscription>)
    requires forall j :: 0 <= j < |all| ==> all[j].status.Active?
    ensures CategoryBreakdownAsWritten(all) == CategoryBreakdown(all)
  {
    ActiveSpendsAllActive(all);
    AsWrittenFromAgrees(all, ActiveSpends(all), 0, map[]);
    assert all[0..] == all;
  }

  /** A subscription with the given status and monthly price. */
  function Sample(id: string, status: Status, price: int): Subscription {
    Subscription(id, "Sample", None, Streaming, price, USD, Monthly, None, "2024-02-01T00:00:00Z", None,
      status, CreditCard, [], None, 3, None, None, None, "2024-01-01T00:00:00Z", "2024-01-01T00:00:00Z",
      None, None, None)
  }

  /** A paused subscription before an active one shifts the positions: the
      active one, at position 1, reads `monthlySpends[1]`, which does not
      exist, so `|| 0` gives 0 and its category shows 0 although the
      monthly total is 10. */
  lemma AsWrittenLosesSpend()
    ensures var all := [Sample("1", Paused, 500), Sample("2", Active, 1000)];
      && TotalMonthlySpend(all) == 10.0
      && Get(CategoryBreakdownAsWritten(all), Streaming) == 0.0
      && Get(CategoryBreakdown(all), Streaming) == 10.0
  {
    var all := [Sample("1", Paused, 500), Sample("2", Active, 1000)];
    assert ActiveSpends(all) == [10.0];
    BreakdownFromValues(all, map[]);
  }

  /** A monthly 9.99 and a yearly 120.00 cost 19.99 a month and 239.88 a
      year. */
  lemma TotalsExample()
    ensures var rows := [Sample("1", Active, 999), Sample("2", Active, 12000).(billingCycle := Yearly)];
      && TotalMonthlySpend(rows) == 19.99
      && TotalMonthlySpend(rows) * 12.0 == 239.88
  {
    var rows := [Sample("1", Active, 999), Sample("2", Active, 12000).(billingCycle := Yearly)];
    assert rows == [rows[0]] + [rows[1]];
    TotalMonthlySpendAdditive([rows[0]], [rows[1]], rows[0]);
    TotalMonthlySpendAdditive([rows[0]], [rows[1]], rows[1]);
  }

  // ---------------------------------------------------------------------
  // Trend

  /** Twelve points, oldest month first: point `i` is labelled with the
      month `11 - i` months back, `monthLabel` standing for the clock and the
      locale's short month name, and `random` for `Math.random`. */
  function MonthlyTrend(total: real, monthLabel: nat -> string, random: nat -> real): (r: seq<TrendPoint>)
    ensures |r| == 12
    ensures forall i :: 0 <= i < 12 ==> r[i].month == monthLabel(11 - i)
  {
    seq(12, i requires 0 <= i < 12 => TrendPoint(monthLabel(11 - i), total * (0.8 + random(i) * 0.4)))
  }

  /** With random draws in [0, 1), every point of a non-negative total lies
      in the band from 80% of the total up to (not including) 120%, unless
      the total is zero. */
  lemma TrendWithinBand(total: real, monthLabel: nat -> string, random: nat -> real)
    requires total >= 0.0
    requires forall i :: 0 <= i < 12 ==> 0.0 <= random(i) < 1.0
    ensures var r := MonthlyTrend(total, monthLabel, random);
      forall i :: 0 <= i < 12 ==>
        && 0.8 * total <= r[i].amount <= 1.2 * total
        && (total > 0.0 ==> r[i].amount < 1.2 * total)
  {
    var r := MonthlyTrend(total, monthLabel, random);
    forall i | 0 <= i < 12
      ensures 0.8 * total <= r[i].amount <= 1.2 * total
      ensures total > 0.0 ==> r[i].amount < 1.2 * total
    {
      var x := random(i);
      assert r[i].amount == 0.8 * total + 0.4 * (total * x);
      assert total * x >= 0.0;
      assert total * x <= total;
      if total > 0.0 {
        assert total * x < total;
      }
    }
  }

  // ---------------------------------------------------------------------
  // Upcoming payments

  /** Active and billed between now and thirty days from now, both ends
      included; a date that does not parse compares false and is left out.
      `parse` stands for `new Date(text).getTime()`. */
  predicate IsUpcoming(s: Subscription, today: int, parse: string -> Option<int>) {
    match parse(s.nextBillingDate)
    case None => false
    case Some(t) => today <= t && t <= today + UpcomingHorizon && s.status.Active?
  }

  function Upcoming(rows: seq<Subscription>, today: int, parse: string -> Option<int>): (r: seq<Subscription>)
    ensures forall x :: x in r <==> x in rows && IsUpcoming(x, today, parse)
  {
    if rows == [] then []
    else
      assert forall x :: x in rows <==> x == rows[0] || x in rows[1..];
      (if IsUpcoming(rows[0], today, parse) then [rows[0]] else []) + Upcoming(rows[1..], today, parse)
  }

  /** The upcoming payments are exactly the upcoming rows, in their order
      and with their multiplicity. */
  lemma {:induction false} UpcomingSound(rows: seq<Subscription>, today: int, parse: string -> Option<int>)
    ensures Seqs.IsSubsequence(Upcoming(rows, today, parse), rows)
    ensures forall x ::
      multiset(Upcoming(rows, today, parse))[x] == if IsUpcoming(x, today, parse) then multiset(rows)[x] else 0
    decreases |rows|
  {
    if rows != [] {
      var rest := Upcoming(rows[1..], today, parse);
      UpcomingSound(rows[1..], today, parse);
      Seqs.HeadTail(rows);
      assert multiset(rows) == multiset{rows[0]} + multiset(rows[1..]);
      if IsUpcoming(rows[0], today, parse) {
        assert Upcoming(rows, today, parse) == [rows[0]] + rest;
        assert ([rows[0]] + rest)[1..] == rest;
        assert multiset(Upcoming(rows, today, parse)) == multiset{rows[0]} + multiset(rest);
      } else {
        assert Upcoming(rows, today, parse) == rest;
      }
    }
  }

  /** A payment thirty days out is upcoming; one a millisecond later, or
      with a date that does not parse, is not. */
  lemma UpcomingBoundary(s: Subscription, today: int, parse: string -> Option<int>)
    requires s.status.Active?
    ensures parse(s.nextBillingDate) == Some(today + UpcomingHorizon) ==> IsUpcoming(s, today, parse)
    ensures parse(s.nextBillingDate) == Some(today + UpcomingHorizon + 1) ==> !IsUpcoming(s, today, parse)
    ensures parse(s.nextBillingDate) == Some(today - 1) ==> !IsUpcoming(s, today, parse)
    ensures parse(s.nextBillingDate).None? ==> !IsUpcoming(s, today, parse)
  {
  }

  /** `nextBillingDate.split('T')[0]`. */
  function DateKey(s: Subscription): string {
    Split(s.nextBillingDate, 'T')[0]
  }

  /** The key is the date part of an ISO timestamp, and the whole text when
      there is no time part. */
  lemma DateKeyIsDatePart(s: Subscription, date: string, time: string)
    requires 'T' !in date
    ensures s.nextBillingDate == date + ['T'] + time ==> DateKey(s) == date
    ensures s.nextBillingDate == date ==> DateKey(s) == date
  {
    if s.nextBillingDate == date + ['T'] + time {
      SplitFirstPiece(date, time, 'T');
    }
    if s.nextBillingDate == date {
      SplitWithoutSep(date, 'T');
    }
  }

  /** The distinct date keys, in the order they first occur. */
  function DateKeys(s: seq<Subscription>): seq<string>
    decreases |s|
  {
    if s == [] then []
    else
      var keys := DateKeys(s[..|s| - 1]);
      var d := DateKey(s[|s| - 1]);
      if d in keys then keys else keys + [d]
  }

  /** The subscriptions with date key `d`, in order. */
  function OnDate(s: seq<Subscription>, d: string): seq<Subscription>
    decreases |s|
  {
    if s == [] then []
    else OnDate(s[..|s| - 1], d) + (if DateKey(s[|s| - 1]) == d then [s[|s| - 1]] else [])
  }

  /** The prices of `s` summed in major units, in order. */
  function PriceTotal(s: seq<Subscription>): real
    decreases |s|
  {
    if s == [] then 0.0 else PriceTotal(s[..|s| - 1]) + Major(s[|s| - 1].price)
  }

  function GroupOf(s: seq<Subscription>, d: string): PaymentGroup {
    PaymentGroup(d, OnDate(s, d), PriceTotal(OnDate(s, d)))
  }

  function GroupsFor(s: seq<Subscription>, keys: seq<string>): (g: seq<PaymentGroup>)
    ensures |g| == |keys| && forall i :: 0 <= i < |keys| ==> g[i] == GroupOf(s, keys[i])
  {
    if keys == [] then [] else [GroupOf(s, keys[0])] + GroupsFor(s, keys[1..])
  }

  /** The grouping the reduction is meant to build: one group per distinct
      date key, in first-occurrence order, holding the subscriptions with
      that key and the sum of their prices. */
  function GroupsByDate(s: seq<Subscription>): seq<PaymentGroup> {
    GroupsFor(s, DateKeys(s))
  }

  ghost predicate Distinct<T>(s: seq<T>) {
    forall i, j :: 0 <= i < j < |s| ==> s[i] != s[j]
  }

  /** Each date key is listed once. */
  lemma {:induction false} DateKeysDistinct(s: seq<Subscription>)
    ensures Distinct(DateKeys(s))
    decreases |s|
  {
    if s != [] {
      DateKeysDistinct(s[..|s| - 1]);
    }
  }

  /** Every listed date key is the key of some subscription. */
  lemma {:induction false} DateKeyWitness(s: seq<Subscription>, d: string) returns (x: Subscription)
    requires d in DateKeys(s)
    ensures x in s && DateKey(x) == d
    decreases |s|
  {
    var p, y := s[..|s| - 1], s[|s| - 1];
    Seqs.InitLast(s);
    if d == DateKey(y) {
      x := y;
    } else {
      x := DateKeyWitness(p, d);
    }
  }

  /** The date keys after one more payment: its key joins the end unless
      it is already there. */
  lemma DateKeysSnoc(s: seq<Subscription>, x: Subscription)
    ensures DateKeys(s + [x]) ==
      if DateKey(x) in DateKeys(s) then DateKeys(s) else DateKeys(s) + [DateKey(x)]
  {
    Seqs.AppendOne(s, x);
  }

  lemma OnDateSnoc(s: seq<Subscription>, x: Subscription, d: string)
    ensures OnDate(s + [x], d) == OnDate(s, d) + (if DateKey(x) == d then [x] else [])
  {
    Seqs.AppendOne(s, x);
  }

  lemma {:induction false} OnDateEmpty(s: seq<Subscription>, d: string)
    requires d !in DateKeys(s)
    ensures OnDate(s, d) == []
    decreases |s|
  {
    if s != [] {
      var p := s[..|s| - 1];
      assert d !in DateKeys(p);
      OnDateEmpty(p, d);
    }
  }

  lemma PriceTotalSnoc(m: seq<Subscription>, x: Subscription)
    ensures PriceTotal(m + [x]) == PriceTotal(m) + Major(x.price)
  {
    Seqs.AppendOne(m, x);
  }

  /** `acc.find(entry => entry.date === date)`, as an index. */
  function FindDate(groups: seq<PaymentGroup>, d: string): (r: Option<nat>)
    ensures r.None? <==> forall i :: 0 <= i < |groups| ==> groups[i].date != d
    ensures r.Some? ==> r.value < |groups| && groups[r.value].date == d
  {
    if groups == [] then None
    else if groups[0].date == d then Some(0)
    else match FindDate(groups[1..], d)
      case None => None
      case Some(i) => Some(i + 1)
  }

  /** `existing.subscriptions.push(sub); existing.totalAmount += price`. */
  function Joined(g: PaymentGroup, x: Subscription): PaymentGroup {
    g.(subscriptions := g.subscriptions + [x], totalAmount := g.totalAmount + Major(x.price))
  }

  /** The group of a payment's own date, after the payment: joined by it. */
  lemma OwnGroupJoined(s: seq<Subscription>, x: Subscription)
    ensures GroupOf(s + [x], DateKey(x)) == Joined(GroupOf(s, DateKey(x)), x)
  {
    OnDateSnoc(s, x, DateKey(x));
    PriceTotalSnoc(OnDate(s, DateKey(x)), x);
  }

  /** A payment leaves the groups of the other dates as they were. */
  lemma OtherGroupUnchanged(s: seq<Subscription>, x: Subscription, e: string)
    requires e != DateKey(x)
    ensures GroupOf(s + [x], e) == GroupOf(s, e)
  {
    OnDateSnoc(s, x, e);
    assert OnDate(s, e) + [] == OnDate(s, e);
  }

  /** Over distinct keys, a payment changes only the group of its own key. */
  lemma GroupsForJoin(s: seq<Subscription>, x: Subscription, keys: seq<string>, k: nat)
    requires Distinct(keys) && k < |keys| && keys[k] == DateKey(x)
    ensures var g := GroupsFor(s, keys);
      GroupsFor(s + [x], keys) == g[k := Joined(g[k], x)]
  {
    var g, h := GroupsFor(s, keys), GroupsFor(s + [x], keys);
    var r := g[k := Joined(g[k], x)];
    forall i | 0 <= i < |keys| ensures h[i] == r[i] {
      if i == k {
        OwnGroupJoined(s, x);
      } else {
        assert keys[i] != keys[k];
        OtherGroupUnchanged(s, x, keys[i]);
      }
    }
    assert |h| == |r|;
  }

  /** A payment whose date has no key and no member yet opens one group of
      its own behind the others. */
  lemma GroupsForOpen(s: seq<Subscription>, x: Subscription, keys: seq<string>)
    requires DateKey(x) !in keys && OnDate(s, DateKey(x)) == []
    ensures GroupsFor(s + [x], keys + [DateKey(x)]) ==
      GroupsFor(s, keys) + [PaymentGroup(DateKey(x), [x], Major(x.price))]
  {
    var d := DateKey(x);
    var g, h := GroupsFor(s, keys), GroupsFor(s + [x], keys + [d]);
    assert h[|keys|] == PaymentGroup(d, [x], Major(x.price)) by {
      OwnGroupJoined(s, x);
      assert [] + [x] == [x];
    }
    forall i | 0 <= i < |keys| ensures h[i] == g[i] {
      assert keys[i] in keys;
      OtherGroupUnchanged(s, x, keys[i]);
    }
  }

  /** One step of the reduction, for a date that already has a group: the
      payment joins that group and its price is added to the total. */
  lemma GroupStepJoin(s: seq<Subscription>, x: Subscription, k: nat)
    requires FindDate(GroupsByDate(s), DateKey(x)) == Some(k)
    ensures var g := GroupsByDate(s);
      GroupsByDate(s + [x]) == g[k := Joined(g[k], x)]
  {
    var keys := DateKeys(s);
    assert keys[k] == DateKey(x);
    DateKeysSnoc(s, x);
    DateKeysDistinct(s);
    GroupsForJoin(s, x, keys, k);
  }

  /** One step of the reduction, for a date without a group: a new group
      holding just this payment goes at the end. */
  lemma GroupStepOpen(s: seq<Subscription>, x: Subscription)
    requires FindDate(GroupsByDate(s), DateKey(x)).None?
    ensures GroupsByDate(s + [x]) == GroupsByDate(s) + [PaymentGroup(DateKey(x), [x], Major(x.price))]
  {
    var keys, d := DateKeys(s), DateKey(x);
    assert d !in keys by {
      var g := GroupsByDate(s);
      assert forall i :: 0 <= i < |keys| ==> keys[i] == g[i].date;
    }
    DateKeysSnoc(s, x);
    OnDateEmpty(s, d);
    GroupsForOpen(s, x, keys);
  }

  /** The reduction of `fetchAnalytics` that groups upcoming payments by
      date: a payment joins the group of its date, whose total grows by its
      price, or opens a new group at the end. */
  method GroupByDate(subs: seq<Subscription>) returns (groups: seq<PaymentGroup>)
    ensures groups == GroupsByDate(subs)
  {
    groups := [];
    var i := 0;
    while i < |subs|
      invariant 0 <= i <= |subs|
      invariant groups == GroupsByDate(subs[..i])
    {
      var sub := subs[i];
      var date := DateKey(sub);
      ghost var seen := subs[..i];
      match FindDate(groups, date) {
        case Some(k) =>
          GroupStepJoin(seen, sub, k);
          groups := groups[k := Joined(groups[k], sub)];
        case None =>
          GroupStepOpen(seen, sub);
          groups := groups + [PaymentGroup(date, [sub], Major(sub.price))];
      }
      assert groups == GroupsByDate(seen + [sub]);
      Seqs.TakeOneMore(subs, i);
      i := i + 1;
    }
    Seqs.TakeAll(subs);
  }

  /** No two groups share a date. */
  lemma GroupDatesDistinct(s: seq<Subscription>)
    ensures var g := GroupsByDate(s);
      forall i, j :: 0 <= i < j < |g| ==> g[i].date != g[j].date
  {
    DateKeysDistinct(s);
  }

  /** Every group has a member, and its total is the sum of its members'
      prices. */
  lemma GroupsFilled(s: seq<Subscription>)
    ensures var g := GroupsByDate(s);
      forall i :: 0 <= i < |g| ==> g[i].subscriptions != [] && g[i].totalAmount == PriceTotal(g[i].subscriptions)
  {
    var g := GroupsByDate(s);
    forall i | 0 <= i < |g| ensures g[i].subscriptions != [] {
      GroupNotEmpty(s, i);
    }
  }

  /** Every group holds only subscriptions of the input, all of its date. */
  lemma GroupMembersOnDate(s: seq<Subscription>)
    ensures var g := GroupsByDate(s);
      forall i, x :: 0 <= i < |g| && x in g[i].subscriptions ==> x in s && DateKey(x) == g[i].date
  {
    var g := GroupsByDate(s);
    forall i, x | 0 <= i < |g| && x in g[i].subscriptions ensures x in s && DateKey(x) == g[i].date {
      OnDateWithin(s, DateKeys(s)[i], x);
    }
  }

  /** The group of a listed date key has a member. */
  lemma GroupNotEmpty(s: seq<Subscription>, i: nat)
    requires i < |DateKeys(s)|
    ensures OnDate(s, DateKeys(s)[i]) != []
  {
    var d := DateKeys(s)[i];
    var x := DateKeyWitness(s, d);
    OnDateHolds(s, d, x);
  }

  lemma {:induction false} OnDateHolds(s: seq<Subscription>, d: string, x: Subscription)
    requires x in s && DateKey(x) == d
    ensures x in OnDate(s, d)
    decreases |s|
  {
    var p := s[..|s| - 1];
    Seqs.InitLast(s);
    if x != s[|s| - 1] {
      assert x in p;
      OnDateHolds(p, d, x);
    }
  }

  lemma {:induction false} OnDateWithin(s: seq<Subscription>, d: string, x: Subscription)
    requires x in OnDate(s, d)
    ensures x in s && DateKey(x) == d
    decreases |s|
  {
    var p := s[..|s| - 1];
    Seqs.InitLast(s);
    if x in OnDate(p, d) {
      OnDateWithin(p, d, x);
    }
  }

  /** All members of the groups, one group after another. */
  function Members(groups: seq<PaymentGroup>): seq<Subscription> {
    if groups == [] then [] else groups[0].subscriptions + Members(groups[1..])
  }

  /** A payment joining group `k` adds just that payment to the members. */
  lemma {:induction false} MembersJoin(groups: seq<PaymentGroup>, k: nat, x: Subscription)
    requires k < |groups|
    ensures multiset(Members(groups[k := Joined(groups[k], x)])) == multiset(Members(groups)) + multiset{x}
    decreases |groups|
  {
    var r := groups[k := Joined(groups[k], x)];
    assert r[1..] == if k == 0 then groups[1..] else groups[1..][k - 1 := Joined(groups[k], x)];
    if k > 0 {
      MembersJoin(groups[1..], k - 1, x);
    }
  }

  /** A group put at the end adds its subscriptions at the end. */
  lemma {:induction false} MembersAppend(groups: seq<PaymentGroup>, g: PaymentGroup)
    ensures Members(groups + [g]) == Members(groups) + g.subscriptions
    decreases |groups|
  {
    if groups == [] {
      assert [] + [g] == [g];
    } else {
      assert (groups + [g])[1..] == groups[1..] + [g];
      MembersAppend(groups[1..], g);
    }
  }

  /** Every subscription lands in exactly one group: the members of all
      groups are a permutation of the input. */
  lemma {:induction false} GroupsPartition(s: seq<Subscription>)
    ensures multiset(Members(GroupsByDate(s))) == multiset(s)
    decreases |s|
  {
    if s != [] {
      var p, x := s[..|s| - 1], s[|s| - 1];
      Seqs.InitLast(s);
      GroupsPartition(p);
      var g := GroupsByDate(p);
      match FindDate(g, DateKey(x)) {
        case Some(k) =>
          GroupStepJoin(p, x, k);
          MembersJoin(g, k, x);
        case None =>
          GroupStepOpen(p, x);
          MembersAppend(g, PaymentGroup(DateKey(x), [x], Major(x.price)));
      }
    }
  }

  /** `new Date(a.date).getTime() - new Date(b.date).getTime()`, NaN read
      as 0. */
  function GroupOrder(parse: string -> Option<int>): (PaymentGroup, PaymentGroup) -> int {
    (a: PaymentGroup, b: PaymentGroup) =>
      match (parse(a.date), parse(b.date))
      case (Some(x), Some(y)) => x - y
      case _ => 0
  }

  function SortGroups(groups: seq<PaymentGroup>, parse: string -> Option<int>): seq<PaymentGroup> {
    Sorting.Sort(GroupOrder(parse), groups)
  }

  /** On groups whose dates parse, the comparator is the order of the
      instants: a total preorder. */
  lemma GroupOrderIsPreorder(dom: set<PaymentGroup>, parse: string -> Option<int>)
    requires forall g :: g in dom ==> parse(g.date).Some?
    ensures Sorting.PreorderOn(GroupOrder(parse), dom)
  {
    var cmp := GroupOrder(parse);
    forall a, b | a in dom && b in dom ensures cmp(a, b) < 0 <==> cmp(b, a) > 0 {
    }
    forall a, b, c | a in dom && b in dom && c in dom && cmp(a, b) <= 0 && cmp(b, c) <= 0
      ensures cmp(a, c) <= 0
    {
    }
  }

  /** When every group's date parses, the groups come out in chronological
      order, none added or lost, and groups of the same day keep their
      order. */
  lemma SortGroupsChronological(groups: seq<PaymentGroup>, parse: string -> Option<int>)
    requires forall i :: 0 <= i < |groups| ==> parse(groups[i].date).Some?
    ensures var r := SortGroups(groups, parse);
      && multiset(r) == multiset(groups)
      && (forall i, j :: 0 <= i < j < |r| ==> parse(r[i].date).GetOr(0) <= parse(r[j].date).GetOr(0))
      && (forall k :: k in groups ==> Sorting.Ties(GroupOrder(parse), r, k) == Sorting.Ties(GroupOrder(parse), groups, k))
  {
    var dom := set g | g in groups;
    var cmp := GroupOrder(parse);
    GroupOrderIsPreorder(dom, parse);
    Sorting.SortSorted(cmp, dom, groups);
    var r := SortGroups(groups, parse);
    forall i | 0 <= i < |r| ensures r[i] in dom {
      assert r[i] in multiset(r);
    }
    forall k | k in groups ensures Sorting.Ties(cmp, r, k) == Sorting.Ties(cmp, groups, k) {
      Sorting.SortStable(cmp, dom, groups, k);
    }
  }

  // ---------------------------------------------------------------------
  // The query

  /** The dashboard's time range; the analytics do not depend on it. */
  datatype TimeRange = Week | Month | Quarter | Year

  /** `fetchAnalytics`: totals, the per-category breakdown, the trend and the
      upcoming payments grouped by date in date order. The breakdown is the
      one the source computes, with its position lookup into the active
      spends; it is the intended breakdown when every row is active. */
  method FetchAnalytics(rows: seq<Subscription>, timeRange: TimeRange, today: int,
                        parse: string -> Option<int>, monthLabel: nat -> string, random: nat -> real)
    returns (a: SpendingAnalytics)
    ensures a.totalMonthlySpend == TotalMonthlySpend(rows)
    ensures a.totalAnnualSpend == a.totalMonthlySpend * 12.0
    ensures a.categoryBreakdown == CategoryBreakdownAsWritten(rows)
    ensures (forall j :: 0 <= j < |rows| ==> rows[j].status.Active?) ==>
      a.categoryBreakdown == CategoryBreakdown(rows)
    ensures a.monthlyTrend == MonthlyTrend(a.totalMonthlySpend, monthLabel, random)
    ensures a.upcomingPayments == SortGroups(GroupsByDate(Upcoming(rows, today, parse)), parse)
  {
    var total := TotalMonthlySpend(rows);
    var groups := GroupByDate(Upcoming(rows, today, parse));
    if forall j :: 0 <= j < |rows| ==> rows[j].status.Active? {
      AsWrittenAgreesWhenAllActive(rows);
    }
    a := SpendingAnalytics(total, total * 12.0, CategoryBreakdownAsWritten(rows),
      MonthlyTrend(total, monthLabel, random), SortGroups(groups, parse));
  }
}
