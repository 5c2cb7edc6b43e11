/** The subscriptions table: the search box, the status and category
    colours, the price in major units, the next-billing label, the cycle
    and "per" labels, the count badge and the empty state. The current
    instant, date parsing, the short "Mon d" rendering and `Intl` currency
    formatting are parameters. */
module SubscriptionsList {
  import opened Wrappers
  import opened Strings
  import opened Types
  import UpcomingPayments
  import DashboardApi

  // ---------------------------------------------------------------------
  // Search box

  /** `handleSearchChange`: only the search text changes. */
  function SearchChange(f: SubscriptionFilters, text: string): (p: FiltersPatch)
    ensures MergeFilters(f, p) == f.(search := text)
  {
    EmptyFiltersPatch.(search := Some(text))
  }

  // ---------------------------------------------------------------------
  // Status colours

  const MutedClass: string := "bg-muted text-muted-foreground"

  /** `getStatusColor` on the status text a row carries: one class per
      known status and the muted class for anything else. */
  function StatusColor(status: string): (cls: string)
    ensures status == "active" ==> cls == "bg-success text-success-foreground"
    ensures status == "paused" ==> cls == "bg-warning text-warning-foreground"
    ensures status == "canceled" ==> cls == "bg-destructive text-destructive-foreground"
    ensures status == "trial" ==> cls == "bg-primary text-primary-foreground"
    ensures cls == MutedClass <==> status !in {"active", "paused", "canceled", "trial"}
  {
    if status == "active" then "bg-success text-success-foreground"
    else if status == "paused" then "bg-warning text-warning-foreground"
    else if status == "canceled" then "bg-destructive text-destructive-foreground"
    else if status == "trial" then "bg-primary text-primary-foreground"
    else MutedClass
  }

  /** The four statuses have four different colours, none of them the
      muted default. */
  lemma StatusColorsDistinct(s: Status, t: Status)
    ensures StatusColor(StatusName(s)) != MutedClass
    ensures s != t ==> StatusColor(StatusName(s)) != StatusColor(StatusName(t))
  {
    StatusColorMark(s);
    StatusColorMark(t);
    assert MutedClass[|MutedClass| - 12] == 'd';
  }

  /** The character before "-foreground" tells the colours apart: the last
      letter of "success", "warning", "destructive", "primary" (and of
      "muted"). */
  lemma StatusColorMark(s: Status)
    ensures var c := StatusColor(StatusName(s));
      |c| >= 12 && c[|c| - 12] == match s
        case Active => 's' case Paused => 'g' case Canceled => 'e' case Trial => 'y'
  {
  }

  // ---------------------------------------------------------------------
  // Category colours

  /** The badge classes of a Tailwind hue. */
  function HueClass(hue: string): string {
    "bg-" + hue + "-100 text-" + hue + "-800 dark:bg-" + hue + "-900/20 dark:text-" + hue + "-300"
  }

  /** The hue of each category. */
  function Hue(c: Category): string {
    match c
    case Streaming => "purple"
    case Productivity => "blue"
    case Cloud => "green"
    case Development => "orange"
    case Design => "pink"
    case Marketing => "yellow"
    case Finance => "indigo"
    case Other => "gray"
  }

  /** The `colors` object, key by key: each entry is the badge classes of
      one hue. */
  const CategoryColors: seq<(string, string)> := [
    ("streaming", HueClass("purple")),
    ("productivity", HueClass("blue")),
    ("cloud", HueClass("green")),
    ("development", HueClass("orange")),
    ("design", HueClass("pink")),
    ("marketing", HueClass("yellow")),
    ("finance", HueClass("indigo")),
    ("other", HueClass("gray"))]

  /** The value stored under the first entry with key `key`. */
  function Lookup(table: seq<(string, string)>, key: string): (r: Option<string>)
    ensures r.None? <==> forall i :: 0 <= i < |table| ==> table[i].0 != key
    ensures r.Some? ==> exists i :: 0 <= i < |table| && table[i] == (key, r.value)
  {
    if table == [] then None
    else if table[0].0 == key then Some(table[0].1)
    else
      var r := Lookup(table[1..], key);
      assert forall i :: 1 <= i < |table| ==> table[i] == table[1..][i - 1];
      r
  }

  /** `getCategoryColor` on the category text a row carries:
      `colors[category] || colors.other`. */
  function CategoryColor(category: string): string {
    match Lookup(CategoryColors, category)
    case Some(cls) => if cls == "" then CategoryColors[7].1 else cls
    case None => CategoryColors[7].1
  }

  /** Every category is drawn in its own hue. */
  lemma CategoryColorOf(c: Category)
    ensures CategoryColor(CategoryName(c)) == HueClass(Hue(c))
  {
    var i := match c
      case Streaming => 0 case Productivity => 1 case Cloud => 2 case Development => 3
      case Design => 4 case Marketing => 5 case Finance => 6 case Other => 7;
    assert CategoryColors[i] == (CategoryName(c), HueClass(Hue(c)));
    ColorAt(i);
  }

  /** The key at position `i` of `colors` finds the classes stored there. */
  lemma ColorAt(i: nat)
    requires i < |CategoryColors|
    ensures CategoryColor(CategoryColors[i].0) == CategoryColors[i].1
  {
    forall j | 0 <= j < i ensures CategoryColors[j].0 != CategoryColors[i].0 {
      KeysDistinct(j, i);
    }
    LookupFirst(CategoryColors, i);
    assert |CategoryColors[i].1| > 0;
  }

  /** Any text that is not a category's name falls back to the gray of
      "other". */
  lemma UnknownCategoryIsGray(name: string)
    requires forall d: Category :: CategoryName(d) != name
    ensures CategoryColor(name) == HueClass("gray")
    ensures CategoryColor(name) == CategoryColor(CategoryName(Other))
  {
    forall j | 0 <= j < |CategoryColors| ensures CategoryColors[j].0 != name {
      KeyIsCategoryName(j);
    }
    CategoryColorOf(Other);
  }

  /** The keys of `colors` are the category names, in declaration order. */
  lemma KeyIsCategoryName(j: nat)
    requires j < |CategoryColors|
    ensures CategoryColors[j].0 == CategoryName(AllCategories[j])
  {
  }

  lemma KeysDistinct(i: nat, j: nat)
    requires i < j < |CategoryColors|
    ensures CategoryColors[i].0 != CategoryColors[j].0
  {
    var a, b := CategoryColors[i].0, CategoryColors[j].0;
    assert |a| != |b| || a[0] != b[0];
  }

  /** A key that appears at `i` and at no earlier position finds the value
      stored at `i`. */
  lemma {:induction false} LookupFirst(table: seq<(string, string)>, i: nat)
    requires i < |table|
    requires forall j :: 0 <= j < i ==> table[j].0 != table[i].0
    ensures Lookup(table, table[i].0) == Some(table[i].1)
  {
    if i > 0 {
      assert table[i] == table[1..][i - 1];
      LookupFirst(table[1..], i - 1);
    }
  }

  // ---------------------------------------------------------------------
  // Price

  /** The amount `formatPrice` hands to the currency formatter: the price
      in minor units divided by a hundred. */
  function DisplayAmount(price: int): (amount: real)
    ensures amount * 100.0 == price as real
  {
    price as real / 100.0
  }

  /** `formatPrice`: `Intl` currency formatting in "en-US" of the amount in
      major units; `intl` takes the locale, the currency code and the
      amount. */
  function FormatPrice(price: int, currency: Currency, intl: (string, string, real) -> string): string {
    intl("en-US", CurrencyCode(currency), DisplayAmount(price))
  }

  /** The table shows the price per billing cycle; for a monthly
      subscription it is the monthly spend the analytics count, for a
      yearly one twelve times it. */
  lemma DisplayAmountIsCyclePrice(s: Subscription)
    ensures s.billingCycle.Monthly? ==> DisplayAmount(s.price) == DashboardApi.MonthlyEquivalent(s)
    ensures s.billingCycle.Yearly? ==> DisplayAmount(s.price) == 12.0 * DashboardApi.MonthlyEquivalent(s)
  {
  }

  // ---------------------------------------------------------------------
  // Next billing

  /** `formatNextBilling` for a day count (`None` is `NaN`, which fails
      every test and renders the invalid date). */
  function NextBillingLabel(days: Option<int>, shortDate: string): (text: string)
    ensures days == Some(0) ==> text == "Today"
    ensures days == Some(1) ==> text == "Tomorrow"
    ensures days.Some? && days.value < 0 ==> text == "Overdue"
    ensures days.Some? && 2 <= days.value < 7 ==> text == NatToString(days.value) + " days"
    ensures days.Some? && days.value >= 7 ==> text == shortDate
    ensures days.None? ==> text == UpcomingPayments.InvalidDate
  {
    match days
    case None => UpcomingPayments.InvalidDate
    case Some(d) =>
      if d == 0 then "Today"
      else if d == 1 then "Tomorrow"
      else if d < 0 then "Overdue"
      else if d < 7 then IntToString(d) + " days"
      else shortDate
  }

  /** The table and the upcoming-payments card label the same day count the
      same way, except that a past date is "Overdue" in the table and a
      negative count of days on the card. */
  lemma ListAndCardLabels(days: Option<int>, shortDate: string)
    ensures days.None? || days.value >= 0 ==>
      NextBillingLabel(days, shortDate) == UpcomingPayments.DayLabel(days, shortDate)
    ensures days.Some? && days.value < 0 ==>
      && NextBillingLabel(days, shortDate) == "Overdue"
      && UpcomingPayments.DayLabel(days, shortDate) == IntToString(days.value) + " days"
  {
  }

  /** With the count rounded up, a date reads "Overdue" only once it is at
      least a full day in the past; anything later the same day is still
      "Today". */
  lemma OverdueMeansADayLate(date: Option<int>, now: int)
    ensures (var d := UpcomingPayments.DaysUntil(date, now); d.Some? && d.value < 0)
      <==> date.Some? && date.value - now <= -UpcomingPayments.Day
    ensures date.Some? && -UpcomingPayments.Day < date.value - now <= 0 ==>
      UpcomingPayments.DaysUntil(date, now) == Some(0)
  {
  }

  // ---------------------------------------------------------------------
  // Cycle labels

  /** JavaScript's `s.slice(0, -2)`: everything but the last two characters. */
  function DropLastTwo(s: string): (r: string)
    ensures |s| >= 2 ==> r + s[|s| - 2..] == s
    ensures |s| < 2 ==> r == ""
  {
    if |s| >= 2 then s[..|s| - 2] else ""
  }

  /** The "per" label: the cycle's name without its last two letters, which
      is the unit for the three "-ly" cycles and "cust" for a custom one. */
  function PerLabel(c: BillingCycle): (unit: string)
    ensures !c.Custom? ==> unit + "ly" == CycleName(c)
    ensures c.Custom? ==> unit == "cust"
  {
    DropLastTwo(CycleName(c))
  }

  /** The cycle label as written: the cycle's name followed by "ly". */
  function CycleLabelAsWritten(c: BillingCycle): string {
    CycleName(c) + "ly"
  }

  /** As written, the label of every "-ly" cycle repeats the suffix: a
      monthly subscription reads "monthlyly". */
  lemma AsWrittenCycleLabelRepeatsLy(c: BillingCycle)
    ensures !c.Custom? ==> CycleLabelAsWritten(c) == PerLabel(c) + "lyly"
    ensures CycleLabelAsWritten(Monthly) == "monthlyly"
    ensures CycleLabelAsWritten(Custom) == "customly"
  {
  }

  /** The cycle label without the extra suffix: the cycle's own name. */
  function CycleLabel(c: BillingCycle): string {
    CycleName(c)
  }

  /** The corrected label reads the unit of the "per" label followed by a
      single "ly", and distinct cycles keep distinct labels. */
  lemma CycleLabelReadsOnce(c: BillingCycle, e: BillingCycle)
    ensures !c.Custom? ==> CycleLabel(c) == PerLabel(c) + "ly"
    ensures !c.Custom? ==> CycleLabel(c)[|CycleLabel(c)| - 4..] != "lyly"
    ensures c != e ==> CycleLabel(c) != CycleLabel(e)
  {
    if c != e {
      var a, b := CycleLabel(c), CycleLabel(e);
      assert a[0] != b[0];
    }
  }

  // ---------------------------------------------------------------------
  // The table

  datatype Action = PauseButton | PlayButton

  /** One rendered row: the text and classes the row shows. */
  datatype Row = Row(
    name: string,
    categoryClass: string,
    categoryText: string,
    cycleLabel: string,
    amount: real,
    price: string,
    perLabel: string,
    nextBilling: string,
    statusClass: string,
    statusText: string,
    action: Action)

  /** The table: five skeleton rows while loading, the empty state, or the
      count badge and one row per subscription. */
  datatype Table = Skeleton(placeholders: nat) | EmptyState | Listing(count: nat, rows: seq<Row>)

  function RowOf(s: Subscription, now: int, parse: string -> Option<int>, shortDate: string -> string,
                 intl: (string, string, real) -> string): Row
  {
    Row(s.name, CategoryColor(CategoryName(s.category)), CategoryName(s.category),
        CycleLabelAsWritten(s.billingCycle), DisplayAmount(s.price), FormatPrice(s.price, s.currency, intl),
        PerLabel(s.billingCycle),
        NextBillingLabel(UpcomingPayments.DaysUntil(parse(s.nextBillingDate), now), shortDate(s.nextBillingDate)),
        StatusColor(StatusName(s.status)), StatusName(s.status),
        if s.status.Active? then PauseButton else PlayButton)
  }

  /** The list for the given subscriptions at the instant `now`. */
  function Render(subs: seq<Subscription>, loading: bool, now: int, parse: string -> Option<int>,
                  shortDate: string -> string, intl: (string, string, real) -> string): (t: Table)
    ensures loading ==> t == Skeleton(5)
    ensures !loading ==> (t.EmptyState? <==> subs == [])
    ensures !loading && subs != [] ==>
      && t.Listing?
      && t.count == |subs| == |t.rows|
      && forall i :: 0 <= i < |subs| ==> t.rows[i] == RowOf(subs[i], now, parse, shortDate, intl)
  {
    if loading then Skeleton(5)
    else if |subs| == 0 then EmptyState
    else Listing(|subs|, seq(|subs|, i requires 0 <= i < |subs| => RowOf(subs[i], now, parse, shortDate, intl)))
  }

  /** Every row shows a coloured status, a category colour from the table,
      a price that is the stored price in major units, a pause button
      exactly for active subscriptions, and, as the cycle column is
      written, a cycle label that is the unit of its "per" label followed
      by "ly" twice ("customly" for a custom cycle). */
  lemma RowsAreCoherent(subs: seq<Subscription>, now: int, parse: string -> Option<int>,
                        shortDate: string -> string, intl: (string, string, real) -> string, i: nat)
    requires i < |subs|
    ensures var t := Render(subs, false, now, parse, shortDate, intl);
      && t.Listing?
      && t.rows[i].statusClass != MutedClass
      && t.rows[i].categoryClass == HueClass(Hue(subs[i].category))
      && t.rows[i].amount * 100.0 == subs[i].price as real
      && t.rows[i].price == intl("en-US", CurrencyCode(subs[i].currency), t.rows[i].amount)
      && (t.rows[i].action == PauseButton <==> subs[i].status == Active)
      && (!subs[i].billingCycle.Custom? ==> t.rows[i].cycleLabel == t.rows[i].perLabel + "lyly")
      && (subs[i].billingCycle.Custom? ==> t.rows[i].cycleLabel == "customly")
  {
    AsWrittenCycleLabelRepeatsLy(subs[i].billingCycle);
    StatusColorsDistinct(subs[i].status, subs[i].status);
    CategoryColorOf(subs[i].category);
  }
}
