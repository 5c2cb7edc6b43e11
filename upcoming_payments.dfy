/** The dashboard's upcoming-payments card: how many days away each payment
    group is, the day label and urgency badge that follow from it, the
    five-row cap and the group title. The current instant, date parsing and
    the short "Mon d" rendering are parameters. */
module UpcomingPayments {
  import opened Wrappers
  import opened Strings
  import opened Types
  import DashboardApi

  /** One day in milliseconds. */
  const Day: int := 1000 * 60 * 60 * 24

  /** What `toLocaleDateString` renders for a `NaN` date. */
  const InvalidDate: string := "Invalid Date"

  /** `Math.ceil(ms / day)`: the whole number of days, rounded up. */
  function CeilDays(ms: int): (d: int)
    ensures d * Day - Day < ms <= d * Day
  {
    -((-ms) / Day)
  }

  /** `getDaysUntil`: `None` when the date does not parse (`NaN`). */
  function DaysUntil(date: Option<int>, now: int): (days: Option<int>)
    ensures days.Some? <==> date.Some?
    ensures date.Some? ==> days.value * Day - Day < date.value - now <= days.value * Day
  {
    match date
    case None => None
    case Some(t) => Some(CeilDays(t - now))
  }

  /** The card's `formatDate`: "Today", "Tomorrow", "n days" for any other
      count below seven (negative counts included), else the short date. A
      `NaN` count fails every test and renders the invalid date. */
  function DayLabel(days: Option<int>, shortDate: string): (text: string)
    ensures days == Some(0) ==> text == "Today"
    ensures days == Some(1) ==> text == "Tomorrow"
    ensures days.Some? && days.value != 0 && days.value != 1 && days.value < 7 ==>
      text == IntToString(days.value) + " days"
    ensures days.Some? && days.value >= 7 ==> text == shortDate
    ensures days.None? ==> text == InvalidDate
  {
    match days
    case None => InvalidDate
    case Some(d) =>
      if d == 0 then "Today"
      else if d == 1 then "Tomorrow"
      else if d < 7 then
        var r := IntToString(d) + " days";
        assert r[|r| - 1] == 's';
        r
      else shortDate
  }

  datatype BadgeVariant = Destructive | Secondary | Outline

  /** `getBadgeVariant`: one day or less is urgent, three days or less a
      warning, anything later (and `NaN`) plain. */
  function Variant(days: Option<int>): (v: BadgeVariant)
    ensures v == Destructive <==> days.Some? && days.value <= 1
    ensures v == Secondary <==> days.Some? && 1 < days.value <= 3
  {
    match days
    case None => Outline
    case Some(d) => if d <= 1 then Destructive else if d <= 3 then Secondary else Outline
  }

  /** The badge text: "Due soon" for one day or less, else the count and
      "d" (`NaN` prints as "NaN"). */
  function BadgeText(days: Option<int>): (text: string)
    ensures text == "Due soon" <==> days.Some? && days.value <= 1
    ensures days.None? ==> text == "NaNd"
    ensures days.Some? && days.value > 1 ==> text == NatToString(days.value) + "d"
    ensures text != "Due soon" ==> |text| >= 2 && text[|text| - 1] == 'd'
  {
    match days
    case None => "NaNd"
    case Some(d) =>
      if d <= 1 then "Due soon"
      else
        var r := IntToString(d) + "d";
        assert r[|r| - 1] == 'd';
        r
  }

  /** The badge reads "Due soon" exactly when it is drawn as urgent; the
      labels "Today" and "Tomorrow" (and every overdue "-n days") come
      with that badge, and "2 days" and "3 days" with the warning one. */
  lemma LabelAgreesWithBadge(days: Option<int>, shortDate: string)
    ensures BadgeText(days) == "Due soon" <==> Variant(days) == Destructive
    ensures days.Some? && days.value <= 1 ==> Variant(days) == Destructive
    ensures DayLabel(days, shortDate) in {"Today", "Tomorrow"} && shortDate !in {"Today", "Tomorrow"} ==>
      BadgeText(days) == "Due soon"
    ensures days.Some? && 2 <= days.value <= 3 ==>
      Variant(days) == Secondary && DayLabel(days, shortDate) == NatToString(days.value) + " days"
  {
    if days.Some? && days.value >= 2 {
      var r := DayLabel(days, shortDate);
      if days.value < 7 {
        assert r[|r| - 1] == 's';
        assert "Today"[4] == 'y' && "Tomorrow"[7] == 'w';
      }
    }
  }

  /** The row title: the only member's name, else the member count. */
  function GroupTitle(g: PaymentGroup): (title: string)
    ensures |g.subscriptions| == 1 ==> title == g.subscriptions[0].name
    ensures |g.subscriptions| != 1 ==> title == NatToString(|g.subscriptions|) + " subscriptions"
  {
    if |g.subscriptions| == 1 then g.subscriptions[0].name
    else NatToString(|g.subscriptions|) + " subscriptions"
  }

  /** One rendered row. */
  datatype Row = Row(count: nat, title: string, dayLabel: string, amount: real,
                     variant: BadgeVariant, badge: string)

  /** The card: a skeleton while loading, the empty-state message, or at
      most five rows and the "+n more" line. */
  datatype Card = Skeleton | Empty | Rows(rows: seq<Row>, more: Option<string>)

  const EmptyMessage: string := "No upcoming payments in the next 30 days"

  /** The line under the rows when more than five groups are due. */
  function MoreLine(n: nat): (line: Option<string>)
    ensures line.Some? <==> n > 5
    ensures n > 5 ==> line.value == "+" + NatToString(n - 5) + " more payments this month"
  {
    if n > 5 then Some("+" + NatToString(n - 5) + " more payments this month") else None
  }

  function RowOf(g: PaymentGroup, now: int, parse: string -> Option<int>, shortDate: string -> string): Row {
    var days := DaysUntil(parse(g.date), now);
    Row(|g.subscriptions|, GroupTitle(g), DayLabel(days, shortDate(g.date)), g.totalAmount,
        Variant(days), BadgeText(days))
  }

  /** The card for the payment groups at the instant `now`. */
  function Render(payments: seq<PaymentGroup>, loading: bool, now: int,
                  parse: string -> Option<int>, shortDate: string -> string): (card: Card)
    ensures loading ==> card == Skeleton
    ensures !loading && payments == [] ==> card == Empty
    ensures !loading && payments != [] ==>
      && card.Rows?
      && |card.rows| == (if |payments| < 5 then |payments| else 5)
      && (forall i :: 0 <= i < |card.rows| ==> card.rows[i] == RowOf(payments[i], now, parse, shortDate))
      && (card.more.Some? <==> |payments| > 5)
  {
    if loading then Skeleton
    else if payments == [] then Empty
    else
      var shown := if |payments| < 5 then payments else payments[..5];
      Rows(seq(|shown|, i requires 0 <= i < |shown| => RowOf(shown[i], now, parse, shortDate)),
           MoreLine(|payments|))
  }

  /** The rows shown and the groups the "+n more" line counts add up to all
      the groups. */
  lemma ShownPlusMoreIsAll(payments: seq<PaymentGroup>, loading: bool, now: int,
                           parse: string -> Option<int>, shortDate: string -> string)
    requires !loading && payments != []
    ensures var card := Render(payments, loading, now, parse, shortDate);
      |card.rows| + (if card.more.Some? then DigitsValue(card.more.value[1..|card.more.value| - 25]) else 0)
        == |payments|
  {
    var card := Render(payments, loading, now, parse, shortDate);
    if |payments| > 5 {
      var m := card.more.value;
      var digits := NatToString(|payments| - 5);
      assert m == "+" + digits + " more payments this month";
      assert m[1..|m| - 25] == digits;
      NatToStringRoundTrip(|payments| - 5);
    }
  }

  /** For the groups the analytics query returns, each row counts at least
      one subscription, so a title is a name or a count of two or more. */
  lemma RowsOfAnalyticsGroups(subs: seq<Subscription>, parse: string -> Option<int>, now: int,
                              shortDate: string -> string, i: nat)
    requires i < |DashboardApi.SortGroups(DashboardApi.GroupsByDate(subs), parse)|
    ensures var g := DashboardApi.SortGroups(DashboardApi.GroupsByDate(subs), parse)[i];
      && RowOf(g, now, parse, shortDate).count >= 1
      && (|| GroupTitle(g) == g.subscriptions[0].name
          || (|g.subscriptions| >= 2 && GroupTitle(g) == NatToString(|g.subscriptions|) + " subscriptions"))
  {
    var groups := DashboardApi.GroupsByDate(subs);
    var r := DashboardApi.SortGroups(groups, parse);
    DashboardApi.GroupsFilled(subs);
    assert r[i] in multiset(groups);
    var k :| 0 <= k < |groups| && groups[k] == r[i];
  }
}
