/** The formatting helpers of `src/utils/formatters.ts`: the language to
    locale map, the date-format to pattern switch, the relative-day wording
    and the fallback currency text. The libraries they call (`parseISO`,
    `toZonedTime`, `format`, `formatInTimeZone`, `Intl.NumberFormat`,
    `toFixed`) are parameters whose failures are explicit. */
module Formatters {
  import opened Wrappers
  import opened Strings

  const DefaultCurrency: string := "USD"
  const DefaultLocale: string := "en-US"
  const DefaultDateFormat: string := "MM/DD/YYYY"
  const DefaultTimezone: string := "UTC"
  const DefaultRelativeLocale: string := "en"

  const InvalidDate: string := "Invalid Date"
  const Unknown: string := "Unknown"

  /** One day in milliseconds. */
  const Day: int := 1000 * 60 * 60 * 24

  // ---------------------------------------------------------------------
  // Language to locale

  function LocaleFromLanguage(language: string): (locale: string)
    ensures locale == "hi-IN" <==> language == "hi"
    ensures language != "hi" ==> locale == DefaultLocale
  {
    if language == "en" then "en-US"
    else if language == "hi" then "hi-IN"
    else DefaultLocale
  }

  // ---------------------------------------------------------------------
  // Date-format patterns

  /** The four date formats the switch recognises. */
  const DateFormats: seq<string> := ["MM/DD/YYYY", "DD/MM/YYYY", "YYYY-MM-DD", "DD MMM YYYY"]

  /** The date-fns pattern for a date format; anything unrecognised falls
      back to the month-first pattern. */
  function DatePattern(dateFormat: string): (pattern: string)
    ensures dateFormat !in DateFormats ==> pattern == "MM/dd/yyyy"
  {
    if dateFormat == "MM/DD/YYYY" then "MM/dd/yyyy"
    else if dateFormat == "DD/MM/YYYY" then "dd/MM/yyyy"
    else if dateFormat == "YYYY-MM-DD" then "yyyy-MM-dd"
    else if dateFormat == "DD MMM YYYY" then "dd MMM yyyy"
    else "MM/dd/yyyy"
  }

  /** date-fns spells day-of-month and calendar year in lower case: the
      token rewriting that turns a display format into a pattern. */
  function TokenChar(c: char): char {
    if c == 'D' then 'd' else if c == 'Y' then 'y' else c
  }

  function Tokens(f: string): string {
    if f == [] then [] else [TokenChar(f[0])] + Tokens(f[1..])
  }

  /** Each recognised format maps to itself with its day and year letters
      rewritten as date-fns tokens, so distinct formats get distinct
      patterns; the default format and every unknown one share the
      month-first pattern. */
  lemma DatePatternIsTokenRewrite(dateFormat: string)
    ensures dateFormat in DateFormats ==> DatePattern(dateFormat) == Tokens(dateFormat)
    ensures dateFormat !in DateFormats ==> DatePattern(dateFormat) == DatePattern(DefaultDateFormat)
  {
    if dateFormat in DateFormats {
      var i :| 0 <= i < |DateFormats| && DateFormats[i] == dateFormat;
      RecognisedPattern(i);
    }
  }

  lemma RecognisedPattern(i: nat)
    requires i < |DateFormats|
    ensures DatePattern(DateFormats[i]) == Tokens(DateFormats[i])
  {
    var f := DateFormats[i];
    assert f[0] != 'M' ==> f != "MM/DD/YYYY";
    assert f[0] != 'D' || f[1] != 'D' || f[2] != '/' ==> f != "DD/MM/YYYY";
    assert f[0] != 'Y' ==> f != "YYYY-MM-DD";
    TokensAre(f, DatePattern(f));
  }

  lemma {:induction false} TokensAre(f: string, p: string)
    requires |f| == |p| && forall i :: 0 <= i < |f| ==> p[i] == TokenChar(f[i])
    ensures Tokens(f) == p
  {
    if f != [] {
      TokensAre(f[1..], p[1..]);
      assert p == [p[0]] + p[1..];
    }
  }

  // ---------------------------------------------------------------------
  // Dates

  /** A `string | Date` argument: text to be read with `parseISO`, or a
      `Date` object whose time value may be `NaN` (`None`). */
  datatype DateInput = Text(text: string) | Moment(time: Option<int>)

  /** What `toZonedTime` gives back: a date, an invalid date (an unknown
      time zone makes its offset `NaN`), or an exception. */
  datatype Zoned = Zoned(time: int) | InvalidTime | Threw

  /** The date libraries. `parseISO` yields `None` for an invalid date;
      `format` and `formatInTimeZone` yield `None` when they throw. */
  datatype DateLib = DateLib(
    parseISO: string -> Option<int>,
    toZonedTime: (int, string) -> Zoned,
    format: (int, string) -> Option<string>,
    formatInTimeZone: (int, string, string) -> Option<string>)

  /** The time value of the argument, `None` when `isValid` rejects it. */
  function TimeOf(lib: DateLib, date: DateInput): Option<int> {
    match date
    case Text(s) => lib.parseISO(s)
    case Moment(t) => t
  }

  /** `formatDate`: an invalid date, an invalid zoned date and every thrown
      error all give "Invalid Date"; otherwise the zoned date is formatted
      with the pattern of `dateFormat`. */
  function FormatDate(lib: DateLib, date: DateInput, dateFormat: string := DefaultDateFormat,
                      timezone: string := DefaultTimezone): (r: string)
    ensures TimeOf(lib, date).None? ==> r == InvalidDate
    ensures TimeOf(lib, date).Some? && !lib.toZonedTime(TimeOf(lib, date).value, timezone).Zoned? ==>
      r == InvalidDate
    ensures TimeOf(lib, date).Some? && lib.toZonedTime(TimeOf(lib, date).value, timezone).Zoned? ==>
      var z := lib.toZonedTime(TimeOf(lib, date).value, timezone).time;
      r == lib.format(z, DatePattern(dateFormat)).GetOr(InvalidDate)
  {
    match TimeOf(lib, date)
    case None => InvalidDate
    case Some(t) =>
      match lib.toZonedTime(t, timezone)
      case Zoned(z) => lib.format(z, DatePattern(dateFormat)).GetOr(InvalidDate)
      case InvalidTime => InvalidDate
      case Threw => InvalidDate
  }

  /** An unrecognised date format formats exactly as the default one. */
  lemma UnknownFormatIsDefault(lib: DateLib, date: DateInput, dateFormat: string, timezone: string)
    requires dateFormat !in DateFormats
    ensures FormatDate(lib, date, dateFormat, timezone) == FormatDate(lib, date, DefaultDateFormat, timezone)
  {
    DatePatternIsTokenRewrite(dateFormat);
  }

  /** `formatDateInTimezone`: "Invalid Date" for an invalid date or a
      thrown error, otherwise the library's text. */
  function FormatDateInTimezone(lib: DateLib, date: DateInput, formatStr: string, timezone: string): (r: string)
    ensures TimeOf(lib, date).None? ==> r == InvalidDate
    ensures TimeOf(lib, date).Some? ==>
      r == lib.formatInTimeZone(TimeOf(lib, date).value, timezone, formatStr).GetOr(InvalidDate)
  {
    match TimeOf(lib, date)
    case None => InvalidDate
    case Some(t) => lib.formatInTimeZone(t, timezone, formatStr).GetOr(InvalidDate)
  }

  // ---------------------------------------------------------------------
  // Relative time

  /** `Math.floor(ms / day)`: the whole number of days, rounded down. */
  function FloorDays(ms: int): (d: int)
    ensures d * Day <= ms < d * Day + Day
  {
    ms / Day
  }

  /** The wording of a whole-day difference. */
  function DayLabel(days: int): (r: string)
    ensures days == 0 <==> r == "Today"
    ensures days == 1 <==> r == "Tomorrow"
    ensures days == -1 <==> r == "Yesterday"
  {
    if days == 0 then "Today"
    else if days == 1 then "Tomorrow"
    else if days == -1 then "Yesterday"
    else if days > 0 then
      var r := "In " + NatToString(days) + " days";
      assert r[0] == 'I';
      r
    else
      var n := NatToString(-days);
      var r := n + " days ago";
      assert r[0] == n[0];
      r
  }

  /** Reads a day label back: the inverse of `DayLabel`. */
  function LabelDays(r: string): Option<int> {
    if r == "Today" then Some(0)
    else if r == "Tomorrow" then Some(1)
    else if r == "Yesterday" then Some(-1)
    else if |r| >= 3 + 5 && r[..3] == "In " && r[|r| - 5..] == " days" then Some(DigitsValue(r[3..|r| - 5]))
    else if |r| >= 9 && r[|r| - 9..] == " days ago" then Some(-DigitsValue(r[..|r| - 9]))
    else None
  }

  /** Every day count has its own label: reading a label back gives the
      day count it was made from. */
  lemma LabelDaysInvertsDayLabel(days: int)
    ensures LabelDays(DayLabel(days)) == Some(days)
  {
    var r := DayLabel(days);
    if days > 1 {
      var n := NatToString(days);
      assert r == "In " + n + " days";
      assert r[..3] == "In ";
      assert r[|r| - 5..] == " days";
      assert r[3..|r| - 5] == n;
      NatToStringRoundTrip(days);
    } else if days < -1 {
      var n := NatToString(-days);
      assert r == n + " days ago";
      assert r[0] == n[0] && '0' <= n[0] <= '9';
      assert !(r[..3] == "In ") by { assert "In "[0] == 'I'; }
      assert r[|r| - 9..] == " days ago";
      assert r[..|r| - 9] == n;
      NatToStringRoundTrip(-days);
    }
  }

  /** Two day counts share a label only when they are equal. */
  lemma DayLabelInjective(a: int, b: int)
    requires DayLabel(a) == DayLabel(b)
    ensures a == b
  {
    LabelDaysInvertsDayLabel(a);
    LabelDaysInvertsDayLabel(b);
  }

  /** `getRelativeTime` at the current instant `now`. An invalid date is
      "Invalid Date", an exception is "Unknown", an invalid zoned time makes
      the day count `NaN`, which fails every test and reads "NaN days ago";
      otherwise the label of the whole days between the zoned instants.
      The `locale` argument is accepted and not used, as in the source. */
  function RelativeTime(lib: DateLib, now: int, date: DateInput, timezone: string := DefaultTimezone,
                        locale: string := DefaultRelativeLocale): (r: string)
    ensures TimeOf(lib, date).None? ==> r == InvalidDate
    ensures (&& TimeOf(lib, date).Some?
             && (lib.toZonedTime(TimeOf(lib, date).value, timezone).Threw? || lib.toZonedTime(now, timezone).Threw?))
      ==> r == Unknown
    ensures (&& TimeOf(lib, date).Some?
             && lib.toZonedTime(TimeOf(lib, date).value, timezone).Zoned?
             && lib.toZonedTime(now, timezone).Zoned?)
      ==> var diff := lib.toZonedTime(TimeOf(lib, date).value, timezone).time - lib.toZonedTime(now, timezone).time;
      LabelDays(r).Some? && LabelDays(r).value * Day <= diff < LabelDays(r).value * Day + Day
    ensures (&& TimeOf(lib, date).Some?
             && lib.toZonedTime(TimeOf(lib, date).value, timezone).Zoned?
             && lib.toZonedTime(now, timezone).Zoned?)
      ==> r == DayLabel(FloorDays(lib.toZonedTime(TimeOf(lib, date).value, timezone).time
                                  - lib.toZonedTime(now, timezone).time))
    ensures (&& TimeOf(lib, date).Some?
             && !lib.toZonedTime(TimeOf(lib, date).value, timezone).Threw?
             && !lib.toZonedTime(now, timezone).Threw?
             && (lib.toZonedTime(TimeOf(lib, date).value, timezone).InvalidTime?
                 || lib.toZonedTime(now, timezone).InvalidTime?))
      ==> r == "NaN days ago"
  {
    match TimeOf(lib, date)
    case None => InvalidDate
    case Some(t) =>
      var zonedDate := lib.toZonedTime(t, timezone);
      var zonedNow := lib.toZonedTime(now, timezone);
      if zonedDate.Threw? || zonedNow.Threw? then Unknown
      else if zonedDate.InvalidTime? || zonedNow.InvalidTime? then "NaN days ago"
      else
        var d := FloorDays(zonedDate.time - zonedNow.time);
        LabelDaysInvertsDayLabel(d);
        DayLabel(d)
  }

  // ---------------------------------------------------------------------
  // Currency

  /** The fallback symbol table, keyed by currency code; a code missing
      from it stands for itself. */
  function FallbackSymbol(currency: string): (symbol: string)
    ensures currency in ["USD", "EUR", "GBP", "INR", "JPY"] ==> |symbol| == 1
    ensures currency !in ["USD", "EUR", "GBP", "INR", "JPY"] ==> symbol == currency
  {
    if currency == "USD" then "$"
    else if currency == "EUR" then "€"
    else if currency == "GBP" then "£"
    else if currency == "INR" then "₹"
    else if currency == "JPY" then "¥"
    else if currency == "CAD" then "CAD"
    else if currency == "AUD" then "AUD"
    else currency
  }

  /** A code stands for itself exactly when the table has no one-character
      symbol for it. */
  lemma FallbackSymbolIsCode(currency: string)
    ensures FallbackSymbol(currency) == currency <==> currency !in ["USD", "EUR", "GBP", "INR", "JPY"]
  {
  }

  /** `formatCurrency`: the `Intl` text when the formatter accepts the
      locale and code (`intl` yields `None` when it throws), otherwise the
      fallback symbol directly followed by the amount to two decimals. */
  function FormatCurrency(intl: (real, string, string) -> Option<string>, toFixed2: real -> string,
                          amount: real, currency: string := DefaultCurrency, locale: string := DefaultLocale): (r: string)
    ensures intl(amount, currency, locale).Some? ==> r == intl(amount, currency, locale).value
    ensures intl(amount, currency, locale).None? ==>
      IsPrefix(FallbackSymbol(currency), r) && r[|FallbackSymbol(currency)|..] == toFixed2(amount)
  {
    match intl(amount, currency, locale)
    case Some(text) => text
    case None => FallbackSymbol(currency) + toFixed2(amount)
  }

  /** Leaving out the optional arguments is passing the defaults of the
      signatures: 'USD' and 'en-US' for currency amounts, 'MM/DD/YYYY' and
      'UTC' for dates, 'UTC' and 'en' for relative days. */
  lemma DefaultArguments(lib: DateLib, date: DateInput, now: int, amount: real,
                         intl: (real, string, string) -> Option<string>, toFixed2: real -> string)
    ensures FormatCurrency(intl, toFixed2, amount) == FormatCurrency(intl, toFixed2, amount, "USD", "en-US")
    ensures FormatDate(lib, date) == FormatDate(lib, date, "MM/DD/YYYY", "UTC")
    ensures FormatDate(lib, date) == FormatDate(lib, date, DateFormats[0], "UTC")
    ensures RelativeTime(lib, now, date) == RelativeTime(lib, now, date, "UTC", "en")
  {
  }
}
