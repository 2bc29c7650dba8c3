/**
 * The datetime tool: a query `today`, `days_ago:N` or `days_ahead:N` names a
 * day relative to today, and a successful answer is that day written as
 * `YYYY-MM-DD (Weekday)`. Today is a parameter: the tool reads it from the
 * clock, and a clock reading is always a representable date.
 */
module DateTimeTool {
  import opened Wrappers
  import opened Text
  import opened Calendar
  import opened Tools

  /** `timedelta` refuses a day count of larger magnitude. */
  const MaxDeltaDays: int := 999999999

  const InvalidFormat: string := "Error: Invalid query format"

  /** The three query forms, with the text that stands for N. */
  datatype Query = Today | DaysAgo(field: string) | DaysAhead(field: string) | Unrecognised

  /** After a colon-free prefix ending in a colon, the second piece of `split(":")` is the text up to the next colon. */
  lemma SecondField(query: string, i: nat)
    requires i < |query| && query[i] == ':' && ':' !in query[..i]
    ensures |Split(query, ':')| >= 2
    ensures Split(query, ':')[1] == TakeUntil(query[i + 1..], ':')
  {
    assert query == query[..i] + [':'] + query[i + 1..];
    SplitAfter(query[..i], ':', query[i + 1..]);
    SplitHead(query[i + 1..], ':');
  }

  /** How `run` reads its query: an exact `today`, or a prefix and `query.split(":")[1]`. */
  function Classify(query: string): (r: Query)
    ensures r == Today <==> query == "today"
    ensures r.DaysAgo? <==> StartsWith(query, "days_ago:")
    ensures r.DaysAhead? <==> StartsWith(query, "days_ahead:")
    ensures r.DaysAgo? ==> r.field == TakeUntil(query[9..], ':')
    ensures r.DaysAhead? ==> r.field == TakeUntil(query[11..], ':')
  {
    if query == "today" then
      Today
    else if StartsWith(query, "days_ago:") then
      SecondField(query, 8);
      DaysAgo(Split(query, ':')[1])
    else if StartsWith(query, "days_ahead:") then
      SecondField(query, 10);
      DaysAhead(Split(query, ':')[1])
    else
      Unrecognised
  }

  /** `strftime("%Y-%m-%d")`: four, two and two digits that spell the year, the month and the day. */
  function FormatDate(d: Date): (r: string)
    requires IsValid(d)
    ensures |r| == 10 && r[4] == '-' && r[7] == '-'
    ensures AllDigits(r[..4]) && NumeralValue(r[..4]) == d.year
    ensures AllDigits(r[5..7]) && NumeralValue(r[5..7]) == d.month
    ensures AllDigits(r[8..10]) && NumeralValue(r[8..10]) == d.day
  {
    PaddedFields(d);
    DateLayout(ZeroPad(d.year, 4), ZeroPad(d.month, 2), ZeroPad(d.day, 2));
    ZeroPad(d.year, 4) + "-" + ZeroPad(d.month, 2) + "-" + ZeroPad(d.day, 2)
  }

  /** The answer for day `n`: its date and, in parentheses, its weekday. */
  function Report(n: Ordinal): (r: string)
    ensures |r| == 13 + |WeekdayName(n)|
    ensures r[10..12] == " (" && r[12..|r| - 1] == WeekdayName(n) && r[|r| - 1] == ')'
  {
    FromOrdinalCorrect(n);
    var date := FormatDate(FromOrdinal(n));
    TailLayout(date, WeekdayName(n));
    date + " (" + WeekdayName(n) + ")"
  }

  /** The `except` branch: `f"Error: {str(e)}"` for an exception whose text is `message`. */
  function Caught(message: string): (r: ToolResult)
    ensures !r.success && StartsWith(r.result, "Error: ") && r.result[7..] == message
  {
    Failed("Error: " + message)
  }

  /** The day `days` days after (`ahead`) or before today. */
  function Target(today: Ordinal, days: int, ahead: bool): int {
    if ahead then today + days else today - days
  }

  /** The range of a C `int`, into which `timedelta` converts its day count. */
  const CIntMin: int := -0x8000_0000
  const CIntMax: int := 0x7FFF_FFFF

  /** The three `OverflowError` texts a shift can raise. */
  const CIntOverflow: string := "Python int too large to convert to C int"
  const OutOfRange: string := "date value out of range"

  function DeltaOverflow(days: int): string {
    "days=" + IntToString(days) + "; must have magnitude <= 999999999"
  }

  /** `today + timedelta(days=days)` or `today - timedelta(days=days)`, formatted. */
  function Displace(today: Ordinal, days: int, ahead: bool): (r: ToolResult)
    ensures r.success <==> -MaxDeltaDays <= days <= MaxDeltaDays && 1 <= Target(today, days, ahead) <= MaxOrdinal
    ensures r.success ==> r.result == Report(Target(today, days, ahead))
    ensures !r.success ==> StartsWith(r.result, "Error: ")
    ensures r != Failed(InvalidFormat)
  {
    if days < CIntMin || CIntMax < days then
      // the day count does not fit the C int `timedelta` converts it to
      Caught(CIntOverflow)
    else if days < -MaxDeltaDays || MaxDeltaDays < days then
      // the magnitude check of the timedelta constructor
      Caught(DeltaOverflow(days))
    else
      var target := Target(today, days, ahead);
      if target < 1 || MaxOrdinal < target then
        Caught(OutOfRange)
      else
        Succeeded(Report(target))
  }

  /**
   * What a failed shift says: a count beyond a C `int` fails in its
   * conversion, a count beyond the `timedelta` bound in its magnitude check,
   * and a day beyond the calendar in the addition.
   */
  lemma DisplaceErrors(today: Ordinal, days: int, ahead: bool)
    ensures !(CIntMin <= days <= CIntMax) ==> Displace(today, days, ahead) == Caught(CIntOverflow)
    ensures CIntMin <= days <= CIntMax && !(-MaxDeltaDays <= days <= MaxDeltaDays) ==>
      Displace(today, days, ahead) == Caught(DeltaOverflow(days))
    ensures -MaxDeltaDays <= days <= MaxDeltaDays && !Displace(today, days, ahead).success ==>
      Displace(today, days, ahead) == Caught(OutOfRange)
  {
  }

  /** `int(field)` and then the shift; a field `int` refuses ends in its ValueError. */
  function Shift(today: Ordinal, field: string, ahead: bool): (r: ToolResult)
    ensures ParseInt(field).None? ==> !r.success
    ensures ParseInt(field).Some? ==> r == Displace(today, ParseInt(field).value, ahead)
    ensures !r.success ==> StartsWith(r.result, "Error: ")
    ensures r != Failed(InvalidFormat)
  {
    match ParseInt(field)
    case None => Caught("invalid literal for int() with base 10: " + Truncate(Repr(field), 200))
    case Some(days) => Displace(today, days, ahead)
  }

  /** A day count after an information separator is refused, though `strip()` would remove the separator. */
  lemma SeparatorPaddedCountRefused(today: Ordinal, c: char, digits: string, ahead: bool)
    requires '\U{1C}' <= c <= '\U{1F}'
    ensures !Shift(today, [c] + digits, ahead).success
  {
    SeparatorNotSkipped(c, digits);
  }

  /** `DateTimeTool.run(query)` on the day `today`. */
  function Run(query: string, today: Ordinal): (r: ToolResult)
    ensures query == "today" ==> r == Succeeded(Report(today))
    ensures Classify(query) == Unrecognised <==> r == Failed(InvalidFormat)
    ensures StartsWith(query, "days_ago:") ==> r == Shift(today, TakeUntil(query[9..], ':'), false)
    ensures StartsWith(query, "days_ahead:") ==> r == Shift(today, TakeUntil(query[11..], ':'), true)
    ensures !r.success ==> StartsWith(r.result, "Error: ")
    ensures r.success ==> exists n: Ordinal :: r.result == Report(n)
  {
    match Classify(query)
    case Today => Succeeded(Report(today))
    case DaysAgo(field) => Shift(today, field, false)
    case DaysAhead(field) => Shift(today, field, true)
    case Unrecognised => Failed(InvalidFormat)
  }

  /** `<op>:<rest>` with an operation that is none of the three is refused. */
  lemma UnknownOperation(operation: string, rest: string)
    requires operation != "today" && operation != "days_ago" && operation != "days_ahead"
    requires ':' !in operation
    ensures Classify(operation + ":" + rest) == Unrecognised
  {
    var q := operation + ":" + rest;
    assert q != "today" by {
      assert q[|operation|] == ':';
    }
    if StartsWith(q, "days_ago:") {
      FieldBeforeSeparator("days_ago", operation, rest, ':');
    }
    if StartsWith(q, "days_ahead:") {
      FieldBeforeSeparator("days_ahead", operation, rest, ':');
    }
  }

  // ---------------------------------------------------------------- properties

  predicate AllDigits(s: string) {
    forall i :: 0 <= i < |s| ==> IsDigit(s[i])
  }

  /**
   * A report reads `YYYY-MM-DD (Weekday)`: four, two and two digits that
   * spell the year, month and day of a valid date whose day number is `n`,
   * and the English name of that day's weekday.
   */
  lemma ReportShape(n: Ordinal)
    ensures var r, d := Report(n), FromOrdinal(n);
      && IsValid(d) && ToOrdinal(d) == n
      && |r| == 13 + |WeekdayName(n)|
      && AllDigits(r[..4]) && NumeralValue(r[..4]) == d.year
      && r[4] == '-'
      && AllDigits(r[5..7]) && NumeralValue(r[5..7]) == d.month
      && r[7] == '-'
      && AllDigits(r[8..10]) && NumeralValue(r[8..10]) == d.day
      && r[10..12] == " ("
      && r[12..|r| - 1] == WeekdayName(n)
      && r[|r| - 1] == ')'
  {
    FromOrdinalCorrect(n);
    var date := FormatDate(FromOrdinal(n));
    var tail := " (" + WeekdayName(n) + ")";
    assert Report(n) == date + tail;
    DatePrefix(date, tail);
  }

  /** The padded year, month and day have widths 4, 2 and 2 and read back as the date's fields. */
  lemma PaddedFields(d: Date)
    requires IsValid(d)
    ensures |ZeroPad(d.year, 4)| == 4 && AllDigits(ZeroPad(d.year, 4)) && NumeralValue(ZeroPad(d.year, 4)) == d.year
    ensures |ZeroPad(d.month, 2)| == 2 && AllDigits(ZeroPad(d.month, 2)) && NumeralValue(ZeroPad(d.month, 2)) == d.month
    ensures |ZeroPad(d.day, 2)| == 2 && AllDigits(ZeroPad(d.day, 2)) && NumeralValue(ZeroPad(d.day, 2)) == d.day
  {
    ZeroPadValue(d.year, 4);
    ZeroPadValue(d.month, 2);
    ZeroPadValue(d.day, 2);
  }

  /** Where the fields of `Y-M-D` sit, for fields of widths 4, 2 and 2. */
  lemma DateLayout(y: string, m: string, dd: string)
    requires |y| == 4 && |m| == 2 && |dd| == 2
    ensures var r := y + "-" + m + "-" + dd;
      |r| == 10 && r[..4] == y && r[4] == '-' && r[5..7] == m && r[7] == '-' && r[8..10] == dd
  {
  }

  /** Where the weekday of `D (W)` sits, after a date of ten characters. */
  lemma TailLayout(date: string, w: string)
    requires |date| == 10
    ensures var r := date + " (" + w + ")";
      |r| == 13 + |w| && r[10..12] == " (" && r[12..|r| - 1] == w && r[|r| - 1] == ')'
  {
  }

  /** The fields of a date in front of other text are the fields of the date. */
  lemma DatePrefix(date: string, tail: string)
    requires |date| == 10
    ensures var r := date + tail;
      r[..4] == date[..4] && r[4] == date[4] && r[5..7] == date[5..7] && r[7] == date[7] && r[8..10] == date[8..10]
  {
  }

  /** A printed day count survives the round trip through the query text. */
  lemma FieldOfPrintedInt(d: int)
    ensures TakeUntil(IntToString(d), ':') == IntToString(d)
  {
    IntToStringShape(d);
  }

  /**
   * `days_ago:d` and `days_ahead:d`, as the agent builds them from an integer
   * `d`, are read back as a shift of exactly `d` days.
   */
  lemma ShiftQueryRoundTrip(d: int, today: Ordinal)
    ensures Classify("days_ago:" + IntToString(d)) == DaysAgo(IntToString(d))
    ensures Classify("days_ahead:" + IntToString(d)) == DaysAhead(IntToString(d))
    ensures Run("days_ago:" + IntToString(d), today) == Displace(today, d, false)
    ensures Run("days_ahead:" + IntToString(d), today) == Displace(today, d, true)
  {
    AgoQuery(d, today);
    AheadQuery(d, today);
  }

  lemma AgoQuery(d: int, today: Ordinal)
    ensures Classify("days_ago:" + IntToString(d)) == DaysAgo(IntToString(d))
    ensures Run("days_ago:" + IntToString(d), today) == Displace(today, d, false)
  {
    var s := IntToString(d);
    FieldOfPrintedInt(d);
    ParseIntOfIntToString(d);
    assert ("days_ago:" + s)[9..] == s;
    assert StartsWith("days_ago:" + s, "days_ago:");
  }

  lemma AheadQuery(d: int, today: Ordinal)
    ensures Classify("days_ahead:" + IntToString(d)) == DaysAhead(IntToString(d))
    ensures Run("days_ahead:" + IntToString(d), today) == Displace(today, d, true)
  {
    var s := IntToString(d);
    FieldOfPrintedInt(d);
    ParseIntOfIntToString(d);
    assert ("days_ahead:" + s)[11..] == s;
    assert StartsWith("days_ahead:" + s, "days_ahead:");
  }

  /**
   * `days_ago:N` and `days_ahead:-N` agree on success and name the same day;
   * only the overflow message of `timedelta` (which prints its own argument)
   * tells them apart.
   */
  lemma AgoIsAheadNegated(n: int, today: Ordinal)
    ensures Run("days_ago:" + IntToString(n), today).success == Run("days_ahead:" + IntToString(-n), today).success
    ensures -MaxDeltaDays <= n <= MaxDeltaDays ==>
      Run("days_ago:" + IntToString(n), today) == Run("days_ahead:" + IntToString(-n), today)
  {
    AgoQuery(n, today);
    AheadQuery(-n, today);
    var ago := Run("days_ago:" + IntToString(n), today);
    var ahead := Run("days_ahead:" + IntToString(-n), today);
    assert ago == Displace(today, n, false) && ahead == Displace(today, -n, true);
    DisplaceNegated(n, today);
  }

  lemma DisplaceNegated(n: int, today: Ordinal)
    ensures Displace(today, n, false).success == Displace(today, -n, true).success
    ensures -MaxDeltaDays <= n <= MaxDeltaDays ==> Displace(today, n, false) == Displace(today, -n, true)
  {
    assert Target(today, n, false) == Target(today, -n, true);
  }
}
