/**
 * Dates of the proleptic Gregorian calendar as Python's `datetime` counts
 * them: day 1 is 0001-01-01, and the last representable day is 9999-12-31.
 * The conversion from a day number to a date splits the number into
 * 400-, 100-, 4- and 1-year cycles, as the `datetime` library does.
 */
module Calendar {

  const MaxYear: int := 9999

  /** The day number of 9999-12-31, the last date `datetime` can represent. */
  const MaxOrdinal: int := 3652059

  /** A day number that `datetime` can represent. */
  type Ordinal = n: int | 1 <= n <= MaxOrdinal witness 1

  datatype Date = Date(year: int, month: int, day: int)

  predicate IsLeap(y: int) {
    y % 4 == 0 && (y % 100 != 0 || y % 400 == 0)
  }

  function DaysInYear(y: int): int {
    if IsLeap(y) then 366 else 365
  }

  function DaysInMonth(y: int, m: int): int
    requires 1 <= m <= 12
  {
    if m == 2 && IsLeap(y) then 29 else [31, 28, 31, 30, 31, 30, 31, 31, 30, 31, 30, 31][m - 1]
  }

  /** The number of days of year `y` before the first of month `m`. */
  function DaysBeforeMonth(y: int, m: int): int
    requires 1 <= m <= 12
  {
    [0, 31, 59, 90, 120, 151, 181, 212, 243, 273, 304, 334][m - 1] + (if m > 2 && IsLeap(y) then 1 else 0)
  }

  /** The number of days before January 1 of year `y`. */
  function DaysBeforeYear(y: int): int
    requires y >= 1
  {
    var p := y - 1;
    365 * p + p / 4 - p / 100 + p / 400
  }

  predicate IsValid(d: Date) {
    && 1 <= d.year <= MaxYear
    && 1 <= d.month <= 12
    && 1 <= d.day <= DaysInMonth(d.year, d.month)
  }

  /** `date.toordinal()`. */
  function ToOrdinal(d: Date): int
    requires d.year >= 1 && 1 <= d.month <= 12
  {
    DaysBeforeYear(d.year) + DaysBeforeMonth(d.year, d.month) + d.day
  }

  /** The month into which day `k` (counted from 0) of year `y` falls, searched from month `m` on. */
  function MonthOf(y: int, k: int, m: int): (r: int)
    requires 1 <= m <= 12 && DaysBeforeMonth(y, m) <= k
    ensures m <= r <= 12 && DaysBeforeMonth(y, r) <= k
    ensures r == 12 || k < DaysBeforeMonth(y, r + 1)
    decreases 12 - m
  {
    if m == 12 || k < DaysBeforeMonth(y, m + 1) then m else MonthOf(y, k, m + 1)
  }

  /** `date.fromordinal(n)`. */
  function FromOrdinal(n: Ordinal): Date {
    var n0 := n - 1;
    var n400, r400 := n0 / 146097, n0 % 146097;
    var n100, r100 := r400 / 36524, r400 % 36524;
    var n4, r4 := r100 / 1461, r100 % 1461;
    var n1, r1 := r4 / 365, r4 % 365;
    CycleDate(n400, n100, n4, n1, r1)
  }

  /**
   * The date that lies `a` 400-year cycles, `b` centuries, `c` 4-year cycles,
   * `e` years and `k` days after 0001-01-01.
   */
  function CycleDate(a: nat, b: nat, c: nat, e: nat, k: nat): Date
    requires k < 365
  {
    if b == 4 || e == 4 then
      // the last day of a 400-year or of a 4-year cycle
      Date(400 * a + 100 * b + 4 * c + e, 12, 31)
    else
      var y := 400 * a + 100 * b + 4 * c + e + 1;
      var m := MonthOf(y, k, 1);
      Date(y, m, k - DaysBeforeMonth(y, m) + 1)
  }

  // ---------------------------------------------------------------- proofs

  lemma MonthSpan(y: int, m: int)
    requires 1 <= m <= 12
    ensures m < 12 ==> DaysBeforeMonth(y, m + 1) == DaysBeforeMonth(y, m) + DaysInMonth(y, m)
    ensures m == 12 ==> DaysBeforeMonth(y, m) + DaysInMonth(y, m) == DaysInYear(y)
  {
  }

  lemma DaysBeforeMonthMonotone(y: int, m1: int, m2: int)
    requires 1 <= m1 < m2 <= 12
    ensures DaysBeforeMonth(y, m1) + DaysInMonth(y, m1) <= DaysBeforeMonth(y, m2)
  {
  }

  /** Whole cycles of 400, 100, 4 and 1 years last 146097, 36524, 1461 and 365 days. */
  lemma DaysBeforeYearCycles(a: nat, b: nat, c: nat, e: nat)
    requires b <= 3 && c <= 24 && e <= 3
    ensures DaysBeforeYear(400 * a + 100 * b + 4 * c + e + 1) == 146097 * a + 36524 * b + 1461 * c + 365 * e
  {
    var p := 400 * a + 100 * b + 4 * c + e;
    assert p / 4 == 100 * a + 25 * b + c;
    assert p / 100 == 4 * a + b;
    assert p / 400 == a;
  }

  /** A year adds its own length to the days before the next one. */
  lemma DaysBeforeYearStep(y: int)
    requires y >= 1
    ensures DaysBeforeYear(y + 1) == DaysBeforeYear(y) + DaysInYear(y)
  {
    StepOver4(y);
    StepOver100(y);
    StepOver400(y);
    DivisibilityChain(y);
  }

  /** A multiple of 400 is a multiple of 100, and a multiple of 100 a multiple of 4. */
  lemma DivisibilityChain(y: int)
    ensures y % 400 == 0 ==> y % 100 == 0
    ensures y % 100 == 0 ==> y % 4 == 0
  {
    if y % 400 == 0 {
      HundredsIn400(y / 400);
    }
    if y % 100 == 0 {
      FoursIn100(y / 100);
    }
  }

  lemma HundredsIn400(q: int)
    ensures (400 * q) % 400 == 0 && (400 * q) % 100 == 0 && (400 * q) % 4 == 0
  {
  }

  lemma FoursIn100(q: int)
    ensures (100 * q) % 100 == 0 && (100 * q) % 4 == 0
  {
  }

  lemma StepOver4(y: int)
    ensures y / 4 == (y - 1) / 4 + (if y % 4 == 0 then 1 else 0)
  {
    var q, r := y / 4, y % 4;
    assert y == 4 * q + r;
    if r == 0 {
      assert y - 1 == 4 * (q - 1) + 3;
    } else {
      assert y - 1 == 4 * q + (r - 1);
    }
  }

  lemma StepOver100(y: int)
    ensures y / 100 == (y - 1) / 100 + (if y % 100 == 0 then 1 else 0)
  {
    var q, r := y / 100, y % 100;
    assert y == 100 * q + r;
    if r == 0 {
      assert y - 1 == 100 * (q - 1) + 99;
    } else {
      assert y - 1 == 100 * q + (r - 1);
    }
  }

  lemma StepOver400(y: int)
    ensures y / 400 == (y - 1) / 400 + (if y % 400 == 0 then 1 else 0)
  {
    var q, r := y / 400, y % 400;
    assert y == 400 * q + r;
    if r == 0 {
      assert y - 1 == 400 * (q - 1) + 399;
    } else {
      assert y - 1 == 400 * q + (r - 1);
    }
  }

  lemma {:induction false} DaysBeforeYearMonotone(y1: int, y2: int)
    requires 1 <= y1 <= y2
    ensures DaysBeforeYear(y1) + (y2 - y1) * 365 <= DaysBeforeYear(y2)
    decreases y2 - y1
  {
    if y1 < y2 {
      DaysBeforeYearMonotone(y1, y2 - 1);
      DaysBeforeYearStep(y2 - 1);
    }
  }

  /** Every date of a year falls after the days before it and no later than its last day. */
  lemma OrdinalWithinYear(d: Date)
    requires IsValid(d)
    ensures DaysBeforeYear(d.year) < ToOrdinal(d) <= DaysBeforeYear(d.year) + DaysInYear(d.year)
  {
    MonthSpan(d.year, d.month);
    if d.month < 12 {
      DaysBeforeMonthMonotone(d.year, d.month, 12);
      MonthSpan(d.year, 12);
    }
  }

  /** The days of the representable dates are exactly the representable day numbers. */
  lemma ToOrdinalInRange(d: Date)
    requires IsValid(d)
    ensures 1 <= ToOrdinal(d) <= MaxOrdinal
  {
    OrdinalWithinYear(d);
    DaysBeforeYearStep(d.year);
    DaysBeforeYearMonotone(d.year + 1, MaxYear + 1);
  }

  /** The cycle counts `FromOrdinal` takes apart, with the bounds division gives them. */
  lemma CycleCounts(n: Ordinal) returns (a: nat, b: nat, c: nat, e: nat, k: nat)
    ensures k < 365 && FromOrdinal(n) == CycleDate(a, b, c, e, k)
    ensures n - 1 == 146097 * a + 36524 * b + 1461 * c + 365 * e + k
    ensures b <= 4 && c <= 24 && e <= 4
    ensures b == 4 ==> c == 0 && e == 0 && k == 0
    ensures e == 4 ==> c <= 23 && k == 0
  {
    var n0 := n - 1;
    var r400, r100, r4: int;
    a, r400 := n0 / 146097, n0 % 146097;
    b, r100 := r400 / 36524, r400 % 36524;
    c, r4 := r100 / 1461, r100 % 1461;
    e, k := r4 / 365, r4 % 365;
  }

  /** The last day of a 400-year cycle is December 31 of a leap year. */
  lemma EndOf400YearCycle(a: nat, k: nat)
    requires k < 365
    ensures var d := CycleDate(a, 4, 0, 0, k);
      d == Date(400 * (a + 1), 12, 31) && IsLeap(d.year)
      && ToOrdinal(d) == 146097 * a + 36524 * 4 + 1
  {
    var y := 400 * (a + 1);
    DaysBeforeYearCycles(a, 3, 24, 3);
    LeapAtEndOf400YearCycle(a);
    assert CycleDate(a, 4, 0, 0, k) == Date(y, 12, 31);
    assert DaysBeforeYear(y) == 146097 * a + 36524 * 3 + 1461 * 24 + 365 * 3;
    assert DaysBeforeMonth(y, 12) == 335;
  }

  lemma LeapAtEndOf400YearCycle(a: nat)
    ensures IsLeap(400 * (a + 1))
  {
    HundredsIn400(a + 1);
  }

  /** The last day of a 4-year cycle inside a century is December 31 of a leap year. */
  lemma EndOf4YearCycle(a: nat, b: nat, c: nat, k: nat)
    requires b <= 3 && c <= 23 && k < 365
    ensures var d := CycleDate(a, b, c, 4, k);
      d == Date(400 * a + 100 * b + 4 * (c + 1), 12, 31) && IsLeap(d.year)
      && ToOrdinal(d) == 146097 * a + 36524 * b + 1461 * c + 365 * 4 + 1
  {
    DaysBeforeYearCycles(a, b, c, 3);
    var y := 400 * a + 100 * b + 4 * (c + 1);
    LeapAtEndOf4YearCycle(a, b, c);
    assert CycleDate(a, b, c, 4, k) == Date(y, 12, 31);
    assert DaysBeforeYear(y) == 146097 * a + 36524 * b + 1461 * c + 365 * 3;
    assert DaysBeforeMonth(y, 12) == 335;
  }

  lemma LeapAtEndOf4YearCycle(a: nat, b: nat, c: nat)
    requires b <= 3 && c <= 23
    ensures IsLeap(400 * a + 100 * b + 4 * (c + 1))
  {
    CenturyRemainder(4 * a + b, 4 * (c + 1));
    FoursIn100(4 * a + b);
    FourRemainder(100 * (4 * a + b), c + 1);
  }

  /** `100 p + r` leaves `r` over a multiple of 100. */
  lemma CenturyRemainder(p: int, r: int)
    requires 0 <= r < 100
    ensures (100 * p + r) % 100 == r
  {
  }

  /** A multiple of 4 plus a multiple of 4 is a multiple of 4. */
  lemma FourRemainder(x: int, k: int)
    requires x % 4 == 0
    ensures (x + 4 * k) % 4 == 0
  {
  }

  lemma InnerCycleDate(a: nat, b: nat, c: nat, e: nat, k: nat)
    requires b <= 3 && c <= 24 && e <= 3 && k < 365
    ensures var d := CycleDate(a, b, c, e, k);
      IsValid(d) || d.year > MaxYear
    ensures var d := CycleDate(a, b, c, e, k);
      d.year >= 1 && ToOrdinal(d) == 146097 * a + 36524 * b + 1461 * c + 365 * e + k + 1
  {
    var d := CycleDate(a, b, c, e, k);
    DaysBeforeYearCycles(a, b, c, e);
    MonthSpan(d.year, d.month);
  }

  /** The date `CycleDate` picks is valid in its month and has the day number of the counts. */
  lemma CycleDateCorrect(a: nat, b: nat, c: nat, e: nat, k: nat)
    requires b <= 4 && c <= 24 && e <= 4 && k < 365
    requires b == 4 ==> c == 0 && e == 0 && k == 0
    requires e == 4 ==> c <= 23 && k == 0
    ensures var d := CycleDate(a, b, c, e, k);
      && d.year >= 1 && 1 <= d.month <= 12 && 1 <= d.day <= DaysInMonth(d.year, d.month)
      && ToOrdinal(d) == 146097 * a + 36524 * b + 1461 * c + 365 * e + k + 1
  {
    if b == 4 {
      EndOf400YearCycle(a, k);
    } else if e == 4 {
      EndOf4YearCycle(a, b, c, k);
    } else {
      InnerCycleDate(a, b, c, e, k);
    }
  }

  /** `date.fromordinal` yields a valid date whose day number is the one it was given. */
  lemma FromOrdinalCorrect(n: Ordinal)
    ensures IsValid(FromOrdinal(n))
    ensures ToOrdinal(FromOrdinal(n)) == n
  {
    var a, b, c, e, k := CycleCounts(n);
    CycleDateCorrect(a, b, c, e, k);
    YearWithinRange(FromOrdinal(n));
  }

  /** A date whose day number is representable lies in a representable year. */
  lemma YearWithinRange(d: Date)
    requires d.year >= 1 && 1 <= d.month <= 12 && d.day >= 1
    requires ToOrdinal(d) <= MaxOrdinal
    ensures d.year <= MaxYear
  {
    if d.year > MaxYear {
      OrdinalWithinYearBound(d);
      DaysBeforeYearMonotone(MaxYear + 1, d.year);
    }
  }

  lemma OrdinalWithinYearBound(d: Date)
    requires d.year >= 1 && 1 <= d.month <= 12 && d.day >= 1
    ensures ToOrdinal(d) > DaysBeforeYear(d.year)
  {
  }

  /** Distinct valid dates have distinct day numbers. */
  lemma ToOrdinalInjective(d1: Date, d2: Date)
    requires IsValid(d1) && IsValid(d2) && ToOrdinal(d1) == ToOrdinal(d2)
    ensures d1 == d2
  {
    SameYear(d1, d2);
    SameMonth(d1, d2);
  }

  lemma SameYear(d1: Date, d2: Date)
    requires IsValid(d1) && IsValid(d2) && ToOrdinal(d1) == ToOrdinal(d2)
    ensures d1.year == d2.year
  {
    if d1.year < d2.year {
      EarlierYear(d1, d2);
    } else if d2.year < d1.year {
      EarlierYear(d2, d1);
    }
  }

  /** A date of an earlier year has a smaller day number. */
  lemma EarlierYear(d1: Date, d2: Date)
    requires IsValid(d1) && IsValid(d2) && d1.year < d2.year
    ensures ToOrdinal(d1) < ToOrdinal(d2)
  {
    OrdinalWithinYear(d1);
    OrdinalWithinYear(d2);
    DaysBeforeYearStep(d1.year);
    DaysBeforeYearMonotone(d1.year + 1, d2.year);
  }

  lemma SameMonth(d1: Date, d2: Date)
    requires IsValid(d1) && IsValid(d2) && d1.year == d2.year && ToOrdinal(d1) == ToOrdinal(d2)
    ensures d1.month == d2.month
  {
    if d1.month < d2.month {
      DaysBeforeMonthMonotone(d1.year, d1.month, d2.month);
    } else if d2.month < d1.month {
      DaysBeforeMonthMonotone(d1.year, d2.month, d1.month);
    }
  }

  /** `date.fromordinal(d.toordinal()) == d` for every representable date. */
  lemma FromOrdinalOfToOrdinal(d: Date)
    requires IsValid(d)
    ensures 1 <= ToOrdinal(d) <= MaxOrdinal && FromOrdinal(ToOrdinal(d)) == d
  {
    ToOrdinalInRange(d);
    FromOrdinalCorrect(ToOrdinal(d));
    ToOrdinalInjective(FromOrdinal(ToOrdinal(d)), d);
  }

  // ---------------------------------------------------------------- weekdays

  const WeekdayNames: seq<string> := ["Monday", "Tuesday", "Wednesday", "Thursday", "Friday", "Saturday", "Sunday"]

  /** `date.weekday()`: Monday is 0, and day 1 (0001-01-01) is a Monday. */
  function Weekday(n: int): (w: nat)
    ensures w < 7
  {
    (n + 6) % 7
  }

  /** `strftime("%A")` in the C locale. */
  function WeekdayName(n: int): string {
    WeekdayNames[Weekday(n)]
  }

  /** Weekdays repeat every seven days, and each day follows the one before. */
  lemma WeekdayStep(n: int)
    ensures Weekday(n + 7) == Weekday(n)
    ensures Weekday(n + 1) == (Weekday(n) + 1) % 7
  {
    var q := (n + 6) / 7;
    assert n + 7 + 6 == 7 * (q + 1) + Weekday(n);
    if Weekday(n) < 6 {
      assert n + 1 + 6 == 7 * q + (Weekday(n) + 1);
    } else {
      assert n + 1 + 6 == 7 * (q + 1);
    }
  }

  /** The names repeat weekly, and each day is named after the day before it in the week. */
  lemma WeekdayNameCycle(n: int)
    ensures WeekdayName(n) in WeekdayNames
    ensures WeekdayName(n + 7) == WeekdayName(n)
    ensures WeekdayName(n + 1) == WeekdayNames[(Weekday(n) + 1) % 7]
  {
    WeekdayStep(n);
  }

  /** Day 738886 is Monday 2024-01-01. */
  lemma KnownRecentDay()
    ensures FromOrdinal(738886) == Date(2024, 1, 1) && WeekdayName(738886) == "Monday"
  {
    NewYear2024();
    MondayAt738886();
  }

  lemma NewYear2024()
    ensures FromOrdinal(738886) == Date(2024, 1, 1)
  {
    assert ToOrdinal(Date(2024, 1, 1)) == 738886;
    FromOrdinalOfToOrdinal(Date(2024, 1, 1));
  }

  lemma MondayAt738886()
    ensures WeekdayName(738886) == "Monday"
  {
    assert Weekday(738886) == 0;
  }
}
