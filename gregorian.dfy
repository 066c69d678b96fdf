/**
 * The proleptic Gregorian calendar as JavaScript's local-time Date uses it:
 * dates (year, 0-based month, day), month lengths with the leap-year rule,
 * a day count from 0000-01-01, the weekday (0 = Sunday), day arithmetic,
 * the `new Date(year, monthIndex, day)` normalisation and the ISO
 * `YYYY-MM-DD` text of a date.
 */
module Gregorian {

  /** A calendar date; `month` is 0-based (0 = January) as `getMonth()` returns it. */
  datatype Date = Date(year: int, month: int, day: int)

  predicate IsLeapYear(y: int) {
    y % 4 == 0 && (y % 100 != 0 || y % 400 == 0)
  }

  function DaysInMonth(y: int, m: int): (n: int)
    requires 0 <= m < 12
    ensures 28 <= n <= 31
  {
    if m == 1 then (if IsLeapYear(y) then 29 else 28)
    else if m == 3 || m == 5 || m == 8 || m == 10 then 30
    else 31
  }

  predicate Valid(d: Date) {
    0 <= d.month < 12 && 1 <= d.day <= DaysInMonth(d.year, d.month)
  }

  function YearLength(y: int): int {
    if IsLeapYear(y) then 366 else 365
  }

  /** Days from 0000-01-01 to January 1st of year `y` (negative for earlier years). */
  function DaysBeforeYear(y: int): int {
    365 * y + (y + 3) / 4 - (y + 99) / 100 + (y + 399) / 400
  }

  /** Days from January 1st to the first of month `m` of year `y` (`m == 12` gives the year length). */
  function DaysBeforeMonth(y: int, m: int): int
    requires 0 <= m <= 12
  {
    [0, 31, 59, 90, 120, 151, 181, 212, 243, 273, 304, 334, 365][m] + (if m >= 2 && IsLeapYear(y) then 1 else 0)
  }

  /** Days from 0000-01-01 to `d`. */
  function DayNumber(d: Date): int
    requires Valid(d)
  {
    DaysBeforeYear(d.year) + DaysBeforeMonth(d.year, d.month) + d.day - 1
  }

  /** `getDay()`: 0 = Sunday .. 6 = Saturday; 0000-01-01 was a Saturday. */
  function DayOfWeek(d: Date): (w: int)
    requires Valid(d)
    ensures 0 <= w < 7
  {
    (DayNumber(d) + 6) % 7
  }

  /** The day after `d`, rolling over month and year ends. */
  function NextDay(d: Date): (r: Date)
    requires Valid(d)
    ensures Valid(r)
  {
    if d.day < DaysInMonth(d.year, d.month) then Date(d.year, d.month, d.day + 1)
    else if d.month < 11 then Date(d.year, d.month + 1, 1)
    else Date(d.year + 1, 0, 1)
  }

  /** The day before `d`, rolling back over month and year starts. */
  function PrevDay(d: Date): (r: Date)
    requires Valid(d)
    ensures Valid(r)
  {
    if d.day > 1 then Date(d.year, d.month, d.day - 1)
    else if d.month > 0 then Date(d.year, d.month - 1, DaysInMonth(d.year, d.month - 1))
    else Date(d.year - 1, 11, 31)
  }

  /** The date `n` days after `d` (before it when `n` is negative). */
  function AddDays(d: Date, n: int): (r: Date)
    requires Valid(d)
    ensures Valid(r)
    decreases if n < 0 then -n else n
  {
    if n == 0 then d
    else if n > 0 then AddDays(NextDay(d), n - 1)
    else AddDays(PrevDay(d), n + 1)
  }

  /** The first day of month index `m` of year `y`, with `m` carried into the year as `new Date(y, m)` does. */
  function FirstOfMonth(y: int, m: int): (r: Date)
    ensures Valid(r) && r.day == 1
  {
    Date(y + m / 12, m % 12, 1)
  }

  /** `new Date(y, m, d)`: day `d` counted from the first of the normalised month, so 0 and negative days fall in earlier months. */
  function MakeDate(y: int, m: int, d: int): (r: Date)
    ensures Valid(r)
  {
    AddDays(FirstOfMonth(y, m), d - 1)
  }

  // ---- Day-count facts ----

  lemma DaysBeforeNextYear(y: int)
    ensures DaysBeforeYear(y + 1) == DaysBeforeYear(y) + YearLength(y)
  {
    StepBy4(y);
    StepBy100(y);
    StepBy400(y);
    Divisibility(y);
    var s4 := if y % 4 == 0 then 1 else 0;
    var s100 := if y % 100 == 0 then 1 else 0;
    var s400 := if y % 400 == 0 then 1 else 0;
    assert DaysBeforeYear(y + 1) - DaysBeforeYear(y) == 365 + s4 - s100 + s400;
    assert s4 - s100 + s400 == if IsLeapYear(y) then 1 else 0;
  }

  /** A multiple of 400 is a multiple of 100, which is a multiple of 4. */
  lemma Divisibility(y: int)
    ensures y % 400 == 0 ==> y % 100 == 0
    ensures y % 100 == 0 ==> y % 4 == 0
  {
    if y % 400 == 0 {
      var k := 4 * (y / 400);
      assert y == 100 * k;
      MultipleOf100(k);
    }
    if y % 100 == 0 {
      var k := 25 * (y / 100);
      assert y == 4 * k;
      MultipleOf4(k);
    }
  }

  lemma MultipleOf4(k: int)
    ensures (4 * k) % 4 == 0
  {
  }

  lemma MultipleOf100(k: int)
    ensures (100 * k) % 100 == 0
  {
  }

  /** The multiples of 4 up to `y + 3` and up to `y + 4` differ by one exactly at a multiple of 4. */
  lemma StepBy4(y: int)
    ensures (y + 4) / 4 - (y + 3) / 4 == if y % 4 == 0 then 1 else 0
  {
    var q, r := y / 4, y % 4;
    assert y == 4 * q + r;
    assert (y + 4) / 4 == q + 1;
    if r == 0 {
      assert (y + 3) / 4 == q;
    } else {
      assert (y + 3) / 4 == q + 1;
    }
  }

  lemma StepBy100(y: int)
    ensures (y + 100) / 100 - (y + 99) / 100 == if y % 100 == 0 then 1 else 0
  {
    var q, r := y / 100, y % 100;
    assert y == 100 * q + r;
    assert (y + 100) / 100 == q + 1;
    if r == 0 {
      assert (y + 99) / 100 == q;
    } else {
      assert (y + 99) / 100 == q + 1;
    }
  }

  lemma StepBy400(y: int)
    ensures (y + 400) / 400 - (y + 399) / 400 == if y % 400 == 0 then 1 else 0
  {
    var q, r := y / 400, y % 400;
    assert y == 400 * q + r;
    assert (y + 400) / 400 == q + 1;
    if r == 0 {
      assert (y + 399) / 400 == q;
    } else {
      assert (y + 399) / 400 == q + 1;
    }
  }

  lemma {:induction false} DaysBeforeYearMonotonic(y1: int, y2: int)
    requires y1 <= y2
    ensures DaysBeforeYear(y1) <= DaysBeforeYear(y2)
    decreases y2 - y1
  {
    if y1 < y2 {
      DaysBeforeNextYear(y1);
      DaysBeforeYearMonotonic(y1 + 1, y2);
    }
  }

  /** The day count steps by one from a day to the next, across month and year ends. */
  lemma NextDayNumber(d: Date)
    requires Valid(d)
    ensures DayNumber(NextDay(d)) == DayNumber(d) + 1
  {
    if d.day == DaysInMonth(d.year, d.month) && d.month == 11 {
      DaysBeforeNextYear(d.year);
    }
  }

  lemma PrevDayNumber(d: Date)
    requires Valid(d)
    ensures DayNumber(PrevDay(d)) == DayNumber(d) - 1
  {
    if d.day == 1 && d.month == 0 {
      DaysBeforeNextYear(d.year - 1);
    }
  }

  /** Adding `n` days adds `n` to the day count. */
  lemma {:induction false} AddDaysNumber(d: Date, n: int)
    requires Valid(d)
    ensures DayNumber(AddDays(d, n)) == DayNumber(d) + n
    decreases if n < 0 then -n else n
  {
    if n > 0 {
      NextDayNumber(d);
      AddDaysNumber(NextDay(d), n - 1);
    } else if n < 0 {
      PrevDayNumber(d);
      AddDaysNumber(PrevDay(d), n + 1);
    }
  }

  /** A valid date's day count lies within its year. */
  lemma DayNumberWithinYear(d: Date)
    requires Valid(d)
    ensures DaysBeforeYear(d.year) <= DayNumber(d) < DaysBeforeYear(d.year + 1)
  {
    DaysBeforeNextYear(d.year);
  }

  /** Distinct valid dates have distinct day counts. */
  lemma DayNumberInjective(a: Date, b: Date)
    requires Valid(a) && Valid(b) && DayNumber(a) == DayNumber(b)
    ensures a == b
  {
    DayNumberWithinYear(a);
    DayNumberWithinYear(b);
    if a.year < b.year {
      DaysBeforeYearMonotonic(a.year + 1, b.year);
    } else if b.year < a.year {
      DaysBeforeYearMonotonic(b.year + 1, a.year);
    }
    assert a.year == b.year;
  }

  /** Day arithmetic composes: n days and then k days is n + k days. */
  lemma AddDaysAdd(d: Date, n: int, k: int)
    requires Valid(d)
    ensures AddDays(AddDays(d, n), k) == AddDays(d, n + k)
  {
    AddDaysNumber(d, n);
    AddDaysNumber(AddDays(d, n), k);
    AddDaysNumber(d, n + k);
    DayNumberInjective(AddDays(AddDays(d, n), k), AddDays(d, n + k));
  }

  /** The weekday advances by one per day, cyclically. */
  lemma AddDaysWeekday(d: Date, n: int)
    requires Valid(d)
    ensures DayOfWeek(AddDays(d, n)) == (DayOfWeek(d) + n) % 7
  {
    AddDaysNumber(d, n);
    ShiftMod7(DayNumber(d) + 6, n);
  }

  lemma ShiftMod7(a: int, n: int)
    ensures (a % 7 + n) % 7 == (a + n) % 7
  {
    var q := a / 7;
    assert a == 7 * q + a % 7;
    var x := a % 7 + n;
    assert a + n == x + 7 * q;
    var qx := x / 7;
    assert x == 7 * qx + x % 7;
    assert a + n == 7 * (qx + q) + x % 7;
  }

  /** Within a month, counting from the 1st reaches each day of that month. */
  lemma DayOfMonth(y: int, m: int, k: int)
    requires 0 <= m < 12 && 0 <= k < DaysInMonth(y, m)
    ensures AddDays(Date(y, m, 1), k) == Date(y, m, k + 1)
  {
    AddDaysNumber(Date(y, m, 1), k);
    DayNumberInjective(AddDays(Date(y, m, 1), k), Date(y, m, k + 1));
  }

  /** The month after `(y, m)`, with December rolling into January of the next year. */
  function FollowingMonth(y: int, m: int): (r: Date)
    requires 0 <= m < 12
    ensures Valid(r) && r.day == 1
  {
    if m < 11 then Date(y, m + 1, 1) else Date(y + 1, 0, 1)
  }

  /** The month before `(y, m)`, with January rolling back into December of the previous year. */
  function PrecedingMonth(y: int, m: int): (r: Date)
    requires 0 <= m < 12
    ensures Valid(r) && r.day == 1
  {
    if m > 0 then Date(y, m - 1, 1) else Date(y - 1, 11, 1)
  }

  /** Counting a month's length from its 1st reaches the 1st of the following month. */
  lemma EndOfMonth(y: int, m: int)
    requires 0 <= m < 12
    ensures AddDays(Date(y, m, 1), DaysInMonth(y, m)) == FollowingMonth(y, m)
  {
    AddDaysNumber(Date(y, m, 1), DaysInMonth(y, m));
    FollowingMonthNumber(y, m);
    DayNumberInjective(AddDays(Date(y, m, 1), DaysInMonth(y, m)), FollowingMonth(y, m));
  }

  /**
   * Past a month's length, counting from its 1st (pushed forward by `lead`
   * cells, at most 13 cells past the end) reaches the following month's days.
   */
  lemma PastMonthDay(y: int, m: int, lead: int, i: int)
    requires 0 <= m < 12 && 0 <= lead && lead + DaysInMonth(y, m) <= i < 42
    ensures var n := FollowingMonth(y, m);
            AddDays(Date(y, m, 1), i - lead) == Date(n.year, n.month, i - lead - DaysInMonth(y, m) + 1)
  {
    var n := FollowingMonth(y, m);
    var k := i - lead - DaysInMonth(y, m);
    PastEndOfMonth(y, m, k);
    assert DaysInMonth(y, m) + k == i - lead;
    DayOfMonth(n.year, n.month, k);
  }

  /** Different offsets from one valid date give different `YYYY-MM-DD` texts. */
  lemma DistinctOffsetKeys(first: Date, a: int, b: int, da: Date, db: Date)
    requires Valid(first) && a != b && da == AddDays(first, a) && db == AddDays(first, b)
    ensures DateKey(da) != DateKey(db)
  {
    AddDaysNumber(first, a);
    AddDaysNumber(first, b);
    if DateKey(da) == DateKey(db) {
      DateKeyInjective(da, db);
    }
  }

  /** Counting on from the 1st of the following month is counting on from this month's 1st past its length. */
  lemma PastEndOfMonth(y: int, m: int, k: int)
    requires 0 <= m < 12
    ensures AddDays(FollowingMonth(y, m), k) == AddDays(Date(y, m, 1), DaysInMonth(y, m) + k)
  {
    EndOfMonth(y, m);
    AddDaysAdd(Date(y, m, 1), DaysInMonth(y, m), k);
  }

  /** The 1st of the following month is a month's length after the 1st of this one. */
  lemma FollowingMonthNumber(y: int, m: int)
    requires 0 <= m < 12
    ensures DayNumber(FollowingMonth(y, m)) == DayNumber(Date(y, m, 1)) + DaysInMonth(y, m)
  {
    if m == 11 {
      DaysBeforeNextYear(y);
    } else {
      assert DaysBeforeMonth(y, m + 1) == DaysBeforeMonth(y, m) + DaysInMonth(y, m);
    }
  }

  /** The day before a month's 1st is the last day of the preceding month. */
  lemma StartOfMonth(y: int, m: int)
    requires 0 <= m < 12
    ensures var p := PrecedingMonth(y, m);
            AddDays(Date(y, m, 1), -1) == Date(p.year, p.month, DaysInMonth(p.year, p.month))
  {
    var p := PrecedingMonth(y, m);
    AddDaysNumber(Date(y, m, 1), -1);
    DaysBeforeNextYear(y - 1);
    DayNumberInjective(AddDays(Date(y, m, 1), -1), Date(p.year, p.month, DaysInMonth(p.year, p.month)));
  }

  /** `new Date(y, m + 1)` and `new Date(y, m - 1)` roll the year at December and January. */
  lemma FirstOfAdjacentMonths(y: int, m: int)
    requires 0 <= m < 12
    ensures FirstOfMonth(y, m + 1) == FollowingMonth(y, m)
    ensures FirstOfMonth(y, m - 1) == PrecedingMonth(y, m)
    ensures FirstOfMonth(y, m) == Date(y, m, 1)
  {
  }

  // ---- ISO date text ----

  function Digit(n: int): char
    requires 0 <= n < 10
  {
    ('0' as int + n) as char
  }

  /** The decimal digits of `n`, left-padded with '0' to at least `w` characters. */
  function Padded(n: nat, w: nat): (s: string)
    ensures |s| >= 1 && |s| >= w
    decreases n, w
  {
    if n < 10 && w <= 1 then [Digit(n)]
    else Padded(n / 10, if w == 0 then 0 else w - 1) + [Digit(n % 10)]
  }

  lemma {:induction false} PaddedInjective(a: nat, b: nat, w: nat)
    requires Padded(a, w) == Padded(b, w)
    ensures a == b
    decreases a, w
  {
    var pa, pb := Padded(a, w), Padded(b, w);
    assert pa[|pa| - 1] == pb[|pb| - 1];
    if !(a < 10 && w <= 1) && !(b < 10 && w <= 1) {
      var w' := if w == 0 then 0 else w - 1;
      assert Padded(a / 10, w') == pa[..|pa| - 1] == pb[..|pb| - 1] == Padded(b / 10, w');
      PaddedInjective(a / 10, b / 10, w');
    }
  }

  /** Numbers below 10^w take exactly `w` characters. */
  lemma PaddedWidth(n: nat, w: nat)
    requires (w == 2 && n < 100) || (w == 4 && n < 10000)
    ensures |Padded(n, w)| == w
  {
    if w == 4 {
      assert |Padded(n / 1000, 1)| == 1;
      assert |Padded(n / 100, 2)| == 2;
      assert |Padded(n / 10, 3)| == 3;
    } else {
      assert |Padded(n / 10, 1)| == 1;
    }
  }

  /** The year as `toISOString` writes it: four digits, or a sign and six digits outside 0..9999. */
  function YearText(y: int): string {
    if 0 <= y <= 9999 then Padded(y, 4)
    else if y < 0 then "-" + Padded(-y, 6)
    else "+" + Padded(y, 6)
  }

  /** The `-MM-DD` tail of the ISO text. */
  function MonthDayText(month: int, day: int): string {
    "-" + Padded(if month + 1 < 0 then 0 else month + 1, 2) + "-" + Padded(if day < 0 then 0 else day, 2)
  }

  /** `YYYY-MM-DD`, the date part of `toISOString()`, read in local time. */
  function DateKey(d: Date): string {
    YearText(d.year) + MonthDayText(d.month, d.day)
  }

  lemma YearTextInjective(a: int, b: int)
    requires YearText(a) == YearText(b)
    ensures a == b
  {
    if 0 <= a <= 9999 { PaddedWidth(a, 4); }
    if 0 <= b <= 9999 { PaddedWidth(b, 4); }
    var ta, tb := YearText(a), YearText(b);
    if !(0 <= a <= 9999) && !(0 <= b <= 9999) {
      assert ta[0] == tb[0];
      assert ta[1..] == tb[1..];
      if a < 0 {
        assert ta[1..] == Padded(-a, 6);
        if b < 0 { PaddedInjective(-a, -b, 6); }
      } else {
        if b > 9999 { PaddedInjective(a, b, 6); }
      }
    } else if 0 <= a <= 9999 && 0 <= b <= 9999 {
      PaddedInjective(a, b, 4);
    }
  }

  /** Two concatenations that agree, with tails of one length, agree part by part. */
  lemma ConcatCancel<T>(a: seq<T>, b: seq<T>, c: seq<T>, d: seq<T>)
    requires a + b == c + d && |b| == |d|
    ensures a == c && b == d
  {
    assert a == (a + b)[..|a|];
    assert c == (c + d)[..|c|];
    assert b == (a + b)[|a|..];
    assert d == (c + d)[|c|..];
  }

  /** Month and day of valid dates are recovered from the `-MM-DD` tail, which is six characters long. */
  lemma MonthDayTextInjective(a: Date, b: Date)
    requires Valid(a) && Valid(b)
    ensures |MonthDayText(a.month, a.day)| == 6
    ensures MonthDayText(a.month, a.day) == MonthDayText(b.month, b.day) ==> a.month == b.month && a.day == b.day
  {
    PaddedWidth(a.month + 1, 2);
    PaddedWidth(b.month + 1, 2);
    PaddedWidth(a.day, 2);
    PaddedWidth(b.day, 2);
    var pa, qa := Padded(a.month + 1, 2), Padded(a.day, 2);
    var pb, qb := Padded(b.month + 1, 2), Padded(b.day, 2);
    DashParts(MonthDayText(a.month, a.day), pa, qa);
    DashParts(MonthDayText(b.month, b.day), pb, qb);
    if MonthDayText(a.month, a.day) == MonthDayText(b.month, b.day) {
      PaddedInjective(a.month + 1, b.month + 1, 2);
      PaddedInjective(a.day, b.day, 2);
    }
  }

  /** `-pp-qq` is six characters, with pp at 1..3 and qq from 4 on. */
  lemma DashParts(t: string, p: string, q: string)
    requires |p| == 2 && |q| == 2 && t == "-" + p + "-" + q
    ensures |t| == 6 && t[1..3] == p && t[4..] == q
  {
  }

  /** Distinct valid dates have distinct `YYYY-MM-DD` texts. */
  lemma DateKeyInjective(a: Date, b: Date)
    requires Valid(a) && Valid(b) && DateKey(a) == DateKey(b)
    ensures a == b
  {
    MonthDayTextInjective(a, b);
    MonthDayTextInjective(b, a);
    ConcatCancel(YearText(a.year), MonthDayText(a.month, a.day), YearText(b.year), MonthDayText(b.month, b.day));
    YearTextInjective(a.year, b.year);
  }

  /** Reference points: 1970-01-01 was a Thursday and 2024-04-01 a Monday. */
  lemma KnownWeekdays()
    ensures DayOfWeek(Date(1970, 0, 1)) == 4
    ensures DayOfWeek(Date(2024, 3, 1)) == 1
    ensures DateKey(Date(2024, 3, 1)) == "2024-04-01"
  {
  }
}
