/**
 * Proleptic Gregorian dates and timestamps as both Python's `datetime` and
 * SQLite's date functions see them: the text `isoformat(sep=" ",
 * timespec="seconds")` writes, the date and hour portions SQLite's `date()`
 * and `strftime('%H')` read back, and the weekday number of `strftime('%w')`.
 */
module Calendar {
  import opened Text
  import opened Numerals

  datatype Date = Date(year: int, month: int, day: int)

  predicate IsLeap(y: int) {
    y % 4 == 0 && (y % 100 != 0 || y % 400 == 0)
  }

  function DaysInMonth(y: int, m: int): (n: int)
    requires 1 <= m <= 12
    ensures 28 <= n <= 31
  {
    if m == 2 then (if IsLeap(y) then 29 else 28)
    else if m == 4 || m == 6 || m == 9 || m == 11 then 30
    else 31
  }

  /** The dates `datetime.date` admits: years 1 to 9999. */
  predicate ValidDate(d: Date) {
    1 <= d.year <= 9999 && 1 <= d.month <= 12 && 1 <= d.day <= DaysInMonth(d.year, d.month)
  }

  datatype DateTime = DateTime(date: Date, hour: int, minute: int, second: int)

  predicate ValidDateTime(t: DateTime) {
    ValidDate(t.date) && 0 <= t.hour < 24 && 0 <= t.minute < 60 && 0 <= t.second < 60
  }

  /** A timestamp with whole seconds, as the timestamp parser produces it. */
  type Stamp = t: DateTime | ValidDateTime(t) witness DateTime(Date(1970, 1, 1), 0, 0, 0)

  /** `YYYY-MM-DD`. */
  function DateText(d: Date): (s: string)
    requires ValidDate(d)
    ensures |s| == 10 && s[4] == '-' && s[7] == '-'
  {
    Digits(d.year, 4) + "-" + Digits(d.month, 2) + "-" + Digits(d.day, 2)
  }

  /**
   * `isoformat(sep=" ", timespec="seconds")`: `YYYY-MM-DD HH:MM:SS`. SQLite's
   * `date()` of this text is its first ten characters and `strftime('%H')`
   * is characters 11 and 12.
   */
  function StampText(t: Stamp): (s: string)
    ensures |s| == 19
    ensures s[..10] == DateText(t.date)
    ensures s[10] == ' ' && s[11..13] == Digits(t.hour, 2)
  {
    var s := DateText(t.date) + " " + Digits(t.hour, 2) + ":" + Digits(t.minute, 2) + ":" + Digits(t.second, 2);
    assert s[11..13] == Digits(t.hour, 2);
    s
  }

  /** `(y, m, d)` compared field by field: the calendar order of dates. */
  predicate FieldsLe(a: Date, b: Date) {
    || a.year < b.year
    || (a.year == b.year && a.month < b.month)
    || (a.year == b.year && a.month == b.month && a.day <= b.day)
  }

  /** Comparing `YYYY-MM-DD` texts compares the dates field by field. */
  lemma {:induction false} DateTextOrder(a: Date, b: Date)
    requires ValidDate(a) && ValidDate(b)
    ensures Le(DateText(a), DateText(b)) <==> FieldsLe(a, b)
  {
    var ya, ma, da := Digits(a.year, 4), Digits(a.month, 2), Digits(a.day, 2);
    var yb, mb, db := Digits(b.year, 4), Digits(b.month, 2), Digits(b.day, 2);
    assert DateText(a) == ya + ("-" + (ma + ("-" + da)));
    assert DateText(b) == yb + ("-" + (mb + ("-" + db)));
    assert Pow10(4) == 10000 && Pow10(2) == 100;
    LeConcat(ya, "-" + (ma + ("-" + da)), yb, "-" + (mb + ("-" + db)));
    LeConcat("-", ma + ("-" + da), "-", mb + ("-" + db));
    LeConcat(ma, "-" + da, mb, "-" + db);
    LeConcat("-", da, "-", db);
    DigitsOrder(a.year, b.year, 4);
    DigitsInjective(a.year, b.year, 4);
    DigitsOrder(a.month, b.month, 2);
    DigitsInjective(a.month, b.month, 2);
    DigitsOrder(a.day, b.day, 2);
  }

  function YearLength(y: int): int {
    if IsLeap(y) then 366 else 365
  }

  /** Days in the years before `y` (year 1 starts the count). */
  function DaysBeforeYear(y: int): int
    requires y >= 1
  {
    var p := y - 1;
    365 * p + p / 4 - p / 100 + p / 400
  }

  /** Days in year `y` before the first of month `m`. */
  function DaysBeforeMonth(y: int, m: int): int
    requires 1 <= m <= 12
  {
    var before := [0, 31, 59, 90, 120, 151, 181, 212, 243, 273, 304, 334][m - 1];
    if m > 2 && IsLeap(y) then before + 1 else before
  }

  /** The day number of a date, counting 0001-01-01 as day 1. */
  function Ordinal(d: Date): int
    requires ValidDate(d)
  {
    DaysBeforeYear(d.year) + DaysBeforeMonth(d.year, d.month) + d.day
  }

  /** `strftime('%w')`: 0 for Sunday to 6 for Saturday (0001-01-01 was a Monday). */
  function Weekday(d: Date): (w: int)
    requires ValidDate(d)
    ensures 0 <= w < 7
  {
    Ordinal(d) % 7
  }

  lemma {:induction false} MulAtLeast(a: int, k: int)
    requires a >= 1 && k > 0
    ensures a * k >= k
    decreases a
  {
    if a > 1 {
      MulAtLeast(a - 1, k);
      assert a * k == (a - 1) * k + k;
    }
  }

  /** Division and remainder are determined by the quotient-remainder equation. */
  lemma DivUnique(n: int, k: int, q: int, r: int)
    requires k > 0 && 0 <= r < k && n == q * k + r
    ensures n / k == q && n % k == r
  {
    var q', r' := n / k, n % k;
    assert n == q' * k + r';
    if q > q' {
      MulAtLeast(q - q', k);
    } else if q < q' {
      MulAtLeast(q' - q, k);
    }
  }

  /** Going from `y - 1` to `y`, `y / k` goes up by one exactly when `k` divides `y`. */
  lemma DivStep(y: int, k: int)
    requires y >= 1 && k > 0
    ensures y / k == (y - 1) / k + (if y % k == 0 then 1 else 0)
  {
    var q, r := (y - 1) / k, (y - 1) % k;
    if r == k - 1 {
      DivUnique(y, k, q + 1, 0);
    } else {
      DivUnique(y, k, q, r + 1);
    }
  }

  lemma YearStep(y: int)
    requires y >= 1
    ensures DaysBeforeYear(y + 1) == DaysBeforeYear(y) + YearLength(y)
  {
    DivStep(y, 4);
    DivStep(y, 100);
    DivStep(y, 400);
    if y % 100 == 0 {
      DivUnique(y, 4, 25 * (y / 100), 0);
    }
    if y % 400 == 0 {
      DivUnique(y, 100, 4 * (y / 400), 0);
    }
  }

  lemma {:induction false} YearsAdvance(y: int, y': int)
    requires 1 <= y < y'
    ensures DaysBeforeYear(y) + YearLength(y) <= DaysBeforeYear(y')
    decreases y' - y
  {
    YearStep(y);
    if y + 1 < y' {
      YearsAdvance(y + 1, y');
    }
  }

  lemma MonthsAdvance(y: int, m: int, m': int)
    requires 1 <= m < m' <= 12
    ensures DaysBeforeMonth(y, m) + DaysInMonth(y, m) <= DaysBeforeMonth(y, m')
  {
  }

  lemma MonthFitsYear(y: int, m: int)
    requires 1 <= m <= 12
    ensures DaysBeforeMonth(y, m) + DaysInMonth(y, m) <= YearLength(y)
  {
  }

  /** Strictly earlier in calendar order means a strictly smaller day number. */
  lemma {:induction false} OrdinalIncreasing(a: Date, b: Date)
    requires ValidDate(a) && ValidDate(b)
    requires FieldsLe(a, b) && a != b
    ensures Ordinal(a) < Ordinal(b)
  {
    MonthFitsYear(a.year, a.month);
    if a.year < b.year {
      YearsAdvance(a.year, b.year);
    } else if a.month < b.month {
      MonthsAdvance(a.year, a.month, b.month);
    }
  }

  /**
   * Text order on valid `YYYY-MM-DD` dates is chronological order: one text
   * sorts at or before another exactly when its day comes no later.
   */
  lemma DateOrderIsChronological(a: Date, b: Date)
    requires ValidDate(a) && ValidDate(b)
    ensures Le(DateText(a), DateText(b)) <==> Ordinal(a) <= Ordinal(b)
  {
    DateTextOrder(a, b);
    if FieldsLe(a, b) && a != b {
      OrdinalIncreasing(a, b);
    } else if !FieldsLe(a, b) {
      OrdinalIncreasing(b, a);
    }
  }

  /** The calendar day after `d`. */
  function NextDay(d: Date): Date
    requires ValidDate(d)
  {
    if d.day < DaysInMonth(d.year, d.month) then Date(d.year, d.month, d.day + 1)
    else if d.month < 12 then Date(d.year, d.month + 1, 1)
    else Date(d.year + 1, 1, 1)
  }

  lemma MonthStep(y: int, m: int)
    requires 1 <= m < 12
    ensures DaysBeforeMonth(y, m + 1) == DaysBeforeMonth(y, m) + DaysInMonth(y, m)
  {
  }

  lemma {:induction false} NextDayOrdinal(d: Date)
    requires ValidDate(d) && d != Date(9999, 12, 31)
    ensures ValidDate(NextDay(d))
    ensures Ordinal(NextDay(d)) == Ordinal(d) + 1
  {
    if d.day == DaysInMonth(d.year, d.month) {
      if d.month < 12 {
        MonthStep(d.year, d.month);
      } else {
        YearStep(d.year);
      }
    }
  }

  /** The next day is one day number later, so its weekday is the next one. */
  lemma {:induction false} NextDayAdvances(d: Date)
    requires ValidDate(d) && d != Date(9999, 12, 31)
    ensures ValidDate(NextDay(d))
    ensures Ordinal(NextDay(d)) == Ordinal(d) + 1
    ensures Weekday(NextDay(d)) == (Weekday(d) + 1) % 7
  {
    NextDayOrdinal(d);
    SevenStep(Ordinal(d));
  }

  lemma SevenStep(n: int)
    ensures (n + 1) % 7 == (n % 7 + 1) % 7
  {
  }

  /** 2024-01-01 was a Monday; with NextDayAdvances this fixes every weekday. */
  lemma WeekdayAnchor()
    ensures ValidDate(Date(2024, 1, 1)) && Weekday(Date(2024, 1, 1)) == 1
  {
  }
}
