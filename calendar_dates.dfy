/** The calendar arithmetic behind the month grid, on the proleptic
    Gregorian calendar: month lengths with the leap-year rule, the weekday of
    a date (0 = Sunday, as `getDay` counts), stepping a month back or forward
    across the year boundary, and the `YYYY-MM-DD` day keys. Months are
    numbered 0-11, as `getMonth` numbers them. */
module CalendarDates {
  import opened Strings

  predicate IsMonth(m: int) { 0 <= m < 12 }

  /** The Gregorian rule: every fourth year, except centuries not divisible by 400. */
  predicate IsLeapYear(y: int)
  {
    y % 4 == 0 && (y % 100 != 0 || y % 400 == 0)
  }

  /** `new Date(y, m + 1, 0).getDate()`: the number of days of month `m` of year `y`. */
  function DaysInMonth(y: int, m: int): (n: int)
    requires IsMonth(m)
    ensures 28 <= n <= 31
    ensures m == 1 ==> (n == 29 <==> IsLeapYear(y))
  {
    if m == 1 then (if IsLeapYear(y) then 29 else 28)
    else if m == 3 || m == 5 || m == 8 || m == 10 then 30
    else 31
  }

  /** A year and a month of it. */
  datatype YearMonth = YearMonth(year: int, month: int)

  /** `new Date(y, m - 1, 1)`: the month before, December of the year before for January. */
  function PrevMonth(y: int, m: int): (r: YearMonth)
    requires IsMonth(m)
    ensures IsMonth(r.month)
    ensures 12 * r.year + r.month == 12 * y + m - 1
  {
    if m == 0 then YearMonth(y - 1, 11) else YearMonth(y, m - 1)
  }

  /** `new Date(y, m + 1, 1)`: the month after, January of the year after for December. */
  function NextMonth(y: int, m: int): (r: YearMonth)
    requires IsMonth(m)
    ensures IsMonth(r.month)
    ensures 12 * r.year + r.month == 12 * y + m + 1
  {
    if m == 11 then YearMonth(y + 1, 0) else YearMonth(y, m + 1)
  }

  /** Stepping back and then forward, or forward and then back, returns to the same month. */
  lemma {:induction false} PrevNextRoundTrip(y: int, m: int)
    requires IsMonth(m)
    ensures NextMonth(PrevMonth(y, m).year, PrevMonth(y, m).month) == YearMonth(y, m)
    ensures PrevMonth(NextMonth(y, m).year, NextMonth(y, m).month) == YearMonth(y, m)
  {
    MonthCountDetermines(NextMonth(PrevMonth(y, m).year, PrevMonth(y, m).month), YearMonth(y, m));
    MonthCountDetermines(PrevMonth(NextMonth(y, m).year, NextMonth(y, m).month), YearMonth(y, m));
  }

  /** A month is determined by its count of months since year 0. */
  lemma MonthCountDetermines(a: YearMonth, b: YearMonth)
    requires IsMonth(a.month) && IsMonth(b.month)
    requires 12 * a.year + a.month == 12 * b.year + b.month
    ensures a == b
  {
  }

  /** The weekday offsets of the month starts in Sakamoto's method. */
  function MonthOffset(m: int): int
    requires IsMonth(m)
  {
    [0, 3, 2, 5, 0, 3, 5, 1, 4, 6, 2, 4][m]
  }

  /** A year's day count modulo 7: 365 days plus one per leap day, counted
      with floor division so that it holds for years before year 0 too. */
  function YearShift(y: int): int
  {
    y + y / 4 - y / 100 + y / 400
  }

  /** The weekday before day 1 of month `m` of year `y`; January and February
      count as months of the year before. */
  function MonthBase(y: int, m: int): int
    requires IsMonth(m)
  {
    YearShift(if m < 2 then y - 1 else y) + MonthOffset(m)
  }

  /** `new Date(y, m, d).getDay()` for a day `d` of the month: 0 is Sunday, 6 Saturday. */
  function Weekday(y: int, m: int, d: int): (w: int)
    requires IsMonth(m)
    ensures 0 <= w < 7
  {
    (MonthBase(y, m) + d) % 7
  }

  /** 1 January 1970 was a Thursday. */
  lemma EpochIsThursday()
    ensures Weekday(1970, 0, 1) == 4
  {
  }

  /** Divisibility by 400 implies divisibility by 100, which implies divisibility by 4. */
  lemma DivisorChain(y: int)
    ensures y % 400 == 0 ==> y % 100 == 0
    ensures y % 100 == 0 ==> y % 4 == 0
  {
  }

  /** Stepping a year back lowers the count of multiples of 4, 100 and 400
      exactly when the year is such a multiple. */
  lemma LeapCountsStep(y: int)
    ensures y / 4 - (y - 1) / 4 == if y % 4 == 0 then 1 else 0
    ensures y / 100 - (y - 1) / 100 == if y % 100 == 0 then 1 else 0
    ensures y / 400 - (y - 1) / 400 == if y % 400 == 0 then 1 else 0
  {
  }

  /** A year advances the weekday by one, or by two when it is a leap year. */
  lemma {:induction false} YearShiftStep(y: int)
    ensures YearShift(y) - YearShift(y - 1) == if IsLeapYear(y) then 2 else 1
  {
    DivisorChain(y);
    LeapCountsStep(y);
  }

  lemma ModOfDifference(a: int, b: int, q: int)
    requires a == b + 7 * q
    ensures a % 7 == b % 7
  {
  }

  /** Outside February, a month's length moves Sakamoto's offset on to the
      next month's offset, modulo 7. */
  lemma OffsetStep(y: int, m: int)
    requires IsMonth(m) && m != 1
    ensures (MonthOffset(m) + DaysInMonth(y, m) - MonthOffset((m + 1) % 12)) % 7 == 0
  {
  }

  /** The first day of the next month falls `DaysInMonth` weekdays after the
      first day of this one: the weekday rule agrees with the month lengths. */
  lemma {:induction false} NextMonthWeekday(y: int, m: int)
    requires IsMonth(m)
    ensures var n := NextMonth(y, m);
            Weekday(n.year, n.month, 1) == (Weekday(y, m, 1) + DaysInMonth(y, m)) % 7
  {
    if m == 1 {
      FebruaryWeekday(y);
    } else {
      OtherMonthWeekday(y, m);
    }
  }

  lemma {:induction false} FebruaryWeekday(y: int)
    ensures Weekday(y, 2, 1) == (Weekday(y, 1, 1) + DaysInMonth(y, 1)) % 7
  {
    var b, nb := MonthBase(y, 1), MonthBase(y, 2);
    var dim := DaysInMonth(y, 1);
    ModOfDifference(b + 1 + dim, (b + 1) % 7 + dim, (b + 1) / 7);
    YearShiftStep(y);
    assert nb + 1 == b + 1 + dim - 28;
    ModOfDifference(b + 1 + dim, nb + 1, 4);
  }

  lemma {:induction false} OtherMonthWeekday(y: int, m: int)
    requires IsMonth(m) && m != 1
    ensures var n := NextMonth(y, m);
            Weekday(n.year, n.month, 1) == (Weekday(y, m, 1) + DaysInMonth(y, m)) % 7
  {
    var n := NextMonth(y, m);
    var b, nb := MonthBase(y, m), MonthBase(n.year, n.month);
    var dim := DaysInMonth(y, m);
    var ys := YearShift(if m < 2 then y - 1 else y);
    assert n.month == (m + 1) % 12;
    assert b == ys + MonthOffset(m);
    assert nb == ys + MonthOffset(n.month);
    OffsetStep(y, m);
    ModOfDifference(b + 1 + dim, (b + 1) % 7 + dim, (b + 1) / 7);
    ModOfDifference(b + 1 + dim, nb + 1, (MonthOffset(m) + dim - MonthOffset(n.month)) / 7);
  }

  /** Within a month the weekday advances by one each day. */
  lemma {:induction false} WeekdayInMonth(y: int, m: int, d: int)
    requires IsMonth(m)
    ensures Weekday(y, m, d) == (Weekday(y, m, 1) + d - 1) % 7
  {
    var b := MonthBase(y, m);
    ModOfDifference(b + d, (b + 1) % 7 + d - 1, (b + 1) / 7);
  }

  /** A day of the calendar. */
  datatype Day = Day(year: int, month: int, day: int)

  predicate IsDay(d: Day)
  {
    IsMonth(d.month) && 1 <= d.day <= DaysInMonth(d.year, d.month)
  }

  /** The day after `d`: the next day of the month, or the first of the next month. */
  function NextDay(d: Day): (r: Day)
    requires IsDay(d)
    ensures IsDay(r)
    ensures Ordinal(r) > Ordinal(d)
  {
    if d.day < DaysInMonth(d.year, d.month) then d.(day := d.day + 1)
    else
      var n := NextMonth(d.year, d.month);
      Day(n.year, n.month, 1)
  }

  /** A number that grows with the date: month count since year 0, then the day. */
  function Ordinal(d: Day): int
  {
    32 * (12 * d.year + d.month) + d.day
  }

  /** On valid days, the ordinal determines the day. */
  lemma OrdinalDetermines(a: Day, b: Day)
    requires IsDay(a) && IsDay(b) && Ordinal(a) == Ordinal(b)
    ensures a == b
  {
    MonthCountDetermines(YearMonth(a.year, a.month), YearMonth(b.year, b.month));
  }

  /** The two-digit, zero-padded form of a month number or a day number. */
  function TwoDigits(n: int): (s: string)
    requires 0 <= n < 100
    ensures s == [Digit(n / 10), Digit(n % 10)]
  {
    Pad2Digits(n);
    PadStart(NatStr(n), 2, '0')
  }

  /** The key of a day: `${y}-${String(m + 1).padStart(2, '0')}-${String(d).padStart(2, '0')}`. */
  function DateKey(y: int, m: int, d: int): string
    requires IsMonth(m) && 1 <= d <= 31
  {
    IntStr(y) + "-" + TwoDigits(m + 1) + "-" + TwoDigits(d)
  }

  /** A key is the year, a dash, the month number 1-12 in two digits, a dash
      and the day in two digits. */
  lemma DateKeyFormat(y: int, m: int, d: int)
    requires IsMonth(m) && 1 <= d <= 31
    ensures DateKey(y, m, d)
            == IntStr(y) + ['-', Digit((m + 1) / 10), Digit((m + 1) % 10), '-', Digit(d / 10), Digit(d % 10)]
  {
    KeyParts(IntStr(y), TwoDigits(m + 1), TwoDigits(d));
  }

  /** Joining a year string and two two-character fields with dashes. */
  lemma KeyParts(year: string, ms: string, ds: string)
    requires |ms| == 2 && |ds| == 2
    ensures year + "-" + ms + "-" + ds == year + ['-', ms[0], ms[1], '-', ds[0], ds[1]]
  {
    var tail := "-" + ms + "-" + ds;
    assert tail == ['-', ms[0], ms[1], '-', ds[0], ds[1]];
    assert year + "-" + ms + "-" + ds == year + tail;
  }

  /** Different days have different keys. */
  lemma {:induction false} DateKeyInjective(y1: int, m1: int, d1: int, y2: int, m2: int, d2: int)
    requires IsMonth(m1) && 1 <= d1 <= 31 && IsMonth(m2) && 1 <= d2 <= 31
    requires DateKey(y1, m1, d1) == DateKey(y2, m2, d2)
    ensures y1 == y2 && m1 == m2 && d1 == d2
  {
    DateKeyFormat(y1, m1, d1);
    DateKeyFormat(y2, m2, d2);
    var k1, k2 := DateKey(y1, m1, d1), DateKey(y2, m2, d2);
    var n := |IntStr(y1)|;
    assert n == |IntStr(y2)|;
    assert IntStr(y1) == k1[..n] == k2[..n] == IntStr(y2);
    IntStrInjective(y1, y2);
    assert k1[n..] == k2[n..];
    DigitInjective((m1 + 1) / 10, (m2 + 1) / 10);
    DigitInjective((m1 + 1) % 10, (m2 + 1) % 10);
    DigitInjective(d1 / 10, d2 / 10);
    DigitInjective(d1 % 10, d2 % 10);
  }

  /** The contrapositive: different days, different keys. */
  lemma DateKeysDiffer(y1: int, m1: int, d1: int, y2: int, m2: int, d2: int)
    requires IsMonth(m1) && 1 <= d1 <= 31 && IsMonth(m2) && 1 <= d2 <= 31
    requires y1 != y2 || m1 != m2 || d1 != d2
    ensures DateKey(y1, m1, d1) != DateKey(y2, m2, d2)
  {
    if DateKey(y1, m1, d1) == DateKey(y2, m2, d2) {
      DateKeyInjective(y1, m1, d1, y2, m2, d2);
    }
  }

  lemma DigitInjective(a: int, b: int)
    requires 0 <= a < 10 && 0 <= b < 10 && Digit(a) == Digit(b)
    ensures a == b
  {
  }
}
