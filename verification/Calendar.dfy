/** `UtilityService`: the usage period of an instant and the lifetime of a limit flag,
    over the calendar of section 21.4.1 of ECMA-262 in a zone of fixed offset. */
module Calendar {
  import opened Ttl
  import opened Keys

  const MS_PER_DAY := 86400000

  // Section 21.4.1.5: year number.
  predicate IsLeap(y: int) {
    y % 4 == 0 && (y % 100 != 0 || y % 400 == 0)
  }

  function DayFromYear(y: int): int {
    365 * (y - 1970) + (y - 1969) / 4 - (y - 1901) / 100 + (y - 1601) / 400
  }

  function YearLength(y: int): int {
    if IsLeap(y) then 366 else 365
  }

  lemma YearAfterYear(y: int)
    ensures DayFromYear(y + 1) == DayFromYear(y) + YearLength(y)
  {
    FourYears(y); FourHundredYears(y); HundredYears(y);
    Centuries(y);
  }

  lemma Centuries(y: int)
    ensures y % 100 == 0 ==> y % 4 == 0
    ensures y % 400 == 0 ==> y % 100 == 0
  {
    if y % 100 == 0 { MultipleOfFour(25 * (y / 100)); }
    if y % 400 == 0 { MultipleOfHundred(4 * (y / 400)); }
  }

  lemma MultipleOfFour(n: int)
    ensures 4 * n % 4 == 0
  {}

  lemma MultipleOfHundred(n: int)
    ensures 100 * n % 100 == 0
  {}

  lemma FourYears(y: int)
    ensures (y + 1 - 1969) / 4 - (y - 1969) / 4 == if y % 4 == 0 then 1 else 0
  {}

  lemma HundredYears(y: int)
    ensures (y + 1 - 1901) / 100 - (y - 1901) / 100 == if y % 100 == 0 then 1 else 0
  {}

  lemma FourHundredYears(y: int)
    ensures (y + 1 - 1601) / 400 - (y - 1601) / 400 == if y % 400 == 0 then 1 else 0
  {}

  lemma {:induction false} YearsIncrease(y: int, z: int)
    requires y < z
    ensures DayFromYear(y) + 365 <= DayFromYear(z)
    decreases z - y
  {
    YearAfterYear(z - 1);
    if y < z - 1 { YearsIncrease(y, z - 1); }
  }

  /** The year a day falls in, searched from a starting guess. */
  function YearFrom(day: int, guess: int): (y: int)
    ensures DayFromYear(y) <= day < DayFromYear(y + 1)
    decreases day < DayFromYear(guess),
              if day < DayFromYear(guess) then DayFromYear(guess) - day else day - DayFromYear(guess)
  {
    YearsIncrease(guess - 1, guess);
    YearsIncrease(guess, guess + 1);
    if day < DayFromYear(guess) then YearFrom(day, guess - 1)
    else if day >= DayFromYear(guess + 1) then YearFrom(day, guess + 1)
    else guess
  }

  /** Days of year y before its month m; months count from 0, and 12 is the whole year. */
  function DaysBefore(y: int, m: int): int
    requires 0 <= m <= 12
  {
    [0, 31, 59, 90, 120, 151, 181, 212, 243, 273, 304, 334, 365][m] + (if m >= 2 && IsLeap(y) then 1 else 0)
  }

  function FirstDay(y: int, m: int): int
    requires 0 <= m <= 12
  {
    DayFromYear(y) + DaysBefore(y, m)
  }

  /** The month of a day known to lie in year y, scanned upwards from m. */
  function MonthFrom(day: int, y: int, m: int): (r: int)
    requires 0 <= m <= 11 && FirstDay(y, m) <= day < FirstDay(y, 12)
    ensures 0 <= r <= 11 && FirstDay(y, r) <= day < FirstDay(y, r + 1)
    decreases 12 - m
  {
    if day < FirstDay(y, m + 1) then m else MonthFrom(day, y, m + 1)
  }

  datatype YearMonth = YearMonth(year: int, month: int)

  /** `getFullYear()` and `getMonth()` of an instant in a zone `offset` ms east of UTC. */
  function LocalMonth(now: Instant, offset: int): (p: YearMonth)
    ensures 0 <= p.month <= 11
    ensures FirstDay(p.year, p.month) <= (now + offset) / MS_PER_DAY < FirstDay(p.year, p.month + 1)
  {
    var day := (now + offset) / MS_PER_DAY;
    var y := YearFrom(day, 1970);
    YearAfterYear(y);
    YearMonth(y, MonthFrom(day, y, 0))
  }

  lemma MonthsDisjoint(y: int, m: int, z: int, n: int, day: int)
    requires 0 <= m <= 11 && 0 <= n <= 11
    requires FirstDay(y, m) <= day < FirstDay(y, m + 1)
    requires FirstDay(z, n) <= day < FirstDay(z, n + 1)
    ensures y == z && m == n
  {
    MonthInYear(y, m, day);
    MonthInYear(z, n, day);
    YearsDisjoint(y, z, day);
    MonthsOfYearDisjoint(y, m, n, day);
  }

  lemma YearsDisjoint(y: int, z: int, day: int)
    requires DayFromYear(y) <= day < DayFromYear(y + 1) && DayFromYear(z) <= day < DayFromYear(z + 1)
    ensures y == z
  {
    if y < z { YearsBelow(y + 1, z); }
    if z < y { YearsBelow(z + 1, y); }
  }

  lemma MonthInYear(y: int, m: int, day: int)
    requires 0 <= m <= 11 && FirstDay(y, m) <= day < FirstDay(y, m + 1)
    ensures DayFromYear(y) <= day < DayFromYear(y + 1)
  {
    YearAfterYear(y);
  }

  lemma MonthsOfYearDisjoint(y: int, m: int, n: int, day: int)
    requires 0 <= m <= 11 && 0 <= n <= 11
    requires FirstDay(y, m) <= day < FirstDay(y, m + 1)
    requires FirstDay(y, n) <= day < FirstDay(y, n + 1)
    ensures m == n
  {
    if m < n { MonthsIncrease(y, m + 1, n); }
    if n < m { MonthsIncrease(y, n + 1, m); }
  }

  lemma MonthsIncrease(y: int, m: int, n: int)
    requires 0 <= m <= n <= 12
    ensures FirstDay(y, m) <= FirstDay(y, n)
    decreases n - m
  {
    if m < n { MonthsIncrease(y, m + 1, n); }
  }

  lemma YearsBelow(y: int, z: int)
    requires y <= z
    ensures DayFromYear(y) <= DayFromYear(z)
  {
    if y < z { YearsIncrease(y, z); }
  }

  /** Section 21.4.1.13: the day number of a year, an unreduced month and a day of the month. */
  function MakeDay(y: int, m: int, d: int): int {
    FirstDay(y + m / 12, m % 12) + d - 1
  }

  /** `new Date(year, month + 1, 0, 23, 59, 59)`: day 0 of the next month. */
  function EndOfMonth(now: Instant, offset: int): Instant {
    EndOf(LocalMonth(now, offset), offset)
  }

  function EndOf(p: YearMonth, offset: int): Instant {
    MakeDay(p.year, p.month + 1, 0) * MS_PER_DAY + 86399000 - offset
  }

  /** `getEndOfMonthTTL`, in seconds. */
  function EndOfMonthTtl(now: Instant, offset: int): int {
    (EndOfMonth(now, offset) - now) / 1000
  }

  /** `formatYYMM`. */
  function FormatYYMM(p: YearMonth): string
    requires 0 <= p.month <= 11
  {
    (if p.year < 0 then "-" + Decimal(-p.year) else Decimal(p.year))
    + (if p.month + 1 < 10 then "0" else "") + Decimal(p.month + 1)
  }

  /** Day 0 of the month after (y, m) is the day before that month starts. */
  lemma DayZero(y: int, m: int)
    requires 0 <= m <= 11
    ensures MakeDay(y, m + 1, 0) == FirstDay(y, m + 1) - 1
  {
    if m == 11 { YearAfterYear(y); }
  }

  /** The end of the month is 23:59:59 of its last day. */
  lemma EndIsLastSecond(p: YearMonth, offset: int)
    requires 0 <= p.month <= 11
    ensures EndOf(p, offset) + offset == (FirstDay(p.year, p.month + 1) - 1) * MS_PER_DAY + 86399000
  {
    DayZero(p.year, p.month);
  }

  lemma DaySpan(x: int, first: int, next: int)
    ensures first <= x / MS_PER_DAY < next <==> first * MS_PER_DAY <= x < next * MS_PER_DAY
  {}

  /** A month is a stretch of instants: those from its first midnight to the next month's. */
  lemma MonthSpan(p: YearMonth, t: Instant, offset: int)
    requires 0 <= p.month <= 11
    ensures LocalMonth(t, offset) == p <==>
              FirstDay(p.year, p.month) * MS_PER_DAY <= t + offset < FirstDay(p.year, p.month + 1) * MS_PER_DAY
  {
    var q := LocalMonth(t, offset);
    var first, next := FirstDay(p.year, p.month), FirstDay(p.year, p.month + 1);
    DaySpan(t + offset, first, next);
    if first * MS_PER_DAY <= t + offset < next * MS_PER_DAY {
      MonthsDisjoint(p.year, p.month, q.year, q.month, (t + offset) / MS_PER_DAY);
    }
  }

  /** One second after the computed end of the month, the next month begins. */
  lemma EndMeetsNextMonth(now: Instant, offset: int)
    ensures var p := LocalMonth(now, offset);
            EndOfMonth(now, offset) + 1000 + offset == FirstDay(p.year, p.month + 1) * MS_PER_DAY
  {
    EndIsLastSecond(LocalMonth(now, offset), offset);
  }

  lemma MonthHasAnEnd(now: Instant, offset: int)
    ensures var p := LocalMonth(now, offset);
            FirstDay(p.year, p.month) * MS_PER_DAY <= now + offset <= EndOfMonth(now, offset) + 999 + offset
  {
    MonthSpan(LocalMonth(now, offset), now, offset);
    EndMeetsNextMonth(now, offset);
  }

  /** From now on, the month lasts to 23:59:59.999 of its last day. */
  lemma SameMonth(now: Instant, offset: int, t: Instant)
    requires now <= t
    ensures LocalMonth(t, offset) == LocalMonth(now, offset) <==> t <= EndOfMonth(now, offset) + 999
  {
    var p := LocalMonth(now, offset);
    MonthHasAnEnd(now, offset);
    EndMeetsNextMonth(now, offset);
    MonthSpan(p, t, offset);
    Bracket(t + offset, now + offset, EndOfMonth(now, offset) + 999 + offset,
            FirstDay(p.year, p.month) * MS_PER_DAY, FirstDay(p.year, p.month + 1) * MS_PER_DAY);
  }

  lemma Bracket(t: int, now: int, last: int, first: int, next: int)
    requires first <= now <= t && last + 1 == next
    ensures first <= t < next <==> t <= last
  {}

  lemma SameEnd(now: Instant, offset: int, t: Instant)
    requires LocalMonth(t, offset) == LocalMonth(now, offset)
    ensures EndOfMonth(t, offset) == EndOfMonth(now, offset)
  {}

  lemma LaterMidnight(x: int, y: int)
    requires y * MS_PER_DAY > x * MS_PER_DAY
    ensures y * MS_PER_DAY >= x * MS_PER_DAY + MS_PER_DAY
  {}

  lemma NextMonthIsAnother(now: Instant, offset: int)
    ensures LocalMonth(EndOfMonth(now, offset) + 1000, offset) != LocalMonth(now, offset)
  {
    MonthHasAnEnd(now, offset);
    SameMonth(now, offset, EndOfMonth(now, offset) + 1000);
  }

  /** The next month begins one second after the computed end, and lasts for a day or more. */
  lemma NextMonthBegins(now: Instant, offset: int)
    ensures var t := EndOfMonth(now, offset) + 1000; EndOfMonth(t, offset) >= t + 86399000
  {
    var t := EndOfMonth(now, offset) + 1000;
    var p, q := LocalMonth(now, offset), LocalMonth(t, offset);
    EndMeetsNextMonth(now, offset);
    EndMeetsNextMonth(t, offset);
    MonthSpan(q, t, offset);
    LaterMidnight(FirstDay(p.year, p.month + 1), FirstDay(q.year, q.month + 1));
  }

  lemma NextMonthTtl(now: Instant, offset: int)
    ensures EndOfMonthTtl(EndOfMonth(now, offset) + 1000, offset) >= 1
  {
    NextMonthBegins(now, offset);
    WholeSeconds(EndOfMonth(now, offset) + 1000, EndOfMonth(EndOfMonth(now, offset) + 1000, offset));
  }

  lemma NamesDiffer(p: YearMonth, q: YearMonth)
    requires p != q && p.year >= 1 && q.year >= 1 && 0 <= p.month <= 11 && 0 <= q.month <= 11
    ensures FormatYYMM(p) != FormatYYMM(q)
  {
    PeriodOrder(p, q);
  }

  lemma WholeSeconds(now: Instant, end: Instant)
    ensures var s := (end - now) / 1000; now + 1000 * s <= end < now + 1000 * (s + 1)
    ensures now <= end + 999 ==>
              var s := (end - now) / 1000;
              (s >= 1 <==> now <= end - 1000) && (s == 0 <==> end - 1000 < now <= end) && (s == -1 <==> end < now)
  {}

  /** The TTL is the whole number of seconds to the month's last second, 23:59:59 local. That
      second lies in the month of `now`, and one second later the next month has begun. */
  lemma TtlReachesLastSecond(now: Instant, offset: int)
    ensures var s, end := EndOfMonthTtl(now, offset), EndOfMonth(now, offset);
            now + 1000 * s <= end < now + 1000 * (s + 1)
    ensures now <= EndOfMonth(now, offset) + 999
    ensures LocalMonth(EndOfMonth(now, offset), offset) == LocalMonth(now, offset)
    ensures LocalMonth(EndOfMonth(now, offset) + 999, offset) == LocalMonth(now, offset)
    ensures LocalMonth(EndOfMonth(now, offset) + 1000, offset) != LocalMonth(now, offset)
  {
    MonthHasAnEnd(now, offset);
    WholeSeconds(now, EndOfMonth(now, offset));
    LastSecondIsInside(now, offset);
    SameMonth(now, offset, EndOfMonth(now, offset) + 999);
    SameMonth(now, offset, EndOfMonth(now, offset) + 1000);
  }

  /** The last second belongs to the month even when `now` is already past its start. */
  lemma LastSecondIsInside(now: Instant, offset: int)
    ensures LocalMonth(EndOfMonth(now, offset), offset) == LocalMonth(now, offset)
  {
    var p := LocalMonth(now, offset);
    EndMeetsNextMonth(now, offset);
    MonthNotEmpty(p);
    MonthSpan(p, EndOfMonth(now, offset), offset);
  }

  lemma MonthNotEmpty(p: YearMonth)
    requires 0 <= p.month <= 11
    ensures FirstDay(p.year, p.month) < FirstDay(p.year, p.month + 1)
  {}

  /** A flag set at `now` lives for all of [now, now + 1000 s) and every instant of that
      stretch is in the period of `now`; the TTL is positive exactly up to 23:59:58.000 of the
      last day, then 0 up to 23:59:59.000, then -1. */
  lemma FlagStaysInItsMonth(now: Instant, offset: int, t: Instant)
    ensures var s, end := EndOfMonthTtl(now, offset), EndOfMonth(now, offset);
            && (s >= 1 <==> now <= end - 1000)
            && (s == 0 <==> end - 1000 < now <= end)
            && (s == -1 <==> end < now)
            && (now <= t <= now + 1000 * s ==> LocalMonth(t, offset) == LocalMonth(now, offset))
  {
    MonthHasAnEnd(now, offset);
    WholeSeconds(now, EndOfMonth(now, offset));
    if now <= t { SameMonth(now, offset, t); }
  }

  /** A period is the numeral of 100 * year + month, so periods are digits only. */
  lemma PeriodIsNumeral(p: YearMonth)
    requires p.year >= 1 && 0 <= p.month <= 11
    ensures FormatYYMM(p) == Decimal(100 * p.year + p.month + 1)
  {
    var n := 100 * p.year + p.month + 1;
    assert n / 10 == 10 * p.year + (p.month + 1) / 10;
    assert n / 10 / 10 == p.year;
    if p.month + 1 >= 10 {
      assert Decimal(p.month + 1) == Decimal((p.month + 1) / 10) + [Digit((p.month + 1) % 10)];
    }
  }

  /** `formatYYMM` names each month once, and names of four-digit years sort by date. */
  lemma PeriodOrder(p: YearMonth, q: YearMonth)
    requires p.year >= 1 && q.year >= 1 && 0 <= p.month <= 11 && 0 <= q.month <= 11
    ensures FormatYYMM(p) == FormatYYMM(q) ==> p == q
    ensures 1000 <= p.year <= 9999 && 1000 <= q.year <= 9999 ==>
              (LexLess(FormatYYMM(p), FormatYYMM(q)) <==>
                 p.year < q.year || (p.year == q.year && p.month < q.month))
  {
    var a, b := 100 * p.year + p.month + 1, 100 * q.year + q.month + 1;
    PeriodIsNumeral(p);
    PeriodIsNumeral(q);
    DecimalOrder(a, b);
    DecimalOrder(b, a);
    if 1000 <= p.year <= 9999 && 1000 <= q.year <= 9999 {
      SixDigits(a);
      SixDigits(b);
      if a < b { } else if b < a { LexAsymmetric(Decimal(b), Decimal(a)); } else { LexIrreflexive(Decimal(a)); }
    }
  }

  lemma SixDigits(n: nat)
    requires 100000 <= n <= 999999
    ensures |Decimal(n)| == 6
  {
    assert |Decimal(n / 100000)| == 1;
    assert n / 10000 / 10 == n / 100000 && |Decimal(n / 10000)| == 2;
    assert n / 1000 / 10 == n / 10000 && |Decimal(n / 1000)| == 3;
    assert n / 100 / 10 == n / 1000 && |Decimal(n / 100)| == 4;
    assert n / 10 / 10 == n / 100 && |Decimal(n / 10)| == 5;
  }

  lemma {:induction false} LexAsymmetric(a: string, b: string)
    requires LexLess(a, b)
    ensures !LexLess(b, a)
  {
    if a != "" && a[0] == b[0] { LexAsymmetric(a[1..], b[1..]); }
  }

  lemma {:induction false} LexIrreflexive(a: string)
    ensures !LexLess(a, a)
  {
    if a != "" { LexIrreflexive(a[1..]); }
  }
}
