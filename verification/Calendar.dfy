/** The date in a log line, from a count of days, against the Gregorian calendar's own rules. */
module Calendar {

  datatype Date = Date(year: int, month: int, day: int)

  // ----- the calendar itself

  predicate IsLeap(year: int) {
    year % 4 == 0 && (year % 100 != 0 || year % 400 == 0)
  }

  function DaysIn(year: int, month: int): int {
    if month == 2 then if IsLeap(year) then 29 else 28
    else if month == 4 || month == 6 || month == 9 || month == 11 then 30
    else 31
  }

  predicate IsDate(d: Date) {
    1 <= d.month <= 12 && 1 <= d.day <= DaysIn(d.year, d.month)
  }

  function Tomorrow(d: Date): Date {
    if d.day < DaysIn(d.year, d.month) then d.(day := d.day + 1)
    else if d.month < 12 then Date(d.year, d.month + 1, 1)
    else Date(d.year + 1, 1, 1)
  }

  predicate Before(a: Date, b: Date) {
    a.year < b.year || (a.year == b.year && (a.month < b.month || (a.month == b.month && a.day < b.day)))
  }

  // ----- the computation: eras of 400 years from March, years of an era, months of a year

  function YearOfEra(doe: int): int {
    (doe - doe / 1460 + doe / 36_524 - doe / 146_096) / 365
  }

  // The day of the era its year `y` starts on.
  function YearStart(y: int): int {
    365 * y + y / 4 - y / 100
  }

  function MonthOfYear(doy: int): int {
    (5 * doy + 2) / 153
  }

  function MonthStart(mp: int): int {
    (153 * mp + 2) / 5
  }

  // Day `doy` of the year from March that starts in `year`.
  function DateOf(year: int, doy: int): Date {
    var mp := MonthOfYear(doy);
    var month := if mp < 10 then mp + 3 else mp - 9;
    Date(year + if month <= 2 then 1 else 0, month, doy - MonthStart(mp) + 1)
  }

  function CivilFromDays(days: int): Date {
    var z := days + 719_468;
    var era, doe := z / 146_097, z % 146_097;
    var yoe := YearOfEra(doe);
    DateOf(yoe + era * 400, doe - YearStart(yoe))
  }

  // ----- years of an era

  // The last day of the year from March before year `y + 1` is its leap day, if it has one.
  function YearLength(y: int): int {
    if IsLeap(y + 1) then 366 else 365
  }

  lemma Shifted(y: int, k: int, m: int)
    requires m > 0
    ensures (y + m * k) % m == y % m
  {
    var q, r := (y + m * k) / m, (y + m * k) % m;
    var d := q - k - y / m;
    assert m * d == y % m - r;
    assert d > 0 ==> m * d >= m;
    assert d < 0 ==> m * d <= -m;
  }

  lemma LeapInEra(y: int, era: int)
    ensures IsLeap(y + 400 * era) <==> IsLeap(y)
  {
    Shifted(y, era, 400);
    Shifted(y, 4 * era, 100);
    Shifted(y, 100 * era, 4);
  }

  lemma YearStarts(y: int)
    requires 0 <= y < 400
    ensures YearStart(y + 1) == YearStart(y) + YearLength(y) || (y == 399 && YearStart(y) + YearLength(y) == 146_097)
  {
    Carry(y, 4);
    Carry(y, 100);
    assert (y + 1) % 400 == 0 <==> y == 399;
  }

  lemma Carry(y: int, m: int)
    requires m > 1
    ensures (y + 1) / m == y / m + if (y + 1) % m == 0 then 1 else 0
  {
    var q, r := y / m, y % m;
    if r + 1 == m {
      assert y + 1 == m * (q + 1);
      Quotient(y + 1, m, q + 1, 0);
    } else {
      Quotient(y + 1, m, q, r + 1);
    }
  }

  lemma Quotient(n: int, m: int, q: int, r: int)
    requires m > 0 && n == m * q + r && 0 <= r < m
    ensures n / m == q && n % m == r
  {
    var d := n / m - q;
    assert m * d == r - n % m;
    assert d > 0 ==> m * d >= m;
    assert d < 0 ==> m * d <= -m;
  }

  // Century `c` of the era, four-year cycle `q` of the century, day `s` of the cycle.
  lemma CycleFound(doe: int, c: int, q: int, s: int)
    requires 0 <= c < 4 && 0 <= q < 25 && 0 <= s < 1461 && (q == 24 ==> s < 1460) && doe == 36_524 * c + 1461 * q + s
    ensures YearOfEra(doe) == 100 * c + 4 * q + if s / 365 < 4 then s / 365 else 3
  {
    assert doe / 146_096 == 0;
    assert doe / 36_524 == c;
    var e := if 24 * c + q + s >= 1460 then 1 else 0;
    assert doe == 1460 * (25 * c + q + e) + (24 * c + q + s - 1460 * e);
    assert doe / 1460 == 25 * c + q + e;
    assert doe - doe / 1460 + doe / 36_524 - doe / 146_096 == 365 * (100 * c + 4 * q) + (s - e);
  }

  lemma CycleStart(c: int, q: int, t: int)
    requires 0 <= c < 4 && 0 <= q < 25 && 0 <= t < 4
    ensures YearStart(100 * c + 4 * q + t) == 36_524 * c + 1461 * q + 365 * t
  {
    var y := 100 * c + 4 * q + t;
    assert y / 4 == 25 * c + q;
    assert y / 100 == c;
  }

  // The year found is the one the day falls in.
  lemma YearFound(doe: int)
    requires 0 <= doe < 146_097
    ensures var y := YearOfEra(doe); 0 <= y < 400 && YearStart(y) <= doe < YearStart(y) + YearLength(y)
  {
    if doe < 146_096 {
      var c := doe / 36_524;
      var r := doe - 36_524 * c;
      var q := r / 1461;
      var s := r - 1461 * q;
      var t := if s / 365 < 4 then s / 365 else 3;
      CycleFound(doe, c, q, s);
      CycleStart(c, q, t);
      if s == 1460 { LeapYear(c, q); }
    }
  }

  lemma LeapYear(c: int, q: int)
    requires 0 <= c < 4 && 0 <= q < 24
    ensures IsLeap(100 * c + 4 * q + 4)
  {
    assert (100 * c + 4 * q + 4) % 100 == 4 * q + 4;
  }

  lemma {:induction false} YearsAscend(y: int, w: int)
    requires 0 <= y < w <= 399
    ensures YearStart(y) + YearLength(y) <= YearStart(w)
    decreases w
  {
    YearStarts(y);
    if y + 1 < w { YearsAscend(y, w - 1); YearStarts(w - 1); }
  }

  // Only one year of the era contains the day.
  lemma YearIs(doe: int, y: int)
    requires 0 <= y < 400 && YearStart(y) <= doe < YearStart(y) + YearLength(y) && 0 <= doe < 146_097
    ensures YearOfEra(doe) == y
  {
    hide YearOfEra;
    hide YearStart;
    hide YearLength;
    YearFound(doe);
    var w := YearOfEra(doe);
    if y < w { YearsAscend(y, w); } else if w < y { YearsAscend(w, y); }
  }

  // ----- months of a year

  lemma MonthFound(doy: int)
    requires 0 <= doy < 366
    ensures var mp := MonthOfYear(doy); 0 <= mp < 12 && MonthStart(mp) <= doy < (if mp == 11 then 366 else MonthStart(mp + 1))
  {
  }

  lemma DateValid(year: int, doy: int)
    requires 0 <= doy < YearLength(year)
    ensures IsDate(DateOf(year, doy))
  {
    MonthFound(doy);
    MonthLengths(MonthOfYear(doy));
  }

  lemma MonthLengths(mp: int)
    requires 0 <= mp < 12
    ensures MonthStart(mp) == [0, 31, 61, 92, 122, 153, 184, 214, 245, 275, 306, 337][mp]
  {
  }

  lemma MonthIs(doy: int, mp: int)
    requires 0 <= mp < 12 && MonthStart(mp) <= doy < (if mp == 11 then 366 else MonthStart(mp + 1))
    ensures MonthOfYear(doy) == mp
  {
  }

  lemma NextInYear(year: int, doy: int)
    requires 0 <= doy && doy + 1 < YearLength(year)
    ensures DateOf(year, doy + 1) == Tomorrow(DateOf(year, doy))
  {
    MonthFound(doy);
    var mp := MonthOfYear(doy);
    MonthLengths(mp);
    if mp < 11 { MonthLengths(mp + 1); }
    var ends := if mp == 11 then 366 else MonthStart(mp + 1);
    MonthIs(doy + 1, if doy + 1 < ends then mp else mp + 1);
  }

  lemma NextYear(year: int)
    ensures DateOf(year + 1, 0) == Tomorrow(DateOf(year, YearLength(year) - 1))
  {
    hide MonthOfYear;
    hide IsLeap;
    MonthLengths(0);
    MonthLengths(1);
    MonthLengths(11);
    MonthIs(0, 0);
    MonthIs(YearLength(year) - 1, 11);
  }

  // ----- the theorems

  lemma YearsRepeat(y: int, era: int)
    ensures YearLength(y + era * 400) == YearLength(y)
  {
    hide IsLeap;
    LeapInEra(y + 1, era);
    assert y + era * 400 + 1 == (y + 1) + 400 * era;
  }

  lemma Split(days: int) returns (era: int, doe: int, y: int)
    ensures days + 719_468 == 146_097 * era + doe && 0 <= doe < 146_097 && y == YearOfEra(doe)
    ensures 0 <= y < 400 && YearStart(y) <= doe < YearStart(y) + YearLength(y)
    ensures CivilFromDays(days) == DateOf(y + era * 400, doe - YearStart(y))
    ensures YearLength(y + era * 400) == YearLength(y)
  {
    var z := days + 719_468;
    era, doe := z / 146_097, z % 146_097;
    y := YearOfEra(doe);
    YearFound(doe);
    hide YearOfEra;
    hide YearStart;
    hide DateOf;
    hide YearLength;
    YearsRepeat(y, era);
  }

  lemma EpochIsDayZero()
    ensures CivilFromDays(0) == Date(1970, 1, 1)
  {
    var era, doe := 719_468 / 146_097, 719_468 % 146_097;
    assert era == 4 && doe == 135_080;
    assert YearOfEra(doe) == 369 by { assert doe / 1460 == 92 && doe / 36_524 == 3 && doe / 146_096 == 0 && 134_991 / 365 == 369; }
    assert YearStart(369) == 134_774;
    hide YearOfEra;
    hide YearStart;
    assert DateOf(1969, 306) == Date(1970, 1, 1) by { assert MonthOfYear(306) == 10 && MonthStart(10) == 306; }
  }

  // Every day is a date of the calendar.
  lemma EveryDayIsADate(days: int)
    ensures IsDate(CivilFromDays(days))
  {
    hide YearOfEra;
    hide YearStart;
    hide YearLength;
    hide DateOf;
    var era, doe, y := Split(days);
    DateValid(y + era * 400, doe - YearStart(y));
  }

  // The next day is the calendar's next date.
  lemma NextDayIsTomorrow(days: int)
    ensures CivilFromDays(days + 1) == Tomorrow(CivilFromDays(days))
  {
    hide YearOfEra;
    hide YearStart;
    hide YearLength;
    hide DateOf;
    hide Tomorrow;
    var era, doe, y := Split(days);
    var era', doe', y' := Split(days + 1);
    if doe == 146_096 {
      assert era' == era + 1 && doe' == 0;
      EraEnds(y, doe);
      NextYear(y + era * 400);
    } else {
      assert era' == era && doe' == doe + 1;
      if doe + 1 < YearStart(y) + YearLength(y) {
        YearIs(doe + 1, y);
        NextInYear(y + era * 400, doe - YearStart(y));
      } else {
        YearTurns(y, doe);
        NextYear(y + era * 400);
      }
    }
  }

  lemma EraEnds(y: int, doe: int)
    requires doe == 146_096 && 0 <= y < 400 && YearStart(y) <= doe < YearStart(y) + YearLength(y)
    ensures y == 399 && doe - YearStart(y) == YearLength(y) - 1 && YearOfEra(0) == 0 && YearStart(0) == 0
  {
    if y < 399 { YearsAscend(y, 399); }
  }

  lemma YearTurns(y: int, doe: int)
    requires 0 <= doe < 146_096 && 0 <= y < 400 && YearStart(y) <= doe && doe + 1 == YearStart(y) + YearLength(y)
    ensures y < 399 && YearStart(y + 1) == doe + 1 && YearOfEra(doe + 1) == y + 1
  {
    YearStarts(y);
    YearIs(doe + 1, y + 1);
  }

  // Later days have later dates, so no two days share one.
  lemma {:induction false} DaysInOrder(a: int, b: int)
    requires a < b
    ensures Before(CivilFromDays(a), CivilFromDays(b))
    decreases b - a
  {
    hide CivilFromDays;
    EveryDayIsADate(b - 1);
    NextDayIsTomorrow(b - 1);
    if a < b - 1 { DaysInOrder(a, b - 1); }
  }

  lemma DifferentDaysDiffer(a: int, b: int)
    requires CivilFromDays(a) == CivilFromDays(b)
    ensures a == b
  {
    hide CivilFromDays;
    if a < b { DaysInOrder(a, b); } else if b < a { DaysInOrder(b, a); }
  }
}
