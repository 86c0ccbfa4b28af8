/**
 Date arithmetic of ECMA-262 (section 21.4.1), in UTC, over integer milliseconds since the epoch.
 A month is named by its absolute index 12 * year + month, so that "MakeDay(y, m, d)" is total in m.
 */
module Calendar {

  const MS_PER_DAY := 86_400_000

  function Day(t: int): int { t / MS_PER_DAY }

  function TimeWithinDay(t: int): int { t % MS_PER_DAY }

  function MakeDate(day: int, time: int): int { day * MS_PER_DAY + time }

  predicate IsLeapYear(y: int) { y % 4 == 0 && (y % 100 != 0 || y % 400 == 0) }

  function MonthLength(m: int): int {
    var month := m % 12;
    if month == 1 then (if IsLeapYear(m / 12) then 29 else 28)
    else if month == 3 || month == 5 || month == 8 || month == 10 then 30
    else 31
  }

  const EPOCH_MONTH := 12 * 1970

  /** Day number of the first day of the month with absolute index m. */
  function MonthStart(m: int): int
    decreases if m >= EPOCH_MONTH then m - EPOCH_MONTH else EPOCH_MONTH - m
  {
    if m == EPOCH_MONTH then 0
    else if m > EPOCH_MONTH then MonthStart(m - 1) + MonthLength(m - 1)
    else MonthStart(m + 1) - MonthLength(m)
  }

  /** The lengths of k consecutive calendar months, summed. */
  function DaysInMonths(m: int, k: nat): int
    decreases k
  {
    if k == 0 then 0 else MonthLength(m) + DaysInMonths(m + 1, k - 1)
  }

  lemma MonthStep(m: int)
    ensures MonthStart(m + 1) == MonthStart(m) + MonthLength(m)
    ensures 28 <= MonthLength(m) <= 31
  {
  }

  lemma {:induction false} MonthsAdd(m: int, k: nat)
    ensures MonthStart(m + k) == MonthStart(m) + DaysInMonths(m, k)
    ensures 28 * k <= DaysInMonths(m, k) <= 31 * k
    decreases k
  {
    hide MonthStart, MonthLength;
    if k > 0 {
      MonthStep(m);
      MonthsAdd(m + 1, k - 1);
      assert m + 1 + (k - 1) == m + k;
    }
  }

  predicate InMonth(day: int, m: int) { MonthStart(m) <= day < MonthStart(m + 1) }

  function FindMonth(day: int, m: int): (r: int)
    ensures InMonth(day, r)
    decreases if InMonth(day, m) then 0 else 1, if day < MonthStart(m) then MonthStart(m) - day else day - MonthStart(m)
  {
    hide MonthStart, MonthLength;
    MonthStep(m - 1);
    MonthStep(m);
    if day < MonthStart(m) then FindMonth(day, m - 1)
    else if day >= MonthStart(m + 1) then FindMonth(day, m + 1)
    else m
  }

  /** The month a day belongs to: YearFromTime and MonthFromTime in one number. */
  function MonthOf(day: int): (m: int)
    ensures InMonth(day, m)
  {
    FindMonth(day, 12 * 1970 + day / 31)
  }

  lemma MonthStartMonotone(m: int, n: int)
    requires m <= n
    ensures MonthStart(m) <= MonthStart(n)
    ensures m < n ==> MonthStart(m + 1) <= MonthStart(n)
  {
    hide MonthStart, MonthLength;
    MonthsAdd(m, n - m);
    if m < n {
      MonthsAdd(m + 1, n - m - 1);
    }
  }

  lemma MonthOfUnique(day: int, m: int)
    requires InMonth(day, m)
    ensures MonthOf(day) == m
  {
    hide MonthStart, MonthLength;
    var n := MonthOf(day);
    if n < m {
      MonthStartMonotone(n, m);
    } else if m < n {
      MonthStartMonotone(m, n);
    }
  }

  /** DayFromYear of ECMA-262, section 21.4.1. */
  function DayFromYear(y: int): int {
    365 * (y - 1970) + (y - 1969) / 4 - (y - 1901) / 100 + (y - 1601) / 400
  }

  lemma LengthOf(y: int, month: int)
    requires 0 <= month < 12
    ensures MonthLength(12 * y + month) ==
      if month == 1 then (if IsLeapYear(y) then 29 else 28)
      else if month == 3 || month == 5 || month == 8 || month == 10 then 30 else 31
  {
    assert (12 * y + month) / 12 == y && (12 * y + month) % 12 == month;
    hide IsLeapYear;
  }

  lemma HalfYears(y: int)
    ensures DaysInMonths(12 * y + 6, 6) == 184
    ensures DaysInMonths(12 * y, 6) == if IsLeapYear(y) then 182 else 181
  {
    hide MonthLength, IsLeapYear;
    LengthOf(y, 0); LengthOf(y, 1); LengthOf(y, 2); LengthOf(y, 3); LengthOf(y, 4); LengthOf(y, 5);
    LengthOf(y, 6); LengthOf(y, 7); LengthOf(y, 8); LengthOf(y, 9); LengthOf(y, 10); LengthOf(y, 11);
    var m := 12 * y;
    assert DaysInMonths(m + 10, 2) == 61;
    assert DaysInMonths(m + 8, 4) == 122;
    assert DaysInMonths(m + 4, 2) == 61;
    assert DaysInMonths(m + 2, 4) == 122;
  }

  lemma {:induction false} DaysSplit(m: int, j: nat, k: nat)
    ensures DaysInMonths(m, j + k) == DaysInMonths(m, j) + DaysInMonths(m + j, k)
    decreases j
  {
    hide MonthLength;
    if j > 0 {
      DaysSplit(m + 1, j - 1, k);
      assert m + 1 + (j - 1) == m + j;
    }
  }

  lemma EveryFourth(y: int)
    ensures (y - 1968) / 4 == (y - 1969) / 4 + (if y % 4 == 0 then 1 else 0)
  {
  }

  lemma EveryHundredth(y: int)
    ensures (y - 1900) / 100 == (y - 1901) / 100 + (if y % 100 == 0 then 1 else 0)
  {
  }

  lemma EveryFourHundredth(y: int)
    ensures (y - 1600) / 400 == (y - 1601) / 400 + (if y % 400 == 0 then 1 else 0)
  {
    var q, r := (y - 1601) / 400, (y - 1601) % 400;
    assert y == 400 * (q + 4) + r + 1;
    if r == 399 {
      assert y == 400 * (q + 5);
    }
  }

  lemma MultipleOf100(k: int)
    ensures 100 * k % 100 == 0
  {
  }

  lemma MultipleOf4(k: int)
    ensures 4 * k % 4 == 0
  {
  }

  lemma CenturiesAreFourths(y: int)
    ensures y % 400 == 0 ==> y % 100 == 0
    ensures y % 100 == 0 ==> y % 4 == 0
  {
    MultipleOf100(4 * (y / 400));
    MultipleOf4(25 * (y / 100));
  }

  lemma LeapStep(y: int)
    ensures DayFromYear(y + 1) == DayFromYear(y) + (if IsLeapYear(y) then 366 else 365)
  {
    EveryFourth(y);
    EveryHundredth(y);
    EveryFourHundredth(y);
    CenturiesAreFourths(y);
  }

  /** Accumulated month lengths agree with the closed formula of the standard, in both directions from 1970. */
  lemma {:induction false} YearStart(y: int)
    ensures MonthStart(12 * y) == DayFromYear(y)
    decreases if y >= 1970 then y - 1970 else 1970 - y
  {
    if y == 1970 {
    } else if y > 1970 {
      YearStart(y - 1);
      YearJump(y - 1);
    } else {
      YearStart(y + 1);
      YearJump(y);
    }
  }

  lemma YearJump(y: int)
    ensures MonthStart(12 * (y + 1)) - MonthStart(12 * y) == DayFromYear(y + 1) - DayFromYear(y)
  {
    hide MonthStart, MonthLength, DayFromYear, IsLeapYear;
    MonthsAdd(12 * y, 12);
    DaysSplit(12 * y, 6, 6);
    HalfYears(y);
    LeapStep(y);
    assert 12 * (y + 1) == 12 * y + 12;
  }

  function MonthIndex(t: int): int { MonthOf(Day(t)) }

  function Year(t: int): int { MonthIndex(t) / 12 }

  function Month(t: int): int { MonthIndex(t) % 12 }

  /** Day of the month, from 1. */
  function DateOf(t: int): int { Day(t) - MonthStart(MonthIndex(t)) + 1 }

  function MakeDay(year: int, month: int, date: int): int { MonthStart(12 * year + month) + date - 1 }

  /** Date.prototype.setDate, section 21.4.4.20 of ECMA-262, in UTC. */
  function SetDate(t: int, date: int): int {
    MakeDate(MakeDay(Year(t), Month(t), date), TimeWithinDay(t))
  }

  /** Date.prototype.setMonth with one argument, section 21.4.4.24 of ECMA-262, in UTC. */
  function SetMonth(t: int, month: int): int {
    MakeDate(MakeDay(Year(t), month, DateOf(t)), TimeWithinDay(t))
  }

  /** setUTCHours(0, 0, 0, 0). */
  function StartOfDay(t: int): int { MakeDate(Day(t), 0) }

  lemma SetDateShifts(t: int, k: int)
    ensures SetDate(t, DateOf(t) + k) == t + k * MS_PER_DAY
  {
    hide MonthStart, MonthLength;
    assert 12 * Year(t) + Month(t) == MonthIndex(t);
    assert MakeDay(Year(t), Month(t), DateOf(t) + k) == Day(t) + k;
  }

  /** setMonth(getMonth() + k) moves an instant by exactly the lengths of k calendar months, overflow or not. */
  lemma SetMonthShifts(t: int, k: nat)
    ensures SetMonth(t, Month(t) + k) == t + DaysInMonths(MonthIndex(t), k) * MS_PER_DAY
    ensures 28 * k <= DaysInMonths(MonthIndex(t), k) <= 31 * k
  {
    hide MonthStart, MonthLength;
    var m := MonthIndex(t);
    MonthsAdd(m, k);
    assert 12 * Year(t) + (Month(t) + k) == m + k;
    assert MakeDay(Year(t), Month(t) + k, DateOf(t)) == Day(t) + DaysInMonths(m, k);
  }
}
