/** Civil dates: month lengths, month ends, and moving by whole months. */
module Calendar {
  import opened Wrappers
  import opened Ledger

  datatype Day = Day(year: int, month: nat, day: nat) {
    predicate Valid() {
      1 <= month <= 12 && 1 <= day <= DaysIn(year, month)
    }
  }

  predicate IsLeap(year: int) {
    year % 4 == 0 && (year % 100 != 0 || year % 400 == 0)
  }

  function DaysIn(year: int, month: nat): (r: nat)
    ensures 28 <= r <= 31
  {
    if month == 2 then (if IsLeap(year) then 29 else 28)
    else if month in {4, 6, 9, 11} then 30
    else 31
  }

  function NextDay(d: Day): Day {
    if d.day < DaysIn(d.year, d.month) then d.(day := d.day + 1) else FirstOfNext(d)
  }

  function PreviousDay(d: Day): Day {
    if d.day > 1 then d.(day := d.day - 1)
    else if d.month > 1 then Day(d.year, d.month - 1, DaysIn(d.year, d.month - 1))
    else Day(d.year - 1, 12, 31)
  }

  /** The first day of the following month. */
  function FirstOfNext(d: Day): Day {
    if d.month == 12 then Day(d.year + 1, 1, 1) else Day(d.year, d.month + 1, 1)
  }

  /** `month_end`: the day before the first of the following month. */
  function MonthEnd(d: Day): Day {
    PreviousDay(FirstOfNext(d))
  }

  /** Months counted from year 0. */
  function MonthIndex(d: Day): int {
    12 * d.year + d.month - 1
  }

  /** The last day of the month with this index. */
  function EndOfMonth(index: int): Day {
    Day(index / 12, index % 12 + 1, DaysIn(index / 12, index % 12 + 1))
  }

  /** The computed month end is the last day of the same month. */
  lemma MonthEndIsLast(d: Day)
    requires d.Valid()
    ensures MonthEnd(d) == EndOfMonth(MonthIndex(d)) && MonthEnd(d).Valid()
    ensures MonthIndex(MonthEnd(d)) == MonthIndex(d)
  {
  }

  /** Stepping over a month end lands in the next month. */
  lemma NextMonthEnd(index: int)
    ensures MonthEnd(NextDay(EndOfMonth(index))) == EndOfMonth(index + 1)
    ensures EndOfMonth(index).Valid() && MonthIndex(EndOfMonth(index)) == index
  {
    var d := EndOfMonth(index);
    assert MonthIndex(d) == index;
    var e := NextDay(d);
    assert e.Valid() && MonthIndex(e) == index + 1;
    MonthEndIsLast(e);
  }

  // ─── Day numbers ────────────────────────────────────────────────────

  /** The leap days up to the end of a year. */
  function LeapDays(n: int): int {
    n / 4 - n / 100 + n / 400
  }

  function DaysBeforeYear(year: int): int {
    365 * year + LeapDays(year - 1)
  }

  function DaysBeforeMonth(year: int, month: nat): nat {
    if month <= 1 then 0 else DaysBeforeMonth(year, month - 1) + DaysIn(year, month - 1)
  }

  /** The ledger's date of a civil day. */
  function Number(d: Day): Date {
    DaysBeforeYear(d.year) + DaysBeforeMonth(d.year, d.month) + d.day
  }

  lemma MonthStep(year: int, month: nat)
    requires 1 <= month <= 12
    ensures DaysBeforeMonth(year, month + 1) == DaysBeforeMonth(year, month) + DaysIn(year, month)
  {
  }

  lemma NoMonthBefore(year: int)
    ensures DaysBeforeMonth(year, 1) == 0
  {
  }

  lemma MonthsOfYear(year: int)
    ensures DaysBeforeMonth(year, 13) == 337 + DaysIn(year, 2)
  {
    hide DaysBeforeMonth;
    NoMonthBefore(year);
    MonthStep(year, 1);
    MonthStep(year, 2);
    MonthStep(year, 3);
    MonthStep(year, 4);
    MonthStep(year, 5);
    MonthStep(year, 6);
    MonthStep(year, 7);
    MonthStep(year, 8);
    MonthStep(year, 9);
    MonthStep(year, 10);
    MonthStep(year, 11);
    MonthStep(year, 12);
  }

  lemma FourDivides(k: int)
    ensures (100 * k) % 4 == 0
  {
    assert 100 * k == 4 * (25 * k);
  }

  lemma HundredDivides(k: int)
    ensures (400 * k) % 100 == 0
  {
    assert 400 * k == 100 * (4 * k);
  }

  lemma Divisors(n: int)
    ensures n % 400 == 0 ==> n % 100 == 0
    ensures n % 100 == 0 ==> n % 4 == 0
  {
    HundredDivides(n / 400);
    FourDivides(n / 100);
  }

  lemma QuotientSteps(n: int)
    ensures n / 4 == (n - 1) / 4 + (if n % 4 == 0 then 1 else 0)
    ensures n / 100 == (n - 1) / 100 + (if n % 100 == 0 then 1 else 0)
    ensures n / 400 == (n - 1) / 400 + (if n % 400 == 0 then 1 else 0)
  {
  }

  lemma LeapDayStep(n: int)
    ensures LeapDays(n) == LeapDays(n - 1) + (if IsLeap(n) then 1 else 0)
  {
    QuotientSteps(n);
    Divisors(n);
  }

  lemma YearLength(year: int)
    ensures DaysBeforeYear(year + 1) == DaysBeforeYear(year) + (if IsLeap(year) then 366 else 365)
    ensures DaysBeforeMonth(year, 13) == if IsLeap(year) then 366 else 365
  {
    LeapDayStep(year);
    MonthsOfYear(year);
    hide DaysBeforeMonth, IsLeap, LeapDays;
  }

  /** The number of the first of a month, by month index. */
  function FirstOf(index: int): Date {
    Number(Day(index / 12, index % 12 + 1, 1))
  }

  lemma MonthLength(index: int)
    ensures FirstOf(index + 1) == FirstOf(index) + DaysIn(index / 12, index % 12 + 1)
  {
    var y, m := index / 12, index % 12 + 1;
    if m == 12 {
      YearLength(y);
      assert DaysBeforeMonth(y, 13) == DaysBeforeMonth(y, 12) + 31;
      assert (index + 1) / 12 == y + 1 && (index + 1) % 12 == 0;
    } else {
      assert (index + 1) / 12 == y && (index + 1) % 12 == m;
    }
  }

  /** Later months begin later. */
  lemma {:induction false} FirstsIncrease(i: int, j: int)
    requires i < j
    ensures FirstOf(i) + 28 <= FirstOf(j)
    decreases j - i
  {
    MonthLength(j - 1);
    if i < j - 1 {
      FirstsIncrease(i, j - 1);
    }
  }

  lemma IndexParts(d: Day)
    requires d.Valid()
    ensures MonthIndex(d) / 12 == d.year && MonthIndex(d) % 12 + 1 == d.month
  {
  }

  lemma NumberByMonth(d: Day)
    requires d.Valid()
    ensures Number(d) == FirstOf(MonthIndex(d)) + d.day - 1
    ensures Number(d) < FirstOf(MonthIndex(d) + 1) && FirstOf(MonthIndex(d)) <= Number(d)
  {
    IndexParts(d);
    MonthLength(MonthIndex(d));
    hide MonthIndex, DaysBeforeYear, DaysBeforeMonth, DaysIn;
  }

  /** A day of a later month has a larger number. */
  lemma LaterMonthIsLater(a: Day, b: Day)
    requires a.Valid() && b.Valid() && MonthIndex(a) < MonthIndex(b)
    ensures Number(a) < Number(b)
  {
    hide Number, FirstOf, MonthIndex, DaysIn;
    NumberByMonth(a);
    NumberByMonth(b);
    if MonthIndex(a) + 1 < MonthIndex(b) {
      FirstsIncrease(MonthIndex(a) + 1, MonthIndex(b));
    }
  }

  // ─── Advancing by months ────────────────────────────────────────────

  /** `advance_months`: the same day of a later month, or the last one it has. */
  function AdvanceMonths(d: Day, months: nat): Day {
    var zeroBased := d.month - 1 + months;
    var year, month := d.year + zeroBased / 12, zeroBased % 12 + 1;
    Day(year, month, Min(d.day, MonthEnd(Day(year, month, 1)).day))
  }

  lemma AdvanceIsExact(d: Day, months: nat)
    requires d.Valid()
    ensures var a := AdvanceMonths(d, months);
            && a.Valid() && MonthIndex(a) == MonthIndex(d) + months
            && a.day == Min(d.day, DaysIn(a.year, a.month))
  {
    var a := AdvanceMonths(d, months);
    var first := Day(a.year, a.month, 1);
    MonthEndIsLast(first);
    assert MonthIndex(first) == MonthIndex(d) + months;
  }

  /** Advancing by at least one month moves forward. */
  lemma AdvanceIsLater(d: Day, months: nat)
    requires d.Valid() && months > 0
    ensures Number(AdvanceMonths(d, months)) > Number(d)
  {
    AdvanceIsExact(d, months);
    LaterMonthIsLater(d, AdvanceMonths(d, months));
  }

  /** `steps` single advances of `months` each. */
  function Steps(d: Day, months: nat, steps: nat): Day {
    if steps == 0 then d else AdvanceMonths(Steps(d, months, steps - 1), months)
  }

  lemma {:induction false} StepsByMonth(d: Day, months: nat, steps: nat)
    requires d.Valid()
    ensures var a := Steps(d, months, steps);
            && a.Valid() && MonthIndex(a) == MonthIndex(d) + months * steps
            && a.day <= d.day && (d.day <= 28 ==> a.day == d.day)
  {
    hide AdvanceMonths, MonthIndex;
    if steps > 0 {
      StepsByMonth(d, months, steps - 1);
      AdvanceIsExact(Steps(d, months, steps - 1), months);
      assert months * steps == months * (steps - 1) + months;
    }
  }

  /**
   Catching up step by step against jumping at once: the same month, never a later day of it, and the
   same day whenever the day exists in every month.
   */
  lemma StepsAgainstJump(d: Day, months: nat, steps: nat)
    requires d.Valid()
    ensures var a, b := Steps(d, months, steps), AdvanceMonths(d, months * steps);
            && a.year == b.year && a.month == b.month && a.day <= b.day
            && (d.day <= 28 ==> a == b && a.day == d.day)
  {
    hide AdvanceMonths, Steps, MonthIndex;
    StepsByMonth(d, months, steps);
    AdvanceIsExact(d, months * steps);
    SameMonth(Steps(d, months, steps), AdvanceMonths(d, months * steps));
  }

  lemma SameMonth(a: Day, b: Day)
    requires a.Valid() && b.Valid() && MonthIndex(a) == MonthIndex(b)
    ensures a.year == b.year && a.month == b.month
  {
  }

  /** Step by step can fall short of the jump: 31 January by two months. */
  lemma StepsCanFallShort()
    ensures Steps(Day(2026, 1, 31), 1, 2) == Day(2026, 3, 28) && AdvanceMonths(Day(2026, 1, 31), 2) == Day(2026, 3, 31)
  {
    assert AdvanceMonths(Day(2026, 1, 31), 1) == Day(2026, 2, 28);
    assert Steps(Day(2026, 1, 31), 1, 1) == Day(2026, 2, 28) by {
      assert Steps(Day(2026, 1, 31), 1, 0) == Day(2026, 1, 31);
    }
    assert AdvanceMonths(Day(2026, 2, 28), 1) == Day(2026, 3, 28);
  }
}
