/** Proleptic Gregorian dates with `LocalDate.plusMonths`: the month is moved
    by whole months and the day is clamped to the length of the target month.
    The instalment schedule chains `plusMonths(1)` while the plan end date adds
    `n - 1` months at once; the lemmas below show when the two agree. */
module Calendar {

  datatype Date = Date(year: int, month: int, day: int)
  {
    predicate Valid()
    {
      1 <= month <= 12 && 1 <= day <= DaysInMonth(year, month)
    }

    /** Months since year 0, month 1: the quantity `plusMonths` shifts. */
    function MonthIndex(): int
    {
      year * 12 + (month - 1)
    }
  }

  predicate IsLeapYear(y: int)
  {
    y % 4 == 0 && (y % 100 != 0 || y % 400 == 0)
  }

  function DaysInMonth(y: int, m: int): (d: int)
    ensures 28 <= d <= 31
  {
    if m == 2 then (if IsLeapYear(y) then 29 else 28)
    else if m == 4 || m == 6 || m == 9 || m == 11 then 30
    else 31
  }

  /** `date.plusMonths(k)`: the result lies exactly `k` months later and keeps
      the day of month, except that a day past the end of the target month
      becomes that month's last day. */
  function PlusMonths(d: Date, k: int): (r: Date)
    ensures r.MonthIndex() == d.MonthIndex() + k
    ensures d.Valid() ==> r.Valid()
    ensures r.day <= d.day
    ensures r.day == d.day || (d.day > DaysInMonth(r.year, r.month) && r.day == DaysInMonth(r.year, r.month))
    ensures d.day <= 28 ==> r.day == d.day
  {
    var months := d.MonthIndex() + k;
    var y := months / 12;
    var m := months % 12 + 1;
    Date(y, m, if d.day <= DaysInMonth(y, m) then d.day else DaysInMonth(y, m))
  }

  /** Dates are determined by their month index and day. */
  lemma MonthIndexInjective(a: Date, b: Date)
    requires a.Valid() && b.Valid()
    requires a.MonthIndex() == b.MonthIndex() && a.day == b.day
    ensures a == b
  {
  }

  /** Adding months in two steps equals adding them at once when no clamping occurs. */
  lemma PlusMonthsCompose(d: Date, a: int, b: int)
    requires d.Valid() && d.day <= 28
    ensures PlusMonths(PlusMonths(d, a), b) == PlusMonths(d, a + b)
  {
    var x := PlusMonths(d, a);
    MonthIndexInjective(PlusMonths(x, b), PlusMonths(d, a + b));
  }

  /** The due date of instalment `i` (1-based) as the schedule loop produces it:
      the start date, then each previous due date plus one month. */
  function ChainedDue(start: Date, i: nat): Date
    requires i >= 1
  {
    if i == 1 then start else PlusMonths(ChainedDue(start, i - 1), 1)
  }

  /** The chained due date always lands in the right month, but its day can
      only shrink: a clamp once applied is carried into every later month. */
  lemma {:induction false} ChainedDueMonth(start: Date, i: nat)
    requires start.Valid() && i >= 1
    ensures ChainedDue(start, i).Valid()
    ensures ChainedDue(start, i).MonthIndex() == start.MonthIndex() + (i - 1)
    ensures ChainedDue(start, i).day <= start.day
  {
    if i > 1 {
      ChainedDueMonth(start, i - 1);
    }
  }

  /** For start days 1..28 the chained schedule and the direct computation agree,
      so the last due date equals the plan's end date. */
  lemma {:induction false} ChainedDueIsDirect(start: Date, i: nat)
    requires start.Valid() && start.day <= 28 && i >= 1
    ensures ChainedDue(start, i) == PlusMonths(start, i - 1)
  {
    if i == 1 {
      MonthIndexInjective(start, PlusMonths(start, 0));
    } else {
      ChainedDueIsDirect(start, i - 1);
      PlusMonthsCompose(start, i - 2, 1);
    }
  }

  /** A start on 31 January 2025 with three instalments: chaining clamps to
      28 February and stays on the 28th, so the last due date is 28 March
      while the end date computed directly is 31 March. */
  lemma ChainedDueDivergesFromEndDate()
    ensures ChainedDue(Date(2025, 1, 31), 3) == Date(2025, 3, 28)
    ensures PlusMonths(Date(2025, 1, 31), 3 - 1) == Date(2025, 3, 31)
  {
    assert ChainedDue(Date(2025, 1, 31), 2) == Date(2025, 2, 28);
  }
}
