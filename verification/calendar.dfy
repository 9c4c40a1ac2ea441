/** Calendar dates as JavaScript's `Date` constructor builds them from
    `(year, monthIndex, day)`: months count from 0, a day or month outside its
    range rolls over into the neighbouring months and years, and leap years
    follow the Gregorian rule (proleptic for every year). */
module Calendar {

  /** A local calendar date; `month` is 0..11 as `Date.prototype.getMonth` reports it. */
  datatype Date = Date(year: int, month: int, day: int)

  predicate IsLeapYear(y: int)
  {
    (y % 4 == 0 && y % 100 != 0) || y % 400 == 0
  }

  function DaysInMonth(y: int, m: int): (n: int)
    requires 0 <= m < 12
    ensures 28 <= n <= 31
  {
    if m == 1 then (if IsLeapYear(y) then 29 else 28)
    else if m == 3 || m == 5 || m == 8 || m == 10 then 30
    else 31
  }

  /** A date that names an existing day. */
  predicate ValidDate(d: Date)
  {
    0 <= d.month < 12 && 1 <= d.day <= DaysInMonth(d.year, d.month)
  }

  /** Months counted from month 0 of year 0; (year, month) pairs ordered as numbers. */
  function MonthIndex(y: int, m: int): int
  {
    y * 12 + m
  }

  /** `a` is a strictly earlier day than `b`. */
  predicate Before(a: Date, b: Date)
  {
    a.year < b.year
    || (a.year == b.year && (a.month < b.month || (a.month == b.month && a.day < b.day)))
  }

  predicate OnOrBefore(a: Date, b: Date)
  {
    Before(a, b) || a == b
  }

  /** `new Date(y, m, d)`: month `m` of year `y`, normalised, then day `d` counted
      from that month's first day (`d = 1`), backwards for `d <= 0`. */
  function MakeDate(y: int, m: int, d: int): (r: Date)
    ensures ValidDate(r)
  {
    Roll(y + m / 12, m % 12, d)
  }

  /** Day `d` of month `m` (already in 0..11) of year `y`, rolled into the
      neighbouring months until it names an existing day. */
  function Roll(y: int, m: int, d: int): (r: Date)
    requires 0 <= m < 12
    ensures ValidDate(r)
    decreases (if d < 1 then 1 - d else 0), (if d < 1 then 0 else d)
  {
    if d < 1 then
      var py, pm := if m == 0 then y - 1 else y, if m == 0 then 11 else m - 1;
      Roll(py, pm, d + DaysInMonth(py, pm))
    else if d <= DaysInMonth(y, m) then Date(y, m, d)
    else
      var ny, nm := if m == 11 then y + 1 else y, if m == 11 then 0 else m + 1;
      Roll(ny, nm, d - DaysInMonth(y, m))
  }

  /** The day after a valid date. */
  function NextDay(a: Date): (r: Date)
    requires ValidDate(a)
    ensures ValidDate(r) && Before(a, r)
  {
    if a.day < DaysInMonth(a.year, a.month) then Date(a.year, a.month, a.day + 1)
    else if a.month < 11 then Date(a.year, a.month + 1, 1)
    else Date(a.year + 1, 0, 1)
  }

  /** Normalising month `m` of year `y` keeps its position in the month count. */
  lemma NormalisedMonthIndex(y: int, m: int)
    ensures MonthIndex(y + m / 12, m % 12) == MonthIndex(y, m)
    ensures 0 <= m % 12 < 12
  {
  }

  /** Day 1 is the first of the (normalised) month. */
  lemma MakeDateFirst(y: int, m: int)
    ensures MakeDate(y, m, 1) == Date(y + m / 12, m % 12, 1)
  {
  }

  /** Day `d + 1` is the day after day `d`: the constructor counts days
      consecutively across month and year ends, in both directions. */
  lemma MakeDateSuccessor(y: int, m: int, d: int)
    ensures NextDay(MakeDate(y, m, d)) == MakeDate(y, m, d + 1)
  {
    RollSuccessor(y + m / 12, m % 12, d);
  }

  lemma {:induction false} RollSuccessor(y: int, m: int, d: int)
    requires 0 <= m < 12
    ensures NextDay(Roll(y, m, d)) == Roll(y, m, d + 1)
    decreases (if d < 1 then 1 - d else 0), (if d < 1 then 0 else d)
  {
    if d < 1 {
      var py, pm := if m == 0 then y - 1 else y, if m == 0 then 11 else m - 1;
      if d + 1 < 1 {
        RollSuccessor(py, pm, d + DaysInMonth(py, pm));
      } else {
        assert Roll(y, m, d) == Date(py, pm, DaysInMonth(py, pm));
      }
    } else if d > DaysInMonth(y, m) {
      var ny, nm := if m == 11 then y + 1 else y, if m == 11 then 0 else m + 1;
      RollSuccessor(ny, nm, d - DaysInMonth(y, m));
    }
  }

  /** A positive day never lands before its month: the result's month index is at
      least that of month `m` of year `y`. */
  lemma MakeDateNotBeforeMonth(y: int, m: int, d: int)
    requires d >= 1
    ensures MonthIndex(MakeDate(y, m, d).year, MakeDate(y, m, d).month) >= MonthIndex(y, m)
  {
    NormalisedMonthIndex(y, m);
    RollNotBeforeMonth(y + m / 12, m % 12, d);
  }

  lemma {:induction false} RollNotBeforeMonth(y: int, m: int, d: int)
    requires 0 <= m < 12 && d >= 1
    ensures MonthIndex(Roll(y, m, d).year, Roll(y, m, d).month) >= MonthIndex(y, m)
    decreases d
  {
    if d > DaysInMonth(y, m) {
      var ny, nm := if m == 11 then y + 1 else y, if m == 11 then 0 else m + 1;
      RollNotBeforeMonth(ny, nm, d - DaysInMonth(y, m));
    }
  }

  /** Between valid dates, a later month index means a later day. */
  lemma LaterMonthIsAfter(a: Date, b: Date)
    requires ValidDate(a) && ValidDate(b)
    requires MonthIndex(a.year, a.month) < MonthIndex(b.year, b.month)
    ensures Before(a, b)
  {
  }

  /** Every valid date is built back from its own fields. */
  lemma MakeDateOfValid(a: Date)
    requires ValidDate(a)
    ensures MakeDate(a.year, a.month, a.day) == a
  {
    assert a.month / 12 == 0 && a.month % 12 == a.month;
  }

  /** One day past the end of a month is the first of the next month
      (day 31 of a 30-day month, day 30 of a 29-day February, ...). */
  lemma MakeDateOneDayOver(y: int, m: int)
    requires 0 <= m < 12
    ensures MakeDate(y, m, DaysInMonth(y, m) + 1)
         == (if m == 11 then Date(y + 1, 0, 1) else Date(y, m + 1, 1))
  {
    assert m / 12 == 0 && m % 12 == m;
    var ny, nm := if m == 11 then y + 1 else y, if m == 11 then 0 else m + 1;
    assert Roll(y, m, DaysInMonth(y, m) + 1) == Roll(ny, nm, 1);
    assert Roll(ny, nm, 1) == Date(ny, nm, 1);
  }

  /** `OnOrBefore` and `Before` split every pair of dates. */
  lemma OrderTotal(a: Date, b: Date)
    ensures OnOrBefore(a, b) || Before(b, a)
  {
  }
}
