/** The dashboard's bill filters and the due-date badge of each bill card.
    Time is integer milliseconds on one clock with 24-hour days; `instantOf` is
    `parseISO` of a stored `next_due_date` (the local midnight it names) and
    `formatDate` is the `format(dueDate, 'MMM d, yyyy')` text, both kept abstract. */
module Dashboard {
  import opened Options
  import opened Strings
  import opened Seqs
  import opened Records

  const DayMs: int := 1000 * 60 * 60 * 24

  /** `Math.ceil(a / b)` for a positive divisor. */
  function CeilDiv(a: int, b: int): (q: int)
    requires b > 0
    ensures (q - 1) * b < a <= q * b
  {
    -((-a) / b)
  }

  /** `daysDiff`: whole days, rounded up, from `now` to the due instant. */
  function DaysUntil(due: int, now: int): int
  {
    CeilDiv(due - now, DayMs)
  }

  /** Seen at `t` ms past the start of day `n`, a bill due at the midnight that
      starts day `n + k` is `k` days away: the rounding turns the instant
      difference into the calendar-day difference. */
  lemma DaysUntilIsCalendarDays(n: int, t: int, k: int)
    requires 0 <= t < DayMs
    ensures DaysUntil((n + k) * DayMs, n * DayMs + t) == k
  {
    var a := (n + k) * DayMs - (n * DayMs + t);
    assert a == k * DayMs - t;
    var q := CeilDiv(a, DayMs);
    assert (q - 1) * DayMs < k * DayMs - t <= q * DayMs;
    FactorLess(q - 1, k, DayMs);
    FactorLess(k - 1, q, DayMs);
  }

  /** Dividing both sides of `a * c < b * c` by a positive `c`. */
  lemma FactorLess(a: int, b: int, c: int)
    requires c > 0 && a * c < b * c
    ensures a < b
  {
    assert (b - a) * c == b * c - a * c;
    assert (b - a) * c > 0;
  }

  datatype DueStatus = NoDate | Overdue | DueSoon | Upcoming

  /** `getDueDateStatus()`. */
  function DueDateStatus(bill: BillView, now: int, instantOf: string -> int): (s: DueStatus)
    ensures s == NoDate <==> !Truthy(bill.row.nextDueDate)
    ensures Truthy(bill.row.nextDueDate) ==>
      var diff := DaysUntil(instantOf(bill.row.nextDueDate.value), now);
      && (s == Overdue <==> diff < 0)
      && (s == DueSoon <==> 0 <= diff <= 7)
      && (s == Upcoming <==> diff > 7)
  {
    if !Truthy(bill.row.nextDueDate) then NoDate
    else
      var diff := DaysUntil(instantOf(bill.row.nextDueDate.value), now);
      if diff < 0 then Overdue
      else if diff <= 7 then DueSoon
      else Upcoming
  }

  /** The badge counts calendar days: due at the start of day `n + k` and seen
      during day `n`, a bill is overdue iff `k < 0`, due soon iff `0 <= k <= 7`. */
  lemma StatusByCalendarDays(bill: BillView, instantOf: string -> int, n: int, t: int, k: int)
    requires Truthy(bill.row.nextDueDate)
    requires instantOf(bill.row.nextDueDate.value) == (n + k) * DayMs
    requires 0 <= t < DayMs
    ensures DueDateStatus(bill, n * DayMs + t, instantOf)
      == (if k < 0 then Overdue else if k <= 7 then DueSoon else Upcoming)
  {
    DaysUntilIsCalendarDays(n, t, k);
  }

  /** `getStatusText()`. */
  function StatusText(bill: BillView, now: int, instantOf: string -> int, formatDate: int -> string): string
  {
    if !Truthy(bill.row.nextDueDate) then "No due date"
    else
      var due := instantOf(bill.row.nextDueDate.value);
      var diff := DaysUntil(due, now);
      match DueDateStatus(bill, now, instantOf)
      case Overdue => "Overdue by " + IntToString(if diff < 0 then -diff else diff) + " days"
      case DueSoon => "Due in " + IntToString(diff) + " days"
      case _ => formatDate(due)
  }

  /** An overdue badge reads "Overdue by N days" with N the absolute day difference,
      a due-soon badge "Due in N days" with N the day difference; N reads back
      from the digits. */
  lemma StatusTextReportsDays(bill: BillView, now: int, instantOf: string -> int, formatDate: int -> string)
    requires Truthy(bill.row.nextDueDate)
    ensures var diff := DaysUntil(instantOf(bill.row.nextDueDate.value), now);
      var text := StatusText(bill, now, instantOf, formatDate);
      && (DueDateStatus(bill, now, instantOf) == Overdue ==>
            exists digits :: text == "Overdue by " + digits + " days"
                             && (forall i :: 0 <= i < |digits| ==> IsDigit(digits[i]))
                             && DigitsValue(digits) == -diff)
      && (DueDateStatus(bill, now, instantOf) == DueSoon ==>
            exists digits :: text == "Due in " + digits + " days"
                             && (forall i :: 0 <= i < |digits| ==> IsDigit(digits[i]))
                             && DigitsValue(digits) == diff)
  {
    var due := instantOf(bill.row.nextDueDate.value);
    var diff := DaysUntil(due, now);
    var text := StatusText(bill, now, instantOf, formatDate);
    if diff < 0 {
      var digits := NatToString(-diff);
      NatToStringRoundTrip(-diff);
      assert text == "Overdue by " + digits + " days";
    } else if diff <= 7 {
      var digits := NatToString(diff);
      NatToStringRoundTrip(diff);
      assert text == "Due in " + digits + " days";
    }
  }

  /** The bill has a due date and that instant lies strictly between now and
      seven days later (`isAfter(due, now) && isBefore(due, addDays(now, 7))`). */
  predicate InDueSoonWindow(bill: BillView, now: int, instantOf: string -> int)
  {
    Truthy(bill.row.nextDueDate)
    && now < instantOf(bill.row.nextDueDate.value) < now + 7 * DayMs
  }

  /** The bill has a due date and that instant lies strictly before now. */
  predicate IsPastDue(bill: BillView, now: int, instantOf: string -> int)
  {
    Truthy(bill.row.nextDueDate) && instantOf(bill.row.nextDueDate.value) < now
  }

  function DueSoonFilter(now: int, instantOf: string -> int): BillView -> bool
  {
    b => InDueSoonWindow(b, now, instantOf)
  }

  function OverdueFilter(now: int, instantOf: string -> int): BillView -> bool
  {
    b => IsPastDue(b, now, instantOf)
  }

  /** `getFilteredBills()` for the selected `filter`. */
  function FilteredBills(bills: seq<BillView>, filter: string, now: int, instantOf: string -> int)
    : (r: seq<BillView>)
    ensures filter != "due-soon" && filter != "overdue" ==> r == bills
    ensures IsSubseq(r, bills)
    ensures filter == "due-soon" ==>
      forall b :: b in r <==> b in bills && InDueSoonWindow(b, now, instantOf)
    ensures filter == "overdue" ==>
      forall b :: b in r <==> b in bills && IsPastDue(b, now, instantOf)
  {
    if filter == "due-soon" then
      FilterIsSubseq(bills, DueSoonFilter(now, instantOf));
      Filter(bills, DueSoonFilter(now, instantOf))
    else if filter == "overdue" then
      FilterIsSubseq(bills, OverdueFilter(now, instantOf));
      Filter(bills, OverdueFilter(now, instantOf))
    else
      SubseqReflexive(bills);
      bills
  }

  /** No bill is listed both under "due soon" and under "overdue". */
  lemma FiltersDisjoint(bills: seq<BillView>, now: int, instantOf: string -> int)
    ensures forall b :: b in FilteredBills(bills, "due-soon", now, instantOf)
                        ==> b !in FilteredBills(bills, "overdue", now, instantOf)
  {
  }

  /** A bill due at today's midnight, looked at any time after that midnight, is
      listed by the "overdue" filter while its badge says "due soon". */
  lemma DueTodayFilterBadgeDisagree(bill: BillView, instantOf: string -> int, n: int, t: int)
    requires Truthy(bill.row.nextDueDate)
    requires instantOf(bill.row.nextDueDate.value) == n * DayMs
    requires 0 < t < DayMs
    ensures bill in FilteredBills([bill], "overdue", n * DayMs + t, instantOf)
    ensures DueDateStatus(bill, n * DayMs + t, instantOf) == DueSoon
  {
    StatusByCalendarDays(bill, instantOf, n, t, 0);
  }
}
