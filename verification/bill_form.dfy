/** The bill form's rules: the next due date computed from a due day and a
    recurrence type, the field validation run before saving, and toggling a tag
    in the form's tag list. */
module BillForm {
  import opened Options
  import opened Strings
  import opened Seqs
  import opened Calendar

  /** The form state. An empty due-day field is `None`; a due day is the integer
      the field holds. An unselected recurrence type is the empty string. */
  datatype FormData = FormData(
    name: string,
    paymentUrl: string,
    notes: string,
    dueDay: Option<int>,
    recurrenceType: string,
    tags: seq<string>)

  /** `calculateNextDueDate(dueDay, recurrenceType)` run on the calendar day `today`.
      Comparing the candidate's local midnight with "now" is the same as comparing
      the candidate day with today's day, which is what `OnOrBefore` does. */
  function NextDueDate(dueDay: Option<int>, recurrenceType: string, today: Date): (r: Option<Date>)
    ensures dueDay.None? || recurrenceType == "" ==> r.None?
    ensures r.Some? ==> ValidDate(r.value)
  {
    if dueDay.None? || recurrenceType == "" then None
    else
      var d := dueDay.value;
      var candidate := MakeDate(today.year, today.month, d);
      if !OnOrBefore(candidate, today) then Some(candidate)
      else if recurrenceType == "monthly" then Some(MakeDate(today.year, today.month + 1, d))
      else if recurrenceType == "quarterly" then Some(MakeDate(today.year, today.month + 3, d))
      else if recurrenceType == "yearly" then Some(MakeDate(today.year + 1, today.month, d))
      else None
  }

  /** The date that due day `d` names in today's month. */
  function Candidate(d: int, today: Date): Date
  {
    MakeDate(today.year, today.month, d)
  }

  /** A candidate still ahead of today is returned whatever the recurrence type,
      even one the `switch` does not know; a passed candidate moves one period on,
      and an unknown type then yields no date. */
  lemma NextDueDateCases(d: int, recurrenceType: string, today: Date)
    requires recurrenceType != ""
    ensures Before(today, Candidate(d, today))
      ==> NextDueDate(Some(d), recurrenceType, today) == Some(Candidate(d, today))
    ensures OnOrBefore(Candidate(d, today), today) ==>
      NextDueDate(Some(d), recurrenceType, today)
        == (if recurrenceType == "monthly" then Some(MakeDate(today.year, today.month + 1, d))
            else if recurrenceType == "quarterly" then Some(MakeDate(today.year, today.month + 3, d))
            else if recurrenceType == "yearly" then Some(MakeDate(today.year + 1, today.month, d))
            else None)
  {
    if Before(today, Candidate(d, today)) {
      assert !OnOrBefore(Candidate(d, today), today);
    }
  }

  /** For a positive due day, every date the computation returns lies strictly
      after today, also when the day overflows the target month. */
  lemma NextDueDateIsAfterToday(d: int, recurrenceType: string, today: Date)
    requires ValidDate(today) && d >= 1
    requires NextDueDate(Some(d), recurrenceType, today).Some?
    ensures Before(today, NextDueDate(Some(d), recurrenceType, today).value)
  {
    var y, m := today.year, today.month;
    var candidate := MakeDate(y, m, d);
    var r := NextDueDate(Some(d), recurrenceType, today).value;
    if !OnOrBefore(candidate, today) {
      OrderTotal(candidate, today);
    } else if recurrenceType == "monthly" {
      MakeDateNotBeforeMonth(y, m + 1, d);
      LaterMonthIsAfter(today, r);
    } else if recurrenceType == "quarterly" {
      MakeDateNotBeforeMonth(y, m + 3, d);
      LaterMonthIsAfter(today, r);
    } else {
      MakeDateNotBeforeMonth(y + 1, m, d);
      LaterMonthIsAfter(today, r);
    }
  }

  /** Worked cases: due day 15 monthly seen on 20 January 2024 rolls to 15 February;
      seen on 10 January it stays 15 January; due day 31 monthly seen on 10 February
      2024 is 2 March 2024 (February 2024 has 29 days: the day overflows, it is not
      clamped), and 3 March in the common year 2023. */
  lemma NextDueDateExamples()
    ensures NextDueDate(Some(15), "monthly", Date(2024, 0, 20)) == Some(Date(2024, 1, 15))
    ensures NextDueDate(Some(15), "monthly", Date(2024, 0, 10)) == Some(Date(2024, 0, 15))
  {
  }

  lemma NextDueDateOverflowsLeap()
    ensures NextDueDate(Some(31), "monthly", Date(2024, 1, 10)) == Some(Date(2024, 2, 2))
  {
    assert IsLeapYear(2024) && DaysInMonth(2024, 1) == 29;
    assert 1 / 12 == 0 && 1 % 12 == 1;
    assert Roll(2024, 1, 31) == Roll(2024, 2, 2) == Date(2024, 2, 2);
  }

  lemma NextDueDateOverflowsCommon()
    ensures NextDueDate(Some(31), "monthly", Date(2023, 1, 10)) == Some(Date(2023, 2, 3))
  {
    assert !IsLeapYear(2023) && DaysInMonth(2023, 1) == 28;
    assert 1 / 12 == 0 && 1 % 12 == 1;
    assert Roll(2023, 1, 31) == Roll(2023, 2, 3) == Date(2023, 2, 3);
  }

  const NameRequired := "Bill name is required"
  const DueDayOutOfRange := "Due day must be between 1 and 31"
  const RecurrenceRequired := "Recurrence type is required when due day is set"

  /** `validateForm`: fills the error map key by key; the form is valid when no key
      was written. */
  method ValidateForm(form: FormData) returns (errors: map<string, string>, valid: bool)
    ensures "name" in errors <==> AllWhitespace(form.name)
    ensures "due_day" in errors <==> form.dueDay.Some? && !(1 <= form.dueDay.value <= 31)
    ensures "recurrence_type" in errors <==> form.dueDay.Some? && form.recurrenceType == ""
    ensures errors.Keys <= {"name", "due_day", "recurrence_type"}
    ensures "name" in errors ==> errors["name"] == NameRequired
    ensures "due_day" in errors ==> errors["due_day"] == DueDayOutOfRange
    ensures "recurrence_type" in errors ==> errors["recurrence_type"] == RecurrenceRequired
    ensures valid <==> errors == map[]
    ensures valid <==> !AllWhitespace(form.name)
                       && (form.dueDay.Some? ==> 1 <= form.dueDay.value <= 31 && form.recurrenceType != "")
  {
    errors := map[];
    TrimEmptyIff(form.name);
    if Trim(form.name) == "" {
      errors := errors["name" := NameRequired];
    }
    if form.dueDay.Some? && (form.dueDay.value < 1 || form.dueDay.value > 31) {
      errors := errors["due_day" := DueDayOutOfRange];
    }
    if form.dueDay.Some? && form.recurrenceType == "" {
      errors := errors["recurrence_type" := RecurrenceRequired];
    }
    valid := |errors.Keys| == 0;
    assert valid <==> errors == map[] by {
      if |errors.Keys| == 0 {
        assert errors.Keys == {};
      } else {
        assert errors != map[];
      }
    }
  }

  function NotEqualTo(id: string): string -> bool
  {
    x => x != id
  }

  /** `handleTagToggle(tagId)`: a selected tag is removed (every occurrence), an
      unselected one is appended at the end. Removing keeps every other id as many
      times as it occurred, in order. */
  function ToggleTag(tags: seq<string>, id: string): (r: seq<string>)
    ensures id in tags ==> id !in r && IsSubseq(r, tags)
    ensures id in tags ==> forall x :: x in r <==> x in tags && x != id
    ensures id in tags ==> multiset(r) == multiset(tags)[id := 0]
    ensures id !in tags ==> r == tags + [id]
  {
    if id in tags then
      FilterIsSubseq(tags, NotEqualTo(id));
      forall x ensures multiset(Filter(tags, NotEqualTo(id)))[x] == multiset(tags)[id := 0][x] {
        FilterMultiplicity(tags, NotEqualTo(id), x);
      }
      Filter(tags, NotEqualTo(id))
    else tags + [id]
  }

  /** Toggling an unselected tag twice gives back exactly the original list. */
  lemma ToggleTagTwice(tags: seq<string>, id: string)
    requires id !in tags
    ensures ToggleTag(ToggleTag(tags, id), id) == tags
  {
    FilterConcat(tags, [id], NotEqualTo(id));
    FilterKeepsAll(tags, NotEqualTo(id));
    assert Filter([id], NotEqualTo(id)) == [];
  }
}
