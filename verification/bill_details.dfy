/** The figures and labels of the bill details screen: the bill's payments taken
    from the loaded list, their total and average, the latest one, the ordinal
    suffix of the due day and the recurrence wording. */
module BillDetails {
  import opened Options
  import opened Strings
  import opened Seqs
  import opened Sorting
  import opened Records
  import opened Stats

  /** `payments.filter(payment => payment.bill_id === bill?.id)`; with no bill the
      id is `undefined`, which no payment's bill id equals. */
  function BillPayments(payments: seq<PaymentRow>, billId: Option<string>): (r: seq<PaymentRow>)
    ensures forall p :: p in r <==> p in payments && billId == Some(p.billId)
    ensures IsSubseq(r, payments)
  {
    if billId.None? then
      assert IsSubseq([], payments);
      []
    else
      var keep := (p: PaymentRow) => p.billId == billId.value;
      var r := Filter(payments, keep);
      FilterIsSubseq(payments, keep);
      assert forall p :: p in r ==> p in payments && keep(p) by {
        forall p | p in r ensures p in payments && keep(p) {
          var i :| 0 <= i < |r| && r[i] == p;
        }
      }
      r
  }

  /** `reduce((sum, payment) => sum + payment.amount, acc)`: amounts added from the left. */
  function FoldAmounts(acc: real, ps: seq<PaymentRow>): real
    decreases ps
  {
    if ps == [] then acc else FoldAmounts(acc + ps[0].amount, ps[1..])
  }

  lemma {:induction false} FoldAmountsIsSum(acc: real, ps: seq<PaymentRow>)
    ensures FoldAmounts(acc, ps) == acc + Sum(ps)
    decreases ps
  {
    if ps != [] {
      FoldAmountsIsSum(acc + ps[0].amount, ps[1..]);
    }
  }

  /** `getTotalPaid()`: the sum of the amounts, 0 for no payment. */
  function TotalPaid(ps: seq<PaymentRow>): (total: real)
    ensures total == Sum(ps)
  {
    FoldAmountsIsSum(0.0, ps);
    FoldAmounts(0.0, ps)
  }

  /** `getAveragePayment()`: the total over the count, 0 for no payment. It lies
      between the smallest and the largest amount. */
  function AveragePayment(ps: seq<PaymentRow>): (avg: real)
    ensures ps == [] ==> avg == 0.0
    ensures ps != [] ==> Times(|ps|, avg) == TotalPaid(ps)
    ensures ps != [] ==> MinAmount(ps) <= avg <= MaxAmount(ps)
  {
    if |ps| > 0 then
      var avg := TotalPaid(ps) / (|ps| as real);
      SumBetweenExtremes(ps);
      assert avg == Average(Sum(ps), |ps|, MinAmount(ps), MaxAmount(ps));
      avg
    else 0.0
  }

  /** The screen's average over a list of payments is the store's `AVG(amount)`
      over the same payments. */
  lemma AverageAgreesWithStatistics(bills: seq<BillRow>, ps: seq<PaymentRow>, year: int)
    ensures AveragePayment(ps) == Aggregate(bills, ps, year).averagePayment
  {
    if ps != [] {
      var a, b := AveragePayment(ps), Aggregate(bills, ps, year).averagePayment;
      TimesIsProduct(|ps|, a);
      TimesIsProduct(|ps|, b);
      var c := |ps| as real;
      CancelFactor(c, a, b);
      CancelFactor(c, b, a);
    }
  }

  /** `getLastPayment()`: the first payment of the list, or nothing. */
  function LastPayment(ps: seq<PaymentRow>): Option<PaymentRow>
  {
    if |ps| > 0 then Some(ps[0]) else None
  }

  /** The first element a filter keeps from a list in descending key order has the
      largest key among the kept elements. */
  lemma {:induction false} FirstKeptIsLargest<T>(s: seq<T>, keep: T -> bool, key: T -> string)
    requires SortedBy(s, key, true)
    ensures var r := Filter(s, keep);
      r != [] ==> forall x :: x in r ==> InOrder(key(r[0]), key(x), true)
  {
    if s != [] {
      var r := Filter(s, keep);
      if keep(s[0]) {
        forall x | x in r ensures InOrder(key(r[0]), key(x), true) {
          var j :| 0 <= j < |s| && s[j] == x;
          if j == 0 {
            StrLeTotal(key(x), key(x));
          }
        }
      } else {
        FirstKeptIsLargest(s[1..], keep, key);
      }
    }
  }

  /** Over payments loaded latest date first, the last payment of a bill has the
      latest date of all that bill's payments. */
  lemma LastPaymentIsLatest(payments: seq<PaymentRow>, billId: string)
    requires SortedBy(payments, PaymentDate(), true)
    ensures var bp := BillPayments(payments, Some(billId));
      LastPayment(bp).Some? ==>
        forall p :: p in bp ==> StrLe(p.paymentDate, LastPayment(bp).value.paymentDate)
  {
    FirstKeptIsLargest(payments, (p: PaymentRow) => p.billId == billId, PaymentDate());
  }

  /** JavaScript's `a % b` for a positive `b`: the remainder takes the sign of `a`. */
  function JsRem(a: int, b: int): (r: int)
    requires b > 0
    ensures a >= 0 ==> 0 <= r < b
    ensures a < 0 ==> -b < r <= 0
  {
    if a >= 0 then a % b else -((-a) % b)
  }

  /** JavaScript's `Math.trunc(a / b)` for a positive `b`: the quotient rounded
      toward zero. */
  function JsQuot(a: int, b: int): int
    requires b > 0
  {
    if a >= 0 then a / b else -((-a) / b)
  }

  /** `a % b` is what is left of `a` after taking out the truncated quotient's
      multiple of `b`: `a == trunc(a / b) * b + a % b`. With the sign and range of
      `JsRem`, this fixes the remainder uniquely (`JsRemUnique`). */
  lemma JsDivision(a: int, b: int)
    requires b > 0
    ensures a == JsQuot(a, b) * b + JsRem(a, b)
  {
    if a < 0 {
      var n := -a;
      assert n == (n / b) * b + n % b;
      assert -((n / b)) * b == -((n / b) * b);
    }
  }

  /** A multiple of a positive `b` strictly between `-b` and `b` is zero. */
  lemma SmallMultiple(k: int, b: int)
    requires b > 0 && -b < k * b < b
    ensures k == 0
  {
  }

  /** Any `q` and `r` with `a == q * b + r` and `r` of `a`'s sign and smaller than
      `b` in size are the truncated quotient and `JsRem`. */
  lemma JsRemUnique(a: int, b: int, q: int, r: int)
    requires b > 0 && a == q * b + r
    requires a >= 0 ==> 0 <= r < b
    requires a < 0 ==> -b < r <= 0
    ensures r == JsRem(a, b) && q == JsQuot(a, b)
  {
    JsDivision(a, b);
    var q', r' := JsQuot(a, b), JsRem(a, b);
    assert (q - q') * b == q * b - q' * b;
    assert (q - q') * b == r' - r;
    SmallMultiple(q - q', b);
  }

  /** `getDaySuffix(day)`. */
  function DaySuffix(day: int): string
  {
    if day > 3 && day < 21 then "th"
    else
      match JsRem(day, 10)
      case 1 => "st"
      case 2 => "nd"
      case 3 => "rd"
      case _ => "th"
  }

  /** For the due days 1 to 31: 1, 21 and 31 take "st", 2 and 22 "nd", 3 and 23
      "rd", every other day "th". */
  lemma DaySuffixOfDueDays(day: int)
    requires 1 <= day <= 31
    ensures DaySuffix(day) == (if day == 1 || day == 21 || day == 31 then "st"
                               else if day == 2 || day == 22 then "nd"
                               else if day == 3 || day == 23 then "rd"
                               else "th")
  {
    assert JsRem(day, 10) == day % 10;
    if 21 <= day <= 29 {
      assert day % 10 == day - 20;
    }
  }

  /** A day of 0 or less takes "th": its remainder is never positive. */
  lemma DaySuffixNotPositive(day: int)
    requires day <= 0
    ensures DaySuffix(day) == "th"
  {
  }

  /** `toUpperCase()` of one character, for the ASCII letters. */
  function UpperChar(c: char): char
  {
    if 'a' <= c <= 'z' then (c as int - 'a' as int + 'A' as int) as char else c
  }

  /** The subtitle: the recurrence with its first letter capitalised and " bill"
      after it, or "One-time bill". */
  function RecurrenceLabel(recurrence: Option<string>): (text: string)
    ensures !Truthy(recurrence) ==> text == "One-time bill"
    ensures Truthy(recurrence) ==>
      var rt := recurrence.value;
      && |text| == |rt| + 5
      && text[1..|rt|] == rt[1..]
      && text[0] == UpperChar(rt[0])
      && text[|rt|..] == " bill"
  {
    if Truthy(recurrence) then
      var rt := recurrence.value;
      var text := [UpperChar(rt[0])] + rt[1..] + " bill";
      assert text[|rt|..] == " bill";
      assert text[|rt| + 1] == 'b';
      text
    else "One-time bill"
  }

  /** The labels of the three recurrence types. */
  lemma RecurrenceLabelMonthly()
    ensures RecurrenceLabel(Some("monthly")) == "Monthly bill"
  {
  }

  lemma RecurrenceLabelQuarterly()
    ensures RecurrenceLabel(Some("quarterly")) == "Quarterly bill"
  {
  }

  lemma RecurrenceLabelYearly()
    ensures RecurrenceLabel(Some("yearly")) == "Yearly bill"
  {
  }

  /** An "ly" starts at index `j` of `s`. */
  predicate LyAt(s: string, j: int)
  {
    0 <= j && j + 1 < |s| && s[j] == 'l' && s[j + 1] == 'y'
  }

  /** The index of the first "ly" in `s`. */
  function FirstLy(s: string): (r: Option<nat>)
    ensures r.Some? ==> LyAt(s, r.value) && forall j :: 0 <= j < r.value ==> !LyAt(s, j)
    ensures r.None? ==> forall j :: !LyAt(s, j)
  {
    if LyAt(s, 0) then Some(0)
    else if |s| < 2 then None
    else
      var rest := FirstLy(s[1..]);
      assert forall j :: 1 <= j ==> (LyAt(s, j) <==> LyAt(s[1..], j - 1));
      if rest.Some? then Some(rest.value + 1) else None
  }

  /** `s.replace('ly', '')`: the first "ly" is removed. */
  function RemoveFirstLy(s: string): string
  {
    match FirstLy(s)
    case None => s
    case Some(i) => s[..i] + s[i + 2..]
  }

  /** `bill.recurrence_type?.replace('ly', '') || 'month'`. */
  function PeriodWord(recurrence: Option<string>): string
  {
    if recurrence.None? then "month"
    else
      var w := RemoveFirstLy(recurrence.value);
      if w == "" then "month" else w
  }

  /** A non-empty stem with no "ly" in it, followed by "ly", gives back the stem. */
  lemma PeriodWordOfStem(stem: string)
    requires stem != [] && FirstLy(stem).None?
    ensures PeriodWord(Some(stem + "ly")) == stem
  {
    var s := stem + "ly";
    assert LyAt(s, |stem|);
    forall j | 0 <= j < |stem| ensures !LyAt(s, j) {
      if j + 1 < |stem| {
        assert !LyAt(stem, j);
      } else {
        assert s[j + 1] == 'l';
      }
    }
    var i := FirstLy(s).value;
    assert i == |stem|;
    assert s[..i] == stem;
    assert s[i + 2..] == [];
  }

  /** A text without the letter 'l' has no "ly" in it. */
  lemma NoLy(s: string)
    requires 'l' !in s
    ensures FirstLy(s).None?
  {
    forall j ensures !LyAt(s, j) {
      if 0 <= j < |s| {
        assert s[j] in s;
      }
    }
  }

  /** The three recurrence types read "month", "quarter" and "year". */
  lemma PeriodWordMonthly()
    ensures PeriodWord(Some("monthly")) == "month"
  {
    NoLy("month");
    assert "month" + "ly" == "monthly";
    PeriodWordOfStem("month");
  }

  lemma PeriodWordQuarterly()
    ensures PeriodWord(Some("quarterly")) == "quarter"
  {
    NoLy("quarter");
    assert "quarter" + "ly" == "quarterly";
    PeriodWordOfStem("quarter");
  }

  lemma PeriodWordYearly()
    ensures PeriodWord(Some("yearly")) == "year"
  {
    NoLy("year");
    assert "year" + "ly" == "yearly";
    PeriodWordOfStem("year");
  }
}
