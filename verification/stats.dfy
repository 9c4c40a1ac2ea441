/** The statistics record computed from the `bills` and `payments` tables:
    counts, the average, minimum, maximum and sum of all amounts (each 0 when
    there is no payment), and the totals of this and last calendar year, where a
    payment belongs to year Y when its date text starts with "Y-". */
module Stats {
  import opened Options
  import opened Strings
  import opened Seqs
  import opened Records

  /** `SUM(amount)` over the given payments (0 for none). */
  function Sum(ps: seq<PaymentRow>): real
  {
    if ps == [] then 0.0 else ps[0].amount + Sum(ps[1..])
  }

  /** `MIN(amount)` over a non-empty list of payments. */
  function MinAmount(ps: seq<PaymentRow>): (r: real)
    requires ps != []
    ensures forall i :: 0 <= i < |ps| ==> r <= ps[i].amount
    ensures exists i :: 0 <= i < |ps| && r == ps[i].amount
  {
    if |ps| == 1 then ps[0].amount
    else
      var rest := MinAmount(ps[1..]);
      assert forall i :: 1 <= i < |ps| ==> ps[i] == ps[1..][i - 1];
      if ps[0].amount <= rest then ps[0].amount else rest
  }

  /** `MAX(amount)` over a non-empty list of payments. */
  function MaxAmount(ps: seq<PaymentRow>): (r: real)
    requires ps != []
    ensures forall i :: 0 <= i < |ps| ==> ps[i].amount <= r
    ensures exists i :: 0 <= i < |ps| && r == ps[i].amount
  {
    if |ps| == 1 then ps[0].amount
    else
      var rest := MaxAmount(ps[1..]);
      assert forall i :: 1 <= i < |ps| ==> ps[i] == ps[1..][i - 1];
      if ps[0].amount >= rest then ps[0].amount else rest
  }

  /** `n` copies of `x` added up. */
  function Times(n: nat, x: real): real
  {
    if n == 0 then 0.0 else x + Times(n - 1, x)
  }

  lemma {:induction false} TimesIsProduct(n: nat, x: real)
    ensures Times(n, x) == n as real * x
  {
    if n > 0 {
      TimesIsProduct(n - 1, x);
      assert n as real * x == (n - 1) as real * x + x;
    }
  }

  lemma {:induction false} TimesMonotone(n: nat, a: real, b: real)
    requires a <= b
    ensures Times(n, a) <= Times(n, b)
  {
    if n > 0 {
      TimesMonotone(n - 1, a, b);
    }
  }

  /** The sum lies between count times the minimum and count times the maximum. */
  lemma {:induction false} SumBetweenExtremes(ps: seq<PaymentRow>)
    requires ps != []
    ensures Times(|ps|, MinAmount(ps)) <= Sum(ps) <= Times(|ps|, MaxAmount(ps))
  {
    if |ps| > 1 {
      var rest := ps[1..];
      SumBetweenExtremes(rest);
      assert MinAmount(ps) <= MinAmount(rest) by {
        var i :| 0 <= i < |rest| && MinAmount(rest) == rest[i].amount;
        assert rest[i] == ps[i + 1];
      }
      assert MaxAmount(rest) <= MaxAmount(ps) by {
        var i :| 0 <= i < |rest| && MaxAmount(rest) == rest[i].amount;
        assert rest[i] == ps[i + 1];
      }
      TimesMonotone(|rest|, MinAmount(ps), MinAmount(rest));
      TimesMonotone(|rest|, MaxAmount(rest), MaxAmount(ps));
    }
  }

  /** `AVG(amount)`: the total shared out over `n` payments. It lies between the
      extremes whenever `n` times them bound the total, and `n` times it is the total. */
  function Average(total: real, n: nat, lo: real, hi: real): (avg: real)
    requires n > 0 && Times(n, lo) <= total <= Times(n, hi)
    ensures lo <= avg <= hi
    ensures Times(n, avg) == total
  {
    var c := n as real;
    assert c >= 1.0;
    var avg := total / c;
    TimesIsProduct(n, lo);
    TimesIsProduct(n, hi);
    TimesIsProduct(n, avg);
    assert c * avg == total;
    assert c * lo == Times(n, lo) <= total;
    assert total <= Times(n, hi) == c * hi;
    CancelFactor(c, lo, avg);
    CancelFactor(c, avg, hi);
    avg
  }

  /** Dividing both sides of `c * a <= c * b` by a positive `c`. */
  lemma CancelFactor(c: real, a: real, b: real)
    requires c > 0.0 && c * a <= c * b
    ensures a <= b
  {
    assert c * (b - a) == c * b - c * a;
  }

  predicate IsActive(b: BillRow)
  {
    !b.isArchived
  }

  function ActiveFilter(): BillRow -> bool
  {
    b => IsActive(b)
  }

  /** The `LIKE 'Y-%'` pattern's fixed part: the year's decimal text and a dash. */
  function YearPrefix(y: int): string
  {
    IntToString(y) + "-"
  }

  predicate InYear(p: PaymentRow, y: int)
  {
    YearPrefix(y) <= p.paymentDate
  }

  function InYearFilter(y: int): PaymentRow -> bool
  {
    p => InYear(p, y)
  }

  function NeitherYearFilter(y: int): PaymentRow -> bool
  {
    p => !InYear(p, y) && !InYear(p, y - 1)
  }

  /** `COALESCE(SUM(amount), 0) ... WHERE payment_date LIKE 'Y-%'`. */
  function YearTotal(ps: seq<PaymentRow>, y: int): real
  {
    Sum(Filter(ps, InYearFilter(y)))
  }

  /** `getStatistics()` over the two tables, with `currentYear` the clock's year. */
  function Aggregate(bills: seq<BillRow>, payments: seq<PaymentRow>, currentYear: int): (s: Statistics)
    ensures s.totalPayments == |payments|
    ensures s.totalBills == |Filter(bills, ActiveFilter())| <= |bills|
    ensures s.totalPaid == Sum(payments)
    ensures payments != [] ==> s.lowestPayment == MinAmount(payments) && s.highestPayment == MaxAmount(payments)
    ensures s.thisYearTotal == YearTotal(payments, currentYear)
    ensures s.lastYearTotal == YearTotal(payments, currentYear - 1)
    ensures forall b :: b in bills && !b.isArchived ==> s.totalBills > 0
    ensures payments == [] ==>
      s.averagePayment == 0.0 && s.lowestPayment == 0.0 && s.highestPayment == 0.0 && s.totalPaid == 0.0
    ensures payments != [] ==> Times(|payments|, s.averagePayment) == s.totalPaid
    ensures payments != [] ==> s.lowestPayment <= s.averagePayment <= s.highestPayment
    ensures forall i :: 0 <= i < |payments| ==>
      s.lowestPayment <= payments[i].amount <= s.highestPayment
  {
    var active := Filter(bills, ActiveFilter());
    assert forall b :: b in bills && !b.isArchived ==> b in active;
    var n := |payments|;
    var total := Sum(payments);
    if n == 0 then
      Statistics(|active|, 0, 0.0, 0.0, 0.0, 0.0,
                 YearTotal(payments, currentYear), YearTotal(payments, currentYear - 1))
    else
      var lo, hi := MinAmount(payments), MaxAmount(payments);
      SumBetweenExtremes(payments);
      Statistics(|active|, n, Average(total, n, lo, hi), lo, hi, total,
                 YearTotal(payments, currentYear), YearTotal(payments, currentYear - 1))
  }

  /** The year a date text starts with: its leading digits, when a dash follows them. */
  function YearOf(s: string): Option<nat>
  {
    var k := LeadingDigits(s);
    if 0 < k < |s| && s[k] == '-' then Some(DigitsValue(s[..k])) else None
  }

  lemma {:induction false} LeadingDigitsOfPrefix(digits: string, rest: string)
    requires forall i :: 0 <= i < |digits| ==> IsDigit(digits[i])
    ensures LeadingDigits(digits + "-" + rest) == |digits|
  {
    if digits != [] {
      assert (digits + "-" + rest)[1..] == digits[1..] + "-" + rest;
      LeadingDigitsOfPrefix(digits[1..], rest);
    }
  }

  /** A payment counted in a non-negative year `y` has a date text whose year is `y`. */
  lemma InYearHasYear(p: PaymentRow, y: int)
    requires y >= 0 && InYear(p, y)
    ensures YearOf(p.paymentDate) == Some(y)
  {
    var digits := NatToString(y);
    var s := p.paymentDate;
    var rest := s[|digits| + 1..];
    assert s == digits + "-" + rest;
    LeadingDigitsOfPrefix(digits, rest);
    assert s[..|digits|] == digits;
    NatToStringRoundTrip(y);
  }

  /** No payment is counted both in this year's and in last year's total. */
  lemma YearsExclusive(p: PaymentRow, y: int)
    requires y >= 1
    ensures !(InYear(p, y) && InYear(p, y - 1))
  {
    if InYear(p, y) {
      InYearHasYear(p, y);
    }
    if InYear(p, y - 1) {
      InYearHasYear(p, y - 1);
    }
  }

  /** The sum of all amounts splits into this year's total, last year's total and
      the total of the payments in neither year. */
  lemma {:induction false} YearTotalsSplitSum(ps: seq<PaymentRow>, y: int)
    requires y >= 1
    ensures Sum(ps) == YearTotal(ps, y) + YearTotal(ps, y - 1) + Sum(Filter(ps, NeitherYearFilter(y)))
  {
    if ps != [] {
      YearTotalsSplitSum(ps[1..], y);
      YearsExclusive(ps[0], y);
    }
  }

  /** The statistics' total is this year's total plus last year's plus the amounts
      of the payments dated in neither year. */
  lemma AggregateTotalsSplit(bills: seq<BillRow>, payments: seq<PaymentRow>, currentYear: int)
    requires currentYear >= 1
    ensures var s := Aggregate(bills, payments, currentYear);
      s.totalPaid == s.thisYearTotal + s.lastYearTotal + Sum(Filter(payments, NeitherYearFilter(currentYear)))
  {
    YearTotalsSplitSum(payments, currentYear);
  }

  /** Worked case: amounts 10, 20 and 30 give average 20, lowest 10, highest 30, total 60. */
  lemma AggregateExample(bills: seq<BillRow>, p1: PaymentRow, p2: PaymentRow, p3: PaymentRow, y: int)
    requires p1.amount == 10.0 && p2.amount == 20.0 && p3.amount == 30.0
    ensures var s := Aggregate(bills, [p1, p2, p3], y);
      s.averagePayment == 20.0 && s.lowestPayment == 10.0 && s.highestPayment == 30.0
      && s.totalPaid == 60.0 && s.totalPayments == 3
  {
    var ps := [p1, p2, p3];
    assert ps[1..] == [p2, p3] && [p2, p3][1..] == [p3] && [p3][1..] == [];
    assert Sum([p3]) == 30.0;
    assert Sum([p2, p3]) == 20.0 + Sum([p3]);
    assert Sum(ps) == 10.0 + Sum([p2, p3]);
    assert MinAmount([p3]) == 30.0 && MinAmount([p2, p3]) == 20.0;
    assert MaxAmount([p3]) == 30.0 && MaxAmount([p2, p3]) == 30.0;
    var avg := Aggregate(bills, ps, y).averagePayment;
    TimesIsProduct(3, avg);
  }
}
