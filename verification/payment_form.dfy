/** The payment form: what the amount field lets through, how the amount text is
    read as a number, the checks run before saving, the date shown when an
    existing payment is edited, and the payment object handed to the store.
    `instantOf` stands for `new Date(text)` (nothing for an invalid date) and
    `amountText` for a number's `toString()`. */
module PaymentForm {
  import opened Options
  import opened Strings
  import opened Seqs
  import opened Records
  import opened Tables

  /** `{ amount, payment_date, notes }`, all text as the inputs hold them. */
  datatype FormData = FormData(amount: string, paymentDate: string, notes: string)

  // ---------------------------------------------------------------- amount field

  predicate AllDigits(s: string)
  {
    forall i :: 0 <= i < |s| ==> IsDigit(s[i])
  }

  /** `/^\d*\.?\d*$/.test(s)`: digits, an optional point, digits. The greedy first
      `\d*` takes every leading digit; what is left is empty or a point followed
      by digits only. */
  predicate MatchesAmountPattern(s: string)
  {
    var k := LeadingDigits(s);
    k == |s| || (s[k] == '.' && AllDigits(s[k + 1..]))
  }

  /** Digits and points only, with at most one point. */
  predicate AmountShaped(s: string)
  {
    && (forall i :: 0 <= i < |s| ==> IsDigit(s[i]) || s[i] == '.')
    && (forall i, j :: 0 <= i < |s| && 0 <= j < |s| && s[i] == '.' && s[j] == '.' ==> i == j)
  }

  /** The pattern accepts exactly the texts of digits with at most one point. */
  lemma AmountPatternIff(s: string)
    ensures MatchesAmountPattern(s) <==> AmountShaped(s)
  {
    var k := LeadingDigits(s);
    if MatchesAmountPattern(s) && k < |s| {
      var tail := s[k + 1..];
      assert forall i :: k < i < |s| ==> s[i] == tail[i - k - 1];
    }
    if AmountShaped(s) && k < |s| {
      assert s[k] == '.';
      var tail := s[k + 1..];
      forall i | 0 <= i < |tail| ensures IsDigit(tail[i]) {
        assert tail[i] == s[k + 1 + i];
      }
    }
  }

  /** `handleAmountChange`: the new text replaces the amount when it is empty or
      matches the pattern; otherwise the form is left as it was. */
  function ChangeAmount(form: FormData, value: string): (r: FormData)
    ensures r.paymentDate == form.paymentDate && r.notes == form.notes
    ensures r.amount == value <==> (value == "" || AmountShaped(value) || form.amount == value)
    ensures r.amount != value ==> r == form
  {
    AmountPatternIff(value);
    if value == "" || MatchesAmountPattern(value) then form.(amount := value) else form
  }

  /** Typing never leaves the amount field holding anything but digits with at
      most one point, once it starts that way (as the empty initial amount does). */
  lemma ChangeAmountKeepsShape(form: FormData, value: string)
    requires AmountShaped(form.amount)
    ensures AmountShaped(ChangeAmount(form, value).amount)
  {
  }

  // ---------------------------------------------------------------- parseFloat

  function Pow10(n: nat): (r: nat)
    ensures r >= 1
  {
    if n == 0 then 1 else 10 * Pow10(n - 1)
  }

  /** `parseFloat(s)` over the longest leading part of the form digits, optional
      point, digits; nothing (NaN) when that part holds no digit. */
  function ParseAmount(s: string): (r: Option<real>)
    ensures r.Some? ==> r.value >= 0.0
  {
    var k := LeadingDigits(s);
    var whole := s[..k];
    var frac := if k < |s| && s[k] == '.' then s[k + 1..k + 1 + LeadingDigits(s[k + 1..])] else "";
    assert AllDigits(frac) by {
      if k < |s| && s[k] == '.' {
        var t := s[k + 1..];
        assert forall i :: 0 <= i < |frac| ==> frac[i] == t[i];
      }
    }
    if whole == "" && frac == "" then None
    else Some(DigitsValue(whole) as real + DigitsValue(frac) as real / Pow10(|frac|) as real)
  }

  /** The amount field's texts read as NaN exactly when they hold no digit: the
      empty text and a lone point. */
  lemma ParseAmountNaN(s: string)
    requires AmountShaped(s)
    ensures ParseAmount(s).None? <==> (s == "" || s == ".")
  {
    var k := LeadingDigits(s);
    if k == 0 && 0 < |s| {
      assert s[0] == '.';
      if |s| > 1 {
        assert s[1] != '.';
        assert LeadingDigits(s[1..]) > 0;
      }
    }
  }

  /** A text of digits only reads as the number they write. */
  lemma ParseDigits(s: string)
    requires s != [] && AllDigits(s)
    ensures ParseAmount(s) == Some(DigitsValue(s) as real)
  {
    AllDigitsLeading(s);
    assert s[..|s|] == s;
  }

  /** A whole number written in decimal reads back as that number. */
  lemma ParseWholeNumber(n: nat)
    ensures ParseAmount(NatToString(n)) == Some(n as real)
  {
    NatToStringRoundTrip(n);
    ParseDigits(NatToString(n));
  }

  lemma {:induction false} AllDigitsLeading(s: string)
    requires AllDigits(s)
    ensures LeadingDigits(s) == |s|
  {
    if s != [] {
      AllDigitsLeading(s[1..]);
    }
  }

  // ---------------------------------------------------------------- validation

  const AmountMessage := "Amount must be greater than 0"
  const DateRequired := "Payment date is required"
  const DateInFuture := "Payment date cannot be in the future"

  /** `!amount || parseFloat(amount) <= 0`: a NaN amount compares false and passes. */
  predicate AmountRejectedAsWritten(amount: string)
  {
    amount == "" || (ParseAmount(amount).Some? && ParseAmount(amount).value <= 0.0)
  }

  /** The amount check that lets through only an amount read as a positive number. */
  predicate AmountRejected(amount: string)
  {
    amount == "" || ParseAmount(amount).None? || ParseAmount(amount).value <= 0.0
  }

  /** `new Date(payment_date) > new Date()`; an invalid date compares false. */
  predicate InFuture(date: string, instantOf: string -> Option<int>, now: int)
  {
    instantOf(date).Some? && instantOf(date).value > now
  }

  /** `validateForm()` as written: the amount check, then the date is required,
      then a date in the future overwrites the date error. */
  method ValidateFormAsWritten(form: FormData, instantOf: string -> Option<int>, now: int)
    returns (errors: map<string, string>, valid: bool)
    ensures "amount" in errors <==> AmountRejectedAsWritten(form.amount)
    ensures "amount" in errors ==> errors["amount"] == AmountMessage
    ensures "payment_date" in errors <==> form.paymentDate == "" || InFuture(form.paymentDate, instantOf, now)
    ensures "payment_date" in errors ==>
      errors["payment_date"] == (if InFuture(form.paymentDate, instantOf, now) then DateInFuture else DateRequired)
    ensures forall key :: key in errors ==> key == "amount" || key == "payment_date"
    ensures valid <==> errors == map[]
  {
    errors := map[];
    var parsed := ParseAmount(form.amount);
    if form.amount == "" || (parsed.Some? && parsed.value <= 0.0) {
      errors := errors["amount" := AmountMessage];
    }
    if form.paymentDate == "" {
      errors := errors["payment_date" := DateRequired];
    }
    var paymentDate := instantOf(form.paymentDate);
    if paymentDate.Some? && paymentDate.value > now {
      errors := errors["payment_date" := DateInFuture];
    }
    valid := |errors| == 0;
    assert valid <==> errors == map[] by {
      if errors != map[] {
        var key :| key in errors;
      }
    }
  }

  /** `validateForm()` with the amount check `!(parseFloat(amount) > 0)`: a valid
      form has an amount read as a positive number and a date. */
  method ValidateForm(form: FormData, instantOf: string -> Option<int>, now: int)
    returns (errors: map<string, string>, valid: bool)
    ensures "amount" in errors <==> AmountRejected(form.amount)
    ensures "amount" in errors ==> errors["amount"] == AmountMessage
    ensures "payment_date" in errors <==> form.paymentDate == "" || InFuture(form.paymentDate, instantOf, now)
    ensures "payment_date" in errors ==>
      errors["payment_date"] == (if InFuture(form.paymentDate, instantOf, now) then DateInFuture else DateRequired)
    ensures forall key :: key in errors ==> key == "amount" || key == "payment_date"
    ensures valid <==> errors == map[]
    ensures valid ==> ParseAmount(form.amount).Some? && ParseAmount(form.amount).value > 0.0
    ensures valid ==> form.paymentDate != "" && !InFuture(form.paymentDate, instantOf, now)
  {
    errors := map[];
    var parsed := ParseAmount(form.amount);
    if form.amount == "" || parsed.None? || parsed.value <= 0.0 {
      errors := errors["amount" := AmountMessage];
    }
    if form.paymentDate == "" {
      errors := errors["payment_date" := DateRequired];
    }
    var paymentDate := instantOf(form.paymentDate);
    if paymentDate.Some? && paymentDate.value > now {
      errors := errors["payment_date" := DateInFuture];
    }
    valid := |errors| == 0;
    assert valid <==> errors == map[] by {
      if errors != map[] {
        var key :| key in errors;
      }
    }
  }

  // ---------------------------------------------------------------- edit and submit

  /** `payment_date.split('T')[0]`. */
  function DatePart(s: string): string
  {
    Split(s, 'T')[0]
  }

  /** The date part is the text before the first 'T': a prefix with no 'T', the
      whole text when there is none, and followed by the 'T' otherwise. */
  lemma {:induction false} DatePartIsPrefix(s: string)
    ensures var d := DatePart(s);
      && d <= s
      && 'T' !in d
      && ('T' !in s ==> d == s)
      && (|d| < |s| ==> s[|d|] == 'T')
  {
    if s != [] && s[0] != 'T' {
      DatePartIsPrefix(s[1..]);
      var d := DatePart(s[1..]);
      assert DatePart(s) == [s[0]] + d;
      assert 'T' !in s ==> 'T' !in s[1..];
    }
  }

  /** An ISO time stamp `date + "T" + time` shows as its date. */
  lemma {:induction false} DatePartOfTimestamp(date: string, time: string)
    requires 'T' !in date
    ensures DatePart(date + "T" + time) == date
  {
    if date != [] {
      assert (date + "T" + time)[1..] == date[1..] + "T" + time;
      DatePartOfTimestamp(date[1..], time);
    } else {
      assert date + "T" + time == ['T'] + time;
    }
  }

  /** The form filled from an existing payment. */
  function EditForm(p: PaymentRow, amountText: real -> string): (form: FormData)
    ensures 'T' !in form.paymentDate && form.paymentDate <= p.paymentDate
  {
    DatePartIsPrefix(p.paymentDate);
    FormData(amountText(p.amount), DatePart(p.paymentDate), OrEmpty(p.notes))
  }

  /** `{ ...formData, amount: parseFloat(formData.amount), bill_id: bill.id }`; a NaN
      amount reaches the store as NULL. */
  function Payload(form: FormData, billId: string): PaymentInput
  {
    PaymentInput(Some(billId), ParseAmount(form.amount), Some(form.paymentDate), Some(form.notes))
  }

  /** A form the corrected check accepts yields a payload that passes every NOT
      NULL column; only the keys can still refuse it. */
  lemma AcceptedPayloadIsComplete(form: FormData, billId: string, id: string,
                                  bills: seq<BillRow>, payments: seq<PaymentRow>)
    requires !AmountRejected(form.amount)
    ensures PaymentInsertError(Payload(form, billId), id, bills, payments)
      == (if HasKey(payments, PaymentKey(), id) then Some(PrimaryKey("payments"))
          else if !HasBill(bills, billId) then Some(ForeignKey)
          else None)
  {
  }

  /** A lone point: the field accepts it, the check as written lets it through, it
      reads as NaN, and the store refuses the payload on the NOT NULL amount. */
  lemma LonePointPassesAsWritten(date: string, notes: string, billId: string, id: string,
                                 bills: seq<BillRow>, payments: seq<PaymentRow>)
    ensures MatchesAmountPattern(".")
    ensures !AmountRejectedAsWritten(".")
    ensures ParseAmount(".").None?
    ensures AmountRejected(".")
    ensures PaymentInsertError(Payload(FormData(".", date, notes), billId), id, bills, payments)
      == Some(NotNull("amount"))
  {
    assert LeadingDigits(".") == 0;
    assert "."[1..] == [];
    assert LeadingDigits("."[1..]) == 0;
  }
}
