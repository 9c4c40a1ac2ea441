/** The text `exportToCSV` builds: a header line, one `Bill` line per bill in the
    order given, then one `Payment` line per payment in the order given. Every text
    field is put between double quotes as it is, without doubling the quotes it
    contains; the amount is written by `amountText` (JavaScript's number-to-string
    conversion, kept abstract). */
module CsvExport {
  import opened Options
  import opened Strings
  import opened Records

  const HeaderFields: string := "Type,Bill Name,Amount,Date,Notes,Tags"
  const Header: string := HeaderFields + "\n"

  /** `tags.map(t => t.name)`. */
  function TagNames(tags: seq<TagRow>): (r: seq<string>)
    ensures |r| == |tags|
    ensures forall i :: 0 <= i < |tags| ==> r[i] == tags[i].name
  {
    if tags == [] then [] else [tags[0].name] + TagNames(tags[1..])
  }

  /** The double quote that wraps the text fields. */
  const Quote: string := "\""

  /** The `Bill` line of one bill: `Bill,"name",,"created","notes","tag;tag"` and a
      line break, each text field wrapped in double quotes as it is. */
  function BillLine(b: BillView): string
  {
    "Bill," + Quote + b.row.name + Quote + ",," + Quote + b.row.createdAt + Quote + "," + Quote
      + OrEmpty(b.row.notes) + Quote + "," + Quote + Join(TagNames(b.tags), ";") + Quote + "\n"
  }

  /** `bills.find(b => b.id === billId)`, reduced to the name, or "Unknown". */
  function BillNameFor(bills: seq<BillView>, billId: string): (name: string)
    ensures (forall i :: 0 <= i < |bills| ==> bills[i].row.id != billId) ==> name == "Unknown"
    ensures forall i :: (0 <= i < |bills| && bills[i].row.id == billId
                         && forall j :: 0 <= j < i ==> bills[j].row.id != billId)
                        ==> name == bills[i].row.name
  {
    if bills == [] then "Unknown"
    else if bills[0].row.id == billId then bills[0].row.name
    else
      var name := BillNameFor(bills[1..], billId);
      assert forall i :: 1 <= i < |bills| ==> bills[i] == bills[1..][i - 1];
      name
  }

  /** The `Payment` line of one payment; its tags field is empty. */
  function PaymentLine(bills: seq<BillView>, p: PaymentRow, amountText: real -> string): string
  {
    "Payment,\"" + BillNameFor(bills, p.billId) + "\"," + amountText(p.amount) + ",\""
      + p.paymentDate + "\",\"" + OrEmpty(p.notes) + "\",\n"
  }

  function BillLines(bills: seq<BillView>): string
  {
    if bills == [] then "" else BillLine(bills[0]) + BillLines(bills[1..])
  }

  function PaymentLines(bills: seq<BillView>, ps: seq<PaymentRow>, amountText: real -> string): string
  {
    if ps == [] then "" else PaymentLine(bills, ps[0], amountText) + PaymentLines(bills, ps[1..], amountText)
  }

  lemma {:induction false} BillLinesAppend(a: seq<BillView>, b: seq<BillView>)
    ensures BillLines(a + b) == BillLines(a) + BillLines(b)
  {
    if a == [] {
      assert a + b == b;
    } else {
      assert (a + b)[1..] == a[1..] + b;
      BillLinesAppend(a[1..], b);
    }
  }

  lemma {:induction false} PaymentLinesAppend(bills: seq<BillView>, a: seq<PaymentRow>, b: seq<PaymentRow>,
                                              amountText: real -> string)
    ensures PaymentLines(bills, a + b, amountText) == PaymentLines(bills, a, amountText) + PaymentLines(bills, b, amountText)
  {
    if a == [] {
      assert a + b == b;
    } else {
      assert (a + b)[1..] == a[1..] + b;
      PaymentLinesAppend(bills, a[1..], b, amountText);
    }
  }

  /** Writing the lines one bill at a time appends each bill's line. */
  lemma BillLinesTake(bills: seq<BillView>, i: nat)
    requires i < |bills|
    ensures BillLines(bills[..i + 1]) == BillLines(bills[..i]) + BillLine(bills[i])
  {
    assert bills[..i + 1] == bills[..i] + [bills[i]];
    BillLinesAppend(bills[..i], [bills[i]]);
  }

  /** Writing the lines one payment at a time appends each payment's line. */
  lemma PaymentLinesTake(bills: seq<BillView>, ps: seq<PaymentRow>, j: nat, amountText: real -> string)
    requires j < |ps|
    ensures PaymentLines(bills, ps[..j + 1], amountText)
      == PaymentLines(bills, ps[..j], amountText) + PaymentLine(bills, ps[j], amountText)
  {
    assert ps[..j + 1] == ps[..j] + [ps[j]];
    PaymentLinesAppend(bills, ps[..j], [ps[j]], amountText);
  }

  /** The whole export. */
  function ExportText(bills: seq<BillView>, ps: seq<PaymentRow>, amountText: real -> string): string
  {
    Header + BillLines(bills) + PaymentLines(bills, ps, amountText)
  }

  /** Occurrences of `c` in `s`. */
  function Count(s: string, c: char): nat
  {
    if s == [] then 0 else (if s[0] == c then 1 else 0) + Count(s[1..], c)
  }

  lemma {:induction false} CountConcat(a: string, b: string, c: char)
    ensures Count(a + b, c) == Count(a, c) + Count(b, c)
  {
    if a != [] {
      assert (a + b)[1..] == a[1..] + b;
      CountConcat(a[1..], b, c);
    } else {
      assert a + b == b;
    }
  }

  lemma {:induction false} CountAbsent(s: string, c: char)
    requires c !in s
    ensures Count(s, c) == 0
  {
    if s != [] {
      CountAbsent(s[1..], c);
    }
  }

  lemma {:induction false} JoinAvoids(parts: seq<string>, sep: string, c: char)
    requires c !in sep
    requires forall i :: 0 <= i < |parts| ==> c !in parts[i]
    ensures c !in Join(parts, sep)
  {
    if |parts| > 1 {
      JoinAvoids(parts[1..], sep, c);
    }
  }

  /** None of a bill's text fields contains the character `c`. */
  predicate BillAvoids(b: BillView, c: char)
  {
    c !in b.row.name && c !in b.row.createdAt && c !in OrEmpty(b.row.notes)
    && forall i :: 0 <= i < |b.tags| ==> c !in b.tags[i].name
  }

  /** None of a payment line's fields contains the character `c`. */
  predicate PaymentAvoids(bills: seq<BillView>, p: PaymentRow, amountText: real -> string, c: char)
  {
    c !in BillNameFor(bills, p.billId) && c !in amountText(p.amount)
    && c !in p.paymentDate && c !in OrEmpty(p.notes)
  }

  lemma BillLineHasOneNewline(b: BillView)
    requires BillAvoids(b, '\n')
    ensures Count(BillLine(b), '\n') == 1
  {
    var tagText := Join(TagNames(b.tags), ";");
    JoinAvoids(TagNames(b.tags), ";", '\n');
    var body := "Bill," + Quote + b.row.name + Quote + ",," + Quote + b.row.createdAt + Quote + "," + Quote
      + OrEmpty(b.row.notes) + Quote + "," + Quote + tagText + Quote;
    assert BillLine(b) == body + "\n";
    CountLine(body, '\n');
  }

  lemma PaymentLineHasOneNewline(bills: seq<BillView>, p: PaymentRow, amountText: real -> string)
    requires PaymentAvoids(bills, p, amountText, '\n')
    ensures Count(PaymentLine(bills, p, amountText), '\n') == 1
  {
    var body := "Payment,\"" + BillNameFor(bills, p.billId) + "\"," + amountText(p.amount) + ",\""
      + p.paymentDate + "\",\"" + OrEmpty(p.notes) + "\",";
    assert PaymentLine(bills, p, amountText) == body + "\n";
    CountLine(body, '\n');
  }

  lemma {:induction false} BillLinesCount(bills: seq<BillView>)
    requires forall i :: 0 <= i < |bills| ==> BillAvoids(bills[i], '\n')
    ensures Count(BillLines(bills), '\n') == |bills|
  {
    if bills != [] {
      BillLineHasOneNewline(bills[0]);
      BillLinesCount(bills[1..]);
      CountConcat(BillLine(bills[0]), BillLines(bills[1..]), '\n');
    }
  }

  lemma {:induction false} PaymentLinesCount(bills: seq<BillView>, ps: seq<PaymentRow>, amountText: real -> string)
    requires forall i :: 0 <= i < |ps| ==> PaymentAvoids(bills, ps[i], amountText, '\n')
    ensures Count(PaymentLines(bills, ps, amountText), '\n') == |ps|
  {
    if ps != [] {
      PaymentLineHasOneNewline(bills, ps[0], amountText);
      PaymentLinesCount(bills, ps[1..], amountText);
      CountConcat(PaymentLine(bills, ps[0], amountText), PaymentLines(bills, ps[1..], amountText), '\n');
    }
  }

  /** A text without `c` followed by one `c` holds exactly one `c`. */
  lemma CountLine(s: string, c: char)
    requires c !in s
    ensures Count(s + [c], c) == 1
  {
    CountAbsent(s, c);
    CountConcat(s, [c], c);
  }

  lemma HeaderCount()
    ensures Count(Header, '\n') == 1
  {
    CountLine(HeaderFields, '\n');
  }

  /** When no field holds a line break, the export has exactly 1 + |bills| + |payments|
      line breaks: the header, one per bill and one per payment. */
  lemma ExportLineCount(bills: seq<BillView>, ps: seq<PaymentRow>, amountText: real -> string)
    requires forall i :: 0 <= i < |bills| ==> BillAvoids(bills[i], '\n')
    requires forall i :: 0 <= i < |ps| ==> PaymentAvoids(bills, ps[i], amountText, '\n')
    ensures Count(ExportText(bills, ps, amountText), '\n') == 1 + |bills| + |ps|
  {
    BillLinesCount(bills);
    PaymentLinesCount(bills, ps, amountText);
    HeaderCount();
    CountConcat(Header, BillLines(bills), '\n');
    CountConcat(Header + BillLines(bills), PaymentLines(bills, ps, amountText), '\n');
  }

  /** When no field holds a double quote and no tag name a semicolon, a `Bill` line
      splits at its quotes into its fields, and the tags field splits at `;` back
      into the tag names. A bill without tags writes an empty tags field, which
      splits into one empty name rather than none. */
  lemma BillLineDecodes(b: BillView)
    requires BillAvoids(b, '"')
    requires forall i :: 0 <= i < |b.tags| ==> ';' !in b.tags[i].name
    ensures var tagText := Join(TagNames(b.tags), ";");
      Split(BillLine(b), '"')
        == ["Bill,", b.row.name, ",,", b.row.createdAt, ",", OrEmpty(b.row.notes), ",", tagText, "\n"]
      && (b.tags != [] ==> Split(tagText, ';') == TagNames(b.tags))
      && (b.tags == [] ==> tagText == "" && Split(tagText, ';') == [""])
  {
    var names := TagNames(b.tags);
    var tagText := Join(names, ";");
    JoinAvoids(names, ";", '"');
    if names != [] {
      SplitJoin(names, ';');
    }
    var name, created, notes := b.row.name, b.row.createdAt, OrEmpty(b.row.notes);
    var fields := ["Bill,", name, ",,", created, ",", notes, ",", tagText, "\n"];
    BillLineIsJoin(b);
    SplitJoin(fields, '"');
  }

  /** A `Bill` line is its nine pieces joined by double quotes. */
  lemma BillLineIsJoin(b: BillView)
    ensures BillLine(b) == Join(["Bill,", b.row.name, ",,", b.row.createdAt, ",", OrEmpty(b.row.notes),
                                 ",", Join(TagNames(b.tags), ";"), "\n"], "\"")
  {
    var q := "\"";
    var f := ["Bill,", b.row.name, ",,", b.row.createdAt, ",", OrEmpty(b.row.notes),
              ",", Join(TagNames(b.tags), ";"), "\n"];
    assert Join(f[8..], q) == f[8];
    assert Join(f[7..], q) == f[7] + q + Join(f[8..], q);
    assert Join(f[6..], q) == f[6] + q + Join(f[7..], q);
    assert Join(f[5..], q) == f[5] + q + Join(f[6..], q);
    assert Join(f[4..], q) == f[4] + q + Join(f[5..], q);
    assert Join(f[3..], q) == f[3] + q + Join(f[4..], q);
    assert Join(f[2..], q) == f[2] + q + Join(f[3..], q);
    assert Join(f[1..], q) == f[1] + q + Join(f[2..], q);
    assert Join(f, q) == f[0] + q + Join(f[1..], q);
    JoinNine(f[0], f[1], f[2], f[3], f[4], f[5], f[6], f[7], f[8], q);
  }

  /** Nine pieces joined by a separator, written out. */
  lemma JoinNine(a0: string, a1: string, a2: string, a3: string, a4: string, a5: string,
                 a6: string, a7: string, a8: string, q: string)
    ensures a0 + q + (a1 + q + (a2 + q + (a3 + q + (a4 + q + (a5 + q + (a6 + q + (a7 + q + a8)))))))
      == a0 + q + a1 + q + a2 + q + a3 + q + a4 + q + a5 + q + a6 + q + a7 + q + a8
  {
  }

  /** Quotes inside fields are not doubled, so two different bills can export the
      same line: notes `x","y` with tag `z`, and notes `x` with tag `y","z`. */
  lemma BillLineNotInjective(row: BillRow, tag: TagRow)
    ensures var b1 := BillView(row.(notes := Some("x\",\"y")), [tag.(name := "z")]);
      var b2 := BillView(row.(notes := Some("x")), [tag.(name := "y\",\"z")]);
      b1 != b2 && BillLine(b1) == BillLine(b2)
  {
    var b1 := BillView(row.(notes := Some("x\",\"y")), [tag.(name := "z")]);
    var b2 := BillView(row.(notes := Some("x")), [tag.(name := "y\",\"z")]);
    assert TagNames(b1.tags) == ["z"];
    assert TagNames(b2.tags) == ["y\",\"z"];
    assert b1.row.notes != b2.row.notes;
  }
}
