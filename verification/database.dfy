/** `DatabaseManager`: the four tables of the local store held as fields and the
    operations the main process exposes over them. Each write is one statement
    (or, for `updateBillTags`, a delete and a run of inserts) whose constraint
    checks are the functions of `Tables`; every method keeps the schema's
    constraints (`Valid`). Ids and time stamps come from `uuidv4()` and the
    clock and are parameters here. */
module Database {
  import opened Options
  import opened Seqs
  import opened Sorting
  import opened Records
  import opened CsvExport
  import opened Tables
  import Stats

  function ViewName(): BillView -> string { (v: BillView) => v.row.name }

  /** The rows `getBills` selects: all of them, or only those not archived. */
  function SelectedBills(bills: seq<BillRow>, includeArchived: bool): (r: seq<BillRow>)
    ensures forall b :: b in r <==> b in bills && (includeArchived || !b.isArchived)
  {
    if includeArchived then bills
    else
      var r := Filter(bills, IsActiveBill());
      assert forall b :: b in r ==> b in bills && !b.isArchived by {
        forall b | b in r ensures b in bills && !b.isArchived {
          var i :| 0 <= i < |r| && r[i] == b;
        }
      }
      r
  }

  /** The rows `getPayments` selects: those of one bill when a bill id is given. */
  function SelectedPayments(payments: seq<PaymentRow>, billId: Option<string>): (r: seq<PaymentRow>)
    ensures forall p :: p in r <==> p in payments && (Truthy(billId) ==> p.billId == billId.value)
  {
    if Truthy(billId) then
      var r := Filter(payments, PaymentOfBill(billId.value));
      assert forall p :: p in r ==> p in payments && p.billId == billId.value by {
        forall p | p in r ensures p in payments && p.billId == billId.value {
          var i :| 0 <= i < |r| && r[i] == p;
        }
      }
      r
    else payments
  }

  /** A view of the rows is a row with exactly the tags linked to it. */
  lemma ViewsMembers(rows: seq<BillRow>, tags: seq<TagRow>, links: seq<BillTag>)
    ensures forall v: BillView :: v in Views(rows, tags, links) <==>
      v.row in rows && v.tags == LinkedTags(tags, links, v.row.id)
  {
    var r := Views(rows, tags, links);
    forall v: BillView | v.row in rows && v.tags == LinkedTags(tags, links, v.row.id) ensures v in r {
      var i :| 0 <= i < |rows| && rows[i] == v.row;
      assert r[i] == v;
    }
  }

  class DatabaseManager {
    var bills: seq<BillRow>
    var payments: seq<PaymentRow>
    var tags: seq<TagRow>
    var billTags: seq<BillTag>

    /** The schema's constraints hold over the four tables. */
    predicate Valid()
      reads this
    {
      Consistent(bills, payments, tags, billTags)
    }

    /** A manager over a new database file: `createTables` leaves four empty tables. */
    constructor()
      ensures bills == [] && payments == [] && tags == [] && billTags == []
      ensures Valid()
    {
      bills, payments, tags, billTags := [], [], [], [];
    }

    /** `getBills(includeArchived)`: the selected rows with their tags, ordered by name. */
    function GetBills(includeArchived: bool): (r: seq<BillView>)
      reads this
      ensures SortedBy(r, ViewName(), false)
      ensures |r| == |SelectedBills(bills, includeArchived)|
      ensures forall v: BillView :: v in r <==>
        && v.row in bills
        && (includeArchived || !v.row.isArchived)
        && v.tags == LinkedTags(tags, billTags, v.row.id)
    {
      var views := Views(SelectedBills(bills, includeArchived), tags, billTags);
      ViewsMembers(SelectedBills(bills, includeArchived), tags, billTags);
      var r := SortBy(views, ViewName(), false);
      assert forall v :: v in r <==> v in multiset(r);
      assert forall v :: v in views <==> v in multiset(views);
      r
    }

    /** `getBillById(id)`: the row with that id and its tags, or nothing. */
    function GetBillById(id: string): (r: Option<BillView>)
      reads this
      ensures r.Some? <==> HasBill(bills, id)
      ensures r.Some? ==>
        && r.value.row in bills
        && r.value.row.id == id
        && r.value.tags == LinkedTags(tags, billTags, id)
    {
      match FindBill(bills, id)
      case None => None
      case Some(row) => Some(WithTags(tags, billTags, row))
    }

    /** `getPayments(billId)`: all payments, or those of one bill, latest date first. */
    function GetPayments(billId: Option<string>): (r: seq<PaymentRow>)
      reads this
      ensures SortedBy(r, PaymentDate(), true)
      ensures |r| == |SelectedPayments(payments, billId)|
      ensures forall p :: p in r <==> p in payments && (Truthy(billId) ==> p.billId == billId.value)
    {
      var selected := SelectedPayments(payments, billId);
      var r := SortBy(selected, PaymentDate(), true);
      assert forall p :: p in r <==> p in multiset(r);
      assert forall p :: p in selected <==> p in multiset(selected);
      r
    }

    /** `getTags()`: every tag, ordered by name. */
    function GetTags(): (r: seq<TagRow>)
      reads this
      ensures SortedBy(r, TagNameKey(), false)
      ensures multiset(r) == multiset(tags)
    {
      SortBy(tags, TagNameKey(), false)
    }

    /** `getStatistics()` with `currentYear` the clock's year. */
    function GetStatistics(currentYear: int): Statistics
      reads this
    {
      Stats.Aggregate(bills, payments, currentYear)
    }

    /** `updateBillTags(billId, ids)`: delete the bill's links, then insert one link
        per id in order; the first insert that fails stops the run with its error
        and the links inserted before it stay. */
    method UpdateBillTags(billId: string, ids: seq<string>) returns (err: Option<DbError>)
      requires Valid()
      modifies this
      ensures Valid()
      ensures bills == old(bills) && payments == old(payments) && tags == old(tags)
      ensures LinkOutcome(err, billTags)
        == InsertLinks(bills, tags, Filter(old(billTags), LinkNotOfBill(billId)), billId, ids)
    {
      ReplaceLinks(bills, payments, tags, billTags, billId, ids);
      ghost var goal := InsertLinks(bills, tags, Filter(billTags, LinkNotOfBill(billId)), billId, ids);
      billTags := Filter(billTags, LinkNotOfBill(billId));
      var i := 0;
      while i < |ids|
        invariant 0 <= i <= |ids|
        invariant bills == old(bills) && payments == old(payments) && tags == old(tags)
        invariant InsertLinks(bills, tags, billTags, billId, ids[i..]) == goal
      {
        var link := BillTag(billId, ids[i]);
        assert ids[i..][0] == ids[i] && ids[i..][1..] == ids[i + 1..];
        var e := LinkError(bills, tags, billTags, link);
        if e.Some? {
          err := e;
          return;
        }
        billTags := billTags + [link];
        i := i + 1;
      }
      err := None;
    }

    /** `createBill(bill)`: insert the row, link its tags when a non-empty list is
        given, and read the bill back. A failed link insert leaves the row and the
        links before it in place. */
    method CreateBill(input: BillInput, id: string, now: string) returns (r: Result<BillView, DbError>)
      requires Valid()
      modifies this
      ensures Valid()
      ensures payments == old(payments) && tags == old(tags)
      ensures BillInsertError(input, id, old(bills)).Some? ==>
        && r == Err(BillInsertError(input, id, old(bills)).value)
        && bills == old(bills) && billTags == old(billTags)
      ensures BillInsertError(input, id, old(bills)).None? ==>
        bills == old(bills) + [NewBillRow(input, id, now)]
      ensures BillInsertError(input, id, old(bills)).None? && !(input.tags.Ids? && input.tags.ids != []) ==>
        billTags == old(billTags) && r.Ok?
      ensures BillInsertError(input, id, old(bills)).None? && input.tags.Ids? && input.tags.ids != [] ==>
        var o := InsertLinks(bills, tags, old(billTags), id, input.tags.ids);
        && billTags == o.links
        && (o.error.Some? ==> r == Err(o.error.value))
        && (o.error.None? ==> r.Ok?)
      ensures r.Ok? ==> r.value == WithTags(tags, billTags, NewBillRow(input, id, now))
    {
      var e := BillInsertError(input, id, bills);
      if e.Some? {
        return Err(e.value);
      }
      var row := NewBillRow(input, id, now);
      InsertBillConsistent(bills, payments, tags, billTags, input, id, now);
      bills := bills + [row];
      if input.tags.Ids? && input.tags.ids != [] {
        NoLinksOfNewBill(old(bills), billTags, id);
        var err := UpdateBillTags(id, input.tags.ids);
        if err.Some? {
          return Err(err.value);
        }
      }
      assert row in bills;
      var found := FindBill(bills, id);
      SameKeySameElement(bills, BillKey(), row, found.value);
      r := Ok(GetBillById(id).value);
    }

    /** `updateBill(id, bill)`: the UPDATE touches the row with that id, if any, and
        only then checks its constraints; the links are replaced whenever the
        argument has a `tags` property (`null` replaces them by none); the bill is
        read back. */
    method UpdateBill(id: string, input: BillInput, now: string) returns (r: Result<Option<BillView>, DbError>)
      requires Valid()
      modifies this
      ensures Valid()
      ensures payments == old(payments) && tags == old(tags)
      ensures HasBill(old(bills), id) && BillUpdateError(input).Some? ==>
        && r == Err(BillUpdateError(input).value)
        && bills == old(bills) && billTags == old(billTags)
      ensures !HasBill(old(bills), id) ==> bills == old(bills)
      ensures HasBill(old(bills), id) && BillUpdateError(input).None? ==>
        bills == UpdateBillRows(old(bills), id, input, now)
      ensures (!HasBill(old(bills), id) || BillUpdateError(input).None?) && input.tags.Absent? ==>
        billTags == old(billTags) && r == Ok(GetBillById(id))
      ensures (!HasBill(old(bills), id) || BillUpdateError(input).None?) && !input.tags.Absent? ==>
        var o := InsertLinks(bills, tags, Filter(old(billTags), LinkNotOfBill(id)), id, TagIds(input.tags));
        && billTags == o.links
        && (o.error.Some? ==> r == Err(o.error.value))
        && (o.error.None? ==> r == Ok(GetBillById(id)))
      ensures r.Ok? ==> (r.value.Some? <==> HasBill(old(bills), id))
    {
      if HasBill(bills, id) {
        var e := BillUpdateError(input);
        if e.Some? {
          return Err(e.value);
        }
        UpdateBillConsistent(bills, payments, tags, billTags, id, input, now);
        var before := bills;
        bills := UpdateBillRows(bills, id, input, now);
        SameBillIdsKeep(before, bills);
      }
      if !input.tags.Absent? {
        var err := UpdateBillTags(id, TagIds(input.tags));
        if err.Some? {
          return Err(err.value);
        }
      }
      r := Ok(GetBillById(id));
    }

    /** `deleteBill(id)`: the row goes, and by `ON DELETE CASCADE` the bill's
        payments and links with it; the answer is whether a row was deleted. */
    method DeleteBill(id: string) returns (deleted: bool)
      requires Valid()
      modifies this
      ensures Valid()
      ensures deleted <==> HasBill(old(bills), id)
      ensures bills == Filter(old(bills), BillIsNot(id))
      ensures payments == Filter(old(payments), PaymentNotOfBill(id))
      ensures billTags == Filter(old(billTags), LinkNotOfBill(id))
      ensures tags == old(tags)
    {
      deleted := HasBill(bills, id);
      DeleteBillConsistent(bills, payments, tags, billTags, id);
      bills := Filter(bills, BillIsNot(id));
      payments := Filter(payments, PaymentNotOfBill(id));
      billTags := Filter(billTags, LinkNotOfBill(id));
    }

    /** `archiveBill(id)`: set the archive flag and the update time of the row with
        that id; the answer is whether there was one. */
    method ArchiveBill(id: string, now: string) returns (archived: bool)
      requires Valid()
      modifies this
      ensures Valid()
      ensures archived <==> HasBill(old(bills), id)
      ensures bills == ArchiveRows(old(bills), id, now)
      ensures payments == old(payments) && tags == old(tags) && billTags == old(billTags)
    {
      archived := HasBill(bills, id);
      ArchiveConsistent(bills, payments, tags, billTags, id, now);
      var before := bills;
      bills := ArchiveRows(bills, id, now);
      SameBillIdsKeep(before, bills);
    }

    /** `createPayment(payment)`: insert the row and read it back. */
    method CreatePayment(input: PaymentInput, id: string, now: string) returns (r: Result<PaymentRow, DbError>)
      requires Valid()
      modifies this
      ensures Valid()
      ensures bills == old(bills) && tags == old(tags) && billTags == old(billTags)
      ensures PaymentInsertError(input, id, old(bills), old(payments)).Some? ==>
        r == Err(PaymentInsertError(input, id, old(bills), old(payments)).value) && payments == old(payments)
      ensures PaymentInsertError(input, id, old(bills), old(payments)).None? ==>
        var row := NewPaymentRow(input, id, now);
        r == Ok(row) && payments == old(payments) + [row]
    {
      var e := PaymentInsertError(input, id, bills, payments);
      if e.Some? {
        return Err(e.value);
      }
      var row := NewPaymentRow(input, id, now);
      InsertPaymentConsistent(bills, payments, tags, billTags, input, id, now);
      payments := payments + [row];
      r := Ok(row);
    }

    /** `updatePayment(id, payment)`: the UPDATE touches the row with that id, if
        any, and only then checks its constraints; the row is read back when one
        was changed. */
    method UpdatePayment(id: string, input: PaymentInput, now: string) returns (r: Result<Option<PaymentRow>, DbError>)
      requires Valid()
      modifies this
      ensures Valid()
      ensures bills == old(bills) && tags == old(tags) && billTags == old(billTags)
      ensures !HasKey(old(payments), PaymentKey(), id) ==> r == Ok(None) && payments == old(payments)
      ensures HasKey(old(payments), PaymentKey(), id) && PaymentUpdateError(input).Some? ==>
        r == Err(PaymentUpdateError(input).value) && payments == old(payments)
      ensures HasKey(old(payments), PaymentKey(), id) && PaymentUpdateError(input).None? ==>
        && payments == UpdatePaymentRows(old(payments), id, input, now)
        && r == Ok(FindPayment(payments, id))
        && r.value.Some?
        && r.value.value.id == id
        && r.value.value.amount == input.amount.value
        && r.value.value.paymentDate == input.paymentDate.value
        && r.value.value.notes == OrNull(input.notes)
    {
      if !HasKey(payments, PaymentKey(), id) {
        return Ok(None);
      }
      var e := PaymentUpdateError(input);
      if e.Some? {
        return Err(e.value);
      }
      UpdatePaymentConsistent(bills, payments, tags, billTags, id, input, now);
      UpdatedPaymentReadBack(payments, id, input, now);
      payments := UpdatePaymentRows(payments, id, input, now);
      r := Ok(FindPayment(payments, id));
    }

    /** `deletePayment(id)`: the answer is whether a row was deleted. */
    method DeletePayment(id: string) returns (deleted: bool)
      requires Valid()
      modifies this
      ensures Valid()
      ensures deleted <==> HasKey(old(payments), PaymentKey(), id)
      ensures payments == Filter(old(payments), PaymentIsNot(id))
      ensures bills == old(bills) && tags == old(tags) && billTags == old(billTags)
    {
      deleted := HasKey(payments, PaymentKey(), id);
      DeletePaymentConsistent(bills, payments, tags, billTags, id);
      payments := Filter(payments, PaymentIsNot(id));
    }

    /** `createTag(tag)`: insert a tag, or answer the existing one on a name clash. */
    method CreateTag(input: TagInput, id: string, now: string) returns (r: Result<TagRow, DbError>)
      requires Valid()
      modifies this
      ensures Valid()
      ensures bills == old(bills) && payments == old(payments) && billTags == old(billTags)
      ensures TagOutcome(r, tags) == TagInsert(old(tags), input, id, now)
    {
      TagInsertConsistent(bills, payments, tags, billTags, input, id, now);
      if input.name.None? {
        return Err(NotNull("name"));
      }
      if HasTag(tags, id) {
        return Err(PrimaryKey("tags"));
      }
      var existing := FindTagByName(tags, input.name.value);
      if existing.Some? {
        return Ok(existing.value);
      }
      var color := if Truthy(input.color) then input.color.value else DefaultTagColor;
      var row := TagRow(id, input.name.value, color, now);
      tags := tags + [row];
      r := Ok(row);
    }

    /** `exportToCSV()`: the header, one line per bill of `getBills(true)`, then one
        line per payment of `getPayments()`; `amountText` is JavaScript's number
        to text conversion. */
    method ExportToCsv(amountText: real -> string) returns (csv: string)
      ensures csv == ExportText(GetBills(true), GetPayments(None), amountText)
    {
      var bs := GetBills(true);
      var billText := WriteBillLines(bs);
      var paymentText := WritePaymentLines(bs, GetPayments(None), amountText);
      csv := Header + billText + paymentText;
    }
  }

  /** `bills.forEach(bill => { csv += ... })`. */
  method WriteBillLines(bs: seq<BillView>) returns (text: string)
    ensures text == BillLines(bs)
  {
    text := "";
    var i := 0;
    while i < |bs|
      invariant 0 <= i <= |bs|
      invariant text == BillLines(bs[..i])
    {
      BillLinesTake(bs, i);
      text := text + BillLine(bs[i]);
      i := i + 1;
    }
    assert bs[..i] == bs;
  }

  /** `payments.forEach(payment => { csv += ... })`. */
  method WritePaymentLines(bs: seq<BillView>, ps: seq<PaymentRow>, amountText: real -> string)
    returns (text: string)
    ensures text == PaymentLines(bs, ps, amountText)
  {
    text := "";
    var j := 0;
    while j < |ps|
      invariant 0 <= j <= |ps|
      invariant text == PaymentLines(bs, ps[..j], amountText)
    {
      PaymentLinesTake(bs, ps, j, amountText);
      text := text + PaymentLine(bs, ps[j], amountText);
      j := j + 1;
    }
    assert ps[..j] == ps;
  }

  /** The ids `updateBillTags` is given for a `tags` property: none for `null`. */
  function TagIds(t: TagsField): seq<string>
  {
    if t.Ids? then t.ids else []
  }

  /** A bill that was not in the table has no links, so deleting its links first
      changes nothing. */
  lemma NoLinksOfNewBill(bills: seq<BillRow>, links: seq<BillTag>, id: string)
    requires forall i :: 0 <= i < |links| ==> HasBill(bills, links[i].billId)
    requires !HasBill(bills, id)
    ensures Filter(links, LinkNotOfBill(id)) == links
  {
    forall l | l in links ensures LinkNotOfBill(id)(l) {
      var i :| 0 <= i < |links| && links[i] == l;
    }
    FilterKeepsAll(links, LinkNotOfBill(id));
  }
}
