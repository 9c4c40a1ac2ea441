/** The four tables of the local store as values: the constraints their schema
    declares, the rows each statement writes, the first constraint a statement
    violates, and the effect of the statements on the tables. The class
    `Database.DatabaseManager` performs these statements on its own fields. */
module Tables {
  import opened Options
  import opened Seqs
  import opened Records

  /** The constraint a statement violated; SQLite reports it and the statement
      leaves its table unchanged. */
  datatype DbError =
    | NotNull(column: string)
    | Check(column: string)
    | PrimaryKey(table: string)
    | Unique(column: string)
    | ForeignKey

  const DefaultTagColor: string := "#3B82F6"

  /** `value || null` for a text argument: a falsy value is bound as NULL. */
  function OrNull(s: Option<string>): (r: Option<string>)
    ensures r.Some? <==> Truthy(s)
    ensures r.Some? ==> r == s
  {
    if Truthy(s) then s else None
  }

  /** `CHECK(recurrence_type IN ('monthly', 'quarterly', 'yearly'))`; NULL passes. */
  predicate RecurrenceAllowed(r: Option<string>)
  {
    r.None? || r.value == "monthly" || r.value == "quarterly" || r.value == "yearly"
  }

  function BillKey(): BillRow -> string { (b: BillRow) => b.id }
  function PaymentKey(): PaymentRow -> string { (p: PaymentRow) => p.id }
  function TagKey(): TagRow -> string { (t: TagRow) => t.id }
  function TagNameKey(): TagRow -> string { (t: TagRow) => t.name }
  function LinkKey(): BillTag -> BillTag { (l: BillTag) => l }

  predicate HasBill(bills: seq<BillRow>, id: string) { HasKey(bills, BillKey(), id) }
  predicate HasTag(tags: seq<TagRow>, id: string) { HasKey(tags, TagKey(), id) }
  predicate HasTagName(tags: seq<TagRow>, name: string) { HasKey(tags, TagNameKey(), name) }

  /** Every constraint of the schema holds: the primary keys of the four tables,
      the UNIQUE tag name, the recurrence CHECK, and the foreign keys of
      `payments.bill_id`, `bill_tags.bill_id` and `bill_tags.tag_id`. */
  predicate Consistent(bills: seq<BillRow>, payments: seq<PaymentRow>, tags: seq<TagRow>, links: seq<BillTag>)
  {
    && KeysUnique(bills, BillKey())
    && KeysUnique(payments, PaymentKey())
    && KeysUnique(tags, TagKey())
    && KeysUnique(tags, TagNameKey())
    && KeysUnique(links, LinkKey())
    && (forall i :: 0 <= i < |bills| ==> RecurrenceAllowed(bills[i].recurrenceType))
    && (forall i :: 0 <= i < |payments| ==> HasBill(bills, payments[i].billId))
    && (forall i :: 0 <= i < |links| ==> HasBill(bills, links[i].billId) && HasTag(tags, links[i].tagId))
  }

  // ---------------------------------------------------------------- lookups

  /** `SELECT * FROM bills WHERE id = ?` with `.get`. */
  function FindBill(bills: seq<BillRow>, id: string): (r: Option<BillRow>)
    ensures r.Some? <==> HasBill(bills, id)
    ensures r.Some? ==> r.value in bills && r.value.id == id
  {
    if bills == [] then None
    else if bills[0].id == id then Some(bills[0])
    else
      var r := FindBill(bills[1..], id);
      assert forall i :: 1 <= i < |bills| ==> bills[i] == bills[1..][i - 1];
      r
  }

  /** `SELECT * FROM payments WHERE id = ?` with `.get`. */
  function FindPayment(payments: seq<PaymentRow>, id: string): (r: Option<PaymentRow>)
    ensures r.Some? <==> HasKey(payments, PaymentKey(), id)
    ensures r.Some? ==> r.value in payments && r.value.id == id
  {
    if payments == [] then None
    else if payments[0].id == id then Some(payments[0])
    else
      var r := FindPayment(payments[1..], id);
      assert forall i :: 1 <= i < |payments| ==> payments[i] == payments[1..][i - 1];
      r
  }

  /** `SELECT * FROM tags WHERE id = ?` with `.get`. */
  function FindTag(tags: seq<TagRow>, id: string): (r: Option<TagRow>)
    ensures r.Some? <==> HasTag(tags, id)
    ensures r.Some? ==> r.value in tags && r.value.id == id
  {
    if tags == [] then None
    else if tags[0].id == id then Some(tags[0])
    else
      var r := FindTag(tags[1..], id);
      assert forall i :: 1 <= i < |tags| ==> tags[i] == tags[1..][i - 1];
      r
  }

  /** `SELECT * FROM tags WHERE name = ?` with `.get`. */
  function FindTagByName(tags: seq<TagRow>, name: string): (r: Option<TagRow>)
    ensures r.Some? <==> HasTagName(tags, name)
    ensures r.Some? ==> r.value in tags && r.value.name == name
  {
    if tags == [] then None
    else if tags[0].name == name then Some(tags[0])
    else
      var r := FindTagByName(tags[1..], name);
      assert forall i :: 1 <= i < |tags| ==> tags[i] == tags[1..][i - 1];
      r
  }

  /** `SELECT t.* FROM tags t JOIN bill_tags bt ON t.id = bt.tag_id WHERE bt.bill_id = ?`,
      in the order of the links. */
  function LinkedTags(tags: seq<TagRow>, links: seq<BillTag>, billId: string): (r: seq<TagRow>)
    ensures forall t :: t in r ==> t in tags && BillTag(billId, t.id) in links
    ensures KeysUnique(tags, TagKey()) ==>
      forall t :: t in tags && BillTag(billId, t.id) in links ==> t in r
  {
    if links == [] then []
    else
      var rest := LinkedTags(tags, links[1..], billId);
      assert forall l :: l in links[1..] ==> l in links;
      var found := FindTag(tags, links[0].tagId);
      if links[0].billId == billId && found.Some? then
        assert KeysUnique(tags, TagKey()) ==>
          forall t :: t in tags && t.id == links[0].tagId ==> t == found.value by {
          if KeysUnique(tags, TagKey()) {
            forall t | t in tags && t.id == links[0].tagId ensures t == found.value {
              SameKeySameElement(tags, TagKey(), t, found.value);
            }
          }
        }
        [found.value] + rest
      else
        rest
  }

  /** A bill row with the tags linked to it. */
  function WithTags(tags: seq<TagRow>, links: seq<BillTag>, row: BillRow): BillView
  {
    BillView(row, LinkedTags(tags, links, row.id))
  }

  /** `bills.map(bill => ({ ...bill, tags: getTagsQuery.all(bill.id) }))`. */
  function Views(rows: seq<BillRow>, tags: seq<TagRow>, links: seq<BillTag>): (r: seq<BillView>)
    ensures |r| == |rows|
    ensures forall i :: 0 <= i < |rows| ==> r[i] == WithTags(tags, links, rows[i])
  {
    if rows == [] then [] else [WithTags(tags, links, rows[0])] + Views(rows[1..], tags, links)
  }

  // ---------------------------------------------------------------- bills

  /** The `tags` property of a bill argument: missing, `null`, or a list of tag ids. */
  datatype TagsField = Absent | NullTags | Ids(ids: seq<string>)

  /** The bill object handed to `createBill` / `updateBill`. A `None` text or due
      day is any falsy value (missing, `null`, empty); a due day held as a digit
      string "0" is truthy and is `Some(0)`. */
  datatype BillInput = BillInput(
    name: Option<string>,
    logoPath: Option<string>,
    paymentUrl: Option<string>,
    notes: Option<string>,
    dueDay: Option<int>,
    recurrenceType: Option<string>,
    nextDueDate: Option<string>,
    tags: TagsField)

  /** The constraint the bill INSERT violates first: NOT NULL, then CHECK, then the
      primary key. */
  function BillInsertError(input: BillInput, id: string, bills: seq<BillRow>): Option<DbError>
  {
    if input.name.None? then Some(NotNull("name"))
    else if !RecurrenceAllowed(OrNull(input.recurrenceType)) then Some(Check("recurrence_type"))
    else if HasBill(bills, id) then Some(PrimaryKey("bills"))
    else None
  }

  /** The row the bill INSERT writes. */
  function NewBillRow(input: BillInput, id: string, now: string): BillRow
    requires input.name.Some?
  {
    BillRow(id, input.name.value, OrNull(input.logoPath), OrNull(input.paymentUrl), OrNull(input.notes),
            input.dueDay, OrNull(input.recurrenceType), OrNull(input.nextDueDate), false, now, now)
  }

  /** The constraint the bill UPDATE violates first, on a matching row. */
  function BillUpdateError(input: BillInput): Option<DbError>
  {
    if input.name.None? then Some(NotNull("name"))
    else if !RecurrenceAllowed(OrNull(input.recurrenceType)) then Some(Check("recurrence_type"))
    else None
  }

  /** A row after the bill UPDATE: every column but the id, the archive flag and
      `created_at` replaced. */
  function UpdatedBill(b: BillRow, input: BillInput, now: string): BillRow
    requires input.name.Some?
  {
    b.(name := input.name.value, logoPath := OrNull(input.logoPath), paymentUrl := OrNull(input.paymentUrl),
       notes := OrNull(input.notes), dueDay := input.dueDay, recurrenceType := OrNull(input.recurrenceType),
       nextDueDate := OrNull(input.nextDueDate), updatedAt := now)
  }

  /** `UPDATE bills SET ... WHERE id = ?` over the whole table. */
  function UpdateBillRows(bills: seq<BillRow>, id: string, input: BillInput, now: string): (r: seq<BillRow>)
    requires input.name.Some?
    ensures |r| == |bills|
    ensures forall i :: 0 <= i < |bills| ==>
      r[i] == (if bills[i].id == id then UpdatedBill(bills[i], input, now) else bills[i])
  {
    if bills == [] then []
    else [if bills[0].id == id then UpdatedBill(bills[0], input, now) else bills[0]]
         + UpdateBillRows(bills[1..], id, input, now)
  }

  /** `UPDATE bills SET is_archived = 1, updated_at = ? WHERE id = ?`. */
  function ArchiveRows(bills: seq<BillRow>, id: string, now: string): (r: seq<BillRow>)
    ensures |r| == |bills|
    ensures forall i :: 0 <= i < |bills| ==>
      r[i] == (if bills[i].id == id then bills[i].(isArchived := true, updatedAt := now) else bills[i])
  {
    if bills == [] then []
    else [if bills[0].id == id then bills[0].(isArchived := true, updatedAt := now) else bills[0]]
         + ArchiveRows(bills[1..], id, now)
  }

  function BillIsNot(id: string): BillRow -> bool { (b: BillRow) => b.id != id }
  function PaymentNotOfBill(id: string): PaymentRow -> bool { (p: PaymentRow) => p.billId != id }
  function LinkNotOfBill(id: string): BillTag -> bool { (l: BillTag) => l.billId != id }
  function PaymentOfBill(id: string): PaymentRow -> bool { (p: PaymentRow) => p.billId == id }
  function PaymentIsNot(id: string): PaymentRow -> bool { (p: PaymentRow) => p.id != id }
  function IsActiveBill(): BillRow -> bool { (b: BillRow) => !b.isArchived }

  /** Two tables whose rows carry the same ids, position by position. */
  predicate SameBillIds(a: seq<BillRow>, b: seq<BillRow>)
  {
    |a| == |b| && forall i :: 0 <= i < |a| ==> a[i].id == b[i].id
  }

  lemma SameBillIdsKeep(a: seq<BillRow>, b: seq<BillRow>)
    requires SameBillIds(a, b)
    ensures KeysUnique(a, BillKey()) ==> KeysUnique(b, BillKey())
    ensures forall id :: HasBill(a, id) ==> HasBill(b, id)
  {
    forall id | HasBill(a, id) ensures HasBill(b, id) {
      var i :| 0 <= i < |a| && BillKey()(a[i]) == id;
      assert BillKey()(b[i]) == id;
    }
  }

  /** A bill other than the deleted one is still present after the delete. */
  lemma OtherBillKept(bills: seq<BillRow>, id: string, other: string)
    requires HasBill(bills, other) && other != id
    ensures HasBill(Filter(bills, BillIsNot(id)), other)
  {
    var i :| 0 <= i < |bills| && BillKey()(bills[i]) == other;
    var r := Filter(bills, BillIsNot(id));
    assert bills[i] in r;
    var j :| 0 <= j < |r| && r[j] == bills[i];
    assert BillKey()(r[j]) == other;
  }

  /** Inserting a row that passed the checks keeps every constraint. */
  lemma InsertBillConsistent(bills: seq<BillRow>, payments: seq<PaymentRow>, tags: seq<TagRow>,
                             links: seq<BillTag>, input: BillInput, id: string, now: string)
    requires Consistent(bills, payments, tags, links)
    requires BillInsertError(input, id, bills).None?
    ensures Consistent(bills + [NewBillRow(input, id, now)], payments, tags, links)
  {
    var row := NewBillRow(input, id, now);
    var bills' := bills + [row];
    AppendKeysUnique(bills, row, BillKey());
    forall other | HasBill(bills, other) ensures HasBill(bills', other) {
      var i :| 0 <= i < |bills| && BillKey()(bills[i]) == other;
      assert bills'[i] == bills[i];
    }
    assert forall i :: 0 <= i < |bills| ==> bills'[i] == bills[i];
  }

  /** The bill UPDATE keeps every constraint when it passes its checks. */
  lemma UpdateBillConsistent(bills: seq<BillRow>, payments: seq<PaymentRow>, tags: seq<TagRow>,
                             links: seq<BillTag>, id: string, input: BillInput, now: string)
    requires Consistent(bills, payments, tags, links)
    requires BillUpdateError(input).None?
    ensures Consistent(UpdateBillRows(bills, id, input, now), payments, tags, links)
  {
    SameBillIdsKeep(bills, UpdateBillRows(bills, id, input, now));
  }

  /** Archiving keeps every constraint. */
  lemma ArchiveConsistent(bills: seq<BillRow>, payments: seq<PaymentRow>, tags: seq<TagRow>,
                          links: seq<BillTag>, id: string, now: string)
    requires Consistent(bills, payments, tags, links)
    ensures Consistent(ArchiveRows(bills, id, now), payments, tags, links)
  {
    SameBillIdsKeep(bills, ArchiveRows(bills, id, now));
  }

  /** Archiving keeps the row, hides it from the active list and changes nothing
      else about it but the time stamp. */
  lemma ArchiveHidesBill(bills: seq<BillRow>, id: string, now: string)
    requires KeysUnique(bills, BillKey()) && HasBill(bills, id)
    ensures var after := ArchiveRows(bills, id, now);
      && HasBill(after, id)
      && (forall b :: b in Filter(after, IsActiveBill()) ==> b.id != id)
      && (forall b :: b in bills && b.id != id ==> b in after)
  {
    var after := ArchiveRows(bills, id, now);
    SameBillIdsKeep(bills, after);
    forall b | b in bills && b.id != id ensures b in after {
      var i :| 0 <= i < |bills| && bills[i] == b;
      assert after[i] == b;
    }
    forall b | b in Filter(after, IsActiveBill()) ensures b.id != id {
      var i :| 0 <= i < |after| && after[i] == b;
      assert bills[i].id == b.id;
    }
  }

  /** `DELETE FROM bills WHERE id = ?` with the declared `ON DELETE CASCADE` on
      `payments.bill_id` and `bill_tags.bill_id` keeps every constraint, leaves no
      row of the bill, and keeps every other bill. */
  lemma DeleteBillConsistent(bills: seq<BillRow>, payments: seq<PaymentRow>, tags: seq<TagRow>,
                             links: seq<BillTag>, id: string)
    requires Consistent(bills, payments, tags, links)
    ensures var bills' := Filter(bills, BillIsNot(id));
      var payments' := Filter(payments, PaymentNotOfBill(id));
      var links' := Filter(links, LinkNotOfBill(id));
      && Consistent(bills', payments', tags, links')
      && !HasBill(bills', id)
      && (forall other :: HasBill(bills, other) && other != id ==> HasBill(bills', other))
  {
    var bills' := Filter(bills, BillIsNot(id));
    var payments' := Filter(payments, PaymentNotOfBill(id));
    var links' := Filter(links, LinkNotOfBill(id));
    FilterKeysUnique(bills, BillIsNot(id), BillKey());
    FilterKeysUnique(payments, PaymentNotOfBill(id), PaymentKey());
    FilterKeysUnique(links, LinkNotOfBill(id), LinkKey());
    forall other | HasBill(bills, other) && other != id ensures HasBill(bills', other) {
      OtherBillKept(bills, id, other);
    }
    forall i | 0 <= i < |bills'| ensures RecurrenceAllowed(bills'[i].recurrenceType) {
      var j :| 0 <= j < |bills| && bills[j] == bills'[i];
    }
    forall i | 0 <= i < |payments'| ensures HasBill(bills', payments'[i].billId) {
      var j :| 0 <= j < |payments| && payments[j] == payments'[i];
      OtherBillKept(bills, id, payments'[i].billId);
    }
    forall i | 0 <= i < |links'| ensures HasBill(bills', links'[i].billId) && HasTag(tags, links'[i].tagId) {
      var j :| 0 <= j < |links| && links[j] == links'[i];
      OtherBillKept(bills, id, links'[i].billId);
    }
    forall i | 0 <= i < |bills'| ensures BillKey()(bills'[i]) != id {
    }
  }

  // ---------------------------------------------------------------- bill tags

  /** The links `(billId, id)` for each id, in order. */
  function LinksFor(billId: string, ids: seq<string>): (r: seq<BillTag>)
    ensures |r| == |ids|
    ensures forall i :: 0 <= i < |ids| ==> r[i] == BillTag(billId, ids[i])
  {
    if ids == [] then [] else [BillTag(billId, ids[0])] + LinksFor(billId, ids[1..])
  }

  /** The constraint `INSERT INTO bill_tags` violates first: the composite primary
      key, then the two foreign keys. */
  function LinkError(bills: seq<BillRow>, tags: seq<TagRow>, links: seq<BillTag>, link: BillTag): Option<DbError>
  {
    if link in links then Some(PrimaryKey("bill_tags"))
    else if !HasBill(bills, link.billId) || !HasTag(tags, link.tagId) then Some(ForeignKey)
    else None
  }

  /** The table after some of a list of link inserts, and the error that stopped them. */
  datatype LinkOutcome = LinkOutcome(error: Option<DbError>, links: seq<BillTag>)

  /** `tagIds.forEach(tagId => stmt.run(billId, tagId))`: the inserts run one by
      one; the first one that fails throws, and the rows inserted before it stay. */
  function InsertLinks(bills: seq<BillRow>, tags: seq<TagRow>, links: seq<BillTag>,
                       billId: string, ids: seq<string>): LinkOutcome
    decreases |ids|
  {
    if ids == [] then LinkOutcome(None, links)
    else
      var link := BillTag(billId, ids[0]);
      var e := LinkError(bills, tags, links, link);
      if e.Some? then LinkOutcome(e, links)
      else InsertLinks(bills, tags, links + [link], billId, ids[1..])
  }

  /** How many of the inserts succeed before the first failure. */
  function InsertedCount(bills: seq<BillRow>, tags: seq<TagRow>, links: seq<BillTag>,
                         billId: string, ids: seq<string>): (k: nat)
    ensures k <= |ids|
    decreases |ids|
  {
    if ids == [] then 0
    else
      var link := BillTag(billId, ids[0]);
      if LinkError(bills, tags, links, link).Some? then 0
      else 1 + InsertedCount(bills, tags, links + [link], billId, ids[1..])
  }

  lemma LinksForPrefix(billId: string, ids: seq<string>, k: nat)
    requires k < |ids|
    ensures LinksFor(billId, ids[..k + 1]) == [BillTag(billId, ids[0])] + LinksFor(billId, ids[1..][..k])
  {
    assert ids[..k + 1][1..] == ids[1..][..k];
  }

  /** The inserts always leave the table extended by the links of the first
      `InsertedCount` ids, and fail exactly when that is not all of them. */
  lemma {:induction false} InsertLinksPrefix(bills: seq<BillRow>, tags: seq<TagRow>, links: seq<BillTag>,
                                             billId: string, ids: seq<string>)
    ensures PrefixInserted(bills, tags, links, billId, ids)
    decreases |ids|
  {
    if ids == [] {
      assert ids[..0] == [];
    } else {
      var link := BillTag(billId, ids[0]);
      if LinkError(bills, tags, links, link).None? {
        InsertLinksPrefix(bills, tags, links + [link], billId, ids[1..]);
        PrefixStep(bills, tags, links, billId, ids);
      } else {
        assert ids[..0] == [];
      }
    }
  }

  predicate PrefixInserted(bills: seq<BillRow>, tags: seq<TagRow>, links: seq<BillTag>,
                           billId: string, ids: seq<string>)
  {
    var o := InsertLinks(bills, tags, links, billId, ids);
    var k := InsertedCount(bills, tags, links, billId, ids);
    && o.links == links + LinksFor(billId, ids[..k])
    && (o.error.None? <==> k == |ids|)
  }

  /** An insert that passes its checks appends its link, and the rest continue. */
  lemma InsertStep(bills: seq<BillRow>, tags: seq<TagRow>, links: seq<BillTag>,
                   billId: string, ids: seq<string>)
    requires ids != [] && LinkError(bills, tags, links, BillTag(billId, ids[0])).None?
    ensures InsertLinks(bills, tags, links, billId, ids)
      == InsertLinks(bills, tags, links + [BillTag(billId, ids[0])], billId, ids[1..])
    ensures InsertedCount(bills, tags, links, billId, ids)
      == 1 + InsertedCount(bills, tags, links + [BillTag(billId, ids[0])], billId, ids[1..])
  {
  }

  lemma PrefixStep(bills: seq<BillRow>, tags: seq<TagRow>, links: seq<BillTag>,
                   billId: string, ids: seq<string>)
    requires ids != [] && LinkError(bills, tags, links, BillTag(billId, ids[0])).None?
    requires PrefixInserted(bills, tags, links + [BillTag(billId, ids[0])], billId, ids[1..])
    ensures PrefixInserted(bills, tags, links, billId, ids)
  {
    var link := BillTag(billId, ids[0]);
    var o' := InsertLinks(bills, tags, links + [link], billId, ids[1..]);
    var k := InsertedCount(bills, tags, links + [link], billId, ids[1..]);
    InsertStep(bills, tags, links, billId, ids);
    AppendLinksPrefix(links, billId, ids, k);
  }

  lemma AppendLinksPrefix(links: seq<BillTag>, billId: string, ids: seq<string>, k: nat)
    requires k < |ids|
    ensures (links + [BillTag(billId, ids[0])]) + LinksFor(billId, ids[1..][..k])
      == links + LinksFor(billId, ids[..k + 1])
  {
    LinksForPrefix(billId, ids, k);
    var rest := LinksFor(billId, ids[1..][..k]);
    assert (links + [BillTag(billId, ids[0])]) + rest == links + ([BillTag(billId, ids[0])] + rest);
  }

  /** The inserts keep every constraint: each link they add passed its checks. */
  lemma {:induction false} InsertLinksConsistent(bills: seq<BillRow>, payments: seq<PaymentRow>,
                                                 tags: seq<TagRow>, links: seq<BillTag>,
                                                 billId: string, ids: seq<string>)
    requires Consistent(bills, payments, tags, links)
    ensures Consistent(bills, payments, tags, InsertLinks(bills, tags, links, billId, ids).links)
    decreases |ids|
  {
    if ids != [] {
      var link := BillTag(billId, ids[0]);
      if LinkError(bills, tags, links, link).None? {
        var links' := links + [link];
        AppendKeysUnique(links, link, LinkKey());
        assert forall i :: 0 <= i < |links| ==> links'[i] == links[i];
        InsertLinksConsistent(bills, payments, tags, links', billId, ids[1..]);
      }
    }
  }

  /** With an existing bill, existing tags, distinct ids and none of the bill's
      links left in the table, every insert succeeds and appends its link. */
  lemma InsertLinksSucceeds(bills: seq<BillRow>, tags: seq<TagRow>, links: seq<BillTag>,
                            billId: string, ids: seq<string>)
    requires HasBill(bills, billId)
    requires forall i :: 0 <= i < |ids| ==> HasTag(tags, ids[i])
    requires forall i, j :: 0 <= i < j < |ids| ==> ids[i] != ids[j]
    requires forall l :: l in links ==> l.billId != billId
    ensures InsertLinks(bills, tags, links, billId, ids) == LinkOutcome(None, links + LinksFor(billId, ids))
  {
    assert NoLinkTo(links, billId, ids) by {
      forall i, j | 0 <= i < |links| && 0 <= j < |ids| ensures links[i] != BillTag(billId, ids[j]) {
        assert links[i] in links;
      }
    }
    InsertLinksSucceedsAfter(bills, tags, links, billId, ids);
  }

  /** None of the links is the link of `billId` to one of the ids. */
  predicate NoLinkTo(links: seq<BillTag>, billId: string, ids: seq<string>)
  {
    forall i, j :: 0 <= i < |links| && 0 <= j < |ids| ==> links[i] != BillTag(billId, ids[j])
  }

  predicate Distinct(ids: seq<string>)
  {
    forall i, j :: 0 <= i < j < |ids| ==> ids[i] != ids[j]
  }

  /** The general form of `InsertLinksSucceeds`: links of the bill may already be
      in the table as long as none names an id still to be inserted. */
  lemma {:induction false} InsertLinksSucceedsAfter(bills: seq<BillRow>, tags: seq<TagRow>, links: seq<BillTag>,
                                                    billId: string, ids: seq<string>)
    requires HasBill(bills, billId)
    requires forall i :: 0 <= i < |ids| ==> HasTag(tags, ids[i])
    requires Distinct(ids) && NoLinkTo(links, billId, ids)
    ensures InsertLinks(bills, tags, links, billId, ids) == LinkOutcome(None, links + LinksFor(billId, ids))
    decreases |ids|
  {
    if ids != [] {
      var links', rest := links + [BillTag(billId, ids[0])], ids[1..];
      SucceedsStep(bills, tags, links, billId, ids);
      InsertLinksSucceedsAfter(bills, tags, links', billId, rest);
      LinksForCons(links, billId, ids);
    }
  }

  lemma LinksForCons(links: seq<BillTag>, billId: string, ids: seq<string>)
    requires ids != []
    ensures links + [BillTag(billId, ids[0])] + LinksFor(billId, ids[1..]) == links + LinksFor(billId, ids)
  {
  }

  /** One insert of `InsertLinksSucceedsAfter`: it passes its checks, and the
      conditions carry over to the remaining ids. */
  lemma SucceedsStep(bills: seq<BillRow>, tags: seq<TagRow>, links: seq<BillTag>,
                     billId: string, ids: seq<string>)
    requires ids != [] && HasBill(bills, billId)
    requires forall i :: 0 <= i < |ids| ==> HasTag(tags, ids[i])
    requires Distinct(ids) && NoLinkTo(links, billId, ids)
    ensures var link := BillTag(billId, ids[0]);
      && InsertLinks(bills, tags, links, billId, ids) == InsertLinks(bills, tags, links + [link], billId, ids[1..])
      && Distinct(ids[1..]) && NoLinkTo(links + [link], billId, ids[1..])
      && forall i :: 0 <= i < |ids[1..]| ==> HasTag(tags, ids[1..][i])
  {
    var link := BillTag(billId, ids[0]);
    assert forall i :: 0 <= i < |links| ==> links[i] != link;
    assert LinkError(bills, tags, links, link).None?;
    var rest := ids[1..];
    var links' := links + [link];
    forall i, j | 0 <= i < |links'| && 0 <= j < |rest| ensures links'[i] != BillTag(billId, rest[j]) {
      assert rest[j] == ids[j + 1];
      if i < |links| {
        assert links'[i] == links[i];
      }
    }
    assert forall i :: 0 <= i < |rest| ==> rest[i] == ids[i + 1];
  }

  /** Links for a bill that does not exist are refused by the foreign key: the
      first insert fails and the table is left as the delete left it. */
  lemma MissingBillLinksFail(bills: seq<BillRow>, tags: seq<TagRow>, links: seq<BillTag>,
                             billId: string, ids: seq<string>)
    requires !HasBill(bills, billId) && ids != []
    requires forall l :: l in links ==> l.billId != billId
    ensures InsertLinks(bills, tags, links, billId, ids) == LinkOutcome(Some(ForeignKey), links)
  {
    assert BillTag(billId, ids[0]) !in links;
  }

  /** A repeated id always makes some insert fail: the composite primary key
      refuses the second copy if nothing failed before it. */
  lemma {:induction false} InsertLinksDuplicateFails(bills: seq<BillRow>, tags: seq<TagRow>, links: seq<BillTag>,
                                                     billId: string, ids: seq<string>, i: nat, j: nat)
    requires i < j < |ids| && ids[i] == ids[j]
    ensures InsertLinks(bills, tags, links, billId, ids).error.Some?
    decreases i
  {
    var link := BillTag(billId, ids[0]);
    if LinkError(bills, tags, links, link).None? {
      var rest := ids[1..];
      if i == 0 {
        InsertedLinkRefused(bills, tags, links + [link], billId, rest, j - 1);
      } else {
        InsertLinksDuplicateFails(bills, tags, links + [link], billId, rest, i - 1, j - 1);
      }
    }
  }

  /** An id whose link is already in the table makes some insert fail. */
  lemma {:induction false} InsertedLinkRefused(bills: seq<BillRow>, tags: seq<TagRow>, links: seq<BillTag>,
                                               billId: string, ids: seq<string>, j: nat)
    requires j < |ids| && BillTag(billId, ids[j]) in links
    ensures InsertLinks(bills, tags, links, billId, ids).error.Some?
    decreases j
  {
    var link := BillTag(billId, ids[0]);
    if j > 0 && LinkError(bills, tags, links, link).None? {
      InsertedLinkRefused(bills, tags, links + [link], billId, ids[1..], j - 1);
    }
  }

  /** `updateBillTags(billId, ids)` on consistent tables: the bill's links are first
      all deleted; when every insert succeeds the bill is linked to exactly the ids
      and the links of every other bill are the ones it had. */
  lemma ReplaceLinks(bills: seq<BillRow>, payments: seq<PaymentRow>, tags: seq<TagRow>,
                     links: seq<BillTag>, billId: string, ids: seq<string>)
    requires Consistent(bills, payments, tags, links)
    ensures var o := InsertLinks(bills, tags, Filter(links, LinkNotOfBill(billId)), billId, ids);
      && Consistent(bills, payments, tags, o.links)
      && (forall l: BillTag :: l.billId != billId ==> (l in o.links <==> l in links))
      && (o.error.None? ==> forall t :: BillTag(billId, t) in o.links <==> t in ids)
  {
    var kept := Filter(links, LinkNotOfBill(billId));
    var o := InsertLinks(bills, tags, kept, billId, ids);
    FilterKeysUnique(links, LinkNotOfBill(billId), LinkKey());
    assert Consistent(bills, payments, tags, kept) by {
      forall i | 0 <= i < |kept| ensures HasBill(bills, kept[i].billId) && HasTag(tags, kept[i].tagId) {
        var j :| 0 <= j < |links| && links[j] == kept[i];
      }
    }
    InsertLinksConsistent(bills, payments, tags, kept, billId, ids);
    InsertLinksPrefix(bills, tags, kept, billId, ids);
    var k := InsertedCount(bills, tags, kept, billId, ids);
    var added := LinksFor(billId, ids[..k]);
    assert forall l :: l in added ==> l.billId == billId;
    forall l: BillTag | l.billId != billId ensures l in o.links <==> l in links {
      if l in links {
        var j :| 0 <= j < |links| && links[j] == l;
        assert l in kept;
      }
    }
    if o.error.None? {
      assert ids[..k] == ids;
      forall t ensures BillTag(billId, t) in o.links <==> t in ids {
        if t in ids {
          var j :| 0 <= j < |ids| && ids[j] == t;
          assert added[j] == BillTag(billId, t);
        }
        if BillTag(billId, t) in o.links {
          assert BillTag(billId, t) !in kept;
          var j :| 0 <= j < |added| && added[j] == BillTag(billId, t);
        }
      }
    }
  }

  // ---------------------------------------------------------------- payments

  /** The payment object handed to `createPayment` / `updatePayment`. `None` is a
      missing value or `null`; an amount that is NaN is bound as NULL and is `None`
      too. */
  datatype PaymentInput = PaymentInput(
    billId: Option<string>,
    amount: Option<real>,
    paymentDate: Option<string>,
    notes: Option<string>)

  /** The constraint the payment INSERT violates first: NOT NULL in column order,
      the primary key, then the foreign key. */
  function PaymentInsertError(input: PaymentInput, id: string, bills: seq<BillRow>,
                              payments: seq<PaymentRow>): Option<DbError>
  {
    if input.billId.None? then Some(NotNull("bill_id"))
    else if input.amount.None? then Some(NotNull("amount"))
    else if input.paymentDate.None? then Some(NotNull("payment_date"))
    else if HasKey(payments, PaymentKey(), id) then Some(PrimaryKey("payments"))
    else if !HasBill(bills, input.billId.value) then Some(ForeignKey)
    else None
  }

  function NewPaymentRow(input: PaymentInput, id: string, now: string): PaymentRow
    requires input.billId.Some? && input.amount.Some? && input.paymentDate.Some?
  {
    PaymentRow(id, input.billId.value, input.amount.value, input.paymentDate.value, OrNull(input.notes), now, now)
  }

  /** The constraint the payment UPDATE violates first, on a matching row. */
  function PaymentUpdateError(input: PaymentInput): Option<DbError>
  {
    if input.amount.None? then Some(NotNull("amount"))
    else if input.paymentDate.None? then Some(NotNull("payment_date"))
    else None
  }

  function UpdatedPayment(p: PaymentRow, input: PaymentInput, now: string): PaymentRow
    requires input.amount.Some? && input.paymentDate.Some?
  {
    p.(amount := input.amount.value, paymentDate := input.paymentDate.value,
       notes := OrNull(input.notes), updatedAt := now)
  }

  /** `UPDATE payments SET ... WHERE id = ?` over the whole table. */
  function UpdatePaymentRows(payments: seq<PaymentRow>, id: string, input: PaymentInput, now: string)
    : (r: seq<PaymentRow>)
    requires input.amount.Some? && input.paymentDate.Some?
    ensures |r| == |payments|
    ensures forall i :: 0 <= i < |payments| ==>
      r[i] == (if payments[i].id == id then UpdatedPayment(payments[i], input, now) else payments[i])
  {
    if payments == [] then []
    else [if payments[0].id == id then UpdatedPayment(payments[0], input, now) else payments[0]]
         + UpdatePaymentRows(payments[1..], id, input, now)
  }

  /** Inserting a payment that passed its checks keeps every constraint. */
  lemma InsertPaymentConsistent(bills: seq<BillRow>, payments: seq<PaymentRow>, tags: seq<TagRow>,
                                links: seq<BillTag>, input: PaymentInput, id: string, now: string)
    requires Consistent(bills, payments, tags, links)
    requires PaymentInsertError(input, id, bills, payments).None?
    ensures Consistent(bills, payments + [NewPaymentRow(input, id, now)], tags, links)
  {
    var row := NewPaymentRow(input, id, now);
    AppendKeysUnique(payments, row, PaymentKey());
    assert forall i :: 0 <= i < |payments| ==> (payments + [row])[i] == payments[i];
  }

  /** The payment UPDATE keeps every constraint: it changes neither the id nor the bill. */
  lemma UpdatePaymentConsistent(bills: seq<BillRow>, payments: seq<PaymentRow>, tags: seq<TagRow>,
                                links: seq<BillTag>, id: string, input: PaymentInput, now: string)
    requires Consistent(bills, payments, tags, links)
    requires PaymentUpdateError(input).None?
    ensures Consistent(bills, UpdatePaymentRows(payments, id, input, now), tags, links)
  {
    var after := UpdatePaymentRows(payments, id, input, now);
    forall i | 0 <= i < |after| ensures HasBill(bills, after[i].billId) {
      assert after[i].billId == payments[i].billId;
    }
    forall i, j | 0 <= i < |after| && 0 <= j < |after| && PaymentKey()(after[i]) == PaymentKey()(after[j])
      ensures i == j
    {
      assert PaymentKey()(payments[i]) == PaymentKey()(payments[j]);
    }
  }

  /** Reading a payment back after its UPDATE gives the new amount, date and notes. */
  lemma UpdatedPaymentReadBack(payments: seq<PaymentRow>, id: string, input: PaymentInput, now: string)
    requires input.amount.Some? && input.paymentDate.Some?
    requires HasKey(payments, PaymentKey(), id)
    ensures var r := FindPayment(UpdatePaymentRows(payments, id, input, now), id);
      && r.Some?
      && r.value.id == id
      && r.value.amount == input.amount.value
      && r.value.paymentDate == input.paymentDate.value
      && r.value.notes == OrNull(input.notes)
      && r.value.updatedAt == now
  {
    var after := UpdatePaymentRows(payments, id, input, now);
    var i :| 0 <= i < |payments| && PaymentKey()(payments[i]) == id;
    assert PaymentKey()(after[i]) == id;
    var found := FindPayment(after, id);
    var j :| 0 <= j < |after| && after[j] == found.value;
    assert payments[j].id == id;
  }

  /** Deleting a payment keeps every constraint. */
  lemma DeletePaymentConsistent(bills: seq<BillRow>, payments: seq<PaymentRow>, tags: seq<TagRow>,
                                links: seq<BillTag>, id: string)
    requires Consistent(bills, payments, tags, links)
    ensures Consistent(bills, Filter(payments, PaymentIsNot(id)), tags, links)
  {
    var after := Filter(payments, PaymentIsNot(id));
    FilterKeysUnique(payments, PaymentIsNot(id), PaymentKey());
    forall i | 0 <= i < |after| ensures HasBill(bills, after[i].billId) {
      var j :| 0 <= j < |payments| && payments[j] == after[i];
    }
  }

  // ---------------------------------------------------------------- tags

  /** The tag object handed to `createTag`. */
  datatype TagInput = TagInput(name: Option<string>, color: Option<string>)

  /** What `createTag` returns and the tag table after it. */
  datatype TagOutcome = TagOutcome(result: Result<TagRow, DbError>, tags: seq<TagRow>)

  /** `createTag`: NOT NULL, then the primary key, rethrown; a UNIQUE name conflict
      is caught and answered with the row that holds the name. */
  function TagInsert(tags: seq<TagRow>, input: TagInput, id: string, now: string): TagOutcome
  {
    if input.name.None? then TagOutcome(Err(NotNull("name")), tags)
    else if HasTag(tags, id) then TagOutcome(Err(PrimaryKey("tags")), tags)
    else
      var existing := FindTagByName(tags, input.name.value);
      if existing.Some? then TagOutcome(Ok(existing.value), tags)
      else
        var color := if Truthy(input.color) then input.color.value else DefaultTagColor;
        var row := TagRow(id, input.name.value, color, now);
        TagOutcome(Ok(row), tags + [row])
  }

  /** A new name with a fresh id inserts one row at the end, coloured as given or
      `#3B82F6` when no colour is given. */
  lemma TagInsertNew(tags: seq<TagRow>, name: string, color: Option<string>, id: string, now: string)
    requires !HasTagName(tags, name) && !HasTag(tags, id)
    ensures var o := TagInsert(tags, TagInput(Some(name), color), id, now);
      && o.result.Ok?
      && o.tags == tags + [o.result.value]
      && o.result.value.id == id && o.result.value.name == name
      && o.result.value.color == (if Truthy(color) then color.value else DefaultTagColor)
  {
  }

  /** An existing name leaves the table as it is and returns the row that has the name. */
  lemma TagInsertExisting(tags: seq<TagRow>, name: string, color: Option<string>, id: string, now: string)
    requires KeysUnique(tags, TagNameKey())
    requires HasTagName(tags, name) && !HasTag(tags, id)
    ensures var o := TagInsert(tags, TagInput(Some(name), color), id, now);
      && o.tags == tags
      && o.result.Ok?
      && o.result.value in tags
      && forall t :: t in tags && t.name == name ==> o.result.value == t
  {
    var o := TagInsert(tags, TagInput(Some(name), color), id, now);
    forall t | t in tags && t.name == name ensures o.result.value == t {
      SameKeySameElement(tags, TagNameKey(), t, o.result.value);
    }
  }

  /** Creating a tag twice under the same name gives the same row, with the same
      id, and the second call leaves the table as the first left it. */
  lemma TagInsertIdempotent(tags: seq<TagRow>, name: string, c1: Option<string>, c2: Option<string>,
                            id1: string, id2: string, now1: string, now2: string)
    requires KeysUnique(tags, TagNameKey())
    requires TagInsert(tags, TagInput(Some(name), c1), id1, now1).result.Ok?
    requires !HasTag(TagInsert(tags, TagInput(Some(name), c1), id1, now1).tags, id2)
    ensures var o1 := TagInsert(tags, TagInput(Some(name), c1), id1, now1);
      var o2 := TagInsert(o1.tags, TagInput(Some(name), c2), id2, now2);
      o2 == TagOutcome(o1.result, o1.tags)
  {
    var o1 := TagInsert(tags, TagInput(Some(name), c1), id1, now1);
    if !HasTagName(tags, name) {
      AppendKeysUnique(tags, o1.result.value, TagNameKey());
      assert o1.result.value in o1.tags;
      TagInsertExisting(o1.tags, name, c2, id2, now2);
    } else {
      TagInsertExisting(tags, name, c2, id2, now2);
    }
  }

  /** Creating a tag keeps every constraint. */
  lemma TagInsertConsistent(bills: seq<BillRow>, payments: seq<PaymentRow>, tags: seq<TagRow>,
                            links: seq<BillTag>, input: TagInput, id: string, now: string)
    requires Consistent(bills, payments, tags, links)
    ensures Consistent(bills, payments, TagInsert(tags, input, id, now).tags, links)
  {
    var o := TagInsert(tags, input, id, now);
    if o.tags != tags {
      var row := o.result.value;
      AppendKeysUnique(tags, row, TagKey());
      AppendKeysUnique(tags, row, TagNameKey());
      forall i | 0 <= i < |links| ensures HasTag(o.tags, links[i].tagId) {
        assert HasTag(tags, links[i].tagId);
        var j :| 0 <= j < |tags| && TagKey()(tags[j]) == links[i].tagId;
        assert o.tags[j] == tags[j];
      }
    }
  }
}
