/** The rows of the local store and the objects the user interface passes around.
    A SQL NULL is `None`; REAL amounts are exact `real`s; timestamps and dates are
    the text the store holds. */
module Records {
  import opened Options

  /** A row of `bills`. */
  datatype BillRow = BillRow(
    id: string,
    name: string,
    logoPath: Option<string>,
    paymentUrl: Option<string>,
    notes: Option<string>,
    dueDay: Option<int>,
    recurrenceType: Option<string>,
    nextDueDate: Option<string>,
    isArchived: bool,
    createdAt: string,
    updatedAt: string)

  /** A row of `payments`. */
  datatype PaymentRow = PaymentRow(
    id: string,
    billId: string,
    amount: real,
    paymentDate: string,
    notes: Option<string>,
    createdAt: string,
    updatedAt: string)

  /** A row of `tags`. */
  datatype TagRow = TagRow(id: string, name: string, color: string, createdAt: string)

  /** A row of `bill_tags`: primary key (bill_id, tag_id). */
  datatype BillTag = BillTag(billId: string, tagId: string)

  /** A bill row with the tags linked to it (`{ ...bill, tags }`). */
  datatype BillView = BillView(row: BillRow, tags: seq<TagRow>)

  /** The statistics record. */
  datatype Statistics = Statistics(
    totalBills: nat,
    totalPayments: nat,
    averagePayment: real,
    lowestPayment: real,
    highestPayment: real,
    totalPaid: real,
    thisYearTotal: real,
    lastYearTotal: real)

  /** The `payment_date` column, the key payments are ordered by. */
  function PaymentDate(): PaymentRow -> string { (p: PaymentRow) => p.paymentDate }

  /** A JavaScript value is truthy unless it is `null`/`undefined` or the empty string. */
  predicate Truthy(s: Option<string>)
  {
    s.Some? && s.value != ""
  }

  /** `value || ''`: the text, or the empty string for a missing value. */
  function OrEmpty(s: Option<string>): string
  {
    if s.Some? then s.value else ""
  }
}
