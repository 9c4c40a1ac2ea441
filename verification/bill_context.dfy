/** The renderer's shared state and `billReducer`, the pure transition function
    that every dispatched action goes through. */
module BillContext {
  import opened Options
  import opened Seqs
  import opened Records

  /** `{ bills, payments, tags, statistics, loading, error }`; `statistics` is
      `None` while it is the empty object `{}`. */
  datatype State = State(
    bills: seq<BillView>,
    payments: seq<PaymentRow>,
    tags: seq<TagRow>,
    statistics: Option<Statistics>,
    loading: bool,
    error: Option<string>)

  /** `initialState`: nothing loaded, not loading, no error. */
  const InitialState: State := State([], [], [], None, false, None)

  /** The actions `billReducer` handles, and any other `type` as `Other`. */
  datatype Action =
    | SetLoading(loading: bool)
    | SetError(error: Option<string>)
    | SetBills(bills: seq<BillView>)
    | AddBill(bill: BillView)
    | UpdateBill(bill: BillView)
    | DeleteBill(billId: string)
    | SetPayments(payments: seq<PaymentRow>)
    | AddPayment(payment: PaymentRow)
    | UpdatePayment(payment: PaymentRow)
    | DeletePayment(paymentId: string)
    | SetTags(tags: seq<TagRow>)
    | AddTag(tag: TagRow)
    | SetStatistics(statistics: Statistics)
    | Other(kind: string)

  /** `s.map(e => matches(e) ? x : e)`. */
  function ReplaceWhere<T>(s: seq<T>, matches: T -> bool, x: T): (r: seq<T>)
    ensures |r| == |s|
    ensures forall i :: 0 <= i < |s| ==> r[i] == (if matches(s[i]) then x else s[i])
  {
    if s == [] then [] else [if matches(s[0]) then x else s[0]] + ReplaceWhere(s[1..], matches, x)
  }

  function BillIdIs(id: string): BillView -> bool { (b: BillView) => b.row.id == id }
  function BillIdIsNot(id: string): BillView -> bool { (b: BillView) => b.row.id != id }
  function PaymentIdIs(id: string): PaymentRow -> bool { (p: PaymentRow) => p.id == id }
  function PaymentIdIsNot(id: string): PaymentRow -> bool { (p: PaymentRow) => p.id != id }

  /** `billReducer(state, action)`. Only `SET_LOADING`, `SET_ERROR` and `SET_BILLS`
      touch `loading`, only `SET_ERROR` touches `error`, only `SET_STATISTICS`
      touches `statistics`. */
  function Reduce(state: State, action: Action): (r: State)
    ensures r.loading == (if action.SetLoading? then action.loading
                          else if action.SetError? || action.SetBills? then false
                          else state.loading)
    ensures r.error == (if action.SetError? then action.error else state.error)
    ensures r.statistics == (if action.SetStatistics? then Some(action.statistics) else state.statistics)
    ensures !(action.SetBills? || action.AddBill? || action.UpdateBill? || action.DeleteBill?) ==>
      r.bills == state.bills
    ensures !(action.SetPayments? || action.AddPayment? || action.UpdatePayment? || action.DeletePayment?) ==>
      r.payments == state.payments
    ensures !(action.SetTags? || action.AddTag?) ==> r.tags == state.tags
  {
    match action
    case SetLoading(l) => state.(loading := l)
    case SetError(e) => state.(error := e, loading := false)
    case SetBills(bs) => state.(bills := bs, loading := false)
    case AddBill(b) => state.(bills := state.bills + [b])
    case UpdateBill(b) => state.(bills := ReplaceWhere(state.bills, BillIdIs(b.row.id), b))
    case DeleteBill(id) => state.(bills := Filter(state.bills, BillIdIsNot(id)))
    case SetPayments(ps) => state.(payments := ps)
    case AddPayment(p) => state.(payments := [p] + state.payments)
    case UpdatePayment(p) => state.(payments := ReplaceWhere(state.payments, PaymentIdIs(p.id), p))
    case DeletePayment(id) => state.(payments := Filter(state.payments, PaymentIdIsNot(id)))
    case SetTags(ts) => state.(tags := ts)
    case AddTag(t) => state.(tags := state.tags + [t])
    case SetStatistics(s) => state.(statistics := Some(s))
    case Other(_) => state
  }

  /** An action the reducer does not know returns the state it was given. */
  lemma OtherIsIdentity(state: State, kind: string)
    ensures Reduce(state, Other(kind)) == state
  {
  }

  /** `ADD_BILL` and `ADD_TAG` append at the end; `ADD_PAYMENT` puts the payment first. */
  lemma AddPositions(state: State, b: BillView, p: PaymentRow, t: TagRow)
    ensures var r := Reduce(state, AddBill(b)).bills;
      |r| == |state.bills| + 1 && r[|state.bills|] == b && r[..|state.bills|] == state.bills
    ensures var r := Reduce(state, AddPayment(p)).payments;
      |r| == |state.payments| + 1 && r[0] == p && r[1..] == state.payments
    ensures var r := Reduce(state, AddTag(t)).tags;
      |r| == |state.tags| + 1 && r[|state.tags|] == t && r[..|state.tags|] == state.tags
  {
  }

  /** `UPDATE_BILL` keeps the length and replaces exactly the bills with the
      payload's id; every other bill stays where it was. */
  lemma UpdateBillReplaces(state: State, b: BillView)
    ensures var r := Reduce(state, UpdateBill(b)).bills;
      && |r| == |state.bills|
      && (forall i :: 0 <= i < |r| && state.bills[i].row.id == b.row.id ==> r[i] == b)
      && (forall i :: 0 <= i < |r| && state.bills[i].row.id != b.row.id ==> r[i] == state.bills[i])
  {
  }

  /** `UPDATE_PAYMENT` keeps the length and replaces exactly the payments with the
      payload's id. */
  lemma UpdatePaymentReplaces(state: State, p: PaymentRow)
    ensures var r := Reduce(state, UpdatePayment(p)).payments;
      && |r| == |state.payments|
      && (forall i :: 0 <= i < |r| && state.payments[i].id == p.id ==> r[i] == p)
      && (forall i :: 0 <= i < |r| && state.payments[i].id != p.id ==> r[i] == state.payments[i])
  {
  }

  /** `DELETE_BILL` leaves no bill with the id, keeps every other bill, and keeps
      the order of what it keeps. */
  lemma DeleteBillRemoves(state: State, id: string)
    ensures var r := Reduce(state, DeleteBill(id)).bills;
      && (forall b :: b in r ==> b.row.id != id)
      && (forall b :: b in state.bills && b.row.id != id ==> b in r)
      && IsSubseq(r, state.bills)
  {
    FilterIsSubseq(state.bills, BillIdIsNot(id));
  }

  /** `DELETE_PAYMENT` leaves no payment with the id, keeps every other one, and
      keeps their order. */
  lemma DeletePaymentRemoves(state: State, id: string)
    ensures var r := Reduce(state, DeletePayment(id)).payments;
      && (forall p :: p in r ==> p.id != id)
      && (forall p :: p in state.payments && p.id != id ==> p in r)
      && IsSubseq(r, state.payments)
  {
    FilterIsSubseq(state.payments, PaymentIdIsNot(id));
  }

  /** Deleting a bill just added, under an id no other bill has, gives back the
      state before the add. */
  lemma AddThenDeleteBill(state: State, b: BillView)
    requires forall x :: x in state.bills ==> x.row.id != b.row.id
    ensures Reduce(Reduce(state, AddBill(b)), DeleteBill(b.row.id)) == state
  {
    var keep := BillIdIsNot(b.row.id);
    FilterConcat(state.bills, [b], keep);
    FilterKeepsAll(state.bills, keep);
    assert Filter([b], keep) == [];
  }

  /** Deleting a payment just added, under an id no other payment has, gives back
      the state before the add. */
  lemma AddThenDeletePayment(state: State, p: PaymentRow)
    requires forall x :: x in state.payments ==> x.id != p.id
    ensures Reduce(Reduce(state, AddPayment(p)), DeletePayment(p.id)) == state
  {
    var keep := PaymentIdIsNot(p.id);
    FilterConcat([p], state.payments, keep);
    FilterKeepsAll(state.payments, keep);
    assert Filter([p], keep) == [];
  }

  /** Deleting twice is deleting once. */
  lemma DeleteBillIdempotent(state: State, id: string)
    ensures var once := Reduce(state, DeleteBill(id)); Reduce(once, DeleteBill(id)) == once
  {
    var once := Reduce(state, DeleteBill(id));
    assert once == state.(bills := Filter(state.bills, BillIdIsNot(id)));
    FilterIdempotent(state.bills, BillIdIsNot(id));
  }

  lemma DeletePaymentIdempotent(state: State, id: string)
    ensures var once := Reduce(state, DeletePayment(id)); Reduce(once, DeletePayment(id)) == once
  {
    var once := Reduce(state, DeletePayment(id));
    assert once == state.(payments := Filter(state.payments, PaymentIdIsNot(id)));
    FilterIdempotent(state.payments, PaymentIdIsNot(id));
  }

  /** Updating twice with the same payload is updating once. */
  lemma {:induction false} ReplaceWhereIdempotent<T>(s: seq<T>, matches: T -> bool, x: T)
    requires matches(x)
    ensures ReplaceWhere(ReplaceWhere(s, matches, x), matches, x) == ReplaceWhere(s, matches, x)
  {
    var once := ReplaceWhere(s, matches, x);
    var twice := ReplaceWhere(once, matches, x);
    forall i | 0 <= i < |s| ensures twice[i] == once[i] {
    }
  }

  lemma UpdateBillIdempotent(state: State, b: BillView)
    ensures var once := Reduce(state, UpdateBill(b)); Reduce(once, UpdateBill(b)) == once
  {
    var once := Reduce(state, UpdateBill(b));
    assert once == state.(bills := ReplaceWhere(state.bills, BillIdIs(b.row.id), b));
    ReplaceWhereIdempotent(state.bills, BillIdIs(b.row.id), b);
  }

  lemma UpdatePaymentIdempotent(state: State, p: PaymentRow)
    ensures var once := Reduce(state, UpdatePayment(p)); Reduce(once, UpdatePayment(p)) == once
  {
    var once := Reduce(state, UpdatePayment(p));
    assert once == state.(payments := ReplaceWhere(state.payments, PaymentIdIs(p.id), p));
    ReplaceWhereIdempotent(state.payments, PaymentIdIs(p.id), p);
  }
}
