/** The settlement ledger as a sequential system: the tables, and each committed operation applied in
    one step to the current tables. LedgerClients.dfy shows that the concurrent handlers, which read
    headers, rows and reviews in separate unlocked steps, have no other effect. */
module Ledger {
  import opened Options
  import opened Money
  import opened BatchSummary
  import opened Batches
  import opened ReversalReviews

  /** An outbox entry of BatchClosed. */
  datatype Entry = Entry(batch: nat, version: nat, count: nat, cents: int, discrepancies: nat)

  /** The tables. A batch id is its position in creation order. */
  datatype Db = Db(
    batches: seq<Batch>, rows: seq<Row>, reviews: Reviews, processed: set<int>, outbox: seq<Entry>)

  const EMPTY := Db([], [], map[], {}, [])

  // ----- rows, unique by (transaction_id, tx_type) -----

  function Find(rows: seq<Row>, tx: int, kind: Kind): (r: Option<Row>)
    ensures r.Some? ==> r.value in rows && r.value.tx == tx && r.value.kind == kind
    ensures r.None? ==> forall x :: x in rows ==> !(x.tx == tx && x.kind == kind)
  {
    if |rows| == 0 then None
    else
      var last := rows[|rows| - 1];
      if last.tx == tx && last.kind == kind then Some(last) else Find(rows[..|rows| - 1], tx, kind)
  }

  predicate UniqueKeys(rows: seq<Row>) {
    |rows| == 0 || (
      var last := rows[|rows| - 1];
      UniqueKeys(rows[..|rows| - 1]) && Find(rows[..|rows| - 1], last.tx, last.kind).None?)
  }

  /** INSERT ... ON CONFLICT (transaction_id, tx_type) DO NOTHING. */
  function InsertRow(rows: seq<Row>, r: Row): seq<Row> {
    if Find(rows, r.tx, r.kind).Some? then rows else rows + [r]
  }

  function InsertRows(rows: seq<Row>, news: seq<Row>): seq<Row> {
    if |news| == 0 then rows
    else InsertRow(InsertRows(rows, news[..|news| - 1]), news[|news| - 1])
  }

  function RowsOf(rows: seq<Row>, batch: nat): seq<Row> {
    if |rows| == 0 then []
    else
      var s := RowsOf(rows[..|rows| - 1], batch);
      if rows[|rows| - 1].batch == batch then s + [rows[|rows| - 1]] else s
  }

  /** The DELETE and the UPDATE behind EXCLUDE and USE_PURCHASE_AMOUNT. */
  predicate IsReversalOf(r: Row, batch: nat, tx: int) {
    r.batch == batch && r.tx == tx && r.kind == Reversal
  }

  function DeleteReversal(rows: seq<Row>, batch: nat, tx: int): (s: seq<Row>)
    ensures forall r :: r in s ==> r in rows
  {
    if |rows| == 0 then []
    else
      var s := DeleteReversal(rows[..|rows| - 1], batch, tx);
      if IsReversalOf(rows[|rows| - 1], batch, tx) then s else s + [rows[|rows| - 1]]
  }

  function SetReversalCents(rows: seq<Row>, batch: nat, tx: int, cents: int): seq<Row> {
    if |rows| == 0 then []
    else
      var last := rows[|rows| - 1];
      SetReversalCents(rows[..|rows| - 1], batch, tx, cents)
      + [if IsReversalOf(last, batch, tx) then last.(cents := cents) else last]
  }

  // ----- batches -----

  function FindOpen(batches: seq<Batch>, key: Key): (b: Option<nat>)
    ensures b.Some? ==> b.value < |batches| && batches[b.value].key == key && batches[b.value].state == Open
    ensures b.None? ==> forall i :: 0 <= i < |batches| && batches[i].key == key ==> batches[i].state != Open
  {
    if |batches| == 0 then None
    else
      var last := |batches| - 1;
      if batches[last].key == key && batches[last].state == Open then Some(last)
      else FindOpen(batches[..last], key)
  }

  predicate Counted(state: BatchState) {
    state == Closed || state == Submitted || state == Settled
  }

  /** ClosedTotalsForTerminalDay, over the first n batches and over all of them. */
  function ClosedUpTo(batches: seq<Batch>, n: nat, key: Key, exclude: nat): Report
    requires n <= |batches|
  {
    if n == 0 then Report(0, 0)
    else
      var rest := ClosedUpTo(batches, n - 1, key, exclude);
      var b := batches[n - 1];
      if b.key == key && n - 1 != exclude && Counted(b.state) && b.summary.Some? then
        Report(rest.count + b.summary.value.totalCount, rest.cents + b.summary.value.totalCents)
      else rest
  }

  function ClosedTotals(batches: seq<Batch>, key: Key, exclude: nat): Report {
    ClosedUpTo(batches, |batches|, key, exclude)
  }

  /** pendingTerminalTotals: the totals that the close compares with the rows. */
  function Pending(report: Report, backend: Report, prior: Report): Report {
    if report == backend then backend
    else if prior.count > 0 && report == Report(backend.count + prior.count, backend.cents + prior.cents) then backend
    else report
  }

  function SaveHeader(db: Db, b: nat, n: Batch): Db
    requires b < |db.batches|
  {
    db.(batches := db.batches[b := n.(version := n.version + 1)])
  }

  // ----- operations -----

  datatype ReviewAction = Accept | UsePurchaseAmount | Exclude

  /** One committed database transaction. `prior` and `held` are what a close observed before its
      saving transaction: the totals of earlier batches, and whether it saw an open review. A late approval
      is one whose comparison waited for an operator's decision on the review. */
  datatype Op =
    | OpOpen(key: Key, merchant: int)
    | OpApproval(ev: int, key: Key, tx: int, charge: Charge)
    | OpReversal(ev: int, key: Key, tx: int, charge: Charge)
    | OpLateApproval(ev: int, key: Key, tx: int, charge: Charge)
    | OpClose(ev: int, key: Key, report: Report, prior: Report, held: bool)
    | OpAutoClose(ev: int, batch: nat, held: bool)
    | OpForceClose(batch: nat)
    | OpSubmit(batch: nat)
    | OpHold(batch: nat)
    | OpReopen(batch: nat)
    | OpResolveDispute(batch: nat)
    | OpSettle(batch: nat)
    | OpReview(tx: int, action: ReviewAction)
  {
    predicate HasEvent() { OpApproval? || OpReversal? || OpLateApproval? || OpClose? || OpAutoClose? }
  }

  predicate InState(db: Db, b: nat, state: BatchState) {
    b < |db.batches| && db.batches[b].state == state
  }

  predicate ValidCharge(c: Charge, key: Key) {
    0 < c.cents <= MAX_INT64 && c.currency == key.currency && !key.currency.Unknown?
  }

  predicate LegalReview(db: Db, tx: int, action: ReviewAction) {
    && tx in db.reviews && !db.reviews[tx].resolved
    && var v := db.reviews[tx];
    && (action != Accept ==>
          && (InState(db, v.batch, Open) || InState(db, v.batch, Disputed))
          && Find(db.rows, tx, Reversal).Some? && Find(db.rows, tx, Reversal).value.batch == v.batch)
    && (action == UsePurchaseAmount ==> v.reason == AmountMismatch && v.purchase.Some?)
  }

  /** When the sequential handler commits, rather than skipping a duplicate or refusing. */
  predicate Legal(db: Db, op: Op) {
    && (op.HasEvent() ==> op.ev !in db.processed)
    && match op
       case OpOpen(key, _) => FindOpen(db.batches, key).None? && !key.currency.Unknown?
       case OpApproval(_, key, _, charge) => FindOpen(db.batches, key).Some? && ValidCharge(charge, key)
       case OpReversal(_, key, _, charge) => FindOpen(db.batches, key).Some? && ValidCharge(charge, key)
       case OpLateApproval(_, key, tx, charge) =>
         FindOpen(db.batches, key).Some? && ValidCharge(charge, key)
         && Uncompared(db.reviews, tx) && db.reviews[tx].batch != FindOpen(db.batches, key).value
       case OpClose(_, key, _, _, held) =>
         FindOpen(db.batches, key).Some? && (held || Clean(db.reviews, FindOpen(db.batches, key).value))
       case OpAutoClose(_, b, held) => InState(db, b, Open) && (held || Clean(db.reviews, b))
       case OpForceClose(b) => InState(db, b, Open)
       case OpSubmit(b) => InState(db, b, Closed) && db.batches[b].discrepancies == 0 && Clean(db.reviews, b)
       case OpHold(b) => InState(db, b, Closed)
       case OpReopen(b) => InState(db, b, Disputed) && FindOpen(db.batches, db.batches[b].key).None?
       case OpResolveDispute(b) => InState(db, b, Disputed) && Clean(db.reviews, b)
       case OpSettle(b) => InState(db, b, Submitted)
       case OpReview(tx, action) => LegalReview(db, tx, action)
  }

  /** FindPurchaseTx: an inner join, so a purchase without its batch is not found. */
  function FindPurchase(db: Db, tx: int): Option<Charge> {
    match Find(db.rows, tx, Purchase)
    case None => None
    case Some(r) =>
      if r.batch < |db.batches| then Some(Charge(db.batches[r.batch].merchant, r.cents, r.currency)) else None
  }

  /** RegisterApproval and RegisterReversal on the open batch b. */
  function Register(db: Db, b: nat, ev: int, tx: int, kind: Kind, charge: Charge): Db
    requires b < |db.batches|
  {
    SaveHeader(db, b, db.batches[b]).(
      rows := InsertRow(db.rows, Row(b, tx, kind, charge.cents, charge.currency)),
      processed := db.processed + {ev})
  }

  function Approve(db: Db, b: nat, ev: int, tx: int, charge: Charge): Db
    requires b < |db.batches|
  {
    Register(db, b, ev, tx, Purchase, charge).(reviews := Reconcile(db.reviews, tx, charge))
  }

  function ApproveLate(db: Db, b: nat, ev: int, tx: int, charge: Charge): Db
    requires b < |db.batches|
  {
    Register(db, b, ev, tx, Purchase, charge).(reviews := ReconcileLate(db.reviews, tx, charge))
  }

  function Reverse(db: Db, b: nat, ev: int, tx: int, charge: Charge): Db
    requires b < |db.batches|
  {
    var d := Register(db, b, ev, tx, Reversal, charge);
    d.(reviews := OpenReview(db.reviews, tx, b, FindPurchase(d, tx), charge))
  }

  function Enqueue(db: Db, b: nat, n: Batch, count: nat): Db
    requires n.summary.Some?
  {
    db.(outbox := db.outbox + [Entry(b, n.version + 1, count, n.summary.value.totalCents, n.discrepancies)])
  }

  /** Save a closed header with its BatchClosed entry; an empty batch reports nothing, unless the
      terminal asked for the close. */
  function SaveClose(db: Db, b: nat, n: Batch, always: bool): Db
    requires b < |db.batches| && n.summary.Some?
  {
    var count := |RowsOf(db.rows, b)|;
    var d := SaveHeader(db, b, n);
    if always || count > 0 then Enqueue(d, b, n, count) else d
  }

  function TerminalClose(db: Db, b: nat, ev: int, report: Report, prior: Report, held: bool): Db
    requires InState(db, b, Open)
  {
    var rows := RowsOf(db.rows, b);
    var terminal := Pending(report, Backend(rows, db.batches[b].key.currency), prior);
    SaveClose(db, b, CloseOrHold(db.batches[b], rows, terminal, held).value, true).(processed := db.processed + {ev})
  }

  function AutoClose(db: Db, b: nat, ev: int, held: bool): Db
    requires InState(db, b, Open)
  {
    var rows := RowsOf(db.rows, b);
    var backend := Backend(rows, db.batches[b].key.currency);
    SaveClose(db, b, CloseOrHold(db.batches[b], rows, backend, held).value, false).(processed := db.processed + {ev})
  }

  function ForceClose(db: Db, b: nat): Db
    requires InState(db, b, Open)
  {
    SaveClose(db, b, CloseWithBackendTotals(db.batches[b], RowsOf(db.rows, b)).value, false)
  }

  function ResolveReview(db: Db, tx: int, action: ReviewAction): Db
    requires LegalReview(db, tx, action)
  {
    var v := db.reviews[tx];
    var d := db.(reviews := db.reviews[tx := v.(resolved := true, reopened := false)]);
    match action
    case Accept => d
    case Exclude => SaveHeader(d, v.batch, d.batches[v.batch]).(rows := DeleteReversal(d.rows, v.batch, tx))
    case UsePurchaseAmount =>
      SaveHeader(d, v.batch, d.batches[v.batch]).(rows := SetReversalCents(d.rows, v.batch, tx, v.purchase.value.cents))
  }

  function Apply(db: Db, op: Op): Db
    requires Legal(db, op)
  {
    match op
    case OpOpen(key, merchant) => db.(batches := db.batches + [Batch(key, merchant, Open, None, 0, 0)])
    case OpApproval(ev, key, tx, charge) => Approve(db, FindOpen(db.batches, key).value, ev, tx, charge)
    case OpReversal(ev, key, tx, charge) => Reverse(db, FindOpen(db.batches, key).value, ev, tx, charge)
    case OpLateApproval(ev, key, tx, charge) => ApproveLate(db, FindOpen(db.batches, key).value, ev, tx, charge)
    case OpClose(ev, key, report, prior, held) =>
      TerminalClose(db, FindOpen(db.batches, key).value, ev, report, prior, held)
    case OpAutoClose(ev, b, held) => AutoClose(db, b, ev, held)
    case OpForceClose(b) => ForceClose(db, b)
    case OpSubmit(b) => SaveHeader(db, b, db.batches[b].(state := Submitted))
    case OpHold(b) => SaveHeader(db, b, db.batches[b].(state := Disputed))
    case OpReopen(b) => SaveHeader(db, b, Reopen(db.batches[b]).value)
    case OpResolveDispute(b) => SaveHeader(db, b, ResolveDispute(db.batches[b], RowsOf(db.rows, b)).value)
    case OpSettle(b) => SaveHeader(db, b, db.batches[b].(state := Settled))
    case OpReview(tx, action) => ResolveReview(db, tx, action)
  }

  /** Replay of a log from the empty tables. An operation that is not legal has no effect. */
  function Replay(log: seq<Op>): Db {
    if |log| == 0 then EMPTY
    else
      var db := Replay(log[..|log| - 1]);
      var op := log[|log| - 1];
      if Legal(db, op) then Apply(db, op) else db
  }

  predicate LegalLog(log: seq<Op>) {
    |log| == 0 || (LegalLog(log[..|log| - 1]) && Legal(Replay(log[..|log| - 1]), log[|log| - 1]))
  }

  function EventsOf(log: seq<Op>): set<int> {
    if |log| == 0 then {}
    else EventsOf(log[..|log| - 1]) + if log[|log| - 1].HasEvent() then {log[|log| - 1].ev} else {}
  }
}
