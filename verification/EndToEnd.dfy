/** From the row of a transaction to its net in the ledger. */
module EndToEnd {
  import opened Options
  import opened BatchSummary
  import opened ReversalReviews
  import opened Ledger
  import opened LedgerInvariants
  import Saga
  import SagaSafety

  /** What a transaction adds to the totals of all batches. */
  function Net(rows: seq<Row>, tx: int): int {
    if |rows| == 0 then 0
    else
      var last := rows[|rows| - 1];
      Net(rows[..|rows| - 1], tx)
      + if last.tx != tx then 0 else if last.kind == Reversal then -last.cents else last.cents
  }

  function Cents(r: Option<Row>): int {
    match r
    case None => 0
    case Some(x) => x.cents
  }

  /** With unique keys, the net is what the row of each kind says. */
  lemma {:induction false} NetByKind(rows: seq<Row>, tx: int)
    requires UniqueKeys(rows)
    ensures Net(rows, tx)
         == Cents(Find(rows, tx, Purchase)) + Cents(Find(rows, tx, Offline)) - Cents(Find(rows, tx, Reversal))
  {
    if |rows| > 0 {
      NetByKind(rows[..|rows| - 1], tx);
    }
  }

  // ----- the events of one transaction in the ledger -----

  /** The events of the transaction carry its merchant, amount and currency; its terminal belongs to that
      merchant, as every batch does to the merchant of its terminal; an operator may only accept its
      reversal as it is. */
  predicate Consistent(op: Op, tx: int, c: Charge, owner: int -> int) {
    match op
    case OpOpen(key, merchant) => merchant == owner(key.terminal)
    case OpApproval(_, key, t, charge) => t == tx ==> charge == c && owner(key.terminal) == c.merchant
    case OpReversal(_, key, t, charge) => t == tx ==> charge == c && owner(key.terminal) == c.merchant
    case OpLateApproval(_, key, t, charge) => t == tx ==> charge == c && owner(key.terminal) == c.merchant
    case OpReview(t, action) => t == tx ==> action == Accept
    case _ => true
  }

  predicate Approves(op: Op, tx: int) { (op.OpApproval? || op.OpLateApproval?) && op.tx == tx }

  predicate Reverses(op: Op, tx: int) { op.OpReversal? && op.tx == tx }

  predicate Accepts(op: Op, tx: int) { op.OpReview? && op.tx == tx && op.action == Accept }

  /** Which events of the transaction were applied, and whether an operator accepted its reversal. */
  datatype Applied = Applied(approved: bool, reversed: bool, accepted: bool)

  function After(a: Applied, op: Op, tx: int): Applied {
    Applied(a.approved || Approves(op, tx), a.reversed || Reverses(op, tx), a.accepted || Accepts(op, tx))
  }

  predicate Owned(db: Db, owner: int -> int) {
    forall b :: 0 <= b < |db.batches| ==> db.batches[b].merchant == owner(db.batches[b].key.terminal)
  }

  /** The rows and the review of the transaction, when its approval was applied or not, and its reversal. */
  predicate PurchaseIs(db: Db, tx: int, c: Charge, approved: bool) {
    match Find(db.rows, tx, Purchase)
    case None => !approved
    case Some(r) =>
      approved && r.cents == c.cents && r.currency == c.currency
      && r.batch < |db.batches| && db.batches[r.batch].merchant == c.merchant
  }

  predicate ReversalIs(rows: seq<Row>, tx: int, c: Charge, reversed: bool) {
    match Find(rows, tx, Reversal)
    case None => !reversed
    case Some(r) => reversed && r.cents == c.cents
  }

  predicate ReviewIs(reviews: Reviews, tx: int, c: Charge, a: Applied) {
    if tx in reviews then
      && a.reversed && reviews[tx].reason == PurchaseNotFound && reviews[tx].reversal == c
      && (reviews[tx].resolved <==> a.approved || a.accepted)
    else !a.accepted && (a.reversed ==> a.approved)
  }

  predicate Stands(db: Db, tx: int, c: Charge, a: Applied) {
    && PurchaseIs(db, tx, c, a.approved) && ReversalIs(db.rows, tx, c, a.reversed)
    && Find(db.rows, tx, Offline).None?
    && ReviewIs(db.reviews, tx, c, a)
  }

  lemma FindAfterInsert(rows: seq<Row>, x: Row, tx: int, kind: Kind)
    ensures Find(InsertRow(rows, x), tx, kind)
         == if x.tx == tx && x.kind == kind && Find(rows, tx, kind).None? then Some(x) else Find(rows, tx, kind)
  {
    assert (rows + [x])[..|rows|] == rows;
  }

  lemma {:induction false} FindAfterDelete(rows: seq<Row>, b: nat, other: int, tx: int, kind: Kind)
    requires other != tx
    ensures Find(DeleteReversal(rows, b, other), tx, kind) == Find(rows, tx, kind)
  {
    if |rows| > 0 {
      var front, last := rows[..|rows| - 1], rows[|rows| - 1];
      FindAfterDelete(front, b, other, tx, kind);
      var kept := DeleteReversal(front, b, other);
      assert (kept + [last])[..|kept|] == kept;
    }
  }

  lemma {:induction false} FindAfterUpdate(rows: seq<Row>, b: nat, other: int, cents: int, tx: int, kind: Kind)
    requires other != tx
    ensures Find(SetReversalCents(rows, b, other, cents), tx, kind) == Find(rows, tx, kind)
  {
    if |rows| > 0 {
      var front := rows[..|rows| - 1];
      FindAfterUpdate(front, b, other, cents, tx, kind);
      var s := SetReversalCents(rows, b, other, cents);
      assert s[..|s| - 1] == SetReversalCents(front, b, other, cents);
    }
  }

  lemma SameOwner(db: Db, n: Db, b: nat)
    requires Evolves(db, n) && b < |db.batches|
    ensures b < |n.batches| && n.batches[b].merchant == db.batches[b].merchant && n.batches[b].key == db.batches[b].key
  {
    assert Same(db, n, b) || Newer(db, n, b);
  }

  /** The purchase stays when its row does. */
  lemma PurchaseStays(db: Db, n: Db, tx: int, c: Charge, approved: bool)
    requires PurchaseIs(db, tx, c, approved) && Evolves(db, n)
    requires Find(n.rows, tx, Purchase) == Find(db.rows, tx, Purchase)
    ensures PurchaseIs(n, tx, c, approved)
  {
    var p := Find(db.rows, tx, Purchase);
    if p.Some? {
      SameOwner(db, n, p.value.batch);
    }
  }

  /** Nothing of the transaction changes. */
  lemma OthersStand(db: Db, n: Db, tx: int, c: Charge, a: Applied)
    requires Stands(db, tx, c, a) && Evolves(db, n)
    requires forall kind :: Find(n.rows, tx, kind) == Find(db.rows, tx, kind)
    requires tx in n.reviews <==> tx in db.reviews
    requires tx in db.reviews ==> n.reviews[tx] == db.reviews[tx]
    ensures Stands(n, tx, c, a)
  {
    PurchaseStays(db, n, tx, c, a.approved);
  }

  /** The row that a registration inserts, if there is none of its transaction and kind. */
  function NewRow(db: Db, op: Op): Row
    requires Legal(db, op) && Registers(op)
  {
    var kind := if op.OpReversal? then Reversal else Purchase;
    Row(FindOpen(db.batches, op.key).value, op.tx, kind, op.charge.cents, op.charge.currency)
  }

  lemma RegistrationRows(db: Db, op: Op)
    requires Legal(db, op) && Registers(op)
    ensures Apply(db, op).rows == InsertRow(db.rows, NewRow(db, op))
  {
  }

  lemma ReviewsAfterApproval(db: Db, op: Op)
    requires Legal(db, op) && (op.OpApproval? || op.OpLateApproval?)
    ensures Apply(db, op).reviews == Reconcile(db.reviews, op.tx, op.charge)
         || (Uncompared(db.reviews, op.tx) && Apply(db, op).reviews == ReconcileLate(db.reviews, op.tx, op.charge))
  {
  }

  lemma ReviewsAfterReversal(db: Db, op: Op, d: Db)
    requires Legal(db, op) && op.OpReversal?
    requires d == Register(db, FindOpen(db.batches, op.key).value, op.ev, op.tx, Reversal, op.charge)
    ensures Apply(db, op).reviews
         == OpenReview(db.reviews, op.tx, FindOpen(db.batches, op.key).value, FindPurchase(d, op.tx), op.charge)
    ensures Apply(db, op).rows == d.rows && Apply(db, op).batches == d.batches
  {
  }

  lemma ApprovedReview(reviews: Reviews, n: Reviews, tx: int, c: Charge, a: Applied)
    requires ReviewIs(reviews, tx, c, a)
    requires n == Reconcile(reviews, tx, c) || (Uncompared(reviews, tx) && n == ReconcileLate(reviews, tx, c))
    ensures ReviewIs(n, tx, c, a.(approved := true))
  {
  }

  lemma ReversedReview(reviews: Reviews, tx: int, b: nat, c: Charge, a: Applied)
    requires ReviewIs(reviews, tx, c, a)
    ensures ReviewIs(OpenReview(reviews, tx, b, if a.approved then Some(c) else None, c), tx, c, a.(reversed := true))
  {
  }

  /** The registered purchase is the one of the inserted row, or the one that was there. */
  lemma PurchaseInserted(db: Db, op: Op, c: Charge, owner: int -> int, approved: bool)
    requires Inv(db) && Legal(db, op) && (op.OpApproval? || op.OpLateApproval?)
    requires Consistent(op, op.tx, c, owner) && Owned(db, owner)
    requires PurchaseIs(db, op.tx, c, approved)
    ensures PurchaseIs(Apply(db, op), op.tx, c, true)
  {
    var n := Apply(db, op);
    ApplyKeeps(db, op);
    RegistrationRows(db, op);
    FindAfterInsert(db.rows, NewRow(db, op), op.tx, Purchase);
    SameOwner(db, n, Find(n.rows, op.tx, Purchase).value.batch);
  }

  lemma ApprovalStands(db: Db, op: Op, tx: int, c: Charge, owner: int -> int, a: Applied)
    requires Inv(db) && Legal(db, op) && Approves(op, tx) && Consistent(op, tx, c, owner) && Owned(db, owner)
    requires Stands(db, tx, c, a)
    ensures Stands(Apply(db, op), tx, c, a.(approved := true))
  {
    PurchaseInserted(db, op, c, owner, a.approved);
    RegistrationRows(db, op);
    FindAfterInsert(db.rows, NewRow(db, op), tx, Reversal);
    FindAfterInsert(db.rows, NewRow(db, op), tx, Offline);
    ReviewsAfterApproval(db, op);
    ApprovedReview(db.reviews, Apply(db, op).reviews, tx, c, a);
  }

  lemma FoundPurchase(d: Db, tx: int, c: Charge, approved: bool)
    requires PurchaseIs(d, tx, c, approved)
    ensures FindPurchase(d, tx) == if approved then Some(c) else None
  {
  }

  lemma ReversalStands(db: Db, op: Op, tx: int, c: Charge, owner: int -> int, a: Applied)
    requires Inv(db) && Legal(db, op) && Reverses(op, tx) && Consistent(op, tx, c, owner)
    requires Stands(db, tx, c, a)
    ensures Stands(Apply(db, op), tx, c, a.(reversed := true))
  {
    var b, n := FindOpen(db.batches, op.key).value, Apply(db, op);
    var d := Register(db, b, op.ev, tx, Reversal, c);
    ReviewsAfterReversal(db, op, d);
    RegistrationRows(db, op);
    FindAfterInsert(db.rows, NewRow(db, op), tx, Purchase);
    FindAfterInsert(db.rows, NewRow(db, op), tx, Reversal);
    FindAfterInsert(db.rows, NewRow(db, op), tx, Offline);
    StepEvolves(db, op);
    PurchaseStays(db, n, tx, c, a.approved);
    FoundPurchase(d, tx, c, a.approved);
    ReversedReview(db.reviews, tx, b, c, a);
  }

  lemma StepEvolves(db: Db, op: Op)
    requires Inv(db) && Legal(db, op)
    ensures Evolves(db, Apply(db, op))
  {
    ApplyKeeps(db, op);
  }

  lemma OtherReviewsStay(db: Db, op: Op, tx: int)
    requires Legal(db, op) && (Registers(op) || op.OpReview?) && op.tx != tx
    ensures tx in Apply(db, op).reviews <==> tx in db.reviews
    ensures tx in db.reviews ==> Apply(db, op).reviews[tx] == db.reviews[tx]
  {
  }

  lemma OtherEventStands(db: Db, op: Op, tx: int, c: Charge, a: Applied)
    requires Inv(db) && Legal(db, op) && Registers(op) && op.tx != tx
    requires Stands(db, tx, c, a)
    ensures Stands(Apply(db, op), tx, c, a)
  {
    RegistrationRows(db, op);
    forall kind ensures Find(Apply(db, op).rows, tx, kind) == Find(db.rows, tx, kind) {
      FindAfterInsert(db.rows, NewRow(db, op), tx, kind);
    }
    OtherReviewsStay(db, op, tx);
    StepEvolves(db, op);
    OthersStand(db, Apply(db, op), tx, c, a);
  }

  lemma RowsAfterReview(db: Db, op: Op, tx: int, kind: Kind)
    requires Legal(db, op) && op.OpReview? && op.tx != tx
    ensures Find(Apply(db, op).rows, tx, kind) == Find(db.rows, tx, kind)
  {
    var v := db.reviews[op.tx];
    FindAfterDelete(db.rows, v.batch, op.tx, tx, kind);
    if v.purchase.Some? {
      FindAfterUpdate(db.rows, v.batch, op.tx, v.purchase.value.cents, tx, kind);
    }
  }

  lemma OtherReviewStands(db: Db, op: Op, tx: int, c: Charge, a: Applied)
    requires Inv(db) && Legal(db, op) && op.OpReview? && op.tx != tx
    requires Stands(db, tx, c, a)
    ensures Stands(Apply(db, op), tx, c, a)
  {
    forall kind ensures Find(Apply(db, op).rows, tx, kind) == Find(db.rows, tx, kind) {
      RowsAfterReview(db, op, tx, kind);
    }
    OtherReviewsStay(db, op, tx);
    StepEvolves(db, op);
    OthersStand(db, Apply(db, op), tx, c, a);
  }

  /** An operator accepts the reversal: its review is resolved, and nothing else changes. */
  lemma AcceptanceStands(db: Db, op: Op, tx: int, c: Charge, a: Applied)
    requires Inv(db) && Legal(db, op) && Accepts(op, tx) && Stands(db, tx, c, a)
    ensures Stands(Apply(db, op), tx, c, a.(accepted := true))
  {
    StepEvolves(db, op);
    AcceptedReview(db, op, tx);
    PurchaseStays(db, Apply(db, op), tx, c, a.approved);
  }

  lemma AcceptedReview(db: Db, op: Op, tx: int)
    requires Legal(db, op) && Accepts(op, tx)
    ensures tx in db.reviews && !db.reviews[tx].resolved && Apply(db, op).rows == db.rows
    ensures Apply(db, op).reviews == db.reviews[tx := db.reviews[tx].(resolved := true, reopened := false)]
  {
  }

  lemma HeaderOpStands(db: Db, op: Op, tx: int, c: Charge, a: Applied)
    requires Inv(db) && Legal(db, op) && !Registers(op) && !op.OpReview?
    requires Stands(db, tx, c, a)
    ensures Stands(Apply(db, op), tx, c, a)
  {
    StepEvolves(db, op);
    OtherOpLeavesRows(db, op);
    OthersStand(db, Apply(db, op), tx, c, a);
  }

  lemma StepStands(db: Db, op: Op, tx: int, c: Charge, owner: int -> int, a: Applied)
    requires Inv(db) && Legal(db, op) && Consistent(op, tx, c, owner) && Owned(db, owner)
    requires Stands(db, tx, c, a)
    ensures Stands(Apply(db, op), tx, c, After(a, op, tx))
  {
    if Approves(op, tx) {
      ApprovalStands(db, op, tx, c, owner, a);
    } else if Reverses(op, tx) {
      ReversalStands(db, op, tx, c, owner, a);
    } else if Registers(op) {
      OtherEventStands(db, op, tx, c, a);
    } else if Accepts(op, tx) {
      AcceptanceStands(db, op, tx, c, a);
    } else if op.OpReview? {
      OtherReviewStands(db, op, tx, c, a);
    } else {
      HeaderOpStands(db, op, tx, c, a);
    }
  }

  lemma StepOwned(db: Db, op: Op, tx: int, c: Charge, owner: int -> int)
    requires Inv(db) && Legal(db, op) && Consistent(op, tx, c, owner) && Owned(db, owner)
    ensures Owned(Apply(db, op), owner)
  {
    var n := Apply(db, op);
    ApplyKeeps(db, op);
    forall b | 0 <= b < |n.batches| ensures n.batches[b].merchant == owner(n.batches[b].key.terminal) {
      if b < |db.batches| {
        SameOwner(db, n, b);
      } else {
        OnlyOpenAdds(db, op);
      }
    }
  }

  predicate AllConsistent(log: seq<Op>, tx: int, c: Charge, owner: int -> int) {
    |log| == 0 || (AllConsistent(log[..|log| - 1], tx, c, owner) && Consistent(log[|log| - 1], tx, c, owner))
  }

  /** The log holds an approval, or a reversal, of the transaction. */
  predicate HasApproval(log: seq<Op>, tx: int) {
    |log| > 0 && (HasApproval(log[..|log| - 1], tx) || Approves(log[|log| - 1], tx))
  }

  predicate HasReversal(log: seq<Op>, tx: int) {
    |log| > 0 && (HasReversal(log[..|log| - 1], tx) || Reverses(log[|log| - 1], tx))
  }

  predicate HasAcceptance(log: seq<Op>, tx: int) {
    |log| > 0 && (HasAcceptance(log[..|log| - 1], tx) || Accepts(log[|log| - 1], tx))
  }

  function AppliedIn(log: seq<Op>, tx: int): Applied {
    Applied(HasApproval(log, tx), HasReversal(log, tx), HasAcceptance(log, tx))
  }

  lemma {:induction false} LogStands(log: seq<Op>, tx: int, c: Charge, owner: int -> int)
    requires LegalLog(log) && AllConsistent(log, tx, c, owner)
    ensures Stands(Replay(log), tx, c, AppliedIn(log, tx)) && Owned(Replay(log), owner)
  {
    if |log| > 0 {
      var front, op := log[..|log| - 1], log[|log| - 1];
      LogStands(front, tx, c, owner);
      ReplayKeeps(front);
      StepStands(Replay(front), op, tx, c, owner, AppliedIn(front, tx));
      StepOwned(Replay(front), op, tx, c, owner);
    }
  }

  /** In whatever order its events are applied, repeated or not, a transaction adds its amount once it is
      approved and takes it away once it is reversed; a review stays open exactly while the reversal
      waits for its approval and no operator has accepted it. */
  lemma NetOfLog(log: seq<Op>, tx: int, c: Charge, owner: int -> int)
    requires LegalLog(log) && AllConsistent(log, tx, c, owner)
    ensures var db := Replay(log);
            && Net(db.rows, tx) ==
               (if HasApproval(log, tx) then c.cents else 0) - (if HasReversal(log, tx) then c.cents else 0)
            && (OpenReason(db.reviews, tx).Some? <==>
                  HasReversal(log, tx) && !HasApproval(log, tx) && !HasAcceptance(log, tx))
  {
    LogStands(log, tx, c, owner);
    ReplayKeeps(log);
    NetByKind(Replay(log).rows, tx);
  }

  // ----- with the saga -----

  /** Every won save was published, and everything published was applied to the ledger. */
  predicate Delivered(l: Saga.Local, log: seq<Op>, tx: int) {
    && (Saga.Approved in l.saves ==> l.published.approved > 0)
    && (Saga.Reversed in l.saves ==> l.published.reversed > 0)
    && (HasApproval(log, tx) <==> l.published.approved > 0)
    && (HasReversal(log, tx) <==> l.published.reversed > 0)
  }

  lemma RowDecides(l: Saga.Local, log: seq<Op>, tx: int)
    requires SagaSafety.Safe(l) && Delivered(l, log, tx)
    ensures Saga.InState(l, Saga.Approved) ==> HasApproval(log, tx) && !HasReversal(log, tx)
    ensures !Saga.InState(l, Saga.Approved) ==> (HasApproval(log, tx) <==> HasReversal(log, tx))
  {
  }
}
