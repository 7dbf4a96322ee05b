/** What every legal operation of the sequential ledger keeps. */
module LedgerInvariants {
  import opened Options
  import opened Money
  import opened BatchSummary
  import opened Batches
  import opened ReversalReviews
  import opened Ledger

  // ----- rows -----

  lemma RowsOfAppend(rows: seq<Row>, r: Row, b: nat)
    ensures RowsOf(rows + [r], b) == RowsOf(rows, b) + if r.batch == b then [r] else []
  {
    assert (rows + [r])[..|rows|] == rows;
  }

  lemma {:induction false} RowsOfDelete(rows: seq<Row>, b: nat, tx: int, other: nat)
    requires other != b
    ensures RowsOf(DeleteReversal(rows, b, tx), other) == RowsOf(rows, other)
  {
    if |rows| > 0 {
      var front, last := rows[..|rows| - 1], rows[|rows| - 1];
      RowsOfDelete(front, b, tx, other);
      RowsOfAppend(DeleteReversal(front, b, tx), last, other);
    }
  }

  lemma {:induction false} RowsOfSet(rows: seq<Row>, b: nat, tx: int, cents: int, other: nat)
    requires other != b
    ensures RowsOf(SetReversalCents(rows, b, tx, cents), other) == RowsOf(rows, other)
  {
    if |rows| > 0 {
      var front, last := rows[..|rows| - 1], rows[|rows| - 1];
      RowsOfSet(front, b, tx, cents, other);
      var changed := if IsReversalOf(last, b, tx) then last.(cents := cents) else last;
      RowsOfAppend(SetReversalCents(front, b, tx, cents), changed, other);
    }
  }

  lemma UniqueAppend(rows: seq<Row>, r: Row)
    requires UniqueKeys(rows)
    ensures UniqueKeys(InsertRow(rows, r))
  {
    assert (rows + [r])[..|rows|] == rows;
  }

  lemma {:induction false} UniqueDelete(rows: seq<Row>, b: nat, tx: int)
    requires UniqueKeys(rows)
    ensures UniqueKeys(DeleteReversal(rows, b, tx))
  {
    if |rows| > 0 {
      var front, last := rows[..|rows| - 1], rows[|rows| - 1];
      UniqueDelete(front, b, tx);
      var kept := DeleteReversal(front, b, tx);
      assert Find(kept, last.tx, last.kind).None?;
      assert (kept + [last])[..|kept|] == kept;
    }
  }

  lemma {:induction false} FindAfterSet(rows: seq<Row>, b: nat, tx: int, cents: int, t: int, k: Kind)
    ensures Find(SetReversalCents(rows, b, tx, cents), t, k).None? <==> Find(rows, t, k).None?
  {
    if |rows| > 0 {
      var front := rows[..|rows| - 1];
      FindAfterSet(front, b, tx, cents, t, k);
      var s := SetReversalCents(rows, b, tx, cents);
      assert s[..|s| - 1] == SetReversalCents(front, b, tx, cents);
    }
  }

  lemma {:induction false} UniqueSet(rows: seq<Row>, b: nat, tx: int, cents: int)
    requires UniqueKeys(rows)
    ensures UniqueKeys(SetReversalCents(rows, b, tx, cents))
  {
    if |rows| > 0 {
      var front, last := rows[..|rows| - 1], rows[|rows| - 1];
      UniqueSet(front, b, tx, cents);
      FindAfterSet(front, b, tx, cents, last.tx, last.kind);
      var s := SetReversalCents(rows, b, tx, cents);
      assert s[..|s| - 1] == SetReversalCents(front, b, tx, cents);
    }
  }

  /** A transaction has at most one row of each kind, over all batches. */
  lemma {:induction false} AtMostOneRow(rows: seq<Row>, i: nat, j: nat)
    requires UniqueKeys(rows) && i < j < |rows|
    ensures rows[i].tx != rows[j].tx || rows[i].kind != rows[j].kind
  {
    if j == |rows| - 1 {
      assert rows[i] in rows[..j];
    } else {
      AtMostOneRow(rows[..|rows| - 1], i, j);
    }
  }

  // ----- the invariant -----

  predicate Sent(state: BatchState) {
    state == Submitted || state == Settled
  }

  predicate HeaderOk(h: Batch) {
    && !h.key.currency.Unknown?
    && h.state != PendingClose
    && (h.state == Open ==> h.summary.None?)
    && (h.state == Disputed ==> Reloads(h.summary, h.key.currency))
    && (h.state != Disputed ==> h.discrepancies == 0)
  }

  predicate BatchOk(db: Db, b: nat)
    requires b < |db.batches|
  {
    var h := db.batches[b];
    && HeaderOk(h)
    && (Counted(h.state) ==> SummaryOf(h.summary, RowsOf(db.rows, b), h.key.currency))
    && (Sent(h.state) ==> Clean(db.reviews, b))
  }

  predicate RowOk(db: Db, r: Row) {
    r.batch < |db.batches| && 0 < r.cents <= MAX_INT64 && r.currency == db.batches[r.batch].key.currency
  }

  predicate ReviewOk(db: Db, v: Review) {
    && v.batch < |db.batches|
    && (v.reopened ==> !v.resolved && v.reason != PurchaseNotFound)
    && (v.purchase.Some? ==> 0 < v.purchase.value.cents <= MAX_INT64)
  }

  predicate OneOpenPerKey(batches: seq<Batch>) {
    forall i, j ::
      (0 <= i < |batches| && 0 <= j < |batches| && batches[i].key == batches[j].key
       && batches[i].state == Open && batches[j].state == Open) ==> i == j
  }

  predicate Inv(db: Db) {
    && (forall b :: 0 <= b < |db.batches| ==> BatchOk(db, b))
    && (forall r :: r in db.rows ==> RowOk(db, r))
    && (forall tx :: tx in db.reviews ==> ReviewOk(db, db.reviews[tx]))
    && UniqueKeys(db.rows)
    && OneOpenPerKey(db.batches)
  }

  // ----- how a commit may change what another handler has read -----

  predicate Same(db: Db, n: Db, b: nat) {
    && b < |db.batches| && b < |n.batches|
    && n.batches[b] == db.batches[b]
    && RowsOf(n.rows, b) == RowsOf(db.rows, b)
    && (Clean(db.reviews, b) ==> Clean(n.reviews, b))
  }

  predicate Newer(db: Db, n: Db, b: nat) {
    && b < |db.batches| && b < |n.batches|
    && n.batches[b].version > db.batches[b].version
    && n.batches[b].key == db.batches[b].key && n.batches[b].merchant == db.batches[b].merchant
  }

  /** Every commit either leaves a batch with the header and rows it had, opening no review on it, or
      raises its version. */
  predicate Evolves(db: Db, n: Db) {
    && |db.batches| <= |n.batches|
    && (forall b :: 0 <= b < |db.batches| ==> Same(db, n, b) || Newer(db, n, b))
  }

  /** One batch changes, with a higher version; the rows and reviews of the others stay. */
  lemma OneBatchChanges(db: Db, n: Db, b: nat)
    requires Inv(db) && b < |db.batches| == |n.batches|
    requires Newer(db, n, b) && BatchOk(n, b)
    requires n.batches[b].state == Open ==> db.batches[b].state == Open || FindOpen(db.batches, db.batches[b].key).None?
    requires forall i :: 0 <= i < |db.batches| && i != b ==> Same(db, n, i)
    requires UniqueKeys(n.rows)
    requires forall r :: r in n.rows ==> RowOk(n, r)
    requires forall tx :: tx in n.reviews ==> ReviewOk(n, n.reviews[tx])
    ensures Inv(n) && Evolves(db, n)
  {
    forall i | 0 <= i < |n.batches| ensures BatchOk(n, i) {
      if i != b {
        assert BatchOk(db, i);
        SameOk(db, n, i);
      }
    }
    forall i | 0 <= i < |n.batches| && i != b ensures n.batches[i] == db.batches[i] {
      assert Same(db, n, i);
    }
    StaysOpenOnce(db.batches, n.batches, b);
  }

  lemma SameOk(db: Db, n: Db, i: nat)
    requires i < |db.batches| && BatchOk(db, i) && Same(db, n, i)
    ensures BatchOk(n, i)
  {
  }

  lemma StaysOpenOnce(before: seq<Batch>, after: seq<Batch>, b: nat)
    requires OneOpenPerKey(before) && b < |before| == |after|
    requires forall i :: 0 <= i < |after| && i != b ==> after[i] == before[i]
    requires after[b].key == before[b].key
    requires after[b].state == Open ==> before[b].state == Open || FindOpen(before, before[b].key).None?
    ensures OneOpenPerKey(after)
  {
  }

  lemma RegisterKeeps(db: Db, b: nat, ev: int, tx: int, kind: Kind, charge: Charge, reviews: Reviews)
    requires Inv(db) && InState(db, b, Open) && ValidCharge(charge, db.batches[b].key)
    requires forall i :: 0 <= i < |db.batches| && i != b && Clean(db.reviews, i) ==> Clean(reviews, i)
    requires forall t :: t in reviews ==> ReviewOk(db, reviews[t])
    ensures Inv(Register(db, b, ev, tx, kind, charge).(reviews := reviews))
    ensures Evolves(db, Register(db, b, ev, tx, kind, charge).(reviews := reviews))
  {
    var n := Register(db, b, ev, tx, kind, charge).(reviews := reviews);
    var r := Row(b, tx, kind, charge.cents, charge.currency);
    UniqueAppend(db.rows, r);
    assert BatchOk(db, b);
    forall i | 0 <= i < |db.batches| && i != b ensures Same(db, n, i) {
      RowsOfAppend(db.rows, r, i);
    }
    forall x | x in n.rows ensures RowOk(n, x) {
      assert x != r ==> RowOk(db, x);
    }
    forall t | t in n.reviews ensures ReviewOk(n, n.reviews[t]) {
      assert ReviewOk(db, reviews[t]);
    }
    OneBatchChanges(db, n, b);
  }

  lemma ReconcileKeeps(db: Db, tx: int, p: Charge)
    requires Inv(db) && 0 < p.cents <= MAX_INT64
    ensures forall i :: 0 <= i < |db.batches| && Clean(db.reviews, i) ==> Clean(Reconcile(db.reviews, tx, p), i)
    ensures forall t :: t in Reconcile(db.reviews, tx, p) ==> ReviewOk(db, Reconcile(db.reviews, tx, p)[t])
  {
  }

  lemma OpenReviewKeeps(db: Db, tx: int, b: nat, purchase: Option<Charge>, reversal: Charge)
    requires Inv(db) && b < |db.batches| && (purchase.Some? ==> 0 < purchase.value.cents <= MAX_INT64)
    ensures forall i :: 0 <= i < |db.batches| && i != b && Clean(db.reviews, i)
              ==> Clean(OpenReview(db.reviews, tx, b, purchase, reversal), i)
    ensures forall t :: t in OpenReview(db.reviews, tx, b, purchase, reversal)
              ==> ReviewOk(db, OpenReview(db.reviews, tx, b, purchase, reversal)[t])
  {
  }

  lemma ApprovalKeeps(db: Db, b: nat, ev: int, tx: int, charge: Charge)
    requires Inv(db) && InState(db, b, Open) && ValidCharge(charge, db.batches[b].key)
    ensures Inv(Approve(db, b, ev, tx, charge)) && Evolves(db, Approve(db, b, ev, tx, charge))
  {
    ReconcileKeeps(db, tx, charge);
    RegisterKeeps(db, b, ev, tx, Purchase, charge, Reconcile(db.reviews, tx, charge));
  }

  lemma ReconcileLateKeeps(db: Db, tx: int, p: Charge)
    requires Inv(db) && 0 < p.cents <= MAX_INT64
    ensures forall i :: 0 <= i < |db.batches| && Clean(db.reviews, i) ==> Clean(ReconcileLate(db.reviews, tx, p), i)
    ensures forall t :: t in ReconcileLate(db.reviews, tx, p) ==> ReviewOk(db, ReconcileLate(db.reviews, tx, p)[t])
  {
    assert tx in db.reviews ==> ReviewOk(db, db.reviews[tx]);
  }

  lemma LateApprovalKeeps(db: Db, b: nat, ev: int, tx: int, charge: Charge)
    requires Inv(db) && InState(db, b, Open) && ValidCharge(charge, db.batches[b].key)
    ensures Inv(ApproveLate(db, b, ev, tx, charge)) && Evolves(db, ApproveLate(db, b, ev, tx, charge))
  {
    ReconcileLateKeeps(db, tx, charge);
    RegisterKeeps(db, b, ev, tx, Purchase, charge, ReconcileLate(db.reviews, tx, charge));
  }

  lemma FoundPurchaseIsPositive(db: Db, tx: int)
    requires forall r :: r in db.rows ==> RowOk(db, r)
    ensures FindPurchase(db, tx).Some? ==> 0 < FindPurchase(db, tx).value.cents <= MAX_INT64
  {
    var r := Find(db.rows, tx, Purchase);
    if r.Some? {
      assert RowOk(db, r.value);
    }
  }

  lemma ReversalKeeps(db: Db, b: nat, ev: int, tx: int, charge: Charge)
    requires Inv(db) && InState(db, b, Open) && ValidCharge(charge, db.batches[b].key)
    ensures Inv(Reverse(db, b, ev, tx, charge)) && Evolves(db, Reverse(db, b, ev, tx, charge))
  {
    var d := Register(db, b, ev, tx, Reversal, charge);
    RegisterKeeps(db, b, ev, tx, Reversal, charge, db.reviews);
    FoundPurchaseIsPositive(d, tx);
    var purchase := FindPurchase(d, tx);
    OpenReviewKeeps(db, tx, b, purchase, charge);
    RegisterKeeps(db, b, ev, tx, Reversal, charge, OpenReview(db.reviews, tx, b, purchase, charge));
  }

  /** A save that touches only the header of b (and the outbox and the processed events). */
  lemma HeaderSaveKeeps(db: Db, n: Db, b: nat, h: Batch)
    requires Inv(db) && b < |db.batches|
    requires n.batches == SaveHeader(db, b, h).batches && n.rows == db.rows && n.reviews == db.reviews
    requires h.key == db.batches[b].key && h.merchant == db.batches[b].merchant && h.version == db.batches[b].version
    requires BatchOk(n, b)
    requires h.state == Open ==> FindOpen(db.batches, h.key).None?
    ensures Inv(n) && Evolves(db, n)
  {
    forall r | r in n.rows ensures RowOk(n, r) {
      assert RowOk(db, r);
    }
    forall t | t in n.reviews ensures ReviewOk(n, n.reviews[t]) {
      assert ReviewOk(db, db.reviews[t]);
    }
    OneBatchChanges(db, n, b);
  }

  lemma SaveCloseShape(db: Db, b: nat, h: Batch, always: bool, processed: set<int>)
    requires b < |db.batches| && h.summary.Some?
    ensures var n := SaveClose(db, b, h, always).(processed := processed);
            n.batches == SaveHeader(db, b, h).batches && n.rows == db.rows && n.reviews == db.reviews
  {
  }

  lemma ClosedHeaderOk(n: Db, b: nat, currency: Currency)
    requires b < |n.batches| && n.batches[b].key.currency == currency && !currency.Unknown?
    requires SummaryOf(n.batches[b].summary, RowsOf(n.rows, b), currency)
    requires n.batches[b].state == Disputed || (n.batches[b].state == Closed && n.batches[b].discrepancies == 0)
    ensures BatchOk(n, b)
  {
    ReloadAfterSave(n.batches[b].summary, RowsOf(n.rows, b), currency);
  }

  lemma SaveCloseKeeps(db: Db, b: nat, h: Batch, always: bool, processed: set<int>)
    requires Inv(db) && InState(db, b, Open)
    requires h.key == db.batches[b].key && h.merchant == db.batches[b].merchant && h.version == db.batches[b].version
    requires SummaryOf(h.summary, RowsOf(db.rows, b), h.key.currency)
    requires h.state == Disputed || (h.state == Closed && h.discrepancies == 0)
    ensures Inv(SaveClose(db, b, h, always).(processed := processed))
    ensures Evolves(db, SaveClose(db, b, h, always).(processed := processed))
  {
    assert BatchOk(db, b);
    SaveCloseShape(db, b, h, always, processed);
    var n := SaveClose(db, b, h, always).(processed := processed);
    ClosedHeaderOk(n, b, h.key.currency);
    HeaderSaveKeeps(db, n, b, h);
  }

  lemma TerminalCloseKeeps(db: Db, b: nat, ev: int, report: Report, prior: Report, held: bool)
    requires Inv(db) && InState(db, b, Open)
    ensures Inv(TerminalClose(db, b, ev, report, prior, held))
            && Evolves(db, TerminalClose(db, b, ev, report, prior, held))
  {
    var rows := RowsOf(db.rows, b);
    var terminal := Pending(report, Backend(rows, db.batches[b].key.currency), prior);
    CloseOutcome(db.batches[b], rows, terminal, held);
    SaveCloseKeeps(db, b, CloseOrHold(db.batches[b], rows, terminal, held).value, true, db.processed + {ev});
  }

  lemma AutoCloseKeeps(db: Db, b: nat, ev: int, held: bool)
    requires Inv(db) && InState(db, b, Open)
    ensures Inv(AutoClose(db, b, ev, held)) && Evolves(db, AutoClose(db, b, ev, held))
  {
    var rows := RowsOf(db.rows, b);
    var backend := Backend(rows, db.batches[b].key.currency);
    CloseOutcome(db.batches[b], rows, backend, held);
    SaveCloseKeeps(db, b, CloseOrHold(db.batches[b], rows, backend, held).value, false, db.processed + {ev});
  }

  lemma ForceCloseKeeps(db: Db, b: nat)
    requires Inv(db) && InState(db, b, Open)
    ensures Inv(ForceClose(db, b)) && Evolves(db, ForceClose(db, b))
  {
    ForceCloseOutcome(db.batches[b], RowsOf(db.rows, b));
    SaveCloseKeeps(db, b, CloseWithBackendTotals(db.batches[b], RowsOf(db.rows, b)).value, false, db.processed);
  }

  lemma OpenKeeps(db: Db, key: Key, merchant: int)
    requires Inv(db) && Legal(db, OpOpen(key, merchant))
    ensures Inv(Apply(db, OpOpen(key, merchant))) && Evolves(db, Apply(db, OpOpen(key, merchant)))
  {
    var n := Apply(db, OpOpen(key, merchant));
    var added := |db.batches|;
    forall i | 0 <= i < |n.batches| ensures BatchOk(n, i) {
      assert i != added ==> BatchOk(db, i) && Same(db, n, i);
    }
    forall r | r in n.rows ensures RowOk(n, r) {
      assert RowOk(db, r);
    }
    forall t | t in n.reviews ensures ReviewOk(n, n.reviews[t]) {
      assert ReviewOk(db, db.reviews[t]);
    }
  }

  lemma ResolvedReviewsOk(db: Db, n: Db, tx: int)
    requires Inv(db) && tx in db.reviews && |n.batches| == |db.batches|
    requires n.reviews == db.reviews[tx := db.reviews[tx].(resolved := true, reopened := false)]
    ensures forall t :: t in n.reviews ==> ReviewOk(n, n.reviews[t])
    ensures forall i :: 0 <= i < |db.batches| && Clean(db.reviews, i) ==> Clean(n.reviews, i)
  {
    forall t | t in n.reviews ensures ReviewOk(n, n.reviews[t]) {
      assert ReviewOk(db, db.reviews[t]);
    }
  }

  lemma AcceptKeeps(db: Db, tx: int)
    requires Inv(db) && LegalReview(db, tx, Accept)
    ensures Inv(ResolveReview(db, tx, Accept)) && Evolves(db, ResolveReview(db, tx, Accept))
  {
    var n := ResolveReview(db, tx, Accept);
    ResolvedReviewsOk(db, n, tx);
    forall i | 0 <= i < |db.batches| ensures BatchOk(n, i) && Same(db, n, i) {
      assert BatchOk(db, i);
    }
    forall r | r in n.rows ensures RowOk(n, r) {
      assert RowOk(db, r);
    }
  }

  /** Editing the rows of a batch that is not closed cannot contradict its header. */
  lemma EditedBatchOk(db: Db, n: Db, b: nat)
    requires b < |db.batches| && b < |n.batches| && BatchOk(db, b)
    requires db.batches[b].state == Open || db.batches[b].state == Disputed
    requires n.batches[b] == db.batches[b].(version := db.batches[b].version + 1)
    ensures BatchOk(n, b)
  {
    BumpedHeaderOk(db.batches[b], n.batches[b]);
  }

  lemma BumpedHeaderOk(h: Batch, n: Batch)
    requires HeaderOk(h) && n == h.(version := h.version + 1)
    ensures HeaderOk(n)
  {
    assert n.key == h.key && n.state == h.state && n.summary == h.summary && n.discrepancies == h.discrepancies;
  }

  lemma ExcludeKeeps(db: Db, tx: int)
    requires Inv(db) && LegalReview(db, tx, Exclude)
    ensures Inv(ResolveReview(db, tx, Exclude)) && Evolves(db, ResolveReview(db, tx, Exclude))
  {
    var b := db.reviews[tx].batch;
    var n := ResolveReview(db, tx, Exclude);
    assert BatchOk(db, b);
    EditedBatchOk(db, n, b);
    ResolvedReviewsOk(db, n, tx);
    UniqueDelete(db.rows, b, tx);
    forall i | 0 <= i < |db.batches| && i != b ensures Same(db, n, i) {
      RowsOfDelete(db.rows, b, tx, i);
    }
    forall r | r in n.rows ensures RowOk(n, r) {
      assert RowOk(db, r);
    }
    OneBatchChanges(db, n, b);
  }

  lemma {:induction false} RowsAfterSetOk(db: Db, rows: seq<Row>, b: nat, tx: int, cents: int)
    requires forall r :: r in rows ==> RowOk(db, r)
    requires 0 < cents <= MAX_INT64
    ensures forall r :: r in SetReversalCents(rows, b, tx, cents) ==> RowOk(db, r)
  {
    if |rows| > 0 {
      var front, last := rows[..|rows| - 1], rows[|rows| - 1];
      RowsAfterSetOk(db, front, b, tx, cents);
      assert RowOk(db, last);
    }
  }

  lemma UsePurchaseAmountKeeps(db: Db, tx: int)
    requires Inv(db) && LegalReview(db, tx, UsePurchaseAmount)
    ensures Inv(ResolveReview(db, tx, UsePurchaseAmount)) && Evolves(db, ResolveReview(db, tx, UsePurchaseAmount))
  {
    var b, cents := db.reviews[tx].batch, db.reviews[tx].purchase.value.cents;
    var n := ResolveReview(db, tx, UsePurchaseAmount);
    assert BatchOk(db, b) && ReviewOk(db, db.reviews[tx]);
    EditedBatchOk(db, n, b);
    ResolvedReviewsOk(db, n, tx);
    UniqueSet(db.rows, b, tx, cents);
    forall i | 0 <= i < |db.batches| && i != b ensures Same(db, n, i) {
      RowsOfSet(db.rows, b, tx, cents, i);
    }
    RowsAfterSetOk(db, db.rows, b, tx, cents);
    forall r | r in n.rows ensures RowOk(n, r) {
      assert RowOk(db, r);
    }
    OneBatchChanges(db, n, b);
  }

  /** Every legal operation keeps the invariant, and never hides a change from the version check. */
  lemma ApplyKeeps(db: Db, op: Op)
    requires Inv(db) && Legal(db, op)
    ensures Inv(Apply(db, op)) && Evolves(db, Apply(db, op))
  {
    match op
    case OpOpen(key, merchant) => OpenKeeps(db, key, merchant);
    case OpApproval(ev, key, tx, charge) => ApprovalKeeps(db, FindOpen(db.batches, key).value, ev, tx, charge);
    case OpReversal(ev, key, tx, charge) => ReversalKeeps(db, FindOpen(db.batches, key).value, ev, tx, charge);
    case OpLateApproval(ev, key, tx, charge) => LateApprovalKeeps(db, FindOpen(db.batches, key).value, ev, tx, charge);
    case OpClose(ev, key, report, prior, held) =>
      TerminalCloseKeeps(db, FindOpen(db.batches, key).value, ev, report, prior, held);
    case OpAutoClose(ev, b, held) => AutoCloseKeeps(db, b, ev, held);
    case OpForceClose(b) => ForceCloseKeeps(db, b);
    case OpSubmit(_) => HeaderOpKeeps(db, op);
    case OpHold(_) => HeaderOpKeeps(db, op);
    case OpReopen(_) => HeaderOpKeeps(db, op);
    case OpResolveDispute(_) => HeaderOpKeeps(db, op);
    case OpSettle(_) => HeaderOpKeeps(db, op);
    case OpReview(tx, Accept) => AcceptKeeps(db, tx);
    case OpReview(tx, Exclude) => ExcludeKeeps(db, tx);
    case OpReview(tx, UsePurchaseAmount) => UsePurchaseAmountKeeps(db, tx);
  }

  predicate HeaderOp(op: Op) {
    op.OpSubmit? || op.OpHold? || op.OpReopen? || op.OpResolveDispute? || op.OpSettle?
  }

  /** The header that an operator's action stores, up to its version. */
  function NewHeader(db: Db, op: Op): Batch
    requires HeaderOp(op) && Legal(db, op)
  {
    var h := db.batches[op.batch];
    match op
    case OpSubmit(_) => h.(state := Submitted)
    case OpHold(_) => h.(state := Disputed)
    case OpReopen(_) => h.(state := Open, summary := None, discrepancies := 0)
    case OpResolveDispute(b) =>
      h.(state := Closed, summary := Some(Calculate(RowsOf(db.rows, b), h.key.currency).summary), discrepancies := 0)
    case _ => h.(state := Settled)
  }

  lemma HeaderOpShape(db: Db, op: Op)
    requires HeaderOp(op) && Legal(db, op)
    ensures Apply(db, op) == SaveHeader(db, op.batch, NewHeader(db, op))
  {
  }

  /** What BatchOk asks of a header that replaces that of b. */
  predicate HeaderFits(db: Db, b: nat, h: Batch)
    requires b < |db.batches|
  {
    && h.state != PendingClose
    && (h.state == Open ==> h.summary.None?)
    && (h.state == Disputed ==> Reloads(h.summary, h.key.currency))
    && (Counted(h.state) ==> SummaryOf(h.summary, RowsOf(db.rows, b), h.key.currency))
    && (h.state != Disputed ==> h.discrepancies == 0)
    && (Sent(h.state) ==> Clean(db.reviews, b))
  }

  lemma NewHeaderFits(db: Db, op: Op)
    requires HeaderOp(op) && Legal(db, op) && BatchOk(db, op.batch)
    ensures HeaderFits(db, op.batch, NewHeader(db, op))
  {
    var h := db.batches[op.batch];
    if op.OpHold? {
      ReloadAfterSave(h.summary, RowsOf(db.rows, op.batch), h.key.currency);
    }
  }

  lemma FittingHeaderOk(db: Db, b: nat, h: Batch)
    requires b < |db.batches| && BatchOk(db, b) && HeaderFits(db, b, h) && h.key == db.batches[b].key
    ensures BatchOk(SaveHeader(db, b, h), b)
  {
  }

  lemma HeaderOpKeeps(db: Db, op: Op)
    requires Inv(db) && HeaderOp(op) && Legal(db, op)
    ensures Inv(Apply(db, op)) && Evolves(db, Apply(db, op))
  {
    var b, h := op.batch, NewHeader(db, op);
    assert BatchOk(db, b);
    HeaderOpShape(db, op);
    NewHeaderFits(db, op);
    FittingHeaderOk(db, b, h);
    HeaderSaveKeeps(db, Apply(db, op), b, h);
  }

  predicate Registers(op: Op) {
    op.OpApproval? || op.OpLateApproval? || op.OpReversal?
  }

  lemma TerminalCloseLeavesRows(db: Db, op: Op)
    requires Legal(db, op) && op.OpClose?
    ensures Apply(db, op).rows == db.rows && Apply(db, op).reviews == db.reviews
  {
    var b := FindOpen(db.batches, op.key).value;
    var rows := RowsOf(db.rows, b);
    var terminal := Pending(op.report, Backend(rows, db.batches[b].key.currency), op.prior);
    SaveCloseShape(db, b, CloseOrHold(db.batches[b], rows, terminal, op.held).value, true, db.processed + {op.ev});
  }

  lemma AutoCloseLeavesRows(db: Db, op: Op)
    requires Legal(db, op) && op.OpAutoClose?
    ensures Apply(db, op).rows == db.rows && Apply(db, op).reviews == db.reviews
  {
    var rows := RowsOf(db.rows, op.batch);
    var backend := Backend(rows, db.batches[op.batch].key.currency);
    SaveCloseShape(db, op.batch, CloseOrHold(db.batches[op.batch], rows, backend, op.held).value, false,
                   db.processed + {op.ev});
  }

  lemma ForceCloseLeavesRows(db: Db, op: Op)
    requires Legal(db, op) && op.OpForceClose?
    ensures Apply(db, op).rows == db.rows && Apply(db, op).reviews == db.reviews
  {
    SaveCloseShape(db, op.batch, CloseWithBackendTotals(db.batches[op.batch], RowsOf(db.rows, op.batch)).value, false,
                   db.processed);
  }

  /** Only registrations and decisions on reviews change rows and reviews. */
  lemma OtherOpLeavesRows(db: Db, op: Op)
    requires Legal(db, op) && !Registers(op) && !op.OpReview?
    ensures Apply(db, op).rows == db.rows && Apply(db, op).reviews == db.reviews
  {
    if op.OpClose? {
      TerminalCloseLeavesRows(db, op);
    } else if op.OpAutoClose? {
      AutoCloseLeavesRows(db, op);
    } else if op.OpForceClose? {
      ForceCloseLeavesRows(db, op);
    } else if HeaderOp(op) {
      HeaderOpShape(db, op);
    }
  }

  /** A close touches an OPEN batch. */
  lemma ClosingTouchesOpen(db: Db, op: Op)
    requires Legal(db, op) && (op.OpClose? || op.OpAutoClose? || op.OpForceClose?)
    ensures var n := Apply(db, op);
            && |n.batches| == |db.batches|
            && forall i :: 0 <= i < |db.batches| && db.batches[i].state != Open ==> n.batches[i] == db.batches[i]
  {
    var b := if op.OpClose? then FindOpen(db.batches, op.key).value else op.batch;
    var rows := RowsOf(db.rows, b);
    if op.OpClose? {
      var terminal := Pending(op.report, Backend(rows, db.batches[b].key.currency), op.prior);
      SaveCloseShape(db, b, CloseOrHold(db.batches[b], rows, terminal, op.held).value, true, db.processed + {op.ev});
    } else if op.OpAutoClose? {
      var backend := Backend(rows, db.batches[b].key.currency);
      SaveCloseShape(db, b, CloseOrHold(db.batches[b], rows, backend, op.held).value, false, db.processed + {op.ev});
    } else {
      SaveCloseShape(db, b, CloseWithBackendTotals(db.batches[b], rows).value, false, db.processed);
    }
  }

  lemma OnlyOpenAdds(db: Db, op: Op)
    requires Legal(db, op)
    ensures var n := Apply(db, op);
            |n.batches| == |db.batches| + (if op.OpOpen? then 1 else 0)
            && (op.OpOpen? ==> n.batches[|db.batches|].state == Open)
  {
    if op.OpClose? || op.OpAutoClose? || op.OpForceClose? {
      ClosingTouchesOpen(db, op);
    }
  }

  /** Apart from operators' actions on headers, nothing touches a closed batch. */
  lemma CountedStays(db: Db, op: Op, i: nat)
    requires Legal(db, op) && !HeaderOp(op) && i < |db.batches| && Counted(db.batches[i].state)
    ensures i < |Apply(db, op).batches| && Apply(db, op).batches[i] == db.batches[i]
  {
    if op.OpClose? || op.OpAutoClose? || op.OpForceClose? {
      ClosingTouchesOpen(db, op);
    }
  }

  /** The invariant holds after any log of operations. */
  lemma {:induction false} ReplayKeeps(log: seq<Op>)
    ensures Inv(Replay(log))
  {
    if |log| > 0 {
      var db, op := Replay(log[..|log| - 1]), log[|log| - 1];
      ReplayKeeps(log[..|log| - 1]);
      if Legal(db, op) {
        ApplyKeeps(db, op);
      }
    }
  }
}
