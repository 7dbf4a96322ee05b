/** The operator actions and the automatic close, as methods that run from start to end on the tables of
    SettlementService.dfy. Each does exactly one sequential operation, or nothing when it is refused. */
module SettlementAdmin {
  import opened Options
  import opened BatchSummary
  import opened Batches
  import opened SettlementBatches
  import opened ReversalReviews
  import opened Ledger
  import opened LedgerInvariants
  import opened LedgerRefinement
  import opened LedgerCorrections
  import opened SettlementService
  import opened LedgerDays
  import DailyCompletion

  /** The operation, when it is legal. */
  function Effect(db: Db, op: Op): Db {
    if Legal(db, op) then Apply(db, op) else db
  }

  lemma EffectKeeps(db: Db, op: Op)
    requires Inv(db)
    ensures Inv(Effect(db, op))
  {
    if Legal(db, op) {
      ApplyKeeps(db, op);
    }
  }

  /** A closed batch without discrepancies and open reviews. */
  predicate MaySubmit(db: Db, b: nat) {
    InState(db, b, Closed) && db.batches[b].discrepancies == 0 && NoOpenReview(db.reviews, b)
  }

  /** autoCloseBatch: close, and submit what is left CLOSED with rows if the processor accepts it. */
  function AutoClosed(db: Db, b: nat, ev: int, accepts: bool): Db {
    var op := OpAutoClose(ev, b, CountOpen(db.reviews, b) > 0);
    var closed := Effect(db, op);
    if Legal(db, op) && accepts && InState(closed, b, Closed) && |RowsOf(db.rows, b)| > 0
    then Effect(closed, OpSubmit(b)) else closed
  }

  /** One turn of CloseStaleBatches, which may fail before it changes anything. */
  datatype Turn = Turn(db: Db, closed: nat, failed: nat)

  datatype Sweep = Sweep(event: nat -> int, accepts: nat -> bool, fails: nat -> bool)

  /** The batch is closed now: it is OPEN, and the event of the run is new. */
  predicate AutoCloses(db: Db, b: nat, ev: int) {
    InState(db, b, Open) && ev !in db.processed
  }

  /** CloseStaleBatches: each listed batch in turn, with the counts that it returns. */
  function Swept(db: Db, ids: seq<nat>, sweep: Sweep): Turn {
    if |ids| == 0 then Turn(db, 0, 0)
    else
      var t, b := Swept(db, ids[..|ids| - 1], sweep), ids[|ids| - 1];
      if sweep.fails(b) then t.(failed := t.failed + 1)
      else
        Turn(AutoClosed(t.db, b, sweep.event(b), sweep.accepts(b)),
             t.closed + if AutoCloses(t.db, b, sweep.event(b)) then 1 else 0, t.failed)
  }

  /** What is enqueued for the day of a batch, with these tables. */
  predicate Completion(db: Db, b: nat, events: seq<DailyCompletion.Completed>) {
    b < |db.batches| &&
    var lines := DayLines(db, |db.batches|, db.batches[b].merchant, db.batches[b].key.date);
    if DailyCompletion.AllSettled(lines) then DailyCompletion.Summarizes(events, lines) else |events| == 0
  }

  predicate Corrects(db: Db, tx: int, v: Review, action: ReviewAction) {
    && (InState(db, v.batch, Open) || InState(db, v.batch, Disputed))
    && Find(db.rows, tx, Reversal).Some? && Find(db.rows, tx, Reversal).value.batch == v.batch
    && (action == UsePurchaseAmount ==> v.reason == AmountMismatch && v.purchase.Some?)
  }

  function Corrected(db: Db, tx: int, v: Review, action: ReviewAction): Db
    requires Corrects(db, tx, v, action)
  {
    SaveHeader(db, v.batch, db.batches[v.batch]).(
      rows := if action == UsePurchaseAmount then SetReversalCents(db.rows, v.batch, tx, v.purchase.value.cents)
              else DeleteReversal(db.rows, v.batch, tx))
  }

  lemma CorrectionIs(db: Db, tx: int, action: ReviewAction)
    requires tx in db.reviews && !db.reviews[tx].resolved && action != Accept
    ensures var v := db.reviews[tx];
            && (Corrects(db, tx, v, action) <==> LegalReview(db, tx, action))
            && (LegalReview(db, tx, action) ==>
                  ResolveReview(db, tx, action)
                  == Corrected(db, tx, v, action).(
                       reviews := db.reviews[tx := v.(resolved := true, reopened := false)]))
  {
  }

  lemma ForceCloseIs(db: Db, b: nat)
    requires InState(db, b, Open)
    ensures var n := CloseWithBackendTotals(db.batches[b], RowsOf(db.rows, b)).value;
            && n.state != Open && n.version == db.batches[b].version
            && Effect(db, OpForceClose(b)) == SaveClose(db, b, n, false)
  {
    ForceCloseOutcome(db.batches[b], RowsOf(db.rows, b));
  }

  /** What the close in memory makes of the header of an OPEN batch. */
  predicate IsAutoClosed(h: Batch, rows: seq<Row>, held: bool, n: Batch) {
    CloseOrHold(h, rows, Backend(rows, h.key.currency), held) == Some(n)
  }

  lemma AutoCloseIs(db: Db, b: nat, ev: int, held: bool, n: Batch) returns (target: Db)
    requires InState(db, b, Open) && (held || NoOpenReview(db.reviews, b)) && ev !in db.processed
    requires IsAutoClosed(db.batches[b], RowsOf(db.rows, b), held, n)
    ensures n.summary.Some? && n.state != Open && (n.state == Closed ==> !held)
    ensures target == SaveClose(db, b, n, false).(processed := db.processed + {ev})
    ensures target == Effect(db, OpAutoClose(ev, b, held))
  {
    CloseOutcome(db.batches[b], RowsOf(db.rows, b), Backend(RowsOf(db.rows, b), db.batches[b].key.currency), held);
    target := SaveClose(db, b, n, false).(processed := db.processed + {ev});
  }

  /** Where the automatic close of a batch ends: a batch without rows is closed and not submitted. */
  function AutoState(db: Db, b: nat, accepts: bool): BatchState {
    if !NoOpenReview(db.reviews, b) then Disputed
    else if accepts && exists r :: r in db.rows && r.batch == b then Submitted
    else Closed
  }

  lemma SubmitIs(db: Db, b: nat)
    requires InState(db, b, Closed) && db.batches[b].discrepancies == 0 && NoOpenReview(db.reviews, b)
    ensures Effect(db, OpSubmit(b)) == SaveHeader(db, b, db.batches[b].(state := Submitted))
  {
  }

  lemma AutoClosedOnce(db: Db, b: nat, ev: int) returns (n: Batch)
    requires Inv(db) && AutoCloses(db, b, ev)
    ensures Effect(db, OpAutoClose(ev, b, CountOpen(db.reviews, b) > 0)).batches
         == db.batches[b := n.(version := n.version + 1)]
    ensures Effect(db, OpAutoClose(ev, b, CountOpen(db.reviews, b) > 0)).reviews == db.reviews
    ensures Legal(db, OpAutoClose(ev, b, CountOpen(db.reviews, b) > 0))
    ensures n.state == (if NoOpenReview(db.reviews, b) then Closed else Disputed) && n.discrepancies == 0
  {
    var rows, held := RowsOf(db.rows, b), CountOpen(db.reviews, b) > 0;
    var backend := Backend(rows, db.batches[b].key.currency);
    n := CloseOrHold(db.batches[b], rows, backend, held).value;
    CloseOutcome(db.batches[b], rows, backend, held);
    var target := AutoCloseIs(db, b, ev, held, n);
    SaveCloseShape(db, b, n, false, db.processed + {ev});
  }

  lemma AutoClosedStores(db: Db, b: nat, ev: int, accepts: bool)
    requires Inv(db)
    ensures var n := AutoClosed(db, b, ev, accepts);
            if AutoCloses(db, b, ev) then
              b < |n.batches| && n.batches[b].state == AutoState(db, b, accepts)
              && forall i :: 0 <= i < |db.batches| && i != b ==>
                 |n.batches| == |db.batches| && n.batches[i] == db.batches[i]
            else n == db
  {
    if AutoCloses(db, b, ev) {
      var h := AutoClosedOnce(db, b, ev);
      HasRowsIff(db.rows, b);
      if h.state == Closed {
        SubmitIs(Effect(db, OpAutoClose(ev, b, CountOpen(db.reviews, b) > 0)), b);
      }
    }
  }

  class AdminHandler {
    const tables: Tables
    var completions: seq<DailyCompletion.Completed>  // the SettlementCompleted entries of the outbox

    constructor (tables: Tables)
      ensures this.tables == tables && completions == []
    {
      this.tables := tables;
      completions := [];
    }

    /** Save an aggregate that was changed in memory since it was loaded, and nobody else changed. */
    method Persist(batch: SettlementBatch)
      requires Inv(tables.View()) && batch.id < |tables.batches| && batch.version == tables.batches[batch.id].version
      requires batch.transactions == RowsOf(tables.rows, batch.id)
      requires batch.state == Open ==> FindOpen(tables.batches, batch.key).None?
      modifies tables, batch`version
      ensures tables.View() == SaveHeader(old(tables.View()), batch.id, old(batch.Header()))
      ensures batch.version == old(batch.version) + 1
    {
      SaveCurrent(tables.View(), batch.id, batch.Header());
      var result := tables.SaveTx(batch);
    }

    method FindByID(b: nat) returns (batch: Option<SettlementBatch>)
      requires Inv(tables.View())
      ensures batch.Some? <==> b < |tables.batches|
      ensures batch.Some? ==> fresh(batch.value) && batch.value.id == b && batch.value.Header() == tables.batches[b]
      ensures batch.Some? ==> batch.value.transactions == RowsOf(tables.rows, b)
    {
      if b >= |tables.batches| {
        return None;
      }
      LoadIsIdentity(tables.View(), b);
      var found := tables.FindByID(b);
      return Some(found);
    }

    method ReopenBatch(b: nat) returns (ok: bool)
      requires Inv(tables.View())
      modifies tables
      ensures ok <==> Legal(old(tables.View()), OpReopen(b))
      ensures tables.View() == Effect(old(tables.View()), OpReopen(b))
    {
      var found := FindByID(b);
      if found.None? || found.value.state != Disputed || FindOpen(tables.batches, found.value.key).Some? {
        return false;
      }
      ok := found.value.Reopen();
      Persist(found.value);
    }

    method ResolveDispute(b: nat) returns (ok: bool)
      requires Inv(tables.View())
      modifies tables
      ensures ok <==> InState(old(tables.View()), b, Disputed) && NoOpenReview(old(tables.reviews), b)
      ensures tables.View() == if ok then Effect(old(tables.View()), OpResolveDispute(b)) else old(tables.View())
    {
      var found := FindByID(b);
      if found.None? || found.value.state != Disputed || CountOpen(tables.reviews, b) > 0 {
        return false;
      }
      ok := found.value.ResolveDispute();
      Persist(found.value);
    }

    /** MerchantDayBatchesTx. */
    method MerchantDayBatches(merchant: int, date: int) returns (lines: seq<DailyCompletion.Line>)
      ensures lines == DayLines(tables.View(), |tables.batches|, merchant, date)
    {
      lines := [];
      for b := 0 to |tables.batches|
        invariant lines == DayLines(tables.View(), b, merchant, date)
      {
        var h := tables.batches[b];
        var rows := tables.LoadTransactions(b);
        if h.merchant == merchant && h.key.date == date && |rows| > 0 {
          var total := if h.summary.None? then 0 else h.summary.value.totalCents;
          lines := lines + [DailyCompletion.Line(Code(h.key.currency), h.state == Settled, total)];
        }
      }
    }

    /** SettleBatch: the completion of the day is enqueued with it, when it is complete. */
    method SettleBatch(b: nat) returns (ok: bool, ghost events: seq<DailyCompletion.Completed>)
      requires Inv(tables.View())
      modifies tables, this`completions
      ensures ok <==> Legal(old(tables.View()), OpSettle(b))
      ensures tables.View() == Effect(old(tables.View()), OpSettle(b))
      ensures completions == old(completions) + events && (!ok ==> |events| == 0)
      ensures ok ==> Completion(tables.View(), b, events)
    {
      events := [];
      var found := FindByID(b);
      if found.None? || found.value.state != Submitted {
        return false, events;
      }
      var batch := found.value;
      ok := batch.ChangeState(Settled);
      Persist(batch);
      var lines := MerchantDayBatches(batch.merchant, batch.key.date);
      var completed := DailyCompletion.EnqueueCompletedIfDone(lines);
      completions := completions + completed;
      events := completed;
    }

    /** ResubmitBatch: a batch with discrepancies or open reviews is held instead. */
    method ResubmitBatch(b: nat, accepts: bool) returns (ok: bool)
      requires Inv(tables.View())
      modifies tables
      ensures ok <==> accepts && MaySubmit(old(tables.View()), b)
      ensures tables.View() == if ok then Effect(old(tables.View()), OpSubmit(b))
                               else if MaySubmit(old(tables.View()), b) then old(tables.View())
                               else Effect(old(tables.View()), OpHold(b))
    {
      var found := FindByID(b);
      if found.None? || found.value.state != Closed {
        return false;
      }
      var batch := found.value;
      if batch.discrepancies > 0 || CountOpen(tables.reviews, b) > 0 {
        var held := batch.ChangeState(Disputed);
        Persist(batch);
        return false;
      }
      if !accepts {
        return false;
      }
      ok := true;
      Submit(batch);
    }

    method ForceClose(b: nat) returns (ok: bool)
      requires Inv(tables.View())
      modifies tables
      ensures ok <==> Legal(old(tables.View()), OpForceClose(b))
      ensures tables.View() == Effect(old(tables.View()), OpForceClose(b))
    {
      var found := FindByID(b);
      if found.None? || found.value.state != Open {
        return false;
      }
      var batch := found.value;
      ForceCloseIs(tables.View(), b);
      ok := batch.CloseWithBackendTotals();
      SaveClosed(batch);
    }

    /** persist with its BatchClosed entry, which an empty batch does not have. */
    method SaveClosed(batch: SettlementBatch)
      requires Inv(tables.View()) && batch.id < |tables.batches| && batch.version == tables.batches[batch.id].version
      requires batch.transactions == RowsOf(tables.rows, batch.id) && batch.state != Open && batch.summary.Some?
      modifies tables, batch`version
      ensures tables.View() == SaveClose(old(tables.View()), batch.id, old(batch.Header()), false)
      ensures batch.version == old(batch.version) + 1
    {
      Persist(batch);
      if |batch.transactions| > 0 {
        tables.outbox := tables.outbox
          + [Entry(batch.id, batch.version, |batch.transactions|, batch.summary.value.totalCents, batch.discrepancies)];
      }
    }

    /** The transaction of autoCloseBatch, for a new event. */
    method SaveAutoClosed(batch: SettlementBatch, ev: int, ghost target: Db)
      requires Inv(tables.View()) && batch.id < |tables.batches| && batch.version == tables.batches[batch.id].version
      requires batch.transactions == RowsOf(tables.rows, batch.id) && batch.state != Open && batch.summary.Some?
      requires target
            == SaveClose(tables.View(), batch.id, batch.Header(), false).(processed := tables.processed + {ev})
      modifies tables, batch`version
      ensures tables.View() == target && batch.Header() == target.batches[batch.id]
      ensures tables.rows == old(tables.rows) && tables.reviews == old(tables.reviews)
    {
      SaveCloseShape(tables.View(), batch.id, batch.Header(), false, tables.processed + {ev});
      SaveClosed(batch);
      tables.processed := tables.processed + {ev};
    }

    /** The close of autoCloseBatch in memory. */
    method CloseInMemory(batch: SettlementBatch, openReviews: nat)
      requires batch.state == Open
      modifies batch`state, batch`summary, batch`discrepancies
      ensures IsAutoClosed(old(batch.Header()), batch.transactions, openReviews > 0, batch.Header())
    {
      CloseOutcome(batch.Header(), batch.transactions, Backend(batch.transactions, batch.key.currency),
                   openReviews > 0);
      var backend := batch.CalculateSummary();
      var ok := batch.CloseForTerminal(Report(backend.count, backend.cents), openReviews);
    }

    /** The close of autoCloseBatch, for a new event. */
    method CloseOpen(batch: SettlementBatch, ev: int)
      requires Inv(tables.View()) && batch.id < |tables.batches| && batch.Header() == tables.batches[batch.id]
      requires batch.transactions == RowsOf(tables.rows, batch.id) && batch.state == Open && ev !in tables.processed
      modifies tables, batch`state, batch`summary, batch`discrepancies, batch`version
      ensures tables.View() ==
              Effect(old(tables.View()), OpAutoClose(ev, batch.id, CountOpen(old(tables.reviews), batch.id) > 0))
      ensures batch.id < |tables.batches| && batch.Header() == tables.batches[batch.id]
              && tables.rows == old(tables.rows)
      ensures batch.state == Closed ==> NoOpenReview(tables.reviews, batch.id)
    {
      var openReviews := CountOpen(tables.reviews, batch.id);
      CloseInMemory(batch, openReviews);
      ghost var target := AutoCloseIs(tables.View(), batch.id, ev, openReviews > 0, batch.Header());
      SaveAutoClosed(batch, ev, target);
    }

    /** autoCloseBatch. */
    method AutoCloseBatch(b: nat, ev: int, accepts: bool) returns (closed: bool)
      requires Inv(tables.View())
      modifies tables
      ensures closed <==> AutoCloses(old(tables.View()), b, ev)
      ensures tables.View() == AutoClosed(old(tables.View()), b, ev, accepts) && Inv(tables.View())
      ensures closed ==> b < |tables.batches| && tables.batches[b].state == AutoState(old(tables.View()), b, accepts)
    {
      ghost var db := tables.View();
      AutoClosedStores(db, b, ev, accepts);
      EffectKeeps(db, OpAutoClose(ev, b, CountOpen(db.reviews, b) > 0));
      var found := FindByID(b);
      if found.None? || found.value.state != Open || ev in tables.processed {
        return false;
      }
      var batch := found.value;
      CloseOpen(batch, ev);
      if batch.state == Closed && |batch.transactions| > 0 && accepts {
        Submit(batch);
      }
      return true;
    }

    /** submitBatch, once the processor accepted the batch that was just saved. */
    method Submit(batch: SettlementBatch)
      requires Inv(tables.View()) && batch.id < |tables.batches| && batch.Header() == tables.batches[batch.id]
      requires batch.transactions == RowsOf(tables.rows, batch.id) && batch.state == Closed
      requires NoOpenReview(tables.reviews, batch.id)
      modifies tables, batch
      ensures tables.View() == Effect(old(tables.View()), OpSubmit(batch.id)) && Inv(tables.View())
    {
      EffectKeeps(tables.View(), OpSubmit(batch.id));
      assert BatchOk(tables.View(), batch.id);
      var ok := batch.ChangeState(Submitted);
      Persist(batch);
    }

    /** CloseStaleBatches, over the batches of earlier days. */
    method CloseStaleBatches(ids: seq<nat>, sweep: Sweep) returns (closed: nat, failed: nat)
      requires Inv(tables.View())
      modifies tables
      ensures Turn(tables.View(), closed, failed) == Swept(old(tables.View()), ids, sweep) && Inv(tables.View())
    {
      closed, failed := 0, 0;
      ghost var was := tables.View();
      for i := 0 to |ids|
        invariant Turn(tables.View(), closed, failed) == Swept(was, ids[..i], sweep) && Inv(tables.View())
      {
        assert ids[..i + 1][..i] == ids[..i];
        if sweep.fails(ids[i]) {
          failed := failed + 1;
        } else {
          var done := AutoCloseBatch(ids[i], sweep.event(ids[i]), sweep.accepts(ids[i]));
          if done {
            closed := closed + 1;
          }
        }
      }
      assert ids[..|ids|] == ids;
    }

    /** applyReviewAction, for an action that corrects the batch. */
    method ApplyReviewAction(tx: int, v: Review, action: ReviewAction) returns (ok: bool)
      requires v.batch < |tables.batches| && action != Accept
      modifies tables`rows, tables`batches
      ensures ok <==> Corrects(old(tables.View()), tx, v, action)
      ensures tables.View() == if ok then Corrected(old(tables.View()), tx, v, action) else old(tables.View())
    {
      if tables.batches[v.batch].state != Open && tables.batches[v.batch].state != Disputed {
        return false;
      }
      if action == UsePurchaseAmount && (v.reason != AmountMismatch || v.purchase.None?) {
        return false;
      }
      var r := Find(tables.rows, tx, Reversal);
      if r.None? || r.value.batch != v.batch {
        return false;
      }
      if action == Exclude {
        tables.rows := DeleteReversal(tables.rows, v.batch, tx);
      } else {
        tables.rows := SetReversalCents(tables.rows, v.batch, tx, v.purchase.value.cents);
      }
      var h := tables.batches[v.batch];
      tables.batches := tables.batches[v.batch := h.(version := h.version + 1)];
      return true;
    }

    /** ResolveReversalReview. */
    method ResolveReversalReview(tx: int, action: ReviewAction) returns (ok: bool)
      requires Inv(tables.View())
      modifies tables
      ensures ok <==> Applies(old(tables.View()), tx, action)
      ensures if ok then Decided(old(tables.View()), tables.View(), tx, action) else tables.View() == old(tables.View())
      ensures tables.View() == Effect(old(tables.View()), OpReview(tx, action))
    {
      ghost var db := tables.View();
      AppliesIff(db, tx, action);
      if Applies(db, tx, action) {
        DecidesAs(db, tx, action);
      }
      if tx !in tables.reviews || tables.reviews[tx].resolved {
        return false;
      }
      var v := tables.reviews[tx];
      assert ReviewOk(tables.View(), v);
      if action != Accept {
        CorrectionIs(tables.View(), tx, action);
        var corrected := ApplyReviewAction(tx, v, action);
        if !corrected {
          return false;
        }
      }
      tables.reviews := tables.reviews[tx := v.(resolved := true, reopened := false)];
      return true;
    }
  }
}
