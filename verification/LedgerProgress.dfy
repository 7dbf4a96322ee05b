/** What a handler of the ledger achieves when nobody disturbs it, from any state that a run can reach: the
    columns that it leaves in the tables. */
module LedgerProgress {
  import opened Options
  import opened BatchSummary
  import opened Batches
  import opened ReversalReviews
  import opened Ledger
  import opened LedgerInvariants
  import opened LedgerClients
  import opened LedgerRefinement
  import opened LedgerCorrections

  /** Client i moves k times. */
  function Moved(s: System, i: nat, k: nat): System {
    if k == 0 then s else Next(Moved(s, i, k - 1), Move(i))
  }

  /** The job is started and moves k times, alone. */
  function Alone(s: System, job: Job, k: nat): System {
    Moved(Next(s, Start(job)), |s.clients|, k)
  }

  /** The last client of the system is here, and the tables are these. */
  predicate Stands(s: System, i: nat, db: Db, c: Client) {
    |s.clients| == i + 1 && s.clients[i] == c && s.db == db
  }

  lemma Starts(s: System, job: Job)
    requires job.Accepted()
    ensures Stands(Alone(s, job, 0), |s.clients|, s.db, Begun(job))
  {
  }

  lemma Goes(s: System, job: Job, k: nat, db: Db, c: Client)
    requires Stands(Alone(s, job, k), |s.clients|, db, c)
    ensures var t := Advance(db, c); Stands(Alone(s, job, k + 1), |s.clients|, t.db, t.client)
  {
    var m := Alone(s, job, k);
    assert Alone(s, job, k + 1) == Next(m, Move(|s.clients|));
  }

  // ----- reading -----

  /** Jobs that name their batch. */
  predicate Names(job: Job, b: nat) {
    match job
    case DoApproval(_, _, _, _) => false
    case DoReversal(_, _, _, _) => false
    case DoClose(_, _, _) => false
    case _ => job.batch == b
  }

  lemma BeginReads(db: Db, job: Job, b: nat)
    requires Inv(db) && b < |db.batches|
    requires Names(job, b) || (job.DoClose? && FindOpen(db.batches, job.key) == Some(b))
    ensures Advance(db, Begun(job)) == LedgerClients.Step(db, None, Headed(job, b, db.batches[b]))
  {
    LoadIsIdentity(db, b);
  }

  lemma HeadedReads(db: Db, job: Job, b: nat, h: Batch)
    ensures Advance(db, Headed(job, b, h)) == LedgerClients.Step(db, None, Loaded(job, b, h, RowsOf(db.rows, b)))
  {
  }

  lemma LoadedAlone(s: System, job: Job, b: nat)
    requires SystemOk(s) && job.Accepted() && b < |s.db.batches|
    requires Names(job, b) || (job.DoClose? && FindOpen(s.db.batches, job.key) == Some(b))
    ensures Stands(Alone(s, job, 2), |s.clients|, s.db, Loaded(job, b, s.db.batches[b], RowsOf(s.db.rows, b)))
  {
    Starts(s, job);
    BeginReads(s.db, job, b);
    Goes(s, job, 0, s.db, Begun(job));
    HeadedReads(s.db, job, b, s.db.batches[b]);
    Goes(s, job, 1, s.db, Headed(job, b, s.db.batches[b]));
  }

  /** What a close observed of the earlier batches; the other jobs do not read it. */
  function PriorOf(db: Db, job: Job, b: nat): Report {
    if job.DoClose? then ClosedTotals(db.batches, job.key, b) else Report(0, 0)
  }

  lemma LoadedCounts(db: Db, job: Job, b: nat, h: Batch, rows: seq<Row>)
    requires Counts(job) && b < |db.batches|
    ensures Advance(db, Loaded(job, b, h, rows))
         == LedgerClients.Step(db, None, Priced(job, b, h, rows, PriorOf(db, job, b)))
    ensures Advance(db, Priced(job, b, h, rows, PriorOf(db, job, b)))
         == LedgerClients.Step(db, None, Ready(job, b, h, rows, PriorOf(db, job, b), CountOpen(db.reviews, b)))
  {
  }

  function ReadyFor(db: Db, job: Job, b: nat): Client
    requires b < |db.batches|
  {
    Ready(job, b, db.batches[b], RowsOf(db.rows, b), PriorOf(db, job, b), CountOpen(db.reviews, b))
  }

  lemma ReadyAlone(s: System, job: Job, b: nat)
    requires SystemOk(s) && job.Accepted() && b < |s.db.batches| && Counts(job)
    requires Names(job, b) || (job.DoClose? && FindOpen(s.db.batches, job.key) == Some(b))
    ensures Stands(Alone(s, job, 4), |s.clients|, s.db, ReadyFor(s.db, job, b))
  {
    var h, rows := s.db.batches[b], RowsOf(s.db.rows, b);
    LoadedAlone(s, job, b);
    LoadedCounts(s.db, job, b, h, rows);
    Goes(s, job, 2, s.db, Loaded(job, b, h, rows));
    Goes(s, job, 3, s.db, Priced(job, b, h, rows, PriorOf(s.db, job, b)));
  }

  // ----- operators -----

  /** The tables with one header changed, and its version one higher. */
  function WithHeader(db: Db, b: nat, h: Batch): Db
    requires b < |db.batches|
  {
    db.(batches := db.batches[b := h.(version := db.batches[b].version + 1)])
  }

  lemma HeaderCommits(db: Db, b: nat, n: Batch, op: Op)
    requires b < |db.batches| && n.version == db.batches[b].version
    requires n.state == Open ==> FindOpen(db.batches, n.key).GetOr(b) == b
    ensures CommitHeader(db, b, Some(n), RowsOf(db.rows, b), op) ==
            LedgerClients.Step(WithHeader(db, b, n), Some(op), Idle)
  {
    SaveCurrent(db, b, n);
  }

  lemma SettleAdvances(db: Db, b: nat)
    requires InState(db, b, Submitted) && db.batches[b].summary.Some?
    ensures Advance(db, Loaded(DoSettle(b), b, db.batches[b], RowsOf(db.rows, b))).db
         == WithHeader(db, b, db.batches[b].(state := Settled))
  {
    HeaderCommits(db, b, db.batches[b].(state := Settled), OpSettle(b));
  }

  /** SettleBatch stores SETTLED for a SUBMITTED batch, and changes nothing else. */
  lemma SettleCommits(s: System, b: nat)
    requires SystemOk(s) && InState(s.db, b, Submitted)
    ensures Alone(s, DoSettle(b), 3).db == WithHeader(s.db, b, s.db.batches[b].(state := Settled))
  {
    LoadedAlone(s, DoSettle(b), b);
    assert BatchOk(s.db, b);
    SettleAdvances(s.db, b);
    Goes(s, DoSettle(b), 2, s.db, Loaded(DoSettle(b), b, s.db.batches[b], RowsOf(s.db.rows, b)));
  }

  lemma ReopenAdvances(db: Db, b: nat)
    requires InState(db, b, Disputed) && FindOpen(db.batches, db.batches[b].key).None?
    ensures Advance(db, Loaded(DoReopen(b), b, db.batches[b], RowsOf(db.rows, b))).db
         == WithHeader(db, b, db.batches[b].(state := Open, summary := None, discrepancies := 0))
  {
    HeaderCommits(db, b, db.batches[b].(state := Open, summary := None, discrepancies := 0), OpReopen(b));
  }

  /** ReopenBatch stores OPEN, without totals, for a DISPUTED batch with no OPEN one of its key. */
  lemma ReopenCommits(s: System, b: nat)
    requires SystemOk(s) && InState(s.db, b, Disputed) && FindOpen(s.db.batches, s.db.batches[b].key).None?
    ensures Alone(s, DoReopen(b), 3).db
         == WithHeader(s.db, b, s.db.batches[b].(state := Open, summary := None, discrepancies := 0))
  {
    LoadedAlone(s, DoReopen(b), b);
    ReopenAdvances(s.db, b);
    Goes(s, DoReopen(b), 2, s.db, Loaded(DoReopen(b), b, s.db.batches[b], RowsOf(s.db.rows, b)));
  }

  lemma ResubmitAdvances(db: Db, b: nat)
    requires InState(db, b, Closed)
    ensures Advance(db, ReadyFor(db, DoResubmit(b), b)).db
         == WithHeader(db, b, db.batches[b].(state := if db.batches[b].discrepancies == 0 && NoOpenReview(db.reviews, b)
                                                      then Submitted else Disputed))
  {
    HeaderCommits(db, b, db.batches[b].(state := Submitted), OpSubmit(b));
    HeaderCommits(db, b, db.batches[b].(state := Disputed), OpHold(b));
  }

  /** ResubmitBatch, when the processor accepts: SUBMITTED without open reviews, and otherwise DISPUTED. */
  lemma ResubmitCommits(s: System, b: nat)
    requires SystemOk(s) && InState(s.db, b, Closed)
    ensures Alone(s, DoResubmit(b), 5).db
         == WithHeader(s.db, b,
                       s.db.batches[b].(state := if NoOpenReview(s.db.reviews, b) then Submitted else Disputed))
  {
    ReadyAlone(s, DoResubmit(b), b);
    assert BatchOk(s.db, b);
    ResubmitAdvances(s.db, b);
    Goes(s, DoResubmit(b), 4, s.db, ReadyFor(s.db, DoResubmit(b), b));
  }

  /** One header changed: to this state, with these discrepancies and the totals of its rows. */
  predicate ClosedAs(db: Db, n: Db, b: nat, state: BatchState, clean: bool) {
    && b < |db.batches| && b < |n.batches| && n.rows == db.rows && n.reviews == db.reviews
    && var h := n.batches[b];
    && n.batches == db.batches[b := h]
    && h.key == db.batches[b].key && h.merchant == db.batches[b].merchant && h.version == db.batches[b].version + 1
    && h.state == state && (h.discrepancies == 0 <==> clean)
    && SummaryOf(h.summary, RowsOf(db.rows, b), h.key.currency)
  }

  lemma ResolveAdvances(db: Db, b: nat)
    requires InState(db, b, Disputed) && NoOpenReview(db.reviews, b)
    ensures var n := Advance(db, ReadyFor(db, DoResolveDispute(b), b)).db;
            ClosedAs(db, n, b, Closed, true) && n.outbox == db.outbox && n.processed == db.processed
  {
    var h, rows := db.batches[b], RowsOf(db.rows, b);
    HeaderCommits(db, b, ResolveDispute(h, rows).value, OpResolveDispute(b));
  }

  /** ResolveDispute stores CLOSED, with new totals, for a DISPUTED batch without open reviews. */
  lemma ResolveDisputeCommits(s: System, b: nat)
    requires SystemOk(s) && InState(s.db, b, Disputed) && NoOpenReview(s.db.reviews, b)
    ensures var n := Alone(s, DoResolveDispute(b), 5).db;
            ClosedAs(s.db, n, b, Closed, true) && n.outbox == s.db.outbox && n.processed == s.db.processed
  {
    ReadyAlone(s, DoResolveDispute(b), b);
    ResolveAdvances(s.db, b);
    Goes(s, DoResolveDispute(b), 4, s.db, ReadyFor(s.db, DoResolveDispute(b), b));
  }

  // ----- closes -----

  /** The entry of a batch with these rows, as it is stored. */
  function EntryOf(h: Batch, b: nat, rows: seq<Row>): Entry
    requires h.summary.Some?
  {
    Entry(b, h.version, |rows|, h.summary.value.totalCents, h.discrepancies)
  }

  /** The outbox got the entry of the batch, or nothing. */
  predicate Announced(db: Db, n: Db, b: nat, announces: bool) {
    && b < |n.batches| && n.batches[b].summary.Some?
    && n.outbox == db.outbox + if announces then [EntryOf(n.batches[b], b, RowsOf(db.rows, b))] else []
  }

  /** A closed header that is saved, with what it becomes. */
  lemma ClosedCommits(db: Db, b: nat, n: Batch, always: bool, events: set<int>, op: Op, submits: bool, stale: Client)
    requires b < |db.batches| && n.version == db.batches[b].version && n.state != Open && n.summary.Some?
    ensures var t := CommitClosed(db, b, n, RowsOf(db.rows, b), always, events, op, submits, stale);
            && t.db.batches == db.batches[b := n.(version := n.version + 1)]
            && t.db.rows == db.rows && t.db.reviews == db.reviews && t.db.processed == db.processed + events
            && Announced(db, t.db, b, always || |RowsOf(db.rows, b)| > 0)
            && t.client == if submits && n.state == Closed then Unsent(b, t.db.batches[b], RowsOf(db.rows, b)) else Idle
  {
    SaveCurrent(db, b, n);
  }

  /** A header that a close of the batch may leave. */
  predicate ClosesTo(db: Db, b: nat, n: Batch) {
    && b < |db.batches| && n.key == db.batches[b].key && n.merchant == db.batches[b].merchant
    && n.version == db.batches[b].version && n.state != Open && n.summary.Some?
    && SummaryOf(n.summary, RowsOf(db.rows, b), n.key.currency)
  }

  lemma ClosedSaves(db: Db, b: nat, n: Batch, always: bool, events: set<int>, op: Op, submits: bool, stale: Client)
    requires ClosesTo(db, b, n)
    ensures var t := CommitClosed(db, b, n, RowsOf(db.rows, b), always, events, op, submits, stale);
            && ClosedAs(db, t.db, b, n.state, n.discrepancies == 0) && t.db.processed == db.processed + events
            && Announced(db, t.db, b, always || |RowsOf(db.rows, b)| > 0)
            && t.client == if submits && n.state == Closed then Unsent(b, t.db.batches[b], RowsOf(db.rows, b)) else Idle
  {
    ClosedCommits(db, b, n, always, events, op, submits, stale);
  }

  lemma ForceCloseMoves(db: Db, b: nat) returns (n: Batch)
    requires InState(db, b, Open)
    ensures ClosesTo(db, b, n) && n.state == Closed && n.discrepancies == 0
    ensures Advance(db, Loaded(DoForceClose(b), b, db.batches[b], RowsOf(db.rows, b)))
         == CommitClosed(db, b, n, RowsOf(db.rows, b), false, {}, OpForceClose(b), false, Idle)
  {
    ForceCloseOutcome(db.batches[b], RowsOf(db.rows, b));
    n := CloseWithBackendTotals(db.batches[b], RowsOf(db.rows, b)).value;
  }

  lemma ForceCloseAdvances(db: Db, b: nat)
    requires InState(db, b, Open)
    ensures var n := Advance(db, Loaded(DoForceClose(b), b, db.batches[b], RowsOf(db.rows, b))).db;
            && ClosedAs(db, n, b, Closed, true) && n.processed == db.processed
            && Announced(db, n, b, |RowsOf(db.rows, b)| > 0)
  {
    var n := ForceCloseMoves(db, b);
    ClosedSaves(db, b, n, false, {}, OpForceClose(b), false, Idle);
  }

  /** ForceClose stores CLOSED, with the totals of the rows, and announces a batch with rows. */
  lemma ForceCloseCommits(s: System, b: nat)
    requires SystemOk(s) && InState(s.db, b, Open)
    ensures var n := Alone(s, DoForceClose(b), 3).db;
            && ClosedAs(s.db, n, b, Closed, true) && n.processed == s.db.processed
            && Announced(s.db, n, b, |RowsOf(s.db.rows, b)| > 0)
  {
    LoadedAlone(s, DoForceClose(b), b);
    ForceCloseAdvances(s.db, b);
    Goes(s, DoForceClose(b), 2, s.db, Loaded(DoForceClose(b), b, s.db.batches[b], RowsOf(s.db.rows, b)));
  }

  /** A close for event ev left these tables, and its client about to submit the batch or done. */
  predicate ClosedBy(db: Db, t: LedgerClients.Step, b: nat, ev: int, state: BatchState, clean: bool, announces: bool,
                     submits: bool) {
    && ClosedAs(db, t.db, b, state, clean) && t.db.processed == db.processed + {ev}
    && Announced(db, t.db, b, announces)
    && t.client == if submits then Unsent(b, t.db.batches[b], RowsOf(db.rows, b)) else Idle
  }

  lemma AutoCloseMoves(db: Db, b: nat, ev: int) returns (n: Batch)
    requires InState(db, b, Open) && ev !in db.processed
    ensures ClosesTo(db, b, n) && n.discrepancies == 0
    ensures n.state == if NoOpenReview(db.reviews, b) then Closed else Disputed
    ensures Advance(db, ReadyFor(db, DoAutoClose(ev, b), b))
         == CommitClosed(db, b, n, RowsOf(db.rows, b), false, {ev}, OpAutoClose(ev, b, CountOpen(db.reviews, b) > 0),
                         |RowsOf(db.rows, b)| > 0, Idle)
  {
    var h, rows, held := db.batches[b], RowsOf(db.rows, b), CountOpen(db.reviews, b) > 0;
    CloseOutcome(h, rows, Backend(rows, h.key.currency), held);
    n := CloseOrHold(h, rows, Backend(rows, h.key.currency), held).value;
  }

  lemma AutoCloseAdvances(db: Db, b: nat, ev: int)
    requires InState(db, b, Open) && ev !in db.processed
    ensures var state := if NoOpenReview(db.reviews, b) then Closed else Disputed;
            var hasRows := |RowsOf(db.rows, b)| > 0;
            ClosedBy(db, Advance(db, ReadyFor(db, DoAutoClose(ev, b), b)), b, ev, state, true, hasRows,
                     hasRows && state == Closed)
  {
    var n := AutoCloseMoves(db, b, ev);
    ClosedSaves(db, b, n, false, {ev}, OpAutoClose(ev, b, CountOpen(db.reviews, b) > 0), |RowsOf(db.rows, b)| > 0,
                Idle);
  }

  lemma SubmitAdvances(db: Db, b: nat)
    requires InState(db, b, Closed)
    ensures Advance(db, Unsent(b, db.batches[b], RowsOf(db.rows, b))).db
         == WithHeader(db, b, db.batches[b].(state := Submitted))
  {
    HeaderCommits(db, b, db.batches[b].(state := Submitted), OpSubmit(b));
  }

  /** The automatic close of an OPEN batch: CLOSED with the totals of the rows, or DISPUTED while one of its
      reviews is open; a batch with rows is announced, and SUBMITTED next when it is CLOSED. */
  lemma AutoCloseCommits(s: System, b: nat, ev: int)
    requires SystemOk(s) && InState(s.db, b, Open) && ev !in s.db.processed
    ensures var n, more := Alone(s, DoAutoClose(ev, b), 5).db, Alone(s, DoAutoClose(ev, b), 6).db;
            var state := if NoOpenReview(s.db.reviews, b) then Closed else Disputed;
            var hasRows := |RowsOf(s.db.rows, b)| > 0;
            && ClosedAs(s.db, n, b, state, true) && n.processed == s.db.processed + {ev}
            && Announced(s.db, n, b, hasRows)
            && more == if hasRows && state == Closed then WithHeader(n, b, n.batches[b].(state := Submitted)) else n
  {
    var job := DoAutoClose(ev, b);
    ReadyAlone(s, job, b);
    AutoCloseAdvances(s.db, b, ev);
    Goes(s, job, 4, s.db, ReadyFor(s.db, job, b));
    var t := Advance(s.db, ReadyFor(s.db, job, b));
    if t.client.Unsent? {
      SubmitAdvances(t.db, b);
    }
    Goes(s, job, 5, t.db, t.client);
  }

  /** The terminal reported the rows of the batch, or these and the closed ones of the day, if there are any. */
  predicate Reconciles(report: Report, backend: Report, prior: Report) {
    || report == backend
    || (prior.count > 0 && report.count == backend.count + prior.count && report.cents == backend.cents + prior.cents)
  }

  function CloseOp(db: Db, b: nat, ev: int, key: Key, report: Report): Op {
    OpClose(ev, key, report, ClosedTotals(db.batches, key, b), CountOpen(db.reviews, b) > 0)
  }

  lemma PendingReconciles(report: Report, backend: Report, prior: Report)
    ensures Pending(report, backend, prior) == backend <==> Reconciles(report, backend, prior)
  {
  }

  /** What the close compares with the rows. */
  function Compared(db: Db, b: nat, key: Key, report: Report): Report {
    Pending(report, Backend(RowsOf(db.rows, b), key.currency), ClosedTotals(db.batches, key, b))
  }

  lemma CloseSteps(db: Db, b: nat, ev: int, key: Key, report: Report, n: Batch)
    requires FindOpen(db.batches, key) == Some(b) && ev !in db.processed && n.summary.Some?
    requires CloseOrHold(db.batches[b], RowsOf(db.rows, b), Compared(db, b, key, report),
                         CountOpen(db.reviews, b) > 0) == Some(n)
    ensures Advance(db, ReadyFor(db, DoClose(ev, key, report), b))
         == CommitClosed(db, b, n, RowsOf(db.rows, b), true, {ev}, CloseOp(db, b, ev, key, report), true,
                         Begun(DoClose(ev, key, report)))
  {
  }

  lemma CloseMakes(db: Db, b: nat, key: Key, report: Report) returns (n: Batch)
    requires FindOpen(db.batches, key) == Some(b)
    ensures ClosesTo(db, b, n)
    ensures CloseOrHold(db.batches[b], RowsOf(db.rows, b), Compared(db, b, key, report),
                        CountOpen(db.reviews, b) > 0) == Some(n)
    ensures var clean := Compared(db, b, key, report) == Backend(RowsOf(db.rows, b), key.currency);
            && (n.discrepancies == 0 <==> clean)
            && n.state == if clean && NoOpenReview(db.reviews, b) then Closed else Disputed
  {
    var h, rows, held := db.batches[b], RowsOf(db.rows, b), CountOpen(db.reviews, b) > 0;
    CloseOutcome(h, rows, Compared(db, b, key, report), held);
    n := CloseOrHold(h, rows, Compared(db, b, key, report), held).value;
  }

  lemma CloseMoves(db: Db, b: nat, ev: int, key: Key, report: Report) returns (n: Batch)
    requires FindOpen(db.batches, key) == Some(b) && ev !in db.processed
    ensures ClosesTo(db, b, n)
    ensures var backend, prior := Backend(RowsOf(db.rows, b), key.currency), ClosedTotals(db.batches, key, b);
            && (n.discrepancies == 0 <==> Reconciles(report, backend, prior))
            && n.state == if Reconciles(report, backend, prior) && NoOpenReview(db.reviews, b) then Closed else Disputed
    ensures Advance(db, ReadyFor(db, DoClose(ev, key, report), b))
         == CommitClosed(db, b, n, RowsOf(db.rows, b), true, {ev}, CloseOp(db, b, ev, key, report), true,
                         Begun(DoClose(ev, key, report)))
  {
    n := CloseMakes(db, b, key, report);
    PendingReconciles(report, Backend(RowsOf(db.rows, b), key.currency), ClosedTotals(db.batches, key, b));
    CloseSteps(db, b, ev, key, report, n);
  }

  lemma CloseAdvances(db: Db, b: nat, ev: int, key: Key, report: Report)
    requires FindOpen(db.batches, key) == Some(b) && ev !in db.processed
    ensures var clean := Reconciles(report, Backend(RowsOf(db.rows, b), key.currency),
                                    ClosedTotals(db.batches, key, b));
            var state := if clean && NoOpenReview(db.reviews, b) then Closed else Disputed;
            ClosedBy(db, Advance(db, ReadyFor(db, DoClose(ev, key, report), b)), b, ev, state, clean, true,
                     state == Closed)
  {
    var n := CloseMoves(db, b, ev, key, report);
    ClosedSaves(db, b, n, true, {ev}, CloseOp(db, b, ev, key, report), true, Begun(DoClose(ev, key, report)));
  }

  /** The close of a terminal: CLOSED when its report reconciles and no review is open, and otherwise
      DISPUTED; it is announced in any case, and SUBMITTED next when it is CLOSED. */
  lemma CloseCommits(s: System, b: nat, ev: int, key: Key, report: Report)
    requires SystemOk(s) && FindOpen(s.db.batches, key) == Some(b) && ev !in s.db.processed
    ensures var n, more := Alone(s, DoClose(ev, key, report), 5).db, Alone(s, DoClose(ev, key, report), 6).db;
            var clean := Reconciles(report, Backend(RowsOf(s.db.rows, b), key.currency),
                                    ClosedTotals(s.db.batches, key, b));
            var state := if clean && NoOpenReview(s.db.reviews, b) then Closed else Disputed;
            && ClosedAs(s.db, n, b, state, clean) && n.processed == s.db.processed + {ev}
            && Announced(s.db, n, b, true)
            && more == if state == Closed then WithHeader(n, b, n.batches[b].(state := Submitted)) else n
  {
    var job := DoClose(ev, key, report);
    assert BatchOk(s.db, b);
    ReadyAlone(s, job, b);
    CloseAdvances(s.db, b, ev, key, report);
    Goes(s, job, 4, s.db, ReadyFor(s.db, job, b));
    var t := Advance(s.db, ReadyFor(s.db, job, b));
    if t.client.Unsent? {
      SubmitAdvances(t.db, b);
    }
    Goes(s, job, 5, t.db, t.client);
  }

  // ----- sales and reversals -----

  /** The batch b has the row, unless the transaction had one of its kind already; the event is marked. */
  predicate RowAdded(db: Db, n: Db, b: nat, ev: int, row: Row) {
    && b < |db.batches| && n.processed == db.processed + {ev} && n.outbox == db.outbox
    && n.batches == db.batches[b := db.batches[b].(version := db.batches[b].version + 1)]
    && n.rows == if exists r :: r in db.rows && r.tx == row.tx && r.kind == row.kind then db.rows else db.rows + [row]
  }

  lemma AddedIs(db: Db, b: nat, ev: int, row: Row)
    requires b < |db.batches|
    ensures RowAdded(db, SaveHeader(db, b, db.batches[b]).(rows := InsertRow(db.rows, row),
                                                           processed := db.processed + {ev}),
                     b, ev, row)
  {
  }

  /** The stored purchase of a transaction, with the merchant of its batch. */
  predicate IsPurchase(db: Db, tx: int, purchase: Option<Charge>) {
    match purchase
    case None => forall r :: r in db.rows ==> !(r.tx == tx && r.kind == Purchase)
    case Some(c) =>
      exists r :: r in db.rows && r.tx == tx && r.kind == Purchase && r.batch < |db.batches|
                  && c == Charge(db.batches[r.batch].merchant, r.cents, r.currency)
  }

  lemma FoundPurchase(db: Db, tx: int)
    requires forall r :: r in db.rows ==> r.batch < |db.batches|
    ensures IsPurchase(db, tx, FindPurchase(db, tx))
  {
    var found := Find(db.rows, tx, Purchase);
    if found.Some? {
      assert found.value in db.rows;
    }
  }

  /** The row of the job, on the OPEN batch b of its key. */
  function RowFor(job: Job, b: nat): Row
    requires job.Registers()
  {
    Row(b, job.tx, if job.DoApproval? then Purchase else Reversal, job.charge.cents, job.charge.currency)
  }

  lemma RegisterMoves(db: Db, job: Job, b: nat)
    requires job.Registers() && b < |db.batches|
    ensures Advance(db, Loaded(job, b, db.batches[b], RowsOf(db.rows, b)))
         == CommitRegister(db, job, b, db.batches[b], RowsOf(db.rows, b))
  {
  }

  lemma RegisterSaves(db: Db, job: Job, b: nat, d: Db)
    requires job.Registers() && job.Accepted() && job.ev !in db.processed && InState(db, b, Open)
    requires db.batches[b].key == job.key
    requires Save(db, b, db.batches[b], RowsOf(db.rows, b) + [RowFor(job, b)]) == Some(d)
    ensures var n := CommitRegister(db, job, b, db.batches[b], RowsOf(db.rows, b)).db;
            && n == d.(processed := d.processed + {job.ev}, reviews := n.reviews)
            && (job.DoApproval? ==> n.reviews == Reconcile(d.reviews, job.tx, job.charge))
            && (job.DoReversal? ==> n.reviews == OpenReview(d.reviews, job.tx, b, FindPurchase(n, job.tx), job.charge))
  {
  }

  lemma RegisterAdvances(db: Db, job: Job, b: nat)
    requires job.Registers() && job.Accepted() && job.ev !in db.processed && FindOpen(db.batches, job.key) == Some(b)
    ensures var n := Advance(db, Loaded(job, b, db.batches[b], RowsOf(db.rows, b))).db;
            RowAdded(db, n, b, job.ev, RowFor(job, b))
            && (job.DoApproval? ==> n.reviews == Reconcile(db.reviews, job.tx, job.charge))
            && (job.DoReversal? ==> n.reviews == OpenReview(db.reviews, job.tx, b, FindPurchase(n, job.tx), job.charge))
  {
    var d := SaveHeader(db, b, db.batches[b]).(rows := InsertRow(db.rows, RowFor(job, b)));
    SaveOneMore(db, b, RowFor(job, b));
    RegisterMoves(db, job, b);
    RegisterSaves(db, job, b, d);
    AddedIs(db, b, job.ev, RowFor(job, b));
  }

  /** What the registration of the job leaves. */
  predicate Registered(db: Db, n: Db, job: Job, b: nat, purchase: Option<Charge>)
    requires job.Registers()
  {
    && RowAdded(db, n, b, job.ev, RowFor(job, b))
    && (job.DoApproval? ==> n.reviews == Reconcile(db.reviews, job.tx, job.charge))
    && (job.DoReversal? ==>
          IsPurchase(n, job.tx, purchase) && n.reviews == OpenReview(db.reviews, job.tx, b, purchase, job.charge))
  }

  lemma LoadedRegisters(s: System, job: Job, k: nat, db: Db, b: nat) returns (purchase: Option<Charge>)
    requires Inv(db) && b < |db.batches|
    requires Stands(Alone(s, job, k), |s.clients|, db, Loaded(job, b, db.batches[b], RowsOf(db.rows, b)))
    requires job.Registers() && job.Accepted() && job.ev !in db.processed && FindOpen(db.batches, job.key) == Some(b)
    ensures Registered(db, Alone(s, job, k + 1).db, job, b, purchase)
  {
    RegisterAdvances(db, job, b);
    Goes(s, job, k, db, Loaded(job, b, db.batches[b], RowsOf(db.rows, b)));
    var n := Alone(s, job, k + 1).db;
    forall r | r in n.rows ensures r.batch < |n.batches| {
      if r in db.rows {
        assert RowOk(db, r);
      }
    }
    FoundPurchase(n, job.tx);
    purchase := FindPurchase(n, job.tx);
  }

  lemma BeginFinds(db: Db, job: Job, b: nat)
    requires Inv(db) && job.Registers() && job.ev !in db.processed && FindOpen(db.batches, job.key) == Some(b)
    ensures Advance(db, Begun(job)) == LedgerClients.Step(db, None, Found(job, b))
    ensures Advance(db, Found(job, b)) == LedgerClients.Step(db, None, Headed(job, b, db.batches[b]))
  {
    LoadIsIdentity(db, b);
  }

  /** RegisterApproval and RegisterReversal of a new event, with an OPEN batch of the key: the batch has one
      more row unless the transaction had one of that kind, and the reviews are compared. */
  lemma RegisterCommits(s: System, job: Job, b: nat) returns (purchase: Option<Charge>)
    requires SystemOk(s) && job.Registers() && job.Accepted() && job.ev !in s.db.processed
    requires FindOpen(s.db.batches, job.key) == Some(b)
    ensures Registered(s.db, Alone(s, job, 4).db, job, b, purchase)
  {
    var h := s.db.batches[b];
    Starts(s, job);
    BeginFinds(s.db, job, b);
    Goes(s, job, 0, s.db, Begun(job));
    Goes(s, job, 1, s.db, Found(job, b));
    HeadedReads(s.db, job, b, h);
    Goes(s, job, 2, s.db, Headed(job, b, h));
    purchase := LoadedRegisters(s, job, 3, s.db, b);
  }

  lemma BeginOpens(db: Db, job: Job)
    requires job.Registers() && job.ev !in db.processed && FindOpen(db.batches, job.key).None?
    ensures var h := Batch(job.key, job.charge.merchant, Open, None, 0, 0);
            var t := Advance(db, Begun(job));
            t.db == db.(batches := db.batches + [h]) && t.client == Loaded(job, |db.batches|, h, [])
  {
  }

  lemma OpenedIsFound(db: Db, key: Key, merchant: int)
    requires Inv(db) && FindOpen(db.batches, key).None? && !key.currency.Unknown?
    ensures var n := db.(batches := db.batches + [Batch(key, merchant, Open, None, 0, 0)]);
            && Inv(n) && FindOpen(n.batches, key) == Some(|db.batches|) && RowsOf(n.rows, |db.batches|) == []
  {
    ApplyKeeps(db, OpOpen(key, merchant));
    forall r | r in db.rows ensures r.batch != |db.batches| {
      assert RowOk(db, r);
    }
    NoRowsOf(db.rows, |db.batches|);
  }

  /** The same without an OPEN batch of the key: one is opened first, for the merchant of the sale. */
  lemma RegisterOpens(s: System, job: Job) returns (purchase: Option<Charge>)
    requires SystemOk(s) && job.Registers() && job.Accepted() && job.ev !in s.db.processed
    requires FindOpen(s.db.batches, job.key).None?
    ensures var d := s.db.(batches := s.db.batches + [Batch(job.key, job.charge.merchant, Open, None, 0, 0)]);
            Alone(s, job, 1).db == d && Registered(d, Alone(s, job, 2).db, job, |s.db.batches|, purchase)
  {
    Starts(s, job);
    BeginOpens(s.db, job);
    OpenedIsFound(s.db, job.key, job.charge.merchant);
    Goes(s, job, 0, s.db, Begun(job));
    purchase := LoadedRegisters(s, job, 1, Alone(s, job, 1).db, |s.db.batches|);
  }

  // ----- stale saves, crashes and decisions -----

  /** A registration whose batch somebody else saved starts again, and so does a close; nothing is stored. */
  lemma StaleStartsAgain(db: Db, c: Client)
    requires (c.Loaded? && c.job.Registers()) || (c.Ready? && c.job.DoClose?)
    requires c.b < |db.batches| && c.h.state == Open && c.h.version != db.batches[c.b].version
    requires c.job.ev !in db.processed
    ensures Advance(db, c) == LedgerClients.Step(db, None, Begun(c.job))
  {
  }

  /** A crash forgets the client, and only the client. */
  lemma AbortForgets(s: System, i: nat)
    requires i < |s.clients|
    ensures Next(s, Abort(i)) == s.(clients := s.clients[i := Idle])
  {
  }

  /** An operator's decision that applies is stored at once. */
  lemma DecisionCommits(s: System, tx: int, action: ReviewAction)
    requires SystemOk(s) && Applies(s.db, tx, action)
    ensures var n := Next(s, Decide(tx, action));
            Decided(s.db, n.db, tx, action) && n.clients == s.clients && n.log == s.log + [OpReview(tx, action)]
  {
    DecidesAs(s.db, tx, action);
  }

  // ----- the table of states -----

  /** What each state of a batch may become. */
  const TABLE: map<BatchState, set<BatchState>> := map[
    Open := {PendingClose},
    PendingClose := {Closed, Disputed},
    Closed := {Submitted, Disputed},
    Submitted := {Settled, Disputed},
    Disputed := {Submitted, Open, Closed},
    Settled := {}]

  lemma TransitionsAreTheTable(s: BatchState, next: BatchState)
    ensures s in TABLE && (CanTransition(s, next) <==> next in TABLE[s])
  {
  }
}
