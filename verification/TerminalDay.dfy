/** Reconciliation of a terminal over a whole business day, with any number of closes. */
module TerminalDay {
  import opened Options
  import opened Money
  import opened BatchSummary
  import opened Batches
  import opened ReversalReviews
  import opened Ledger
  import opened LedgerInvariants
  import opened LedgerClients
  import opened LedgerRefinement

  function Plus(a: Report, b: Report): Report {
    Report(a.count + b.count, a.cents + b.cents)
  }

  /** A close stores no discrepancy exactly when the terminal reported the pending rows, or those plus
      the batches already closed when there was at least one row in them; and it stores CLOSED exactly
      when moreover no review was seen open. */
  lemma NoDiscrepancyIff(db: Db, b: nat, ev: int, report: Report, prior: Report, held: bool)
    requires InState(db, b, Open)
    ensures var n := TerminalClose(db, b, ev, report, prior, held).batches[b];
            var backend := Backend(RowsOf(db.rows, b), n.key.currency);
            && (n.discrepancies == 0 <==>
                  report == backend || (prior.count > 0 && report == Plus(backend, prior)))
            && n.state == if n.discrepancies == 0 && !held then Closed else Disputed
  {
    var rows := RowsOf(db.rows, b);
    var backend := Backend(rows, db.batches[b].key.currency);
    var terminal := Pending(report, backend, prior);
    CloseOutcome(db.batches[b], rows, terminal, held);
    SaveCloseShape(db, b, CloseOrHold(db.batches[b], rows, terminal, held).value, true, db.processed + {ev});
  }

  /** Exact count and net of some rows. */
  function Exactly(rows: seq<Row>): Report {
    Report(Fold(rows).Count(), Fold(rows).Net())
  }

  /** The exact totals of every batch. */
  function EachTotal(db: Db): (totals: seq<Report>)
    ensures |totals| == |db.batches|
    ensures forall b :: 0 <= b < |totals| ==> totals[b] == Exactly(RowsOf(db.rows, b))
  {
    seq(|db.batches|, b => if b >= 0 then Exactly(RowsOf(db.rows, b)) else Report(0, 0))
  }

  /** The sum over the batches of the key, open or not, among the first n. */
  function DayUpTo(batches: seq<Batch>, n: nat, totals: seq<Report>, key: Key): Report
    requires n <= |batches| == |totals|
  {
    if n == 0 then Report(0, 0)
    else
      var rest := DayUpTo(batches, n - 1, totals, key);
      if batches[n - 1].key == key then Plus(rest, totals[n - 1]) else rest
  }

  predicate DayBounded(db: Db, key: Key) {
    forall b :: 0 <= b < |db.batches| && db.batches[b].key == key ==> WithinBounds(Fold(RowsOf(db.rows, b)))
  }

  /** No batch of the key is in dispute. */
  predicate Undisputed(db: Db, key: Key) {
    forall b :: 0 <= b < |db.batches| && db.batches[b].key == key ==> db.batches[b].state != Disputed
  }

  /** What a terminal that never resets its counters reports: everything of the day. */
  function Cumulative(db: Db, key: Key): Report {
    DayUpTo(db.batches, |db.batches|, EachTotal(db), key)
  }

  /** A stored summary of rows within the bounds carries their exact count and net. */
  predicate Carries(stored: Option<Summary>, t: Report) {
    && stored.Some? && Report(stored.value.totalCount, stored.value.totalCents) == t
    && t.count >= 0 && (t.count > 0 || t.cents == 0)
  }

  lemma ExactCarries(s: Summary, m: Totals, t: Totals)
    requires Exact(s, t) && Tracks(m, t)
    ensures Carries(Some(s), Report(t.Count(), t.Net()))
  {
  }

  lemma SummaryCarries(stored: Option<Summary>, rows: seq<Row>, currency: Currency)
    requires SummaryOf(stored, rows, currency) && PositiveRows(rows)
    requires !currency.Unknown? && WithinBounds(Fold(rows))
    ensures Carries(stored, Exactly(rows))
  {
    MachineFold(rows);
    SummaryIsExactIff(rows, currency);
    ExactCarries(Calculate(rows, currency).summary, Fold64(rows), Fold(rows));
  }

  lemma ClosedBatchIsExact(db: Db, b: nat)
    requires Inv(db) && b < |db.batches| && Counted(db.batches[b].state) && WithinBounds(Fold(RowsOf(db.rows, b)))
    ensures Carries(db.batches[b].summary, Exactly(RowsOf(db.rows, b)))
  {
    assert BatchOk(db, b);
    RowsArePositive(db, b);
    SummaryCarries(db.batches[b].summary, RowsOf(db.rows, b), db.batches[b].key.currency);
  }

  lemma RowsArePositive(db: Db, b: nat)
    requires Inv(db)
    ensures PositiveRows(RowsOf(db.rows, b))
  {
    forall r | r in RowsOf(db.rows, b) ensures 0 < r.cents <= MAX_INT64 {
      RowsOfAreRows(db.rows, b, r);
      assert RowOk(db, r);
    }
  }

  /** The day is the closed totals plus the open batch; and closed batches without rows add nothing. */
  predicate Splits(day: Report, closed: Report, open: Report) {
    && day.count == closed.count + open.count && day.cents == closed.cents + open.cents
    && closed.count >= 0 && (closed.count > 0 || closed.cents == 0)
  }

  function OpenTotals(totals: seq<Report>, open: nat, n: nat): Report
    requires n <= |totals|
  {
    if open < n then totals[open] else Report(0, 0)
  }

  lemma OthersAreClosed(db: Db, key: Key, open: nat, b: nat)
    requires Inv(db) && FindOpen(db.batches, key) == Some(open) && Undisputed(db, key)
    requires b < |db.batches| && b != open && db.batches[b].key == key
    ensures Counted(db.batches[b].state)
  {
    assert BatchOk(db, b);
  }

  /** A batch of the key, other than the open one, is closed with the totals of its rows. */
  predicate ClosedCarries(batches: seq<Batch>, totals: seq<Report>, key: Key, open: nat, b: nat)
    requires b < |batches| == |totals|
  {
    batches[b].key == key && b != open ==> Counted(batches[b].state) && Carries(batches[b].summary, totals[b])
  }

  lemma OthersCarry(db: Db, key: Key, open: nat, b: nat)
    requires Inv(db) && FindOpen(db.batches, key) == Some(open) && Undisputed(db, key) && DayBounded(db, key)
    requires b < |db.batches|
    ensures ClosedCarries(db.batches, EachTotal(db), key, open, b)
  {
    if db.batches[b].key == key && b != open {
      OthersAreClosed(db, key, open, b);
      ClosedBatchIsExact(db, b);
    }
  }

  /** Over the first n batches, the day is the closed totals plus those of the open batch. */
  lemma {:induction false} DaySplits(batches: seq<Batch>, totals: seq<Report>, key: Key, open: nat, n: nat)
    requires open < |batches| == |totals| && batches[open].key == key && n <= |batches|
    requires forall b :: 0 <= b < |batches| ==> ClosedCarries(batches, totals, key, open, b)
    ensures Splits(DayUpTo(batches, n, totals, key), ClosedUpTo(batches, n, key, open), OpenTotals(totals, open, n))
  {
    if n > 0 {
      DaySplits(batches, totals, key, open, n - 1);
      assert ClosedCarries(batches, totals, key, open, n - 1);
    }
  }

  /** In any state where the earlier batches of the day are undisputed, the cumulative report
      reconciles with the pending batch. */
  lemma CumulativeReportReconciles(db: Db, key: Key, open: nat)
    requires Inv(db) && FindOpen(db.batches, key) == Some(open) && Undisputed(db, key) && DayBounded(db, key)
    ensures var backend := Backend(RowsOf(db.rows, open), key.currency);
            Pending(Cumulative(db, key), backend, ClosedTotals(db.batches, key, open)) == backend
  {
    forall b | 0 <= b < |db.batches| ensures ClosedCarries(db.batches, EachTotal(db), key, open, b) {
      OthersCarry(db, key, open, b);
    }
    DaySplits(db.batches, EachTotal(db), key, open, |db.batches|);
    OpenIsExact(db, open);
    SplitsReconcile(Cumulative(db, key), ClosedTotals(db.batches, key, open),
                    Backend(RowsOf(db.rows, open), key.currency));
  }

  lemma OpenIsExact(db: Db, b: nat)
    requires Inv(db) && b < |db.batches| && WithinBounds(Fold(RowsOf(db.rows, b)))
    ensures Backend(RowsOf(db.rows, b), db.batches[b].key.currency) == Exactly(RowsOf(db.rows, b))
  {
    var rows := RowsOf(db.rows, b);
    RowsArePositive(db, b);
    MachineFold(rows);
    SummaryIsExactIff(rows, db.batches[b].key.currency);
  }

  lemma SplitsReconcile(day: Report, closed: Report, open: Report)
    requires Splits(day, closed, open)
    ensures Pending(day, open, closed) == open
  {
  }

  /** A step of the day as far as this key goes: a close carries the cumulative report and the current
      closed totals, and nobody saw a review open on its batches. The rest is free. */
  predicate HonestStep(db: Db, op: Op, key: Key) {
    match op
    case OpClose(_, k, report, prior, held) =>
      k == key ==>
        && DayBounded(db, key) && report == Cumulative(db, key) && !held
        && (FindOpen(db.batches, key).Some? ==> prior == ClosedTotals(db.batches, key, FindOpen(db.batches, key).value))
    case OpAutoClose(_, b, held) => b < |db.batches| && db.batches[b].key == key ==> !held
    case OpHold(b) => b < |db.batches| ==> db.batches[b].key != key
    case _ => true
  }

  lemma TerminalCloseStays(db: Db, op: Op, key: Key)
    requires Inv(db) && Legal(db, op) && Undisputed(db, key) && HonestStep(db, op, key) && op.OpClose?
    ensures Undisputed(Apply(db, op), key)
  {
    var b := FindOpen(db.batches, op.key).value;
    if op.key == key {
      CumulativeReportReconciles(db, key, b);
    }
    var rows := RowsOf(db.rows, b);
    var terminal := Pending(op.report, Backend(rows, op.key.currency), op.prior);
    CloseOutcome(db.batches[b], rows, terminal, op.held);
    CloseLeaves(db, b, CloseOrHold(db.batches[b], rows, terminal, op.held).value, true, db.processed + {op.ev}, key);
  }

  lemma AutoCloseStays(db: Db, op: Op, key: Key)
    requires Legal(db, op) && Undisputed(db, key) && HonestStep(db, op, key) && op.OpAutoClose?
    ensures Undisputed(Apply(db, op), key)
  {
    var b := op.batch;
    var rows := RowsOf(db.rows, b);
    var backend := Backend(rows, db.batches[b].key.currency);
    CloseOutcome(db.batches[b], rows, backend, op.held);
    CloseLeaves(db, b, CloseOrHold(db.batches[b], rows, backend, op.held).value, false, db.processed + {op.ev}, key);
  }

  lemma ForceCloseStays(db: Db, b: nat, key: Key)
    requires InState(db, b, Open) && Undisputed(db, key)
    ensures Undisputed(ForceClose(db, b), key)
  {
    var rows := RowsOf(db.rows, b);
    ForceCloseOutcome(db.batches[b], rows);
    CloseLeaves(db, b, CloseWithBackendTotals(db.batches[b], rows).value, false, db.processed, key);
  }

  lemma HeaderOpStays(db: Db, op: Op, key: Key)
    requires Legal(db, op) && HeaderOp(op) && Undisputed(db, key) && HonestStep(db, op, key)
    ensures Undisputed(Apply(db, op), key)
  {
    HeaderOpShape(db, op);
  }

  lemma RowOpStays(db: Db, op: Op, key: Key)
    requires Legal(db, op) && Undisputed(db, key) && (Registers(op) || op.OpReview? || op.OpOpen?)
    ensures Undisputed(Apply(db, op), key)
  {
  }

  lemma StepStaysUndisputed(db: Db, op: Op, key: Key)
    requires Inv(db) && Legal(db, op) && Undisputed(db, key) && HonestStep(db, op, key)
    ensures Undisputed(Apply(db, op), key)
  {
    if op.OpClose? {
      TerminalCloseStays(db, op, key);
    } else if op.OpAutoClose? {
      AutoCloseStays(db, op, key);
    } else if op.OpForceClose? {
      ForceCloseStays(db, op.batch, key);
    } else if HeaderOp(op) {
      HeaderOpStays(db, op, key);
    } else {
      RowOpStays(db, op, key);
    }
  }

  lemma CloseLeaves(db: Db, b: nat, n: Batch, always: bool, processed: set<int>, key: Key)
    requires b < |db.batches| && n.summary.Some? && n.key == db.batches[b].key
    requires Undisputed(db, key) && (n.key == key ==> n.state != Disputed)
    ensures Undisputed(SaveClose(db, b, n, always).(processed := processed), key)
  {
    SaveCloseShape(db, b, n, always, processed);
  }

  // ----- the prior totals stay while the pending batch keeps its version -----

  /** What ClosedTotals takes from each batch of the key is the same. */
  predicate SameClosed(before: seq<Batch>, after: seq<Batch>, key: Key, b: nat) {
    && |before| <= |after|
    && (forall i :: 0 <= i < |before| ==> after[i].key == before[i].key)
    && (forall i :: 0 <= i < |before| && before[i].key == key && i != b ==>
          (Counted(after[i].state) <==> Counted(before[i].state)) && after[i].summary == before[i].summary)
    && (forall i :: |before| <= i < |after| ==> !Counted(after[i].state))
  }

  lemma {:induction false} SameClosedUpTo(before: seq<Batch>, after: seq<Batch>, n: nat, key: Key, b: nat)
    requires SameClosed(before, after, key, b) && n <= |after|
    ensures ClosedUpTo(after, n, key, b) == ClosedUpTo(before, if n <= |before| then n else |before|, key, b)
  {
    if n > 0 {
      SameClosedUpTo(before, after, n - 1, key, b);
    }
  }

  /** A closed batch of the key stays closed, with its summary. */
  lemma ClosedStays(db: Db, op: Op, key: Key, i: nat)
    requires Legal(db, op) && HonestStep(db, op, key)
    requires i < |db.batches| && db.batches[i].key == key && Counted(db.batches[i].state)
    ensures var n := Apply(db, op);
            i < |n.batches| && Counted(n.batches[i].state) && n.batches[i].summary == db.batches[i].summary
  {
    if HeaderOp(op) {
      HeaderOpShape(db, op);
    } else {
      CountedStays(db, op, i);
    }
  }

  lemma KeysStay(db: Db, n: Db)
    requires Evolves(db, n)
    ensures forall i :: 0 <= i < |db.batches| ==> n.batches[i].key == db.batches[i].key
  {
    forall i | 0 <= i < |db.batches| ensures n.batches[i].key == db.batches[i].key {
      assert Same(db, n, i) || Newer(db, n, i);
    }
  }

  lemma StepSameClosed(db: Db, op: Op, key: Key, b: nat)
    requires Inv(db) && Legal(db, op) && Undisputed(db, key) && HonestStep(db, op, key)
    requires FindOpen(db.batches, key) == Some(b)
    ensures SameClosed(db.batches, Apply(db, op).batches, key, b)
  {
    var n := Apply(db, op);
    OnlyOpenAdds(db, op);
    ApplyKeeps(db, op);
    KeysStay(db, n);
    forall i | 0 <= i < |db.batches| && db.batches[i].key == key && i != b
      ensures Counted(n.batches[i].state) && Counted(db.batches[i].state)
              && n.batches[i].summary == db.batches[i].summary
    {
      OthersAreClosed(db, key, b, i);
      ClosedStays(db, op, key, i);
    }
  }

  /** While the pending batch is not touched, neither are the closed totals next to it. */
  lemma PriorStays(db: Db, op: Op, key: Key, b: nat)
    requires Inv(db) && Legal(db, op) && Undisputed(db, key) && HonestStep(db, op, key)
    requires FindOpen(db.batches, key) == Some(b)
    ensures ClosedTotals(Apply(db, op).batches, key, b) == ClosedTotals(db.batches, key, b)
  {
    StepSameClosed(db, op, key, b);
    SameClosedUpTo(db.batches, Apply(db, op).batches, |Apply(db, op).batches|, key, b);
  }

  // ----- the handlers -----

  /** No batch of the key has an open review. */
  predicate NoReviews(db: Db, key: Key) {
    forall b :: 0 <= b < |db.batches| && db.batches[b].key == key ==> NoOpenReview(db.reviews, b)
  }

  /** A close of the key commits when the terminal reported everything of the day. */
  predicate HonestCommit(db: Db, op: Op, key: Key) {
    op.OpClose? && op.key == key ==> DayBounded(db, key) && op.report == Cumulative(db, key)
  }

  /** The operation that an event committed, if any. */
  predicate HonestEvent(s: System, n: System, key: Key) {
    |n.log| > |s.log| ==> HonestCommit(s.db, n.log[|s.log|], key)
  }

  predicate HonestRun(schedule: seq<Event>, key: Key) {
    |schedule| == 0 || (
      && HonestRun(schedule[..|schedule| - 1], key) && NoReviews(Run(schedule).db, key)
      && HonestEvent(Run(schedule[..|schedule| - 1]), Run(schedule), key))
  }

  predicate PriorRead(db: Db, job: Job, b: nat, h: Batch, prior: Report, key: Key) {
    job.DoClose? && job.key == key && b < |db.batches| ==>
      h.state == Open && (h.version == db.batches[b].version ==> prior == ClosedTotals(db.batches, key, b))
  }

  /** What a handler has read besides header and rows: the prior totals are right while its batch keeps
      its version, and no review of the key was seen open. */
  predicate ReadsRight(db: Db, c: Client, key: Key) {
    match c
    case Priced(job, b, h, _, prior) => PriorRead(db, job, b, h, prior, key)
    case Ready(job, b, h, _, prior, openReviews) =>
      && PriorRead(db, job, b, h, prior, key)
      && (b < |db.batches| && db.batches[b].key == key ==> openReviews == 0)
    case _ => true
  }

  lemma ReadsStayRight(db: Db, op: Op, c: Client, key: Key)
    requires Inv(db) && Legal(db, op) && Undisputed(db, key) && HonestStep(db, op, key)
    requires ClientOk(db, c) && ReadsRight(db, c, key)
    ensures ReadsRight(Apply(db, op), c, key)
  {
    var n := Apply(db, op);
    if c.Priced? || c.Ready? {
      ApplyKeeps(db, op);
      assert Same(db, n, c.b) || Newer(db, n, c.b);
      if c.job.DoClose? && c.job.key == key && c.h.version == n.batches[c.b].version {
        OpenIsFound(db, c.b);
        PriorStays(db, op, key, c.b);
      }
    }
  }

  /** A handler that moves without committing reads right, and one that commits is honest. */
  lemma AdvanceReadsRight(db: Db, c: Client, key: Key)
    requires Inv(db) && ClientOk(db, c) && NoReviews(db, key) && ReadsRight(db, c, key)
    ensures ReadsRight(db, Advance(db, c).client, key) || Advance(db, c).client == c
  {
    match c
    case Loaded(job, b, h, rows) => if b < |db.batches| { AfterLoadingReadsRight(db, c, key); }
    case Priced(job, b, h, rows, prior) =>
    case Ready(_, _, _, _, _, _) => ReadyEnds(db, c);
    case _ =>
  }

  lemma AfterLoadingReadsRight(db: Db, c: Client, key: Key)
    requires c.Loaded? && c.b < |db.batches| && ClientOk(db, c)
    ensures ReadsRight(db, AfterLoading(db, c.job, c.b, c.h, c.rows).client, key)
  {
  }

  lemma ReadyEnds(db: Db, c: Client)
    requires c.Ready?
    ensures !Advance(db, c).client.Priced? && !Advance(db, c).client.Ready?
  {
  }

  lemma OtherPhases(db: Db, c: Client)
    requires !c.Ready?
    ensures Advance(db, c).op.Some? ==>
              var op := Advance(db, c).op.value; !op.OpClose? && !op.OpAutoClose? && !op.OpHold?
  {
    if c.Loaded? && c.b < |db.batches| {
      LoadedPhase(db, c);
    }
  }

  lemma LoadedPhase(db: Db, c: Client)
    requires c.Loaded? && c.b < |db.batches|
    ensures var t := AfterLoading(db, c.job, c.b, c.h, c.rows);
            t.op.Some? ==> !t.op.value.OpClose? && !t.op.value.OpAutoClose? && !t.op.value.OpHold?
  {
  }

  /** Whatever a handler commits is honest, with the prior totals that it read in an earlier step. */
  lemma CommitIsHonest(db: Db, c: Client, key: Key)
    requires Inv(db) && ClientOk(db, c) && ReadsRight(db, c, key)
    requires Advance(db, c).op.Some? && HonestCommit(db, Advance(db, c).op.value, key)
    ensures HonestStep(db, Advance(db, c).op.value, key)
  {
    if c.Ready? {
      ReadyIsHonest(db, c, key);
    } else {
      OtherPhases(db, c);
    }
  }

  lemma ReadyIsHonest(db: Db, c: Client, key: Key)
    requires Inv(db) && ClientOk(db, c) && ReadsRight(db, c, key) && c.Ready?
    requires Advance(db, c).op.Some? && HonestCommit(db, Advance(db, c).op.value, key)
    ensures HonestStep(db, Advance(db, c).op.value, key)
  {
    SavedIsCurrent(db, c);
    assert BatchOk(db, c.b);
    if c.job.DoClose? {
      OpenIsFound(db, c.b);
    }
  }

  lemma SavedIsCurrent(db: Db, c: Client)
    requires ClientOk(db, c) && c.Ready? && Advance(db, c).op.Some?
    ensures c.h == db.batches[c.b]
    ensures c.job.DoClose? ==> c.h.state == Open
    ensures c.job.DoClose? ==>
              Advance(db, c).op.value == OpClose(c.job.ev, c.job.key, c.job.report, c.prior, c.openReviews > 0)
    ensures c.job.DoAutoClose? ==> Advance(db, c).op.value == OpAutoClose(c.job.ev, c.b, c.openReviews > 0)
    ensures c.job.DoResubmit? && Advance(db, c).op.value.OpHold? ==>
              Advance(db, c).op.value == OpHold(c.b) && c.h.state == Closed
              && (c.h.discrepancies > 0 || c.openReviews > 0)
    ensures c.job.DoResolveDispute? ==> Advance(db, c).op.value == OpResolveDispute(c.b)
  {
  }

  // ----- whole runs -----

  predicate DayOk(s: System, key: Key) {
    && Undisputed(s.db, key)
    && forall i :: 0 <= i < |s.clients| ==> ReadsRight(s.db, s.clients[i], key)
  }

  /** A commit of any handler, or of an operator on a review. */
  lemma CommitKeepsDay(s: System, op: Op, key: Key)
    requires SystemOk(s) && DayOk(s, key) && Legal(s.db, op) && HonestStep(s.db, op, key)
    ensures Undisputed(Apply(s.db, op), key)
    ensures forall i :: 0 <= i < |s.clients| ==> ReadsRight(Apply(s.db, op), s.clients[i], key)
  {
    StepStaysUndisputed(s.db, op, key);
    forall i | 0 <= i < |s.clients| ensures ReadsRight(Apply(s.db, op), s.clients[i], key) {
      ReadsStayRight(s.db, op, s.clients[i], key);
    }
  }

  lemma MoveKeepsDay(s: System, i: nat, key: Key)
    requires SystemOk(s) && DayOk(s, key) && NoReviews(s.db, key) && i < |s.clients|
    requires HonestEvent(s, Next(s, Move(i)), key)
    ensures DayOk(Next(s, Move(i)), key)
  {
    var t, c := Advance(s.db, s.clients[i]), s.clients[i];
    AdvanceRefines(s.db, c);
    AdvanceReadsRight(s.db, c, key);
    if t.op.Some? {
      assert (s.log + [t.op.value])[|s.log|] == t.op.value;
      CommitIsHonest(s.db, c, key);
      CommitKeepsDay(s, t.op.value, key);
      CommittedReadsNothing(s.db, c);
    }
  }

  lemma CommittedReadsNothing(db: Db, c: Client)
    requires Advance(db, c).op.Some?
    ensures !Advance(db, c).client.Priced? && !Advance(db, c).client.Ready?
  {
    if c.Loaded? && c.b < |db.batches| {
      LoadedCommits(db, c);
    } else if c.Ready? {
      ReadyEnds(db, c);
    }
  }

  lemma LoadedCommits(db: Db, c: Client)
    requires c.Loaded? && c.b < |db.batches| && AfterLoading(db, c.job, c.b, c.h, c.rows).op.Some?
    ensures !AfterLoading(db, c.job, c.b, c.h, c.rows).client.Priced?
            && !AfterLoading(db, c.job, c.b, c.h, c.rows).client.Ready?
  {
  }

  lemma EventKeepsDay(s: System, e: Event, key: Key)
    requires SystemOk(s) && DayOk(s, key) && NoReviews(s.db, key) && HonestEvent(s, Next(s, e), key)
    ensures DayOk(Next(s, e), key)
  {
    match e
    case Move(i) => if i < |s.clients| { MoveKeepsDay(s, i, key); }
    case Decide(tx, action) =>
      if LegalReview(s.db, tx, action) {
        CommitKeepsDay(s, OpReview(tx, action), key);
      }
    case _ =>
  }

  /** Over a whole day, with any interleaving of sales, reversals, closes and operators' actions: if the
      terminal reports everything of the day whenever one of its closes commits, and no review is open on
      its batches, then no batch of it is ever disputed. The prior totals are those that the handler read
      in an earlier step. */
  lemma {:induction false} CumulativeTerminalIsNeverDisputed(schedule: seq<Event>, key: Key)
    requires HonestRun(schedule, key)
    ensures DayOk(Run(schedule), key)
  {
    if |schedule| > 0 {
      var front := schedule[..|schedule| - 1];
      CumulativeTerminalIsNeverDisputed(front, key);
      RunOk(front);
      assert NoReviews(Run(front).db, key);
      EventKeepsDay(Run(front), schedule[|schedule| - 1], key);
    }
  }
}
