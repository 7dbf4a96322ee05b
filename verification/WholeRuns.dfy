/** What the ledger promises of one transaction and of one close, over whole concurrent runs. */
module WholeRuns {
  import opened Options
  import opened BatchSummary
  import opened Batches
  import opened ReversalReviews
  import opened Ledger
  import opened LedgerClients
  import opened LedgerRefinement
  import opened EndToEnd
  import opened LedgerDays
  import DailyCompletion
  import CloseEvents
  import Outbox
  import Saga
  import SagaSafety

  // ----- the operations of a run are those of its deliveries -----

  /** A delivery carries the merchant of its terminal, and those of the transaction its one charge. */
  predicate JobFits(job: Job, tx: int, c: Charge, owner: int -> int) {
    job.Registers() ==> job.charge.merchant == owner(job.key.terminal) && (job.tx == tx ==> job.charge == c)
  }

  /** An operator decides on the reversal of the transaction only to accept it as it is. */
  predicate EventFits(e: Event, tx: int, c: Charge, owner: int -> int) {
    match e
    case Start(job) => JobFits(job, tx, c, owner)
    case Decide(t, action) => t == tx ==> action == Accept
    case _ => true
  }

  predicate ClientFits(client: Client, tx: int, c: Charge, owner: int -> int) {
    client.Idle? || client.Unsent? || JobFits(client.job, tx, c, owner)
  }

  predicate SystemFits(s: System, tx: int, c: Charge, owner: int -> int) {
    && (forall i :: 0 <= i < |s.clients| ==> ClientFits(s.clients[i], tx, c, owner))
    && AllConsistent(s.log, tx, c, owner)
  }

  predicate StepFits(t: Step, tx: int, c: Charge, owner: int -> int) {
    ClientFits(t.client, tx, c, owner) && (t.op.Some? ==> Consistent(t.op.value, tx, c, owner))
  }

  lemma LoadedFits(db: Db, client: Client, tx: int, c: Charge, owner: int -> int)
    requires ClientFits(client, tx, c, owner) && client.Loaded? && client.b < |db.batches|
    ensures StepFits(AfterLoading(db, client.job, client.b, client.h, client.rows), tx, c, owner)
  {
  }

  lemma WaitingFits(db: Db, client: Client, tx: int, c: Charge, owner: int -> int)
    requires ClientFits(client, tx, c, owner) && client.Waiting? && client.job.DoApproval? && client.b < |db.batches|
    ensures StepFits(CommitLate(db, client.job, client.b, client.h, client.rows), tx, c, owner)
  {
  }

  lemma ClosedFits(db: Db, b: nat, n: Batch, rows: seq<Row>, always: bool, events: set<int>, op: Op, submits: bool,
                   stale: Client, tx: int, c: Charge, owner: int -> int)
    requires b < |db.batches| && n.summary.Some? && Consistent(op, tx, c, owner) && ClientFits(stale, tx, c, owner)
    ensures StepFits(CommitClosed(db, b, n, rows, always, events, op, submits, stale), tx, c, owner)
  {
  }

  lemma HeaderFits(db: Db, b: nat, n: Option<Batch>, rows: seq<Row>, op: Op, tx: int, c: Charge, owner: int -> int)
    requires b < |db.batches| && Consistent(op, tx, c, owner)
    ensures StepFits(CommitHeader(db, b, n, rows, op), tx, c, owner)
  {
  }

  lemma CloseFits(db: Db, client: Client, tx: int, c: Charge, owner: int -> int)
    requires ClientFits(client, tx, c, owner) && client.Ready? && client.job.DoClose? && client.b < |db.batches|
    ensures StepFits(CommitClose(db, client), tx, c, owner)
  {
    var job, held := client.job, client.openReviews > 0;
    var n := CloseOrHold(client.h, client.rows,
                         Pending(job.report, Backend(client.rows, client.h.key.currency), client.prior), held);
    if n.Some? {
      ClosedFits(db, client.b, n.value, client.rows, true, {job.ev},
                 OpClose(job.ev, job.key, job.report, client.prior, held),
                 true, Begun(job), tx, c, owner);
    }
  }

  lemma AutoCloseFits(db: Db, client: Client, tx: int, c: Charge, owner: int -> int)
    requires client.Ready? && client.job.DoAutoClose? && client.b < |db.batches|
    ensures StepFits(CommitAutoClose(db, client), tx, c, owner)
  {
    var ev, held := client.job.ev, client.openReviews > 0;
    var n := CloseOrHold(client.h, client.rows, Backend(client.rows, client.h.key.currency), held);
    if n.Some? {
      ClosedFits(db, client.b, n.value, client.rows, false, {ev}, OpAutoClose(ev, client.b, held),
                 |client.rows| > 0, Idle, tx, c, owner);
    }
  }

  lemma OperatorFits(db: Db, client: Client, tx: int, c: Charge, owner: int -> int)
    requires client.Ready? && client.b < |db.batches|
    ensures StepFits(CommitResubmit(db, client), tx, c, owner)
            && StepFits(CommitResolveDispute(db, client), tx, c, owner)
  {
    var b, h, rows := client.b, client.h, client.rows;
    HeaderFits(db, b, Transition(h, Disputed), rows, OpHold(b), tx, c, owner);
    HeaderFits(db, b, Transition(h, Submitted), rows, OpSubmit(b), tx, c, owner);
    HeaderFits(db, b, ResolveDispute(h, rows), rows, OpResolveDispute(b), tx, c, owner);
  }

  lemma ReadyFits(db: Db, client: Client, tx: int, c: Charge, owner: int -> int)
    requires ClientFits(client, tx, c, owner) && client.Ready? && client.b < |db.batches|
    ensures StepFits(Advance(db, client), tx, c, owner)
  {
    if client.job.DoClose? {
      CloseFits(db, client, tx, c, owner);
    } else if client.job.DoAutoClose? {
      AutoCloseFits(db, client, tx, c, owner);
    } else {
      OperatorFits(db, client, tx, c, owner);
    }
  }

  lemma BeginFits(db: Db, job: Job, tx: int, c: Charge, owner: int -> int)
    requires JobFits(job, tx, c, owner)
    ensures StepFits(Begin(db, job), tx, c, owner)
  {
  }

  lemma AdvanceFits(db: Db, client: Client, tx: int, c: Charge, owner: int -> int)
    requires ClientFits(client, tx, c, owner)
    ensures StepFits(Advance(db, client), tx, c, owner)
  {
    match client
    case Begun(job) => BeginFits(db, job, tx, c, owner);
    case Loaded(_, b, _, _) => if b < |db.batches| { LoadedFits(db, client, tx, c, owner); }
    case Waiting(job, b, _, _) => if b < |db.batches| && job.DoApproval? { WaitingFits(db, client, tx, c, owner); }
    case Ready(_, b, _, _, _, _) => if b < |db.batches| { ReadyFits(db, client, tx, c, owner); }
    case Unsent(_, _, _) =>
    case _ =>
  }

  lemma LogFits(log: seq<Op>, op: Op, tx: int, c: Charge, owner: int -> int)
    requires AllConsistent(log, tx, c, owner) && Consistent(op, tx, c, owner)
    ensures AllConsistent(log + [op], tx, c, owner)
  {
    assert (log + [op])[..|log|] == log;
  }

  lemma MoveFits(s: System, i: nat, tx: int, c: Charge, owner: int -> int)
    requires SystemFits(s, tx, c, owner) && i < |s.clients|
    ensures SystemFits(Next(s, Move(i)), tx, c, owner)
  {
    var t := Advance(s.db, s.clients[i]);
    AdvanceFits(s.db, s.clients[i], tx, c, owner);
    if t.op.Some? {
      LogFits(s.log, t.op.value, tx, c, owner);
    }
  }

  lemma NextFits(s: System, e: Event, tx: int, c: Charge, owner: int -> int)
    requires SystemFits(s, tx, c, owner) && EventFits(e, tx, c, owner)
    ensures SystemFits(Next(s, e), tx, c, owner)
  {
    match e
    case Move(i) =>
      if i < |s.clients| {
        MoveFits(s, i, tx, c, owner);
      }
    case Decide(t, action) => LogFits(s.log, OpReview(t, action), tx, c, owner);
    case _ =>
  }

  lemma {:induction false} RunFits(schedule: seq<Event>, tx: int, c: Charge, owner: int -> int)
    requires forall e :: e in schedule ==> EventFits(e, tx, c, owner)
    ensures SystemFits(Run(schedule), tx, c, owner)
  {
    if |schedule| > 0 {
      RunFits(schedule[..|schedule| - 1], tx, c, owner);
      NextFits(Run(schedule[..|schedule| - 1]), schedule[|schedule| - 1], tx, c, owner);
    }
  }

  /** After any run of the saga and any concurrent run of the ledger to which its events were delivered, the
      net of the transaction over all batches is its amount when its row is APPROVED and zero otherwise, in
      particular when it is REVERSED or REJECTED, and no review of it is open. */
  lemma NetMatchesRow(saga: seq<Saga.Event>, schedule: seq<Event>, tx: int, c: Charge, owner: int -> int)
    requires forall e :: e in schedule ==> EventFits(e, tx, c, owner)
    requires Delivered(Saga.Of(Saga.Run(saga), tx), Run(schedule).log, tx)
    ensures var db := Run(schedule).db;
            && Net(db.rows, tx) == (if Saga.InState(Saga.Of(Saga.Run(saga), tx), Saga.Approved) then c.cents else 0)
            && OpenReason(db.reviews, tx).None?
  {
    var log := Run(schedule).log;
    ConcurrentRunIsSequential(schedule);
    RunFits(schedule, tx, c, owner);
    SagaSafety.RunSafe(saga, tx);
    RowDecides(Saga.Of(Saga.Run(saga), tx), log, tx);
    NetOfLog(log, tx, c, owner);
  }

  // ----- closes and their events -----

  /** A step commits one legal operation, or leaves the tables as they are. */
  lemma StepCommits(schedule: seq<Event>, e: Event)
    ensures var s, n := Run(schedule), Next(Run(schedule), e);
            && SystemOk(s)
            && (n.log == s.log ==> n.db == s.db)
            && (n.log != s.log ==>
                |n.log| == |s.log| + 1 && Legal(s.db, n.log[|s.log|]) && n.db == Apply(s.db, n.log[|s.log|]))
  {
    RunOk(schedule);
    var s := Run(schedule);
    if e.Move? && e.i < |s.clients| {
      AdvanceRefines(s.db, s.clients[e.i]);
    }
  }

  lemma {:induction false} RunOutboxPrefix(schedule: seq<Event>, k: nat)
    requires k <= |schedule|
    ensures Run(schedule[..k]).db.outbox <= Run(schedule).db.outbox
  {
    if k == |schedule| {
      assert schedule[..k] == schedule;
    } else {
      var front := schedule[..|schedule| - 1];
      RunOutboxPrefix(front, k);
      assert front[..k] == schedule[..k];
      StepCommits(front, schedule[|schedule| - 1]);
      var s, n := Run(front), Run(schedule);
      if n.log != s.log {
        CloseEvents.OutboxGrows(s.db, n.log[|s.log|]);
      }
    }
  }

  /** Step k of the run closed the batch: for the terminal, or with rows. */
  predicate ClosesAt(schedule: seq<Event>, k: nat, b: nat)
    requires k < |schedule|
  {
    var s, n := Run(schedule[..k]), Run(schedule[..k + 1]);
    && CloseEvents.Closes(s.db, n.db, b)
    && ((|n.log| > |s.log| && n.log[|s.log|].OpClose?) || |RowsOf(n.db.rows, b)| > 0)
  }

  /** Whenever a step of any concurrent run takes a batch out of OPEN, the entry that describes the batch
      as that step saved it is later pending or in the stream, whatever the relays go through. */
  lemma EveryCloseIsPendingOrPublished(schedule: seq<Event>, k: nat, b: nat, relays: seq<Outbox.Event>)
    returns (id: nat)
    requires k < |schedule| && ClosesAt(schedule, k, b)
    requires Outbox.Run(relays).entries == Run(schedule).db.outbox
    ensures var s := Outbox.Run(relays);
            && id < |s.entries| && CloseEvents.Announces(s.entries[id], Run(schedule[..k + 1]).db, b)
            && (Outbox.InRows(s.rows, id) || id in s.stream)
  {
    var s, n := Run(schedule[..k]), Run(schedule[..k + 1]);
    assert schedule[..k + 1][..k] == schedule[..k];
    StepCommits(schedule[..k], schedule[k]);
    CloseEvents.ClosingCommitAnnounces(s.db, n.log[|s.log|], b);
    RunOutboxPrefix(schedule, k + 1);
    id := |s.db.outbox|;
    Outbox.NothingIsLost(relays);
  }

  // ----- the completion of a day -----

  /** Every concurrent run of the ledger is a run of DailyCompletion for each merchant and day, with the
      batches of the tables and the settles of the log. */
  lemma RunIsDayRun(schedule: seq<Event>, merchant: int, date: int) returns (days: seq<DailyCompletion.Event>)
    ensures IsDayOf(DailyCompletion.Run(days), Run(schedule).log, merchant, date)
    ensures Run(schedule).db == Replay(Run(schedule).log)
  {
    ConcurrentRunIsSequential(schedule);
    var d := LogIsDayRun(Run(schedule).log, merchant, date);
    days :| DailyCompletion.Run(days) == d;
  }

  /** Every batch of the day with rows is SETTLED, and there is one. */
  predicate DayDone(db: Db, merchant: int, date: int) {
    && (exists b :: 0 <= b < |db.batches| && Listed(db, b, merchant, date))
    && (forall b :: 0 <= b < |db.batches| && Listed(db, b, merchant, date) ==> db.batches[b].state == Settled)
  }

  /** Some settle enqueued what the day consists of now. */
  predicate DayAnnounced(db: Db, commits: seq<DailyCompletion.Commit>, merchant: int, date: int) {
    exists k :: 0 <= k < |commits| && commits[k].lines == Some(DayLines(db, |db.batches|, merchant, date))
  }

  /** All batches of the day with rows had them when the settle read it. */
  predicate SawAll(db: Db, seen: seq<DailyCompletion.DayBatch>, merchant: int, date: int) {
    forall b :: 0 <= b < |db.batches| && Listed(db, b, merchant, date) ==> b < |seen| && !seen[b].empty
  }

  lemma {:induction false} DoneLines(db: Db, n: nat, merchant: int, date: int)
    requires n <= |db.batches|
    requires forall b :: 0 <= b < n && Listed(db, b, merchant, date) ==> db.batches[b].state == Settled
    ensures DailyCompletion.AllLines(DayOf(db, n, merchant, date)) == DayLines(db, n, merchant, date)
  {
    if n > 0 {
      DoneLines(db, n - 1, merchant, date);
      var day := DayOf(db, n, merchant, date);
      assert day[..n - 1] == DayOf(db, n - 1, merchant, date);
    }
  }

  lemma ListedAt(db: Db, merchant: int, date: int, b: nat)
    requires b < |db.batches|
    ensures DayOf(db, |db.batches|, merchant, date)[b].empty <==> !Listed(db, b, merchant, date)
  {
    DayAt(db, |db.batches|, merchant, date, b);
  }

  lemma DoneIsDone(log: seq<Op>, d: DailyCompletion.Day, merchant: int, date: int)
    requires LegalLog(log) && IsDayOf(d, log, merchant, date) && DayDone(Replay(log), merchant, date)
    ensures DailyCompletion.Done(d)
    ensures var db := Replay(log); DailyCompletion.AllLines(d.batches) == DayLines(db, |db.batches|, merchant, date)
  {
    var db := Replay(log);
    var some :| 0 <= some < |db.batches| && Listed(db, some, merchant, date);
    ListedAt(db, merchant, date, some);
    forall b | 0 <= b < |d.batches| && !d.batches[b].empty ensures DailyCompletion.Settled(d, b) {
      ListedAt(db, merchant, date, b);
      SettledIff(log, merchant, date, b);
    }
    DoneLines(db, |db.batches|, merchant, date);
  }

  lemma SawAllIff(db: Db, d: DailyCompletion.Day, k: nat, merchant: int, date: int)
    requires d.batches == DayOf(db, |db.batches|, merchant, date) && k < |d.commits|
    ensures DailyCompletion.NothingLate(d, k) <==> SawAll(db, d.commits[k].seen, merchant, date)
  {
    forall b | 0 <= b < |db.batches| ensures d.batches[b].empty <==> !Listed(db, b, merchant, date) {
      ListedAt(db, merchant, date, b);
    }
  }

  lemma CompletesIff(days: seq<DailyCompletion.Event>, db: Db, k: nat, merchant: int, date: int)
    requires DailyCompletion.Run(days).batches == DayOf(db, |db.batches|, merchant, date)
    requires k < |DailyCompletion.Run(days).commits|
    ensures var d := DailyCompletion.Run(days);
            DailyCompletion.Completes(d, k) && DailyCompletion.NothingLate(d, k) <==>
            d.commits[k].lines.Some? && SawAll(db, d.commits[k].seen, merchant, date)
  {
    DailyCompletion.EnqueuedExactlyWhenComplete(days, k);
    SawAllIff(db, DailyCompletion.Run(days), k, merchant, date);
  }

  /** In any concurrent run: when every batch of a merchant and day with rows is SETTLED, the totals of the
      day were enqueued if and only if some settle that enqueued saw the rows of all of them. Otherwise the
      last settles waited for a batch that an operator emptied later. */
  lemma DayAnnouncedIff(schedule: seq<Event>, merchant: int, date: int)
    requires DayDone(Run(schedule).db, merchant, date)
    ensures var s := Run(schedule);
            var commits := SettlesOf(s.log, merchant, date);
            DayAnnounced(s.db, commits, merchant, date) <==>
            exists k :: 0 <= k < |commits| && commits[k].lines.Some? && SawAll(s.db, commits[k].seen, merchant, date)
  {
    var s := Run(schedule);
    var commits := SettlesOf(s.log, merchant, date);
    var days := RunIsDayRun(schedule, merchant, date);
    var d := DailyCompletion.Run(days);
    ConcurrentRunIsSequential(schedule);
    DoneIsDone(s.log, d, merchant, date);
    DailyCompletion.AnnouncedIff(days);
    forall k | 0 <= k < |commits|
      ensures DailyCompletion.Completes(d, k) && DailyCompletion.NothingLate(d, k) <==>
              commits[k].lines.Some? && SawAll(s.db, commits[k].seen, merchant, date)
    {
      CompletesIff(days, s.db, k, merchant, date);
    }
  }
}
