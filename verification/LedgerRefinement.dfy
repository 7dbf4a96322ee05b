/** Every run of the concurrent clients is a run of the sequential ledger. */
module LedgerRefinement {
  import opened Options
  import opened Money
  import opened BatchSummary
  import opened Batches
  import opened ReversalReviews
  import opened Ledger
  import opened LedgerInvariants
  import opened LedgerClients
  import opened ReviewHistory

  // ----- what a client has read stays true while the version stays -----

  predicate HeaderRead(db: Db, b: nat, h: Batch) {
    && b < |db.batches| && h.version <= db.batches[b].version
    && h.key == db.batches[b].key && h.merchant == db.batches[b].merchant
    && (h.version == db.batches[b].version ==> h == db.batches[b])
  }

  predicate RowsRead(db: Db, b: nat, h: Batch, rows: seq<Row>) {
    HeaderRead(db, b, h) && (h.version == db.batches[b].version ==> rows == RowsOf(db.rows, b))
  }

  predicate ReviewsRead(db: Db, b: nat, h: Batch, openReviews: nat) {
    HeaderRead(db, b, h) && (h.version == db.batches[b].version && openReviews == 0 ==> Clean(db.reviews, b))
  }

  /** A command that was validated, and whose batch is the one of its key. */
  predicate JobFits(db: Db, job: Job, b: nat) {
    && job.Accepted() && b < |db.batches|
    && (job.Registers() || job.DoClose? ==> db.batches[b].key == job.key)
    && (!job.Registers() && !job.DoClose? ==> job.batch == b)
  }

  /** The jobs that read the open reviews before saving. */
  predicate Counts(job: Job) {
    job.DoClose? || job.DoAutoClose? || job.DoResubmit? || job.DoResolveDispute?
  }

  predicate ClientOk(db: Db, c: Client) {
    match c
    case Idle => true
    case Begun(job) => job.Accepted()
    case Found(job, b) => JobFits(db, job, b) && job.Registers()
    case Headed(job, b, h) => JobFits(db, job, b) && HeaderRead(db, b, h) && (job.DoClose? ==> h.state == Open)
    case Loaded(job, b, h, rows) =>
      JobFits(db, job, b) && RowsRead(db, b, h, rows) && (job.DoClose? ==> h.state == Open)
    case Waiting(job, b, h, rows) => JobFits(db, job, b) && RowsRead(db, b, h, rows) && job.DoApproval?
    case Priced(job, b, h, rows, prior) => Counts(job) && JobFits(db, job, b) && RowsRead(db, b, h, rows)
    case Ready(job, b, h, rows, prior, n) =>
      Counts(job) && JobFits(db, job, b) && RowsRead(db, b, h, rows) && ReviewsRead(db, b, h, n)
    case Unsent(b, h, rows) =>
      h.state == Closed && h.discrepancies == 0 && RowsRead(db, b, h, rows) && ReviewsRead(db, b, h, 0)
  }

  lemma ClientOkAfter(db: Db, n: Db, c: Client)
    requires ClientOk(db, c) && Evolves(db, n)
    ensures ClientOk(n, c)
  {
    if !c.Idle? && !c.Begun? {
      assert Same(db, n, c.b) || Newer(db, n, c.b);
    }
  }

  // ----- saving a current snapshot is the sequential effect -----

  lemma {:induction false} RowsOfAreRows(rows: seq<Row>, b: nat, r: Row)
    requires r in RowsOf(rows, b)
    ensures r in rows && r.batch == b
  {
    if |rows| > 0 && r in RowsOf(rows[..|rows| - 1], b) {
      RowsOfAreRows(rows[..|rows| - 1], b, r);
    }
  }

  /** RowsOf has each row of the batch as often as the table does, and no other. */
  lemma {:induction false} RowsOfHas(rows: seq<Row>, b: nat, r: Row)
    ensures multiset(RowsOf(rows, b))[r] == if r.batch == b then multiset(rows)[r] else 0
  {
    if |rows| > 0 {
      var front, last := rows[..|rows| - 1], rows[|rows| - 1];
      RowsOfHas(front, b, r);
      assert rows == front + [last];
    }
  }

  lemma HasRowsIff(rows: seq<Row>, b: nat)
    ensures |RowsOf(rows, b)| > 0 <==> exists r :: r in rows && r.batch == b
  {
    if |RowsOf(rows, b)| > 0 {
      RowsOfAreRows(rows, b, RowsOf(rows, b)[0]);
    }
    forall r | r in rows && r.batch == b ensures |RowsOf(rows, b)| > 0 {
      RowsOfHas(rows, b, r);
      assert r in multiset(rows);
      assert r in RowsOf(rows, b);
    }
  }

  lemma {:induction false} InsertExisting(rows: seq<Row>, news: seq<Row>)
    requires forall r :: r in news ==> r in rows
    ensures InsertRows(rows, news) == rows
  {
    if |news| > 0 {
      InsertExisting(rows, news[..|news| - 1]);
    }
  }

  /** SaveTx inserts every loaded row again; only the row that was added can be new. */
  lemma InsertLoaded(rows: seq<Row>, b: nat, r: Row)
    ensures InsertRows(rows, RowsOf(rows, b)) == rows
    ensures InsertRows(rows, RowsOf(rows, b) + [r]) == InsertRow(rows, r)
  {
    forall x | x in RowsOf(rows, b) ensures x in rows {
      RowsOfAreRows(rows, b, x);
    }
    InsertExisting(rows, RowsOf(rows, b));
    var news := RowsOf(rows, b) + [r];
    assert news[..|news| - 1] == RowsOf(rows, b);
  }

  lemma LoadIsIdentity(db: Db, b: nat)
    requires Inv(db) && b < |db.batches|
    ensures Load(db.batches[b]) == db.batches[b]
  {
    assert BatchOk(db, b);
    var h := db.batches[b];
    if Counted(h.state) {
      ReloadAfterSave(h.summary, RowsOf(db.rows, b), h.key.currency);
    }
  }

  /** The batch a client loaded as OPEN is still the one that the sequential handler would find. */
  lemma OpenIsFound(db: Db, b: nat)
    requires Inv(db) && InState(db, b, Open)
    ensures FindOpen(db.batches, db.batches[b].key) == Some(b)
  {
  }

  // ----- one step of a client -----

  /** The step changed nothing, or did what one legal sequential operation does to the current tables. */
  predicate Refines(db: Db, t: Step) {
    match t.op
    case None => t.db == db
    case Some(op) => Legal(db, op) && t.db == Apply(db, op)
  }

  predicate StepOk(db: Db, t: Step) {
    Refines(db, t) && ClientOk(t.db, t.client)
  }

  /** Saving a changed header over the current one inserts no row. */
  lemma SaveCurrent(db: Db, b: nat, n: Batch)
    requires b < |db.batches| && n.version == db.batches[b].version
    requires n.state == Open ==> FindOpen(db.batches, n.key).GetOr(b) == b
    ensures Save(db, b, n, RowsOf(db.rows, b)) == Some(SaveHeader(db, b, n))
  {
    InsertLoaded(db.rows, b, Row(b, 0, Purchase, 0, n.key.currency));
  }

  /** Saving the current OPEN header with one more row inserts that row. */
  lemma SaveOneMore(db: Db, b: nat, r: Row)
    requires b < |db.batches| && FindOpen(db.batches, db.batches[b].key) == Some(b)
    ensures var h := db.batches[b];
            Save(db, b, h, RowsOf(db.rows, b) + [r]) == Some(SaveHeader(db, b, h).(rows := InsertRow(db.rows, r)))
  {
    InsertLoaded(db.rows, b, r);
  }

  /** If the version check succeeds, what was read is current. */
  lemma SaveSnapshot(db: Db, b: nat, h: Batch, n: Batch, rows: seq<Row>)
    requires RowsRead(db, b, h, rows) && n.version == h.version && n.state != Open
    ensures Save(db, b, n, rows).Some? ==>
              h == db.batches[b] && rows == RowsOf(db.rows, b) && Save(db, b, n, rows).value == SaveHeader(db, b, n)
  {
    if db.batches[b].version == h.version {
      SaveCurrent(db, b, n);
    }
  }

  /** The row of a job, on the batch that it loaded. */
  function JobRow(job: Job, b: nat, h: Batch): Row
    requires job.Registers()
  {
    Row(b, job.tx, if job.DoApproval? then Purchase else Reversal, job.charge.cents, h.key.currency)
  }

  lemma ApprovalRefines(db: Db, job: Job, b: nat)
    requires job.DoApproval? && JobFits(db, job, b) && job.ev !in db.processed
    requires FindOpen(db.batches, job.key) == Some(b)
    ensures Refines(db, CommitRegister(db, job, b, db.batches[b], RowsOf(db.rows, b)))
  {
    SaveOneMore(db, b, JobRow(job, b, db.batches[b]));
  }

  lemma ReversalRefines(db: Db, job: Job, b: nat)
    requires job.DoReversal? && JobFits(db, job, b) && job.ev !in db.processed
    requires FindOpen(db.batches, job.key) == Some(b)
    ensures Refines(db, CommitRegister(db, job, b, db.batches[b], RowsOf(db.rows, b)))
  {
    SaveOneMore(db, b, JobRow(job, b, db.batches[b]));
  }

  /** What a registration leaves its client with. */
  lemma RegisterEnds(db: Db, job: Job, b: nat, h: Batch, rows: seq<Row>)
    requires job.Registers() && b < |db.batches| && job.Accepted()
    ensures var t := CommitRegister(db, job, b, h, rows);
            && ClientOk(t.db, t.client)
            && (t.op.None? ==> t.db == db)
            && (t.op.Some? ==> job.ev !in db.processed && h.state == Open && db.batches[b].version == h.version)
  {
  }

  lemma RegisterRefines(db: Db, job: Job, b: nat, h: Batch, rows: seq<Row>)
    requires Inv(db) && job.Registers() && JobFits(db, job, b) && RowsRead(db, b, h, rows)
    ensures StepOk(db, CommitRegister(db, job, b, h, rows))
  {
    RegisterEnds(db, job, b, h, rows);
    if CommitRegister(db, job, b, h, rows).op.Some? {
      OpenIsFound(db, b);
      if job.DoApproval? {
        ApprovalRefines(db, job, b);
      } else {
        ReversalRefines(db, job, b);
      }
    }
  }

  lemma LateEnds(db: Db, job: Job, b: nat, h: Batch, rows: seq<Row>)
    requires job.DoApproval? && b < |db.batches| && job.Accepted()
    requires Uncompared(db.reviews, job.tx) && db.reviews[job.tx].batch != b
    ensures var t := CommitLate(db, job, b, h, rows);
            && ClientOk(t.db, t.client)
            && (t.op.None? ==> t.db == db)
            && (t.op.Some? ==> job.ev !in db.processed && h.state == Open && db.batches[b].version == h.version)
  {
  }

  lemma LateApprovalRefines(db: Db, job: Job, b: nat)
    requires job.DoApproval? && JobFits(db, job, b) && job.ev !in db.processed
    requires FindOpen(db.batches, job.key) == Some(b)
    requires Uncompared(db.reviews, job.tx) && db.reviews[job.tx].batch != b
    ensures Refines(db, CommitLate(db, job, b, db.batches[b], RowsOf(db.rows, b)))
  {
    SaveOneMore(db, b, JobRow(job, b, db.batches[b]));
  }

  lemma LateRefines(db: Db, job: Job, b: nat, h: Batch, rows: seq<Row>)
    requires Inv(db) && job.DoApproval? && JobFits(db, job, b) && RowsRead(db, b, h, rows)
    ensures StepOk(db, CommitLate(db, job, b, h, rows))
  {
    if !Uncompared(db.reviews, job.tx) || db.reviews[job.tx].batch == b {
      RegisterRefines(db, job, b, h, rows);
    } else {
      LateEnds(db, job, b, h, rows);
      if CommitLate(db, job, b, h, rows).op.Some? {
        OpenIsFound(db, b);
        LateApprovalRefines(db, job, b);
      }
    }
  }

  lemma ClosedRefines(db: Db, b: nat, h: Batch, n: Batch, rows: seq<Row>, always: bool, events: set<int>, op: Op,
                      submits: bool, stale: Client)
    requires Inv(db) && RowsRead(db, b, h, rows) && ClientOk(db, stale)
    requires n.version == h.version && n.key == h.key && n.merchant == h.merchant && n.summary.Some?
    requires n.state == Disputed || (n.state == Closed && n.discrepancies == 0)
    requires h.state == Open && SummaryOf(n.summary, rows, h.key.currency)
    requires h == db.batches[b] && rows == RowsOf(db.rows, b) ==>
               Legal(db, op) && Apply(db, op) == SaveClose(db, b, n, always).(processed := db.processed + events)
    requires h == db.batches[b] && submits && n.state == Closed ==> Clean(db.reviews, b)
    ensures StepOk(db, CommitClosed(db, b, n, rows, always, events, op, submits, stale))
  {
    SaveSnapshot(db, b, h, n, rows);
    if Save(db, b, n, rows).Some? {
      SaveCloseShape(db, b, n, always, db.processed + events);
    }
  }

  lemma CloseRefines(db: Db, c: Client)
    requires Inv(db) && ClientOk(db, c) && c.Ready? && c.job.DoClose?
    ensures StepOk(db, CommitClose(db, c))
  {
    var terminal := Pending(c.job.report, Backend(c.rows, c.h.key.currency), c.prior);
    var held := c.openReviews > 0;
    if c.h.state == Open && c.job.ev !in db.processed {
      CloseOutcome(c.h, c.rows, terminal, held);
      if c.h == db.batches[c.b] {
        OpenIsFound(db, c.b);
      }
      ClosedRefines(db, c.b, c.h, CloseOrHold(c.h, c.rows, terminal, held).value, c.rows, true, {c.job.ev},
                    OpClose(c.job.ev, c.job.key, c.job.report, c.prior, held), true, Begun(c.job));
    }
  }

  lemma AutoCloseRefines(db: Db, c: Client)
    requires Inv(db) && ClientOk(db, c) && c.Ready? && c.job.DoAutoClose?
    ensures StepOk(db, CommitAutoClose(db, c))
  {
    var backend := Backend(c.rows, c.h.key.currency);
    var held := c.openReviews > 0;
    if c.h.state == Open && c.job.ev !in db.processed {
      CloseOutcome(c.h, c.rows, backend, held);
      ClosedRefines(db, c.b, c.h, CloseOrHold(c.h, c.rows, backend, held).value, c.rows, false, {c.job.ev},
                    OpAutoClose(c.job.ev, c.b, held), |c.rows| > 0, Idle);
    }
  }

  lemma ForceCloseRefines(db: Db, b: nat, h: Batch, rows: seq<Row>)
    requires Inv(db) && RowsRead(db, b, h, rows)
    ensures StepOk(db, CommitForceClose(db, b, h, rows))
  {
    if h.state == Open {
      ClosedRefines(db, b, h, CloseWithBackendTotals(h, rows).value, rows, false, {}, OpForceClose(b), false, Idle);
    }
  }

  lemma HeaderRefines(db: Db, b: nat, h: Batch, n: Option<Batch>, rows: seq<Row>, op: Op)
    requires Inv(db) && RowsRead(db, b, h, rows)
    requires n.Some? ==> n.value.version == h.version && n.value.state != Open
    requires n.Some? && h == db.batches[b] && rows == RowsOf(db.rows, b) ==>
               Legal(db, op) && Apply(db, op) == SaveHeader(db, b, n.value)
    ensures StepOk(db, CommitHeader(db, b, n, rows, op))
  {
    if n.Some? {
      SaveSnapshot(db, b, h, n.value, rows);
    }
  }

  lemma ReopenRefines(db: Db, b: nat, h: Batch, rows: seq<Row>)
    requires Inv(db) && RowsRead(db, b, h, rows) && h.state == Disputed
    ensures StepOk(db, CommitHeader(db, b, Reopen(h), rows, OpReopen(b)))
  {
    if db.batches[b].version == h.version && FindOpen(db.batches, h.key).None? {
      SaveCurrent(db, b, Reopen(h).value);
      HeaderOpShape(db, OpReopen(b));
    } else {
      ReopenRefused(db, b, h, rows);
    }
  }

  lemma ReopenRefused(db: Db, b: nat, h: Batch, rows: seq<Row>)
    requires RowsRead(db, b, h, rows) && h.state == Disputed
    requires db.batches[b].version != h.version || FindOpen(db.batches, h.key).Some?
    ensures CommitHeader(db, b, Reopen(h), rows, OpReopen(b)) == Step(db, None, Idle)
  {
  }

  lemma BeginRefines(db: Db, job: Job)
    requires Inv(db) && job.Accepted()
    ensures StepOk(db, Begin(db, job))
  {
    match job
    case DoApproval(_, key, _, charge) => BeginRegisterRefines(db, job, key, charge.merchant);
    case DoReversal(_, key, _, charge) => BeginRegisterRefines(db, job, key, charge.merchant);
    case DoClose(_, key, _) =>
      if FindOpen(db.batches, key).Some? {
        LoadIsIdentity(db, FindOpen(db.batches, key).value);
      }
    case _ =>
      if job.batch < |db.batches| {
        LoadIsIdentity(db, job.batch);
      }
  }

  lemma BeginRegisterRefines(db: Db, job: Job, key: Key, merchant: int)
    requires Inv(db) && job.Registers() && job.Accepted() && key == job.key && merchant == job.charge.merchant
    ensures StepOk(db, BeginRegister(db, job, key, merchant))
  {
    var b := |db.batches|;
    if FindOpen(db.batches, key).None? {
      NoRowsOf(db.rows, b);
    }
  }

  lemma {:induction false} NoRowsOf(rows: seq<Row>, b: nat)
    requires forall r :: r in rows ==> r.batch != b
    ensures RowsOf(rows, b) == []
  {
    if |rows| > 0 {
      NoRowsOf(rows[..|rows| - 1], b);
      assert rows[|rows| - 1] in rows;
    }
  }

  lemma AfterLoadingRefines(db: Db, c: Client)
    requires Inv(db) && ClientOk(db, c) && c.Loaded?
    ensures StepOk(db, AfterLoading(db, c.job, c.b, c.h, c.rows))
  {
    match c.job
    case DoApproval(_, _, _, _) => RegisterRefines(db, c.job, c.b, c.h, c.rows);
    case DoReversal(_, _, _, _) => RegisterRefines(db, c.job, c.b, c.h, c.rows);
    case DoForceClose(_) => ForceCloseRefines(db, c.b, c.h, c.rows);
    case DoReopen(_) =>
      if c.h.state == Disputed {
        ReopenRefines(db, c.b, c.h, c.rows);
      }
    case DoSettle(_) =>
      var n := if c.h.state == Submitted then MarkSettled(c.h) else None;
      HeaderRefines(db, c.b, c.h, n, c.rows, OpSettle(c.b));
    case _ =>
  }

  lemma ResubmitRefines(db: Db, c: Client)
    requires Inv(db) && ClientOk(db, c) && c.Ready? && c.job.DoResubmit?
    ensures StepOk(db, CommitResubmit(db, c))
  {
    if c.h.state == Closed {
      if c.h.discrepancies > 0 || c.openReviews > 0 {
        HeaderRefines(db, c.b, c.h, Transition(c.h, Disputed), c.rows, OpHold(c.b));
      } else {
        HeaderRefines(db, c.b, c.h, Transition(c.h, Submitted), c.rows, OpSubmit(c.b));
      }
    }
  }

  lemma ResolveDisputeRefines(db: Db, c: Client)
    requires Inv(db) && ClientOk(db, c) && c.Ready? && c.job.DoResolveDispute?
    ensures StepOk(db, CommitResolveDispute(db, c))
  {
    if c.h.state == Disputed && c.openReviews == 0 {
      HeaderRefines(db, c.b, c.h, ResolveDispute(c.h, c.rows), c.rows, OpResolveDispute(c.b));
    }
  }

  lemma ReadyRefines(db: Db, c: Client)
    requires Inv(db) && ClientOk(db, c) && c.Ready?
    ensures StepOk(db, Advance(db, c))
  {
    if c.job.DoClose? {
      CloseRefines(db, c);
    } else if c.job.DoAutoClose? {
      AutoCloseRefines(db, c);
    } else if c.job.DoResubmit? {
      ResubmitRefines(db, c);
    } else {
      ResolveDisputeRefines(db, c);
    }
  }

  /** One step of one client, from any tables reached so far. */
  lemma AdvanceRefines(db: Db, c: Client)
    requires Inv(db) && ClientOk(db, c)
    ensures StepOk(db, Advance(db, c))
  {
    match c
    case Idle =>
    case Begun(job) => BeginRefines(db, job);
    case Found(job, b) => LoadIsIdentity(db, b);
    case Headed(_, _, _) =>
    case Loaded(_, _, _, _) => AfterLoadingRefines(db, c);
    case Waiting(job, b, h, rows) => LateRefines(db, job, b, h, rows);
    case Priced(_, _, _, _, _) =>
    case Ready(_, _, _, _, _, _) => ReadyRefines(db, c);
    case Unsent(b, h, rows) => HeaderRefines(db, b, h, Transition(h, Submitted), rows, OpSubmit(b));
  }

  // ----- whole runs -----

  predicate SystemOk(s: System) {
    && Inv(s.db)
    && (forall i :: 0 <= i < |s.clients| ==> ClientOk(s.db, s.clients[i]))
    && LegalLog(s.log) && s.db == Replay(s.log) && s.db.processed == EventsOf(s.log)
  }

  lemma LogGrows(log: seq<Op>, op: Op)
    requires LegalLog(log) && Legal(Replay(log), op)
    ensures LegalLog(log + [op]) && Replay(log + [op]) == Apply(Replay(log), op)
    ensures EventsOf(log + [op]) == EventsOf(log) + if op.HasEvent() then {op.ev} else {}
  {
    assert (log + [op])[..|log|] == log;
  }

  lemma AppliedEvents(db: Db, op: Op)
    requires Legal(db, op)
    ensures Apply(db, op).processed == db.processed + if op.HasEvent() then {op.ev} else {}
  {
  }

  lemma OtherClientsOk(s: System, n: Db)
    requires SystemOk(s) && Evolves(s.db, n)
    ensures forall i :: 0 <= i < |s.clients| ==> ClientOk(n, s.clients[i])
  {
    forall i | 0 <= i < |s.clients| ensures ClientOk(n, s.clients[i]) {
      ClientOkAfter(s.db, n, s.clients[i]);
    }
  }

  lemma MoveOk(s: System, i: nat)
    requires SystemOk(s) && i < |s.clients|
    ensures SystemOk(Next(s, Move(i)))
  {
    AdvanceRefines(s.db, s.clients[i]);
    var t := Advance(s.db, s.clients[i]);
    if t.op.Some? {
      CommitOk(s, t.op.value);
    }
  }

  lemma NextOk(s: System, e: Event)
    requires SystemOk(s)
    ensures SystemOk(Next(s, e))
  {
    match e
    case Start(job) =>
    case Wait(i) =>
    case Abort(i) =>
    case Decide(tx, action) =>
      if LegalReview(s.db, tx, action) {
        CommitOk(s, OpReview(tx, action));
      }
    case Move(i) =>
      if i < |s.clients| {
        MoveOk(s, i);
      }
  }

  lemma CommitOk(s: System, op: Op)
    requires SystemOk(s) && Legal(s.db, op)
    ensures Inv(Apply(s.db, op)) && LegalLog(s.log + [op]) && Replay(s.log + [op]) == Apply(s.db, op)
    ensures EventsOf(s.log + [op]) == Apply(s.db, op).processed
    ensures forall i :: 0 <= i < |s.clients| ==> ClientOk(Apply(s.db, op), s.clients[i])
  {
    ApplyKeeps(s.db, op);
    LogGrows(s.log, op);
    AppliedEvents(s.db, op);
    OtherClientsOk(s, Apply(s.db, op));
  }

  lemma {:induction false} RunOk(schedule: seq<Event>)
    ensures SystemOk(Run(schedule))
  {
    if |schedule| > 0 {
      RunOk(schedule[..|schedule| - 1]);
      NextOk(Run(schedule[..|schedule| - 1]), schedule[|schedule| - 1]);
    }
  }

  // ----- what it means -----

  /** Refinement. Whatever the interleaving, the duplicates, the stale saves and the crashes, the tables
      are those of a sequential system that applied the committed operations one at a time, in commit
      order, each of them legal when it was applied. An event is marked as processed exactly when its
      operation is in that log, and no event is in it twice. */
  lemma ConcurrentRunIsSequential(schedule: seq<Event>)
    ensures var s := Run(schedule);
            && s.db == Replay(s.log) && LegalLog(s.log)
            && s.db.processed == EventsOf(s.log)
            && forall i, j :: 0 <= i < j < |s.log| && s.log[i].HasEvent() && s.log[j].HasEvent() ==>
               s.log[i].ev != s.log[j].ev
  {
    RunOk(schedule);
    var s := Run(schedule);
    forall i, j | 0 <= i < j < |s.log| && s.log[i].HasEvent() && s.log[j].HasEvent()
      ensures s.log[i].ev != s.log[j].ev {
      EventAppliedOnce(s.log, i, j);
    }
  }

  lemma {:induction false} ProcessedIsEvents(log: seq<Op>)
    requires LegalLog(log)
    ensures Replay(log).processed == EventsOf(log)
  {
    if |log| > 0 {
      ProcessedIsEvents(log[..|log| - 1]);
      AppliedEvents(Replay(log[..|log| - 1]), log[|log| - 1]);
    }
  }

  lemma {:induction false} EventIsInLog(log: seq<Op>, i: nat)
    requires i < |log| && log[i].HasEvent()
    ensures log[i].ev in EventsOf(log)
  {
    if i < |log| - 1 {
      EventIsInLog(log[..|log| - 1], i);
    }
  }

  lemma {:induction false} EventAppliedOnce(log: seq<Op>, i: nat, j: nat)
    requires LegalLog(log) && i < j < |log| && log[i].HasEvent() && log[j].HasEvent()
    ensures log[i].ev != log[j].ev
  {
    var front := log[..|log| - 1];
    if j == |log| - 1 {
      ProcessedIsEvents(front);
      EventIsInLog(front, i);
    } else {
      EventAppliedOnce(front, i, j);
    }
  }

  predicate OnlyReopened(reviews: Reviews, log: seq<Op>, b: nat) {
    forall tx :: tx in reviews && reviews[tx].batch == b ==> (reviews[tx].resolved <==> !ReopenedIn(log, tx))
  }

  /** Whatever is CLOSED, SUBMITTED or SETTLED is stored with the totals of its stored rows,
      PENDING_CLOSE is never stored, and what was sent has no discrepancy; of its reviews exactly those are
      open that an approval reopened after an operator had resolved them, and nobody has resolved since. */
  predicate BatchSafe(db: Db, log: seq<Op>, b: nat)
    requires b < |db.batches|
  {
    var h := db.batches[b];
    && h.state != PendingClose
    && (Counted(h.state) ==> SummaryOf(h.summary, RowsOf(db.rows, b), h.key.currency))
    && (Sent(h.state) ==> h.discrepancies == 0 && OnlyReopened(db.reviews, log, b))
  }

  predicate UniqueRows(rows: seq<Row>) {
    forall i, j :: 0 <= i < j < |rows| ==> rows[i].tx != rows[j].tx || rows[i].kind != rows[j].kind
  }

  lemma SentReviews(log: seq<Op>, b: nat)
    requires LegalLog(log) && b < |Replay(log).batches| && Sent(Replay(log).batches[b].state)
    ensures OnlyReopened(Replay(log).reviews, log, b)
  {
    var reviews := Replay(log).reviews;
    forall tx | tx in reviews && reviews[tx].batch == b ensures reviews[tx].resolved <==> !ReopenedIn(log, tx) {
      SentReviewIff(log, b, tx);
    }
  }

  /** What the invariant says of a batch and its reviews is that the batch is safe. */
  lemma BatchOkIsSafe(db: Db, log: seq<Op>, b: nat)
    requires b < |db.batches| && BatchOk(db, b)
    requires Sent(db.batches[b].state) ==> OnlyReopened(db.reviews, log, b)
    ensures BatchSafe(db, log, b)
  {
  }

  lemma BatchIsSafe(log: seq<Op>, b: nat)
    requires LegalLog(log) && Inv(Replay(log)) && b < |Replay(log).batches|
    ensures BatchSafe(Replay(log), log, b)
  {
    if Sent(Replay(log).batches[b].state) {
      SentReviews(log, b);
    }
    BatchOkIsSafe(Replay(log), log, b);
  }

  lemma RowsAreUnique(db: Db)
    requires Inv(db)
    ensures UniqueRows(db.rows)
  {
    forall i, j | 0 <= i < j < |db.rows| ensures db.rows[i].tx != db.rows[j].tx || db.rows[i].kind != db.rows[j].kind {
      AtMostOneRow(db.rows, i, j);
    }
  }

  /** Safety of every reachable state, although headers, rows and reviews were read in separate
      unlocked steps. There is also one OPEN batch per key, and one row per transaction and kind. */
  lemma ReachableLedgerIsSafe(schedule: seq<Event>)
    ensures forall b :: 0 <= b < |Run(schedule).db.batches| ==> BatchSafe(Run(schedule).db, Run(schedule).log, b)
    ensures OneOpenPerKey(Run(schedule).db.batches)
    ensures UniqueRows(Run(schedule).db.rows)
  {
    RunOk(schedule);
    var s := Run(schedule);
    forall b | 0 <= b < |s.db.batches| ensures BatchSafe(s.db, s.log, b) {
      BatchIsSafe(s.log, b);
    }
    RowsAreUnique(s.db);
  }

  /** In exact terms: the stored totals of a closed batch are the exact sums of its rows if and only if
      neither side exceeds what NewMoney accepts. */
  lemma StoredTotalsAreExactIff(schedule: seq<Event>, b: nat)
    requires b < |Run(schedule).db.batches| && Counted(Run(schedule).db.batches[b].state)
    ensures var db := Run(schedule).db;
            var t := Fold(RowsOf(db.rows, b));
            db.batches[b].summary.Some? && (Exact(db.batches[b].summary.value, t) <==> WithinBounds(t))
  {
    RunOk(schedule);
    var db := Run(schedule).db;
    var rows := RowsOf(db.rows, b);
    assert BatchOk(db, b);
    forall r | r in rows ensures 0 < r.cents <= MAX_INT64 {
      RowsOfAreRows(db.rows, b, r);
      assert RowOk(db, r);
    }
    SummaryIsExactIff(rows, db.batches[b].key.currency);
  }
}
