/** The handlers of settlement as concurrent clients. Each one finds a batch, reads its header, reads
    its rows, reads what it needs from other tables, and saves with a version check, in separate steps
    with any other client in between. A schedule decides who moves, and may abort or restart anyone. */
module LedgerClients {
  import opened Options
  import opened BatchSummary
  import opened Batches
  import opened ReversalReviews
  import opened Ledger

  datatype Job =
    | DoApproval(ev: int, key: Key, tx: int, charge: Charge)
    | DoReversal(ev: int, key: Key, tx: int, charge: Charge)
    | DoClose(ev: int, key: Key, report: Report)
    | DoAutoClose(ev: int, batch: nat)
    | DoForceClose(batch: nat)
    | DoResubmit(batch: nat)
    | DoReopen(batch: nat)
    | DoResolveDispute(batch: nat)
    | DoSettle(batch: nat)
  {
    predicate Registers() { DoApproval? || DoReversal? }
    /** The command passes the validation of its handler. */
    predicate Accepted() {
      match this
      case DoApproval(_, key, _, charge) => ValidCharge(charge, key)
      case DoReversal(_, key, _, charge) => ValidCharge(charge, key)
      case DoClose(_, key, _) => !key.currency.Unknown?
      case _ => true
    }
  }

  datatype Client =
    | Idle
    | Begun(job: Job)
    | Found(job: Job, b: nat)
    | Headed(job: Job, b: nat, h: Batch)
    | Loaded(job: Job, b: nat, h: Batch, rows: seq<Row>)
    | Waiting(job: Job, b: nat, h: Batch, rows: seq<Row>)  // its comparison waits for an operator's decision
    | Priced(job: Job, b: nat, h: Batch, rows: seq<Row>, prior: Report)
    | Ready(job: Job, b: nat, h: Batch, rows: seq<Row>, prior: Report, openReviews: nat)
    | Unsent(b: nat, h: Batch, rows: seq<Row>)  // closed and saved, about to be submitted

  /** The outcome of one step: the tables, the operation it committed if any, and the client. */
  datatype Step = Step(db: Db, op: Option<Op>, client: Client)

  /** The aggregate rebuilt from the stored header. */
  function Load(h: Batch): Batch {
    h.(summary := Reload(h.summary, h.key.currency))
  }

  /** SaveTx: None when the version moved (ErrStaleBatch) or a second OPEN batch of the key exists. */
  function Save(db: Db, b: nat, h: Batch, rows: seq<Row>): Option<Db>
    requires b < |db.batches|
  {
    if db.batches[b].version != h.version then None
    else if h.state == Open && FindOpen(db.batches, h.key).GetOr(b) != b then None
    else Some(SaveHeader(db, b, h).(rows := InsertRows(db.rows, rows)))
  }

  function CommitRegister(db: Db, job: Job, b: nat, h: Batch, rows: seq<Row>): Step
    requires job.Registers() && b < |db.batches|
  {
    var kind := if job.DoApproval? then Purchase else Reversal;
    if job.ev in db.processed || h.state != Open then Step(db, None, Idle)
    else
      match Save(db, b, h, rows + [Row(b, job.tx, kind, job.charge.cents, h.key.currency)])
      case None => Step(db, None, Begun(job))
      case Some(d) =>
        var n := d.(processed := d.processed + {job.ev});
        if job.DoApproval? then
          Step(n.(reviews := Reconcile(n.reviews, job.tx, job.charge)),
               Some(OpApproval(job.ev, job.key, job.tx, job.charge)), Idle)
        else
          Step(n.(reviews := OpenReview(n.reviews, job.tx, b, FindPurchase(n, job.tx), job.charge)),
               Some(OpReversal(job.ev, job.key, job.tx, job.charge)), Idle)
  }

  /** An approval that saw the review of its transaction open, and waited for whoever was deciding on it.
      A review of its own batch is not possible: the operator holds the batch too. */
  predicate SeesOpen(db: Db, tx: int, b: nat) {
    Uncompared(db.reviews, tx) && !db.reviews[tx].resolved && db.reviews[tx].batch != b
  }

  function CommitLate(db: Db, job: Job, b: nat, h: Batch, rows: seq<Row>): Step
    requires job.DoApproval? && b < |db.batches|
  {
    if job.ev in db.processed || h.state != Open then Step(db, None, Idle)
    else if !Uncompared(db.reviews, job.tx) || db.reviews[job.tx].batch == b then CommitRegister(db, job, b, h, rows)
    else
      match Save(db, b, h, rows + [Row(b, job.tx, Purchase, job.charge.cents, h.key.currency)])
      case None => Step(db, None, Begun(job))
      case Some(d) =>
        Step(d.(processed := d.processed + {job.ev}, reviews := ReconcileLate(d.reviews, job.tx, job.charge)),
             Some(OpLateApproval(job.ev, job.key, job.tx, job.charge)), Idle)
  }

  /** Save a closed aggregate n with its outbox entry. */
  function CommitClosed(db: Db, b: nat, n: Batch, rows: seq<Row>, always: bool, events: set<int>, op: Op, submits: bool,
                        stale: Client): Step
    requires b < |db.batches| && n.summary.Some?
  {
    match Save(db, b, n, rows)
    case None => Step(db, None, stale)
    case Some(d) =>
      var e := if always || |rows| > 0 then Enqueue(d, b, n, |rows|) else d;
      Step(e.(processed := e.processed + events), Some(op),
           if submits && n.state == Closed then Unsent(b, n.(version := n.version + 1), rows) else Idle)
  }

  function CommitClose(db: Db, c: Client): Step
    requires c.Ready? && c.job.DoClose? && c.b < |db.batches|
  {
    var terminal := Pending(c.job.report, Backend(c.rows, c.h.key.currency), c.prior);
    var held := c.openReviews > 0;
    match CloseOrHold(c.h, c.rows, terminal, held)
    case None => Step(db, None, Idle)
    case Some(n) =>
      if c.job.ev in db.processed then Step(db, None, Idle)
      else CommitClosed(db, c.b, n, c.rows, true, {c.job.ev}, OpClose(c.job.ev, c.job.key, c.job.report, c.prior, held),
                        true, Begun(c.job))
  }

  function CommitAutoClose(db: Db, c: Client): Step
    requires c.Ready? && c.job.DoAutoClose? && c.b < |db.batches|
  {
    var held := c.openReviews > 0;
    match CloseOrHold(c.h, c.rows, Backend(c.rows, c.h.key.currency), held)
    case None => Step(db, None, Idle)
    case Some(n) =>
      if c.job.ev in db.processed then Step(db, None, Idle)
      else CommitClosed(db, c.b, n, c.rows, false, {c.job.ev}, OpAutoClose(c.job.ev, c.b, held), |c.rows| > 0, Idle)
  }

  function CommitForceClose(db: Db, b: nat, h: Batch, rows: seq<Row>): Step
    requires b < |db.batches|
  {
    match CloseWithBackendTotals(h, rows)
    case None => Step(db, None, Idle)
    case Some(n) => CommitClosed(db, b, n, rows, false, {}, OpForceClose(b), false, Idle)
  }

  /** An operator action that only changes the header. */
  function CommitHeader(db: Db, b: nat, n: Option<Batch>, rows: seq<Row>, op: Op): Step
    requires b < |db.batches|
  {
    match n
    case None => Step(db, None, Idle)
    case Some(h) =>
      match Save(db, b, h, rows)
      case None => Step(db, None, Idle)
      case Some(d) => Step(d, Some(op), Idle)
  }

  function CommitResubmit(db: Db, c: Client): Step
    requires c.Ready? && c.b < |db.batches|
  {
    if c.h.state != Closed then Step(db, None, Idle)
    else if c.h.discrepancies > 0 || c.openReviews > 0 then
      CommitHeader(db, c.b, Transition(c.h, Disputed), c.rows, OpHold(c.b))
    else CommitHeader(db, c.b, Transition(c.h, Submitted), c.rows, OpSubmit(c.b))
  }

  function CommitResolveDispute(db: Db, c: Client): Step
    requires c.Ready? && c.b < |db.batches|
  {
    if c.h.state != Disputed || c.openReviews > 0 then Step(db, None, Idle)
    else CommitHeader(db, c.b, ResolveDispute(c.h, c.rows), c.rows, OpResolveDispute(c.b))
  }

  /** A duplicate delivery stops at TryMarkAsProcessed, before it can open a batch. */
  function BeginRegister(db: Db, job: Job, key: Key, merchant: int): Step
    requires job.Registers()
  {
    if job.ev in db.processed then Step(db, None, Idle)
    else
    match FindOpen(db.batches, key)
    case Some(b) => Step(db, None, Found(job, b))
    case None =>
      var h := Batch(key, merchant, Open, None, 0, 0);
      Step(db.(batches := db.batches + [h]), Some(OpOpen(key, merchant)), Loaded(job, |db.batches|, h, []))
  }

  /** FindOrCreateOpen for a sale or a reversal, FindOpenByTerminal for a close, FindByID for the rest. */
  function Begin(db: Db, job: Job): Step {
    match job
    case DoApproval(_, key, _, charge) => BeginRegister(db, job, key, charge.merchant)
    case DoReversal(_, key, _, charge) => BeginRegister(db, job, key, charge.merchant)
    case DoClose(_, key, _) =>
      (match FindOpen(db.batches, key)
       case None => Step(db, None, Idle)
       case Some(b) => Step(db, None, Headed(job, b, Load(db.batches[b]))))
    case _ =>
      if job.batch < |db.batches| then Step(db, None, Headed(job, job.batch, Load(db.batches[job.batch])))
      else Step(db, None, Idle)
  }

  function AfterLoading(db: Db, job: Job, b: nat, h: Batch, rows: seq<Row>): Step
    requires b < |db.batches|
  {
    match job
    case DoApproval(_, _, _, _) => CommitRegister(db, job, b, h, rows)
    case DoReversal(_, _, _, _) => CommitRegister(db, job, b, h, rows)
    case DoClose(_, key, _) => Step(db, None, Priced(job, b, h, rows, ClosedTotals(db.batches, key, b)))
    case DoForceClose(_) => CommitForceClose(db, b, h, rows)
    case DoReopen(_) => CommitHeader(db, b, if h.state == Disputed then Reopen(h) else None, rows, OpReopen(b))
    case DoSettle(_) => CommitHeader(db, b, if h.state == Submitted then MarkSettled(h) else None, rows, OpSettle(b))
    case _ => Step(db, None, Priced(job, b, h, rows, Report(0, 0)))
  }

  function Advance(db: Db, c: Client): Step {
    match c
    case Idle => Step(db, None, Idle)
    case Begun(job) => Begin(db, job)
    case Found(job, b) => Step(db, None, if b < |db.batches| then Headed(job, b, Load(db.batches[b])) else Idle)
    case Headed(job, b, h) => Step(db, None, Loaded(job, b, h, RowsOf(db.rows, b)))
    case Loaded(job, b, h, rows) => if b < |db.batches| then AfterLoading(db, job, b, h, rows) else Step(db, None, Idle)
    case Waiting(job, b, h, rows) =>
      if b < |db.batches| && job.DoApproval? then CommitLate(db, job, b, h, rows) else Step(db, None, Idle)
    case Priced(job, b, h, rows, prior) => Step(db, None, Ready(job, b, h, rows, prior, CountOpen(db.reviews, b)))
    case Ready(job, b, h, rows, prior, n) =>
      if b >= |db.batches| then Step(db, None, Idle)
      else if job.DoClose? then CommitClose(db, c)
      else if job.DoAutoClose? then CommitAutoClose(db, c)
      else if job.DoResubmit? then CommitResubmit(db, c)
      else CommitResolveDispute(db, c)
    case Unsent(b, h, rows) =>
      if b < |db.batches| then CommitHeader(db, b, Transition(h, Submitted), rows, OpSubmit(b))
      else Step(db, None, Idle)
  }

  // ----- the whole system -----

  datatype System = System(db: Db, clients: seq<Client>, log: seq<Op>)

  datatype Event =
    | Start(job: Job)             // a delivery, a redelivery, a timer or an operator
    | Move(i: nat)
    | Wait(i: nat)                // an approval compares while an operator is deciding
    | Abort(i: nat)               // an error, a crash, or giving up after stale saves
    | Decide(tx: int, action: ReviewAction)  // ResolveReversalReview, which locks batch and review

  predicate CanWait(db: Db, c: Client) {
    c.Loaded? && c.job.DoApproval? && SeesOpen(db, c.job.tx, c.b)
  }

  function Next(s: System, e: Event): System {
    match e
    case Start(job) => s.(clients := s.clients + [if job.Accepted() then Begun(job) else Idle])
    case Move(i) =>
      if i >= |s.clients| then s
      else
        var t := Advance(s.db, s.clients[i]);
        System(t.db, s.clients[i := t.client], match t.op case None => s.log case Some(op) => s.log + [op])
    case Wait(i) =>
      if i < |s.clients| && CanWait(s.db, s.clients[i]) then
        var c := s.clients[i];
        s.(clients := s.clients[i := Waiting(c.job, c.b, c.h, c.rows)])
      else s
    case Abort(i) => if i < |s.clients| then s.(clients := s.clients[i := Idle]) else s
    case Decide(tx, action) =>
      if LegalReview(s.db, tx, action) then
        s.(db := ResolveReview(s.db, tx, action), log := s.log + [OpReview(tx, action)])
      else s
  }

  function Run(schedule: seq<Event>): System {
    if |schedule| == 0 then System(EMPTY, [], [])
    else Next(Run(schedule[..|schedule| - 1]), schedule[|schedule| - 1])
  }

  // ----- reachable states -----

  /** Some schedule leads here. */
  ghost predicate Reached(s: System) {
    exists schedule: seq<Event> :: Run(schedule) == s
  }

  lemma Happens(s: System, e: Event)
    requires Reached(s)
    ensures Reached(Next(s, e))
  {
    var schedule: seq<Event> :| Run(schedule) == s;
    assert (schedule + [e])[..|schedule|] == schedule;
    assert Run(schedule + [e]) == Next(s, e);
  }

  lemma Moves(s: System, i: nat) returns (n: System)
    requires Reached(s) && i < |s.clients|
    ensures var t := Advance(s.db, s.clients[i]);
            Reached(n) && n.db == t.db && n.clients == s.clients[i := t.client]
  {
    Happens(s, Move(i));
    n := Next(s, Move(i));
  }

  lemma Starts(s: System, job: Job) returns (n: System)
    requires Reached(s) && job.Accepted()
    ensures Reached(n) && n.db == s.db && n.clients == s.clients + [Begun(job)]
  {
    Happens(s, Start(job));
    n := Next(s, Start(job));
  }
}
