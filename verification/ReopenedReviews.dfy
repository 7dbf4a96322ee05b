/** When a batch that was sent has an open review: an approval compares its purchase with a reversal while
    an operator is deciding on the review of that reversal, and its statement, which waits for the
    operator's lock, applies a condition that it evaluated before. */
module ReopenedReviews {
  import opened Options
  import opened Money
  import opened BatchSummary
  import opened Batches
  import opened ReversalReviews
  import opened Ledger
  import opened LedgerInvariants
  import opened ReviewHistory
  import opened LedgerClients
  import opened LedgerRefinement

  // ----- runs without the race -----

  predicate NobodyWaits(schedule: seq<Event>) {
    |schedule| == 0 || (NobodyWaits(schedule[..|schedule| - 1]) && !schedule[|schedule| - 1].Wait?)
  }

  predicate NoLate(log: seq<Op>) {
    forall i :: 0 <= i < |log| ==> !log[i].OpLateApproval?
  }

  predicate NoWaiter(s: System) {
    NoLate(s.log) && forall i :: 0 <= i < |s.clients| ==> !s.clients[i].Waiting?
  }

  predicate NotLate(t: Step) {
    !t.client.Waiting? && (t.op.Some? ==> !t.op.value.OpLateApproval?)
  }

  lemma AfterLoadingNotLate(db: Db, c: Client)
    requires c.Loaded? && c.b < |db.batches|
    ensures NotLate(AfterLoading(db, c.job, c.b, c.h, c.rows))
  {
  }

  lemma CloseNotLate(db: Db, c: Client)
    requires c.Ready? && c.b < |db.batches|
    ensures c.job.DoClose? ==> NotLate(CommitClose(db, c))
    ensures c.job.DoAutoClose? ==> NotLate(CommitAutoClose(db, c))
  {
  }

  lemma AdvanceNotLate(db: Db, c: Client)
    requires !c.Waiting?
    ensures NotLate(Advance(db, c))
  {
    if c.Loaded? && c.b < |db.batches| {
      AfterLoadingNotLate(db, c);
    } else if c.Ready? && c.b < |db.batches| && (c.job.DoClose? || c.job.DoAutoClose?) {
      CloseNotLate(db, c);
    }
  }

  lemma {:induction false} WithoutWaits(schedule: seq<Event>)
    requires NobodyWaits(schedule)
    ensures NoWaiter(Run(schedule))
  {
    if |schedule| > 0 {
      var s, e := Run(schedule[..|schedule| - 1]), schedule[|schedule| - 1];
      WithoutWaits(schedule[..|schedule| - 1]);
      if e.Move? && e.i < |s.clients| {
        AdvanceNotLate(s.db, s.clients[e.i]);
      }
    }
  }

  lemma {:induction false} NoLateReopens(log: seq<Op>, tx: int)
    requires NoLate(log)
    ensures !ReopenedIn(log, tx)
  {
    if |log| > 0 {
      NoLateReopens(log[..|log| - 1], tx);
    }
  }

  /** If no approval compares while an operator is deciding, nothing that was SUBMITTED or SETTLED has an
      open review, although reviews are counted outside the saving transaction. */
  lemma SentHasNoOpenReview(schedule: seq<Event>, b: nat)
    requires NobodyWaits(schedule)
    requires b < |Run(schedule).db.batches| && Sent(Run(schedule).db.batches[b].state)
    ensures NoOpenReview(Run(schedule).db.reviews, b)
  {
    var s := Run(schedule);
    WithoutWaits(schedule);
    ReachableLedgerIsSafe(schedule);
    assert BatchSafe(s.db, s.log, b);
    forall tx | tx in s.db.reviews && s.db.reviews[tx].batch == b ensures s.db.reviews[tx].resolved {
      NoLateReopens(s.log, tx);
    }
  }

  /** In any run, a batch that was sent has an open review if and only if, in the log, an approval reopened a
      review of it after an operator had resolved it, and nobody has resolved it since. */
  lemma SentWithOpenReviewIff(schedule: seq<Event>, b: nat)
    requires b < |Run(schedule).db.batches| && Sent(Run(schedule).db.batches[b].state)
    ensures var s := Run(schedule);
            && (forall tx :: ReopenedIn(s.log, tx) ==> tx in s.db.reviews)
            && (NoOpenReview(s.db.reviews, b) <==> forall tx :: ReopenedIn(s.log, tx) ==> s.db.reviews[tx].batch != b)
  {
    var s := Run(schedule);
    ReachableLedgerIsSafe(schedule);
    ConcurrentRunIsSequential(schedule);
    assert BatchSafe(s.db, s.log, b);
    forall tx | ReopenedIn(s.log, tx) ensures tx in s.db.reviews {
      ReopenedIsThere(s.log, tx);
    }
  }

  // ----- a run with the race -----

  const YESTERDAY := Key(1, 1, ARS)
  const TODAY := Key(1, 2, ARS)
  const TX: int := 9
  const REVERSED := Charge(7, 100, ARS)
  const SOLD := Charge(7, 50, ARS)

  const ROW := Row(0, TX, Reversal, 100, ARS)

  /** The tables hold one review, and no event after `last` was processed, nor event 2. */
  predicate Holds(db: Db, batches: seq<Batch>, rows: seq<Row>, review: Review, last: int) {
    && db.batches == batches && db.rows == rows
    && TX in db.reviews && db.reviews[TX] == review && (forall t :: t in db.reviews ==> t == TX)
    && forall e :: e in db.processed ==> e <= last && e != 2
  }

  function First(state: BatchState, summary: Option<Summary>, version: nat): Batch {
    Batch(YESTERDAY, 7, state, summary, 0, version)
  }

  const SECOND := Batch(TODAY, 7, Open, None, 0, 0)

  function Uncompleted(resolved: bool): Review { Review(0, PurchaseNotFound, REVERSED, None, resolved, false) }

  const REVERSE := DoReversal(1, YESTERDAY, TX, REVERSED)
  const APPROVE := DoApproval(2, TODAY, TX, SOLD)

  /** A reversal arrives before its purchase. */
  lemma ReversalLoads() returns (s: System)
    ensures Reached(s) && s.clients == [Loaded(REVERSE, 0, First(Open, None, 0), [])]
    ensures s.db == EMPTY.(batches := [First(Open, None, 0)])
  {
    s := System(EMPTY, [], []);
    assert Run([]) == s;
    s := Starts(s, REVERSE);
    s := Moves(s, 0);
  }

  lemma ReversalFirst() returns (s: System)
    ensures Reached(s) && s.clients == [Idle] && Holds(s.db, [First(Open, None, 1)], [ROW], Uncompleted(false), 1)
  {
    s := ReversalLoads();
    Registered(s.db, REVERSE);
    CommitsReversal(s.db);
    s := Moves(s, 0);
  }

  lemma CommitsReversal(db: Db)
    requires db.batches == [First(Open, None, 0)]
    ensures Advance(db, Loaded(REVERSE, 0, First(Open, None, 0), [])) ==
            CommitRegister(db, REVERSE, 0, First(Open, None, 0), [])
  {
  }

  lemma Registered(db: Db, job: Job)
    requires db.batches == [First(Open, None, 0)] && |db.rows| == 0 && job == DoReversal(1, YESTERDAY, TX, REVERSED)
    requires (forall t :: t in db.reviews ==> false) && (forall e :: e in db.processed ==> false)
    ensures var t := CommitRegister(db, job, 0, First(Open, None, 0), []);
            t.client == Idle && Holds(t.db, [First(Open, None, 1)], [ROW], Uncompleted(false), 1)
  {
    var r := [] + [ROW];
    assert r[..0] == [];
    assert InsertRows(db.rows, r) == [ROW];
    assert Find([ROW], TX, Purchase).None? by {
      assert [ROW][..0] == [];
    }
  }

  lemma OpensToday(db: Db)
    requires Holds(db, [First(Open, None, 1)], [ROW], Uncompleted(false), 1)
    ensures var t := Begin(db, APPROVE);
            t.client == Loaded(APPROVE, 1, SECOND, [])
            && Holds(t.db, [First(Open, None, 1), SECOND], [ROW], Uncompleted(false), 1)
  {
    assert [First(Open, None, 1)][..0] == [];
  }

  /** The purchase arrives on the next day. */
  lemma PurchaseLoads(s: System) returns (n: System)
    requires Reached(s)
    requires Holds(s.db, [First(Open, None, 1)], [ROW], Uncompleted(false), 1) && s.clients == [Idle]
    ensures Reached(n)
    ensures Holds(n.db, [First(Open, None, 1), SECOND], [ROW], Uncompleted(false), 1)
    ensures n.clients == [Idle, Loaded(APPROVE, 1, SECOND, [])]
  {
    n := Starts(s, APPROVE);
    OpensToday(n.db);
    n := Moves(n, 1);
  }

  const WAITER := Waiting(APPROVE, 1, SECOND, [])

  /** Its comparison waits for an operator, who accepts the reversal. */
  lemma PurchaseWaits(s: System) returns (n: System)
    requires Reached(s)
    requires Holds(s.db, [First(Open, None, 1), SECOND], [ROW], Uncompleted(false), 1)
    requires s.clients == [Idle, Loaded(APPROVE, 1, SECOND, [])]
    ensures Reached(n)
    ensures Holds(n.db, [First(Open, None, 1), SECOND], [ROW], Uncompleted(true), 1)
    ensures n.clients == [Idle, WAITER]
  {
    Happens(s, Wait(1));
    n := Next(s, Wait(1));
    Happens(n, Decide(TX, Accept));
    n := Next(n, Decide(TX, Accept));
  }

  lemma BackendOfRow()
    ensures Backend([ROW], ARS) == Report(1, -100)
  {
    assert [ROW][..0] == [];
    assert Fold64([ROW][..0]) == Totals(0, 0, 0, 0);
    assert Fold64([ROW]) == Totals(0, 0, 1, 100);
  }

  const CLOSE := DoClose(3, YESTERDAY, Report(1, -100))

  predicate Counted(c: Client) {
    c.Ready? && c == Ready(CLOSE, 0, First(Open, None, 1), [ROW], c.prior, 0)
  }

  lemma FindsFirst(db: Db)
    requires db.batches == [First(Open, None, 1), SECOND]
    ensures Begin(db, CLOSE) == Step(db, None, Headed(CLOSE, 0, First(Open, None, 1)))
  {
    assert FindOpen([First(Open, None, 1), SECOND][..1], YESTERDAY) == Some(0);
  }

  lemma LoadsFirst(db: Db)
    requires Holds(db, [First(Open, None, 1), SECOND], [ROW], Uncompleted(true), 1)
    ensures var h := First(Open, None, 1);
            var loaded := Advance(db, Headed(CLOSE, 0, h));
            var priced := Advance(db, loaded.client);
            loaded == Step(db, None, Loaded(CLOSE, 0, h, [ROW])) && priced.db == db && priced.op.None?
            && priced.client.Priced? && priced.client == Priced(CLOSE, 0, h, [ROW], priced.client.prior)
  {
    assert RowsOf([ROW], 0) == [ROW] by {
      assert [ROW][..0] == [];
    }
  }

  lemma Loads(s: System) returns (n: System)
    requires Reached(s)
    requires Holds(s.db, [First(Open, None, 1), SECOND], [ROW], Uncompleted(true), 1)
    requires s.clients == [Idle, WAITER]
    ensures Reached(n)
    ensures n.db == s.db
    ensures n.clients == [Idle, WAITER, Loaded(CLOSE, 0, First(Open, None, 1), [ROW])]
  {
    FindsFirst(s.db);
    LoadsFirst(s.db);
    n := Starts(s, CLOSE);
    n := Moves(n, 2);
    n := Moves(n, 2);
  }

  /** The first batch is loaded to be closed, and no open review is counted. */
  lemma Counts(s: System) returns (n: System, c: Client)
    requires Reached(s)
    requires Holds(s.db, [First(Open, None, 1), SECOND], [ROW], Uncompleted(true), 1)
    requires s.clients == [Idle, WAITER, Loaded(CLOSE, 0, First(Open, None, 1), [ROW])]
    ensures Reached(n)
    ensures n.db == s.db && n.clients == [Idle, WAITER, c] && Counted(c)
  {
    LoadsFirst(s.db);
    n := Moves(s, 2);
    n := Moves(n, 2);
    c := n.clients[2];
  }

  lemma ClosesClean(db: Db, c: Client)
    requires Holds(db, [First(Open, None, 1), SECOND], [ROW], Uncompleted(true), 1)
    requires Counted(c)
    ensures var t, h := CommitClose(db, c), First(Closed, Some(Calculate([ROW], ARS).summary), 2);
            && Holds(t.db, [h, SECOND], [ROW], Uncompleted(true), 3)
            && t.client == Unsent(0, h, [ROW])
  {
    BackendOfRow();
    var h := First(Open, None, 1);
    var terminal := Pending(CLOSE.report, Backend([ROW], ARS), c.prior);
    CloseOutcome(h, [ROW], terminal, false);
    assert InsertRows([ROW], [ROW]) == [ROW] by {
      assert [ROW][..0] == [];
    }
  }

  lemma SubmitsClean(db: Db, h: Batch)
    requires Holds(db, [h, SECOND], [ROW], Uncompleted(true), 3) && h.state == Closed
    ensures var t := CommitHeader(db, 0, Transition(h, Submitted), [ROW], OpSubmit(0));
            Holds(t.db, [h.(state := Submitted, version := h.version + 1), SECOND], [ROW], Uncompleted(true), 3)
  {
    assert InsertRows([ROW], [ROW]) == [ROW] by {
      assert [ROW][..0] == [];
    }
  }

  lemma CloseMoves(db: Db, c: Client)
    requires Counted(c) && |db.batches| == 2
    ensures Advance(db, c) == CommitClose(db, c)
  {
  }

  lemma Closes(s: System, c: Client) returns (n: System, h: Batch)
    requires Reached(s)
    requires Holds(s.db, [First(Open, None, 1), SECOND], [ROW], Uncompleted(true), 1)
    requires s.clients == [Idle, WAITER, c] && Counted(c)
    ensures Reached(n)
    ensures h == First(Closed, Some(Calculate([ROW], ARS).summary), 2)
    ensures Holds(n.db, [h, SECOND], [ROW], Uncompleted(true), 3) && n.clients == [Idle, WAITER, Unsent(0, h, [ROW])]
  {
    h := First(Closed, Some(Calculate([ROW], ARS).summary), 2);
    ClosesClean(s.db, c);
    CloseMoves(s.db, c);
    n := Moves(s, 2);
  }

  lemma SubmitMoves(db: Db, h: Batch)
    requires |db.batches| == 2
    ensures Advance(db, Unsent(0, h, [ROW])) == CommitHeader(db, 0, Transition(h, Submitted), [ROW], OpSubmit(0))
  {
  }

  lemma Submits(s: System, closed: Batch) returns (n: System, h: Batch)
    requires Reached(s) && closed.state == Closed
    requires Holds(s.db, [closed, SECOND], [ROW], Uncompleted(true), 3)
    requires s.clients == [Idle, WAITER, Unsent(0, closed, [ROW])]
    ensures Reached(n)
    ensures h.state == Submitted && Holds(n.db, [h, SECOND], [ROW], Uncompleted(true), 3)
    ensures |n.clients| == 3 && n.clients[1] == WAITER
  {
    SubmitsClean(s.db, closed);
    SubmitMoves(s.db, closed);
    n := Moves(s, 2);
    h := closed.(state := Submitted, version := closed.version + 1);
  }

  lemma ReopensSent(db: Db, h: Batch)
    requires Holds(db, [h, SECOND], [ROW], Uncompleted(true), 3)
    ensures var t := CommitLate(db, WAITER.job, 1, SECOND, []);
            |t.db.batches| == 2 && t.db.batches[0] == h && TX in t.db.reviews
            && t.db.reviews[TX] == Review(0, AmountMismatch, REVERSED, Some(SOLD), false, true)
  {
  }

  /** The approval waits, and the operator has resolved the review. */
  lemma ClosesWhileWaiting() returns (s: System, c: Client)
    ensures Reached(s) && Holds(s.db, [First(Open, None, 1), SECOND], [ROW], Uncompleted(true), 1)
    ensures s.clients == [Idle, WAITER, c] && Counted(c)
  {
    s := ReversalFirst();
    s := PurchaseLoads(s);
    s := PurchaseWaits(s);
    s := Loads(s);
    s, c := Counts(s);
  }

  lemma SentWhileWaiting() returns (s: System, h: Batch)
    ensures Reached(s) && h.state == Submitted && Holds(s.db, [h, SECOND], [ROW], Uncompleted(true), 3)
    ensures |s.clients| == 3 && s.clients[1] == WAITER
  {
    var c: Client;
    s, c := ClosesWhileWaiting();
    s, h := Closes(s, c);
    s, h := Submits(s, h);
  }

  lemma ReviewIsOpen(reviews: Reviews)
    requires TX in reviews && reviews[TX] == Review(0, AmountMismatch, REVERSED, Some(SOLD), false, true)
    ensures !NoOpenReview(reviews, 0) && OpenReason(reviews, TX) == Some(AmountMismatch)
  {
    assert reviews[TX].batch == 0;
  }

  lemma LateMoves(db: Db)
    requires |db.batches| == 2
    ensures Advance(db, WAITER) == CommitLate(db, WAITER.job, 1, SECOND, [])
  {
  }

  /** A SUBMITTED batch with an open review: the close counted after the operator had resolved it, and the
      approval that had waited for that decision reopened it. */
  lemma SubmittedWithOpenReview() returns (schedule: seq<Event>)
    ensures var db := Run(schedule).db;
            && |db.batches| == 2 && db.batches[0].state == Submitted && !NoOpenReview(db.reviews, 0)
            && OpenReason(db.reviews, TX) == Some(AmountMismatch)
  {
    var s, h := SentWhileWaiting();
    ReopensSent(s.db, h);
    LateMoves(s.db);
    s := Moves(s, 1);
    ReviewIsOpen(s.db.reviews);
    schedule :| Run(schedule) == s;
  }
}
