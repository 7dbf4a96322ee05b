/** What holds in every run of the saga, whatever the host, the network and the clocks do. */
module SagaSafety {
  import opened Saga

  /** One authorization, from the won fraud score until its result is saved. */
  predicate Acquires(w: Worker) {
    w.Advanced? || w.Calling? || w.Answered?
  }

  /** FRAUD_CHECKING, PROCESSING, APPROVED, REVERSED is the longest way of a sale that succeeds. */
  predicate Lifeline(saves: seq<TxState>) {
    && |saves| <= 4
    && (|saves| > 0 ==> saves[0] == FraudChecking || (saves[0] == Rejected && |saves| == 1))
    && (|saves| > 1 ==> saves[1] == Processing || (saves[1] == Rejected && |saves| == 2))
    && (|saves| > 2 ==> saves[2] == Approved || saves[2] == Indeterminate || (saves[2] == Rejected && |saves| == 3))
    && (|saves| > 3 ==> saves[3] == if saves[2] == Approved then Reversed else Rejected)
  }

  predicate Saved(l: Local) {
    && Lifeline(l.saves)
    && (l.row.None? <==> |l.saves| == 0)
    && (l.row.Some? ==> l.row.value.state == l.saves[|l.saves| - 1])
  }

  predicate Started(l: Local) {
    |l.saves| >= 2 && l.saves[1] == Processing
  }

  predicate WorkerSafe(l: Local, w: Worker) {
    && (Acquires(w) ==> Started(l))
    && (w.Advanced? ==> l.calls == 0)
    && (w.Answered? ==> w.result == Approved || w.result == Rejected || w.result == Indeterminate)
    && (w.Winner? ==> w.state in l.saves && l.published.Of(w.state) == 0
                      && (w.state == Approved || w.state == Rejected || w.state == Reversed))
  }

  predicate PublishedSafe(l: Local) {
    && (l.published.approved > 0 ==> l.published.approved == 1 && Approved in l.saves)
    && (l.published.rejected > 0 ==> l.published.rejected == 1 && Rejected in l.saves)
    && (l.published.reversed > 0 ==> l.published.reversed == 1 && Reversed in l.saves)
  }

  /** One worker authorizes, and each result has one winner. */
  predicate Apart(v: Worker, w: Worker) {
    !(Acquires(v) && Acquires(w)) && !(v.Winner? && v == w)
  }

  predicate Safe(l: Local) {
    && Saved(l) && PublishedSafe(l)
    && (l.calls > 0 ==> l.calls == 1 && Started(l))
    && (forall i :: 0 <= i < |l.workers| ==> WorkerSafe(l, l.workers[i]))
    && (forall i, j :: 0 <= i < j < |l.workers| ==> Apart(l.workers[i], l.workers[j]))
  }

  /** Worker i takes a step: the others stay safe and apart from what it became. */
  lemma PutKeeps(l: Local, n: Local, i: nat, w: Worker)
    requires Safe(l) && i < |l.workers| && n.workers == l.workers[i := w]
    requires Saved(n) && PublishedSafe(n) && (n.calls > 0 ==> n.calls == 1 && Started(n))
    requires WorkerSafe(n, w)
    requires forall j :: 0 <= j < |l.workers| && j != i ==> WorkerSafe(n, l.workers[j])
    requires Acquires(w) ==> Acquires(l.workers[i])
    requires w.Winner? ==> w.state !in l.saves
    ensures Safe(n)
  {
    forall j, k | 0 <= j < k < |n.workers| ensures Apart(n.workers[j], n.workers[k]) {
      assert Apart(l.workers[j], l.workers[k]);
      assert WorkerSafe(l, l.workers[j]) && WorkerSafe(l, l.workers[k]);
    }
  }

  lemma SpawnKeeps(l: Local, n: Local, w: Worker)
    requires Safe(l) && n.workers == l.workers + [w]
    requires Saved(n) && PublishedSafe(n) && (n.calls > 0 ==> n.calls == 1 && Started(n))
    requires WorkerSafe(n, w)
    requires forall j :: 0 <= j < |l.workers| ==> WorkerSafe(n, l.workers[j])
    requires Acquires(w) ==> !Started(l)
    requires w.Winner? ==> w.state !in l.saves
    ensures Safe(n)
  {
    forall j, k | 0 <= j < k < |n.workers| ensures Apart(n.workers[j], n.workers[k]) {
      assert WorkerSafe(l, l.workers[j]);
      assert k < |l.workers| ==> Apart(l.workers[j], l.workers[k]);
    }
  }

  /** A won save extends the history, and what was safe before it still is. */
  lemma SaveKeeps(l: Local, expected: TxState, next: TxState)
    requires Safe(l) && SaveIfState(l, expected, next).Some?
    requires expected == FraudChecking ==> next == Processing || next == Rejected
    requires expected == Processing ==> next == Approved || next == Rejected || next == Indeterminate
    requires expected == Indeterminate ==> next == Rejected
    requires expected == Approved ==> next == Reversed
    requires expected != Received && expected != Rejected && expected != Reversed
    ensures var n := SaveIfState(l, expected, next).value;
            && Saved(n) && PublishedSafe(n) && next !in l.saves && next in n.saves && l.published.Of(next) == 0
            && (Started(l) ==> Started(n)) && (next == Processing ==> Started(n) && !Started(l))
            && (forall w :: WorkerSafe(l, w) ==> WorkerSafe(n, w))
  {
  }

  lemma SaveByKeeps(l: Local, i: nat, expected: TxState, next: TxState)
    requires Safe(l) && i < |l.workers|
    requires (expected == Processing && (next == Approved || next == Rejected || next == Indeterminate))
          || (expected == Indeterminate && next == Rejected) || (expected == Approved && next == Reversed)
    ensures Safe(SaveBy(l, i, expected, next))
  {
    match SaveIfState(l, expected, next)
    case None => PutKeeps(l, Put(l, i, Gone), i, Gone);
    case Some(n) =>
      SaveKeeps(l, expected, next);
      PutKeeps(l, SaveBy(l, i, expected, next), i, if next == Indeterminate then Gone else Winner(next));
  }

  lemma InsertKeeps(l: Local, blocked: bool)
    requires Safe(l)
    ensures Safe(Insert(l, blocked))
  {
    if l.row.None? {
      var n := Insert(l, blocked);
      assert n.saves == [if blocked then Rejected else FraudChecking];
      assert forall w :: WorkerSafe(l, w) ==> WorkerSafe(n, w);
      if blocked {
        SpawnKeeps(l, n, Winner(Rejected));
      }
    }
  }

  lemma ScoreKeeps(l: Local, reject: bool)
    requires Safe(l)
    ensures Safe(ApplyScore(l, reject))
  {
    if InState(l, FraudChecking) {
      SaveKeeps(l, FraudChecking, if reject then Rejected else Processing);
      SpawnKeeps(l, ApplyScore(l, reject), if reject then Winner(Rejected) else Advanced);
    }
  }

  lemma RequestKeeps(l: Local)
    requires Safe(l) && l.row.Some?
    ensures Safe(Request(l))
  {
    var n := Request(l);
    assert forall w :: WorkerSafe(l, w) ==> WorkerSafe(n, w);
    if l.row.value.state == Approved {
      SpawnKeeps(l, n, Undoing(Approved, true));
    }
  }

  lemma MarkKeeps(l: Local, i: nat, state: TxState)
    requires Safe(l) && i < |l.workers|
    ensures Safe(MarkLoaded(l, i, state))
  {
    var n := MarkLoaded(l, i, state);
    if state == Processing && InState(l, Processing) {
      SaveKeeps(l, Processing, Indeterminate);
    }
    PutKeeps(l, n, i, n.workers[i]);
  }

  lemma PublishKeeps(l: Local, i: nat)
    requires Safe(l) && i < |l.workers| && l.workers[i].Winner?
    ensures Safe(Step(l, Publish(i)))
  {
    var n := Step(l, Publish(i));
    assert WorkerSafe(l, l.workers[i]);
    forall j | 0 <= j < |l.workers| && j != i ensures WorkerSafe(n, l.workers[j]) {
      assert WorkerSafe(l, l.workers[j]);
      assert Apart(l.workers[if i < j then i else j], l.workers[if i < j then j else i]);
    }
    PutKeeps(l, n, i, Gone);
  }

  lemma StartCallKeeps(l: Local, i: nat)
    requires Safe(l) && i < |l.workers| && l.workers[i].Advanced?
    ensures Safe(Step(l, StartCall(i)))
  {
    var n := Step(l, StartCall(i));
    assert WorkerSafe(l, l.workers[i]);
    forall j | 0 <= j < |l.workers| && j != i ensures WorkerSafe(n, l.workers[j]) {
      assert WorkerSafe(l, l.workers[j]);
      assert Apart(l.workers[if i < j then i else j], l.workers[if i < j then j else i]);
    }
    PutKeeps(l, n, i, Calling(false));
  }

  /** A step that leaves row, history, calls and publications alone. */
  lemma QuietKeeps(l: Local, n: Local, i: nat, w: Worker)
    requires Safe(l) && i < |l.workers| && n == l.(workers := l.workers[i := w], host := n.host)
    requires Acquires(w) ==> Acquires(l.workers[i]) && !w.Advanced?
    requires w.Answered? ==> w.result == Approved || w.result == Rejected || w.result == Indeterminate
    requires !w.Winner?
    ensures Safe(n)
  {
    assert WorkerSafe(l, l.workers[i]);
    assert forall v :: WorkerSafe(l, v) ==> WorkerSafe(n, v);
    PutKeeps(l, n, i, w);
  }

  lemma CallKeeps(l: Local, a: Act)
    requires Safe(l) && (a.Send? || a.Answer? || a.NeverSent? || a.TimeOut?)
    ensures Safe(Step(l, a))
  {
    var n := Step(l, a);
    if a.i < |l.workers| && n != l {
      QuietKeeps(l, n, a.i, n.workers[a.i]);
    }
  }

  lemma ReconcilerKeeps(l: Local, a: Act)
    requires Safe(l) && (a.Crash? || a.Load? || a.Receive?)
    ensures Safe(Step(l, a))
  {
    var n := Step(l, a);
    if a.i < |l.workers| && n != l {
      QuietKeeps(l, n, a.i, n.workers[a.i]);
    }
  }

  lemma HostStepKeeps(l: Local, h: Host)
    requires Safe(l)
    ensures Safe(l.(host := h))
  {
    var n := l.(host := h);
    assert forall w :: WorkerSafe(l, w) ==> WorkerSafe(n, w);
  }

  lemma ListKeeps(l: Local, completes: bool)
    requires Safe(l)
    ensures Safe(Step(l, List(completes)))
  {
    if Unresolved(l, completes) {
      var n := Step(l, List(completes));
      assert forall w :: WorkerSafe(l, w) ==> WorkerSafe(n, w);
      SpawnKeeps(l, n, Listed(completes));
    }
  }

  lemma FinishKeeps(l: Local, i: nat, state: TxState, completes: bool)
    requires Safe(l) && i < |l.workers|
    ensures Safe(FinishUndone(l, i, state, completes))
  {
    if CanTransition(state, if completes then Reversed else Rejected) {
      SaveByKeeps(l, i, if completes then Approved else Indeterminate, if completes then Reversed else Rejected);
    } else {
      QuietKeeps(l, Put(l, i, Gone), i, Gone);
    }
  }

  lemma SaveAnswerKeeps(l: Local, i: nat)
    requires Safe(l) && i < |l.workers| && l.workers[i].Answered?
    ensures Safe(SaveBy(l, i, Processing, l.workers[i].result))
  {
    assert WorkerSafe(l, l.workers[i]);
    SaveByKeeps(l, i, Processing, l.workers[i].result);
  }

  /** A step that an event or a handler takes. */
  lemma HandlerStepKeeps(l: Local, a: Act)
    requires Safe(l) && (a.HasEvent() || a.StartCall? || a.SaveAnswer? || a.Publish? || a.Mark? || a.SaveUndone?)
    ensures Safe(Step(l, a))
  {
    match a
    case Arrive(_, blocked) => InsertKeeps(l, blocked);
    case Score(_, reject) => ScoreKeeps(l, reject);
    case RequestReversal(_) => if l.row.Some? { RequestKeeps(l); }
    case StartCall(i) => if At(l, i).Advanced? { StartCallKeeps(l, i); }
    case SaveAnswer(i) => if At(l, i).Answered? { SaveAnswerKeeps(l, i); }
    case Publish(i) => if At(l, i).Winner? { PublishKeeps(l, i); }
    case Mark(i) => if At(l, i).Loaded? { MarkKeeps(l, i, At(l, i).state); }
    case SaveUndone(i) => if At(l, i).Undone? { FinishKeeps(l, i, At(l, i).state, At(l, i).completes); }
  }

  lemma StepKeeps(l: Local, a: Act)
    requires Safe(l)
    ensures Safe(Step(l, a))
  {
    match a
    case Send(_) => CallKeeps(l, a);
    case Answer(_) => CallKeeps(l, a);
    case NeverSent(_) => CallKeeps(l, a);
    case TimeOut(_) => CallKeeps(l, a);
    case HostDecides(approve) => HostStepKeeps(l, Decide(l.host, approve));
    case Crash(_) => ReconcilerKeeps(l, a);
    case List(completes) => ListKeeps(l, completes);
    case Load(_) => ReconcilerKeeps(l, a);
    case SendReversal(_) => HostStepKeeps(l, l.host.(reversalSent := true));
    case HostUndoes => HostStepKeeps(l, HostReverse(l.host));
    case Receive(_) => ReconcilerKeeps(l, a);
    case LoseConfirmation => HostStepKeeps(l, Confirmed(l.host));
    case _ => HandlerStepKeeps(l, a);
  }

  lemma {:induction false} RunSafe(schedule: seq<Event>, tx: int)
    ensures Safe(Of(Run(schedule), tx))
  {
    if |schedule| > 0 {
      var s, e := Run(schedule[..|schedule| - 1]), schedule[|schedule| - 1];
      RunSafe(schedule[..|schedule| - 1], tx);
      if e.tx == tx {
        StepKeeps(Of(s, tx), e.act);
      }
    }
  }

  // ----- what it means -----

  /** A rank that every won save raises. */
  function Rank(s: TxState): nat {
    match s
    case Received => 0
    case FraudChecking => 1
    case Processing => 2
    case Indeterminate => 3
    case Approved => 3
    case Rejected => 4
    case Reversed => 4
  }

  predicate Rises(saves: seq<TxState>) {
    forall i, j :: 0 <= i < j < |saves| ==> Rank(saves[i]) < Rank(saves[j])
  }

  /** At most one Authorize call started, at most one of approved and rejected was published, at most one
      reversal was published, each only for a state that the row was saved in; and every won save raised
      the rank, so the row was written at most four times, and reversed only after it was approved. */
  predicate OneResult(l: Local) {
    && l.calls <= 1
    && l.published.approved + l.published.rejected <= 1 && l.published.reversed <= 1
    && (l.published.approved == 1 ==> InState(l, Approved) || InState(l, Reversed))
    && (l.published.rejected == 1 ==> InState(l, Rejected))
    && (l.published.reversed == 1 ==> InState(l, Reversed))
    && Rises(l.saves) && |l.saves| <= 4
    && (l.row.Some? ==> |l.saves| > 0 && l.row.value.state == l.saves[|l.saves| - 1])
    && (Reversed in l.saves ==> Approved in l.saves)
  }

  lemma SafeMeans(l: Local)
    requires Safe(l)
    ensures OneResult(l)
  {
  }

  /** Under any number of scores, redeliveries, workers, reconcilers and crashes. */
  lemma OneCallOneResult(schedule: seq<Event>, tx: int)
    ensures OneResult(Of(Run(schedule), tx))
  {
    RunSafe(schedule, tx);
    SafeMeans(Of(Run(schedule), tx));
  }

  predicate Requested(l: Local) {
    l.row.Some? && l.row.value.requested
  }

  lemma StepKeepsRequest(l: Local, a: Act)
    requires Requested(l)
    ensures Requested(Step(l, a))
  {
  }

  lemma {:induction false} RequestStays(schedule: seq<Event>, n: nat, tx: int)
    requires n <= |schedule| && Requested(Of(Run(schedule[..n]), tx))
    ensures Requested(Of(Run(schedule), tx))
  {
    if n == |schedule| {
      assert schedule[..n] == schedule;
    } else {
      var front := schedule[..|schedule| - 1];
      assert front[..n] == schedule[..n];
      RequestStays(front, n, tx);
      if schedule[|schedule| - 1].tx == tx {
        StepKeepsRequest(Of(Run(front), tx), schedule[|schedule| - 1].act);
      }
    }
  }

  predicate InProgress(l: Local) {
    InState(l, FraudChecking) || InState(l, Processing) || InState(l, Approved)
  }

  /** A reversal request that was accepted while the sale was in progress or approved survives every
      later save, so that FindPendingReversals selects the row whenever it is APPROVED. */
  lemma RequestSurvives(schedule: seq<Event>, n: nat, tx: int)
    requires n < |schedule| && schedule[n].tx == tx && schedule[n].act.RequestReversal?
    requires schedule[n].act.ev !in Run(schedule[..n]).processed && InProgress(Of(Run(schedule[..n]), tx))
    ensures Requested(Of(Run(schedule), tx))
    ensures InState(Of(Run(schedule), tx), Approved) ==> Unresolved(Of(Run(schedule), tx), true)
  {
    assert schedule[..n + 1][..n] == schedule[..n];
    RequestStays(schedule, n + 1, tx);
  }
}
