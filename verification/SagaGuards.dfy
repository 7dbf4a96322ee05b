/** The three guards of the host agreement are exact: from any state that a guarded run reaches, a step
    that violates a guard can be continued, with every guard kept from then on, to a disagreement. */
module SagaGuards {
  import opened Options
  import opened Saga
  import opened SagaSafety
  import opened SagaAgreement

  predicate GuardedSteps(l: Local, acts: seq<Act>) {
    |acts| == 0 || (
      GuardedSteps(l, acts[..|acts| - 1]) && Guard(Steps(l, acts[..|acts| - 1]), acts[|acts| - 1]))
  }

  /** Whatever guarded steps follow, row and host agree. */
  ghost predicate SafeForever(l: Local) {
    forall acts: seq<Act> :: GuardedSteps(l, acts) ==> Agrees(Steps(l, acts))
  }

  lemma {:induction false} StepsOk(l: Local, acts: seq<Act>)
    requires Ok(l) && GuardedSteps(l, acts)
    ensures Ok(Steps(l, acts))
  {
    if |acts| > 0 {
      StepsOk(l, acts[..|acts| - 1]);
      StepOk(Steps(l, acts[..|acts| - 1]), acts[|acts| - 1]);
    }
  }

  lemma OkIsSafeForever(l: Local)
    requires Ok(l)
    ensures SafeForever(l)
  {
    forall acts: seq<Act> | GuardedSteps(l, acts) ensures Agrees(Steps(l, acts)) {
      StepsOk(l, acts);
      OkAgrees(Steps(l, acts));
    }
  }

  lemma {:induction false} GuardedOnce(l: Local, a: Act, acts: seq<Act>)
    requires Guard(l, a) && GuardedSteps(Step(l, a), acts)
    ensures GuardedSteps(l, [a] + acts)
  {
    var all := [a] + acts;
    if |acts| == 0 {
      assert all[..0] == [];
      assert Steps(l, all[..0]) == l;
    } else {
      var front := acts[..|acts| - 1];
      assert all[..|all| - 1] == [a] + front;
      GuardedOnce(l, a, front);
      StepsOnce(l, a, front);
    }
  }

  /** Safety is kept by guarded steps; so a state is unsafe if one of them leads to an unsafe state. */
  lemma StaysSafe(l: Local, a: Act)
    requires SafeForever(l) && Guard(l, a)
    ensures SafeForever(Step(l, a))
  {
    forall acts: seq<Act> | GuardedSteps(Step(l, a), acts) ensures Agrees(Steps(Step(l, a), acts)) {
      GuardedOnce(l, a, acts);
      StepsOnce(l, a, acts);
    }
  }

  lemma SafeNow(l: Local)
    requires SafeForever(l)
    ensures Agrees(l)
  {
    assert GuardedSteps(l, []);
    assert Steps(l, []) == l;
  }

  /** A reversal is sent, handled and confirmed. */
  lemma ConfirmStaysSafe(l: Local, i: nat)
    requires SafeForever(l)
    ensures SafeForever(Confirm(l, i))
  {
    var l1 := Step(l, SendReversal(i));
    StaysSafe(l, SendReversal(i));
    StaysSafe(l1, HostUndoes);
    StaysSafe(Step(l1, HostUndoes), Receive(i));
  }

  /** (a) reverse and reject, and only then send the authorization, which the host approves. */
  lemma TakenTooEarly(l: Local, i: nat, j: nat)
    requires i != j && At(l, i) == Undoing(Indeterminate, false) && InState(l, Indeterminate)
    requires Unsent(At(l, j)) && l.host.auth == NotSent
    ensures !SafeForever(l)
  {
    if SafeForever(l) {
      ConfirmStaysSafe(l, i);
      ConfirmGives(l, i);
      ConfirmLeaves(l, i, j);
      RejectedTooEarly(Confirm(l, i), i, j);
    }
  }

  lemma ConfirmLeaves(l: Local, i: nat, j: nat)
    requires i != j && At(l, i).Undoing?
    ensures At(Confirm(l, i), j) == At(l, j)
  {
  }

  lemma RejectedTooEarly(l: Local, i: nat, j: nat)
    requires i != j && At(l, i) == Undone(Indeterminate, false) && InState(l, Indeterminate) && Unsent(At(l, j))
    ensures !SafeForever(l)
  {
    if SafeForever(l) {
      StaysSafe(l, SaveUndone(i));
      SentAfterReject(Step(l, SaveUndone(i)), j);
    }
  }

  lemma SentAfterReject(l: Local, j: nat)
    requires InState(l, Rejected) && Unsent(At(l, j))
    ensures !SafeForever(l)
  {
    if SafeForever(l) {
      var l1 := Step(l, StartCall(j));
      var l2 := Step(l1, Send(j));
      StaysSafe(l, StartCall(j));
      StaysSafe(l1, Send(j));
      StaysSafe(l2, HostDecides(true));
      SafeNow(Step(l2, HostDecides(true)));
    }
  }

  /** (b) the charge of an approved row is undone, and nobody asked for it. */
  lemma ApprovedUndone(l: Local, i: nat)
    requires At(l, i) == Undoing(Approved, false) && InState(l, Approved) && !Requested(l)
    ensures !SafeForever(l)
  {
    if SafeForever(l) {
      ConfirmStaysSafe(l, i);
      ConfirmGives(l, i);
      SafeNow(Confirm(l, i));
    }
  }

  /** (c) the rejection that is about to be saved meets a live charge. */
  lemma ApprovedTooLate(l: Local, i: nat)
    requires At(l, i) == Undone(Indeterminate, false) && InState(l, Indeterminate) && l.host.charge == Live
    ensures !SafeForever(l)
  {
    if SafeForever(l) {
      StaysSafe(l, SaveUndone(i));
      SafeNow(Step(l, SaveUndone(i)));
    }
  }

  /** (c) another pass of the reconciler takes the confirmation of an earlier reversal. */
  lemma StaleConfirmation(l: Local)
    requires l.host.confirmations > 0 && InState(l, Indeterminate) && l.host.charge == Live
    ensures !SafeForever(l)
  {
    if SafeForever(l) {
      var i := |l.workers|;
      TakeStaysSafe(l, i);
      TakeGives(l, false);
      TakenStale(Take(l, i, false), i);
    }
  }

  lemma TakeStaysSafe(l: Local, i: nat)
    requires SafeForever(l) && InState(l, Indeterminate) && i == |l.workers|
    ensures SafeForever(Take(l, i, false)) && Take(l, i, false).host == l.host
  {
    var l1 := Step(l, List(false));
    var l2 := Step(l1, Load(i));
    StaysSafe(l, List(false));
    StaysSafe(l1, Load(i));
    assert At(l2, i) == Loaded(Indeterminate);
    StaysSafe(l2, Mark(i));
  }

  lemma TakenStale(l: Local, i: nat)
    requires At(l, i) == Undoing(Indeterminate, false) && InState(l, Indeterminate)
    requires l.host.confirmations > 0 && l.host.charge == Live
    ensures !SafeForever(l)
  {
    if SafeForever(l) {
      StaysSafe(l, Receive(i));
      ApprovedTooLate(Step(l, Receive(i)), i);
    }
  }

  lemma MarkUnsafe(l: Local, i: nat)
    requires Ok(l) && !Guard(l, Mark(i))
    ensures !SafeForever(Step(l, Mark(i)))
  {
    var n := Step(l, Mark(i));
    if At(l, i) == Loaded(Approved) {
      assert WorkerAgrees(l, l.workers[i]);
      ApprovedUndone(n, i);
    } else {
      var j :| 0 <= j < |l.workers| && Unsent(l.workers[j]);
      assert WorkerAgrees(l, l.workers[j]);
      TakenTooEarly(n, i, j);
    }
  }

  lemma DecideUnsafe(l: Local)
    requires Ok(l) && !Guard(l, HostDecides(true))
    ensures !SafeForever(Step(l, HostDecides(true)))
  {
    var n := Step(l, HostDecides(true));
    if InState(l, Indeterminate) && l.host.confirmations > 0 {
      StaleConfirmation(n);
    } else if InState(l, Indeterminate) {
      var i :| 0 <= i < |l.workers| && l.workers[i] == Undone(Indeterminate, false);
      ApprovedTooLate(n, i);
    } else if SafeForever(n) {
      SafeNow(n);
    }
  }

  lemma ExactFrom(l: Local, a: Act)
    requires Ok(l)
    ensures SafeForever(Step(l, a)) <==> Guard(l, a)
  {
    if Guard(l, a) {
      StepOk(l, a);
      OkIsSafeForever(Step(l, a));
    } else if a.Mark? {
      MarkUnsafe(l, a.i);
    } else {
      DecideUnsafe(l);
    }
  }

  /** From any state of a guarded run, agreement can be kept for ever after a step if and only if the
      step satisfies its guard: the guards assume no more than they must. */
  lemma GuardsAreExact(schedule: seq<Event>, tx: int, a: Act)
    requires Guarded(schedule)
    ensures SafeForever(Step(Of(Run(schedule), tx), a)) <==> Guard(Of(Run(schedule), tx), a)
  {
    RunAgrees(schedule, tx);
    ExactFrom(Of(Run(schedule), tx), a);
  }

  // ----- and each can be violated -----

  /** Some guarded steps of a new transaction lead here. */
  ghost predicate Reachable(l: Local) {
    exists acts: seq<Act> :: GuardedSteps(NEW, acts) && Steps(NEW, acts) == l
  }

  lemma NewIsReachable()
    ensures Reachable(NEW)
  {
    assert GuardedSteps(NEW, []) && Steps(NEW, []) == NEW;
  }

  lemma Reach(l: Local, a: Act)
    requires Reachable(l) && Guard(l, a)
    ensures Reachable(Step(l, a))
  {
    var acts: seq<Act> :| GuardedSteps(NEW, acts) && Steps(NEW, acts) == l;
    assert (acts + [a])[..|acts|] == acts;
    assert GuardedSteps(NEW, acts + [a]) && Steps(NEW, acts + [a]) == Step(l, a);
  }

  lemma ReachableOk(l: Local)
    requires Reachable(l)
    ensures Ok(l)
  {
    var acts: seq<Act> :| GuardedSteps(NEW, acts) && Steps(NEW, acts) == l;
    StepsOk(NEW, acts);
  }

  predicate Looks(l: Local, state: TxState, host: Host, workers: seq<Worker>) {
    l.row == Some(TxRow(state, false)) && l.host == host && l.workers == workers
  }

  const SILENT := Host(NotSent, Free, false, 0)
  const SENT := Host(InFlight(false), Free, false, 0)

  /** A sale that passed the fraud check. */
  lemma Advancing() returns (l: Local)
    ensures Reachable(l) && Looks(l, Processing, SILENT, [Advanced])
  {
    NewIsReachable();
    Reach(NEW, Arrive(1, false));
    l := Step(NEW, Arrive(1, false));
    Reach(l, Score(2, false));
    l := Step(l, Score(2, false));
  }

  lemma Sending() returns (l: Local)
    ensures Reachable(l) && Looks(l, Processing, SENT, [Calling(true)])
  {
    l := Advancing();
    Reach(l, StartCall(0));
    l := Step(l, StartCall(0));
    Reach(l, Send(0));
    l := Step(l, Send(0));
  }

  /** The reconciler lists the row, which nobody else is listing, and loads it. */
  lemma Listing(l: Local, state: TxState, host: Host, w: Worker) returns (n: Local)
    requires Reachable(l) && Looks(l, state, host, [w]) && (state == Processing || state == Indeterminate)
    ensures Reachable(n) && Looks(n, state, host, [w, Listed(false)])
  {
    Reach(l, List(false));
    n := Step(l, List(false));
  }

  lemma Loading(l: Local, state: TxState, host: Host, w: Worker) returns (n: Local)
    requires Reachable(l) && Looks(l, state, host, [w, Listed(false)])
    ensures Reachable(n) && Looks(n, state, host, [w, Loaded(state)])
  {
    Reach(l, Load(1));
    n := Step(l, Load(1));
  }

  lemma MarkTooEarly(l: Local)
    requires Reachable(l) && Looks(l, Processing, SILENT, [Advanced, Loaded(Processing)])
    ensures !SafeForever(Step(l, Mark(1)))
  {
    assert Unsent(l.workers[0]);
    ReachableOk(l);
    ExactFrom(l, Mark(1));
  }

  /** (a) A sale can wait for a slot for as long as the reconciler's limit. */
  lemma WithoutGuardA() returns (l: Local)
    ensures Reachable(l) && At(l, 1) == Loaded(Processing) && !SafeForever(Step(l, Mark(1)))
  {
    l := Advancing();
    l := Listing(l, Processing, SILENT, Advanced);
    l := Loading(l, Processing, SILENT, Advanced);
    MarkTooEarly(l);
  }

  const CHARGED := Host(Decided(true), Live, false, 0)

  lemma Answering() returns (l: Local)
    ensures Reachable(l) && Looks(l, Processing, CHARGED, [Answered(Approved)])
  {
    l := Sending();
    Reach(l, HostDecides(true));
    l := Step(l, HostDecides(true));
    Reach(l, Answer(0));
    l := Step(l, Answer(0));
  }

  lemma MarkUnrequested(l: Local)
    requires Reachable(l) && Looks(l, Approved, CHARGED, [Winner(Approved), Loaded(Approved)])
    ensures !SafeForever(Step(l, Mark(1)))
  {
    ReachableOk(l);
    ExactFrom(l, Mark(1));
  }

  lemma Approving(l: Local) returns (n: Local)
    requires Reachable(l) && Looks(l, Processing, CHARGED, [Answered(Approved), Listed(false)])
    ensures Reachable(n) && Looks(n, Approved, CHARGED, [Winner(Approved), Listed(false)])
  {
    Reach(l, SaveAnswer(0));
    n := Step(l, SaveAnswer(0));
  }

  /** (b) A sale listed as PROCESSING can be approved before its row is loaded. */
  lemma WithoutGuardB() returns (l: Local)
    ensures Reachable(l) && At(l, 1) == Loaded(Approved) && !SafeForever(Step(l, Mark(1)))
  {
    l := Answering();
    l := Listing(l, Processing, CHARGED, Answered(Approved));
    l := Approving(l);
    l := Loading(l, Approved, CHARGED, Winner(Approved));
    MarkUnrequested(l);
  }

  lemma TimingOut() returns (l: Local)
    ensures Reachable(l) && Looks(l, Indeterminate, SENT, [Gone])
  {
    l := Sending();
    Reach(l, TimeOut(0));
    l := Step(l, TimeOut(0));
    Reach(l, SaveAnswer(0));
    l := Step(l, SaveAnswer(0));
  }

  /** The reconciler sends its reversal, which overtakes the authorization; the answer is on its way. */
  const OVERTAKEN := Host(InFlight(true), Free, true, 1)

  lemma Overtaking(l: Local) returns (n: Local)
    requires Reachable(l) && Looks(l, Indeterminate, SENT, [Gone, Undoing(Indeterminate, false)])
    ensures Reachable(n) && Looks(n, Indeterminate, OVERTAKEN, [Gone, Undoing(Indeterminate, false)])
  {
    Reach(l, SendReversal(1));
    n := Step(l, SendReversal(1));
    Reach(n, HostUndoes);
    n := Step(n, HostUndoes);
  }

  lemma Marking(l: Local) returns (n: Local)
    requires Reachable(l) && Looks(l, Indeterminate, SENT, [Gone, Loaded(Indeterminate)])
    ensures Reachable(n) && Looks(n, Indeterminate, SENT, [Gone, Undoing(Indeterminate, false)])
  {
    Reach(l, Mark(1));
    n := Step(l, Mark(1));
  }

  lemma Reversing() returns (l: Local)
    ensures Reachable(l) && Looks(l, Indeterminate, OVERTAKEN, [Gone, Undoing(Indeterminate, false)])
  {
    l := TimingOut();
    l := Listing(l, Indeterminate, SENT, Gone);
    l := Loading(l, Indeterminate, SENT, Gone);
    l := Marking(l);
    l := Overtaking(l);
  }

  lemma Crashing(l: Local) returns (n: Local)
    requires Reachable(l) && Looks(l, Indeterminate, OVERTAKEN, [Gone, Undoing(Indeterminate, false)])
    ensures Reachable(n) && Looks(n, Indeterminate, OVERTAKEN, [Gone, Gone])
  {
    Reach(l, Crash(1));
    n := Step(l, Crash(1));
  }

  /** (c) A reversal can overtake the authorization that timed out: its reconciler is about to reject. */
  lemma WithoutGuardC() returns (l: Local)
    ensures Reachable(l) && l.host.auth == InFlight(true) && At(l, 1) == Undone(Indeterminate, false)
    ensures !SafeForever(Step(l, HostDecides(true)))
  {
    l := Reversing();
    Reach(l, Receive(1));
    l := Step(l, Receive(1));
    assert l.workers[1] == Undone(Indeterminate, false);
    ReachableOk(l);
    ExactFrom(l, HostDecides(true));
  }

  /** (c) Nobody is about to reject, the call that was reversing timed out, and its confirmation is still
      on its way: the next call to reverse takes it for its own. */
  lemma WithoutGuardCLate() returns (l: Local)
    ensures Reachable(l) && l.host.auth == InFlight(true) && NobodyRejects(l) && InState(l, Indeterminate)
    ensures !SafeForever(Step(l, HostDecides(true)))
  {
    l := Reversing();
    l := Crashing(l);
    ReachableOk(l);
    ExactFrom(l, HostDecides(true));
  }
}
