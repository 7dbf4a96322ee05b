/** Agreement between the row of a transaction and the host's record of the charge. The code does not
    establish three things alone, so they are guards on the steps here; each comes with what happens
    without it. */
module SagaAgreement {
  import opened Options
  import opened Saga
  import opened SagaSafety

  /** An Authorize call has not sent its request yet. */
  predicate Unsent(w: Worker) {
    w.Advanced? || w == Calling(false)
  }

  predicate NothingUnsent(l: Local) {
    forall i :: 0 <= i < |l.workers| ==> !Unsent(l.workers[i])
  }

  /** reconcile holds the host's confirmation and is about to save REJECTED. */
  predicate NobodyRejects(l: Local) {
    forall i :: 0 <= i < |l.workers| ==> l.workers[i] != Undone(Indeterminate, false)
  }

  /** (a) a reconciler takes a PROCESSING row only when its Authorize call will not send anything more
      (when the call is over, for instance); (b) it acts on a row that it loaded as APPROVED only if a
      reversal was requested (acting only on rows loaded as PROCESSING or INDETERMINATE is enough);
      (c) the host approves an authorization that a reversal overtook only while the row is INDETERMINATE,
      no reconciler is about to save its rejection, and no confirmation of a reversal is on its way (never
      approving one is enough). */
  predicate Guard(l: Local, a: Act) {
    match a
    case Mark(i) =>
      && (At(l, i) == Loaded(Processing) && InState(l, Processing) ==> NothingUnsent(l))
      && (At(l, i) == Loaded(Approved) ==> Requested(l))
    case HostDecides(approve) =>
      l.host.auth == InFlight(true) && approve ==>
        InState(l, Indeterminate) && NobodyRejects(l) && l.host.confirmations == 0
    case _ => true
  }

  predicate Guarded(schedule: seq<Event>) {
    |schedule| == 0 || (
      var s, e := Run(schedule[..|schedule| - 1]), schedule[|schedule| - 1];
      Guarded(schedule[..|schedule| - 1]) && Guard(Of(s, e.tx), e.act))
  }

  /** A rejected or reversed row never leaves a live charge, a live charge means that the row is still
      moving or approved, and an approved row without a request has its charge. */
  predicate Agrees(l: Local) {
    && (InState(l, Rejected) || InState(l, Reversed) ==> l.host.charge != Live)
    && (l.host.charge == Live ==> InState(l, Processing) || InState(l, Indeterminate) || InState(l, Approved))
    && (InState(l, Approved) && !Requested(l) ==> l.host.charge == Live)
  }

  // ----- the invariant -----

  /** The states of a row in which a reversal may be on its way to the host. */
  predicate MayReverse(l: Local) {
    || InState(l, Indeterminate) || InState(l, Rejected)
    || ((InState(l, Approved) || InState(l, Reversed)) && Requested(l))
  }

  /** No charge is live, and none will be unless an overtaken authorization is approved. */
  predicate Cleared(h: Host) {
    h.charge != Live && h.auth != InFlight(false)
  }

  predicate HostOk(l: Local) {
    var h := l.host;
    && (h.reversalSent ==> MayReverse(l))
    && (h.charge == Live ==> h.auth == Decided(true))
    && (h.charge == Voided || h.auth == InFlight(true) ==> h.reversalSent)
    && (h.confirmations > 0 ==> h.reversalSent && Cleared(h))
    && (h.auth == Decided(true) ==> h.charge != Free)
  }

  predicate RowAgrees(l: Local) {
    && (l.row.None? || InState(l, FraudChecking) ==> l.host.auth == NotSent)
    && (InState(l, Approved) || InState(l, Reversed) ==> l.host.auth == Decided(true))
    && (InState(l, Rejected) || InState(l, Reversed) ==> Cleared(l.host))
    && (InState(l, Reversed) ==> Requested(l))
  }

  predicate Reverses(l: Local, s: TxState, completes: bool) {
    MayReverse(l) && if completes then InState(l, Approved) || InState(l, Reversed)
                     else s == Indeterminate || !CanTransition(s, Rejected)
  }

  predicate WorkerAgrees(l: Local, w: Worker) {
    match w
    case Advanced => InState(l, Processing) && l.host.auth == NotSent
    case Calling(sent) => if sent then l.host.auth != NotSent else InState(l, Processing) && l.host.auth == NotSent
    case Answered(result) =>
      && (result == Approved ==> l.host.auth == Decided(true))
      && (result == Rejected ==> l.host.auth == NotSent || l.host.auth == Decided(false))
    case Listed(completes) =>
      if completes then (InState(l, Approved) || InState(l, Reversed)) && Requested(l)
      else l.row.Some? && !InState(l, FraudChecking) && !InState(l, Received)
    case Loaded(s) =>
      && (s == Indeterminate ==> InState(l, Indeterminate) || InState(l, Rejected))
      && (s == Rejected ==> InState(l, Rejected))
      && (s == Approved ==> InState(l, Approved) || InState(l, Reversed))
      && (s == Reversed ==> InState(l, Reversed))
      && s != FraudChecking && s != Received
    case Undoing(s, completes) => Reverses(l, s, completes)
    case Undone(s, completes) =>
      && Reverses(l, s, completes)
      && (completes || s == Indeterminate ==> Cleared(l.host))
    case _ => true
  }

  predicate Ok(l: Local) {
    && Safe(l) && HostOk(l) && RowAgrees(l)
    && (forall i :: 0 <= i < |l.workers| ==> WorkerAgrees(l, l.workers[i]))
  }

  lemma OkAgrees(l: Local)
    requires Ok(l)
    ensures Agrees(l)
  {
  }

  /** The worker that acquires is the only one. */
  lemma OnlyAcquirer(l: Local, i: nat, j: nat)
    requires Safe(l) && i < |l.workers| && j < |l.workers| && i != j && Acquires(l.workers[i])
    ensures !Acquires(l.workers[j])
  {
    assert Apart(l.workers[if i < j then i else j], l.workers[if i < j then j else i]);
  }

  /** What is left to show for a step: the row and the host, and each worker that did not move. */
  lemma StepOkBy(l: Local, a: Act)
    requires Ok(l) && HostOk(Step(l, a)) && RowAgrees(Step(l, a))
    requires |Step(l, a).workers| >= |l.workers|
    requires forall j :: 0 <= j < |Step(l, a).workers| ==> WorkerAgrees(Step(l, a), Step(l, a).workers[j])
    ensures Ok(Step(l, a))
  {
    StepKeeps(l, a);
  }

  // ----- steps that leave the row and the host alone -----

  /** What is asked of a worker depends on the row and the host only. */
  lemma SameAgrees(l: Local, n: Local, w: Worker)
    requires WorkerAgrees(l, w) && n.row == l.row && n.host == l.host
    ensures WorkerAgrees(n, w)
  {
  }

  lemma MovedOk(l: Local, n: Local, i: nat)
    requires Ok(l) && Safe(n) && i < |l.workers| && n.row == l.row && n.host == l.host
    requires n.workers == l.workers[i := At(n, i)] && WorkerAgrees(n, At(n, i))
    ensures Ok(n)
  {
    forall j | 0 <= j < |n.workers| ensures WorkerAgrees(n, n.workers[j]) {
      if j != i {
        SameAgrees(l, n, l.workers[j]);
      }
    }
  }

  lemma CallOk(l: Local, a: Act)
    requires Ok(l) && (a.StartCall? || a.Answer? || a.NeverSent? || a.TimeOut?)
    ensures Ok(Step(l, a))
  {
    var n := Step(l, a);
    if n != l {
      StepKeeps(l, a);
      assert WorkerAgrees(l, l.workers[a.i]);
      MovedOk(l, n, a.i);
    }
  }

  lemma MoveOk(l: Local, a: Act)
    requires Ok(l) && (a.Publish? || a.Crash? || a.Load?)
    ensures Ok(Step(l, a))
  {
    var n := Step(l, a);
    if n != l {
      StepKeeps(l, a);
      assert WorkerAgrees(l, l.workers[a.i]);
      MovedOk(l, n, a.i);
    }
  }

  lemma ListOk(l: Local, completes: bool)
    requires Ok(l) && Unresolved(l, completes)
    ensures Ok(Step(l, List(completes)))
  {
    var n := Step(l, List(completes));
    forall j | 0 <= j < |n.workers| ensures WorkerAgrees(n, n.workers[j]) {
      if j < |l.workers| {
        SameAgrees(l, n, l.workers[j]);
      }
    }
    StepKeeps(l, List(completes));
  }

  // ----- steps of the host -----

  lemma SendOk(l: Local, i: nat)
    requires Ok(l) && At(l, i) == Calling(false)
    ensures Ok(Step(l, Send(i)))
  {
    var n := Step(l, Send(i));
    assert WorkerAgrees(l, l.workers[i]);
    forall j | 0 <= j < |n.workers| ensures WorkerAgrees(n, n.workers[j]) {
      assert WorkerAgrees(l, l.workers[j]);
      if j != i {
        OnlyAcquirer(l, i, j);
      }
    }
    StepOkBy(l, Send(i));
  }

  lemma DecideOk(l: Local, approve: bool)
    requires Ok(l) && Guard(l, HostDecides(approve))
    ensures Ok(Step(l, HostDecides(approve)))
  {
    var n := Step(l, HostDecides(approve));
    forall j | 0 <= j < |n.workers| ensures WorkerAgrees(n, n.workers[j]) {
      assert WorkerAgrees(l, l.workers[j]);
    }
    StepOkBy(l, HostDecides(approve));
  }

  lemma SendReversalOk(l: Local, i: nat)
    requires Ok(l) && At(l, i).Undoing?
    ensures Ok(Step(l, SendReversal(i)))
  {
    var n := Step(l, SendReversal(i));
    assert WorkerAgrees(l, l.workers[i]);
    forall j | 0 <= j < |n.workers| ensures WorkerAgrees(n, n.workers[j]) {
      assert WorkerAgrees(l, l.workers[j]);
    }
    StepOkBy(l, SendReversal(i));
  }

  /** The host handles a reversal, or a confirmation is lost: the charge can only be cleared. */
  lemma HandledOk(l: Local, h: Host)
    requires Ok(l) && ((l.host.reversalSent && h == HostReverse(l.host)) || h == Confirmed(l.host))
    ensures Ok(l.(host := h))
  {
    var n := l.(host := h);
    HostStepKeeps(l, h);
    forall j | 0 <= j < |n.workers| ensures WorkerAgrees(n, n.workers[j]) {
      assert WorkerAgrees(l, l.workers[j]);
      ClearedWorker(l, n, l.workers[j]);
    }
  }

  lemma ClearedWorker(l: Local, n: Local, w: Worker)
    requires HostOk(l) && WorkerAgrees(l, w) && n == l.(host := n.host)
    requires (l.host.reversalSent && n.host == HostReverse(l.host)) || n.host == Confirmed(l.host)
    ensures WorkerAgrees(n, w)
  {
  }

  lemma ReceiveOk(l: Local, i: nat)
    requires Ok(l) && At(l, i).Undoing? && l.host.confirmations > 0
    ensures Ok(Step(l, Receive(i)))
  {
    var m := l.(host := Confirmed(l.host));
    HandledOk(l, Confirmed(l.host));
    StepKeeps(l, Receive(i));
    assert WorkerAgrees(m, m.workers[i]);
    MovedOk(m, Step(l, Receive(i)), i);
  }

  // ----- steps that write the row -----

  lemma InsertOk(l: Local, a: Act)
    requires Ok(l) && a.Arrive?
    ensures Ok(Step(l, a))
  {
    var n := Step(l, a);
    forall j | 0 <= j < |n.workers| ensures WorkerAgrees(n, n.workers[j]) {
      assert j < |l.workers| ==> WorkerAgrees(l, l.workers[j]) && WorkerSafe(l, l.workers[j]);
    }
    StepOkBy(l, a);
  }

  lemma ScoreOk(l: Local, a: Act)
    requires Ok(l) && a.Score?
    ensures Ok(Step(l, a))
  {
    var n := Step(l, a);
    forall j | 0 <= j < |n.workers| ensures WorkerAgrees(n, n.workers[j]) {
      assert j < |l.workers| ==> WorkerAgrees(l, l.workers[j]);
    }
    StepOkBy(l, a);
  }

  /** The request is marked, and an approved row gets its worker. */
  lemma MarkedAgrees(l: Local, n: Local, w: Worker)
    requires l.row.Some? && n.row == Some(l.row.value.(requested := true)) && n.host == l.host
    ensures WorkerAgrees(l, w) ==> WorkerAgrees(n, w)
    ensures HostOk(l) ==> HostOk(n)
    ensures RowAgrees(l) ==> RowAgrees(n)
  {
  }

  lemma RequestOk(l: Local, a: Act)
    requires Ok(l) && a.RequestReversal?
    ensures Ok(Step(l, a))
  {
    var n := Step(l, a);
    if n != l {
      forall j | 0 <= j < |n.workers| ensures WorkerAgrees(n, n.workers[j]) {
        assert j < |l.workers| ==> WorkerAgrees(l, l.workers[j]);
        MarkedAgrees(l, n, n.workers[j]);
      }
      MarkedAgrees(l, n, Gone);
      StepOkBy(l, a);
    }
  }

  /** The result of the authorization is saved: its worker was the only one, and no reversal was sent. */
  lemma AnswerSaved(l: Local, result: TxState)
    requires HostOk(l) && InState(l, Processing) && WorkerAgrees(l, Answered(result))
    requires result == Approved || result == Rejected || result == Indeterminate
    ensures var n := SaveIfState(l, Processing, result).value; HostOk(n) && RowAgrees(n)
  {
  }

  lemma AgreesAfterAnswer(l: Local, result: TxState, w: Worker)
    requires InState(l, Processing) && WorkerAgrees(l, w) && !Acquires(w)
    requires result == Approved || result == Rejected || result == Indeterminate
    ensures WorkerAgrees(SaveIfState(l, Processing, result).value, w)
  {
  }

  lemma SaveAnswerWonOk(l: Local, i: nat)
    requires Ok(l) && At(l, i).Answered? && InState(l, Processing)
    ensures Ok(Step(l, SaveAnswer(i)))
  {
    var n, w := Step(l, SaveAnswer(i)), l.workers[i];
    assert WorkerAgrees(l, w) && WorkerSafe(l, w);
    var m := SaveIfState(l, Processing, w.result).value;
    AnswerSaved(l, w.result);
    StepKeeps(l, SaveAnswer(i));
    forall j | 0 <= j < |n.workers| ensures WorkerAgrees(n, n.workers[j]) {
      if j != i {
        OnlyAcquirer(l, i, j);
        AgreesAfterAnswer(l, w.result, l.workers[j]);
        SameAgrees(m, n, l.workers[j]);
      }
    }
  }

  lemma SaveAnswerOk(l: Local, i: nat)
    requires Ok(l) && At(l, i).Answered?
    ensures Ok(Step(l, SaveAnswer(i)))
  {
    if InState(l, Processing) {
      SaveAnswerWonOk(l, i);
    } else {
      StepKeeps(l, SaveAnswer(i));
      MovedOk(l, Step(l, SaveAnswer(i)), i);
    }
  }

  lemma MarkOk(l: Local, i: nat)
    requires Ok(l) && At(l, i).Loaded? && Guard(l, Mark(i))
    ensures Ok(Step(l, Mark(i)))
  {
    var n := Step(l, Mark(i));
    assert WorkerAgrees(l, l.workers[i]);
    if At(l, i) == Loaded(Processing) && InState(l, Processing) {
      MarkWonOk(l, i);
    } else {
      StepKeeps(l, Mark(i));
      MovedOk(l, n, i);
    }
  }

  /** The row goes to INDETERMINATE when everything that will be sent was sent. */
  lemma AgreesAfterMark(l: Local, w: Worker)
    requires InState(l, Processing) && WorkerAgrees(l, w) && !Unsent(w)
    ensures WorkerAgrees(SaveIfState(l, Processing, Indeterminate).value, w)
  {
  }

  lemma MarkWonOk(l: Local, i: nat)
    requires Ok(l) && At(l, i) == Loaded(Processing) && InState(l, Processing) && NothingUnsent(l)
    ensures Ok(Step(l, Mark(i)))
  {
    var n := Step(l, Mark(i));
    var m := SaveIfState(l, Processing, Indeterminate).value;
    StepKeeps(l, Mark(i));
    forall j | 0 <= j < |n.workers| ensures WorkerAgrees(n, n.workers[j]) {
      if j != i {
        AgreesAfterMark(l, l.workers[j]);
        SameAgrees(m, n, l.workers[j]);
      }
    }
  }

  predicate Finishes(l: Local, w: Worker) {
    w.Undone? && InState(l, if w.completes then Approved else Indeterminate) && CanTransition(w.state, Final(w))
  }

  lemma SaveUndoneOk(l: Local, i: nat)
    requires Ok(l) && At(l, i).Undone?
    ensures Ok(Step(l, SaveUndone(i)))
  {
    var n, w := Step(l, SaveUndone(i)), l.workers[i];
    assert WorkerAgrees(l, w);
    if Finishes(l, w) {
      FinishWonOk(l, i);
    } else {
      StepKeeps(l, SaveUndone(i));
      MovedOk(l, n, i);
    }
  }

  function Final(w: Worker): TxState
    requires w.Undone?
  {
    if w.completes then Reversed else Rejected
  }

  /** The confirmed reversal is saved. */
  lemma AgreesAfterFinish(l: Local, w: Worker, v: Worker)
    requires HostOk(l) && RowAgrees(l) && Finishes(l, w) && WorkerAgrees(l, w) && WorkerAgrees(l, v)
    ensures var n := SaveIfState(l, if w.completes then Approved else Indeterminate, Final(w)).value;
            HostOk(n) && RowAgrees(n) && WorkerAgrees(n, v)
  {
  }

  lemma FinishWonOk(l: Local, i: nat)
    requires Ok(l) && At(l, i).Undone? && Finishes(l, At(l, i))
    ensures Ok(Step(l, SaveUndone(i)))
  {
    var n, w := Step(l, SaveUndone(i)), l.workers[i];
    var m := SaveIfState(l, if w.completes then Approved else Indeterminate, Final(w)).value;
    StepKeeps(l, SaveUndone(i));
    AgreesAfterFinish(l, w, Gone);
    forall j | 0 <= j < |n.workers| ensures WorkerAgrees(n, n.workers[j]) {
      if j != i {
        AgreesAfterFinish(l, w, l.workers[j]);
        SameAgrees(m, n, l.workers[j]);
      }
    }
  }

  lemma StepOk(l: Local, a: Act)
    requires Ok(l) && Guard(l, a)
    ensures Ok(Step(l, a))
  {
    match a
    case Arrive(_, _) => InsertOk(l, a);
    case Score(_, _) => ScoreOk(l, a);
    case RequestReversal(_) => RequestOk(l, a);
    case Send(i) => if At(l, i) == Calling(false) { SendOk(l, i); }
    case HostDecides(approve) => DecideOk(l, approve);
    case SaveAnswer(i) => if At(l, i).Answered? { SaveAnswerOk(l, i); }
    case List(completes) => if Unresolved(l, completes) { ListOk(l, completes); }
    case Mark(i) => if At(l, i).Loaded? { MarkOk(l, i); }
    case SendReversal(i) => if At(l, i).Undoing? { SendReversalOk(l, i); }
    case HostUndoes => if l.host.reversalSent { HandledOk(l, HostReverse(l.host)); }
    case Receive(i) => if At(l, i).Undoing? && l.host.confirmations > 0 { ReceiveOk(l, i); }
    case LoseConfirmation => HandledOk(l, Confirmed(l.host));
    case SaveUndone(i) => if At(l, i).Undone? { SaveUndoneOk(l, i); }
    case StartCall(_) => CallOk(l, a);
    case Answer(_) => CallOk(l, a);
    case NeverSent(_) => CallOk(l, a);
    case TimeOut(_) => CallOk(l, a);
    case _ => MoveOk(l, a);
  }

  lemma {:induction false} RunAgrees(schedule: seq<Event>, tx: int)
    requires Guarded(schedule)
    ensures Ok(Of(Run(schedule), tx))
  {
    if |schedule| > 0 {
      var s, e := Run(schedule[..|schedule| - 1]), schedule[|schedule| - 1];
      RunAgrees(schedule[..|schedule| - 1], tx);
      if e.tx == tx {
        StepOk(Of(s, tx), e.act);
      }
    }
  }

  // ----- what it means -----

  /** Host agreement, over every guarded run, with crashes at any point. */
  lemma HostAgreement(schedule: seq<Event>, tx: int)
    requires Guarded(schedule)
    ensures Agrees(Of(Run(schedule), tx))
  {
    RunAgrees(schedule, tx);
    OkAgrees(Of(Run(schedule), tx));
  }

  predicate Finished(l: Local, n: Local, final: TxState) {
    && InState(n, final) && n.host.charge != Live
    && n.published == l.published.Plus(final)
  }

  function LastSteps(i: nat): seq<Act> {
    ([SendReversal(i)] + [HostUndoes] + [Receive(i)]) + ([SaveUndone(i)] + [Publish(i)])
  }

  function FirstSteps(i: nat, completes: bool): seq<Act> {
    if completes then [List(true)] + [Load(i)] else [List(false)] + [Load(i)] + [Mark(i)]
  }

  /** One undisturbed pass of the reconciler, as worker i. */
  function Retry(i: nat, completes: bool): seq<Act> {
    FirstSteps(i, completes) + LastSteps(i)
  }

  /** A row still APPROVED whose charge the host has undone carries the request, so the reconciler
      selects it; and whenever the reconciler selects an approved row, repeating the reversal ends in
      REVERSED without a charge and with exactly one published completion. */
  lemma RepeatedReversalCompletes(schedule: seq<Event>, tx: int)
    requires Guarded(schedule)
    ensures var l := Of(Run(schedule), tx);
            && (InState(l, Approved) && l.host.charge != Live ==> Unresolved(l, true))
            && (Unresolved(l, true) ==>
                  var n := Steps(l, Retry(|l.workers|, true));
                  Finished(l, n, Reversed) && n.published.reversed == 1)
  {
    RunAgrees(schedule, tx);
    var l := Of(Run(schedule), tx);
    OkAgrees(l);
    if Unresolved(l, true) {
      RetryFinishes(l, true);
      NotYetReversed(l);
    }
  }

  lemma NotYetReversed(l: Local)
    requires Safe(l) && InState(l, Approved)
    ensures l.published.reversed == 0
  {
  }

  /** In the same way a pass over an INDETERMINATE or PROCESSING row ends in REJECTED without a charge,
      and publishes the rejection as the only result of the transaction. */
  lemma ReconcileResolves(schedule: seq<Event>, tx: int)
    requires Guarded(schedule) && Unresolved(Of(Run(schedule), tx), false)
    ensures var l := Of(Run(schedule), tx);
            Finished(l, Steps(l, Retry(|l.workers|, false)), Rejected)
            && l.published == Published(0, 0, 0)
  {
    RunAgrees(schedule, tx);
    RetryFinishes(Of(Run(schedule), tx), false);
    NothingPublishedYet(Of(Run(schedule), tx));
  }

  lemma NothingPublishedYet(l: Local)
    requires Safe(l) && Unresolved(l, false)
    ensures l.published == Published(0, 0, 0)
  {
  }

  lemma {:induction false} StepsOnce(l: Local, a: Act, acts: seq<Act>)
    ensures Steps(l, [a] + acts) == Steps(Step(l, a), acts)
  {
    var all := [a] + acts;
    if |acts| == 0 {
      assert all[..0] == [];
      assert Steps(l, all[..0]) == l;
    } else {
      assert all[..|all| - 1] == [a] + acts[..|acts| - 1];
      StepsOnce(l, a, acts[..|acts| - 1]);
    }
  }

  lemma StepsOne(l: Local, a: Act)
    ensures Steps(l, [a]) == Step(l, a)
  {
    assert [a][..0] == [];
  }

  /** The last steps of a reversal. */
  function Confirm(l: Local, i: nat): Local {
    Step(Step(Step(l, SendReversal(i)), HostUndoes), Receive(i))
  }

  function Finish(l: Local, i: nat): Local {
    Step(Step(Confirm(l, i), SaveUndone(i)), Publish(i))
  }

  lemma FinishSteps(l: Local, i: nat)
    ensures Steps(l, LastSteps(i)) == Finish(l, i)
  {
    StepsConcat(l, [SendReversal(i)] + [HostUndoes] + [Receive(i)], [SaveUndone(i)] + [Publish(i)]);
    ThreeSteps(l, SendReversal(i), HostUndoes, Receive(i));
    TwoSteps(Confirm(l, i), SaveUndone(i), Publish(i));
  }

  lemma ConfirmGives(l: Local, i: nat)
    requires At(l, i).Undoing?
    ensures var n := Confirm(l, i);
            && At(n, i) == Undone(At(l, i).state, At(l, i).completes) && |n.workers| == |l.workers|
            && n.row == l.row && n.published == l.published && n.host.charge != Live
  {
  }

  lemma FinishGives(l: Local, i: nat)
    requires i < |l.workers| && Finishes(l, l.workers[i]) && l.host.charge != Live
    ensures Finished(l, Step(Step(l, SaveUndone(i)), Publish(i)), Final(l.workers[i]))
  {
  }

  lemma PassFinishes(l: Local, i: nat, completes: bool)
    requires At(l, i) == Undoing(if completes then Approved else Indeterminate, completes)
    requires InState(l, if completes then Approved else Indeterminate)
    ensures Finished(l, Finish(l, i), if completes then Reversed else Rejected)
  {
    ConfirmGives(l, i);
    FinishGives(Confirm(l, i), i);
  }

  /** The first steps of a pass of the reconciler. */
  function Take(l: Local, i: nat, completes: bool): Local {
    var n := Step(Step(l, List(completes)), Load(i));
    if completes then n else Step(n, Mark(i))
  }

  lemma TakeGives(l: Local, completes: bool)
    requires Unresolved(l, completes)
    ensures var n := Take(l, |l.workers|, completes);
            var s := if completes then Approved else Indeterminate;
            At(n, |l.workers|) == Undoing(s, completes) && InState(n, s) && n.published == l.published
  {
  }

  lemma {:induction false} StepsConcat(l: Local, a: seq<Act>, b: seq<Act>)
    ensures Steps(l, a + b) == Steps(Steps(l, a), b)
  {
    if |b| == 0 {
      assert a + b == a;
    } else {
      assert (a + b)[..|a + b| - 1] == a + b[..|b| - 1];
      StepsConcat(l, a, b[..|b| - 1]);
    }
  }

  lemma TwoSteps(l: Local, a: Act, b: Act)
    ensures Steps(l, [a] + [b]) == Step(Step(l, a), b)
  {
    StepsConcat(l, [a], [b]);
    StepsOne(l, a);
    StepsOne(Step(l, a), b);
  }

  lemma ThreeSteps(l: Local, a: Act, b: Act, c: Act)
    ensures Steps(l, [a] + [b] + [c]) == Step(Step(Step(l, a), b), c)
  {
    StepsConcat(l, [a] + [b], [c]);
    TwoSteps(l, a, b);
    StepsOne(Step(Step(l, a), b), c);
  }

  lemma TakeSteps(l: Local, i: nat, completes: bool)
    ensures Steps(l, FirstSteps(i, completes)) == Take(l, i, completes)
  {
    if completes {
      TwoSteps(l, List(true), Load(i));
    } else {
      ThreeSteps(l, List(false), Load(i), Mark(i));
    }
  }

  lemma RetryFinishes(l: Local, completes: bool)
    requires Unresolved(l, completes)
    ensures Finished(l, Steps(l, Retry(|l.workers|, completes)), if completes then Reversed else Rejected)
  {
    var i := |l.workers|;
    var n := Take(l, i, completes);
    StepsConcat(l, FirstSteps(i, completes), LastSteps(i));
    TakeSteps(l, i, completes);
    FinishSteps(n, i);
    TakeGives(l, completes);
    PassFinishes(n, i, completes);
  }
}
