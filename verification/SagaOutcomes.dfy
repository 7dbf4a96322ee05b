/** How a sale ends: one with a blocked card at once, and any other with the answer of the host. */
module SagaOutcomes {
  import opened Options
  import opened Saga

  // ----- a blocked card -----

  predicate Quiet(w: Worker) {
    w.Gone? || w == Winner(Rejected)
  }

  /** Nothing happened to the transaction yet. */
  predicate Untouched(l: Local) {
    && l.row.None? && l.host == NEW.host && l.calls == 0 && l.published == NEW.published
    && forall i :: 0 <= i < |l.workers| ==> l.workers[i].Gone?
  }

  /** It is rejected, and the host has not heard of it. */
  predicate Blocked(l: Local) {
    && InState(l, Rejected) && l.host == NEW.host && l.calls == 0
    && l.published.approved == 0 && l.published.reversed == 0
    && forall i :: 0 <= i < |l.workers| ==> Quiet(l.workers[i])
  }

  lemma UntouchedStays(l: Local, a: Act)
    requires Untouched(l) && !a.Arrive?
    ensures Untouched(Step(l, a))
  {
  }

  lemma BlockedArrives(l: Local, ev: int)
    requires Untouched(l)
    ensures Blocked(Step(l, Arrive(ev, true)))
  {
  }

  lemma BlockedStays(l: Local, a: Act)
    requires Blocked(l)
    ensures Blocked(Step(l, a))
  {
  }

  /** The transaction has a row as soon as it has anything. */
  predicate Begun(l: Local) {
    l.row.Some? || Untouched(l)
  }

  lemma BegunStays(l: Local, a: Act)
    requires Begun(l)
    ensures Begun(Step(l, a))
  {
    if l.row.None? && !a.Arrive? {
      UntouchedStays(l, a);
    }
  }

  lemma {:induction false} RunBegun(schedule: seq<Event>, tx: int)
    ensures Begun(Of(Run(schedule), tx))
  {
    if |schedule| > 0 {
      var s, e := Run(schedule[..|schedule| - 1]), schedule[|schedule| - 1];
      RunBegun(schedule[..|schedule| - 1], tx);
      if e.tx == tx {
        BegunStays(Of(s, tx), e.act);
      }
    }
  }

  /** Event k creates the transaction, for a blocked card. */
  predicate CreatesBlocked(schedule: seq<Event>, k: nat, tx: int) {
    && k < |schedule| && schedule[k].tx == tx && schedule[k].act.Arrive? && schedule[k].act.blocked
    && var s := Run(schedule[..k]);
    && schedule[k].act.ev !in s.processed && Of(s, tx).row.None?
  }

  lemma {:induction false} StaysBlocked(schedule: seq<Event>, k: nat, tx: int)
    requires CreatesBlocked(schedule, k, tx)
    ensures Blocked(Of(Run(schedule), tx))
  {
    var front, e := schedule[..|schedule| - 1], schedule[|schedule| - 1];
    if k == |schedule| - 1 {
      RunBegun(front, tx);
      BlockedArrives(Of(Run(front), tx), e.act.ev);
    } else {
      assert front[..k] == schedule[..k];
      StaysBlocked(front, k, tx);
      if e.tx == tx {
        BlockedStays(Of(Run(front), tx), e.act);
      }
    }
  }

  /** In every run, a transaction that was created for a blocked card is REJECTED, never calls the host, has no
      charge, and publishes no approval and no reversal. */
  lemma BlockedNeverCalls(schedule: seq<Event>, k: nat, tx: int)
    requires CreatesBlocked(schedule, k, tx)
    ensures var l := Of(Run(schedule), tx);
            && InState(l, Rejected) && l.calls == 0 && l.host.auth == NotSent && l.host.charge == Free
            && l.published.approved == 0 && l.published.reversed == 0
  {
    StaysBlocked(schedule, k, tx);
  }

  // ----- a sale that nobody disturbs -----

  /** A good score and one call, up to the host's decision. */
  function Asks(i: nat, approve: bool): seq<Act> {
    [Score(0, false)] + [StartCall(i)] + [Send(i)] + [HostDecides(approve)]
  }

  /** The answer, its save, and the publication. */
  function Ends(i: nat): seq<Act> {
    [Answer(i)] + [SaveAnswer(i)] + [Publish(i)]
  }

  lemma OneStep(l: Local, a: Act)
    ensures Steps(l, [a]) == Step(l, a)
  {
    assert [a][..0] == [];
  }

  lemma Follows(l: Local, acts: seq<Act>, a: Act)
    ensures Steps(l, acts + [a]) == Step(Steps(l, acts), a)
  {
    assert (acts + [a])[..|acts|] == acts;
  }

  lemma HostAnswers(l: Local, i: nat, approve: bool)
    requires InState(l, FraudChecking) && i == |l.workers| && l.host.charge == Free
    ensures var n := Steps(l, Asks(i, approve));
            && n.row == Some(l.row.value.(state := Processing)) && n.calls == l.calls + 1 && n.published == l.published
            && n.workers == l.workers + [Calling(true)]
            && n.host.auth == Decided(approve) && n.host.charge == (if approve then Live else Free)
  {
    OneStep(l, Score(0, false));
    Follows(l, [Score(0, false)], StartCall(i));
    Follows(l, [Score(0, false)] + [StartCall(i)], Send(i));
    Follows(l, [Score(0, false)] + [StartCall(i)] + [Send(i)], HostDecides(approve));
  }

  lemma AnswerIsSaved(l: Local, i: nat)
    requires InState(l, Processing) && At(l, i) == Calling(true) && l.host.auth.Decided?
    ensures var n := Steps(l, Ends(i));
            var final := if l.host.auth.approved then Approved else Rejected;
            && n.row == Some(l.row.value.(state := final)) && n.published == l.published.Plus(final)
            && n.host == l.host && n.calls == l.calls
  {
    OneStep(l, Answer(i));
    Follows(l, [Answer(i)], SaveAnswer(i));
    Follows(l, [Answer(i)] + [SaveAnswer(i)], Publish(i));
  }

  /** A sale that passes the fraud check makes one call and ends as the host decides: APPROVED with a live
      charge, or REJECTED without one; the result is published once more, and a request stays recorded. */
  lemma SaleEnds(l: Local, i: nat, approve: bool)
    requires InState(l, FraudChecking) && i == |l.workers| && l.host.charge == Free
    ensures var n := Steps(Steps(l, Asks(i, approve)), Ends(i));
            var final := if approve then Approved else Rejected;
            && n.row == Some(l.row.value.(state := final)) && n.published == l.published.Plus(final)
            && n.calls == l.calls + 1 && (n.host.charge == Live <==> approve)
  {
    HostAnswers(l, i, approve);
    AnswerIsSaved(Steps(l, Asks(i, approve)), i);
  }

  /** The request and the call that it starts, up to the confirmation. */
  function Undoes(i: nat): seq<Act> {
    [RequestReversal(0)] + [SendReversal(i)] + [HostUndoes] + [Receive(i)]
  }

  lemma HostConfirms(l: Local, i: nat)
    requires InState(l, Approved) && i == |l.workers|
    ensures var n := Steps(l, Undoes(i));
            && n.row == Some(TxRow(Approved, true)) && n.published == l.published
            && n.workers == l.workers + [Undone(Approved, true)]
            && n.host.charge == (if l.host.charge == Live then Voided else l.host.charge)
  {
    OneStep(l, RequestReversal(0));
    Follows(l, [RequestReversal(0)], SendReversal(i));
    Follows(l, [RequestReversal(0)] + [SendReversal(i)], HostUndoes);
    Follows(l, [RequestReversal(0)] + [SendReversal(i)] + [HostUndoes], Receive(i));
  }

  lemma UndoneIsSaved(l: Local, i: nat)
    requires InState(l, Approved) && At(l, i) == Undone(Approved, true)
    ensures var n := Steps(l, [SaveUndone(i)] + [Publish(i)]);
            && n.row == Some(l.row.value.(state := Reversed)) && n.host == l.host
            && n.published == l.published.(reversed := l.published.reversed + 1)
  {
    OneStep(l, SaveUndone(i));
    Follows(l, [SaveUndone(i)], Publish(i));
  }

  /** The reversal of an APPROVED sale voids its charge and ends in REVERSED, published once more. */
  lemma ReversalEnds(l: Local, i: nat)
    requires InState(l, Approved) && i == |l.workers|
    ensures var n := Steps(Steps(l, Undoes(i)), [SaveUndone(i)] + [Publish(i)]);
            && n.row == Some(TxRow(Reversed, true)) && n.host.charge != Live
            && n.published == l.published.(reversed := l.published.reversed + 1)
  {
    HostConfirms(l, i);
    UndoneIsSaved(Steps(l, Undoes(i)), i);
  }

  /** A bad score rejects the sale without a call; a call that times out leaves it INDETERMINATE. */
  lemma OtherEnds(l: Local, ev: int, i: nat)
    requires InState(l, FraudChecking) && i == |l.workers|
    ensures var n := Step(Step(l, Score(ev, true)), Publish(i));
            && n.row == Some(l.row.value.(state := Rejected)) && n.published == l.published.Plus(Rejected)
            && n.calls == l.calls && n.host == l.host
    ensures var m := Step(Step(Step(Step(Step(l, Score(ev, false)), StartCall(i)), Send(i)), TimeOut(i)),
                          SaveAnswer(i));
            m.row == Some(l.row.value.(state := Indeterminate)) && m.published == l.published
  {
  }

  // ----- what the environment may do, and what handlers refuse -----

  /** Any confirmation can be lost, and any handler can stop between two steps. */
  lemma LossesHappen(l: Local, i: nat)
    requires l.host.confirmations > 0 && i < |l.workers|
    ensures var n := Step(l, LoseConfirmation);
            n == l.(host := l.host.(confirmations := n.host.confirmations))
            && n.host.confirmations == l.host.confirmations - 1
    ensures Step(l, Crash(i)) == l.(workers := l.workers[i := Gone])
  {
  }

  /** A score or a reversal of an unknown transaction fails, and its event can be delivered again. */
  lemma UnknownIsNotMarked(s: System, e: Event)
    requires Of(s, e.tx).row.None? && (e.act.Score? || e.act.RequestReversal?)
    ensures Next(s, e) == s
  {
  }

  /** A duplicate of any event changes nothing. */
  lemma DuplicateIsIgnored(s: System, e: Event)
    requires e.act.HasEvent() && e.act.ev in s.processed
    ensures Next(s, e) == s
  {
  }

  /** The documented table of states: what each may become. */
  const TABLE: map<TxState, set<TxState>> := map[
    Received := {FraudChecking, Rejected},
    FraudChecking := {Processing, Rejected},
    Processing := {Approved, Rejected, Indeterminate},
    Indeterminate := {Reversed, Approved, Rejected},
    Approved := {Reversed},
    Rejected := {},
    Reversed := {}]

  lemma TransitionsAreTheTable(s: TxState, next: TxState)
    ensures s in TABLE && (CanTransition(s, next) <==> next in TABLE[s])
  {
  }
}
