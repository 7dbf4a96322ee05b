/** The transaction aggregate, the table it is saved in, and the saga handlers as methods that run from
    start to end. Each handler does exactly the steps of Saga.dfy for its worker; SagaSafety.dfy and
    SagaAgreement.dfy cover the runs in which those steps are interleaved with others. */
module AuthorizationService {
  import opened Options
  import opened Saga
  import opened SagaAgreement

  /** Reasons of a rejection; the codes of the issuer are other numbers. */
  const FRAUD: int := -1
  const TIMEOUT: int := -2
  const BLOCKLIST: int := -3
  const UNAVAILABLE: int := -4
  const UNKNOWN_RESPONSE: int := -5

  /** aggregate/transaction.go. Immutable data, timestamps and domain events are not modelled. */
  class Transaction {
    const id: int
    var state: TxState
    var authCode: Option<int>
    var rejectionCode: Option<int>

    constructor (id: int, state: TxState, authCode: Option<int>, rejectionCode: Option<int>)
      ensures this.id == id && this.state == state && this.authCode == authCode && this.rejectionCode == rejectionCode
    {
      this.id, this.state, this.authCode, this.rejectionCode := id, state, authCode, rejectionCode;
    }

    method Transition(next: TxState) returns (ok: bool)
      modifies this`state
      ensures ok <==> CanTransition(old(state), next)
      ensures state == if ok then next else old(state)
    {
      ok := CanTransition(state, next);
      if ok {
        state := next;
      }
    }

    method ApplyFraudDecision(reject: bool) returns (ok: bool)
      modifies this
      ensures ok <==> old(state) == FraudChecking
      ensures state == if !ok then old(state) else if reject then Rejected else Processing
      ensures authCode == old(authCode) && rejectionCode == if ok && reject then Some(FRAUD) else old(rejectionCode)
    {
      if state != FraudChecking {
        return false;
      }
      if reject {
        ok := Reject(FRAUD);
      } else {
        ok := Transition(Processing);
      }
    }

    method Approve(code: int) returns (ok: bool)
      modifies this
      ensures ok <==> old(state) == Processing || old(state) == Indeterminate
      ensures state == (if ok then Approved else old(state)) && authCode == (if ok then Some(code) else old(authCode))
      ensures rejectionCode == old(rejectionCode)
    {
      ok := Transition(Approved);
      if ok {
        authCode := Some(code);
      }
    }

    method Reject(code: int) returns (ok: bool)
      modifies this
      ensures ok <==> CanTransition(old(state), Rejected)
      ensures state == (if ok then Rejected else old(state))
              && rejectionCode == (if ok then Some(code) else old(rejectionCode))
      ensures authCode == old(authCode)
    {
      ok := Transition(Rejected);
      if ok {
        rejectionCode := Some(code);
      }
    }
  }

  /** A stored row, with the result columns that a save rewrites. */
  datatype Stored = Stored(state: TxState, requested: bool, authCode: Option<int>, rejectionCode: Option<int>)

  /** An approval is stored with its code, a rejection with its reason, and nothing else has either. */
  predicate HasResult(state: TxState, authCode: Option<int>, rejectionCode: Option<int>) {
    && (authCode.Some? <==> state == Approved || state == Reversed)
    && (rejectionCode.Some? <==> state == Rejected)
  }

  datatype Sent = Sent(id: int, state: TxState)

  /** What was published for one transaction. */
  function Tally(log: seq<Sent>, id: int): Published {
    if |log| == 0 then Published(0, 0, 0)
    else
      var rest := Tally(log[..|log| - 1], id);
      if log[|log| - 1].id == id then rest.Plus(log[|log| - 1].state) else rest
  }

  lemma TallyAppend(log: seq<Sent>, e: Sent, id: int)
    ensures Tally(log + [e], id) == if e.id == id then Tally(log, id).Plus(e.state) else Tally(log, id)
  {
    assert (log + [e])[..|log|] == log;
  }

  /** The row and the publications of a transaction. */
  datatype Outcome = Outcome(row: Option<TxRow>, published: Published)

  /** The transaction with w as its only worker, and the outcome after some steps. */
  function Alone(o: Outcome, w: Worker): Local {
    Local(o.row, Host(NotSent, Free, false, 0), [w], 0, o.published, [])
  }

  function Unattended(o: Outcome): Local {
    Alone(o, Gone).(workers := [])
  }

  function Left(l: Local): Outcome {
    Outcome(l.row, l.published)
  }

  /** The ways in which acquirer.Authorize can end. The code of a reply may be unreadable. */
  datatype Response = NotSentAtAll | Failed | Replied(approved: bool, code: Option<int>)

  function Saved(l: Local): Local {
    Step(Step(l, SaveAnswer(0)), Publish(0))
  }

  /** The steps of callAcquirer. */
  function Call(l: Local, r: Response): Local {
    var started := Step(l, StartCall(0));
    match r
    case NotSentAtAll => Saved(Step(started, NeverSent(0)))
    case Failed => Saved(Step(started, TimeOut(0)))
    case Replied(approved, code) =>
      var answered := Step(Step(Step(started, Send(0)), HostDecides(approved)), Answer(0));
      if approved && code.None? then Step(answered, Crash(0)) else Saved(answered)
  }

  /** The steps of acquirer.Reverse and of what follows it. */
  function Undo(l: Local, confirmed: bool): Local {
    if confirmed then Finish(l, 0) else Step(Step(l, SendReversal(0)), Crash(0))
  }

  /** A conditional save with its publication. */
  function Won(o: Outcome, expected: TxState, next: TxState): Outcome {
    if o.row.Some? && o.row.value.state == expected
    then Outcome(Some(o.row.value.(state := next)), o.published.Plus(next)) else o
  }

  lemma SavedIs(l: Local, result: TxState)
    requires l.workers == [Answered(result)]
    ensures Left(Saved(l)) == Won(Left(l), Processing, result)
  {
  }

  lemma CallIs(o: Outcome, r: Response)
    ensures Left(Call(Alone(o, Advanced), r)) ==
            match r
            case NotSentAtAll => Won(o, Processing, Rejected)
            case Failed => Won(o, Processing, Indeterminate)
            case Replied(approved, code) =>
              if approved && code.None? then o else Won(o, Processing, if approved then Approved else Rejected)
  {
    var started := Step(Alone(o, Advanced), StartCall(0));
    match r
    case NotSentAtAll => SavedIs(Step(started, NeverSent(0)), Rejected);
    case Failed => SavedIs(Step(started, TimeOut(0)), Indeterminate);
    case Replied(approved, code) =>
      var answered := Step(Step(Step(started, Send(0)), HostDecides(approved)), Answer(0));
      assert answered.workers == [Answered(if approved then Approved else Rejected)] && Left(answered) == o;
      if !(approved && code.None?) {
        SavedIs(answered, if approved then Approved else Rejected);
      }
  }

  lemma FinishUndoneIs(l: Local, state: TxState, completes: bool)
    requires l.workers == [Undone(state, completes)]
    ensures Left(Step(Step(l, SaveUndone(0)), Publish(0))) ==
            var next := if completes then Reversed else Rejected;
            if CanTransition(state, next) then Won(Left(l), if completes then Approved else Indeterminate, next)
            else Left(l)
  {
  }

  lemma UndoIs(l: Local, state: TxState, completes: bool, confirmed: bool)
    requires l.workers == [Undoing(state, completes)]
    ensures Left(Undo(l, confirmed)) ==
            var next := if completes then Reversed else Rejected;
            if confirmed && CanTransition(state, next)
            then Won(Left(l), if completes then Approved else Indeterminate, next)
            else Left(l)
  {
    if confirmed {
      var undone := Confirm(l, 0);
      ConfirmGives(l, 0);
      assert undone.workers == [Undone(state, completes)] && Left(undone) == Left(l);
      FinishUndoneIs(undone, state, completes);
    }
  }

  lemma MarkIs(o: Outcome, state: TxState)
    ensures var l := Step(Alone(o, Loaded(state)), Mark(0));
            if state != Processing then l.workers == [Undoing(state, false)] && Left(l) == o
            else Left(l) == Won(o, Processing, Indeterminate)
                 && l.workers == [if Left(l) == o then Gone else Undoing(Indeterminate, false)]
  {
  }

  /** What reconcile leaves, given the state it loaded. */
  lemma ReconcileIs(o: Outcome, state: TxState, confirmed: bool)
    ensures Left(Undo(Step(Alone(o, Loaded(state)), Mark(0)), confirmed)) ==
            if state == Processing then
              var m := Won(o, Processing, Indeterminate);
              if m != o && confirmed then Won(m, Indeterminate, Rejected) else m
            else if confirmed && CanTransition(state, Rejected) then Won(o, Indeterminate, Rejected)
            else o
  {
    var l := Step(Alone(o, Loaded(state)), Mark(0));
    MarkIs(o, state);
    if l.workers == [Gone] {
      GoneStays(l, confirmed);
    } else {
      UndoIs(l, if state == Processing then Indeterminate else state, false, confirmed);
    }
  }

  lemma GoneStays(l: Local, confirmed: bool)
    requires l.workers == [Gone]
    ensures Left(Undo(l, confirmed)) == Left(l)
  {
  }

  function ViewOf(rows: map<int, Stored>, published: seq<Sent>, id: int): Outcome {
    Outcome(if id in rows then Some(TxRow(rows[id].state, rows[id].requested)) else None, Tally(published, id))
  }

  // ----- a round of ReconcileUnresolved -----

  const RECONCILE_BATCH: nat := 50

  /** One of its two loops: whether it completes reversals, what is due, and what the host confirms. */
  datatype Round = Round(completes: bool, due: int -> bool, confirms: int -> bool)

  predicate Distinct(ids: seq<int>) {
    forall j, k :: 0 <= j < k < |ids| ==> ids[j] != ids[k]
  }

  predicate Selects(rows: map<int, Stored>, id: int, round: Round) {
    id in rows &&
    if round.completes then rows[id].state == Approved && rows[id].requested && round.due(id)
    else rows[id].state == Indeterminate || (rows[id].state == Processing && round.due(id))
  }

  function Selected(order: seq<int>, rows: map<int, Stored>, round: Round): seq<int> {
    if |order| == 0 then []
    else
      var rest, last := Selected(order[..|order| - 1], rows, round), order[|order| - 1];
      if |rest| < RECONCILE_BATCH && Selects(rows, last, round) then rest + [last] else rest
  }

  lemma {:induction false} SelectedIds(order: seq<int>, rows: map<int, Stored>, round: Round)
    requires Distinct(order)
    ensures var ids := Selected(order, rows, round);
            && Distinct(ids) && |ids| <= RECONCILE_BATCH
            && forall id :: id in ids ==> id in order && Selects(rows, id, round)
  {
    if |order| > 0 {
      SelectedIds(order[..|order| - 1], rows, round);
    }
  }

  /** An INDETERMINATE row, or a PROCESSING one that is due; or an APPROVED one with a request that is due. */
  predicate NeedsPass(r: Stored, completes: bool, due: bool) {
    match r.state
    case Indeterminate => !completes
    case Processing => !completes && due
    case Approved => completes && r.requested && due
    case _ => false
  }

  lemma SelectsIff(rows: map<int, Stored>, id: int, round: Round)
    ensures Selects(rows, id, round) <==> id in rows && NeedsPass(rows[id], round.completes, round.due(id))
    ensures var l := Unattended(ViewOf(rows, [], id));
            Selects(rows, id, round) <==> Unresolved(l, round.completes) && (InState(l, Indeterminate) || round.due(id))
  {
  }

  lemma {:induction false} SelectedGrows(order: seq<int>, rows: map<int, Stored>, round: Round, k: nat)
    requires k <= |order|
    ensures Selected(order[..k], rows, round) <= Selected(order, rows, round)
  {
    if k == |order| {
      assert order[..k] == order;
    } else {
      SelectedGrows(order[..|order| - 1], rows, round, k);
      assert order[..|order| - 1][..k] == order[..k];
    }
  }

  /** Nothing that needs a pass is left out, unless fifty others come earlier in the order. */
  lemma ListedUnlessFifty(order: seq<int>, rows: map<int, Stored>, round: Round, k: nat)
    requires k < |order| && order[k] in rows && NeedsPass(rows[order[k]], round.completes, round.due(order[k]))
    ensures |Selected(order[..k], rows, round)| < 50 ==> order[k] in Selected(order, rows, round)
    ensures |Selected(order[..k], rows, round)| <= 50
    ensures Selected(order[..k], rows, round) <= Selected(order, rows, round)
  {
    SelectsIff(rows, order[k], round);
    SelectedGrows(order, rows, round, k);
    SelectedGrows(order, rows, round, k + 1);
    assert order[..k + 1][..k] == order[..k];
    AtMostFifty(order[..k], rows, round);
    if |Selected(order[..k], rows, round)| < 50 {
      var upto := Selected(order[..k + 1], rows, round);
      assert upto[|upto| - 1] == order[k];
    }
  }

  lemma {:induction false} AtMostFifty(order: seq<int>, rows: map<int, Stored>, round: Round)
    ensures |Selected(order, rows, round)| <= 50
  {
    if |order| > 0 {
      AtMostFifty(order[..|order| - 1], rows, round);
    }
  }

  function Present(ids: seq<int>, keys: set<int>): seq<int> {
    if |ids| == 0 then []
    else Present(ids[..|ids| - 1], keys) + if ids[|ids| - 1] in keys then [ids[|ids| - 1]] else []
  }

  lemma {:induction false} PresentAll(ids: seq<int>, keys: set<int>)
    requires forall id :: id in ids ==> id in keys
    ensures Present(ids, keys) == ids
  {
    if |ids| > 0 {
      var front, last := ids[..|ids| - 1], ids[|ids| - 1];
      PresentAll(front, keys);
      assert last in ids;
      assert Present(ids, keys) == front + [last] == ids;
    }
  }

  function Ids(txs: seq<Transaction>): (ids: seq<int>)
    ensures |ids| == |txs| && forall k :: 0 <= k < |ids| ==> ids[k] == txs[k].id
  {
    if |txs| == 0 then [] else Ids(txs[..|txs| - 1]) + [txs[|txs| - 1].id]
  }

  /** The states in which a loaded row can be: the id was selected earlier. */
  predicate Takes(s: TxState, completes: bool) {
    if completes then s == Approved || s == Reversed else s != Received && s != FraudChecking
  }

  /** The pass ends with a published result. */
  predicate Resolves(s: TxState, completes: bool, confirmed: bool) {
    confirmed && if completes then s == Approved else s == Processing || s == Indeterminate
  }

  function CountResolved(ids: seq<int>, rows: map<int, Stored>, round: Round): nat {
    if |ids| == 0 then 0
    else
      var id := ids[|ids| - 1];
      CountResolved(ids[..|ids| - 1], rows, round)
      + if id in rows && Resolves(rows[id].state, round.completes, round.confirms(id)) then 1 else 0
  }

  /** How many reversals the host confirms. */
  function CountConfirmed(ids: seq<int>, confirms: int -> bool): nat {
    if |ids| == 0 then 0
    else CountConfirmed(ids[..|ids| - 1], confirms) + if confirms(ids[|ids| - 1]) then 1 else 0
  }

  /** Every listed transaction whose reversal the host confirms is resolved. */
  lemma {:induction false} ListedResolve(ids: seq<int>, rows: map<int, Stored>, round: Round)
    requires forall id :: id in ids ==> Selects(rows, id, round)
    ensures CountResolved(ids, rows, round) == CountConfirmed(ids, round.confirms)
  {
    if |ids| > 0 {
      ListedResolve(ids[..|ids| - 1], rows, round);
      assert ids[|ids| - 1] in ids;
    }
  }

  /** What one undisturbed pass of reconcile, or of completeReversal, does to a transaction. */
  function Passed(o: Outcome, completes: bool, confirmed: bool): Outcome {
    match o.row
    case None => o
    case Some(r) =>
      if completes then
        if confirmed && r.state == Approved then Won(o, Approved, Reversed) else o
      else if r.state == Processing then
        var m := Won(o, Processing, Indeterminate);
        if confirmed then Won(m, Indeterminate, Rejected) else m
      else if confirmed && r.state == Indeterminate then Won(o, Indeterminate, Rejected)
      else o
  }

  lemma PassedIsSteps(o: Outcome, completes: bool, confirmed: bool)
    requires o.row.Some? && Takes(o.row.value.state, completes)
    ensures var s := o.row.value.state;
            Passed(o, completes, confirmed) ==
            if completes then Left(Undo(Alone(o, Undoing(s, true)), confirmed))
            else Left(Undo(Step(Alone(o, Loaded(s)), Mark(0)), confirmed))
  {
    if completes {
      UndoIs(Alone(o, Undoing(o.row.value.state, true)), o.row.value.state, true, confirmed);
    } else {
      ReconcileIs(o, o.row.value.state, confirmed);
    }
  }

  /** The table and what was published. */
  datatype Tables = Tables(rows: map<int, Stored>, published: seq<Sent>)
  {
    function View(id: int): Outcome { ViewOf(rows, published, id) }
  }

  /** The listed transactions took one pass each, and the others none. */
  ghost predicate AllPassed(ids: seq<int>, round: Round, was: Tables, now: Tables) {
    forall id :: now.View(id) ==
                 if id in ids then Passed(was.View(id), round.completes, round.confirms(id)) else was.View(id)
  }

  lemma StillThere(ids: seq<int>, round: Round, was: Tables, now: Tables, id: int)
    requires AllPassed(ids, round, was, now) && id !in ids && id in was.rows
    ensures id in now.rows && now.rows[id].state == was.rows[id].state
  {
    assert now.View(id) == was.View(id);
  }

  datatype Counts = Counts(resolved: nat, failed: nat)
  {
    function Add(done: bool): Counts { if done then Counts(resolved + 1, failed) else Counts(resolved, failed + 1) }
  }

  /** All that the loop has done for these ids, with its counts. */
  ghost predicate Turned(ids: seq<int>, round: Round, was: Tables, now: Tables, counts: Counts) {
    && AllPassed(ids, round, was, now)
    && |now.published| == |was.published| + counts.resolved
    && counts.resolved == CountResolved(ids, was.rows, round) && counts.failed == |ids| - counts.resolved
  }

  /** Each of these took one pass; as many as the host confirms were resolved and published, and the
      others failed. */
  ghost predicate Swept(ids: seq<int>, round: Round, was: Tables, now: Tables, counts: Counts) {
    && AllPassed(ids, round, was, now)
    && |now.published| == |was.published| + counts.resolved
    && counts.resolved == CountConfirmed(ids, round.confirms) && counts.failed == |ids| - counts.resolved
  }

  /** A listed row whose reversal the host confirms ends in REJECTED, or in REVERSED, with its result published. */
  lemma SweptEnds(ids: seq<int>, round: Round, was: Tables, now: Tables, counts: Counts, id: int)
    requires Swept(ids, round, was, now, counts) && id in ids && round.confirms(id)
    requires id in was.rows && NeedsPass(was.rows[id], round.completes, round.due(id))
    ensures var final := if round.completes then Reversed else Rejected;
            && id in now.rows && now.rows[id].state == final && now.rows[id].requested == was.rows[id].requested
            && Tally(now.published, id) == Tally(was.published, id).Plus(final)
  {
    assert now.View(id) == Passed(was.View(id), round.completes, true);
  }

  /** A row that the round does not list stays in its state, and so does its tally. */
  lemma SweptLeaves(ids: seq<int>, round: Round, was: Tables, now: Tables, counts: Counts, id: int)
    requires Swept(ids, round, was, now, counts) && id in was.rows
    requires id !in ids || (round.completes && was.rows[id].state == Rejected)
    ensures id in now.rows && now.rows[id].state == was.rows[id].state
    ensures Tally(now.published, id) == Tally(was.published, id)
  {
    assert now.View(id) == was.View(id);
  }

  /** The k-th row is unresolved, fewer than fifty come before it, and the host confirms its reversal. */
  predicate Reachable(order: seq<int>, k: nat, rows: map<int, Stored>, round: Round) {
    && k < |order| && order[k] in rows && NeedsPass(rows[order[k]], false, round.due(order[k]))
    && round.confirms(order[k]) && |Selected(order[..k], rows, round)| < 50
  }

  /** Both rounds: an unresolved row that is listed, and whose reversal the host confirms, ends in REJECTED. */
  lemma RoundsReject(order: seq<int>, unresolved: Round, requestOrder: seq<int>, pending: Round,
                     was: Tables, mid: Tables, now: Tables, first: Counts, second: Counts, k: nat)
    requires !unresolved.completes && pending.completes && k < |order| && unresolved.confirms(order[k])
    requires Swept(Selected(order, was.rows, unresolved), unresolved, was, mid, first)
    requires Swept(Selected(requestOrder, mid.rows, pending), pending, mid, now, second)
    requires order[k] in was.rows && NeedsPass(was.rows[order[k]], false, unresolved.due(order[k]))
    requires |Selected(order[..k], was.rows, unresolved)| < 50
    ensures order[k] in now.rows && now.rows[order[k]].state == Rejected
    ensures Tally(now.published, order[k]) == Tally(was.published, order[k]).Plus(Rejected)
  {
    ListedUnlessFifty(order, was.rows, unresolved, k);
    SweptEnds(Selected(order, was.rows, unresolved), unresolved, was, mid, first, order[k]);
    SweptLeaves(Selected(requestOrder, mid.rows, pending), pending, mid, now, second, order[k]);
  }

  lemma OneMorePassed(ids: seq<int>, id: int, round: Round, was: Tables, mid: Tables, now: Tables)
    requires AllPassed(ids, round, was, mid) && id !in ids
    requires now.View(id) == Passed(mid.View(id), round.completes, round.confirms(id))
    requires forall other :: other != id ==> now.View(other) == mid.View(other)
    ensures AllPassed(ids + [id], round, was, now)
  {
    forall any ensures now.View(any) ==
                       if any in ids + [id] then Passed(was.View(any), round.completes, round.confirms(any))
                       else was.View(any) {
      assert any in ids + [id] <==> any in ids || any == id;
    }
  }

  lemma OneMoreCounted(ids: seq<int>, id: int, rows: map<int, Stored>, round: Round)
    requires id in rows
    ensures CountResolved(ids + [id], rows, round)
         == CountResolved(ids, rows, round)
            + if Resolves(rows[id].state, round.completes, round.confirms(id)) then 1 else 0
  {
    assert (ids + [id])[..|ids|] == ids;
  }

  lemma OneMoreTurn(ids: seq<int>, id: int, round: Round, was: Tables, mid: Tables, now: Tables, counts: Counts,
                    done: bool)
    requires Turned(ids, round, was, mid, counts) && id !in ids && id in was.rows
    requires now.View(id) == Passed(mid.View(id), round.completes, round.confirms(id))
    requires forall other :: other != id ==> now.View(other) == mid.View(other)
    requires |now.published| == |mid.published| + if done then 1 else 0
    requires done <==> Resolves(was.rows[id].state, round.completes, round.confirms(id))
    ensures Turned(ids + [id], round, was, now, counts.Add(done))
  {
    OneMorePassed(ids, id, round, was, mid, now);
    OneMoreCounted(ids, id, was.rows, round);
  }

  // ----- the stored columns -----

  /** A new row: a blocked card is rejected at once. */
  function Arrived(blocked: bool): Stored {
    if blocked then Stored(Rejected, false, None, Some(BLOCKLIST)) else Stored(FraudChecking, false, None, None)
  }

  function Scored(requested: bool, reject: bool): Stored {
    if reject then Stored(Rejected, requested, None, Some(FRAUD)) else Stored(Processing, requested, None, None)
  }

  /** A reversal is recorded while the sale goes on or once it is approved. */
  predicate TakesRequest(s: TxState) {
    s == FraudChecking || s == Processing || s == Approved
  }

  /** An approval whose code cannot be read is left for the reconciler. */
  predicate Unreadable(r: Response) {
    r.Replied? && r.approved && r.code.None?
  }

  /** The row after the acquirer's call. */
  function AnswerStored(requested: bool, r: Response): Stored
    requires !Unreadable(r)
  {
    match r
    case Failed => Stored(Indeterminate, requested, None, None)
    case NotSentAtAll => Stored(Rejected, requested, None, Some(UNAVAILABLE))
    case Replied(approved, code) =>
      if approved then Stored(Approved, requested, code, None)
      else Stored(Rejected, requested, None, Some(code.GetOr(UNKNOWN_RESPONSE)))
  }

  /** reconcile changes a row that is as it was loaded. */
  predicate Taken(s: TxState, confirmed: bool) {
    s == Processing || (s == Indeterminate && confirmed)
  }

  function Reconciled(requested: bool, confirmed: bool): Stored {
    if confirmed then Stored(Rejected, requested, None, Some(TIMEOUT)) else Stored(Indeterminate, requested, None, None)
  }

  class Service {
    var rows: map<int, Stored>
    var processed: set<int>
    var published: seq<Sent>

    constructor ()
      ensures rows == map[] && processed == {} && published == []
    {
      rows, processed, published := map[], {}, [];
    }

    predicate ResultsStored()
      reads this
    {
      forall id :: id in rows ==> HasResult(rows[id].state, rows[id].authCode, rows[id].rejectionCode)
    }

    function View(id: int): Outcome
      reads this
    {
      ViewOf(rows, published, id)
    }

    function Now(): Tables
      reads this
    {
      Tables(rows, published)
    }

    twostate predicate OthersUnchanged(id: int)
      reads this
    {
      forall other :: other != id ==> ViewOf(rows, published, other) == ViewOf(old(rows), old(published), other)
    }

    method Publish(id: int, state: TxState)
      modifies this`published
      ensures published == old(published) + [Sent(id, state)]
      ensures View(id) == old(View(id)).(published := old(View(id)).published.Plus(state))
      ensures OthersUnchanged(id)
    {
      ghost var log := published;
      published := published + [Sent(id, state)];
      forall any ensures Tally(published, any) == if any == id then Tally(log, any).Plus(state) else Tally(log, any) {
        TallyAppend(log, Sent(id, state), any);
      }
    }

    /** InsertTx: ON CONFLICT (id) DO NOTHING. */
    method InsertTx(t: Transaction) returns (created: bool)
      requires ResultsStored() && HasResult(t.state, t.authCode, t.rejectionCode)
      modifies this`rows
      ensures ResultsStored()
      ensures created <==> t.id !in old(rows)
      ensures rows == if created then old(rows)[t.id := Stored(t.state, false, t.authCode, t.rejectionCode)]
                      else old(rows)
    {
      created := t.id !in rows;
      if created {
        rows := rows[t.id := Stored(t.state, false, t.authCode, t.rejectionCode)];
      }
    }

    /** saveIfState: the condition is evaluated with the update; the reversal request is kept. */
    method SaveIfState(t: Transaction, expected: TxState) returns (saved: bool)
      requires ResultsStored() && HasResult(t.state, t.authCode, t.rejectionCode)
      modifies this`rows
      ensures ResultsStored()
      ensures saved <==> old(View(t.id)).row.Some? && old(View(t.id)).row.value.state == expected
      ensures rows == if saved
                      then old(rows)[t.id := Stored(t.state, old(rows)[t.id].requested, t.authCode, t.rejectionCode)]
                      else old(rows)
      ensures saved ==> View(t.id).row == Some(old(View(t.id)).row.value.(state := t.state))
      ensures OthersUnchanged(t.id) && View(t.id).published == old(View(t.id).published)
    {
      saved := t.id in rows && rows[t.id].state == expected;
      if saved {
        rows := rows[t.id := Stored(t.state, rows[t.id].requested, t.authCode, t.rejectionCode)];
      }
    }

    /** FindByID. */
    method FindByID(id: int) returns (t: Option<Transaction>)
      requires ResultsStored()
      ensures t.Some? <==> id in rows
      ensures t.Some? ==> fresh(t.value) && t.value.id == id && t.value.state == rows[id].state
      ensures t.Some? ==> t.value.authCode == rows[id].authCode && t.value.rejectionCode == rows[id].rejectionCode
      ensures t.Some? ==> HasResult(t.value.state, t.value.authCode, t.value.rejectionCode)
    {
      if id !in rows {
        return None;
      }
      var r := rows[id];
      var found := new Transaction(id, r.state, r.authCode, r.rejectionCode);
      return Some(found);
    }

    /** TryMarkAsProcessed. */
    method TryMarkAsProcessed(ev: int) returns (inserted: bool)
      modifies this`processed
      ensures inserted <==> ev !in old(processed)
      ensures processed == old(processed) + {ev}
    {
      inserted := ev !in processed;
      processed := processed + {ev};
    }

    /** AuthorizeTransaction and rejectBlockedCard, for a valid command. */
    method AuthorizeTransaction(ev: int, id: int, blocked: bool)
      requires ResultsStored()
      modifies this
      ensures ResultsStored() && OthersUnchanged(id) && processed == old(processed) + {ev}
      ensures View(id) == if ev in old(processed) then old(View(id))
                          else Left(Step(Insert(Unattended(old(View(id))), blocked), Act.Publish(0)))
      ensures var created := ev !in old(processed) && id !in old(rows);
              && rows == (if created then old(rows)[id := Arrived(blocked)] else old(rows))
              && published == old(published) + if created && blocked then [Sent(id, Rejected)] else []
    {
      var t := new Transaction(id, Received, None, None);
      var ok: bool;
      if blocked {
        ok := t.Reject(BLOCKLIST);
      } else {
        ok := t.Transition(FraudChecking);
      }
      var inserted := TryMarkAsProcessed(ev);
      if !inserted {
        return;
      }
      var created := InsertTx(t);
      if created && blocked {
        Publish(id, Rejected);
      }
    }

    /** ApplyFraudScore, up to the acquirer call. A missing transaction fails, and marks nothing. */
    method ApplyFraudScore(ev: int, id: int, reject: bool) returns (failed: bool, advanced: Option<Transaction>)
      requires ResultsStored()
      modifies this
      ensures ResultsStored() && OthersUnchanged(id)
      ensures failed <==> ev !in old(processed) && id !in old(rows)
      ensures processed == if failed then old(processed) else old(processed) + {ev}
      ensures View(id) == if ev in old(processed) then old(View(id))
                          else Left(Step(ApplyScore(Unattended(old(View(id))), reject), Act.Publish(0)))
      ensures var scored := ev !in old(processed) && id in old(rows) && old(rows)[id].state == FraudChecking;
              && rows == (if scored then old(rows)[id := Scored(old(rows)[id].requested, reject)] else old(rows))
              && published == old(published) + if scored && reject then [Sent(id, Rejected)] else []
      ensures advanced.Some? <==> ev !in old(processed) && !reject && InState(Unattended(old(View(id))), FraudChecking)
      ensures advanced.Some? ==> fresh(advanced.value) && advanced.value.id == id && advanced.value.state == Processing
    {
      if ev in processed {
        return false, None;
      }
      var found := FindByID(id);
      if found.None? {
        return true, None;
      }
      var inserted := TryMarkAsProcessed(ev);
      var t := found.value;
      if t.state != FraudChecking {
        return false, None;
      }
      var ok := t.ApplyFraudDecision(reject);
      var saved := SaveIfState(t, FraudChecking);
      if t.state == Rejected {
        Publish(id, Rejected);
        return false, None;
      }
      return false, Some(t);
    }

    /** MarkReversalRequestedTx. */
    method MarkReversalRequested(id: int)
      requires ResultsStored() && id in rows
      modifies this`rows
      ensures ResultsStored() && rows == old(rows)[id := old(rows)[id].(requested := true)]
    {
      rows := rows[id := rows[id].(requested := true)];
    }

    /** ProcessReversal, up to the call to the host. */
    method ProcessReversal(ev: int, id: int) returns (failed: bool, reverse: Option<Transaction>)
      requires ResultsStored()
      modifies this`rows, this`processed
      ensures ResultsStored() && OthersUnchanged(id)
      ensures failed <==> ev !in old(processed) && id !in old(rows)
      ensures processed == if failed then old(processed) else old(processed) + {ev}
      ensures View(id) == if ev in old(processed) || failed then old(View(id))
                          else Left(Request(Unattended(old(View(id)))))
      ensures var marked := ev !in old(processed) && id in old(rows) && TakesRequest(old(rows)[id].state);
              rows == if marked then old(rows)[id := old(rows)[id].(requested := true)] else old(rows)
      ensures reverse.Some? <==> ev !in old(processed) && InState(Unattended(old(View(id))), Approved)
      ensures reverse.Some? ==> fresh(reverse.value) && reverse.value.id == id && reverse.value.state == Approved
    {
      if ev in processed {
        return false, None;
      }
      var found := FindByID(id);
      if found.None? {
        return true, None;
      }
      var inserted := TryMarkAsProcessed(ev);
      match found.value.state {
        case Approved =>
          MarkReversalRequested(id);
          return false, found;
        case FraudChecking => MarkReversalRequested(id);
        case Processing => MarkReversalRequested(id);
        case _ =>
      }
      return false, None;
    }

    /** callAcquirer, for a transaction that this process moved to PROCESSING. */
    method CallAcquirer(t: Transaction, r: Response)
      requires ResultsStored() && t.state == Processing && HasResult(t.state, t.authCode, t.rejectionCode)
      modifies this`rows, this`published, t
      ensures ResultsStored()
      ensures View(t.id) == Left(Call(Alone(old(View(t.id)), Advanced), r)) && OthersUnchanged(t.id)
      ensures var won := t.id in old(rows) && old(rows)[t.id].state == Processing && !Unreadable(r);
              && rows == (if won then old(rows)[t.id := AnswerStored(old(rows)[t.id].requested, r)] else old(rows))
              && published == old(published)
                 + if won && !r.Failed? then [Sent(t.id, AnswerStored(false, r).state)] else []
    {
      CallIs(View(t.id), r);
      var ok: bool;
      match r {
        case Failed =>
          ok := t.Transition(Indeterminate);
          var _ := SaveIfState(t, Processing);
          return;
        case NotSentAtAll => ok := t.Reject(UNAVAILABLE);
        case Replied(approved, code) =>
          if approved && code.None? {
            return;
          }
          if approved {
            ok := t.Approve(code.value);
          } else {
            ok := t.Reject(code.GetOr(UNKNOWN_RESPONSE));
          }
      }
      var saved := SaveIfState(t, Processing);
      if saved {
        Publish(t.id, t.state);
      }
    }

    /** completeReversal, given whether the host confirmed the reversal. */
    method CompleteReversal(t: Transaction, confirmed: bool) returns (failed: bool, done: bool)
      requires ResultsStored() && HasResult(t.state, t.authCode, t.rejectionCode)
      requires t.state == Approved || t.state == Reversed
      modifies this`rows, this`published, t
      ensures ResultsStored()
      ensures View(t.id) == Left(Undo(Alone(old(View(t.id)), Undoing(old(t.state), true)), confirmed))
              && OthersUnchanged(t.id)
      ensures published == old(published) + if done then [Sent(t.id, Reversed)] else []
      ensures failed <==> !confirmed || old(t.state) == Reversed
      ensures done <==> !failed && t.id in old(rows) && old(rows)[t.id].state == Approved
      ensures rows == if done
                      then old(rows)[t.id :=
                                     Stored(Reversed, old(rows)[t.id].requested, old(t.authCode), old(t.rejectionCode))]
                      else old(rows)
    {
      UndoIs(Alone(View(t.id), Undoing(t.state, true)), t.state, true, confirmed);
      if !confirmed {
        return true, false;
      }
      var ok := t.Transition(Reversed);
      if !ok {
        return true, false;
      }
      var saved := SaveIfState(t, Approved);
      if !saved {
        return false, false;
      }
      Publish(t.id, Reversed);
      return false, true;
    }

    /** reconcile. */
    method Reconcile(t: Transaction, confirmed: bool) returns (failed: bool, done: bool)
      requires ResultsStored() && HasResult(t.state, t.authCode, t.rejectionCode)
      requires t.state != Received && t.state != FraudChecking
      modifies this`rows, this`published, t
      ensures ResultsStored()
      ensures View(t.id) == Left(Undo(Step(Alone(old(View(t.id)), Loaded(old(t.state))), Mark(0)), confirmed))
      ensures OthersUnchanged(t.id)
      ensures published == old(published) + if done then [Sent(t.id, Rejected)] else []
      ensures failed ==> !done
      ensures t.id in old(rows) && old(rows)[t.id].state == old(t.state) ==>
                (done <==> Resolves(old(t.state), false, confirmed)) && (failed <==> !done)
      ensures rows == if t.id in old(rows) && old(rows)[t.id].state == old(t.state) && Taken(old(t.state), confirmed)
                      then old(rows)[t.id := Reconciled(old(rows)[t.id].requested, confirmed)]
                      else old(rows)
    {
      ReconcileIs(View(t.id), t.state, confirmed);
      if t.state == Processing {
        var ok := t.Transition(Indeterminate);
        var saved := SaveIfState(t, Processing);
        if !saved {
          return false, false;
        }
      }
      if !confirmed {
        return true, false;
      }
      failed, done := RejectReversed(t);
    }

    /** The end of reconcile, once the host confirmed the reversal. */
    method RejectReversed(t: Transaction) returns (failed: bool, done: bool)
      requires ResultsStored() && HasResult(t.state, t.authCode, t.rejectionCode)
      modifies this`rows, this`published, t
      ensures ResultsStored() && OthersUnchanged(t.id)
      ensures failed <==> !CanTransition(old(t.state), Rejected)
      ensures done <==> !failed && t.id in old(rows) && old(rows)[t.id].state == Indeterminate
      ensures View(t.id) == if failed then old(View(t.id)) else Won(old(View(t.id)), Indeterminate, Rejected)
      ensures published == old(published) + if done then [Sent(t.id, Rejected)] else []
      ensures rows == if done then old(rows)[t.id := Reconciled(old(rows)[t.id].requested, true)] else old(rows)
    {
      var ok := t.Reject(TIMEOUT);
      if !ok {
        return true, false;
      }
      var saved := SaveIfState(t, Indeterminate);
      if !saved {
        return false, false;
      }
      Publish(t.id, Rejected);
      return false, true;
    }

    /** loadByIDs: a row that is gone is skipped. */
    method LoadByIDs(ids: seq<int>) returns (txs: seq<Transaction>)
      requires ResultsStored()
      ensures |txs| == |Present(ids, rows.Keys)|
      ensures forall k :: 0 <= k < |txs| ==> fresh(txs[k]) && Holds(txs[k]) && txs[k].id == Present(ids, rows.Keys)[k]
      ensures forall j, k :: 0 <= j < k < |txs| ==> txs[j] != txs[k]
    {
      txs := [];
      for i := 0 to |ids|
        invariant |txs| == |Present(ids[..i], rows.Keys)|
        invariant forall k :: 0 <= k < |txs| ==>
                  fresh(txs[k]) && Holds(txs[k]) && txs[k].id == Present(ids[..i], rows.Keys)[k]
        invariant forall j, k :: 0 <= j < k < |txs| ==> txs[j] != txs[k]
      {
        assert ids[..i + 1][..i] == ids[..i];
        var t := FindByID(ids[i]);
        if t.Some? {
          txs := txs + [t.value];
        }
      }
      assert ids[..|ids|] == ids;
    }

    /** The aggregate is the stored row. */
    predicate Holds(t: Transaction)
      reads this, t
    {
      t.id in rows && t.state == rows[t.id].state && HasResult(t.state, t.authCode, t.rejectionCode)
    }

    /** reconcile or completeReversal of a row that is as it was loaded. */
    method Pass(t: Transaction, completes: bool, confirmed: bool) returns (failed: bool, done: bool)
      requires ResultsStored() && Holds(t) && Takes(t.state, completes)
      modifies this`rows, this`published, t
      ensures ResultsStored()
      ensures View(t.id) == Passed(old(View(t.id)), completes, confirmed) && OthersUnchanged(t.id)
      ensures |published| == |old(published)| + if done then 1 else 0
      ensures (done <==> Resolves(old(t.state), completes, confirmed)) && (failed <==> !done)
    {
      PassedIsSteps(View(t.id), completes, confirmed);
      if completes {
        failed, done := CompleteReversal(t, confirmed);
      } else {
        failed, done := Reconcile(t, confirmed);
      }
    }

    /** One turn of the loop below, for the next listed id. */
    method PassNext(t: Transaction, round: Round, counts: Counts, ghost ids: seq<int>, ghost was: Tables)
      returns (more: Counts)
      requires ResultsStored() && Turned(ids, round, was, Now(), counts)
      requires t.id !in ids && t.id in was.rows && t.state == was.rows[t.id].state
      requires Takes(t.state, round.completes) && HasResult(t.state, t.authCode, t.rejectionCode)
      modifies this`rows, this`published, t
      ensures ResultsStored() && Turned(ids + [t.id], round, was, Now(), more)
    {
      ghost var mid := Now();
      StillThere(ids, round, was, mid, t.id);
      var failed, done := Pass(t, round.completes, round.confirms(t.id));
      OneMoreTurn(ids, t.id, round, was, mid, Now(), counts, done);
      more := counts.Add(done);
    }

    /** The loops of ReconcileUnresolved, given which reversals the host confirms. */
    method ReconcileEach(txs: seq<Transaction>, round: Round) returns (counts: Counts)
      requires ResultsStored()
      requires forall k :: 0 <= k < |txs| ==> Holds(txs[k]) && Takes(txs[k].state, round.completes)
      requires Distinct(Ids(txs))
      modifies this`rows, this`published, txs
      ensures ResultsStored() && Turned(Ids(txs), round, old(Now()), Now(), counts)
    {
      counts := Counts(0, 0);
      ghost var ids, was := Ids(txs), Now();
      var n := |txs|;
      for i := 0 to n
        invariant ResultsStored()
        invariant forall k :: i <= k < n ==> unchanged(txs[k])
        invariant Turned(ids[..i], round, was, Now(), counts)
      {
        var t := txs[i];
        counts := PassNext(t, round, counts, ids[..i], was);
        assert ids[..i + 1] == ids[..i] + [t.id];
        forall k | i < k < n ensures txs[k] != t {
          assert ids[k] != ids[i];
        }
      }
      assert ids[..n] == ids;
    }

    /** FindUnresolved and FindPendingReversals: the ids, in the order of the query. */
    method ListIds(order: seq<int>, round: Round) returns (ids: seq<int>)
      ensures ids == Selected(order, rows, round)
    {
      ids := [];
      for i := 0 to |order|
        invariant ids == Selected(order[..i], rows, round)
      {
        assert order[..i + 1][..i] == order[..i];
        if |ids| < RECONCILE_BATCH && Selects(rows, order[i], round) {
          ids := ids + [order[i]];
        }
      }
      assert order[..|order|] == order;
    }

    /** List, load and reconcile. */
    method Sweep(order: seq<int>, round: Round) returns (counts: Counts)
      requires ResultsStored() && Distinct(order)
      modifies this`rows, this`published
      ensures ResultsStored()
      ensures Swept(Selected(order, old(rows), round), round, old(Now()), Now(), counts)
    {
      var ids := ListIds(order, round);
      SelectedIds(order, rows, round);
      PresentAll(ids, rows.Keys);
      var txs := LoadByIDs(ids);
      assert Ids(txs) == ids;
      forall k | 0 <= k < |txs| ensures Holds(txs[k]) && Takes(txs[k].state, round.completes) {
        assert ids[k] in ids;
      }
      ListedResolve(ids, rows, round);
      counts := ReconcileEach(txs, round);
    }

    /** ReconcileUnresolved: first the unresolved, then the pending reversals. */
    method ReconcileUnresolved(order: seq<int>, unresolved: Round, requestOrder: seq<int>, pending: Round)
      returns (resolved: nat, failed: nat, ghost mid: Tables, ghost first: Counts, ghost second: Counts)
      requires ResultsStored() && Distinct(order) && Distinct(requestOrder)
      requires !unresolved.completes && pending.completes
      modifies this`rows, this`published
      ensures ResultsStored()
      ensures Swept(Selected(order, old(rows), unresolved), unresolved, old(Now()), mid, first)
      ensures Swept(Selected(requestOrder, mid.rows, pending), pending, mid, Now(), second)
      ensures resolved == first.resolved + second.resolved && failed == first.failed + second.failed
      ensures forall k :: 0 <= k < |order| && Reachable(order, k, old(rows), unresolved) ==>
                order[k] in rows && rows[order[k]].state == Rejected
    {
      ghost var was := Now();
      var counts := Sweep(order, unresolved);
      mid, first := Now(), counts;
      var more := Sweep(requestOrder, pending);
      second := more;
      forall k | 0 <= k < |order| && Reachable(order, k, was.rows, unresolved)
        ensures order[k] in rows && rows[order[k]].state == Rejected
      {
        RoundsReject(order, unresolved, requestOrder, pending, was, mid, Now(), first, second, k);
      }
      resolved, failed := counts.resolved + more.resolved, counts.failed + more.failed;
    }
  }
}
