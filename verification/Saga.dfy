/** The authorization saga of one transaction, seen from outside: its row, the host's own record of the
    charge, the program counters of every handler and reconciler, and what was published. A step is one
    database transaction, one conditional save, one message to or from the host, or one publication;
    any of them can be the last thing a process does. */
module Saga {
  import opened Options

  /** valueobject/state.go. */
  datatype TxState = Received | FraudChecking | Processing | Approved | Rejected | Indeterminate | Reversed

  predicate CanTransition(s: TxState, next: TxState) {
    match s
    case Received => next == FraudChecking || next == Rejected
    case FraudChecking => next == Processing || next == Rejected
    case Processing => next == Approved || next == Rejected || next == Indeterminate
    case Indeterminate => next == Reversed || next == Approved || next == Rejected
    case Approved => next == Reversed
    case _ => false
  }

  /** A row of pn_authorization.transactions: its state, and whether reversal_requested_at is set. */
  datatype TxRow = TxRow(state: TxState, requested: bool)

  /** Where the authorization message is. A message in flight was overtaken when the host handled a
      reversal after it was sent. */
  datatype Auth = NotSent | InFlight(overtaken: bool) | Decided(approved: bool)

  datatype Charge = Free | Live | Voided

  /** `confirmations` are answers to reversals on their way back. They carry the reference of the
      transaction and not of the call, so that any call that waits can take one. */
  datatype Host = Host(auth: Auth, charge: Charge, reversalSent: bool, confirmations: nat)

  /** Program counter of a handler or a reconciler, with the aggregate state it holds in memory.
      `completes` tells completeReversal from reconcile. */
  datatype Worker =
    | Gone
    | Advanced                                    // moved the row to PROCESSING, waits for a slot
    | Calling(sent: bool)                         // inside acquirer.Authorize
    | Answered(result: TxState)                   // holds the result, before saving it
    | Listed(completes: bool)                     // has the id, not yet the row
    | Loaded(state: TxState)                      // reconcile, with the row it loaded
    | Undoing(state: TxState, completes: bool)    // inside acquirer.Reverse
    | Undone(state: TxState, completes: bool)     // it took a confirmation
    | Winner(state: TxState)                      // its save won, before publishing

  /** How many of each result were published. */
  datatype Published = Published(approved: nat, rejected: nat, reversed: nat)
  {
    function Of(s: TxState): nat {
      match s
      case Approved => approved
      case Rejected => rejected
      case Reversed => reversed
      case _ => 0
    }

    function Plus(s: TxState): Published {
      match s
      case Approved => this.(approved := approved + 1)
      case Rejected => this.(rejected := rejected + 1)
      case Reversed => this.(reversed := reversed + 1)
      case _ => this
    }
  }

  datatype Local = Local(
    row: Option<TxRow>, host: Host, workers: seq<Worker>,
    calls: nat, published: Published, saves: seq<TxState>)

  const NEW := Local(None, Host(NotSent, Free, false, 0), [], 0, Published(0, 0, 0), [])

  datatype Act =
    | Arrive(ev: int, blocked: bool)     // AuthorizeTransaction
    | Score(ev: int, reject: bool)       // ApplyFraudScore
    | RequestReversal(ev: int)           // ProcessReversal
    | StartCall(i: nat)
    | Send(i: nat)
    | HostDecides(approve: bool)
    | Answer(i: nat)
    | NeverSent(i: nat)                  // ErrNotSent
    | TimeOut(i: nat)                    // any other error of Authorize
    | SaveAnswer(i: nat)
    | Publish(i: nat)
    | Crash(i: nat)
    | List(completes: bool)              // FindUnresolved, FindPendingReversals: the ids
    | Load(i: nat)                       // and the row, later
    | Mark(i: nat)                       // reconcile, up to the call
    | SendReversal(i: nat)
    | HostUndoes                         // the host handles a reversal it was sent, and confirms it
    | Receive(i: nat)                    // a waiting call takes a confirmation
    | LoseConfirmation                   // nobody waits for it, or the connection is lost
    | SaveUndone(i: nat)
  {
    predicate HasEvent() { Arrive? || Score? || RequestReversal? }
  }

  function At(l: Local, i: nat): Worker {
    if i < |l.workers| then l.workers[i] else Gone
  }

  function Put(l: Local, i: nat, w: Worker): Local {
    if i < |l.workers| then l.(workers := l.workers[i := w]) else l
  }

  function Spawn(l: Local, w: Worker): Local {
    l.(workers := l.workers + [w])
  }

  predicate InState(l: Local, s: TxState) {
    l.row.Some? && l.row.value.state == s
  }

  /** saveIfState: UPDATE ... WHERE state = expected. A save leaves reversal_requested_at alone. */
  function SaveIfState(l: Local, expected: TxState, next: TxState): Option<Local> {
    if InState(l, expected) then
      Some(l.(row := Some(l.row.value.(state := next)), saves := l.saves + [next]))
    else None
  }

  /** AuthorizeTransaction and rejectBlockedCard: ON CONFLICT (id) DO NOTHING. */
  function Insert(l: Local, blocked: bool): Local {
    var state := if blocked then Rejected else FraudChecking;
    if l.row.Some? then l
    else
      var n := l.(row := Some(TxRow(state, false)), saves := l.saves + [state]);
      if blocked then Spawn(n, Winner(Rejected)) else n
  }

  function ApplyScore(l: Local, reject: bool): Local {
    match SaveIfState(l, FraudChecking, if reject then Rejected else Processing)
    case None => l
    case Some(n) => Spawn(n, if reject then Winner(Rejected) else Advanced)
  }

  function Request(l: Local): Local
    requires l.row.Some?
  {
    var n := l.(row := Some(l.row.value.(requested := true)));
    match l.row.value.state
    case Approved => Spawn(n, Undoing(Approved, true))
    case FraudChecking => n
    case Processing => n
    case _ => l
  }

  /** A conditional save by worker i: the winner publishes, except for INDETERMINATE. */
  function SaveBy(l: Local, i: nat, expected: TxState, next: TxState): Local {
    match SaveIfState(l, expected, next)
    case None => Put(l, i, Gone)
    case Some(n) => Put(n, i, if next == Indeterminate then Gone else Winner(next))
  }

  predicate Unresolved(l: Local, completes: bool) {
    if completes then InState(l, Approved) && l.row.value.requested
    else InState(l, Processing) || InState(l, Indeterminate)
  }

  function LoadRow(l: Local, i: nat, completes: bool): Local {
    if l.row.None? then Put(l, i, Gone)
    else Put(l, i, if completes then Undoing(l.row.value.state, true) else Loaded(l.row.value.state))
  }

  /** reconcile: a row loaded as PROCESSING is first taken to INDETERMINATE. */
  function MarkLoaded(l: Local, i: nat, state: TxState): Local {
    if state == Processing then
      match SaveIfState(l, Processing, Indeterminate)
      case None => Put(l, i, Gone)
      case Some(n) => Put(n, i, Undoing(Indeterminate, false))
    else Put(l, i, Undoing(state, false))
  }

  /** tx.Reverse() or tx.Reject() on the loaded aggregate, and then the save. */
  function FinishUndone(l: Local, i: nat, state: TxState, completes: bool): Local {
    var next := if completes then Reversed else Rejected;
    if CanTransition(state, next) then SaveBy(l, i, if completes then Approved else Indeterminate, next)
    else Put(l, i, Gone)
  }

  /** An authorization that is decided later was overtaken. */
  function HostReverse(h: Host): Host {
    h.(confirmations := h.confirmations + 1,
       charge := if h.charge == Live then Voided else h.charge,
       auth := if h.auth.InFlight? then InFlight(true) else h.auth)
  }

  function Confirmed(h: Host): Host {
    if h.confirmations > 0 then h.(confirmations := h.confirmations - 1) else h
  }

  function Decide(h: Host, approve: bool): Host {
    if h.auth.InFlight? then h.(auth := Decided(approve), charge := if approve then Live else h.charge) else h
  }

  /** One step. A step that is not enabled changes nothing. */
  function Step(l: Local, a: Act): Local {
    match a
    case Arrive(_, blocked) => Insert(l, blocked)
    case Score(_, reject) => ApplyScore(l, reject)
    case RequestReversal(_) => if l.row.Some? then Request(l) else l
    case StartCall(i) => if At(l, i).Advanced? then Put(l, i, Calling(false)).(calls := l.calls + 1) else l
    case Send(i) =>
      if At(l, i) == Calling(false) then Put(l, i, Calling(true)).(host := l.host.(auth := InFlight(false))) else l
    case HostDecides(approve) => l.(host := Decide(l.host, approve))
    case Answer(i) =>
      if At(l, i) == Calling(true) && l.host.auth.Decided?
      then Put(l, i, Answered(if l.host.auth.approved then Approved else Rejected)) else l
    case NeverSent(i) => if At(l, i) == Calling(false) then Put(l, i, Answered(Rejected)) else l
    case TimeOut(i) => if At(l, i).Calling? then Put(l, i, Answered(Indeterminate)) else l
    case SaveAnswer(i) => if At(l, i).Answered? then SaveBy(l, i, Processing, At(l, i).result) else l
    case Publish(i) =>
      if At(l, i).Winner? then Put(l, i, Gone).(published := l.published.Plus(At(l, i).state)) else l
    case Crash(i) => Put(l, i, Gone)
    case List(completes) => if Unresolved(l, completes) then Spawn(l, Listed(completes)) else l
    case Load(i) => if At(l, i).Listed? then LoadRow(l, i, At(l, i).completes) else l
    case Mark(i) => if At(l, i).Loaded? then MarkLoaded(l, i, At(l, i).state) else l
    case SendReversal(i) => if At(l, i).Undoing? then l.(host := l.host.(reversalSent := true)) else l
    case HostUndoes => if l.host.reversalSent then l.(host := HostReverse(l.host)) else l
    case Receive(i) =>
      if At(l, i).Undoing? && l.host.confirmations > 0
      then Put(l, i, Undone(At(l, i).state, At(l, i).completes)).(host := Confirmed(l.host)) else l
    case LoseConfirmation => l.(host := Confirmed(l.host))
    case SaveUndone(i) => if At(l, i).Undone? then FinishUndone(l, i, At(l, i).state, At(l, i).completes) else l
  }

  // ----- every transaction, with the shared table of processed events -----

  datatype System = System(processed: set<int>, txs: map<int, Local>)

  datatype Event = Event(tx: int, act: Act)

  function Of(s: System, tx: int): Local {
    if tx in s.txs then s.txs[tx] else NEW
  }

  /** A score or a reversal for a row that does not exist fails and marks nothing. */
  predicate Fails(l: Local, a: Act) {
    (a.Score? || a.RequestReversal?) && l.row.None?
  }

  function Next(s: System, e: Event): System {
    var l := Of(s, e.tx);
    if e.act.HasEvent() && (e.act.ev in s.processed || Fails(l, e.act)) then s
    else System(if e.act.HasEvent() then s.processed + {e.act.ev} else s.processed, s.txs[e.tx := Step(l, e.act)])
  }

  function Run(schedule: seq<Event>): System {
    if |schedule| == 0 then System({}, map[])
    else Next(Run(schedule[..|schedule| - 1]), schedule[|schedule| - 1])
  }

  /** The steps of one transaction, from a given point. */
  function Steps(l: Local, acts: seq<Act>): Local {
    if |acts| == 0 then l else Step(Steps(l, acts[..|acts| - 1]), acts[|acts| - 1])
  }
}
