/** The lifecycle of a settlement batch: st_batch_state.go and st_settlement_batch.go, as
    functions on a stored header. SettlementBatch.dfy holds the class that follows them. */
module Batches {
  import opened Options
  import opened Money
  import opened BatchSummary

  datatype BatchState = Open | PendingClose | Closed | Submitted | Settled | Disputed

  predicate CanTransition(s: BatchState, next: BatchState) {
    match s
    case Open => next == PendingClose
    case PendingClose => next == Closed || next == Disputed
    case Closed => next == Submitted || next == Disputed
    case Submitted => next == Settled || next == Disputed
    case Disputed => next == Submitted || next == Open || next == Closed
    case Settled => false
  }

  /** A batch is open for one terminal, business date and currency. */
  datatype Key = Key(terminal: int, date: int, currency: Currency)

  /** A row of settlement.settlement_batches. */
  datatype Batch = Batch(
    key: Key, merchant: int, state: BatchState,
    summary: Option<Summary>, discrepancies: nat, version: nat)

  /** Totals that the terminal reports and that a close compares. */
  datatype Report = Report(count: int, cents: int)

  function Backend(rows: seq<Row>, currency: Currency): Report {
    var c := Calculate(rows, currency);
    Report(c.count, c.cents)
  }

  function Discrepancies(terminal: Report, backend: Report): (d: nat)
    ensures d == 0 <==> terminal == backend
  {
    var diff := if terminal.count >= backend.count then terminal.count - backend.count
                else backend.count - terminal.count;
    if terminal == backend then 0 else if diff == 0 then 1 else diff
  }

  function Transition(b: Batch, next: BatchState): Option<Batch> {
    if CanTransition(b.state, next) then Some(b.(state := next)) else None
  }

  /** Close: only after RequestClose. */
  function Close(b: Batch, rows: seq<Row>, terminal: Report): Option<Batch> {
    match Transition(b, Closed)
    case None => None
    case Some(n) =>
      Some(n.(summary := Some(Calculate(rows, b.key.currency).summary),
              discrepancies := Discrepancies(terminal, Backend(rows, b.key.currency))))
  }

  function CloseWithBackendTotals(b: Batch, rows: seq<Row>): (n: Option<Batch>)
    ensures n.Some? <==> b.state == Open
    ensures n.Some? ==> n.value.summary.Some?
  {
    match Transition(b, PendingClose)
    case None => None
    case Some(p) => Close(p, rows, Backend(rows, b.key.currency))
  }

  function Reopen(b: Batch): Option<Batch> {
    match Transition(b, Open)
    case None => None
    case Some(n) => Some(n.(summary := None, discrepancies := 0))
  }

  function ResolveDispute(b: Batch, rows: seq<Row>): Option<Batch> {
    match Transition(b, Closed)
    case None => None
    case Some(n) => Some(n.(summary := Some(Calculate(rows, b.key.currency).summary), discrepancies := 0))
  }

  function MarkSettled(b: Batch): Option<Batch> {
    if b.summary.None? then None else Transition(b, Settled)
  }

  /** The change that ProcessBatchClose and autoCloseBatch make before saving: close, then hold the
      batch in DISPUTED when it has discrepancies or a reversal under review. */
  function CloseOrHold(b: Batch, rows: seq<Row>, terminal: Report, underReview: bool): (n: Option<Batch>)
    ensures n.Some? <==> b.state == Open
    ensures n.Some? ==> n.value.summary.Some?
  {
    match Transition(b, PendingClose)
    case None => None
    case Some(p) =>
      match Close(p, rows, terminal)
      case None => None
      case Some(c) => if c.discrepancies > 0 || underReview then Transition(c, Disputed) else Some(c)
  }

  /** Closing an OPEN batch never stores PENDING_CLOSE, and it holds the batch exactly when the
      terminal disagrees with the rows or a reversal is under review. */
  lemma CloseOutcome(b: Batch, rows: seq<Row>, terminal: Report, underReview: bool)
    ensures CloseOrHold(b, rows, terminal, underReview).Some? <==> b.state == Open
    ensures b.state == Open ==>
              var n := CloseOrHold(b, rows, terminal, underReview).value;
              && n.key == b.key && n.merchant == b.merchant && n.version == b.version
              && SummaryOf(n.summary, rows, b.key.currency)
              && (n.state == Closed <==> terminal == Backend(rows, b.key.currency) && !underReview)
              && (n.state == Disputed <==> n.state != Closed)
              && (n.discrepancies == 0 <==> terminal == Backend(rows, b.key.currency))
  {
  }

  /** Closing with the totals of the rows finds nothing to hold. */
  lemma ForceCloseOutcome(b: Batch, rows: seq<Row>)
    requires b.state == Open
    ensures var n := CloseWithBackendTotals(b, rows).value;
            && n.key == b.key && n.merchant == b.merchant && n.version == b.version
            && SummaryOf(n.summary, rows, b.key.currency) && n.state == Closed && n.discrepancies == 0
  {
  }
}
