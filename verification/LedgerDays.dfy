/** The batches of a merchant and a day in the tables of the ledger, as DailyCompletion sees them. */
module LedgerDays {
  import opened Options
  import opened Money
  import opened Batches
  import opened Ledger
  import opened LedgerInvariants
  import opened DailyCompletion

  /** Currencies in the order of their codes. */
  function Code(c: Currency): int {
    match c
    case ARS => 0
    case BRL => 1
    case CLP => 2
    case EUR => 3
    case USD => 4
    case UYU => 5
    case Unknown(code) => 6 + code
  }

  /** No two codes have the same first two letters. */
  predicate Before(s: string, t: string) {
    |s| == 3 && |t| == 3 && (s[0] < t[0] || (s[0] == t[0] && s[1] < t[1]))
  }

  function Name(c: Currency): string
    requires !c.Unknown?
  {
    match c
    case ARS => "ARS"
    case USD => "USD"
    case EUR => "EUR"
    case BRL => "BRL"
    case UYU => "UYU"
    case CLP => "CLP"
  }

  /** The events of a day are in the order of the currency codes. */
  lemma CodesAreOrdered(c: Currency, d: Currency)
    requires !c.Unknown? && !d.Unknown?
    ensures Code(c) < Code(d) <==> Before(Name(c), Name(d))
  {
  }

  /** COALESCE(total_amount, 0). */
  function StoredTotal(b: Batch): int {
    match b.summary
    case None => 0
    case Some(s) => s.totalCents
  }

  /** A batch of the merchant and the day, with rows. */
  predicate Listed(db: Db, b: nat, merchant: int, date: int)
    requires b < |db.batches|
  {
    db.batches[b].merchant == merchant && db.batches[b].key.date == date && |RowsOf(db.rows, b)| > 0
  }

  /** The first n batches. One of another merchant or day is never listed. */
  function DayOf(db: Db, n: nat, merchant: int, date: int): (day: seq<DayBatch>)
    requires n <= |db.batches|
    ensures |day| == n
  {
    if n == 0 then []
    else
      var b := db.batches[n - 1];
      DayOf(db, n - 1, merchant, date)
      + [DayBatch(Code(b.key.currency), StoredTotal(b), !Listed(db, n - 1, merchant, date), Sent(b.state))]
  }

  /** MerchantDayBatchesTx on the tables, over the first n batches. */
  function DayLines(db: Db, n: nat, merchant: int, date: int): seq<Line>
    requires n <= |db.batches|
  {
    if n == 0 then []
    else
      var b := db.batches[n - 1];
      DayLines(db, n - 1, merchant, date)
      + if Listed(db, n - 1, merchant, date)
        then [Line(Code(b.key.currency), b.state == BatchState.Settled, StoredTotal(b))] else []
  }

  predicate InDay(db: Db, b: nat, merchant: int, date: int) {
    b < |db.batches| && db.batches[b].merchant == merchant && db.batches[b].key.date == date
  }

  /** The settles of the day are those of the ledger. */
  predicate SettlesAgree(db: Db, commits: seq<Commit>, own: nat, merchant: int, date: int) {
    forall b :: 0 <= b < |db.batches| && InDay(db, b, merchant, date) ==>
      (db.batches[b].state == BatchState.Settled <==> b == own || SettledIn(commits, b))
  }

  /** The statement reads the lines that DailyCompletion reads. */
  lemma {:induction false} LinesOfLedger(db: Db, n: nat, merchant: int, date: int, commits: seq<Commit>, own: nat)
    requires n <= |db.batches| && SettlesAgree(db, commits, own, merchant, date)
    ensures DayLines(db, n, merchant, date) == Lines(DayOf(db, n, merchant, date), commits, own)
  {
    if n > 0 {
      LinesOfLedger(db, n - 1, merchant, date, commits, own);
      var day := DayOf(db, n, merchant, date);
      assert day[..n - 1] == DayOf(db, n - 1, merchant, date);
    }
  }

  lemma {:induction false} DayAt(db: Db, n: nat, merchant: int, date: int, b: nat)
    requires b < n <= |db.batches|
    ensures DayOf(db, n, merchant, date)[b]
         == DayBatch(Code(db.batches[b].key.currency), StoredTotal(db.batches[b]), !Listed(db, b, merchant, date),
                     Sent(db.batches[b].state))
  {
    if b < n - 1 {
      DayAt(db, n - 1, merchant, date, b);
    }
  }

  predicate SameTotals(db: Db, n: Db, b: nat) {
    && b < |db.batches| && b < |n.batches|
    && n.batches[b] == db.batches[b].(state := n.batches[b].state, version := n.batches[b].version)
    && RowsOf(n.rows, b) == RowsOf(db.rows, b)
  }

  lemma HeaderOpSent(db: Db, op: Op, b: nat)
    requires Legal(db, op) && HeaderOp(op) && b < |db.batches| && Sent(db.batches[b].state)
    ensures SameTotals(db, Apply(db, op), b) && Sent(Apply(db, op).batches[b].state)
  {
    HeaderOpShape(db, op);
  }

  lemma UntouchedRows(db: Db, n: Db, b: nat)
    requires Evolves(db, n) && b < |db.batches| && b < |n.batches| && n.batches[b] == db.batches[b]
    ensures SameTotals(db, n, b)
  {
    assert Same(db, n, b) || Newer(db, n, b);
  }

  /** A batch that was sent keeps its rows, its currency and its totals. */
  lemma SentStays(db: Db, op: Op, b: nat)
    requires Inv(db) && Legal(db, op) && b < |db.batches| && Sent(db.batches[b].state)
    ensures SameTotals(db, Apply(db, op), b) && Sent(Apply(db, op).batches[b].state)
  {
    if HeaderOp(op) {
      HeaderOpSent(db, op, b);
    } else {
      ApplyKeeps(db, op);
      CountedStays(db, op, b);
      UntouchedRows(db, Apply(db, op), b);
    }
  }

  /** Its entry in the day stays as it was. */
  lemma EntryStays(db: Db, n: Db, merchant: int, date: int, b: nat)
    requires SameTotals(db, n, b) && Sent(db.batches[b].state) && Sent(n.batches[b].state)
    ensures DayOf(n, |n.batches|, merchant, date)[b] == DayOf(db, |db.batches|, merchant, date)[b]
  {
    DayAt(db, |db.batches|, merchant, date, b);
    DayAt(n, |n.batches|, merchant, date, b);
  }

  /** Every commit of the ledger is a step that DailyCompletion allows: batches may appear, and those that
      were sent stay as they are. */
  lemma LedgerStepIsDayStep(db: Db, op: Op, merchant: int, date: int)
    requires Inv(db) && Legal(db, op)
    ensures var n := Apply(db, op);
            Earlier(DayOf(db, |db.batches|, merchant, date), DayOf(n, |n.batches|, merchant, date))
  {
    var n := Apply(db, op);
    OnlyOpenAdds(db, op);
    var before, after := DayOf(db, |db.batches|, merchant, date), DayOf(n, |n.batches|, merchant, date);
    forall b | 0 <= b < |before| && before[b].sent ensures after[b] == before[b] {
      DayAt(db, |db.batches|, merchant, date, b);
      SentStays(db, op, b);
      EntryStays(db, n, merchant, date, b);
    }
  }

  // ----- the settles of a log -----

  /** A settle of b that left these tables, with what it read in its transaction. */
  function CommitOf(db: Db, b: nat, merchant: int, date: int): Commit {
    var lines := DayLines(db, |db.batches|, merchant, date);
    Commit(b, DayOf(db, |db.batches|, merchant, date), if AllSettled(lines) && |lines| > 0 then Some(lines) else None)
  }

  /** An operation settles a batch of the day. */
  predicate SettlesDay(db: Db, op: Op, merchant: int, date: int) {
    op.OpSettle? && InDay(db, op.batch, merchant, date)
  }

  /** The settles of the day that the log committed. */
  function SettlesOf(log: seq<Op>, merchant: int, date: int): seq<Commit> {
    if |log| == 0 then []
    else
      var front, op := log[..|log| - 1], log[|log| - 1];
      SettlesOf(front, merchant, date)
      + if SettlesDay(Replay(front), op, merchant, date) then [CommitOf(Replay(log), op.batch, merchant, date)] else []
  }

  lemma ClosingSettlesNothing(db: Db, op: Op, b: nat)
    requires Legal(db, op) && (op.OpClose? || op.OpAutoClose? || op.OpForceClose?) && b < |db.batches|
    ensures var n := Apply(db, op);
            b < |n.batches| && (n.batches[b].state == BatchState.Settled <==> db.batches[b].state == BatchState.Settled)
  {
    var own := if op.OpClose? then FindOpen(db.batches, op.key).value else op.batch;
    var rows := RowsOf(db.rows, own);
    if op.OpClose? {
      var terminal := Pending(op.report, Backend(rows, db.batches[own].key.currency), op.prior);
      CloseOutcome(db.batches[own], rows, terminal, op.held);
      SaveCloseShape(db, own, CloseOrHold(db.batches[own], rows, terminal, op.held).value, true,
                     db.processed + {op.ev});
    } else if op.OpAutoClose? {
      var backend := Backend(rows, db.batches[own].key.currency);
      CloseOutcome(db.batches[own], rows, backend, op.held);
      SaveCloseShape(db, own, CloseOrHold(db.batches[own], rows, backend, op.held).value, false,
                     db.processed + {op.ev});
    } else {
      ForceCloseOutcome(db.batches[own], rows);
      SaveCloseShape(db, own, CloseWithBackendTotals(db.batches[own], rows).value, false, db.processed);
    }
  }

  /** Only a settle makes a batch SETTLED, and it stays so. */
  lemma SettledStep(db: Db, op: Op, b: nat)
    requires Legal(db, op) && b < |db.batches|
    ensures var n := Apply(db, op);
            && b < |n.batches|
            && (n.batches[b].state == BatchState.Settled <==>
                  db.batches[b].state == BatchState.Settled || op == OpSettle(b))
  {
    if HeaderOp(op) {
      HeaderOpShape(db, op);
    } else if op.OpClose? || op.OpAutoClose? || op.OpForceClose? {
      ClosingSettlesNothing(db, op, b);
    }
  }

  lemma KeyStays(db: Db, op: Op, b: nat)
    requires Inv(db) && Legal(db, op) && b < |db.batches|
    ensures var n := Apply(db, op);
            b < |n.batches| && n.batches[b].key == db.batches[b].key && n.batches[b].merchant == db.batches[b].merchant
  {
    ApplyKeeps(db, op);
    assert Same(db, Apply(db, op), b) || Newer(db, Apply(db, op), b);
  }

  lemma SettledInOneMore(commits: seq<Commit>, c: Commit, b: nat)
    ensures SettledIn(commits + [c], b) <==> SettledIn(commits, b) || c.b == b
  {
    var all := commits + [c];
    assert all[|commits|] == c;
    assert forall k :: 0 <= k < |commits| ==> all[k] == commits[k];
  }

  lemma SettlesGrow(log: seq<Op>, merchant: int, date: int, b: nat)
    requires |log| > 0
    ensures var front, op := log[..|log| - 1], log[|log| - 1];
            SettledIn(SettlesOf(log, merchant, date), b) <==>
            SettledIn(SettlesOf(front, merchant, date), b)
            || (SettlesDay(Replay(front), op, merchant, date) && op.batch == b)
  {
    var front, op := log[..|log| - 1], log[|log| - 1];
    if SettlesDay(Replay(front), op, merchant, date) {
      SettledInOneMore(SettlesOf(front, merchant, date), CommitOf(Replay(log), op.batch, merchant, date), b);
    } else {
      assert SettlesOf(log, merchant, date) == SettlesOf(front, merchant, date);
    }
  }

  lemma {:induction false} SettlesExist(log: seq<Op>, merchant: int, date: int, b: nat)
    requires LegalLog(log) && SettledIn(SettlesOf(log, merchant, date), b)
    ensures b < |Replay(log).batches|
  {
    if |log| > 0 {
      var front := log[..|log| - 1];
      OnlyOpenAdds(Replay(front), log[|log| - 1]);
      SettlesGrow(log, merchant, date, b);
      if SettledIn(SettlesOf(front, merchant, date), b) {
        SettlesExist(front, merchant, date, b);
      }
    }
  }

  lemma SettledIffStep(log: seq<Op>, op: Op, merchant: int, date: int, b: nat)
    requires LegalLog(log) && Legal(Replay(log), op)
    requires b < |Replay(log).batches| && InDay(Replay(log), b, merchant, date)
    ensures b < |Apply(Replay(log), op).batches|
    ensures Apply(Replay(log), op).batches[b].state == BatchState.Settled <==>
            Replay(log).batches[b].state == BatchState.Settled
            || (SettlesDay(Replay(log), op, merchant, date) && op.batch == b)
  {
    SettledStep(Replay(log), op, b);
  }

  lemma NewBatchIsOpen(log: seq<Op>, op: Op, b: nat)
    requires LegalLog(log) && Legal(Replay(log), op) && |Replay(log).batches| <= b < |Apply(Replay(log), op).batches|
    ensures op.OpOpen? && Apply(Replay(log), op).batches[b].state == Open
  {
    OnlyOpenAdds(Replay(log), op);
  }

  /** A batch of the day is SETTLED in the tables if and only if the log settled it. */
  lemma {:induction false} SettledIff(log: seq<Op>, merchant: int, date: int, b: nat)
    requires LegalLog(log) && InDay(Replay(log), b, merchant, date)
    ensures Replay(log).batches[b].state == BatchState.Settled <==> SettledIn(SettlesOf(log, merchant, date), b)
  {
    if |log| > 0 {
      var front, op := log[..|log| - 1], log[|log| - 1];
      SettlesGrow(log, merchant, date, b);
      if b < |Replay(front).batches| {
        ReplayKeeps(front);
        KeyStays(Replay(front), op, b);
        SettledIffStep(front, op, merchant, date, b);
        SettledIff(front, merchant, date, b);
      } else {
        NewBatchIsOpen(front, op, b);
        if SettledIn(SettlesOf(front, merchant, date), b) {
          SettlesExist(front, merchant, date, b);
        }
      }
    }
  }

  /** In the transaction of a settle, the tables agree with the settles before it and its own. */
  lemma SettlingAgrees(log: seq<Op>, op: Op, merchant: int, date: int)
    requires LegalLog(log) && Legal(Replay(log), op) && SettlesDay(Replay(log), op, merchant, date)
    ensures SettlesAgree(Apply(Replay(log), op), SettlesOf(log, merchant, date), op.batch, merchant, date)
  {
    var db := Replay(log);
    var n := Apply(db, op);
    ReplayKeeps(log);
    OnlyOpenAdds(db, op);
    forall b | 0 <= b < |n.batches| && InDay(n, b, merchant, date)
      ensures n.batches[b].state == BatchState.Settled <==>
              b == op.batch || SettledIn(SettlesOf(log, merchant, date), b)
    {
      KeyStays(db, op, b);
      SettledStep(db, op, b);
      SettledIff(log, merchant, date, b);
    }
  }

  // ----- a log is a run of the day -----

  predicate SameCurrencies(was: seq<DayBatch>, day: seq<DayBatch>) {
    forall b :: 0 <= b < |was| && b < |day| ==> was[b].currency == day[b].currency
  }

  /** Some run of the day leads here. */
  ghost predicate DayReached(d: Day) {
    exists schedule: seq<DailyCompletion.Event> :: DailyCompletion.Run(schedule) == d
  }

  lemma DayHappens(d: Day, e: DailyCompletion.Event)
    requires DayReached(d)
    ensures DayReached(DailyCompletion.Next(d, e))
  {
    var schedule: seq<DailyCompletion.Event> :| DailyCompletion.Run(schedule) == d;
    DailyCompletion.Then(schedule, e);
  }

  lemma Changes(d: Day, b: nat, target: DayBatch) returns (n: Day)
    requires DayReached(d) && b < |d.batches| && !d.batches[b].sent && d.batches[b].currency == target.currency
    ensures DayReached(n) && n == d.(batches := d.batches[b := target])
  {
    DayHappens(d, Edit(b, target.cents, target.empty));
    n := DailyCompletion.Next(d, Edit(b, target.cents, target.empty));
    if target.sent {
      DayHappens(n, Submit(b));
      n := DailyCompletion.Next(n, Submit(b));
    }
  }

  /** The first n batches are those of the target, and the others are as they were. */
  predicate BecameUpto(was: seq<DayBatch>, target: seq<DayBatch>, now: seq<DayBatch>, n: nat) {
    && |now| == (if n < |was| then |was| else n) && n <= |target|
    && (forall k :: 0 <= k < n ==> now[k] == target[k])
    && (forall k :: n <= k < |was| ==> now[k] == was[k])
  }

  /** One batch of the day becomes what it is in the tables. */
  lemma BecomesOne(d: Day, was: seq<DayBatch>, target: seq<DayBatch>, b: nat) returns (n: Day)
    requires DayReached(d) && BecameUpto(was, target, d.batches, b) && b < |target|
    requires Earlier(was, target) && SameCurrencies(was, target)
    ensures DayReached(n) && n == d.(batches := n.batches) && BecameUpto(was, target, n.batches, b + 1)
  {
    n := d;
    if b == |d.batches| {
      DayHappens(d, Appear(target[b].currency));
      n := DailyCompletion.Next(d, Appear(target[b].currency));
    }
    if !n.batches[b].sent {
      n := Changes(n, b, target[b]);
    }
  }

  /** The whole day does. */
  lemma Becomes(d: Day, target: seq<DayBatch>) returns (n: Day)
    requires DayReached(d) && Earlier(d.batches, target) && SameCurrencies(d.batches, target)
    ensures DayReached(n) && n == d.(batches := target)
  {
    n := d;
    for b := 0 to |target|
      invariant DayReached(n) && n == d.(batches := n.batches) && BecameUpto(d.batches, target, n.batches, b)
    {
      n := BecomesOne(n, d.batches, target, b);
    }
    assert n.batches == target;
  }

  /** With nobody else around, a settle commits. */
  lemma Settles(d: Day, b: nat) returns (n: Day)
    requires DayReached(d) && Quiet(d) && Knows(d.batches, b) && !DailyCompletion.Settled(d, b)
    ensures DayReached(n) && Quiet(n) && n.batches == d.batches && n.commits == d.commits + [Alone(d, b)]
  {
    var schedule: seq<DailyCompletion.Event> :| DailyCompletion.Run(schedule) == d;
    schedule := SettleAlone(schedule, b);
    n := DailyCompletion.Run(schedule);
  }

  lemma DayKeepsCurrencies(db: Db, op: Op, merchant: int, date: int)
    requires Inv(db) && Legal(db, op)
    ensures var n := Apply(db, op);
            SameCurrencies(DayOf(db, |db.batches|, merchant, date), DayOf(n, |n.batches|, merchant, date))
  {
    var n := Apply(db, op);
    OnlyOpenAdds(db, op);
    forall b | 0 <= b < |db.batches|
      ensures DayOf(db, |db.batches|, merchant, date)[b].currency == DayOf(n, |n.batches|, merchant, date)[b].currency
    {
      KeyStays(db, op, b);
      DayAt(db, |db.batches|, merchant, date, b);
      DayAt(n, |n.batches|, merchant, date, b);
    }
  }

  /** The batches are those of the tables, and the commits the settles of the log. */
  predicate IsDayOf(d: Day, log: seq<Op>, merchant: int, date: int) {
    var db := Replay(log);
    d.batches == DayOf(db, |db.batches|, merchant, date) && d.commits == SettlesOf(log, merchant, date)
  }

  /** The batch that is settled was submitted, and not settled before. */
  lemma SettlesKnown(log: seq<Op>, op: Op, merchant: int, date: int)
    requires LegalLog(log) && Legal(Replay(log), op) && SettlesDay(Replay(log), op, merchant, date)
    ensures var n := Apply(Replay(log), op);
            Knows(DayOf(n, |n.batches|, merchant, date), op.batch)
            && !SettledIn(SettlesOf(log, merchant, date), op.batch)
  {
    var db := Replay(log);
    var n := Apply(db, op);
    SettledIff(log, merchant, date, op.batch);
    OnlyOpenAdds(db, op);
    SettledStep(db, op, op.batch);
    DayAt(n, |n.batches|, merchant, date, op.batch);
  }

  /** What it reads and enqueues is what the settle of the model does. */
  lemma SettlesAlike(log: seq<Op>, op: Op, merchant: int, date: int, d: Day)
    requires LegalLog(log) && Legal(Replay(log), op) && SettlesDay(Replay(log), op, merchant, date)
    requires d.commits == SettlesOf(log, merchant, date)
    requires var n := Apply(Replay(log), op); d.batches == DayOf(n, |n.batches|, merchant, date)
    ensures Alone(d, op.batch) == CommitOf(Apply(Replay(log), op), op.batch, merchant, date)
  {
    var n := Apply(Replay(log), op);
    SettlingAgrees(log, op, merchant, date);
    LinesOfLedger(n, |n.batches|, merchant, date, SettlesOf(log, merchant, date), op.batch);
  }

  /** One more operation of the log. */
  lemma DayRunStep(log: seq<Op>, op: Op, merchant: int, date: int, d: Day) returns (e: Day)
    requires LegalLog(log) && Legal(Replay(log), op) && DayReached(d) && Quiet(d) && IsDayOf(d, log, merchant, date)
    ensures DayReached(e) && Quiet(e)
    ensures var n := Apply(Replay(log), op);
            && e.batches == DayOf(n, |n.batches|, merchant, date)
            && e.commits == d.commits
               + if SettlesDay(Replay(log), op, merchant, date) then [CommitOf(n, op.batch, merchant, date)] else []
  {
    var db := Replay(log);
    var n := Apply(db, op);
    ReplayKeeps(log);
    LedgerStepIsDayStep(db, op, merchant, date);
    DayKeepsCurrencies(db, op, merchant, date);
    e := Becomes(d, DayOf(n, |n.batches|, merchant, date));
    if SettlesDay(db, op, merchant, date) {
      SettlesKnown(log, op, merchant, date);
      SettlesAlike(log, op, merchant, date, e);
      e := Settles(e, op.batch);
    }
  }

  /** Every log is a run of the day, with the batches of the tables and the settles of the log. */
  lemma {:induction false} LogIsDayRun(log: seq<Op>, merchant: int, date: int) returns (d: Day)
    requires LegalLog(log)
    ensures DayReached(d) && Quiet(d) && IsDayOf(d, log, merchant, date)
  {
    if |log| == 0 {
      d := DailyCompletion.Run([]);
    } else {
      var front, op := log[..|log| - 1], log[|log| - 1];
      d := LogIsDayRun(front, merchant, date);
      d := DayRunStep(front, op, merchant, date, d);
    }
  }
}
