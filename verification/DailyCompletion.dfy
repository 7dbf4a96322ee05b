/** SettleBatch and SettlementCompleted: several operators settle the batches of one merchant and day at
    the same time, while other batches of that day get rows, lose them and are submitted. Each settle
    writes its batch, then takes the advisory lock, then reads the day (its own uncommitted write and what
    others committed), then commits or aborts. */
module DailyCompletion {
  import opened Options

  /** A batch of the day: its stored total, whether it has rows, and whether it is SUBMITTED or beyond,
      when neither changes any more. Currencies are ordered like their codes. */
  datatype DayBatch = DayBatch(currency: int, cents: int, empty: bool, sent: bool)

  /** A line of MerchantDayBatchesTx. */
  datatype Line = Line(currency: int, settled: bool, cents: int)

  /** SettlementCompleted, without the net amount. */
  datatype Completed = Completed(currency: int, batches: nat, gross: int)

  // ----- enqueueCompletedIfDone -----

  predicate AllSettled(lines: seq<Line>) {
    forall k :: 0 <= k < |lines| ==> lines[k].settled
  }

  function Totals(lines: seq<Line>, currency: int): Completed {
    if |lines| == 0 then Completed(currency, 0, 0)
    else
      var rest, last := Totals(lines[..|lines| - 1], currency), lines[|lines| - 1];
      if last.currency == currency then Completed(currency, rest.batches + 1, rest.gross + last.cents) else rest
  }

  predicate Sorted(events: seq<Completed>) {
    forall j, k :: 0 <= j < k < |events| ==> events[j].currency < events[k].currency
  }

  /** One event for each currency, in order, with the totals of its batches. */
  predicate Summarizes(events: seq<Completed>, lines: seq<Line>) {
    && Sorted(events)
    && (forall k :: 0 <= k < |events| ==> events[k] == Totals(lines, events[k].currency) && events[k].batches > 0)
    && (forall k :: 0 <= k < |lines| ==> exists j :: 0 <= j < |events| && events[j].currency == lines[k].currency)
  }

  predicate Accumulated(byCurrency: map<int, Completed>, lines: seq<Line>) {
    && (forall c :: c in byCurrency ==>
        byCurrency[c] == Totals(lines, c) && byCurrency[c].currency == c && byCurrency[c].batches > 0)
    && (forall k :: 0 <= k < |lines| ==> lines[k].currency in byCurrency)
  }

  /** The first loop: one pass with a map of accumulators, left at the first batch not settled. */
  method Accumulate(lines: seq<Line>) returns (done: bool, byCurrency: map<int, Completed>)
    ensures done <==> AllSettled(lines)
    ensures done ==> Accumulated(byCurrency, lines)
  {
    byCurrency := map[];
    for i := 0 to |lines|
      invariant AllSettled(lines[..i]) && Accumulated(byCurrency, lines[..i])
    {
      var b := lines[i];
      assert lines[..i + 1][..i] == lines[..i];
      if !b.settled {
        return false, byCurrency;
      }
      var t := if b.currency in byCurrency then byCurrency[b.currency] else Completed(b.currency, 0, 0);
      AbsentIsZero(lines[..i], b.currency);
      byCurrency := byCurrency[b.currency := Completed(b.currency, t.batches + 1, t.gross + b.cents)];
    }
    assert lines[..|lines|] == lines;
    done := true;
  }

  lemma {:induction false} AbsentIsZero(lines: seq<Line>, currency: int)
    ensures Totals(lines, currency).currency == currency
    ensures (forall k :: 0 <= k < |lines| ==> lines[k].currency != currency) ==>
            Totals(lines, currency) == Completed(currency, 0, 0)
  {
    if |lines| > 0 {
      AbsentIsZero(lines[..|lines| - 1], currency);
    }
  }

  function InsertSorted(events: seq<Completed>, e: Completed): seq<Completed> {
    if |events| == 0 || events[|events| - 1].currency < e.currency then events + [e]
    else InsertSorted(events[..|events| - 1], e) + [events[|events| - 1]]
  }

  lemma {:induction false} InsertKeepsOrder(events: seq<Completed>, e: Completed)
    requires Sorted(events) && forall k :: 0 <= k < |events| ==> events[k].currency != e.currency
    ensures Sorted(InsertSorted(events, e))
    ensures forall x :: x in InsertSorted(events, e) <==> x in events || x == e
  {
    if |events| > 0 && events[|events| - 1].currency > e.currency {
      var front, last := events[..|events| - 1], events[|events| - 1];
      InsertKeepsOrder(front, e);
      assert events == front + [last];
      var r := InsertSorted(front, e);
      forall j | 0 <= j < |r| ensures r[j].currency < last.currency {
        assert r[j] in r;
      }
    }
  }

  /** enqueueCompletedIfDone: nothing unless every batch is settled, and then one event per currency. */
  method EnqueueCompletedIfDone(lines: seq<Line>) returns (events: seq<Completed>)
    ensures !AllSettled(lines) ==> |events| == 0
    ensures AllSettled(lines) ==> Summarizes(events, lines)
  {
    var done, byCurrency := Accumulate(lines);
    if !done {
      return [];
    }
    events := Emit(byCurrency, byCurrency.Keys);
    EmittedAll(events, byCurrency, lines);
  }

  ghost predicate Emitted(events: seq<Completed>, byCurrency: map<int, Completed>, currencies: set<int>)
    requires currencies <= byCurrency.Keys
  {
    Sorted(events) && forall e :: e in events <==> e.currency in currencies && e == byCurrency[e.currency]
  }

  /** The keys, sorted, and the event of each. */
  method Emit(byCurrency: map<int, Completed>, currencies: set<int>) returns (events: seq<Completed>)
    requires currencies <= byCurrency.Keys && forall c :: c in byCurrency ==> byCurrency[c].currency == c
    ensures Emitted(events, byCurrency, currencies)
  {
    events := [];
    var rest := currencies;
    while exists c :: c in rest
      invariant rest <= currencies && Emitted(events, byCurrency, currencies - rest)
      decreases rest
    {
      var c :| c in rest;
      forall k | 0 <= k < |events| ensures events[k].currency != c {
        assert events[k] in events;
      }
      InsertKeepsOrder(events, byCurrency[c]);
      events := InsertSorted(events, byCurrency[c]);
      assert currencies - (rest - {c}) == (currencies - rest) + {c};
      rest := rest - {c};
    }
    assert currencies - rest == currencies;
  }

  lemma EmittedAll(events: seq<Completed>, byCurrency: map<int, Completed>, lines: seq<Line>)
    requires Accumulated(byCurrency, lines) && Emitted(events, byCurrency, byCurrency.Keys)
    ensures Summarizes(events, lines)
  {
    forall k | 0 <= k < |events| ensures events[k] == Totals(lines, events[k].currency) && events[k].batches > 0 {
      assert events[k] in events;
    }
    forall k | 0 <= k < |lines| ensures exists j :: 0 <= j < |events| && events[j].currency == lines[k].currency {
      var e := byCurrency[lines[k].currency];
      assert e in events;
      var j :| 0 <= j < |events| && events[j] == e;
    }
    assert Sorted(events);
    assert (forall k :: 0 <= k < |events| ==> events[k] == Totals(lines, events[k].currency) && events[k].batches > 0);
    assert forall k :: 0 <= k < |lines| ==> exists j :: 0 <= j < |events| && events[j].currency == lines[k].currency;
  }

  // ----- concurrent settles -----

  /** An operator's settle of batch b: loaded as SUBMITTED, written, holding the lock, or with the lines
      it read, and the batches as they were then. */
  datatype Settle =
    | Gone
    | Loaded(b: nat)
    | Written(b: nat)
    | Locked(b: nat)
    | Read(b: nat, seen: seq<DayBatch>, lines: seq<Line>)

  /** A committed settle, and the lines it summarized if it enqueued. */
  datatype Commit = Commit(b: nat, seen: seq<DayBatch>, lines: Option<seq<Line>>)

  datatype Day = Day(batches: seq<DayBatch>, settles: seq<Settle>, commits: seq<Commit>)

  predicate SettledIn(commits: seq<Commit>, b: nat) {
    exists k :: 0 <= k < |commits| && commits[k].b == b
  }

  predicate Settled(d: Day, b: nat) {
    SettledIn(d.commits, b)
  }

  /** MerchantDayBatchesTx: a batch without rows is not listed. */
  function Lines(batches: seq<DayBatch>, commits: seq<Commit>, own: nat): seq<Line> {
    if |batches| == 0 then []
    else
      var n := |batches| - 1;
      var b := batches[n];
      Lines(batches[..n], commits, own)
      + if b.empty then [] else [Line(b.currency, n == own || SettledIn(commits, n), b.cents)]
  }

  predicate Holds(w: Settle) {
    w.Locked? || w.Read?
  }

  predicate Writes(w: Settle, b: nat) {
    (w.Written? || w.Locked? || w.Read?) && w.b == b
  }

  predicate RowIsFree(d: Day, b: nat) {
    forall i :: 0 <= i < |d.settles| ==> !Writes(d.settles[i], b)
  }

  predicate LockIsFree(d: Day) {
    forall i :: 0 <= i < |d.settles| ==> !Holds(d.settles[i])
  }

  datatype Event =
    | Appear(currency: int)                     // a new batch, without rows
    | Edit(b: nat, cents: int, empty: bool)     // sales, reversals, exclusions, closes of a batch not sent
    | Submit(b: nat)
    | Begin(b: nat)
    | Move(i: nat)
    | Abort(i: nat)

  function Put(d: Day, i: nat, w: Settle): Day
    requires i < |d.settles|
  {
    d.(settles := d.settles[i := w])
  }

  function SetBatch(d: Day, b: nat, batch: DayBatch): Day
    requires b < |d.batches|
  {
    d.(batches := d.batches[b := batch])
  }

  /** The conditional UPDATE waits for the row, the lock for its holder. */
  function Moved(d: Day, i: nat): Day
    requires i < |d.settles|
  {
    match d.settles[i]
    case Gone => d
    case Loaded(b) => if Settled(d, b) then Put(d, i, Gone) else if RowIsFree(d, b) then Put(d, i, Written(b)) else d
    case Written(b) => if LockIsFree(d) then Put(d, i, Locked(b)) else d
    case Locked(b) => Put(d, i, Read(b, d.batches, Lines(d.batches, d.commits, b)))
    case Read(b, seen, lines) =>
      var enqueues := AllSettled(lines) && |lines| > 0;
      Put(d, i, Gone).(commits := d.commits + [Commit(b, seen, if enqueues then Some(lines) else None)])
  }

  predicate Editable(d: Day, b: nat) {
    b < |d.batches| && !d.batches[b].sent
  }

  function Next(d: Day, e: Event): Day {
    match e
    case Appear(currency) => d.(batches := d.batches + [DayBatch(currency, 0, true, false)])
    case Edit(b, cents, empty) =>
      if Editable(d, b) then SetBatch(d, b, d.batches[b].(cents := cents, empty := empty)) else d
    case Submit(b) => if Editable(d, b) then SetBatch(d, b, d.batches[b].(sent := true)) else d
    case Begin(b) =>
      if b < |d.batches| && d.batches[b].sent && !Settled(d, b) then d.(settles := d.settles + [Loaded(b)]) else d
    case Move(i) => if i < |d.settles| then Moved(d, i) else d
    case Abort(i) => if i < |d.settles| then Put(d, i, Gone) else d
  }

  function Run(schedule: seq<Event>): Day {
    if |schedule| == 0 then Day([], [], [])
    else Next(Run(schedule[..|schedule| - 1]), schedule[|schedule| - 1])
  }

  // ----- what every run keeps -----

  /** The lines of a day with every batch settled. */
  function AllLines(batches: seq<DayBatch>): seq<Line> {
    if |batches| == 0 then []
    else
      var b := batches[|batches| - 1];
      AllLines(batches[..|batches| - 1]) + if b.empty then [] else [Line(b.currency, true, b.cents)]
  }

  predicate HasRows(batches: seq<DayBatch>) {
    exists b :: 0 <= b < |batches| && !batches[b].empty
  }

  /** Every batch with rows is in the list or is this one. */
  predicate Covers(batches: seq<DayBatch>, commits: seq<Commit>, own: nat) {
    forall b :: 0 <= b < |batches| && !batches[b].empty ==> b == own || SettledIn(commits, b)
  }

  lemma SettledAppend(lines: seq<Line>, l: Line)
    ensures AllSettled(lines + [l]) <==> AllSettled(lines) && l.settled
  {
    var all := lines + [l];
    if AllSettled(all) {
      forall k | 0 <= k < |lines| ensures lines[k].settled {
        assert all[k].settled;
      }
      assert all[|lines|].settled;
    }
  }

  lemma CoversStep(batches: seq<DayBatch>, commits: seq<Commit>, own: nat)
    requires |batches| > 0
    ensures var n := |batches| - 1;
            Covers(batches, commits, own) <==>
            Covers(batches[..n], commits, own) && (batches[n].empty || n == own || SettledIn(commits, n))
  {
    var n := |batches| - 1;
    assert forall b :: 0 <= b < n ==> batches[..n][b] == batches[b];
  }

  lemma {:induction false} LinesAreSettled(batches: seq<DayBatch>, commits: seq<Commit>, own: nat)
    ensures AllSettled(Lines(batches, commits, own)) <==> Covers(batches, commits, own)
  {
    if |batches| > 0 {
      var n := |batches| - 1;
      var b, front := batches[n], Lines(batches[..n], commits, own);
      LinesAreSettled(batches[..n], commits, own);
      CoversStep(batches, commits, own);
      if b.empty {
        assert Lines(batches, commits, own) == front;
      } else {
        SettledAppend(front, Line(b.currency, n == own || SettledIn(commits, n), b.cents));
      }
    }
  }

  lemma {:induction false} LinesExist(batches: seq<DayBatch>, commits: seq<Commit>, own: nat)
    ensures |Lines(batches, commits, own)| > 0 <==> HasRows(batches)
  {
    if |batches| > 0 {
      var n := |batches| - 1;
      LinesExist(batches[..n], commits, own);
      assert forall b :: 0 <= b < n ==> batches[..n][b] == batches[b];
    }
  }

  lemma {:induction false} LinesAreAll(batches: seq<DayBatch>, commits: seq<Commit>, own: nat)
    requires Covers(batches, commits, own)
    ensures Lines(batches, commits, own) == AllLines(batches)
  {
    if |batches| > 0 {
      CoversStep(batches, commits, own);
      LinesAreAll(batches[..|batches| - 1], commits, own);
    }
  }

  /** Batches as they were before: what was sent did not change. */
  predicate Earlier(seen: seq<DayBatch>, batches: seq<DayBatch>) {
    |seen| <= |batches| && forall b :: 0 <= b < |seen| && seen[b].sent ==> batches[b] == seen[b]
  }

  predicate Knows(seen: seq<DayBatch>, b: nat) {
    b < |seen| && seen[b].sent
  }

  predicate SettleOk(d: Day, w: Settle) {
    && (!w.Gone? ==> Knows(d.batches, w.b))
    && (w.Written? || w.Locked? || w.Read? ==> !Settled(d, w.b))
    && (w.Read? ==>
          && Earlier(w.seen, d.batches) && Knows(w.seen, w.b)
          && w.lines == Lines(w.seen, d.commits, w.b)
          && forall k :: 0 <= k < |d.commits| ==> Knows(w.seen, d.commits[k].b))
  }

  predicate Apart(v: Settle, w: Settle) {
    && !(Holds(v) && Holds(w))
    && ((v.Written? || v.Locked? || v.Read?) ==> !Writes(w, v.b))
  }

  /** With settle k every batch with rows, as it read them, was settled. */
  predicate Completes(d: Day, k: nat)
    requires k < |d.commits|
  {
    HasRows(d.commits[k].seen) && Covers(d.commits[k].seen, d.commits[..k], d.commits[k].b)
  }

  /** A commit enqueued exactly when it completed what it read, and then all of it. */
  predicate CommitOk(d: Day, k: nat)
    requires k < |d.commits|
  {
    var c := d.commits[k];
    && Earlier(c.seen, d.batches)
    && (forall j :: 0 <= j <= k ==> Knows(c.seen, d.commits[j].b))
    && !SettledIn(d.commits[..k], c.b)
    && (c.lines.Some? <==> Completes(d, k))
    && (c.lines.Some? ==> c.lines.value == AllLines(c.seen))
  }

  predicate Ok(d: Day) {
    && (forall i :: 0 <= i < |d.settles| ==> SettleOk(d, d.settles[i]))
    && (forall i, j :: 0 <= i < |d.settles| && 0 <= j < |d.settles| && i != j ==> Apart(d.settles[i], d.settles[j]))
    && (forall k :: 0 <= k < |d.commits| ==> CommitOk(d, k))
  }

  /** Batches appear, and those not sent change. */
  lemma BatchesOk(d: Day, n: Day)
    requires Ok(d) && n == d.(batches := n.batches) && Earlier(d.batches, n.batches)
    ensures Ok(n)
  {
    forall i | 0 <= i < |n.settles| ensures SettleOk(n, n.settles[i]) {
      assert SettleOk(d, d.settles[i]);
    }
    forall k | 0 <= k < |n.commits| ensures CommitOk(n, k) {
      assert CommitOk(d, k);
    }
  }

  /** A settle takes a step before its commit. */
  lemma PutOk(d: Day, i: nat, w: Settle)
    requires Ok(d) && i < |d.settles| && SettleOk(d, w)
    requires forall j :: 0 <= j < |d.settles| && j != i ==> Apart(d.settles[j], w) && Apart(w, d.settles[j])
    ensures Ok(Put(d, i, w))
  {
    var n := Put(d, i, w);
    forall k | 0 <= k < |n.commits| ensures CommitOk(n, k) {
      assert CommitOk(d, k);
    }
    forall j | 0 <= j < |n.settles| ensures SettleOk(n, n.settles[j]) {
      assert j != i ==> SettleOk(d, d.settles[j]);
    }
  }

  /** What a settle that read the day may commit. */
  lemma ReadCommits(d: Day, i: nat)
    requires Ok(d) && i < |d.settles| && d.settles[i].Read?
    ensures CommitOk(Moved(d, i), |d.commits|)
  {
    var w, n := d.settles[i], Moved(d, i);
    var last := |d.commits|;
    assert SettleOk(d, w);
    assert n.commits[..last] == d.commits;
    LinesAreSettled(w.seen, d.commits, w.b);
    LinesExist(w.seen, d.commits, w.b);
    if Covers(w.seen, d.commits, w.b) {
      LinesAreAll(w.seen, d.commits, w.b);
    }
  }

  lemma CommitStepOk(d: Day, i: nat)
    requires Ok(d) && i < |d.settles| && d.settles[i].Read?
    ensures Ok(Moved(d, i))
  {
    var w, n := d.settles[i], Moved(d, i);
    var last := |d.commits|;
    ReadCommits(d, i);
    forall k | 0 <= k < |n.commits| ensures CommitOk(n, k) {
      if k < last {
        assert CommitOk(d, k);
        assert n.commits[..k] == d.commits[..k];
      }
    }
    forall j | 0 <= j < |n.settles| ensures SettleOk(n, n.settles[j]) {
      if j != i {
        assert SettleOk(d, d.settles[j]) && Apart(w, d.settles[j]);
      }
    }
  }

  lemma MoveOk(d: Day, i: nat)
    requires Ok(d) && i < |d.settles|
    ensures Ok(Moved(d, i))
  {
    var w := d.settles[i];
    assert SettleOk(d, w);
    if w.Read? {
      CommitStepOk(d, i);
    } else if Moved(d, i) != d {
      var v := Moved(d, i).settles[i];
      forall j | 0 <= j < |d.settles| && j != i ensures Apart(d.settles[j], v) && Apart(v, d.settles[j]) {
        assert Apart(d.settles[j], w) && Apart(w, d.settles[j]);
        assert v.Written? ==> !Writes(d.settles[j], v.b);
      }
      forall k | 0 <= k < |d.commits| ensures Knows(d.batches, d.commits[k].b) {
        assert CommitOk(d, k);
      }
      PutOk(d, i, v);
    }
  }

  lemma BeginOk(d: Day, b: nat)
    requires Ok(d) && Knows(d.batches, b)
    ensures Ok(d.(settles := d.settles + [Loaded(b)]))
  {
    var n := d.(settles := d.settles + [Loaded(b)]);
    forall k | 0 <= k < |n.commits| ensures CommitOk(n, k) {
      assert CommitOk(d, k);
    }
    forall j | 0 <= j < |n.settles| ensures SettleOk(n, n.settles[j]) {
      assert j < |d.settles| ==> SettleOk(d, d.settles[j]);
    }
  }

  lemma {:induction false} RunOk(schedule: seq<Event>)
    ensures Ok(Run(schedule))
  {
    if |schedule| > 0 {
      var d, e := Run(schedule[..|schedule| - 1]), schedule[|schedule| - 1];
      RunOk(schedule[..|schedule| - 1]);
      match e
      case Appear(_) => BatchesOk(d, Next(d, e));
      case Edit(_, _, _) => BatchesOk(d, Next(d, e));
      case Submit(_) => BatchesOk(d, Next(d, e));
      case Begin(b) => if Knows(d.batches, b) { BeginOk(d, b); }
      case Move(i) => if i < |d.settles| { MoveOk(d, i); }
      case Abort(i) => if i < |d.settles| { PutOk(d, i, Gone); }
    }
  }

  // ----- what it means -----

  /** Whatever the interleaving, a settle enqueues exactly when with it every batch with rows, as it read
      them, is settled, and it summarizes all of them; and no batch is settled twice. */
  lemma EnqueuedExactlyWhenComplete(schedule: seq<Event>, k: nat)
    requires k < |Run(schedule).commits|
    ensures CommitOk(Run(schedule), k)
  {
    RunOk(schedule);
  }

  /** Every batch with rows is settled, and there is one. */
  predicate Done(d: Day) {
    HasRows(d.batches) && forall b :: 0 <= b < |d.batches| && !d.batches[b].empty ==> Settled(d, b)
  }

  /** Some settle enqueued the totals of the whole day. */
  predicate Announced(d: Day) {
    exists k :: 0 <= k < |d.commits| && d.commits[k].lines == Some(AllLines(d.batches))
  }

  /** The last settle did. */
  predicate LastAnnounces(d: Day) {
    |d.commits| > 0 && d.commits[|d.commits| - 1].lines == Some(AllLines(d.batches))
  }

  /** The batch had no rows, or did not exist, when settle k read the day. */
  predicate LateFor(d: Day, k: nat, b: nat)
    requires k < |d.commits|
  {
    b >= |d.commits[k].seen| || d.commits[k].seen[b].empty
  }

  /** Every batch with rows had them when settle k read the day. */
  predicate NothingLate(d: Day, k: nat)
    requires k < |d.commits|
  {
    forall b :: 0 <= b < |d.batches| && !d.batches[b].empty ==> !LateFor(d, k, b)
  }

  /** The last settle listed a batch with rows that has not been settled. */
  predicate Awaited(d: Day) {
    |d.commits| > 0 &&
    var seen := d.commits[|d.commits| - 1].seen;
    exists b :: 0 <= b < |seen| && !seen[b].empty && !Settled(d, b)
  }

  lemma {:induction false} SameLines(a: seq<DayBatch>, b: seq<DayBatch>)
    requires |a| <= |b|
    requires forall k :: 0 <= k < |a| ==> a[k] == b[k] || (a[k].empty && b[k].empty)
    requires forall k :: |a| <= k < |b| ==> b[k].empty
    ensures AllLines(a) == AllLines(b)
  {
    if |a| < |b| {
      SameLines(a, b[..|b| - 1]);
    } else if |a| > 0 {
      SameLines(a[..|a| - 1], b[..|b| - 1]);
    }
  }

  /** Whatever is settled was read, and stays as it was read. */
  lemma SettledWasRead(d: Day, b: nat)
    requires Ok(d) && Settled(d, b)
    ensures |d.commits| > 0
    ensures var seen := d.commits[|d.commits| - 1].seen;
            b < |seen| && b < |d.batches| && d.batches[b] == seen[b]
            && (b == d.commits[|d.commits| - 1].b || SettledIn(d.commits[..|d.commits| - 1], b))
  {
    var last := |d.commits| - 1;
    var k :| 0 <= k < |d.commits| && d.commits[k].b == b;
    assert CommitOk(d, last) && Knows(d.commits[last].seen, d.commits[k].b);
    assert k < last ==> d.commits[..last][k].b == b;
  }

  lemma SettledEarlier(d: Day, b: nat)
    requires |d.commits| > 0 && !Settled(d, b)
    ensures b != d.commits[|d.commits| - 1].b && !SettledIn(d.commits[..|d.commits| - 1], b)
  {
    assert forall k :: 0 <= k < |d.commits| - 1 ==> d.commits[..|d.commits| - 1][k] == d.commits[k];
  }

  /** Once every batch with rows is settled, the last settle announced the day if and only if every batch
      that it listed has been settled. The other case is a batch that it listed as not settled and that
      lost its rows afterwards. */
  lemma LastAnnouncesIff(schedule: seq<Event>)
    requires Done(Run(schedule))
    ensures LastAnnounces(Run(schedule)) <==> !Awaited(Run(schedule))
    ensures |Run(schedule).commits| > 0
  {
    RunOk(schedule);
    var d := Run(schedule);
    var some :| 0 <= some < |d.batches| && !d.batches[some].empty;
    SettledWasRead(d, some);
    var last := |d.commits| - 1;
    assert CommitOk(d, last);
    if Awaited(d) {
      AwaitedDoesNotComplete(d);
    } else {
      NotAwaitedCompletes(d, some);
    }
  }

  lemma {:induction false} FewerLines(a: seq<DayBatch>, b: seq<DayBatch>)
    requires |a| <= |b|
    requires forall k :: 0 <= k < |a| && !a[k].empty ==> !b[k].empty
    ensures |AllLines(a)| <= |AllLines(b)|
    ensures (exists k :: 0 <= k < |b| && !b[k].empty && (k >= |a| || a[k].empty)) ==> |AllLines(a)| < |AllLines(b)|
  {
    if |a| < |b| {
      FewerLines(a, b[..|b| - 1]);
    } else if |a| > 0 {
      FewerLines(a[..|a| - 1], b[..|b| - 1]);
    }
  }

  lemma CompleteCoversIff(d: Day, k: nat)
    requires Ok(d) && k < |d.commits| && Completes(d, k)
    ensures AllLines(d.commits[k].seen) == AllLines(d.batches) <==> NothingLate(d, k)
  {
    var seen := d.commits[k].seen;
    assert CommitOk(d, k);
    forall b | 0 <= b < |seen| && !seen[b].empty ensures d.batches[b] == seen[b] {
      CommittedIn(d, k, b);
    }
    if NothingLate(d, k) {
      SameLines(seen, d.batches);
    } else {
      FewerLines(seen, d.batches);
    }
  }

  /** Once every batch with rows is settled, the day was announced if and only if some settle completed
      what it read when every batch that has rows now had them already. Otherwise nobody announces it: the
      last settles waited for a batch that lost its rows. */
  lemma AnnouncedIff(schedule: seq<Event>)
    requires Done(Run(schedule))
    ensures var d := Run(schedule);
            && (Announced(d) <==> exists k :: 0 <= k < |d.commits| && Completes(d, k) && NothingLate(d, k))
            && (!Announced(d) ==> Awaited(d))
  {
    RunOk(schedule);
    LastAnnouncesIff(schedule);
    var d := Run(schedule);
    forall k | 0 <= k < |d.commits|
      ensures d.commits[k].lines == Some(AllLines(d.batches)) <==> Completes(d, k) && NothingLate(d, k)
    {
      assert CommitOk(d, k);
      if Completes(d, k) {
        CompleteCoversIff(d, k);
      }
    }
  }

  lemma AwaitedDoesNotComplete(d: Day)
    requires Ok(d) && Awaited(d)
    ensures d.commits[|d.commits| - 1].lines.None?
  {
    var c := d.commits[|d.commits| - 1];
    var b :| 0 <= b < |c.seen| && !c.seen[b].empty && !Settled(d, b);
    SettledEarlier(d, b);
    assert CommitOk(d, |d.commits| - 1);
  }

  lemma NotAwaitedCompletes(d: Day, some: nat)
    requires Ok(d) && Done(d) && !Awaited(d) && some < |d.batches| && !d.batches[some].empty
    requires |d.commits| > 0
    ensures LastAnnounces(d)
  {
    var last := |d.commits| - 1;
    var seen := d.commits[last].seen;
    assert CommitOk(d, last);
    assert Settled(d, some);
    SettledWasRead(d, some);
    forall b | 0 <= b < |seen| && !seen[b].empty ensures b == d.commits[last].b || SettledIn(d.commits[..last], b) {
      assert Settled(d, b);
      SettledWasRead(d, b);
    }
    forall b | 0 <= b < |d.batches| && !d.batches[b].empty ensures b < |seen| && d.batches[b] == seen[b] {
      assert Settled(d, b);
      SettledWasRead(d, b);
    }
    forall b | 0 <= b < |seen| && !seen[b].empty ensures d.batches[b] == seen[b] {
      assert Settled(d, b);
      SettledWasRead(d, b);
    }
    SameLines(seen, d.batches);
  }

  predicate OnlyEnqueue(d: Day, k: nat)
    requires k < |d.commits|
  {
    d.commits[k].lines.Some? && forall j :: 0 <= j < |d.commits| && j != k ==> d.commits[j].lines.None?
  }

  predicate EnqueuedOnce(d: Day) {
    exists k :: 0 <= k < |d.commits| && OnlyEnqueue(d, k)
  }

  /** The first settle with which every batch with rows was settled. */
  predicate FirstComplete(d: Day, k: nat)
    requires k < |d.commits|
  {
    Completes(d, k) && forall j :: 0 <= j < k ==> !Completes(d, j)
  }

  /** Settle m still waits for a batch that got its rows after settle k read the day. */
  predicate WaitsForLate(d: Day, k: nat, m: nat)
    requires k < |d.commits| && m < |d.commits|
  {
    exists b :: 0 <= b < |d.commits[m].seen| && !d.commits[m].seen[b].empty
                && !SettledIn(d.commits[..m + 1], b) && LateFor(d, k, b)
  }

  /** After the first settle that completed the day, another one enqueues unless it waits for a batch that
      got its rows since. */
  lemma LaterSettle(d: Day, k: nat, m: nat)
    requires Ok(d) && k < m < |d.commits| && Completes(d, k)
    ensures d.commits[m].lines.None? <==> WaitsForLate(d, k, m)
    ensures LateFor(d, k, d.commits[m].b)
  {
    assert CommitOk(d, k) && CommitOk(d, m);
    var seen, later := d.commits[k].seen, d.commits[m].seen;
    var some :| 0 <= some < |seen| && !seen[some].empty;
    StillSettled(d, k, m, some);
    SentStays(d, k, m, some);
    if d.commits[m].lines.None? {
      var b :| 0 <= b < |later| && !later[b].empty && b != d.commits[m].b && !SettledIn(d.commits[..m], b);
      NotSettledBy(d, m, b);
      if !LateFor(d, k, b) {
        StillSettled(d, k, m, b);
      }
    } else if WaitsForLate(d, k, m) {
      var b :| 0 <= b < |later| && !later[b].empty && !SettledIn(d.commits[..m + 1], b) && LateFor(d, k, b);
      NotSettledBy(d, m, b);
    }
    if !LateFor(d, k, d.commits[m].b) {
      StillSettled(d, k, m, d.commits[m].b);
    }
  }

  /** Settled by k is settled before m. */
  lemma StillSettled(d: Day, k: nat, m: nat, b: nat)
    requires Ok(d) && k < m < |d.commits| && Completes(d, k)
    requires b < |d.commits[k].seen| && !d.commits[k].seen[b].empty
    ensures SettledIn(d.commits[..m], b)
  {
    if b == d.commits[k].b {
      assert d.commits[..m][k].b == b;
    } else {
      var j :| 0 <= j < k && d.commits[..k][j].b == b;
      assert d.commits[..m][j].b == b;
    }
  }

  lemma NotSettledBy(d: Day, m: nat, b: nat)
    requires m < |d.commits|
    ensures SettledIn(d.commits[..m + 1], b) <==> SettledIn(d.commits[..m], b) || d.commits[m].b == b
  {
    assert d.commits[..m + 1] == d.commits[..m] + [d.commits[m]];
    assert d.commits[..m + 1][m] == d.commits[m];
    assert forall j :: 0 <= j < m ==> d.commits[..m + 1][j] == d.commits[..m][j];
  }

  /** What k listed and was settled by then is listed by m as well. */
  lemma SentStays(d: Day, k: nat, m: nat, b: nat)
    requires Ok(d) && k < m < |d.commits| && Completes(d, k)
    requires b < |d.commits[k].seen| && !d.commits[k].seen[b].empty
    ensures b < |d.commits[m].seen| && !d.commits[m].seen[b].empty
  {
    assert CommitOk(d, k) && CommitOk(d, m);
    StillSettled(d, k, m, b);
    var j :| 0 <= j < m && d.commits[..m][j].b == b;
    assert Knows(d.commits[m].seen, d.commits[j].b);
    CommittedIn(d, k, b);
    assert d.batches[b] == d.commits[m].seen[b];
  }

  lemma CommittedIn(d: Day, k: nat, b: nat)
    requires Ok(d) && k < |d.commits| && Completes(d, k)
    requires b < |d.commits[k].seen| && !d.commits[k].seen[b].empty
    ensures d.commits[k].seen[b].sent && b < |d.batches| && d.batches[b] == d.commits[k].seen[b]
  {
    assert CommitOk(d, k);
    if b == d.commits[k].b {
      assert Knows(d.commits[k].seen, d.commits[k].b);
    } else {
      var j :| 0 <= j < k && d.commits[..k][j].b == b;
      assert Knows(d.commits[k].seen, d.commits[j].b);
    }
  }

  /** Exactly one settle of a day enqueues if and only if one completed the day and every settle after the
      first that did still waited for a batch that got its rows later. What is settled after it is a batch
      that had no rows, or did not exist, at that time. */
  lemma EnqueuedOnceIff(schedule: seq<Event>)
    ensures var d := Run(schedule);
            EnqueuedOnce(d) <==>
            exists k :: 0 <= k < |d.commits| && FirstComplete(d, k)
                        && forall m :: k < m < |d.commits| ==> WaitsForLate(d, k, m)
  {
    RunOk(schedule);
    var d := Run(schedule);
    assert forall k :: 0 <= k < |d.commits| ==> CommitOk(d, k);
    if EnqueuedOnce(d) {
      var k :| 0 <= k < |d.commits| && OnlyEnqueue(d, k);
      OnceMeans(d, k);
    }
    forall k | 0 <= k < |d.commits| && FirstComplete(d, k) && forall m :: k < m < |d.commits| ==> WaitsForLate(d, k, m)
      ensures EnqueuedOnce(d)
    {
      OnceBecause(d, k);
    }
  }

  lemma OnceMeans(d: Day, k: nat)
    requires Ok(d) && k < |d.commits| && OnlyEnqueue(d, k)
    ensures FirstComplete(d, k) && forall m :: k < m < |d.commits| ==> WaitsForLate(d, k, m)
  {
    forall j | 0 <= j <= k ensures Completes(d, j) <==> j == k {
      assert CommitOk(d, j);
    }
    forall m | k < m < |d.commits| ensures WaitsForLate(d, k, m) {
      LaterSettle(d, k, m);
    }
  }

  lemma OnceBecause(d: Day, k: nat)
    requires Ok(d) && k < |d.commits| && FirstComplete(d, k)
    requires forall m :: k < m < |d.commits| ==> WaitsForLate(d, k, m)
    ensures OnlyEnqueue(d, k)
  {
    forall j | 0 <= j < |d.commits| ensures d.commits[j].lines.Some? <==> j == k {
      assert CommitOk(d, j);
      if j > k {
        LaterSettle(d, k, j);
      }
    }
  }

  /** For a day that is done and announced: exactly once if and only if nothing was settled after the day
      was complete for the first time. */
  lemma OnceIffNothingSettledLater(schedule: seq<Event>)
    requires Done(Run(schedule)) && !Awaited(Run(schedule))
    ensures var d := Run(schedule);
            EnqueuedOnce(d) <==> |d.commits| > 0 && FirstComplete(d, |d.commits| - 1)
  {
    RunOk(schedule);
    LastAnnouncesIff(schedule);
    var d := Run(schedule);
    var last := |d.commits| - 1;
    assert CommitOk(d, last);
    if EnqueuedOnce(d) {
      var k :| 0 <= k < |d.commits| && OnlyEnqueue(d, k);
      OnceMeans(d, k);
    }
    if FirstComplete(d, last) {
      OnceBecause(d, last);
    }
  }

  // ----- an undisturbed settle, and what goes wrong -----

  lemma Then(schedule: seq<Event>, e: Event)
    ensures Run(schedule + [e]) == Next(Run(schedule), e)
  {
    assert (schedule + [e])[..|schedule|] == schedule;
  }

  predicate Quiet(d: Day) {
    forall i :: 0 <= i < |d.settles| ==> d.settles[i].Gone?
  }

  /** The commit of a settle that nobody disturbs. */
  function Alone(d: Day, b: nat): Commit {
    var lines := Lines(d.batches, d.commits, b);
    Commit(b, d.batches, if AllSettled(lines) && |lines| > 0 then Some(lines) else None)
  }

  /** With nobody else around, a settle of a submitted batch commits. */
  lemma SettleAlone(schedule: seq<Event>, b: nat) returns (more: seq<Event>)
    requires Quiet(Run(schedule)) && Knows(Run(schedule).batches, b) && !Settled(Run(schedule), b)
    ensures Quiet(Run(more)) && Run(more).batches == Run(schedule).batches
    ensures Run(more).commits == Run(schedule).commits + [Alone(Run(schedule), b)]
  {
    var d := Run(schedule);
    var i := |d.settles|;
    Then(schedule, Begin(b));
    more := schedule + [Begin(b)];
    Then(more, Move(i));
    more := more + [Move(i)];
    assert Run(more) == d.(settles := d.settles + [Written(b)]);
    Then(more, Move(i));
    more := more + [Move(i)];
    assert Run(more) == d.(settles := d.settles + [Locked(b)]);
    Then(more, Move(i));
    more := more + [Move(i)];
    Then(more, Move(i));
    more := more + [Move(i)];
  }

  /** A settle can fail at any point, and then leaves nothing but itself. */
  lemma AbortsHappen(d: Day, i: nat)
    requires i < |d.settles|
    ensures Next(d, Abort(i)) == d.(settles := d.settles[i := Gone])
  {
  }

  /** A batch of the day with one sale, submitted or not. */
  lemma OneBatch(schedule: seq<Event>, cents: int, empty: bool, submit: bool) returns (more: seq<Event>)
    requires Quiet(Run(schedule))
    ensures Quiet(Run(more)) && Run(more).commits == Run(schedule).commits
    ensures Run(more).batches == Run(schedule).batches + [DayBatch(0, cents, empty, submit)]
  {
    var b := |Run(schedule).batches|;
    Then(schedule, Appear(0));
    more := schedule + [Appear(0)];
    Then(more, Edit(b, cents, empty));
    more := more + [Edit(b, cents, empty)];
    if submit {
      Then(more, Submit(b));
      more := more + [Submit(b)];
    }
  }

  /** One batch with rows was settled, and then another batch of the same day. */
  lemma SettledTwice(schedule: seq<Event>)
    requires var d := Run(schedule);
             && |d.batches| == 2 && |d.commits| == 2 && d.commits[0].b == 0 && d.commits[1].b == 1
             && d.commits[1].seen == d.batches && !d.batches[0].empty
             && (d.commits[0].seen == d.batches[..1] || (d.commits[0].seen == d.batches && d.batches[1].empty))
    ensures Done(Run(schedule)) && !Awaited(Run(schedule)) && !EnqueuedOnce(Run(schedule))
  {
    var d := Run(schedule);
    assert Settled(d, 0) && Settled(d, 1);
    assert Completes(d, 0) by {
      assert !d.commits[0].seen[0].empty;
    }
    OnceIffNothingSettledLater(schedule);
  }

  /** A batch without rows that is settled after the day is complete announces it again. */
  lemma EmptyBatchEnqueuesAgain() returns (schedule: seq<Event>)
    ensures Done(Run(schedule)) && !Awaited(Run(schedule)) && !EnqueuedOnce(Run(schedule))
    ensures |Run(schedule).batches| == 2 && Run(schedule).batches[1].empty
  {
    schedule := OneBatch([], 100, false, true);
    schedule := OneBatch(schedule, 0, true, true);
    var n := SettleAlone(schedule, 0);
    schedule := SettleAlone(n, 1);
    SettledTwice(schedule);
  }

  /** So does a batch with rows that appears later on the same day. */
  lemma LateBatchEnqueuesAgain() returns (schedule: seq<Event>)
    ensures Done(Run(schedule)) && !Awaited(Run(schedule)) && !EnqueuedOnce(Run(schedule))
    ensures |Run(schedule).batches| == 2 && !Run(schedule).batches[1].empty
  {
    schedule := OneBatch([], 100, false, true);
    schedule := SettleAlone(schedule, 0);
    schedule := OneBatch(schedule, 50, false, true);
    schedule := SettleAlone(schedule, 1);
    SettledTwice(schedule);
  }

  /** A batch is settled while another one, in dispute, holds one reversal, and then the operator excludes
      that reversal: every batch with rows is settled, and nobody announced the day. */
  lemma ExcludedRowsMissCompletion() returns (schedule: seq<Event>)
    ensures var d := Run(schedule); Done(d) && Quiet(d) && Awaited(d) && !Announced(d)
    ensures forall k :: 0 <= k < |Run(schedule).commits| ==> Run(schedule).commits[k].lines.None?
  {
    schedule := OneBatch([], 100, false, true);
    schedule := OneBatch(schedule, -30, false, false);
    schedule := SettleAlone(schedule, 0);
    var d := Run(schedule);
    Then(schedule, Edit(1, -30, true));
    schedule := schedule + [Edit(1, -30, true)];
    var n := Run(schedule);
    assert n.commits == d.commits && n.commits[0].b == 0;
    assert Settled(n, 0) && !n.batches[0].empty;
    assert !n.commits[0].seen[1].empty && !Settled(n, 1);
    RunOk(schedule);
    AwaitedDoesNotComplete(n);
  }
}
