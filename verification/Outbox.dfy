/** The transactional outbox: entries are inserted with the commit that produces them, and any number of
    relays publish and delete them, each in one database transaction that can fail at any point. */
module Outbox {
  import opened Ledger

  /** A row of the outbox; its id is its position in commit order, and stands for the event id. */
  datatype Pending = Pending(id: nat, entry: Entry)

  /** A relay inside publishPending: the rows it selected, and how many it published and deleted. */
  datatype Relay = Idle | Publishing(taken: seq<Pending>, done: nat)

  /** `entries` are all those ever committed; `stream` the ids that JetStream holds. */
  datatype State = State(entries: seq<Entry>, rows: seq<Pending>, stream: seq<nat>, relays: seq<Relay>)

  const INITIAL := State([], [], [], [])

  /** JetStream drops a message whose id it already holds. */
  function Publish(stream: seq<nat>, id: nat): seq<nat> {
    if id in stream then stream else stream + [id]
  }

  predicate Taken(relays: seq<Relay>, id: nat) {
    exists i :: 0 <= i < |relays| && relays[i].Publishing?
                && exists k :: 0 <= k < |relays[i].taken| && relays[i].taken[k].id == id
  }

  /** SELECT ... ORDER BY created_at LIMIT ... FOR UPDATE SKIP LOCKED. */
  function Select(rows: seq<Pending>, relays: seq<Relay>, limit: nat): seq<Pending> {
    if |rows| == 0 then []
    else
      var rest, last := Select(rows[..|rows| - 1], relays, limit), rows[|rows| - 1];
      if |rest| < limit && !Taken(relays, last.id) then rest + [last] else rest
  }

  /** The deletes of the first n taken rows. */
  function Delete(rows: seq<Pending>, taken: seq<Pending>, n: nat): seq<Pending>
    requires n <= |taken|
  {
    if |rows| == 0 then []
    else
      var last := rows[|rows| - 1];
      Delete(rows[..|rows| - 1], taken, n)
      + if exists k :: 0 <= k < n && taken[k].id == last.id then [] else [last]
  }

  datatype Event =
    | Enqueue(entry: Entry)       // committed with its operation
    | Begin(limit: nat)
    | PublishNext(i: nat)         // published, acknowledged and deleted
    | PublishLost(i: nat)         // reached the stream, but the acknowledgement did not come back
    | Commit(i: nat)
    | Rollback(i: nat)            // failed publish, failed commit or crash

  function At(s: State, i: nat): Relay {
    if i < |s.relays| then s.relays[i] else Idle
  }

  function Put(s: State, i: nat, r: Relay): State {
    if i < |s.relays| then s.(relays := s.relays[i := r]) else s
  }

  function Next(s: State, e: Event): State {
    match e
    case Enqueue(entry) => s.(entries := s.entries + [entry], rows := s.rows + [Pending(|s.entries|, entry)])
    case Begin(limit) => s.(relays := s.relays + [Publishing(Select(s.rows, s.relays, limit), 0)])
    case PublishNext(i) =>
      (match At(s, i)
       case Idle => s
       case Publishing(taken, done) =>
         if done < |taken| then Put(s, i, Publishing(taken, done + 1)).(stream := Publish(s.stream, taken[done].id))
         else s)
    case PublishLost(i) =>
      (match At(s, i)
       case Idle => s
       case Publishing(taken, done) =>
         if done < |taken| then Put(s, i, Idle).(stream := Publish(s.stream, taken[done].id)) else s)
    case Commit(i) =>
      (match At(s, i)
       case Idle => s
       case Publishing(taken, done) =>
         if done == |taken| then Put(s, i, Idle).(rows := Delete(s.rows, taken, done)) else s)
    case Rollback(i) => Put(s, i, Idle)
  }

  function Run(schedule: seq<Event>): State {
    if |schedule| == 0 then INITIAL else Next(Run(schedule[..|schedule| - 1]), schedule[|schedule| - 1])
  }

  // ----- what every run keeps -----

  predicate Distinct(stream: seq<nat>) {
    forall j, k :: 0 <= j < k < |stream| ==> stream[j] != stream[k]
  }

  predicate RowOk(s: State, p: Pending) {
    p.id < |s.entries| && p.entry == s.entries[p.id]
  }

  predicate InRows(rows: seq<Pending>, id: nat) {
    exists k :: 0 <= k < |rows| && rows[k].id == id
  }

  predicate RelayOk(s: State, r: Relay) {
    r.Publishing? ==>
      && r.done <= |r.taken|
      && (forall k :: 0 <= k < |r.taken| ==> RowOk(s, r.taken[k]) && InRows(s.rows, r.taken[k].id))
      && (forall k :: 0 <= k < r.done ==> r.taken[k].id in s.stream)
  }

  predicate Holds(r: Relay, id: nat) {
    r.Publishing? && exists k :: 0 <= k < |r.taken| && r.taken[k].id == id
  }

  predicate Apart(q: Relay, r: Relay) {
    q.Publishing? ==> forall k :: 0 <= k < |q.taken| ==> !Holds(r, q.taken[k].id)
  }

  predicate Ok(s: State) {
    && Distinct(s.stream)
    && (forall k :: 0 <= k < |s.rows| ==> RowOk(s, s.rows[k]))
    && (forall id :: 0 <= id < |s.entries| ==> InRows(s.rows, id) || id in s.stream)
    && (forall id :: id in s.stream ==> id < |s.entries|)
    && (forall i :: 0 <= i < |s.relays| ==> RelayOk(s, s.relays[i]))
    && (forall i, j :: 0 <= i < |s.relays| && 0 <= j < |s.relays| && i != j ==> Apart(s.relays[i], s.relays[j]))
  }

  lemma {:induction false} SelectMeans(rows: seq<Pending>, relays: seq<Relay>, limit: nat)
    ensures |Select(rows, relays, limit)| <= limit
    ensures forall k :: 0 <= k < |Select(rows, relays, limit)| ==>
              var p := Select(rows, relays, limit)[k]; p in rows && InRows(rows, p.id) && !Taken(relays, p.id)
  {
    if |rows| > 0 {
      var front, last := rows[..|rows| - 1], rows[|rows| - 1];
      SelectMeans(front, relays, limit);
      var rest, all := Select(front, relays, limit), Select(rows, relays, limit);
      forall k | 0 <= k < |all| ensures all[k] in rows && InRows(rows, all[k].id) && !Taken(relays, all[k].id) {
        if k < |rest| {
          assert all[k] == rest[k] && rest[k] in front;
        } else {
          assert rows[|rows| - 1] == all[k];
        }
      }
    }
  }

  lemma {:induction false} DeleteMeans(rows: seq<Pending>, taken: seq<Pending>, n: nat, id: nat)
    requires n <= |taken|
    ensures InRows(Delete(rows, taken, n), id) <==> InRows(rows, id) && !(exists k :: 0 <= k < n && taken[k].id == id)
    ensures forall p :: p in Delete(rows, taken, n) ==> p in rows
  {
    if |rows| > 0 {
      var front, last := rows[..|rows| - 1], rows[|rows| - 1];
      DeleteMeans(front, taken, n, id);
      InRowsAppend(front, last, id);
      assert front + [last] == rows;
      InRowsAppend(Delete(front, taken, n), last, id);
      if exists k :: 0 <= k < n && taken[k].id == last.id {
        assert Delete(rows, taken, n) == Delete(front, taken, n);
      }
    }
  }

  lemma InRowsAppend(rows: seq<Pending>, p: Pending, id: nat)
    ensures InRows(rows + [p], id) <==> InRows(rows, id) || p.id == id
  {
    var all := rows + [p];
    assert all[|rows|] == p;
    assert forall k :: 0 <= k < |rows| ==> all[k] == rows[k];
  }

  lemma EnqueueOk(s: State, entry: Entry)
    requires Ok(s)
    ensures Ok(Next(s, Enqueue(entry)))
  {
    var n := Next(s, Enqueue(entry));
    forall id | InRows(s.rows, id) || id == |s.entries| ensures InRows(n.rows, id) {
      InRowsAppend(s.rows, Pending(|s.entries|, entry), id);
    }
    forall i | 0 <= i < |n.relays| ensures RelayOk(n, n.relays[i]) {
      assert RelayOk(s, s.relays[i]);
    }
  }

  lemma BeginOk(s: State, limit: nat)
    requires Ok(s)
    ensures Ok(Next(s, Begin(limit)))
  {
    var n := Next(s, Begin(limit));
    var taken := Select(s.rows, s.relays, limit);
    SelectMeans(s.rows, s.relays, limit);
    var r := Publishing(taken, 0);
    forall i | 0 <= i < |n.relays| ensures RelayOk(n, n.relays[i]) {
      assert i < |s.relays| ==> RelayOk(s, s.relays[i]);
      assert i == |s.relays| ==> n.relays[i] == r && forall k :: 0 <= k < |taken| ==> taken[k] in s.rows;
    }
    forall i | 0 <= i < |s.relays| ensures Apart(s.relays[i], r) && Apart(r, s.relays[i]) {
      var q := s.relays[i];
      forall id | Holds(q, id) ensures Taken(s.relays, id) {
      }
    }
  }

  /** A relay moves on; the stream may grow by the message it is publishing. */
  lemma RelayStepOk(s: State, n: State, i: nat, r: Relay, id: nat)
    requires Ok(s) && i < |s.relays| && n == s.(relays := s.relays[i := r], stream := n.stream)
    requires n.stream == s.stream || (n.stream == Publish(s.stream, id) && id < |s.entries|)
    requires RelayOk(n, r) && (r.Publishing? ==> s.relays[i].Publishing? && r.taken == s.relays[i].taken)
    ensures Ok(n)
  {
    forall j | 0 <= j < |n.relays| ensures RelayOk(n, n.relays[j]) {
      assert RelayOk(s, s.relays[j]);
    }
    forall j, k | 0 <= j < |n.relays| && 0 <= k < |n.relays| && j != k ensures Apart(n.relays[j], n.relays[k]) {
      assert Apart(s.relays[j], s.relays[k]);
    }
  }

  lemma CommitOk(s: State, i: nat)
    requires Ok(s) && i < |s.relays| && s.relays[i].Publishing? && s.relays[i].done == |s.relays[i].taken|
    ensures Ok(Next(s, Commit(i)))
  {
    var n, r := Next(s, Commit(i)), s.relays[i];
    var m := |r.taken|;
    assert RelayOk(s, r);
    forall id ensures InRows(n.rows, id) <==> InRows(s.rows, id) && !(exists k :: 0 <= k < m && r.taken[k].id == id) {
      DeleteMeans(s.rows, r.taken, m, id);
    }
    forall k | 0 <= k < |n.rows| ensures RowOk(n, n.rows[k]) {
      DeleteMeans(s.rows, r.taken, m, 0);
      assert n.rows[k] in n.rows;
    }
    forall j | 0 <= j < |n.relays| ensures RelayOk(n, n.relays[j]) {
      if j != i {
        assert RelayOk(s, s.relays[j]) && Apart(s.relays[j], r);
      }
    }
    forall j, k | 0 <= j < |n.relays| && 0 <= k < |n.relays| && j != k ensures Apart(n.relays[j], n.relays[k]) {
      assert Apart(s.relays[j], s.relays[k]);
    }
  }

  lemma NextOk(s: State, e: Event)
    requires Ok(s)
    ensures Ok(Next(s, e))
  {
    match e
    case Enqueue(entry) => EnqueueOk(s, entry);
    case Begin(limit) => BeginOk(s, limit);
    case PublishNext(i) => PublishOk(s, e, i);
    case PublishLost(i) => PublishOk(s, e, i);
    case Commit(i) =>
      if At(s, i).Publishing? && At(s, i).done == |At(s, i).taken| {
        CommitOk(s, i);
      }
    case Rollback(i) =>
      if i < |s.relays| {
        RelayStepOk(s, Next(s, e), i, Idle, 0);
      }
  }

  lemma PublishOk(s: State, e: Event, i: nat)
    requires Ok(s) && (e == PublishNext(i) || e == PublishLost(i))
    ensures Ok(Next(s, e))
  {
    if At(s, i).Publishing? && At(s, i).done < |At(s, i).taken| {
      var r, n := s.relays[i], Next(s, e);
      assert RelayOk(s, r);
      RelayStepOk(s, n, i, n.relays[i], r.taken[r.done].id);
    }
  }

  lemma {:induction false} RunOk(schedule: seq<Event>)
    ensures Ok(Run(schedule))
  {
    if |schedule| > 0 {
      RunOk(schedule[..|schedule| - 1]);
      NextOk(Run(schedule[..|schedule| - 1]), schedule[|schedule| - 1]);
    }
  }

  /** An acknowledgement can be lost after its message reached the stream, and a relay can roll back at any time. */
  lemma FailuresHappen(s: State, i: nat)
    requires i < |s.relays| && s.relays[i].Publishing? && s.relays[i].done < |s.relays[i].taken|
    ensures var r := s.relays[i];
            && Next(s, Rollback(i)) == s.(relays := s.relays[i := Idle])
            && Next(s, PublishLost(i)) == Next(s, Rollback(i)).(stream := Next(s, PublishNext(i)).stream)
            && r.taken[r.done].id in Next(s, PublishLost(i)).stream
  {
  }

  // ----- what it means -----

  /** With any number of relays, failed publishes, lost acknowledgements and crashes between publish and
      commit: every committed entry is still pending or is in the stream, the stream holds each id at
      most once and nothing that was not committed, and no two relays hold the same row. */
  lemma NothingIsLost(schedule: seq<Event>)
    ensures var s := Run(schedule);
            && (forall id :: 0 <= id < |s.entries| ==> InRows(s.rows, id) || id in s.stream)
            && Distinct(s.stream) && (forall id :: id in s.stream ==> id < |s.entries|)
            && (forall i, j, id :: 0 <= i < j < |s.relays| && Holds(s.relays[i], id) ==> !Holds(s.relays[j], id))
  {
    RunOk(schedule);
  }

  // ----- publishPending as a method -----

  function PublishAll(stream: seq<nat>, taken: seq<Pending>, n: nat): seq<nat>
    requires n <= |taken|
  {
    if n == 0 then stream else Publish(PublishAll(stream, taken, n - 1), taken[n - 1].id)
  }

  /** Ids are given in commit order, and rows are read in that order. */
  predicate Ordered(rows: seq<Pending>) {
    forall j, k :: 0 <= j < k < |rows| ==> rows[j].id < rows[k].id
  }

  function Min(a: nat, b: nat): nat {
    if a <= b then a else b
  }

  lemma {:induction false} SelectGrows(rows: seq<Pending>, relays: seq<Relay>, limit: nat, k: nat)
    requires k <= |rows|
    ensures Select(rows[..k], relays, limit) <= Select(rows, relays, limit)
  {
    if k == |rows| {
      assert rows[..k] == rows;
    } else {
      SelectGrows(rows[..|rows| - 1], relays, limit, k);
      assert rows[..|rows| - 1][..k] == rows[..k];
    }
  }

  /** A row that nobody holds is taken, unless `limit` earlier ones are. */
  lemma SelectedUnlessFull(rows: seq<Pending>, relays: seq<Relay>, limit: nat, k: nat)
    requires k < |rows| && !Taken(relays, rows[k].id)
    ensures rows[k] in Select(rows, relays, limit) || |Select(rows[..k], relays, limit)| == limit
    ensures Select(rows[..k], relays, limit) <= Select(rows, relays, limit)
  {
    SelectGrows(rows, relays, limit, k);
    SelectGrows(rows, relays, limit, k + 1);
    SelectMeans(rows[..k], relays, limit);
    assert rows[..k + 1][..k] == rows[..k];
    if |Select(rows[..k], relays, limit)| < limit {
      var upto := Select(rows[..k + 1], relays, limit);
      assert upto[|upto| - 1] == rows[k];
    }
  }

  /** When no relay holds a row, the first ones are taken. */
  lemma {:induction false} SelectIsFirst(rows: seq<Pending>, relays: seq<Relay>, limit: nat)
    requires forall i :: 0 <= i < |relays| ==> relays[i].Idle?
    ensures Select(rows, relays, limit) == rows[..Min(limit, |rows|)]
  {
    if |rows| > 0 {
      var front, last := rows[..|rows| - 1], rows[|rows| - 1];
      SelectIsFirst(front, relays, limit);
      assert !Taken(relays, last.id);
      if |front| < limit {
        assert rows[..|rows|] == front + [last];
      } else {
        assert rows[..limit] == front[..limit];
      }
    }
  }

  lemma {:induction false} DeleteFirst(rows: seq<Pending>, taken: seq<Pending>)
    requires Ordered(rows) && |taken| <= |rows| && taken == rows[..|taken|]
    ensures Delete(rows, taken, |taken|) == rows[|taken|..]
  {
    if |rows| > 0 {
      var front, last := rows[..|rows| - 1], rows[|rows| - 1];
      if |taken| == |rows| {
        DeleteAll(rows, taken);
      } else {
        DeleteFirst(front, taken);
        assert rows[|taken|..] == front[|taken|..] + [last];
      }
    }
  }

  lemma {:induction false} DeleteAll(rows: seq<Pending>, taken: seq<Pending>)
    requires forall p :: p in rows ==> p in taken
    ensures |Delete(rows, taken, |taken|)| == 0
  {
    if |rows| > 0 {
      var last := rows[|rows| - 1];
      DeleteAll(rows[..|rows| - 1], taken);
      assert last in taken;
      var k :| 0 <= k < |taken| && taken[k] == last;
    }
  }

  /** The stream gets the ids that it does not hold yet, and loses none. */
  lemma {:induction false} PublishedAll(stream: seq<nat>, taken: seq<Pending>, n: nat)
    requires n <= |taken|
    ensures stream <= PublishAll(stream, taken, n)
    ensures forall id :: id in PublishAll(stream, taken, n) <==>
            id in stream || exists k :: 0 <= k < n && taken[k].id == id
  {
    if n > 0 {
      PublishedAll(stream, taken, n - 1);
      var before, after := PublishAll(stream, taken, n - 1), PublishAll(stream, taken, n);
      forall id ensures id in after <==> id in stream || exists k :: 0 <= k < n && taken[k].id == id {
        if id == taken[n - 1].id {
          assert id in after;
        } else {
          assert id in after <==> id in before;
        }
      }
    }
  }

  /** The first rows, at most `limit`, went from the table to the stream. */
  predicate PassedOn(rows: seq<Pending>, stream: seq<nat>, nowRows: seq<Pending>, nowStream: seq<nat>, limit: nat) {
    var m := Min(limit, |rows|);
    && nowRows == rows[m..] && stream <= nowStream
    && (forall k :: 0 <= k < m ==> rows[k].id in nowStream)
    && (forall id :: id in nowStream ==> id in stream || exists k :: 0 <= k < m && rows[k].id == id)
  }

  lemma PassIs(rows: seq<Pending>, relays: seq<Relay>, stream: seq<nat>, limit: nat)
    requires Ordered(rows) && forall i :: 0 <= i < |relays| ==> relays[i].Idle?
    ensures var taken := Select(rows, relays, limit);
            PassedOn(rows, stream, Delete(rows, taken, |taken|), PublishAll(stream, taken, |taken|), limit)
  {
    var taken := Select(rows, relays, limit);
    SelectIsFirst(rows, relays, limit);
    DeleteFirst(rows, taken);
    PublishedAll(stream, taken, |taken|);
  }

  lemma PublishedSome(rows: seq<Pending>, stream: seq<nat>, limit: nat, broken: nat, reached: bool)
    ensures var taken := Select(rows, [], limit);
            var n := if broken < |taken| then broken + (if reached then 1 else 0) else |taken|;
            stream <= PublishAll(stream, taken, n)
  {
    var taken := Select(rows, [], limit);
    PublishedAll(stream, taken, if broken < |taken| then broken + (if reached then 1 else 0) else |taken|);
  }

  /** One relay on its own, over the table and the stream. */
  class Database {
    var rows: seq<Pending>
    var stream: seq<nat>

    constructor ()
      ensures rows == [] && stream == []
    {
      rows, stream := [], [];
    }

    /** Publishing fails at row `broken`, after reaching the stream if `reached`; the commit may fail.
        A failure rolls the deletes back, but not what was published. */
    method PublishPending(limit: nat, broken: nat, reached: bool, commits: bool) returns (ok: bool)
      modifies this
      ensures var taken := Select(old(rows), [], limit);
              var n := if broken < |taken| then broken + (if reached then 1 else 0) else |taken|;
              && stream == PublishAll(old(stream), taken, n)
              && rows == (if ok then Delete(old(rows), taken, |taken|) else old(rows))
              && (ok <==> broken >= |taken| && commits)
      ensures Ordered(old(rows)) && ok ==> PassedOn(old(rows), old(stream), rows, stream, limit)
      ensures !ok ==> rows == old(rows) && old(stream) <= stream
    {
      ghost var table := rows;
      if Ordered(table) {
        PassIs(table, [], stream, limit);
      }
      PublishedSome(table, stream, limit, broken, reached);
      var taken := Select(rows, [], limit);
      if |taken| == 0 {
        DeleteNothing(rows, taken);
        return commits;
      }
      ghost var was := stream;
      for i := 0 to |taken|
        invariant i <= broken && stream == PublishAll(was, taken, i) && rows == old(rows)
      {
        if i == broken {
          if reached {
            stream := Publish(stream, taken[i].id);
          }
          return false;
        }
        stream := Publish(stream, taken[i].id);
      }
      if !commits {
        return false;
      }
      rows := Delete(rows, taken, |taken|);
      return true;
    }
  }

  lemma {:induction false} DeleteNothing(rows: seq<Pending>, taken: seq<Pending>)
    ensures Delete(rows, taken, 0) == rows
  {
    if |rows| > 0 {
      DeleteNothing(rows[..|rows| - 1], taken);
    } else {
      assert rows == [];
    }
  }

  lemma Then(schedule: seq<Event>, e: Event)
    ensures Run(schedule + [e]) == Next(Run(schedule), e)
  {
    assert (schedule + [e])[..|schedule|] == schedule;
  }

  lemma {:induction false} DeleteKeepsOrder(rows: seq<Pending>, taken: seq<Pending>, n: nat)
    requires Ordered(rows) && n <= |taken|
    ensures Ordered(Delete(rows, taken, n))
  {
    if |rows| > 0 {
      var front, last := rows[..|rows| - 1], rows[|rows| - 1];
      DeleteKeepsOrder(front, taken, n);
      DeleteMeans(front, taken, n, 0);
      var kept := Delete(front, taken, n);
      forall k | 0 <= k < |kept| ensures kept[k].id < last.id {
        assert kept[k] in front;
      }
    }
  }

  lemma {:induction false} RowsAreOrdered(schedule: seq<Event>)
    ensures Ordered(Run(schedule).rows)
  {
    if |schedule| > 0 {
      var s, e := Run(schedule[..|schedule| - 1]), schedule[|schedule| - 1];
      RowsAreOrdered(schedule[..|schedule| - 1]);
      RunOk(schedule[..|schedule| - 1]);
      match e
      case Enqueue(entry) => assert forall k :: 0 <= k < |s.rows| ==> RowOk(s, s.rows[k]);
      case Commit(i) =>
        if At(s, i).Publishing? && At(s, i).done == |At(s, i).taken| {
          DeleteKeepsOrder(s.rows, At(s, i).taken, At(s, i).done);
        }
      case _ =>
    }
  }

  predicate AllIdle(s: State) {
    forall i :: 0 <= i < |s.relays| ==> s.relays[i].Idle?
  }

  /** The state with one more relay, which published so many of the rows it took. */
  function Working(s: State, taken: seq<Pending>, done: nat): State
    requires done <= |taken|
  {
    s.(relays := s.relays + [Publishing(taken, done)], stream := PublishAll(s.stream, taken, done))
  }

  lemma WorksOn(s: State, taken: seq<Pending>, done: nat)
    requires done < |taken|
    ensures Next(Working(s, taken, done), PublishNext(|s.relays|)) == Working(s, taken, done + 1)
  {
    var n := Next(Working(s, taken, done), PublishNext(|s.relays|));
    assert n.relays == s.relays + [Publishing(taken, done + 1)];
  }

  lemma Commits(s: State, taken: seq<Pending>)
    ensures Next(Working(s, taken, |taken|), Commit(|s.relays|))
         == s.(relays := s.relays + [Idle], stream := PublishAll(s.stream, taken, |taken|),
               rows := Delete(s.rows, taken, |taken|))
  {
    var n := Next(Working(s, taken, |taken|), Commit(|s.relays|));
    assert n.relays == s.relays + [Idle];
  }

  /** Some schedule leads here. */
  ghost predicate Reached(s: State) {
    exists schedule: seq<Event> :: Run(schedule) == s
  }

  lemma Happens(s: State, e: Event)
    requires Reached(s)
    ensures Reached(Next(s, e))
  {
    var schedule: seq<Event> :| Run(schedule) == s;
    Then(schedule, e);
  }

  lemma ReachedOk(s: State)
    requires Reached(s)
    ensures Ok(s) && Ordered(s.rows)
  {
    var schedule: seq<Event> :| Run(schedule) == s;
    RunOk(schedule);
    RowsAreOrdered(schedule);
  }

  lemma {:induction false} Works(s: State, limit: nat, done: nat)
    requires Reached(s) && done <= |Select(s.rows, s.relays, limit)|
    ensures Reached(Working(s, Select(s.rows, s.relays, limit), done))
  {
    if done == 0 {
      Happens(s, Begin(limit));
    } else {
      Works(s, limit, done - 1);
      WorksOn(s, Select(s.rows, s.relays, limit), done - 1);
      Happens(Working(s, Select(s.rows, s.relays, limit), done - 1), PublishNext(|s.relays|));
    }
  }

  /** A relay that nobody disturbs publishes and deletes the oldest rows, at most `limit` of them. */
  lemma UndisturbedPass(s: State, limit: nat) returns (n: State)
    requires Reached(s) && AllIdle(s)
    ensures Reached(n) && AllIdle(n) && n.entries == s.entries && PassedOn(s.rows, s.stream, n.rows, n.stream, limit)
  {
    var taken := Select(s.rows, s.relays, limit);
    ReachedOk(s);
    PassIs(s.rows, s.relays, s.stream, limit);
    Works(s, limit, |taken|);
    Happens(Working(s, taken, |taken|), Commit(|s.relays|));
    Commits(s, taken);
    n := Next(Working(s, taken, |taken|), Commit(|s.relays|));
  }

  lemma {:induction false} RollBack(s: State, i: nat) returns (n: State)
    requires Reached(s) && i <= |s.relays|
    ensures Reached(n) && n == s.(relays := n.relays) && |n.relays| == |s.relays|
    ensures forall j :: 0 <= j < i ==> n.relays[j].Idle?
  {
    n := s;
    if i > 0 {
      n := RollBack(s, i - 1);
      Happens(n, Rollback(i - 1));
      n := Next(n, Rollback(i - 1));
    }
  }

  lemma {:induction false} PassesDrain(s: State, limit: nat) returns (n: State)
    requires Reached(s) && AllIdle(s) && limit > 0
    ensures Reached(n) && n.entries == s.entries && |n.rows| == 0
    decreases |s.rows|
  {
    n := s;
    if |s.rows| > 0 {
      n := UndisturbedPass(s, limit);
      n := PassesDrain(n, limit);
    }
  }

  /** From the end of any run, once the failures stop, every committed entry reaches the stream and leaves the
      table. */
  lemma EverythingIsPublished(s: State, limit: nat) returns (n: State)
    requires Reached(s) && limit > 0
    ensures Reached(n) && n.entries == s.entries && |n.rows| == 0
    ensures forall id :: 0 <= id < |s.entries| ==> id in n.stream
  {
    n := RollBack(s, |s.relays|);
    n := PassesDrain(n, limit);
    ReachedOk(n);
  }
}

/** The BatchClosed entries of the ledger, and what becomes of them. */
module CloseEvents {
  import opened Options
  import opened Batches
  import opened Ledger

  /** The commit took the batch out of OPEN. */
  predicate Closes(db: Db, n: Db, b: nat) {
    b < |db.batches| && b < |n.batches| && db.batches[b].state == Open && n.batches[b].state != Open
  }

  /** The entry that describes a batch as it is stored. */
  predicate Announces(e: Entry, n: Db, b: nat)
    requires b < |n.batches|
  {
    var h := n.batches[b];
    h.summary.Some? && e == Entry(b, h.version, |RowsOf(n.rows, b)|, h.summary.value.totalCents, h.discrepancies)
  }

  lemma SaveCloseAnnounces(db: Db, b: nat, h: Batch, always: bool, processed: set<int>)
    requires b < |db.batches| && h.summary.Some?
    ensures var n := SaveClose(db, b, h, always).(processed := processed);
            && db.outbox <= n.outbox
            && (always || |RowsOf(n.rows, b)| > 0 ==>
                |n.outbox| > |db.outbox| && Announces(n.outbox[|db.outbox|], n, b))
  {
  }

  lemma TerminalCloseAnnounces(db: Db, op: Op)
    requires Legal(db, op) && op.OpClose?
    ensures var n := Apply(db, op);
            db.outbox <= n.outbox && |n.outbox| > |db.outbox|
            && Announces(n.outbox[|db.outbox|], n, FindOpen(db.batches, op.key).value)
  {
    var b := FindOpen(db.batches, op.key).value;
    var rows := RowsOf(db.rows, b);
    var terminal := Pending(op.report, Backend(rows, db.batches[b].key.currency), op.prior);
    SaveCloseAnnounces(db, b, CloseOrHold(db.batches[b], rows, terminal, op.held).value, true, db.processed + {op.ev});
  }

  lemma AutoCloseAnnounces(db: Db, op: Op)
    requires Legal(db, op) && op.OpAutoClose?
    ensures var n := Apply(db, op);
            db.outbox <= n.outbox
            && (|RowsOf(n.rows, op.batch)| > 0 ==>
                  |n.outbox| > |db.outbox| && op.batch < |n.batches| && Announces(n.outbox[|db.outbox|], n, op.batch))
  {
    var b := op.batch;
    var rows := RowsOf(db.rows, b);
    var backend := Backend(rows, db.batches[b].key.currency);
    SaveCloseAnnounces(db, b, CloseOrHold(db.batches[b], rows, backend, op.held).value, false, db.processed + {op.ev});
  }

  lemma ForceCloseAnnounces(db: Db, op: Op)
    requires Legal(db, op) && op.OpForceClose?
    ensures var n := Apply(db, op);
            db.outbox <= n.outbox
            && (|RowsOf(n.rows, op.batch)| > 0 ==>
                  |n.outbox| > |db.outbox| && op.batch < |n.batches| && Announces(n.outbox[|db.outbox|], n, op.batch))
  {
    SaveCloseAnnounces(db, op.batch, CloseWithBackendTotals(db.batches[op.batch], RowsOf(db.rows, op.batch)).value,
                       false, db.processed);
  }

  /** Nothing else takes a batch out of OPEN, and nothing takes an entry out of the outbox. */
  lemma OtherOpsDoNotClose(db: Db, op: Op, b: nat)
    requires Legal(db, op) && !op.OpClose? && !op.OpAutoClose? && !op.OpForceClose?
    ensures Apply(db, op).outbox == db.outbox && !Closes(db, Apply(db, op), b)
  {
  }

  lemma SameBatch(db: Db, op: Op, b: nat, at: nat)
    requires Legal(db, op) && Closes(db, Apply(db, op), b) && at < |db.batches|
    requires (op.OpClose? && FindOpen(db.batches, op.key) == Some(at)) || (op.OpAutoClose? && op.batch == at)
             || (op.OpForceClose? && op.batch == at)
    ensures b == at
  {
  }

  /** A commit that closes a batch with rows, or any batch that its terminal closes, enqueues the entry
      that describes the batch as it was saved. */
  lemma ClosingCommitAnnounces(db: Db, op: Op, b: nat)
    requires Legal(db, op) && Closes(db, Apply(db, op), b)
    requires op.OpClose? || |RowsOf(Apply(db, op).rows, b)| > 0
    ensures var n := Apply(db, op);
            db.outbox <= n.outbox && |n.outbox| > |db.outbox| && Announces(n.outbox[|db.outbox|], n, b)
  {
    if op.OpClose? {
      SameBatch(db, op, b, FindOpen(db.batches, op.key).value);
      TerminalCloseAnnounces(db, op);
    } else if op.OpAutoClose? {
      SameBatch(db, op, b, op.batch);
      AutoCloseAnnounces(db, op);
    } else if op.OpForceClose? {
      SameBatch(db, op, b, op.batch);
      ForceCloseAnnounces(db, op);
    } else {
      OtherOpsDoNotClose(db, op, b);
    }
  }

  lemma OutboxGrows(db: Db, op: Op)
    requires Legal(db, op)
    ensures db.outbox <= Apply(db, op).outbox
  {
    if op.OpClose? {
      TerminalCloseAnnounces(db, op);
    } else if op.OpAutoClose? {
      AutoCloseAnnounces(db, op);
    } else if op.OpForceClose? {
      ForceCloseAnnounces(db, op);
    } else {
      OtherOpsDoNotClose(db, op, 0);
    }
  }
}
