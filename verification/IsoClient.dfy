/** The ISO 8583 client: round trips register a waiter under the key of the response they expect, the
    reader hands each message to the oldest waiter of its key, a waiter that gives up forgets itself, and
    a lost connection closes whoever still waits. Every step under the mutex is atomic; sending to a
    channel and closing one happen outside it. */
module IsoClient {
  import opened Options

  /** Message type 0810 correlates by data element 11, the others by data element 37. */
  const NETWORK_RESPONSE: int := 810

  datatype Message = Message(mti: int, rrn: Option<int>, stan: Option<int>, body: int)

  datatype Key = Key(mti: int, id: int)

  /** responseKey: None when the correlation field is missing or empty. */
  function ResponseKey(m: Message): Option<Key> {
    match if m.mti == NETWORK_RESPONSE then m.stan else m.rrn
    case None => None
    case Some(id) => Some(Key(m.mti, id))
  }

  /** The message answers a round trip with this key: its own type, and data element 11 for 0810, 37 for others. */
  predicate Answers(m: Message, key: Key) {
    m.mti == key.mti && (if m.mti == 810 then m.stan else m.rrn) == Some(key.id)
  }

  /** The message has no correlation field. */
  predicate Uncorrelated(m: Message) {
    (if m.mti == 810 then m.stan else m.rrn) == None
  }

  lemma KeyAnswers(m: Message, key: Key)
    ensures ResponseKey(m) == Some(key) <==> Answers(m, key)
    ensures ResponseKey(m).None? <==> Uncorrelated(m)
  {
  }

  /** The lists of waiters. A waiter is the number of its channel, in order of registration. */
  type Lists = map<Key, seq<nat>>

  function At(lists: Lists, key: Key): seq<nat> {
    if key in lists then lists[key] else []
  }

  /** An empty list is deleted. */
  function Put(lists: Lists, key: Key, waiters: seq<nat>): Lists {
    if |waiters| == 0 then lists - {key} else lists[key := waiters]
  }

  function Without(waiters: seq<nat>, ch: nat): seq<nat> {
    if |waiters| == 0 then []
    else if waiters[0] == ch then waiters[1..]
    else [waiters[0]] + Without(waiters[1..], ch)
  }

  // ----- the critical sections, on the fields of the client -----

  /** Each method is a step of Next below on the state s that the client is in. */
  class Client {
    var connected: bool
    var pending: Lists
    var registered: nat

    constructor ()
      ensures Matches(INITIAL)
    {
      connected, pending, registered := false, map[], 0;
    }

    ghost predicate Matches(s: State)
      reads this
    {
      connected == s.connected && pending == s.pending && registered == |s.channels|
    }

    /** roundTrip, before writing. Without a connection nothing is sent. */
    method Register(key: Key, ghost s: State) returns (ch: Option<nat>)
      requires Matches(s)
      modifies this`pending, this`registered
      ensures Matches(Next(s, Event.Register(key)))
      ensures ch == if connected then Some(|s.channels|) else None
    {
      if !connected {
        return None;
      }
      ch := Some(registered);
      registered := registered + 1;
      pending := pending[key := At(pending, key) + [ch.value]];
    }

    /** deliver, up to the send. */
    method Pop(msg: Message, ghost s: State) returns (ch: Option<nat>)
      requires Matches(s)
      modifies this`pending
      ensures Matches(Next(s, Event.Pop(msg)))
      ensures Next(s, Event.Pop(msg)).deliveries == s.deliveries + if ch.Some? then [Delivery(ch.value, msg)] else []
      ensures Uncorrelated(msg) ==> ch.None? && pending == old(pending)
      ensures forall key :: Answers(msg, key) ==>
                ch == (if |At(old(pending), key)| > 0 then Some(At(old(pending), key)[0]) else None)
                && pending == (if |At(old(pending), key)| > 0
                               then Put(old(pending), key, At(old(pending), key)[1..]) else old(pending))
    {
      var key := ResponseKey(msg);
      if key.Some? {
        KeyAnswers(msg, key.value);
      }
      if key.None? {
        return None;
      }
      var waiters := At(pending, key.value);
      if |waiters| == 0 {
        return None;
      }
      ch := Some(waiters[0]);
      if |waiters| == 1 {
        pending := pending - {key.value};
      } else {
        pending := pending[key.value := waiters[1..]];
      }
    }

    /** forget: the first occurrence goes, if there is one. */
    method Forget(key: Key, ch: nat, ghost s: State)
      requires Matches(s) && ch < |s.channels| && s.channels[ch].waiting && s.channels[ch].key == key
      modifies this`pending
      ensures Matches(Next(s, GiveUp(ch)))
    {
      var waiters := Remove(At(pending, key), ch);
      if |waiters| == 0 {
        pending := pending - {key};
      } else {
        pending := pending[key := waiters];
      }
    }

    /** serve, when the connection is lost: nobody can register between the two assignments. */
    method LoseConnection(ghost s: State) returns (lost: Lists)
      requires Matches(s) && connected
      modifies this`connected, this`pending
      ensures Matches(Next(s, TearDown)) && lost == Next(s, TearDown).lost
    {
      connected := false;
      lost := pending;
      pending := map[];
    }
  }

  /** The loop of forget. */
  method Remove(waiters: seq<nat>, ch: nat) returns (rest: seq<nat>)
    ensures rest == Without(waiters, ch)
  {
    for i := 0 to |waiters|
      invariant forall k :: 0 <= k < i ==> waiters[k] != ch
    {
      if waiters[i] == ch {
        WithoutFirst(waiters, i, ch);
        return waiters[..i] + waiters[i + 1..];
      }
    }
    WithoutNone(waiters, ch);
    return waiters;
  }

  lemma {:induction false} WithoutFirst(waiters: seq<nat>, i: nat, ch: nat)
    requires i < |waiters| && waiters[i] == ch && forall k :: 0 <= k < i ==> waiters[k] != ch
    ensures Without(waiters, ch) == waiters[..i] + waiters[i + 1..]
  {
    if i > 0 {
      WithoutFirst(waiters[1..], i - 1, ch);
    }
  }

  lemma {:induction false} WithoutNone(waiters: seq<nat>, ch: nat)
    requires forall k :: 0 <= k < |waiters| ==> waiters[k] != ch
    ensures Without(waiters, ch) == waiters
  {
    if |waiters| > 0 {
      WithoutNone(waiters[1..], ch);
    }
  }

  // ----- interleavings -----

  /** A channel of capacity one: what was sent to it and how many times it was closed, and whether its
      round trip still waits on it. */
  datatype Channel = Channel(key: Key, sent: seq<Message>, closes: nat, waiting: bool)

  /** A popped channel and the message that is about to be sent to it. */
  datatype Delivery = Delivery(ch: nat, msg: Message)

  datatype State = State(
    connected: bool, pending: Lists, lost: Lists, channels: seq<Channel>, deliveries: seq<Delivery>)

  const INITIAL := State(false, map[], map[], [], [])

  datatype Event =
    | Connect
    | Register(key: Key)
    | Pop(msg: Message)
    | Send(j: nat)           // deliver, after the mutex
    | Finish(ch: nat)        // the round trip takes what it got, or sees the close
    | GiveUp(ch: nat)        // timeout or failed write, with forget
    | TearDown
    | CloseHead(key: Key)    // the loop over the lost lists

  function Deliver(s: State, msg: Message, key: Key): State {
    var waiters := At(s.pending, key);
    if |waiters| == 0 then s
    else s.(pending := Put(s.pending, key, waiters[1..]), deliveries := s.deliveries + [Delivery(waiters[0], msg)])
  }

  predicate Nobody(lists: Lists) {
    forall key :: key in lists ==> |lists[key]| == 0
  }

  /** The next connection starts after the previous one closed every lost waiter. */
  function Next(s: State, e: Event): State {
    match e
    case Connect => if Nobody(s.lost) then s.(connected := true) else s
    case Register(key) =>
      if !s.connected then s
      else s.(pending := s.pending[key := At(s.pending, key) + [|s.channels|]],
              channels := s.channels + [Channel(key, [], 0, true)])
    case Pop(msg) =>
      (match ResponseKey(msg)
       case None => s
       case Some(key) => Deliver(s, msg, key))
    case Send(j) =>
      if j < |s.deliveries| && s.deliveries[j].ch < |s.channels| then
        var d := s.deliveries[j];
        var c := s.channels[d.ch];
        s.(channels := s.channels[d.ch := c.(sent := c.sent + [d.msg])],
           deliveries := s.deliveries[..j] + s.deliveries[j + 1..])
      else s
    case Finish(ch) =>
      if ch < |s.channels| && (|s.channels[ch].sent| > 0 || s.channels[ch].closes > 0)
      then s.(channels := s.channels[ch := s.channels[ch].(waiting := false)]) else s
    case GiveUp(ch) =>
      if ch < |s.channels| && s.channels[ch].waiting then
        var key := s.channels[ch].key;
        s.(channels := s.channels[ch := s.channels[ch].(waiting := false)],
           pending := Put(s.pending, key, Without(At(s.pending, key), ch)))
      else s
    case TearDown => if s.connected then s.(connected := false, lost := s.pending, pending := map[]) else s
    case CloseHead(key) =>
      var waiters := At(s.lost, key);
      if |waiters| > 0 && waiters[0] < |s.channels| then
        var c := s.channels[waiters[0]];
        s.(channels := s.channels[waiters[0] := c.(closes := c.closes + 1)], lost := Put(s.lost, key, waiters[1..]))
      else s
  }

  function Run(schedule: seq<Event>): State {
    if |schedule| == 0 then INITIAL else Next(Run(schedule[..|schedule| - 1]), schedule[|schedule| - 1])
  }

  // ----- what every run keeps -----

  predicate Increasing(waiters: seq<nat>) {
    forall i, j :: 0 <= i < j < |waiters| ==> waiters[i] < waiters[j]
  }

  /** Nothing was sent to the channel and nobody closed it. */
  predicate Untouched(c: Channel) {
    |c.sent| == 0 && c.closes == 0
  }

  predicate Listed(lists: Lists, c: Channel, ch: nat) {
    c.key in lists && ch in lists[c.key]
  }

  predicate Popped(deliveries: seq<Delivery>, ch: nat) {
    exists j :: 0 <= j < |deliveries| && deliveries[j].ch == ch
  }

  predicate OncePopped(deliveries: seq<Delivery>) {
    forall j, k :: 0 <= j < k < |deliveries| ==> deliveries[j].ch != deliveries[k].ch
  }

  /** In the order of registration, each once, under its own key. */
  predicate ListsOk(lists: Lists, channels: seq<Channel>) {
    forall key :: key in lists ==>
      && |lists[key]| > 0 && Increasing(lists[key])
      && forall ch :: ch in lists[key] ==> ch < |channels| && channels[ch].key == key
  }

  predicate ChannelOk(s: State, ch: nat)
    requires ch < |s.channels|
  {
    var c := s.channels[ch];
    && |c.sent| + c.closes <= 1
    && (forall m :: m in c.sent ==> ResponseKey(m) == Some(c.key))
    && (Listed(s.pending, c, ch) ==> Untouched(c) && c.waiting && !Listed(s.lost, c, ch) && !Popped(s.deliveries, ch))
    && (Listed(s.lost, c, ch) ==> Untouched(c) && !Popped(s.deliveries, ch))
    && (Popped(s.deliveries, ch) ==> Untouched(c))
    && (c.waiting ==> !Untouched(c) || Listed(s.pending, c, ch) || Listed(s.lost, c, ch) || Popped(s.deliveries, ch))
  }

  predicate DeliveryOk(s: State, d: Delivery) {
    d.ch < |s.channels| && ResponseKey(d.msg) == Some(s.channels[d.ch].key)
  }

  predicate Ok(s: State) {
    && ListsOk(s.pending, s.channels) && ListsOk(s.lost, s.channels)
    && (forall ch :: 0 <= ch < |s.channels| ==> ChannelOk(s, ch))
    && (forall j :: 0 <= j < |s.deliveries| ==> DeliveryOk(s, s.deliveries[j]))
    && OncePopped(s.deliveries)
    && (!s.connected ==> Nobody(s.pending))
    && (s.connected ==> Nobody(s.lost))
  }

  // ----- lists -----

  lemma {:induction false} WithoutMeans(waiters: seq<nat>, ch: nat)
    requires Increasing(waiters)
    ensures Increasing(Without(waiters, ch))
    ensures forall w :: w in Without(waiters, ch) <==> w in waiters && w != ch
  {
    if |waiters| > 0 && waiters[0] != ch {
      var rest := waiters[1..];
      WithoutMeans(rest, ch);
      var r := Without(rest, ch);
      forall i | 0 <= i < |r| ensures waiters[0] < r[i] {
        assert r[i] in rest;
      }
    }
  }

  /** The channel leaves its list; the others stay where they were. */
  lemma PutKeeps(lists: Lists, channels: seq<Channel>, key: Key, ch: nat, waiters: seq<nat>)
    requires ListsOk(lists, channels) && Increasing(waiters)
    requires forall w :: w in waiters <==> w in At(lists, key) && w != ch
    ensures ListsOk(Put(lists, key, waiters), channels)
    ensures forall c: Channel, w :: Listed(Put(lists, key, waiters), c, w) <==>
            Listed(lists, c, w) && !(c.key == key && w == ch)
  {
    var n := Put(lists, key, waiters);
    forall c: Channel, w ensures Listed(n, c, w) <==> Listed(lists, c, w) && !(c.key == key && w == ch) {
      assert c.key == key ==> (w in waiters <==> w in At(lists, key) && w != ch);
    }
  }

  lemma HeadLeaves(waiters: seq<nat>)
    requires |waiters| > 0 && Increasing(waiters)
    ensures Increasing(waiters[1..])
    ensures forall w :: w in waiters[1..] <==> w in waiters && w != waiters[0]
  {
    forall w | w in waiters && w != waiters[0] ensures w in waiters[1..] {
      var i :| 0 <= i < |waiters| && waiters[i] == w;
      assert waiters[1..][i - 1] == w;
    }
  }

  lemma PoppedAppend(deliveries: seq<Delivery>, d: Delivery, ch: nat)
    ensures Popped(deliveries + [d], ch) <==> Popped(deliveries, ch) || ch == d.ch
  {
    var all := deliveries + [d];
    assert all[|deliveries|] == d;
    assert forall j :: 0 <= j < |deliveries| ==> all[j] == deliveries[j];
  }

  lemma OneLess(deliveries: seq<Delivery>, j: nat)
    requires j < |deliveries| && OncePopped(deliveries)
    ensures OncePopped(deliveries[..j] + deliveries[j + 1..])
    ensures forall ch :: Popped(deliveries[..j] + deliveries[j + 1..], ch) <==>
            Popped(deliveries, ch) && ch != deliveries[j].ch
  {
    var less := deliveries[..j] + deliveries[j + 1..];
    assert forall k :: 0 <= k < |less| ==> less[k] == deliveries[if k < j then k else k + 1];
    assert OncePopped(less) by {
      forall i, k | 0 <= i < k < |less| ensures less[i].ch != less[k].ch {
        assert less[i] == deliveries[if i < j then i else i + 1] && less[k] == deliveries[if k < j then k else k + 1];
      }
    }
    forall ch | Popped(less, ch) ensures Popped(deliveries, ch) && ch != deliveries[j].ch {
      var k :| 0 <= k < |less| && less[k].ch == ch;
      assert deliveries[if k < j then k else k + 1].ch == ch;
    }
    forall ch | Popped(deliveries, ch) && ch != deliveries[j].ch ensures Popped(less, ch) {
      var k :| 0 <= k < |deliveries| && deliveries[k].ch == ch;
      assert less[if k < j then k else k - 1].ch == ch;
    }
  }

  // ----- steps -----

  lemma RegisterOk(s: State, key: Key)
    requires Ok(s) && s.connected
    ensures Ok(Next(s, Register(key)))
  {
    var n := Next(s, Register(key));
    var added := |s.channels|;
    assert Increasing(At(s.pending, key) + [added]) by {
      assert forall i :: 0 <= i < |At(s.pending, key)| ==> At(s.pending, key)[i] in s.pending[key];
    }
    forall ch | 0 <= ch < |n.channels| ensures ChannelOk(n, ch) {
      if ch < added {
        assert ChannelOk(s, ch);
      } else {
        assert added in n.pending[key];
        assert forall j :: 0 <= j < |s.deliveries| ==> DeliveryOk(s, s.deliveries[j]);
      }
    }
    forall j | 0 <= j < |n.deliveries| ensures DeliveryOk(n, n.deliveries[j]) {
      assert DeliveryOk(s, s.deliveries[j]);
    }
  }

  lemma PopOk(s: State, msg: Message, key: Key)
    requires Ok(s) && ResponseKey(msg) == Some(key)
    ensures Ok(Deliver(s, msg, key))
  {
    var waiters := At(s.pending, key);
    if |waiters| > 0 {
      var n, first := Deliver(s, msg, key), waiters[0];
      assert first in s.pending[key];
      HeadLeaves(waiters);
      PutKeeps(s.pending, s.channels, key, first, waiters[1..]);
      assert ChannelOk(s, first);
      forall ch | 0 <= ch < |n.channels| ensures ChannelOk(n, ch) {
        assert ChannelOk(s, ch);
        PoppedAppend(s.deliveries, Delivery(first, msg), ch);
      }
    }
  }

  lemma SendOk(s: State, j: nat)
    requires Ok(s) && j < |s.deliveries|
    ensures Ok(Next(s, Send(j)))
  {
    var n, d := Next(s, Send(j)), s.deliveries[j];
    assert DeliveryOk(s, d) && Popped(s.deliveries, d.ch);
    OneLess(s.deliveries, j);
    forall ch | 0 <= ch < |n.channels| ensures ChannelOk(n, ch) {
      assert ChannelOk(s, ch);
      assert Popped(n.deliveries, ch) <==> Popped(s.deliveries, ch) && ch != d.ch;
    }
    forall k | 0 <= k < |n.deliveries| ensures DeliveryOk(n, n.deliveries[k]) {
      assert DeliveryOk(s, s.deliveries[if k < j then k else k + 1]);
    }
  }

  lemma FinishOk(s: State, ch: nat)
    requires Ok(s)
    ensures Ok(Next(s, Finish(ch)))
  {
    var n := Next(s, Finish(ch));
    forall c | 0 <= c < |n.channels| ensures ChannelOk(n, c) {
      assert ChannelOk(s, c);
    }
    forall j | 0 <= j < |n.deliveries| ensures DeliveryOk(n, n.deliveries[j]) {
      assert DeliveryOk(s, s.deliveries[j]);
    }
  }

  lemma GiveUpOk(s: State, ch: nat)
    requires Ok(s) && ch < |s.channels| && s.channels[ch].waiting
    ensures Ok(Next(s, GiveUp(ch)))
  {
    var n, key := Next(s, GiveUp(ch)), s.channels[ch].key;
    WithoutMeans(At(s.pending, key), ch);
    PutKeeps(s.pending, s.channels, key, ch, Without(At(s.pending, key), ch));
    forall c | 0 <= c < |n.channels| ensures ChannelOk(n, c) {
      assert ChannelOk(s, c);
    }
    forall j | 0 <= j < |n.deliveries| ensures DeliveryOk(n, n.deliveries[j]) {
      assert DeliveryOk(s, s.deliveries[j]);
    }
  }

  lemma TearDownOk(s: State)
    requires Ok(s) && s.connected
    ensures Ok(Next(s, TearDown))
  {
    var n := Next(s, TearDown);
    forall c | 0 <= c < |n.channels| ensures ChannelOk(n, c) {
      assert ChannelOk(s, c);
    }
  }

  lemma CloseOk(s: State, key: Key)
    requires Ok(s) && |At(s.lost, key)| > 0
    ensures Ok(Next(s, CloseHead(key)))
  {
    var n, waiters := Next(s, CloseHead(key)), At(s.lost, key);
    var first := waiters[0];
    assert first in s.lost[key];
    HeadLeaves(waiters);
    PutKeeps(s.lost, s.channels, key, first, waiters[1..]);
    forall c | 0 <= c < |n.channels| ensures ChannelOk(n, c) {
      assert ChannelOk(s, c);
    }
    forall j | 0 <= j < |n.deliveries| ensures DeliveryOk(n, n.deliveries[j]) {
      assert DeliveryOk(s, s.deliveries[j]);
    }
  }

  lemma NextOk(s: State, e: Event)
    requires Ok(s)
    ensures Ok(Next(s, e))
  {
    match e
    case Connect => ConnectOk(s);
    case Register(key) => if s.connected { RegisterOk(s, key); }
    case Pop(msg) => if ResponseKey(msg).Some? { PopOk(s, msg, ResponseKey(msg).value); }
    case Send(j) => if j < |s.deliveries| { SendOk(s, j); }
    case Finish(ch) => FinishOk(s, ch);
    case GiveUp(ch) => if ch < |s.channels| && s.channels[ch].waiting { GiveUpOk(s, ch); }
    case TearDown => if s.connected { TearDownOk(s); }
    case CloseHead(key) => if |At(s.lost, key)| > 0 { CloseOk(s, key); }
  }

  lemma ConnectOk(s: State)
    requires Ok(s)
    ensures Ok(Next(s, Connect))
  {
    var n := Next(s, Connect);
    forall c | 0 <= c < |n.channels| ensures ChannelOk(n, c) {
      assert ChannelOk(s, c);
    }
  }

  lemma {:induction false} RunOk(schedule: seq<Event>)
    ensures Ok(Run(schedule))
  {
    if |schedule| > 0 {
      RunOk(schedule[..|schedule| - 1]);
      NextOk(Run(schedule[..|schedule| - 1]), schedule[|schedule| - 1]);
    }
  }

  // ----- what it means -----

  /** A waiter is in the list of its own key at most once, in order of registration. */
  predicate OncePerList(lists: Lists, c: Channel, ch: nat) {
    forall key :: key in lists ==>
      Increasing(lists[key]) && (ch in lists[key] ==> key == c.key)
  }

  /** A waiter gets at most one message, with its key, or one close; while it waits and has neither, it
      is in its list, or held by one delivery or by the teardown, which is about to close it. */
  predicate WaiterSafe(s: State, ch: nat)
    requires ch < |s.channels|
  {
    var c := s.channels[ch];
    && |c.sent| + c.closes <= 1 && (forall m :: m in c.sent ==> Answers(m, c.key))
    && OncePerList(s.pending, c, ch)
    && (c.waiting && Untouched(c) ==>
          || (s.connected && Listed(s.pending, c, ch))
          || (!s.connected && Listed(s.lost, c, ch))
          || Popped(s.deliveries, ch))
  }

  lemma EveryWaiterIsSafe(schedule: seq<Event>, ch: nat)
    requires ch < |Run(schedule).channels|
    ensures WaiterSafe(Run(schedule), ch)
  {
    RunOk(schedule);
    var s := Run(schedule);
    assert ChannelOk(s, ch);
    forall m | m in s.channels[ch].sent ensures Answers(m, s.channels[ch].key) {
      KeyAnswers(m, s.channels[ch].key);
    }
  }

  /** A send finds an open channel with nothing in it, so it neither blocks nor panics. */
  lemma SendsAreSafe(schedule: seq<Event>, d: Delivery)
    requires d in Run(schedule).deliveries
    ensures var s := Run(schedule); d.ch < |s.channels| && Untouched(s.channels[d.ch])
  {
    RunOk(schedule);
    var s := Run(schedule);
    var j :| 0 <= j < |s.deliveries| && s.deliveries[j] == d;
    assert DeliveryOk(s, s.deliveries[j]);
    assert ChannelOk(s, d.ch);
  }

  /** A close finds an open channel to which nothing was sent and nothing will be. */
  lemma ClosesAreSafe(schedule: seq<Event>, key: Key, ch: nat)
    requires key in Run(schedule).lost && ch in Run(schedule).lost[key]
    ensures var s := Run(schedule);
            ch < |s.channels| && Untouched(s.channels[ch]) && !Popped(s.deliveries, ch)
  {
    RunOk(schedule);
    assert ChannelOk(Run(schedule), ch);
  }

  /** When a lost connection has been torn down and what was in progress is over, whoever still waits
      has its message or its close. */
  lemma NobodyIsOrphaned(schedule: seq<Event>, ch: nat)
    requires var s := Run(schedule);
             !s.connected && Nobody(s.lost) && |s.deliveries| == 0 && ch < |s.channels| && s.channels[ch].waiting
    ensures var c := Run(schedule).channels[ch]; |c.sent| + c.closes == 1
  {
    RunOk(schedule);
    var s := Run(schedule);
    assert ChannelOk(s, ch);
    assert !Listed(s.lost, s.channels[ch], ch);
    assert !Listed(s.pending, s.channels[ch], ch);
  }

  /** A message goes to the waiter that it answers and that registered first, and to nobody else. */
  lemma OldestWaiterIsServed(schedule: seq<Event>, msg: Message, ch: nat)
    requires var s := Run(schedule); ch < |s.channels| && Listed(s.pending, s.channels[ch], ch)
    requires Answers(msg, Run(schedule).channels[ch].key)
    ensures var s, n := Run(schedule), Next(Run(schedule), Pop(msg));
            var first := At(s.pending, s.channels[ch].key)[0];
            && n.deliveries == s.deliveries + [Delivery(first, msg)] && first <= ch
            && first < |s.channels| && s.channels[first].key == s.channels[ch].key && n.channels == s.channels
  {
    RunOk(schedule);
    KeyAnswers(msg, Run(schedule).channels[ch].key);
    var s := Run(schedule);
    var waiters := s.pending[s.channels[ch].key];
    var i :| 0 <= i < |waiters| && waiters[i] == ch;
  }

  /** A message without its correlation field, or that answers nobody who is listed, changes nothing. */
  lemma LateMessageIsIgnored(s: State, msg: Message)
    requires forall key :: key in s.pending && |s.pending[key]| > 0 ==> !Answers(msg, key)
    ensures Next(s, Pop(msg)) == s
  {
    if ResponseKey(msg).Some? {
      KeyAnswers(msg, ResponseKey(msg).value);
    }
  }

  // ----- a round trip that nobody disturbs, and a teardown -----

  lemma AloneIsPopped(s: State, key: Key, msg: Message)
    requires s.connected && |s.deliveries| == 0 && key !in s.pending && Answers(msg, key)
    ensures var ch, n := |s.channels|, Next(Next(s, Register(key)), Pop(msg));
            && n.channels == s.channels + [Channel(key, [], 0, true)] && n.deliveries == [Delivery(ch, msg)]
            && n.connected && key !in n.pending
  {
    KeyAnswers(msg, key);
    var registered := Next(s, Register(key));
    assert At(registered.pending, key) == [|s.channels|];
  }

  lemma PoppedIsSent(s: State, key: Key, msg: Message)
    requires |s.channels| > 0 && s.channels[|s.channels| - 1] == Channel(key, [], 0, true)
    requires s.deliveries == [Delivery(|s.channels| - 1, msg)]
    ensures var ch, n := |s.channels| - 1, Next(Next(s, Send(0)), Finish(|s.channels| - 1));
            n == s.(channels := s.channels[ch := Channel(key, [msg], 0, false)], deliveries := [])
  {
    var sent := Next(s, Send(0));
    assert sent.channels[|s.channels| - 1] == Channel(key, [msg], 0, true);
  }

  /** Once connected, a round trip whose answer arrives ends with that answer and is in no list. */
  lemma RoundTripEnds(schedule: seq<Event>, key: Key, msg: Message)
    requires Run(schedule).connected && |Run(schedule).deliveries| == 0 && key !in Run(schedule).pending
    requires Answers(msg, key)
    ensures var s := Run(schedule);
            var n := Next(Next(Next(Next(s, Register(key)), Pop(msg)), Send(0)), Finish(|s.channels|));
            && n.channels == s.channels + [Channel(key, [msg], 0, false)]
            && n.connected && |n.deliveries| == 0 && key !in n.pending
  {
    var s := Run(schedule);
    AloneIsPopped(s, key, msg);
    PoppedIsSent(Next(Next(s, Register(key)), Pop(msg)), key, msg);
  }

  /** The client connects whenever the previous teardown is over. */
  lemma Connects(schedule: seq<Event>)
    requires Nobody(Run(schedule).lost)
    ensures Next(Run(schedule), Connect) == Run(schedule).(connected := true)
  {
  }

  /** The teardown takes every waiter, and then closes the first one of each list, whatever the others do. */
  lemma TeardownCloses(schedule: seq<Event>, key: Key)
    requires var s := Run(schedule); key in s.lost && |s.lost[key]| > 0
    ensures var s, n := Run(schedule), Next(Run(schedule), CloseHead(key));
            var first := s.lost[key][0];
            && first < |s.channels| && n.channels == s.channels[first := s.channels[first].(closes := 1)]
            && At(n.lost, key) == s.lost[key][1..]
  {
    RunOk(schedule);
    var s := Run(schedule);
    var first := s.lost[key][0];
    assert first in s.lost[key];
    assert ChannelOk(s, first);
  }

  lemma TeardownTakesAll(schedule: seq<Event>)
    requires Run(schedule).connected
    ensures var s, n := Run(schedule), Next(Run(schedule), TearDown);
            !n.connected && n.lost == s.pending && Nobody(n.pending) && n.channels == s.channels
  {
  }
}
