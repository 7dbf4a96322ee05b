/** The token bucket of the gateway, with exact rationals in place of float64 and time in minutes. */
module RateLimiter {
  datatype Bucket = Bucket(tokens: real, last: real)

  type Buckets = map<int, Bucket>

  /** `clock` counts the tokens that a client earns since some moment, which is rate times minutes. What
      follows needs no more than that it never goes back. */
  datatype Limiter = Limiter(rate: real, clock: real -> real, maxKeys: nat, buckets: Buckets)

  /** A call admits, or refuses with the part of a token that is missing. */
  datatype Answer = Admitted | Refused(missing: real)

  function Min(a: real, b: real): real {
    if a <= b then a else b
  }

  /** The tokens of a bucket at a later time, without its limit. */
  function Tokens(l: Limiter, b: Bucket, now: real): real {
    b.tokens + (l.clock(now) - l.clock(b.last))
  }

  predicate Full(l: Limiter, b: Bucket, now: real) {
    Tokens(l, b, now) >= l.rate
  }

  /** The full buckets among the visited keys. */
  function Stale(l: Limiter, now: real, order: seq<int>): set<int> {
    if |order| == 0 then {}
    else
      var key := order[|order| - 1];
      Stale(l, now, order[..|order| - 1])
      + if key in l.buckets && Full(l, l.buckets[key], now) then {key} else {}
  }

  /** purge, which visits the keys in any order. */
  function Purged(l: Limiter, now: real, order: seq<int>): Buckets {
    l.buckets - Stale(l, now, order)
  }

  lemma {:induction false} StaleMeans(l: Limiter, now: real, order: seq<int>, key: int)
    ensures key in Stale(l, now, order) <==> key in order && key in l.buckets && Full(l, l.buckets[key], now)
  {
    if |order| > 0 {
      StaleMeans(l, now, order[..|order| - 1], key);
    }
  }

  /** A call, and the order in which a purge would visit the buckets. */
  datatype Call = Call(time: real, key: int, order: seq<int>)

  /** The limiter after looking for room for a new client. */
  function MakeRoom(l: Limiter, c: Call): Limiter {
    if c.key !in l.buckets && |l.buckets| >= l.maxKeys then l.(buckets := Purged(l, c.time, c.order)) else l
  }

  /** Even after purging there is no room for another client. */
  predicate TakesFullBranch(l: Limiter, c: Call) {
    c.key !in l.buckets && |MakeRoom(l, c).buckets| >= l.maxKeys
  }

  /** The level of a client that has a call now: a client without a bucket starts full. */
  function Level(l: Limiter, key: int, now: real): real {
    if key in l.buckets then Min(l.rate, Tokens(l, l.buckets[key], now)) else l.rate
  }

  datatype Outcome = Outcome(limiter: Limiter, answer: Answer)

  function Take(l: Limiter, key: int, now: real): Outcome {
    var tokens := Level(l, key, now);
    if tokens < 1.0
    then Outcome(l.(buckets := l.buckets[key := Bucket(tokens, now)]), Refused(1.0 - tokens))
    else Outcome(l.(buckets := l.buckets[key := Bucket(tokens - 1.0, now)]), Admitted)
  }

  function Allow(l: Limiter, c: Call): Outcome {
    var room := MakeRoom(l, c);
    if TakesFullBranch(l, c) then Outcome(room, Admitted) else Take(room, c.key, c.time)
  }

  /** Nanoseconds in a minute, and in a second. */
  const MINUTE: real := 60_000_000_000.0
  const SECOND: int := 1_000_000_000

  /** The wait for the missing part of a token, truncated to nanoseconds. */
  function WaitNs(rate: real, missing: real): int
    requires rate > 0.0
  {
    (missing / rate * MINUTE).Floor
  }

  /** The Retry-After header, in seconds. */
  function RetryAfter(waitNs: int): int {
    waitNs / SECOND + 1
  }

  /** The client is never told to wait for more than a second too long, nor too short. */
  lemma RetryAfterIsTight(rate: real, missing: real)
    requires rate >= 1.0 && 0.0 < missing <= 1.0
    ensures var minutes, seconds := missing / rate, RetryAfter(WaitNs(rate, missing)) as real;
            minutes * 60.0 < seconds <= minutes * 60.0 + 1.0
  {
    var wait, ns := missing / rate, WaitNs(rate, missing);
    var seconds := RetryAfter(ns);
    assert ns as real <= wait * MINUTE < (ns + 1) as real;
    assert (seconds - 1) * SECOND <= ns && ns + 1 <= seconds * SECOND;
    assert ((seconds - 1) * SECOND) as real <= wait * MINUTE < (seconds * SECOND) as real;
  }

  /** A client without a bucket is admitted, and has one token less than a full bucket. */
  lemma NewClientIsAdmitted(l: Limiter, c: Call)
    requires l.rate >= 1.0 && c.key !in l.buckets && (|l.buckets| < l.maxKeys)
    ensures Allow(l, c) == Outcome(l.(buckets := l.buckets[c.key := Bucket(l.rate - 1.0, c.time)]), Admitted)
  {
  }

  // ----- the limiter as an object -----

  class Gateway {
    const perMinute: real
    const clock: real -> real
    const maxKeys: nat
    var buckets: Buckets

    constructor (perMinute: int, maxKeys: nat)
      requires perMinute >= 1
      ensures this.perMinute == perMinute as real && this.maxKeys == maxKeys && buckets == map[] && Valid()
    {
      var rate := perMinute as real;
      this.perMinute := rate;
      this.clock := (minutes: real) => rate * minutes;
      this.maxKeys := maxKeys;
      buckets := map[];
    }

    ghost predicate Valid() {
      perMinute >= 1.0 && CountsMinutes(clock, perMinute)
    }

    function View(): Limiter
      reads this
    {
      Limiter(perMinute, clock, maxKeys, buckets)
    }

    /** The tokens of a bucket now, without its limit. */
    method Refill(b: Bucket, now: real) returns (tokens: real)
      requires Valid()
      ensures tokens == Tokens(View(), b, now)
    {
      tokens := b.tokens + (now - b.last) * perMinute;
      Span(clock, perMinute, b.last, now);
    }

    /** Visits every key once, in some order. */
    method Purge(now: real) returns (ghost order: seq<int>)
      requires Valid()
      modifies this`buckets
      ensures forall key :: key in old(buckets) ==> key in order
      ensures buckets == Purged(old(View()), now, order)
    {
      var rest := buckets.Keys;
      ghost var was := View();
      order := [];
      while exists key :: key in rest
        invariant forall key :: key in rest ==> key in was.buckets && key !in order
        invariant forall key :: key in was.buckets ==> key in rest || key in order
        invariant buckets == Purged(was, now, order)
        decreases rest
      {
        var key :| key in rest;
        StaleMeans(was, now, order, key);
        assert (order + [key])[..|order|] == order;
        var tokens := Refill(buckets[key], now);
        if tokens >= perMinute {
          buckets := buckets - {key};
        }
        order := order + [key];
        rest := rest - {key};
      }
    }

    /** The wait is the one that Limit turns into Retry-After. */
    method AllowAt(key: int, now: real) returns (waitNs: int, admitted: bool, ghost order: seq<int>)
      requires Valid()
      modifies this`buckets
      ensures View() == Allow(old(View()), Call(now, key, order)).limiter
      ensures admitted <==> Allow(old(View()), Call(now, key, order)).answer == Admitted
      ensures !admitted ==> waitNs == WaitNs(perMinute, Allow(old(View()), Call(now, key, order)).answer.missing)
      ensures key !in old(buckets) && |old(buckets)| >= maxKeys ==> forall k :: k in old(buckets) ==> k in order
    {
      order := [];
      if key !in buckets {
        if |buckets| >= maxKeys {
          order := Purge(now);
        }
        if |buckets| >= maxKeys {
          return 0, true, order;
        }
        buckets := buckets[key := Bucket(perMinute, now)];
      }
      var tokens := Refill(buckets[key], now);
      tokens := Min(perMinute, tokens);
      if tokens < 1.0 {
        buckets := buckets[key := Bucket(tokens, now)];
        return WaitNs(perMinute, 1.0 - tokens), false, order;
      }
      buckets := buckets[key := Bucket(tokens - 1.0, now)];
      return 0, true, order;
    }
  }

  // ----- the clock -----

  function Earned(rate: real, minutes: real): real {
    rate * minutes
  }

  ghost predicate CountsMinutes(clock: real -> real, rate: real) {
    forall minutes: real {:trigger Earned(rate, minutes)} :: clock(minutes) == Earned(rate, minutes)
  }

  ghost predicate NeverGoesBack(clock: real -> real) {
    forall a: real, b: real :: a <= b ==> clock(a) <= clock(b)
  }

  lemma Span(clock: real -> real, rate: real, a: real, b: real)
    requires CountsMinutes(clock, rate)
    ensures clock(b) - clock(a) == (b - a) * rate
  {
    assert clock(a) == Earned(rate, a) && clock(b) == Earned(rate, b);
  }

  lemma Product(rate: real, minutes: real)
    requires rate > 0.0 && minutes >= 0.0
    ensures rate * minutes >= 0.0
  {
  }

  predicate IsWait(rate: real, missing: real, waitNs: int)
    requires rate > 0.0
  {
    waitNs == WaitNs(rate, missing)
  }

  /** The client waited for the seconds that it was told. */
  ghost predicate Waited(rate: real, missing: real, minutes: real)
    requires rate > 0.0
  {
    forall waitNs {:trigger IsWait(rate, missing, waitNs)} ::
      IsWait(rate, missing, waitNs) ==> minutes * 60.0 >= RetryAfter(waitNs) as real
  }

  /** After Retry-After seconds the missing part of a token has been earned. */
  lemma RetryAfterSuffices(rate: real, missing: real, minutes: real)
    requires rate >= 1.0 && 0.0 < missing <= 1.0 && Waited(rate, missing, minutes)
    ensures minutes >= 0.0 && rate * minutes >= missing
  {
    var wait := missing / rate;
    var ns := WaitNs(rate, missing);
    var seconds := RetryAfter(ns);
    assert IsWait(rate, missing, ns);
    assert seconds * SECOND >= ns + 1;
    assert (ns + 1) as real > wait * MINUTE;
    assert (seconds * SECOND) as real >= (ns + 1) as real;
    assert (seconds * SECOND) as real == seconds as real * 1_000_000_000.0;
    assert wait > 0.0;
    assert minutes >= wait;
    assert rate * wait == missing;
    Product(rate, minutes - wait);
  }

  lemma WaitEarns(clock: real -> real, rate: real, missing: real, since: real, now: real)
    requires CountsMinutes(clock, rate) && rate >= 1.0 && 0.0 < missing <= 1.0 && Waited(rate, missing, now - since)
    ensures since <= now && clock(now) - clock(since) >= missing
  {
    RetryAfterSuffices(rate, missing, now - since);
    Span(clock, rate, since, now);
  }

  // ----- one call -----

  ghost predicate LimiterOk(l: Limiter, now: real) {
    && l.rate >= 1.0 && NeverGoesBack(l.clock)
    && forall key :: key in l.buckets ==> 0.0 <= l.buckets[key].tokens <= l.rate && l.buckets[key].last <= now
  }

  lemma LevelBounds(l: Limiter, key: int, now: real)
    requires LimiterOk(l, now)
    ensures 0.0 <= Level(l, key, now) <= l.rate
  {
    if key in l.buckets {
      assert l.clock(l.buckets[key].last) <= l.clock(now);
    }
  }

  lemma LevelRises(l: Limiter, key: int, now: real, later: real)
    requires LimiterOk(l, now) && now <= later
    ensures Level(l, key, later) == Min(l.rate, Level(l, key, now) + (l.clock(later) - l.clock(now)))
  {
    assert l.clock(now) <= l.clock(later);
  }

  /** Purging forgets only full buckets, so no level changes, now or later. */
  lemma RoomKeepsLevels(l: Limiter, c: Call, other: int, later: real)
    requires LimiterOk(l, c.time) && c.time <= later
    ensures LimiterOk(MakeRoom(l, c), c.time)
    ensures Level(MakeRoom(l, c), other, later) == Level(l, other, later)
  {
    if other in l.buckets {
      StaleMeans(l, c.time, c.order, other);
      assert l.clock(c.time) <= l.clock(later);
    }
  }

  lemma TakeMeans(l: Limiter, key: int, now: real)
    requires LimiterOk(l, now)
    ensures var n, level := Take(l, key, now), Level(l, key, now);
            && LimiterOk(n.limiter, now)
            && n.answer == (if level >= 1.0 then Admitted else Refused(1.0 - level))
            && Level(n.limiter, key, now) == level - if level >= 1.0 then 1.0 else 0.0
  {
    LevelBounds(l, key, now);
    var n := Take(l, key, now).limiter;
    assert n.buckets[key].last == now;
  }

  lemma TakeKeepsOthers(l: Limiter, key: int, now: real, other: int, later: real)
    requires other != key
    ensures Level(Take(l, key, now).limiter, other, later) == Level(l, other, later)
  {
  }

  // ----- runs -----

  ghost predicate SameSettings(l: Limiter, m: Limiter) {
    l.rate == m.rate && l.clock == m.clock && l.maxKeys == m.maxKeys
  }

  function Run(start: Limiter, calls: seq<Call>): Limiter
    ensures SameSettings(Run(start, calls), start)
  {
    if |calls| == 0 then start
    else
      var c := calls[|calls| - 1];
      Allow(Run(start, calls[..|calls| - 1]), c).limiter
  }

  /** The answer to the last of these calls. */
  function LastAnswer(start: Limiter, calls: seq<Call>): Answer
    requires |calls| > 0
  {
    var c := calls[|calls| - 1];
    Allow(Run(start, calls[..|calls| - 1]), c).answer
  }

  /** The same limiter with room for everybody and without a purge. */
  function RunForever(start: Limiter, calls: seq<Call>): Limiter
    ensures SameSettings(RunForever(start, calls), start)
  {
    if |calls| == 0 then start
    else
      var c := calls[|calls| - 1];
      Take(RunForever(start, calls[..|calls| - 1]), c.key, c.time).limiter
  }

  function LastAnswerForever(start: Limiter, calls: seq<Call>): Answer
    requires |calls| > 0
  {
    var c := calls[|calls| - 1];
    Take(RunForever(start, calls[..|calls| - 1]), c.key, c.time).answer
  }

  function Latest(calls: seq<Call>, otherwise: real): real {
    if |calls| == 0 then otherwise else calls[|calls| - 1].time
  }

  /** A new limiter, calls with nondecreasing times, and always room for a new client. */
  ghost predicate Regular(start: Limiter, calls: seq<Call>) {
    && start.rate >= 1.0 && NeverGoesBack(start.clock) && (forall key :: key in start.buckets ==> false)
    && (|calls| == 0 || (
          var front, c := calls[..|calls| - 1], calls[|calls| - 1];
          && Regular(start, front) && Latest(front, c.time) <= c.time
          && !TakesFullBranch(Run(start, front), c)))
  }

  lemma {:induction false} RegularPrefix(start: Limiter, calls: seq<Call>, n: nat)
    requires Regular(start, calls) && n <= |calls|
    ensures Regular(start, calls[..n])
  {
    if n == |calls| {
      assert calls[..n] == calls;
    } else {
      var front := calls[..|calls| - 1];
      RegularPrefix(start, front, n);
      assert front[..n] == calls[..n];
    }
  }

  lemma {:induction false} RunOk(start: Limiter, calls: seq<Call>, now: real)
    requires Regular(start, calls) && Latest(calls, now) <= now
    ensures LimiterOk(Run(start, calls), now)
  {
    if |calls| > 0 {
      var front, c := calls[..|calls| - 1], calls[|calls| - 1];
      RunOk(start, front, c.time);
      var l := Run(start, front);
      RoomKeepsLevels(l, c, c.key, c.time);
      TakeMeans(MakeRoom(l, c), c.key, c.time);
    }
  }

  /** A call of a regular run, seen through levels. */
  lemma CallMeans(l: Limiter, c: Call)
    requires LimiterOk(l, c.time) && !TakesFullBranch(l, c)
    ensures var n, level := Allow(l, c), Level(l, c.key, c.time);
            && LimiterOk(n.limiter, c.time)
            && n.answer == (if level >= 1.0 then Admitted else Refused(1.0 - level))
            && Level(n.limiter, c.key, c.time) == level - if level >= 1.0 then 1.0 else 0.0
  {
    RoomKeepsLevels(l, c, c.key, c.time);
    TakeMeans(MakeRoom(l, c), c.key, c.time);
  }

  lemma CallKeepsOthers(l: Limiter, c: Call, other: int, later: real)
    requires LimiterOk(l, c.time) && !TakesFullBranch(l, c) && other != c.key && c.time <= later
    ensures Level(Allow(l, c).limiter, other, later) == Level(l, other, later)
  {
    RoomKeepsLevels(l, c, other, later);
    TakeKeepsOthers(MakeRoom(l, c), c.key, c.time, other, later);
  }

  // ----- what it means -----

  /** How many of the calls from i on were of this client and admitted. */
  function Count(start: Limiter, calls: seq<Call>, i: nat, key: int): nat
  {
    if |calls| <= i then 0
    else
      var front, c := calls[..|calls| - 1], calls[|calls| - 1];
      Count(start, front, i, key)
      + if c.key == key && Allow(Run(start, front), c).answer == Admitted then 1 else 0
  }

  /** The admitted calls of a window, and the tokens left at its end, come from a full bucket and from
      the tokens earned meanwhile. */
  predicate Paid(l: Limiter, count: nat, key: int, now: real, since: real) {
    count as real + Level(l, key, now) <= l.rate + (l.clock(now) - l.clock(since))
  }

  lemma PaidAtStart(l: Limiter, key: int, now: real)
    requires LimiterOk(l, now)
    ensures Paid(l, 0, key, now, now)
  {
    LevelBounds(l, key, now);
  }

  lemma PaidLater(l: Limiter, count: nat, key: int, now: real, since: real, later: real)
    requires LimiterOk(l, now) && now <= later && Paid(l, count, key, now, since)
    ensures Paid(l, count, key, later, since)
  {
    LevelRises(l, key, now, later);
  }

  lemma PaidAfterCall(l: Limiter, count: nat, key: int, c: Call, since: real)
    requires LimiterOk(l, c.time) && !TakesFullBranch(l, c) && Paid(l, count, key, c.time, since)
    ensures var n := Allow(l, c);
            Paid(n.limiter, count + if c.key == key && n.answer == Admitted then 1 else 0, key, c.time, since)
  {
    CallMeans(l, c);
    if c.key != key {
      CallKeepsOthers(l, c, key, c.time);
    }
  }

  lemma {:induction false} WindowIsPaid(start: Limiter, calls: seq<Call>, i: nat, key: int)
    requires Regular(start, calls) && i < |calls|
    ensures Paid(Run(start, calls), Count(start, calls, i, key), key, Latest(calls, 0.0), calls[i].time)
  {
    var front, c := calls[..|calls| - 1], calls[|calls| - 1];
    RunOk(start, front, c.time);
    if i == |calls| - 1 {
      PaidAtStart(Run(start, front), key, c.time);
    } else {
      WindowIsPaid(start, front, i, key);
      var before := Latest(front, c.time);
      RunOk(start, front, before);
      PaidLater(Run(start, front), Count(start, front, i, key), key, before, calls[i].time, c.time);
    }
    PaidAfterCall(Run(start, front), Count(start, front, i, key), key, c, calls[i].time);
  }

  lemma PaidMeans(l: Limiter, count: nat, key: int, now: real, since: real)
    requires LimiterOk(l, now) && Paid(l, count, key, now, since)
    ensures count as real <= l.rate + (l.clock(now) - l.clock(since))
  {
    LevelBounds(l, key, now);
  }

  /** In any window, which starts at the call i and ends with the last one of these, a client is admitted
      at most as often as the tokens of a full bucket and those earned in the window allow. */
  lemma WindowBound(start: Limiter, calls: seq<Call>, i: nat, key: int)
    requires Regular(start, calls) && i < |calls|
    ensures Count(start, calls, i, key) as real
         <= start.rate + (start.clock(Latest(calls, 0.0)) - start.clock(calls[i].time))
  {
    var now := Latest(calls, 0.0);
    WindowIsPaid(start, calls, i, key);
    RunOk(start, calls, now);
    PaidMeans(Run(start, calls), Count(start, calls, i, key), key, now, calls[i].time);
  }

  lemma InMinutes(clock: real -> real, rate: real, since: real, now: real, minutes: real)
    requires CountsMinutes(clock, rate) && rate > 0.0 && now - since <= minutes
    ensures clock(now) - clock(since) <= clock(minutes)
  {
    Span(clock, rate, since, now);
    assert clock(minutes) == Earned(rate, minutes);
    Product(rate, minutes - (now - since));
  }

  lemma BoundByClock(start: Limiter, calls: seq<Call>, i: nat, key: int, minutes: real)
    requires Regular(start, calls) && CountsMinutes(start.clock, start.rate)
    requires i < |calls| && Latest(calls, 0.0) - calls[i].time <= minutes
    ensures Count(start, calls, i, key) as real <= start.rate + start.clock(minutes)
  {
    WindowBound(start, calls, i, key);
    InMinutes(start.clock, start.rate, calls[i].time, Latest(calls, 0.0), minutes);
  }

  lemma BoundInTokens(clock: real -> real, rate: real, count: nat, minutes: real)
    requires CountsMinutes(clock, rate) && count as real <= rate + clock(minutes)
    ensures count as real <= rate + rate * minutes
  {
    assert clock(minutes) == Earned(rate, minutes);
  }

  /** The calls from the i-th to the last one, in at most so many minutes. */
  ghost predicate IsWindow(start: Limiter, calls: seq<Call>, i: nat, minutes: real) {
    forall n {:trigger calls[..n]} :: n == |calls| ==>
      && Regular(start, calls[..n]) && CountsMinutes(start.clock, start.rate)
      && i < n && Latest(calls[..n], 0.0) - calls[i].time <= minutes
  }

  /** In these calls the client is admitted so many times. */
  predicate Admits(start: Limiter, calls: seq<Call>, i: nat, key: int, count: nat) {
    forall n {:trigger calls[..n]} :: n == |calls| ==> i <= n && count == Count(start, calls[..n], i, key)
  }

  lemma WindowMeans(start: Limiter, calls: seq<Call>, i: nat, key: int, minutes: real, count: nat)
    ensures IsWindow(start, calls, i, minutes) <==>
            && Regular(start, calls) && CountsMinutes(start.clock, start.rate)
            && i < |calls| && Latest(calls, 0.0) - calls[i].time <= minutes
    ensures Admits(start, calls, i, key, count) <==> i <= |calls| && count == Count(start, calls, i, key)
  {
    assert calls[..|calls|] == calls;
  }

  lemma BoundWithClock(start: Limiter, calls: seq<Call>, i: nat, key: int, minutes: real, count: nat)
    requires IsWindow(start, calls, i, minutes) && Admits(start, calls, i, key, count)
    ensures CountsMinutes(start.clock, start.rate) && count as real <= start.rate + start.clock(minutes)
  {
    WindowMeans(start, calls, i, key, minutes, count);
    BoundByClock(start, calls, i, key, minutes);
  }

  /** In any window of some minutes a client is admitted at most rate + rate * minutes times. */
  lemma RateBound(start: Limiter, calls: seq<Call>, i: nat, key: int, minutes: real, count: nat)
    requires IsWindow(start, calls, i, minutes) && Admits(start, calls, i, key, count)
    ensures count as real <= start.rate + start.rate * minutes
  {
    BoundWithClock(start, calls, i, key, minutes, count);
    BoundInTokens(start.clock, start.rate, count, minutes);
  }

  /** The client sends nothing after the first n calls. */
  predicate Silent(calls: seq<Call>, n: nat, key: int) {
    forall k :: n <= k < |calls| ==> calls[k].key != key
  }

  lemma {:induction false} SilentLevel(start: Limiter, calls: seq<Call>, n: nat, key: int, later: real)
    requires Regular(start, calls) && n <= |calls| && Silent(calls, n, key) && Latest(calls, later) <= later
    ensures Level(Run(start, calls), key, later) == Level(Run(start, calls[..n]), key, later)
  {
    if n == |calls| {
      assert calls[..n] == calls;
    } else {
      var front, c := calls[..|calls| - 1], calls[|calls| - 1];
      assert front[..n] == calls[..n];
      SilentLevel(start, front, n, key, later);
      RunOk(start, front, c.time);
      CallKeepsOthers(Run(start, front), c, key, later);
    }
  }

  /** The level of a refused client once the missing tokens were earned. */
  lemma EnoughAfterWait(l: Limiter, c: Call, later: real)
    requires LimiterOk(l, c.time) && !TakesFullBranch(l, c) && Allow(l, c).answer.Refused? && c.time <= later
    requires l.clock(later) - l.clock(c.time) >= Allow(l, c).answer.missing
    ensures Level(Allow(l, c).limiter, c.key, later) >= 1.0
  {
    CallMeans(l, c);
    LevelRises(Allow(l, c).limiter, c.key, c.time, later);
  }

  lemma RefusedLevel(start: Limiter, refused: seq<Call>, later: real)
    requires Regular(start, refused) && |refused| > 0 && LastAnswer(start, refused).Refused?
    requires Latest(refused, later) <= later
    requires start.clock(later) - start.clock(Latest(refused, later)) >= LastAnswer(start, refused).missing
    ensures Level(Run(start, refused), refused[|refused| - 1].key, later) >= 1.0
  {
    var front, c := refused[..|refused| - 1], refused[|refused| - 1];
    RunOk(start, front, c.time);
    EnoughAfterWait(Run(start, front), c, later);
  }

  lemma MissingIsPart(start: Limiter, refused: seq<Call>)
    requires Regular(start, refused) && |refused| > 0 && LastAnswer(start, refused).Refused?
    ensures 0.0 < LastAnswer(start, refused).missing <= 1.0
  {
    var front, c := refused[..|refused| - 1], refused[|refused| - 1];
    RunOk(start, front, c.time);
    CallMeans(Run(start, front), c);
    LevelBounds(Run(start, front), c.key, c.time);
  }

  /** A client that is refused, and then sends nothing until the missing tokens are earned, is admitted:
      `refused` ends with the refusal, `calls` continue without that client. */
  lemma AdmittedWhenEarned(start: Limiter, refused: seq<Call>, calls: seq<Call>, next: Call)
    requires Regular(start, calls + [next]) && |refused| > 0 && refused <= calls
    requires LastAnswer(start, refused).Refused? && next.key == refused[|refused| - 1].key
    requires Silent(calls, |refused|, next.key) && Latest(refused, next.time) <= next.time
    requires start.clock(next.time) - start.clock(Latest(refused, next.time)) >= LastAnswer(start, refused).missing
    ensures LastAnswer(start, calls + [next]) == Admitted
  {
    var n := |refused|;
    assert (calls + [next])[..|calls|] == calls && calls[..n] == refused;
    RegularPrefix(start, calls, n);
    RefusedLevel(start, refused, next.time);
    SilentLevel(start, calls, n, next.key, next.time);
    RunOk(start, calls, next.time);
    CallMeans(Run(start, calls), next);
  }

  /** A client that is refused, and then sends nothing for Retry-After seconds, is admitted at its next
      call. */
  lemma RefusedThenAdmitted(start: Limiter, refused: seq<Call>, calls: seq<Call>, next: Call)
    requires Regular(start, calls + [next]) && CountsMinutes(start.clock, start.rate)
    requires |refused| > 0 && refused <= calls && LastAnswer(start, refused).Refused?
    requires next.key == refused[|refused| - 1].key && Silent(calls, |refused|, next.key)
    requires Waited(start.rate, LastAnswer(start, refused).missing, next.time - refused[|refused| - 1].time)
    ensures LastAnswer(start, calls + [next]) == Admitted
  {
    var missing, since := LastAnswer(start, refused).missing, refused[|refused| - 1].time;
    assert (calls + [next])[..|refused|] == refused;
    RegularPrefix(start, calls + [next], |refused|);
    MissingIsPart(start, refused);
    WaitEarns(start.clock, start.rate, missing, since, next.time);
    AdmittedWhenEarned(start, refused, calls, next);
  }

  predicate SameLevels(l: Limiter, m: Limiter, key: int, now: real) {
    Level(l, key, now) == Level(m, key, now)
  }

  lemma {:induction false} ForeverOk(start: Limiter, calls: seq<Call>, now: real)
    requires Regular(start, calls) && Latest(calls, now) <= now
    ensures LimiterOk(RunForever(start, calls), now)
  {
    if |calls| > 0 {
      var front, c := calls[..|calls| - 1], calls[|calls| - 1];
      ForeverOk(start, front, c.time);
      TakeMeans(RunForever(start, front), c.key, c.time);
    }
  }

  lemma {:induction false} LevelsAgree(start: Limiter, calls: seq<Call>, key: int, now: real)
    requires Regular(start, calls) && Latest(calls, now) <= now
    ensures SameLevels(Run(start, calls), RunForever(start, calls), key, now)
  {
    if |calls| > 0 {
      var front, c := calls[..|calls| - 1], calls[|calls| - 1];
      RunOk(start, front, c.time);
      ForeverOk(start, front, c.time);
      var l, m := Run(start, front), RunForever(start, front);
      if c.key == key {
        LevelsAgree(start, front, key, c.time);
        CallMeans(l, c);
        TakeMeans(m, key, c.time);
        LevelRises(Allow(l, c).limiter, key, c.time, now);
        LevelRises(Take(m, key, c.time).limiter, key, c.time, now);
      } else {
        LevelsAgree(start, front, key, now);
        CallKeepsOthers(l, c, key, now);
        TakeKeepsOthers(m, c.key, c.time, key, now);
      }
    }
  }

  /** Purging is invisible: every answer, with its waiting time, is the one of a limiter that never
      forgets a client. */
  lemma PurgeIsInvisible(start: Limiter, calls: seq<Call>)
    requires Regular(start, calls) && |calls| > 0
    ensures LastAnswer(start, calls) == LastAnswerForever(start, calls)
  {
    var front, c := calls[..|calls| - 1], calls[|calls| - 1];
    LevelsAgree(start, front, c.key, c.time);
    RunOk(start, front, c.time);
    ForeverOk(start, front, c.time);
    CallMeans(Run(start, front), c);
    TakeMeans(RunForever(start, front), c.key, c.time);
  }
}
