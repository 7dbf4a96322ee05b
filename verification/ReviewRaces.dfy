/** The purchase and the reversal of one transaction, registered at the same time: each database
    transaction writes its row, takes the advisory lock of the pair, reads what the other committed, and
    commits or is repeated from the start. */
module ReviewRaces {
  import opened Options
  import opened ReversalReviews

  /** An attempt: not started or rolled back, row written, lock taken, review decided, committed. */
  datatype Attempt = Waiting | Wrote | HasLock | Decided(review: Option<Review>) | Committed

  datatype Party = PurchaseSide | ReversalSide

  /** `review` is the committed review of the transaction. */
  datatype Pair = Pair(purchase: Attempt, reversal: Attempt, review: Option<Review>)

  /** What the two events say: the batch in which the purchase is stored has its own merchant. */
  datatype Claims = Claims(purchase: Charge, batchMerchant: int, reversal: Charge, reversalBatch: nat)
  {
    /** The purchase as FindPurchaseTx returns it. */
    function Stored(): Charge { purchase.(merchant := batchMerchant) }
  }

  function Of(s: Pair, who: Party): Attempt {
    if who.PurchaseSide? then s.purchase else s.reversal
  }

  function Other(who: Party): Party {
    if who.PurchaseSide? then ReversalSide else PurchaseSide
  }

  function Put(s: Pair, who: Party, a: Attempt): Pair {
    if who.PurchaseSide? then s.(purchase := a) else s.(reversal := a)
  }

  predicate Holds(a: Attempt) {
    a.HasLock? || a.Decided?
  }

  /** The review table of one transaction, and back. */
  function Table(review: Option<Review>): Reviews {
    match review
    case None => map[]
    case Some(v) => map[0 := v]
  }

  function Entry(reviews: Reviews): Option<Review> {
    if 0 in reviews then Some(reviews[0]) else None
  }

  /** reviewReversal, or ReconcileReversalReviewTx, on what is committed now. */
  function Decide(s: Pair, who: Party, c: Claims): Option<Review> {
    if who.PurchaseSide? then Entry(Reconcile(Table(s.review), 0, c.purchase))
    else Entry(OpenReview(Table(s.review), 0, c.reversalBatch,
                          if s.purchase.Committed? then Some(c.Stored()) else None, c.reversal))
  }

  datatype Event =
    | Write(who: Party)
    | Lock(who: Party)
    | Compare(who: Party)
    | Commit(who: Party)
    | Rollback(who: Party)

  /** `locking` tells whether lockReversalPair is called. */
  function Next(s: Pair, e: Event, c: Claims, locking: bool): Pair {
    var a := Of(s, e.who);
    match e
    case Write(who) => if a.Waiting? then Put(s, who, Wrote) else s
    case Lock(who) => if a.Wrote? && (locking ==> !Holds(Of(s, Other(who)))) then Put(s, who, HasLock) else s
    case Compare(who) => if a.HasLock? then Put(s, who, Decided(Decide(s, who, c))) else s
    case Commit(who) => if a.Decided? then Put(s, who, Committed).(review := a.review) else s
    case Rollback(who) => if a.Committed? then s else Put(s, who, Waiting)
  }

  function Run(schedule: seq<Event>, c: Claims, locking: bool): Pair {
    if |schedule| == 0 then Pair(Waiting, Waiting, None)
    else Next(Run(schedule[..|schedule| - 1], c, locking), schedule[|schedule| - 1], c, locking)
  }

  function Reason(review: Option<Review>): Option<ReversalReviews.Reason> {
    OpenReason(Table(review), 0)
  }

  /** The review after these commits, each deciding alone. */
  function Expected(s: Pair, purchaseFirst: bool, c: Claims): Option<Review> {
    var reverse := (found: Option<Charge>) => Entry(OpenReview(map[], 0, c.reversalBatch, found, c.reversal));
    if s.reversal.Committed? then
      if !s.purchase.Committed? then reverse(None)
      else if purchaseFirst then reverse(Some(c.Stored()))
      else Entry(Reconcile(Table(reverse(None)), 0, c.purchase))
    else None
  }

  /** In which order they committed does not need to be known: one of the two explains the review. */
  predicate Explained(s: Pair, c: Claims) {
    s.review == Expected(s, true, c) || s.review == Expected(s, false, c)
  }

  predicate Ok(s: Pair, c: Claims) {
    && Explained(s, c)
    && !(Holds(s.purchase) && Holds(s.reversal))
    && (s.purchase.Decided? ==> s.purchase.review == Decide(s, PurchaseSide, c))
    && (s.reversal.Decided? ==> s.reversal.review == Decide(s, ReversalSide, c))
  }

  lemma StepOk(s: Pair, e: Event, c: Claims)
    requires Ok(s, c)
    ensures Ok(Next(s, e, c, true), c)
  {
  }

  lemma {:induction false} RunOk(schedule: seq<Event>, c: Claims)
    ensures Ok(Run(schedule, c, true), c)
  {
    if |schedule| > 0 {
      RunOk(schedule[..|schedule| - 1], c);
      StepOk(Run(schedule[..|schedule| - 1], c, true), schedule[|schedule| - 1], c);
    }
  }

  predicate Both(s: Pair) {
    s.purchase.Committed? && s.reversal.Committed?
  }

  /** In every interleaving, with any number of rollbacks: once both are committed the open reason is
      the comparison of the two charges, so it is empty when they match and never PURCHASE_NOT_FOUND.
      A terminal belongs to one merchant, so the batch has the merchant of the event. */
  lemma SameReasonInEveryInterleaving(schedule: seq<Event>, c: Claims)
    requires c.batchMerchant == c.purchase.merchant && Both(Run(schedule, c, true))
    ensures Reason(Run(schedule, c, true).review) == Mismatch(Some(c.purchase), c.reversal)
    ensures Reason(Run(schedule, c, true).review) != Some(PurchaseNotFound)
  {
    RunOk(schedule, c);
  }

  // ----- the two assumptions are needed -----

  lemma Then(schedule: seq<Event>, e: Event, c: Claims, locking: bool)
    ensures Run(schedule + [e], c, locking) == Next(Run(schedule, c, locking), e, c, locking)
  {
    assert (schedule + [e])[..|schedule|] == schedule;
  }

  /** One side runs from start to end. */
  lemma Alone(schedule: seq<Event>, who: Party, c: Claims) returns (more: seq<Event>)
    requires Of(Run(schedule, c, true), who).Waiting? && !Holds(Of(Run(schedule, c, true), Other(who)))
    ensures Run(more, c, true) ==
            var s := Run(schedule, c, true);
            Put(s, who, Committed).(review := Decide(s, who, c))
  {
    Then(schedule, Write(who), c, true);
    more := schedule + [Write(who)];
    Then(more, Lock(who), c, true);
    more := more + [Lock(who)];
    Then(more, Compare(who), c, true);
    more := more + [Compare(who)];
    Then(more, Commit(who), c, true);
    more := more + [Commit(who)];
  }

  lemma Serial(first: Party, c: Claims) returns (schedule: seq<Event>)
    ensures Both(Run(schedule, c, true))
    ensures Reason(Run(schedule, c, true).review)
         == Mismatch(Some(if first.PurchaseSide? then c.Stored() else c.purchase), c.reversal)
  {
    schedule := Alone([], first, c);
    schedule := Alone(schedule, Other(first), c);
  }

  ghost predicate OrderDoesNotMatter(c: Claims) {
    forall s, t: seq<Event> :: Both(Run(s, c, true)) && Both(Run(t, c, true))
      ==> Reason(Run(s, c, true).review) == Reason(Run(t, c, true).review)
  }

  /** Whatever the merchants, the final reason compares the reversal with the purchase of the event or
      with the purchase of the batch. */
  lemma OneOfTwoReasons(schedule: seq<Event>, c: Claims)
    requires Both(Run(schedule, c, true))
    ensures Reason(Run(schedule, c, true).review) == Mismatch(Some(c.purchase), c.reversal)
         || Reason(Run(schedule, c, true).review) == Mismatch(Some(c.Stored()), c.reversal)
  {
    RunOk(schedule, c);
  }

  predicate ThirdMerchant(c: Claims) {
    c.reversal.merchant != c.purchase.merchant && c.reversal.merchant != c.batchMerchant
  }

  /** The order never matters if and only if the batch has the merchant of the purchase event, or the
      merchant of the reversal is a third one. */
  lemma OrderDoesNotMatterIff(c: Claims)
    ensures OrderDoesNotMatter(c) <==> c.batchMerchant == c.purchase.merchant || ThirdMerchant(c)
  {
    if OrderDoesNotMatter(c) {
      var s := Serial(PurchaseSide, c);
      var t := Serial(ReversalSide, c);
      assert Reason(Run(s, c, true).review) == Reason(Run(t, c, true).review);
    } else {
      var s, t: seq<Event> :| Both(Run(s, c, true)) && Both(Run(t, c, true))
        && Reason(Run(s, c, true).review) != Reason(Run(t, c, true).review);
      OneOfTwoReasons(s, c);
      OneOfTwoReasons(t, c);
    }
  }

  /** Without the lock, a purchase and a reversal that overlap leave the review open for ever, even when
      they match. */
  lemma StuckWithoutLock(c: Claims) returns (schedule: seq<Event>)
    ensures Both(Run(schedule, c, false)) && Reason(Run(schedule, c, false).review) == Some(PurchaseNotFound)
  {
    Then([], Write(PurchaseSide), c, false);
    schedule := [] + [Write(PurchaseSide)];
    Then(schedule, Write(ReversalSide), c, false);
    schedule := schedule + [Write(ReversalSide)];
    Then(schedule, Lock(PurchaseSide), c, false);
    schedule := schedule + [Lock(PurchaseSide)];
    Then(schedule, Lock(ReversalSide), c, false);
    schedule := schedule + [Lock(ReversalSide)];
    Then(schedule, Compare(PurchaseSide), c, false);
    schedule := schedule + [Compare(PurchaseSide)];
    Then(schedule, Compare(ReversalSide), c, false);
    schedule := schedule + [Compare(ReversalSide)];
    Then(schedule, Commit(PurchaseSide), c, false);
    schedule := schedule + [Commit(PurchaseSide)];
    Then(schedule, Commit(ReversalSide), c, false);
    schedule := schedule + [Commit(ReversalSide)];
  }

  /** Each side can roll back, and then starts again, until it is committed. */
  lemma RollbacksHappen(s: Pair, c: Claims, locking: bool)
    ensures !s.purchase.Committed? ==> Next(s, Rollback(PurchaseSide), c, locking) == s.(purchase := Waiting)
    ensures !s.reversal.Committed? ==> Next(s, Rollback(ReversalSide), c, locking) == s.(reversal := Waiting)
  {
  }
}
