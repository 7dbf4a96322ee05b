/** The purchase and the reversal of one transaction, and operators who decide on the review of the
    reversal, all at the same time. The comparison of the purchase is one UPDATE: it selects the review in
    its snapshot, waits for the operator's row lock, and then updates the row as the operator left it,
    because only the transaction id is checked again. */
module OperatorRaces {
  import opened Options
  import opened ReversalReviews
  import ReviewRaces

  /** The purchase: not started, batch written, lock of the pair taken, review selected or not, row
      updated or not, committed. */
  datatype Attempt =
    | Waiting
    | Wrote
    | HasLock
    | Saw(open: bool)
    | Compared(touched: bool, review: Option<Review>)
    | Committed

  /** When the last decision was committed, as the purchase goes. */
  datatype When = Never | Before | During | After

  /** `deciding` tells whether an operator holds the review and its batch. */
  datatype Race = Race(
    purchase: Attempt, reversal: ReviewRaces.Attempt, deciding: bool, review: Option<Review>, when: When)

  /** What the two events say, and whether both rows are in the same batch. */
  datatype Claims = Claims(pair: ReviewRaces.Claims, sameBatch: bool)

  datatype Event =
    | Write | Lock | Select | Update | Commit | Rollback                                // the purchase
    | ReversalWrites | ReversalLocks | ReversalCompares | ReversalCommits | ReversalRollsBack
    | Take | Decide | GiveUp                                                            // an operator

  const START := Race(Waiting, ReviewRaces.Waiting, false, None, Never)

  predicate WritesBatch(a: Attempt) {
    !a.Waiting? && !a.Committed?
  }

  predicate HoldsPair(a: Attempt) {
    a.HasLock? || a.Saw? || a.Compared?
  }

  /** The purchase updated the row, and holds it. */
  predicate HoldsReview(a: Attempt) {
    a.Compared? && a.touched
  }

  predicate Selects(review: Option<Review>) {
    review.Some? && review.value.reason == PurchaseNotFound && !review.value.resolved
  }

  /** The UPDATE on a row that it selected earlier. */
  function Updated(review: Option<Review>, p: Charge): Option<Review> {
    ReviewRaces.Entry(ReconcileLate(ReviewRaces.Table(review), 0, p))
  }

  /** reviewReversal, on what is committed now. */
  function Reviewed(s: Race, c: Claims): Option<Review> {
    var found := if s.purchase.Committed? then Some(c.pair.Stored()) else None;
    ReviewRaces.Entry(OpenReview(ReviewRaces.Table(s.review), 0, c.pair.reversalBatch, found, c.pair.reversal))
  }

  function WhenDecided(a: Attempt): When {
    if a == Saw(true) then During else if a.Committed? then After else Before
  }

  function Resolved(review: Review): Review {
    review.(resolved := true, reopened := false)
  }

  function PurchaseNext(s: Race, e: Event, c: Claims): Race {
    match e
    case Write => if s.purchase.Waiting? && !(c.sameBatch && s.deciding) then s.(purchase := Wrote) else s
    case Lock => if s.purchase.Wrote? && !ReviewRaces.Holds(s.reversal) then s.(purchase := HasLock) else s
    case Select => if s.purchase.HasLock? then s.(purchase := Saw(Selects(s.review))) else s
    case Update =>
      if !s.purchase.Saw? || (s.purchase.open && s.deciding) then s
      else
        var review := if s.purchase.open then Updated(s.review, c.pair.purchase) else s.review;
        s.(purchase := Compared(s.purchase.open, review))
    case Commit =>
      if s.purchase.Compared?
      then s.(purchase := Committed, review := if s.purchase.touched then s.purchase.review else s.review) else s
    case _ =>
      if s.purchase.Committed? then s
      else s.(purchase := Waiting, when := if s.when == During then Before else s.when)
  }

  function ReversalNext(s: Race, e: Event, c: Claims): Race {
    match e
    case ReversalWrites => if s.reversal.Waiting? then s.(reversal := ReviewRaces.Wrote) else s
    case ReversalLocks => if s.reversal.Wrote? && !HoldsPair(s.purchase) then s.(reversal := ReviewRaces.HasLock) else s
    case ReversalCompares => if s.reversal.HasLock? then s.(reversal := ReviewRaces.Decided(Reviewed(s, c))) else s
    case ReversalCommits =>
      if s.reversal.Decided? then s.(reversal := ReviewRaces.Committed, review := s.reversal.review) else s
    case _ => if s.reversal.Committed? then s else s.(reversal := ReviewRaces.Waiting)
  }

  /** A decision needs a committed review, whose batch and row it locks. */
  predicate MayTake(s: Race, c: Claims) {
    && !s.deciding && s.review.Some? && !s.review.value.resolved
    && !HoldsReview(s.purchase) && !(c.sameBatch && WritesBatch(s.purchase))
  }

  function Next(s: Race, e: Event, c: Claims): Race {
    match e
    case Take => if MayTake(s, c) then s.(deciding := true) else s
    case Decide =>
      if s.deciding && s.review.Some?
      then s.(deciding := false, review := Some(Resolved(s.review.value)), when := WhenDecided(s.purchase)) else s
    case GiveUp => s.(deciding := false)
    case _ =>
      if e.Write? || e.Lock? || e.Select? || e.Update? || e.Commit? || e.Rollback? then PurchaseNext(s, e, c)
      else ReversalNext(s, e, c)
  }

  function Run(schedule: seq<Event>, c: Claims): Race {
    if |schedule| == 0 then START else Next(Run(schedule[..|schedule| - 1], c), schedule[|schedule| - 1], c)
  }

  function Reason(s: Race): Option<ReversalReviews.Reason> {
    ReviewRaces.Reason(s.review)
  }

  predicate Both(s: Race) {
    s.purchase.Committed? && s.reversal.Committed?
  }

  // ----- the invariant -----

  /** Only the reversal is committed: its review waits for the purchase, or was accepted. */
  predicate Uncompared(s: Race, c: Claims) {
    s.review == Some(Review(c.pair.reversalBatch, PurchaseNotFound, c.pair.reversal, None, s.when != Never, false))
  }

  /** The purchase was committed first, and the reversal compared itself with it. */
  predicate ReversalCompared(s: Race, c: Claims) {
    match Mismatch(Some(c.pair.Stored()), c.pair.reversal)
    case None => s.review.None? && s.when.Never?
    case Some(reason) =>
      && (s.when.Never? || s.when.After?)
      && s.review == Some(Review(c.pair.reversalBatch, reason, c.pair.reversal, Some(c.pair.Stored()),
                                 s.when.After?, false))
  }

  /** The reversal was committed first: its review is open with its reason if they do not match, unless
      the last decision was committed before the comparison selected the review, or after the purchase. */
  predicate PurchaseCompared(s: Race, c: Claims) {
    && s.review.Some?
    && Reason(s) == (if s.when.Before? || s.when.After? then None
                     else Mismatch(Some(c.pair.purchase), c.pair.reversal))
    && (s.review.value.reopened <==> s.when.During? && Reason(s).Some?)
  }

  predicate ReviewOk(s: Race, c: Claims) {
    if !s.reversal.Committed? then s.review.None? && s.when.Never?
    else if !s.purchase.Committed? then Uncompared(s, c) && !s.when.After?
    else ReversalCompared(s, c) || PurchaseCompared(s, c)
  }

  predicate PurchaseOk(s: Race, c: Claims) {
    && (s.when.During? ==>
        !c.sameBatch && (s.purchase == Saw(true) || s.purchase.Committed? || HoldsReview(s.purchase)))
    && (s.purchase == Saw(true) ==> s.reversal.Committed? && !s.when.Before?)
    && (s.purchase == Saw(false) ==> s.reversal.Committed? ==> s.when.Before?)
    && (s.purchase.Compared? ==>
          if s.purchase.touched then
            && s.reversal.Committed? && !s.deciding && !s.when.Before?
            && s.purchase.review == Updated(s.review, c.pair.purchase)
          else s.reversal.Committed? ==> s.when.Before?)
  }

  predicate Ok(s: Race, c: Claims) {
    && !(HoldsPair(s.purchase) && ReviewRaces.Holds(s.reversal))
    && (s.reversal.Decided? ==> s.reversal.review == Reviewed(s, c))
    && (s.deciding ==> s.review.Some? && !s.review.value.resolved && !(c.sameBatch && WritesBatch(s.purchase)))
    && ReviewOk(s, c) && PurchaseOk(s, c)
  }

  lemma PurchaseStepOk(s: Race, e: Event, c: Claims)
    requires Ok(s, c)
    ensures Ok(PurchaseNext(s, e, c), c)
  {
  }

  lemma ReversalStepOk(s: Race, e: Event, c: Claims)
    requires Ok(s, c)
    ensures Ok(ReversalNext(s, e, c), c)
  {
  }

  lemma OperatorStepOk(s: Race, e: Event, c: Claims)
    requires Ok(s, c) && (e.Take? || e.Decide? || e.GiveUp?)
    ensures Ok(Next(s, e, c), c)
  {
  }

  lemma {:induction false} RunOk(schedule: seq<Event>, c: Claims)
    ensures Ok(Run(schedule, c), c)
  {
    if |schedule| > 0 {
      var s, e := Run(schedule[..|schedule| - 1], c), schedule[|schedule| - 1];
      RunOk(schedule[..|schedule| - 1], c);
      PurchaseStepOk(s, e, c);
      ReversalStepOk(s, e, c);
      if e.Take? || e.Decide? || e.GiveUp? {
        OperatorStepOk(s, e, c);
      }
    }
  }

  // ----- what it means -----

  /** However the purchase, the reversal and the operators interleave, with any rollbacks: once both are
      committed, the review is open exactly when the two do not match and the last decision, if there was
      one, was committed while the comparison of the purchase waited for it. In that case it was reopened.
      A terminal belongs to one merchant, so the batch has the merchant of the event. */
  lemma OpenAfterDecisionIff(schedule: seq<Event>, c: Claims)
    requires c.pair.batchMerchant == c.pair.purchase.merchant && Both(Run(schedule, c))
    ensures var s := Run(schedule, c);
            && Reason(s) == (if s.when.Never? || s.when.During? then Mismatch(Some(c.pair.purchase), c.pair.reversal)
                             else None)
            && (s.review.Some? && s.review.value.reopened <==> s.when.During? && Reason(s).Some?)
  {
    RunOk(schedule, c);
  }

  /** It cannot happen in the batch that the purchase writes, which the operator locks first. */
  lemma OwnBatchIsSafe(schedule: seq<Event>, c: Claims)
    requires c.sameBatch
    ensures !Run(schedule, c).when.During?
  {
    RunOk(schedule, c);
  }

  lemma Then(schedule: seq<Event>, e: Event, c: Claims)
    ensures Run(schedule + [e], c) == Next(Run(schedule, c), e, c)
  {
    assert (schedule + [e])[..|schedule|] == schedule;
  }

  /** The reversal is registered while the purchase is still writing, and an operator takes its review. */
  lemma TakenMeanwhile(c: Claims) returns (schedule: seq<Event>)
    requires !c.sameBatch
    ensures var review := Review(c.pair.reversalBatch, PurchaseNotFound, c.pair.reversal, None, false, false);
            Run(schedule, c) == Race(Wrote, ReviewRaces.Committed, true, Some(review), Never)
  {
    Then([], ReversalWrites, c);
    schedule := [] + [ReversalWrites];
    Then(schedule, Write, c);
    schedule := schedule + [Write];
    Then(schedule, ReversalLocks, c);
    schedule := schedule + [ReversalLocks];
    Then(schedule, ReversalCompares, c);
    schedule := schedule + [ReversalCompares];
    Then(schedule, ReversalCommits, c);
    schedule := schedule + [ReversalCommits];
    Then(schedule, Take, c);
    schedule := schedule + [Take];
  }

  /** In another batch it does, for every pair that does not match, even when all three overlap. */
  lemma ReopenedAfterDecision(c: Claims) returns (schedule: seq<Event>)
    requires !c.sameBatch && Mismatch(Some(c.pair.purchase), c.pair.reversal).Some?
    ensures Both(Run(schedule, c)) && !Run(schedule, c).deciding && Run(schedule, c).when.During?
    ensures Run(schedule, c).review.Some? && Run(schedule, c).review.value.reopened && Reason(Run(schedule, c)).Some?
  {
    schedule := TakenMeanwhile(c);
    Then(schedule, Lock, c);
    schedule := schedule + [Lock];
    Then(schedule, Select, c);
    schedule := schedule + [Select];
    Then(schedule, Decide, c);
    schedule := schedule + [Decide];
    Then(schedule, Update, c);
    schedule := schedule + [Update];
    Then(schedule, Commit, c);
    schedule := schedule + [Commit];
  }

  /** Purchase and reversal can roll back until they are committed, and an operator can give up. */
  lemma FailuresHappen(s: Race, c: Claims)
    ensures !s.purchase.Committed? ==>
              Next(s, Rollback, c) == s.(purchase := Waiting, when := if s.when.During? then Before else s.when)
    ensures !s.reversal.Committed? ==> Next(s, ReversalRollsBack, c) == s.(reversal := ReviewRaces.Waiting)
    ensures Next(s, GiveUp, c) == s.(deciding := false)
  {
  }
}
