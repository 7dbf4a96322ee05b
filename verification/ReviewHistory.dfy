/** Which reviews are open although an operator had resolved them, as the log tells it. */
module ReviewHistory {
  import opened Options
  import opened BatchSummary
  import opened ReversalReviews
  import opened Ledger
  import opened LedgerInvariants

  /** An approval of the transaction found the review resolved by an operator, and did not match. */
  predicate Reopens(db: Db, op: Op, tx: int) {
    op.OpLateApproval? && op.tx == tx && Uncompared(db.reviews, tx) && db.reviews[tx].resolved
    && CaseMismatch(db.reviews[tx], op.charge).Some?
  }

  predicate Resolves(op: Op, tx: int) {
    op.OpReview? && op.tx == tx
  }

  /** An approval of the log reopened the review, and no later operation of the log resolves it. */
  predicate ReopenedIn(log: seq<Op>, tx: int) {
    |log| > 0 &&
    var front, op := log[..|log| - 1], log[|log| - 1];
    Reopens(Replay(front), op, tx) || (ReopenedIn(front, tx) && !Resolves(op, tx))
  }

  // ----- the mark on a review says the same -----

  predicate Marked(reviews: Reviews, tx: int) {
    tx in reviews && reviews[tx].reopened
  }

  /** A mark stands on an open review that was compared. */
  predicate MarksAreOpen(reviews: Reviews) {
    forall tx :: tx in reviews && reviews[tx].reopened ==>
      !reviews[tx].resolved && reviews[tx].reason != PurchaseNotFound
  }

  lemma InvMarks(db: Db)
    requires Inv(db)
    ensures MarksAreOpen(db.reviews)
  {
    forall tx | Marked(db.reviews, tx) ensures !db.reviews[tx].resolved && db.reviews[tx].reason != PurchaseNotFound {
      assert ReviewOk(db, db.reviews[tx]);
    }
  }

  lemma ApprovalMarks(reviews: Reviews, t: int, charge: Charge, tx: int)
    requires MarksAreOpen(reviews)
    ensures Marked(Reconcile(reviews, t, charge), tx) <==> Marked(reviews, tx)
  {
  }

  lemma LateApprovalMarks(reviews: Reviews, t: int, charge: Charge, tx: int)
    requires MarksAreOpen(reviews) && Uncompared(reviews, t)
    ensures Marked(ReconcileLate(reviews, t, charge), tx) <==>
            Marked(reviews, tx) || (t == tx && reviews[tx].resolved && CaseMismatch(reviews[tx], charge).Some?)
  {
  }

  lemma ReversalMarks(reviews: Reviews, t: int, b: nat, purchase: Option<Charge>, charge: Charge, tx: int)
    ensures Marked(OpenReview(reviews, t, b, purchase, charge), tx) <==> Marked(reviews, tx)
  {
  }

  lemma ResolutionMarks(db: Db, t: int, action: ReviewAction, tx: int)
    requires LegalReview(db, t, action)
    ensures Marked(ResolveReview(db, t, action).reviews, tx) <==> Marked(db.reviews, tx) && t != tx
  {
  }

  lemma StepMarks(db: Db, op: Op, tx: int)
    requires Inv(db) && Legal(db, op)
    ensures Marked(Apply(db, op).reviews, tx) <==>
            Reopens(db, op, tx) || (Marked(db.reviews, tx) && !Resolves(op, tx))
  {
    InvMarks(db);
    match op
    case OpApproval(_, _, t, charge) => ApprovalMarks(db.reviews, t, charge, tx);
    case OpLateApproval(_, _, t, charge) => LateApprovalMarks(db.reviews, t, charge, tx);
    case OpReversal(ev, key, t, charge) =>
      var b := FindOpen(db.batches, key).value;
      ReversalMarks(db.reviews, t, b, FindPurchase(Register(db, b, ev, t, Reversal, charge), t), charge, tx);
    case OpReview(t, action) => ResolutionMarks(db, t, action, tx);
    case _ => OtherOpLeavesRows(db, op);
  }

  /** The mark is on a review if and only if the log reopened it and nobody has resolved it since. */
  lemma {:induction false} MarkedIff(log: seq<Op>, tx: int)
    requires LegalLog(log)
    ensures Marked(Replay(log).reviews, tx) <==> ReopenedIn(log, tx)
  {
    if |log| > 0 {
      var front := log[..|log| - 1];
      MarkedIff(front, tx);
      ReplayKeeps(front);
      StepMarks(Replay(front), log[|log| - 1], tx);
    }
  }

  /** Of the reviews of a batch that was sent, exactly those are open that the log reopened. */
  lemma SentReviewIff(log: seq<Op>, b: nat, tx: int)
    requires LegalLog(log)
    requires var db := Replay(log);
             && b < |db.batches| && Sent(db.batches[b].state) && tx in db.reviews && db.reviews[tx].batch == b
    ensures Replay(log).reviews[tx].resolved <==> !ReopenedIn(log, tx)
  {
    var db := Replay(log);
    ReplayKeeps(log);
    MarkedIff(log, tx);
    assert BatchOk(db, b);
    InvMarks(db);
  }

  /** A review that the log reopened is there. */
  lemma ReopenedIsThere(log: seq<Op>, tx: int)
    requires LegalLog(log) && ReopenedIn(log, tx)
    ensures tx in Replay(log).reviews && !Replay(log).reviews[tx].resolved
  {
    MarkedIff(log, tx);
    ReplayKeeps(log);
    InvMarks(Replay(log));
  }
}
