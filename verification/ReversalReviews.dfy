/** Comparison of a reversal with its purchase: the Go switch of st_batch_handler.go, the SQL CASE of
    ReconcileReversalReviewTx, and the review table they write. */
module ReversalReviews {
  import opened Options
  import opened Money

  datatype Reason = PurchaseNotFound | MerchantMismatch | CurrencyMismatch | AmountMismatch

  /** What a purchase or a reversal claims: merchant, amount and currency. */
  datatype Charge = Charge(merchant: int, cents: int, currency: Currency)

  /** A row of settlement.reversal_reviews. `reopened` is not a column: it records that the review was
      resolved by an operator and is open again, without anybody having decided so. */
  datatype Review = Review(
    batch: nat, reason: Reason, reversal: Charge, purchase: Option<Charge>, resolved: bool, reopened: bool)

  type Reviews = map<int, Review>

  /** reversalMismatch. */
  function Mismatch(purchase: Option<Charge>, reversal: Charge): Option<Reason> {
    match purchase
    case None => Some(PurchaseNotFound)
    case Some(p) =>
      if p.merchant != reversal.merchant then Some(MerchantMismatch)
      else if p.currency != reversal.currency then Some(CurrencyMismatch)
      else if p.cents != reversal.cents then Some(AmountMismatch)
      else None
  }

  /** The CASE expression; None is SQL NULL. Its columns are NOT NULL. */
  function CaseMismatch(review: Review, p: Charge): Option<Reason> {
    if review.reversal.merchant != p.merchant then Some(MerchantMismatch)
    else if review.reversal.currency != p.currency then Some(CurrencyMismatch)
    else if review.reversal.cents != p.cents then Some(AmountMismatch)
    else None
  }

  /** InsertReversalReviewTx, called only with a reason; a transaction keeps its first review. */
  function OpenReview(reviews: Reviews, tx: int, batch: nat, purchase: Option<Charge>, reversal: Charge): Reviews {
    match Mismatch(purchase, reversal)
    case None => reviews
    case Some(reason) =>
      if tx in reviews then reviews else reviews[tx := Review(batch, reason, reversal, purchase, false, false)]
  }

  /** ReconcileReversalReviewTx: only an open PURCHASE_NOT_FOUND waits for the purchase. */
  function Reconcile(reviews: Reviews, tx: int, p: Charge): Reviews {
    if tx in reviews && reviews[tx].reason == PurchaseNotFound && !reviews[tx].resolved then
      var r := reviews[tx];
      var mismatch := CaseMismatch(r, p);
      reviews[tx := r.(purchase := Some(p), reason := mismatch.GetOr(r.reason), resolved := mismatch.None?)]
    else reviews
  }

  /** A review that waits for its purchase, or did until an operator resolved it. */
  predicate Uncompared(reviews: Reviews, tx: int) {
    tx in reviews && reviews[tx].reason == PurchaseNotFound && reviews[tx].purchase.None?
  }

  /** The same statement when it saw the review open and then waited for an operator who was deciding on
      it: the row is read again, but not the condition that selected it. */
  function ReconcileLate(reviews: Reviews, tx: int, p: Charge): Reviews {
    if Uncompared(reviews, tx) then
      var r := reviews[tx];
      var mismatch := CaseMismatch(r, p);
      reviews[tx := r.(purchase := Some(p), reason := mismatch.GetOr(r.reason), resolved := mismatch.None?,
                       reopened := r.resolved && mismatch.Some?)]
    else reviews
  }

  /** The open reason of a transaction, which is what an operator sees and what holds the batch. */
  function OpenReason(reviews: Reviews, tx: int): Option<Reason> {
    if tx in reviews && !reviews[tx].resolved then Some(reviews[tx].reason) else None
  }

  predicate NoOpenReview(reviews: Reviews, batch: nat) {
    forall tx :: tx in reviews && reviews[tx].batch == batch ==> reviews[tx].resolved
  }

  /** Every open review of the batch is one that was reopened. */
  predicate Clean(reviews: Reviews, batch: nat) {
    forall tx :: tx in reviews && reviews[tx].batch == batch ==> reviews[tx].resolved || reviews[tx].reopened
  }

  function OpenOf(reviews: Reviews, batch: nat): set<int> {
    set tx | tx in reviews.Keys && reviews[tx].batch == batch && !reviews[tx].resolved
  }

  lemma NoneOpen(reviews: Reviews, batch: nat)
    ensures OpenOf(reviews, batch) == {} <==> NoOpenReview(reviews, batch)
  {
    var open := OpenOf(reviews, batch);
    if NoOpenReview(reviews, batch) {
      assert forall tx :: tx !in open;
    } else {
      var tx :| tx in reviews && reviews[tx].batch == batch && !reviews[tx].resolved;
      assert tx in open;
    }
  }

  /** CountOpenReversalReviews. */
  function CountOpen(reviews: Reviews, batch: nat): (n: nat)
    ensures n == 0 <==> NoOpenReview(reviews, batch)
  {
    NoneOpen(reviews, batch);
    |OpenOf(reviews, batch)|
  }

  /** A review of the transaction holds what the two claim, and the batch of the reversal; there is one unless they
      match. */
  predicate Holds(reviews: Reviews, tx: int, batch: nat, purchase: Charge, reversal: Charge) {
    && (tx in reviews ==>
          && reviews[tx].batch == batch && reviews[tx].reversal == reversal && reviews[tx].purchase == Some(purchase))
    && (purchase != reversal ==> tx in reviews && !reviews[tx].resolved)
  }

  /** Whichever of the two commits first, the open reason is the one of the Go switch on the pair, and
      in particular it is never left at PURCHASE_NOT_FOUND. This needs the switch and the CASE to
      agree on every pair of charges. */
  lemma EitherOrderSameReason(reviews: Reviews, tx: int, batch: nat, purchase: Charge, reversal: Charge)
    requires tx !in reviews
    ensures OpenReason(OpenReview(Reconcile(reviews, tx, purchase), tx, batch, Some(purchase), reversal), tx)
         == Mismatch(Some(purchase), reversal)
    ensures OpenReason(Reconcile(OpenReview(reviews, tx, batch, None, reversal), tx, purchase), tx)
         == Mismatch(Some(purchase), reversal)
    ensures Holds(OpenReview(Reconcile(reviews, tx, purchase), tx, batch, Some(purchase), reversal), tx, batch,
                  purchase, reversal)
    ensures Holds(Reconcile(OpenReview(reviews, tx, batch, None, reversal), tx, purchase), tx, batch, purchase,
                  reversal)
    ensures OpenReview(reviews, tx, batch, None, reversal)
         == reviews[tx := Review(batch, PurchaseNotFound, reversal, None, false, false)]
  {
  }
}
