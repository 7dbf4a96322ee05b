/** What an operator's decision on a review leaves in the tables: the row of the reversal, and its net. */
module LedgerCorrections {
  import opened Options
  import opened BatchSummary
  import opened Batches
  import opened ReversalReviews
  import opened Ledger
  import opened LedgerInvariants
  import opened EndToEnd

  /** The row is the reversal of the transaction in the batch. */
  predicate Reverts(r: Row, batch: nat, tx: int) {
    r.kind == Reversal && r.tx == tx && r.batch == batch
  }

  /** The UPDATE: the amount of that row and nothing else. */
  predicate AmountSet(rows: seq<Row>, n: seq<Row>, batch: nat, tx: int, cents: int) {
    && |n| == |rows|
    && forall k :: 0 <= k < |rows| ==> n[k] == if Reverts(rows[k], batch, tx) then rows[k].(cents := cents) else rows[k]
  }

  /** The DELETE: row i goes, and the others stay in their order. */
  predicate RowGone(rows: seq<Row>, n: seq<Row>, batch: nat, tx: int, i: nat) {
    i < |rows| && Reverts(rows[i], batch, tx) && n == rows[..i] + rows[i + 1..]
  }

  lemma {:induction false} SetMeans(rows: seq<Row>, batch: nat, tx: int, cents: int)
    ensures AmountSet(rows, SetReversalCents(rows, batch, tx, cents), batch, tx, cents)
  {
    if |rows| > 0 {
      SetMeans(rows[..|rows| - 1], batch, tx, cents);
    }
  }

  lemma {:induction false} NothingDeleted(rows: seq<Row>, batch: nat, tx: int)
    requires Find(rows, tx, Reversal).None?
    ensures DeleteReversal(rows, batch, tx) == rows
  {
    if |rows| > 0 {
      NothingDeleted(rows[..|rows| - 1], batch, tx);
      assert rows == rows[..|rows| - 1] + [rows[|rows| - 1]];
    }
  }

  lemma GoneAppend(front: seq<Row>, kept: seq<Row>, last: Row, batch: nat, tx: int, i: nat)
    requires RowGone(front, kept, batch, tx, i)
    ensures RowGone(front + [last], kept + [last], batch, tx, i)
  {
    var rows := front + [last];
    assert rows[..i] == front[..i] && rows[i + 1..] == front[i + 1..] + [last];
  }

  lemma FindAppend(rows: seq<Row>, last: Row, tx: int, kind: Kind)
    ensures Find(rows + [last], tx, kind) == if last.tx == tx && last.kind == kind then Some(last)
            else Find(rows, tx, kind)
  {
    assert (rows + [last])[..|rows|] == rows;
  }

  lemma {:induction false} DeleteMeans(rows: seq<Row>, batch: nat, tx: int) returns (i: nat)
    requires UniqueKeys(rows) && Find(rows, tx, Reversal).Some? && Find(rows, tx, Reversal).value.batch == batch
    ensures RowGone(rows, DeleteReversal(rows, batch, tx), batch, tx, i)
    ensures Find(DeleteReversal(rows, batch, tx), tx, Reversal).None?
  {
    var front, last := rows[..|rows| - 1], rows[|rows| - 1];
    assert rows == front + [last];
    if last.tx == tx && last.kind == Reversal {
      i := |front|;
      NothingDeleted(front, batch, tx);
      assert rows[..i] + rows[i + 1..] == front;
    } else {
      i := DeleteMeans(front, batch, tx);
      GoneAppend(front, DeleteReversal(front, batch, tx), last, batch, tx, i);
      FindAppend(DeleteReversal(front, batch, tx), last, tx, Reversal);
    }
  }

  /** One review resolved, and if the batch was corrected, its version one higher. */
  predicate ReviewClosed(db: Db, n: Db, tx: int, corrects: bool)
    requires tx in db.reviews
  {
    var v := db.reviews[tx];
    && n.reviews == db.reviews[tx := v.(resolved := true, reopened := false)]
    && n.outbox == db.outbox && n.processed == db.processed
    && (if corrects then
          v.batch < |db.batches|
          && n.batches == db.batches[v.batch := db.batches[v.batch].(version := db.batches[v.batch].version + 1)]
        else n.batches == db.batches && n.rows == db.rows)
  }

  /** What the operator asked for is what the tables hold. */
  predicate Decided(db: Db, n: Db, tx: int, action: ReviewAction) {
    && tx in db.reviews && ReviewClosed(db, n, tx, action != Accept)
    && var v := db.reviews[tx];
    && (action == UsePurchaseAmount ==>
          v.purchase.Some? && AmountSet(db.rows, n.rows, v.batch, tx, v.purchase.value.cents))
    && (action == Exclude ==> exists i :: 0 <= i < |db.rows| && RowGone(db.rows, n.rows, v.batch, tx, i))
  }

  /** When an action applies: the review is open, and a correction finds its reversal in an OPEN or DISPUTED
      batch, and for the amount of the purchase, a known purchase of another amount. */
  predicate Applies(db: Db, tx: int, action: ReviewAction) {
    && tx in db.reviews && !db.reviews[tx].resolved
    && (action != Accept ==>
          var v := db.reviews[tx];
          && v.batch < |db.batches| && (db.batches[v.batch].state == Open || db.batches[v.batch].state == Disputed)
          && exists r :: r in db.rows && Reverts(r, v.batch, tx))
    && (action == UsePurchaseAmount ==> db.reviews[tx].reason == AmountMismatch && db.reviews[tx].purchase.Some?)
  }

  lemma {:induction false} FoundAt(rows: seq<Row>, tx: int, kind: Kind, i: nat)
    requires UniqueKeys(rows) && i < |rows| && rows[i].tx == tx && rows[i].kind == kind
    ensures Find(rows, tx, kind) == Some(rows[i])
  {
    if i < |rows| - 1 {
      FoundAt(rows[..|rows| - 1], tx, kind, i);
    }
  }

  lemma FoundHere(rows: seq<Row>, batch: nat, tx: int)
    requires UniqueKeys(rows)
    ensures (exists r :: r in rows && Reverts(r, batch, tx)) <==>
            Find(rows, tx, Reversal).Some? && Find(rows, tx, Reversal).value.batch == batch
  {
    forall r | r in rows && Reverts(r, batch, tx) ensures Find(rows, tx, Reversal) == Some(r) {
      var i :| 0 <= i < |rows| && rows[i] == r;
      FoundAt(rows, tx, Reversal, i);
    }
  }

  lemma AppliesIff(db: Db, tx: int, action: ReviewAction)
    requires Inv(db)
    ensures Applies(db, tx, action) <==> Legal(db, OpReview(tx, action))
  {
    if tx in db.reviews {
      FoundHere(db.rows, db.reviews[tx].batch, tx);
    }
  }

  lemma ResolvesAs(db: Db, tx: int, action: ReviewAction)
    requires Legal(db, OpReview(tx, action)) && db.reviews[tx].batch < |db.batches|
    ensures var n, v := Apply(db, OpReview(tx, action)), db.reviews[tx];
            && ReviewClosed(db, n, tx, action != Accept)
            && (action == UsePurchaseAmount ==>
                  v.purchase.Some? && n.rows == SetReversalCents(db.rows, v.batch, tx, v.purchase.value.cents))
            && (action == Exclude ==> n.rows == DeleteReversal(db.rows, v.batch, tx))
  {
  }

  lemma DecidesAs(db: Db, tx: int, action: ReviewAction)
    requires Inv(db) && Applies(db, tx, action)
    ensures Legal(db, OpReview(tx, action)) && Decided(db, Apply(db, OpReview(tx, action)), tx, action)
  {
    var v := db.reviews[tx];
    AppliesIff(db, tx, action);
    assert ReviewOk(db, v);
    ResolvesAs(db, tx, action);
    if action == UsePurchaseAmount {
      SetMeans(db.rows, v.batch, tx, v.purchase.value.cents);
    } else if action == Exclude {
      FoundHere(db.rows, v.batch, tx);
      var i := DeleteMeans(db.rows, v.batch, tx);
    }
  }

  lemma RowStaysFound(rows: seq<Row>, n: seq<Row>, batch: nat, tx: int, cents: int, kind: Kind)
    requires UniqueKeys(rows) && UniqueKeys(n) && AmountSet(rows, n, batch, tx, cents)
    requires Find(rows, tx, kind).Some? && (kind == Reversal ==> Find(rows, tx, kind).value.batch == batch)
    ensures var r := Find(rows, tx, kind).value;
            Find(n, tx, kind) == Some(if kind == Reversal then r.(cents := cents) else r)
  {
    var i :| 0 <= i < |rows| && rows[i] == Find(rows, tx, kind).value;
    FoundAt(n, tx, kind, i);
  }

  /** USE_PURCHASE_AMOUNT leaves the reversal with the amount of the purchase, in its batch and currency; with
      that purchase stored, the transaction adds nothing to the totals. */
  lemma PurchaseAmountCancels(db: Db, tx: int)
    requires Inv(db) && Applies(db, tx, UsePurchaseAmount)
    ensures Legal(db, OpReview(tx, UsePurchaseAmount))
    ensures var n, v := Apply(db, OpReview(tx, UsePurchaseAmount)), db.reviews[tx];
            var r := Find(db.rows, tx, Reversal);
            && r.Some? && Find(n.rows, tx, Reversal) == Some(r.value.(cents := v.purchase.value.cents))
            && (Cents(Find(db.rows, tx, Purchase)) == v.purchase.value.cents && Find(db.rows, tx, Offline).None? ==>
                  Net(n.rows, tx) == 0)
  {
    DecidesAs(db, tx, UsePurchaseAmount);
    var n, v := Apply(db, OpReview(tx, UsePurchaseAmount)), db.reviews[tx];
    FoundHere(db.rows, v.batch, tx);
    ApplyKeeps(db, OpReview(tx, UsePurchaseAmount));
    RowStaysFound(db.rows, n.rows, v.batch, tx, v.purchase.value.cents, Reversal);
    if Find(db.rows, tx, Purchase).Some? {
      RowStaysFound(db.rows, n.rows, v.batch, tx, v.purchase.value.cents, Purchase);
    }
    NoOfflineAfter(db.rows, n.rows, v.batch, tx, v.purchase.value.cents);
    assert ReviewOk(db, v);
    NetByKind(n.rows, tx);
  }

  lemma NoOfflineAfter(rows: seq<Row>, n: seq<Row>, batch: nat, tx: int, cents: int)
    requires AmountSet(rows, n, batch, tx, cents)
    ensures Find(rows, tx, Offline).None? ==> Find(n, tx, Offline).None?
  {
    if Find(n, tx, Offline).Some? {
      var i :| 0 <= i < |n| && n[i] == Find(n, tx, Offline).value;
      assert rows[i] in rows;
    }
  }

  lemma ExcludedNet(rows: seq<Row>, n: seq<Row>, batch: nat, tx: int, i: nat)
    requires UniqueKeys(rows) && UniqueKeys(n) && RowGone(rows, n, batch, tx, i) && Find(n, tx, Reversal).None?
    ensures Net(n, tx) == Net(rows, tx) + rows[i].cents
  {
    FoundAt(rows, tx, Reversal, i);
    forall kind | kind != Reversal ensures Find(n, tx, kind) == Find(rows, tx, kind) {
      KindStays(rows, n, batch, tx, i, kind);
    }
    NetByKind(rows, tx);
    NetByKind(n, tx);
  }

  lemma KindStays(rows: seq<Row>, n: seq<Row>, batch: nat, tx: int, i: nat, kind: Kind)
    requires UniqueKeys(rows) && UniqueKeys(n) && RowGone(rows, n, batch, tx, i) && kind != Reversal
    ensures Find(n, tx, kind) == Find(rows, tx, kind)
  {
    assert forall x :: x in n ==> x in rows;
    if Find(rows, tx, kind).Some? {
      var k :| 0 <= k < |rows| && rows[k] == Find(rows, tx, kind).value;
      assert n[if k < i then k else k - 1] == rows[k];
      FoundAt(n, tx, kind, if k < i then k else k - 1);
    }
  }

  /** EXCLUDE takes the reversal away, and gives its amount back to the net of the transaction. */
  lemma ExcludeRemoves(db: Db, tx: int)
    requires Inv(db) && Applies(db, tx, Exclude)
    ensures Legal(db, OpReview(tx, Exclude))
    ensures var n, r := Apply(db, OpReview(tx, Exclude)), Find(db.rows, tx, Reversal);
            && r.Some? && Find(n.rows, tx, Reversal).None? && Net(n.rows, tx) == Net(db.rows, tx) + r.value.cents
  {
    AppliesIff(db, tx, Exclude);
    var n, v := Apply(db, OpReview(tx, Exclude)), db.reviews[tx];
    FoundHere(db.rows, v.batch, tx);
    ApplyKeeps(db, OpReview(tx, Exclude));
    var i := DeleteMeans(db.rows, v.batch, tx);
    FoundAt(db.rows, tx, Reversal, i);
    ExcludedNet(db.rows, n.rows, v.batch, tx, i);
  }
}
