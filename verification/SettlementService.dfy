/** The settlement tables as an object that is updated in place, and the handlers as methods that run
    from start to end. A handler that nobody interrupts does exactly one sequential operation;
    LedgerRefinement.dfy covers the runs in which others interrupt. */
module SettlementService {
  import opened Options
  import opened BatchSummary
  import opened Batches
  import opened SettlementBatches
  import opened ReversalReviews
  import opened Ledger
  import opened LedgerInvariants
  import opened LedgerClients
  import opened LedgerRefinement

  datatype SaveResult = Saved | Stale | SecondOpen

  function Opened(db: Db, key: Key, merchant: int): Db {
    if FindOpen(db.batches, key).Some? || key.currency.Unknown? then db else Apply(db, OpOpen(key, merchant))
  }

  /** A duplicate changes nothing; otherwise the batch is opened if needed and the operation applied. */
  function Registered(db: Db, op: Op, key: Key, merchant: int): Db
    requires op.HasEvent()
  {
    if op.ev in db.processed then db
    else
      var d := Opened(db, key, merchant);
      if Legal(d, op) then Apply(d, op) else d
  }

  /** The sequential close, with the prior totals and the reviews read at the same moment. */
  function ClosedBy(db: Db, ev: int, key: Key, report: Report): Db {
    match FindOpen(db.batches, key)
    case None => db
    case Some(b) =>
      var op := OpClose(ev, key, report, ClosedTotals(db.batches, key, b), CountOpen(db.reviews, b) > 0);
      if Legal(db, op) then Apply(db, op) else db
  }

  lemma CloseIs(db: Db, ev: int, key: Key, report: Report, prior: Report, held: bool, n: Batch)
    requires FindOpen(db.batches, key).Some? && ev !in db.processed
    requires held || Clean(db.reviews, FindOpen(db.batches, key).value)
    requires var b := FindOpen(db.batches, key).value;
             n == CloseOrHold(db.batches[b], RowsOf(db.rows, b),
                              Pending(report, Backend(RowsOf(db.rows, b), key.currency), prior), held).value
    ensures n.state != Open && n.version == db.batches[FindOpen(db.batches, key).value].version && n.summary.Some?
    ensures Legal(db, OpClose(ev, key, report, prior, held))
    ensures Apply(db, OpClose(ev, key, report, prior, held))
         == SaveClose(db, FindOpen(db.batches, key).value, n, true).(processed := db.processed + {ev})
  {
    var b := FindOpen(db.batches, key).value;
    CloseOutcome(db.batches[b], RowsOf(db.rows, b), Pending(report, Backend(RowsOf(db.rows, b), key.currency), prior),
                 held);
  }

  lemma ClosedByIs(db: Db, ev: int, key: Key, report: Report, n: Batch)
    requires FindOpen(db.batches, key).Some? && ev !in db.processed
    requires var b := FindOpen(db.batches, key).value;
             n == CloseOrHold(
                    db.batches[b], RowsOf(db.rows, b),
                    Pending(report, Backend(RowsOf(db.rows, b), key.currency), ClosedTotals(db.batches, key, b)),
                    CountOpen(db.reviews, b) > 0).value
    ensures n.state != Open && n.version == db.batches[FindOpen(db.batches, key).value].version && n.summary.Some?
    ensures ClosedBy(db, ev, key, report)
         == SaveClose(db, FindOpen(db.batches, key).value, n, true).(processed := db.processed + {ev})
  {
    var b := FindOpen(db.batches, key).value;
    CloseIs(db, ev, key, report, ClosedTotals(db.batches, key, b), CountOpen(db.reviews, b) > 0, n);
  }

  class Tables {
    var batches: seq<Batch>
    var rows: seq<Row>
    var reviews: Reviews
    var processed: set<int>
    var outbox: seq<Entry>

    constructor ()
      ensures View() == EMPTY
    {
      batches, rows, reviews, processed, outbox := [], [], map[], {}, [];
    }

    function View(): Db
      reads this
    {
      Db(batches, rows, reviews, processed, outbox)
    }

    method TryMarkAsProcessed(ev: int) returns (inserted: bool)
      modifies this`processed
      ensures inserted <==> ev !in old(processed)
      ensures processed == old(processed) + {ev}
    {
      inserted := ev !in processed;
      processed := processed + {ev};
    }

    /** SaveTx: the conditional UPDATE, then one INSERT ... DO NOTHING per row in memory. */
    method SaveTx(b: SettlementBatch) returns (result: SaveResult)
      requires b.id < |batches|
      modifies this`batches, this`rows, b`version
      ensures result == Saved <==> Save(old(View()), b.id, old(b.Header()), b.transactions).Some?
      ensures result == Stale <==> old(batches[b.id].version) != old(b.version)
      ensures View() == Save(old(View()), b.id, old(b.Header()), b.transactions).GetOr(old(View()))
      ensures b.version == old(b.version) + if result == Saved then 1 else 0
    {
      if batches[b.id].version != b.version {
        return Stale;
      }
      if b.state == Open && FindOpen(batches, b.key).GetOr(b.id) != b.id {
        return SecondOpen;
      }
      var h := b.Header();
      batches := batches[b.id := h.(version := h.version + 1)];
      ghost var before := rows;
      for i := 0 to |b.transactions|
        invariant batches == old(batches)[b.id := h.(version := h.version + 1)]
        invariant rows == InsertRows(before, b.transactions[..i])
        invariant b.version == old(b.version)
      {
        assert b.transactions[..i + 1][..i] == b.transactions[..i];
        var t := b.transactions[i];
        if Find(rows, t.tx, t.kind).None? {
          rows := rows + [t];
        }
      }
      assert b.transactions[..|b.transactions|] == b.transactions;
      b.version := b.version + 1;
      return Saved;
    }

    /** loadTransactions. */
    method LoadTransactions(b: nat) returns (loaded: seq<Row>)
      ensures loaded == RowsOf(rows, b)
    {
      loaded := [];
      for i := 0 to |rows|
        invariant loaded == RowsOf(rows[..i], b)
      {
        assert rows[..i + 1][..i] == rows[..i];
        if rows[i].batch == b {
          loaded := loaded + [rows[i]];
        }
      }
      assert rows[..|rows|] == rows;
    }

    /** FindByID: header first, rows after. */
    method FindByID(b: nat) returns (batch: SettlementBatch)
      requires b < |batches|
      ensures fresh(batch) && batch.id == b
      ensures batch.Header() == Load(batches[b]) && batch.transactions == RowsOf(rows, b)
    {
      var loaded := LoadTransactions(b);
      batch := new SettlementBatch(b, batches[b], loaded);
    }

    method FindOrCreateOpen(key: Key, merchant: int) returns (batch: SettlementBatch)
      requires Inv(View()) && !key.currency.Unknown?
      modifies this`batches
      ensures fresh(batch) && Inv(View())
      ensures View() == Opened(old(View()), key, merchant)
      ensures FindOpen(batches, key) == Some(batch.id)
      ensures batch.Header() == batches[batch.id] && batch.transactions == RowsOf(rows, batch.id)
    {
      ghost var db := View();
      match FindOpen(batches, key) {
        case Some(b) =>
          LoadIsIdentity(View(), b);
          batch := FindByID(b);
        case None =>
          ApplyKeeps(db, OpOpen(key, merchant));
          var h := Batch(key, merchant, Open, None, 0, 0);
          batches := batches + [h];
          NoRowsOf(rows, |batches| - 1);
          batch := new SettlementBatch(|batches| - 1, h, []);
          OpenIsFound(View(), batch.id);
      }
    }

    /** Mark the event, add the row to the loaded batch and save it. */
    method SaveRow(batch: SettlementBatch, ev: int, tx: int, kind: Kind, charge: Charge)
      requires batch.id < |batches| && batch.Header() == batches[batch.id] && batch.state == Open
      requires batch.transactions == RowsOf(rows, batch.id)
      requires FindOpen(batches, batch.key) == Some(batch.id)
      requires charge.cents > 0 && charge.currency == batch.key.currency
      modifies this`processed, this`batches, this`rows, batch
      ensures View() == Register(old(View()), batch.id, ev, tx, kind, charge)
    {
      var inserted := TryMarkAsProcessed(ev);
      var added := batch.Add(tx, charge.cents, kind);
      InsertLoaded(rows, batch.id, Row(batch.id, tx, kind, charge.cents, charge.currency));
      var result := SaveTx(batch);
    }

    /** The transaction of RegisterApproval. */
    method RegisterApproval(ev: int, key: Key, tx: int, charge: Charge)
      requires Inv(View()) && ValidCharge(charge, key)
      modifies this
      ensures View() == Registered(old(View()), OpApproval(ev, key, tx, charge), key, charge.merchant)
    {
      if ev in processed {
        return;
      }
      var batch := FindOrCreateOpen(key, charge.merchant);
      SaveRow(batch, ev, tx, Purchase, charge);
      reviews := Reconcile(reviews, tx, charge);
    }

    /** The transaction of RegisterReversal, with reviewReversal. */
    method RegisterReversal(ev: int, key: Key, tx: int, charge: Charge)
      requires Inv(View()) && ValidCharge(charge, key)
      modifies this
      ensures View() == Registered(old(View()), OpReversal(ev, key, tx, charge), key, charge.merchant)
    {
      if ev in processed {
        return;
      }
      var batch := FindOrCreateOpen(key, charge.merchant);
      SaveRow(batch, ev, tx, Reversal, charge);
      reviews := OpenReview(reviews, tx, batch.id, FindPurchase(View(), tx), charge);
    }

    /** Mark the event, save a closed batch and enqueue its event. */
    method SaveClosed(batch: SettlementBatch, ev: int, ghost h: Batch)
      requires batch.id < |batches| && h == batches[batch.id] && h.version == batch.version
      requires batch.state != Open && batch.summary.Some? && batch.transactions == RowsOf(rows, batch.id)
      modifies this`processed, this`batches, this`rows, this`outbox, batch`version
      ensures View() == SaveClose(old(View()), batch.id, old(batch.Header()), true).(processed := old(processed) + {ev})
      ensures batch.Header() == batches[batch.id]
    {
      var inserted := TryMarkAsProcessed(ev);
      SaveCurrent(View(), batch.id, batch.Header());
      var result := SaveTx(batch);
      outbox := outbox + [Entry(batch.id, batch.version, |batch.transactions|, batch.summary.value.totalCents,
                                batch.discrepancies)];
    }

    /** pendingTerminalTotals, openReviews and the close itself, in memory. */
    method CloseLoaded(batch: SettlementBatch, report: Report)
      requires batch.state == Open
      modifies batch`state, batch`summary, batch`discrepancies
      ensures batch.Header() == CloseOrHold(
                old(batch.Header()), batch.transactions,
                Pending(report, Backend(batch.transactions, batch.key.currency),
                        ClosedTotals(batches, batch.key, batch.id)),
                CountOpen(reviews, batch.id) > 0).value
    {
      var backend := batch.CalculateSummary();
      var pending := Report(backend.count, backend.cents);
      if report != pending {
        var prior := ClosedTotals(batches, batch.key, batch.id);
        pending := Pending(report, pending, prior);
      }
      var openReviews := CountOpen(reviews, batch.id);
      var ok := batch.CloseForTerminal(pending, openReviews);
    }

    /** ProcessBatchClose up to the commit; the caller submits a batch left in CLOSED. */
    method ProcessBatchClose(ev: int, key: Key, report: Report) returns (closed: Option<SettlementBatch>)
      requires Inv(View())
      modifies this
      ensures closed.Some? <==> FindOpen(old(batches), key).Some? && ev !in old(processed)
      ensures View() == ClosedBy(old(View()), ev, key, report)
    {
      ghost var db := View();
      var found := FindOpen(batches, key);
      if found.None? || ev in processed {
        return None;
      }
      LoadIsIdentity(db, found.value);
      var batch := FindByID(found.value);
      CloseLoaded(batch, report);
      ClosedByIs(db, ev, key, report, batch.Header());
      SaveClosed(batch, ev, batches[batch.id]);
      return Some(batch);
    }
  }

  /** How one attempt of a handler ends. */
  datatype Attempt = Committed | Failed | StaleBatch

  const STALE_RETRY_ATTEMPTS: nat := 8

  /** retryOnStale: attempts are numbered from 1, and the context may end during the wait after one. */
  method RetryOnStale(attempt: nat -> Attempt, cancelledAfter: nat -> bool) returns (result: Attempt, attempts: nat)
    ensures 1 <= attempts <= 8 && result == attempt(attempts)
    ensures forall k :: 1 <= k < attempts ==> attempt(k) == StaleBatch && !cancelledAfter(k)
    ensures result == StaleBatch ==> attempts == 8 || cancelledAfter(attempts)
  {
    result, attempts := attempt(1), 1;
    while result == StaleBatch && attempts < STALE_RETRY_ATTEMPTS && !cancelledAfter(attempts)
      invariant 1 <= attempts <= STALE_RETRY_ATTEMPTS && result == attempt(attempts)
      invariant forall k :: 1 <= k < attempts ==> attempt(k) == StaleBatch && !cancelledAfter(k)
    {
      attempts := attempts + 1;
      result := attempt(attempts);
    }
  }
}
