/** The aggregate of st_settlement_batch.go. Its methods update the fields in place; each is proved
    against the function of the same name on headers. */
module SettlementBatches {
  import opened Options
  import opened Money
  import opened BatchSummary
  import opened Batches

  /** The aggregate. Timestamps and domain events are not modelled. */
  class SettlementBatch {
    const id: nat
    const key: Key
    const merchant: int
    var state: BatchState
    var transactions: seq<Row>
    var summary: Option<Summary>
    var discrepancies: nat
    var version: nat

    constructor (id: nat, header: Batch, rows: seq<Row>)
      ensures this.id == id && transactions == rows
      ensures Header() == header.(summary := Reload(header.summary, header.key.currency))
    {
      this.id := id;
      key := header.key;
      merchant := header.merchant;
      state := header.state;
      transactions := rows;
      summary := Reload(header.summary, header.key.currency);
      discrepancies := header.discrepancies;
      version := header.version;
    }

    function Header(): Batch
      reads this
    {
      Batch(key, merchant, state, summary, discrepancies, version)
    }

    /** AddTransaction and RemoveTransaction, for a purchase and for a reversal. */
    method Add(tx: int, cents: int, kind: Kind) returns (ok: bool)
      modifies this`transactions
      ensures ok <==> state == Open && cents > 0
      ensures transactions == old(transactions) + if ok then [Row(id, tx, kind, cents, key.currency)] else []
    {
      if state != Open || cents <= 0 {
        return false;
      }
      transactions := transactions + [Row(id, tx, kind, cents, key.currency)];
      return true;
    }

    /** The loop of calculateSummary, with int64 accumulators. */
    method CalculateSummary() returns (c: Calculated)
      ensures c == Calculate(transactions, key.currency)
    {
      var rows := transactions;
      var purchaseCount: nat, reversalCount: nat := 0, 0;
      var purchaseAmount, reversalAmount := 0, 0;
      for i := 0 to |rows|
        invariant Totals(purchaseCount, purchaseAmount, reversalCount, reversalAmount) == Fold64(rows[..i])
      {
        var tx := rows[i];
        assert rows[..i + 1][..i] == rows[..i];
        if tx.kind != Reversal {
          purchaseCount, purchaseAmount := purchaseCount + 1, Wrap(purchaseAmount + tx.cents);
        } else {
          reversalCount, reversalAmount := reversalCount + 1, Wrap(reversalAmount + tx.cents);
        }
      }
      assert rows[..|rows|] == rows;
      var totalCount, totalAmount := purchaseCount + reversalCount, Wrap(purchaseAmount - reversalAmount);
      var reversalMoney := 0;
      if reversalAmount > 0 {
        reversalMoney := CentsKept(reversalAmount, key.currency);
      }
      c := Calculated(
        Summary(totalCount, CentsKept(totalAmount, key.currency),
                purchaseCount, CentsKept(purchaseAmount, key.currency),
                reversalCount, reversalMoney),
        totalCount, totalAmount);
    }

    method ChangeState(next: BatchState) returns (ok: bool)
      modifies this`state
      ensures ok <==> CanTransition(old(state), next)
      ensures state == if ok then next else old(state)
    {
      ok := CanTransition(state, next);
      if ok {
        state := next;
      }
    }

    method Close(terminal: Report) returns (ok: bool)
      modifies this`state, this`summary, this`discrepancies
      ensures ok <==> Batches.Close(old(Header()), transactions, terminal).Some?
      ensures Header() == Batches.Close(old(Header()), transactions, terminal).GetOr(old(Header()))
    {
      ok := ChangeState(Closed);
      if !ok {
        return;
      }
      var c := CalculateSummary();
      var countDiff := if terminal.count >= c.count then terminal.count - c.count else c.count - terminal.count;
      discrepancies := 0;
      if terminal.count != c.count || terminal.cents != c.cents {
        discrepancies := countDiff;
        if discrepancies == 0 {
          discrepancies := 1;
        }
      }
      summary := Some(c.summary);
    }

    method CloseWithBackendTotals() returns (ok: bool)
      modifies this`state, this`summary, this`discrepancies
      ensures ok <==> old(state) == Open
      ensures Header() == Batches.CloseWithBackendTotals(old(Header()), transactions).GetOr(old(Header()))
    {
      ok := ChangeState(PendingClose);
      if ok {
        var c := CalculateSummary();
        ok := Close(Report(c.count, c.cents));
      }
    }

    method Reopen() returns (ok: bool)
      modifies this`state, this`summary, this`discrepancies
      ensures ok <==> old(state) == Disputed
      ensures Header() == Batches.Reopen(old(Header())).GetOr(old(Header()))
    {
      ok := ChangeState(Open);
      if ok {
        summary, discrepancies := None, 0;
      }
    }

    method ResolveDispute() returns (ok: bool)
      modifies this`state, this`summary, this`discrepancies
      ensures ok <==> CanTransition(old(state), Closed)
      ensures Header() == Batches.ResolveDispute(old(Header()), transactions).GetOr(old(Header()))
    {
      var c := CalculateSummary();
      ok := ChangeState(Closed);
      if ok {
        summary, discrepancies := Some(c.summary), 0;
      }
    }

    /** RequestClose, Close and MarkDisputed, as ProcessBatchClose calls them before saving. */
    method CloseForTerminal(terminal: Report, openReviews: nat) returns (ok: bool)
      modifies this`state, this`summary, this`discrepancies
      ensures ok <==> old(state) == Open
      ensures Header() == CloseOrHold(old(Header()), transactions, terminal, openReviews > 0).GetOr(old(Header()))
    {
      ok := ChangeState(PendingClose);
      if !ok {
        return;
      }
      ok := Close(terminal);
      if discrepancies > 0 || openReviews > 0 {
        ok := ChangeState(Disputed);
      }
    }
  }
}
