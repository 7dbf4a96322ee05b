/** A run in which the stored totals of a closed batch are not those of its rows. */
module LargeTotals {
  import opened Options
  import opened Money
  import opened BatchSummary
  import opened Batches
  import opened ReversalReviews
  import opened Ledger
  import opened LedgerClients

  const DAY := Key(1, 20260101, ARS)
  const SALE := Row(0, 1, Purchase, MAX_CENTS + 1, ARS)
  const APPROVE := DoApproval(1, DAY, 1, Charge(7, MAX_CENTS + 1, ARS))
  const CLOSE := DoForceClose(0)

  function Header(version: nat): Batch { Batch(DAY, 7, Open, None, 0, version) }

  const LOST := Summary(1, 0, 1, 0, 0, 0)

  predicate Holds(db: Db) { db.batches == [Header(1)] && db.rows == [SALE] }

  lemma TheRow()
    ensures RowsOf([SALE], 0) == [SALE] && InsertRows([], [SALE]) == [SALE] && InsertRows([SALE], [SALE]) == [SALE]
    ensures Fold([SALE]) == Totals(1, MAX_CENTS + 1, 0, 0) == Fold64([SALE])
    ensures Calculate([SALE], ARS) == Calculated(LOST, 1, MAX_CENTS + 1)
  {
    assert [SALE][..0] == [];
    assert Fold([SALE][..0]) == Totals(0, 0, 0, 0) == Fold64([SALE][..0]);
  }

  lemma SaleLoads() returns (s: System)
    ensures Reached(s) && s.clients == [Loaded(APPROVE, 0, Header(0), [])]
    ensures s.db == EMPTY.(batches := [Header(0)])
  {
    s := System(EMPTY, [], []);
    assert Run([]) == s;
    s := Starts(s, APPROVE);
    s := Moves(s, 0);
  }

  lemma Registers(db: Db)
    requires db == EMPTY.(batches := [Header(0)])
    ensures var t := Advance(db, Loaded(APPROVE, 0, Header(0), []));
            t.client == Idle && Holds(t.db)
  {
    TheRow();
    assert [] + [SALE] == [SALE];
  }

  lemma SaleCommits() returns (s: System)
    ensures Reached(s) && s.clients == [Idle] && Holds(s.db)
  {
    s := SaleLoads();
    Registers(s.db);
    s := Moves(s, 0);
  }

  lemma ReadsHeader(db: Db)
    requires Holds(db)
    ensures Advance(db, Begun(CLOSE)) == Step(db, None, Headed(CLOSE, 0, Header(1)))
  {
  }

  lemma ReadsRows(db: Db)
    requires Holds(db)
    ensures Advance(db, Headed(CLOSE, 0, Header(1))) == Step(db, None, Loaded(CLOSE, 0, Header(1), [SALE]))
  {
    TheRow();
  }

  lemma CloseLoads() returns (s: System)
    ensures Reached(s) && s.clients == [Idle, Loaded(CLOSE, 0, Header(1), [SALE])] && Holds(s.db)
  {
    s := SaleCommits();
    ReadsHeader(s.db);
    ReadsRows(s.db);
    s := Starts(s, CLOSE);
    s := Moves(s, 1);
    s := Moves(s, 1);
  }

  lemma CommitsClose(db: Db)
    requires Holds(db)
    ensures var d := Advance(db, Loaded(CLOSE, 0, Header(1), [SALE])).db;
            d.rows == [SALE] && d.batches == [Batch(DAY, 7, Closed, Some(LOST), 0, 2)]
  {
    TheRow();
    ForceCloseOutcome(Header(1), [SALE]);
  }

  /** One sale of a cent more than NewMoney accepts, and a forced close: the batch is CLOSED without
      discrepancies, with one purchase and a total of zero. */
  lemma StoredTotalsLoseTheAmount() returns (schedule: seq<Event>)
    ensures var db := Run(schedule).db;
            && |db.batches| == 1 && db.batches[0].state == Closed && db.batches[0].discrepancies == 0
            && Fold(RowsOf(db.rows, 0)) == Totals(1, MAX_CENTS + 1, 0, 0)
            && db.batches[0].summary == Some(Summary(1, 0, 1, 0, 0, 0))
  {
    TheRow();
    var s := CloseLoads();
    CommitsClose(s.db);
    s := Moves(s, 1);
    schedule :| Run(schedule) == s;
  }
}
