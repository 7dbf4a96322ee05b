/** The rows of a batch, their exact fold, and the summary the code computes from them with int64
    arithmetic and discarded NewMoney errors. */
module BatchSummary {
  import opened Options
  import opened Money

  datatype Kind = Purchase | Reversal | Offline

  /** A row of settlement.batch_transactions. */
  datatype Row = Row(batch: nat, tx: int, kind: Kind, cents: int, currency: Currency)

  /** Exact totals, without any machine arithmetic. */
  datatype Totals = Totals(purchases: nat, purchaseCents: int, reversals: nat, reversalCents: int)
  {
    function Count(): nat { purchases + reversals }
    function Net(): int { purchaseCents - reversalCents }
  }

  function AddRow(t: Totals, r: Row): Totals {
    match r.kind
    case Reversal => t.(reversals := t.reversals + 1, reversalCents := t.reversalCents + r.cents)
    case _ => t.(purchases := t.purchases + 1, purchaseCents := t.purchaseCents + r.cents)
  }

  function Fold(rows: seq<Row>): Totals {
    if |rows| == 0 then Totals(0, 0, 0, 0)
    else AddRow(Fold(rows[..|rows| - 1]), rows[|rows| - 1])
  }

  /** Every row holds a positive int64 (NewBatchTransaction refuses the rest). */
  predicate PositiveRows(rows: seq<Row>) {
    forall r :: r in rows ==> 0 < r.cents <= MAX_INT64
  }

  /** The accumulators of calculateSummary: the same fold with int64 additions. */
  function AddRow64(t: Totals, r: Row): Totals {
    match r.kind
    case Reversal => t.(reversals := t.reversals + 1, reversalCents := Wrap(t.reversalCents + r.cents))
    case _ => t.(purchases := t.purchases + 1, purchaseCents := Wrap(t.purchaseCents + r.cents))
  }

  function Fold64(rows: seq<Row>): Totals {
    if |rows| == 0 then Totals(0, 0, 0, 0)
    else AddRow64(Fold64(rows[..|rows| - 1]), rows[|rows| - 1])
  }

  /** The stored totals of a closed batch. */
  datatype Summary = Summary(
    totalCount: nat, totalCents: int,
    purchaseCount: nat, purchaseCents: int,
    reversalCount: nat, reversalCents: int)

  /** What calculateSummary returns: the summary and the count and amount used for reconciliation. */
  datatype Calculated = Calculated(summary: Summary, count: nat, cents: int)

  function FromTotals(t: Totals, currency: Currency): Calculated {
    var net := Wrap(t.purchaseCents - t.reversalCents);
    Calculated(
      Summary(
        t.Count(), CentsKept(net, currency),
        t.purchases, CentsKept(t.purchaseCents, currency),
        t.reversals, if t.reversalCents > 0 then CentsKept(t.reversalCents, currency) else 0),
      t.Count(), net)
  }

  function Calculate(rows: seq<Row>, currency: Currency): Calculated {
    FromTotals(Fold64(rows), currency)
  }

  /** The summary holds the exact totals of the rows. */
  predicate Exact(s: Summary, t: Totals) {
    s == Summary(t.Count(), t.Net(), t.purchases, t.purchaseCents, t.reversals, t.reversalCents)
  }

  predicate WithinBounds(t: Totals) {
    t.purchaseCents <= MAX_CENTS && t.reversalCents <= MAX_CENTS
  }

  /** The machine accumulators m agree with the exact totals t wherever t fits in an int64. */
  predicate Tracks(m: Totals, t: Totals) {
    && t.purchases == m.purchases && t.purchaseCents >= t.purchases && IsInt64(m.purchaseCents)
    && t.reversals == m.reversals && t.reversalCents >= t.reversals && IsInt64(m.reversalCents)
    && (t.purchaseCents <= MAX_INT64 ==> m.purchaseCents == t.purchaseCents)
    && (t.reversalCents <= MAX_INT64 ==> m.reversalCents == t.reversalCents)
    && (t.Count() == 0 ==> t.purchaseCents == t.reversalCents == 0)
  }

  lemma TracksStep(m: Totals, t: Totals, r: Row)
    requires Tracks(m, t) && 0 < r.cents <= MAX_INT64
    ensures Tracks(AddRow64(m, r), AddRow(t, r))
  {
  }

  lemma {:induction false} MachineFold(rows: seq<Row>)
    requires PositiveRows(rows)
    ensures Tracks(Fold64(rows), Fold(rows)) && Fold(rows).Count() == |rows|
  {
    if |rows| > 0 {
      var front, last := rows[..|rows| - 1], rows[|rows| - 1];
      assert last in rows;
      MachineFold(front);
      TracksStep(Fold64(front), Fold(front), last);
    }
  }

  /** The summary is exact exactly when each side fits in NewMoney, in a known currency or without rows;
      and then so are the totals that are compared. */
  predicate ExactIff(c: Calculated, t: Totals, currency: Currency) {
    && (Exact(c.summary, t) <==> (!currency.Unknown? || t.Count() == 0) && WithinBounds(t))
    && (WithinBounds(t) ==> c.count == t.Count() && c.cents == t.Net())
  }

  lemma StoredTotalsExactIff(m: Totals, t: Totals, currency: Currency)
    requires Tracks(m, t)
    ensures ExactIff(FromTotals(m, currency), t, currency)
  {
  }

  lemma CalculateIs(rows: seq<Row>, currency: Currency)
    ensures Calculate(rows, currency) == FromTotals(Fold64(rows), currency)
  {
  }

  /** calculateSummary, with int64 sums and discarded NewMoney errors, stores the exact totals exactly when
      each side fits in NewMoney, in a known currency: zero and negative nets survive. An unknown currency
      loses every amount, so only a batch without rows is exact in one. */
  lemma SummaryIsExactIff(rows: seq<Row>, currency: Currency)
    requires PositiveRows(rows)
    ensures ExactIff(Calculate(rows, currency), Fold(rows), currency) && Fold(rows).Count() == |rows|
  {
    var m, t := Fold64(rows), Fold(rows);
    MachineFold(rows);
    StoredTotalsExactIff(m, t, currency);
    CalculateIs(rows, currency);
  }

  /** toBatchParams: the summary rebuilt from the stored columns. NewBatchSummary rejects counts
      that do not add up, and then the batch is read without a summary. */
  function Reload(stored: Option<Summary>, currency: Currency): Option<Summary> {
    match stored
    case None => None
    case Some(s) =>
      if s.purchaseCount + s.reversalCount != s.totalCount then None
      else Some(s.(totalCents := CentsKept(s.totalCents, currency),
                   purchaseCents := CentsKept(s.purchaseCents, currency),
                   reversalCents := CentsKept(s.reversalCents, currency)))
  }

  lemma KeptTwice(cents: int, currency: Currency)
    ensures CentsKept(CentsKept(cents, currency), currency) == CentsKept(cents, currency)
    ensures CentsKept(0, currency) == 0
  {
  }

  /** Saving a calculated summary and loading it back changes nothing, whatever the amounts. */
  lemma ReloadTotals(t: Totals, currency: Currency)
    ensures Reload(Some(FromTotals(t, currency).summary), currency) == Some(FromTotals(t, currency).summary)
  {
    KeptTwice(Wrap(t.purchaseCents - t.reversalCents), currency);
    KeptTwice(t.purchaseCents, currency);
    KeptTwice(t.reversalCents, currency);
  }

  /** The summary is the one that calculateSummary gives for these rows. */
  predicate SummaryOf(stored: Option<Summary>, rows: seq<Row>, currency: Currency) {
    stored == Some(Calculate(rows, currency).summary)
  }

  predicate Reloads(stored: Option<Summary>, currency: Currency) {
    stored.Some? && Reload(stored, currency) == stored
  }

  lemma ReloadAfterSave(stored: Option<Summary>, rows: seq<Row>, currency: Currency)
    requires SummaryOf(stored, rows, currency)
    ensures Reloads(stored, currency)
  {
    ReloadTotals(Fold64(rows), currency);
  }

  /** A row whose counts do not add up is read without its summary, and no other is. */
  lemma ReloadRejectsIff(stored: Option<Summary>, currency: Currency)
    ensures Reload(stored, currency).None? <==>
            stored.None? || stored.value.purchaseCount + stored.value.reversalCount != stored.value.totalCount
  {
  }
}
