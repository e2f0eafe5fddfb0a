// What the book owes and is owed: ledger/src/core/application/dtos/positionUtils.ts
// (`computeCapitalMetrics`), `aggregateOpenBalancesByObjectType` and `aggregateClosureStats` of
// InMemoryLedgerEventRepository.ts, CashPositionService.ts and BookHealthService.ts.

module Exposure {
  import opened Prelude
  import opened Events
  import opened Retraction
  import opened Figures
  import opened Positions
  import opened Aggregates

  const RECEIVABLE_TYPES: set<ObjectType> := {Loan, Advance, Receivable}

  const PAYABLE_TYPES: set<ObjectType> := {Payable, Payroll, ServiceFee, InfrastructureCost, Tax}

  const CONTINGENT_TYPES: set<ObjectType> := {ContingentClaim, Dispute, Penalty, ObjectType.Chargeback}

  /** Which total a type's line belongs to; the sets are tried in this order. */
  datatype LineClass = Receivables | Payables | Contingents | Unclassified

  function ClassOf(t: ObjectType): LineClass {
    if t in RECEIVABLE_TYPES then Receivables
    else if t in PAYABLE_TYPES then Payables
    else if t in CONTINGENT_TYPES then Contingents
    else Unclassified
  }

  /** No type is in two of the sets, so the order they are tried in does not matter. */
  lemma {:induction false} ClassesAreTheirTypes(t: ObjectType)
    ensures ClassOf(t) == Receivables <==> t in RECEIVABLE_TYPES
    ensures ClassOf(t) == Payables <==> t in PAYABLE_TYPES
    ensures ClassOf(t) == Contingents <==> t in CONTINGENT_TYPES
  {
  }

  // ---- computeCapitalMetrics ----

  datatype Metrics = Metrics(
    openExposure: int, capitalAtRisk: int, openPayableExposure: int,
    overduePayable: int, upcomingPayable: int, undatedPayable: int)

  /** The six accumulators. */
  datatype Bucket = OpenExposure | CapitalAtRisk | OpenPayable | Overdue | Upcoming | Undated

  /** Not skipped: in the currency, unreversed, with a known balance. */
  predicate Counts(agg: PositionAggregate, currency: string) {
    agg.currency == currency && !agg.tally.hasReversal && OpenBalanceOf(agg.tally).Some?
  }

  predicate AtRisk(agg: PositionAggregate, cutoff: int) {
    agg.tally.settled == 0 && agg.tally.adjusted == 0 && agg.originatedAt.Some? && agg.originatedAt.value <= cutoff
  }

  predicate InBucket(b: Bucket, agg: PositionAggregate, cutoff: int, asOf: int) {
    var payable := agg.objectType in PAYABLE_TYPES;
    match b
    case OpenExposure => !payable
    case CapitalAtRisk => !payable && AtRisk(agg, cutoff)
    case OpenPayable => payable
    case Overdue => payable && agg.dueAt.Some? && agg.dueAt.value < asOf
    case Upcoming => payable && agg.dueAt.Some? && agg.dueAt.value >= asOf
    case Undated => payable && agg.dueAt.None?
  }

  function BucketShare(b: Bucket, agg: PositionAggregate, currency: string, cutoff: int, asOf: int): int {
    if Counts(agg, currency) && InBucket(b, agg, cutoff, asOf) then OpenBalanceOf(agg.tally).value else 0
  }

  function BucketSum(b: Bucket, aggs: seq<PositionAggregate>, currency: string, cutoff: int, asOf: int): int {
    if aggs == [] then 0
    else BucketSum(b, aggs[..|aggs| - 1], currency, cutoff, asOf) + BucketShare(b, aggs[|aggs| - 1], currency, cutoff, asOf)
  }

  function MetricsOf(aggs: seq<PositionAggregate>, currency: string, cutoff: int, asOf: int): Metrics {
    Metrics(
      BucketSum(OpenExposure, aggs, currency, cutoff, asOf),
      BucketSum(CapitalAtRisk, aggs, currency, cutoff, asOf),
      BucketSum(OpenPayable, aggs, currency, cutoff, asOf),
      BucketSum(Overdue, aggs, currency, cutoff, asOf),
      BucketSum(Upcoming, aggs, currency, cutoff, asOf),
      BucketSum(Undated, aggs, currency, cutoff, asOf))
  }

  /** Sums of amounts are natural. */
  predicate NaturalTally(t: Tally) {
    t.originated >= 0 && t.settled >= 0 && t.adjusted >= 0
  }

  predicate NaturalTallies(aggs: seq<PositionAggregate>) {
    forall agg :: agg in aggs ==> NaturalTally(agg.tally)
  }

  method ComputeCapitalMetrics(aggs: seq<PositionAggregate>, currency: string, cutoff: int, asOf: int) returns (m: Metrics)
    requires NaturalTallies(aggs)
    ensures m == MetricsOf(aggs, currency, cutoff, asOf)
    ensures m.overduePayable + m.upcomingPayable + m.undatedPayable == m.openPayableExposure
    ensures 0 <= m.capitalAtRisk <= m.openExposure
  {
    m := Metrics(0, 0, 0, 0, 0, 0);
    for i := 0 to |aggs|
      invariant m == MetricsOf(aggs[..i], currency, cutoff, asOf)
      invariant m.overduePayable + m.upcomingPayable + m.undatedPayable == m.openPayableExposure
      invariant 0 <= m.capitalAtRisk <= m.openExposure
    {
      var agg := aggs[i];
      assert aggs[..i + 1][..i] == aggs[..i];
      assert agg in aggs;
      if agg.currency != currency || agg.tally.hasReversal { continue; }
      var openBalance := OpenBalanceOf(agg.tally);
      if openBalance.None? { continue; }
      if agg.objectType in PAYABLE_TYPES {
        m := m.(openPayableExposure := m.openPayableExposure + openBalance.value);
        if openBalance.value > 0 {
          if agg.dueAt.None? {
            m := m.(undatedPayable := m.undatedPayable + openBalance.value);
          } else if agg.dueAt.value < asOf {
            m := m.(overduePayable := m.overduePayable + openBalance.value);
          } else {
            m := m.(upcomingPayable := m.upcomingPayable + openBalance.value);
          }
        }
        continue;
      }
      m := m.(openExposure := m.openExposure + openBalance.value);
      if openBalance.value > 0 && agg.tally.settled == 0 && agg.tally.adjusted == 0
         && agg.originatedAt.Some? && agg.originatedAt.value <= cutoff {
        m := m.(capitalAtRisk := m.capitalAtRisk + openBalance.value);
      }
    }
    assert aggs[..|aggs|] == aggs;
  }

  // ---- the second fold of the same balances ----

  datatype OpenBalanceRow = OpenBalanceRow(objectType: ObjectType, openBalance: int, currency: string)

  /** What an aggregate adds to its type's line. */
  function LineShare(agg: PositionAggregate): int {
    if agg.tally.hasReversal || agg.tally.originated == 0 || OpenBalanceOf(agg.tally).None? then 0
    else OpenBalanceOf(agg.tally).value
  }

  /** What the aggregates of some types add to their lines. */
  function LineSum(aggs: seq<PositionAggregate>, types: set<ObjectType>): int {
    if aggs == [] then 0
    else
      var agg := aggs[|aggs| - 1];
      LineSum(aggs[..|aggs| - 1], types) + (if agg.objectType in types then LineShare(agg) else 0)
  }

  function RowTotal(rows: seq<OpenBalanceRow>, types: set<ObjectType>): int {
    if rows == [] then 0
    else
      var r := rows[|rows| - 1];
      RowTotal(rows[..|rows| - 1], types) + (if r.objectType in types then r.openBalance else 0)
  }

  /** Map.get on an insertion-ordered map: the index of the type's row, or the length. */
  function RowIndex(rows: seq<OpenBalanceRow>, t: ObjectType): (k: nat)
    ensures k <= |rows| && (k < |rows| ==> rows[k].objectType == t)
    ensures forall i :: 0 <= i < k ==> rows[i].objectType != t
  {
    if rows == [] || rows[0].objectType == t then 0 else 1 + RowIndex(rows[1..], t)
  }

  lemma {:induction false} RowTotalAfterUpdate(rows: seq<OpenBalanceRow>, k: nat, d: int, types: set<ObjectType>)
    requires k < |rows|
    ensures RowTotal(rows[k := rows[k].(openBalance := rows[k].openBalance + d)], types)
            == RowTotal(rows, types) + (if rows[k].objectType in types then d else 0)
  {
    var n := |rows| - 1;
    var updated := rows[k := rows[k].(openBalance := rows[k].openBalance + d)];
    if k == n {
      assert updated[..n] == rows[..n];
    } else {
      RowTotalAfterUpdate(rows[..n], k, d, types);
      assert updated[..n] == rows[..n][k := rows[..n][k].(openBalance := rows[..n][k].openBalance + d)];
    }
  }

  predicate OneRowPerType(rows: seq<OpenBalanceRow>) {
    forall i, j :: 0 <= i < j < |rows| ==> rows[i].objectType != rows[j].objectType
  }

  /** `existing.openBalance += d`, or a new entry at the end. */
  method AddToRow(rows: seq<OpenBalanceRow>, t: ObjectType, d: int, currency: string) returns (after: seq<OpenBalanceRow>)
    requires OneRowPerType(rows)
    ensures OneRowPerType(after)
    ensures IsAdded(rows, after, t, d)
    ensures forall r :: r in after ==> r.currency == currency || exists q :: q in rows && q.currency == r.currency
  {
    var k := RowIndex(rows, t);
    if k < |rows| {
      after := rows[k := rows[k].(openBalance := rows[k].openBalance + d)];
      UpdatedRowIsAdded(rows, k, d);
      CurrenciesAfterUpdate(rows, k, d);
    } else {
      after := rows + [OpenBalanceRow(t, d, currency)];
      NewRowIsAdded(rows, OpenBalanceRow(t, d, currency));
    }
  }

  /** One amount was added to the rows of one type, and to no others. */
  ghost predicate IsAdded(rows: seq<OpenBalanceRow>, after: seq<OpenBalanceRow>, t: ObjectType, d: int) {
    forall types :: RowTotal(after, types) == RowTotal(rows, types) + (if t in types then d else 0)
  }

  lemma {:induction false} UpdatedRowIsAdded(rows: seq<OpenBalanceRow>, k: nat, d: int)
    requires k < |rows|
    ensures IsAdded(rows, rows[k := rows[k].(openBalance := rows[k].openBalance + d)], rows[k].objectType, d)
  {
    forall types: set<ObjectType>
      ensures RowTotal(rows[k := rows[k].(openBalance := rows[k].openBalance + d)], types)
           == RowTotal(rows, types) + (if rows[k].objectType in types then d else 0)
    {
      RowTotalAfterUpdate(rows, k, d, types);
    }
  }

  lemma {:induction false} NewRowIsAdded(rows: seq<OpenBalanceRow>, r: OpenBalanceRow)
    ensures IsAdded(rows, rows + [r], r.objectType, r.openBalance)
  {
    assert (rows + [r])[..|rows|] == rows;
  }

  lemma {:induction false} CurrenciesAfterUpdate(rows: seq<OpenBalanceRow>, k: nat, d: int)
    requires k < |rows|
    ensures forall r :: r in rows[k := rows[k].(openBalance := rows[k].openBalance + d)]
              ==> exists q :: q in rows && q.currency == r.currency
  {
    var after := rows[k := rows[k].(openBalance := rows[k].openBalance + d)];
    forall r | r in after ensures exists q :: q in rows && q.currency == r.currency {
      var i :| 0 <= i < |after| && after[i] == r;
      assert rows[i] in rows;
    }
  }

  method AggregateOpenBalancesByObjectType(aggs: seq<PositionAggregate>) returns (rows: seq<OpenBalanceRow>)
    ensures OneRowPerType(rows)
    ensures forall types :: RowTotal(rows, types) == LineSum(aggs, types)
    ensures forall r :: r in rows ==> exists agg :: agg in aggs && agg.currency == r.currency
  {
    rows := [];
    for i := 0 to |aggs|
      invariant OneRowPerType(rows)
      invariant forall types :: RowTotal(rows, types) == LineSum(aggs[..i], types)
      invariant forall r :: r in rows ==> exists agg :: agg in aggs && agg.currency == r.currency
    {
      var agg := aggs[i];
      assert aggs[..i + 1][..i] == aggs[..i];
      if agg.tally.hasReversal || agg.tally.originated == 0 { continue; }
      var openBalance := OpenBalanceOf(agg.tally);
      if openBalance.None? || openBalance.value == 0 { continue; }
      rows := AddToRow(rows, agg.objectType, openBalance.value, agg.currency);
    }
    assert aggs[..|aggs|] == aggs;
  }

  // ---- computePositionTotals ----

  datatype Line = Line(objectType: ObjectType, openBalance: int)

  datatype PositionTotals = PositionTotals(
    openReceivables: int, openPayables: int, contingentExposure: int,
    receivableLines: seq<Line>, payableLines: seq<Line>, contingentLines: seq<Line>)

  function LinesTotal(lines: seq<Line>): int {
    if lines == [] then 0 else LinesTotal(lines[..|lines| - 1]) + lines[|lines| - 1].openBalance
  }

  /** Rows of some total, all in its currency; Money.add refuses any other. */
  predicate RowsIn(rows: seq<OpenBalanceRow>, currency: string) {
    forall r :: r in rows && ClassOf(r.objectType) != Unclassified ==> r.currency == currency
  }

  /** That is every row of a type some total counts. */
  lemma {:induction false} RowsInMeans(rows: seq<OpenBalanceRow>, currency: string)
    ensures RowsIn(rows, currency) <==>
      forall r :: r in rows && r.objectType in RECEIVABLE_TYPES + PAYABLE_TYPES + CONTINGENT_TYPES ==> r.currency == currency
  {
    forall r | r in rows
      ensures ClassOf(r.objectType) != Unclassified <==> r.objectType in RECEIVABLE_TYPES + PAYABLE_TYPES + CONTINGENT_TYPES
    {
      ClassesAreTheirTypes(r.objectType);
    }
  }

  lemma {:induction false} LinesOfOneMore(lines: seq<Line>, line: Line)
    ensures LinesTotal(lines + [line]) == LinesTotal(lines) + line.openBalance
  {
    assert (lines + [line])[..|lines|] == lines;
  }

  /** The lines of the rows of some types, in their order. */
  function LinesOf(rows: seq<OpenBalanceRow>, types: set<ObjectType>): seq<Line> {
    if rows == [] then []
    else
      var r := rows[|rows| - 1];
      LinesOf(rows[..|rows| - 1], types) + (if r.objectType in types then [Line(r.objectType, r.openBalance)] else [])
  }

  lemma {:induction false} LinesAddUp(rows: seq<OpenBalanceRow>, types: set<ObjectType>)
    ensures LinesTotal(LinesOf(rows, types)) == RowTotal(rows, types)
  {
    if rows != [] {
      var r := rows[|rows| - 1];
      LinesAddUp(rows[..|rows| - 1], types);
      var before := LinesOf(rows[..|rows| - 1], types);
      LinesOfOneMore(before, Line(r.objectType, r.openBalance));
      assert before + [] == before;
    }
  }

  /** The totals of some rows: each the sum of its types' rows, which are its lines. */
  ghost predicate AreTotalsOf(t: PositionTotals, rows: seq<OpenBalanceRow>) {
    && t.openReceivables == RowTotal(rows, RECEIVABLE_TYPES) && t.receivableLines == LinesOf(rows, RECEIVABLE_TYPES)
    && t.openPayables == RowTotal(rows, PAYABLE_TYPES) && t.payableLines == LinesOf(rows, PAYABLE_TYPES)
    && t.contingentExposure == RowTotal(rows, CONTINGENT_TYPES) && t.contingentLines == LinesOf(rows, CONTINGENT_TYPES)
  }

  function Added(own: LineClass, lineClass: LineClass, units: int): int {
    if own == lineClass then units else 0
  }

  function Appended(own: LineClass, lineClass: LineClass, line: Line): seq<Line> {
    if own == lineClass then [line] else []
  }

  /** One row joins the total and the lines of its class. */
  function Joined(t: PositionTotals, line: Line, own: LineClass): PositionTotals {
    PositionTotals(
      t.openReceivables + Added(own, Receivables, line.openBalance),
      t.openPayables + Added(own, Payables, line.openBalance),
      t.contingentExposure + Added(own, Contingents, line.openBalance),
      t.receivableLines + Appended(own, Receivables, line),
      t.payableLines + Appended(own, Payables, line),
      t.contingentLines + Appended(own, Contingents, line))
  }

  lemma {:induction false} TotalsOfOneMore(t: PositionTotals, rows: seq<OpenBalanceRow>, r: OpenBalanceRow)
    requires AreTotalsOf(t, rows)
    ensures AreTotalsOf(Joined(t, Line(r.objectType, r.openBalance), ClassOf(r.objectType)), rows + [r])
  {
    ClassesAreTheirTypes(r.objectType);
    assert (rows + [r])[..|rows|] == rows;
  }

  method ComputePositionTotals(rows: seq<OpenBalanceRow>, currency: string) returns (result: Result<PositionTotals, CurrencyMismatch>)
    ensures result.Ok? <==> RowsIn(rows, currency)
    ensures result.Ok? ==> AreTotalsOf(result.value, rows)
  {
    var t := PositionTotals(0, 0, 0, [], [], []);
    for i := 0 to |rows|
      invariant RowsIn(rows[..i], currency) && AreTotalsOf(t, rows[..i])
    {
      if ClassOf(rows[i].objectType) != Unclassified && rows[i].currency != currency {
        return Err(CurrencyMismatch);
      }
      assert rows[..i + 1] == rows[..i] + [rows[i]];
      TotalsOfOneMore(t, rows[..i], rows[i]);
      t := Joined(t, Line(rows[i].objectType, rows[i].openBalance), ClassOf(rows[i].objectType));
    }
    assert rows[..|rows|] == rows;
    return Ok(t);
  }

  // ---- the two folds agree ----

  lemma {:induction false} PayableFoldsAgree(aggs: seq<PositionAggregate>, currency: string, cutoff: int, asOf: int)
    requires NaturalTallies(aggs)
    requires forall agg :: agg in aggs ==> agg.currency == currency
    ensures BucketSum(OpenPayable, aggs, currency, cutoff, asOf) == LineSum(aggs, PAYABLE_TYPES)
  {
    if aggs != [] {
      var n := |aggs| - 1;
      assert aggs[n] in aggs;
      PayableFoldsAgree(aggs[..n], currency, cutoff, asOf);
    }
  }

  /**
   * On a single-currency book the exposure published by the metrics and the payables published by the
   * cash position are one number, and it is the sum of its lines.
   */
  method PublishPayables(aggs: seq<PositionAggregate>, currency: string, cutoff: int, asOf: int)
    returns (m: Metrics, totals: PositionTotals)
    requires NaturalTallies(aggs)
    requires forall agg :: agg in aggs ==> agg.currency == currency
    ensures m == MetricsOf(aggs, currency, cutoff, asOf)
    ensures totals.openPayables == m.openPayableExposure == LinesTotal(totals.payableLines)
    ensures totals.openPayables == m.overduePayable + m.upcomingPayable + m.undatedPayable
  {
    m := ComputeCapitalMetrics(aggs, currency, cutoff, asOf);
    var rows := AggregateOpenBalancesByObjectType(aggs);
    var result := ComputePositionTotals(rows, currency);
    totals := result.value;
    PayableFoldsAgree(aggs, currency, cutoff, asOf);
    assert RowTotal(rows, PAYABLE_TYPES) == LineSum(aggs, PAYABLE_TYPES);
    LinesAddUp(rows, PAYABLE_TYPES);
  }

  /** Every aggregate of a book has natural sums, so the hypotheses above are those of the source. */
  lemma {:induction false} BookTalliesAreNatural(store: seq<LedgerEvent>, objectId: string)
    ensures NaturalTally(TallyOf(store, objectId))
  {
    SharesAreNatural(store, RetractedIds(store), Originated(objectId));
    SharesAreNatural(store, RetractedIds(store), Settled(objectId));
    SharesAreNatural(store, RetractedIds(store), Adjusted(objectId));
  }

  // ---- health ----

  /** Cash-settled and all settled amounts of a window, in one currency. */
  method AggregateClosureStats(store: seq<LedgerEvent>, from: int, to: int, currency: string)
    returns (cashInSettled: int, totalSettled: int)
    ensures cashInSettled == SettledSum(store, RetractedIds(store), from, to, currency, true)
    ensures totalSettled == SettledSum(store, RetractedIds(store), from, to, currency, false)
    ensures 0 <= cashInSettled <= totalSettled
  {
    cashInSettled, totalSettled := 0, 0;
    var retracted := RetractedEventIds(store);
    for i := 0 to |store|
      invariant cashInSettled == SettledSum(store[..i], retracted, from, to, currency, true)
      invariant totalSettled == SettledSum(store[..i], retracted, from, to, currency, false)
      invariant 0 <= cashInSettled <= totalSettled
    {
      var ev := store[i];
      assert store[..i + 1][..i] == store[..i];
      if ev.id in retracted { continue; }
      if ev.occurredAt < from || ev.occurredAt > to { continue; }
      if ev.amount.currency != currency { continue; }
      if !(exists o :: o in ev.objects && o.relation == Settles) { continue; }
      totalSettled := totalSettled + ev.amount.units;
      if ev.effect == CashIn { cashInSettled := cashInSettled + ev.amount.units; }
    }
    assert store[..|store|] == store;
  }

  function SettledSum(store: seq<LedgerEvent>, retracted: set<string>, from: int, to: int, currency: string, cashOnly: bool): int {
    if store == [] then 0
    else
      var e := store[|store| - 1];
      SettledSum(store[..|store| - 1], retracted, from, to, currency, cashOnly)
      + (if e.id !in retracted && from <= e.occurredAt <= to && e.amount.currency == currency
            && (exists o :: o in e.objects && o.relation == Settles) && (cashOnly ==> e.effect == CashIn)
         then e.amount.units else 0)
  }

  /** A ratio truncated to four decimals. */
  function Ratio(part: nat, whole: nat): real
    requires whole != 0
  {
    (part * 10000 / whole) as real / 10000.0
  }

  function ClosureQuality(cashInSettled: nat, totalSettled: nat): real {
    if totalSettled == 0 then 1.0 else Ratio(cashInSettled, totalSettled)
  }

  function OpenBookHealth(capitalAtRisk: nat, openExposure: nat): real {
    if openExposure == 0 then 1.0 else 1.0 - Ratio(capitalAtRisk, openExposure)
  }

  lemma {:induction false} DivisionIsExactUpToRemainder(n: nat, d: nat)
    requires d != 0
    ensures n / d >= 0 && (n / d) * d <= n < (n / d) * d + d
  {
    assert n == (n / d) * d + n % d;
  }

  lemma {:induction false} CancelFactor(a: int, b: int, d: nat)
    requires a * d < b * d
    ensures a < b
  {
    assert a >= b ==> (a - b) * d >= 0;
  }

  lemma {:induction false} QuotientBounds(part: nat, whole: nat)
    requires whole != 0 && part <= whole
    ensures var q := part * 10000 / whole; 0 <= q <= 10000 && q * whole <= part * 10000 < q * whole + whole
  {
    DivisionIsExactUpToRemainder(part * 10000, whole);
    CancelFactor(part * 10000 / whole, 10001, whole);
  }

  lemma {:induction false} CancelRealFactor(a: real, b: real, w: real)
    requires w > 0.0
    ensures a * w < b * w ==> a < b
    ensures a * w <= b * w ==> a <= b
  {
    if a >= b {
      assert (a - b) * w >= 0.0;
    }
    if a > b {
      assert (a - b) * w > 0.0;
    }
  }

  lemma {:induction false} ScaledQuotient(p: real, w: real, q: real)
    requires w > 0.0 && q * w <= p * 10000.0 < q * w + w
    ensures 0.0 <= p / w - q / 10000.0 < 0.0001
  {
    var x := p / w * 10000.0;
    assert p / w * w == p;
    assert x * w == p * 10000.0;
    assert (q + 1.0) * w == q * w + w;
    CancelRealFactor(q, x, w);
    CancelRealFactor(x, q + 1.0, w);
  }

  lemma {:induction false} TruncationIsClose(part: nat, whole: nat)
    requires whole != 0 && part <= whole
    ensures 0.0 <= Ratio(part, whole) <= 1.0
    ensures 0.0 <= part as real / whole as real - Ratio(part, whole) < 0.0001
  {
    QuotientBounds(part, whole);
    var q := part * 10000 / whole;
    assert (q * whole) as real == q as real * whole as real;
    ScaledQuotient(part as real, whole as real, q as real);
  }

  /** Both legs of the score lie in [0, 1], within one ten-thousandth of the exact ratio. */
  lemma {:induction false} HealthLegsAreBoundedAndClose(cashInSettled: nat, totalSettled: nat, capitalAtRisk: nat, openExposure: nat)
    requires cashInSettled <= totalSettled && capitalAtRisk <= openExposure
    ensures 0.0 <= ClosureQuality(cashInSettled, totalSettled) <= 1.0
    ensures 0.0 <= OpenBookHealth(capitalAtRisk, openExposure) <= 1.0
    ensures totalSettled != 0
            ==> 0.0 <= cashInSettled as real / totalSettled as real - ClosureQuality(cashInSettled, totalSettled) < 0.0001
    ensures openExposure != 0
            ==> 0.0 <= OpenBookHealth(capitalAtRisk, openExposure) - (1.0 - capitalAtRisk as real / openExposure as real) < 0.0001
  {
    if totalSettled != 0 { TruncationIsClose(cashInSettled, totalSettled); }
    if openExposure != 0 { TruncationIsClose(capitalAtRisk, openExposure); }
  }

  // ---- what is published of a book ----

  /** The aggregates of a book's positions, each once: the values of the in-memory map, in some order. */
  ghost predicate ListsThePositions(aggs: seq<PositionAggregate>, store: seq<LedgerEvent>) {
    var rows := StandingRows(store, RetractedIds(store));
    && (forall i, j :: 0 <= i < j < |aggs| ==> aggs[i].objectId != aggs[j].objectId)
    && (forall agg :: agg in aggs ==> Group(rows, agg.objectId) != [] && agg == Aggregate(Group(rows, agg.objectId)))
    && (forall objectId :: Group(rows, objectId) != [] ==> exists agg :: agg in aggs && agg.objectId == objectId)
  }

  /** The entries of the map whose keys are not pending, each once. */
  ghost predicate Drained(aggs: seq<PositionAggregate>, aggMap: map<string, PositionAggregate>, pending: set<string>) {
    && pending <= aggMap.Keys
    && (forall i, j :: 0 <= i < j < |aggs| ==> aggs[i].objectId != aggs[j].objectId)
    && (forall agg :: agg in aggs ==>
          agg.objectId in aggMap && agg.objectId !in pending && agg == aggMap[agg.objectId])
    && (forall id :: id in aggMap && id !in pending ==> aggMap[id] in aggs)
  }

  lemma {:induction false} DrainedOnce(aggs: seq<PositionAggregate>, aggMap: map<string, PositionAggregate>, pending: set<string>, id: string)
    requires Drained(aggs, aggMap, pending) && id in pending && aggMap[id].objectId == id
    ensures Drained(aggs + [aggMap[id]], aggMap, pending - {id})
  {
    var after := aggs + [aggMap[id]];
    forall i, j | 0 <= i < j < |after| ensures after[i].objectId != after[j].objectId {
      assert after[i] in aggs;
    }
    forall other | other in aggMap && other !in pending - {id} ensures aggMap[other] in after {
      assert other == id ==> after[|aggs|] == aggMap[other];
    }
  }

  method ListPositions(store: seq<LedgerEvent>) returns (aggs: seq<PositionAggregate>)
    ensures ListsThePositions(aggs, store)
  {
    var aggMap := BuildAggregateMap(store);
    forall id | id in aggMap ensures aggMap[id].objectId == id {
      AggregateTallyIsTheBooks(store, id);
    }
    aggs := DrainMap(aggMap);
    DrainedLists(aggs, aggMap, store);
  }

  method DrainMap(aggMap: map<string, PositionAggregate>) returns (aggs: seq<PositionAggregate>)
    requires forall id :: id in aggMap ==> aggMap[id].objectId == id
    ensures Drained(aggs, aggMap, {})
  {
    aggs := [];
    var pending := aggMap.Keys;
    while pending != {}
      invariant Drained(aggs, aggMap, pending)
      decreases pending
    {
      var id :| id in pending;
      DrainedOnce(aggs, aggMap, pending, id);
      pending := pending - {id};
      aggs := aggs + [aggMap[id]];
    }
  }

  lemma {:induction false} DrainedLists(aggs: seq<PositionAggregate>, aggMap: map<string, PositionAggregate>, store: seq<LedgerEvent>)
    requires Drained(aggs, aggMap, {})
    requires var rows := StandingRows(store, RetractedIds(store));
      && (forall id :: id in aggMap <==> Group(rows, id) != [])
      && (forall id :: id in aggMap ==> aggMap[id] == Aggregate(Group(rows, id)))
    requires forall id :: id in aggMap ==> aggMap[id].objectId == id
    ensures ListsThePositions(aggs, store)
  {
  }

  /** Every listed tally is the whole book's fold of its position, so its sums are natural. */
  lemma {:induction false} ListedTalliesAreTheBooks(aggs: seq<PositionAggregate>, store: seq<LedgerEvent>)
    requires ListsThePositions(aggs, store)
    ensures forall agg :: agg in aggs ==> agg.tally == TallyOf(store, agg.objectId)
    ensures NaturalTallies(aggs)
  {
    forall agg | agg in aggs ensures agg.tally == TallyOf(store, agg.objectId) && NaturalTally(agg.tally) {
      AggregateTallyIsTheBooks(store, agg.objectId);
      BookTalliesAreNatural(store, agg.objectId);
    }
  }

  lemma {:induction false} ListedCurrenciesAreTheBooks(aggs: seq<PositionAggregate>, store: seq<LedgerEvent>, currency: string)
    requires ListsThePositions(aggs, store) && forall e :: e in store ==> e.amount.currency == currency
    ensures forall agg :: agg in aggs ==> agg.currency == currency
  {
    var rows := StandingRows(store, RetractedIds(store));
    forall agg | agg in aggs ensures agg.currency == currency {
      var first := Group(rows, agg.objectId)[0];
      assert first in Group(rows, agg.objectId);
      GroupHolds(rows, agg.objectId);
      RowsComeFromStandingEvents(store, RetractedIds(store), first);
    }
  }

  lemma {:induction false} CapitalAtRiskIsExposed(aggs: seq<PositionAggregate>, currency: string, cutoff: int, asOf: int)
    requires NaturalTallies(aggs)
    ensures 0 <= BucketSum(CapitalAtRisk, aggs, currency, cutoff, asOf) <= BucketSum(OpenExposure, aggs, currency, cutoff, asOf)
  {
    if aggs != [] {
      assert aggs[|aggs| - 1] in aggs;
      CapitalAtRiskIsExposed(aggs[..|aggs| - 1], currency, cutoff, asOf);
    }
  }

  /**
   * What is published of a single-currency book: the exposure of the metrics and the payables of the cash
   * position are one number, the sum of its lines and of its three due states, over the positions of the book;
   * and both legs of the health score, read off the same book, lie in [0, 1].
   */
  method PublishBook(store: seq<LedgerEvent>, currency: string, from: int, to: int, cutoff: int, asOf: int)
    returns (m: Metrics, totals: PositionTotals, quality: real, health: real, aggs: seq<PositionAggregate>)
    requires forall e :: e in store ==> e.amount.currency == currency
    ensures ListsThePositions(aggs, store) && forall agg :: agg in aggs ==> agg.tally == TallyOf(store, agg.objectId)
    ensures m == MetricsOf(aggs, currency, cutoff, asOf) && 0 <= m.capitalAtRisk <= m.openExposure
    ensures totals.openPayables == m.openPayableExposure == LinesTotal(totals.payableLines)
    ensures totals.openPayables == m.overduePayable + m.upcomingPayable + m.undatedPayable
    ensures var settled := SettledSum(store, RetractedIds(store), from, to, currency, false);
      var recovered := SettledSum(store, RetractedIds(store), from, to, currency, true);
      0 <= recovered <= settled && quality == ClosureQuality(recovered, settled)
    ensures health == OpenBookHealth(m.capitalAtRisk, m.openExposure)
    ensures 0.0 <= quality <= 1.0 && 0.0 <= health <= 1.0
  {
    aggs := ListPositions(store);
    ListedTalliesAreTheBooks(aggs, store);
    ListedCurrenciesAreTheBooks(aggs, store, currency);
    m, totals := PublishPayables(aggs, currency, cutoff, asOf);
    CapitalAtRiskIsExposed(aggs, currency, cutoff, asOf);
    var recovered, settled := AggregateClosureStats(store, from, to, currency);
    quality, health := ClosureQuality(recovered, settled), OpenBookHealth(m.capitalAtRisk, m.openExposure);
    HealthLegsAreBoundedAndClose(recovered, settled, m.capitalAtRisk, m.openExposure);
  }
}
