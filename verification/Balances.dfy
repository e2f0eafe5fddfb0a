// What the published exposures are sums of, in terms of the positions themselves:
// ledger/src/core/application/dtos/positionUtils.ts, lines 60-175, and `aggregateOpenBalancesByObjectType` and
// `aggregateClosureStats` of ledger/src/infra/persistence/memory/InMemoryLedgerEventRepository.ts.

module Balances {
  import opened Prelude
  import opened Events
  import opened Retraction
  import opened Positions
  import opened Aggregates
  import opened Exposure
  import opened Shares

  /** What is still open of a position: what was originated and not closed. */
  function LeftOpen(t: Tally): int {
    t.originated - t.settled - t.adjusted
  }

  function OpenTotal(aggs: seq<PositionAggregate>): int {
    if aggs == [] then 0 else OpenTotal(aggs[..|aggs| - 1]) + LeftOpen(aggs[|aggs| - 1].tally)
  }

  /** The positions that satisfy a condition. */
  function Those(aggs: seq<PositionAggregate>, which: PositionAggregate -> bool): (kept: seq<PositionAggregate>)
    ensures forall agg :: agg in kept <==> agg in aggs && which(agg)
  {
    if aggs == [] then []
    else
      var last := aggs[|aggs| - 1];
      var before := Those(aggs[..|aggs| - 1], which);
      assert aggs == aggs[..|aggs| - 1] + [last];
      if which(last) then before + [last] else before
  }

  lemma {:induction false} ThoseOfOneMore(aggs: seq<PositionAggregate>, which: PositionAggregate -> bool)
    requires aggs != []
    ensures var n := |aggs| - 1;
      OpenTotal(Those(aggs, which))
      == OpenTotal(Those(aggs[..n], which)) + (if which(aggs[n]) then LeftOpen(aggs[n].tally) else 0)
  {
    var n := |aggs| - 1;
    var before := Those(aggs[..n], which);
    assert (before + [aggs[n]])[..|before|] == before;
  }

  // ---- one position ----

  /** Something was originated and is not all closed, and nothing reversed it. */
  predicate IsOutstanding(agg: PositionAggregate) {
    StatusOf(agg.tally) in {Open, PartiallySettled} && agg.tally.originated > 0
  }

  /** Owed to suppliers, employees and the state. */
  predicate IsOwed(t: ObjectType) {
    t in {Payable, Payroll, ServiceFee, InfrastructureCost, Tax}
  }

  lemma {:induction false} OpenBalancesAreWhatIsLeft(agg: PositionAggregate)
    requires NaturalTally(agg.tally)
    ensures !agg.tally.hasReversal && OpenBalanceOf(agg.tally).Some? && OpenBalanceOf(agg.tally).value != 0 <==> IsOutstanding(agg)
    ensures IsOutstanding(agg) ==> OpenBalanceOf(agg.tally) == Some(LeftOpen(agg.tally)) && LeftOpen(agg.tally) > 0
    ensures IsOutstanding(agg) ==> (agg.tally.settled == 0 && agg.tally.adjusted == 0 <==> StatusOf(agg.tally) == Open)
  {
  }

  // ---- the metrics ----

  /** Which of the positions outstanding in a currency each figure is about. */
  predicate IsAbout(b: Bucket, a: PositionAggregate, currency: string, cutoff: int, asOf: int) {
    && a.currency == currency && IsOutstanding(a)
    && match b
       case OpenExposure => !IsOwed(a.objectType)
       case CapitalAtRisk =>
         !IsOwed(a.objectType) && StatusOf(a.tally) == Open && a.originatedAt.Some? && a.originatedAt.value <= cutoff
       case OpenPayable => IsOwed(a.objectType)
       case Overdue => IsOwed(a.objectType) && a.dueAt.Some? && a.dueAt.value < asOf
       case Upcoming => IsOwed(a.objectType) && a.dueAt.Some? && asOf <= a.dueAt.value
       case Undated => IsOwed(a.objectType) && a.dueAt.None?
  }

  function Which(b: Bucket, currency: string, cutoff: int, asOf: int): PositionAggregate -> bool {
    (a: PositionAggregate) => IsAbout(b, a, currency, cutoff, asOf)
  }

  /**
   * Each figure of the capital metrics is what is left open of some of the positions outstanding in the currency:
   * of those not owed; of those not owed that nothing was paid back on and that are as old as the cutoff; of those
   * owed; and of these, of the ones that fell due before the instant, of the ones that did not yet, and of the
   * ones without a due date.
   */
  lemma {:induction false} MetricsAreWhatIsLeftOpen(aggs: seq<PositionAggregate>, currency: string, cutoff: int, asOf: int)
    requires NaturalTallies(aggs)
    ensures var m := MetricsOf(aggs, currency, cutoff, asOf);
      && m.openExposure == OpenTotal(Those(aggs, Which(OpenExposure, currency, cutoff, asOf)))
      && m.capitalAtRisk == OpenTotal(Those(aggs, Which(CapitalAtRisk, currency, cutoff, asOf)))
      && m.openPayableExposure == OpenTotal(Those(aggs, Which(OpenPayable, currency, cutoff, asOf)))
      && m.overduePayable == OpenTotal(Those(aggs, Which(Overdue, currency, cutoff, asOf)))
      && m.upcomingPayable == OpenTotal(Those(aggs, Which(Upcoming, currency, cutoff, asOf)))
      && m.undatedPayable == OpenTotal(Those(aggs, Which(Undated, currency, cutoff, asOf)))
  {
    forall b: Bucket ensures BucketSum(b, aggs, currency, cutoff, asOf) == OpenTotal(Those(aggs, Which(b, currency, cutoff, asOf))) {
      BucketIsLeftOpen(b, aggs, currency, cutoff, asOf, Which(b, currency, cutoff, asOf));
    }
  }

  lemma {:induction false} BucketIsLeftOpen(
      b: Bucket, aggs: seq<PositionAggregate>, currency: string, cutoff: int, asOf: int, which: PositionAggregate -> bool)
    requires NaturalTallies(aggs)
    requires forall a: PositionAggregate :: NaturalTally(a.tally) ==>
      BucketShare(b, a, currency, cutoff, asOf) == if which(a) then LeftOpen(a.tally) else 0
    ensures BucketSum(b, aggs, currency, cutoff, asOf) == OpenTotal(Those(aggs, which))
  {
    if aggs != [] {
      var n := |aggs| - 1;
      assert aggs[n] in aggs;
      BucketIsLeftOpen(b, aggs[..n], currency, cutoff, asOf, which);
      ThoseOfOneMore(aggs, which);
    }
  }

  // ---- the lines ----

  /** What the rows of some types add up to is what is left open of the outstanding positions of those types. */
  lemma {:induction false} LinesAreWhatIsLeftOpen(aggs: seq<PositionAggregate>, types: set<ObjectType>)
    requires NaturalTallies(aggs)
    ensures LineSum(aggs, types) == OpenTotal(Those(aggs, (a: PositionAggregate) => IsOutstanding(a) && a.objectType in types))
  {
    if aggs != [] {
      var n := |aggs| - 1;
      assert aggs[n] in aggs;
      LinesAreWhatIsLeftOpen(aggs[..n], types);
      OpenBalancesAreWhatIsLeft(aggs[n]);
      ThoseOfOneMore(aggs, (a: PositionAggregate) => IsOutstanding(a) && a.objectType in types);
    }
  }

  // ---- closures ----

  function AmountTotal(events: seq<LedgerEvent>): int {
    if events == [] then 0 else AmountTotal(events[..|events| - 1]) + events[|events| - 1].amount.units
  }

  /** The standing events of a period and a currency that settle some position. */
  function Closures(store: seq<LedgerEvent>, from: int, to: int, currency: string): (closures: seq<LedgerEvent>)
    ensures forall e :: e in closures <==>
      && e in store && e.id !in RetractedIds(store) && from <= e.occurredAt <= to && e.amount.currency == currency
      && exists o :: o in e.objects && o.relation == Settles
  {
    ClosuresOutside(store, RetractedIds(store), from, to, currency)
  }

  function ClosuresOutside(events: seq<LedgerEvent>, retracted: set<string>, from: int, to: int, currency: string)
    : (closures: seq<LedgerEvent>)
    ensures forall e :: e in closures <==>
      && e in events && e.id !in retracted && from <= e.occurredAt <= to && e.amount.currency == currency
      && exists o :: o in e.objects && o.relation == Settles
  {
    if events == [] then []
    else
      var e := events[|events| - 1];
      var before := ClosuresOutside(events[..|events| - 1], retracted, from, to, currency);
      assert events == events[..|events| - 1] + [e];
      if e.id !in retracted && from <= e.occurredAt <= to && e.amount.currency == currency
         && exists o :: o in e.objects && o.relation == Settles then before + [e]
      else before
  }

  lemma {:induction false} AmountOfOneMore(events: seq<LedgerEvent>, e: LedgerEvent)
    ensures AmountTotal(events + [e]) == AmountTotal(events) + e.amount.units
    ensures OfEffect(events + [e], CashIn) == OfEffect(events, CashIn) + (if e.effect == CashIn then [e] else [])
  {
    assert (events + [e])[..|events|] == events;
  }

  lemma {:induction false} SettledSumsAreAmounts(events: seq<LedgerEvent>, retracted: set<string>, from: int, to: int, currency: string)
    ensures var closures := ClosuresOutside(events, retracted, from, to, currency);
      && SettledSum(events, retracted, from, to, currency, false) == AmountTotal(closures)
      && SettledSum(events, retracted, from, to, currency, true) == AmountTotal(OfEffect(closures, CashIn))
  {
    if events != [] {
      var n := |events| - 1;
      var before := ClosuresOutside(events[..n], retracted, from, to, currency);
      SettledSumsAreAmounts(events[..n], retracted, from, to, currency);
      AmountOfOneMore(before, events[n]);
      AmountOfOneMore(OfEffect(before, CashIn), events[n]);
    }
  }

  /** The two figures behind the quality of closures: what all of them amounted to, and what the CASH_IN ones did. */
  lemma {:induction false} ClosureStatsAreAmounts(store: seq<LedgerEvent>, from: int, to: int, currency: string)
    ensures var closures := Closures(store, from, to, currency);
      && SettledSum(store, RetractedIds(store), from, to, currency, false) == AmountTotal(closures)
      && SettledSum(store, RetractedIds(store), from, to, currency, true) == AmountTotal(OfEffect(closures, CashIn))
  {
    SettledSumsAreAmounts(store, RetractedIds(store), from, to, currency);
  }
}
