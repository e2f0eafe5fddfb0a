// Cash in the book and the statement of a period: `aggregateCashFlows`, `aggregateCashFlowsBefore` and
// `findByPeriod` of InMemoryLedgerEventRepository.ts, and
// ledger/src/core/application/services/CashStatementService.ts.

module CashFlows {
  import opened Prelude
  import opened Events
  import opened Validation
  import opened Retraction
  import opened Figures
  import opened EventPayload
  import opened Ledger

  // ---- the whole book ----

  datatype Flows = Flows(cashInUnits: int, cashOutUnits: int, currency: string)

  predicate MovesCash(e: LedgerEvent) {
    e.effect == CashIn || e.effect == CashOut
  }

  /** The currency of the first standing cash event, or the default. */
  function FlowCurrency(events: seq<LedgerEvent>, retracted: set<string>): string {
    if events == [] then "BRL"
    else if events[0].id !in retracted && MovesCash(events[0]) then events[0].amount.currency
    else FlowCurrency(events[1..], retracted)
  }

  /** It is the currency of some standing cash event with none before it, and the default where there is none. */
  lemma {:induction false} FlowCurrencyIsTheFirst(events: seq<LedgerEvent>, retracted: set<string>)
    ensures (forall e :: e in events && MovesCash(e) ==> e.id in retracted) ==> FlowCurrency(events, retracted) == "BRL"
    ensures forall i :: 0 <= i < |events| && events[i].id !in retracted && MovesCash(events[i])
              && (forall j :: 0 <= j < i ==> events[j].id in retracted || !MovesCash(events[j]))
              ==> FlowCurrency(events, retracted) == events[i].amount.currency
  {
    if events != [] && (events[0].id in retracted || !MovesCash(events[0])) {
      FlowCurrencyIsTheFirst(events[1..], retracted);
      forall i | 0 <= i < |events| && events[i].id !in retracted && MovesCash(events[i])
          && (forall j :: 0 <= j < i ==> events[j].id in retracted || !MovesCash(events[j]))
        ensures FlowCurrency(events, retracted) == events[i].amount.currency
      {
        assert events[1..][i - 1] == events[i];
        forall j | 0 <= j < i - 1 ensures events[1..][j].id in retracted || !MovesCash(events[1..][j]) {
          assert events[1..][j] == events[j + 1];
        }
      }
    }
  }

  method AggregateCashFlows(store: seq<LedgerEvent>) returns (flows: Flows)
    ensures flows == Flows(Value(store, CashInFlow), Value(store, CashOutFlow), FlowCurrency(store, RetractedIds(store)))
  {
    var cashInUnits, cashOutUnits, currency, found := 0, 0, "BRL", false;
    var retracted := RetractedEventIds(store);
    for i := 0 to |store|
      invariant cashInUnits == StandingSum(store[..i], retracted, CashInFlow)
      invariant cashOutUnits == StandingSum(store[..i], retracted, CashOutFlow)
      invariant FlowCurrency(store, retracted) == if found then currency else FlowCurrency(store[i..], retracted)
      invariant !found ==> currency == "BRL"
    {
      var event := store[i];
      assert store[..i + 1][..i] == store[..i];
      assert store[i..][1..] == store[i + 1..];
      if event.id in retracted { continue; }
      if event.effect == CashIn {
        if !found { currency, found := event.amount.currency, true; }
        cashInUnits := cashInUnits + event.amount.units;
      } else if event.effect == CashOut {
        if !found { currency, found := event.amount.currency, true; }
        cashOutUnits := cashOutUnits + event.amount.units;
      }
    }
    assert store[..|store|] == store;
    flows := Flows(cashInUnits, cashOutUnits, currency);
  }

  /** Party legs balance against the cash flows, event by event and so over any standing set. */
  lemma {:induction false} LegsSumToFlows(events: seq<LedgerEvent>, retracted: set<string>)
    requires forall e :: e in events ==> IsValid(e)
    ensures StandingSum(events, retracted, InLegs) - StandingSum(events, retracted, OutLegs)
            == StandingSum(events, retracted, CashInFlow) - StandingSum(events, retracted, CashOutFlow)
  {
    if events != [] {
      var n := |events| - 1;
      LegsSumToFlows(events[..n], retracted);
      assert events[n] in events;
      LegsFollowTheEffect(events[n]);
    }
  }

  /**
   * On every reachable book, what the parties of standing events received minus what they paid is the
   * net cash flow the book publishes.
   */
  lemma {:induction false} PartyLegsAreTheBooksCash(env: Env, store: seq<LedgerEvent>)
    requires Reachable(env, store)
    ensures Value(store, InLegs) - Value(store, OutLegs) == Value(store, CashInFlow) - Value(store, CashOutFlow)
  {
    var steps :| Run(env, steps) == store;
    RunsAreWellFormed(env, steps);
    LegsSumToFlows(store, RetractedIds(store));
  }

  // ---- windows of time ----

  /** What a cash event counts for: everyone's net, the usina's receipts and payments, or neither's. */
  datatype Share = CashReceived | CashPaid | Received(party: string) | Paid(party: string)

  predicate OnLeg(e: LedgerEvent, party: string, direction: Direction) {
    exists p :: p in e.parties && p.partyId == party && p.direction == direction
  }

  function ShareOf(s: Share, e: LedgerEvent): int {
    match s
    case CashReceived => if e.effect == CashIn then e.amount.units else 0
    case CashPaid => if e.effect == CashOut then e.amount.units else 0
    case Received(party) => if e.effect == CashIn && OnLeg(e, party, In) then e.amount.units else 0
    case Paid(party) => if e.effect == CashOut && OnLeg(e, party, Out) then e.amount.units else 0
  }

  predicate Within(e: LedgerEvent, lo: Option<int>, hi: Option<int>) {
    (lo.Some? ==> lo.value <= e.occurredAt) && (hi.Some? ==> e.occurredAt < hi.value)
  }

  /** The standing events that occurred in [lo, hi), summed. */
  function WindowSum(events: seq<LedgerEvent>, retracted: set<string>, s: Share, lo: Option<int>, hi: Option<int>): int {
    if events == [] then 0
    else
      var e := events[|events| - 1];
      WindowSum(events[..|events| - 1], retracted, s, lo, hi)
      + (if e.id !in retracted && Within(e, lo, hi) then ShareOf(s, e) else 0)
  }

  lemma {:induction false} WindowsAddUp(events: seq<LedgerEvent>, retracted: set<string>, s: Share, a: int, b: int)
    requires a <= b
    ensures WindowSum(events, retracted, s, None, Some(b))
            == WindowSum(events, retracted, s, None, Some(a)) + WindowSum(events, retracted, s, Some(a), Some(b))
  {
    if events != [] {
      WindowsAddUp(events[..|events| - 1], retracted, s, a, b);
    }
  }

  method AggregateCashFlowsBefore(store: seq<LedgerEvent>, date: int) returns (cashInUnits: int, cashOutUnits: int)
    ensures cashInUnits == WindowSum(store, RetractedIds(store), CashReceived, None, Some(date))
    ensures cashOutUnits == WindowSum(store, RetractedIds(store), CashPaid, None, Some(date))
  {
    cashInUnits, cashOutUnits := 0, 0;
    var retracted := RetractedEventIds(store);
    for i := 0 to |store|
      invariant cashInUnits == WindowSum(store[..i], retracted, CashReceived, None, Some(date))
      invariant cashOutUnits == WindowSum(store[..i], retracted, CashPaid, None, Some(date))
    {
      var event := store[i];
      assert store[..i + 1][..i] == store[..i];
      if event.id in retracted { continue; }
      if event.occurredAt >= date { continue; }
      if event.effect == CashIn {
        cashInUnits := cashInUnits + event.amount.units;
      } else if event.effect == CashOut {
        cashOutUnits := cashOutUnits + event.amount.units;
      }
    }
    assert store[..|store|] == store;
  }

  // ---- the two-hop lookup ----

  function FindByPeriod(store: seq<LedgerEvent>, from: int, to: int): seq<LedgerEvent> {
    if store == [] then []
    else
      var e := store[|store| - 1];
      var before := FindByPeriod(store[..|store| - 1], from, to);
      if from <= e.occurredAt <= to then before + [e] else before
  }

  function FindByRelatedEventId(store: seq<LedgerEvent>, id: string): seq<LedgerEvent> {
    if store == [] then []
    else
      var e := store[|store| - 1];
      var before := FindByRelatedEventId(store[..|store| - 1], id);
      if e.relatedEventId == Some(id) then before + [e] else before
  }

  function CashOnly(events: seq<LedgerEvent>): seq<LedgerEvent> {
    if events == [] then []
    else
      var before := CashOnly(events[..|events| - 1]);
      if MovesCash(events[|events| - 1]) then before + [events[|events| - 1]] else before
  }

  /** Everything related to any of the events, concatenated. */
  function RelatedTo(store: seq<LedgerEvent>, events: seq<LedgerEvent>): seq<LedgerEvent> {
    if events == [] then []
    else RelatedTo(store, events[..|events| - 1]) + FindByRelatedEventId(store, events[|events| - 1].id)
  }

  lemma {:induction false} PeriodHolds(store: seq<LedgerEvent>, from: int, to: int)
    ensures forall e :: e in FindByPeriod(store, from, to) <==> e in store && from <= e.occurredAt <= to
  {
    if store != [] {
      var n := |store| - 1;
      PeriodHolds(store[..n], from, to);
      assert store == store[..n] + [store[n]];
    }
  }

  lemma {:induction false} RelatedHolds(store: seq<LedgerEvent>, id: string)
    ensures forall e :: e in FindByRelatedEventId(store, id) <==> e in store && e.relatedEventId == Some(id)
  {
    if store != [] {
      var n := |store| - 1;
      RelatedHolds(store[..n], id);
      assert store == store[..n] + [store[n]];
    }
  }

  lemma {:induction false} CashOnlyHolds(events: seq<LedgerEvent>)
    ensures forall e :: e in CashOnly(events) <==> e in events && MovesCash(e)
  {
    if events != [] {
      var n := |events| - 1;
      CashOnlyHolds(events[..n]);
      assert events == events[..n] + [events[n]];
    }
  }

  lemma {:induction false} RelatedToHolds(store: seq<LedgerEvent>, events: seq<LedgerEvent>, x: LedgerEvent)
    ensures x in RelatedTo(store, events) <==> x in store && exists e :: e in events && x.relatedEventId == Some(e.id)
  {
    if events != [] {
      var n := |events| - 1;
      RelatedToHolds(store, events[..n], x);
      RelatedHolds(store, events[n].id);
      assert events == events[..n] + [events[n]];
    }
  }

  /** The retractions the statement looks at: related to the movements, and related to those. */
  function TwoHops(store: seq<LedgerEvent>, movements: seq<LedgerEvent>): seq<LedgerEvent> {
    var firstHop := RelatedTo(store, movements);
    firstHop + RelatedTo(store, firstHop)
  }

  lemma {:induction false} TwoHopsStayInTheBook(store: seq<LedgerEvent>, movements: seq<LedgerEvent>)
    ensures forall x :: x in TwoHops(store, movements) ==> x in store
  {
    forall x | x in TwoHops(store, movements) ensures x in store {
      RelatedToHolds(store, movements, x);
      RelatedToHolds(store, RelatedTo(store, movements), x);
    }
  }

  /** A retraction of a movement, and a retraction of that one, are both within the two hops. */
  lemma {:induction false} TwoHopsReach(store: seq<LedgerEvent>, movements: seq<LedgerEvent>, e: LedgerEvent, r: LedgerEvent)
    requires e in movements && r in store && Retracting(r, e.id)
    ensures r in TwoHops(store, movements)
    ensures HasRetraction(TwoHops(store, movements), r.id) <==> HasRetraction(store, r.id)
  {
    var firstHop := RelatedTo(store, movements);
    RelatedToHolds(store, movements, r);
    TwoHopsStayInTheBook(store, movements);
    if HasRetraction(store, r.id) {
      var q :| q in store && Retracting(q, r.id);
      RelatedToHolds(store, firstHop, q);
      assert q in TwoHops(store, movements);
    }
    if HasRetraction(TwoHops(store, movements), r.id) {
      var q :| q in TwoHops(store, movements) && Retracting(q, r.id);
      assert q in store;
    }
  }

  /** The two-hop lookup marks a movement exactly when the whole-book fold does. */
  lemma {:induction false} TwoHopsAreEnough(store: seq<LedgerEvent>, movements: seq<LedgerEvent>, e: LedgerEvent)
    requires RetractionsAreOrderly(store) && e in movements
    ensures e.id in RetractedIds(TwoHops(store, movements)) <==> e.id in RetractedIds(store)
  {
    var hops := TwoHops(store, movements);
    TwoHopsStayInTheBook(store, movements);
    OneHopIsNotExists(hops, e.id);
    OneHopIsNotExists(store, e.id);
    if !NotRetracted(store, e.id) {
      var r :| r in store && Retracting(r, e.id) && !HasRetraction(store, r.id);
      TwoHopsReach(store, movements, e, r);
    }
    if !NotRetracted(hops, e.id) {
      var r :| r in hops && Retracting(r, e.id) && !HasRetraction(hops, r.id);
      TwoHopsReach(store, movements, e, r);
    }
  }

  // ---- the statement ----

  /** Balances are published as a magnitude and a sign. */
  datatype CashStatement = CashStatement(
    openingBalance: nat, openingBalanceNegative: bool,
    closingBalance: nat, closingBalanceNegative: bool,
    totalCashIn: nat, totalCashOut: nat, netFlow: nat)

  function Signed(units: nat, negative: bool): int {
    if negative then 0 - units else units
  }

  /** Net standing cash before an instant. */
  function NetBefore(store: seq<LedgerEvent>, instant: int): int {
    WindowSum(store, RetractedIds(store), CashReceived, None, Some(instant))
    - WindowSum(store, RetractedIds(store), CashPaid, None, Some(instant))
  }

  /** A share of the standing cash of [from, to]. */
  function InPeriod(store: seq<LedgerEvent>, s: Share, from: int, to: int): int {
    WindowSum(store, RetractedIds(store), s, Some(from), Some(to + 1))
  }

  lemma {:induction false} WindowOfNatural(events: seq<LedgerEvent>, retracted: set<string>, s: Share, lo: Option<int>, hi: Option<int>)
    ensures WindowSum(events, retracted, s, lo, hi) >= 0
  {
    if events != [] {
      WindowOfNatural(events[..|events| - 1], retracted, s, lo, hi);
    }
  }

  /** Summing the period's events, outside those marked, is the window of the book outside those retracted. */
  lemma {:induction false} PeriodSumIsTheWindow(
      store: seq<LedgerEvent>, marked: set<string>, retracted: set<string>, s: Share, from: int, to: int)
    requires forall e ::
      e in store && from <= e.occurredAt <= to && MovesCash(e) ==> (e.id in marked <==> e.id in retracted)
    ensures WindowSum(FindByPeriod(store, from, to), marked, s, None, None)
            == WindowSum(store, retracted, s, Some(from), Some(to + 1))
  {
    if store != [] {
      var n := |store| - 1;
      var before := FindByPeriod(store[..n], from, to);
      PeriodSumIsTheWindow(store[..n], marked, retracted, s, from, to);
      assert store[n] in store;
      if from <= store[n].occurredAt <= to {
        assert (before + [store[n]])[..|before|] == before;
      }
    }
  }

  /** The two running totals of the statement's loop. */
  method SumPeriod(periodEvents: seq<LedgerEvent>, retracted: set<string>, usina: string)
    returns (cashInUnits: nat, cashOutUnits: nat)
    ensures cashInUnits == WindowSum(periodEvents, retracted, Received(usina), None, None)
    ensures cashOutUnits == WindowSum(periodEvents, retracted, Paid(usina), None, None)
  {
    cashInUnits, cashOutUnits := 0, 0;
    for i := 0 to |periodEvents|
      invariant cashInUnits == WindowSum(periodEvents[..i], retracted, Received(usina), None, None)
      invariant cashOutUnits == WindowSum(periodEvents[..i], retracted, Paid(usina), None, None)
    {
      var event := periodEvents[i];
      assert periodEvents[..i + 1][..i] == periodEvents[..i];
      if event.id in retracted { continue; }
      if event.effect == CashIn {
        if OnLeg(event, usina, In) { cashInUnits := cashInUnits + event.amount.units; }
      } else if event.effect == CashOut {
        if OnLeg(event, usina, Out) { cashOutUnits := cashOutUnits + event.amount.units; }
      }
    }
    assert periodEvents[..|periodEvents|] == periodEvents;
  }

  /** `summarize`: its figures are the whole book's, although only the period and two hops are read. */
  method Summarize(store: seq<LedgerEvent>, usina: string, from: int, to: int) returns (statement: CashStatement)
    requires RetractionsAreOrderly(store)
    ensures Signed(statement.openingBalance, statement.openingBalanceNegative) == NetBefore(store, from)
    ensures statement.totalCashIn == InPeriod(store, Received(usina), from, to)
    ensures statement.totalCashOut == InPeriod(store, Paid(usina), from, to)
    ensures Signed(statement.closingBalance, statement.closingBalanceNegative)
            == NetBefore(store, from) + InPeriod(store, Received(usina), from, to) - InPeriod(store, Paid(usina), from, to)
    ensures statement.netFlow == statement.totalCashIn - statement.totalCashOut
            || statement.netFlow == statement.totalCashOut - statement.totalCashIn
  {
    var prevIn, prevOut := AggregateCashFlowsBefore(store, from);
    var openingNegative := prevOut > prevIn;
    var openingUnits := if openingNegative then prevOut - prevIn else prevIn - prevOut;

    var periodEvents := FindByPeriod(store, from, to);
    var periodCash := CashOnly(periodEvents);
    var retracted := RetractedEventIds(TwoHops(store, periodCash));
    var cashInUnits, cashOutUnits := SumPeriod(periodEvents, retracted, usina);

    CashOnlyHolds(periodEvents);
    PeriodHolds(store, from, to);
    forall e | e in store && from <= e.occurredAt <= to && MovesCash(e) ensures e.id in retracted <==> e.id in RetractedIds(store) {
      TwoHopsAreEnough(store, periodCash, e);
    }
    PeriodSumIsTheWindow(store, retracted, RetractedIds(store), Received(usina), from, to);
    PeriodSumIsTheWindow(store, retracted, RetractedIds(store), Paid(usina), from, to);

    var netUnits := if cashInUnits >= cashOutUnits then cashInUnits - cashOutUnits else cashOutUnits - cashInUnits;
    var totalIn, totalOut := prevIn + cashInUnits, prevOut + cashOutUnits;
    var closingNegative := totalOut > totalIn;
    var closingUnits := if closingNegative then totalOut - totalIn else totalIn - totalOut;
    statement := CashStatement(
      openingUnits, openingNegative, closingUnits, closingNegative, cashInUnits, cashOutUnits, netUnits);
  }

  // ---- one statement continues the other ----

  /** Closing balance of the statement of [from, to]. */
  function Closing(store: seq<LedgerEvent>, usina: string, from: int, to: int): int {
    NetBefore(store, from) + InPeriod(store, Received(usina), from, to) - InPeriod(store, Paid(usina), from, to)
  }

  /** Net standing cash of the period in which the usina is not on the moving leg. */
  function NetOfOthers(store: seq<LedgerEvent>, usina: string, from: int, to: int): int {
    (InPeriod(store, CashReceived, from, to) - InPeriod(store, Received(usina), from, to))
    - (InPeriod(store, CashPaid, from, to) - InPeriod(store, Paid(usina), from, to))
  }

  /**
   * The closing balance of [from, to] is the opening balance of the next instant's statement exactly when
   * the standing cash of the period that moved without the usina nets to nothing.
   */
  lemma {:induction false} StatementsContinueExactlyWithoutOthers(store: seq<LedgerEvent>, usina: string, from: int, to: int)
    requires from <= to + 1
    ensures NetBefore(store, to + 1) == Closing(store, usina, from, to) + NetOfOthers(store, usina, from, to)
    ensures Closing(store, usina, from, to) == NetBefore(store, to + 1) <==> NetOfOthers(store, usina, from, to) == 0
  {
    WindowsAddUp(store, RetractedIds(store), CashReceived, from, to + 1);
    WindowsAddUp(store, RetractedIds(store), CashPaid, from, to + 1);
  }

  /** The usina moves every standing cash event of the period. */
  ghost predicate UsinaMovesEverything(store: seq<LedgerEvent>, usina: string, from: int, to: int) {
    forall e :: e in store && from <= e.occurredAt <= to && MovesCash(e) && e.id !in RetractedIds(store)
      ==> OnLeg(e, usina, if e.effect == CashIn then In else Out)
  }

  lemma {:induction false} NobodyElseMoves(
      events: seq<LedgerEvent>, retracted: set<string>, usina: string, lo: int, hi: int)
    requires forall e :: e in events && lo <= e.occurredAt < hi && MovesCash(e) && e.id !in retracted
               ==> OnLeg(e, usina, if e.effect == CashIn then In else Out)
    ensures WindowSum(events, retracted, CashReceived, Some(lo), Some(hi)) == WindowSum(events, retracted, Received(usina), Some(lo), Some(hi))
    ensures WindowSum(events, retracted, CashPaid, Some(lo), Some(hi)) == WindowSum(events, retracted, Paid(usina), Some(lo), Some(hi))
  {
    if events != [] {
      assert events[|events| - 1] in events;
      NobodyElseMoves(events[..|events| - 1], retracted, usina, lo, hi);
    }
  }

  /** Where the usina moves everything, statements of adjacent periods join without a gap. */
  lemma {:induction false} AdjacentStatementsJoin(store: seq<LedgerEvent>, usina: string, from: int, to: int)
    requires from <= to + 1 && UsinaMovesEverything(store, usina, from, to)
    ensures Closing(store, usina, from, to) == NetBefore(store, to + 1)
  {
    NobodyElseMoves(store, RetractedIds(store), usina, from, to + 1);
    StatementsContinueExactlyWithoutOthers(store, usina, from, to);
  }
}
