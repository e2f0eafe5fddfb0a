// One position read from its own events: ledger/src/core/application/services/PositionProjectionService.ts
// and ledger/src/core/application/dtos/positionUtils.ts.

module Positions {
  import opened Prelude
  import opened Events
  import opened Validation
  import opened Retraction
  import opened Figures

  // ---- what the totals say ----

  datatype PositionStatus = Open | PartiallySettled | FullySettled | Reversed | UnknownOrigination

  datatype EconomicOutcome = Pending | Cancelled | Gain | FullLoss | PartialLoss

  /** The sums and flags of one position, in minor units. */
  datatype Tally = Tally(
    originated: int, settled: int, adjusted: int,
    cashRecovered: int, nonCashClosed: int, refCashIn: int, refCashOut: int,
    hasReversal: bool, hasUnresolvedLineage: bool)

  predicate OriginUnknown(t: Tally) {
    t.hasUnresolvedLineage && t.originated == 0
  }

  function StatusOf(t: Tally): PositionStatus {
    var closed := t.settled + t.adjusted;
    if t.hasReversal then Reversed
    else if OriginUnknown(t) then UnknownOrigination
    else if t.originated == 0 then Open
    else if closed >= t.originated then FullySettled
    else if closed > 0 then PartiallySettled
    else Open
  }

  /** Absent when the origination is unknown: the remainder is not computable. */
  function OpenBalanceOf(t: Tally): Option<int> {
    if OriginUnknown(t) then None
    else if t.settled + t.adjusted >= t.originated then Some(0)
    else Some(t.originated - (t.settled + t.adjusted))
  }

  function OverSettlementOf(t: Tally): Option<int> {
    if OriginUnknown(t) then None
    else if t.originated == 0 || t.settled + t.adjusted <= t.originated then Some(0)
    else Some(t.settled + t.adjusted - t.originated)
  }

  function OutcomeOf(t: Tally): EconomicOutcome {
    match StatusOf(t)
    case Reversed => Cancelled
    case UnknownOrigination => Pending
    case Open => Pending
    case PartiallySettled => Pending
    case FullySettled =>
      if t.nonCashClosed == 0 then Gain else if t.cashRecovered == 0 then FullLoss else PartialLoss
  }

  function AllocationGapOf(t: Tally): int {
    if t.refCashIn <= t.refCashOut then 0 else t.refCashIn - t.refCashOut
  }

  /**
   * What the published figures of a position say together: the balances are absent exactly when the
   * origination is unknown, never both positive, and account for the difference between what was originated
   * and what was closed; and the status and outcome are read off them.
   */
  lemma {:induction false} BalancesExplainTheStatus(t: Tally)
    requires t.originated >= 0 && t.settled >= 0 && t.adjusted >= 0
    ensures OpenBalanceOf(t).None? <==> OriginUnknown(t)
    ensures OverSettlementOf(t).None? <==> OriginUnknown(t)
    ensures !OriginUnknown(t) ==>
      && OpenBalanceOf(t).value >= 0 && OverSettlementOf(t).value >= 0
      && (OpenBalanceOf(t).value == 0 || OverSettlementOf(t).value == 0)
      && (t.originated > 0 ==> OpenBalanceOf(t).value - OverSettlementOf(t).value == t.originated - t.settled - t.adjusted)
      && (t.originated == 0 ==> OpenBalanceOf(t).value == OverSettlementOf(t).value == 0)
    ensures StatusOf(t) == FullySettled <==> !t.hasReversal && t.originated > 0 && OpenBalanceOf(t) == Some(0)
    ensures StatusOf(t) == PartiallySettled <==>
      !t.hasReversal && OpenBalanceOf(t).Some? && 0 < OpenBalanceOf(t).value < t.originated
    ensures StatusOf(t) == Reversed <==> t.hasReversal
    ensures StatusOf(t) == UnknownOrigination <==> !t.hasReversal && OpenBalanceOf(t).None?
    ensures OutcomeOf(t) in {Gain, FullLoss, PartialLoss} <==> StatusOf(t) == FullySettled
    ensures OutcomeOf(t) == Cancelled <==> t.hasReversal
    ensures OutcomeOf(t) == Gain ==> t.nonCashClosed == 0
    ensures OutcomeOf(t) in {FullLoss, PartialLoss} ==> t.nonCashClosed != 0
    ensures AllocationGapOf(t) >= 0 && t.refCashIn <= t.refCashOut + AllocationGapOf(t)
    ensures AllocationGapOf(t) > 0 ==> t.refCashIn == t.refCashOut + AllocationGapOf(t)
  {
    assert t.originated > 0 || t.originated == 0;
  }

  // ---- the fold ----

  function TallyWithout(events: seq<LedgerEvent>, retracted: set<string>, objectId: string): Tally {
    Tally(
      StandingSum(events, retracted, Originated(objectId)),
      StandingSum(events, retracted, Settled(objectId)),
      StandingSum(events, retracted, Adjusted(objectId)),
      StandingSum(events, retracted, CashRecovered(objectId)),
      StandingSum(events, retracted, NonCashClosed(objectId)),
      StandingSum(events, retracted, RefCashIn(objectId)),
      StandingSum(events, retracted, RefCashOut(objectId)),
      StandingSum(events, retracted, Reversals(objectId)) != 0,
      StandingSum(events, retracted, UnresolvedLineage(objectId)) != 0)
  }

  function TallyOf(events: seq<LedgerEvent>, objectId: string): Tally {
    TallyWithout(events, RetractedIds(events), objectId)
  }

  /** Every figure of the tally and everything derived from it is independent of order. */
  lemma {:induction false} TallyIgnoresOrder(a: seq<LedgerEvent>, b: seq<LedgerEvent>, objectId: string)
    requires multiset(a) == multiset(b)
    requires OneRetractionPerTarget(a)
    ensures TallyOf(a, objectId) == TallyOf(b, objectId)
    ensures StatusOf(TallyOf(a, objectId)) == StatusOf(TallyOf(b, objectId))
    ensures OpenBalanceOf(TallyOf(a, objectId)) == OpenBalanceOf(TallyOf(b, objectId))
  {
    FiguresIgnoreOrder(a, b, Originated(objectId), objectId);
    FiguresIgnoreOrder(a, b, Settled(objectId), objectId);
    FiguresIgnoreOrder(a, b, Adjusted(objectId), objectId);
    FiguresIgnoreOrder(a, b, CashRecovered(objectId), objectId);
    FiguresIgnoreOrder(a, b, NonCashClosed(objectId), objectId);
    FiguresIgnoreOrder(a, b, RefCashIn(objectId), objectId);
    FiguresIgnoreOrder(a, b, RefCashOut(objectId), objectId);
    FiguresIgnoreOrder(a, b, Reversals(objectId), objectId);
    FiguresIgnoreOrder(a, b, UnresolvedLineage(objectId), objectId);
  }

  /** A tally with the shares of some objects of one more event. */
  ghost function PlusTally(t: Tally, e: LedgerEvent, objects: seq<EventObject>, objectId: string): Tally {
    Tally(
      t.originated + ObjectShares(Originated(objectId), e, objects),
      t.settled + ObjectShares(Settled(objectId), e, objects),
      t.adjusted + ObjectShares(Adjusted(objectId), e, objects),
      t.cashRecovered + ObjectShares(CashRecovered(objectId), e, objects),
      t.nonCashClosed + ObjectShares(NonCashClosed(objectId), e, objects),
      t.refCashIn + ObjectShares(RefCashIn(objectId), e, objects),
      t.refCashOut + ObjectShares(RefCashOut(objectId), e, objects),
      t.hasReversal || ObjectShares(Reversals(objectId), e, objects) != 0,
      t.hasUnresolvedLineage || ObjectShares(UnresolvedLineage(objectId), e, objects) != 0)
  }

  /** What one object adds, relation by relation: the body of the switch. */
  function PlusObject(t: Tally, e: LedgerEvent, o: EventObject, objectId: string): Tally {
    if o.objectId != objectId then t
    else
      var u := e.amount.units;
      var s := if DeclaresUnresolvedOrigin(e) then t.(hasUnresolvedLineage := true) else t;
      match o.relation
      case Originates => s.(originated := s.originated + u)
      case Settles =>
        s.(settled := s.settled + u,
           cashRecovered := s.cashRecovered + (if e.effect == CashIn then u else 0),
           nonCashClosed := s.nonCashClosed + (if e.effect == NonCash then u else 0))
      case Adjusts => s.(adjusted := s.adjusted + u)
      case Reverses => s.(hasReversal := true)
      case References =>
        s.(refCashIn := s.refCashIn + (if e.effect == CashIn then u else 0),
           refCashOut := s.refCashOut + (if e.effect == CashOut then u else 0))
      case Retracts => s
  }

  lemma {:induction false} TallyOneMoreObject(t: Tally, e: LedgerEvent, objects: seq<EventObject>, j: nat, objectId: string)
    requires j < |objects|
    ensures PlusTally(t, e, objects[..j + 1], objectId) == PlusObject(PlusTally(t, e, objects[..j], objectId), e, objects[j], objectId)
  {
    assert objects[..j + 1][..j] == objects[..j];
    ObjectSharesAreNatural(Reversals(objectId), e, objects[..j]);
    ObjectSharesAreNatural(UnresolvedLineage(objectId), e, objects[..j]);
  }

  lemma {:induction false} TallyOneMoreEvent(events: seq<LedgerEvent>, i: nat, retracted: set<string>, objectId: string)
    requires i < |events|
    ensures TallyWithout(events[..i + 1], retracted, objectId)
            == if events[i].id in retracted then TallyWithout(events[..i], retracted, objectId)
               else PlusTally(TallyWithout(events[..i], retracted, objectId), events[i], events[i].objects, objectId)
  {
    assert events[..i + 1][..i] == events[..i];
    SharesAreNatural(events[..i], retracted, Reversals(objectId));
    SharesAreNatural(events[..i], retracted, UnresolvedLineage(objectId));
    ObjectSharesAreNatural(Reversals(objectId), events[i], events[i].objects);
    ObjectSharesAreNatural(UnresolvedLineage(objectId), events[i], events[i].objects);
  }

  lemma {:induction false} UnresolvedWhereNamed(e: LedgerEvent, objects: seq<EventObject>, objectId: string)
    ensures ObjectShares(UnresolvedLineage(objectId), e, objects) > 0
            <==> DeclaresUnresolvedOrigin(e) && exists o :: o in objects && o.objectId == objectId
    ensures ObjectShares(UnresolvedLineage(objectId), e, objects) >= 0
  {
    if objects != [] {
      var n := |objects| - 1;
      UnresolvedWhereNamed(e, objects[..n], objectId);
      assert objects == objects[..n] + [objects[n]];
    }
  }

  // ---- project ----

  datatype Summary = Summary(
    objectId: string, status: PositionStatus, outcome: EconomicOutcome, tally: Tally,
    openBalance: Option<int>, overSettlement: Option<int>, allocationGap: int)

  /** The figures a summary and a list item both publish. */
  function SummaryOf(objectId: string, t: Tally): Summary {
    Summary(objectId, StatusOf(t), OutcomeOf(t), t, OpenBalanceOf(t), OverSettlementOf(t), AllocationGapOf(t))
  }

  predicate OneCurrency(events: seq<LedgerEvent>) {
    forall e, f :: e in events && f in events ==> e.amount.currency == f.amount.currency
  }

  /** The switch reaches a Money.add. */
  predicate Adds(e: LedgerEvent, o: EventObject, objectId: string) {
    o.objectId == objectId
    && (o.relation in {Originates, Settles, Adjusts} || (o.relation == References && e.effect in {CashIn, CashOut}))
  }

  /** An amount is added exactly where it counts in some figure of the position. */
  lemma {:induction false} AddsWhereItCounts(e: LedgerEvent, o: EventObject, objectId: string)
    requires e.amount.units > 0
    ensures Adds(e, o, objectId) <==>
      || ObjectShare(Originated(objectId), e, o) != 0 || ObjectShare(Settled(objectId), e, o) != 0
      || ObjectShare(Adjusted(objectId), e, o) != 0
      || ObjectShare(RefCashIn(objectId), e, o) != 0 || ObjectShare(RefCashOut(objectId), e, o) != 0
  {
  }

  /** Every amount added from one event is in the given currency; Money.add refuses any other. */
  predicate AddsIn(e: LedgerEvent, objects: seq<EventObject>, objectId: string, currency: string) {
    forall o :: o in objects && Adds(e, o, objectId) ==> e.amount.currency == currency
  }

  ghost predicate Summable(events: seq<LedgerEvent>, retracted: set<string>, objectId: string, currency: string) {
    forall e :: e in events && e.id !in retracted ==> AddsIn(e, e.objects, objectId, currency)
  }

  datatype CurrencyMismatch = CurrencyMismatch

  /** The switch on one object's relation. */
  method AddObject(t: Tally, event: LedgerEvent, obj: EventObject, objectId: string) returns (r: Tally)
    requires DeclaresUnresolvedOrigin(event) ==> t.hasUnresolvedLineage
    ensures r == PlusObject(t, event, obj, objectId)
  {
    r := t;
    if obj.objectId != objectId { return; }
    var units := event.amount.units;
    match obj.relation {
      case Originates => r := r.(originated := r.originated + units);
      case Settles =>
        r := r.(settled := r.settled + units);
        if event.effect == CashIn {
          r := r.(cashRecovered := r.cashRecovered + units);
        } else if event.effect == NonCash {
          r := r.(nonCashClosed := r.nonCashClosed + units);
        }
      case Adjusts => r := r.(adjusted := r.adjusted + units);
      case Reverses => r := r.(hasReversal := true);
      case References =>
        if event.effect == CashIn {
          r := r.(refCashIn := r.refCashIn + units);
        } else if event.effect == CashOut {
          r := r.(refCashOut := r.refCashOut + units);
        }
      case Retracts =>
    }
  }

  /** One standing event: the orphan's declaration, then each of its objects. */
  method AddEvent(t: Tally, event: LedgerEvent, objectId: string, currency: string)
    returns (result: Result<Tally, CurrencyMismatch>)
    requires Names(event, objectId)
    ensures result.Ok? <==> AddsIn(event, event.objects, objectId, currency)
    ensures result.Ok? ==> result.value == PlusTally(t, event, event.objects, objectId)
  {
    var r := t;
    if DeclaresUnresolvedOrigin(event) {
      r := r.(hasUnresolvedLineage := true);
    }
    ghost var marked := r;
    for j := 0 to |event.objects|
      invariant AddsIn(event, event.objects[..j], objectId, currency)
      invariant r == PlusTally(marked, event, event.objects[..j], objectId)
    {
      if Adds(event, event.objects[j], objectId) && event.amount.currency != currency {
        return Err(CurrencyMismatch);
      }
      TallyOneMoreObject(marked, event, event.objects, j, objectId);
      r := AddObject(r, event, event.objects[j], objectId);
    }
    assert event.objects[..|event.objects|] == event.objects;
    UnresolvedWhereNamed(event, event.objects, objectId);
    return Ok(r);
  }

  /**
   * `project`: one pass over the events of a position, in the currency of the first. Adding an amount
   * in another currency is an error; what is published otherwise is the tally's summary.
   */
  method Project(objectId: string, events: seq<LedgerEvent>) returns (result: Result<Summary, CurrencyMismatch>)
    requires events != []
    requires forall e :: e in events ==> Names(e, objectId)
    ensures result.Ok? <==> Summable(events, RetractedIds(events), objectId, events[0].amount.currency)
    ensures result.Ok? ==> result.value == SummaryOf(objectId, TallyOf(events, objectId))
  {
    var currency := events[0].amount.currency;
    var t := Tally(0, 0, 0, 0, 0, 0, 0, false, false);
    var retracted := RetractedEventIds(events);
    for i := 0 to |events|
      invariant Summable(events[..i], retracted, objectId, currency)
      invariant t == TallyWithout(events[..i], retracted, objectId)
    {
      TallyOneMoreEvent(events, i, retracted, objectId);
      if events[i].id in retracted { continue; }
      var added := AddEvent(t, events[i], objectId, currency);
      if added.Err? { return Err(CurrencyMismatch); }
      t := added.value;
    }
    assert events[..|events|] == events;
    return Ok(SummaryOf(objectId, t));
  }

  // ---- when a position's own events suffice ----

  /**
   * Of every retraction of an event that names the position: if it names the position, so does its own
   * retraction; if it does not, it was itself retracted.
   */
  ghost predicate RetractionsStayInScope(store: seq<LedgerEvent>, objectId: string) {
    forall e, r :: e in store && r in store && Names(e, objectId) && Retracting(r, e.id)
      ==> if Names(r, objectId) then forall q :: q in store && Retracting(q, r.id) ==> Names(q, objectId)
          else HasRetraction(store, r.id)
  }

  ghost predicate ScopeAgrees(store: seq<LedgerEvent>, objectId: string) {
    forall e :: e in Scope(store, objectId)
      ==> (e.id in RetractedIds(Scope(store, objectId)) <==> e.id in RetractedIds(store))
  }

  lemma {:induction false} ScopeIsOnePerTarget(store: seq<LedgerEvent>, objectId: string)
    requires OneRetractionPerTarget(store)
    ensures OneRetractionPerTarget(Scope(store, objectId))
  {
    ScopeHolds(store, objectId);
  }

  /** What the scope and the whole book say of one event, given its retraction. */
  lemma {:induction false} VerdictsOnOne(store: seq<LedgerEvent>, objectId: string, e: LedgerEvent, r: LedgerEvent)
    requires RetractionsAreOrderly(store) && e in store && r in store && Names(e, objectId) && Retracting(r, e.id)
    ensures e.id in RetractedIds(store) <==> !HasRetraction(store, r.id)
    ensures e.id in RetractedIds(Scope(store, objectId))
            <==> Names(r, objectId) && !HasRetraction(Scope(store, objectId), r.id)
  {
    var scope := Scope(store, objectId);
    ScopeHolds(store, objectId);
    ScopeIsOnePerTarget(store, objectId);
    OneHopIsNotExists(store, e.id);
    OneHopIsNotExists(scope, e.id);
    forall x | x in store && Retracting(x, e.id) ensures x == r {
      var i := IndexOf(store, r);
      var j := IndexOf(store, x);
      assert store[i].id == store[j].id;
      assert i == j;
    }
    if Names(r, objectId) {
      assert r in scope;
    }
  }

  lemma {:induction false} UnretractedEverywhere(store: seq<LedgerEvent>, objectId: string, id: string)
    requires OneRetractionPerTarget(store) && !HasRetraction(store, id)
    ensures id !in RetractedIds(store) && id !in RetractedIds(Scope(store, objectId))
  {
    ScopeHolds(store, objectId);
    ScopeIsOnePerTarget(store, objectId);
    OneHopIsNotExists(store, id);
    OneHopIsNotExists(Scope(store, objectId), id);
  }

  /**
   * Folding a position over its own events alone names the standing events the whole-book fold names
   * exactly when retractions stay in scope.
   */
  lemma {:induction false} ScopeAgreesExactlyWhenRetractionsName(store: seq<LedgerEvent>, objectId: string)
    requires RetractionsAreOrderly(store)
    ensures ScopeAgrees(store, objectId) <==> RetractionsStayInScope(store, objectId)
  {
    var scope := Scope(store, objectId);
    ScopeHolds(store, objectId);
    forall e, r | e in store && r in store && Names(e, objectId) && Retracting(r, e.id)
      ensures (e.id in RetractedIds(scope) <==> e.id in RetractedIds(store))
        <==> if Names(r, objectId) then forall q :: q in store && Retracting(q, r.id) ==> Names(q, objectId)
             else HasRetraction(store, r.id)
    {
      VerdictsOnOne(store, objectId, e, r);
      RetractionsInAndOut(store, objectId, r);
    }
    forall e | e in scope && !HasRetraction(store, e.id)
      ensures e.id in RetractedIds(scope) <==> e.id in RetractedIds(store)
    {
      UnretractedEverywhere(store, objectId, e.id);
    }
    if RetractionsStayInScope(store, objectId) {
      forall e | e in scope ensures e.id in RetractedIds(scope) <==> e.id in RetractedIds(store) {
        if HasRetraction(store, e.id) {
          var r :| r in store && Retracting(r, e.id);
        }
      }
    }
  }

  /** A retraction has one retraction at most: it is in scope, out of scope, or absent. */
  lemma {:induction false} RetractionsInAndOut(store: seq<LedgerEvent>, objectId: string, r: LedgerEvent)
    requires RetractionsAreOrderly(store) && r in store
    ensures !HasRetraction(store, r.id) ==> !HasRetraction(Scope(store, objectId), r.id)
    ensures HasRetraction(store, r.id)
            ==> (HasRetraction(Scope(store, objectId), r.id)
                 <==> forall q :: q in store && Retracting(q, r.id) ==> Names(q, objectId))
  {
    var scope := Scope(store, objectId);
    ScopeHolds(store, objectId);
    if HasRetraction(store, r.id) {
      var q :| q in store && Retracting(q, r.id);
      forall x | x in store && Retracting(x, r.id) ensures x == q {
        var i := IndexOf(store, q);
        var j := IndexOf(store, x);
        assert store[i].id == store[j].id;
        assert i == j;
      }
      if Names(q, objectId) {
        assert q in scope;
      }
    }
  }

  /** In scope, the position's own events give the whole book's figures. */
  lemma {:induction false} ScopeGivesTheBooksTally(store: seq<LedgerEvent>, objectId: string)
    requires ScopeAgrees(store, objectId)
    ensures TallyOf(Scope(store, objectId), objectId) == TallyOf(store, objectId)
    ensures forall fig :: PerPosition(fig) && fig.objectId == objectId
              ==> Value(Scope(store, objectId), fig) == Value(store, fig)
  {
    var scope := Scope(store, objectId);
    forall fig | PerPosition(fig) && fig.objectId == objectId ensures Value(scope, fig) == Value(store, fig) {
      SumOverScope(store, RetractedIds(store), fig);
      SumDependsOnWhoStands(scope, RetractedIds(scope), RetractedIds(store), fig);
    }
    TalliesAreFigures(scope, store, objectId);
  }

  lemma {:induction false} TalliesAreFigures(a: seq<LedgerEvent>, b: seq<LedgerEvent>, objectId: string)
    requires forall fig :: PerPosition(fig) && fig.objectId == objectId ==> Value(a, fig) == Value(b, fig)
    ensures TallyOf(a, objectId) == TallyOf(b, objectId)
  {
    assert Value(a, Originated(objectId)) == Value(b, Originated(objectId));
    assert Value(a, Settled(objectId)) == Value(b, Settled(objectId));
    assert Value(a, Adjusted(objectId)) == Value(b, Adjusted(objectId));
    assert Value(a, CashRecovered(objectId)) == Value(b, CashRecovered(objectId));
    assert Value(a, NonCashClosed(objectId)) == Value(b, NonCashClosed(objectId));
    assert Value(a, RefCashIn(objectId)) == Value(b, RefCashIn(objectId));
    assert Value(a, RefCashOut(objectId)) == Value(b, RefCashOut(objectId));
    assert Value(a, Reversals(objectId)) == Value(b, Reversals(objectId));
    assert Value(a, UnresolvedLineage(objectId)) == Value(b, UnresolvedLineage(objectId));
  }

  // ---- what events that do not name a position leave alone ----

  lemma {:induction false} UntouchedScope(store: seq<LedgerEvent>, more: seq<LedgerEvent>, objectId: string)
    requires forall e :: e in more ==> !Names(e, objectId)
    ensures Scope(store + more, objectId) == Scope(store, objectId)
  {
    if more == [] {
      assert store + more == store;
    } else {
      var n := |more| - 1;
      UntouchedScope(store, more[..n], objectId);
      assert (store + more)[..|store + more| - 1] == store + more[..n];
    }
  }

  /**
   * Events that do not name a position leave its own fold alone, always; and the whole book's figures for it
   * whenever retractions stay in its scope before and after.
   */
  lemma {:induction false} UntouchedPositionsKeepTheirFigures(store: seq<LedgerEvent>, more: seq<LedgerEvent>, objectId: string)
    requires forall e :: e in more ==> !Names(e, objectId)
    ensures TallyOf(Scope(store + more, objectId), objectId) == TallyOf(Scope(store, objectId), objectId)
    ensures RetractionsAreOrderly(store) && RetractionsAreOrderly(store + more)
            && RetractionsStayInScope(store, objectId) && RetractionsStayInScope(store + more, objectId)
            ==> TallyOf(store + more, objectId) == TallyOf(store, objectId)
  {
    UntouchedScope(store, more, objectId);
    if RetractionsAreOrderly(store) && RetractionsAreOrderly(store + more)
       && RetractionsStayInScope(store, objectId) && RetractionsStayInScope(store + more, objectId) {
      ScopeAgreesExactlyWhenRetractionsName(store, objectId);
      ScopeAgreesExactlyWhenRetractionsName(store + more, objectId);
      ScopeGivesTheBooksTally(store, objectId);
      ScopeGivesTheBooksTally(store + more, objectId);
    }
  }

  // ---- how a settled amount was settled ----

  lemma {:induction false} SharesSplitByEffect(e: LedgerEvent, objects: seq<EventObject>, objectId: string)
    ensures ObjectShares(CashRecovered(objectId), e, objects) + ObjectShares(NonCashClosed(objectId), e, objects)
            == if e.effect == CashIn || e.effect == NonCash then ObjectShares(Settled(objectId), e, objects) else 0
    ensures ObjectShares(Settled(objectId), e, objects) >= 0
  {
    if objects != [] {
      SharesSplitByEffect(e, objects[..|objects| - 1], objectId);
    }
  }

  /** Cash recovered and closed without cash are parts of what was settled; the rest was settled by paying. */
  lemma {:induction false} SettlementsSplitByEffect(events: seq<LedgerEvent>, retracted: set<string>, objectId: string)
    ensures var t := TallyWithout(events, retracted, objectId);
      && t.cashRecovered + t.nonCashClosed <= t.settled
      && ((forall e :: e in events && e.id !in retracted ==> e.effect == CashIn || e.effect == NonCash)
          ==> t.cashRecovered + t.nonCashClosed == t.settled)
  {
    if events != [] {
      var n := |events| - 1;
      SettlementsSplitByEffect(events[..n], retracted, objectId);
      SharesSplitByEffect(events[n], events[n].objects, objectId);
      assert events[n] in events;
    }
  }
}
