// Nothing closes more than was opened: what the over-settlement guard gives, exactly.
// ledger/src/core/application/use-cases/CreateLedgerEventUseCase.ts, lines 95-133.

module Conservation {
  import opened Prelude
  import opened Moneys
  import opened Events
  import opened Validation
  import opened Retraction
  import opened Figures
  import opened EventPayload
  import opened Ledger
  import opened Rectification
  import Positions

  /** A position as the guard measures it: the fold of the events that name it. */
  function Position(store: seq<LedgerEvent>, objectId: string): ObjectTotals {
    TotalsOf(Scope(store, objectId), objectId)
  }

  /** A reversed position or one without a baseline has nothing to conserve. */
  predicate Conserved(store: seq<LedgerEvent>, objectId: string) {
    var t := Position(store, objectId);
    t.hasReversal || t.originatedUnits == 0 || t.closedUnits <= t.originatedUnits
  }

  /** How many times a list of objects declares one relation on one position. */
  function Count(objects: seq<EventObject>, objectId: string, relation: Relation): nat {
    if objects == [] then 0
    else
      Count(objects[..|objects| - 1], objectId, relation)
      + (if objects[|objects| - 1].objectId == objectId && objects[|objects| - 1].relation == relation then 1 else 0)
  }

  lemma {:induction false} Distribute(k: nat, d: nat, u: nat)
    ensures (k + d) * u == k * u + d * u
  {
  }

  lemma {:induction false} SharesAreCounted(e: LedgerEvent, objects: seq<EventObject>, objectId: string)
    ensures ObjectShares(Originated(objectId), e, objects) == Count(objects, objectId, Originates) * e.amount.units
    ensures ObjectShares(Settled(objectId), e, objects) == Count(objects, objectId, Settles) * e.amount.units
    ensures ObjectShares(Adjusted(objectId), e, objects) == Count(objects, objectId, Adjusts) * e.amount.units
    ensures ObjectShares(Reversals(objectId), e, objects) == Count(objects, objectId, Reverses)
  {
    if objects != [] {
      var init, o := objects[..|objects| - 1], objects[|objects| - 1];
      SharesAreCounted(e, init, objectId);
      if o.objectId == objectId {
        Distribute(Count(init, objectId, o.relation), 1, e.amount.units);
      }
    }
  }

  lemma {:induction false} CountIsOccurrence(objects: seq<EventObject>, objectId: string, relation: Relation)
    ensures Count(objects, objectId, relation) > 0
            <==> exists o :: o in objects && o.objectId == objectId && o.relation == relation
  {
    if objects != [] {
      var n := |objects| - 1;
      CountIsOccurrence(objects[..n], objectId, relation);
      assert objects == objects[..n] + [objects[n]];
    }
  }

  // ---- a position after one more event ----

  lemma {:induction false} ScopeOfOneMore(store: seq<LedgerEvent>, e: LedgerEvent, objectId: string)
    ensures Scope(store + [e], objectId)
            == if Names(e, objectId) then Scope(store, objectId) + [e] else Scope(store, objectId)
  {
    assert (store + [e])[..|store|] == store;
  }

  lemma {:induction false} PositionOfOneMore(scope: seq<LedgerEvent>, e: LedgerEvent, objectId: string)
    requires !IsRetraction(e) && e.id !in RetractedIds(scope)
    ensures TotalsOf(scope + [e], objectId) == PlusShares(TotalsOf(scope, objectId), e, e.objects, objectId)
  {
    assert (scope + [e])[..|scope|] == scope;
    assert RetractedIds(scope + [e]) == RetractedIds(scope);
    ObjectSharesAreNatural(Reversals(objectId), e, e.objects);
    SharesAreNatural(scope, RetractedIds(scope), Reversals(objectId));
    SumOfOneMore(scope, e, RetractedIds(scope), Originated(objectId));
    SumOfOneMore(scope, e, RetractedIds(scope), Settled(objectId));
    SumOfOneMore(scope, e, RetractedIds(scope), Adjusted(objectId));
    SumOfOneMore(scope, e, RetractedIds(scope), Reversals(objectId));
  }

  /** What an event that retracts nothing does to a position: its objects' shares, added. */
  lemma {:induction false} PositionAfter(store: seq<LedgerEvent>, e: LedgerEvent, objectId: string)
    requires LineageIsEarlier(store + [e]) && !HasId(store, e.id) && !IsRetraction(e)
    ensures Position(store + [e], objectId) == PlusShares(Position(store, objectId), e, e.objects, objectId)
  {
    ScopeOfOneMore(store, e, objectId);
    if Names(e, objectId) {
      NewEventStands(store, e, objectId);
      PositionOfOneMore(Scope(store, objectId), e, objectId);
    } else {
      NoObjectNoShare(Originated(objectId), e, e.objects);
      NoObjectNoShare(Settled(objectId), e, e.objects);
      NoObjectNoShare(Adjusted(objectId), e, e.objects);
      NoObjectNoShare(Reversals(objectId), e, e.objects);
    }
  }

  lemma {:induction false} NewEventStands(store: seq<LedgerEvent>, e: LedgerEvent, objectId: string)
    requires LineageIsEarlier(store + [e]) && !HasId(store, e.id)
    ensures e.id !in RetractedIds(Scope(store, objectId))
  {
    NothingTargetsANewId(store, e);
    RetractionMapHolds(Scope(store, objectId));
    ScopeHolds(store, objectId);
    forall r | r in Scope(store, objectId) ensures !Retracting(r, e.id) {
      assert r in store + [e];
    }
  }

  // ---- what passing the guard means ----

  lemma {:induction false} GuardedSettlement(store: seq<LedgerEvent>, objects: seq<EventObject>, units: nat, o: EventObject)
    requires SettlementRefusal(store, objects, units).None? && o in objects && o.relation == Settles
    ensures ClosingRefusal(store, o.objectId, units).None?
  {
    var n := |objects| - 1;
    if o != objects[n] {
      assert objects == objects[..n] + [objects[n]];
      GuardedSettlement(store, objects[..n], units, o);
    }
  }

  /** A committed command that retracts nothing: the position after it, and what its guard saw. */
  lemma {:induction false} StepEffect(env: Env, store: seq<LedgerEvent>, c: Command, id: string, now: int, objectId: string)
    requires WellFormed(env, store) && Decide(env, store, c, id, now).Commit? && !AsksToRetract(c.objects)
    ensures var e := Decide(env, store, c, id, now).event;
      && e.amount.units > 0 && e.objects == c.objects
      && Position(store + [e], objectId) == PlusShares(Position(store, objectId), e, c.objects, objectId)
      && (Count(c.objects, objectId, Settles) > 0 ==> ClosingRefusal(store, objectId, e.amount.units).None?)
  {
    CommittedEvent(env, store, c, id, now);
    var e := Decide(env, store, c, id, now).event;
    RetractionsStayOrderly(store, c, e);
    PositionAfter(store, e, objectId);
    CountIsOccurrence(c.objects, objectId, Settles);
    if Count(c.objects, objectId, Settles) > 0 {
      var o :| o in c.objects && o.objectId == objectId && o.relation == Settles;
      GuardedSettlement(store, c.objects, e.amount.units, o);
    }
  }

  lemma {:induction false} SettlingIsNotRetracting(env: Env, store: seq<LedgerEvent>, c: Command, id: string, now: int, objectId: string)
    requires Decide(env, store, c, id, now).Commit? && Count(c.objects, objectId, Settles) > 0
    ensures !AsksToRetract(c.objects)
  {
    CommittedEvent(env, store, c, id, now);
    CountIsOccurrence(c.objects, objectId, Settles);
    if AsksToRetract(c.objects) {
      RetractionsOnlyRetract(Decide(env, store, c, id, now).event);
    }
  }

  // ---- a position after one more retraction ----

  lemma {:induction false} ScopeKeepsUniqueIds(store: seq<LedgerEvent>, objectId: string)
    requires UniqueIds(store)
    ensures UniqueIds(Scope(store, objectId))
  {
    if store != [] {
      var n := |store| - 1;
      assert forall i, j :: 0 <= i < j < n ==> store[..n][i].id != store[..n][j].id;
      ScopeKeepsUniqueIds(store[..n], objectId);
      ScopeHolds(store[..n], objectId);
      var before := Scope(store[..n], objectId);
      forall i | 0 <= i < |before| ensures before[i].id != store[n].id {
        assert before[i] in store[..n];
        var k := IndexOf(store[..n], before[i]);
        assert store[k] == before[i];
      }
    }
  }

  /** What the retraction guard and the order of recording leave of a scope when `r` is recorded. */
  ghost predicate ReadyFor(scope: seq<LedgerEvent>, r: LedgerEvent, target: string) {
    && UniqueIds(scope) && OneRetractionPerTarget(scope)
    && !HasRetraction(scope, target) && !HasRetraction(scope, r.id)
  }

  lemma {:induction false} NewRetractionIsTheFirst(store: seq<LedgerEvent>, r: LedgerEvent, target: string)
    requires RetractionsAreOrderly(store + [r]) && Retracting(r, target)
    ensures !HasRetraction(store, target)
  {
    var after := store + [r];
    forall q | q in store ensures !Retracting(q, target) {
      assert q in after && r in after;
      var i := IndexOf(store, q);
      assert after[i] == q && after[|store|] == r;
    }
  }

  lemma {:induction false} ScopeIsReady(store: seq<LedgerEvent>, r: LedgerEvent, target: string, objectId: string)
    requires RetractionsAreOrderly(store + [r]) && Retracting(r, target)
    ensures ReadyFor(Scope(store, objectId), r, target)
  {
    PrefixIsOrderly(store, r);
    ScopeKeepsUniqueIds(store, objectId);
    ScopeHolds(store, objectId);
    NewRetractionIsTheFirst(store, r, target);
    LastIsUnretracted(store, r);
    Positions.ScopeIsOnePerTarget(store, objectId);
  }

  lemma {:induction false} OneEventPerId(store: seq<LedgerEvent>, e: LedgerEvent, objectId: string)
    requires UniqueIds(store) && e in store
    ensures forall x :: x in Scope(store, objectId) && x.id == e.id ==> x == e
  {
    ScopeHolds(store, objectId);
    forall x | x in Scope(store, objectId) && x.id == e.id ensures x == e {
      var i := IndexOf(store, x);
      var j := IndexOf(store, e);
      assert i == j;
    }
  }

  /** An event outside a position's scope has no share in its figures. */
  lemma {:induction false} ShareInScope(store: seq<LedgerEvent>, e: LedgerEvent, fig: Figure)
    requires PerPosition(fig) && e in store
    ensures ShareIn(Scope(store, fig.objectId), e, fig) == Contribution(fig, e)
  {
    ScopeHolds(store, fig.objectId);
    if !Names(e, fig.objectId) {
      NoObjectNoShare(fig, e, e.objects);
    }
  }

  /**
   * What a retraction gives a figure of a position, as the position's own events count it: nothing unless it
   * names the position; minus its target's share, when the target is an ordinary event; and when the target
   * is itself a retraction, the share of what that one retracted, if that one names the position too.
   */
  function RetractionGives(store: seq<LedgerEvent>, target: string, fig: Figure): int
    requires PerPosition(fig)
  {
    var t := FindById(store, target);
    if t.None? then 0
    else if !IsRetraction(t.value) then 0 - Contribution(fig, t.value)
    else
      var p := FindById(store, t.value.relatedEventId.value);
      if p.Some? && Names(t.value, fig.objectId) then Contribution(fig, p.value) else 0
  }

  lemma {:induction false} TargetIsInTheBook(store: seq<LedgerEvent>, r: LedgerEvent) returns (t: LedgerEvent)
    requires RetractionsAreOrderly(store + [r]) && IsRetraction(r)
    ensures t in store && Retracting(r, t.id) && t.id != r.id && FindById(store, t.id) == Some(t)
  {
    var after := store + [r];
    assert after[|store|] == r;
    var i :| 0 <= i < |store| && after[i].id == r.relatedEventId.value;
    t := store[i];
    assert after[i].id != after[|store|].id;
    PrefixIsOrderly(store, r);
    TheEventWithAnId(store, t);
  }

  /** The figures of any position after one more retraction. */
  lemma {:induction false} PositionAfterRetraction(store: seq<LedgerEvent>, r: LedgerEvent, fig: Figure)
    requires RetractionsAreOrderly(store + [r]) && IsRetraction(r) && PerPosition(fig)
    requires RetractionsAddNothing(store + [r])
    ensures Value(Scope(store + [r], fig.objectId), fig)
            == Value(Scope(store, fig.objectId), fig)
               + (if Names(r, fig.objectId) then RetractionGives(store, r.relatedEventId.value, fig) else 0)
  {
    ScopeOfOneMore(store, r, fig.objectId);
    assert r in store + [r];
    if Names(r, fig.objectId) {
      var t := TargetIsInTheBook(store, r);
      assert t in store + [r];
      RetractionInScope(store, r, t, fig);
    }
  }

  lemma {:induction false} RetractionInScope(store: seq<LedgerEvent>, r: LedgerEvent, t: LedgerEvent, fig: Figure)
    requires RetractionsAreOrderly(store + [r]) && PerPosition(fig) && AddsNothing(r) && (IsRetraction(t) ==> AddsNothing(t))
    requires t in store && Retracting(r, t.id) && t.id != r.id && FindById(store, t.id) == Some(t)
    ensures Value(Scope(store, fig.objectId) + [r], fig)
            == Value(Scope(store, fig.objectId), fig) + RetractionGives(store, t.id, fig)
  {
    PrefixIsOrderly(store, r);
    ScopeIsReady(store, r, t.id, fig.objectId);
    if !IsRetraction(t) {
      OneEventPerId(store, t, fig.objectId);
      ShareInScope(store, t, fig);
      OneMoreRetraction(Scope(store, fig.objectId), r, t, fig);
    } else {
      RestorationInScope(store, r, t, fig);
    }
  }

  lemma {:induction false} RestorationInScope(store: seq<LedgerEvent>, q: LedgerEvent, r: LedgerEvent, fig: Figure)
    requires RetractionsAreOrderly(store) && PerPosition(fig) && AddsNothing(q)
    requires r in store && IsRetraction(r) && AddsNothing(r) && Retracting(q, r.id) && q.id != r.id
    requires FindById(store, r.id) == Some(r) && ReadyFor(Scope(store, fig.objectId), q, r.id)
    ensures Value(Scope(store, fig.objectId) + [q], fig)
            == Value(Scope(store, fig.objectId), fig) + RetractionGives(store, r.id, fig)
  {
    var scope := Scope(store, fig.objectId);
    ScopeHolds(store, fig.objectId);
    var j := IndexOf(store, r);
    var i :| 0 <= i < j && store[i].id == store[j].relatedEventId.value;
    var p := store[i];
    TheEventWithAnId(store, p);
    OneEventPerId(store, r, fig.objectId);
    if Names(r, fig.objectId) {
      OneEventPerId(store, p, fig.objectId);
      ShareInScope(store, p, fig);
      OneMoreRestoration(scope, q, r, p, fig);
    } else {
      OneMoreStranger(scope, q, r, fig);
    }
  }

  // ---- one step, exactly ----

  /** The amount a command asks for, in minor units. */
  function UnitsOf(c: Command): nat {
    match FromDecimal(c.amount, c.currency)
    case Ok(money) => money.units
    case Err(_) => 0
  }

  function RelationOf(fig: Figure): Option<Relation> {
    match fig
    case Originated(_) => Some(Originates)
    case Settled(_) => Some(Settles)
    case Adjusted(_) => Some(Adjusts)
    case Reversals(_) => Some(Reverses)
    case _ => None
  }

  predicate OfThePosition(fig: Figure) {
    fig.Originated? || fig.Settled? || fig.Adjusted? || fig.Reversals?
  }

  /** What recording a command gives a figure of a position: computed from the book before it and the command. */
  function StepGives(store: seq<LedgerEvent>, c: Command, fig: Figure): int
    requires OfThePosition(fig)
  {
    if !AsksToRetract(c.objects) then
      Count(c.objects, fig.objectId, RelationOf(fig).value) * (if fig.Reversals? then 1 else UnitsOf(c))
    else if c.relatedEventId.Some? && (exists o :: o in c.objects && o.objectId == fig.objectId) then
      RetractionGives(store, c.relatedEventId.value, fig)
    else 0
  }

  lemma {:induction false} CommittedAmount(env: Env, store: seq<LedgerEvent>, c: Command, id: string, now: int)
    requires Decide(env, store, c, id, now).Commit?
    ensures Decide(env, store, c, id, now).event.amount.units == UnitsOf(c)
  {
  }

  /** The figures of any position after any committed command. */
  lemma {:induction false} PositionAfterStep(env: Env, store: seq<LedgerEvent>, c: Command, id: string, now: int, fig: Figure)
    requires WellFormed(env, store) && Decide(env, store, c, id, now).Commit? && OfThePosition(fig)
    ensures Value(Scope(After(store, Decide(env, store, c, id, now)), fig.objectId), fig)
            == Value(Scope(store, fig.objectId), fig) + StepGives(store, c, fig)
  {
    var e := Decide(env, store, c, id, now).event;
    CommittedEvent(env, store, c, id, now);
    CommittedAmount(env, store, c, id, now);
    RetractionsStayOrderly(store, c, e);
    RetractionsStillAddNothing(env, store, e);
    if CarriesRetraction(e) {
      RetractionsOnlyRetract(e);
    }
    FigureAfter(store, c, e, fig);
  }

  lemma {:induction false} RetractionsStillAddNothing(env: Env, store: seq<LedgerEvent>, e: LedgerEvent)
    requires Authentic(env, store) && IsValid(e)
    ensures RetractionsAddNothing(store + [e])
  {
    forall x | x in store + [e] && IsRetraction(x) ensures AddsNothing(x) {
      ValidRetractionsAddNothing(x);
    }
  }

  lemma {:induction false} FigureAfter(store: seq<LedgerEvent>, c: Command, e: LedgerEvent, fig: Figure)
    requires OfThePosition(fig) && RetractionsAreOrderly(store + [e]) && RetractionsAddNothing(store + [e])
    requires CarriesRetraction(e) ==> IsRetraction(e)
    requires e.objects == c.objects && e.relatedEventId == c.relatedEventId && e.amount.units == UnitsOf(c)
    ensures Value(Scope(store + [e], fig.objectId), fig) == Value(Scope(store, fig.objectId), fig) + StepGives(store, c, fig)
  {
    assert e in store + [e];
    if AsksToRetract(c.objects) {
      PositionAfterRetraction(store, e, fig);
    } else {
      OrdinaryFigureAfter(store, e, fig);
      SharesAreCounted(e, e.objects, fig.objectId);
    }
  }

  lemma {:induction false} OneMoreOrdinary(events: seq<LedgerEvent>, e: LedgerEvent, fig: Figure)
    requires PerPosition(fig) && !IsRetraction(e) && e.id !in RetractedIds(events)
    ensures Value(events + [e], fig) == Value(events, fig) + ObjectShares(fig, e, e.objects)
  {
    assert (events + [e])[..|events|] == events;
    assert RetractedIds(events + [e]) == RetractedIds(events);
    SumOfOneMore(events, e, RetractedIds(events), fig);
  }

  lemma {:induction false} OrdinaryFigureAfter(store: seq<LedgerEvent>, e: LedgerEvent, fig: Figure)
    requires PerPosition(fig) && LineageIsEarlier(store + [e]) && UniqueIds(store + [e]) && !IsRetraction(e)
    ensures Value(Scope(store + [e], fig.objectId), fig)
            == Value(Scope(store, fig.objectId), fig) + ObjectShares(fig, e, e.objects)
  {
    ScopeOfOneMore(store, e, fig.objectId);
    if Names(e, fig.objectId) {
      NewIdIsNew(store, e);
      NewEventStands(store, e, fig.objectId);
      OneMoreOrdinary(Scope(store, fig.objectId), e, fig);
    } else {
      NoObjectNoShare(fig, e, e.objects);
    }
  }

  lemma {:induction false} NewIdIsNew(store: seq<LedgerEvent>, e: LedgerEvent)
    requires UniqueIds(store + [e])
    ensures !HasId(store, e.id)
  {
    forall x | x in store ensures x.id != e.id {
      var i := IndexOf(store, x);
      assert (store + [e])[i] == x && (store + [e])[|store|] == e;
    }
  }

  /** The command would leave more closed than originated, on a position then unreversed and with a baseline. */
  predicate Overdraws(store: seq<LedgerEvent>, c: Command, objectId: string) {
    var scope := Scope(store, objectId);
    var originated := Value(scope, Originated(objectId)) + StepGives(store, c, Originated(objectId));
    var closed := Value(scope, Settled(objectId)) + Value(scope, Adjusted(objectId))
                  + StepGives(store, c, Settled(objectId)) + StepGives(store, c, Adjusted(objectId));
    && Value(scope, Reversals(objectId)) + StepGives(store, c, Reversals(objectId)) == 0
    && originated != 0 && closed > originated
  }

  /**
   * Every committed command, whatever it originates, settles, adjusts, reverses or retracts, leaves a position
   * conserved exactly when it does not overdraw it: a condition on the book before it.
   */
  lemma {:induction false} EveryStepConservesExactly(env: Env, store: seq<LedgerEvent>, c: Command, id: string, now: int, objectId: string)
    requires WellFormed(env, store) && Decide(env, store, c, id, now).Commit?
    ensures Conserved(After(store, Decide(env, store, c, id, now)), objectId) <==> !Overdraws(store, c, objectId)
  {
    PositionAfterStep(env, store, c, id, now, Originated(objectId));
    PositionAfterStep(env, store, c, id, now, Settled(objectId));
    PositionAfterStep(env, store, c, id, now, Adjusted(objectId));
    PositionAfterStep(env, store, c, id, now, Reversals(objectId));
    TotalsAreValues(Scope(After(store, Decide(env, store, c, id, now)), objectId), objectId);
  }

  lemma {:induction false} TotalsAreValues(events: seq<LedgerEvent>, objectId: string)
    ensures TotalsOf(events, objectId)
            == ObjectTotals(Value(events, Originated(objectId)),
                 Value(events, Settled(objectId)) + Value(events, Adjusted(objectId)), Value(events, Reversals(objectId)) != 0)
  {
  }

  /** For a command that retracts nothing, in the counts of its objects. */
  lemma {:induction false} WhatOverdraws(store: seq<LedgerEvent>, c: Command, objectId: string)
    requires !AsksToRetract(c.objects)
    ensures var t := Position(store, objectId);
      var u := UnitsOf(c);
      var o, v := Count(c.objects, objectId, Originates), Count(c.objects, objectId, Reverses);
      var k := Count(c.objects, objectId, Settles) + Count(c.objects, objectId, Adjusts);
      Overdraws(store, c, objectId) <==>
        !t.hasReversal && v == 0 && t.originatedUnits + o * u != 0 && t.closedUnits + k * u > t.originatedUnits + o * u
  {
    var scope := Scope(store, objectId);
    TotalsAreValues(scope, objectId);
    SharesAreNatural(scope, RetractedIds(scope), Reversals(objectId));
    Distribute(Count(c.objects, objectId, Settles), Count(c.objects, objectId, Adjusts), UnitsOf(c));
  }

  /** What settling once leaves of a position: no more closed than originated when what is adjusted besides fits. */
  predicate ClosesWhatFits(before: ObjectTotals, after: ObjectTotals, objects: seq<EventObject>, units: nat, objectId: string) {
    var a, o := Count(objects, objectId, Adjusts), Count(objects, objectId, Originates);
    && (after.closedUnits <= after.originatedUnits <==>
          before.closedUnits + (1 + a) * units <= before.originatedUnits + o * units)
    && (a == 0 ==> after.closedUnits <= after.originatedUnits)
  }

  /**
   * A committed event that settles a position once, where it had a baseline and no standing reversal, leaves no
   * more closed than originated exactly when what it adjusts there besides still fits; so always when it
   * adjusts nothing.
   */
  lemma {:induction false} SettlingOnceConserves(env: Env, store: seq<LedgerEvent>, c: Command, id: string, now: int, objectId: string)
    requires WellFormed(env, store) && Decide(env, store, c, id, now).Commit?
    requires Count(c.objects, objectId, Settles) == 1
    requires Position(store, objectId).originatedUnits != 0 && !Position(store, objectId).hasReversal
    ensures ClosesWhatFits(Position(store, objectId), Position(After(store, Decide(env, store, c, id, now)), objectId),
              c.objects, UnitsOf(c), objectId)
  {
    SettlingIsNotRetracting(env, store, c, id, now, objectId);
    StepEffect(env, store, c, id, now, objectId);
    CommittedAmount(env, store, c, id, now);
    var e := Decide(env, store, c, id, now).event;
    SettledOnceAfter(store, Position(store, objectId), e, c.objects, objectId);
  }

  lemma {:induction false} SettledOnceAfter(store: seq<LedgerEvent>, before: ObjectTotals, e: LedgerEvent, objects: seq<EventObject>, objectId: string)
    requires before == Position(store, objectId) && before.originatedUnits != 0 && !before.hasReversal
    requires Count(objects, objectId, Settles) == 1 && ClosingRefusal(store, objectId, e.amount.units).None?
    ensures ClosesWhatFits(before, PlusShares(before, e, objects, objectId), objects, e.amount.units, objectId)
  {
    SharesAreCounted(e, objects, objectId);
    var a, o := Count(objects, objectId, Adjusts), Count(objects, objectId, Originates);
    Distribute(1, a, e.amount.units);
    SettledOnce(before.originatedUnits, before.closedUnits, e.amount.units, o, a);
  }

  lemma {:induction false} SettledOnce(originated: int, closed: int, u: nat, o: nat, a: nat)
    requires closed + u <= originated
    ensures a == 0 ==> closed + (1 + a) * u <= originated + o * u
  {
    assert o * u >= 0;
  }

  lemma {:induction false} PositionIsNatural(store: seq<LedgerEvent>, objectId: string)
    ensures Position(store, objectId).originatedUnits >= 0 && Position(store, objectId).closedUnits >= 0
  {
    var scope := Scope(store, objectId);
    SharesAreNatural(scope, RetractedIds(scope), Originated(objectId));
    SharesAreNatural(scope, RetractedIds(scope), Settled(objectId));
    SharesAreNatural(scope, RetractedIds(scope), Adjusted(objectId));
  }

  // ---- what the guard does not cover ----

  /** The ways a command can overdraw a position that was conserved before it. */
  datatype Irregularity = Adjusting | Retraction | SettlingTwice | OriginatingLate

  /** The first origination arrives after more was closed, by the position's events and by the command itself. */
  predicate OriginatesTooLate(store: seq<LedgerEvent>, c: Command, objectId: string) {
    var t := Position(store, objectId);
    var o, s := Count(c.objects, objectId, Originates), Count(c.objects, objectId, Settles);
    && !t.hasReversal && Count(c.objects, objectId, Reverses) == 0
    && t.originatedUnits == 0 && o > 0 && t.closedUnits + s * UnitsOf(c) > o * UnitsOf(c)
  }

  predicate Irregular(store: seq<LedgerEvent>, c: Command, objectId: string, x: Irregularity) {
    match x
    case Adjusting => Count(c.objects, objectId, Adjusts) > 0
    case Retraction => AsksToRetract(c.objects)
    case SettlingTwice => Count(c.objects, objectId, Settles) > 1
    case OriginatingLate => OriginatesTooLate(store, c, objectId)
  }

  /** A committed command that overdraws a position conserved before it does one of the four things there. */
  lemma {:induction false} OverdrawingIsIrregular(env: Env, store: seq<LedgerEvent>, c: Command, id: string, now: int, objectId: string)
    requires WellFormed(env, store) && Decide(env, store, c, id, now).Commit?
    requires Conserved(store, objectId) && Overdraws(store, c, objectId)
    ensures exists x :: Irregular(store, c, objectId, x)
  {
    if AsksToRetract(c.objects) {
      assert Irregular(store, c, objectId, Retraction);
    } else {
      StepEffect(env, store, c, id, now, objectId);
      CommittedAmount(env, store, c, id, now);
      OverdrawnWithoutRetracting(store, c, objectId);
    }
  }

  lemma {:induction false} OverdrawnWithoutRetracting(store: seq<LedgerEvent>, c: Command, objectId: string)
    requires Conserved(store, objectId) && Overdraws(store, c, objectId) && !AsksToRetract(c.objects) && UnitsOf(c) > 0
    requires Count(c.objects, objectId, Settles) > 0 ==> ClosingRefusal(store, objectId, UnitsOf(c)).None?
    ensures exists x :: Irregular(store, c, objectId, x)
  {
    WhatOverdraws(store, c, objectId);
    PositionIsNatural(store, objectId);
    var s, a := Count(c.objects, objectId, Settles), Count(c.objects, objectId, Adjusts);
    if a == 0 && s <= 1 {
      OverdrawnByOriginating(Position(store, objectId), UnitsOf(c), Count(c.objects, objectId, Originates), s);
      assert Irregular(store, c, objectId, OriginatingLate);
    } else {
      assert Irregular(store, c, objectId, if a > 0 then Adjusting else SettlingTwice);
    }
  }

  /** The arithmetic of one step with `o` originations and at most one settlement of `u` each. */
  lemma {:induction false} OverdrawnByOriginating(t: ObjectTotals, u: nat, o: nat, s: nat)
    requires u > 0 && s <= 1 && !t.hasReversal && t.originatedUnits >= 0
    requires t.originatedUnits == 0 || t.closedUnits <= t.originatedUnits
    requires s > 0 && t.originatedUnits != 0 ==> t.closedUnits + u <= t.originatedUnits
    requires t.originatedUnits + o * u != 0 && t.closedUnits + s * u > t.originatedUnits + o * u
    ensures t.originatedUnits == 0 && o > 0
  {
    assert o * u >= 0 && (o == 0 ==> o * u == 0);
    assert s * u == if s == 0 then 0 else u;
  }

  // ---- whole runs ----

  ghost predicate ConservedThroughout(env: Env, steps: seq<Step>, objectId: string) {
    forall i :: 0 <= i <= |steps| ==> Conserved(Run(env, steps[..i]), objectId)
  }

  predicate StepOverdraws(env: Env, store: seq<LedgerEvent>, s: Step, objectId: string) {
    Decide(env, store, s.command, s.id, s.now).Commit? && Overdraws(store, s.command, objectId)
  }

  ghost predicate NeverOverdraws(env: Env, steps: seq<Step>, objectId: string) {
    forall i :: 0 <= i < |steps| ==> !StepOverdraws(env, Run(env, steps[..i]), steps[i], objectId)
  }

  lemma {:induction false} RunOfOneMore(env: Env, steps: seq<Step>, i: nat)
    requires i < |steps|
    ensures var s := steps[i];
      Run(env, steps[..i + 1])
      == After(Run(env, steps[..i]), Decide(env, Run(env, steps[..i]), s.command, s.id, s.now))
  {
    assert steps[..i + 1][..i] == steps[..i];
  }

  /** One recorded, refused or repeated command: a conserved position stays so exactly when it is not overdrawn. */
  lemma {:induction false} StepConserves(env: Env, store: seq<LedgerEvent>, s: Step, objectId: string)
    requires WellFormed(env, store) && Conserved(store, objectId)
    ensures Conserved(After(store, Decide(env, store, s.command, s.id, s.now)), objectId)
            <==> !StepOverdraws(env, store, s, objectId)
  {
    if Decide(env, store, s.command, s.id, s.now).Commit? {
      EveryStepConservesExactly(env, store, s.command, s.id, s.now, objectId);
    }
  }

  /** A run keeps a position conserved at every step exactly when no step of it overdraws the position. */
  lemma {:induction false} RunsConserveExactly(env: Env, steps: seq<Step>, objectId: string)
    ensures ConservedThroughout(env, steps, objectId) <==> NeverOverdraws(env, steps, objectId)
  {
    if ConservedThroughout(env, steps, objectId) {
      forall i | 0 <= i < |steps| ensures !StepOverdraws(env, Run(env, steps[..i]), steps[i], objectId) {
        assert Conserved(Run(env, steps[..i + 1]), objectId);
        StepOfRunConserves(env, steps, i, objectId);
      }
    }
    if NeverOverdraws(env, steps, objectId) {
      forall i | 0 <= i <= |steps| ensures Conserved(Run(env, steps[..i]), objectId) {
        ConservedUpTo(env, steps, i, objectId);
      }
    }
  }

  lemma {:induction false} ConservedUpTo(env: Env, steps: seq<Step>, i: nat, objectId: string)
    requires i <= |steps| && NeverOverdraws(env, steps, objectId)
    ensures Conserved(Run(env, steps[..i]), objectId)
  {
    if i == 0 {
      assert Scope([], objectId) == [];
    } else {
      ConservedUpTo(env, steps, i - 1, objectId);
      assert !StepOverdraws(env, Run(env, steps[..i - 1]), steps[i - 1], objectId);
      StepOfRunConserves(env, steps, i - 1, objectId);
    }
  }

  lemma {:induction false} StepOfRunConserves(env: Env, steps: seq<Step>, i: nat, objectId: string)
    requires i < |steps| && Conserved(Run(env, steps[..i]), objectId)
    ensures Conserved(Run(env, steps[..i + 1]), objectId) <==> !StepOverdraws(env, Run(env, steps[..i]), steps[i], objectId)
  {
    RunsAreWellFormed(env, steps[..i]);
    RunOfOneMore(env, steps, i);
    StepConserves(env, Run(env, steps[..i]), steps[i], objectId);
  }

  /** The step is recorded, and irregular at the position. */
  ghost predicate StepIsIrregular(env: Env, store: seq<LedgerEvent>, s: Step, objectId: string, x: Irregularity) {
    Decide(env, store, s.command, s.id, s.now).Commit? && Irregular(store, s.command, objectId, x)
  }

  /** No committed step of the run is irregular at the position, but perhaps in the tolerated way. */
  ghost predicate RegularBut(env: Env, steps: seq<Step>, objectId: string, tolerated: Option<Irregularity>) {
    forall i, x :: 0 <= i < |steps| && Some(x) != tolerated ==>
      !StepIsIrregular(env, Run(env, steps[..i]), steps[i], objectId, x)
  }

  /**
   * In particular over every run in which no command that is recorded adjusts the position, settles it twice,
   * first originates it below what was closed, or retracts anything.
   */
  lemma {:induction false} RegularRunsConserveEveryPosition(env: Env, steps: seq<Step>, objectId: string)
    requires RegularBut(env, steps, objectId, None)
    ensures ConservedThroughout(env, steps, objectId)
  {
    forall i | 0 <= i <= |steps| ensures Conserved(Run(env, steps[..i]), objectId) {
      RegularUpTo(env, steps, i, objectId);
    }
  }

  lemma {:induction false} RegularUpTo(env: Env, steps: seq<Step>, i: nat, objectId: string)
    requires i <= |steps| && RegularBut(env, steps, objectId, None)
    ensures Conserved(Run(env, steps[..i]), objectId)
  {
    if i == 0 {
      assert Scope([], objectId) == [];
    } else {
      RegularUpTo(env, steps, i - 1, objectId);
      RegularStepOfRun(env, steps, i - 1, objectId);
    }
  }

  lemma {:induction false} RegularStepOfRun(env: Env, steps: seq<Step>, i: nat, objectId: string)
    requires i < |steps| && Conserved(Run(env, steps[..i]), objectId) && RegularBut(env, steps, objectId, None)
    ensures Conserved(Run(env, steps[..i + 1]), objectId)
  {
    RegularAt(env, steps, i, objectId);
    RunsAreWellFormed(env, steps[..i]);
    RunOfOneMore(env, steps, i);
    RegularStepConserves(env, Run(env, steps[..i]), steps[i], objectId);
  }

  lemma {:induction false} RegularAt(env: Env, steps: seq<Step>, i: nat, objectId: string)
    requires i < |steps| && RegularBut(env, steps, objectId, None)
    ensures forall x :: !StepIsIrregular(env, Run(env, steps[..i]), steps[i], objectId, x)
  {
    forall x ensures !StepIsIrregular(env, Run(env, steps[..i]), steps[i], objectId, x) {
      assert Some(x) != None;
    }
  }

  lemma {:induction false} RegularStepConserves(env: Env, store: seq<LedgerEvent>, s: Step, objectId: string)
    requires WellFormed(env, store) && Conserved(store, objectId)
    requires forall x :: !StepIsIrregular(env, store, s, objectId, x)
    ensures Conserved(After(store, Decide(env, store, s.command, s.id, s.now)), objectId)
  {
    StepConserves(env, store, s, objectId);
    if StepOverdraws(env, store, s, objectId) {
      OverdrawingIsIrregular(env, store, s.command, s.id, s.now, objectId);
      var x :| Irregular(store, s.command, objectId, x);
      assert StepIsIrregular(env, store, s, objectId, x);
    }
  }

  // ---- what is published of it ----

  /** The reading side publishes an over-settlement of the position. */
  predicate PublishesOverSettlement(store: seq<LedgerEvent>, objectId: string) {
    var t := Positions.TallyOf(Scope(store, objectId), objectId);
    var over := Positions.OverSettlementOf(t);
    !t.hasReversal && over.Some? && over.value != 0
  }

  lemma {:induction false} ConservedMeansNothingIsOverSettled(store: seq<LedgerEvent>, objectId: string)
    ensures Conserved(store, objectId) <==> !PublishesOverSettlement(store, objectId)
  {
    PositionIsNatural(store, objectId);
  }

  /** At no moment of a run an unreversed position is published as over-settled exactly when no step overdraws it. */
  lemma {:induction false} RunsPublishNoOverSettlementExactly(env: Env, steps: seq<Step>, objectId: string)
    ensures (forall i :: 0 <= i <= |steps| ==> !PublishesOverSettlement(Run(env, steps[..i]), objectId))
            <==> NeverOverdraws(env, steps, objectId)
  {
    RunsConserveExactly(env, steps, objectId);
    forall i | 0 <= i <= |steps|
      ensures Conserved(Run(env, steps[..i]), objectId) <==> !PublishesOverSettlement(Run(env, steps[..i]), objectId)
    {
      ConservedMeansNothingIsOverSettled(Run(env, steps[..i]), objectId);
    }
  }
}
