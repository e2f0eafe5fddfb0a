// What the published totals of a position are made of, in terms of its events alone:
// ledger/src/core/application/services/PositionProjectionService.ts, lines 147-187 and 265-318.

module Shares {
  import opened Events
  import opened Validation
  import opened Figures
  import opened Positions
  import C = Conservation

  // ---- amounts declared ----

  /** The amounts of the events outside `retracted`, each once per object it relates to the position so. */
  function Declared(events: seq<LedgerEvent>, retracted: set<string>, objectId: string, relation: Relation): int {
    if events == [] then 0
    else
      var e := events[|events| - 1];
      Declared(events[..|events| - 1], retracted, objectId, relation)
      + (if e.id in retracted then 0 else C.Count(e.objects, objectId, relation) * e.amount.units)
  }

  /** The events of one effect. */
  function OfEffect(events: seq<LedgerEvent>, effect: Effect): (narrowed: seq<LedgerEvent>)
    ensures forall e :: e in narrowed <==> e in events && e.effect == effect
  {
    if events == [] then []
    else
      var e := events[|events| - 1];
      var before := OfEffect(events[..|events| - 1], effect);
      assert events == events[..|events| - 1] + [e];
      if e.effect == effect then before + [e] else before
  }

  /** Some standing event declares the relation on the position. */
  ghost predicate SomeDeclares(events: seq<LedgerEvent>, retracted: set<string>, objectId: string, relation: Relation) {
    exists e :: e in events && e.id !in retracted && Declares(e, objectId, relation)
  }

  predicate Declares(e: LedgerEvent, objectId: string, relation: Relation) {
    exists o :: o in e.objects && o.objectId == objectId && o.relation == relation
  }

  // ---- one event ----

  lemma {:induction false} Distributes(k: nat, u: nat)
    ensures (k + 1) * u == k * u + u
  {
  }

  lemma {:induction false} EffectShares(e: LedgerEvent, objects: seq<EventObject>, objectId: string)
    ensures ObjectShares(CashRecovered(objectId), e, objects)
            == if e.effect == CashIn then C.Count(objects, objectId, Settles) * e.amount.units else 0
    ensures ObjectShares(NonCashClosed(objectId), e, objects)
            == if e.effect == NonCash then C.Count(objects, objectId, Settles) * e.amount.units else 0
    ensures ObjectShares(RefCashIn(objectId), e, objects)
            == if e.effect == CashIn then C.Count(objects, objectId, References) * e.amount.units else 0
    ensures ObjectShares(RefCashOut(objectId), e, objects)
            == if e.effect == CashOut then C.Count(objects, objectId, References) * e.amount.units else 0
  {
    if objects != [] {
      var n := |objects| - 1;
      EffectShares(e, objects[..n], objectId);
      Distributes(C.Count(objects[..n], objectId, Settles), e.amount.units);
      Distributes(C.Count(objects[..n], objectId, References), e.amount.units);
    }
  }

  // ---- the tally ----

  lemma {:induction false} BaseSumsAreDeclared(events: seq<LedgerEvent>, retracted: set<string>, objectId: string)
    ensures StandingSum(events, retracted, Originated(objectId)) == Declared(events, retracted, objectId, Originates)
    ensures StandingSum(events, retracted, Settled(objectId)) == Declared(events, retracted, objectId, Settles)
    ensures StandingSum(events, retracted, Adjusted(objectId)) == Declared(events, retracted, objectId, Adjusts)
  {
    if events != [] {
      var n := |events| - 1;
      BaseSumsAreDeclared(events[..n], retracted, objectId);
      C.SharesAreCounted(events[n], events[n].objects, objectId);
    }
  }

  lemma {:induction false} DeclaredOfOneMore(events: seq<LedgerEvent>, e: LedgerEvent, retracted: set<string>, objectId: string, relation: Relation)
    ensures Declared(events + [e], retracted, objectId, relation)
            == Declared(events, retracted, objectId, relation)
               + (if e.id in retracted then 0 else C.Count(e.objects, objectId, relation) * e.amount.units)
  {
    assert (events + [e])[..|events|] == events;
  }

  lemma {:induction false} NarrowedByOneMore(
      events: seq<LedgerEvent>, retracted: set<string>, objectId: string, relation: Relation, effect: Effect)
    requires events != []
    ensures var n := |events| - 1;
      Declared(OfEffect(events, effect), retracted, objectId, relation)
      == Declared(OfEffect(events[..n], effect), retracted, objectId, relation)
         + (if events[n].effect == effect && events[n].id !in retracted
            then C.Count(events[n].objects, objectId, relation) * events[n].amount.units else 0)
  {
    var n := |events| - 1;
    DeclaredOfOneMore(OfEffect(events[..n], effect), events[n], retracted, objectId, relation);
  }

  /**
   * The columns of a position that depend on the effect: cash recovered is what the standing CASH_IN events alone
   * settle, closed without cash what the standing NON_CASH events alone settle, and the referenced cash what the
   * CASH_IN and the CASH_OUT events alone reference.
   */
  lemma {:induction false} ColumnsNarrowByEffect(events: seq<LedgerEvent>, retracted: set<string>, objectId: string)
    ensures var t := TallyWithout(events, retracted, objectId);
      && t.cashRecovered == Declared(OfEffect(events, CashIn), retracted, objectId, Settles)
      && t.nonCashClosed == Declared(OfEffect(events, NonCash), retracted, objectId, Settles)
      && t.refCashIn == Declared(OfEffect(events, CashIn), retracted, objectId, References)
      && t.refCashOut == Declared(OfEffect(events, CashOut), retracted, objectId, References)
  {
    if events != [] {
      var n := |events| - 1;
      ColumnsNarrowByEffect(events[..n], retracted, objectId);
      EffectShares(events[n], events[n].objects, objectId);
      NarrowedByOneMore(events, retracted, objectId, Settles, CashIn);
      NarrowedByOneMore(events, retracted, objectId, Settles, NonCash);
      NarrowedByOneMore(events, retracted, objectId, References, CashIn);
      NarrowedByOneMore(events, retracted, objectId, References, CashOut);
    }
  }

  /** The two flags: some standing event reverses the position, or names it and declares its origin unresolved. */
  lemma {:induction false} FlagsAreOccurrences(events: seq<LedgerEvent>, retracted: set<string>, objectId: string)
    ensures StandingSum(events, retracted, Reversals(objectId)) != 0 <==> SomeDeclares(events, retracted, objectId, Reverses)
    ensures StandingSum(events, retracted, UnresolvedLineage(objectId)) != 0 <==>
      exists e :: e in events && e.id !in retracted && Names(e, objectId) && DeclaresUnresolvedOrigin(e)
  {
    if events != [] {
      var n := |events| - 1;
      FlagsAreOccurrences(events[..n], retracted, objectId);
      assert events == events[..n] + [events[n]];
      SharesAreNatural(events[..n], retracted, Reversals(objectId));
      SharesAreNatural(events[..n], retracted, UnresolvedLineage(objectId));
      C.SharesAreCounted(events[n], events[n].objects, objectId);
      C.CountIsOccurrence(events[n].objects, objectId, Reverses);
      UnresolvedWhereNamed(events[n], events[n].objects, objectId);
    }
  }

  /** Every column of a position in terms of what its standing events declare. */
  lemma {:induction false} TalliesAreDeclared(events: seq<LedgerEvent>, retracted: set<string>, objectId: string)
    ensures var t := TallyWithout(events, retracted, objectId);
      && t.originated == Declared(events, retracted, objectId, Originates)
      && t.settled == Declared(events, retracted, objectId, Settles)
      && t.adjusted == Declared(events, retracted, objectId, Adjusts)
      && t.cashRecovered == Declared(OfEffect(events, CashIn), retracted, objectId, Settles)
      && t.nonCashClosed == Declared(OfEffect(events, NonCash), retracted, objectId, Settles)
      && t.refCashIn == Declared(OfEffect(events, CashIn), retracted, objectId, References)
      && t.refCashOut == Declared(OfEffect(events, CashOut), retracted, objectId, References)
      && (t.hasReversal <==> SomeDeclares(events, retracted, objectId, Reverses))
      && (t.hasUnresolvedLineage <==>
            exists e :: e in events && e.id !in retracted && Names(e, objectId) && DeclaresUnresolvedOrigin(e))
  {
    BaseSumsAreDeclared(events, retracted, objectId);
    ColumnsNarrowByEffect(events, retracted, objectId);
    FlagsAreOccurrences(events, retracted, objectId);
  }

  // ---- what a settled position came to ----

  lemma {:induction false} DeclaredIsNatural(events: seq<LedgerEvent>, retracted: set<string>, objectId: string, relation: Relation)
    ensures Declared(events, retracted, objectId, relation) >= 0
  {
    if events != [] {
      DeclaredIsNatural(events[..|events| - 1], retracted, objectId, relation);
    }
  }

  lemma {:induction false} Product(k: nat, u: nat)
    requires u > 0
    ensures k * u > 0 <==> k > 0
  {
  }

  /** With amounts that are never zero, something is declared exactly when some event declares it. */
  lemma {:induction false} DeclaredIsOccurrence(events: seq<LedgerEvent>, retracted: set<string>, objectId: string, relation: Relation)
    requires forall e :: e in events ==> e.amount.units > 0
    ensures Declared(events, retracted, objectId, relation) != 0 <==> SomeDeclares(events, retracted, objectId, relation)
  {
    if events != [] {
      var n := |events| - 1;
      DeclaredIsOccurrence(events[..n], retracted, objectId, relation);
      assert events == events[..n] + [events[n]];
      DeclaredIsNatural(events[..n], retracted, objectId, relation);
      C.CountIsOccurrence(events[n].objects, objectId, relation);
      Product(C.Count(events[n].objects, objectId, relation), events[n].amount.units);
    }
  }

  /** Some standing event of one effect settles the position. */
  ghost predicate SettledBy(events: seq<LedgerEvent>, retracted: set<string>, objectId: string, effect: Effect) {
    exists e :: e in events && e.id !in retracted && e.effect == effect && Declares(e, objectId, Settles)
  }

  lemma {:induction false} SettledByAnEffect(events: seq<LedgerEvent>, retracted: set<string>, objectId: string, effect: Effect)
    requires forall e :: e in events ==> e.amount.units > 0
    ensures Declared(OfEffect(events, effect), retracted, objectId, Settles) != 0 <==> SettledBy(events, retracted, objectId, effect)
  {
    var narrowed := OfEffect(events, effect);
    DeclaredIsOccurrence(narrowed, retracted, objectId, Settles);
    if SomeDeclares(narrowed, retracted, objectId, Settles) {
      var e :| e in narrowed && e.id !in retracted && Declares(e, objectId, Settles);
      assert e in events && e.effect == effect;
    }
    if SettledBy(events, retracted, objectId, effect) {
      var e :| e in events && e.id !in retracted && e.effect == effect && Declares(e, objectId, Settles);
      assert e in narrowed;
    }
  }

  /**
   * What a fully settled position came to, read off its events: a gain when nothing closed it without cash, a
   * partial loss when cash and something else did, a full loss when no cash ever came in.
   */
  lemma {:induction false} OutcomesOfSettledPositions(events: seq<LedgerEvent>, retracted: set<string>, objectId: string)
    requires forall e :: e in events ==> e.amount.units > 0
    requires StatusOf(TallyWithout(events, retracted, objectId)) == FullySettled
    ensures var outcome := OutcomeOf(TallyWithout(events, retracted, objectId));
      var inCash, without := SettledBy(events, retracted, objectId, CashIn), SettledBy(events, retracted, objectId, NonCash);
      && (outcome == Gain <==> !without)
      && (outcome == PartialLoss <==> without && inCash)
      && (outcome == FullLoss <==> without && !inCash)
  {
    ColumnsNarrowByEffect(events, retracted, objectId);
    SettledByAnEffect(events, retracted, objectId, CashIn);
    SettledByAnEffect(events, retracted, objectId, NonCash);
  }
}
