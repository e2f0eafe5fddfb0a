// Every additive figure the ledger derives, as a sum over the events that stand.
// foldObjectTotals is ledger/src/core/application/dtos/retractionUtils.ts.

module Figures {
  import opened Events
  import opened Validation
  import opened Retraction

  /** What can be summed: per position, per book, and the party legs behind both. */
  datatype Figure =
    | Originated(objectId: string)
    | Settled(objectId: string)
    | Adjusted(objectId: string)
    | CashRecovered(objectId: string)
    | NonCashClosed(objectId: string)
    | RefCashIn(objectId: string)
    | RefCashOut(objectId: string)
    | Reversals(objectId: string)
    | UnresolvedLineage(objectId: string)
    | CashInFlow
    | CashOutFlow
    | InLegs
    | OutLegs

  predicate PerPosition(fig: Figure) {
    !fig.CashInFlow? && !fig.CashOutFlow? && !fig.InLegs? && !fig.OutLegs?
  }

  /** What one object of an event adds to a figure of its position. */
  function ObjectShare(fig: Figure, e: LedgerEvent, o: EventObject): int
    requires PerPosition(fig)
  {
    if o.objectId != fig.objectId then 0
    else match fig
      case Originated(_) => if o.relation == Originates then e.amount.units else 0
      case Settled(_) => if o.relation == Settles then e.amount.units else 0
      case Adjusted(_) => if o.relation == Adjusts then e.amount.units else 0
      case CashRecovered(_) => if o.relation == Settles && e.effect == CashIn then e.amount.units else 0
      case NonCashClosed(_) => if o.relation == Settles && e.effect == NonCash then e.amount.units else 0
      case RefCashIn(_) => if o.relation == References && e.effect == CashIn then e.amount.units else 0
      case RefCashOut(_) => if o.relation == References && e.effect == CashOut then e.amount.units else 0
      case Reversals(_) => if o.relation == Reverses then 1 else 0
      case UnresolvedLineage(_) => if DeclaresUnresolvedOrigin(e) then 1 else 0
  }

  function ObjectShares(fig: Figure, e: LedgerEvent, objects: seq<EventObject>): int
    requires PerPosition(fig)
  {
    if objects == [] then 0
    else ObjectShares(fig, e, objects[..|objects| - 1]) + ObjectShare(fig, e, objects[|objects| - 1])
  }

  function Contribution(fig: Figure, e: LedgerEvent): int {
    if fig.CashInFlow? then (if e.effect == CashIn then e.amount.units else 0)
    else if fig.CashOutFlow? then (if e.effect == CashOut then e.amount.units else 0)
    else if fig.InLegs? then Legs(e.parties, In)
    else if fig.OutLegs? then Legs(e.parties, Out)
    else ObjectShares(fig, e, e.objects)
  }

  /** The sum over the events outside `retracted`. */
  function StandingSum(events: seq<LedgerEvent>, retracted: set<string>, fig: Figure): int {
    if events == [] then 0
    else
      var e := events[|events| - 1];
      StandingSum(events[..|events| - 1], retracted, fig) + (if e.id in retracted then 0 else Contribution(fig, e))
  }

  /** A figure of a book: retracted events contribute nothing. */
  function Value(events: seq<LedgerEvent>, fig: Figure): int {
    StandingSum(events, RetractedIds(events), fig)
  }

  // ---- foldObjectTotals ----

  datatype ObjectTotals = ObjectTotals(originatedUnits: int, closedUnits: int, hasReversal: bool)

  function TotalsWithout(events: seq<LedgerEvent>, retracted: set<string>, objectId: string): ObjectTotals {
    ObjectTotals(
      StandingSum(events, retracted, Originated(objectId)),
      StandingSum(events, retracted, Settled(objectId)) + StandingSum(events, retracted, Adjusted(objectId)),
      StandingSum(events, retracted, Reversals(objectId)) != 0)
  }

  function TotalsOf(events: seq<LedgerEvent>, objectId: string): ObjectTotals {
    TotalsWithout(events, RetractedIds(events), objectId)
  }

  /** The totals once some objects of one more event have been read. */
  ghost function PlusShares(t: ObjectTotals, e: LedgerEvent, objects: seq<EventObject>, objectId: string): ObjectTotals {
    ObjectTotals(
      t.originatedUnits + ObjectShares(Originated(objectId), e, objects),
      t.closedUnits + ObjectShares(Settled(objectId), e, objects) + ObjectShares(Adjusted(objectId), e, objects),
      t.hasReversal || ObjectShares(Reversals(objectId), e, objects) != 0)
  }

  lemma {:induction false} OneMoreObject(t: ObjectTotals, e: LedgerEvent, objects: seq<EventObject>, j: nat, objectId: string)
    requires j < |objects|
    ensures PlusShares(t, e, objects[..j + 1], objectId)
            == PlusShares(PlusShares(t, e, objects[..j], objectId), e, [objects[j]], objectId)
    ensures forall fig :: PerPosition(fig) ==> ObjectShares(fig, e, [objects[j]]) == ObjectShare(fig, e, objects[j])
  {
    assert objects[..j + 1][..j] == objects[..j];
    forall fig | PerPosition(fig) ensures ObjectShares(fig, e, [objects[j]]) == ObjectShare(fig, e, objects[j]) {
      assert [objects[j]][..0] == [];
    }
    ObjectSharesAreNatural(Reversals(objectId), e, objects[..j]);
  }

  lemma {:induction false} OneMoreEvent(events: seq<LedgerEvent>, i: nat, retracted: set<string>, objectId: string)
    requires i < |events|
    ensures TotalsWithout(events[..i + 1], retracted, objectId)
            == if events[i].id in retracted then TotalsWithout(events[..i], retracted, objectId)
               else PlusShares(TotalsWithout(events[..i], retracted, objectId), events[i], events[i].objects, objectId)
  {
    assert events[..i + 1][..i] == events[..i];
    SharesAreNatural(events[..i], retracted, Reversals(objectId));
    ObjectSharesAreNatural(Reversals(objectId), events[i], events[i].objects);
  }

  method FoldObjectTotals(events: seq<LedgerEvent>, objectId: string) returns (totals: ObjectTotals)
    ensures totals == TotalsOf(events, objectId)
  {
    var retracted := RetractedEventIds(events);
    totals := ObjectTotals(0, 0, false);
    for i := 0 to |events|
      invariant totals == TotalsWithout(events[..i], retracted, objectId)
    {
      var event := events[i];
      OneMoreEvent(events, i, retracted, objectId);
      if event.id in retracted { continue; }
      var units := event.amount.units;
      ghost var before := totals;
      for j := 0 to |event.objects|
        invariant totals == PlusShares(before, event, event.objects[..j], objectId)
      {
        var named := event.objects[j];
        OneMoreObject(before, event, event.objects, j, objectId);
        if named.objectId != objectId { continue; }
        if named.relation == Originates {
          totals := totals.(originatedUnits := totals.originatedUnits + units);
        } else if named.relation == Settles || named.relation == Adjusts {
          totals := totals.(closedUnits := totals.closedUnits + units);
        } else if named.relation == Reverses {
          totals := totals.(hasReversal := true);
        }
      }
      assert event.objects[..|event.objects|] == event.objects;
    }
    assert events[..|events|] == events;
  }

  // ---- sums ----

  lemma {:induction false} ObjectSharesAreNatural(fig: Figure, e: LedgerEvent, objects: seq<EventObject>)
    requires PerPosition(fig)
    ensures ObjectShares(fig, e, objects) >= 0
  {
    if objects != [] {
      ObjectSharesAreNatural(fig, e, objects[..|objects| - 1]);
    }
  }

  lemma {:induction false} SharesAreNatural(events: seq<LedgerEvent>, retracted: set<string>, fig: Figure)
    ensures StandingSum(events, retracted, fig) >= 0
  {
    if events != [] {
      SharesAreNatural(events[..|events| - 1], retracted, fig);
      if PerPosition(fig) {
        ObjectSharesAreNatural(fig, events[|events| - 1], events[|events| - 1].objects);
      }
    }
  }

  lemma {:induction false} SumOfConcatenation(a: seq<LedgerEvent>, b: seq<LedgerEvent>, retracted: set<string>, fig: Figure)
    ensures StandingSum(a + b, retracted, fig) == StandingSum(a, retracted, fig) + StandingSum(b, retracted, fig)
  {
    if b == [] {
      assert a + b == a;
    } else {
      var n := |b| - 1;
      SumOfConcatenation(a, b[..n], retracted, fig);
      assert (a + b)[..|a + b| - 1] == a + b[..n];
    }
  }

  lemma {:induction false} SumDependsOnWhoStands(events: seq<LedgerEvent>, r: set<string>, q: set<string>, fig: Figure)
    requires forall e :: e in events ==> (e.id in r <==> e.id in q)
    ensures StandingSum(events, r, fig) == StandingSum(events, q, fig)
  {
    if events != [] {
      SumDependsOnWhoStands(events[..|events| - 1], r, q, fig);
    }
  }

  lemma {:induction false} NoObjectNoShare(fig: Figure, e: LedgerEvent, objects: seq<EventObject>)
    requires PerPosition(fig)
    requires forall o :: o in objects ==> o.objectId != fig.objectId
    ensures ObjectShares(fig, e, objects) == 0
  {
    if objects != [] {
      NoObjectNoShare(fig, e, objects[..|objects| - 1]);
    }
  }

  lemma {:induction false} SumOfOneMore(events: seq<LedgerEvent>, e: LedgerEvent, retracted: set<string>, fig: Figure)
    ensures StandingSum(events + [e], retracted, fig)
            == StandingSum(events, retracted, fig) + (if e.id in retracted then 0 else Contribution(fig, e))
  {
    assert (events + [e])[..|events|] == events;
  }

  /** Events that do not name a position add nothing to its figures. */
  lemma {:induction false} SumOverScope(store: seq<LedgerEvent>, retracted: set<string>, fig: Figure)
    requires PerPosition(fig)
    ensures StandingSum(store, retracted, fig) == StandingSum(Scope(store, fig.objectId), retracted, fig)
  {
    if store != [] {
      var n := |store| - 1;
      SumOverScope(store[..n], retracted, fig);
      if Names(store[n], fig.objectId) {
        SumOfOneMore(Scope(store[..n], fig.objectId), store[n], retracted, fig);
      } else {
        NoObjectNoShare(fig, store[n], store[n].objects);
      }
    }
  }

  /** Leaving one standing event out takes exactly its contribution away. */
  lemma {:induction false} SumWithoutOne(events: seq<LedgerEvent>, retracted: set<string>, i: nat, fig: Figure)
    requires UniqueIds(events) && i < |events| && events[i].id !in retracted
    ensures StandingSum(events, retracted + {events[i].id}, fig)
            == StandingSum(events, retracted, fig) - Contribution(fig, events[i])
  {
    var n := |events| - 1;
    if i == n {
      forall e | e in events[..n] ensures e.id != events[n].id {
        var k :| 0 <= k < n && events[k] == e;
      }
      SumDependsOnWhoStands(events[..n], retracted, retracted + {events[n].id}, fig);
    } else {
      SumWithoutOne(events[..n], retracted, i, fig);
    }
  }

  // ---- a retraction contributes nothing of its own ----

  lemma {:induction false} RetractingObjectsHaveNoShare(fig: Figure, e: LedgerEvent, objects: seq<EventObject>)
    requires PerPosition(fig) && !DeclaresUnresolvedOrigin(e)
    requires forall o :: o in objects ==> o.relation == Retracts
    ensures ObjectShares(fig, e, objects) == 0
  {
    if objects != [] {
      RetractingObjectsHaveNoShare(fig, e, objects[..|objects| - 1]);
    }
  }

  lemma {:induction false} RetractionContributesNothing(fig: Figure, e: LedgerEvent)
    requires IsValid(e) && IsRetraction(e)
    ensures Contribution(fig, e) == 0
  {
    RetractionsOnlyRetract(e);
    LegsFollowTheEffect(e);
    if PerPosition(fig) {
      RetractingObjectsHaveNoShare(fig, e, e.objects);
    }
  }

  ghost predicate AddsNothing(e: LedgerEvent) {
    forall fig :: Contribution(fig, e) == 0
  }

  ghost predicate RetractionsAddNothing(events: seq<LedgerEvent>) {
    forall e :: e in events && IsRetraction(e) ==> AddsNothing(e)
  }

  lemma {:induction false} ValidRetractionsAddNothing(e: LedgerEvent)
    requires IsValid(e) && IsRetraction(e)
    ensures AddsNothing(e)
  {
    forall fig ensures Contribution(fig, e) == 0 {
      RetractionContributesNothing(fig, e);
    }
  }

  // ---- order independence ----

  lemma {:induction false} MultisetsHoldTheSameEvents(a: seq<LedgerEvent>, b: seq<LedgerEvent>)
    requires multiset(a) == multiset(b)
    ensures forall e :: e in a <==> e in b
  {
    forall e ensures e in a <==> e in b {
      assert e in a <==> e in multiset(a);
      assert e in b <==> e in multiset(b);
    }
  }

  /** Somewhere the second list holds the last event of the first; what is left on both sides matches. */
  lemma {:induction false} MatchLast(a: seq<LedgerEvent>, b: seq<LedgerEvent>) returns (k: nat)
    requires a != [] && multiset(a) == multiset(b)
    ensures k < |b| && b[k] == a[|a| - 1]
    ensures multiset(b[..k] + b[k + 1..]) == multiset(a[..|a| - 1])
  {
    var n := |a| - 1;
    MultisetsHoldTheSameEvents(a, b);
    assert a[n] in a;
    k := IndexOf(b, a[n]);
    WithoutOne(a, n);
    WithoutOne(b, k);
    assert a[..n] + a[n + 1..] == a[..n];
  }

  lemma {:induction false} WithoutOne(s: seq<LedgerEvent>, k: nat)
    requires k < |s|
    ensures multiset(s[..k] + s[k + 1..]) == multiset(s) - multiset{s[k]}
  {
    assert s == (s[..k] + [s[k]]) + s[k + 1..];
    assert multiset(s) == multiset(s[..k]) + multiset{s[k]} + multiset(s[k + 1..]);
  }

  lemma {:induction false} SumAround(b: seq<LedgerEvent>, k: nat, retracted: set<string>, fig: Figure)
    requires k < |b|
    ensures StandingSum(b, retracted, fig)
            == StandingSum(b[..k] + b[k + 1..], retracted, fig) + (if b[k].id in retracted then 0 else Contribution(fig, b[k]))
  {
    assert b == b[..k] + [b[k]] + b[k + 1..];
    SumOfConcatenation(b[..k], b[k + 1..], retracted, fig);
    SumOfConcatenation(b[..k] + [b[k]], b[k + 1..], retracted, fig);
    SumOfOneMore(b[..k], b[k], retracted, fig);
  }

  lemma {:induction false} SumIgnoresOrder(a: seq<LedgerEvent>, b: seq<LedgerEvent>, retracted: set<string>, fig: Figure)
    requires multiset(a) == multiset(b)
    ensures StandingSum(a, retracted, fig) == StandingSum(b, retracted, fig)
    decreases |a|
  {
    if a == [] {
      assert |multiset(b)| == 0;
    } else {
      var k := MatchLast(a, b);
      SumIgnoresOrder(a[..|a| - 1], b[..k] + b[k + 1..], retracted, fig);
      SumAround(b, k, retracted, fig);
    }
  }

  /**
   * Every figure, and so the totals conservation is measured with, reads which events are there and
   * never the order they arrived in: recognize-then-pay and pay-then-recognize are one position.
   */
  lemma {:induction false} FiguresIgnoreOrder(a: seq<LedgerEvent>, b: seq<LedgerEvent>, fig: Figure, objectId: string)
    requires multiset(a) == multiset(b)
    requires OneRetractionPerTarget(a)
    ensures Value(a, fig) == Value(b, fig)
    ensures TotalsOf(a, objectId) == TotalsOf(b, objectId)
  {
    MultisetsHoldTheSameEvents(a, b);
    RetractedIdsIgnoreOrder(a, b);
    var figures := [fig, Originated(objectId), Settled(objectId), Adjusted(objectId), Reversals(objectId)];
    forall f | f in figures ensures Value(a, f) == Value(b, f) {
      SumIgnoresOrder(a, b, RetractedIds(a), f);
    }
    assert figures[0] in figures && figures[1] in figures && figures[2] in figures && figures[3] in figures && figures[4] in figures;
  }
}
