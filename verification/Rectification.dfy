// What committing a retraction does to every derived figure, and what undoing it does.
// ledger/src/core/application/use-cases/CreateLedgerEventUseCase.ts, lines 61-93.

module Rectification {
  import opened Prelude
  import opened Events
  import opened Validation
  import opened Retraction
  import opened Figures
  import opened EventPayload
  import opened Ledger

  lemma {:induction false} RetractionOf(store: seq<LedgerEvent>, r: LedgerEvent, id: string)
    requires r in store && Retracting(r, id)
    ensures HasRetraction(store, id)
  {
  }

  /** An event recorded last is retracted by nothing. */
  lemma {:induction false} LastIsUnretracted(store: seq<LedgerEvent>, r: LedgerEvent)
    requires RetractionsAreOrderly(store + [r])
    ensures !HasRetraction(store + [r], r.id) && !HasRetraction(store, r.id)
  {
    var after := store + [r];
    var n := |store|;
    assert after[n] == r;
    forall q | q in after ensures !Retracting(q, r.id) {
      var j := IndexOf(after, q);
      assert j <= n;
    }
  }

  lemma {:induction false} PrefixIsOrderly(store: seq<LedgerEvent>, r: LedgerEvent)
    requires RetractionsAreOrderly(store + [r])
    ensures RetractionsAreOrderly(store)
  {
    var after := store + [r];
    assert forall i :: 0 <= i < |store| ==> after[i] == store[i];
    assert forall e :: e in store ==> e in after;
    forall j | 0 <= j < |store| && Truthy(store[j].relatedEventId)
      ensures exists i :: 0 <= i < j && store[i].id == store[j].relatedEventId.value
    {
      var i :| 0 <= i < j && after[i].id == after[j].relatedEventId.value;
      assert store[i].id == store[j].relatedEventId.value;
    }
    assert UniqueIds(store);
  }

  /** Appending a retraction of an ordinary event: that event, and nobody else, stops standing. */
  lemma {:induction false} RetractionRemovesItsTarget(store: seq<LedgerEvent>, r: LedgerEvent, t: LedgerEvent, id: string)
    requires RetractionsAreOrderly(store + [r])
    requires t in store && !IsRetraction(t) && Retracting(r, t.id)
    ensures id in RetractedIds(store + [r]) <==> id == t.id || id in RetractedIds(store)
    ensures t.id !in RetractedIds(store)
  {
    var after := store + [r];
    PrefixIsOrderly(store, r);
    LastIsUnretracted(store, r);
    OneHopIsNotExists(after, id);
    OneHopIsNotExists(store, id);
    OneHopIsNotExists(store, t.id);
    var k := IndexOf(store, t);
    assert r in after && after[k] == t && after[|store|] == r;
    assert !HasRetraction(store, t.id) by {
      forall q | q in store ensures !Retracting(q, t.id) {
        assert q in after;
        var i := IndexOf(store, q);
        assert after[i] == q;
      }
    }
    if id == t.id {
      assert Retracting(r, id) && !HasRetraction(after, r.id);
    } else {
      forall q | q in store && Retracting(q, id)
        ensures HasRetraction(after, q.id) <==> HasRetraction(store, q.id)
      {
        OnlyTheTargetGainsARetraction(store, r, t, q);
      }
      SameRetractionsSameVerdict(store, r, id);
    }
  }

  /** A retraction is not the ordinary event `r` targets, so `r` is no retraction of it. */
  lemma {:induction false} OnlyTheTargetGainsARetraction(store: seq<LedgerEvent>, r: LedgerEvent, t: LedgerEvent, q: LedgerEvent)
    requires UniqueIds(store) && t in store && q in store && Retracting(r, t.id) && !IsRetraction(t) && IsRetraction(q)
    ensures HasRetraction(store + [r], q.id) <==> HasRetraction(store, q.id)
  {
    var i := IndexOf(store, t);
    var j := IndexOf(store, q);
    assert t.id != q.id;
    if HasRetraction(store, q.id) {
      var p :| p in store && Retracting(p, q.id);
      assert p in store + [r];
    }
  }

  lemma {:induction false} SameRetractionsSameVerdict(store: seq<LedgerEvent>, r: LedgerEvent, id: string)
    requires !Retracting(r, id)
    requires forall q :: q in store && Retracting(q, id) ==> (HasRetraction(store + [r], q.id) <==> HasRetraction(store, q.id))
    ensures NotRetracted(store + [r], id) <==> NotRetracted(store, id)
  {
    if !NotRetracted(store, id) {
      var q :| q in store && Retracting(q, id) && !HasRetraction(store, q.id);
      assert q in store + [r];
    }
  }

  /**
   * Committing a retraction of an ordinary event changes every figure of the book, per position and
   * per cash flow, by exactly minus what that event contributed.
   */
  lemma {:induction false} RetractionSubtractsItsTarget(env: Env, store: seq<LedgerEvent>, r: LedgerEvent, t: LedgerEvent, fig: Figure)
    requires WellFormed(env, store + [r])
    requires t in store && !IsRetraction(t) && Retracting(r, t.id)
    ensures Value(store + [r], fig) == Value(store, fig) - Contribution(fig, t)
  {
    assert r in store + [r];
    OrderlyRetractionSubtracts(store, r, t, fig);
  }

  lemma {:induction false} OrderlyRetractionSubtracts(store: seq<LedgerEvent>, r: LedgerEvent, t: LedgerEvent, fig: Figure)
    requires RetractionsAreOrderly(store + [r]) && IsValid(r)
    requires t in store && !IsRetraction(t) && Retracting(r, t.id)
    ensures Value(store + [r], fig) == Value(store, fig) - Contribution(fig, t)
  {
    PrefixIsOrderly(store, r);
    var before, after := RetractedIds(store), RetractedIds(store + [r]);
    forall id ensures id in after <==> id in before + {t.id} {
      RetractionRemovesItsTarget(store, r, t, id);
    }
    RetractionRemovesItsTarget(store, r, t, t.id);
    RetractionContributesNothing(fig, r);
    SumOfOneMore(store, r, after, fig);
    SumDependsOnWhoStands(store, after, before + {t.id}, fig);
    var i := IndexOf(store, t);
    SumWithoutOne(store, before, i, fig);
  }

  // ---- undoing a retraction ----

  /** `a`, a retraction `r`, `b`, and a retraction `q` of `r`. */
  ghost function Undone(a: seq<LedgerEvent>, r: LedgerEvent, b: seq<LedgerEvent>, q: LedgerEvent): seq<LedgerEvent> {
    a + [r] + b + [q]
  }

  lemma {:induction false} UndoneHolds(a: seq<LedgerEvent>, r: LedgerEvent, b: seq<LedgerEvent>, q: LedgerEvent)
    ensures forall e :: e in Undone(a, r, b, q) <==> e in a + b || e == r || e == q
  {
  }

  lemma {:induction false} WithoutThePairIsOnePerTarget(a: seq<LedgerEvent>, r: LedgerEvent, b: seq<LedgerEvent>, q: LedgerEvent)
    requires OneRetractionPerTarget(Undone(a, r, b, q))
    ensures OneRetractionPerTarget(a + b)
  {
    UndoneHolds(a, r, b, q);
  }

  /** The event `r` had retracted stands again once `r` is retracted, as it would had neither been recorded. */
  lemma {:induction false} TheTargetStandsAgain(a: seq<LedgerEvent>, r: LedgerEvent, b: seq<LedgerEvent>, q: LedgerEvent, e: LedgerEvent)
    requires RetractionsAreOrderly(Undone(a, r, b, q))
    requires Retracting(q, r.id) && Retracting(r, e.id)
    ensures NotRetracted(Undone(a, r, b, q), e.id) && NotRetracted(a + b, e.id)
  {
    var s := Undone(a, r, b, q);
    UndoneHolds(a, r, b, q);
    NeitherIsAmongTheRest(a, r, b, q);
    OnlyOneRetraction(s, r, e.id);
    RetractionOf(s, q, r.id);
    forall x | x in a + b ensures !Retracting(x, e.id) {
      assert x in s && x.id != r.id;
    }
  }

  /** A retraction that was retracted targets an ordinary event. */
  lemma {:induction false} RetractedRetractionTargetsNone(s: seq<LedgerEvent>, q: LedgerEvent, r: LedgerEvent, x: LedgerEvent)
    requires ChainsAreShallow(s) && q in s && r in s && x in s && Retracting(q, r.id) && IsRetraction(x)
    ensures !Retracting(r, x.id)
  {
  }

  /** A retraction neither of the two targets gains or loses none of its own with the pair. */
  lemma {:induction false} OtherRetractionsAreUntouched(a: seq<LedgerEvent>, r: LedgerEvent, b: seq<LedgerEvent>, q: LedgerEvent, id: string)
    requires !Retracting(r, id) && !Retracting(q, id)
    ensures HasRetraction(Undone(a, r, b, q), id) <==> HasRetraction(a + b, id)
  {
    UndoneHolds(a, r, b, q);
    if HasRetraction(a + b, id) {
      var y :| y in a + b && Retracting(y, id);
      RetractionOf(Undone(a, r, b, q), y, id);
    }
    if HasRetraction(Undone(a, r, b, q), id) {
      var y :| y in Undone(a, r, b, q) && Retracting(y, id);
      RetractionOf(a + b, y, id);
    }
  }

  /** Without the pair, an event other than the two stands exactly when it stands with it. */
  lemma {:induction false} ThePairChangesNothing(a: seq<LedgerEvent>, r: LedgerEvent, b: seq<LedgerEvent>, q: LedgerEvent, e: LedgerEvent)
    requires RetractionsAreOrderly(Undone(a, r, b, q))
    requires IsRetraction(r) && Retracting(q, r.id) && e in a + b
    ensures NotRetracted(Undone(a, r, b, q), e.id) <==> NotRetracted(a + b, e.id)
  {
    var s := Undone(a, r, b, q);
    if Retracting(r, e.id) {
      TheTargetStandsAgain(a, r, b, q, e);
    } else {
      NeitherIsAmongTheRest(a, r, b, q);
      UndoneHolds(a, r, b, q);
      assert !Retracting(q, e.id);
      forall x | x in a + b && Retracting(x, e.id)
        ensures HasRetraction(s, x.id) <==> HasRetraction(a + b, x.id)
      {
        RetractedRetractionTargetsNone(s, q, r, x);
        OtherRetractionsAreUntouched(a, r, b, q, x.id);
      }
      if !NotRetracted(a + b, e.id) {
        var x :| x in a + b && Retracting(x, e.id) && !HasRetraction(a + b, x.id);
        assert x in s;
      }
    }
  }

  lemma {:induction false} NeitherIsAmongTheRest(a: seq<LedgerEvent>, r: LedgerEvent, b: seq<LedgerEvent>, q: LedgerEvent)
    requires UniqueIds(Undone(a, r, b, q))
    ensures forall e :: e in a + b ==> e.id != r.id && e.id != q.id
  {
    var s := Undone(a, r, b, q);
    assert s[|a|] == r && s[|s| - 1] == q;
    forall e | e in a + b ensures e.id != r.id && e.id != q.id {
      var i := IndexOf(a + b, e);
      var k := if i < |a| then i else i + 1;
      assert s[k] == e;
    }
  }

  lemma {:induction false} OnlyOneRetraction(s: seq<LedgerEvent>, r: LedgerEvent, id: string)
    requires RetractionsAreOrderly(s) && r in s && Retracting(r, id)
    ensures forall x :: x in s && Retracting(x, id) ==> x == r
  {
    var i := IndexOf(s, r);
    forall x | x in s && Retracting(x, id) ensures x == r {
      var j := IndexOf(s, x);
      assert s[i].id == s[j].id;
      assert i == j;
    }
  }

  lemma {:induction false} ThePairChangesNoVerdict(a: seq<LedgerEvent>, r: LedgerEvent, b: seq<LedgerEvent>, q: LedgerEvent)
    requires RetractionsAreOrderly(Undone(a, r, b, q))
    requires IsRetraction(r) && Retracting(q, r.id)
    ensures forall e :: e in a + b ==> (e.id in RetractedIds(Undone(a, r, b, q)) <==> e.id in RetractedIds(a + b))
  {
    WithoutThePairIsOnePerTarget(a, r, b, q);
    forall e | e in a + b ensures e.id in RetractedIds(Undone(a, r, b, q)) <==> e.id in RetractedIds(a + b) {
      OneHopIsNotExists(Undone(a, r, b, q), e.id);
      OneHopIsNotExists(a + b, e.id);
      ThePairChangesNothing(a, r, b, q, e);
    }
  }

  lemma {:induction false} SumAroundThePair(
      a: seq<LedgerEvent>, r: LedgerEvent, b: seq<LedgerEvent>, q: LedgerEvent, retracted: set<string>, fig: Figure)
    requires Contribution(fig, r) == 0 && Contribution(fig, q) == 0
    ensures StandingSum(Undone(a, r, b, q), retracted, fig) == StandingSum(a + b, retracted, fig)
  {
    SumOfOneMore(a + [r] + b, q, retracted, fig);
    SumOfConcatenation(a + [r], b, retracted, fig);
    SumOfOneMore(a, r, retracted, fig);
    SumOfConcatenation(a, b, retracted, fig);
  }

  /**
   * Retracting a retraction restores every figure to what it would be had neither been recorded,
   * whatever was appended in between.
   */
  lemma {:induction false} RetractingARetractionRestores(
      env: Env, a: seq<LedgerEvent>, r: LedgerEvent, b: seq<LedgerEvent>, q: LedgerEvent, fig: Figure)
    requires WellFormed(env, Undone(a, r, b, q))
    requires IsRetraction(r) && Retracting(q, r.id)
    ensures Value(Undone(a, r, b, q), fig) == Value(a + b, fig)
  {
    UndoneHolds(a, r, b, q);
    ThePairChangesNoVerdict(a, r, b, q);
    RetractionContributesNothing(fig, r);
    RetractionContributesNothing(fig, q);
    SumAroundThePair(a, r, b, q, RetractedIds(Undone(a, r, b, q)), fig);
    SumDependsOnWhoStands(a + b, RetractedIds(Undone(a, r, b, q)), RetractedIds(a + b), fig);
  }

  // ---- one more retraction on any list of events ----

  /** What one more retraction does to the fold of a list that holds none of its target, and no retraction of it. */
  lemma {:induction false} MapOfOneMoreRetraction(events: seq<LedgerEvent>, r: LedgerEvent)
    requires IsRetraction(r)
    ensures RetractionMap(events + [r]) == RetractionMap(events)[r.relatedEventId.value := r.id]
  {
    assert (events + [r])[..|events|] == events;
  }

  /**
   * Of the ids of a list, a new retraction `r` of `target` adds the target to the retracted ones; and it takes
   * out the one the target itself retracted in the list, if it did.
   */
  lemma {:induction false} RetractedByOneMore(events: seq<LedgerEvent>, r: LedgerEvent, target: string, id: string)
    requires Retracting(r, target) && r.id != target
    requires !HasRetraction(events, target) && !HasRetraction(events, r.id)
    ensures id in RetractedIds(events + [r]) <==>
      id == target || (id in RetractedIds(events) && RetractionMap(events)[id] != target)
    ensures target !in RetractedIds(events)
  {
    MapOfOneMoreRetraction(events, r);
    RetractionMapHolds(events);
    var before := RetractionMap(events);
    assert target !in before && r.id !in before;
    var after := RetractionMap(events + [r]);
    assert id in after <==> id == target || id in before;
    if id != target && id in before {
      assert after[id] == before[id];
      assert after[id] in after <==> before[id] == target || before[id] in before;
    }
  }

  /** Which target the map holds under one retraction's id, ids being unique and targets retracted once. */
  lemma {:induction false} WhoseRetraction(events: seq<LedgerEvent>, t: LedgerEvent, id: string)
    requires UniqueIds(events) && OneRetractionPerTarget(events) && t in events && id in RetractionMap(events)
    ensures RetractionMap(events)[id] == t.id <==> Retracting(t, id)
  {
    RetractionMapHolds(events);
    var q :| q in events && Retracting(q, id) && q.id == RetractionMap(events)[id];
    if q.id == t.id {
      var i := IndexOf(events, q);
      var j := IndexOf(events, t);
      assert i == j;
    }
  }

  /** What an event adds to a figure of the list: nothing, if it is not in it. */
  function ShareIn(events: seq<LedgerEvent>, e: LedgerEvent, fig: Figure): int {
    if e in events then Contribution(fig, e) else 0
  }

  /** Taking one standing event of the list out of the sum, or nothing when it is not in the list. */
  lemma {:induction false} SumWithoutId(events: seq<LedgerEvent>, retracted: set<string>, e: LedgerEvent, fig: Figure)
    requires UniqueIds(events) && e.id !in retracted
    requires forall x :: x in events && x.id == e.id ==> x == e
    ensures StandingSum(events, retracted + {e.id}, fig) == StandingSum(events, retracted, fig) - ShareIn(events, e, fig)
  {
    if e in events {
      var i := IndexOf(events, e);
      SumWithoutOne(events, retracted, i, fig);
    } else {
      forall x | x in events ensures x.id in retracted <==> x.id in retracted + {e.id} {
        assert x.id != e.id;
      }
      SumDependsOnWhoStands(events, retracted + {e.id}, retracted, fig);
    }
  }

  /** A retraction of an ordinary event takes its share in the list away. */
  lemma {:induction false} OneMoreRetraction(events: seq<LedgerEvent>, r: LedgerEvent, t: LedgerEvent, fig: Figure)
    requires UniqueIds(events) && OneRetractionPerTarget(events) && AddsNothing(r)
    requires Retracting(r, t.id) && r.id != t.id && !IsRetraction(t)
    requires !HasRetraction(events, t.id) && !HasRetraction(events, r.id)
    requires forall x :: x in events && x.id == t.id ==> x == t
    ensures Value(events + [r], fig) == Value(events, fig) - ShareIn(events, t, fig)
  {
    var before, after := RetractedIds(events), RetractedIds(events + [r]);
    assert Contribution(fig, r) == 0;
    SumOfOneMore(events, r, after, fig);
    RetractedByOneMore(events, r, t.id, t.id);
    forall e | e in events ensures e.id in after <==> e.id in before + {t.id} {
      RetractedByOneMore(events, r, t.id, e.id);
      NobodyRetractedBy(events, t, e.id);
    }
    SumDependsOnWhoStands(events, after, before + {t.id}, fig);
    SumWithoutId(events, before, t, fig);
  }

  /** An event that is no retraction stands under no target's name. */
  lemma {:induction false} NobodyRetractedBy(events: seq<LedgerEvent>, t: LedgerEvent, id: string)
    requires !IsRetraction(t) && forall x :: x in events && x.id == t.id ==> x == t
    ensures id in RetractionMap(events) ==> RetractionMap(events)[id] != t.id
  {
    RetractionMapHolds(events);
  }

  /** A retraction of a retraction in the list gives back the share of what that one had taken. */
  lemma {:induction false} OneMoreRestoration(events: seq<LedgerEvent>, q: LedgerEvent, r: LedgerEvent, p: LedgerEvent, fig: Figure)
    requires UniqueIds(events) && OneRetractionPerTarget(events) && AddsNothing(q) && AddsNothing(r)
    requires Retracting(q, r.id) && q.id != r.id && Retracting(r, p.id) && p.id != r.id && r in events
    requires !HasRetraction(events, r.id) && !HasRetraction(events, q.id)
    requires forall x :: x in events && x.id == p.id ==> x == p
    ensures Value(events + [q], fig) == Value(events, fig) + ShareIn(events, p, fig)
  {
    var before, after := RetractedIds(events), RetractedIds(events + [q]);
    assert Contribution(fig, q) == 0;
    SumOfOneMore(events, q, after, fig);
    RetractedByOneMore(events, q, r.id, r.id);
    RestoredIsRetracted(events, r, p);
    forall e | e in events ensures e.id in after + {p.id} <==> e.id in before + {r.id} {
      RetractedByOneMore(events, q, r.id, e.id);
      if e.id in RetractionMap(events) {
        WhoseRetraction(events, r, e.id);
      }
    }
    RetractedByOneMore(events, q, r.id, p.id);
    WhoseRetraction(events, r, p.id);
    SumDependsOnWhoStands(events, after + {p.id}, before + {r.id}, fig);
    SumWithoutId(events, after, p, fig);
    assert Contribution(fig, r) == 0;
    SumWithoutId(events, before, r, fig);
  }

  lemma {:induction false} RestoredIsRetracted(events: seq<LedgerEvent>, r: LedgerEvent, p: LedgerEvent)
    requires UniqueIds(events) && OneRetractionPerTarget(events) && r in events && Retracting(r, p.id)
    requires !HasRetraction(events, r.id)
    ensures p.id in RetractionMap(events) && RetractionMap(events)[p.id] == r.id && p.id in RetractedIds(events)
  {
    RetractionMapHolds(events);
    assert HasRetraction(events, p.id);
    WhoseRetraction(events, r, p.id);
  }

  /** A retraction of a retraction that is not in the list changes nothing there. */
  lemma {:induction false} OneMoreStranger(events: seq<LedgerEvent>, q: LedgerEvent, r: LedgerEvent, fig: Figure)
    requires UniqueIds(events) && OneRetractionPerTarget(events) && AddsNothing(q)
    requires Retracting(q, r.id) && q.id != r.id && forall x :: x in events ==> x.id != r.id
    requires !HasRetraction(events, r.id) && !HasRetraction(events, q.id)
    ensures Value(events + [q], fig) == Value(events, fig)
  {
    var before, after := RetractedIds(events), RetractedIds(events + [q]);
    assert Contribution(fig, q) == 0;
    SumOfOneMore(events, q, after, fig);
    RetractionMapHolds(events);
    forall e | e in events ensures e.id in after <==> e.id in before {
      RetractedByOneMore(events, q, r.id, e.id);
    }
    SumDependsOnWhoStands(events, after, before, fig);
  }
}
