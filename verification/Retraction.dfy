// Which events no longer stand: ledger/src/core/application/dtos/retractionUtils.ts, the nested
// NOT EXISTS of TypeOrmLedgerEventRepository.ts, and the recursive rule both abbreviate.

module Retraction {
  import opened Prelude
  import opened Events

  // ---- the one-hop fold ----

  /** Target id to the id of the last retraction of it, as the Map ends up after one pass. */
  function RetractionMap(events: seq<LedgerEvent>): map<string, string> {
    if events == [] then map[]
    else
      var e := events[|events| - 1];
      var before := RetractionMap(events[..|events| - 1]);
      if IsRetraction(e) then before[e.relatedEventId.value := e.id] else before
  }

  /** Targets whose retraction was not itself a target. */
  function RetractedIds(events: seq<LedgerEvent>): set<string> {
    var byTarget := RetractionMap(events);
    set t | t in byTarget && byTarget[t] !in byTarget
  }

  method RetractedEventIds(events: seq<LedgerEvent>) returns (retracted: set<string>)
    ensures retracted == RetractedIds(events)
  {
    var retractionByTarget: map<string, string> := map[];
    for i := 0 to |events|
      invariant retractionByTarget == RetractionMap(events[..i])
    {
      var event := events[i];
      assert events[..i + 1][..i] == events[..i];
      if !Truthy(event.relatedEventId) { continue; }
      if !(exists o :: o in event.objects && o.relation == Retracts) { continue; }
      retractionByTarget := retractionByTarget[event.relatedEventId.value := event.id];
    }
    assert events[..|events|] == events;
    retracted := {};
    var targets := retractionByTarget.Keys;
    while targets != {}
      invariant targets <= retractionByTarget.Keys
      invariant retracted
                == set t | t in retractionByTarget && t !in targets && retractionByTarget[t] !in retractionByTarget
      decreases targets
    {
      var targetId :| targetId in targets;
      targets := targets - {targetId};
      if retractionByTarget[targetId] in retractionByTarget { continue; }
      retracted := retracted + {targetId};
    }
  }

  // ---- the SQL form ----

  ghost predicate HasRetraction(events: seq<LedgerEvent>, id: string) {
    exists r :: r in events && Retracting(r, id)
  }

  /** NOT EXISTS (a retraction of `id` for which NOT EXISTS (a retraction of that one)). */
  ghost predicate NotRetracted(events: seq<LedgerEvent>, id: string) {
    !exists r :: r in events && Retracting(r, id) && !HasRetraction(events, r.id)
  }

  // ---- the recursive rule ----

  /** An event stands unless a standing retraction targets it; a retraction comes after its target. */
  ghost predicate Stands(store: seq<LedgerEvent>, i: nat)
    requires i < |store|
    decreases |store| - i
  {
    forall j :: i < j < |store| && Retracting(store[j], store[i].id) ==> !Stands(store, j)
  }

  // ---- what the write path guarantees about retractions ----

  ghost predicate UniqueIds(store: seq<LedgerEvent>) {
    forall i, j :: 0 <= i < j < |store| ==> store[i].id != store[j].id
  }

  /** Any two retractions of one target are the same event. */
  ghost predicate OneRetractionPerTarget(events: seq<LedgerEvent>) {
    forall r, q ::
      r in events && q in events && IsRetraction(r) && IsRetraction(q) && r.relatedEventId == q.relatedEventId
      ==> r.id == q.id
  }

  /** What an event relates to was recorded before it. */
  ghost predicate LineageIsEarlier(store: seq<LedgerEvent>) {
    forall j :: 0 <= j < |store| && Truthy(store[j].relatedEventId)
                ==> exists i :: 0 <= i < j && store[i].id == store[j].relatedEventId.value
  }

  /** A retraction of a retraction is never retracted. */
  ghost predicate ChainsAreShallow(events: seq<LedgerEvent>) {
    forall r, q, p ::
      r in events && q in events && p in events && Retracting(r, q.id) && Retracting(q, p.id)
      ==> !IsRetraction(p)
  }

  ghost predicate RetractionsAreOrderly(store: seq<LedgerEvent>) {
    && UniqueIds(store)
    && OneRetractionPerTarget(store)
    && LineageIsEarlier(store)
    && ChainsAreShallow(store)
  }

  // ---- the three forms agree ----

  lemma {:induction false} RetractionMapHolds(events: seq<LedgerEvent>)
    ensures forall t :: t in RetractionMap(events) <==> HasRetraction(events, t)
    ensures forall t :: t in RetractionMap(events)
                        ==> exists r :: r in events && Retracting(r, t) && r.id == RetractionMap(events)[t]
  {
    if events != [] {
      var n := |events| - 1;
      var e, init := events[n], events[..n];
      RetractionMapHolds(init);
      assert events == init + [e];
      forall t ensures t in RetractionMap(events) <==> HasRetraction(events, t) {
        if HasRetraction(events, t) && !Retracting(e, t) {
          var r :| r in events && Retracting(r, t);
          assert r in init;
        }
        if HasRetraction(init, t) {
          var r :| r in init && Retracting(r, t);
          assert r in events;
        }
        if Retracting(e, t) {
          assert e in events;
        }
      }
      forall t | t in RetractionMap(events)
        ensures exists r :: r in events && Retracting(r, t) && r.id == RetractionMap(events)[t]
      {
        if Retracting(e, t) {
          assert e in events;
        } else {
          var r :| r in init && Retracting(r, t) && r.id == RetractionMap(init)[t];
          assert r in events;
        }
      }
    }
  }

  /** The map-based fold and the nested NOT EXISTS name the same events, one retraction per target given. */
  lemma {:induction false} OneHopIsNotExists(events: seq<LedgerEvent>, id: string)
    requires OneRetractionPerTarget(events)
    ensures id in RetractedIds(events) <==> !NotRetracted(events, id)
  {
    RetractionMapHolds(events);
    var m := RetractionMap(events);
    if id in m {
      var r :| r in events && Retracting(r, id) && r.id == m[id];
      if !NotRetracted(events, id) {
        var q :| q in events && Retracting(q, id) && !HasRetraction(events, q.id);
        assert q.id == r.id;
      }
    } else {
      assert !HasRetraction(events, id);
    }
  }

  lemma {:induction false} IndexOf(store: seq<LedgerEvent>, e: LedgerEvent) returns (i: nat)
    requires e in store
    ensures i < |store| && store[i] == e
  {
    i :| 0 <= i < |store| && store[i] == e;
  }

  /** A retraction in an orderly book sits after the event it targets. */
  lemma {:induction false} RetractionIsLater(store: seq<LedgerEvent>, i: nat, j: nat)
    requires RetractionsAreOrderly(store)
    requires i < |store| && j < |store| && Retracting(store[j], store[i].id)
    ensures i < j
  {
    var k :| 0 <= k < j && store[k].id == store[j].relatedEventId.value;
    assert k == i;
  }

  /** A retraction stands exactly when nothing retracts it: its own retraction can never be undone. */
  lemma {:induction false} RetractionStandsUnlessRetracted(store: seq<LedgerEvent>, j: nat)
    requires RetractionsAreOrderly(store)
    requires j < |store| && IsRetraction(store[j])
    ensures Stands(store, j) <==> !HasRetraction(store, store[j].id)
  {
    var t :| 0 <= t < j && store[t].id == store[j].relatedEventId.value;
    if HasRetraction(store, store[j].id) {
      var q :| q in store && Retracting(q, store[j].id);
      var k := IndexOf(store, q);
      RetractionIsLater(store, j, k);
      assert store[k] in store && store[j] in store;
      forall l | 0 <= l < |store| ensures !Retracting(store[l], store[k].id) {
        assert store[l] in store;
      }
      assert Stands(store, k);
    } else {
      forall k | 0 <= k < |store| ensures !Retracting(store[k], store[j].id) {
        assert store[k] in store;
      }
    }
  }

  /**
   * The recursive rule, the one-hop fold and the nested NOT EXISTS agree on every event of an orderly
   * book, and the recursive rule is the unique reading of "stands iff no standing retraction targets it".
   */
  lemma {:induction false} StandingHasOneMeaning(store: seq<LedgerEvent>, i: nat)
    requires RetractionsAreOrderly(store)
    requires i < |store|
    ensures Stands(store, i) <==> store[i].id !in RetractedIds(store)
    ensures Stands(store, i) <==> NotRetracted(store, store[i].id)
    ensures Stands(store, i)
            <==> !exists j :: 0 <= j < |store| && Retracting(store[j], store[i].id) && Stands(store, j)
  {
    OneHopIsNotExists(store, store[i].id);
    forall j | 0 <= j < |store| && Retracting(store[j], store[i].id)
      ensures i < j && (Stands(store, j) <==> !HasRetraction(store, store[j].id))
    {
      RetractionIsLater(store, i, j);
      RetractionStandsUnlessRetracted(store, j);
    }
    if !NotRetracted(store, store[i].id) {
      var r :| r in store && Retracting(r, store[i].id) && !HasRetraction(store, r.id);
      var j := IndexOf(store, r);
      assert Retracting(store[j], store[i].id) && Stands(store, j);
    }
  }

  // ---- order does not matter ----

  /** The fold depends only on which events are there, given one retraction per target. */
  lemma {:induction false} RetractedIdsIgnoreOrder(a: seq<LedgerEvent>, b: seq<LedgerEvent>)
    requires OneRetractionPerTarget(a)
    requires forall e :: e in a <==> e in b
    ensures RetractedIds(a) == RetractedIds(b)
  {
    assert OneRetractionPerTarget(b);
    forall id ensures id in RetractedIds(a) <==> id in RetractedIds(b) {
      OneHopIsNotExists(a, id);
      OneHopIsNotExists(b, id);
      forall t ensures HasRetraction(a, t) <==> HasRetraction(b, t) {
      }
    }
  }
}
