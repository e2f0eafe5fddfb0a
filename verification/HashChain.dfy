// What the hash of the last event says about the whole book:
// ledger/src/core/domain/value-objects/EventHash.ts under CreateLedgerEventUseCase.ts.

module HashChain {
  import opened Events
  import opened Canonical
  import opened EventPayload
  import opened Ledger

  ghost predicate SameHistory(a: seq<LedgerEvent>, b: seq<LedgerEvent>) {
    |a| == |b| && forall i :: 0 <= i < |a| ==> HashedFieldsOf(a[i]) == HashedFieldsOf(b[i])
  }

  /** Without collisions, two events hash alike exactly when they agree on every hashed field. */
  lemma {:induction false} HashesCompareHashedFields(env: Env, a: LedgerEvent, b: LedgerEvent)
    requires CollisionFree(env.hash) && IsoIsInjective(env.iso)
    ensures HashOf(env, a) == HashOf(env, b) <==> HashedFieldsOf(a) == HashedFieldsOf(b)
  {
    CanonicalizeIsInjective(Payload(env, a), Payload(env, b));
    PayloadsAgreeOnHashedFields(env, a, b);
    var x, y := Canonicalize(Payload(env, a)), Canonicalize(Payload(env, b));
    assert env.hash(x) == env.hash(y) ==> x == y;
  }

  ghost predicate CarriesItsHash(env: Env, e: LedgerEvent) {
    e.hash == HashOf(env, e)
  }

  ghost predicate Linked(env: Env, store: seq<LedgerEvent>) {
    Chained(store) && forall i :: 0 <= i < |store| ==> CarriesItsHash(env, store[i])
  }

  lemma {:induction false} PrefixIsLinked(env: Env, store: seq<LedgerEvent>)
    requires store != [] && Linked(env, store)
    ensures Linked(env, store[..|store| - 1])
    ensures store[|store| - 1].previousHash == LastEventHash(store[..|store| - 1])
  {
    var n := |store| - 1;
    forall i | 0 <= i < n ensures store[..n][i].previousHash == LastEventHash(store[..n][..i]) {
      assert store[..n][..i] == store[..i];
    }
    forall i | 0 <= i < n ensures CarriesItsHash(env, store[..n][i]) {
      assert CarriesItsHash(env, store[i]);
    }
  }

  lemma {:induction false} StoredHashesCompareHashedFields(env: Env, a: LedgerEvent, b: LedgerEvent)
    requires CollisionFree(env.hash) && IsoIsInjective(env.iso)
    requires CarriesItsHash(env, a) && CarriesItsHash(env, b)
    ensures a.hash == b.hash <==> HashedFieldsOf(a) == HashedFieldsOf(b)
    ensures a.hash == b.hash ==> a.previousHash == b.previousHash
  {
    HashesCompareHashedFields(env, a, b);
    assert HashedFieldsOf(a) == HashedFieldsOf(b) ==> HashedFieldsOf(a).previousHash == HashedFieldsOf(b).previousHash;
  }

  lemma {:induction false} HistoriesOfOneMore(a: seq<LedgerEvent>, b: seq<LedgerEvent>)
    requires a != [] && b != []
    ensures SameHistory(a, b)
            <==> SameHistory(a[..|a| - 1], b[..|b| - 1]) && HashedFieldsOf(a[|a| - 1]) == HashedFieldsOf(b[|b| - 1])
  {
    var m, n := |a| - 1, |b| - 1;
    if SameHistory(a[..m], b[..n]) && HashedFieldsOf(a[m]) == HashedFieldsOf(b[n]) {
      forall i | 0 <= i < |a| ensures HashedFieldsOf(a[i]) == HashedFieldsOf(b[i]) {
        if i < m {
          assert a[..m][i] == a[i] && b[..n][i] == b[i];
        }
      }
    }
    if SameHistory(a, b) {
      forall i | 0 <= i < m ensures HashedFieldsOf(a[..m][i]) == HashedFieldsOf(b[..n][i]) {
        assert a[..m][i] == a[i] && b[..n][i] == b[i];
      }
    }
  }

  lemma {:induction false} EqualHeads(env: Env, a: seq<LedgerEvent>, b: seq<LedgerEvent>)
    requires CollisionFree(env.hash) && IsoIsInjective(env.iso)
    requires Linked(env, a) && Linked(env, b)
    ensures LastEventHash(a) == LastEventHash(b) <==> SameHistory(a, b)
  {
    if a != [] && b != [] {
      var m, n := |a| - 1, |b| - 1;
      StoredHashesCompareHashedFields(env, a[m], b[n]);
      PrefixIsLinked(env, a);
      PrefixIsLinked(env, b);
      EqualHeads(env, a[..m], b[..n]);
      HistoriesOfOneMore(a, b);
    }
  }

  lemma {:induction false} WellFormedBooksAreLinked(env: Env, store: seq<LedgerEvent>)
    requires WellFormed(env, store)
    ensures Linked(env, store)
  {
    forall i | 0 <= i < |store| ensures CarriesItsHash(env, store[i]) {
      assert store[i] in store;
    }
  }

  /**
   * Two books built by the write step have one head hash exactly when they are equally long and agree on
   * every hashed field of every event, given a collision-free digest.
   */
  lemma {:induction false} OneHeadHashOneHistory(env: Env, a: seq<LedgerEvent>, b: seq<LedgerEvent>)
    requires CollisionFree(env.hash) && IsoIsInjective(env.iso)
    requires Reachable(env, a) && Reachable(env, b)
    ensures LastEventHash(a) == LastEventHash(b) <==> SameHistory(a, b)
  {
    var s :| Run(env, s) == a;
    var t :| Run(env, t) == b;
    RunsAreWellFormed(env, s);
    RunsAreWellFormed(env, t);
    WellFormedBooksAreLinked(env, a);
    WellFormedBooksAreLinked(env, b);
    EqualHeads(env, a, b);
  }
}
