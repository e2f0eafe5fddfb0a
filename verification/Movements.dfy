// The listing of cash movements against the cash statement: what findCashMovementsPaginated of
// ledger/src/infra/persistence/memory/InMemoryLedgerEventRepository.ts lists is what
// ledger/src/core/application/services/CashStatementService.ts sums.

module Movements {
  import opened Prelude
  import opened Events
  import opened Validation
  import opened Retraction
  import opened Figures
  import opened CashFlows
  import opened Pagination

  /** The party moved the event's cash: it received what came in, or paid what went out. */
  predicate MovedBy(e: LedgerEvent, party: string) {
    || (e.effect == CashIn && OnLeg(e, party, In))
    || (e.effect == CashOut && OnLeg(e, party, Out))
  }

  /**
   * What is listed, filter by filter: the standing cash events of the book, of the effect asked for, that occurred
   * at or after the one bound and at or before the other, and that the party moved.
   */
  lemma {:induction false} MovementsAreListedExactly(store: seq<LedgerEvent>, q: Query, e: LedgerEvent)
    requires UniqueIds(store)
    ensures e in Listing(store, q) <==>
      && e in store && e.id !in RetractedIds(store) && MovesCash(e)
      && (q.effect.None? || e.effect == q.effect.value)
      && (q.from.None? || q.from.value <= e.occurredAt)
      && (q.to.None? || e.occurredAt <= q.to.value)
      && (!Truthy(q.partyId) || MovedBy(e, q.partyId.value))
  {
    ListingIsTheOrderedMatches(store, q);
  }

  /** The instant of the axis asked for. */
  function InstantOf(e: LedgerEvent, recorded: bool): int {
    if recorded then e.recordedAt else e.occurredAt
  }

  /** They are listed by the instant asked for, earlier first or later first as asked, and by id where it is the same. */
  lemma {:induction false} MovementsAreListedInOrder(store: seq<LedgerEvent>, q: Query, i: nat, j: nat)
    requires UniqueIds(store) && i < j < |Listing(store, q)|
    ensures var a, b := Listing(store, q)[i], Listing(store, q)[j];
      var s, t := InstantOf(a, q.axis == RecordedAt), InstantOf(b, q.axis == RecordedAt);
      && (q.ascending ==> s < t || (s == t && Less(a.id, b.id)))
      && (!q.ascending ==> t < s || (s == t && Less(b.id, a.id)))
  {
    ListingIsTheOrderedMatches(store, q);
  }

  // ---- what is listed adds up to what is stated ----

  /** The listing of a party's movements in a period, whatever the page size and the order. */
  predicate ListsPeriod(q: Query, party: string, from: int, to: int) {
    q.partyId == Some(party) && party != "" && q.effect == None && q.from == Some(from) && q.to == Some(to)
  }

  lemma {:induction false} FilteredSums(store: seq<LedgerEvent>, retracted: set<string>, q: Query, party: string, from: int, to: int)
    requires ListsPeriod(q, party, from, to)
    ensures StandingSum(Filtered(store, retracted, q), {}, CashInFlow)
            == WindowSum(store, retracted, Received(party), Some(from), Some(to + 1))
    ensures StandingSum(Filtered(store, retracted, q), {}, CashOutFlow)
            == WindowSum(store, retracted, Paid(party), Some(from), Some(to + 1))
  {
    if store != [] {
      var n := |store| - 1;
      FilteredSums(store[..n], retracted, q, party, from, to);
      SumOfOneMore(Filtered(store[..n], retracted, q), store[n], {}, CashInFlow);
      SumOfOneMore(Filtered(store[..n], retracted, q), store[n], {}, CashOutFlow);
      MatchesOfThePeriod(store[n], retracted, q, party, from, to);
    }
  }

  lemma {:induction false} MatchesOfThePeriod(e: LedgerEvent, retracted: set<string>, q: Query, party: string, from: int, to: int)
    requires ListsPeriod(q, party, from, to)
    ensures Matches(e, retracted, q) <==> e.id !in retracted && from <= e.occurredAt <= to && MovedBy(e, party)
  {
    assert Moves(e, party, In) == OnLeg(e, party, In) && Moves(e, party, Out) == OnLeg(e, party, Out);
  }

  /** The cash a list of events brings in and takes out. */
  function AmountIn(events: seq<LedgerEvent>): int {
    StandingSum(events, {}, CashInFlow)
  }

  function AmountOut(events: seq<LedgerEvent>): int {
    StandingSum(events, {}, CashOutFlow)
  }

  /** The movements listed for a party and a period add up to what the statement says it received and paid. */
  lemma {:induction false} TheListingAddsUpToTheStatement(store: seq<LedgerEvent>, q: Query, party: string, from: int, to: int)
    requires UniqueIds(store) && ListsPeriod(q, party, from, to)
    ensures AmountIn(Listing(store, q)) == InPeriod(store, Received(party), from, to)
    ensures AmountOut(Listing(store, q)) == InPeriod(store, Paid(party), from, to)
  {
    var filtered := Filtered(store, RetractedIds(store), q);
    SortPermutes(q, filtered);
    SumIgnoresOrder(Listing(store, q), filtered, {}, CashInFlow);
    SumIgnoresOrder(Listing(store, q), filtered, {}, CashOutFlow);
    FilteredSums(store, RetractedIds(store), q, party, from, to);
  }

  /** The listing of everyone's movements before an instant. */
  predicate ListsBefore(q: Query, instant: int) {
    q.partyId == None && q.effect == None && q.from == None && q.to == Some(instant - 1)
  }

  lemma {:induction false} FilteredBefore(store: seq<LedgerEvent>, retracted: set<string>, q: Query, instant: int)
    requires ListsBefore(q, instant)
    ensures StandingSum(Filtered(store, retracted, q), {}, CashInFlow)
            == WindowSum(store, retracted, CashReceived, None, Some(instant))
    ensures StandingSum(Filtered(store, retracted, q), {}, CashOutFlow)
            == WindowSum(store, retracted, CashPaid, None, Some(instant))
  {
    if store != [] {
      var n := |store| - 1;
      FilteredBefore(store[..n], retracted, q, instant);
      SumOfOneMore(Filtered(store[..n], retracted, q), store[n], {}, CashInFlow);
      SumOfOneMore(Filtered(store[..n], retracted, q), store[n], {}, CashOutFlow);
    }
  }

  /** The opening balance of a statement is what came in less what went out by every movement listed before it. */
  lemma {:induction false} TheOpeningIsWhatWasListedBefore(store: seq<LedgerEvent>, q: Query, instant: int)
    requires UniqueIds(store) && ListsBefore(q, instant)
    ensures NetBefore(store, instant) == AmountIn(Listing(store, q)) - AmountOut(Listing(store, q))
  {
    var filtered := Filtered(store, RetractedIds(store), q);
    SortPermutes(q, filtered);
    SumIgnoresOrder(Listing(store, q), filtered, {}, CashInFlow);
    SumIgnoresOrder(Listing(store, q), filtered, {}, CashOutFlow);
    FilteredBefore(store, RetractedIds(store), q, instant);
  }

  /** And so do the pages of a walk over it, however small the pages. */
  lemma {:induction false} ThePagesAddUpToTheStatement(
      store: seq<LedgerEvent>, stores: seq<seq<LedgerEvent>>, q: Query, party: string, from: int, to: int)
    requires AllAre(stores, store) && UniqueIds(store) && q.limit >= 1 && |stores| > |Listing(store, q)|
    requires ListsPeriod(q, party, from, to)
    ensures AmountIn(Served(stores, q, None)) == InPeriod(store, Received(party), from, to)
    ensures AmountOut(Served(stores, q, None)) == InPeriod(store, Paid(party), from, to)
  {
    FollowingTheCursorServesTheListing(store, stores, q);
    TheListingAddsUpToTheStatement(store, q, party, from, to);
  }

  // ---- what the statement says is what the parties' legs say ----

  /** The amounts of a party's own legs. */
  function LegsOf(parties: seq<Party>, party: string, direction: Direction): int {
    if parties == [] then 0
    else
      var p := parties[|parties| - 1];
      LegsOf(parties[..|parties| - 1], party, direction)
      + (if p.partyId == party && p.direction == direction && p.amount.Some? then p.amount.value.units else 0)
  }

  /** Nobody else is on that leg. */
  predicate AloneOn(parties: seq<Party>, party: string, direction: Direction) {
    forall p :: p in parties && p.direction == direction ==> p.partyId == party
  }

  lemma {:induction false} LegsOfTheOnlyOne(parties: seq<Party>, party: string, direction: Direction)
    requires AloneOn(parties, party, direction)
    ensures LegsOf(parties, party, direction) == Legs(parties, direction)
  {
    if parties != [] {
      var n := |parties| - 1;
      assert parties[n] in parties;
      LegsOfTheOnlyOne(parties[..n], party, direction);
    }
  }

  lemma {:induction false} NoLegNoAmount(parties: seq<Party>, direction: Direction)
    requires forall p :: p in parties ==> p.direction != direction
    ensures Legs(parties, direction) == 0
  {
    if parties != [] {
      assert parties[|parties| - 1] in parties;
      NoLegNoAmount(parties[..|parties| - 1], direction);
    }
  }

  /**
   * Of a valid event, where nobody else is on the leg that moves: what the statement counts as received by a party
   * is what its own IN legs carry, and as paid what its OUT legs carry, in a cash event; and nothing in any other.
   */
  lemma {:induction false} SharesAreTheLegs(e: LedgerEvent, party: string)
    requires IsValid(e) && MovesCash(e)
    ensures e.effect == CashIn && AloneOn(e.parties, party, In) ==> ShareOf(Received(party), e) == LegsOf(e.parties, party, In)
    ensures e.effect == CashOut && AloneOn(e.parties, party, Out) ==> ShareOf(Paid(party), e) == LegsOf(e.parties, party, Out)
    ensures e.effect == CashIn ==> ShareOf(Paid(party), e) == 0
    ensures e.effect == CashOut ==> ShareOf(Received(party), e) == 0
  {
    LegsFollowTheEffect(e);
    var direction := if e.effect == CashIn then In else Out;
    if AloneOn(e.parties, party, direction) {
      LegsOfTheOnlyOne(e.parties, party, direction);
      if !OnLeg(e, party, direction) {
        NoLegNoAmount(e.parties, direction);
      }
    }
  }
}
