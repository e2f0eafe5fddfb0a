// What a committed event says, and where it says it comes from:
// ledger/src/core/application/use-cases/CreateLedgerEventUseCase.ts, lines 39-59 and 135-202.

module Provenance {
  import opened Prelude
  import opened Moneys
  import opened Events
  import opened Catalog
  import opened Validation
  import opened EventPayload
  import opened Ledger

  /** A party of the event is the command's, with the amount its text denotes, or none when it states none. */
  predicate SameParty(asked: CommandParty, p: Party, currency: string) {
    && p.partyId == asked.partyId && p.role == asked.role && p.direction == asked.direction
    && (if Truthy(asked.amount) then p.amount.Some? && FromDecimal(asked.amount.value, currency) == Ok(p.amount.value)
        else p.amount.None?)
  }

  /** Parties are read one by one, in order; they are unreadable exactly when one of the stated amounts is. */
  lemma {:induction false} PartiesAreRead(parties: seq<CommandParty>, currency: string)
    ensures ReadParties(parties, currency).Ok? <==>
      forall p :: p in parties && Truthy(p.amount) ==> FromDecimal(p.amount.value, currency).Ok?
    ensures ReadParties(parties, currency).Ok? ==>
      var read := ReadParties(parties, currency).value;
      |read| == |parties| && forall i :: 0 <= i < |parties| ==> SameParty(parties[i], read[i], currency)
  {
    if parties != [] {
      var n := |parties| - 1;
      PartiesAreRead(parties[..n], currency);
      assert parties == parties[..n] + [parties[n]];
    }
  }

  /** The event says what the command asked for, neither more nor less, at the instant of its recording. */
  predicate SaysWhatWasAsked(c: Command, e: LedgerEvent, now: int) {
    && e.eventType == c.eventType && e.effect == c.effect
    && e.occurredAt == c.occurredAt && e.recordedAt == now && e.sourceAt == c.sourceAt && e.dueAt == c.dueAt
    && FromDecimal(c.amount, c.currency) == Ok(e.amount) && e.description == c.description
    && e.source == Source(c.sourceSystem, c.sourceReference)
    && e.normalization == Normalization(c.normalizationVersion, c.normalizationWorkerId)
    && e.commandId == c.commandId && e.relatedEventId == c.relatedEventId
    && |e.parties| == |c.parties| && (forall i :: 0 <= i < |c.parties| ==> SameParty(c.parties[i], e.parties[i], c.currency))
    && e.objects == c.objects && e.reason == c.reason
    && e.reporter == Reporter(c.reporterType, c.reporterId, c.reporterName, now, c.channel)
  }

  lemma {:induction false} CommittedMoney(env: Env, store: seq<LedgerEvent>, c: Command, id: string, now: int) returns (money: Money)
    requires Decide(env, store, c, id, now).Commit?
    ensures FromDecimal(c.amount, c.currency) == Ok(money)
    ensures Decide(env, store, c, id, now) == DecideEvent(env, store, c, money, id, now)
  {
    money := FromDecimal(c.amount, c.currency).value;
  }

  lemma {:induction false} CommittedParties(env: Env, store: seq<LedgerEvent>, c: Command, money: Money, id: string, now: int)
    returns (parties: seq<Party>)
    requires DecideEvent(env, store, c, money, id, now).Commit?
    ensures ReadParties(c.parties, c.currency) == Ok(parties)
    ensures DecideEvent(env, store, c, money, id, now).event == Sealed(env, Draft(store, c, money, parties, id, now))
  {
    parties := ReadParties(c.parties, c.currency).value;
  }

  lemma {:induction false} DraftSaysWhatWasAsked(
      env: Env, store: seq<LedgerEvent>, c: Command, money: Money, parties: seq<Party>, id: string, now: int)
    requires FromDecimal(c.amount, c.currency) == Ok(money) && ReadParties(c.parties, c.currency) == Ok(parties)
    ensures SaysWhatWasAsked(c, Sealed(env, Draft(store, c, money, parties, id, now)), now)
  {
    PartiesAreRead(c.parties, c.currency);
  }

  lemma {:induction false} EventsSayWhatWasAsked(env: Env, store: seq<LedgerEvent>, c: Command, id: string, now: int)
    requires Decide(env, store, c, id, now).Commit?
    ensures SaysWhatWasAsked(c, Decide(env, store, c, id, now).event, now)
  {
    var money := CommittedMoney(env, store, c, id, now);
    var parties := CommittedParties(env, store, c, money, id, now);
    DraftSaysWhatWasAsked(env, store, c, money, parties, id, now);
  }

  ghost predicate WasAsked(steps: seq<Step>, e: LedgerEvent) {
    exists i :: 0 <= i < |steps| && AskedBy(steps[i], e)
  }

  predicate AskedBy(s: Step, e: LedgerEvent) {
    e.id == s.id && SaysWhatWasAsked(s.command, e, s.now)
  }

  /** Nothing is in a book that no command of its run asked for: every event says what one of them did. */
  lemma {:induction false} EveryEventWasAsked(env: Env, steps: seq<Step>, e: LedgerEvent)
    requires e in Run(env, steps)
    ensures WasAsked(steps, e)
  {
    var n := |steps| - 1;
    var before := Run(env, steps[..n]);
    if e in before {
      EveryEventWasAsked(env, steps[..n], e);
      var i :| 0 <= i < n && AskedBy(steps[..n][i], e);
      assert AskedBy(steps[i], e);
    } else {
      LastWasAsked(env, before, steps[n], e);
      assert AskedBy(steps[n], e);
    }
  }

  lemma {:induction false} LastWasAsked(env: Env, store: seq<LedgerEvent>, s: Step, e: LedgerEvent)
    requires e in After(store, Decide(env, store, s.command, s.id, s.now)) && e !in store
    ensures AskedBy(s, e)
  {
    var d := Decide(env, store, s.command, s.id, s.now);
    CommittedEvent(env, store, s.command, s.id, s.now);
    EventsSayWhatWasAsked(env, store, s.command, s.id, s.now);
    assert e == d.event;
  }

  // ---- lineage ----

  /** The event's origin is in `store`, and of a type its contract allows. */
  ghost predicate HasAllowedOrigin(store: seq<LedgerEvent>, e: LedgerEvent)
    requires e.relatedEventId.Some?
  {
    var allowed := ContractOf(e.eventType).allowedOrigins;
    exists o :: o in store && o.id == e.relatedEventId.value && (allowed.Some? ==> o.eventType in allowed.value)
  }

  /** An event names an allowed origin recorded before it, or names none and its contract can do without. */
  ghost predicate Sourced(store: seq<LedgerEvent>, e: LedgerEvent) {
    && (Truthy(e.relatedEventId) ==> HasAllowedOrigin(store, e))
    && (!Truthy(e.relatedEventId) && ContractOf(e.eventType).requiresRelatedEventId ==> DeclaresUnresolvedOrigin(e))
    && e.source.system != "" && e.source.reference != "" && e.normalization.version != "" && e.normalization.workerId != ""
  }

  ghost predicate Traceable(store: seq<LedgerEvent>) {
    forall j :: 0 <= j < |store| ==> Sourced(store[..j], store[j])
  }

  /** What passing the guards and the value objects gives. */
  lemma {:induction false} CommittedCommand(env: Env, store: seq<LedgerEvent>, c: Command, id: string, now: int)
    requires Decide(env, store, c, id, now).Commit?
    ensures LineageRefusal(store, c).None? && IsValid(Decide(env, store, c, id, now).event)
    ensures c.sourceSystem != "" && c.sourceReference != "" && c.normalizationVersion != "" && c.normalizationWorkerId != ""
  {
  }

  lemma {:induction false} LineageIsAllowed(store: seq<LedgerEvent>, c: Command, e: LedgerEvent)
    requires LineageRefusal(store, c).None? && Truthy(c.relatedEventId)
    requires e.relatedEventId == c.relatedEventId && e.eventType == c.eventType
    ensures HasAllowedOrigin(store, e)
  {
    FindByIdFinds(store, c.relatedEventId.value);
  }

  lemma {:induction false} PassedIsSourced(store: seq<LedgerEvent>, c: Command, e: LedgerEvent, now: int)
    requires LineageRefusal(store, c).None? && IsValid(e) && SaysWhatWasAsked(c, e, now)
    requires c.sourceSystem != "" && c.sourceReference != "" && c.normalizationVersion != "" && c.normalizationWorkerId != ""
    ensures Sourced(store, e)
  {
    if Truthy(e.relatedEventId) {
      LineageIsAllowed(store, c, e);
    } else if ContractOf(e.eventType).requiresRelatedEventId {
      ValidEventsDeclareMissingOrigins(e);
    }
  }

  lemma {:induction false} CommittedEventIsSourced(env: Env, store: seq<LedgerEvent>, c: Command, id: string, now: int)
    requires Decide(env, store, c, id, now).Commit?
    ensures Sourced(store, Decide(env, store, c, id, now).event)
  {
    CommittedCommand(env, store, c, id, now);
    EventsSayWhatWasAsked(env, store, c, id, now);
    PassedIsSourced(store, c, Decide(env, store, c, id, now).event, now);
  }

  lemma {:induction false} ValidEventsDeclareMissingOrigins(e: LedgerEvent)
    requires IsValid(e) && !Truthy(e.relatedEventId) && ContractOf(e.eventType).requiresRelatedEventId
    ensures DeclaresUnresolvedOrigin(e)
  {
  }

  /**
   * On every reachable book each event names an origin recorded before it and of a type its contract allows,
   * or names none where it may, or declares its origin unresolved; and each says who produced it.
   */
  lemma {:induction false} EveryBookIsTraceable(env: Env, steps: seq<Step>)
    ensures Traceable(Run(env, steps))
  {
    if steps != [] {
      var n := |steps| - 1;
      var s := steps[n];
      var before := Run(env, steps[..n]);
      EveryBookIsTraceable(env, steps[..n]);
      var d := Decide(env, before, s.command, s.id, s.now);
      if d.Commit? {
        CommittedEventIsSourced(env, before, s.command, s.id, s.now);
        OneMoreIsTraceable(before, d.event);
      }
    }
  }

  lemma {:induction false} OneMoreIsTraceable(store: seq<LedgerEvent>, e: LedgerEvent)
    requires Traceable(store) && Sourced(store, e)
    ensures Traceable(store + [e])
  {
    var after := store + [e];
    forall j | 0 <= j < |after| ensures Sourced(after[..j], after[j]) {
      if j < |store| {
        assert after[..j] == store[..j];
      } else {
        assert after[..j] == store;
      }
    }
  }
}
