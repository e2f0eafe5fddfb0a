// What is asked again is what was wrong: ledger/src/core/application/services/RejectionCatalog.ts over
// treasury/src/core/application/use-cases/SubmitIntent.ts, lines 76-106.

module Faults {
  import opened Prelude
  import opened Moneys
  import opened Events
  import opened Validation
  import opened Retraction
  import opened EventPayload
  import opened Ledger
  import opened Reissue
  import Retry = RetryProtocol
  import opened Admission
  import opened Submission
  import opened Guards
  import V = Staging

  // ---- what is wrong with an answer ----

  /** Absent, no decimal, zero, or more than some position it settles has left. */
  ghost predicate AmountIsWrong(store: seq<LedgerEvent>, a: Answers, cmd: Command) {
    var amount := OrEmpty(Answer(a, AmountSlot));
    || FromDecimal(amount, cmd.currency) == Err(InvalidDecimalFormat)
    || (FromDecimal(amount, cmd.currency).Ok?
        && var units := FromDecimal(amount, cmd.currency).value.units;
           units == 0 || exists o :: o in cmd.objects && o.relation == Settles && !Fits(store, o.objectId, units))
  }

  /** Not stated, or naming no event of the book that the contract allows. */
  ghost predicate OriginIsWrong(store: seq<LedgerEvent>, a: Answers, slot: Slot, cmd: Command) {
    Stated(a, Some(slot)).None? || !OriginIsThere(store, cmd) || !OriginIsAllowed(store, cmd)
  }

  ghost predicate IsWrong(store: seq<LedgerEvent>, m: Mapping, a: Answers, slot: Slot, cmd: Command) {
    if slot == AmountSlot then AmountIsWrong(store, a, cmd)
    else if slot == CurrencySlot || m.counterpartySlot == Some(slot) then !Truthy(Answer(a, slot))
    else m.relatedEventSlot == Some(slot) && OriginIsWrong(store, a, slot, cmd)
  }

  lemma {:induction false} EmptyIsNoDecimal(currency: string)
    ensures FromDecimal("", currency) == Err(InvalidDecimalFormat)
  {
  }

  // ---- what the validator finds ----

  /** What each failure the user can answer for says of the record. */
  lemma {:induction false} WhatFailuresSay(store: seq<LedgerEvent>, r: Command, f: V.StagingFailure)
    requires f in V.Failures(store, r)
    ensures f == V.MissingAmount ==> r.amount == ""
    ensures f == V.InvalidAmount ==> FromDecimal(r.amount, r.currency) == Err(InvalidDecimalFormat)
    ensures f == V.MissingCurrency ==> r.currency == ""
  {
    if f in V.UnnamedParties(r.parties) {
      V.UnnamedPartiesAreUnnamed(r.parties, f);
    }
    if f in V.UnnamedObjects(r.objects) {
      V.UnnamedObjectsAreObjects(r.objects, f);
    }
  }

  lemma {:induction false} UnnamedCounterpartyIsUnanswered(c: Candidate, m: Mapping, a: Answers, usina: string, i: nat)
    requires usina != "" && WellShaped(m) && c.parties == PartiesOf(m, a, usina)
    requires i < |c.parties| && OrEmpty(c.parties[i].partyId) == ""
    ensures m.counterpartySlot.Some? && !Truthy(Answer(a, m.counterpartySlot.value))
  {
    assert c.parties[i] == PartyOf(m, a, usina, m.parties[i]) && m.parties[i] in m.parties;
  }

  lemma {:induction false} FailedSlotsAreWrong(
      store: seq<LedgerEvent>, r: Command, c: Candidate, m: Mapping, a: Answers, usina: string, f: V.StagingFailure, slot: Slot)
    requires usina != "" && WellShaped(m) && c.parties == PartiesOf(m, a, usina) && r.parties == SubmittedParties(c)
    requires r.amount == OrEmpty(Answer(a, AmountSlot)) && r.currency == OrEmpty(Answer(a, CurrencySlot))
    requires f in V.Failures(store, r) && FieldOfFailure(f).Some? && SlotOf(m, FieldOfFailure(f).value) == Some(slot)
    ensures IsWrong(store, m, a, slot, r)
  {
    WhatFailuresSay(store, r, f);
    EmptyIsNoDecimal(r.currency);
    if f.PartyWithoutId? {
      V.UnnamedPartiesArePointedAt(store, r, f);
      UnnamedCounterpartyIsUnanswered(c, m, a, usina, f.party);
    }
  }

  // ---- what the write step refuses ----

  lemma {:induction false} OverSettlementsDoNotFit(env: Env, store: seq<LedgerEvent>, c: Command, id: string, now: int, refusal: Refusal)
    requires Decide(env, store, c, id, now) == Refuse(refusal) && refusal.OverSettlement?
    ensures FromDecimal(c.amount, c.currency).Ok?
    ensures exists o :: o in c.objects && o.relation == Settles && !Fits(store, o.objectId, FromDecimal(c.amount, c.currency).value.units)
  {
    var units := FromDecimal(c.amount, c.currency).value.units;
    SettlementsAreAdmittedExactly(store, c.objects, units);
  }

  lemma {:induction false} RefusedOriginsAreWrong(env: Env, store: seq<LedgerEvent>, c: Command, id: string, now: int, refusal: Refusal)
    requires UniqueIds(store) && Decide(env, store, c, id, now) == Refuse(refusal)
    requires refusal == OriginNotFound || refusal == OriginOfWrongType
    ensures !OriginIsThere(store, c) || !OriginIsAllowed(store, c)
  {
    WhereRefusalsComeFrom(env, store, c, id, now, refusal);
    var money := FromDecimal(c.amount, c.currency).value;
    if DecideEvent(env, store, c, money, id, now) == Refuse(refusal) {
      WhatRecordingRefuses(env, store, c, money, id, now);
    }
    SettlementsAreRefusedForTheirUnits(store, c.objects, money.units);
    OriginsAreAdmittedExactly(store, c);
  }

  lemma {:induction false} MissingLinksAreMissingOrigins(s: Scenario, a: Answers, e: LedgerEvent, violation: Violation)
    requires MissingLink(s, a, e) == Some(violation) && FieldOfViolation(violation).Some?
    ensures e.relatedEventId.None? && violation != ZeroAmount
  {
  }

  /** The command asks for the amount answered, and relates to the origin stated. */
  predicate AsksAsAnswered(m: Mapping, a: Answers, c: Candidate, cmd: Command) {
    && cmd.amount == OrEmpty(Answer(a, AmountSlot)) && cmd.currency == OrEmpty(c.currency) && c.amount == Answer(a, AmountSlot)
    && cmd.relatedEventId == c.relatedEventId == Stated(a, m.relatedEventSlot)
  }

  lemma {:induction false} BuiltAsAnswered(m: Mapping, a: Answers, c: Candidate, d: Deployment, key: string, userId: string)
    requires Built(m, a, d.usina, key, d.unidentified, d.instants) == Ok(c)
    ensures AsksAsAnswered(m, a, c, Submitted(c, userId, d.instant))
  {
  }

  lemma {:induction false} ZeroAmountsAreWrong(store: seq<LedgerEvent>, m: Mapping, a: Answers, c: Candidate, cmd: Command)
    requires AsksAsAnswered(m, a, c, cmd) && Denoted(c).Ok? && Denoted(c).value.units == 0
    ensures IsWrong(store, m, a, AmountSlot, cmd)
  {
  }

  lemma {:induction false} UnstatedOriginsAreWrong(store: seq<LedgerEvent>, m: Mapping, a: Answers, slot: Slot, cmd: Command)
    requires WellShaped(m) && m.relatedEventSlot == Some(slot) && Stated(a, m.relatedEventSlot).None?
    ensures IsWrong(store, m, a, slot, cmd)
  {
  }

  lemma {:induction false} FieldsOfRules(violation: Violation)
    requires FieldOfViolation(violation).Some?
    ensures violation in {ZeroAmount, LineageRequired, RetractionNeedsTarget}
    ensures violation == ZeroAmount ==> FieldOfViolation(violation) == Some(AmountField)
    ensures violation != ZeroAmount ==> FieldOfViolation(violation) == Some(RelatedEventField)
  {
  }

  lemma {:induction false} RefusedRulesAreWrong(
      store: seq<LedgerEvent>, s: Scenario, a: Answers, c: Candidate, d: Deployment, key: string, userId: string,
      id: string, now: int, violation: Violation, slot: Slot)
    requires Built(MappingOf(s), a, d.usina, key, d.unidentified, d.instants) == Ok(c)
    requires Decide(d.env, store, CommandFor(c, userId, d.instant), id, now) == Refuse(NotAdmissible(violation))
    requires FieldOfViolation(violation).Some? && SlotOf(MappingOf(s), FieldOfViolation(violation).value) == Some(slot)
    ensures IsWrong(store, MappingOf(s), a, slot, Submitted(c, userId, d.instant))
  {
    var e := RefusedProposals(store, s, a, c, d, key, userId, id, now, violation);
    BuiltAsAnswered(MappingOf(s), a, c, d, key, userId);
    FieldsOfRules(violation);
    if Denoted(c).value.units == 0 {
      ZeroAmountsAreWrong(store, MappingOf(s), a, c, Submitted(c, userId, d.instant));
    } else {
      ScenariosAreWellShaped(s);
      MissingLinksAreMissingOrigins(s, a, e, violation);
      UnstatedOriginsAreWrong(store, MappingOf(s), a, slot, Submitted(c, userId, d.instant));
    }
  }

  lemma {:induction false} TooMuchIsWrong(
      env: Env, store: seq<LedgerEvent>, m: Mapping, a: Answers, c: Candidate, cmd: Command, key: string, id: string, now: int, refusal: Refusal)
    requires AsksAsAnswered(m, a, c, cmd) && refusal.OverSettlement?
    requires Decide(env, store, Retry.ToCommand(cmd, key), id, now) == Refuse(refusal)
    ensures IsWrong(store, m, a, AmountSlot, cmd)
  {
    OverSettlementsDoNotFit(env, store, Retry.ToCommand(cmd, key), id, now, refusal);
  }

  lemma {:induction false} DisallowedOriginsAreWrong(
      env: Env, store: seq<LedgerEvent>, m: Mapping, a: Answers, cmd: Command, key: string, id: string, now: int, refusal: Refusal, slot: Slot)
    requires UniqueIds(store) && WellShaped(m) && m.relatedEventSlot == Some(slot)
    requires refusal == OriginNotFound || refusal == OriginOfWrongType
    requires Decide(env, store, Retry.ToCommand(cmd, key), id, now) == Refuse(refusal)
    ensures IsWrong(store, m, a, slot, cmd)
  {
    RefusedOriginsAreWrong(env, store, Retry.ToCommand(cmd, key), id, now, refusal);
    OriginsOfTheSameCommand(store, Retry.ToCommand(cmd, key), cmd);
  }

  lemma {:induction false} OriginsOfTheSameCommand(store: seq<LedgerEvent>, c: Command, d: Command)
    requires c.relatedEventId == d.relatedEventId && c.eventType == d.eventType
    ensures OriginIsThere(store, c) == OriginIsThere(store, d) && OriginIsAllowed(store, c) == OriginIsAllowed(store, d)
  {
  }

  lemma {:induction false} FieldsOfRefusals(refusal: Refusal)
    requires FieldOfRefusal(refusal).Some? && !refusal.NotAdmissible?
    ensures refusal.OverSettlement? || refusal == OriginNotFound || refusal == OriginOfWrongType
    ensures FieldOfRefusal(refusal) == Some(if refusal.OverSettlement? then AmountField else RelatedEventField)
  {
  }

  lemma {:induction false} RefusedSlotsAreWrong(
      store: seq<LedgerEvent>, s: Scenario, a: Answers, c: Candidate, d: Deployment, key: string, userId: string,
      id: string, now: int, refusal: Refusal, slot: Slot)
    requires UniqueIds(store) && Built(MappingOf(s), a, d.usina, key, d.unidentified, d.instants) == Ok(c)
    requires Decide(d.env, store, CommandFor(c, userId, d.instant), id, now) == Refuse(refusal)
    requires FieldOfRefusal(refusal).Some? && SlotOf(MappingOf(s), FieldOfRefusal(refusal).value) == Some(slot)
    ensures IsWrong(store, MappingOf(s), a, slot, Submitted(c, userId, d.instant))
  {
    if refusal.NotAdmissible? {
      RefusedRulesAreWrong(store, s, a, c, d, key, userId, id, now, refusal.violation, slot);
    } else {
      ScenariosAreWellShaped(s);
      BuiltAsAnswered(MappingOf(s), a, c, d, key, userId);
      OtherRefusalsAreWrong(d.env, store, MappingOf(s), a, c, Submitted(c, userId, d.instant), c.sourceReference, id, now, refusal, slot);
    }
  }

  lemma {:induction false} OtherRefusalsAreWrong(
      env: Env, store: seq<LedgerEvent>, m: Mapping, a: Answers, c: Candidate, cmd: Command, key: string, id: string, now: int,
      refusal: Refusal, slot: Slot)
    requires UniqueIds(store) && WellShaped(m) && AsksAsAnswered(m, a, c, cmd) && !refusal.NotAdmissible?
    requires Decide(env, store, Retry.ToCommand(cmd, key), id, now) == Refuse(refusal)
    requires FieldOfRefusal(refusal).Some? && SlotOf(m, FieldOfRefusal(refusal).value) == Some(slot)
    ensures IsWrong(store, m, a, slot, cmd)
  {
    FieldsOfRefusals(refusal);
    if refusal.OverSettlement? {
      TooMuchIsWrong(env, store, m, a, c, cmd, key, id, now, refusal);
    } else {
      DisallowedOriginsAreWrong(env, store, m, a, cmd, key, id, now, refusal, slot);
    }
  }

  /**
   * Every slot a rejection asks again holds an answer that is wrong: an amount that is absent, no decimal, zero or
   * too much; a currency or a counterparty that is absent; an origin not stated, not in the book, or not allowed.
   */
  lemma {:induction false} WhatIsAskedAgainWasWrong(
      d: Deployment, store: seq<LedgerEvent>, s: Scenario, a: Answers, c: Candidate, key: string, userId: string, id: string, now: int,
      reason: Retry.Reasons, field: Field, slot: Slot)
    requires d.usina != "" && UniqueIds(store) && Built(MappingOf(s), a, d.usina, key, d.unidentified, d.instants) == Ok(c)
    requires Retry.Handled(SiteOf(d), store, Submitted(c, userId, d.instant), key, id, now).outcome == Retry.Rejected(reason)
    requires field in FieldsOf(reason) && SlotOf(MappingOf(s), field) == Some(slot)
    ensures IsWrong(store, MappingOf(s), a, slot, Submitted(c, userId, d.instant))
  {
    WhatRejectionsAre(SiteOf(d), store, Submitted(c, userId, d.instant), key, id, now, reason);
    if reason.Unstaged? {
      FieldsComeFromFailures(reason.failures, field);
      var f :| f in reason.failures && FieldOfFailure(f) == Some(field);
      ScenariosAreWellShaped(s);
      FailedSlotsAreWrong(store, Submitted(c, userId, d.instant), c, MappingOf(s), a, d.usina, f, slot);
    } else {
      RefusedSlotsAreWrong(store, s, a, c, d, key, userId, id, now, reason.refusal, slot);
    }
  }
}
