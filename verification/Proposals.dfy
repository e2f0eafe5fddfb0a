// Books written by Treasury alone, under the cash statement: the parties `build` of
// treasury/src/core/application/services/CandidateMapper.ts gives a candidate, against
// ledger/src/core/application/services/CashStatementService.ts.

module Proposals {
  import opened Prelude
  import opened Moneys
  import opened Events
  import opened Reissue
  import opened Ledger
  import opened Provenance
  import opened CashFlows
  import opened Admission
  import opened Submission

  // ---- who is on which side of a proposal ----

  /** The counterparty's side of a cash event: it paid what came in, and was paid what went out, and moved nothing. */
  predicate AcrossFrom(p: Party, effect: Effect, counterparty: string) {
    p.partyId == counterparty && p.direction == Neutral && p.role == (if effect == CashIn then Payer else Payee)
  }

  /** The usina moves a cash event; the counterparty answered is across from it. */
  ghost predicate UsinaMoves(e: LedgerEvent, usina: string, counterparty: string) {
    && (e.effect == CashIn ==> OnLeg(e, usina, In) && ShareOf(Received(usina), e) == e.amount.units)
    && (e.effect == CashOut ==> OnLeg(e, usina, Out) && ShareOf(Paid(usina), e) == e.amount.units)
    && (MovesCash(e) ==> exists p :: p in e.parties && AcrossFrom(p, e.effect, counterparty))
  }

  function CounterpartyOf(s: Scenario, a: Answers): string {
    var slot := MappingOf(s).counterpartySlot;
    if slot.Some? then OrEmpty(Answer(a, slot.value)) else ""
  }

  /** The sides a mapping of a cash effect declares. */
  lemma {:induction false} SidesOfCashScenarios(s: Scenario)
    ensures var m := MappingOf(s);
      MovesCashAs(m.effect) ==>
        && |m.parties| == 2 && m.counterpartySlot.Some?
        && m.parties[0].who == Usina && m.parties[0].direction == (if m.effect == CashIn then In else Out)
        && m.parties[1].who == Counterparty && m.parties[1].direction == Neutral
        && m.parties[1].role == (if m.effect == CashIn then Payer else Payee)
  {
    MoldsFit(s);
    ScenariosAreWellShaped(s);
    var m := MappingOf(s);
    if MovesCashAs(m.effect) {
      assert m.parties[1] in m.parties;
    }
  }

  predicate MovesCashAs(effect: Effect) {
    effect == CashIn || effect == CashOut
  }

  /** An event that says what a built candidate asked for has the usina on its moving leg. */
  lemma {:induction false} BuiltSides(
      m: Mapping, a: Answers, c: Candidate, d: Deployment, key: string, userId: string, e: LedgerEvent, now: int)
    requires Built(m, a, d.usina, key, d.unidentified, d.instants) == Ok(c)
    requires SaysWhatWasAsked(CommandFor(c, userId, d.instant), e, now)
    ensures e.effect == m.effect && |e.parties| == |m.parties|
    ensures forall i :: 0 <= i < |e.parties| ==>
      && e.parties[i].role == m.parties[i].role && e.parties[i].direction == m.parties[i].direction
      && e.parties[i].partyId
         == if m.parties[i].who == Usina then d.usina
            else if m.counterpartySlot.Some? then OrEmpty(Answer(a, m.counterpartySlot.value)) else ""
  {
    forall i | 0 <= i < |c.parties| ensures c.parties[i] == PartyOf(m, a, d.usina, m.parties[i]) {
    }
  }

  lemma {:induction false} SidesMakeTheMove(e: LedgerEvent, usina: string, counterparty: string)
    requires MovesCash(e) && |e.parties| == 2
    requires e.parties[0].partyId == usina && e.parties[0].direction == if e.effect == CashIn then In else Out
    requires AcrossFrom(e.parties[1], e.effect, counterparty)
    ensures UsinaMoves(e, usina, counterparty)
  {
    assert e.parties[0] in e.parties && e.parties[1] in e.parties;
  }

  /** Every payment Treasury proposes is recorded as made by the usina, and every receipt as its own. */
  lemma {:induction false} TheUsinaMovesWhatIsBuilt(
      s: Scenario, a: Answers, c: Candidate, d: Deployment, key: string, userId: string, e: LedgerEvent, now: int)
    requires Built(MappingOf(s), a, d.usina, key, d.unidentified, d.instants) == Ok(c)
    requires SaysWhatWasAsked(CommandFor(c, userId, d.instant), e, now)
    ensures UsinaMoves(e, d.usina, CounterpartyOf(s, a))
  {
    BuiltSides(MappingOf(s), a, c, d, key, userId, e, now);
    SidesOfCashScenarios(s);
    if MovesCash(e) {
      SidesMakeTheMove(e, d.usina, CounterpartyOf(s, a));
    }
  }

  // ---- what was answered, as it is recorded ----

  /**
   * What is recorded is what was answered: the instants, the amount, the description and the origin, under the
   * intent's own key, reported by the user who confirmed it.
   */
  lemma {:induction false} WhatIsRecordedWasAnswered(
      s: Scenario, a: Answers, c: Candidate, d: Deployment, key: string, userId: string, e: LedgerEvent, now: int)
    requires Built(MappingOf(s), a, d.usina, key, d.unidentified, d.instants) == Ok(c)
    requires SaysWhatWasAsked(CommandFor(c, userId, d.instant), e, now)
    ensures OccurredAtSlot in a && d.instants(a[OccurredAtSlot]).Some?
    ensures e.occurredAt == d.instant(d.instants(a[OccurredAtSlot]).value) && e.recordedAt == now
    ensures Stated(a, Some(DueAtSlot)).None? ==> e.dueAt == None
    ensures Stated(a, Some(DueAtSlot)).Some? ==>
      d.instants(a[DueAtSlot]).Some? && e.dueAt == Some(d.instant(d.instants(a[DueAtSlot]).value))
    ensures FromDecimal(OrEmpty(Answer(a, AmountSlot)), OrEmpty(Answer(a, CurrencySlot))) == Ok(e.amount)
    ensures e.description == if Truthy(Answer(a, DescriptionSlot)) then Answer(a, DescriptionSlot) else None
    ensures e.relatedEventId == Stated(a, MappingOf(s).relatedEventSlot)
    ensures e.source.reference == key && e.commandId == Some(key) && e.sourceAt == None
    ensures e.reporter.reporterType == User && e.reporter.reporterId == userId && e.reporter.channel == "web"
  {
    BuiltFromAnswers(MappingOf(s), a, c, d, key);
  }

  lemma {:induction false} BuiltFromAnswers(m: Mapping, a: Answers, c: Candidate, d: Deployment, key: string)
    requires Built(m, a, d.usina, key, d.unidentified, d.instants) == Ok(c)
    ensures OccurredAtSlot in a && d.instants(a[OccurredAtSlot]) == Some(c.occurredAt)
    ensures Stated(a, Some(DueAtSlot)).Some? ==> d.instants(a[DueAtSlot]).Some? && c.dueAt == d.instants(a[DueAtSlot])
    ensures Stated(a, Some(DueAtSlot)).None? ==> c.dueAt == None
    ensures c.amount == Answer(a, AmountSlot) && c.currency == Answer(a, CurrencySlot) && c.sourceReference == key
    ensures c.description == (if Truthy(Answer(a, DescriptionSlot)) then Answer(a, DescriptionSlot) else None)
    ensures c.relatedEventId == Stated(a, m.relatedEventSlot)
  {
  }

  // ---- books of proposals ----

  /** One submission that reached the write step. */
  datatype Proposal = Proposal(scenario: Scenario, answers: Answers, key: string, userId: string, id: string, now: int)

  function CandidateFor(d: Deployment, p: Proposal): Result<Candidate, BuildError> {
    Built(MappingOf(p.scenario), p.answers, d.usina, p.key, d.unidentified, d.instants)
  }

  predicate AllBuilt(d: Deployment, proposals: seq<Proposal>) {
    forall p :: p in proposals ==> CandidateFor(d, p).Ok?
  }

  function StepFor(d: Deployment, p: Proposal): Step
    requires CandidateFor(d, p).Ok?
  {
    Step(CommandFor(CandidateFor(d, p).value, p.userId, d.instant), p.id, p.now)
  }

  function StepsFor(d: Deployment, proposals: seq<Proposal>): seq<Step>
    requires AllBuilt(d, proposals)
  {
    seq(|proposals|, i requires 0 <= i < |proposals| => StepFor(d, proposals[i]))
  }

  lemma {:induction false} TheUsinaMovesEveryBook(d: Deployment, proposals: seq<Proposal>, e: LedgerEvent)
    requires AllBuilt(d, proposals) && e in Run(d.env, StepsFor(d, proposals)) && MovesCash(e)
    ensures OnLeg(e, d.usina, if e.effect == CashIn then In else Out)
  {
    var steps := StepsFor(d, proposals);
    EveryEventWasAsked(d.env, steps, e);
    var i :| 0 <= i < |steps| && AskedBy(steps[i], e);
    var p := proposals[i];
    assert p in proposals && steps[i] == StepFor(d, p);
    TheUsinaMovesWhatIsBuilt(p.scenario, p.answers, CandidateFor(d, p).value, d, p.key, p.userId, e, p.now);
  }

  /**
   * On every book that Treasury's proposals alone have written, whatever was answered, refused or retracted, cash
   * statements of adjacent periods join: each closes with what the next one opens with.
   */
  lemma {:induction false} StatementsOfTreasurysBooksJoin(d: Deployment, proposals: seq<Proposal>, from: int, to: int)
    requires AllBuilt(d, proposals) && from <= to + 1
    ensures var store := Run(d.env, StepsFor(d, proposals));
      Closing(store, d.usina, from, to) == NetBefore(store, to + 1)
  {
    var store := Run(d.env, StepsFor(d, proposals));
    forall e | e in store && MovesCash(e) ensures OnLeg(e, d.usina, if e.effect == CashIn then In else Out) {
      TheUsinaMovesEveryBook(d, proposals, e);
    }
    AdjacentStatementsJoin(store, d.usina, from, to);
  }
}
