// A run of the submit protocol in which an acceptance is overwritten:
// treasury/src/core/application/use-cases/SubmitIntent.ts, lines 45-115.

module LateReplies {
  import opened Prelude
  import opened Moneys
  import opened Events
  import opened EventPayload
  import opened Validation
  import opened Ledger
  import opened Reissue
  import opened RetryProtocol
  import opened Acceptances
  import opened Admission
  import opened Submission
  import V = Staging
  import W = Witnesses

  const INTENT: string := "i"

  const WAIVER: string := "register_waiver"

  /** Any deployment, any payee and any date it can read. */
  datatype Case = Case(d: Deployment, payee: string, date: string)

  predicate Ready(k: Case) {
    k.payee != "" && k.d.instants(k.date).Some?
  }

  /** The user reverses an entitlement that was granted by mistake. */
  function Reversal(k: Case): map<string, string> {
    map["basis" := "reversal", "payee" := k.payee, "amount" := ToString(Money(100, "BRL")), "currency" := "BRL",
        "occurredAt" := k.date]
  }

  /** The command of another producer, which records the first event of the book. */
  function Unrelated(): Command {
    W.CommandOf(W.Accrual(W.P, 100), 1)
  }

  function ActionsOf(answers: map<string, string>): seq<Action> {
    [Start(INTENT, WAIVER, "u"), Answer(INTENT, answers, true),
     Submit(INTENT), Submit(INTENT),
     Handle(0, W.Name(2), 0),
     OtherProducer(Unrelated(), W.Name(1), 0),
     Handle(1, W.Name(2), 0),
     Deliver(1), Deliver(0)]
  }

  function Awaiting(answers: map<string, string>): IntentProps {
    IntentProps(INTENT, WAIVER, "u", AWAITING_CONFIRMATION, answers, None, None)
  }

  function Copy(answers: map<string, string>): IntentProps {
    Awaiting(answers).(status := SUBMITTED)
  }

  // ---- the candidate the mapper builds ----

  lemma {:induction false} TheWaiverIsNamed()
    ensures ScenarioNamed(WAIVER) == Some(RegisterWaiver)
  {
    assert |WAIVER| == 15;
  }

  predicate Says(a: Answers, slot: Slot, value: string) {
    slot in a && a[slot] == value
  }

  /** What the mapper reads in the answers. */
  predicate ReadsTheReversal(k: Case, a: Answers) {
    && Says(a, BasisSlot, "reversal") && Says(a, PayeeSlot, k.payee)
    && Says(a, AmountSlot, ToString(Money(100, "BRL"))) && Says(a, CurrencySlot, "BRL")
    && Says(a, OccurredAtSlot, k.date) && DueAtSlot !in a
  }

  lemma {:induction false} KeysDiffer()
    ensures "basis" != "payee" && "dueAt" != "basis" && "dueAt" != "payee"
    ensures |"basis"| == 5 && |"payee"| == 5 && |"dueAt"| == 5
    ensures |"amount"| == 6 && |"currency"| == 8 && |"occurredAt"| == 10
  {
    assert "dueAt"[0] == 'd' && "payee"[0] == 'p' && "basis"[0] == 'b';
  }

  lemma {:induction false} FiveAnswers(k: Case, b: string, p: string, m: string, c: string, o: string, other: string)
    requires b != p && other != b && other != p && |b| == |p| == |other| == 5 && |m| == 6 && |c| == 8 && |o| == 10
    ensures var answers := map[b := "reversal", p := k.payee, m := ToString(Money(100, "BRL")), c := "BRL", o := k.date];
      && b in answers && answers[b] == "reversal" && p in answers && answers[p] == k.payee
      && m in answers && answers[m] == ToString(Money(100, "BRL")) && c in answers && answers[c] == "BRL"
      && o in answers && answers[o] == k.date && other !in answers
  {
  }

  lemma {:induction false} TheReversalIsRead(k: Case)
    ensures ReadsTheReversal(k, AnswersOf(Reversal(k)))
  {
    KeysDiffer();
    FiveAnswers(k, "basis", "payee", "amount", "currency", "occurredAt", "dueAt");
  }

  lemma {:induction false} TheBasisIsReversal(a: Answers)
    requires Says(a, BasisSlot, "reversal")
    ensures Reversing(RegisterWaiver, a)
    ensures TemplatesOf(MappingOf(RegisterWaiver), a) == [ObjectTemplate(CommissionEntitlement, Reverses)]
  {
    assert |"waiver"| == 6 && |"reversal"| == 8;
    assert Lookup(WAIVER_BASES[1..], "reversal") == Some(TupleOverride(None, Some(Reverses)));
  }

  /** The candidate, and everything the Ledger will ask of it. */
  ghost predicate IsTheCandidate(k: Case, c: Candidate) {
    && BuiltFor(k.d, RegisterWaiver, Copy(Reversal(k))) == Ok(c)
    && Denoted(c) == Ok(Money(100, "BRL")) && AllNamed(c, "u")
    && c.sourceReference == Key(INTENT) && c.relatedEventId == None
    && (forall o :: o in c.objects ==> o.relation == Reverses)
  }

  lemma {:induction false} TheMoldOfTheWaiver()
    ensures var m := MappingOf(RegisterWaiver);
      m.relatedEventSlot == None && m.counterpartySlot == Some(PayeeSlot) && m.parties == BENEFICIARY_PARTIES
  {
  }

  lemma {:induction false} TheCandidateIsBuilt(k: Case) returns (c: Candidate)
    requires Ready(k)
    ensures IsTheCandidate(k, c)
  {
    var m := MappingOf(RegisterWaiver);
    var a := AnswersOf(Reversal(k));
    TheReversalIsRead(k);
    TheMoldOfTheWaiver();
    c := WhatIsBuilt(k, m, a);
    TheBasisIsReversal(a);
    TheAmountIsRead();
    TheObjectIsReversed(m, a, c);
  }

  lemma {:induction false} TheObjectIsReversed(m: Mapping, a: Answers, c: Candidate)
    requires TemplatesOf(m, a) == [ObjectTemplate(CommissionEntitlement, Reverses)] && c.objects == ObjectsOf(m, a, Key(INTENT))
    ensures forall o :: o in c.objects ==> o.relation == Reverses
  {
  }

  lemma {:induction false} WhatIsBuilt(k: Case, m: Mapping, a: Answers) returns (c: Candidate)
    requires Ready(k) && ReadsTheReversal(k, a)
    requires m.relatedEventSlot == None && m.counterpartySlot == Some(PayeeSlot) && m.parties == BENEFICIARY_PARTIES
    ensures Built(m, a, k.d.usina, Key(INTENT), k.d.unidentified, k.d.instants) == Ok(c)
    ensures c.amount == Some(ToString(Money(100, "BRL"))) && c.currency == Some("BRL")
    ensures c.objects == ObjectsOf(m, a, Key(INTENT)) && c.sourceReference == Key(INTENT) && c.relatedEventId == None
    ensures AllNamed(c, "u")
  {
    c := Built(m, a, k.d.usina, Key(INTENT), k.d.unidentified, k.d.instants).value;
    forall p | p in c.parties ensures OrEmpty(p.partyId) != "" {
      assert p == PartyOf(m, a, k.d.usina, m.parties[0]);
    }
  }

  /** The candidate as it is sent. */
  function Sent(k: Case, c: Candidate): Command {
    Submitted(c, "u", k.d.instant)
  }

  // ---- what the Ledger answers ----

  lemma {:induction false} TheReversalPassesTheGuards(store: seq<LedgerEvent>, cmd: Command, units: nat)
    requires cmd.relatedEventId == None && (forall o :: o in cmd.objects ==> o.relation == Reverses)
    ensures GuardRefusal(store, cmd, units).None?
  {
    W.NoSettlementNoRefusal(store, cmd.objects, units);
  }

  /** A store that knows nothing of the intent, by any of the names the event would carry. */
  predicate KnowsNothingOfIt(store: seq<LedgerEvent>) {
    forall e :: e in store ==> e.id != W.Name(2) && e.commandId != Some(Key(INTENT)) && e.source.reference != Key(INTENT)
  }

  lemma {:induction false} TheCommandIsNew(k: Case, store: seq<LedgerEvent>, c: Candidate)
    requires IsTheCandidate(k, c) && KnowsNothingOfIt(store)
    ensures IsNew(store, CommandFor(c, "u", k.d.instant), W.Name(2))
    ensures FindByCommandId(store, Key(INTENT)).None? && !ExistsBySourceReference(store, Key(INTENT))
  {
    FindByCommandIdFinds(store, Key(INTENT));
  }

  lemma {:induction false} TheValidatorPassesIt(k: Case, store: seq<LedgerEvent>, c: Candidate)
    requires IsTheCandidate(k, c) && KnowsNothingOfIt(store)
    ensures V.Failures(store, Sent(k, c)) == []
  {
    TheCommandIsNew(k, store, c);
    CandidatesAreWellStated(RegisterWaiver, AnswersOf(Reversal(k)), c, k.d.usina, Key(INTENT), k.d.unidentified, k.d.instants, "u", k.d.instant);
    V.PassesExactly(store, Sent(k, c));
  }

  /** How the write step decides it: refused on the empty book, recorded on any other. */
  lemma {:induction false} TheStepDecides(k: Case, store: seq<LedgerEvent>, c: Candidate)
    requires IsTheCandidate(k, c) && KnowsNothingOfIt(store)
    ensures var d := Decide(k.d.env, store, CommandFor(c, "u", k.d.instant), W.Name(2), 0);
      && (store == [] ==> d == Refuse(NotAdmissible(ReversalNeedsPreviousHash)))
      && (store != [] ==> d.Commit? && d.event.id == W.Name(2) && d.event.commandId == Some(Key(INTENT)))
  {
    var a := AnswersOf(Reversal(k));
    TheCommandIsNew(k, store, c);
    TheReversalIsRead(k);
    TheBasisIsReversal(a);
    TheMoldOfTheWaiver();
    TheReversalPassesTheGuards(store, CommandFor(c, "u", k.d.instant), 100);
    assert BringsItToTheBook(RegisterWaiver, a, store) <==> store != [];
    ReadableCandidatesAreDecided(
      k.d.env, store, RegisterWaiver, a, c, k.d.usina, Key(INTENT), k.d.unidentified, k.d.instants, "u", k.d.instant, W.Name(2), 0);
  }

  lemma {:induction false} DeliveredAfresh(site: Site, store: seq<LedgerEvent>, candidate: Command, key: string, id: string, now: int)
    requires UsesTheValidator(site) && FindByCommandId(store, key).None? && V.Failures(store, candidate) == []
    ensures Handled(site, store, candidate, key, id, now)
            == AnswerOf(store, Decide(site.env, store, ToCommand(candidate, key), id, now))
  {
  }

  lemma {:induction false} TheAnswer(k: Case, store: seq<LedgerEvent>, c: Candidate)
    requires IsTheCandidate(k, c) && KnowsNothingOfIt(store)
    ensures Handled(SiteOf(k.d), store, Sent(k, c), Key(INTENT), W.Name(2), 0)
            == AnswerOf(store, Decide(k.d.env, store, CommandFor(c, "u", k.d.instant), W.Name(2), 0))
  {
    TheCommandIsNew(k, store, c);
    TheValidatorPassesIt(k, store, c);
    DeliveredAfresh(SiteOf(k.d), store, Sent(k, c), Key(INTENT), W.Name(2), 0);
  }

  const REFUSED: Reasons := Refused(NotAdmissible(ReversalNeedsPreviousHash))

  /** A reversal needs an event to link to: the first request is refused. */
  lemma {:induction false} FirstRequestIsRefused(k: Case, c: Candidate)
    requires IsTheCandidate(k, c)
    ensures Handled(SiteOf(k.d), [], Sent(k, c), Key(INTENT), W.Name(2), 0) == Handling(Rejected(REFUSED), [])
  {
    TheAnswer(k, [], c);
    TheStepDecides(k, [], c);
  }

  /** Another producer records any event. */
  lemma {:induction false} AnEventIsRecorded(env: Env) returns (e: LedgerEvent)
    ensures After([], Decide(env, [], Unrelated(), W.Name(1), 0)) == [e] && KnowsNothingOfIt([e])
  {
    var p := W.Accrual(W.P, 100);
    W.CommandAsksFor(p, 1);
    W.OriginationPasses([], p);
    W.TheNextNameIsNew([], [], p);
    e := W.PlainCommits(env, [], W.CommandOf(p, 1), p, W.Name(1), 0);
    StrangersKnowNothingOfIt(e);
  }

  lemma {:induction false} StrangersKnowNothingOfIt(e: LedgerEvent)
    requires e.id == W.Name(1) && e.commandId == None && e.source.reference == W.Name(1)
    ensures KnowsNothingOfIt([e])
  {
    assert |W.Name(1)| == 1 && |W.Name(2)| == 2 && |Key(INTENT)| == 8;
  }

  /** There is an event to link to now: the second request is accepted. */
  lemma {:induction false} SecondRequestIsAccepted(k: Case, c: Candidate, e: LedgerEvent) returns (f: LedgerEvent)
    requires IsTheCandidate(k, c) && KnowsNothingOfIt([e])
    ensures Handled(SiteOf(k.d), [e], Sent(k, c), Key(INTENT), W.Name(2), 0) == Handling(Accepted(W.Name(2)), [e] + [f])
    ensures f.commandId == Some(Key(INTENT)) && f.id == W.Name(2)
  {
    TheAnswer(k, [e], c);
    TheStepDecides(k, [e], c);
    f := Decide(k.d.env, [e], CommandFor(c, "u", k.d.instant), W.Name(2), 0).event;
  }

  /** The refusal names no field, so nothing can be asked again. */
  lemma {:induction false} TheRefusalIsTerminal(k: Case)
    ensures !SiteOf(k.d).hasSlotToFix(Copy(Reversal(k)), REFUSED)
  {
    assert FieldsOf(REFUSED) == [];
  }

  // ---- the run, given what is sent and what is answered ----

  /** An intent that asks for a reversal and sends `sent`. */
  datatype Play = Play(site: Site, answers: map<string, string>, sent: Command)

  function TheCall(p: Play): Call {
    Call(Copy(p.answers), p.sent, true)
  }

  function Up(p: Play, n: nat): System
    requires n <= |ActionsOf(p.answers)|
  {
    RunOf(p.site, ActionsOf(p.answers)[..n])
  }

  lemma {:induction false} StepGives(p: Play, n: nat, s: System, a: Action, t: System)
    requires n < |ActionsOf(p.answers)| && ActionsOf(p.answers)[n] == a && Up(p, n) == s && Next(p.site, s, a) == t
    ensures Up(p, n + 1) == t
  {
    var actions := ActionsOf(p.answers);
    assert actions[..n + 1] == actions[..n] + [actions[n]];
    OneMore(p.site, actions[..n], actions[n]);
  }

  /** The state with the submissions, the book and the replies so far; every submission still waits. */
  function Waiting(p: Play, calls: nat, store: seq<LedgerEvent>, replies: seq<Reply>): System {
    System.System(store, map[INTENT := Awaiting(p.answers)], seq(calls, i => TheCall(p)), replies)
  }

  lemma {:induction false} Step2(p: Play)
    ensures Up(p, 2) == Waiting(p, 0, [], [])
  {
    var started := System.System([], map[INTENT := Started(INTENT, WAIVER, "u")], [], []);
    assert Up(p, 0) == INITIAL;
    StepGives(p, 0, INITIAL, Start(INTENT, WAIVER, "u"), started);
    assert map[] + p.answers == p.answers;
    StepGives(p, 1, started, Answer(INTENT, p.answers, true), Waiting(p, 0, [], []));
  }

  ghost predicate Sends(p: Play) {
    Begun(p.site, map[INTENT := Awaiting(p.answers)], INTENT) == Some(TheCall(p)) && p.sent.sourceReference == Key(INTENT)
  }

  lemma {:induction false} OneMoreSubmission(p: Play, n: nat)
    requires Sends(p)
    ensures Next(p.site, Waiting(p, n, [], []), Submit(INTENT)) == Waiting(p, n + 1, [], [])
  {
    Submitting(p.site, Waiting(p, n, [], []), INTENT, TheCall(p));
    assert seq(n, i => TheCall(p)) + [TheCall(p)] == seq(n + 1, i => TheCall(p));
  }

  lemma {:induction false} Step4(p: Play)
    requires Sends(p)
    ensures Up(p, 4) == Waiting(p, 2, [], [])
  {
    Step2(p);
    OneMoreSubmission(p, 0);
    StepGives(p, 2, Waiting(p, 0, [], []), Submit(INTENT), Waiting(p, 1, [], []));
    OneMoreSubmission(p, 1);
    StepGives(p, 3, Waiting(p, 1, [], []), Submit(INTENT), Waiting(p, 2, [], []));
  }

  const REPLY1: Reply := Reply(0, Rejected(REFUSED))

  const REPLY2: Reply := Reply(1, Accepted(W.Name(2)))

  /** Handling either request only adds its reply to what is waited with. */
  lemma {:induction false} WaitingOn(p: Play, store: seq<LedgerEvent>, replies: seq<Reply>, n: nat, h: Handling)
    requires n < 2 && p.sent.sourceReference == Key(INTENT)
    requires Handled(p.site, store, p.sent, Key(INTENT), W.Name(2), 0) == h
    ensures Next(p.site, Waiting(p, 2, store, replies), Handle(n, W.Name(2), 0)) == Waiting(p, 2, h.store, replies + [Reply(n, h.outcome)])
  {
    HandlingReplies(p.site, Waiting(p, 2, store, replies), n, W.Name(2), 0, h);
  }

  lemma {:induction false} Step5(p: Play)
    requires Sends(p) && Handled(p.site, [], p.sent, Key(INTENT), W.Name(2), 0) == Handling(Rejected(REFUSED), [])
    ensures Up(p, 5) == Waiting(p, 2, [], [REPLY1])
  {
    Step4(p);
    WaitingOn(p, [], [], 0, Handling(Rejected(REFUSED), []));
    assert [] + [REPLY1] == [REPLY1];
    StepGives(p, 4, Waiting(p, 2, [], []), Handle(0, W.Name(2), 0), Waiting(p, 2, [], [REPLY1]));
  }

  lemma {:induction false} OthersRecord(site: Site, s: System, command: Command, id: string, now: int, store: seq<LedgerEvent>)
    requires After(s.store, Decide(site.env, s.store, command, id, now)) == store
    ensures Next(site, s, OtherProducer(command, id, now)) == s.(store := store)
  {
  }

  lemma {:induction false} Step6(p: Play, e: LedgerEvent)
    requires Up(p, 5) == Waiting(p, 2, [], [REPLY1]) && After([], Decide(p.site.env, [], Unrelated(), W.Name(1), 0)) == [e]
    ensures Up(p, 6) == Waiting(p, 2, [e], [REPLY1])
  {
    OthersRecord(p.site, Waiting(p, 2, [], [REPLY1]), Unrelated(), W.Name(1), 0, [e]);
    StepGives(p, 5, Waiting(p, 2, [], [REPLY1]), OtherProducer(Unrelated(), W.Name(1), 0), Waiting(p, 2, [e], [REPLY1]));
  }

  lemma {:induction false} Step7(p: Play, e: LedgerEvent, store: seq<LedgerEvent>)
    requires Up(p, 6) == Waiting(p, 2, [e], [REPLY1]) && p.sent.sourceReference == Key(INTENT)
    requires Handled(p.site, [e], p.sent, Key(INTENT), W.Name(2), 0) == Handling(Accepted(W.Name(2)), store)
    ensures Up(p, 7) == Waiting(p, 2, store, [REPLY1, REPLY2])
  {
    WaitingOn(p, [e], [REPLY1], 1, Handling(Accepted(W.Name(2)), store));
    assert [REPLY1] + [REPLY2] == [REPLY1, REPLY2];
    StepGives(p, 6, Waiting(p, 2, [e], [REPLY1]), Handle(1, W.Name(2), 0), Waiting(p, 2, store, [REPLY1, REPLY2]));
  }

  function AfterAcceptance(p: Play, store: seq<LedgerEvent>): System {
    System.System(
      store, map[INTENT := Copy(p.answers).(status := ACCEPTED, ledgerReference := Some(W.Name(2)))],
      [TheCall(p), TheCall(p).(open := false)], [REPLY1, REPLY2])
  }

  function AfterRejection(p: Play, store: seq<LedgerEvent>): System {
    System.System(
      store, map[INTENT := Copy(p.answers).(status := REJECTED, rejectionReason := Some(REFUSED))],
      [TheCall(p).(open := false), TheCall(p).(open := false)], [REPLY1, REPLY2])
  }

  lemma {:induction false} AcceptanceArrives(p: Play, store: seq<LedgerEvent>)
    ensures Next(p.site, Waiting(p, 2, store, [REPLY1, REPLY2]), Deliver(1)) == AfterAcceptance(p, store)
  {
    var s := Waiting(p, 2, store, [REPLY1, REPLY2]);
    Delivering(p.site, s, 1, Copy(p.answers).(status := ACCEPTED, ledgerReference := Some(W.Name(2))));
    assert Closed(s.calls, 1) == [TheCall(p), TheCall(p).(open := false)];
  }

  lemma {:induction false} RejectionArrives(p: Play, store: seq<LedgerEvent>)
    requires !p.site.hasSlotToFix(Copy(p.answers), REFUSED)
    ensures Next(p.site, AfterAcceptance(p, store), Deliver(0)) == AfterRejection(p, store)
  {
    var s := AfterAcceptance(p, store);
    Delivering(p.site, s, 0, Copy(p.answers).(status := REJECTED, rejectionReason := Some(REFUSED)));
    assert Closed(s.calls, 0) == [TheCall(p).(open := false), TheCall(p).(open := false)];
  }

  lemma {:induction false} RejectionIsPending(p: Play, store: seq<LedgerEvent>)
    ensures IsAccepted(AfterAcceptance(p, store), INTENT) && PendingRejection(AfterAcceptance(p, store), INTENT)
  {
    assert IsPending(AfterAcceptance(p, store), 0, INTENT);
  }

  /** Where the run ends, and where it stood one step before. */
  lemma {:induction false} Step9(p: Play, store: seq<LedgerEvent>)
    requires Up(p, 7) == Waiting(p, 2, store, [REPLY1, REPLY2]) && !p.site.hasSlotToFix(Copy(p.answers), REFUSED)
    ensures Up(p, 8) == AfterAcceptance(p, store) && Up(p, 9) == AfterRejection(p, store)
  {
    AcceptanceArrives(p, store);
    StepGives(p, 7, Waiting(p, 2, store, [REPLY1, REPLY2]), Deliver(1), AfterAcceptance(p, store));
    RejectionArrives(p, store);
    StepGives(p, 8, AfterAcceptance(p, store), Deliver(0), AfterRejection(p, store));
  }

  // ---- the run of the reversal ----

  function PlayOf(k: Case, c: Candidate): Play {
    Play(SiteOf(k.d), Reversal(k), Sent(k, c))
  }

  lemma {:induction false} ItIsBegun(site: Site, intents: map<string, IntentProps>, intentId: string, candidate: Command)
    requires intentId in intents && intents[intentId].status == AWAITING_CONFIRMATION
    requires CandidateOf(site, intents[intentId].(status := SUBMITTED)) == Some(candidate)
    ensures Begun(site, intents, intentId) == Some(Call(intents[intentId].(status := SUBMITTED), candidate, true))
  {
  }

  lemma {:induction false} TheReversalIsSent(k: Case, c: Candidate)
    requires IsTheCandidate(k, c)
    ensures Sends(PlayOf(k, c))
  {
    TheWaiverIsNamed();
    CandidatesCarryTheKey(k.d, Copy(Reversal(k)), RegisterWaiver);
    ItIsBegun(SiteOf(k.d), map[INTENT := Awaiting(Reversal(k))], INTENT, Sent(k, c));
  }

  lemma {:induction false} UpToTheReplies(k: Case, c: Candidate) returns (store: seq<LedgerEvent>, f: LedgerEvent)
    requires IsTheCandidate(k, c)
    ensures f in store && f.commandId == Some(Key(INTENT)) && f.id == W.Name(2)
    ensures Up(PlayOf(k, c), 7) == Waiting(PlayOf(k, c), 2, store, [REPLY1, REPLY2])
  {
    TheReversalIsSent(k, c);
    FirstRequestIsRefused(k, c);
    Step5(PlayOf(k, c));
    var e := AnEventIsRecorded(k.d.env);
    Step6(PlayOf(k, c), e);
    f := SecondRequestIsAccepted(k, c, e);
    store := [e] + [f];
    Step7(PlayOf(k, c), e, store);
  }

  lemma {:induction false} TheRun(k: Case, c: Candidate) returns (store: seq<LedgerEvent>, f: LedgerEvent)
    requires IsTheCandidate(k, c)
    ensures f in store && f.commandId == Some(Key(INTENT)) && f.id == W.Name(2)
    ensures Up(PlayOf(k, c), 8) == AfterAcceptance(PlayOf(k, c), store)
    ensures Up(PlayOf(k, c), 9) == AfterRejection(PlayOf(k, c), store)
  {
    store, f := UpToTheReplies(k, c);
    TheRefusalIsTerminal(k);
    Step9(PlayOf(k, c), store);
  }

  lemma {:induction false} OverwritingNeedsOverlap(p: Play, store: seq<LedgerEvent>)
    requires Up(p, 8) == AfterAcceptance(p, store) && Up(p, 9) == AfterRejection(p, store)
    ensures !NoOverlap(p.site, ActionsOf(p.answers), INTENT)
  {
    var actions := ActionsOf(p.answers);
    RejectionIsPending(p, store);
    assert actions[..8] + [Deliver(0)] == actions[..9] == actions;
    if NoOverlap(p.site, actions, INTENT) {
      UpToTheAcceptance(p.site, actions);
      AcceptancesAreFinalWithoutOverlap(p.site, actions[..8], [Deliver(0)], INTENT);
    }
  }

  lemma {:induction false} UpToTheAcceptance(site: Site, actions: seq<Action>)
    requires NoOverlap(site, actions, INTENT) && |actions| == 9
    ensures NoOverlap(site, actions[..8], INTENT)
  {
    forall i | 0 <= i < 8 && actions[..8][i] == Submit(INTENT) ensures NoOverlapAt(site, actions[..8], i, INTENT) {
      assert actions[i] == Submit(INTENT) && NoOverlapAt(site, actions, i, INTENT);
      assert actions[..8][..i] == actions[..i];
    }
  }

  /** The acceptance stands before the last step, with the rejection pending, and is gone after it. */
  ghost predicate Overwritten(before: System, after: System) {
    && IsAccepted(before, INTENT) && PendingRejection(before, INTENT)
    && INTENT in after.intents && after.intents[INTENT].status == REJECTED && after.intents[INTENT].ledgerReference.None?
    && exists e :: e in after.store && e.commandId == Some(Key(INTENT)) && Some(e.id) == before.intents[INTENT].ledgerReference
  }

  lemma {:induction false} ItIsOverwritten(p: Play, store: seq<LedgerEvent>, f: LedgerEvent)
    requires f in store && f.commandId == Some(Key(INTENT)) && f.id == W.Name(2)
    ensures Overwritten(AfterAcceptance(p, store), AfterRejection(p, store))
  {
    RejectionIsPending(p, store);
  }

  /**
   * A run from the start, in any deployment: an entitlement is reversed by two overlapping submissions of one
   * intent while the book is empty. The first is refused, as it has nothing to link to; another producer records
   * an event; the second is recorded. The acceptance is delivered, then the refusal, which names no field to ask
   * again: the book holds the intent's event and the intent says rejected.
   */
  lemma {:induction false} ALateRejectionOverwritesAnAcceptance(k: Case)
    requires Ready(k)
    ensures Overwritten(RunOf(SiteOf(k.d), ActionsOf(Reversal(k))[..8]), RunOf(SiteOf(k.d), ActionsOf(Reversal(k))))
    ensures !NoOverlap(SiteOf(k.d), ActionsOf(Reversal(k)), INTENT)
  {
    var c := TheCandidateIsBuilt(k);
    var store, f := TheRun(k, c);
    ItIsOverwritten(PlayOf(k, c), store, f);
    assert ActionsOf(Reversal(k))[..9] == ActionsOf(Reversal(k));
    OverwritingNeedsOverlap(PlayOf(k, c), store);
  }
}
