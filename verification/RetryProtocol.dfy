// The submit protocol between Treasury and the Ledger:
// ledger/src/core/application/use-cases/SubmitCandidateUseCase.ts,
// treasury/src/core/application/use-cases/SubmitIntent.ts, treasury/src/core/domain/entities/Intent.ts and
// treasury/src/infra/persistence/InMemoryIntentRepository.ts.

module RetryProtocol {
  import opened Prelude
  import opened Events
  import opened EventPayload
  import opened Ledger
  import opened Retraction
  import opened Staging

  // ---- the Ledger's half ----

  datatype Outcome = Accepted(ledgerReference: string) | Rejected(reason: Reasons)

  datatype Reasons = Unstaged(failures: seq<StagingFailure>) | Refused(refusal: Refusal)

  /**
   * The parts of the deployment the protocol does not depend on: the digest, the candidate an intent's answers
   * make, absent where the mapper throws, what the validator finds wrong with a record on its own, and whether a
   * rejection names a slot of the scenario to ask again.
   */
  datatype Site = Site(
    env: Env,
    candidateOf: IntentProps -> Option<Command>,
    schemaFailures: Command -> seq<StagingFailure>,
    hasSlotToFix: (IntentProps, Reasons) -> bool)

  const SOURCE_SYSTEM: string := "integration"

  const NORMALIZATION_VERSION: string := "1.0"

  const NORMALIZATION_WORKER: string := "user-app-submit"

  /** The candidate with the Ledger's own ingestion metadata. */
  function ToCommand(candidate: Command, idempotencyKey: string): Command {
    candidate.(
      sourceSystem := SOURCE_SYSTEM,
      normalizationVersion := NORMALIZATION_VERSION,
      normalizationWorkerId := NORMALIZATION_WORKER,
      commandId := Some(idempotencyKey))
  }

  function FailuresOf(site: Site, store: seq<LedgerEvent>, candidate: Command): seq<StagingFailure> {
    site.schemaFailures(candidate) + Duplicates(store, candidate.sourceReference)
  }

  /** The site validates with the validator of the pipeline. */
  ghost predicate UsesTheValidator(site: Site) {
    forall r :: site.schemaFailures(r) == SchemaFailures(r)
  }

  datatype Handling = Handling(outcome: Outcome, store: seq<LedgerEvent>)

  function AnswerOf(store: seq<LedgerEvent>, d: Decision): Handling {
    Handling(if d.Refuse? then Rejected(Refused(d.refusal)) else Accepted(d.event.id), After(store, d))
  }

  /** What one delivery of a candidate does to the book, and what it answers. */
  function Handled(site: Site, store: seq<LedgerEvent>, candidate: Command, key: string, id: string, now: int): Handling {
    var existing := FindByCommandId(store, key);
    if existing.Some? then Handling(Accepted(existing.value.id), store)
    else if FailuresOf(site, store, candidate) != [] then
      Handling(Rejected(Unstaged(FailuresOf(site, store, candidate))), store)
    else AnswerOf(store, Decide(site.env, store, ToCommand(candidate, key), id, now))
  }

  class SubmitCandidateUseCase {
    const site: Site
    const validator: StagingRecordValidator
    const createUseCase: CreateLedgerEventUseCase

    constructor (site: Site, validator: StagingRecordValidator, createUseCase: CreateLedgerEventUseCase)
      ensures this.site == site && this.validator == validator && this.createUseCase == createUseCase
    {
      this.site := site;
      this.validator := validator;
      this.createUseCase := createUseCase;
    }

    method Execute(input: Command, idempotencyKey: string, id: string, now: int) returns (outcome: Outcome)
      requires createUseCase.env == site.env && createUseCase.Valid()
      requires UsesTheValidator(site) && validator.ledgerRepo == createUseCase.repository
      modifies createUseCase.repository
      ensures createUseCase.Valid()
      ensures Handling(outcome, createUseCase.repository.store)
              == Handled(site, old(createUseCase.repository.store), input, idempotencyKey, id, now)
    {
      var store := createUseCase.repository.store;
      var existing := FindByCommandId(store, idempotencyKey);
      if existing.Some? { return Accepted(existing.value.id); }
      var failures := validator.Validate(input);
      if |failures| > 0 { return Rejected(Unstaged(failures)); }
      var event := createUseCase.Execute(ToCommand(input, idempotencyKey), id, now);
      match event {
        case Ok(e) => outcome := Accepted(e.id);
        case Err(refusal) => outcome := Rejected(Refused(refusal));
      }
    }
  }

  // ---- the intent ----

  datatype IntentStatus = GATHERING | AWAITING_CONFIRMATION | SUBMITTED | AWAITING_CORRECTION | ACCEPTED | REJECTED

  datatype IntentProps = IntentProps(
    id: string,
    scenarioId: string,
    userId: string,
    status: IntentStatus,
    answers: map<string, string>,
    ledgerReference: Option<string>,
    rejectionReason: Option<Reasons>)

  function Started(id: string, scenarioId: string, userId: string): IntentProps {
    IntentProps(id, scenarioId, userId, GATHERING, map[], None, None)
  }

  /** The intent after a batch of recorded answers; `ready` says that no required slot is left. */
  function Answered(p: IntentProps, answers: map<string, string>, ready: bool): IntentProps {
    p.(answers := p.answers + answers, status := if ready then AWAITING_CONFIRMATION else GATHERING)
  }

  /** The intent once the Ledger disposed of its candidate. */
  function Disposed(site: Site, p: IntentProps, outcome: Outcome): IntentProps {
    match outcome
    case Accepted(ledgerReference) => p.(status := ACCEPTED, ledgerReference := Some(ledgerReference))
    case Rejected(reason) =>
      if site.hasSlotToFix(p, reason) then p.(status := AWAITING_CORRECTION)
      else p.(status := REJECTED, rejectionReason := Some(reason))
  }

  class Intent {
    var props: IntentProps

    constructor (props: IntentProps)
      ensures this.props == props
    {
      this.props := props;
    }

    method Record(key: string, value: string)
      modifies this
      ensures props == Answered(old(props), map[key := value], false)
      ensures props.answers.Keys == old(props).answers.Keys + {key} && props.answers[key] == value
      ensures forall other :: other in old(props).answers && other != key ==> props.answers[other] == old(props).answers[other]
    {
      props := props.(answers := props.answers + map[key := value], status := GATHERING);
    }

    /** Only an intent awaiting confirmation may be submitted. */
    method MarkSubmitted() returns (ok: bool)
      modifies this
      ensures ok <==> old(props).status == AWAITING_CONFIRMATION
      ensures props == if ok then old(props).(status := SUBMITTED) else old(props)
    {
      if props.status != AWAITING_CONFIRMATION { return false; }
      props := props.(status := SUBMITTED);
      return true;
    }

    method MarkAwaitingCorrection()
      modifies this
      ensures props == old(props).(status := AWAITING_CORRECTION)
    {
      props := props.(status := AWAITING_CORRECTION);
    }

    method MarkAccepted(ledgerReference: string)
      modifies this
      ensures props == old(props).(status := ACCEPTED, ledgerReference := Some(ledgerReference))
    {
      props := props.(status := ACCEPTED, ledgerReference := Some(ledgerReference));
    }

    method MarkRejected(reason: Reasons)
      modifies this
      ensures props == old(props).(status := REJECTED, rejectionReason := Some(reason))
    {
      props := props.(status := REJECTED, rejectionReason := Some(reason));
    }
  }

  class InMemoryIntentRepository {
    var store: map<string, IntentProps>

    constructor ()
      ensures store == map[]
    {
      store := map[];
    }

    method Save(intent: Intent)
      modifies this
      ensures store == old(store)[intent.props.id := intent.props]
    {
      store := store[intent.props.id := intent.props];
    }

    /** A fresh entity each read: what is done to it reaches the repository only when it is saved. */
    method FindById(id: string) returns (intent: Option<Intent>)
      ensures intent.Some? <==> id in store
      ensures intent.Some? ==> fresh(intent.value) && intent.value.props == store[id]
    {
      if id !in store { return None; }
      var rehydrated := new Intent(store[id]);
      return Some(rehydrated);
    }
  }

  // ---- Treasury's half, on either side of the request ----

  /** The source reference and idempotency key of an intent. */
  function Key(intentId: string): string {
    "intent:" + intentId
  }

  function CandidateOf(site: Site, p: IntentProps): Option<Command> {
    var built := site.candidateOf(p);
    if built.None? then None else Some(built.value.(sourceReference := Key(p.id)))
  }

  /**
   * A submission: the copy of the intent it works on, the candidate it sent, and whether it still waits for
   * its reply. It continues once: from the reply, or from the time-out or transport error it throws.
   */
  datatype Call = Call(copy: IntentProps, candidate: Command, open: bool)

  /** The submission an intent starts, if it may be submitted. */
  function Begun(site: Site, intents: map<string, IntentProps>, intentId: string): Option<Call> {
    if intentId !in intents || intents[intentId].status != AWAITING_CONFIRMATION then None
    else
      var copy := intents[intentId].(status := SUBMITTED);
      var candidate := CandidateOf(site, copy);
      if candidate.None? then None else Some(Call(copy, candidate.value, true))
  }

  class SubmitIntentUseCase {
    const site: Site
    const repo: InMemoryIntentRepository

    constructor (site: Site, repo: InMemoryIntentRepository)
      ensures this.site == site && this.repo == repo
    {
      this.site := site;
      this.repo := repo;
    }

    /** Up to the request: load a copy, guard it, build the candidate. Nothing is saved. */
    method Begin(intentId: string) returns (intent: Option<Intent>, candidate: Option<Command>)
      ensures intent.Some? <==> Begun(site, repo.store, intentId).Some?
      ensures intent.Some? ==> fresh(intent.value) && candidate.Some?
      ensures intent.Some? ==> Begun(site, repo.store, intentId) == Some(Call(intent.value.props, candidate.value, true))
    {
      var found := repo.FindById(intentId);
      if found.None? { return None, None; }
      var ok := found.value.MarkSubmitted();
      if !ok { return None, None; }
      candidate := CandidateOf(site, found.value.props);
      if candidate.None? { return None, None; }
      return found, candidate;
    }

    /** From the reply on: mark the copy and save it over whatever the repository holds by then. */
    method Dispose(intent: Intent, outcome: Outcome)
      modifies intent, repo
      ensures intent.props == Disposed(site, old(intent.props), outcome)
      ensures repo.store == old(repo.store)[intent.props.id := intent.props]
    {
      match outcome {
        case Accepted(ledgerReference) => intent.MarkAccepted(ledgerReference);
        case Rejected(reason) =>
          if site.hasSlotToFix(intent.props, reason) {
            intent.MarkAwaitingCorrection();
          } else {
            intent.MarkRejected(reason);
          }
      }
      repo.Save(intent);
    }
  }

  // ---- the two of them, with everything that can happen between them ----

  datatype Reply = Reply(call: nat, outcome: Outcome)

  /**
   * Requests sent and replies given are kept for ever: a request may be handled late, twice or never, also
   * after its submission gave up, and a reply may be delivered late or never.
   */
  datatype System = System(
    store: seq<LedgerEvent>,
    intents: map<string, IntentProps>,
    calls: seq<Call>,
    replies: seq<Reply>)

  const INITIAL: System := System.System([], map[], [], [])

  datatype Action =
    | Start(intentId: string, scenarioId: string, userId: string)
    | Answer(intentId: string, answers: map<string, string>, ready: bool)
    | Submit(intentId: string)
    | Handle(call: nat, eventId: string, now: int)
    | Deliver(reply: nat)
    | Abandon(call: nat)
    | OtherProducer(command: Command, eventId: string, now: int)

  predicate IsOpen(s: System, call: nat) {
    call < |s.calls| && s.calls[call].open
  }

  function Closed(calls: seq<Call>, k: nat): seq<Call>
    requires k < |calls|
  {
    calls[k := calls[k].(open := false)]
  }

  function Next(site: Site, s: System, a: Action): System {
    match a
    case Start(id, scenarioId, userId) =>
      if id in s.intents then s else s.(intents := s.intents[id := Started(id, scenarioId, userId)])
    case Answer(id, answers, ready) =>
      if id !in s.intents then s else s.(intents := s.intents[id := Answered(s.intents[id], answers, ready)])
    case Submit(id) =>
      var call := Begun(site, s.intents, id);
      if call.None? then s else s.(calls := s.calls + [call.value])
    case Handle(call, eventId, now) =>
      if call >= |s.calls| then s
      else
        var candidate := s.calls[call].candidate;
        var h := Handled(site, s.store, candidate, candidate.sourceReference, eventId, now);
        s.(store := h.store, replies := s.replies + [Reply(call, h.outcome)])
    case Deliver(reply) =>
      if reply >= |s.replies| || !IsOpen(s, s.replies[reply].call) then s
      else
        var k := s.replies[reply].call;
        var p := Disposed(site, s.calls[k].copy, s.replies[reply].outcome);
        s.(intents := s.intents[p.id := p], calls := Closed(s.calls, k))
    case Abandon(call) =>
      if call >= |s.calls| then s else s.(calls := Closed(s.calls, call))
    case OtherProducer(command, eventId, now) =>
      s.(store := After(s.store, Decide(site.env, s.store, command, eventId, now)))
  }

  function RunOf(site: Site, actions: seq<Action>): System {
    if actions == [] then INITIAL
    else Next(site, RunOf(site, actions[..|actions| - 1]), actions[|actions| - 1])
  }

  // ---- what every run keeps ----

  /** The book holds an event recorded under the intent's key, and `reference` is its id. */
  ghost predicate IsTheEventOf(store: seq<LedgerEvent>, intentId: string, reference: string) {
    exists e :: e in store && e.commandId == Some(Key(intentId)) && e.id == reference
  }

  /** An intent that holds a reference holds that of its own event, and an accepted one holds one. */
  ghost predicate Truthful(store: seq<LedgerEvent>, p: IntentProps) {
    && (p.ledgerReference.Some? ==> IsTheEventOf(store, p.id, p.ledgerReference.value))
    && (p.status == ACCEPTED ==> p.ledgerReference.Some?)
  }

  ghost predicate TruthfulIntents(s: System) {
    forall id :: id in s.intents ==> s.intents[id].id == id && Truthful(s.store, s.intents[id])
  }

  ghost predicate TruthfulCalls(s: System) {
    forall k :: 0 <= k < |s.calls| ==>
      && Truthful(s.store, s.calls[k].copy)
      && s.calls[k].candidate.sourceReference == Key(s.calls[k].copy.id)
  }

  ghost predicate TruthfulReplies(s: System) {
    forall r :: 0 <= r < |s.replies| ==>
      && s.replies[r].call < |s.calls|
      && (s.replies[r].outcome.Accepted?
          ==> IsTheEventOf(s.store, s.calls[s.replies[r].call].copy.id, s.replies[r].outcome.ledgerReference))
  }

  ghost predicate Invariant(site: Site, s: System) {
    WellFormed(site.env, s.store) && TruthfulIntents(s) && TruthfulCalls(s) && TruthfulReplies(s)
  }

  /** At most one event is appended; an acceptance names an event under the key, a rejection appends none. */
  ghost predicate Fair(store: seq<LedgerEvent>, h: Handling, key: string) {
    && store <= h.store && |h.store| <= |store| + 1
    && (h.outcome.Accepted? ==> exists e :: e in h.store && e.commandId == Some(key) && e.id == h.outcome.ledgerReference)
    && (h.outcome.Rejected? ==> h.store == store)
  }

  lemma {:induction false} AnswersAreFair(store: seq<LedgerEvent>, d: Decision, key: string)
    requires !d.Existing? && (d.Commit? ==> d.event.commandId == Some(key))
    ensures Fair(store, AnswerOf(store, d), key)
  {
    if d.Commit? {
      assert d.event in store + [d.event];
    }
  }

  /** With no event under the command's own id, the step does not answer with an old one. */
  lemma {:induction false} DecidedAfresh(env: Env, store: seq<LedgerEvent>, c: Command, id: string, now: int)
    requires c.commandId.Some? && FindByCommandId(store, c.commandId.value).None?
    ensures var d := Decide(env, store, c, id, now); !d.Existing? && (d.Commit? ==> d.event.commandId == c.commandId)
  {
    if Decide(env, store, c, id, now).Commit? {
      CommittedEvent(env, store, c, id, now);
    }
  }

  lemma {:induction false} HandlingIsFair(site: Site, store: seq<LedgerEvent>, candidate: Command, key: string, id: string, now: int)
    ensures Fair(store, Handled(site, store, candidate, key, id, now), key)
  {
    FindByCommandIdFinds(store, key);
    if FindByCommandId(store, key).None? {
      var c := ToCommand(candidate, key);
      DecidedAfresh(site.env, store, c, id, now);
      AnswersAreFair(store, Decide(site.env, store, c, id, now), key);
    }
  }

  lemma {:induction false} HandlingKeepsTheBookWellFormed(site: Site, store: seq<LedgerEvent>, candidate: Command, key: string, id: string, now: int)
    requires WellFormed(site.env, store)
    ensures WellFormed(site.env, Handled(site, store, candidate, key, id, now).store)
  {
    CommitKeepsTheBookWellFormed(site.env, store, ToCommand(candidate, key), id, now);
  }

  /** What was true of a shorter book stays true of a longer one. */
  lemma {:induction false} TruthOutlivesAppends(store: seq<LedgerEvent>, longer: seq<LedgerEvent>, p: IntentProps)
    requires store <= longer && Truthful(store, p)
    ensures Truthful(longer, p)
  {
    if p.ledgerReference.Some? {
      EventsStay(store, longer, p.id, p.ledgerReference.value);
    }
  }

  lemma {:induction false} EventsStay(store: seq<LedgerEvent>, longer: seq<LedgerEvent>, intentId: string, reference: string)
    requires store <= longer && IsTheEventOf(store, intentId, reference)
    ensures IsTheEventOf(longer, intentId, reference)
  {
    var e :| e in store && e.commandId == Some(Key(intentId)) && e.id == reference;
    assert e in longer;
  }

  lemma {:induction false} GrowingTheBookKeepsTheTruth(s: System, longer: seq<LedgerEvent>)
    requires s.store <= longer && TruthfulIntents(s) && TruthfulCalls(s) && TruthfulReplies(s)
    ensures var t := s.(store := longer); TruthfulIntents(t) && TruthfulCalls(t) && TruthfulReplies(t)
  {
    forall id | id in s.intents ensures Truthful(longer, s.intents[id]) {
      TruthOutlivesAppends(s.store, longer, s.intents[id]);
    }
    forall k | 0 <= k < |s.calls| ensures Truthful(longer, s.calls[k].copy) {
      TruthOutlivesAppends(s.store, longer, s.calls[k].copy);
    }
    forall r | 0 <= r < |s.replies| && s.replies[r].outcome.Accepted?
      ensures IsTheEventOf(longer, s.calls[s.replies[r].call].copy.id, s.replies[r].outcome.ledgerReference)
    {
      EventsStay(s.store, longer, s.calls[s.replies[r].call].copy.id, s.replies[r].outcome.ledgerReference);
    }
  }

  lemma {:induction false} RepliesStayTruthful(s: System, call: nat, h: Handling)
    requires TruthfulIntents(s) && TruthfulCalls(s) && TruthfulReplies(s) && call < |s.calls|
    requires Fair(s.store, h, s.calls[call].candidate.sourceReference)
    ensures var t := s.(store := h.store, replies := s.replies + [Reply(call, h.outcome)]);
      TruthfulIntents(t) && TruthfulCalls(t) && TruthfulReplies(t)
  {
    GrowingTheBookKeepsTheTruth(s, h.store);
  }

  lemma {:induction false} AnsweringKeepsTheInvariant(site: Site, s: System, call: nat, h: Handling)
    requires Invariant(site, s) && call < |s.calls| && WellFormed(site.env, h.store)
    requires Fair(s.store, h, s.calls[call].candidate.sourceReference)
    ensures Invariant(site, s.(store := h.store, replies := s.replies + [Reply(call, h.outcome)])) && s.store <= h.store
  {
    RepliesStayTruthful(s, call, h);
  }

  /** What handling a request does to the system, given what it does to the book. */
  lemma {:induction false} HandlingReplies(site: Site, s: System, call: nat, id: string, now: int, h: Handling)
    requires call < |s.calls|
    requires Handled(site, s.store, s.calls[call].candidate, s.calls[call].candidate.sourceReference, id, now) == h
    ensures Next(site, s, Handle(call, id, now)) == s.(store := h.store, replies := s.replies + [Reply(call, h.outcome)])
  {
  }

  lemma {:induction false} HandleKeepsTheInvariant(site: Site, s: System, call: nat, eventId: string, now: int)
    requires Invariant(site, s) && call < |s.calls|
    ensures Invariant(site, Next(site, s, Handle(call, eventId, now)))
    ensures s.store <= Next(site, s, Handle(call, eventId, now)).store
  {
    var candidate := s.calls[call].candidate;
    var h := Handled(site, s.store, candidate, candidate.sourceReference, eventId, now);
    HandlingIsFair(site, s.store, candidate, candidate.sourceReference, eventId, now);
    HandlingKeepsTheBookWellFormed(site, s.store, candidate, candidate.sourceReference, eventId, now);
    HandlingReplies(site, s, call, eventId, now, h);
    AnsweringKeepsTheInvariant(site, s, call, h);
  }

  lemma {:induction false} OtherProducersKeepTheInvariant(site: Site, s: System, command: Command, eventId: string, now: int)
    requires Invariant(site, s)
    ensures Invariant(site, Next(site, s, OtherProducer(command, eventId, now)))
    ensures s.store <= Next(site, s, OtherProducer(command, eventId, now)).store
  {
    CommitKeepsTheBookWellFormed(site.env, s.store, command, eventId, now);
    GrowingTheBookKeepsTheTruth(s, After(s.store, Decide(site.env, s.store, command, eventId, now)));
  }

  lemma {:induction false} DeliveryKeepsTheInvariant(site: Site, s: System, reply: nat)
    requires Invariant(site, s)
    ensures Invariant(site, Next(site, s, Deliver(reply)))
    ensures s.store == Next(site, s, Deliver(reply)).store
  {
  }

  lemma {:induction false} SavingKeepsTheInvariant(site: Site, s: System, p: IntentProps)
    requires Invariant(site, s) && Truthful(s.store, p)
    ensures Invariant(site, s.(intents := s.intents[p.id := p]))
  {
  }

  lemma {:induction false} CallingKeepsTheInvariant(site: Site, s: System, call: Call)
    requires Invariant(site, s) && Truthful(s.store, call.copy) && call.candidate.sourceReference == Key(call.copy.id)
    ensures Invariant(site, s.(calls := s.calls + [call]))
  {
  }

  lemma {:induction false} ClosingKeepsTheInvariant(site: Site, s: System, k: nat)
    requires Invariant(site, s) && k < |s.calls|
    ensures Invariant(site, s.(calls := Closed(s.calls, k)))
  {
  }

  lemma {:induction false} BegunIsTruthful(site: Site, s: System, intentId: string)
    requires TruthfulIntents(s) && Begun(site, s.intents, intentId).Some?
    ensures var call := Begun(site, s.intents, intentId).value;
      Truthful(s.store, call.copy) && call.candidate.sourceReference == Key(call.copy.id)
  {
  }

  lemma {:induction false} IntentsAndCallsKeepTheInvariant(site: Site, s: System, a: Action)
    requires Invariant(site, s) && (a.Start? || a.Answer? || a.Submit? || a.Abandon?)
    ensures Invariant(site, Next(site, s, a))
    ensures s.store == Next(site, s, a).store
  {
    match a
    case Start(id, scenarioId, userId) => SavingKeepsTheInvariant(site, s, Started(id, scenarioId, userId));
    case Answer(id, answers, ready) =>
      if id in s.intents {
        SavingKeepsTheInvariant(site, s, Answered(s.intents[id], answers, ready));
      }
    case Submit(id) =>
      if Begun(site, s.intents, id).Some? {
        BegunIsTruthful(site, s, id);
        CallingKeepsTheInvariant(site, s, Begun(site, s.intents, id).value);
      }
    case Abandon(call) =>
      if call < |s.calls| {
        ClosingKeepsTheInvariant(site, s, call);
      }
  }

  lemma {:induction false} StepKeepsTheInvariant(site: Site, s: System, a: Action)
    requires Invariant(site, s)
    ensures Invariant(site, Next(site, s, a))
    ensures s.store <= Next(site, s, a).store
  {
    match a
    case Handle(call, eventId, now) =>
      if call < |s.calls| {
        HandleKeepsTheInvariant(site, s, call, eventId, now);
      }
    case Deliver(reply) => DeliveryKeepsTheInvariant(site, s, reply);
    case OtherProducer(command, eventId, now) => OtherProducersKeepTheInvariant(site, s, command, eventId, now);
    case _ => IntentsAndCallsKeepTheInvariant(site, s, a);
  }

  lemma {:induction false} RunsKeepTheInvariant(site: Site, actions: seq<Action>)
    ensures Invariant(site, RunOf(site, actions))
  {
    if actions != [] {
      RunsKeepTheInvariant(site, actions[..|actions| - 1]);
      StepKeepsTheInvariant(site, RunOf(site, actions[..|actions| - 1]), actions[|actions| - 1]);
    }
  }

  // ---- the protocol's promises ----

  lemma {:induction false} KeysAreDistinct(a: string, b: string)
    ensures Key(a) == Key(b) <==> a == b
  {
    assert Key(a)[7..] == a && Key(b)[7..] == b;
  }

  /** However requests and replies are lost, repeated or delayed, an intent has at most one event in the book. */
  lemma {:induction false} AtMostOneEventPerIntent(site: Site, actions: seq<Action>, intentId: string, i: nat, j: nat)
    requires var store := RunOf(site, actions).store;
      && i < |store| && j < |store|
      && store[i].commandId == Some(Key(intentId)) && store[j].commandId == Some(Key(intentId))
    ensures i == j
  {
    RunsKeepTheInvariant(site, actions);
  }

  /**
   * Once an intent's event is in the book, every later delivery of a candidate of that intent answers with
   * its id and appends nothing: whatever the run did since, and whatever the candidate says by now.
   */
  lemma {:induction false} EveryRetryReturnsTheEvent(
      site: Site, actions: seq<Action>, more: seq<Action>, e: LedgerEvent, intentId: string,
      candidate: Command, id: string, now: int)
    requires e in RunOf(site, actions).store && e.commandId == Some(Key(intentId))
    ensures var store := RunOf(site, actions + more).store;
      Handled(site, store, candidate, Key(intentId), id, now) == Handling(Accepted(e.id), store)
  {
    RunsKeepTheInvariant(site, actions + more);
    LaterBooksExtend(site, actions, more);
    var store := RunOf(site, actions + more).store;
    FindByCommandIdFinds(store, Key(intentId));
    var found := FindByCommandId(store, Key(intentId)).value;
    var i := IndexOf(store, e);
    var j := IndexOf(store, found);
    AtMostOneEventPerIntent(site, actions + more, intentId, i, j);
  }

  lemma {:induction false} LaterBooksExtend(site: Site, actions: seq<Action>, more: seq<Action>)
    ensures RunOf(site, actions).store <= RunOf(site, actions + more).store
  {
    if more == [] {
      assert actions + more == actions;
    } else {
      var n := |more| - 1;
      LaterBooksExtend(site, actions, more[..n]);
      OneMoreExtends(site, actions + more[..n], more[n]);
      LastOfMore(actions, more);
    }
  }

  lemma {:induction false} LastOfMore(actions: seq<Action>, more: seq<Action>)
    requires more != []
    ensures actions + more == (actions + more[..|more| - 1]) + [more[|more| - 1]]
  {
  }

  lemma {:induction false} OneMore(site: Site, actions: seq<Action>, a: Action)
    ensures RunOf(site, actions + [a]) == Next(site, RunOf(site, actions), a)
  {
    assert (actions + [a])[..|actions|] == actions;
  }

  lemma {:induction false} OneMoreExtends(site: Site, actions: seq<Action>, a: Action)
    ensures RunOf(site, actions).store <= RunOf(site, actions + [a]).store
  {
    RunsKeepTheInvariant(site, actions);
    StepKeepsTheInvariant(site, RunOf(site, actions), a);
    OneMore(site, actions, a);
  }

  /** A reference Treasury stores is the id of the one event under the intent's key; an accepted intent stores one. */
  lemma {:induction false} StoredReferencesAreTheEvent(site: Site, actions: seq<Action>, intentId: string)
    requires intentId in RunOf(site, actions).intents
    ensures var s := RunOf(site, actions);
      var p := s.intents[intentId];
      && (p.status == ACCEPTED ==> p.ledgerReference.Some?)
      && (p.ledgerReference.Some? ==>
            exists i :: 0 <= i < |s.store| && s.store[i].id == p.ledgerReference.value && s.store[i].commandId == Some(Key(intentId)))
  {
    RunsKeepTheInvariant(site, actions);
    var s := RunOf(site, actions);
    var p := s.intents[intentId];
    if p.ledgerReference.Some? {
      var e :| e in s.store && e.commandId == Some(Key(p.id)) && e.id == p.ledgerReference.value;
      var i := IndexOf(s.store, e);
      assert s.store[i] == e;
    }
  }

  /** Over every run, source references are unique, and so are the command ids that are not empty. */
  lemma {:induction false} SourcesAndCommandsStayUnique(site: Site, actions: seq<Action>, i: nat, j: nat)
    requires var store := RunOf(site, actions).store; i < j < |store|
    ensures var store := RunOf(site, actions).store;
      && store[i].source.reference != store[j].source.reference
      && (store[i].commandId == store[j].commandId ==> store[i].commandId in {None, Some("")})
  {
    RunsKeepTheInvariant(site, actions);
  }

  /** What a submission does, given the call it starts. */
  lemma {:induction false} Submitting(site: Site, s: System, intentId: string, call: Call)
    requires Begun(site, s.intents, intentId) == Some(call)
    ensures Next(site, s, Submit(intentId)) == s.(calls := s.calls + [call])
  {
  }

  lemma {:induction false} Delivering(site: Site, s: System, reply: nat, p: IntentProps)
    requires reply < |s.replies| && IsOpen(s, s.replies[reply].call)
    requires Disposed(site, s.calls[s.replies[reply].call].copy, s.replies[reply].outcome) == p
    ensures Next(site, s, Deliver(reply))
            == s.(intents := s.intents[p.id := p], calls := Closed(s.calls, s.replies[reply].call))
  {
  }

  /**
   * A lost reply is recovered by submitting again: if the event is in the book and the intent can still be
   * submitted, one undisturbed round leaves the book alone and the intent accepted with the event's id.
   */
  lemma {:induction false} RetryRecoversALostReply(site: Site, actions: seq<Action>, e: LedgerEvent, intentId: string, id: string, now: int)
    requires var s := RunOf(site, actions);
      && e in s.store && e.commandId == Some(Key(intentId)) && Begun(site, s.intents, intentId).Some?
    ensures var s := RunOf(site, actions);
      var t := RunOf(site, actions + Round(s, intentId, id, now));
      && t.store == s.store
      && t.intents == s.intents[intentId := s.intents[intentId].(status := ACCEPTED, ledgerReference := Some(e.id))]
  {
    var s := RunOf(site, actions);
    RunsKeepTheInvariant(site, actions);
    var call := Begun(site, s.intents, intentId).value;
    assert actions + [] == actions;
    EveryRetryReturnsTheEvent(site, actions, [], e, intentId, call.candidate, id, now);
    RoundDisposes(site, actions, s, intentId, call, Handling(Accepted(e.id), s.store), id, now);
  }

  /** One undisturbed round: a submission, its request handled, its reply delivered. */
  function Round(s: System, intentId: string, id: string, now: int): seq<Action> {
    [Submit(intentId), Handle(|s.calls|, id, now), Deliver(|s.replies|)]
  }

  /**
   * What one undisturbed round makes of an intent: accepted with the reference it was answered, or, rejected, to be
   * corrected when a slot can be asked again and ended with the reason when none can; its answers stay as they are.
   */
  lemma {:induction false} ARoundDecidesTheIntent(site: Site, actions: seq<Action>, intentId: string, id: string, now: int)
    requires Begun(site, RunOf(site, actions).intents, intentId).Some?
    ensures var s := RunOf(site, actions);
      var t := RunOf(site, actions + Round(s, intentId, id, now));
      var call := Begun(site, s.intents, intentId).value;
      var h := Handled(site, s.store, call.candidate, Key(intentId), id, now);
      && t.store == h.store && t.intents.Keys == s.intents.Keys
      && (forall other :: other in s.intents && other != intentId ==> t.intents[other] == s.intents[other])
      && t.intents[intentId].answers == s.intents[intentId].answers
      && match h.outcome
         case Accepted(reference) =>
           t.intents[intentId].status == ACCEPTED && t.intents[intentId].ledgerReference == Some(reference)
         case Rejected(reason) =>
           if site.hasSlotToFix(call.copy, reason) then t.intents[intentId].status == AWAITING_CORRECTION
           else t.intents[intentId].status == REJECTED && t.intents[intentId].rejectionReason == Some(reason)
  {
    var s := RunOf(site, actions);
    RunsKeepTheInvariant(site, actions);
    var call := Begun(site, s.intents, intentId).value;
    BegunIsTruthful(site, s, intentId);
    BegunIsTheIntent(site, s.intents, intentId);
    var h := Handled(site, s.store, call.candidate, Key(intentId), id, now);
    RoundDisposes(site, actions, s, intentId, call, h, id, now);
    WhatDisposingLeaves(site, call.copy, h.outcome);
  }

  lemma {:induction false} BegunIsTheIntent(site: Site, intents: map<string, IntentProps>, intentId: string)
    requires Begun(site, intents, intentId).Some?
    ensures intentId in intents && Begun(site, intents, intentId).value.copy == intents[intentId].(status := SUBMITTED)
  {
  }

  lemma {:induction false} WhatDisposingLeaves(site: Site, p: IntentProps, outcome: Outcome)
    ensures var q := Disposed(site, p, outcome);
      && q.id == p.id && q.answers == p.answers && q.scenarioId == p.scenarioId && q.userId == p.userId
      && (outcome.Accepted? ==> q.status == ACCEPTED && q.ledgerReference == Some(outcome.ledgerReference))
      && (outcome.Rejected? && site.hasSlotToFix(p, outcome.reason) ==> q.status == AWAITING_CORRECTION)
      && (outcome.Rejected? && !site.hasSlotToFix(p, outcome.reason) ==>
            q.status == REJECTED && q.rejectionReason == Some(outcome.reason))
  {
  }

  lemma {:induction false} RoundDisposes(
      site: Site, actions: seq<Action>, s: System, intentId: string, call: Call, h: Handling, id: string, now: int)
    requires s == RunOf(site, actions)
    requires Begun(site, s.intents, intentId) == Some(call) && s.intents[intentId].id == intentId && call.open
    requires Handled(site, s.store, call.candidate, Key(intentId), id, now) == h
    ensures var t := RunOf(site, actions + Round(s, intentId, id, now));
      t.store == h.store && t.intents == s.intents[intentId := Disposed(site, call.copy, h.outcome)]
  {
    var p := Disposed(site, call.copy, h.outcome);
    WhatDisposingLeaves(site, call.copy, h.outcome);
    var s2 := SubmittedAndAnswered(site, actions, s, intentId, call, h, id, now);
    var before := actions + [Submit(intentId), Handle(|s.calls|, id, now)];
    Delivering(site, s2, |s.replies|, p);
    OneMoreGives(site, before, Deliver(|s.replies|), s2, s2.(intents := s.intents[intentId := p], calls := Closed(s2.calls, |s.calls|)));
    assert before + [Deliver(|s.replies|)] == actions + Round(s, intentId, id, now);
  }

  lemma {:induction false} SubmittedAndAnswered(
      site: Site, actions: seq<Action>, s: System, intentId: string, call: Call, h: Handling, id: string, now: int)
    returns (t: System)
    requires s == RunOf(site, actions) && Begun(site, s.intents, intentId) == Some(call) && s.intents[intentId].id == intentId
    requires Handled(site, s.store, call.candidate, Key(intentId), id, now) == h
    ensures RunOf(site, actions + [Submit(intentId), Handle(|s.calls|, id, now)]) == t
    ensures t == s.(store := h.store, calls := s.calls + [call], replies := s.replies + [Reply(|s.calls|, h.outcome)])
  {
    var a, b := Submit(intentId), Handle(|s.calls|, id, now);
    Submitting(site, s, intentId, call);
    var s1 := s.(calls := s.calls + [call]);
    OneMoreGives(site, actions, a, s, s1);
    HandlingReplies(site, s1, |s.calls|, id, now, h);
    t := s1.(store := h.store, replies := s.replies + [Reply(|s.calls|, h.outcome)]);
    OneMoreGives(site, actions + [a], b, s1, t);
    assert actions + [a] + [b] == actions + [a, b];
  }

  /** An intent begins with nothing answered, and cannot be submitted before it is answered in full. */
  lemma {:induction false} ANewIntentGathers(site: Site, s: System, intentId: string, scenarioId: string, userId: string, answers: map<string, string>)
    requires intentId !in s.intents
    ensures var t := Next(site, s, Start(intentId, scenarioId, userId));
      && intentId in t.intents && t.intents[intentId].answers == map[] && t.intents[intentId].status == GATHERING
      && t.intents[intentId].scenarioId == scenarioId && t.intents[intentId].userId == userId
      && t.intents[intentId].ledgerReference.None? && t.intents[intentId].rejectionReason.None?
      && Next(site, t, Submit(intentId)) == t
      && Next(site, Next(site, t, Answer(intentId, answers, false)), Submit(intentId)) == Next(site, t, Answer(intentId, answers, false))
  {
    var t := Next(site, s, Start(intentId, scenarioId, userId));
    NotBegun(site, t, intentId);
    NotBegun(site, Next(site, t, Answer(intentId, answers, false)), intentId);
  }

  lemma {:induction false} NotBegun(site: Site, s: System, intentId: string)
    requires intentId in s.intents && s.intents[intentId].status != AWAITING_CONFIRMATION
    ensures Next(site, s, Submit(intentId)) == s
  {
  }

  /**
   * What is submitted is what was answered last: after some answers are recorded, the intent answers each of them so
   * and every other slot as before, and so does the copy its next submission builds its candidate from.
   */
  lemma {:induction false} TheLastAnswersAreSubmitted(site: Site, s: System, intentId: string, answers: map<string, string>, ready: bool)
    requires intentId in s.intents
    ensures var before := s.intents[intentId].answers;
      var t := Next(site, s, Answer(intentId, answers, ready));
      && intentId in t.intents
      && (forall key :: key in answers ==> key in t.intents[intentId].answers && t.intents[intentId].answers[key] == answers[key])
      && (forall key :: key !in answers ==>
            (key in before <==> key in t.intents[intentId].answers)
            && (key in before ==> t.intents[intentId].answers[key] == before[key]))
      && (Begun(site, t.intents, intentId).Some? ==>
            Begun(site, t.intents, intentId).value.copy.answers == t.intents[intentId].answers)
  {
  }

  lemma {:induction false} OneMoreGives(site: Site, actions: seq<Action>, a: Action, s: System, t: System)
    requires RunOf(site, actions) == s && Next(site, s, a) == t
    ensures RunOf(site, actions + [a]) == t
  {
    OneMore(site, actions, a);
  }

  /** Two intents never hold one reference: an event is recorded under one key. */
  lemma {:induction false} ReferencesAreNotShared(site: Site, actions: seq<Action>, a: string, b: string)
    requires var s := RunOf(site, actions);
      && a in s.intents && b in s.intents && s.intents[a].ledgerReference.Some?
      && s.intents[a].ledgerReference == s.intents[b].ledgerReference
    ensures a == b
  {
    StoredReferencesAreTheEvent(site, actions, a);
    StoredReferencesAreTheEvent(site, actions, b);
    RunsKeepTheInvariant(site, actions);
    var s := RunOf(site, actions);
    var reference := s.intents[a].ledgerReference.value;
    var i :| 0 <= i < |s.store| && s.store[i].id == reference && s.store[i].commandId == Some(Key(a));
    var j :| 0 <= j < |s.store| && s.store[j].id == reference && s.store[j].commandId == Some(Key(b));
    assert i == j;
    KeysAreDistinct(a, b);
  }

  /** Over every run, the command ids that are present are unique exactly when at most one event carries the empty one. */
  lemma {:induction false} CommandIdsAreUniqueButForTheEmptyOne(site: Site, actions: seq<Action>)
    ensures var store := RunOf(site, actions).store;
      (forall i, j :: 0 <= i < j < |store| && store[i].commandId.Some? ==> store[i].commandId != store[j].commandId)
      <==> (forall i, j :: 0 <= i < j < |store| && store[i].commandId == Some("") ==> store[j].commandId != Some(""))
  {
    RunsKeepTheInvariant(site, actions);
  }
}
