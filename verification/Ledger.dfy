// The one write step: ledger/src/core/application/use-cases/CreateLedgerEventUseCase.ts over
// ledger/src/infra/persistence/memory/InMemoryLedgerEventRepository.ts.

module Ledger {
  import opened Prelude
  import opened Moneys
  import opened Events
  import opened Catalog
  import opened Validation
  import opened Retraction
  import opened Figures
  import opened EventPayload

  datatype CommandParty = CommandParty(partyId: string, role: PartyRole, direction: Direction, amount: Option<string>)

  datatype Command = Command(
    eventType: EventType,
    effect: Effect,
    occurredAt: int,
    sourceAt: Option<int>,
    dueAt: Option<int>,
    amount: string,
    currency: string,
    description: Option<string>,
    sourceSystem: string,
    sourceReference: string,
    normalizationVersion: string,
    normalizationWorkerId: string,
    commandId: Option<string>,
    relatedEventId: Option<string>,
    parties: seq<CommandParty>,
    objects: seq<EventObject>,
    reason: Option<Reason>,
    reporterType: ReporterType,
    reporterId: string,
    reporterName: Option<string>,
    channel: string)

  datatype Refusal =
    | DuplicateSourceReference
    | MissingId
    | InvalidMoney(error: MoneyError)
    | OriginNotFound
    | OriginOfWrongType
    | AlreadyRetracted
    | RetractionChainTooDeep
    | OverSettlement(objectId: string, outstanding: nat)
    | NegativeOutstanding
    | IncompleteNormalization
    | IncompleteSource
    | NotAdmissible(violation: Violation)
    | IdTaken

  // ---- repository lookups ----

  /** `store.find(e => e.id === id)`. */
  function FindById(store: seq<LedgerEvent>, id: string): Option<LedgerEvent> {
    if store == [] then None else if store[0].id == id then Some(store[0]) else FindById(store[1..], id)
  }

  function FindByCommandId(store: seq<LedgerEvent>, commandId: string): Option<LedgerEvent> {
    if store == [] then None
    else if store[0].commandId == Some(commandId) then Some(store[0]) else FindByCommandId(store[1..], commandId)
  }

  predicate ExistsBySourceReference(store: seq<LedgerEvent>, reference: string) {
    exists e :: e in store && e.source.reference == reference
  }

  predicate HasId(store: seq<LedgerEvent>, id: string) {
    exists e :: e in store && e.id == id
  }

  function LastEventHash(store: seq<LedgerEvent>): Option<string> {
    if store == [] then None else Some(store[|store| - 1].hash)
  }

  // ---- the guards ----

  predicate AsksToRetract(objects: seq<EventObject>) {
    exists o :: o in objects && o.relation == Retracts
  }

  function LineageRefusal(store: seq<LedgerEvent>, c: Command): Option<Refusal> {
    if !Truthy(c.relatedEventId) then None
    else
      var origin := FindById(store, c.relatedEventId.value);
      var allowed := ContractOf(c.eventType).allowedOrigins;
      if origin.None? then Some(OriginNotFound)
      else if allowed.Some? && origin.value.eventType !in allowed.value then Some(OriginOfWrongType)
      else None
  }

  function RetractionRefusal(store: seq<LedgerEvent>, c: Command): Option<Refusal> {
    if !Truthy(c.relatedEventId) || !AsksToRetract(c.objects) then None
    else if exists e :: e in store && e.relatedEventId == c.relatedEventId && CarriesRetraction(e) then Some(AlreadyRetracted)
    else
      var origin := FindById(store, c.relatedEventId.value);
      if origin.Some? && CarriesRetraction(origin.value) && Truthy(origin.value.relatedEventId) then
        var below := FindById(store, origin.value.relatedEventId.value);
        if below.Some? && CarriesRetraction(below.value) then Some(RetractionChainTooDeep) else None
      else None
  }

  /** Whether closing `units` more of a position exceeds the baseline its own standing events give it. */
  function ClosingRefusal(store: seq<LedgerEvent>, objectId: string, units: nat): Option<Refusal> {
    var t := TotalsOf(Scope(store, objectId), objectId);
    if t.hasReversal || t.originatedUnits == 0 || t.closedUnits + units <= t.originatedUnits then None
    else if t.closedUnits > t.originatedUnits then Some(NegativeOutstanding)
    else Some(OverSettlement(objectId, t.originatedUnits - t.closedUnits))
  }

  /** The first object of the command that would close too much. */
  function SettlementRefusal(store: seq<LedgerEvent>, objects: seq<EventObject>, units: nat): Option<Refusal> {
    if objects == [] then None
    else
      var earlier := SettlementRefusal(store, objects[..|objects| - 1], units);
      var o := objects[|objects| - 1];
      if earlier.Some? then earlier
      else if o.relation == Settles then ClosingRefusal(store, o.objectId, units)
      else None
  }

  // ---- the event a command becomes ----

  function ReadParties(parties: seq<CommandParty>, currency: string): Result<seq<Party>, MoneyError> {
    if parties == [] then Ok([])
    else
      var before := ReadParties(parties[..|parties| - 1], currency);
      if before.Err? then before
      else
        var p := parties[|parties| - 1];
        if !Truthy(p.amount) then Ok(before.value + [Party(p.partyId, p.role, p.direction, None)])
        else
          match FromDecimal(p.amount.value, currency)
          case Err(error) => Err(error)
          case Ok(money) => Ok(before.value + [Party(p.partyId, p.role, p.direction, Some(money))])
  }

  /** The event before its hash is taken. */
  function Draft(store: seq<LedgerEvent>, c: Command, money: Money, parties: seq<Party>, id: string, now: int): LedgerEvent {
    LedgerEvent(
      id, c.eventType, c.effect, c.occurredAt, now, c.sourceAt, c.dueAt, money, c.description,
      Source(c.sourceSystem, c.sourceReference),
      Normalization(c.normalizationVersion, c.normalizationWorkerId),
      "", LastEventHash(store), c.commandId, c.relatedEventId,
      parties, c.objects, c.reason,
      Reporter(c.reporterType, c.reporterId, c.reporterName, now, c.channel))
  }

  function Sealed(env: Env, draft: LedgerEvent): LedgerEvent {
    draft.(hash := HashOf(env, draft))
  }

  // ---- the step ----

  /** A command either finds the event it already became, appends one, or is refused. */
  datatype Decision = Existing(event: LedgerEvent) | Commit(event: LedgerEvent) | Refuse(refusal: Refusal)

  function FirstRefusal(a: Option<Refusal>, b: Option<Refusal>): Option<Refusal> {
    if a.Some? then a else b
  }

  function GuardRefusal(store: seq<LedgerEvent>, c: Command, units: nat): Option<Refusal> {
    FirstRefusal(LineageRefusal(store, c), FirstRefusal(RetractionRefusal(store, c), SettlementRefusal(store, c.objects, units)))
  }

  function DecideEvent(env: Env, store: seq<LedgerEvent>, c: Command, money: Money, id: string, now: int): Decision {
    match ReadParties(c.parties, c.currency)
    case Err(error) => Refuse(InvalidMoney(error))
    case Ok(parties) =>
      var event := Sealed(env, Draft(store, c, money, parties, id, now));
      if Violated(event).Some? then Refuse(NotAdmissible(Violated(event).value))
      else if HasId(store, id) then Refuse(IdTaken)
      else Commit(event)
  }

  function Decide(env: Env, store: seq<LedgerEvent>, c: Command, id: string, now: int): Decision {
    if Truthy(c.commandId) && FindByCommandId(store, c.commandId.value).Some? then
      Existing(FindByCommandId(store, c.commandId.value).value)
    else if ExistsBySourceReference(store, c.sourceReference) then Refuse(DuplicateSourceReference)
    else if id == "" then Refuse(MissingId)
    else
      match FromDecimal(c.amount, c.currency)
      case Err(error) => Refuse(InvalidMoney(error))
      case Ok(money) =>
        var guard := GuardRefusal(store, c, money.units);
        if guard.Some? then Refuse(guard.value)
        else if c.normalizationVersion == "" || c.normalizationWorkerId == "" then Refuse(IncompleteNormalization)
        else if c.sourceSystem == "" || c.sourceReference == "" then Refuse(IncompleteSource)
        else DecideEvent(env, store, c, money, id, now)
  }

  function After(store: seq<LedgerEvent>, d: Decision): seq<LedgerEvent> {
    if d.Commit? then store + [d.event] else store
  }

  /** Nothing in the book carries the identities the event is to be recorded under. */
  predicate IsNew(store: seq<LedgerEvent>, c: Command, id: string) {
    && id != "" && !HasId(store, id) && !ExistsBySourceReference(store, c.sourceReference)
    && (Truthy(c.commandId) ==> FindByCommandId(store, c.commandId.value).None?)
  }

  /** With new identities and readable amounts, the guards decide, and after them the entity's rules. */
  lemma {:induction false} NewCommandsAreDecidedByTheRules(
      env: Env, store: seq<LedgerEvent>, c: Command, money: Money, parties: seq<Party>, id: string, now: int)
    requires IsNew(store, c, id) && FromDecimal(c.amount, c.currency) == Ok(money) && ReadParties(c.parties, c.currency) == Ok(parties)
    requires c.normalizationVersion != "" && c.normalizationWorkerId != "" && c.sourceSystem != "" && c.sourceReference != ""
    ensures var e := Sealed(env, Draft(store, c, money, parties, id, now));
      var guard := GuardRefusal(store, c, money.units);
      Decide(env, store, c, id, now)
      == if guard.Some? then Refuse(guard.value)
         else if Violated(e).Some? then Refuse(NotAdmissible(Violated(e).value))
         else Commit(e)
  {
  }

  /** What is recorded was new and could be read. */
  lemma {:induction false} CommitsAreNewAndReadable(env: Env, store: seq<LedgerEvent>, c: Command, id: string, now: int)
    requires Decide(env, store, c, id, now).Commit?
    ensures IsNew(store, c, id) && FromDecimal(c.amount, c.currency).Ok?
  {
  }

  lemma {:induction false} SettlementsAreRefusedForTheirUnits(store: seq<LedgerEvent>, objects: seq<EventObject>, units: nat)
    ensures var refusal := SettlementRefusal(store, objects, units);
      refusal.Some? ==> refusal.value.OverSettlement? || refusal.value.NegativeOutstanding?
  {
    if objects != [] {
      SettlementsAreRefusedForTheirUnits(store, objects[..|objects| - 1], units);
    }
  }

  /** A guard refuses the origin of a command that names one, and never speaks for the entity. */
  lemma {:induction false} WhatGuardsRefuse(store: seq<LedgerEvent>, c: Command, units: nat)
    requires GuardRefusal(store, c, units).Some?
    ensures var refusal := GuardRefusal(store, c, units).value;
      && !refusal.NotAdmissible?
      && (refusal.OriginNotFound? || refusal.OriginOfWrongType? ==> Truthy(c.relatedEventId))
  {
    SettlementsAreRefusedForTheirUnits(store, c.objects, units);
  }

  lemma {:induction false} WhatRecordingRefuses(env: Env, store: seq<LedgerEvent>, c: Command, money: Money, id: string, now: int)
    requires DecideEvent(env, store, c, money, id, now).Refuse?
    ensures var refusal := DecideEvent(env, store, c, money, id, now).refusal;
      var parties := ReadParties(c.parties, c.currency);
      && refusal != OriginNotFound && refusal != OriginOfWrongType
      && (refusal.NotAdmissible? ==>
            parties.Ok? && Violated(Sealed(env, Draft(store, c, money, parties.value, id, now))) == Some(refusal.violation))
  {
  }

  /** Which part of the step a refusal of an origin or of the entity's rules comes from. */
  lemma {:induction false} WhereRefusalsComeFrom(env: Env, store: seq<LedgerEvent>, c: Command, id: string, now: int, refusal: Refusal)
    requires Decide(env, store, c, id, now) == Refuse(refusal)
    requires refusal == OriginNotFound || refusal == OriginOfWrongType || refusal.NotAdmissible?
    ensures var money := FromDecimal(c.amount, c.currency);
      && money.Ok?
      && (GuardRefusal(store, c, money.value.units) == Some(refusal)
          || DecideEvent(env, store, c, money.value, id, now) == Refuse(refusal))
  {
  }

  /** A refused origin is one the command names. */
  lemma {:induction false} RefusedOriginsAreNamed(env: Env, store: seq<LedgerEvent>, c: Command, id: string, now: int, refusal: Refusal)
    requires Decide(env, store, c, id, now) == Refuse(refusal) && (refusal == OriginNotFound || refusal == OriginOfWrongType)
    ensures Truthy(c.relatedEventId)
  {
    WhereRefusalsComeFrom(env, store, c, id, now, refusal);
    var money := FromDecimal(c.amount, c.currency).value;
    if DecideEvent(env, store, c, money, id, now) == Refuse(refusal) {
      WhatRecordingRefuses(env, store, c, money, id, now);
    } else {
      WhatGuardsRefuse(store, c, money.units);
    }
  }

  /** What the entity's rules refuse, they refuse of the sealed draft. */
  lemma {:induction false} RefusedEventsAreViolations(
      env: Env, store: seq<LedgerEvent>, c: Command, id: string, now: int, violation: Violation)
    requires Decide(env, store, c, id, now) == Refuse(NotAdmissible(violation))
    ensures var money := FromDecimal(c.amount, c.currency);
      var parties := ReadParties(c.parties, c.currency);
      money.Ok? && parties.Ok? && Violated(Sealed(env, Draft(store, c, money.value, parties.value, id, now))) == Some(violation)
  {
    WhereRefusalsComeFrom(env, store, c, id, now, NotAdmissible(violation));
    var money := FromDecimal(c.amount, c.currency).value;
    if GuardRefusal(store, c, money.units).Some? {
      WhatGuardsRefuse(store, c, money.units);
    }
    WhatRecordingRefuses(env, store, c, money, id, now);
  }

  // ---- what every book satisfies ----

  ghost predicate UniqueSources(store: seq<LedgerEvent>) {
    forall i, j :: 0 <= i < j < |store| ==> store[i].source.reference != store[j].source.reference
  }

  /** Command ids are unique among the events that carry a non-empty one. */
  ghost predicate UniqueCommandIds(store: seq<LedgerEvent>) {
    forall i, j :: 0 <= i < j < |store| && Truthy(store[i].commandId) ==> store[i].commandId != store[j].commandId
  }

  /** Each event carries the hash of the one before it, and the first carries none. */
  ghost predicate Chained(store: seq<LedgerEvent>) {
    forall i :: 0 <= i < |store| ==> store[i].previousHash == LastEventHash(store[..i])
  }

  ghost predicate Authentic(env: Env, store: seq<LedgerEvent>) {
    forall e :: e in store ==> IsValid(e) && e.hash == HashOf(env, e) && e.id != ""
  }

  ghost predicate WellFormed(env: Env, store: seq<LedgerEvent>) {
    && RetractionsAreOrderly(store)
    && UniqueSources(store)
    && UniqueCommandIds(store)
    && Chained(store)
    && Authentic(env, store)
  }

  // ---- lookups, as facts ----

  lemma {:induction false} FindByIdFinds(store: seq<LedgerEvent>, id: string)
    ensures FindById(store, id).Some? <==> HasId(store, id)
    ensures FindById(store, id).Some? ==> FindById(store, id).value in store && FindById(store, id).value.id == id
  {
    if store != [] {
      FindByIdFinds(store[1..], id);
      assert store == [store[0]] + store[1..];
    }
  }

  lemma {:induction false} FindByCommandIdFinds(store: seq<LedgerEvent>, commandId: string)
    ensures FindByCommandId(store, commandId).Some? <==> exists e :: e in store && e.commandId == Some(commandId)
    ensures FindByCommandId(store, commandId).Some?
            ==> FindByCommandId(store, commandId).value in store
                && FindByCommandId(store, commandId).value.commandId == Some(commandId)
  {
    if store != [] {
      FindByCommandIdFinds(store[1..], commandId);
      assert store == [store[0]] + store[1..];
    }
  }

  // ---- a committed event keeps them ----

  /** What is known of an event the step appends. */
  lemma {:induction false} CommittedEvent(env: Env, store: seq<LedgerEvent>, c: Command, id: string, now: int)
    requires Decide(env, store, c, id, now).Commit?
    ensures var e := Decide(env, store, c, id, now).event;
      && e.id == id && id != "" && !HasId(store, id) && !ExistsBySourceReference(store, e.source.reference)
      && IsValid(e) && e.hash == HashOf(env, e) && e.previousHash == LastEventHash(store)
      && e.source.reference == c.sourceReference && e.commandId == c.commandId
      && e.relatedEventId == c.relatedEventId && e.objects == c.objects
      && GuardRefusal(store, c, e.amount.units).None?
    ensures Truthy(c.commandId) ==> FindByCommandId(store, c.commandId.value).None?
  {
  }

  /** The part of it that retractions depend on. */
  ghost predicate Passed(store: seq<LedgerEvent>, c: Command, e: LedgerEvent) {
    && !HasId(store, e.id)
    && e.relatedEventId == c.relatedEventId && e.objects == c.objects
    && LineageRefusal(store, c).None? && RetractionRefusal(store, c).None?
  }

  lemma {:induction false} LineageStaysEarlier(store: seq<LedgerEvent>, c: Command, e: LedgerEvent)
    requires LineageIsEarlier(store) && Passed(store, c, e)
    ensures LineageIsEarlier(store + [e])
  {
    var after := store + [e];
    forall j | 0 <= j < |after| && Truthy(after[j].relatedEventId)
      ensures exists i :: 0 <= i < j && after[i].id == after[j].relatedEventId.value
    {
      if j < |store| {
        var i :| 0 <= i < j && store[i].id == store[j].relatedEventId.value;
        assert after[i].id == after[j].relatedEventId.value;
      } else {
        FindByIdFinds(store, e.relatedEventId.value);
        var i := IndexOf(store, FindById(store, e.relatedEventId.value).value);
        assert after[i].id == after[j].relatedEventId.value;
      }
    }
  }

  /** Nothing in the book, and not the new event itself, can target an id that is new. */
  lemma {:induction false} NothingTargetsANewId(store: seq<LedgerEvent>, e: LedgerEvent)
    requires LineageIsEarlier(store + [e]) && !HasId(store, e.id)
    ensures forall r :: r in store + [e] ==> !Retracting(r, e.id)
  {
    var after := store + [e];
    forall r | r in after ensures !Retracting(r, e.id) {
      var j := IndexOf(after, r);
      if Truthy(r.relatedEventId) {
        var i :| 0 <= i < j && after[i].id == after[j].relatedEventId.value;
        assert after[i] in store;
      }
    }
  }

  lemma {:induction false} OneRetractionStays(store: seq<LedgerEvent>, c: Command, e: LedgerEvent)
    requires OneRetractionPerTarget(store) && Passed(store, c, e)
    ensures OneRetractionPerTarget(store + [e])
  {
    var after := store + [e];
    forall r, q | r in after && q in after && IsRetraction(r) && IsRetraction(q) && r.relatedEventId == q.relatedEventId
      ensures r.id == q.id
    {
      assert r == e || r in store;
      assert q == e || q in store;
    }
  }

  lemma {:induction false} ChainsStayShallow(store: seq<LedgerEvent>, c: Command, e: LedgerEvent)
    requires UniqueIds(store) && ChainsAreShallow(store) && Passed(store, c, e) && LineageIsEarlier(store + [e])
    ensures ChainsAreShallow(store + [e])
  {
    NothingTargetsANewId(store, e);
    var after := store + [e];
    forall r, q, p | r in after && q in after && p in after && Retracting(r, q.id) && Retracting(q, p.id)
      ensures !IsRetraction(p)
    {
      ChainStaysShallow(store, c, e, r, q, p);
    }
  }

  lemma {:induction false} ChainStaysShallow(store: seq<LedgerEvent>, c: Command, e: LedgerEvent, r: LedgerEvent, q: LedgerEvent, p: LedgerEvent)
    requires UniqueIds(store) && ChainsAreShallow(store) && Passed(store, c, e)
    requires r in store + [e] && q in store + [e] && p in store + [e] && Retracting(r, q.id) && Retracting(q, p.id)
    requires !Retracting(r, e.id) && !Retracting(q, e.id)
    ensures !IsRetraction(p)
  {
    assert q in store && p in store;
    if r == e {
      NewRetractionIsShallow(store, c, q, p);
    } else {
      assert r in store;
    }
  }

  lemma {:induction false} NewRetractionIsShallow(store: seq<LedgerEvent>, c: Command, q: LedgerEvent, p: LedgerEvent)
    requires UniqueIds(store) && q in store && p in store && Retracting(q, p.id)
    requires c.relatedEventId == Some(q.id) && AsksToRetract(c.objects) && Truthy(c.relatedEventId)
    requires RetractionRefusal(store, c).None?
    ensures !IsRetraction(p)
  {
    TheEventWithAnId(store, q);
    TheEventWithAnId(store, p);
  }

  lemma {:induction false} TheEventWithAnId(store: seq<LedgerEvent>, e: LedgerEvent)
    requires UniqueIds(store) && e in store
    ensures FindById(store, e.id) == Some(e)
  {
    FindByIdFinds(store, e.id);
    var i := IndexOf(store, e);
    var j := IndexOf(store, FindById(store, e.id).value);
    assert i == j;
  }

  lemma {:induction false} RetractionsStayOrderly(store: seq<LedgerEvent>, c: Command, e: LedgerEvent)
    requires RetractionsAreOrderly(store) && Passed(store, c, e)
    ensures RetractionsAreOrderly(store + [e])
  {
    LineageStaysEarlier(store, c, e);
    OneRetractionStays(store, c, e);
    ChainsStayShallow(store, c, e);
    var after := store + [e];
    forall i, j | 0 <= i < j < |after| ensures after[i].id != after[j].id {
      assert after[i] in store;
    }
  }

  lemma {:induction false} UniquenessStays(store: seq<LedgerEvent>, e: LedgerEvent)
    requires UniqueSources(store) && UniqueCommandIds(store)
    requires !ExistsBySourceReference(store, e.source.reference)
    requires Truthy(e.commandId) ==> FindByCommandId(store, e.commandId.value).None?
    ensures UniqueSources(store + [e]) && UniqueCommandIds(store + [e])
  {
    var after := store + [e];
    forall i, j | 0 <= i < j < |after| ensures after[i].source.reference != after[j].source.reference {
      assert after[i] in store;
    }
    forall i, j | 0 <= i < j < |after| && Truthy(after[i].commandId) ensures after[i].commandId != after[j].commandId {
      assert after[i] in store;
      if j == |store| && Truthy(e.commandId) {
        FindByCommandIdFinds(store, e.commandId.value);
      }
    }
  }

  lemma {:induction false} ChainStays(store: seq<LedgerEvent>, e: LedgerEvent)
    requires Chained(store) && e.previousHash == LastEventHash(store)
    ensures Chained(store + [e])
  {
    var after := store + [e];
    forall i | 0 <= i < |after| ensures after[i].previousHash == LastEventHash(after[..i]) {
      assert after[..i] == store[..i];
      assert store[..|store|] == store;
    }
  }

  lemma {:induction false} CommitKeepsTheBookWellFormed(env: Env, store: seq<LedgerEvent>, c: Command, id: string, now: int)
    requires WellFormed(env, store)
    ensures WellFormed(env, After(store, Decide(env, store, c, id, now)))
  {
    var d := Decide(env, store, c, id, now);
    if d.Commit? {
      CommittedEvent(env, store, c, id, now);
      RetractionsStayOrderly(store, c, d.event);
      UniquenessStays(store, d.event);
      ChainStays(store, d.event);
    }
  }

  // ---- runs ----

  datatype Step = Step(command: Command, id: string, now: int)

  /** The book after a sequence of commands, from the empty one. */
  function Run(env: Env, steps: seq<Step>): seq<LedgerEvent> {
    if steps == [] then []
    else
      var s := steps[|steps| - 1];
      var before := Run(env, steps[..|steps| - 1]);
      After(before, Decide(env, before, s.command, s.id, s.now))
  }

  ghost predicate Reachable(env: Env, store: seq<LedgerEvent>) {
    exists steps :: Run(env, steps) == store
  }

  /** Every reachable book is well formed. */
  lemma {:induction false} RunsAreWellFormed(env: Env, steps: seq<Step>)
    ensures WellFormed(env, Run(env, steps))
  {
    if steps != [] {
      var s := steps[|steps| - 1];
      RunsAreWellFormed(env, steps[..|steps| - 1]);
      CommitKeepsTheBookWellFormed(env, Run(env, steps[..|steps| - 1]), s.command, s.id, s.now);
    }
  }

  /** Nothing recorded is ever rewritten: a longer run's book starts with the shorter run's. */
  lemma {:induction false} RunsOnlyAppend(env: Env, steps: seq<Step>, more: seq<Step>)
    ensures Run(env, steps) <= Run(env, steps + more)
  {
    if more == [] {
      assert steps + more == steps;
    } else {
      RunsOnlyAppend(env, steps, more[..|more| - 1]);
      assert (steps + more)[..|steps + more| - 1] == steps + more[..|more| - 1];
    }
  }

  /** On every reachable book the three readings of "stands" agree, event by event. */
  lemma {:induction false} StandingAgreesOnEveryReachableBook(env: Env, store: seq<LedgerEvent>, i: nat)
    requires Reachable(env, store) && i < |store|
    ensures Stands(store, i) <==> store[i].id !in RetractedIds(store)
    ensures Stands(store, i) <==> NotRetracted(store, store[i].id)
  {
    var steps :| Run(env, steps) == store;
    RunsAreWellFormed(env, steps);
    StandingHasOneMeaning(store, i);
  }

  // ---- the imperative step ----

  /** A refusal found on a prefix of the objects is the refusal of the whole command. */
  lemma {:induction false} SettlementRefusalSticks(store: seq<LedgerEvent>, objects: seq<EventObject>, k: nat, units: nat)
    requires k <= |objects|
    ensures SettlementRefusal(store, objects[..k], units).Some?
            ==> SettlementRefusal(store, objects, units) == SettlementRefusal(store, objects[..k], units)
  {
    var n := |objects| - 1;
    if k == |objects| {
      assert objects[..k] == objects;
    } else {
      SettlementRefusalSticks(store, objects[..n], k, units);
      assert objects[..n][..k] == objects[..k];
    }
  }

  class InMemoryLedgerEventRepository {
    var store: seq<LedgerEvent>

    constructor ()
      ensures store == []
    {
      store := [];
    }

    method Save(event: LedgerEvent) returns (saved: bool)
      modifies this
      ensures saved == !HasId(old(store), event.id)
      ensures store == if saved then old(store) + [event] else old(store)
    {
      if exists e :: e in store && e.id == event.id { return false; }
      store := store + [event];
      return true;
    }

    /** `filter` over the store, keeping the events that name the object. */
    method FindByObjectId(objectId: string) returns (found: seq<LedgerEvent>)
      ensures found == Scope(store, objectId)
    {
      found := [];
      for i := 0 to |store|
        invariant found == Scope(store[..i], objectId)
      {
        assert store[..i + 1][..i] == store[..i];
        if exists o :: o in store[i].objects && o.objectId == objectId {
          found := found + [store[i]];
        }
      }
      assert store[..|store|] == store;
    }
  }

  class CreateLedgerEventUseCase {
    const repository: InMemoryLedgerEventRepository
    const env: Env

    constructor (repository: InMemoryLedgerEventRepository, env: Env)
      ensures this.repository == repository && this.env == env
    {
      this.repository := repository;
      this.env := env;
    }

    ghost predicate Valid()
      reads this, repository
    {
      WellFormed(env, repository.store)
    }

    /** The over-settlement guard: each SETTLES of the command against the position it names. */
    method GuardSettlements(objects: seq<EventObject>, money: Money) returns (refusal: Option<Refusal>)
      ensures refusal == SettlementRefusal(repository.store, objects, money.units)
    {
      for i := 0 to |objects|
        invariant SettlementRefusal(repository.store, objects[..i], money.units).None?
      {
        assert objects[..i + 1][..i] == objects[..i];
        SettlementRefusalSticks(repository.store, objects, i + 1, money.units);
        if objects[i].relation != Settles { continue; }
        var positionEvents := repository.FindByObjectId(objects[i].objectId);
        var totals := FoldObjectTotals(positionEvents, objects[i].objectId);
        if totals.hasReversal { continue; }
        if totals.originatedUnits == 0 { continue; }
        if totals.closedUnits + money.units > totals.originatedUnits {
          if totals.closedUnits > totals.originatedUnits { return Some(NegativeOutstanding); }
          return Some(OverSettlement(objects[i].objectId, totals.originatedUnits - totals.closedUnits));
        }
      }
      assert objects[..|objects|] == objects;
      return None;
    }

    /** Lineage and rectification guards, then the settlement guard. */
    method Guard(command: Command, money: Money) returns (refusal: Option<Refusal>)
      ensures refusal == GuardRefusal(repository.store, command, money.units)
    {
      var originEvent: Option<LedgerEvent> := None;
      if Truthy(command.relatedEventId) {
        originEvent := FindById(repository.store, command.relatedEventId.value);
        if originEvent.None? { return Some(OriginNotFound); }
        var allowed := ContractOf(command.eventType).allowedOrigins;
        if allowed.Some? && originEvent.value.eventType !in allowed.value { return Some(OriginOfWrongType); }
      }
      var isRetraction := exists o :: o in command.objects && o.relation == Retracts;
      if originEvent.Some? && isRetraction {
        if exists e :: e in repository.store && e.relatedEventId == command.relatedEventId && CarriesRetraction(e) {
          return Some(AlreadyRetracted);
        }
        if CarriesRetraction(originEvent.value) && Truthy(originEvent.value.relatedEventId) {
          var retractedByTarget := FindById(repository.store, originEvent.value.relatedEventId.value);
          if retractedByTarget.Some? && CarriesRetraction(retractedByTarget.value) { return Some(RetractionChainTooDeep); }
        }
      }
      refusal := GuardSettlements(command.objects, money);
    }

    /** Building the event, validating it and saving it. */
    method Record(command: Command, money: Money, id: string, now: int) returns (result: Result<LedgerEvent, Refusal>)
      modifies repository
      ensures var d := DecideEvent(env, old(repository.store), command, money, id, now);
        && repository.store == After(old(repository.store), d)
        && result == if d.Refuse? then Err(d.refusal) else Ok(d.event)
    {
      var parties := ReadParties(command.parties, command.currency);
      if parties.Err? { return Err(InvalidMoney(parties.error)); }
      var event := Sealed(env, Draft(repository.store, command, money, parties.value, id, now));
      var violation := Validate(event);
      if violation.Some? { return Err(NotAdmissible(violation.value)); }
      var saved := repository.Save(event);
      if !saved { return Err(IdTaken); }
      return Ok(event);
    }

    /** One command, one atomic step. */
    method Execute(command: Command, id: string, now: int) returns (result: Result<LedgerEvent, Refusal>)
      requires Valid()
      modifies repository
      ensures Valid()
      ensures var d := Decide(env, old(repository.store), command, id, now);
        && repository.store == After(old(repository.store), d)
        && result == if d.Refuse? then Err(d.refusal) else Ok(d.event)
    {
      CommitKeepsTheBookWellFormed(env, repository.store, command, id, now);
      if Truthy(command.commandId) {
        var existing := FindByCommandId(repository.store, command.commandId.value);
        if existing.Some? { return Ok(existing.value); }
      }
      if ExistsBySourceReference(repository.store, command.sourceReference) { return Err(DuplicateSourceReference); }
      if id == "" { return Err(MissingId); }
      var amount := FromDecimal(command.amount, command.currency);
      if amount.Err? { return Err(InvalidMoney(amount.error)); }
      var refusal := Guard(command, amount.value);
      if refusal.Some? { return Err(refusal.value); }
      if command.normalizationVersion == "" || command.normalizationWorkerId == "" { return Err(IncompleteNormalization); }
      if command.sourceSystem == "" || command.sourceReference == "" { return Err(IncompleteSource); }
      result := Record(command, amount.value, id, now);
    }
  }
}
