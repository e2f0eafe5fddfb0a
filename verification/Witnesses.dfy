// Concrete commands and runs from the empty book: where the guards of
// ledger/src/core/application/use-cases/CreateLedgerEventUseCase.ts stop.

module Witnesses {
  import opened Prelude
  import opened Moneys
  import opened Events
  import opened Catalog
  import opened Validation
  import opened Retraction
  import opened Figures
  import opened EventPayload
  import opened Ledger
  import opened Conservation
  import opened Positions
  import opened Rectification

  // ---- plain events: non-cash, one neutral party ----

  /** A name of n characters: names of different lengths differ. */
  function Name(n: nat): (s: string)
    ensures |s| == n
  {
    seq(n, i => 'x')
  }

  datatype Plain = Plain(
    eventType: EventType,
    kind: ReasonType,
    objects: seq<EventObject>,
    units: nat,
    currency: string,
    commandId: Option<string>,
    related: Option<string>)

  function Receivable(position: string, relation: Relation): EventObject {
    EventObject(position, CommissionReceivable, relation)
  }

  function Accrual(position: string, units: nat): Plain {
    Plain(CommissionExpected, CommissionAccrual, [Receivable(position, Originates)], units, "BRL", None, None)
  }

  function Acknowledgement(objects: seq<EventObject>, units: nat): Plain {
    Plain(DirectPaymentAcknowledged, LateAwareness, objects, units, "BRL", None, None)
  }

  function Withdrawal(position: string, units: nat, target: string): Plain {
    Plain(LedgerCorrection, DataReconciliation, [Receivable(position, Retracts)], units, "BRL", None, Some(target))
  }

  function AdvanceGiven(position: string, units: nat): Plain {
    Plain(EventType.AdvancePayment, ReasonType.AdvancePayment, [EventObject(position, Advance, Originates)], units, "BRL", None, None)
  }

  /** An advance partly settled and partly adjusted by one event. */
  function AdvanceReturned(position: string, units: nat, origin: string): Plain {
    Plain(EventType.AdvanceSettlement, ReasonType.AdvancePayment,
      [EventObject(position, Advance, Settles), EventObject(position, Advance, Adjusts)], units, "BRL", None, Some(origin))
  }

  /** The object's tuple is one the event type admits. */
  predicate AdmissibleObject(p: Plain, o: EventObject) {
    match p.eventType
    case CommissionExpected => o.objectType == CommissionReceivable && o.relation == Originates
    case DirectPaymentAcknowledged => o.objectType == CommissionReceivable && o.relation == Settles
    case LedgerCorrection => o.objectType == CommissionReceivable && o.relation == Retracts
    case AdvancePayment => o.objectType == Advance && o.relation == Originates
    case AdvanceSettlement => o.objectType == Advance && (o.relation == Settles || o.relation == Adjusts)
    case _ => false
  }

  predicate Admissible(p: Plain) {
    && p.units > 0 && ValidCurrency(p.currency) && p.objects != []
    && (forall o :: o in p.objects ==> AdmissibleObject(p, o))
    && match p.eventType
       case CommissionExpected => p.kind == CommissionAccrual
       case DirectPaymentAcknowledged => p.kind == LateAwareness
       case LedgerCorrection => p.kind == DataReconciliation && Truthy(p.related)
       case AdvancePayment => p.kind == ReasonType.AdvancePayment
       case AdvanceSettlement => p.kind == ReasonType.AdvancePayment && Truthy(p.related)
       case _ => false
  }

  /** The command asks for the plain event, under any identity. */
  predicate AsksFor(c: Command, p: Plain) {
    && c.eventType == p.eventType && c.effect == NonCash && c.dueAt.None?
    && c.amount == ToString(Money(p.units, p.currency)) && c.currency == p.currency
    && c.parties == [CommandParty("u", Platform, Neutral, None)] && c.objects == p.objects
    && c.reason == Some(Reason(p.kind, "", High, false)) && c.relatedEventId == p.related
    && c.normalizationVersion != "" && c.normalizationWorkerId != "" && c.sourceSystem != "" && c.sourceReference != ""
  }

  ghost predicate IsPlain(e: LedgerEvent, p: Plain) {
    && e.eventType == p.eventType && e.effect == NonCash && e.amount == Money(p.units, p.currency) && e.dueAt.None?
    && e.parties == [Party("u", Platform, Neutral, None)] && e.objects == p.objects
    && e.reason == Some(Reason(p.kind, "", High, false)) && e.relatedEventId == p.related
    && (p.eventType == LedgerCorrection ==> e.previousHash.Some?)
  }

  // ---- they pass the rules of the entity ----

  lemma {:induction false} OneSilentLeg(p: Party, direction: Direction)
    requires p.amount.None?
    ensures Legs([p], direction) == 0
  {
    assert [p][..|[p]| - 1] == [];
    assert Legs([], direction) == 0;
  }

  lemma {:induction false} PlainFlow(e: LedgerEvent, p: Plain)
    requires IsPlain(e, p)
    ensures FlowViolation(e).None?
  {
    var u := Party("u", Platform, Neutral, None);
    OneSilentLeg(u, In);
    OneSilentLeg(u, Out);
    OneSilentLeg(u, Neutral);
    assert PartiesShareCurrency(e.parties, e.amount.currency);
  }

  lemma {:induction false} PlainBasics(e: LedgerEvent, p: Plain)
    requires Admissible(p) && IsPlain(e, p)
    ensures BasicViolation(e).None? && ReasonViolation(e).None?
  {
  }

  /** What the matrices and the contract are asked, for one object of a plain event. */
  lemma {:induction false} PlainObject(p: Plain, o: EventObject)
    requires Admissible(p) && o in p.objects
    ensures Positional(o) && o.relation in EffectRelations(NonCash) && o.relation in ObjectRelations(o.objectType)
    ensures o.objectType in ContractOf(p.eventType).objects && o.relation in ContractOf(p.eventType).objects[o.objectType]
    ensures ReasonRelations(p.kind).Some? ==> o.relation in ReasonRelations(p.kind).value
    ensures o.relation != Reverses
    ensures o.relation == Retracts <==> p.eventType == LedgerCorrection
  {
    assert AdmissibleObject(p, o);
  }

  lemma {:induction false} PlainContract(p: Plain)
    requires Admissible(p)
    ensures NonCash in ContractOf(p.eventType).effects && p.kind in ContractOf(p.eventType).reasons
    ensures ReasonEffects(p.kind).Some? ==> NonCash in ReasonEffects(p.kind).value
    ensures ContractOf(p.eventType).requiresPreviousHash ==> p.eventType == LedgerCorrection
    ensures ContractOf(p.eventType).requiresRelatedEventId ==> p.eventType == EventType.AdvanceSettlement
  {
  }

  lemma {:induction false} PlainMeaning(e: LedgerEvent, p: Plain)
    requires Admissible(p) && IsPlain(e, p)
    ensures ObjectViolation(e).None? && CauseViolation(e).None?
  {
    PlainContract(p);
    forall o | o in e.objects
      ensures Positional(o) && o.relation in EffectRelations(NonCash) && o.relation in ObjectRelations(o.objectType)
           && o.objectType in ContractOf(p.eventType).objects && o.relation in ContractOf(p.eventType).objects[o.objectType]
           && (ReasonRelations(p.kind).Some? ==> o.relation in ReasonRelations(p.kind).value)
    {
      PlainObject(p, o);
    }
  }

  lemma {:induction false} PlainLinks(e: LedgerEvent, p: Plain)
    requires Admissible(p) && IsPlain(e, p)
    ensures LinkViolation(e).None?
  {
    PlainContract(p);
    forall o | o in e.objects
      ensures Positional(o) && o.relation != Reverses && (o.relation == Retracts <==> p.eventType == LedgerCorrection)
    {
      PlainObject(p, o);
    }
  }

  lemma {:induction false} PlainIsValid(e: LedgerEvent, p: Plain)
    requires Admissible(p) && IsPlain(e, p)
    ensures IsValid(e)
  {
    PlainFlow(e, p);
    PlainBasics(e, p);
    PlainMeaning(e, p);
    PlainLinks(e, p);
  }

  // ---- and are recorded when the guards let them ----

  function EventOf(env: Env, store: seq<LedgerEvent>, c: Command, p: Plain, id: string, now: int): LedgerEvent {
    Sealed(env, Draft(store, c, Money(p.units, p.currency), [Party("u", Platform, Neutral, None)], id, now))
  }

  lemma {:induction false} PlainPartiesAreRead(currency: string)
    ensures ReadParties([CommandParty("u", Platform, Neutral, None)], currency) == Ok([Party("u", Platform, Neutral, None)])
  {
    var parties := [CommandParty("u", Platform, Neutral, None)];
    assert parties[..|parties| - 1] == [];
    assert ReadParties(parties[..|parties| - 1], currency) == Ok([]);
    assert [] + [Party("u", Platform, Neutral, None)] == [Party("u", Platform, Neutral, None)];
  }

  lemma {:induction false} TheEventIsPlain(env: Env, store: seq<LedgerEvent>, c: Command, p: Plain, id: string, now: int)
    requires AsksFor(c, p) && (p.eventType == LedgerCorrection ==> store != [])
    ensures var e := EventOf(env, store, c, p, id, now);
      && IsPlain(e, p) && e.id == id && e.source.reference == c.sourceReference && e.commandId == c.commandId
  {
  }

  /** A plain command that is new and passes the guards is recorded. */
  lemma {:induction false} PlainCommits(env: Env, store: seq<LedgerEvent>, c: Command, p: Plain, id: string, now: int) returns (e: LedgerEvent)
    requires AsksFor(c, p) && Admissible(p) && (p.eventType == LedgerCorrection ==> store != [])
    requires IsNew(store, c, id) && GuardRefusal(store, c, p.units).None?
    ensures Decide(env, store, c, id, now) == Commit(e) && e == EventOf(env, store, c, p, id, now)
    ensures IsPlain(e, p) && e.id == id && e.source.reference == c.sourceReference && e.commandId == c.commandId
  {
    e := EventOf(env, store, c, p, id, now);
    ReadingBackWhatWasPrinted(Money(p.units, p.currency));
    PlainPartiesAreRead(p.currency);
    TheEventIsPlain(env, store, c, p, id, now);
    PlainIsValid(e, p);
    PlainDecision(env, store, c, p, id, now);
  }

  lemma {:induction false} PlainDecision(env: Env, store: seq<LedgerEvent>, c: Command, p: Plain, id: string, now: int)
    requires AsksFor(c, p) && IsNew(store, c, id)
    requires FromDecimal(c.amount, c.currency) == Ok(Money(p.units, p.currency))
    requires ReadParties(c.parties, c.currency) == Ok([Party("u", Platform, Neutral, None)])
    requires IsValid(EventOf(env, store, c, p, id, now))
    requires GuardRefusal(store, c, p.units).None?
    ensures Decide(env, store, c, id, now) == Commit(EventOf(env, store, c, p, id, now))
  {
  }

  // ---- what they pass ----

  lemma {:induction false} NoSettlementNoRefusal(store: seq<LedgerEvent>, objects: seq<EventObject>, units: nat)
    requires forall o :: o in objects && o.relation == Settles ==> ClosingRefusal(store, o.objectId, units).None?
    ensures SettlementRefusal(store, objects, units).None?
  {
    if objects != [] {
      NoSettlementNoRefusal(store, objects[..|objects| - 1], units);
    }
  }

  lemma {:induction false} PlainRetractsOrNot(p: Plain)
    requires Admissible(p)
    ensures AsksToRetract(p.objects) <==> p.eventType == LedgerCorrection
    ensures p.eventType == LedgerCorrection ==> forall o :: o in p.objects ==> o.relation == Retracts
  {
    forall o | o in p.objects ensures o.relation == Retracts <==> p.eventType == LedgerCorrection {
      PlainObject(p, o);
    }
    assert p.objects[0] in p.objects;
  }

  /** A plain command that retracts nothing passes when its origin is allowed and what it settles fits. */
  lemma {:induction false} PlainPasses(store: seq<LedgerEvent>, c: Command, p: Plain)
    requires AsksFor(c, p) && Admissible(p) && p.eventType != LedgerCorrection && LineageRefusal(store, c).None?
    requires forall o :: o in p.objects && o.relation == Settles ==> ClosingRefusal(store, o.objectId, p.units).None?
    ensures GuardRefusal(store, c, p.units).None?
  {
    PlainRetractsOrNot(p);
    NoSettlementNoRefusal(store, p.objects, p.units);
  }

  /** A withdrawal of an event passes while the book holds no retraction at all. */
  lemma {:induction false} WithdrawalPasses(store: seq<LedgerEvent>, c: Command, p: Plain, t: LedgerEvent)
    requires AsksFor(c, p) && Admissible(p) && p.eventType == LedgerCorrection && t in store && p.related == Some(t.id)
    requires forall e :: e in store ==> !CarriesRetraction(e)
    ensures GuardRefusal(store, c, p.units).None?
  {
    FindByIdFinds(store, t.id);
    PlainRetractsOrNot(p);
    NoSettlementNoRefusal(store, p.objects, p.units);
    WithdrawalLineage(store, c);
  }

  lemma {:induction false} WithdrawalLineage(store: seq<LedgerEvent>, c: Command)
    requires c.eventType == LedgerCorrection && Truthy(c.relatedEventId) && FindById(store, c.relatedEventId.value).Some?
    requires forall e :: e in store ==> !CarriesRetraction(e)
    ensures LineageRefusal(store, c).None? && RetractionRefusal(store, c).None?
  {
    FindByIdFinds(store, c.relatedEventId.value);
  }

  // ---- runs of plain commands ----

  function CommandOf(p: Plain, n: nat): Command {
    Command(p.eventType, NonCash, 0, None, None, ToString(Money(p.units, p.currency)), p.currency, None, "s", Name(n), "1", "w",
      p.commandId, p.related, [CommandParty("u", Platform, Neutral, None)], p.objects,
      Some(Reason(p.kind, "", High, false)), User, "u", None, "web")
  }

  function StepsOf(ps: seq<Plain>): seq<Step> {
    seq(|ps|, i requires 0 <= i < |ps| => Step(CommandOf(ps[i], i + 1), Name(i + 1), 0))
  }

  function Book(env: Env, ps: seq<Plain>): seq<LedgerEvent> {
    Run(env, StepsOf(ps))
  }

  /** The i-th event is called by its number, and is that of the i-th command. */
  ghost predicate Records(store: seq<LedgerEvent>, ps: seq<Plain>) {
    && |store| == |ps|
    && forall i :: 0 <= i < |store| ==>
         && store[i].id == Name(i + 1) && store[i].source.reference == Name(i + 1)
         && store[i].commandId == ps[i].commandId && IsPlain(store[i], ps[i])
  }

  /** Every command of the run was recorded, under its number. */
  ghost predicate AllRecorded(env: Env, ps: seq<Plain>) {
    Records(Book(env, ps), ps)
  }

  lemma {:induction false} TheNextNameIsNew(store: seq<LedgerEvent>, ps: seq<Plain>, p: Plain)
    requires Records(store, ps) && !Truthy(p.commandId)
    ensures IsNew(store, CommandOf(p, |store| + 1), Name(|store| + 1))
  {
    forall e | e in store ensures e.id != Name(|store| + 1) && e.source.reference != Name(|store| + 1) {
      var i := IndexOf(store, e);
      assert |store[i].id| == i + 1 && |store[i].source.reference| == i + 1;
    }
    assert |Name(|store| + 1)| == |store| + 1;
  }

  lemma {:induction false} EmptyBook(env: Env)
    ensures Book(env, []) == [] && AllRecorded(env, [])
  {
  }

  lemma {:induction false} BookOfOneMore(env: Env, ps: seq<Plain>, p: Plain)
    ensures StepsOf(ps + [p]) == StepsOf(ps) + [Step(CommandOf(p, |ps| + 1), Name(|ps| + 1), 0)]
    ensures Book(env, ps + [p])
            == After(Book(env, ps), Decide(env, Book(env, ps), CommandOf(p, |ps| + 1), Name(|ps| + 1), 0))
  {
    var steps := StepsOf(ps + [p]);
    assert steps == StepsOf(ps) + [Step(CommandOf(p, |ps| + 1), Name(|ps| + 1), 0)];
    assert steps[..|steps| - 1] == StepsOf(ps);
  }

  lemma {:induction false} CommandAsksFor(p: Plain, n: nat)
    requires n > 0
    ensures AsksFor(CommandOf(p, n), p)
  {
    assert |Name(n)| == n;
  }

  lemma {:induction false} OneMoreRecord(store: seq<LedgerEvent>, ps: seq<Plain>, e: LedgerEvent, p: Plain)
    requires Records(store, ps) && IsPlain(e, p) && e.commandId == p.commandId
    requires e.id == e.source.reference == Name(|ps| + 1)
    ensures Records(store + [e], ps + [p])
  {
  }

  lemma {:induction false} OneMoreRecorded(env: Env, ps: seq<Plain>, p: Plain) returns (e: LedgerEvent)
    requires AllRecorded(env, ps) && Admissible(p) && !Truthy(p.commandId) && (p.eventType == LedgerCorrection ==> ps != [])
    requires GuardRefusal(Book(env, ps), CommandOf(p, |ps| + 1), p.units).None?
    ensures AllRecorded(env, ps + [p]) && Book(env, ps + [p]) == Book(env, ps) + [e] && IsPlain(e, p)
    ensures Decide(env, Book(env, ps), CommandOf(p, |ps| + 1), Name(|ps| + 1), 0) == Commit(e)
  {
    TheNextNameIsNew(Book(env, ps), ps, p);
    CommandAsksFor(p, |ps| + 1);
    e := PlainCommits(env, Book(env, ps), CommandOf(p, |ps| + 1), p, Name(|ps| + 1), 0);
    BookOfOneMore(env, ps, p);
    OneMoreRecord(Book(env, ps), ps, e, p);
  }

  // ---- what they move ----

  function Moved(before: ObjectTotals, p: Plain, objectId: string): ObjectTotals {
    ObjectTotals(
      before.originatedUnits + Count(p.objects, objectId, Originates) * p.units,
      before.closedUnits + (Count(p.objects, objectId, Settles) + Count(p.objects, objectId, Adjusts)) * p.units,
      before.hasReversal)
  }

  lemma {:induction false} PlainShares(before: ObjectTotals, e: LedgerEvent, p: Plain, objectId: string)
    requires Admissible(p) && e.amount.units == p.units
    ensures PlusShares(before, e, p.objects, objectId) == Moved(before, p, objectId)
  {
    SharesAreCounted(e, p.objects, objectId);
    CountIsOccurrence(p.objects, objectId, Reverses);
    forall o | o in p.objects ensures o.relation != Reverses {
      PlainObject(p, o);
    }
    Distribute(Count(p.objects, objectId, Settles), Count(p.objects, objectId, Adjusts), p.units);
  }

  /** What recording an event does to a position, given the decision that recorded it. */
  lemma {:induction false} RecordedMoves(env: Env, store: seq<LedgerEvent>, c: Command, id: string, e: LedgerEvent, p: Plain, objectId: string)
    requires WellFormed(env, store) && Decide(env, store, c, id, 0) == Commit(e)
    requires c.objects == p.objects && e.amount.units == p.units && Admissible(p) && p.eventType != LedgerCorrection
    ensures Position(store + [e], objectId) == Moved(Position(store, objectId), p, objectId)
  {
    PlainRetractsOrNot(p);
    StepEffect(env, store, c, id, 0, objectId);
    PlainShares(Position(store, objectId), e, p, objectId);
  }

  /** What a plain event that retracts nothing does to a position. */
  lemma {:induction false} PlainMoves(env: Env, ps: seq<Plain>, p: Plain, objectId: string) returns (e: LedgerEvent)
    requires AllRecorded(env, ps) && Admissible(p) && !Truthy(p.commandId) && p.eventType != LedgerCorrection
    requires GuardRefusal(Book(env, ps), CommandOf(p, |ps| + 1), p.units).None?
    ensures AllRecorded(env, ps + [p]) && Book(env, ps + [p]) == Book(env, ps) + [e] && IsPlain(e, p)
    ensures Position(Book(env, ps + [p]), objectId) == Moved(Position(Book(env, ps), objectId), p, objectId)
  {
    e := OneMoreRecorded(env, ps, p);
    RunsAreWellFormed(env, StepsOf(ps));
    RecordedMoves(env, Book(env, ps), CommandOf(p, |ps| + 1), Name(|ps| + 1), e, p, objectId);
  }

  lemma {:induction false} CountOfOne(o: EventObject, objectId: string, relation: Relation)
    ensures Count([o], objectId, relation) == if o.objectId == objectId && o.relation == relation then 1 else 0
  {
    assert [o][..|[o]| - 1] == [];
    assert Count([], objectId, relation) == 0;
  }

  lemma {:induction false} CountOfTwo(o: EventObject, q: EventObject, objectId: string, relation: Relation)
    ensures Count([o, q], objectId, relation)
            == (if o.objectId == objectId && o.relation == relation then 1 else 0)
               + (if q.objectId == objectId && q.relation == relation then 1 else 0)
  {
    assert [o, q][..|[o, q]| - 1] == [o];
    CountOfOne(o, objectId, relation);
  }

  // ---- runs on one position, with one kind of irregularity ----

  const P: string := "p"

  ghost predicate RegularEverywhereBut(env: Env, steps: seq<Step>, tolerated: Irregularity) {
    forall objectId :: RegularBut(env, steps, objectId, Some(tolerated))
  }

  /** The command does nothing irregular at any position, but perhaps in the tolerated way. */
  ghost predicate RegularCommandBut(store: seq<LedgerEvent>, c: Command, tolerated: Irregularity) {
    forall objectId, x :: x != tolerated ==> !Irregular(store, c, objectId, x)
  }

  lemma {:induction false} RegularSnoc(env: Env, steps: seq<Step>, s: Step, tolerated: Irregularity)
    requires RegularEverywhereBut(env, steps, tolerated) && RegularCommandBut(Run(env, steps), s.command, tolerated)
    ensures RegularEverywhereBut(env, steps + [s], tolerated)
  {
    var longer := steps + [s];
    forall objectId, i, x | 0 <= i < |longer| && Some(x) != Some(tolerated)
      ensures !StepIsIrregular(env, Run(env, longer[..i]), longer[i], objectId, x)
    {
      if i == |steps| {
        assert longer[..i] == steps && longer[i] == s;
      } else {
        assert RegularBut(env, steps, objectId, Some(tolerated));
        assert longer[..i] == steps[..i] && longer[i] == steps[i];
      }
    }
  }

  /** One object on one position: what makes it irregular. */
  lemma {:induction false} OneObjectIsRegular(store: seq<LedgerEvent>, c: Command, o: EventObject, tolerated: Irregularity)
    requires c.objects == [o] && o.relation != Adjusts
    requires o.relation == Retracts ==> tolerated == Irregularity.Retraction
    requires o.relation == Originates && tolerated != OriginatingLate ==>
      var t := Position(store, o.objectId); t.originatedUnits != 0 || t.closedUnits == 0
    ensures RegularCommandBut(store, c, tolerated)
  {
    forall objectId, relation
      ensures Count(c.objects, objectId, relation) == if o.objectId == objectId && o.relation == relation then 1 else 0
    {
      CountOfOne(o, objectId, relation);
    }
  }

  /** Two objects on one position, settling twice or settling and adjusting. */
  lemma {:induction false} TwoObjectsAreRegular(store: seq<LedgerEvent>, c: Command, o: EventObject, q: EventObject, tolerated: Irregularity)
    requires c.objects == [o, q] && o.objectId == q.objectId && o.relation == Settles
    requires (q.relation == Settles && tolerated == SettlingTwice) || (q.relation == Adjusts && tolerated == Adjusting)
    ensures RegularCommandBut(store, c, tolerated)
  {
    forall objectId, relation
      ensures Count(c.objects, objectId, relation)
              == (if o.objectId == objectId && o.relation == relation then 1 else 0)
                 + (if q.objectId == objectId && q.relation == relation then 1 else 0)
    {
      CountOfTwo(o, q, objectId, relation);
    }
  }

  /** A run, the position after it, and the one irregularity it may contain; it retracts nothing so far. */
  ghost predicate Reaches(env: Env, ps: seq<Plain>, tolerated: Irregularity, totals: ObjectTotals) {
    && AllRecorded(env, ps) && RegularEverywhereBut(env, StepsOf(ps), tolerated)
    && Position(Book(env, ps), P) == totals
    && ForwardOnly(Book(env, ps))
  }

  ghost predicate ForwardOnly(store: seq<LedgerEvent>) {
    forall e :: e in store ==> !CarriesRetraction(e) && Names(e, P)
  }

  lemma {:induction false} ForwardStays(store: seq<LedgerEvent>, e: LedgerEvent, p: Plain)
    requires ForwardOnly(store) && IsPlain(e, p) && Admissible(p) && p.eventType != LedgerCorrection && p.objects[0].objectId == P
    ensures ForwardOnly(store + [e])
  {
    PlainRetractsOrNot(p);
    assert p.objects[0] in e.objects;
  }

  lemma {:induction false} ReachesNothing(env: Env, tolerated: Irregularity)
    ensures Reaches(env, [], tolerated, ObjectTotals(0, 0, false))
  {
    EmptyBook(env);
    assert Scope([], P) == [];
  }

  /** One more plain event on the one position the witnesses use. */
  lemma {:induction false} ReachesOneMore(env: Env, ps: seq<Plain>, p: Plain, tolerated: Irregularity, totals: ObjectTotals)
    requires Reaches(env, ps, tolerated, totals) && Admissible(p) && !Truthy(p.commandId) && p.eventType != LedgerCorrection
    requires GuardRefusal(Book(env, ps), CommandOf(p, |ps| + 1), p.units).None?
    requires RegularCommandBut(Book(env, ps), CommandOf(p, |ps| + 1), tolerated)
    requires p.objects[0].objectId == P
    ensures Reaches(env, ps + [p], tolerated, Moved(totals, p, P))
  {
    var e := PlainMoves(env, ps, p, P);
    ForwardStays(Book(env, ps), e, p);
    BookOfOneMore(env, ps, p);
    RegularSnoc(env, StepsOf(ps), Step(CommandOf(p, |ps| + 1), Name(|ps| + 1), 0), tolerated);
  }

  /** A plain command on the one position, allowed and regular: what its guard and its place in the run ask. */
  ghost predicate GoesThrough(store: seq<LedgerEvent>, p: Plain, tolerated: Irregularity) {
    var c := CommandOf(p, |store| + 1);
    && Admissible(p) && !Truthy(p.commandId) && p.eventType != LedgerCorrection && p.objects[0].objectId == P
    && GuardRefusal(store, c, p.units).None? && RegularCommandBut(store, c, tolerated)
  }

  lemma {:induction false} ReachesNext(env: Env, ps: seq<Plain>, p: Plain, tolerated: Irregularity, totals: ObjectTotals)
    requires Reaches(env, ps, tolerated, totals) && GoesThrough(Book(env, ps), p, tolerated)
    ensures Reaches(env, ps + [p], tolerated, Moved(totals, p, P))
  {
    ReachesOneMore(env, ps, p, tolerated, totals);
  }

  lemma {:induction false} MovedByOne(totals: ObjectTotals, p: Plain, o: EventObject)
    requires p.objects == [o] && o.objectId == P
    ensures Moved(totals, p, P)
            == if o.relation == Originates then totals.(originatedUnits := totals.originatedUnits + p.units)
               else if o.relation == Settles || o.relation == Adjusts then totals.(closedUnits := totals.closedUnits + p.units)
               else totals
  {
    CountOfOne(o, P, Originates);
    CountOfOne(o, P, Settles);
    CountOfOne(o, P, Adjusts);
  }

  lemma {:induction false} MovedByTwo(totals: ObjectTotals, p: Plain, o: EventObject, q: EventObject)
    requires p.objects == [o, q] && o.objectId == q.objectId == P && o.relation == Settles
    requires q.relation == Settles || q.relation == Adjusts
    ensures Moved(totals, p, P) == totals.(closedUnits := totals.closedUnits + 2 * p.units)
  {
    CountOfTwo(o, q, P, Originates);
    CountOfTwo(o, q, P, Settles);
    CountOfTwo(o, q, P, Adjusts);
  }

  lemma {:induction false} OriginationGoesThrough(store: seq<LedgerEvent>, p: Plain, tolerated: Irregularity)
    requires p.units > 0 && (p == Accrual(P, p.units) || p == AdvanceGiven(P, p.units))
    requires tolerated == OriginatingLate || Position(store, P).originatedUnits != 0 || Position(store, P).closedUnits == 0
    ensures GoesThrough(store, p, tolerated)
  {
    var c := CommandOf(p, |store| + 1);
    CommandAsksFor(p, |store| + 1);
    PlainPasses(store, c, p);
    OneObjectIsRegular(store, c, p.objects[0], tolerated);
  }

  lemma {:induction false} SettlementGoesThrough(store: seq<LedgerEvent>, units: nat, tolerated: Irregularity)
    requires units > 0 && ClosingRefusal(store, P, units).None?
    ensures GoesThrough(store, Acknowledgement([Receivable(P, Settles)], units), tolerated)
  {
    var p := Acknowledgement([Receivable(P, Settles)], units);
    var c := CommandOf(p, |store| + 1);
    CommandAsksFor(p, |store| + 1);
    PlainPasses(store, c, p);
    OneObjectIsRegular(store, c, p.objects[0], tolerated);
  }

  lemma {:induction false} DoubleSettlementGoesThrough(store: seq<LedgerEvent>, units: nat)
    requires units > 0 && ClosingRefusal(store, P, units).None?
    ensures GoesThrough(store, Acknowledgement([Receivable(P, Settles), Receivable(P, Settles)], units), SettlingTwice)
  {
    var o := Receivable(P, Settles);
    var p := Acknowledgement([o, o], units);
    var c := CommandOf(p, |store| + 1);
    CommandAsksFor(p, |store| + 1);
    PlainPasses(store, c, p);
    TwoObjectsAreRegular(store, c, o, o, SettlingTwice);
  }

  lemma {:induction false} ReturnGoesThrough(store: seq<LedgerEvent>, units: nat, t: LedgerEvent)
    requires store == [t] && t.id != "" && t.eventType == EventType.AdvancePayment
    requires units > 0 && ClosingRefusal(store, P, units).None?
    ensures GoesThrough(store, AdvanceReturned(P, units, t.id), Adjusting)
  {
    ReturnIsAdmissible(units, t.id);
    ReturnPasses(store, AdvanceReturned(P, units, t.id), t);
    ReturnIsRegular(store, AdvanceReturned(P, units, t.id));
  }

  lemma {:induction false} ReturnPasses(store: seq<LedgerEvent>, p: Plain, t: LedgerEvent)
    requires store == [t] && t.id != "" && t.eventType == EventType.AdvancePayment
    requires p.eventType == EventType.AdvanceSettlement && p.related == Some(t.id) && Admissible(p)
    requires (forall o :: o in p.objects ==> o.objectId == P) && ClosingRefusal(store, P, p.units).None?
    ensures GuardRefusal(store, CommandOf(p, |store| + 1), p.units).None?
  {
    var c := CommandOf(p, |store| + 1);
    CommandAsksFor(p, |store| + 1);
    ReturnHasItsOrigin(store, c, t);
    PlainPasses(store, c, p);
  }

  lemma {:induction false} ReturnIsRegular(store: seq<LedgerEvent>, p: Plain)
    requires p.objects == [EventObject(P, Advance, Settles), EventObject(P, Advance, Adjusts)]
    ensures RegularCommandBut(store, CommandOf(p, |store| + 1), Adjusting)
  {
    TwoObjectsAreRegular(store, CommandOf(p, |store| + 1), p.objects[0], p.objects[1], Adjusting);
  }

  lemma {:induction false} ReturnIsAdmissible(units: nat, origin: string)
    requires units > 0 && origin != ""
    ensures Admissible(AdvanceReturned(P, units, origin))
  {
  }

  lemma {:induction false} ReturnHasItsOrigin(store: seq<LedgerEvent>, c: Command, t: LedgerEvent)
    requires store == [t] && t.id != "" && t.eventType == EventType.AdvancePayment
    requires c.relatedEventId == Some(t.id) && c.eventType == EventType.AdvanceSettlement
    ensures LineageRefusal(store, c).None?
  {
    assert FindById(store, t.id) == Some(t);
  }

  lemma {:induction false} ReachesOrigination(env: Env, ps: seq<Plain>, p: Plain, tolerated: Irregularity, totals: ObjectTotals)
    requires Reaches(env, ps, tolerated, totals) && p.units > 0
    requires p == Accrual(P, p.units) || p == AdvanceGiven(P, p.units)
    requires tolerated == OriginatingLate || totals.originatedUnits != 0 || totals.closedUnits == 0
    ensures Reaches(env, ps + [p], tolerated, totals.(originatedUnits := totals.originatedUnits + p.units))
  {
    OriginationGoesThrough(Book(env, ps), p, tolerated);
    MovedByOne(totals, p, p.objects[0]);
    ReachesNext(env, ps, p, tolerated, totals);
  }

  lemma {:induction false} ReachesSettlement(env: Env, ps: seq<Plain>, units: nat, tolerated: Irregularity, totals: ObjectTotals)
    requires Reaches(env, ps, tolerated, totals) && units > 0
    requires totals.originatedUnits == 0 || totals.closedUnits + units <= totals.originatedUnits
    ensures Reaches(env, ps + [Acknowledgement([Receivable(P, Settles)], units)], tolerated,
              totals.(closedUnits := totals.closedUnits + units))
  {
    var p := Acknowledgement([Receivable(P, Settles)], units);
    SettlementGoesThrough(Book(env, ps), units, tolerated);
    MovedByOne(totals, p, p.objects[0]);
    ReachesNext(env, ps, p, tolerated, totals);
  }

  lemma {:induction false} ReachesDoubleSettlement(env: Env, ps: seq<Plain>, units: nat, totals: ObjectTotals)
    requires Reaches(env, ps, SettlingTwice, totals) && units > 0
    requires totals.originatedUnits == 0 || totals.closedUnits + units <= totals.originatedUnits
    ensures Reaches(env, ps + [Acknowledgement([Receivable(P, Settles), Receivable(P, Settles)], units)], SettlingTwice,
              totals.(closedUnits := totals.closedUnits + 2 * units))
  {
    var p := Acknowledgement([Receivable(P, Settles), Receivable(P, Settles)], units);
    DoubleSettlementGoesThrough(Book(env, ps), units);
    MovedByTwo(totals, p, p.objects[0], p.objects[1]);
    ReachesNext(env, ps, p, SettlingTwice, totals);
  }

  lemma {:induction false} ReachesReturn(env: Env, ps: seq<Plain>, units: nat, t: LedgerEvent, totals: ObjectTotals)
    requires Reaches(env, ps, Adjusting, totals) && units > 0 && Book(env, ps) == [t]
    requires t.id != "" && t.eventType == EventType.AdvancePayment
    requires totals.originatedUnits == 0 || totals.closedUnits + units <= totals.originatedUnits
    ensures Reaches(env, ps + [AdvanceReturned(P, units, t.id)], Adjusting, totals.(closedUnits := totals.closedUnits + 2 * units))
  {
    var p := AdvanceReturned(P, units, t.id);
    ReturnGoesThrough(Book(env, ps), units, t);
    MovedByTwo(totals, p, p.objects[0], p.objects[1]);
    ReachesNext(env, ps, p, Adjusting, totals);
  }

  // ---- each irregularity breaks conservation on its own ----

  /** A run with no irregularity but of one kind, anywhere, and a position it leaves with more closed than opened. */
  ghost predicate BreaksBy(env: Env, ps: seq<Plain>, x: Irregularity) {
    AllRecorded(env, ps) && RegularEverywhereBut(env, StepsOf(ps), x) && !Conserved(Book(env, ps), P)
  }

  /** One event that settles a position twice is measured once. */
  lemma {:induction false} SettlingTwiceBreaks(env: Env) returns (ps: seq<Plain>)
    ensures BreaksBy(env, ps, SettlingTwice)
  {
    ReachesNothing(env, SettlingTwice);
    ReachesOrigination(env, [], Accrual(P, 100), SettlingTwice, ObjectTotals(0, 0, false));
    ReachesDoubleSettlement(env, [] + [Accrual(P, 100)], 60, ObjectTotals(100, 0, false));
    ps := [] + [Accrual(P, 100)] + [Acknowledgement([Receivable(P, Settles), Receivable(P, Settles)], 60)];
  }

  /** A payment without a baseline is admitted, and so is a smaller baseline after it. */
  lemma {:induction false} OriginatingLateBreaks(env: Env) returns (ps: seq<Plain>)
    ensures BreaksBy(env, ps, OriginatingLate)
  {
    ReachesNothing(env, OriginatingLate);
    ReachesSettlement(env, [], 100, OriginatingLate, ObjectTotals(0, 0, false));
    var paid := [] + [Acknowledgement([Receivable(P, Settles)], 100)];
    ReachesOrigination(env, paid, Accrual(P, 60), OriginatingLate, ObjectTotals(0, 100, false));
    ps := paid + [Accrual(P, 60)];
  }

  lemma {:induction false} FirstEvent(store: seq<LedgerEvent>, ps: seq<Plain>) returns (t: LedgerEvent)
    requires Records(store, ps) && ps != []
    ensures t == store[0] && t in store && t.id == Name(1) && t.id != "" && IsPlain(t, ps[0])
  {
    t := store[0];
    assert |Name(1)| == 1;
  }

  /**
   * One event that settles an advance once and also adjusts it is measured by what it settles: of an advance of
   * 100, settling 60 and adjusting 60 leaves 120 closed.
   */
  lemma {:induction false} AdjustingBreaks(env: Env) returns (ps: seq<Plain>)
    ensures BreaksBy(env, ps, Adjusting) && |ps| == 2
    ensures Count(ps[1].objects, P, Settles) == 1
    ensures Position(Book(env, ps[..1]), P) == ObjectTotals(100, 0, false)
    ensures Position(Book(env, ps), P) == ObjectTotals(100, 120, false)
  {
    var given := AdvanceGiven(P, 100);
    ReachesNothing(env, Adjusting);
    ReachesOrigination(env, [], given, Adjusting, ObjectTotals(0, 0, false));
    var before := [] + [given];
    var t := FirstEvent(Book(env, before), before);
    var returned := AdvanceReturned(P, 60, t.id);
    ReachesReturn(env, before, 60, t, ObjectTotals(100, 0, false));
    ps := before + [returned];
    assert ps[..1] == before;
    CountOfTwo(returned.objects[0], returned.objects[1], P, Settles);
  }

  lemma {:induction false} AllInScope(store: seq<LedgerEvent>, objectId: string)
    requires forall e :: e in store ==> Names(e, objectId)
    ensures Scope(store, objectId) == store
  {
    if store != [] {
      AllInScope(store[..|store| - 1], objectId);
    }
  }

  /** A withdrawal of the first event of a run is recorded. */
  lemma {:induction false} WithdrawalIsRecorded(env: Env, ps: seq<Plain>, w: Plain, t: LedgerEvent) returns (r: LedgerEvent)
    requires AllRecorded(env, ps) && ps != [] && ForwardOnly(Book(env, ps)) && t in Book(env, ps) && t.id != ""
    requires |w.objects| == 1 && w == Withdrawal(w.objects[0].objectId, w.units, t.id) && w.units > 0
    ensures AllRecorded(env, ps + [w]) && Book(env, ps + [w]) == Book(env, ps) + [r]
    ensures IsRetraction(r) && Retracting(r, t.id) && r.objects == w.objects
  {
    CommandAsksFor(w, |ps| + 1);
    WithdrawalPasses(Book(env, ps), CommandOf(w, |ps| + 1), w, t);
    r := OneMoreRecorded(env, ps, w);
    assert r.objects[0].relation == Retracts;
  }

  /** The figures of a position once the one accrual it began with is withdrawn, by naming it or another. */
  lemma {:induction false} WithdrawnPosition(env: Env, steps: seq<Step>, store: seq<LedgerEvent>, r: LedgerEvent, t: LedgerEvent)
    requires Run(env, steps) == store + [r] && t in store && IsRetraction(r) && Retracting(r, t.id) && !CarriesRetraction(t)
    requires t.objects == [Receivable(P, Originates)]
    ensures var before := Position(store, P);
      Position(store + [r], P)
      == if Names(r, P) then before.(originatedUnits := before.originatedUnits - t.amount.units) else before
  {
    WithdrawnRun(env, steps, store, r, t);
    WithdrawnTotals(Scope(store, P), Scope(store + [r], P), t, Names(r, P));
  }

  lemma {:induction false} WithdrawnTotals(before: seq<LedgerEvent>, after: seq<LedgerEvent>, t: LedgerEvent, named: bool)
    requires t.objects == [Receivable(P, Originates)]
    requires forall fig :: PerPosition(fig) && fig.objectId == P ==>
      Value(after, fig) == Value(before, fig) - (if named then Contribution(fig, t) else 0)
    ensures TotalsOf(after, P)
            == if named then TotalsOf(before, P).(originatedUnits := TotalsOf(before, P).originatedUnits - t.amount.units)
               else TotalsOf(before, P)
  {
    AccrualContributes(t);
    Conservation.TotalsAreValues(before, P);
    Conservation.TotalsAreValues(after, P);
    assert Value(after, Originated(P)) == Value(before, Originated(P)) - (if named then t.amount.units else 0);
    assert Value(after, Settled(P)) == Value(before, Settled(P));
    assert Value(after, Adjusted(P)) == Value(before, Adjusted(P));
    assert Value(after, Reversals(P)) == Value(before, Reversals(P));
  }

  lemma {:induction false} WithdrawnRun(env: Env, steps: seq<Step>, store: seq<LedgerEvent>, r: LedgerEvent, t: LedgerEvent)
    requires Run(env, steps) == store + [r] && t in store && IsRetraction(r) && Retracting(r, t.id) && !IsRetraction(t)
    ensures forall fig :: PerPosition(fig) ==>
      Value(Scope(store + [r], fig.objectId), fig)
      == Value(Scope(store, fig.objectId), fig) - (if Names(r, fig.objectId) then Contribution(fig, t) else 0)
  {
    RunIsOrderly(env, steps, store + [r]);
    forall fig | PerPosition(fig)
      ensures Value(Scope(store + [r], fig.objectId), fig)
           == Value(Scope(store, fig.objectId), fig) - (if Names(r, fig.objectId) then Contribution(fig, t) else 0)
    {
      WithdrawnFigure(store, r, t, fig);
    }
  }

  lemma {:induction false} RunIsOrderly(env: Env, steps: seq<Step>, store: seq<LedgerEvent>)
    requires Run(env, steps) == store
    ensures RetractionsAreOrderly(store) && RetractionsAddNothing(store)
  {
    RunsAreWellFormed(env, steps);
    forall e | e in store && IsRetraction(e) ensures AddsNothing(e) {
      ValidRetractionsAddNothing(e);
    }
  }

  lemma {:induction false} WithdrawnFigure(store: seq<LedgerEvent>, r: LedgerEvent, t: LedgerEvent, fig: Figure)
    requires RetractionsAreOrderly(store + [r]) && RetractionsAddNothing(store + [r])
    requires t in store && IsRetraction(r) && Retracting(r, t.id) && !IsRetraction(t) && PerPosition(fig)
    ensures Value(Scope(store + [r], fig.objectId), fig)
            == Value(Scope(store, fig.objectId), fig) - (if Names(r, fig.objectId) then Contribution(fig, t) else 0)
  {
    WithdrawalGives(store, r, t, fig);
    PositionAfterRetraction(store, r, fig);
  }

  lemma {:induction false} WithdrawalGives(store: seq<LedgerEvent>, r: LedgerEvent, t: LedgerEvent, fig: Figure)
    requires RetractionsAreOrderly(store + [r]) && t in store && !IsRetraction(t) && PerPosition(fig)
    ensures RetractionGives(store, t.id, fig) == 0 - Contribution(fig, t)
  {
    TargetIsFound(store, r, t);
  }

  lemma {:induction false} TargetIsFound(store: seq<LedgerEvent>, r: LedgerEvent, t: LedgerEvent)
    requires RetractionsAreOrderly(store + [r]) && t in store
    ensures FindById(store, t.id) == Some(t)
  {
    PrefixIsOrderly(store, r);
    TheEventWithAnId(store, t);
  }

  lemma {:induction false} AccrualContributes(t: LedgerEvent)
    requires t.objects == [Receivable(P, Originates)]
    ensures Contribution(Originated(P), t) == t.amount.units
    ensures Contribution(Settled(P), t) == Contribution(Adjusted(P), t) == Contribution(Reversals(P), t) == 0
  {
    var o := Receivable(P, Originates);
    SharesAreCounted(t, t.objects, P);
    CountOfOne(o, P, Originates);
    CountOfOne(o, P, Settles);
    CountOfOne(o, P, Adjusts);
    CountOfOne(o, P, Reverses);
  }

  lemma {:induction false} WithdrawalIsRegular(env: Env, ps: seq<Plain>, w: Plain)
    requires RegularEverywhereBut(env, StepsOf(ps), Irregularity.Retraction)
    requires |w.objects| == 1 && w.objects[0].relation == Retracts
    ensures RegularEverywhereBut(env, StepsOf(ps + [w]), Irregularity.Retraction)
  {
    var c := CommandOf(w, |ps| + 1);
    OneObjectIsRegular(Book(env, ps), c, w.objects[0], Irregularity.Retraction);
    BookOfOneMore(env, ps, w);
    RegularSnoc(env, StepsOf(ps), Step(c, Name(|ps| + 1), 0), Irregularity.Retraction);
  }

  /** Withdrawing an origination leaves what was settled against it. */
  lemma {:induction false} RetractionBreaks(env: Env) returns (ps: seq<Plain>)
    ensures BreaksBy(env, ps, Irregularity.Retraction)
  {
    var x := Irregularity.Retraction;
    var a := Accrual(P, 100);
    ReachesNothing(env, x);
    ReachesOrigination(env, [], a, x, ObjectTotals(0, 0, false));
    ReachesOrigination(env, [] + [a], a, x, ObjectTotals(100, 0, false));
    ReachesSettlement(env, [] + [a] + [a], 200, x, ObjectTotals(200, 0, false));
    ps := WithdrawingTheFirst(env, [] + [a] + [a] + [Acknowledgement([Receivable(P, Settles)], 200)], ObjectTotals(200, 200, false));
  }

  lemma {:induction false} WithdrawingTheFirst(env: Env, before: seq<Plain>, totals: ObjectTotals) returns (ps: seq<Plain>)
    requires Reaches(env, before, Irregularity.Retraction, totals) && before != [] && before[0] == Accrual(P, 100)
    ensures AllRecorded(env, ps) && RegularEverywhereBut(env, StepsOf(ps), Irregularity.Retraction)
    ensures Position(Book(env, ps), P) == totals.(originatedUnits := totals.originatedUnits - 100)
  {
    var t := FirstEvent(Book(env, before), before);
    assert !CarriesRetraction(t);
    var w := Withdrawal(P, 100, t.id);
    var r := WithdrawalIsRecorded(env, before, w, t);
    assert r.objects[0].objectId == P;
    WithdrawnPosition(env, StepsOf(before + [w]), Book(env, before), r, t);
    WithdrawalIsRegular(env, before, w);
    ps := before + [w];
  }

  /** Every exclusion is needed: one kind of irregularity alone, whichever it is, can break conservation. */
  lemma {:induction false} EachExclusionIsNeeded(env: Env, x: Irregularity) returns (ps: seq<Plain>)
    ensures BreaksBy(env, ps, x)
  {
    match x
    case Adjusting => ps := AdjustingBreaks(env);
    case Retraction => ps := RetractionBreaks(env);
    case SettlingTwice => ps := SettlingTwiceBreaks(env);
    case OriginatingLate => ps := OriginatingLateBreaks(env);
  }

  // ---- a retraction that does not name what its target moved ----

  const Q: string := "q"

  /** The second event retracts the first without naming its position, and the two folds of it differ by 100. */
  ghost predicate FoldsDisagree(book: seq<LedgerEvent>) {
    && |book| == 2 && Retracting(book[1], book[0].id) && !Names(book[1], P)
    && Value(book, Originated(P)) == 0
    && Position(book, P) == ObjectTotals(100, 0, false) && ClosingRefusal(book, P, 100).None?
    && !RetractionsStayInScope(book, P)
  }

  /**
   * A retraction may name another position than its target's. On the book it leaves, the whole-book fold
   * has taken the target's amount off, the position's own events still count it, and the guard, which reads
   * the latter, admits a payment against it; and nothing in the retraction names the position it changed.
   */
  lemma {:induction false} OneFoldPerScope(env: Env) returns (ps: seq<Plain>)
    ensures AllRecorded(env, ps) && Reachable(env, Book(env, ps))
    ensures FoldsDisagree(Book(env, ps))
  {
    var a := Accrual(P, 100);
    ReachesNothing(env, Irregularity.Retraction);
    ReachesOrigination(env, [], a, Irregularity.Retraction, ObjectTotals(0, 0, false));
    ps := WithdrawnElsewhere(env, [] + [a]);
    assert Run(env, StepsOf(ps)) == Book(env, ps);
  }

  lemma {:induction false} WithdrawnElsewhere(env: Env, before: seq<Plain>) returns (ps: seq<Plain>)
    requires before == [Accrual(P, 100)] && Reaches(env, before, Irregularity.Retraction, ObjectTotals(100, 0, false))
    ensures AllRecorded(env, ps) && FoldsDisagree(Book(env, ps))
  {
    var t := FirstEvent(Book(env, before), before);
    assert !CarriesRetraction(t) && Names(t, P);
    var w := Withdrawal(Q, 100, t.id);
    var r := WithdrawalIsRecorded(env, before, w, t);
    NamesOnly(r, Q, P);
    WithdrawnPosition(env, StepsOf(before + [w]), Book(env, before), r, t);
    WithdrawnFromTheBook(env, StepsOf(before + [w]), Book(env, before), r, t);
    OutOfScope(Book(env, before), t, r);
    ps := before + [w];
  }

  lemma {:induction false} NamesOnly(r: LedgerEvent, position: string, other: string)
    requires r.objects == [Receivable(position, Retracts)] && position == Q && other == P
    ensures !Names(r, other)
  {
    assert Q[0] != P[0];
  }

  /** The whole book's figure, once the only event of a one-event book is retracted. */
  lemma {:induction false} WithdrawnFromTheBook(env: Env, steps: seq<Step>, store: seq<LedgerEvent>, r: LedgerEvent, t: LedgerEvent)
    requires Run(env, steps) == store + [r] && store == [t] && Retracting(r, t.id) && !IsRetraction(t)
    requires t.objects == [Receivable(P, Originates)]
    ensures Value(store + [r], Originated(P)) == 0
  {
    RunsAreWellFormed(env, steps);
    RetractionSubtractsItsTarget(env, store, r, t, Originated(P));
    OneEventBook(t, Originated(P));
  }

  lemma {:induction false} OneEventBook(t: LedgerEvent, fig: Figure)
    requires !IsRetraction(t)
    ensures Value([t], fig) == Contribution(fig, t)
  {
    assert [t][..0] == [];
    assert RetractionMap([t]) == RetractionMap([]) == map[];
    assert RetractedIds([t]) == {};
    assert StandingSum([], {}, fig) == 0;
  }

  lemma {:induction false} OutOfScope(store: seq<LedgerEvent>, t: LedgerEvent, r: LedgerEvent)
    requires store == [t] && Names(t, P) && !CarriesRetraction(t) && Retracting(r, t.id) && !Names(r, P)
    requires r.id != t.id
    ensures !RetractionsStayInScope(store + [r], P)
  {
    var book := store + [r];
    assert t in book && r in book;
    assert !HasRetraction(book, r.id);
  }

  // ---- what the identity guards and the hash do not cover ----

  /** An empty command id is not an identity: a book may hold two events under it. */
  lemma {:induction false} EmptyCommandIdsRepeat(env: Env) returns (ps: seq<Plain>)
    ensures AllRecorded(env, ps) && |ps| == 2
    ensures Book(env, ps)[0].commandId == Book(env, ps)[1].commandId == Some("")
  {
    var a := Accrual(P, 100).(commandId := Some(""));
    EmptyBook(env);
    OriginationPasses([], a);
    var e := OneMoreRecorded(env, [], a);
    OriginationPasses(Book(env, [] + [a]), a);
    var f := OneMoreRecorded(env, [] + [a], a);
    ps := [] + [a] + [a];
    assert ps[0] == a && ps[1] == a;
  }

  lemma {:induction false} OriginationPasses(store: seq<LedgerEvent>, p: Plain)
    requires Admissible(p) && p.eventType == CommissionExpected && p.related.None?
    ensures GuardRefusal(store, CommandOf(p, |store| + 1), p.units).None?
  {
    CommandAsksFor(p, |store| + 1);
    forall o | o in p.objects ensures o.relation == Originates {
      assert AdmissibleObject(p, o);
    }
    PlainPasses(store, CommandOf(p, |store| + 1), p);
  }

  /** The hash does not cover the currency: two books of one head hash, in two currencies. */
  lemma {:induction false} OneHeadHashTwoCurrencies(env: Env) returns (a: seq<Plain>, b: seq<Plain>)
    requires IsoIsInjective(env.iso)
    ensures AllRecorded(env, a) && AllRecorded(env, b) && |a| == |b| == 1
    ensures LastEventHash(Book(env, a)) == LastEventHash(Book(env, b))
    ensures Book(env, a)[0].amount.currency != Book(env, b)[0].amount.currency
  {
    var p := Accrual(P, 100);
    assert "BRL"[0] != "USD"[0];
    a, b := [] + [p], [] + [p.(currency := "USD")];
    TwoCurrencies(env, p, p.(currency := "USD"));
  }

  lemma {:induction false} TwoCurrencies(env: Env, p: Plain, q: Plain)
    requires IsoIsInjective(env.iso) && q == p.(currency := q.currency) && Admissible(p) && Admissible(q)
    requires p.eventType == CommissionExpected && p.related.None? && !Truthy(p.commandId) && p.currency != q.currency
    ensures AllRecorded(env, [] + [p]) && AllRecorded(env, [] + [q])
    ensures LastEventHash(Book(env, [] + [p])) == LastEventHash(Book(env, [] + [q]))
    ensures Book(env, [] + [p])[0].amount.currency != Book(env, [] + [q])[0].amount.currency
  {
    OneAccrual(env, p);
    OneAccrual(env, q);
    OneHash(env, p, q);
  }

  lemma {:induction false} OneAccrual(env: Env, p: Plain)
    requires Admissible(p) && p.eventType == CommissionExpected && p.related.None? && !Truthy(p.commandId)
    ensures AllRecorded(env, [] + [p]) && |Book(env, [] + [p])| == 1
    ensures Book(env, [] + [p])[0].amount.currency == p.currency
  {
    EmptyBook(env);
    OriginationPasses([], p);
    var e := OneMoreRecorded(env, [], p);
    assert IsPlain(Book(env, [] + [p])[0], ([] + [p])[0]);
  }

  lemma {:induction false} HeadOfOneAccrual(env: Env, p: Plain)
    requires Admissible(p) && p.eventType == CommissionExpected && p.related.None? && !Truthy(p.commandId)
    ensures LastEventHash(Book(env, [] + [p])) == Some(EventOf(env, [], CommandOf(p, 1), p, Name(1), 0).hash)
  {
    EmptyBook(env);
    OriginationPasses([], p);
    CommandAsksFor(p, 1);
    TheNextNameIsNew([], [], p);
    var e := PlainCommits(env, [], CommandOf(p, 1), p, Name(1), 0);
    BookOfOneMore(env, [], p);
    assert Book(env, [] + [p]) == [] + [e];
  }

  lemma {:induction false} OneHash(env: Env, p: Plain, q: Plain)
    requires IsoIsInjective(env.iso) && q == p.(currency := q.currency) && Admissible(p) && Admissible(q)
    requires p.eventType == CommissionExpected && p.related.None? && !Truthy(p.commandId)
    ensures LastEventHash(Book(env, [] + [p])) == LastEventHash(Book(env, [] + [q]))
  {
    HeadOfOneAccrual(env, p);
    HeadOfOneAccrual(env, q);
    var e, f := EventOf(env, [], CommandOf(p, 1), p, Name(1), 0), EventOf(env, [], CommandOf(q, 1), q, Name(1), 0);
    HashesAgree(env, e, f, p, q);
  }

  lemma {:induction false} HashesAgree(env: Env, e: LedgerEvent, f: LedgerEvent, p: Plain, q: Plain)
    requires IsoIsInjective(env.iso) && q == p.(currency := q.currency)
    requires e == EventOf(env, [], CommandOf(p, 1), p, Name(1), 0) && f == EventOf(env, [], CommandOf(q, 1), q, Name(1), 0)
    ensures e.hash == f.hash
  {
    HashedFieldsAgree(e, f);
    PayloadsAgreeOnHashedFields(env, e, f);
  }

  lemma {:induction false} HashedFieldsAgree(e: LedgerEvent, f: LedgerEvent)
    requires f == e.(hash := f.hash, amount := Money(e.amount.units, f.amount.currency))
    ensures HashedFieldsOf(e) == HashedFieldsOf(f)
  {
  }

  // ---- why one retraction per target matters ----

  /**
   * With two retractions of one target the one-hop fold would depend on the order of the events: the later
   * of the two decides, and here only one of them was itself retracted.
   */
  lemma {:induction false} TwoRetractionsDependOnOrder(id: string, r: LedgerEvent, s: LedgerEvent, q: LedgerEvent)
    requires Retracting(r, id) && Retracting(s, id) && Retracting(q, r.id)
    requires r.id != s.id && s.id != id && r.id != id
    requires q.id != r.id && q.id != s.id && q.id != id
    ensures id in RetractedIds([r, s, q]) && id !in RetractedIds([s, r, q])
    ensures multiset([r, s, q]) == multiset([s, r, q])
  {
    MapOfThree(r, s, q);
    MapOfThree(s, r, q);
  }

  lemma {:induction false} MapOfThree(a: LedgerEvent, b: LedgerEvent, c: LedgerEvent)
    requires IsRetraction(a) && IsRetraction(b) && IsRetraction(c)
    ensures RetractionMap([a, b, c])
            == map[a.relatedEventId.value := a.id][b.relatedEventId.value := b.id][c.relatedEventId.value := c.id]
  {
    assert [a, b, c][..2] == [a, b] && [a, b][..1] == [a] && [a][..0] == [];
    assert RetractionMap([a]) == map[a.relatedEventId.value := a.id];
    assert RetractionMap([a, b]) == RetractionMap([a])[b.relatedEventId.value := b.id];
  }
}
