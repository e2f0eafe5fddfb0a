// The rules of a single event, each stated on its own, and which of them is reported:
// ledger/src/core/domain/entities/LedgerEvent.ts, lines 205-360, and
// ledger/src/core/domain/policies/InvariantPolicy.ts, lines 16-279.

module Validity {
  import opened Prelude
  import opened Events
  import opened Catalog
  import opened Validation

  // ---- what breaks a rule ----

  predicate BreaksBasics(e: LedgerEvent, v: Violation) {
    match v
    case ZeroAmount => e.amount.units == 0
    case NoParties => |e.parties| == 0
    case NoObjects => |e.objects| == 0
    case RoleAgainstDirection =>
      exists p :: p in e.parties && (if p.direction == In then p.role == Payer else p.direction == Out && p.role == Payee)
    case _ => false
  }

  /** What the legs must be, effect by effect. */
  predicate BreaksFlow(e: LedgerEvent, v: Violation) {
    var inflow, outflow, shared := Legs(e.parties, In), Legs(e.parties, Out), Legs(e.parties, Neutral);
    match v
    case PartyCurrencyMismatch => exists p :: p in e.parties && p.amount.Some? && p.amount.value.currency != e.amount.currency
    case InternalMustBalance => e.effect == CashInternal && inflow != outflow
    case InternalMustMatchAmount => e.effect == CashInternal && inflow != e.amount.units
    case CashInNeedsInflow => e.effect == CashIn && inflow == 0
    case CashInMustMatchAmount => e.effect == CashIn && inflow != e.amount.units
    case CashInHasOutflow => e.effect == CashIn && outflow > 0
    case CashOutNeedsOutflow => e.effect == CashOut && outflow == 0
    case CashOutMustMatchAmount => e.effect == CashOut && outflow != e.amount.units
    case CashOutHasInflow => e.effect == CashOut && inflow > 0
    case NonCashMovesCash => e.effect == NonCash && inflow + outflow > 0
    case ContingentMovesCash => e.effect == Contingent && inflow + outflow > 0
    case AllocationGap =>
      shared > 0 && inflow + outflow > 0 && (if inflow > 0 then shared != inflow else shared != outflow)
    case _ => false
  }

  predicate BreaksReasonRules(e: LedgerEvent, v: Violation) {
    match v
    case NonCashNeedsReason => e.effect == NonCash && e.reason.None?
    case ContingentNeedsFollowup => e.effect == Contingent && (e.reason.Some? ==> !e.reason.value.requiresFollowup)
    case _ => false
  }

  /** Every object against the effect, its own kind and the contract; contextual ones against their kind alone. */
  predicate BreaksMatrices(e: LedgerEvent, v: Violation) {
    var contract := ContractOf(e.eventType);
    match v
    case EffectNotInContract => e.effect !in contract.effects
    case RelationNotForEffect =>
      exists o :: o in e.objects && o.objectType !in CONTEXTUAL_TYPES && o.relation !in EffectRelations(e.effect)
    case RelationNotForObject => exists o :: o in e.objects && o.relation !in ObjectRelations(o.objectType)
    case ObjectNotInContract =>
      exists o :: o in e.objects && o.objectType !in CONTEXTUAL_TYPES && o.objectType !in contract.objects
    case RelationNotInContract =>
      exists o :: o in e.objects && o.objectType !in CONTEXTUAL_TYPES && o.objectType in contract.objects
        && o.relation !in contract.objects[o.objectType]
    case _ => false
  }

  predicate BreaksCause(e: LedgerEvent, v: Violation) {
    var contract := ContractOf(e.eventType);
    if e.reason.None? then v == ReasonRequired
    else
      var kind := e.reason.value.kind;
      match v
      case ReasonNotInContract => kind !in contract.reasons
      case ReasonNotForEffect => ReasonEffects(kind).Some? && e.effect !in ReasonEffects(kind).value
      case ReasonNotForRelation =>
        ReasonRelations(kind).Some?
        && exists o :: o in e.objects && o.objectType !in CONTEXTUAL_TYPES && o.relation !in ReasonRelations(kind).value
      case InsufficientConfidence => contract.minConfidence.Some? && IsWeaker(e.reason.value.confidence, contract.minConfidence.value)
      case _ => false
  }

  predicate IsWeaker(a: Confidence, b: Confidence) {
    (a == Low && b != Low) || (a == Medium && b == High)
  }

  predicate BreaksLinks(e: LedgerEvent, v: Violation) {
    var contract := ContractOf(e.eventType);
    match v
    case ReversalNeedsPreviousHash =>
      e.previousHash.None? && exists o :: o in e.objects && o.objectType !in CONTEXTUAL_TYPES && o.relation == Reverses
    case ContractNeedsPreviousHash => e.previousHash.None? && contract.requiresPreviousHash
    case LineageRequired =>
      contract.requiresRelatedEventId && !Truthy(e.relatedEventId)
      && (e.reason.Some? ==> e.reason.value.kind != UnknownOrigin || !e.reason.value.requiresFollowup)
    case ContextualMustReference => exists o :: o in e.objects && o.objectType in CONTEXTUAL_TYPES && o.relation != References
    case RetractionNeedsTarget => !Truthy(e.relatedEventId) && exists o :: o in e.objects && o.relation == Retracts
    case RetractionMovesPosition =>
      exists o, p :: o in e.objects && p in e.objects && o.relation == Retracts && p.relation != Retracts
    case DueAtNotAdmitted => e.dueAt.Some? && !contract.admitsDueAt
    case DueAtNeedsOrigination => e.dueAt.Some? && forall o :: o in e.objects ==> o.relation != Originates
    case _ => false
  }

  predicate Breaks(e: LedgerEvent, v: Violation) {
    || BreaksBasics(e, v) || BreaksFlow(e, v) || BreaksReasonRules(e, v)
    || BreaksMatrices(e, v) || BreaksCause(e, v) || BreaksLinks(e, v)
  }

  /** The order the rules are tried in; the two about the contract are tried together, object by object. */
  function Rank(v: Violation): nat {
    match v
    case ZeroAmount => 0 case NoParties => 1 case NoObjects => 2 case RoleAgainstDirection => 3
    case PartyCurrencyMismatch => 10
    case InternalMustBalance => 11 case InternalMustMatchAmount => 12
    case CashInNeedsInflow => 11 case CashInMustMatchAmount => 12 case CashInHasOutflow => 13
    case CashOutNeedsOutflow => 11 case CashOutMustMatchAmount => 12 case CashOutHasInflow => 13
    case NonCashMovesCash => 11 case ContingentMovesCash => 11
    case AllocationGap => 14
    case NonCashNeedsReason => 20 case ContingentNeedsFollowup => 21
    case EffectNotInContract => 30 case RelationNotForEffect => 31 case RelationNotForObject => 32
    case ObjectNotInContract => 33 case RelationNotInContract => 33
    case ReasonRequired => 40 case ReasonNotInContract => 41 case ReasonNotForEffect => 42
    case ReasonNotForRelation => 43 case InsufficientConfidence => 44
    case ReversalNeedsPreviousHash => 50 case ContractNeedsPreviousHash => 51 case LineageRequired => 52
    case ContextualMustReference => 53 case RetractionNeedsTarget => 54 case RetractionMovesPosition => 55
    case DueAtNotAdmitted => 56 case DueAtNeedsOrigination => 57
  }

  // ---- part by part ----

  function RulesBasics(e: LedgerEvent): Violation -> bool {
    (v: Violation) => BreaksBasics(e, v)
  }

  function RulesFlow(e: LedgerEvent): Violation -> bool {
    (v: Violation) => BreaksFlow(e, v)
  }

  function RulesReasonRules(e: LedgerEvent): Violation -> bool {
    (v: Violation) => BreaksReasonRules(e, v)
  }

  function RulesMatrices(e: LedgerEvent): Violation -> bool {
    (v: Violation) => BreaksMatrices(e, v)
  }

  function RulesCause(e: LedgerEvent): Violation -> bool {
    (v: Violation) => BreaksCause(e, v)
  }

  function RulesLinks(e: LedgerEvent): Violation -> bool {
    (v: Violation) => BreaksLinks(e, v)
  }

  function RulesAll(e: LedgerEvent): Violation -> bool {
    (v: Violation) => Breaks(e, v)
  }

  /** `r` is the first of the rules of one part that the event breaks, if it breaks any. */
  ghost predicate IsFirst(r: Option<Violation>, breaks: Violation -> bool) {
    && (r.None? ==> forall v :: !breaks(v))
    && (r.Some? ==> breaks(r.value) && forall v :: breaks(v) ==> Rank(r.value) <= Rank(v))
  }

  lemma {:induction false} BasicsAreFirst(e: LedgerEvent)
    ensures IsFirst(BasicViolation(e), RulesBasics(e))
  {
  }

  lemma {:induction false} FlowIsFirst(e: LedgerEvent)
    ensures IsFirst(FlowViolation(e), RulesFlow(e))
  {
  }

  lemma {:induction false} ReasonRulesAreFirst(e: LedgerEvent)
    ensures IsFirst(ReasonViolation(e), RulesReasonRules(e))
  {
  }

  lemma {:induction false} FirstOutsideIsOutside(contract: SemanticContract, objects: seq<EventObject>)
    requires exists o :: o in objects && Positional(o) && !InContract(contract, o)
    ensures FirstOutside(contract, objects) == ObjectNotInContract ==>
      exists o :: o in objects && Positional(o) && o.objectType !in contract.objects
    ensures FirstOutside(contract, objects) == RelationNotInContract ==>
      exists o :: o in objects && Positional(o) && o.objectType in contract.objects && o.relation !in contract.objects[o.objectType]
    ensures FirstOutside(contract, objects) in {ObjectNotInContract, RelationNotInContract}
  {
    if Positional(objects[0]) && !InContract(contract, objects[0]) {
      assert objects[0] in objects;
    } else {
      var o :| o in objects && Positional(o) && !InContract(contract, o);
      assert objects == [objects[0]] + objects[1..];
      assert o in objects[1..];
      FirstOutsideIsOutside(contract, objects[1..]);
    }
  }

  lemma {:induction false} MatricesAreFirst(e: LedgerEvent)
    ensures IsFirst(ObjectViolation(e), RulesMatrices(e))
  {
    var contract := ContractOf(e.eventType);
    if exists o :: o in e.objects && Positional(o) && !InContract(contract, o) {
      FirstOutsideIsOutside(contract, e.objects);
    }
  }

  lemma {:induction false} CauseIsFirst(e: LedgerEvent)
    ensures IsFirst(CauseViolation(e), RulesCause(e))
  {
  }

  lemma {:induction false} LinksAreFirst(e: LedgerEvent)
    ensures IsFirst(LinkViolation(e), RulesLinks(e))
  {
  }

  // ---- all of them ----

  /** Every rule of a part lies in its own stretch of the order. */
  ghost predicate Lies(breaks: Violation -> bool, from: nat, to: nat) {
    forall v :: breaks(v) ==> from <= Rank(v) < to
  }

  lemma {:induction false} FirstPartsLie(e: LedgerEvent)
    ensures Lies(RulesBasics(e), 0, 10) && Lies(RulesFlow(e), 10, 20) && Lies(RulesReasonRules(e), 20, 30)
  {
  }

  lemma {:induction false} LastPartsLie(e: LedgerEvent)
    ensures Lies(RulesMatrices(e), 30, 40) && Lies(RulesCause(e), 40, 50) && Lies(RulesLinks(e), 50, 60)
  {
  }

  /** `all` are the rules of the six parts. */
  ghost predicate AreAll(
      all: Violation -> bool, b1: Violation -> bool, b2: Violation -> bool, b3: Violation -> bool,
      b4: Violation -> bool, b5: Violation -> bool, b6: Violation -> bool)
  {
    forall v :: all(v) <==> b1(v) || b2(v) || b3(v) || b4(v) || b5(v) || b6(v)
  }

  lemma {:induction false} PartsAreAll(e: LedgerEvent)
    ensures AreAll(RulesAll(e), RulesBasics(e), RulesFlow(e), RulesReasonRules(e), RulesMatrices(e), RulesCause(e), RulesLinks(e))
  {
  }

  lemma {:induction false} FirstOfTwo(
      a: Option<Violation>, b: Option<Violation>, breaksA: Violation -> bool, breaksB: Violation -> bool, breaks: Violation -> bool, bound: nat)
    requires IsFirst(a, breaksA) && IsFirst(b, breaksB)
    requires forall v :: breaks(v) <==> breaksA(v) || breaksB(v)
    requires forall v :: (breaksA(v) ==> Rank(v) < bound) && (breaksB(v) ==> bound <= Rank(v))
    ensures IsFirst(FirstOf(a, b), breaks)
  {
  }

  ghost predicate PartsAreFirst(e: LedgerEvent) {
    && IsFirst(BasicViolation(e), RulesBasics(e))
    && IsFirst(FlowViolation(e), RulesFlow(e))
    && IsFirst(ReasonViolation(e), RulesReasonRules(e))
    && IsFirst(ObjectViolation(e), RulesMatrices(e))
    && IsFirst(CauseViolation(e), RulesCause(e))
    && IsFirst(LinkViolation(e), RulesLinks(e))
  }

  lemma {:induction false} EachPartIsFirst(e: LedgerEvent)
    ensures PartsAreFirst(e)
  {
    BasicsAreFirst(e);
    FlowIsFirst(e);
    ReasonRulesAreFirst(e);
    MatricesAreFirst(e);
    CauseIsFirst(e);
    LinksAreFirst(e);
  }

  /** Six parts tried one after the other, each with its own stretch of the order. */
  lemma {:induction false} SixTogether(
      r1: Option<Violation>, r2: Option<Violation>, r3: Option<Violation>, r4: Option<Violation>, r5: Option<Violation>, r6: Option<Violation>,
      b1: Violation -> bool, b2: Violation -> bool, b3: Violation -> bool, b4: Violation -> bool, b5: Violation -> bool, b6: Violation -> bool,
      all: Violation -> bool)
    requires IsFirst(r1, b1) && IsFirst(r2, b2) && IsFirst(r3, b3) && IsFirst(r4, b4) && IsFirst(r5, b5) && IsFirst(r6, b6)
    requires Lies(b1, 0, 10) && Lies(b2, 10, 20) && Lies(b3, 20, 30) && Lies(b4, 30, 40) && Lies(b5, 40, 50) && Lies(b6, 50, 60)
    requires AreAll(all, b1, b2, b3, b4, b5, b6)
    ensures IsFirst(FirstOf(r1, FirstOf(r2, FirstOf(r3, FirstOf(r4, FirstOf(r5, r6))))), all)
  {
    var from5 := (v: Violation) => b5(v) || b6(v);
    var from4 := (v: Violation) => b4(v) || from5(v);
    var from3 := (v: Violation) => b3(v) || from4(v);
    var from2 := (v: Violation) => b2(v) || from3(v);
    FirstOfTwo(r5, r6, b5, b6, from5, 50);
    FirstOfTwo(r4, FirstOf(r5, r6), b4, from5, from4, 40);
    FirstOfTwo(r3, FirstOf(r4, FirstOf(r5, r6)), b3, from4, from3, 30);
    FirstOfTwo(r2, FirstOf(r3, FirstOf(r4, FirstOf(r5, r6))), b2, from3, from2, 20);
    FirstOfTwo(r1, FirstOf(r2, FirstOf(r3, FirstOf(r4, FirstOf(r5, r6)))), b1, from2, all, 10);
  }

  lemma {:induction false} PartsTogether(e: LedgerEvent)
    ensures IsFirst(Violated(e), RulesAll(e))
  {
    EachPartIsFirst(e);
    FirstPartsLie(e);
    LastPartsLie(e);
    PartsAreAll(e);
    SixTogether(BasicViolation(e), FlowViolation(e), ReasonViolation(e), ObjectViolation(e), CauseViolation(e), LinkViolation(e),
      RulesBasics(e), RulesFlow(e), RulesReasonRules(e), RulesMatrices(e), RulesCause(e), RulesLinks(e), RulesAll(e));
  }

  /**
   * An event is valid exactly when it breaks none of the rules; and of those it breaks, the first in the order they
   * are tried is the one reported.
   */
  lemma {:induction false} TheFirstBrokenRuleIsReported(e: LedgerEvent)
    ensures IsValid(e) <==> forall v :: !Breaks(e, v)
    ensures Violated(e).Some? ==> Breaks(e, Violated(e).value) && forall v :: Breaks(e, v) ==> Rank(Violated(e).value) <= Rank(v)
  {
    PartsTogether(e);
  }
}
