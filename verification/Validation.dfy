// What an event must satisfy on its own: ledger/src/core/domain/entities/LedgerEvent.ts (`validate`)
// and ledger/src/core/domain/policies/InvariantPolicy.ts (`validateSemantic`).

module Validation {
  import opened Prelude
  import opened Events
  import opened Catalog

  datatype Violation =
    | ZeroAmount | NoParties | NoObjects | RoleAgainstDirection
    | PartyCurrencyMismatch
    | InternalMustBalance | InternalMustMatchAmount
    | CashInNeedsInflow | CashInMustMatchAmount | CashInHasOutflow
    | CashOutNeedsOutflow | CashOutMustMatchAmount | CashOutHasInflow
    | NonCashMovesCash | ContingentMovesCash | AllocationGap
    | NonCashNeedsReason | ContingentNeedsFollowup
    | EffectNotInContract | RelationNotForEffect | RelationNotForObject
    | ObjectNotInContract | RelationNotInContract
    | ReasonRequired | ReasonNotInContract | ReasonNotForEffect | ReasonNotForRelation
    | InsufficientConfidence | ReversalNeedsPreviousHash | ContractNeedsPreviousHash | LineageRequired
    | ContextualMustReference | RetractionNeedsTarget | RetractionMovesPosition
    | DueAtNotAdmitted | DueAtNeedsOrigination

  // ---- validateBasic ----

  function BasicViolation(e: LedgerEvent): Option<Violation> {
    if e.amount.units == 0 then Some(ZeroAmount)
    else if e.parties == [] then Some(NoParties)
    else if e.objects == [] then Some(NoObjects)
    else if exists p :: p in e.parties && ((p.role == Payer && p.direction == In) || (p.role == Payee && p.direction == Out)) then
      Some(RoleAgainstDirection)
    else None
  }

  // ---- validateFlow ----

  /** Sum of the amounts carried by the parties of one direction. */
  function Legs(parties: seq<Party>, direction: Direction): nat {
    if parties == [] then 0
    else
      var p := parties[|parties| - 1];
      Legs(parties[..|parties| - 1], direction)
      + (if p.direction == direction && p.amount.Some? then p.amount.value.units else 0)
  }

  predicate PartiesShareCurrency(parties: seq<Party>, currency: string) {
    forall p :: p in parties && p.amount.Some? ==> p.amount.value.currency == currency
  }

  function FlowViolation(e: LedgerEvent): Option<Violation> {
    var totalIn, totalOut, totalNeutral := Legs(e.parties, In), Legs(e.parties, Out), Legs(e.parties, Neutral);
    if !PartiesShareCurrency(e.parties, e.amount.currency) then Some(PartyCurrencyMismatch)
    else
      var byEffect := match e.effect
        case CashInternal =>
          if totalIn != totalOut then Some(InternalMustBalance)
          else if totalIn != e.amount.units then Some(InternalMustMatchAmount) else None
        case CashIn =>
          if totalIn == 0 then Some(CashInNeedsInflow)
          else if totalIn != e.amount.units then Some(CashInMustMatchAmount)
          else if totalOut != 0 then Some(CashInHasOutflow) else None
        case CashOut =>
          if totalOut == 0 then Some(CashOutNeedsOutflow)
          else if totalOut != e.amount.units then Some(CashOutMustMatchAmount)
          else if totalIn != 0 then Some(CashOutHasInflow) else None
        case NonCash => if totalIn != 0 || totalOut != 0 then Some(NonCashMovesCash) else None
        case Contingent => if totalIn != 0 || totalOut != 0 then Some(ContingentMovesCash) else None;
      if byEffect.Some? then byEffect
      else
        var directional := if totalIn == 0 then totalOut else totalIn;
        if totalNeutral != 0 && directional != 0 && totalNeutral != directional then Some(AllocationGap) else None
  }

  method ValidateFlow(e: LedgerEvent) returns (r: Option<Violation>)
    ensures r == FlowViolation(e)
  {
    var totalIn, totalOut, totalNeutral := 0, 0, 0;
    for i := 0 to |e.parties|
      invariant PartiesShareCurrency(e.parties[..i], e.amount.currency)
      invariant totalIn == Legs(e.parties[..i], In)
      invariant totalOut == Legs(e.parties[..i], Out)
      invariant totalNeutral == Legs(e.parties[..i], Neutral)
    {
      var p := e.parties[i];
      assert e.parties[..i + 1][..i] == e.parties[..i];
      if p.amount.None? { continue; }
      if p.amount.value.currency != e.amount.currency { return Some(PartyCurrencyMismatch); }
      match p.direction {
        case In => totalIn := totalIn + p.amount.value.units;
        case Out => totalOut := totalOut + p.amount.value.units;
        case Neutral => totalNeutral := totalNeutral + p.amount.value.units;
      }
    }
    assert e.parties[..|e.parties|] == e.parties;
    match e.effect {
      case CashInternal =>
        if totalIn != totalOut { return Some(InternalMustBalance); }
        if totalIn != e.amount.units { return Some(InternalMustMatchAmount); }
      case CashIn =>
        if totalIn == 0 { return Some(CashInNeedsInflow); }
        if totalIn != e.amount.units { return Some(CashInMustMatchAmount); }
        if totalOut != 0 { return Some(CashInHasOutflow); }
      case CashOut =>
        if totalOut == 0 { return Some(CashOutNeedsOutflow); }
        if totalOut != e.amount.units { return Some(CashOutMustMatchAmount); }
        if totalIn != 0 { return Some(CashOutHasInflow); }
      case NonCash =>
        if totalIn != 0 || totalOut != 0 { return Some(NonCashMovesCash); }
      case Contingent =>
        if totalIn != 0 || totalOut != 0 { return Some(ContingentMovesCash); }
    }
    var totalDirectional := if totalIn == 0 then totalOut else totalIn;
    if totalNeutral != 0 && totalDirectional != 0 && totalNeutral != totalDirectional {
      return Some(AllocationGap);
    }
    return None;
  }

  // ---- validateReasonRules ----

  function ReasonViolation(e: LedgerEvent): Option<Violation> {
    if e.effect == NonCash && e.reason.None? then Some(NonCashNeedsReason)
    else if e.effect == Contingent && !(e.reason.Some? && e.reason.value.requiresFollowup) then Some(ContingentNeedsFollowup)
    else None
  }

  // ---- InvariantPolicy.validateSemantic ----

  predicate Positional(o: EventObject) {
    o.objectType !in CONTEXTUAL_TYPES
  }

  function ConfidenceRank(c: Confidence): nat {
    match c case Low => 1 case Medium => 2 case High => 3
  }

  predicate DeclaresUnresolvedOrigin(e: LedgerEvent) {
    e.reason.Some? && e.reason.value.kind == UnknownOrigin && e.reason.value.requiresFollowup
  }

  predicate InContract(contract: SemanticContract, o: EventObject) {
    o.objectType in contract.objects && o.relation in contract.objects[o.objectType]
  }

  /** What the first positional object outside the contract is refused for. */
  function FirstOutside(contract: SemanticContract, objects: seq<EventObject>): Violation {
    if objects == [] then ObjectNotInContract
    else if Positional(objects[0]) && !InContract(contract, objects[0]) then
      if objects[0].objectType !in contract.objects then ObjectNotInContract else RelationNotInContract
    else FirstOutside(contract, objects[1..])
  }

  /** Steps 1 to 4: the effect and every object against the matrices and the contract. */
  function ObjectViolation(e: LedgerEvent): Option<Violation> {
    var contract := ContractOf(e.eventType);
    if e.effect !in contract.effects then Some(EffectNotInContract)
    else if exists o :: o in e.objects && Positional(o) && o.relation !in EffectRelations(e.effect) then Some(RelationNotForEffect)
    else if exists o :: o in e.objects && o.relation !in ObjectRelations(o.objectType) then Some(RelationNotForObject)
    else if exists o :: o in e.objects && Positional(o) && !InContract(contract, o) then Some(FirstOutside(contract, e.objects))
    else None
  }

  /** Steps 5 to 8: the reason. */
  function CauseViolation(e: LedgerEvent): Option<Violation> {
    var contract := ContractOf(e.eventType);
    if e.reason.None? then Some(ReasonRequired)
    else
      var kind := e.reason.value.kind;
      if kind !in contract.reasons then Some(ReasonNotInContract)
      else if ReasonEffects(kind).Some? && e.effect !in ReasonEffects(kind).value then Some(ReasonNotForEffect)
      else if ReasonRelations(kind).Some? && exists o :: o in e.objects && Positional(o) && o.relation !in ReasonRelations(kind).value then
        Some(ReasonNotForRelation)
      else if contract.minConfidence.Some?
              && ConfidenceRank(e.reason.value.confidence) < ConfidenceRank(contract.minConfidence.value) then
        Some(InsufficientConfidence)
      else None
  }

  /** Steps 9 to 13: chain link, lineage, contextual objects, retractions, due date. */
  function LinkViolation(e: LedgerEvent): Option<Violation> {
    var contract := ContractOf(e.eventType);
    if (exists o :: o in e.objects && Positional(o) && o.relation == Reverses) && e.previousHash.None? then
      Some(ReversalNeedsPreviousHash)
    else if contract.requiresPreviousHash && e.previousHash.None? then Some(ContractNeedsPreviousHash)
    else if contract.requiresRelatedEventId && !Truthy(e.relatedEventId) && !DeclaresUnresolvedOrigin(e) then Some(LineageRequired)
    else if exists o :: o in e.objects && !Positional(o) && o.relation != References then Some(ContextualMustReference)
    else if CarriesRetraction(e) && !Truthy(e.relatedEventId) then Some(RetractionNeedsTarget)
    else if CarriesRetraction(e) && exists o :: o in e.objects && o.relation != Retracts then Some(RetractionMovesPosition)
    else if e.dueAt.Some? && !contract.admitsDueAt then Some(DueAtNotAdmitted)
    else if e.dueAt.Some? && !(exists o :: o in e.objects && o.relation == Originates) then Some(DueAtNeedsOrigination)
    else None
  }

  function FirstOf(a: Option<Violation>, b: Option<Violation>): Option<Violation> {
    if a.Some? then a else b
  }

  /** The checks in the order the entity runs them; the first violation is the one reported. */
  function Violated(e: LedgerEvent): Option<Violation> {
    FirstOf(BasicViolation(e), FirstOf(FlowViolation(e), FirstOf(ReasonViolation(e),
      FirstOf(ObjectViolation(e), FirstOf(CauseViolation(e), LinkViolation(e))))))
  }

  method Validate(e: LedgerEvent) returns (r: Option<Violation>)
    ensures r == Violated(e)
  {
    r := BasicViolation(e);
    if r.Some? { return; }
    r := ValidateFlow(e);
    if r.Some? { return; }
    r := ReasonViolation(e);
    if r.Some? { return; }
    r := FirstOf(ObjectViolation(e), FirstOf(CauseViolation(e), LinkViolation(e)));
  }

  predicate IsValid(e: LedgerEvent) {
    Violated(e).None?
  }

  // ---- what validity gives the folds ----

  /**
   * A retraction is a bookkeeping statement and nothing else: a non-cash correction that names its
   * target, whose only relation is RETRACTS, and that never declares an unresolved lineage.
   */
  lemma {:induction false} RetractionsOnlyRetract(e: LedgerEvent)
    requires IsValid(e) && CarriesRetraction(e)
    ensures IsRetraction(e)
    ensures forall o :: o in e.objects ==> o.relation == Retracts
    ensures e.effect == NonCash && e.eventType == LedgerCorrection
    ensures !DeclaresUnresolvedOrigin(e)
  {
    var o :| o in e.objects && o.relation == Retracts;
    assert Positional(o);
    RetractsBelongsToCorrections(e.eventType, o.objectType);
  }

  lemma {:induction false} RetractsBelongsToCorrections(t: EventType, o: ObjectType)
    requires o in ContractOf(t).objects && Retracts in ContractOf(t).objects[o]
    ensures t == LedgerCorrection
  {
  }

  /** Cash legs are the event's amount on the moving side and nothing on the other. */
  lemma {:induction false} LegsFollowTheEffect(e: LedgerEvent)
    requires IsValid(e)
    ensures Legs(e.parties, In) - Legs(e.parties, Out)
            == if e.effect == CashIn then e.amount.units else if e.effect == CashOut then 0 - e.amount.units else 0
    ensures e.effect == CashInternal ==> Legs(e.parties, In) == Legs(e.parties, Out) == e.amount.units
    ensures e.effect in {NonCash, Contingent} ==> Legs(e.parties, In) == Legs(e.parties, Out) == 0
  {
  }

  /** A contextual object annotates: it is only ever referenced, so no retraction can name one. */
  lemma {:induction false} ContextualObjectsOnlyAnnotate(e: LedgerEvent, o: EventObject)
    requires IsValid(e) && o in e.objects && o.objectType in CONTEXTUAL_TYPES
    ensures o.relation == References && !CarriesRetraction(e)
  {
    assert !Positional(o);
  }
}
