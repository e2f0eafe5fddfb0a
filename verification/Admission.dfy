// What Treasury proposes, against the rules the Ledger holds every event to:
// treasury/src/core/application/services/CandidateMapper.ts under
// ledger/src/core/domain/entities/LedgerEvent.ts and ledger/src/core/domain/policies/InvariantPolicy.ts.

module Admission {
  import opened Prelude
  import opened Moneys
  import opened Events
  import opened Catalog
  import opened Validation
  import opened Reissue
  import opened EventPayload
  import opened Ledger
  import opened Provenance
  import R = RetryProtocol

  // ---- tuples ----

  /** One object's tuple and the reason given for it, as the matrices and the contract judge it. */
  predicate Admitted(eventType: EventType, effect: Effect, o: ObjectTemplate, kind: ReasonType) {
    var contract := ContractOf(eventType);
    && effect in contract.effects
    && o.objectType !in CONTEXTUAL_TYPES && o.relation in EffectRelations(effect) && o.relation in ObjectRelations(o.objectType)
    && o.objectType in contract.objects && o.relation in contract.objects[o.objectType]
    && kind in contract.reasons
    && (ReasonEffects(kind).Some? ==> effect in ReasonEffects(kind).value)
    && (ReasonRelations(kind).Some? ==> o.relation in ReasonRelations(kind).value)
  }

  function KindsOf(m: Mapping): set<ReasonType> {
    {m.cause.kind}
    + (if m.orphan.Some? then {m.orphan.value.kind} else {})
    + (if m.retroactive.Some? then {m.retroactive.value.kind} else {})
  }

  /** Every object a mapping can emit, under every reason it can give. */
  ghost predicate AllAdmitted(m: Mapping) {
    forall kind :: kind in KindsOf(m) ==>
      && (forall i :: 0 <= i < |m.objects| ==> Admitted(m.eventType, m.effect, m.objects[i], kind))
      && (m.variants.Some? && |m.objects| > 0 ==> BranchesAdmitted(m, m.variants.value.byChoice, kind))
  }

  ghost predicate BranchesAdmitted(m: Mapping, byChoice: seq<Choice>, kind: ReasonType)
    requires |m.objects| > 0
  {
    forall i :: 0 <= i < |byChoice| ==> Admitted(m.eventType, m.effect, Overridden(m.objects[0], byChoice[i].override), kind)
  }

  /** Choices that set the object's kind alone are admitted when each kind is. */
  lemma {:induction false} BranchesOfTypes(m: Mapping, byChoice: seq<Choice>, types: seq<ObjectType>, kind: ReasonType)
    requires |m.objects| == 1 && |types| == |byChoice|
    requires forall i :: 0 <= i < |types| ==> byChoice[i].override == TupleOverride(Some(types[i]), None)
    requires forall i :: 0 <= i < |types| ==> Admitted(m.eventType, m.effect, ObjectTemplate(types[i], m.objects[0].relation), kind)
    ensures BranchesAdmitted(m, byChoice, kind)
  {
  }

  lemma {:induction false} ObligationKindsAreAdmitted(kind: ReasonType, t: ObjectType)
    requires kind == ObligationRecognition || kind == LateAwareness
    requires t in [Payroll, ServiceFee, InfrastructureCost, Tax, Payable]
    ensures Admitted(ObligationRecognized, NonCash, ObjectTemplate(t, Originates), kind)
  {
  }

  lemma {:induction false} ObligationsAreAdmitted()
    ensures AllAdmitted(MappingOf(RegisterObligationRecognition))
  {
    var m := MappingOf(RegisterObligationRecognition);
    var types := [Payroll, ServiceFee, InfrastructureCost, Tax, Payable];
    forall kind | kind in KindsOf(m) ensures BranchesAdmitted(m, OBLIGATION_KINDS, kind) && Admitted(m.eventType, m.effect, m.objects[0], kind) {
      forall t | t in types ensures Admitted(ObligationRecognized, NonCash, ObjectTemplate(t, Originates), kind) {
        ObligationKindsAreAdmitted(kind, t);
      }
      assert types[4] == Payable;
      BranchesOfTypes(m, OBLIGATION_KINDS, types, kind);
    }
  }

  lemma {:induction false} RetractedKindsAreAdmitted(t: ObjectType)
    requires t in [Advance, Loan, CommissionReceivable]
    ensures Admitted(LedgerCorrection, NonCash, ObjectTemplate(t, Retracts), DataReconciliation)
  {
  }

  lemma {:induction false} RectificationsAreAdmitted()
    ensures AllAdmitted(MappingOf(RegisterRectification))
  {
    var m := MappingOf(RegisterRectification);
    var types := [Advance, Loan, CommissionReceivable];
    forall t | t in types ensures Admitted(LedgerCorrection, NonCash, ObjectTemplate(t, Retracts), DataReconciliation) {
      RetractedKindsAreAdmitted(t);
    }
    assert types[0] == Advance;
    BranchesOfTypes(m, RECTIFIED_KINDS, types, DataReconciliation);
  }

  lemma {:induction false} PaidKindsAreAdmitted(t: ObjectType)
    requires t in [ObjectType.Incentive, Bonus]
    ensures Admitted(EventType.IncentivePayment, CashOut, ObjectTemplate(t, Settles), ReasonType.IncentivePayment)
  {
  }

  lemma {:induction false} IncentivesAreAdmitted()
    ensures AllAdmitted(MappingOf(RegisterIncentive))
  {
    var m := MappingOf(RegisterIncentive);
    var types := [ObjectType.Incentive, Bonus];
    forall t | t in types ensures Admitted(EventType.IncentivePayment, CashOut, ObjectTemplate(t, Settles), ReasonType.IncentivePayment) {
      PaidKindsAreAdmitted(t);
    }
    assert types[0] == ObjectType.Incentive;
    BranchesOfTypes(m, INCENTIVE_KINDS, types, ReasonType.IncentivePayment);
  }

  lemma {:induction false} WaiversAreAdmitted()
    ensures AllAdmitted(MappingOf(RegisterWaiver))
  {
  }

  lemma {:induction false} CommissionReceivedIsAdmitted()
    ensures AllAdmitted(MappingOf(RegisterCommissionReceived))
  {
  }

  lemma {:induction false} AdvanceSettlementIsAdmitted()
    ensures AllAdmitted(MappingOf(RegisterAdvanceSettlement))
  {
  }

  lemma {:induction false} LoanRepaymentIsAdmitted()
    ensures AllAdmitted(MappingOf(RegisterLoanRepayment))
  {
  }

  lemma {:induction false} PaymentIsAdmitted()
    ensures AllAdmitted(MappingOf(RegisterPayment))
  {
  }

  lemma {:induction false} PayrollIsAdmitted()
    ensures AllAdmitted(MappingOf(RegisterPayroll))
  {
  }

  lemma {:induction false} InfrastructureIsAdmitted()
    ensures AllAdmitted(MappingOf(RegisterInfrastructure))
  {
  }

  lemma {:induction false} ServiceFeeIsAdmitted()
    ensures AllAdmitted(MappingOf(RegisterServiceFee))
  {
  }

  lemma {:induction false} TaxIsAdmitted()
    ensures AllAdmitted(MappingOf(RegisterTax))
  {
  }

  lemma {:induction false} PenaltyIsAdmitted()
    ensures AllAdmitted(MappingOf(RegisterPenalty))
  {
  }

  lemma {:induction false} AdvanceIsAdmitted()
    ensures AllAdmitted(MappingOf(RegisterAdvance))
  {
  }

  lemma {:induction false} LoanIsAdmitted()
    ensures AllAdmitted(MappingOf(RegisterLoan))
  {
  }

  lemma {:induction false} CommissionAccrualIsAdmitted()
    ensures AllAdmitted(MappingOf(RegisterCommissionAccrual))
  {
  }

  lemma {:induction false} DirectPaymentIsAdmitted()
    ensures AllAdmitted(MappingOf(RegisterDirectPayment))
  {
  }

  lemma {:induction false} EveryScenarioIsAdmitted(s: Scenario)
    ensures AllAdmitted(MappingOf(s))
  {
    match s
    case RegisterObligationRecognition => ObligationsAreAdmitted();
    case RegisterRectification => RectificationsAreAdmitted();
    case RegisterIncentive => IncentivesAreAdmitted();
    case RegisterWaiver => WaiversAreAdmitted();
    case RegisterCommissionReceived => CommissionReceivedIsAdmitted();
    case RegisterAdvanceSettlement => AdvanceSettlementIsAdmitted();
    case RegisterLoanRepayment => LoanRepaymentIsAdmitted();
    case RegisterPayment => PaymentIsAdmitted();
    case RegisterPayroll => PayrollIsAdmitted();
    case RegisterInfrastructure => InfrastructureIsAdmitted();
    case RegisterServiceFee => ServiceFeeIsAdmitted();
    case RegisterTax => TaxIsAdmitted();
    case RegisterPenalty => PenaltyIsAdmitted();
    case RegisterAdvance => AdvanceIsAdmitted();
    case RegisterLoan => LoanIsAdmitted();
    case RegisterCommissionAccrual => CommissionAccrualIsAdmitted();
    case RegisterDirectPayment => DirectPaymentIsAdmitted();
  }

  // ---- molds ----

  /** The party mold fits the effect: who moves carries the amount, and nobody does when no cash moves. */
  ghost predicate MoldFits(m: Mapping) {
    match m.effect
    case CashIn => m.parties == CASH_IN_PARTIES
    case CashOut => m.parties == CASH_OUT_PARTIES
    case NonCash =>
      m.parties != [] && forall t :: t in m.parties ==> !t.carriesAmount && t.direction == Neutral
    case _ => false
  }

  lemma {:induction false} MoldsFit(s: Scenario)
    ensures MoldFits(MappingOf(s))
  {
  }

  /** What the contract of a scenario's event asks beyond the tuple. */
  lemma {:induction false} WhatContractsAsk(s: Scenario)
    ensures var contract := ContractOf(MappingOf(s).eventType);
      && (contract.requiresPreviousHash <==> s == RegisterRectification)
      && (contract.requiresRelatedEventId <==>
            s == RegisterCommissionReceived || s == RegisterAdvanceSettlement || s == RegisterLoanRepayment)
      && (contract.admitsDueAt <==> s == RegisterObligationRecognition)
  {
    EveryScenarioHasItsEventType(s);
    WhatTypesAsk(s, MappingOf(s).eventType);
  }

  lemma {:induction false} WhatTypesAsk(s: Scenario, t: EventType)
    requires ScenarioOf(t) == Some(s)
    ensures ContractOf(t).requiresPreviousHash <==> s == RegisterRectification
    ensures ContractOf(t).requiresRelatedEventId <==>
      s == RegisterCommissionReceived || s == RegisterAdvanceSettlement || s == RegisterLoanRepayment
    ensures ContractOf(t).admitsDueAt <==> s == RegisterObligationRecognition
  {
  }

  // ---- the event a candidate asks for ----

  /** `e` is what the Ledger makes of the candidate these answers build, before it is validated. */
  ghost predicate AsProposed(e: LedgerEvent, m: Mapping, a: Answers, usina: string, reference: string, unidentified: set<string>) {
    && e.eventType == m.eventType && e.effect == m.effect
    && e.objects == ObjectsOf(m, a, reference)
    && e.reason == Some(ReasonOf(m, a, usina, unidentified))
    && e.relatedEventId == Stated(a, m.relatedEventSlot)
    && (e.dueAt.Some? <==> Stated(a, Some(DueAtSlot)).Some?)
    && |e.parties| == |m.parties|
    && forall i :: 0 <= i < |e.parties| ==>
         && e.parties[i].role == m.parties[i].role && e.parties[i].direction == m.parties[i].direction
         && e.parties[i].amount == if m.parties[i].carriesAmount then Some(e.amount) else None
  }

  lemma {:induction false} SilentLegs(parties: seq<Party>, direction: Direction)
    requires forall p :: p in parties ==> p.amount.None?
    ensures Legs(parties, direction) == 0
  {
    if parties != [] {
      SilentLegs(parties[..|parties| - 1], direction);
    }
  }

  lemma {:induction false} TwoLegs(p: Party, q: Party, direction: Direction)
    ensures Legs([p, q], direction)
            == (if p.direction == direction && p.amount.Some? then p.amount.value.units else 0)
               + (if q.direction == direction && q.amount.Some? then q.amount.value.units else 0)
  {
    assert [p, q][..1] == [p] && [p][..0] == [];
    assert Legs([p], direction) == if p.direction == direction && p.amount.Some? then p.amount.value.units else 0;
  }

  /** Every mold balances as its effect requires. */
  lemma {:induction false} ProposalsFlow(e: LedgerEvent, m: Mapping, a: Answers, usina: string, reference: string, unidentified: set<string>)
    requires MoldFits(m) && AsProposed(e, m, a, usina, reference, unidentified) && e.amount.units > 0
    ensures FlowViolation(e).None?
  {
    if m.effect == NonCash {
      SilentLegs(e.parties, In);
      SilentLegs(e.parties, Out);
      SilentLegs(e.parties, Neutral);
    } else {
      assert e.parties == [e.parties[0], e.parties[1]];
      TwoLegs(e.parties[0], e.parties[1], In);
      TwoLegs(e.parties[0], e.parties[1], Out);
      TwoLegs(e.parties[0], e.parties[1], Neutral);
    }
  }

  lemma {:induction false} ProposalsAreComplete(e: LedgerEvent, m: Mapping, a: Answers, usina: string, reference: string, unidentified: set<string>)
    requires MoldFits(m) && |m.objects| > 0 && AsProposed(e, m, a, usina, reference, unidentified) && e.amount.units > 0
    ensures BasicViolation(e).None? && ReasonViolation(e).None?
  {
    assert |e.objects| == |TemplatesOf(m, a)| == |m.objects|;
  }

  /** The object of an emitted tuple is a declared one, or a branch of the first. */
  lemma {:induction false} EmittedTuplesAreAdmitted(m: Mapping, a: Answers, i: nat)
    requires AllAdmitted(m) && i < |TemplatesOf(m, a)|
    ensures Admitted(m.eventType, m.effect, TemplatesOf(m, a)[i], CauseOf(m, a).kind)
  {
    var kind := CauseOf(m, a).kind;
    assert kind in KindsOf(m);
    if i > 0 {
      assert TemplatesOf(m, a)[i] == m.objects[i];
    } else if m.variants.Some? && m.variants.value.selector in a {
      LookupFinds(m.variants.value.byChoice, a[m.variants.value.selector]);
      assert BranchesAdmitted(m, m.variants.value.byChoice, kind);
    }
  }

  lemma {:induction false} ProposalsFitTheMatrices(e: LedgerEvent, m: Mapping, a: Answers, usina: string, reference: string, unidentified: set<string>)
    requires AllAdmitted(m) && |m.objects| > 0 && AsProposed(e, m, a, usina, reference, unidentified)
    ensures ObjectViolation(e).None? && CauseViolation(e).None?
    ensures forall o :: o in e.objects ==> Positional(o)
  {
    var kind := CauseOf(m, a).kind;
    assert e.reason.value.kind == kind && e.reason.value.confidence == High;
    forall o | o in e.objects ensures Admitted(e.eventType, e.effect, ObjectTemplate(o.objectType, o.relation), kind) {
      var i :| 0 <= i < |e.objects| && e.objects[i] == o;
      EmittedTuplesAreAdmitted(m, a, i);
      assert TemplatesOf(m, a)[i] == ObjectTemplate(o.objectType, o.relation);
    }
    assert e.objects[0] in e.objects;
    AdmittedObjectsViolateNothing(e, kind);
  }

  lemma {:induction false} AdmittedObjectsViolateNothing(e: LedgerEvent, kind: ReasonType)
    requires e.objects != [] && e.reason.Some? && e.reason.value.kind == kind && e.reason.value.confidence == High
    requires forall o :: o in e.objects ==> Admitted(e.eventType, e.effect, ObjectTemplate(o.objectType, o.relation), kind)
    ensures ObjectViolation(e).None? && CauseViolation(e).None?
    ensures forall o :: o in e.objects ==> Positional(o)
  {
    assert e.objects[0] in e.objects;
    assert Admitted(e.eventType, e.effect, ObjectTemplate(e.objects[0].objectType, e.objects[0].relation), kind);
  }

  // ---- links ----

  /** The relation of the object a scenario varies. */
  lemma {:induction false} RelationsOfScenarios(s: Scenario, a: Answers)
    ensures var m := MappingOf(s);
      var relation := TemplatesOf(m, a)[0].relation;
      && (s == RegisterRectification ==> |TemplatesOf(m, a)| == 1 && relation == Retracts)
      && (s == RegisterObligationRecognition ==> |TemplatesOf(m, a)| == 1 && relation == Originates)
      && (s == RegisterWaiver ==> |TemplatesOf(m, a)| == 1 && (relation == Settles || relation == Reverses))
      && (s != RegisterRectification && s != RegisterWaiver ==>
            forall i :: 0 <= i < |TemplatesOf(m, a)| ==>
              TemplatesOf(m, a)[i].relation == Settles || TemplatesOf(m, a)[i].relation == Originates)
  {
    var m := MappingOf(s);
    if m.variants.Some? {
      var byChoice := m.variants.value.byChoice;
      ChoicesVaryOneThing(s);
      if m.variants.value.selector in a {
        LookupFinds(byChoice, a[m.variants.value.selector]);
      }
    }
  }

  /** Only the waiver's choices change the relation. */
  lemma {:induction false} ChoicesVaryOneThing(s: Scenario)
    ensures var m := MappingOf(s);
      m.variants.Some? ==> |m.objects| == 1 && forall i :: 0 <= i < |m.variants.value.byChoice| ==>
        var relation := m.variants.value.byChoice[i].override.relation;
        if s == RegisterWaiver then relation == Some(Settles) || relation == Some(Reverses) else relation == None
  {
  }

  /** The waiver chosen as the reversal of an entitlement. */
  predicate Reversing(s: Scenario, a: Answers) {
    s == RegisterWaiver && TemplatesOf(MappingOf(s), a) != [] && TemplatesOf(MappingOf(s), a)[0].relation == Reverses
  }

  /** What a proposal must still bring: an origin, a chain to link to, and a due date only where one can be due. */
  predicate BringsWhatIsAsked(s: Scenario, a: Answers, e: LedgerEvent) {
    && (s == RegisterRectification || s == RegisterAdvanceSettlement || s == RegisterLoanRepayment ==> e.relatedEventId.Some?)
    && (s == RegisterRectification || Reversing(s, a) ==> e.previousHash.Some?)
    && (e.dueAt.Some? ==> s == RegisterObligationRecognition)
  }

  /** What the last rules read off the objects of a proposal. */
  ghost predicate LinksAsDeclared(s: Scenario, a: Answers, e: LedgerEvent) {
    && (forall o :: o in e.objects ==> Positional(o))
    && (CarriesRetraction(e) <==> s == RegisterRectification)
    && (s == RegisterRectification ==> forall o :: o in e.objects ==> o.relation == Retracts)
    && ((exists o :: o in e.objects && o.relation == Reverses) <==> Reversing(s, a))
    && (s == RegisterObligationRecognition ==> exists o :: o in e.objects && o.relation == Originates)
    && (e.relatedEventId.Some? ==> e.relatedEventId.value != "")
    && (s == RegisterCommissionReceived && e.relatedEventId.None? ==> DeclaresUnresolvedOrigin(e))
    && (s == RegisterAdvanceSettlement || s == RegisterLoanRepayment ==> !DeclaresUnresolvedOrigin(e))
  }

  /** What the links of a proposal are refused for. */
  function MissingLink(s: Scenario, a: Answers, e: LedgerEvent): Option<Violation> {
    if Reversing(s, a) && e.previousHash.None? then Some(ReversalNeedsPreviousHash)
    else if s == RegisterRectification && e.previousHash.None? then Some(ContractNeedsPreviousHash)
    else if (s == RegisterAdvanceSettlement || s == RegisterLoanRepayment) && e.relatedEventId.None? then Some(LineageRequired)
    else if s == RegisterRectification && e.relatedEventId.None? then Some(RetractionNeedsTarget)
    else if s != RegisterObligationRecognition && e.dueAt.Some? then Some(DueAtNotAdmitted)
    else None
  }

  lemma {:induction false} LinksDecide(s: Scenario, a: Answers, e: LedgerEvent)
    requires LinksAsDeclared(s, a, e)
    requires ContractOf(e.eventType).requiresPreviousHash <==> s == RegisterRectification
    requires ContractOf(e.eventType).requiresRelatedEventId <==>
      s == RegisterCommissionReceived || s == RegisterAdvanceSettlement || s == RegisterLoanRepayment
    requires ContractOf(e.eventType).admitsDueAt <==> s == RegisterObligationRecognition
    ensures LinkViolation(e) == MissingLink(s, a, e)
  {
  }

  lemma {:induction false} ObjectsOfProposal(e: LedgerEvent, m: Mapping, a: Answers, reference: string, i: nat)
    requires e.objects == ObjectsOf(m, a, reference) && i < |TemplatesOf(m, a)|
    ensures |e.objects| == |TemplatesOf(m, a)| && e.objects[i] in e.objects
    ensures e.objects[i].relation == TemplatesOf(m, a)[i].relation
  {
  }

  lemma {:induction false} CausesOfReceipts(s: Scenario, a: Answers)
    requires s == RegisterCommissionReceived || s == RegisterAdvanceSettlement || s == RegisterLoanRepayment
    ensures var m := MappingOf(s);
      && (s == RegisterCommissionReceived && Stated(a, m.relatedEventSlot).None? ==> IsOrphan(m, a) && CauseOf(m, a).kind == UnknownOrigin)
      && (s != RegisterCommissionReceived ==> CauseOf(m, a).kind != UnknownOrigin)
  {
  }

  /** Every object of a proposal has the relation of its template. */
  lemma {:induction false} RelationsOfProposal(e: LedgerEvent, m: Mapping, a: Answers, reference: string, o: EventObject)
    requires e.objects == ObjectsOf(m, a, reference) && o in e.objects
    ensures exists i :: 0 <= i < |TemplatesOf(m, a)| && o.relation == TemplatesOf(m, a)[i].relation
  {
    var i :| 0 <= i < |e.objects| && e.objects[i] == o;
    ObjectsOfProposal(e, m, a, reference, i);
  }

  /** The same, in terms of the template the scenario varies. */
  ghost predicate RelationsFollow(s: Scenario, relation: Relation, e: LedgerEvent) {
    && (exists o :: o in e.objects && o.relation == relation)
    && (forall o :: o in e.objects ==>
          if s == RegisterRectification || s == RegisterWaiver || s == RegisterObligationRecognition then o.relation == relation
          else o.relation == Settles || o.relation == Originates)
  }

  lemma {:induction false} ProposalsRelateAsDeclared(s: Scenario, a: Answers, e: LedgerEvent, m: Mapping, reference: string)
    requires m == MappingOf(s) && |m.objects| > 0 && e.objects == ObjectsOf(m, a, reference)
    ensures RelationsFollow(s, TemplatesOf(m, a)[0].relation, e)
  {
    RelationsOfScenarios(s, a);
    ObjectsOfProposal(e, m, a, reference, 0);
    forall o | o in e.objects
      ensures exists i :: 0 <= i < |TemplatesOf(m, a)| && o.relation == TemplatesOf(m, a)[i].relation
    {
      RelationsOfProposal(e, m, a, reference, o);
    }
  }

  lemma {:induction false} ReceiptsDeclareTheirOrigin(s: Scenario, a: Answers, e: LedgerEvent, m: Mapping, usina: string, unidentified: set<string>)
    requires m == MappingOf(s) && e.reason == Some(ReasonOf(m, a, usina, unidentified))
    requires e.relatedEventId == Stated(a, m.relatedEventSlot)
    ensures s == RegisterCommissionReceived && e.relatedEventId.None? ==> DeclaresUnresolvedOrigin(e)
    ensures s == RegisterAdvanceSettlement || s == RegisterLoanRepayment ==> !DeclaresUnresolvedOrigin(e)
  {
    if s == RegisterCommissionReceived || s == RegisterAdvanceSettlement || s == RegisterLoanRepayment {
      CausesOfReceipts(s, a);
    }
  }

  lemma {:induction false} LinksFollow(s: Scenario, a: Answers, relation: Relation, e: LedgerEvent)
    requires RelationsFollow(s, relation, e) && (forall o :: o in e.objects ==> Positional(o))
    requires s == RegisterRectification ==> relation == Retracts
    requires s == RegisterObligationRecognition ==> relation == Originates
    requires s == RegisterWaiver ==> relation == Settles || relation == Reverses
    requires Reversing(s, a) <==> s == RegisterWaiver && relation == Reverses
    requires e.relatedEventId.Some? ==> e.relatedEventId.value != ""
    requires s == RegisterCommissionReceived && e.relatedEventId.None? ==> DeclaresUnresolvedOrigin(e)
    requires s == RegisterAdvanceSettlement || s == RegisterLoanRepayment ==> !DeclaresUnresolvedOrigin(e)
    ensures LinksAsDeclared(s, a, e)
  {
  }

  lemma {:induction false} ProposalsLinkAsDeclared(
      s: Scenario, a: Answers, e: LedgerEvent, m: Mapping, usina: string, reference: string, unidentified: set<string>)
    requires m == MappingOf(s) && |m.objects| > 0 && AsProposed(e, m, a, usina, reference, unidentified)
    requires forall o :: o in e.objects ==> Positional(o)
    ensures LinksAsDeclared(s, a, e)
  {
    ProposalsRelateAsDeclared(s, a, e, m, reference);
    ReceiptsDeclareTheirOrigin(s, a, e, m, usina, unidentified);
    RelationsOfScenarios(s, a);
    LinksFollow(s, a, TemplatesOf(m, a)[0].relation, e);
  }

  lemma {:induction false} ProposalsBreakNothingElse(
      s: Scenario, a: Answers, e: LedgerEvent, usina: string, reference: string, unidentified: set<string>)
    requires AsProposed(e, MappingOf(s), a, usina, reference, unidentified) && e.amount.units > 0
    ensures BasicViolation(e).None? && FlowViolation(e).None? && ReasonViolation(e).None?
    ensures ObjectViolation(e).None? && CauseViolation(e).None?
    ensures LinkViolation(e) == MissingLink(s, a, e)
  {
    var m := MappingOf(s);
    EveryScenarioIsAdmitted(s);
    ScenariosAreWellShaped(s);
    MoldsFit(s);
    ProposalsFlow(e, m, a, usina, reference, unidentified);
    ProposalsAreComplete(e, m, a, usina, reference, unidentified);
    ProposalsFitTheMatrices(e, m, a, usina, reference, unidentified);
    ProposalsLinkAsDeclared(s, a, e, m, usina, reference, unidentified);
    WhatContractsAsk(s);
    LinksDecide(s, a, e);
  }

  lemma {:induction false} OnlyLinksDecide(e: LedgerEvent)
    requires BasicViolation(e).None? && FlowViolation(e).None? && ReasonViolation(e).None?
    requires ObjectViolation(e).None? && CauseViolation(e).None?
    ensures Violated(e) == LinkViolation(e)
  {
  }

  lemma {:induction false} NothingIsAskedForNothing(e: LedgerEvent)
    requires e.amount.units == 0
    ensures Violated(e) == Some(ZeroAmount)
  {
  }

  lemma {:induction false} MissingLinksAreMissing(s: Scenario, a: Answers, e: LedgerEvent)
    ensures MissingLink(s, a, e).None? <==> BringsWhatIsAsked(s, a, e)
  {
  }

  /**
   * Of what Treasury proposes, the Ledger's rules for a single event refuse exactly what asks for nothing, and
   * what lacks an origin, a chain to link to, or a place for a due date; no tuple, mold or reason is ever the cause.
   */
  lemma {:induction false} ProposalsAreAdmitted(
      s: Scenario, a: Answers, e: LedgerEvent, usina: string, reference: string, unidentified: set<string>)
    requires AsProposed(e, MappingOf(s), a, usina, reference, unidentified)
    ensures Violated(e) == if e.amount.units == 0 then Some(ZeroAmount) else MissingLink(s, a, e)
    ensures IsValid(e) <==> e.amount.units > 0 && BringsWhatIsAsked(s, a, e)
  {
    MissingLinksAreMissing(s, a, e);
    if e.amount.units == 0 {
      NothingIsAskedForNothing(e);
    } else {
      ProposalsBreakNothingElse(s, a, e, usina, reference, unidentified);
      OnlyLinksDecide(e);
    }
  }

  // ---- from the answers to the book ----

  /** A value never answered reaches the Ledger as one it takes for empty. */
  function OrEmpty(s: Option<string>): string {
    if s.Some? then s.value else ""
  }

  /** The parties of a candidate, as the request carries them. */
  function SubmittedParties(c: Candidate): seq<CommandParty> {
    seq(|c.parties|, i requires 0 <= i < |c.parties| =>
      CommandParty(OrEmpty(c.parties[i].partyId), c.parties[i].role, c.parties[i].direction, c.parties[i].amount))
  }

  /** The candidate as the Ledger's boundary reads it; `instant` parses the dates. */
  function Submitted(c: Candidate, userId: string, instant: string -> int): Command {
    Command(c.eventType, c.effect, instant(c.occurredAt), None, if c.dueAt.Some? then Some(instant(c.dueAt.value)) else None,
      OrEmpty(c.amount), OrEmpty(c.currency), c.description, "", c.sourceReference, "", "", None, c.relatedEventId,
      SubmittedParties(c), c.objects, Some(c.reason), User, userId, None, "web")
  }

  /** The command the submission of a candidate executes. */
  function CommandFor(c: Candidate, userId: string, instant: string -> int): Command {
    R.ToCommand(Submitted(c, userId, instant), c.sourceReference)
  }

  /** The amount a candidate states, if it can be read. */
  function Denoted(c: Candidate): Result<Money, MoneyError> {
    FromDecimal(OrEmpty(c.amount), OrEmpty(c.currency))
  }

  lemma {:induction false} ReadableAmountsAreNotEmpty(amount: string, currency: string)
    requires FromDecimal(amount, currency).Ok?
    ensures amount != "" && currency != ""
  {
    FromDecimalAcceptsExactlyDecimals(amount, currency);
  }

  /** The parties the Ledger reads are those of the mold, with the event's amount where the mold puts it. */
  lemma {:induction false} SubmittedPartiesAreRead(c: Candidate, m: Mapping, a: Answers, usina: string)
    requires Denoted(c).Ok? && c.parties == PartiesOf(m, a, usina) && c.amount == Answer(a, AmountSlot)
    ensures ReadParties(SubmittedParties(c), OrEmpty(c.currency)).Ok?
    ensures var read := ReadParties(SubmittedParties(c), OrEmpty(c.currency)).value;
      |read| == |m.parties| && forall i :: 0 <= i < |read| ==>
        && read[i].role == m.parties[i].role && read[i].direction == m.parties[i].direction
        && read[i].amount == if m.parties[i].carriesAmount then Some(Denoted(c).value) else None
  {
    var parties := SubmittedParties(c);
    PartiesAreRead(parties, OrEmpty(c.currency));
    ReadableAmountsAreNotEmpty(OrEmpty(c.amount), OrEmpty(c.currency));
    forall i | 0 <= i < |parties| ensures parties[i].amount == if m.parties[i].carriesAmount then c.amount else None {
      assert c.parties[i] == PartyOf(m, a, usina, m.parties[i]);
    }
    forall i | 0 <= i < |parties|
      ensures parties[i].role == m.parties[i].role && parties[i].direction == m.parties[i].direction
    {
      assert c.parties[i] == PartyOf(m, a, usina, m.parties[i]);
    }
  }

  /** The draft the Ledger makes of a built candidate is what the lemmas above call a proposal. */
  lemma {:induction false} DraftsAreProposals(
      env: Env, store: seq<LedgerEvent>, c: Candidate, m: Mapping, a: Answers, usina: string, reference: string,
      unidentified: set<string>, instants: Instants, userId: string, instant: string -> int, id: string, now: int)
    requires Built(m, a, usina, reference, unidentified, instants) == Ok(c) && Denoted(c).Ok?
    ensures var cmd := CommandFor(c, userId, instant);
      var read := ReadParties(cmd.parties, cmd.currency);
      && read.Ok? && FromDecimal(cmd.amount, cmd.currency) == Denoted(c)
      && AsProposed(Sealed(env, Draft(store, cmd, Denoted(c).value, read.value, id, now)), m, a, usina, reference, unidentified)
  {
    SubmittedPartiesAreRead(c, m, a, usina);
  }

  /** What the answers and the book must bring besides. */
  predicate BringsItToTheBook(s: Scenario, a: Answers, store: seq<LedgerEvent>) {
    var origin := Stated(a, MappingOf(s).relatedEventSlot);
    && (s == RegisterRectification || s == RegisterAdvanceSettlement || s == RegisterLoanRepayment ==> origin.Some?)
    && (s == RegisterRectification || Reversing(s, a) ==> store != [])
    && (Stated(a, Some(DueAtSlot)).Some? ==> s == RegisterObligationRecognition)
  }

  /** New, worth something, let through by the guards, and bringing what its scenario must bring. */
  ghost predicate MayBeRecorded(store: seq<LedgerEvent>, s: Scenario, a: Answers, c: Candidate, cmd: Command, id: string) {
    && Denoted(c).Ok? && Denoted(c).value.units > 0
    && IsNew(store, cmd, id) && GuardRefusal(store, cmd, Denoted(c).value.units).None?
    && BringsItToTheBook(s, a, store)
  }

  /**
   * From the answers to the book: a candidate `build` makes is recorded exactly when it is readable, not zero and
   * new, the lineage, retraction and settlement guards let it through, and it brings an origin where one is asked
   * for, a book to link to where it corrects or reverses, and a due date only where one can be due.
   */
  lemma {:induction false} CandidatesAreRecordedExactly(
      env: Env, store: seq<LedgerEvent>, s: Scenario, a: Answers, c: Candidate, usina: string, reference: string,
      unidentified: set<string>, instants: Instants, userId: string, instant: string -> int, id: string, now: int)
    requires reference != "" && Built(MappingOf(s), a, usina, reference, unidentified, instants) == Ok(c)
    ensures var cmd := CommandFor(c, userId, instant);
      Decide(env, store, cmd, id, now).Commit? <==> MayBeRecorded(store, s, a, c, cmd, id)
  {
    var cmd := CommandFor(c, userId, instant);
    if Decide(env, store, cmd, id, now).Commit? {
      CommitsAreNewAndReadable(env, store, cmd, id, now);
    }
    if Denoted(c).Ok? && IsNew(store, cmd, id) {
      ReadableCandidatesAreDecided(env, store, s, a, c, usina, reference, unidentified, instants, userId, instant, id, now);
    }
  }

  /** How a readable and new candidate is decided: by the guards, then by what its proposal is refused for. */
  lemma {:induction false} ReadableCandidatesAreDecided(
      env: Env, store: seq<LedgerEvent>, s: Scenario, a: Answers, c: Candidate, usina: string, reference: string,
      unidentified: set<string>, instants: Instants, userId: string, instant: string -> int, id: string, now: int)
    requires reference != "" && Built(MappingOf(s), a, usina, reference, unidentified, instants) == Ok(c)
    requires Denoted(c).Ok? && IsNew(store, CommandFor(c, userId, instant), id)
    ensures var cmd := CommandFor(c, userId, instant);
      var guard := GuardRefusal(store, cmd, Denoted(c).value.units);
      var d := Decide(env, store, cmd, id, now);
      && (d.Commit? <==> guard.None? && Denoted(c).value.units > 0 && BringsItToTheBook(s, a, store))
      && (d.Commit? ==> d.event.id == id && d.event.commandId == cmd.commandId)
      && (guard.None? && Denoted(c).value.units > 0 && Reversing(s, a) && store == []
          ==> d == Refuse(NotAdmissible(ReversalNeedsPreviousHash)))
  {
    var cmd := CommandFor(c, userId, instant);
    DraftsAreProposals(env, store, c, MappingOf(s), a, usina, reference, unidentified, instants, userId, instant, id, now);
    var parties := ReadParties(cmd.parties, cmd.currency).value;
    NewCommandsAreDecidedByTheRules(env, store, cmd, Denoted(c).value, parties, id, now);
    DraftsBring(env, store, s, a, cmd, Denoted(c).value, parties, usina, reference, unidentified, id, now);
  }

  lemma {:induction false} DraftsBring(
      env: Env, store: seq<LedgerEvent>, s: Scenario, a: Answers, cmd: Command, money: Money, parties: seq<Party>,
      usina: string, reference: string, unidentified: set<string>, id: string, now: int)
    requires AsProposed(Sealed(env, Draft(store, cmd, money, parties, id, now)), MappingOf(s), a, usina, reference, unidentified)
    ensures var e := Sealed(env, Draft(store, cmd, money, parties, id, now));
      && (IsValid(e) <==> money.units > 0 && BringsItToTheBook(s, a, store))
      && (money.units > 0 && Reversing(s, a) && store == [] ==> Violated(e) == Some(ReversalNeedsPreviousHash))
  {
    var e := Sealed(env, Draft(store, cmd, money, parties, id, now));
    assert e.previousHash == LastEventHash(store) && e.amount == money;
    ProposalsAreAdmitted(s, a, e, usina, reference, unidentified);
    BroughtToTheBook(s, a, e, store);
  }

  lemma {:induction false} BroughtToTheBook(s: Scenario, a: Answers, e: LedgerEvent, store: seq<LedgerEvent>)
    requires e.previousHash == LastEventHash(store) && e.relatedEventId == Stated(a, MappingOf(s).relatedEventSlot)
    requires e.dueAt.Some? <==> Stated(a, Some(DueAtSlot)).Some?
    ensures BringsWhatIsAsked(s, a, e) <==> BringsItToTheBook(s, a, store)
  {
  }
}
