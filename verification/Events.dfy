// The ledger's vocabulary and its immutable event (ledger/src/core/domain/enums and
// ledger/src/core/domain/entities). Instants are integers (milliseconds).

module Events {
  import opened Prelude
  import opened Moneys

  datatype EventType = PayrollPayment | InfrastructureExpense | CommissionReceived | CommissionSplit
    | CommissionWaiver | PenaltyPayment | AdvancePayment | AdvanceSettlement | LoanOrigination | LoanRepayment
    | DirectPaymentAcknowledged | IncentivePayment | LedgerCorrection | CommissionExpected | OutboundPayment
    | ServiceFeePayment | TaxPayment | ObligationRecognized

  datatype ObjectType = CommissionEntitlement | CommissionPool | CommissionReceivable | CommissionPayable
    | Loan | Advance | Receivable | Payable | Contract | Proposal | Installment | SettlementBatch
    | Penalty | Chargeback | ContingentClaim | Dispute | Incentive | Campaign | Bonus | Payroll | ServiceFee
    | InfrastructureCost | Tax

  datatype ReasonType = CommissionPayment | CommissionAccrual | DirectCommissionPaymentAuthorized
    | CommissionSplit | LateIdentifiedCommission | CommissionWaiver | LoanOrigination | LoanRepayment
    | LoanRepaymentViaCommission | AdvancePayment | DebtRestructuring | PenaltyPayment | PenaltyRecognition
    | Chargeback | DisputeOpened | LossRecognition | LateAwareness | ManualCorrection | DataReconciliation
    | UnknownOrigin | PayrollPayment | InfrastructureExpense | ThirdPartyPayment | TaxPayment | ServiceFeePayment
    | IncentivePayment | ObligationRecognition | OrdinarySettlement

  datatype PartyRole = Payer | Payee | Intermediary | Beneficiary | Platform

  datatype Confidence = High | Medium | Low

  datatype ReporterType = System | User | Integration

  datatype Relation = Originates | Adjusts | Settles | Reverses | References | Retracts

  datatype Effect = CashIn | CashOut | CashInternal | NonCash | Contingent

  datatype Direction = In | Out | Neutral

  datatype Source = Source(system: string, reference: string)

  datatype Normalization = Normalization(version: string, workerId: string)

  datatype Party = Party(partyId: string, role: PartyRole, direction: Direction, amount: Option<Money>)

  datatype EventObject = EventObject(objectId: string, objectType: ObjectType, relation: Relation)

  datatype Reason = Reason(kind: ReasonType, description: string, confidence: Confidence, requiresFollowup: bool)

  datatype Reporter = Reporter(
    reporterType: ReporterType,
    reporterId: string,
    reporterName: Option<string>,
    reportedAt: int,
    channel: string)

  datatype LedgerEvent = LedgerEvent(
    id: string,
    eventType: EventType,
    effect: Effect,
    occurredAt: int,
    recordedAt: int,
    sourceAt: Option<int>,
    dueAt: Option<int>,
    amount: Money,
    description: Option<string>,
    source: Source,
    normalization: Normalization,
    hash: string,
    previousHash: Option<string>,
    commandId: Option<string>,
    relatedEventId: Option<string>,
    parties: seq<Party>,
    objects: seq<EventObject>,
    reason: Option<Reason>,
    reporter: Reporter)

  /** Some object of the event names the position `objectId`. */
  predicate Names(e: LedgerEvent, objectId: string) {
    exists o :: o in e.objects && o.objectId == objectId
  }

  predicate CarriesRetraction(e: LedgerEvent) {
    exists o :: o in e.objects && o.relation == Retracts
  }

  /** What the folds call a retraction: it carries RETRACTS and names its target. */
  predicate IsRetraction(e: LedgerEvent) {
    Truthy(e.relatedEventId) && CarriesRetraction(e)
  }

  predicate Retracting(r: LedgerEvent, target: string) {
    IsRetraction(r) && r.relatedEventId.value == target
  }

  /** The events naming one position, in book order (`findByObjectId`). */
  function Scope(store: seq<LedgerEvent>, objectId: string): seq<LedgerEvent> {
    if store == [] then []
    else
      var rest := Scope(store[..|store| - 1], objectId);
      if Names(store[|store| - 1], objectId) then rest + [store[|store| - 1]] else rest
  }

  lemma {:induction false} ScopeHolds(store: seq<LedgerEvent>, objectId: string)
    ensures forall e :: e in Scope(store, objectId) <==> e in store && Names(e, objectId)
  {
    if store != [] {
      var n := |store| - 1;
      ScopeHolds(store[..n], objectId);
      assert store == store[..n] + [store[n]];
    }
  }

  // ---- the strings the vocabulary is written as ----

  function EventTypeCode(v: EventType): string {
    match v
    case PayrollPayment => "payroll_payment"
    case InfrastructureExpense => "infrastructure_expense"
    case CommissionReceived => "commission_received"
    case CommissionSplit => "commission_split"
    case CommissionWaiver => "commission_waiver"
    case PenaltyPayment => "penalty_payment"
    case AdvancePayment => "advance_payment"
    case AdvanceSettlement => "advance_settlement"
    case LoanOrigination => "loan_origination"
    case LoanRepayment => "loan_repayment"
    case DirectPaymentAcknowledged => "direct_payment_acknowledged"
    case IncentivePayment => "incentive_payment"
    case LedgerCorrection => "ledger_correction"
    case CommissionExpected => "commission_expected"
    case OutboundPayment => "outbound_payment"
    case ServiceFeePayment => "service_fee_payment"
    case TaxPayment => "tax_payment"
    case ObligationRecognized => "obligation_recognized"
  }

  function ObjectTypeCode(v: ObjectType): string {
    match v
    case CommissionEntitlement => "commission_entitlement"
    case CommissionPool => "commission_pool"
    case CommissionReceivable => "commission_receivable"
    case CommissionPayable => "commission_payable"
    case Loan => "loan"
    case Advance => "advance"
    case Receivable => "receivable"
    case Payable => "payable"
    case Contract => "contract"
    case Proposal => "proposal"
    case Installment => "installment"
    case SettlementBatch => "settlement_batch"
    case Penalty => "penalty"
    case Chargeback => "chargeback"
    case ContingentClaim => "contingent_claim"
    case Dispute => "dispute"
    case Incentive => "incentive"
    case Campaign => "campaign"
    case Bonus => "bonus"
    case Payroll => "payroll"
    case ServiceFee => "service_fee"
    case InfrastructureCost => "infrastructure_cost"
    case Tax => "tax"
  }

  function ReasonTypeCode(v: ReasonType): string {
    match v
    case CommissionPayment => "commission_payment"
    case CommissionAccrual => "commission_accrual"
    case DirectCommissionPaymentAuthorized => "direct_commission_payment_authorized"
    case CommissionSplit => "commission_split"
    case LateIdentifiedCommission => "late_identified_commission"
    case CommissionWaiver => "commission_waiver"
    case LoanOrigination => "loan_origination"
    case LoanRepayment => "loan_repayment"
    case LoanRepaymentViaCommission => "loan_repayment_via_commission"
    case AdvancePayment => "advance_payment"
    case DebtRestructuring => "debt_restructuring"
    case PenaltyPayment => "penalty_payment"
    case PenaltyRecognition => "penalty_recognition"
    case Chargeback => "chargeback"
    case DisputeOpened => "dispute_opened"
    case LossRecognition => "loss_recognition"
    case LateAwareness => "late_awareness"
    case ManualCorrection => "manual_correction"
    case DataReconciliation => "data_reconciliation"
    case UnknownOrigin => "unknown_origin"
    case PayrollPayment => "payroll_payment"
    case InfrastructureExpense => "infrastructure_expense"
    case ThirdPartyPayment => "third_party_payment"
    case TaxPayment => "tax_payment"
    case ServiceFeePayment => "service_fee_payment"
    case IncentivePayment => "incentive_payment"
    case ObligationRecognition => "obligation_recognition"
    case OrdinarySettlement => "ordinary_settlement"
  }

  function PartyRoleCode(v: PartyRole): string {
    match v
    case Payer => "payer"
    case Payee => "payee"
    case Intermediary => "intermediary"
    case Beneficiary => "beneficiary"
    case Platform => "platform"
  }

  function ConfidenceCode(v: Confidence): string {
    match v
    case High => "high"
    case Medium => "medium"
    case Low => "low"
  }

  function ReporterTypeCode(v: ReporterType): string {
    match v
    case System => "system"
    case User => "user"
    case Integration => "integration"
  }

  function RelationCode(v: Relation): string {
    match v
    case Originates => "originates"
    case Adjusts => "adjusts"
    case Settles => "settles"
    case Reverses => "reverses"
    case References => "references"
    case Retracts => "retracts"
  }

  function EffectCode(v: Effect): string {
    match v
    case CashIn => "cash_in"
    case CashOut => "cash_out"
    case CashInternal => "cash_internal"
    case NonCash => "non_cash"
    case Contingent => "contingent"
  }

  function DirectionCode(v: Direction): string {
    match v
    case In => "in"
    case Out => "out"
    case Neutral => "neutral"
  }

  // ---- the codes tell the values apart ----

  /** Length, third and twelfth character of a text: enough to tell the codes of one enum apart. */
  function MarkOf(s: string): (int, char, char) {
    (|s|, if |s| > 2 then s[2] else ' ', if |s| > 11 then s[11] else ' ')
  }

  function EventTypeMark(v: EventType): (int, char, char) {
    match v
    case PayrollPayment => (15, 'y', 'm')
    case InfrastructureExpense => (22, 'f', 'u')
    case CommissionReceived => (19, 'm', 'r')
    case CommissionSplit => (16, 'm', 's')
    case CommissionWaiver => (17, 'm', 'w')
    case PenaltyPayment => (15, 'n', 'm')
    case AdvancePayment => (15, 'v', 'm')
    case AdvanceSettlement => (18, 'v', 't')
    case LoanOrigination => (16, 'a', 'a')
    case LoanRepayment => (14, 'a', 'e')
    case DirectPaymentAcknowledged => (27, 'r', 'e')
    case IncentivePayment => (17, 'c', 'a')
    case LedgerCorrection => (17, 'd', 'e')
    case CommissionExpected => (19, 'm', 'e')
    case OutboundPayment => (16, 't', 'y')
    case ServiceFeePayment => (19, 'r', '_')
    case TaxPayment => (11, 'x', ' ')
    case ObligationRecognized => (21, 'l', 'r')
  }

  lemma {:induction false} EventTypeCodeHasMark(v: EventType)
    ensures EventTypeMark(v) == MarkOf(EventTypeCode(v))
  {
  }

  lemma {:induction false} EventTypeMarksDiffer(a: EventType, b: EventType)
    requires EventTypeMark(a) == EventTypeMark(b)
    ensures a == b
  {
  }

  lemma {:induction false} EventTypeCodeIsInjective(a: EventType, b: EventType)
    requires EventTypeCode(a) == EventTypeCode(b)
    ensures a == b
  {
    EventTypeCodeHasMark(a);
    EventTypeCodeHasMark(b);
    EventTypeMarksDiffer(a, b);
  }

  lemma {:induction false} ObjectTypeCodeIsInjective(a: ObjectType, b: ObjectType)
    requires ObjectTypeCode(a) == ObjectTypeCode(b)
    ensures a == b
  {
    var s := ObjectTypeCode(a);
    assert |s| > 4 ==> ObjectTypeCode(a)[4] == ObjectTypeCode(b)[4];
  }

  function ReasonTypeMark(v: ReasonType): (int, char, char) {
    match v
    case CommissionPayment => (18, 'm', 'p')
    case CommissionAccrual => (18, 'm', 'a')
    case DirectCommissionPaymentAuthorized => (36, 'r', 'i')
    case CommissionSplit => (16, 'm', 's')
    case LateIdentifiedCommission => (26, 't', 'f')
    case CommissionWaiver => (17, 'm', 'w')
    case LoanOrigination => (16, 'a', 'a')
    case LoanRepayment => (14, 'a', 'e')
    case LoanRepaymentViaCommission => (29, 'a', 'e')
    case AdvancePayment => (15, 'v', 'm')
    case DebtRestructuring => (18, 'b', 'c')
    case PenaltyPayment => (15, 'n', 'm')
    case PenaltyRecognition => (19, 'n', 'o')
    case Chargeback => (10, 'a', ' ')
    case DisputeOpened => (14, 's', 'n')
    case LossRecognition => (16, 's', 'i')
    case LateAwareness => (14, 't', 'e')
    case ManualCorrection => (17, 'n', 'e')
    case DataReconciliation => (19, 't', 'i')
    case UnknownOrigin => (14, 'k', 'g')
    case PayrollPayment => (15, 'y', 'm')
    case InfrastructureExpense => (22, 'f', 'u')
    case ThirdPartyPayment => (19, 'i', '_')
    case TaxPayment => (11, 'x', ' ')
    case ServiceFeePayment => (19, 'r', '_')
    case IncentivePayment => (17, 'c', 'a')
    case ObligationRecognition => (22, 'l', 'r')
    case OrdinarySettlement => (19, 'd', 't')
  }

  lemma {:induction false} ReasonTypeCodeHasMark(v: ReasonType)
    ensures ReasonTypeMark(v) == MarkOf(ReasonTypeCode(v))
  {
  }

  lemma {:induction false} ReasonTypeMarksDiffer(a: ReasonType, b: ReasonType)
    requires ReasonTypeMark(a) == ReasonTypeMark(b)
    ensures a == b
  {
  }

  lemma {:induction false} ReasonTypeCodeIsInjective(a: ReasonType, b: ReasonType)
    requires ReasonTypeCode(a) == ReasonTypeCode(b)
    ensures a == b
  {
    ReasonTypeCodeHasMark(a);
    ReasonTypeCodeHasMark(b);
    ReasonTypeMarksDiffer(a, b);
  }

  lemma {:induction false} PartyRoleCodeIsInjective(a: PartyRole, b: PartyRole)
    requires PartyRoleCode(a) == PartyRoleCode(b)
    ensures a == b
  {
    var s := PartyRoleCode(a);
    assert |s| > 4 ==> PartyRoleCode(a)[4] == PartyRoleCode(b)[4];
  }

  lemma {:induction false} ConfidenceCodeIsInjective(a: Confidence, b: Confidence)
    requires ConfidenceCode(a) == ConfidenceCode(b)
    ensures a == b
  {
    assert |ConfidenceCode(a)| == |ConfidenceCode(b)|;
  }

  lemma {:induction false} ReporterTypeCodeIsInjective(a: ReporterType, b: ReporterType)
    requires ReporterTypeCode(a) == ReporterTypeCode(b)
    ensures a == b
  {
    assert |ReporterTypeCode(a)| == |ReporterTypeCode(b)|;
  }

  lemma {:induction false} RelationCodeIsInjective(a: Relation, b: Relation)
    requires RelationCode(a) == RelationCode(b)
    ensures a == b
  {
    var s := RelationCode(a);
    assert |s| > 2 ==> RelationCode(a)[2] == RelationCode(b)[2];
  }

  lemma {:induction false} EffectCodeIsInjective(a: Effect, b: Effect)
    requires EffectCode(a) == EffectCode(b)
    ensures a == b
  {
    var s := EffectCode(a);
    assert |s| > 0 ==> EffectCode(a)[0] == EffectCode(b)[0];
  }

  lemma {:induction false} DirectionCodeIsInjective(a: Direction, b: Direction)
    requires DirectionCode(a) == DirectionCode(b)
    ensures a == b
  {
    assert |DirectionCode(a)| == |DirectionCode(b)|;
  }
}
