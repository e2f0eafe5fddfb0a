// The rules every event is held to: ledger/src/core/domain/contracts/EventContract.ts and
// ledger/src/core/domain/policies/FormalMatrices.ts.

module Catalog {
  import opened Prelude
  import opened Events

  datatype SemanticContract = SemanticContract(
    effects: set<Effect>,
    objects: map<ObjectType, set<Relation>>,
    reasons: set<ReasonType>,
    minConfidence: Option<Confidence>,
    requiresPreviousHash: bool,
    requiresRelatedEventId: bool,
    allowedOrigins: Option<set<EventType>>,
    admitsDueAt: bool)

  const CORRECTABLE_TYPES: set<ObjectType> := {
    ObjectType.CommissionReceivable, ObjectType.CommissionPayable, ObjectType.CommissionEntitlement, ObjectType.CommissionPool,
    ObjectType.Loan, ObjectType.Advance, ObjectType.Receivable, ObjectType.Payable, ObjectType.Penalty,
    ObjectType.Chargeback, ObjectType.Incentive, ObjectType.Bonus, ObjectType.Payroll,
    ObjectType.ServiceFee, ObjectType.InfrastructureCost, ObjectType.Tax
  }

  const CONTEXTUAL_TYPES: set<ObjectType> := {
    ObjectType.Contract, ObjectType.Proposal, ObjectType.Installment, ObjectType.SettlementBatch, ObjectType.Campaign
  }

  function ContractOf(t: EventType): SemanticContract {
    match t
    case CommissionSplit => SemanticContract(
      {CashOut, CashInternal},
      map[ObjectType.CommissionPool := {Adjusts, Settles}, ObjectType.CommissionPayable := {Originates, Settles}],
      {ReasonType.CommissionSplit},
      None, false, false, None, false)
    case PayrollPayment => SemanticContract(
      {CashOut},
      map[ObjectType.Payroll := {Settles}],
      {ReasonType.PayrollPayment},
      Some(Medium), false, false, None, false)
    case CommissionReceived => SemanticContract(
      {CashIn},
      map[ObjectType.CommissionReceivable := {Settles}],
      {ReasonType.CommissionPayment, ReasonType.DirectCommissionPaymentAuthorized, ReasonType.UnknownOrigin},
      Some(Medium), false, true, Some({EventType.CommissionExpected}), false)
    case CommissionWaiver => SemanticContract(
      {NonCash},
      map[ObjectType.CommissionEntitlement := {Settles, Reverses}],
      {ReasonType.CommissionWaiver},
      None, false, false, None, false)
    case PenaltyPayment => SemanticContract(
      {CashOut},
      map[ObjectType.Penalty := {Settles}],
      {ReasonType.PenaltyPayment},
      None, false, false, None, false)
    case AdvancePayment => SemanticContract(
      {CashOut, NonCash},
      map[ObjectType.Advance := {Originates, Adjusts, Settles}],
      {ReasonType.AdvancePayment},
      None, false, false, None, false)
    case InfrastructureExpense => SemanticContract(
      {CashOut},
      map[ObjectType.InfrastructureCost := {Settles}],
      {ReasonType.InfrastructureExpense},
      None, false, false, None, false)
    case ServiceFeePayment => SemanticContract(
      {CashOut},
      map[ObjectType.ServiceFee := {Settles}],
      {ReasonType.ServiceFeePayment},
      None, false, false, None, false)
    case TaxPayment => SemanticContract(
      {CashOut},
      map[ObjectType.Tax := {Settles}],
      {ReasonType.TaxPayment},
      None, false, false, None, false)
    case OutboundPayment => SemanticContract(
      {CashOut},
      map[ObjectType.Payable := {Settles}],
      {ReasonType.OrdinarySettlement},
      Some(Medium), false, false, None, false)
    case AdvanceSettlement => SemanticContract(
      {CashIn, NonCash},
      map[ObjectType.Advance := {Settles, Adjusts}],
      {ReasonType.AdvancePayment, ReasonType.LossRecognition, ReasonType.DebtRestructuring},
      None, false, true, Some({EventType.AdvancePayment}), false)
    case LoanOrigination => SemanticContract(
      {CashOut},
      map[ObjectType.Loan := {Originates}],
      {ReasonType.LoanOrigination},
      None, false, false, None, false)
    case LoanRepayment => SemanticContract(
      {CashIn, NonCash},
      map[ObjectType.Loan := {Settles, Adjusts}],
      {ReasonType.LoanRepayment, ReasonType.LoanRepaymentViaCommission, ReasonType.DebtRestructuring},
      None, false, true, Some({EventType.LoanOrigination}), false)
    case DirectPaymentAcknowledged => SemanticContract(
      {NonCash},
      map[ObjectType.CommissionReceivable := {Settles}, ObjectType.CommissionEntitlement := {Settles}],
      {ReasonType.LateAwareness, ReasonType.DirectCommissionPaymentAuthorized},
      None, false, false, None, false)
    case IncentivePayment => SemanticContract(
      {CashOut, NonCash},
      map[ObjectType.Incentive := {Originates, Settles}, ObjectType.Bonus := {Originates, Settles}],
      {ReasonType.IncentivePayment},
      None, false, false, None, false)
    case LedgerCorrection => SemanticContract(
      {NonCash},
      map t | t in CORRECTABLE_TYPES :: {Reverses, Adjusts, Retracts},
      {ReasonType.ManualCorrection, ReasonType.DataReconciliation, ReasonType.LateAwareness},
      Some(High), true, false, None, false)
    case CommissionExpected => SemanticContract(
      {NonCash},
      map[ObjectType.CommissionReceivable := {Originates}],
      {ReasonType.CommissionAccrual, ReasonType.CommissionPayment, ReasonType.LateIdentifiedCommission},
      Some(Medium), false, false, None, false)
    case ObligationRecognized => SemanticContract(
      {NonCash},
      map[ObjectType.Payroll := {Originates}, ObjectType.ServiceFee := {Originates}, ObjectType.InfrastructureCost := {Originates},
          ObjectType.Tax := {Originates}, ObjectType.Payable := {Originates}],
      {ReasonType.ObligationRecognition, ReasonType.LateAwareness},
      Some(Medium), false, false, None, true)
  }

  /** Economic effect by relation. */
  function EffectRelations(f: Effect): set<Relation> {
    match f
    case CashIn => {Originates, Settles}
    case CashOut => {Originates, Settles}
    case CashInternal => {Adjusts}
    case NonCash => {Originates, Adjusts, Settles, Reverses, Retracts}
    case Contingent => {Originates, Adjusts}
  }

  /** Object type by relation. */
  function ObjectRelations(t: ObjectType): set<Relation> {
    match t
    case CommissionEntitlement => {Originates, Adjusts, Settles, Reverses, Retracts}
    case CommissionPool => {Adjusts, Reverses, Retracts}
    case CommissionReceivable => {Originates, Adjusts, Settles, Reverses, Retracts}
    case CommissionPayable => {Originates, Adjusts, Settles, Reverses, Retracts}
    case Loan => {Originates, Adjusts, Settles, Reverses, Retracts}
    case Advance => {Originates, Adjusts, Settles, Reverses, Retracts}
    case Receivable => {Originates, Adjusts, Settles, Reverses, Retracts}
    case Payable => {Originates, Adjusts, Settles, Reverses, Retracts}
    case Penalty => {Originates, Adjusts, Settles, Reverses, Retracts}
    case Chargeback => {Originates, Settles, Reverses, Retracts}
    case ContingentClaim => {Originates, Adjusts, Reverses, Retracts}
    case Dispute => {Originates, Settles, Reverses, Retracts}
    case Incentive => {Originates, Adjusts, Settles, Reverses, Retracts}
    case Bonus => {Originates, Settles, Retracts}
    case Payroll => {Originates, Settles, Retracts}
    case ServiceFee => {Originates, Settles, Retracts}
    case InfrastructureCost => {Originates, Settles, Retracts}
    case Tax => {Originates, Settles, Retracts}
    case Contract => {References}
    case Proposal => {References}
    case Installment => {References}
    case SettlementBatch => {References}
    case Campaign => {References}
  }

  /** Reason by economic effect; an absent row admits every effect. */
  function ReasonEffects(r: ReasonType): Option<set<Effect>> {
    match r
    case OrdinarySettlement => Some({CashOut})
    case CommissionPayment => Some({CashIn})
    case DirectCommissionPaymentAuthorized => Some({CashIn, NonCash})
    case CommissionSplit => Some({CashInternal, CashOut})
    case LateIdentifiedCommission => Some({NonCash})
    case CommissionAccrual => Some({NonCash})
    case CommissionWaiver => Some({NonCash})
    case LoanOrigination => Some({CashOut})
    case LoanRepayment => Some({CashIn})
    case LoanRepaymentViaCommission => Some({NonCash, CashInternal})
    case AdvancePayment => Some({CashOut, NonCash, CashIn})
    case DebtRestructuring => Some({NonCash})
    case PenaltyPayment => Some({CashOut})
    case PenaltyRecognition => Some({Contingent, NonCash})
    case Chargeback => Some({CashOut, NonCash})
    case DisputeOpened => Some({Contingent})
    case LossRecognition => Some({NonCash})
    case PayrollPayment => Some({CashOut})
    case InfrastructureExpense => Some({CashOut})
    case ThirdPartyPayment => Some({CashOut})
    case TaxPayment => Some({CashOut})
    case ServiceFeePayment => Some({CashOut})
    case IncentivePayment => Some({CashOut, NonCash})
    case ObligationRecognition => Some({NonCash})
    case ManualCorrection => Some({NonCash})
    case DataReconciliation => Some({NonCash})
    case _ => None
  }

  /** Reason by relation; an absent row admits every relation. */
  function ReasonRelations(r: ReasonType): Option<set<Relation>> {
    match r
    case OrdinarySettlement => Some({Settles})
    case CommissionPayment => Some({Settles})
    case DirectCommissionPaymentAuthorized => Some({Settles})
    case CommissionSplit => Some({Adjusts, Settles, Originates})
    case LateIdentifiedCommission => Some({Originates, Adjusts})
    case CommissionAccrual => Some({Originates})
    case CommissionWaiver => Some({Settles, Reverses})
    case LoanOrigination => Some({Originates})
    case LoanRepayment => Some({Settles})
    case LoanRepaymentViaCommission => Some({Settles, Adjusts})
    case AdvancePayment => Some({Originates, Adjusts, Settles})
    case DebtRestructuring => Some({Adjusts})
    case PenaltyPayment => Some({Settles})
    case PenaltyRecognition => Some({Originates})
    case Chargeback => Some({Originates, Settles})
    case DisputeOpened => Some({Originates})
    case LossRecognition => Some({Originates, Settles})
    case PayrollPayment => Some({Settles})
    case InfrastructureExpense => Some({Settles})
    case ThirdPartyPayment => Some({Originates, Settles})
    case TaxPayment => Some({Settles})
    case ServiceFeePayment => Some({Settles})
    case IncentivePayment => Some({Originates, Settles})
    case ObligationRecognition => Some({Originates})
    case ManualCorrection => Some({Reverses, Adjusts, Retracts})
    case DataReconciliation => Some({Reverses, Adjusts, Retracts})
    case _ => None
  }
}
