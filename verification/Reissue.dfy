// Describing a fact and describing it again: `build` and its inverse `planReissue`
// (treasury/src/core/application/services/CandidateMapper.ts).

module Reissue {
  import opened Prelude
  import opened Moneys
  import opened Events

  // ---- the mapping ----

  datatype Slot = AmountSlot | CurrencySlot | OccurredAtSlot | DueAtSlot | DescriptionSlot
    | PayeeSlot | PayerSlot | ObjectRefSlot | OriginSlot | TargetSlot | KindSlot | BasisSlot | ObjectTypeSlot | ReissueSlot

  type Answers = map<Slot, string>

  datatype Scenario = RegisterPayment | RegisterPayroll | RegisterInfrastructure | RegisterServiceFee | RegisterTax
    | RegisterPenalty | RegisterIncentive | RegisterAdvance | RegisterLoan | RegisterWaiver
    | RegisterCommissionAccrual | RegisterDirectPayment | RegisterCommissionReceived | RegisterAdvanceSettlement
    | RegisterRectification | RegisterLoanRepayment | RegisterObligationRecognition

  datatype TupleOverride = TupleOverride(objectType: Option<ObjectType>, relation: Option<Relation>)

  datatype Who = Usina | Counterparty

  datatype PartyTemplate = PartyTemplate(who: Who, role: PartyRole, direction: Direction, carriesAmount: bool)

  datatype ObjectTemplate = ObjectTemplate(objectType: ObjectType, relation: Relation)

  /** The wordings a candidate can give its reason. */
  datatype Text =
    | TextOrdinarySettlementOfA
    | TextPayrollPayment
    | TextInfrastructureExpense
    | TextServiceFeePayment
    | TextTaxPayment
    | TextPenaltyPayment
    | TextIncentivePayment
    | TextAdvanceDisbursement
    | TextLoanOrigination
    | TextCommissionWaiver
    | TextAccrualOfAnExpected
    | TextOperatorPaidTheBroker
    | TextCommissionReceived
    | TextCommissionReceivedOriginatingExpected
    | TextAdvanceRecovery
    | TextEntryRectifiedVerifiedAgainst
    | TextLoanRepayment
    | TextObligationEstablishedByAn
    | TextObligationIdentifiedAfterThe

  function Wording(t: Text): string {
    match t
    case TextOrdinarySettlementOfA => "Ordinary settlement of a payable"
    case TextPayrollPayment => "Payroll payment"
    case TextInfrastructureExpense => "Infrastructure expense"
    case TextServiceFeePayment => "Service fee payment"
    case TextTaxPayment => "Tax payment"
    case TextPenaltyPayment => "Penalty payment"
    case TextIncentivePayment => "Incentive payment"
    case TextAdvanceDisbursement => "Advance disbursement"
    case TextLoanOrigination => "Loan origination"
    case TextCommissionWaiver => "Commission waiver"
    case TextAccrualOfAnExpected => "Accrual of an expected commission"
    case TextOperatorPaidTheBroker => "Operator paid the broker directly"
    case TextCommissionReceived => "Commission received"
    case TextCommissionReceivedOriginatingExpected => "Commission received; originating expected unknown"
    case TextAdvanceRecovery => "Advance recovery"
    case TextEntryRectifiedVerifiedAgainst => "Entry rectified: verified against the source, it never happened"
    case TextLoanRepayment => "Loan repayment"
    case TextObligationEstablishedByAn => "Obligation established by an external fact"
    case TextObligationIdentifiedAfterThe => "Obligation identified after the payment was already recorded"
  }

  datatype Cause = Cause(kind: ReasonType, text: Text)

  datatype Choice = Choice(name: string, override: TupleOverride)

  datatype Variants = Variants(selector: Slot, byChoice: seq<Choice>)

  datatype Mapping = Mapping(
    eventType: EventType,
    effect: Effect,
    counterpartySlot: Option<Slot>,
    parties: seq<PartyTemplate>,
    objects: seq<ObjectTemplate>,
    cause: Cause,
    variants: Option<Variants>,
    relatedEventSlot: Option<Slot>,
    objectIdSlot: Option<Slot>,
    orphan: Option<Cause>,
    retroactive: Option<Cause>,
    followupSlot: Option<Slot>)

  const CASH_IN_PARTIES: seq<PartyTemplate> :=
    [PartyTemplate(Usina, Payee, In, true), PartyTemplate(Counterparty, Payer, Neutral, true)]

  const CASH_OUT_PARTIES: seq<PartyTemplate> :=
    [PartyTemplate(Usina, Payer, Out, true), PartyTemplate(Counterparty, Payee, Neutral, false)]

  const OBLIGATION_PARTIES: seq<PartyTemplate> :=
    [PartyTemplate(Usina, Payer, Neutral, false), PartyTemplate(Counterparty, Payee, Neutral, false)]

  const BENEFICIARY_PARTIES: seq<PartyTemplate> := [PartyTemplate(Counterparty, Beneficiary, Neutral, false)]

  /** A payment out, which settles one object of the kind `objectType`. */
  function Expense(eventType: EventType, objectType: ObjectType, kind: ReasonType, text: Text, objectIdSlot: Option<Slot>): Mapping {
    Mapping(eventType, CashOut, Some(PayeeSlot), CASH_OUT_PARTIES, [ObjectTemplate(objectType, Settles)],
      Cause(kind, text), None, None, objectIdSlot, None, None, None)
  }

  function Disbursement(eventType: EventType, objectType: ObjectType, kind: ReasonType, text: Text): Mapping {
    Mapping(eventType, CashOut, Some(PayeeSlot), CASH_OUT_PARTIES, [ObjectTemplate(objectType, Originates)],
      Cause(kind, text), None, None, None, None, None, None)
  }

  /** A payment in, which settles one object and links back to what originated it. */
  function Recovery(eventType: EventType, objectType: ObjectType, kind: ReasonType, text: Text, orphan: Option<Cause>): Mapping {
    Mapping(eventType, CashIn, Some(PayerSlot), CASH_IN_PARTIES, [ObjectTemplate(objectType, Settles)],
      Cause(kind, text), None, Some(OriginSlot), Some(ObjectRefSlot), orphan, None, None)
  }

  function OfType(name: string, objectType: ObjectType): Choice {
    Choice(name, TupleOverride(Some(objectType), None))
  }

  function WithRelation(name: string, relation: Relation): Choice {
    Choice(name, TupleOverride(None, Some(relation)))
  }

  const INCENTIVE_KINDS: seq<Choice> :=
    [OfType("incentive", ObjectType.Incentive), OfType("bonus", Bonus)]

  const WAIVER_BASES: seq<Choice> :=
    [WithRelation("waiver", Settles), WithRelation("reversal", Reverses)]

  const RECTIFIED_KINDS: seq<Choice> :=
    [OfType("advance", Advance), OfType("loan", Loan), OfType("commission_receivable", CommissionReceivable)]

  const OBLIGATION_KINDS: seq<Choice> :=
    [OfType("payroll", Payroll), OfType("service", ServiceFee), OfType("infrastructure", InfrastructureCost),
     OfType("tax", Tax), OfType("other", Payable)]

  function MappingOf(s: Scenario): Mapping {
    match s
    case RegisterPayment =>
      Expense(OutboundPayment, Payable, OrdinarySettlement, TextOrdinarySettlementOfA, Some(ObjectRefSlot))
    case RegisterPayroll =>
      Expense(EventType.PayrollPayment, Payroll, ReasonType.PayrollPayment, TextPayrollPayment, Some(ObjectRefSlot))
    case RegisterInfrastructure =>
      Expense(EventType.InfrastructureExpense, InfrastructureCost, ReasonType.InfrastructureExpense,
        TextInfrastructureExpense, Some(ObjectRefSlot))
    case RegisterServiceFee =>
      Expense(EventType.ServiceFeePayment, ServiceFee, ReasonType.ServiceFeePayment, TextServiceFeePayment, Some(ObjectRefSlot))
    case RegisterTax =>
      Expense(EventType.TaxPayment, Tax, ReasonType.TaxPayment, TextTaxPayment, Some(ObjectRefSlot))
    case RegisterPenalty =>
      Expense(EventType.PenaltyPayment, ObjectType.Penalty, ReasonType.PenaltyPayment, TextPenaltyPayment, None)
    case RegisterIncentive =>
      Expense(EventType.IncentivePayment, ObjectType.Incentive, ReasonType.IncentivePayment, TextIncentivePayment, None)
        .(variants := Some(Variants(KindSlot, INCENTIVE_KINDS)))
    case RegisterAdvance =>
      Disbursement(EventType.AdvancePayment, Advance, ReasonType.AdvancePayment, TextAdvanceDisbursement)
    case RegisterLoan =>
      Disbursement(EventType.LoanOrigination, Loan, ReasonType.LoanOrigination, TextLoanOrigination)
    case RegisterWaiver =>
      Mapping(EventType.CommissionWaiver, NonCash, Some(PayeeSlot), BENEFICIARY_PARTIES,
        [ObjectTemplate(CommissionEntitlement, Settles)], Cause(ReasonType.CommissionWaiver, TextCommissionWaiver),
        Some(Variants(BasisSlot, WAIVER_BASES)), None, None, None, None, None)
    case RegisterCommissionAccrual =>
      Mapping(CommissionExpected, NonCash, None, [PartyTemplate(Usina, Beneficiary, Neutral, false)],
        [ObjectTemplate(CommissionReceivable, Originates)],
        Cause(CommissionAccrual, TextAccrualOfAnExpected), None, None, None, None, None, None)
    case RegisterDirectPayment =>
      Mapping(DirectPaymentAcknowledged, NonCash, Some(PayeeSlot), BENEFICIARY_PARTIES,
        [ObjectTemplate(CommissionReceivable, Settles), ObjectTemplate(CommissionEntitlement, Settles)],
        Cause(DirectCommissionPaymentAuthorized, TextOperatorPaidTheBroker), None, None, None, None, None, None)
    case RegisterCommissionReceived =>
      Recovery(CommissionReceived, CommissionReceivable, CommissionPayment, TextCommissionReceived,
        Some(Cause(UnknownOrigin, TextCommissionReceivedOriginatingExpected)))
    case RegisterAdvanceSettlement =>
      Recovery(AdvanceSettlement, Advance, ReasonType.AdvancePayment, TextAdvanceRecovery, None)
    case RegisterRectification =>
      Mapping(LedgerCorrection, NonCash, None, [PartyTemplate(Usina, Platform, Neutral, false)],
        [ObjectTemplate(Advance, Retracts)],
        Cause(DataReconciliation, TextEntryRectifiedVerifiedAgainst),
        Some(Variants(ObjectTypeSlot, RECTIFIED_KINDS)), Some(TargetSlot), Some(ObjectRefSlot), None, None, Some(ReissueSlot))
    case RegisterLoanRepayment =>
      Recovery(EventType.LoanRepayment, Loan, ReasonType.LoanRepayment, TextLoanRepayment, None)
    case RegisterObligationRecognition =>
      Mapping(ObligationRecognized, NonCash, Some(PayeeSlot), OBLIGATION_PARTIES,
        [ObjectTemplate(Payable, Originates)],
        Cause(ObligationRecognition, TextObligationEstablishedByAn),
        Some(Variants(KindSlot, OBLIGATION_KINDS)), None, Some(ObjectRefSlot), None,
        Some(Cause(LateAwareness, TextObligationIdentifiedAfterThe)), None)
  }

  /** The scenarios in the order the source declares them. */
  const SCENARIOS: seq<Scenario> := [RegisterPayment, RegisterPayroll, RegisterInfrastructure, RegisterServiceFee,
    RegisterTax, RegisterPenalty, RegisterIncentive, RegisterAdvance, RegisterLoan, RegisterWaiver,
    RegisterCommissionAccrual, RegisterDirectPayment, RegisterCommissionReceived, RegisterAdvanceSettlement,
    RegisterRectification, RegisterLoanRepayment, RegisterObligationRecognition]

  // ---- trimming ----

  /** What `trim` strips: white space and line terminators. */
  predicate IsSpace(c: char) {
    c in {' ', '\t', '\n', '\r', '\U{0B}', '\U{0C}', '\U{A0}', '\U{1680}', '\U{2028}', '\U{2029}', '\U{202F}',
          '\U{205F}', '\U{3000}', '\U{FEFF}'} || '\U{2000}' <= c <= '\U{200A}'
  }

  function TrimEnd(s: string): string {
    if s != "" && IsSpace(s[|s| - 1]) then TrimEnd(s[..|s| - 1]) else s
  }

  function Trim(s: string): string {
    if s != "" && IsSpace(s[0]) then Trim(s[1..]) else TrimEnd(s)
  }

  lemma {:induction false} TrimEndStarts(s: string)
    ensures var t := TrimEnd(s); t <= s && (t != "" ==> !IsSpace(t[|t| - 1]))
  {
    if s != "" && IsSpace(s[|s| - 1]) {
      TrimEndStarts(s[..|s| - 1]);
    }
  }

  lemma {:induction false} TrimIsIdempotent(s: string)
    ensures Trim(Trim(s)) == Trim(s)
  {
    if s != "" && IsSpace(s[0]) {
      TrimIsIdempotent(s[1..]);
    } else {
      TrimEndStarts(s);
    }
  }

  /** Nothing but white space. */
  predicate IsBlank(s: string) {
    forall i :: 0 <= i < |s| ==> IsSpace(s[i])
  }

  lemma {:induction false} TrimEndStripsSpaces(s: string) returns (back: string)
    ensures s == TrimEnd(s) + back && IsBlank(back)
  {
    if s != "" && IsSpace(s[|s| - 1]) {
      var before := TrimEndStripsSpaces(s[..|s| - 1]);
      back := before + [s[|s| - 1]];
      assert s == s[..|s| - 1] + [s[|s| - 1]];
    } else {
      back := "";
    }
  }

  lemma {:induction false} OneMoreInFront(c: char, rest: string, front: string, t: string, back: string)
    requires rest == front + t + back
    ensures [c] + rest == ([c] + front) + t + back
  {
  }

  lemma {:induction false} OneMoreSpace(c: char, s: string)
    requires IsSpace(c) && IsBlank(s)
    ensures IsBlank([c] + s)
  {
  }

  /** A text that starts with no space is trimmed at its end alone. */
  lemma {:induction false} TrimAtTheEnd(s: string) returns (back: string)
    requires s == "" || !IsSpace(s[0])
    ensures s == Trim(s) + back && IsBlank(back)
    ensures Trim(s) != "" ==> !IsSpace(Trim(s)[0]) && !IsSpace(Trim(s)[|Trim(s)| - 1])
  {
    back := TrimEndStripsSpaces(s);
    TrimEndStarts(s);
  }

  /** Only white space is stripped, and all of it at either end. */
  lemma {:induction false} TrimStripsWhiteSpace(s: string) returns (front: string, back: string)
    ensures s == front + Trim(s) + back && IsBlank(front) && IsBlank(back)
    ensures Trim(s) != "" ==> !IsSpace(Trim(s)[0]) && !IsSpace(Trim(s)[|Trim(s)| - 1])
  {
    if s != "" && IsSpace(s[0]) {
      var t := s[1..];
      assert s == [s[0]] + t && Trim(s) == Trim(t);
      var f, b := TrimStripsWhiteSpace(t);
      front, back := [s[0]] + f, b;
      OneMoreSpace(s[0], f);
      OneMoreInFront(s[0], t, f, Trim(t), b);
    } else {
      back := TrimAtTheEnd(s);
      front := "";
      assert "" + Trim(s) == Trim(s);
    }
  }

  // ---- build ----

  datatype CandidateParty = CandidateParty(partyId: Option<string>, role: PartyRole, direction: Direction, amount: Option<string>)

  /** What Treasury proposes. A slot never answered is absent, as `undefined` is. */
  datatype Candidate = Candidate(
    sourceReference: string,
    eventType: EventType,
    effect: Effect,
    occurredAt: string,
    dueAt: Option<string>,
    amount: Option<string>,
    currency: Option<string>,
    description: Option<string>,
    relatedEventId: Option<string>,
    parties: seq<CandidateParty>,
    objects: seq<EventObject>,
    reason: Reason)

  datatype BuildError = InvalidDate

  /** `toInstantISO`: the instant a text denotes, written out; absent where the source throws. */
  type Instants = string -> Option<string>

  function Answer(a: Answers, slot: Slot): Option<string> {
    if slot in a then Some(a[slot]) else None
  }

  /** The trimmed answer to a declared slot, unless it is absent or blank. */
  function Stated(a: Answers, slot: Option<Slot>): Option<string> {
    if slot.Some? && slot.value in a && Trim(a[slot.value]) != "" then Some(Trim(a[slot.value])) else None
  }

  function Lookup(byChoice: seq<Choice>, name: string): Option<TupleOverride> {
    if byChoice == [] then None
    else if byChoice[0].name == name then Some(byChoice[0].override) else Lookup(byChoice[1..], name)
  }

  const NO_OVERRIDE: TupleOverride := TupleOverride(None, None)

  function OverrideOf(m: Mapping, a: Answers): TupleOverride {
    if m.variants.None? || m.variants.value.selector !in a then NO_OVERRIDE
    else
      var found := Lookup(m.variants.value.byChoice, a[m.variants.value.selector]);
      if found.Some? then found.value else NO_OVERRIDE
  }

  function Overridden(o: ObjectTemplate, override: TupleOverride): ObjectTemplate {
    ObjectTemplate(
      if override.objectType.Some? then override.objectType.value else o.objectType,
      if override.relation.Some? then override.relation.value else o.relation)
  }

  /** The templates with the first one overridden. */
  function TemplatesOf(m: Mapping, a: Answers): seq<ObjectTemplate> {
    if m.objects == [] then [] else [Overridden(m.objects[0], OverrideOf(m, a))] + m.objects[1..]
  }

  function ObjectId(m: Mapping, a: Answers, sourceReference: string, o: ObjectTemplate): string {
    var asserted := Stated(a, m.objectIdSlot);
    if asserted.Some? then asserted.value
    else if |m.objects| == 1 then sourceReference
    else sourceReference + ":" + ObjectTypeCode(o.objectType)
  }

  function ObjectsOf(m: Mapping, a: Answers, sourceReference: string): seq<EventObject> {
    var templates := TemplatesOf(m, a);
    seq(|templates|, i requires 0 <= i < |templates| =>
      EventObject(ObjectId(m, a, sourceReference, templates[i]), templates[i].objectType, templates[i].relation))
  }

  function PartyOf(m: Mapping, a: Answers, usina: string, t: PartyTemplate): CandidateParty {
    CandidateParty(
      if t.who == Usina then Some(usina)
      else if m.counterpartySlot.Some? then Answer(a, m.counterpartySlot.value)
      else None,
      t.role, t.direction, if t.carriesAmount then Answer(a, AmountSlot) else None)
  }

  function PartiesOf(m: Mapping, a: Answers, usina: string): seq<CandidateParty> {
    seq(|m.parties|, i requires 0 <= i < |m.parties| => PartyOf(m, a, usina, m.parties[i]))
  }

  /** No origin stated where the scenario can say so. */
  predicate IsOrphan(m: Mapping, a: Answers) {
    m.relatedEventSlot.Some? && Stated(a, m.relatedEventSlot).None? && m.orphan.Some?
  }

  predicate IsRetroactive(m: Mapping, a: Answers) {
    m.retroactive.Some? && Stated(a, m.objectIdSlot).Some?
  }

  function CauseOf(m: Mapping, a: Answers): Cause {
    if IsRetroactive(m, a) then m.retroactive.value else if IsOrphan(m, a) then m.orphan.value else m.cause
  }

  const UNIDENTIFIED: string := " · counterparty not identified"

  predicate SomeUnidentified(parties: seq<CandidateParty>, unidentified: set<string>) {
    exists p :: p in parties && p.partyId.Some? && p.partyId.value in unidentified
  }

  function ReasonOf(m: Mapping, a: Answers, usina: string, unidentified: set<string>): Reason {
    var cause := CauseOf(m, a);
    var gap := SomeUnidentified(PartiesOf(m, a, usina), unidentified);
    Reason(cause.kind, if gap then Wording(cause.text) + UNIDENTIFIED else Wording(cause.text), High,
      IsOrphan(m, a) || gap || Stated(a, m.followupSlot).Some?)
  }

  /** The candidate a scenario's answers describe. */
  function Built(m: Mapping, a: Answers, usina: string, sourceReference: string, unidentified: set<string>, instants: Instants)
    : Result<Candidate, BuildError>
  {
    var due := Stated(a, Some(DueAtSlot));
    if OccurredAtSlot !in a || instants(a[OccurredAtSlot]).None? || (due.Some? && instants(a[DueAtSlot]).None?) then
      Err(InvalidDate)
    else
      Ok(Candidate(
        sourceReference, m.eventType, m.effect, instants(a[OccurredAtSlot]).value,
        if due.Some? then instants(a[DueAtSlot]) else None,
        Answer(a, AmountSlot), Answer(a, CurrencySlot),
        if Truthy(Answer(a, DescriptionSlot)) then Answer(a, DescriptionSlot) else None,
        Stated(a, m.relatedEventSlot),
        PartiesOf(m, a, usina), ObjectsOf(m, a, sourceReference), ReasonOf(m, a, usina, unidentified)))
  }

  /** Some party of the candidate is one nobody identified. */
  ghost predicate HasAGap(m: Mapping, a: Answers, usina: string, unidentified: set<string>) {
    || (usina in unidentified && exists t :: t in m.parties && t.who == Usina)
    || (m.counterpartySlot.Some? && m.counterpartySlot.value in a && a[m.counterpartySlot.value] in unidentified
        && exists t :: t in m.parties && t.who == Counterparty)
  }

  lemma {:induction false} GapIsAParty(m: Mapping, a: Answers, usina: string, unidentified: set<string>, t: PartyTemplate)
    requires WellShaped(m) && t in m.parties && PartyOf(m, a, usina, t).partyId.Some? && PartyOf(m, a, usina, t).partyId.value in unidentified
    ensures SomeUnidentified(PartiesOf(m, a, usina), unidentified) && HasAGap(m, a, usina, unidentified)
  {
    var i :| 0 <= i < |m.parties| && m.parties[i] == t;
    assert PartiesOf(m, a, usina)[i] == PartyOf(m, a, usina, t);
  }

  lemma {:induction false} GapsAreUnidentifiedParties(m: Mapping, a: Answers, usina: string, unidentified: set<string>)
    requires WellShaped(m)
    ensures SomeUnidentified(PartiesOf(m, a, usina), unidentified) <==> HasAGap(m, a, usina, unidentified)
  {
    var parties := PartiesOf(m, a, usina);
    if SomeUnidentified(parties, unidentified) {
      var i :| 0 <= i < |parties| && parties[i].partyId.Some? && parties[i].partyId.value in unidentified;
      assert m.parties[i] in m.parties && parties[i] == PartyOf(m, a, usina, m.parties[i]);
      GapIsAParty(m, a, usina, unidentified, m.parties[i]);
    } else if HasAGap(m, a, usina, unidentified) {
      var t :| t in m.parties && PartyOf(m, a, usina, t).partyId.Some? && PartyOf(m, a, usina, t).partyId.value in unidentified;
      GapIsAParty(m, a, usina, unidentified, t);
    }
  }

  /**
   * What is pending is on the record: follow-up is required exactly when an origin that could be named is not, when
   * a party is not identified, or when a correction is to follow; and the wording notes an unidentified party.
   */
  lemma {:induction false} WhatIsPendingIsDeclared(m: Mapping, a: Answers, usina: string, unidentified: set<string>)
    requires WellShaped(m)
    ensures var r := ReasonOf(m, a, usina, unidentified);
      && (r.requiresFollowup <==>
            || (m.relatedEventSlot.Some? && Stated(a, m.relatedEventSlot).None? && m.orphan.Some?)
            || HasAGap(m, a, usina, unidentified)
            || Stated(a, m.followupSlot).Some?)
      && r.description == Wording(CauseOf(m, a).text) + (if HasAGap(m, a, usina, unidentified) then UNIDENTIFIED else "")
      && r.confidence == High
  {
    GapsAreUnidentifiedParties(m, a, usina, unidentified);
    assert Wording(CauseOf(m, a).text) + "" == Wording(CauseOf(m, a).text);
  }

  /** The reason as `build` settles it: lineage first, then continuity, then the gaps. */
  method SettleReason(m: Mapping, a: Answers, parties: seq<CandidateParty>, unidentified: set<string>, usina: string)
    returns (reason: Reason)
    requires parties == PartiesOf(m, a, usina)
    ensures reason == ReasonOf(m, a, usina, unidentified)
  {
    var cause := m.cause;
    var requiresFollowup := false;
    if m.relatedEventSlot.Some? && Stated(a, m.relatedEventSlot).None? && m.orphan.Some? {
      cause := m.orphan.value;
      requiresFollowup := true;
    }
    if m.objectIdSlot.Some? && Stated(a, m.objectIdSlot).Some? && m.retroactive.Some? {
      cause := m.retroactive.value;
    }
    var text := Wording(cause.text);
    if exists p :: p in parties && p.partyId.Some? && p.partyId.value in unidentified {
      requiresFollowup := true;
      text := text + UNIDENTIFIED;
    }
    if m.followupSlot.Some? && Stated(a, m.followupSlot).Some? {
      requiresFollowup := true;
    }
    return Reason(cause.kind, text, High, requiresFollowup);
  }

  // ---- the entry the Ledger holds, and the plan to restate it ----

  datatype EntryParty = EntryParty(partyId: string, role: PartyRole, direction: Direction)

  datatype Entry = Entry(
    eventType: EventType,
    effect: Effect,
    amount: string,
    currency: string,
    occurredAt: string,
    description: Option<string>,
    relatedEventId: Option<string>,
    objects: seq<EventObject>,
    parties: seq<EntryParty>)

  /** The Ledger takes a candidate only with an amount it can read and with every party named. */
  predicate Recordable(c: Candidate) {
    && c.amount.Some? && c.currency.Some? && FromDecimal(c.amount.value, c.currency.value).Ok?
    && forall p :: p in c.parties ==> p.partyId.Some?
  }

  function MoneyOf(c: Candidate): Money
    requires Recordable(c)
  {
    FromDecimal(c.amount.value, c.currency.value).value
  }

  /** The candidate as the Ledger serves it back once recorded: the amount is its own spelling of it. */
  function Recorded(c: Candidate): Entry
    requires Recordable(c)
  {
    Entry(c.eventType, c.effect, ToString(MoneyOf(c)), c.currency.value, c.occurredAt, c.description, c.relatedEventId,
      c.objects,
      seq(|c.parties|, i requires 0 <= i < |c.parties| =>
        EntryParty(c.parties[i].partyId.value, c.parties[i].role, c.parties[i].direction)))
  }

  datatype NotReissuable = NoScenario | AmbiguousVariant | IsACorrection

  datatype SlotAnswer = SlotAnswer(key: Slot, value: string)

  datatype Plan = Plan(scenario: Scenario, answers: seq<SlotAnswer>)

  function FirstScenario(scenarios: seq<Scenario>, eventType: EventType): Option<Scenario> {
    if scenarios == [] then None
    else if MappingOf(scenarios[0]).eventType == eventType then Some(scenarios[0])
    else FirstScenario(scenarios[1..], eventType)
  }

  predicate IsCorrection(m: Mapping) {
    exists o :: o in m.objects && o.relation == Retracts
  }

  function FirstMoved(objects: seq<EventObject>): Option<EventObject> {
    if objects == [] then None
    else if objects[0].relation != References then Some(objects[0]) else FirstMoved(objects[1..])
  }

  function FirstOther(parties: seq<EntryParty>, usina: string): Option<string> {
    if parties == [] then None
    else if parties[0].partyId != usina then Some(parties[0].partyId) else FirstOther(parties[1..], usina)
  }

  predicate Explains(override: TupleOverride, moved: Option<EventObject>) {
    && (override.objectType.Some? ==> moved.Some? && override.objectType.value == moved.value.objectType)
    && (override.relation.Some? ==> moved.Some? && override.relation.value == moved.value.relation)
  }

  /** The choices that would have produced the moved object. */
  function Matching(byChoice: seq<Choice>, moved: Option<EventObject>): seq<Choice> {
    if byChoice == [] then []
    else
      var rest := Matching(byChoice[..|byChoice| - 1], moved);
      var last := byChoice[|byChoice| - 1];
      if Explains(last.override, moved) then rest + [last] else rest
  }

  function Given(slot: Option<Slot>, value: Option<string>): seq<SlotAnswer> {
    if slot.Some? && value.Some? then [SlotAnswer(slot.value, value.value)] else []
  }

  function SelectorOf(m: Mapping): Option<Slot> {
    if m.variants.Some? then Some(m.variants.value.selector) else None
  }

  function IfTruthy(s: Option<string>): Option<string> {
    if Truthy(s) then s else None
  }

  /** The answers of a plan, in the order they are pushed; `choice` is the recovered branch. */
  function PlannedAnswers(m: Mapping, e: Entry, usina: string, choice: Option<string>): seq<SlotAnswer> {
    var moved := FirstMoved(e.objects);
    [SlotAnswer(AmountSlot, e.amount), SlotAnswer(CurrencySlot, e.currency), SlotAnswer(OccurredAtSlot, e.occurredAt)]
    + Given(Some(DescriptionSlot), IfTruthy(e.description))
    + Given(SelectorOf(m), choice)
    + Given(m.counterpartySlot, FirstOther(e.parties, usina))
    + Given(m.objectIdSlot, if moved.Some? then Some(moved.value.objectId) else None)
    + Given(m.relatedEventSlot, IfTruthy(e.relatedEventId))
  }

  function PlanWith(scenario: Scenario, m: Mapping, e: Entry, usina: string): Result<Plan, NotReissuable> {
    if IsCorrection(m) then Err(IsACorrection)
    else if m.variants.None? then Ok(Plan(scenario, PlannedAnswers(m, e, usina, None)))
    else
      var matching := Matching(m.variants.value.byChoice, FirstMoved(e.objects));
      if |matching| != 1 then Err(AmbiguousVariant)
      else Ok(Plan(scenario, PlannedAnswers(m, e, usina, Some(matching[0].name))))
  }

  function PlanOf(e: Entry, usina: string): Result<Plan, NotReissuable> {
    var scenario := FirstScenario(SCENARIOS, e.eventType);
    if scenario.None? then Err(NoScenario) else PlanWith(scenario.value, MappingOf(scenario.value), e, usina)
  }

  /** The answers an intent holds once they are merged. */
  function Merged(answers: seq<SlotAnswer>): Answers {
    if answers == [] then map[]
    else Merged(answers[..|answers| - 1])[answers[|answers| - 1].key := answers[|answers| - 1].value]
  }

  method FindFirstScenario(eventType: EventType) returns (scenario: Option<Scenario>)
    ensures scenario == FirstScenario(SCENARIOS, eventType)
  {
    var n := |SCENARIOS|;
    for i := 0 to n
      invariant FirstScenario(SCENARIOS, eventType) == FirstScenario(SCENARIOS[i..], eventType)
    {
      if MappingOf(SCENARIOS[i]).eventType == eventType { return Some(SCENARIOS[i]); }
      assert SCENARIOS[i..][1..] == SCENARIOS[i + 1..];
    }
    return None;
  }

  /** `answers.push` when both the slot is declared and there is something to say in it. */
  method Push(answers: seq<SlotAnswer>, slot: Option<Slot>, value: Option<string>) returns (after: seq<SlotAnswer>)
    ensures after == answers + Given(slot, value)
  {
    after := answers;
    if slot.Some? && value.Some? {
      after := after + [SlotAnswer(slot.value, value.value)];
    }
  }

  method RebuildAnswers(scenario: Scenario, m: Mapping, e: Entry, usina: string) returns (plan: Result<Plan, NotReissuable>)
    ensures plan == PlanWith(scenario, m, e, usina)
  {
    if exists o :: o in m.objects && o.relation == Retracts { return Err(IsACorrection); }
    var moved := FirstMoved(e.objects);
    var answers :=
      [SlotAnswer(AmountSlot, e.amount), SlotAnswer(CurrencySlot, e.currency), SlotAnswer(OccurredAtSlot, e.occurredAt)];
    answers := Push(answers, Some(DescriptionSlot), IfTruthy(e.description));
    var choice := None;
    if m.variants.Some? {
      var matching := Matching(m.variants.value.byChoice, moved);
      if |matching| != 1 { return Err(AmbiguousVariant); }
      choice := Some(matching[0].name);
    }
    answers := Push(answers, SelectorOf(m), choice);
    answers := Push(answers, m.counterpartySlot, FirstOther(e.parties, usina));
    answers := Push(answers, m.objectIdSlot, if moved.Some? then Some(moved.value.objectId) else None);
    answers := Push(answers, m.relatedEventSlot, IfTruthy(e.relatedEventId));
    return Ok(Plan(scenario, answers));
  }

  method PlanReissue(e: Entry, usina: string) returns (plan: Result<Plan, NotReissuable>)
    ensures plan == PlanOf(e, usina)
  {
    var scenario := FindFirstScenario(e.eventType);
    if scenario.None? { return Err(NoScenario); }
    plan := RebuildAnswers(scenario.value, MappingOf(scenario.value), e, usina);
  }

  // ---- finding the scenario and the branch again ----

  /** The scenario an event type belongs to: no two scenarios share one. */
  function ScenarioOf(t: EventType): Option<Scenario> {
    match t
    case OutboundPayment => Some(RegisterPayment)
    case PayrollPayment => Some(RegisterPayroll)
    case InfrastructureExpense => Some(RegisterInfrastructure)
    case ServiceFeePayment => Some(RegisterServiceFee)
    case TaxPayment => Some(RegisterTax)
    case PenaltyPayment => Some(RegisterPenalty)
    case IncentivePayment => Some(RegisterIncentive)
    case AdvancePayment => Some(RegisterAdvance)
    case LoanOrigination => Some(RegisterLoan)
    case CommissionWaiver => Some(RegisterWaiver)
    case CommissionExpected => Some(RegisterCommissionAccrual)
    case DirectPaymentAcknowledged => Some(RegisterDirectPayment)
    case CommissionReceived => Some(RegisterCommissionReceived)
    case AdvanceSettlement => Some(RegisterAdvanceSettlement)
    case LedgerCorrection => Some(RegisterRectification)
    case LoanRepayment => Some(RegisterLoanRepayment)
    case ObligationRecognized => Some(RegisterObligationRecognition)
    case CommissionSplit => None
  }

  lemma {:induction false} EveryScenarioHasItsEventType(s: Scenario)
    ensures ScenarioOf(MappingOf(s).eventType) == Some(s)
  {
  }

  lemma {:induction false} EventTypesTellScenariosApart(s: Scenario, t: EventType)
    ensures MappingOf(s).eventType == t <==> ScenarioOf(t) == Some(s)
  {
    EveryScenarioHasItsEventType(s);
    EventTypesAreReadBack(t);
  }

  lemma {:induction false} EventTypesAreReadBack(t: EventType)
    ensures ScenarioOf(t).Some? ==> MappingOf(ScenarioOf(t).value).eventType == t
  {
  }

  lemma {:induction false} FirstScenarioSearches(scenarios: seq<Scenario>, t: EventType)
    ensures FirstScenario(scenarios, t)
            == if ScenarioOf(t).Some? && ScenarioOf(t).value in scenarios then ScenarioOf(t) else None
  {
    if scenarios != [] {
      EventTypesTellScenariosApart(scenarios[0], t);
      FirstScenarioSearches(scenarios[1..], t);
    }
  }

  function PositionOf(s: Scenario): nat {
    match s
    case RegisterPayment => 0
    case RegisterPayroll => 1
    case RegisterInfrastructure => 2
    case RegisterServiceFee => 3
    case RegisterTax => 4
    case RegisterPenalty => 5
    case RegisterIncentive => 6
    case RegisterAdvance => 7
    case RegisterLoan => 8
    case RegisterWaiver => 9
    case RegisterCommissionAccrual => 10
    case RegisterDirectPayment => 11
    case RegisterCommissionReceived => 12
    case RegisterAdvanceSettlement => 13
    case RegisterRectification => 14
    case RegisterLoanRepayment => 15
    case RegisterObligationRecognition => 16
  }

  lemma {:induction false} EveryScenarioIsListed(s: Scenario)
    ensures s in SCENARIOS
  {
    assert SCENARIOS[PositionOf(s)] == s;
  }

  /** What the declarations have in common, and the inverse relies on. */
  ghost predicate WellShaped(m: Mapping) {
    && (m.counterpartySlot.Some? ==> (m.counterpartySlot.value == PayeeSlot || m.counterpartySlot.value == PayerSlot))
    && (m.variants.Some? ==> (m.variants.value.selector.KindSlot? || m.variants.value.selector.BasisSlot? || m.variants.value.selector.ObjectTypeSlot?))
    && (m.objectIdSlot.Some? ==> m.objectIdSlot.value == ObjectRefSlot && |m.objects| == 1)
    && (m.relatedEventSlot.Some? ==> (m.relatedEventSlot.value == OriginSlot || m.relatedEventSlot.value == TargetSlot))
    && |m.objects| > 0 && m.objects[0].relation != References
    && (m.followupSlot.Some? ==> IsCorrection(m))
    && (m.counterpartySlot.None? ==> forall t :: t in m.parties ==> t.who == Usina)
    && (m.counterpartySlot.Some? ==> exists t :: t in m.parties && t.who == Counterparty)
  }

  lemma {:induction false} ScenariosAreWellShaped(s: Scenario)
    ensures WellShaped(MappingOf(s))
  {
    var m := MappingOf(s);
    if m.counterpartySlot.Some? {
      assert m.parties[|m.parties| - 1].who == Counterparty;
    }
    if m.followupSlot.Some? {
      assert m.objects[0].relation == Retracts;
    }
  }

  /** Every choice produces an object that moves a position and that it alone explains, and so does leaving the choice out. */
  ghost predicate Distinguishing(m: Mapping) {
    m.variants.Some? ==> |m.objects| > 0 && DistinguishingChoices(m.variants.value.byChoice, m.objects[0])
  }

  /** `override` explains the object that `taken` makes of the template. */
  predicate Produces(override: TupleOverride, o: ObjectTemplate, taken: TupleOverride) {
    && (override.objectType.Some? ==> override.objectType.value == Overridden(o, taken).objectType)
    && (override.relation.Some? ==> override.relation.value == Overridden(o, taken).relation)
  }

  /** What tells the choices apart, for one list of them. */
  ghost predicate DistinguishingChoices(byChoice: seq<Choice>, o: ObjectTemplate) {
    && (forall i, j :: 0 <= i < |byChoice| && 0 <= j < |byChoice| ==>
          (Produces(byChoice[j].override, o, byChoice[i].override) <==> i == j)
          && (byChoice[i].name == byChoice[j].name ==> i == j))
    && (forall i :: 0 <= i < |byChoice| ==> byChoice[i].override.relation != Some(References))
    && exists i :: 0 <= i < |byChoice| && Overridden(o, byChoice[i].override) == o
  }

  lemma {:induction false} NamesDiffer(byChoice: seq<Choice>)
    requires byChoice in [INCENTIVE_KINDS, WAIVER_BASES, RECTIFIED_KINDS, OBLIGATION_KINDS]
    ensures forall i, j :: 0 <= i < |byChoice| && 0 <= j < |byChoice| && byChoice[i].name == byChoice[j].name ==> i == j
  {
    forall i, j | 0 <= i < |byChoice| && 0 <= j < |byChoice| && byChoice[i].name == byChoice[j].name ensures i == j {
      assert |byChoice[i].name| == |byChoice[j].name| && byChoice[i].name[0] == byChoice[j].name[0];
    }
  }

  /** Choices that set the object's kind alone, each another one, tell themselves apart. */
  lemma {:induction false} DistinctTypesDistinguish(byChoice: seq<Choice>, types: seq<ObjectType>, o: ObjectTemplate, base: nat)
    requires |types| == |byChoice|
    requires forall i :: 0 <= i < |types| ==> byChoice[i].override == TupleOverride(Some(types[i]), None)
    requires forall i, j :: 0 <= i < j < |types| ==> types[i] != types[j]
    requires byChoice in [INCENTIVE_KINDS, WAIVER_BASES, RECTIFIED_KINDS, OBLIGATION_KINDS]
    requires base < |types| && types[base] == o.objectType
    ensures DistinguishingChoices(byChoice, o)
  {
    NamesDiffer(byChoice);
    assert Overridden(o, byChoice[base].override) == o;
  }

  lemma {:induction false} IncentiveKindsDiffer()
    ensures DistinguishingChoices(INCENTIVE_KINDS, ObjectTemplate(ObjectType.Incentive, Settles))
  {
    DistinctTypesDistinguish(INCENTIVE_KINDS, [ObjectType.Incentive, Bonus], ObjectTemplate(ObjectType.Incentive, Settles), 0);
  }

  lemma {:induction false} WaiverBasesDiffer()
    ensures DistinguishingChoices(WAIVER_BASES, ObjectTemplate(CommissionEntitlement, Settles))
  {
    NamesDiffer(WAIVER_BASES);
    assert Overridden(ObjectTemplate(CommissionEntitlement, Settles), WAIVER_BASES[0].override)
        == ObjectTemplate(CommissionEntitlement, Settles);
  }

  lemma {:induction false} RectifiedKindsDiffer()
    ensures DistinguishingChoices(RECTIFIED_KINDS, ObjectTemplate(Advance, Retracts))
  {
    DistinctTypesDistinguish(RECTIFIED_KINDS, [Advance, Loan, CommissionReceivable], ObjectTemplate(Advance, Retracts), 0);
  }

  lemma {:induction false} ObligationKindsDiffer()
    ensures DistinguishingChoices(OBLIGATION_KINDS, ObjectTemplate(Payable, Originates))
  {
    DistinctTypesDistinguish(OBLIGATION_KINDS, [Payroll, ServiceFee, InfrastructureCost, Tax, Payable],
      ObjectTemplate(Payable, Originates), 4);
  }

  lemma {:induction false} ChoicesAreDistinguishing(s: Scenario)
    ensures Distinguishing(MappingOf(s))
  {
    IncentiveKindsDiffer();
    WaiverBasesDiffer();
    RectifiedKindsDiffer();
    ObligationKindsDiffer();
  }

  lemma {:induction false} OneMatches(byChoice: seq<Choice>, moved: Option<EventObject>, k: int)
    requires k < |byChoice|
    requires forall i :: 0 <= i < |byChoice| ==> (Explains(byChoice[i].override, moved) <==> i == k)
    ensures Matching(byChoice, moved) == if k < 0 then [] else [byChoice[k]]
  {
    if byChoice != [] {
      var n := |byChoice| - 1;
      OneMatches(byChoice[..n], moved, if k == n then -1 else k);
    }
  }

  lemma {:induction false} LookupFinds(byChoice: seq<Choice>, name: string)
    ensures match Lookup(byChoice, name)
            case None => forall i :: 0 <= i < |byChoice| ==> byChoice[i].name != name
            case Some(override) => exists i :: 0 <= i < |byChoice| && byChoice[i] == Choice(name, override)
  {
    if byChoice != [] && byChoice[0].name != name {
      LookupFinds(byChoice[1..], name);
      if Lookup(byChoice, name).Some? {
        var i :| 0 <= i < |byChoice[1..]| && byChoice[1..][i] == Choice(name, Lookup(byChoice, name).value);
        assert byChoice[i + 1] == Choice(name, Lookup(byChoice, name).value);
      }
    } else if byChoice != [] {
      assert byChoice[0] == Choice(name, byChoice[0].override);
    }
  }

  /** The branch that was taken, or one that produces the same object when none was. */
  lemma {:induction false} TheBranchTaken(m: Mapping, a: Answers) returns (k: nat)
    requires m.variants.Some? && WellShaped(m) && Distinguishing(m)
    ensures k < |m.variants.value.byChoice|
    ensures Overridden(m.objects[0], m.variants.value.byChoice[k].override) == Overridden(m.objects[0], OverrideOf(m, a))
  {
    var byChoice := m.variants.value.byChoice;
    var base :| 0 <= base < |byChoice| && Overridden(m.objects[0], byChoice[base].override) == m.objects[0];
    k := base;
    if m.variants.value.selector in a {
      var name := a[m.variants.value.selector];
      LookupFinds(byChoice, name);
      if Lookup(byChoice, name).Some? {
        k :| 0 <= k < |byChoice| && byChoice[k] == Choice(name, Lookup(byChoice, name).value);
      }
    }
  }

  /** The recovered choice is unique, and choosing it gives the object that was recorded. */
  lemma {:induction false} TheBranchIsRecovered(m: Mapping, a: Answers, objectId: string) returns (name: string)
    requires m.variants.Some? && WellShaped(m) && Distinguishing(m)
    ensures var t := Overridden(m.objects[0], OverrideOf(m, a));
      var matching := Matching(m.variants.value.byChoice, Some(EventObject(objectId, t.objectType, t.relation)));
      && |matching| == 1 && matching[0].name == name
      && forall b: Answers :: m.variants.value.selector in b && b[m.variants.value.selector] == name
           ==> Overridden(m.objects[0], OverrideOf(m, b)) == t
  {
    var byChoice := m.variants.value.byChoice;
    var k := TheBranchTaken(m, a);
    name := byChoice[k].name;
    var t := Overridden(m.objects[0], OverrideOf(m, a));
    var moved := Some(EventObject(objectId, t.objectType, t.relation));
    forall i | 0 <= i < |byChoice| ensures Explains(byChoice[i].override, moved) <==> i == k {
      assert Produces(byChoice[i].override, m.objects[0], byChoice[k].override) <==> i == k;
    }
    OneMatches(byChoice, moved, k);
    LookupFinds(byChoice, name);
    var i :| 0 <= i < |byChoice| && byChoice[i] == Choice(name, Lookup(byChoice, name).value);
    assert i == k;
  }

  // ---- what the merged answers hold ----

  lemma {:induction false} MergedAppend(a: seq<SlotAnswer>, b: seq<SlotAnswer>)
    ensures Merged(a + b) == Merged(a) + Merged(b)
  {
    if b == [] {
      assert a + b == a;
    } else {
      MergedAppend(a, b[..|b| - 1]);
      assert (a + b)[..|a + b| - 1] == a + b[..|b| - 1];
    }
  }

  function Pair(slot: Option<Slot>, value: Option<string>): Answers {
    if slot.Some? && value.Some? then map[slot.value := value.value] else map[]
  }

  lemma {:induction false} MergedGiven(before: seq<SlotAnswer>, slot: Option<Slot>, value: Option<string>)
    ensures Merged(before + Given(slot, value)) == Merged(before) + Pair(slot, value)
  {
    MergedAppend(before, Given(slot, value));
    if slot.Some? && value.Some? {
      assert [SlotAnswer(slot.value, value.value)][..0] == [];
    }
  }

  /** The three answers every plan states. */
  function Stem(e: Entry): Answers {
    map[AmountSlot := e.amount, CurrencySlot := e.currency, OccurredAtSlot := e.occurredAt]
  }

  lemma {:induction false} StemMerges(e: Entry)
    ensures Merged([SlotAnswer(AmountSlot, e.amount), SlotAnswer(CurrencySlot, e.currency), SlotAnswer(OccurredAtSlot, e.occurredAt)])
            == Stem(e)
  {
    var s1 := [SlotAnswer(AmountSlot, e.amount)];
    var s2 := [SlotAnswer(AmountSlot, e.amount), SlotAnswer(CurrencySlot, e.currency)];
    var s3 := [SlotAnswer(AmountSlot, e.amount), SlotAnswer(CurrencySlot, e.currency), SlotAnswer(OccurredAtSlot, e.occurredAt)];
    assert s1[..0] == [];
    assert Merged(s1) == map[AmountSlot := e.amount];
    assert s2[..1] == s1;
    assert Merged(s2) == map[AmountSlot := e.amount, CurrencySlot := e.currency];
    assert s3[..2] == s2;
  }

  lemma {:induction false} PlannedAnswersMerge(m: Mapping, e: Entry, usina: string, choice: Option<string>)
    ensures var moved := FirstMoved(e.objects);
      Merged(PlannedAnswers(m, e, usina, choice))
      == Stem(e) + Pair(Some(DescriptionSlot), IfTruthy(e.description)) + Pair(SelectorOf(m), choice)
         + Pair(m.counterpartySlot, FirstOther(e.parties, usina))
         + Pair(m.objectIdSlot, if moved.Some? then Some(moved.value.objectId) else None)
         + Pair(m.relatedEventSlot, IfTruthy(e.relatedEventId))
  {
    var moved := FirstMoved(e.objects);
    var s0 := [SlotAnswer(AmountSlot, e.amount), SlotAnswer(CurrencySlot, e.currency), SlotAnswer(OccurredAtSlot, e.occurredAt)];
    StemMerges(e);
    var s1 := s0 + Given(Some(DescriptionSlot), IfTruthy(e.description));
    MergedGiven(s0, Some(DescriptionSlot), IfTruthy(e.description));
    var s2 := s1 + Given(SelectorOf(m), choice);
    MergedGiven(s1, SelectorOf(m), choice);
    var s3 := s2 + Given(m.counterpartySlot, FirstOther(e.parties, usina));
    MergedGiven(s2, m.counterpartySlot, FirstOther(e.parties, usina));
    var id := if moved.Some? then Some(moved.value.objectId) else None;
    MergedGiven(s3, m.objectIdSlot, id);
    MergedGiven(s3 + Given(m.objectIdSlot, id), m.relatedEventSlot, IfTruthy(e.relatedEventId));
  }

  // ---- the inverse ----

  /** What the merged answers say of each slot the scenario reads. */
  ghost predicate Restates(m: Mapping, b: Answers, e: Entry, usina: string, choice: Option<string>) {
    var moved := FirstMoved(e.objects);
    && Answer(b, AmountSlot) == Some(e.amount) && Answer(b, CurrencySlot) == Some(e.currency)
    && Answer(b, OccurredAtSlot) == Some(e.occurredAt) && Answer(b, DueAtSlot) == None
    && Answer(b, DescriptionSlot) == IfTruthy(e.description)
    && (m.variants.Some? ==> Answer(b, m.variants.value.selector) == choice)
    && (m.counterpartySlot.Some? ==> Answer(b, m.counterpartySlot.value) == FirstOther(e.parties, usina))
    && (m.objectIdSlot.Some? ==> Answer(b, m.objectIdSlot.value) == if moved.Some? then Some(moved.value.objectId) else None)
    && (m.relatedEventSlot.Some? ==> Answer(b, m.relatedEventSlot.value) == IfTruthy(e.relatedEventId))
  }

  /** What one more answer does to every slot. */
  lemma {:induction false} OneMoreAnswer(before: Answers, slot: Option<Slot>, value: Option<string>, key: Slot)
    ensures Answer(before + Pair(slot, value), key) == if slot == Some(key) && value.Some? then value else Answer(before, key)
  {
  }

  lemma {:induction false} PlannedAnswersRestate(m: Mapping, e: Entry, usina: string, choice: Option<string>)
    requires WellShaped(m)
    ensures Restates(m, Merged(PlannedAnswers(m, e, usina, choice)), e, usina, choice)
  {
    var b := Merged(PlannedAnswers(m, e, usina, choice));
    forall key: Slot ensures AsPlanned(m, b, e, usina, choice, key) {
      PlannedAnswer(m, e, usina, choice, key);
    }
    AnswersAsPlannedRestate(m, b, e, usina, choice);
  }

  ghost predicate AsPlanned(m: Mapping, b: Answers, e: Entry, usina: string, choice: Option<string>, key: Slot) {
    Answer(b, key) == PlannedFor(m, e, usina, choice, key)
  }

  lemma {:induction false} AnswersAsPlannedRestate(m: Mapping, b: Answers, e: Entry, usina: string, choice: Option<string>)
    requires WellShaped(m)
    requires forall key: Slot :: AsPlanned(m, b, e, usina, choice, key)
    ensures Restates(m, b, e, usina, choice)
  {
    assert AsPlanned(m, b, e, usina, choice, AmountSlot) && AsPlanned(m, b, e, usina, choice, CurrencySlot);
    assert AsPlanned(m, b, e, usina, choice, OccurredAtSlot) && AsPlanned(m, b, e, usina, choice, DueAtSlot);
    assert AsPlanned(m, b, e, usina, choice, DescriptionSlot);
    PlannedForFixedSlots(m, e, usina, choice);
    if m.variants.Some? {
      assert AsPlanned(m, b, e, usina, choice, m.variants.value.selector);
      PlannedForTheSelector(m, e, usina, choice);
    }
    if m.counterpartySlot.Some? {
      assert AsPlanned(m, b, e, usina, choice, m.counterpartySlot.value);
      PlannedForTheCounterparty(m, e, usina, choice);
    }
    if m.objectIdSlot.Some? {
      assert AsPlanned(m, b, e, usina, choice, m.objectIdSlot.value);
      PlannedForThePosition(m, e, usina, choice);
    }
    if m.relatedEventSlot.Some? {
      assert AsPlanned(m, b, e, usina, choice, m.relatedEventSlot.value);
      PlannedForTheOrigin(m, e, usina, choice);
    }
  }

  lemma {:induction false} PlannedForThePosition(m: Mapping, e: Entry, usina: string, choice: Option<string>)
    requires WellShaped(m) && m.objectIdSlot.Some?
    ensures var moved := FirstMoved(e.objects);
      PlannedFor(m, e, usina, choice, m.objectIdSlot.value) == if moved.Some? then Some(moved.value.objectId) else None
  {
  }

  lemma {:induction false} PlannedForFixedSlots(m: Mapping, e: Entry, usina: string, choice: Option<string>)
    requires WellShaped(m)
    ensures PlannedFor(m, e, usina, choice, AmountSlot) == Some(e.amount)
    ensures PlannedFor(m, e, usina, choice, CurrencySlot) == Some(e.currency)
    ensures PlannedFor(m, e, usina, choice, OccurredAtSlot) == Some(e.occurredAt)
    ensures PlannedFor(m, e, usina, choice, DueAtSlot) == None
    ensures PlannedFor(m, e, usina, choice, DescriptionSlot) == IfTruthy(e.description)
  {
  }

  lemma {:induction false} PlannedForTheSelector(m: Mapping, e: Entry, usina: string, choice: Option<string>)
    requires WellShaped(m) && m.variants.Some?
    ensures PlannedFor(m, e, usina, choice, m.variants.value.selector) == choice
  {
  }

  lemma {:induction false} PlannedForTheCounterparty(m: Mapping, e: Entry, usina: string, choice: Option<string>)
    requires WellShaped(m) && m.counterpartySlot.Some?
    ensures PlannedFor(m, e, usina, choice, m.counterpartySlot.value) == FirstOther(e.parties, usina)
  {
  }

  lemma {:induction false} PlannedForTheOrigin(m: Mapping, e: Entry, usina: string, choice: Option<string>)
    requires WellShaped(m) && m.relatedEventSlot.Some?
    ensures PlannedFor(m, e, usina, choice, m.relatedEventSlot.value) == IfTruthy(e.relatedEventId)
  {
  }

  /** The answer a plan gives to one slot. */
  function PlannedFor(m: Mapping, e: Entry, usina: string, choice: Option<string>, key: Slot): Option<string> {
    var moved := FirstMoved(e.objects);
    if m.relatedEventSlot == Some(key) && Truthy(e.relatedEventId) then e.relatedEventId
    else if m.objectIdSlot == Some(key) && moved.Some? then Some(moved.value.objectId)
    else if m.counterpartySlot == Some(key) && FirstOther(e.parties, usina).Some? then FirstOther(e.parties, usina)
    else if SelectorOf(m) == Some(key) && choice.Some? then choice
    else if key == DescriptionSlot && Truthy(e.description) then e.description
    else Answer(Stem(e), key)
  }

  lemma {:induction false} PlannedAnswer(m: Mapping, e: Entry, usina: string, choice: Option<string>, key: Slot)
    ensures Answer(Merged(PlannedAnswers(m, e, usina, choice)), key) == PlannedFor(m, e, usina, choice, key)
  {
    PlannedAnswersMerge(m, e, usina, choice);
    var moved := FirstMoved(e.objects);
    var id := if moved.Some? then Some(moved.value.objectId) else None;
    var m1 := Stem(e) + Pair(Some(DescriptionSlot), IfTruthy(e.description));
    var m2 := m1 + Pair(SelectorOf(m), choice);
    var m3 := m2 + Pair(m.counterpartySlot, FirstOther(e.parties, usina));
    var m4 := m3 + Pair(m.objectIdSlot, id);
    OneMoreAnswer(Stem(e), Some(DescriptionSlot), IfTruthy(e.description), key);
    OneMoreAnswer(m1, SelectorOf(m), choice, key);
    OneMoreAnswer(m2, m.counterpartySlot, FirstOther(e.parties, usina), key);
    OneMoreAnswer(m3, m.objectIdSlot, id, key);
    OneMoreAnswer(m4, m.relatedEventSlot, IfTruthy(e.relatedEventId), key);
  }

  lemma {:induction false} MovedIsTheFirst(m: Mapping, a: Answers, c: Candidate, sourceReference: string)
    requires WellShaped(m) && Distinguishing(m) && c.objects == ObjectsOf(m, a, sourceReference)
    ensures |c.objects| == |m.objects| && FirstMoved(c.objects) == Some(c.objects[0])
    ensures var t := Overridden(m.objects[0], OverrideOf(m, a));
      c.objects[0] == EventObject(ObjectId(m, a, sourceReference, t), t.objectType, t.relation)
  {
    if m.variants.Some? {
      var k := TheBranchTaken(m, a);
      assert m.variants.value.byChoice[k].override.relation != Some(References);
    }
  }

  /** The other party of the entry, when the counterparty is not the usina; nobody, when it is. */
  lemma {:induction false} TheCounterpartyIsFound(parties: seq<EntryParty>, templates: seq<PartyTemplate>, usina: string, counterparty: string)
    requires |parties| == |templates|
    requires forall i :: 0 <= i < |parties| ==> parties[i].partyId == if templates[i].who == Usina then usina else counterparty
    ensures FirstOther(parties, usina)
            == if counterparty != usina && (exists t :: t in templates && t.who == Counterparty) then Some(counterparty) else None
  {
    if parties != [] {
      TheCounterpartyIsFound(parties[1..], templates[1..], usina, counterparty);
      assert templates == [templates[0]] + templates[1..];
    }
  }

  /** Instants written out denote themselves. */
  ghost predicate InstantsAreStable(instants: Instants) {
    forall text :: instants(text).Some? ==> instants(instants(text).value) == instants(text)
  }

  /** The same fact: all but the ids of its parties and objects, its due date and the reason given for it. */
  ghost predicate SameFact(c: Candidate, d: Candidate)
    requires Recordable(c)
  {
    && d.eventType == c.eventType && d.effect == c.effect && d.occurredAt == c.occurredAt
    && d.currency == c.currency && d.description == c.description && d.relatedEventId == c.relatedEventId
    && d.amount.Some? && FromDecimal(d.amount.value, c.currency.value) == Ok(MoneyOf(c))
    && |d.objects| == |c.objects|
    && (forall i :: 0 <= i < |c.objects| ==>
          d.objects[i].objectType == c.objects[i].objectType && d.objects[i].relation == c.objects[i].relation)
    && |d.parties| == |c.parties|
    && (forall i :: 0 <= i < |c.parties| ==>
          && d.parties[i].role == c.parties[i].role && d.parties[i].direction == c.parties[i].direction
          && (d.parties[i].amount.Some? <==> c.parties[i].amount.Some?)
          && (d.parties[i].amount.Some? ==> d.parties[i].amount == d.amount && c.parties[i].amount == c.amount))
  }

  ghost predicate SameParties(c: Candidate, d: Candidate) {
    |d.parties| == |c.parties| && forall i :: 0 <= i < |c.parties| ==> d.parties[i].partyId == c.parties[i].partyId
  }

  /** The rebuilt candidate, given that the answers restate the entry and choose the same branch. */
  lemma {:induction false} RebuildingKeepsTheFact(
      m: Mapping, a: Answers, b: Answers, usina: string, reference: string, again: string,
      unidentified: set<string>, unidentifiedAgain: set<string>, instants: Instants, choice: Option<string>)
    requires WellShaped(m) && Distinguishing(m) && InstantsAreStable(instants)
    requires Built(m, a, usina, reference, unidentified, instants).Ok?
    requires Recordable(Built(m, a, usina, reference, unidentified, instants).value)
    requires Restates(m, b, Recorded(Built(m, a, usina, reference, unidentified, instants).value), usina, choice)
    requires Overridden(m.objects[0], OverrideOf(m, b)) == Overridden(m.objects[0], OverrideOf(m, a))
    ensures Built(m, b, usina, again, unidentifiedAgain, instants).Ok?
    ensures SameFact(Built(m, a, usina, reference, unidentified, instants).value,
              Built(m, b, usina, again, unidentifiedAgain, instants).value)
    ensures Built(m, b, usina, again, unidentifiedAgain, instants).value.dueAt == None
  {
    var c := Built(m, a, usina, reference, unidentified, instants).value;
    PrintedTextIsTheUniqueCanonicalSpelling(c.amount.value, c.currency.value, c.amount.value);
    if m.relatedEventSlot.Some? && m.relatedEventSlot.value in a {
      TrimIsIdempotent(a[m.relatedEventSlot.value]);
    }
  }

  /** Who took part is kept exactly when the counterparty is not the usina, or none is named. */
  lemma {:induction false} PartiesAreKeptUnlessTheUsinaPaysItself(
      m: Mapping, a: Answers, b: Answers, usina: string, c: Candidate, choice: Option<string>)
    requires WellShaped(m) && c.parties == PartiesOf(m, a, usina) && Recordable(c)
    requires Restates(m, b, Recorded(c), usina, choice)
    ensures (forall i :: 0 <= i < |m.parties| ==> PartiesOf(m, b, usina)[i].partyId == c.parties[i].partyId)
            <==> m.counterpartySlot.None? || Answer(a, m.counterpartySlot.value) != Some(usina)
  {
    if m.counterpartySlot.Some? {
      var k :| 0 <= k < |m.parties| && m.parties[k].who == Counterparty;
      assert c.parties[k] in c.parties && c.parties[k] == PartyOf(m, a, usina, m.parties[k]);
      var counterparty := c.parties[k].partyId.value;
      var e := Recorded(c);
      forall i | 0 <= i < |e.parties| ensures e.parties[i].partyId == if m.parties[i].who == Usina then usina else counterparty {
        assert c.parties[i] == PartyOf(m, a, usina, m.parties[i]);
      }
      TheCounterpartyIsFound(e.parties, m.parties, usina, counterparty);
      assert PartiesOf(m, b, usina)[k] == PartyOf(m, b, usina, m.parties[k]);
    }
  }

  lemma {:induction false} ANamedPositionIsKept(
      m: Mapping, a: Answers, b: Answers, usina: string, c: Candidate, reference: string, again: string, choice: Option<string>)
    requires WellShaped(m) && Distinguishing(m) && Recordable(c) && c.objects == ObjectsOf(m, a, reference)
    requires Restates(m, b, Recorded(c), usina, choice)
    requires TemplatesOf(m, a) == TemplatesOf(m, b)
    requires Trim(reference) == reference != "" && m.objectIdSlot.Some?
    ensures ObjectsOf(m, b, again) == c.objects
  {
    MovedIsTheFirst(m, a, c, reference);
    if m.objectIdSlot.value in a {
      TrimIsIdempotent(a[m.objectIdSlot.value]);
    }
    assert Stated(b, m.objectIdSlot) == Some(c.objects[0].objectId);
    assert ObjectsOf(m, b, again) == c.objects;
  }

  lemma {:induction false} AMintedPositionIsMintedAgain(m: Mapping, a: Answers, b: Answers, reference: string, again: string)
    requires |m.objects| > 0 && m.objectIdSlot.None? && TemplatesOf(m, a) == TemplatesOf(m, b)
    ensures ObjectsOf(m, b, again) == ObjectsOf(m, a, reference) <==> again == reference
  {
    var t := TemplatesOf(m, a)[0];
    var code := ObjectTypeCode(t.objectType);
    assert ObjectsOf(m, a, reference)[0].objectId == ObjectId(m, a, reference, t);
    assert ObjectsOf(m, b, again)[0].objectId == ObjectId(m, b, again, t);
    MintedIdsDiffer(m, a, b, reference, again, t);
    if again == reference {
      assert ObjectsOf(m, b, again) == ObjectsOf(m, a, reference);
    }
  }

  lemma {:induction false} MintedIdsDiffer(m: Mapping, a: Answers, b: Answers, reference: string, again: string, t: ObjectTemplate)
    requires m.objectIdSlot.None?
    ensures ObjectId(m, b, again, t) == ObjectId(m, a, reference, t) <==> again == reference
  {
    var code := ObjectTypeCode(t.objectType);
    SuffixesCancel(again + ":", reference + ":", code);
    SuffixesCancel(again, reference, ":");
  }

  /** A continued position keeps its id; a minted id is minted again from the new intent. */
  lemma {:induction false} PositionsAreKeptWhereTheyCanBeNamed(
      m: Mapping, a: Answers, b: Answers, usina: string, c: Candidate, reference: string, again: string, choice: Option<string>)
    requires WellShaped(m) && Distinguishing(m) && Recordable(c) && c.objects == ObjectsOf(m, a, reference)
    requires Restates(m, b, Recorded(c), usina, choice)
    requires TemplatesOf(m, a) == TemplatesOf(m, b)
    requires Trim(reference) == reference != ""
    ensures ObjectsOf(m, b, again) == c.objects <==> m.objectIdSlot.Some? || again == reference
  {
    if m.objectIdSlot.Some? {
      ANamedPositionIsKept(m, a, b, usina, c, reference, again, choice);
    } else {
      AMintedPositionIsMintedAgain(m, a, b, reference, again);
    }
  }

  lemma {:induction false} SuffixesCancel(a: string, b: string, suffix: string)
    ensures a + suffix == b + suffix <==> a == b
  {
    if a + suffix == b + suffix {
      assert (a + suffix)[..|a|] == a && (b + suffix)[..|b|] == b;
    }
  }

  /** Why it happened is kept, except that restating a recognition always points at its position. */
  lemma {:induction false} CausesAreKeptUnlessTheyBecomeRetroactive(
      m: Mapping, a: Answers, b: Answers, usina: string, c: Candidate, reference: string, choice: Option<string>)
    requires WellShaped(m) && Distinguishing(m) && Recordable(c) && c.objects == ObjectsOf(m, a, reference)
    requires c.relatedEventId == Stated(a, m.relatedEventSlot)
    requires Restates(m, b, Recorded(c), usina, choice)
    requires Trim(reference) == reference != ""
    ensures m.retroactive.None? || Stated(a, m.objectIdSlot).Some? || m.objectIdSlot.None? ==> CauseOf(m, b) == CauseOf(m, a)
    ensures m.retroactive.Some? && m.objectIdSlot.Some? ==> CauseOf(m, b) == m.retroactive.value
  {
    MovedIsTheFirst(m, a, c, reference);
    if m.objectIdSlot.Some? && m.objectIdSlot.value in a {
      TrimIsIdempotent(a[m.objectIdSlot.value]);
    }
    if m.relatedEventSlot.Some? && m.relatedEventSlot.value in a {
      TrimIsIdempotent(a[m.relatedEventSlot.value]);
    }
  }

  /** The branch chosen by the plan's answers gives the objects that were recorded. */
  lemma {:induction false} ThePlanIsFound(s: Scenario, a: Answers, usina: string, c: Candidate, reference: string)
    returns (plan: Plan, choice: Option<string>)
    requires !IsCorrection(MappingOf(s)) && c.eventType == MappingOf(s).eventType
    requires Recordable(c) && c.objects == ObjectsOf(MappingOf(s), a, reference)
    ensures PlanOf(Recorded(c), usina) == Ok(plan) && plan.scenario == s
    ensures Restates(MappingOf(s), Merged(plan.answers), Recorded(c), usina, choice)
    ensures WellShaped(MappingOf(s)) && Distinguishing(MappingOf(s))
    ensures TemplatesOf(MappingOf(s), a) == TemplatesOf(MappingOf(s), Merged(plan.answers))
  {
    var m := MappingOf(s);
    ScenariosAreWellShaped(s);
    ChoicesAreDistinguishing(s);
    EventTypesTellScenariosApart(s, c.eventType);
    EveryScenarioIsListed(s);
    FirstScenarioSearches(SCENARIOS, c.eventType);
    plan, choice := ThePlanFor(s, m, a, usina, c, reference);
  }

  lemma {:induction false} ThePlanFor(s: Scenario, m: Mapping, a: Answers, usina: string, c: Candidate, reference: string)
    returns (plan: Plan, choice: Option<string>)
    requires !IsCorrection(m) && WellShaped(m) && Distinguishing(m)
    requires Recordable(c) && c.objects == ObjectsOf(m, a, reference)
    ensures PlanWith(s, m, Recorded(c), usina) == Ok(plan) && plan.scenario == s
    ensures Restates(m, Merged(plan.answers), Recorded(c), usina, choice)
    ensures TemplatesOf(m, a) == TemplatesOf(m, Merged(plan.answers))
  {
    MovedIsTheFirst(m, a, c, reference);
    choice := None;
    if m.variants.Some? {
      var name := TheBranchIsRecovered(m, a, c.objects[0].objectId);
      choice := Some(name);
    }
    plan := Plan(s, PlannedAnswers(m, Recorded(c), usina, choice));
    PlannedAnswersRestate(m, Recorded(c), usina, choice);
  }

  /**
   * Restating an entry describes the same fact again: same scenario, same tuple, amount, currency, date,
   * description and lineage. Its parties are kept iff the counterparty is not the usina; its position is kept
   * iff the scenario can name it; its due date is always dropped.
   */
  lemma {:induction false} RestatingDescribesTheSameFact(
      s: Scenario, a: Answers, usina: string, reference: string, again: string,
      unidentified: set<string>, unidentifiedAgain: set<string>, instants: Instants)
    returns (plan: Plan)
    requires !IsCorrection(MappingOf(s)) && InstantsAreStable(instants)
    requires Trim(reference) == reference != ""
    requires Built(MappingOf(s), a, usina, reference, unidentified, instants).Ok?
    requires Recordable(Built(MappingOf(s), a, usina, reference, unidentified, instants).value)
    ensures var m := MappingOf(s);
      var c := Built(m, a, usina, reference, unidentified, instants).value;
      var rebuilt := Built(m, Merged(plan.answers), usina, again, unidentifiedAgain, instants);
      && PlanOf(Recorded(c), usina) == Ok(plan) && plan.scenario == s
      && rebuilt.Ok? && SameFact(c, rebuilt.value)
      && (SameParties(c, rebuilt.value) <==> m.counterpartySlot.None? || Answer(a, m.counterpartySlot.value) != Some(usina))
      && (rebuilt.value.objects == c.objects <==> m.objectIdSlot.Some? || again == reference)
      && rebuilt.value.dueAt == None
    ensures var m := MappingOf(s);
      && (m.retroactive.None? || Stated(a, m.objectIdSlot).Some? ==> CauseOf(m, Merged(plan.answers)) == CauseOf(m, a))
      && (m.retroactive.Some? ==> CauseOf(m, Merged(plan.answers)) == m.retroactive.value)
  {
    var m := MappingOf(s);
    var c := Built(m, a, usina, reference, unidentified, instants).value;
    var choice;
    plan, choice := ThePlanIsFound(s, a, usina, c, reference);
    RetroactiveCanBeNamed(s);
    Restating(m, a, Merged(plan.answers), usina, reference, again, unidentified, unidentifiedAgain, instants, choice);
  }

  lemma {:induction false} RetroactiveCanBeNamed(s: Scenario)
    ensures MappingOf(s).retroactive.Some? ==> MappingOf(s).objectIdSlot.Some?
  {
  }

  lemma {:induction false} Restating(
      m: Mapping, a: Answers, b: Answers, usina: string, reference: string, again: string,
      unidentified: set<string>, unidentifiedAgain: set<string>, instants: Instants, choice: Option<string>)
    requires WellShaped(m) && Distinguishing(m) && InstantsAreStable(instants)
    requires m.retroactive.Some? ==> m.objectIdSlot.Some?
    requires Trim(reference) == reference != ""
    requires Built(m, a, usina, reference, unidentified, instants).Ok?
    requires Recordable(Built(m, a, usina, reference, unidentified, instants).value)
    requires Restates(m, b, Recorded(Built(m, a, usina, reference, unidentified, instants).value), usina, choice)
    requires TemplatesOf(m, a) == TemplatesOf(m, b)
    ensures var c := Built(m, a, usina, reference, unidentified, instants).value;
      var rebuilt := Built(m, b, usina, again, unidentifiedAgain, instants);
      && rebuilt.Ok? && SameFact(c, rebuilt.value)
      && (SameParties(c, rebuilt.value) <==> m.counterpartySlot.None? || Answer(a, m.counterpartySlot.value) != Some(usina))
      && (rebuilt.value.objects == c.objects <==> m.objectIdSlot.Some? || again == reference)
      && rebuilt.value.dueAt == None
    ensures
      && (m.retroactive.None? || Stated(a, m.objectIdSlot).Some? ==> CauseOf(m, b) == CauseOf(m, a))
      && (m.retroactive.Some? ==> CauseOf(m, b) == m.retroactive.value)
  {
    var c := Built(m, a, usina, reference, unidentified, instants).value;
    assert TemplatesOf(m, a)[0] == TemplatesOf(m, b)[0];
    RebuildingKeepsTheFact(m, a, b, usina, reference, again, unidentified, unidentifiedAgain, instants, choice);
    PartiesAreKeptUnlessTheUsinaPaysItself(m, a, b, usina, c, choice);
    PositionsAreKeptWhereTheyCanBeNamed(m, a, b, usina, c, reference, again, choice);
    CausesAreKeptUnlessTheyBecomeRetroactive(m, a, b, usina, c, reference, choice);
  }

  /** Only corrections, and event types no scenario produces, cannot be restated: of what `build` makes, corrections alone. */
  lemma {:induction false} CorrectionsAreNotRestated(s: Scenario, a: Answers, usina: string, reference: string, unidentified: set<string>, instants: Instants)
    requires Trim(reference) == reference != "" && InstantsAreStable(instants)
    requires Built(MappingOf(s), a, usina, reference, unidentified, instants).Ok?
    requires Recordable(Built(MappingOf(s), a, usina, reference, unidentified, instants).value)
    ensures var c := Built(MappingOf(s), a, usina, reference, unidentified, instants).value;
      PlanOf(Recorded(c), usina).Err? <==> s == RegisterRectification
  {
    var c := Built(MappingOf(s), a, usina, reference, unidentified, instants).value;
    OnlyRectificationsCorrect(s);
    if IsCorrection(MappingOf(s)) {
      EventTypesTellScenariosApart(s, c.eventType);
      EveryScenarioIsListed(s);
      FirstScenarioSearches(SCENARIOS, c.eventType);
    } else {
      var plan, choice := ThePlanIsFound(s, a, usina, c, reference);
    }
  }

  lemma {:induction false} OnlyRectificationsCorrect(s: Scenario)
    ensures IsCorrection(MappingOf(s)) <==> s == RegisterRectification
  {
    if s == RegisterRectification {
      assert MappingOf(s).objects[0].relation == Retracts;
    }
  }

  // ---- what is lost, on concrete answers ----

  /** A payment the usina makes to itself, on a date that reads as itself. */
  function PaidToItself(usina: string, date: string): Answers {
    map[AmountSlot := ToString(Money(100, "BRL")), CurrencySlot := "BRL", OccurredAtSlot := date, PayeeSlot := usina]
  }

  /** An obligation with a due date, on a position not yet on the book. */
  function DueObligation(payee: string, date: string): Answers {
    map[AmountSlot := ToString(Money(100, "BRL")), CurrencySlot := "BRL", OccurredAtSlot := date, PayeeSlot := payee,
        DueAtSlot := date, KindSlot := "tax"]
  }

  lemma {:induction false} TheAmountIsRead()
    ensures FromDecimal(ToString(Money(100, "BRL")), "BRL") == Ok(Money(100, "BRL"))
  {
    ReadingBackWhatWasPrinted(Money(100, "BRL"));
  }

  /** With the amount, the date and the counterparty answered, there is a candidate and the Ledger can record it. */
  lemma {:induction false} AnsweredIsRecordable(m: Mapping, a: Answers, usina: string, reference: string, instants: Instants, date: string)
    requires WellShaped(m) && instants(date) == Some(date) && Answer(a, OccurredAtSlot) == Some(date)
    requires Answer(a, DueAtSlot) == None || Answer(a, DueAtSlot) == Some(date)
    requires Answer(a, AmountSlot) == Some(ToString(Money(100, "BRL"))) && Answer(a, CurrencySlot) == Some("BRL")
    requires m.counterpartySlot.Some? ==> Answer(a, m.counterpartySlot.value).Some?
    ensures var built := Built(m, a, usina, reference, {}, instants);
      built.Ok? && Recordable(built.value) && (built.value.dueAt.Some? <==> Stated(a, Some(DueAtSlot)).Some?)
  {
    TheAmountIsRead();
    forall p | p in PartiesOf(m, a, usina) ensures p.partyId.Some? {
      var i :| 0 <= i < |m.parties| && PartiesOf(m, a, usina)[i] == p;
      assert p == PartyOf(m, a, usina, m.parties[i]) && m.parties[i] in m.parties;
    }
  }

  /** `c` is what the answers build, `plan` restates it once recorded, and `d` is what the plan's answers build. */
  ghost predicate IsRestated(
      s: Scenario, a: Answers, usina: string, reference: string, again: string, instants: Instants, plan: Plan, c: Candidate, d: Candidate)
  {
    && Built(MappingOf(s), a, usina, reference, {}, instants) == Ok(c) && Recordable(c)
    && PlanOf(Recorded(c), usina) == Ok(plan)
    && Built(MappingOf(s), Merged(plan.answers), usina, again, {}, instants) == Ok(d)
  }

  lemma {:induction false} Restated(s: Scenario, a: Answers, usina: string, reference: string, again: string, instants: Instants)
    returns (plan: Plan, c: Candidate, d: Candidate)
    requires !IsCorrection(MappingOf(s)) && InstantsAreStable(instants) && Trim(reference) == reference != ""
    requires Built(MappingOf(s), a, usina, reference, {}, instants).Ok?
    requires Recordable(Built(MappingOf(s), a, usina, reference, {}, instants).value)
    ensures IsRestated(s, a, usina, reference, again, instants, plan, c, d)
    ensures SameParties(c, d) <==> MappingOf(s).counterpartySlot.None? || Answer(a, MappingOf(s).counterpartySlot.value) != Some(usina)
    ensures d.dueAt == None
  {
    plan := RestatingDescribesTheSameFact(s, a, usina, reference, again, {}, {}, instants);
    c := Built(MappingOf(s), a, usina, reference, {}, instants).value;
    d := Built(MappingOf(s), Merged(plan.answers), usina, again, {}, instants).value;
  }

  /** Restating a payment the usina made to itself loses the payee. */
  lemma {:induction false} TheUsinaPayingItselfIsLost(usina: string, date: string, reference: string, again: string, instants: Instants)
    returns (plan: Plan, c: Candidate, d: Candidate)
    requires instants(date) == Some(date) && InstantsAreStable(instants) && Trim(reference) == reference != ""
    ensures IsRestated(RegisterPayment, PaidToItself(usina, date), usina, reference, again, instants, plan, c, d)
    ensures !SameParties(c, d)
  {
    ScenariosAreWellShaped(RegisterPayment);
    OnlyRectificationsCorrect(RegisterPayment);
    AnsweredIsRecordable(MappingOf(RegisterPayment), PaidToItself(usina, date), usina, reference, instants, date);
    plan, c, d := Restated(RegisterPayment, PaidToItself(usina, date), usina, reference, again, instants);
  }

  /** Restating an obligation that falls due loses its due date. */
  lemma {:induction false} DueDatesAreLost(payee: string, date: string, usina: string, reference: string, again: string, instants: Instants)
    returns (plan: Plan, c: Candidate, d: Candidate)
    requires instants(date) == Some(date) && Trim(date) != ""
    requires InstantsAreStable(instants) && Trim(reference) == reference != ""
    ensures IsRestated(RegisterObligationRecognition, DueObligation(payee, date), usina, reference, again, instants, plan, c, d)
    ensures c.dueAt.Some? && d.dueAt == None
  {
    var s := RegisterObligationRecognition;
    ScenariosAreWellShaped(s);
    OnlyRectificationsCorrect(s);
    AnsweredIsRecordable(MappingOf(s), DueObligation(payee, date), usina, reference, instants, date);
    plan, c, d := Restated(s, DueObligation(payee, date), usina, reference, again, instants);
  }

  // ---- minted positions ----

  /** Only the direct payment names several positions; it neither varies nor continues them. */
  lemma {:induction false} SeveralPositionsAreOfSeveralTypes(s: Scenario)
    ensures var m := MappingOf(s);
      |m.objects| > 1 ==>
        && m.objectIdSlot.None? && m.variants.None?
        && forall i, j :: 0 <= i < j < |m.objects| ==> m.objects[i].objectType != m.objects[j].objectType
  {
  }

  /** The positions one candidate names are told apart by their ids. */
  lemma {:induction false} PositionsOfACandidateAreDistinct(s: Scenario, a: Answers, reference: string, i: nat, j: nat)
    requires i < j < |ObjectsOf(MappingOf(s), a, reference)|
    ensures ObjectsOf(MappingOf(s), a, reference)[i].objectId != ObjectsOf(MappingOf(s), a, reference)[j].objectId
  {
    var m := MappingOf(s);
    SeveralPositionsAreOfSeveralTypes(s);
    MintedFromTheType(m, a, reference, i);
    MintedFromTheType(m, a, reference, j);
    if ObjectTypeCode(m.objects[i].objectType) == ObjectTypeCode(m.objects[j].objectType) {
      ObjectTypeCodeIsInjective(m.objects[i].objectType, m.objects[j].objectType);
    }
    var front := reference + ":";
    assert (front + ObjectTypeCode(m.objects[i].objectType))[|front|..] == ObjectTypeCode(m.objects[i].objectType);
    assert (front + ObjectTypeCode(m.objects[j].objectType))[|front|..] == ObjectTypeCode(m.objects[j].objectType);
  }

  lemma {:induction false} MintedFromTheType(m: Mapping, a: Answers, reference: string, i: nat)
    requires |m.objects| > 1 && m.objectIdSlot.None? && m.variants.None? && i < |m.objects|
    ensures |ObjectsOf(m, a, reference)| == |m.objects|
    ensures ObjectsOf(m, a, reference)[i].objectId == reference + ":" + ObjectTypeCode(m.objects[i].objectType)
  {
    assert TemplatesOf(m, a)[i].objectType == m.objects[i].objectType;
  }
}
