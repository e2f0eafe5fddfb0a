// The submit path from the answers of an intent to the book and back: what Treasury sends
// (treasury/src/core/application/use-cases/SubmitIntent.ts, services/CandidateMapper.ts), and which rejections
// it can ask the user to correct (ledger/src/core/application/services/RejectionCatalog.ts).

module Submission {
  import opened Prelude
  import opened Events
  import opened Validation
  import opened Ledger
  import opened Reissue
  import opened RetryProtocol
  import opened EventPayload
  import opened Admission
  import S = Staging

  // ---- from an intent to a candidate ----

  /** The key of a slot in the answers of an intent. */
  function SlotKey(slot: Slot): string {
    match slot
    case AmountSlot => "amount"
    case CurrencySlot => "currency"
    case OccurredAtSlot => "occurredAt"
    case DueAtSlot => "dueAt"
    case DescriptionSlot => "description"
    case PayeeSlot => "payee"
    case PayerSlot => "payer"
    case ObjectRefSlot => "objectRef"
    case OriginSlot => "origin"
    case TargetSlot => "target"
    case KindSlot => "kind"
    case BasisSlot => "basis"
    case ObjectTypeSlot => "objectType"
    case ReissueSlot => "reissue"
  }

  function AnswersOf(answers: map<string, string>): Answers {
    map slot: Slot | SlotKey(slot) in answers :: answers[SlotKey(slot)]
  }

  function ScenarioNamed(id: string): Option<Scenario> {
    if id == "register_payment" then Some(RegisterPayment)
    else if id == "register_payroll" then Some(RegisterPayroll)
    else if id == "register_infrastructure" then Some(RegisterInfrastructure)
    else if id == "register_service_fee" then Some(RegisterServiceFee)
    else if id == "register_tax" then Some(RegisterTax)
    else if id == "register_penalty" then Some(RegisterPenalty)
    else if id == "register_incentive" then Some(RegisterIncentive)
    else if id == "register_advance" then Some(RegisterAdvance)
    else if id == "register_loan" then Some(RegisterLoan)
    else if id == "register_waiver" then Some(RegisterWaiver)
    else if id == "register_commission_accrual" then Some(RegisterCommissionAccrual)
    else if id == "register_direct_payment" then Some(RegisterDirectPayment)
    else if id == "register_commission_received" then Some(RegisterCommissionReceived)
    else if id == "register_advance_settlement" then Some(RegisterAdvanceSettlement)
    else if id == "register_rectification" then Some(RegisterRectification)
    else if id == "register_loan_repayment" then Some(RegisterLoanRepayment)
    else if id == "register_obligation_recognition" then Some(RegisterObligationRecognition)
    else None
  }

  /** What a deployment fixes: the digest, the usina's party, who is not identified, and how dates are read. */
  datatype Deployment = Deployment(
    env: Env, usina: string, unidentified: set<string>, instants: Instants, instant: string -> int)

  /** What `build` makes of an intent's answers to a scenario. */
  function BuiltFor(d: Deployment, s: Scenario, p: IntentProps): Result<Candidate, BuildError> {
    Built(MappingOf(s), AnswersOf(p.answers), d.usina, Key(p.id), d.unidentified, d.instants)
  }

  function Proposed(d: Deployment, p: IntentProps): Option<Command> {
    var s := ScenarioNamed(p.scenarioId);
    if s.None? || BuiltFor(d, s.value, p).Err? then None
    else Some(Submitted(BuiltFor(d, s.value, p).value, p.userId, d.instant))
  }

  // ---- which rejections can be corrected ----

  /** The candidate fields a rejection can name. */
  datatype Field = AmountField | CurrencyField | PartiesField | RelatedEventField

  /** The field of a validator failure the user can answer for. */
  function FieldOfFailure(f: S.StagingFailure): Option<Field> {
    match f
    case MissingAmount => Some(AmountField)
    case InvalidAmount => Some(AmountField)
    case MissingCurrency => Some(CurrencyField)
    case PartyWithoutId(_) => Some(PartiesField)
    case _ => None
  }

  function FieldOfViolation(v: Violation): Option<Field> {
    match v
    case LineageRequired => Some(RelatedEventField)
    case RetractionNeedsTarget => Some(RelatedEventField)
    case ZeroAmount => Some(AmountField)
    case _ => None
  }

  /** The field of a refusal of the write step; duplicates and internal refusals name none. */
  function FieldOfRefusal(r: Refusal): Option<Field> {
    match r
    case OriginNotFound => Some(RelatedEventField)
    case OriginOfWrongType => Some(RelatedEventField)
    case OverSettlement(_, _) => Some(AmountField)
    case NotAdmissible(v) => FieldOfViolation(v)
    case _ => None
  }


  function SlotOf(m: Mapping, field: Field): Option<Slot> {
    match field
    case AmountField => Some(AmountSlot)
    case CurrencyField => Some(CurrencySlot)
    case PartiesField => m.counterpartySlot
    case RelatedEventField => m.relatedEventSlot
  }

  /** The fields a rejection names, in the order of its parts. */
  function FieldsOf(reason: Reasons): seq<Field> {
    match reason
    case Unstaged(failures) => FieldsOfFailures(failures)
    case Refused(refusal) => Listed(FieldOfRefusal(refusal))
  }

  function Listed(field: Option<Field>): seq<Field> {
    if field.Some? then [field.value] else []
  }

  function FieldsOfFailures(failures: seq<S.StagingFailure>): seq<Field> {
    if failures == [] then []
    else FieldsOfFailures(failures[..|failures| - 1]) + Listed(FieldOfFailure(failures[|failures| - 1]))
  }

  predicate HasSlotToFix(m: Mapping, reason: Reasons) {
    exists field :: field in FieldsOf(reason) && SlotOf(m, field).Some?
  }

  predicate CanBeCorrected(p: IntentProps, reason: Reasons) {
    var s := ScenarioNamed(p.scenarioId);
    s.Some? && HasSlotToFix(MappingOf(s.value), reason)
  }

  function SiteOf(d: Deployment): Site {
    Site(d.env, (p: IntentProps) => Proposed(d, p), (r: Command) => S.SchemaFailures(r),
      (p: IntentProps, reason: Reasons) => CanBeCorrected(p, reason))
  }

  // ---- what is recorded ----

  /** The user and every party of the candidate have an id. */
  predicate AllNamed(c: Candidate, userId: string) {
    userId != "" && forall p :: p in c.parties ==> OrEmpty(p.partyId) != ""
  }

  lemma {:induction false} NamedInTheRequest(c: Candidate)
    ensures (forall p :: p in SubmittedParties(c) ==> p.partyId != "") <==> (forall p :: p in c.parties ==> OrEmpty(p.partyId) != "")
  {
    var parties := SubmittedParties(c);
    forall i | 0 <= i < |c.parties| ensures parties[i] in parties && parties[i].partyId == OrEmpty(c.parties[i].partyId) {
    }
  }

  lemma {:induction false} EndsInAWord(s: string)
    requires s != "" && !IsSpace(s[|s| - 1])
    ensures Trim(s) != ""
  {
    if IsSpace(s[0]) {
      EndsInAWord(s[1..]);
    }
  }

  lemma {:induction false} LettersAreNotSpaces(c: char)
    requires 'a' <= c <= 'z'
    ensures !IsSpace(c)
  {
  }

  predicate EndsInALetter(s: string) {
    s != "" && 'a' <= s[|s| - 1] <= 'z'
  }

  lemma {:induction false} WordingsEndInALetter(t: Text)
    ensures EndsInALetter(Wording(t))
  {
  }

  lemma {:induction false} TheNoteEndsInALetter()
    ensures EndsInALetter(UNIDENTIFIED)
  {
  }

  lemma {:induction false} NotedOrNot(text: string, note: string)
    requires EndsInALetter(text) && EndsInALetter(note)
    ensures Trim(text) != "" && Trim(text + note) != ""
  {
    LettersAreNotSpaces(text[|text| - 1]);
    EndsInAWord(text);
    assert (text + note)[|text + note| - 1] == note[|note| - 1];
    LettersAreNotSpaces(note[|note| - 1]);
    EndsInAWord(text + note);
  }

  lemma {:induction false} DescriptionsAreNotedWordings(m: Mapping, a: Answers, usina: string, unidentified: set<string>)
    ensures var text := Wording(CauseOf(m, a).text);
      var description := ReasonOf(m, a, usina, unidentified).description;
      description == text || description == text + UNIDENTIFIED
  {
  }

  lemma {:induction false} ReasonsAreWorded(m: Mapping, a: Answers, usina: string, unidentified: set<string>)
    ensures Trim(ReasonOf(m, a, usina, unidentified).description) != ""
  {
    var cause := CauseOf(m, a);
    WordingsEndInALetter(cause.text);
    TheNoteEndsInALetter();
    NotedOrNot(Wording(cause.text), UNIDENTIFIED);
    DescriptionsAreNotedWordings(m, a, usina, unidentified);
  }

  lemma {:induction false} ObjectsHaveIds(m: Mapping, a: Answers, reference: string, o: EventObject)
    requires reference != "" && o in ObjectsOf(m, a, reference)
    ensures o.objectId != ""
  {
    var i :| 0 <= i < |ObjectsOf(m, a, reference)| && ObjectsOf(m, a, reference)[i] == o;
    assert o.objectId == ObjectId(m, a, reference, TemplatesOf(m, a)[i]);
  }

  /** The shape of a candidate leaves the validator nothing to find but what was not answered. */
  lemma {:induction false} CandidatesAreWellStated(
      s: Scenario, a: Answers, c: Candidate, usina: string, reference: string, unidentified: set<string>, instants: Instants,
      userId: string, instant: string -> int)
    requires reference != "" && Built(MappingOf(s), a, usina, reference, unidentified, instants) == Ok(c) && Denoted(c).Ok?
    ensures S.WellStated(Submitted(c, userId, instant)) <==> AllNamed(c, userId)
  {
    var m := MappingOf(s);
    MoldsFit(s);
    ScenariosAreWellShaped(s);
    ReadableAmountsAreNotEmpty(OrEmpty(c.amount), OrEmpty(c.currency));
    NamedInTheRequest(c);
    ReasonsAreWorded(m, a, usina, unidentified);
    forall o | o in c.objects ensures o.objectId != "" {
      ObjectsHaveIds(m, a, reference, o);
    }
  }

  /** When a delivery appends: its key is new, the validator finds nothing and the write step commits. */
  lemma {:induction false} WhenADeliveryRecords(site: Site, store: seq<LedgerEvent>, candidate: Command, key: string, id: string, now: int)
    requires UsesTheValidator(site)
    ensures Handled(site, store, candidate, key, id, now).store != store
      <==> FindByCommandId(store, key).None? && S.Failures(store, candidate) == []
           && Decide(site.env, store, ToCommand(candidate, key), id, now).Commit?
  {
  }

  /** The candidate of an intent carries the intent's own key. */
  lemma {:induction false} CandidatesCarryTheKey(d: Deployment, p: IntentProps, s: Scenario)
    requires ScenarioNamed(p.scenarioId) == Some(s) && BuiltFor(d, s, p).Ok?
    ensures CandidateOf(SiteOf(d), p) == Some(Submitted(BuiltFor(d, s, p).value, p.userId, d.instant))
    ensures BuiltFor(d, s, p).value.sourceReference == Key(p.id)
  {
  }

  /**
   * From the answers of an intent to the book: its submission records an event exactly when the user and the
   * parties are named, the amount is readable and not zero, nothing is recorded under its key yet, the guards let
   * it through, and it brings the origin, the chain link and the due date its scenario must or may bring.
   */
  lemma {:induction false} IntentsAreRecordedExactly(d: Deployment, store: seq<LedgerEvent>, p: IntentProps, s: Scenario, id: string, now: int)
    requires ScenarioNamed(p.scenarioId) == Some(s) && BuiltFor(d, s, p).Ok?
    ensures CandidateOf(SiteOf(d), p).Some?
    ensures var c := BuiltFor(d, s, p).value;
      Handled(SiteOf(d), store, CandidateOf(SiteOf(d), p).value, Key(p.id), id, now).store != store
      <==> AllNamed(c, p.userId) && MayBeRecorded(store, s, AnswersOf(p.answers), c, CommandFor(c, p.userId, d.instant), id)
  {
    CandidatesCarryTheKey(d, p, s);
    SubmissionsAreRecordedExactly(d, store, s, AnswersOf(p.answers), BuiltFor(d, s, p).value, Key(p.id), p.userId, id, now);
  }

  lemma {:induction false} SubmissionsAreRecordedExactly(
      d: Deployment, store: seq<LedgerEvent>, s: Scenario, a: Answers, c: Candidate, key: string, userId: string, id: string, now: int)
    requires key != "" && Built(MappingOf(s), a, d.usina, key, d.unidentified, d.instants) == Ok(c)
    ensures Handled(SiteOf(d), store, Submitted(c, userId, d.instant), key, id, now).store != store
      <==> AllNamed(c, userId) && MayBeRecorded(store, s, a, c, CommandFor(c, userId, d.instant), id)
  {
    var candidate := Submitted(c, userId, d.instant);
    WhenADeliveryRecords(SiteOf(d), store, candidate, key, id, now);
    CandidatesAreRecordedExactly(d.env, store, s, a, c, d.usina, key, d.unidentified, d.instants, userId, d.instant, id, now);
    S.PassesExactly(store, candidate);
    if Denoted(c).Ok? {
      CandidatesAreWellStated(s, a, c, d.usina, key, d.unidentified, d.instants, userId, d.instant);
    }
  }

  // ---- what is asked again ----

  lemma {:induction false} FieldsComeFromFailures(failures: seq<S.StagingFailure>, field: Field)
    ensures field in FieldsOfFailures(failures) <==> exists f :: f in failures && FieldOfFailure(f) == Some(field)
  {
    if failures != [] {
      var n := |failures| - 1;
      FieldsComeFromFailures(failures[..n], field);
      assert failures == failures[..n] + [failures[n]];
    }
  }

  /** An unnamed party of a candidate is the counterparty, if the usina has an id. */
  lemma {:induction false} UnnamedIsTheCounterparty(c: Candidate, m: Mapping, a: Answers, usina: string, i: nat)
    requires usina != "" && WellShaped(m) && c.parties == PartiesOf(m, a, usina)
    requires i < |c.parties| && OrEmpty(c.parties[i].partyId) == ""
    ensures m.counterpartySlot.Some?
  {
    assert c.parties[i] == PartyOf(m, a, usina, m.parties[i]) && m.parties[i] in m.parties;
  }

  lemma {:induction false} FailuresHaveASlot(
      store: seq<LedgerEvent>, r: Command, c: Candidate, m: Mapping, a: Answers, usina: string, f: S.StagingFailure)
    requires usina != "" && WellShaped(m) && c.parties == PartiesOf(m, a, usina) && r.parties == SubmittedParties(c)
    requires f in S.Failures(store, r) && FieldOfFailure(f).Some?
    ensures SlotOf(m, FieldOfFailure(f).value).Some?
  {
    if f.PartyWithoutId? {
      S.UnnamedPartiesArePointedAt(store, r, f);
      UnnamedIsTheCounterparty(c, m, a, usina, f.party);
    }
  }

  /** The scenarios that must name an origin have a slot for it. */
  lemma {:induction false} OriginsHaveASlot(s: Scenario)
    requires s == RegisterRectification || s == RegisterAdvanceSettlement || s == RegisterLoanRepayment
    ensures MappingOf(s).relatedEventSlot.Some?
  {
  }

  lemma {:induction false} RulesNameOriginsWhereTheyAreAsked(s: Scenario, a: Answers, e: LedgerEvent, violation: Violation)
    requires violation == ZeroAmount || MissingLink(s, a, e) == Some(violation)
    ensures FieldOfViolation(violation) == Some(RelatedEventField)
            ==> s == RegisterRectification || s == RegisterAdvanceSettlement || s == RegisterLoanRepayment
    ensures FieldOfViolation(violation).Some? ==> FieldOfViolation(violation).value in {AmountField, RelatedEventField}
  {
  }

  lemma {:induction false} RulesHaveASlot(s: Scenario, a: Answers, e: LedgerEvent, violation: Violation)
    requires violation == ZeroAmount || MissingLink(s, a, e) == Some(violation)
    ensures FieldOfViolation(violation).Some? ==> SlotOf(MappingOf(s), FieldOfViolation(violation).value).Some?
  {
    RulesNameOriginsWhereTheyAreAsked(s, a, e, violation);
    if FieldOfViolation(violation) == Some(RelatedEventField) {
      OriginsHaveASlot(s);
    }
  }

  /** What the entity refuses of a candidate is a zero amount or a missing link of its proposal. */
  lemma {:induction false} RefusedProposals(
      store: seq<LedgerEvent>, s: Scenario, a: Answers, c: Candidate, d: Deployment, key: string, userId: string,
      id: string, now: int, violation: Violation)
    returns (e: LedgerEvent)
    requires Built(MappingOf(s), a, d.usina, key, d.unidentified, d.instants) == Ok(c)
    requires Decide(d.env, store, CommandFor(c, userId, d.instant), id, now) == Refuse(NotAdmissible(violation))
    ensures Denoted(c).Ok? && if Denoted(c).value.units == 0 then violation == ZeroAmount else MissingLink(s, a, e) == Some(violation)
    ensures e.relatedEventId == Stated(a, MappingOf(s).relatedEventSlot)
  {
    var cmd := CommandFor(c, userId, d.instant);
    RefusedEventsAreViolations(d.env, store, cmd, id, now, violation);
    DraftsAreProposals(d.env, store, c, MappingOf(s), a, d.usina, key, d.unidentified, d.instants, userId, d.instant, id, now);
    e := Sealed(d.env, Draft(store, cmd, Denoted(c).value, ReadParties(cmd.parties, cmd.currency).value, id, now));
    ProposalsAreAdmitted(s, a, e, d.usina, key, d.unidentified);
  }

  lemma {:induction false} NamedOriginsHaveASlot(
      store: seq<LedgerEvent>, m: Mapping, a: Answers, c: Candidate, d: Deployment, key: string, userId: string,
      id: string, now: int, refusal: Refusal)
    requires Built(m, a, d.usina, key, d.unidentified, d.instants) == Ok(c)
    requires Decide(d.env, store, CommandFor(c, userId, d.instant), id, now) == Refuse(refusal)
    requires refusal == OriginNotFound || refusal == OriginOfWrongType
    ensures m.relatedEventSlot.Some?
  {
    RefusedOriginsAreNamed(d.env, store, CommandFor(c, userId, d.instant), id, now, refusal);
    assert Truthy(c.relatedEventId);
  }

  lemma {:induction false} OtherRefusalsNeedNoOrigin(refusal: Refusal)
    requires refusal != OriginNotFound && refusal != OriginOfWrongType && !refusal.NotAdmissible?
    ensures FieldOfRefusal(refusal) == None || FieldOfRefusal(refusal) == Some(AmountField)
  {
  }

  lemma {:induction false} RefusalsHaveASlot(
      store: seq<LedgerEvent>, s: Scenario, a: Answers, c: Candidate, d: Deployment, key: string, userId: string,
      id: string, now: int, refusal: Refusal)
    requires Built(MappingOf(s), a, d.usina, key, d.unidentified, d.instants) == Ok(c)
    requires Decide(d.env, store, CommandFor(c, userId, d.instant), id, now) == Refuse(refusal)
    ensures FieldOfRefusal(refusal).Some? ==> SlotOf(MappingOf(s), FieldOfRefusal(refusal).value).Some?
  {
    if refusal == OriginNotFound || refusal == OriginOfWrongType {
      NamedOriginsHaveASlot(store, MappingOf(s), a, c, d, key, userId, id, now, refusal);
    } else if refusal.NotAdmissible? {
      var e := RefusedProposals(store, s, a, c, d, key, userId, id, now, refusal.violation);
      RulesHaveASlot(s, a, e, refusal.violation);
    } else {
      OtherRefusalsNeedNoOrigin(refusal);
    }
  }

  lemma {:induction false} WhatRejectionsAre(site: Site, store: seq<LedgerEvent>, candidate: Command, key: string, id: string, now: int, reason: Reasons)
    requires UsesTheValidator(site) && Handled(site, store, candidate, key, id, now).outcome == Rejected(reason)
    ensures reason.Unstaged? ==> reason.failures == S.Failures(store, candidate)
    ensures reason.Refused? ==> Decide(site.env, store, ToCommand(candidate, key), id, now) == Refuse(reason.refusal)
  {
  }

  lemma {:induction false} FailedFieldsHaveASlot(
      store: seq<LedgerEvent>, r: Command, c: Candidate, m: Mapping, a: Answers, usina: string, field: Field)
    requires usina != "" && WellShaped(m) && c.parties == PartiesOf(m, a, usina) && r.parties == SubmittedParties(c)
    requires field in FieldsOfFailures(S.Failures(store, r))
    ensures SlotOf(m, field).Some?
  {
    var failures := S.Failures(store, r);
    FieldsComeFromFailures(failures, field);
    var f :| f in failures && FieldOfFailure(f) == Some(field);
    FailuresHaveASlot(store, r, c, m, a, usina, f);
  }

  lemma {:induction false} RejectionsHaveASlot(
      d: Deployment, store: seq<LedgerEvent>, s: Scenario, a: Answers, c: Candidate, key: string, userId: string, id: string, now: int,
      reason: Reasons, field: Field)
    requires d.usina != "" && Built(MappingOf(s), a, d.usina, key, d.unidentified, d.instants) == Ok(c)
    requires Handled(SiteOf(d), store, Submitted(c, userId, d.instant), key, id, now).outcome == Rejected(reason)
    requires field in FieldsOf(reason)
    ensures SlotOf(MappingOf(s), field).Some?
  {
    WhatRejectionsAre(SiteOf(d), store, Submitted(c, userId, d.instant), key, id, now, reason);
    if reason.Unstaged? {
      ScenariosAreWellShaped(s);
      FailedFieldsHaveASlot(store, Submitted(c, userId, d.instant), c, MappingOf(s), a, d.usina, field);
    } else {
      RefusalsHaveASlot(store, s, a, c, d, key, userId, id, now, reason.refusal);
    }
  }

  lemma {:induction false} AskedAgain(p: IntentProps, s: Scenario, reason: Reasons)
    requires ScenarioNamed(p.scenarioId) == Some(s)
    requires forall field :: field in FieldsOf(reason) ==> SlotOf(MappingOf(s), field).Some?
    ensures CanBeCorrected(p, reason) <==> FieldsOf(reason) != []
  {
    if FieldsOf(reason) != [] {
      assert FieldsOf(reason)[0] in FieldsOf(reason);
    }
  }

  /**
   * An intent whose submission is rejected is asked again exactly when the rejection names a field: no field the
   * Ledger names about what Treasury builds lacks a slot in the scenario.
   */
  lemma {:induction false} NamedFieldsAreAskedAgain(
      d: Deployment, store: seq<LedgerEvent>, p: IntentProps, s: Scenario, id: string, now: int, reason: Reasons)
    requires d.usina != "" && ScenarioNamed(p.scenarioId) == Some(s) && BuiltFor(d, s, p).Ok?
    requires CandidateOf(SiteOf(d), p).Some?
    requires Handled(SiteOf(d), store, CandidateOf(SiteOf(d), p).value, Key(p.id), id, now).outcome == Rejected(reason)
    ensures CanBeCorrected(p, reason) <==> FieldsOf(reason) != []
  {
    var c := BuiltFor(d, s, p).value;
    CandidatesCarryTheKey(d, p, s);
    forall field | field in FieldsOf(reason) ensures SlotOf(MappingOf(s), field).Some? {
      RejectionsHaveASlot(d, store, s, AnswersOf(p.answers), c, Key(p.id), p.userId, id, now, reason, field);
    }
    AskedAgain(p, s, reason);
  }
}
