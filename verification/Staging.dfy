// The checks of the submit path before the write step:
// ledger/src/core/application/services/StagingRecordValidator.ts, on records already typed.

module Staging {
  import opened Prelude
  import opened Moneys
  import opened Events
  import opened Ledger
  import Reissue

  datatype StagingFailure =
    | MissingAmount | MissingCurrency | MissingSourceReference
    | MissingReporter
    | InvalidAmount
    | NoParties | PartyWithoutId(party: nat)
    | NoObjects | ObjectWithoutId(object: nat)
    | ReasonWithoutDescription
    | DuplicateSource

  // ---- the failures, part by part ----

  function When(failed: bool, failure: StagingFailure): seq<StagingFailure> {
    if failed then [failure] else []
  }

  function MissingFields(r: Command): seq<StagingFailure> {
    When(r.amount == "", MissingAmount)
    + When(r.currency == "", MissingCurrency)
    + When(r.sourceReference == "", MissingSourceReference)
    + When(r.reporterId == "" || r.channel == "", MissingReporter)
  }

  /** The format is that of the money factory; an absent amount is reported once, as absent. */
  function AmountFailures(r: Command): seq<StagingFailure> {
    When(r.amount != "" && FromDecimal(r.amount, r.currency) == Err(InvalidDecimalFormat), InvalidAmount)
  }

  function UnnamedParties(parties: seq<CommandParty>): seq<StagingFailure> {
    if parties == [] then []
    else
      var n := |parties| - 1;
      UnnamedParties(parties[..n]) + When(parties[n].partyId == "", PartyWithoutId(n))
  }

  function UnnamedObjects(objects: seq<EventObject>): seq<StagingFailure> {
    if objects == [] then []
    else
      var n := |objects| - 1;
      UnnamedObjects(objects[..n]) + When(objects[n].objectId == "", ObjectWithoutId(n))
  }

  function PartyFailures(parties: seq<CommandParty>): seq<StagingFailure> {
    if parties == [] then [NoParties] else UnnamedParties(parties)
  }

  function ObjectFailures(objects: seq<EventObject>): seq<StagingFailure> {
    if objects == [] then [NoObjects] else UnnamedObjects(objects)
  }

  function ReasonFailures(r: Command): seq<StagingFailure> {
    When(r.reason.Some? && Reissue.Trim(r.reason.value.description) == "", ReasonWithoutDescription)
  }

  function SchemaFailures(r: Command): seq<StagingFailure> {
    MissingFields(r) + AmountFailures(r) + PartyFailures(r.parties) + ObjectFailures(r.objects) + ReasonFailures(r)
  }

  function Duplicates(store: seq<LedgerEvent>, sourceReference: string): seq<StagingFailure> {
    When(sourceReference != "" && ExistsBySourceReference(store, sourceReference), DuplicateSource)
  }

  function Failures(store: seq<LedgerEvent>, r: Command): seq<StagingFailure> {
    SchemaFailures(r) + Duplicates(store, r.sourceReference)
  }

  class StagingRecordValidator {
    const ledgerRepo: InMemoryLedgerEventRepository

    constructor (ledgerRepo: InMemoryLedgerEventRepository)
      ensures this.ledgerRepo == ledgerRepo
    {
      this.ledgerRepo := ledgerRepo;
    }

    method ValidateRequiredFields(record: Command) returns (failures: seq<StagingFailure>)
      ensures failures == MissingFields(record)
    {
      failures := [];
      if record.amount == "" { failures := failures + [MissingAmount]; }
      if record.currency == "" { failures := failures + [MissingCurrency]; }
      if record.sourceReference == "" { failures := failures + [MissingSourceReference]; }
      if record.reporterId == "" || record.channel == "" { failures := failures + [MissingReporter]; }
    }

    method ValidateParties(parties: seq<CommandParty>) returns (failures: seq<StagingFailure>)
      ensures failures == PartyFailures(parties)
    {
      if |parties| == 0 { return [NoParties]; }
      failures := [];
      for i := 0 to |parties|
        invariant failures == UnnamedParties(parties[..i])
      {
        assert parties[..i + 1][..i] == parties[..i];
        if parties[i].partyId == "" { failures := failures + [PartyWithoutId(i)]; }
      }
      assert parties[..|parties|] == parties;
    }

    method ValidateObjects(objects: seq<EventObject>) returns (failures: seq<StagingFailure>)
      ensures failures == ObjectFailures(objects)
    {
      if |objects| == 0 { return [NoObjects]; }
      failures := [];
      for i := 0 to |objects|
        invariant failures == UnnamedObjects(objects[..i])
      {
        assert objects[..i + 1][..i] == objects[..i];
        if objects[i].objectId == "" { failures := failures + [ObjectWithoutId(i)]; }
      }
      assert objects[..|objects|] == objects;
    }

    /** Every failure of the record, in the order the checks run. */
    method Validate(record: Command) returns (failures: seq<StagingFailure>)
      ensures failures == Failures(ledgerRepo.store, record)
    {
      failures := ValidateRequiredFields(record);
      failures := failures + AmountFailures(record);
      var parties := ValidateParties(record.parties);
      failures := failures + parties;
      var objects := ValidateObjects(record.objects);
      failures := failures + objects;
      failures := failures + ReasonFailures(record);
      failures := failures + Duplicates(ledgerRepo.store, record.sourceReference);
    }
  }

  // ---- what passes ----

  /** Every field stated, the amount a decimal, every party and object named, the reason worded. */
  predicate WellStated(r: Command) {
    && r.amount != "" && r.currency != "" && r.sourceReference != "" && r.reporterId != "" && r.channel != ""
    && FromDecimal(r.amount, r.currency) != Err(InvalidDecimalFormat)
    && r.parties != [] && (forall p :: p in r.parties ==> p.partyId != "")
    && r.objects != [] && (forall o :: o in r.objects ==> o.objectId != "")
    && (r.reason.Some? ==> Reissue.Trim(r.reason.value.description) != "")
  }

  lemma {:induction false} PartiesAreNamed(parties: seq<CommandParty>)
    ensures UnnamedParties(parties) == [] <==> forall p :: p in parties ==> p.partyId != ""
  {
    if parties != [] {
      PartiesAreNamed(parties[..|parties| - 1]);
      assert parties == parties[..|parties| - 1] + [parties[|parties| - 1]];
    }
  }

  lemma {:induction false} ObjectsAreNamed(objects: seq<EventObject>)
    ensures UnnamedObjects(objects) == [] <==> forall o :: o in objects ==> o.objectId != ""
  {
    if objects != [] {
      ObjectsAreNamed(objects[..|objects| - 1]);
      assert objects == objects[..|objects| - 1] + [objects[|objects| - 1]];
    }
  }

  /** A record passes exactly when it is well stated and its source reference is not in the book. */
  lemma {:induction false} PassesExactly(store: seq<LedgerEvent>, r: Command)
    ensures Failures(store, r) == [] <==> WellStated(r) && !ExistsBySourceReference(store, r.sourceReference)
  {
    PartiesAreNamed(r.parties);
    ObjectsAreNamed(r.objects);
  }

  // ---- what a failure points at ----

  lemma {:induction false} UnnamedPartiesAreUnnamed(parties: seq<CommandParty>, f: StagingFailure)
    requires f in UnnamedParties(parties)
    ensures f.PartyWithoutId? && f.party < |parties| && parties[f.party].partyId == ""
  {
    var n := |parties| - 1;
    if f in UnnamedParties(parties[..n]) {
      UnnamedPartiesAreUnnamed(parties[..n], f);
    }
  }

  lemma {:induction false} UnnamedObjectsAreObjects(objects: seq<EventObject>, f: StagingFailure)
    requires f in UnnamedObjects(objects)
    ensures f.ObjectWithoutId?
  {
    var n := |objects| - 1;
    if f in UnnamedObjects(objects[..n]) {
      UnnamedObjectsAreObjects(objects[..n], f);
    }
  }

  /** A failure that names a party points at one without an id. */
  lemma {:induction false} UnnamedPartiesArePointedAt(store: seq<LedgerEvent>, r: Command, f: StagingFailure)
    requires f in Failures(store, r) && f.PartyWithoutId?
    ensures f.party < |r.parties| && r.parties[f.party].partyId == ""
  {
    if f in UnnamedObjects(r.objects) {
      UnnamedObjectsAreObjects(r.objects, f);
    }
    assert f in UnnamedParties(r.parties);
    UnnamedPartiesAreUnnamed(r.parties, f);
  }
}
