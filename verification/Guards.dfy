// What the guards of the write step admit, exactly, and which refusal they give:
// ledger/src/core/application/use-cases/CreateLedgerEventUseCase.ts, lines 26-133.

module Guards {
  import opened Prelude
  import opened Moneys
  import opened Events
  import opened Catalog
  import opened Validation
  import opened Retraction
  import opened EventPayload
  import opened Ledger
  import opened Shares

  // ---- lineage ----

  /** The book holds the event the command relates to. */
  ghost predicate OriginIsThere(store: seq<LedgerEvent>, c: Command) {
    c.relatedEventId.Some? && exists e :: e in store && e.id == c.relatedEventId.value
  }

  /** The event the command relates to is of a type its contract allows. */
  ghost predicate OriginIsAllowed(store: seq<LedgerEvent>, c: Command) {
    var allowed := ContractOf(c.eventType).allowedOrigins;
    forall e :: e in store && c.relatedEventId == Some(e.id) && allowed.Some? ==> e.eventType in allowed.value
  }

  /** A command that relates to nothing passes; one that does needs its origin there, and of an allowed type. */
  lemma {:induction false} OriginsAreAdmittedExactly(store: seq<LedgerEvent>, c: Command)
    requires UniqueIds(store)
    ensures LineageRefusal(store, c).None? <==> (Truthy(c.relatedEventId) ==> OriginIsThere(store, c) && OriginIsAllowed(store, c))
    ensures LineageRefusal(store, c) == Some(OriginNotFound) <==> Truthy(c.relatedEventId) && !OriginIsThere(store, c)
    ensures LineageRefusal(store, c) == Some(OriginOfWrongType) <==>
      Truthy(c.relatedEventId) && OriginIsThere(store, c) && !OriginIsAllowed(store, c)
  {
    if Truthy(c.relatedEventId) {
      FindByIdFinds(store, c.relatedEventId.value);
      if OriginIsThere(store, c) {
        var origin :| origin in store && origin.id == c.relatedEventId.value;
        TheEventWithAnId(store, origin);
        forall e | e in store && c.relatedEventId == Some(e.id) ensures e == origin {
          TheEventWithAnId(store, e);
        }
      }
    }
  }

  // ---- retraction ----

  /** `t` retracts an event that retracts one itself. */
  ghost predicate RetractsARetraction(store: seq<LedgerEvent>, t: LedgerEvent) {
    exists p :: p in store && Retracting(t, p.id) && CarriesRetraction(p)
  }

  lemma {:induction false} WhatTheTargetRetracts(store: seq<LedgerEvent>, t: LedgerEvent)
    requires UniqueIds(store)
    ensures RetractsARetraction(store, t) <==>
      && CarriesRetraction(t) && Truthy(t.relatedEventId)
      && FindById(store, t.relatedEventId.value).Some? && CarriesRetraction(FindById(store, t.relatedEventId.value).value)
  {
    if CarriesRetraction(t) && Truthy(t.relatedEventId) {
      FindByIdFinds(store, t.relatedEventId.value);
      forall p | p in store && Retracting(t, p.id) ensures FindById(store, t.relatedEventId.value) == Some(p) {
        TheEventWithAnId(store, p);
      }
    }
  }

  /**
   * A command that retracts an event of the book is let through exactly when nothing retracts that event yet and
   * what the event retracts is not a retraction itself: a retraction can be undone, once, and its undoing cannot.
   */
  lemma {:induction false} RetractionsAreAdmittedExactly(store: seq<LedgerEvent>, c: Command, t: LedgerEvent)
    requires UniqueIds(store) && t in store && t.id != ""
    requires c.relatedEventId == Some(t.id) && AsksToRetract(c.objects)
    ensures RetractionRefusal(store, c).None? <==> !HasRetraction(store, t.id) && !RetractsARetraction(store, t)
    ensures RetractionRefusal(store, c) == Some(AlreadyRetracted) <==> HasRetraction(store, t.id)
    ensures RetractionRefusal(store, c) == Some(RetractionChainTooDeep) <==>
      !HasRetraction(store, t.id) && RetractsARetraction(store, t)
  {
    TheEventWithAnId(store, t);
    WhatTheTargetRetracts(store, t);
    assert HasRetraction(store, t.id) <==> exists e :: e in store && e.relatedEventId == c.relatedEventId && CarriesRetraction(e);
  }

  // ---- over-settlement ----

  /** Whether closing `units` more fits a position, over the events that name it. */
  ghost predicate Fits(store: seq<LedgerEvent>, objectId: string, units: nat) {
    var scope := Scope(store, objectId);
    var retracted := RetractedIds(scope);
    var originated := Declared(scope, retracted, objectId, Originates);
    var closed := Declared(scope, retracted, objectId, Settles) + Declared(scope, retracted, objectId, Adjusts);
    SomeDeclares(scope, retracted, objectId, Reverses) || originated == 0 || closed + units <= originated
  }

  lemma {:induction false} ClosingIsAdmittedExactly(store: seq<LedgerEvent>, objectId: string, units: nat)
    ensures ClosingRefusal(store, objectId, units).None? <==> Fits(store, objectId, units)
  {
    var scope := Scope(store, objectId);
    BaseSumsAreDeclared(scope, RetractedIds(scope), objectId);
    FlagsAreOccurrences(scope, RetractedIds(scope), objectId);
  }

  /** A command settles only what fits; each object is measured against the book before the command. */
  lemma {:induction false} SettlementsAreAdmittedExactly(store: seq<LedgerEvent>, objects: seq<EventObject>, units: nat)
    ensures SettlementRefusal(store, objects, units).None? <==>
      forall o :: o in objects && o.relation == Settles ==> Fits(store, o.objectId, units)
  {
    if objects != [] {
      var n := |objects| - 1;
      SettlementsAreAdmittedExactly(store, objects[..n], units);
      ClosingIsAdmittedExactly(store, objects[n].objectId, units);
      assert objects == objects[..n] + [objects[n]];
    }
  }

  /** No payment against a position that a standing event reversed is ever refused for its amount. */
  lemma {:induction false} ReversedPositionsAreNeverRefused(store: seq<LedgerEvent>, objectId: string, units: nat)
    requires SomeDeclares(Scope(store, objectId), RetractedIds(Scope(store, objectId)), objectId, Reverses)
    ensures ClosingRefusal(store, objectId, units).None?
  {
    ClosingIsAdmittedExactly(store, objectId, units);
  }

  /** What is left of a position that a refused payment reports. */
  lemma {:induction false} RefusedPaymentsReportWhatIsLeft(store: seq<LedgerEvent>, objectId: string, units: nat)
    requires ClosingRefusal(store, objectId, units).Some?
    ensures var scope := Scope(store, objectId);
      var retracted := RetractedIds(scope);
      var left := Declared(scope, retracted, objectId, Originates)
        - Declared(scope, retracted, objectId, Settles) - Declared(scope, retracted, objectId, Adjusts);
      && left < units
      && ClosingRefusal(store, objectId, units).value == if left < 0 then NegativeOutstanding else OverSettlement(objectId, left)
  {
    var scope := Scope(store, objectId);
    BaseSumsAreDeclared(scope, RetractedIds(scope), objectId);
  }

  // ---- the whole step ----

  /** Everything the guards ask of a command that is new, and in which order they report it. */
  ghost predicate Admits(store: seq<LedgerEvent>, c: Command, units: nat) {
    && (Truthy(c.relatedEventId) ==> OriginIsThere(store, c) && OriginIsAllowed(store, c))
    && (forall t :: t in store && c.relatedEventId == Some(t.id) && t.id != "" && AsksToRetract(c.objects) ==>
          !HasRetraction(store, t.id) && !RetractsARetraction(store, t))
    && (forall o :: o in c.objects && o.relation == Settles ==> Fits(store, o.objectId, units))
  }

  lemma {:induction false} GuardsAdmitExactly(store: seq<LedgerEvent>, c: Command, units: nat)
    requires UniqueIds(store)
    ensures GuardRefusal(store, c, units).None? <==> Admits(store, c, units)
  {
    OriginsAreAdmittedExactly(store, c);
    SettlementsAreAdmittedExactly(store, c.objects, units);
    forall t | t in store && c.relatedEventId == Some(t.id) && t.id != "" && AsksToRetract(c.objects)
      ensures RetractionRefusal(store, c).None? <==> !HasRetraction(store, t.id) && !RetractsARetraction(store, t)
    {
      RetractionsAreAdmittedExactly(store, c, t);
    }
  }

  /** A missing origin is reported before anything else, a second retraction before any payment. */
  lemma {:induction false} GuardsReportInOrder(store: seq<LedgerEvent>, c: Command, units: nat)
    requires UniqueIds(store)
    ensures Truthy(c.relatedEventId) && !OriginIsThere(store, c) ==> GuardRefusal(store, c, units) == Some(OriginNotFound)
    ensures Truthy(c.relatedEventId) && OriginIsThere(store, c) && !OriginIsAllowed(store, c)
            ==> GuardRefusal(store, c, units) == Some(OriginOfWrongType)
    ensures Truthy(c.relatedEventId) && OriginIsThere(store, c) && OriginIsAllowed(store, c)
            && AsksToRetract(c.objects) && HasRetraction(store, c.relatedEventId.value)
            ==> GuardRefusal(store, c, units) == Some(AlreadyRetracted)
  {
    OriginsAreAdmittedExactly(store, c);
    if OriginIsThere(store, c) && Truthy(c.relatedEventId) && AsksToRetract(c.objects) {
      var t :| t in store && t.id == c.relatedEventId.value;
      RetractionsAreAdmittedExactly(store, c, t);
    }
  }

  /** Every amount the command states can be read. */
  predicate Readable(c: Command) {
    FromDecimal(c.amount, c.currency).Ok? && ReadParties(c.parties, c.currency).Ok?
  }

  /** The event a readable command asks for. */
  function Asked(env: Env, store: seq<LedgerEvent>, c: Command, id: string, now: int): LedgerEvent
    requires Readable(c)
  {
    Sealed(env, Draft(store, c, FromDecimal(c.amount, c.currency).value, ReadParties(c.parties, c.currency).value, id, now))
  }

  predicate SaysWhereItComesFrom(c: Command) {
    c.normalizationVersion != "" && c.normalizationWorkerId != "" && c.sourceSystem != "" && c.sourceReference != ""
  }

  /**
   * The write step, exactly: a command is answered with the event recorded under its id if there is one; and is
   * recorded if and only if there is none, its identities are new, it can be read and says where it comes from,
   * the guards admit it, and the event it asks for is valid.
   */
  lemma {:induction false} CommandsAreDecidedExactly(env: Env, store: seq<LedgerEvent>, c: Command, id: string, now: int)
    requires UniqueIds(store)
    ensures Decide(env, store, c, id, now).Existing? <==> Truthy(c.commandId) && exists e :: e in store && e.commandId == c.commandId
    ensures Decide(env, store, c, id, now).Commit? <==>
      && IsNew(store, c, id) && Readable(c) && SaysWhereItComesFrom(c)
      && Admits(store, c, FromDecimal(c.amount, c.currency).value.units) && IsValid(Asked(env, store, c, id, now))
    ensures Decide(env, store, c, id, now).Commit? ==> Decide(env, store, c, id, now).event == Asked(env, store, c, id, now)
  {
    if Truthy(c.commandId) {
      FindByCommandIdFinds(store, c.commandId.value);
    }
    if Decide(env, store, c, id, now).Commit? {
      CommitsAreReadable(env, store, c, id, now);
    }
    if IsNew(store, c, id) && Readable(c) && SaysWhereItComesFrom(c) {
      var money := FromDecimal(c.amount, c.currency).value;
      GuardsAdmitExactly(store, c, money.units);
      NewCommandsAreDecidedByTheRules(env, store, c, money, ReadParties(c.parties, c.currency).value, id, now);
    }
  }

  lemma {:induction false} CommitsAreReadable(env: Env, store: seq<LedgerEvent>, c: Command, id: string, now: int)
    requires Decide(env, store, c, id, now).Commit?
    ensures IsNew(store, c, id) && Readable(c) && SaysWhereItComesFrom(c)
  {
  }

  /** An event is recorded under the command's id already. */
  ghost predicate IsAnswered(store: seq<LedgerEvent>, c: Command) {
    Truthy(c.commandId) && exists e :: e in store && e.commandId == c.commandId
  }

  /**
   * Which refusal a command that is not recorded gets: a known source reference comes before a missing id, that
   * before an unreadable amount, that before the guards, those before missing metadata, that before an unreadable
   * party, that before a broken rule, and a taken id comes last.
   */
  lemma {:induction false} RefusalsComeInOrder(env: Env, store: seq<LedgerEvent>, c: Command, id: string, now: int)
    requires !IsAnswered(store, c)
    ensures var d := Decide(env, store, c, id, now);
      var money := FromDecimal(c.amount, c.currency);
      && (ExistsBySourceReference(store, c.sourceReference) <==> d == Refuse(DuplicateSourceReference))
      && (!ExistsBySourceReference(store, c.sourceReference) ==>
            && (id == "" ==> d == Refuse(MissingId))
            && (id != "" && money.Err? ==> d == Refuse(InvalidMoney(money.error)))
            && (id != "" && money.Ok? && GuardRefusal(store, c, money.value.units).Some? ==>
                  d == Refuse(GuardRefusal(store, c, money.value.units).value)))
  {
    GuardsNameNoDuplicate(store, c);
    if Truthy(c.commandId) {
      FindByCommandIdFinds(store, c.commandId.value);
    }
  }

  lemma {:induction false} GuardsNameNoDuplicate(store: seq<LedgerEvent>, c: Command)
    ensures forall units: nat :: GuardRefusal(store, c, units) != Some(DuplicateSourceReference)
  {
    forall units: nat ensures GuardRefusal(store, c, units) != Some(DuplicateSourceReference) {
      SettlementsAreRefusedForTheirUnits(store, c.objects, units);
    }
  }

  /** The same past the guards. */
  lemma {:induction false} LaterRefusalsComeInOrder(env: Env, store: seq<LedgerEvent>, c: Command, id: string, now: int)
    requires !IsAnswered(store, c) && !ExistsBySourceReference(store, c.sourceReference) && id != ""
    requires FromDecimal(c.amount, c.currency).Ok?
    requires GuardRefusal(store, c, FromDecimal(c.amount, c.currency).value.units).None?
    ensures var d := Decide(env, store, c, id, now);
      var parties := ReadParties(c.parties, c.currency);
      var normalized, sourced := c.normalizationVersion != "" && c.normalizationWorkerId != "", c.sourceSystem != "" && c.sourceReference != "";
      && (!normalized ==> d == Refuse(IncompleteNormalization))
      && (normalized && !sourced ==> d == Refuse(IncompleteSource))
      && (normalized && sourced && parties.Err? ==> d == Refuse(InvalidMoney(parties.error)))
      && (normalized && sourced && parties.Ok? ==>
            var violation := Violated(Asked(env, store, c, id, now));
            && (violation.Some? ==> d == Refuse(NotAdmissible(violation.value)))
            && (violation.None? && HasId(store, id) ==> d == Refuse(IdTaken)))
  {
    if Truthy(c.commandId) {
      FindByCommandIdFinds(store, c.commandId.value);
    }
  }
}
