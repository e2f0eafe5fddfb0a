// ledger/src/core/domain/entities/LedgerEvent.ts, `create`: which fields of an event its hash covers.

module EventPayload {
  import opened Prelude
  import opened Moneys
  import opened Events
  import opened Canonical

  /** SHA-256 over a canonical text and Date.toISOString, left uninterpreted. */
  datatype Env = Env(hash: string -> string, iso: int -> string)

  ghost predicate CollisionFree(hash: string -> string) {
    forall x, y :: hash(x) == hash(y) ==> x == y
  }

  ghost predicate IsoIsInjective(iso: int -> string) {
    forall x, y :: iso(x) == iso(y) ==> x == y
  }

  function NullableText(s: Option<string>): Json {
    if s.None? then Null else Str(s.value)
  }

  function NullableInstant(env: Env, t: Option<int>): Json {
    if t.None? then Null else Str(env.iso(t.value))
  }

  function PartyJson(p: Party): Json {
    Obj(map[
      "partyId" := Str(p.partyId),
      "role" := Str(PartyRoleCode(p.role)),
      "direction" := Str(DirectionCode(p.direction)),
      "amount" := if p.amount.None? then Null else Str(ToString(p.amount.value))
    ])
  }

  function ObjectJson(o: EventObject): Json {
    Obj(map[
      "objectId" := Str(o.objectId),
      "objectType" := Str(ObjectTypeCode(o.objectType)),
      "relation" := Str(RelationCode(o.relation))
    ])
  }

  function ReasonJson(r: Option<Reason>): Json {
    if r.None? then Null
    else Obj(map[
      "type" := Str(ReasonTypeCode(r.value.kind)),
      "description" := Str(r.value.description),
      "confidence" := Str(ConfidenceCode(r.value.confidence)),
      "requiresFollowup" := Bool(r.value.requiresFollowup)
    ])
  }

  function SourceJson(s: Source): Json {
    Obj(map["system" := Str(s.system), "reference" := Str(s.reference)])
  }

  function NormalizationJson(n: Normalization): Json {
    Obj(map["version" := Str(n.version), "workerId" := Str(n.workerId)])
  }

  function ReporterJson(r: Reporter): Json {
    Obj(map[
      "type" := Str(ReporterTypeCode(r.reporterType)),
      "id" := Str(r.reporterId),
      "channel" := Str(r.channel)
    ])
  }

  function PartiesJson(ps: seq<Party>): Json {
    Arr(seq(|ps|, i requires 0 <= i < |ps| => PartyJson(ps[i])))
  }

  function ObjectsJson(os: seq<EventObject>): Json {
    Arr(seq(|os|, i requires 0 <= i < |os| => ObjectJson(os[i])))
  }

  /** The first eight keys of the hashed object. */
  function FactFields(id: Json, eventType: Json, effect: Json, occurredAt: Json,
                      recordedAt: Json, sourceAt: Json, dueAt: Json, amount: Json): map<string, Json>
  {
    map[
      "id" := id,
      "eventType" := eventType,
      "economicEffect" := effect,
      "occurredAt" := occurredAt,
      "recordedAt" := recordedAt,
      "sourceAt" := sourceAt,
      "dueAt" := dueAt,
      "amount" := amount
    ]
  }

  /** The other nine. */
  function RecordFields(description: Json, source: Json, normalization: Json, previousHash: Json, relatedEventId: Json,
                        parties: Json, objects: Json, reason: Json, reporter: Json): map<string, Json>
  {
    map[
      "description" := description,
      "source" := source,
      "normalization" := normalization,
      "previousHash" := previousHash,
      "relatedEventId" := relatedEventId,
      "parties" := parties,
      "objects" := objects,
      "reason" := reason,
      "reporter" := reporter
    ]
  }

  function FactOf(env: Env, e: LedgerEvent): map<string, Json> {
    FactFields(
      Str(e.id), Str(EventTypeCode(e.eventType)), Str(EffectCode(e.effect)), Str(env.iso(e.occurredAt)),
      Str(env.iso(e.recordedAt)), NullableInstant(env, e.sourceAt), NullableInstant(env, e.dueAt), Str(ToString(e.amount)))
  }

  function RecordOf(e: LedgerEvent): map<string, Json> {
    RecordFields(
      NullableText(e.description), SourceJson(e.source), NormalizationJson(e.normalization),
      NullableText(e.previousHash), NullableText(e.relatedEventId),
      PartiesJson(e.parties), ObjectsJson(e.objects), ReasonJson(e.reason), ReporterJson(e.reporter))
  }

  function Payload(env: Env, e: LedgerEvent): Json {
    Obj(FactOf(env, e) + RecordOf(e))
  }

  function HashOf(env: Env, e: LedgerEvent): string {
    env.hash(Canonicalize(Payload(env, e)))
  }

  // ---- what equal payloads say ----

  datatype HashedParty = HashedParty(partyId: string, role: PartyRole, direction: Direction, units: Option<nat>)

  /** The fields the hash covers, and no others: no currency, commandId, reporterName or reportedAt. */
  datatype HashedFields = HashedFields(
    id: string, eventType: EventType, effect: Effect,
    occurredAt: int, recordedAt: int, sourceAt: Option<int>, dueAt: Option<int>,
    units: nat, description: Option<string>, source: Source, normalization: Normalization,
    previousHash: Option<string>, relatedEventId: Option<string>,
    parties: seq<HashedParty>, objects: seq<EventObject>, reason: Option<Reason>,
    reporterType: ReporterType, reporterId: string, channel: string)

  function HashedPartyOf(p: Party): HashedParty {
    HashedParty(p.partyId, p.role, p.direction, if p.amount.None? then None else Some(p.amount.value.units))
  }

  function HashedFieldsOf(e: LedgerEvent): HashedFields {
    HashedFields(
      e.id, e.eventType, e.effect, e.occurredAt, e.recordedAt, e.sourceAt, e.dueAt,
      e.amount.units, e.description, e.source, e.normalization, e.previousHash, e.relatedEventId,
      seq(|e.parties|, i requires 0 <= i < |e.parties| => HashedPartyOf(e.parties[i])),
      e.objects, e.reason, e.reporter.reporterType, e.reporter.reporterId, e.reporter.channel)
  }

  function Get(j: Json, key: string): Json {
    if j.Obj? && key in j.fields then j.fields[key] else Null
  }

  lemma {:induction false} PartyKeys(p: Party)
    ensures var j := PartyJson(p);
      && Get(j, "partyId") == Str(p.partyId)
      && Get(j, "role") == Str(PartyRoleCode(p.role))
      && Get(j, "direction") == Str(DirectionCode(p.direction))
      && Get(j, "amount") == if p.amount.None? then Null else Str(ToString(p.amount.value))
  {
  }

  lemma {:induction false} PartyJsonIsInjective(a: Party, b: Party)
    requires PartyJson(a) == PartyJson(b)
    ensures HashedPartyOf(a) == HashedPartyOf(b)
  {
    PartyKeys(a);
    PartyKeys(b);
    PartyRoleCodeIsInjective(a.role, b.role);
    DirectionCodeIsInjective(a.direction, b.direction);
    if a.amount.Some? {
      ToStringIsInjective(a.amount.value, b.amount.value);
    }
  }

  lemma {:induction false} ObjectKeys(o: EventObject)
    ensures var j := ObjectJson(o);
      && Get(j, "objectId") == Str(o.objectId)
      && Get(j, "objectType") == Str(ObjectTypeCode(o.objectType))
      && Get(j, "relation") == Str(RelationCode(o.relation))
  {
  }

  lemma {:induction false} ObjectJsonIsInjective(a: EventObject, b: EventObject)
    requires ObjectJson(a) == ObjectJson(b)
    ensures a == b
  {
    ObjectKeys(a);
    ObjectKeys(b);
    ObjectTypeCodeIsInjective(a.objectType, b.objectType);
    RelationCodeIsInjective(a.relation, b.relation);
  }

  lemma {:induction false} ReasonKeys(r: Reason)
    ensures var j := ReasonJson(Some(r));
      && Get(j, "type") == Str(ReasonTypeCode(r.kind))
      && Get(j, "description") == Str(r.description)
      && Get(j, "confidence") == Str(ConfidenceCode(r.confidence))
      && Get(j, "requiresFollowup") == Bool(r.requiresFollowup)
  {
  }

  lemma {:induction false} ReasonJsonIsInjective(a: Option<Reason>, b: Option<Reason>)
    requires ReasonJson(a) == ReasonJson(b)
    ensures a == b
  {
    if a.Some? && b.Some? {
      ReasonKeys(a.value);
      ReasonKeys(b.value);
      ReasonTypeCodeIsInjective(a.value.kind, b.value.kind);
      ConfidenceCodeIsInjective(a.value.confidence, b.value.confidence);
    }
  }

  lemma {:induction false} SmallObjectKeys(s: Source, n: Normalization, r: Reporter)
    ensures Get(SourceJson(s), "system") == Str(s.system) && Get(SourceJson(s), "reference") == Str(s.reference)
    ensures Get(NormalizationJson(n), "version") == Str(n.version) && Get(NormalizationJson(n), "workerId") == Str(n.workerId)
    ensures
      && Get(ReporterJson(r), "type") == Str(ReporterTypeCode(r.reporterType))
      && Get(ReporterJson(r), "id") == Str(r.reporterId)
      && Get(ReporterJson(r), "channel") == Str(r.channel)
  {
  }

  /** Keys of the same length, told apart by one character. */
  lemma {:induction false} PayloadKeysDiffer()
    ensures "economicEffect" != "relatedEventId" && "occurredAt" != "recordedAt" && "sourceAt" != "reporter"
    ensures "amount" != "source" && "amount" != "reason" && "source" != "reason" && "parties" != "objects"
  {
    assert "economicEffect"[0] != "relatedEventId"[0];
    assert "occurredAt"[0] != "recordedAt"[0];
    assert "sourceAt"[0] != "reporter"[0];
    assert "amount"[0] != "source"[0] && "amount"[0] != "reason"[0] && "source"[0] != "reason"[0];
    assert "parties"[0] != "objects"[0];
  }

  lemma {:induction false} FactKeys(id: Json, et: Json, ef: Json, oa: Json, ra: Json, sa: Json, da: Json, am: Json)
    ensures var m := FactFields(id, et, ef, oa, ra, sa, da, am);
      && m["id"] == id && m["eventType"] == et && m["economicEffect"] == ef && m["occurredAt"] == oa
      && m["recordedAt"] == ra && m["sourceAt"] == sa && m["dueAt"] == da && m["amount"] == am
  {
    PayloadKeysDiffer();
  }

  lemma {:induction false} RecordKeys(de: Json, so: Json, no: Json, ph: Json, re: Json, pa: Json, ob: Json, rs: Json, rp: Json)
    ensures var m := RecordFields(de, so, no, ph, re, pa, ob, rs, rp);
      && m["description"] == de && m["source"] == so && m["normalization"] == no && m["previousHash"] == ph
      && m["relatedEventId"] == re && m["parties"] == pa && m["objects"] == ob && m["reason"] == rs && m["reporter"] == rp
  {
    PayloadKeysDiffer();
  }

  lemma {:induction false} GetOfMerge(a: map<string, Json>, b: map<string, Json>)
    requires a.Keys !! b.Keys
    ensures forall k :: k in a ==> Get(Obj(a + b), k) == a[k]
    ensures forall k :: k in b ==> Get(Obj(a + b), k) == b[k]
    ensures (a + b).Keys == a.Keys + b.Keys
  {
  }

  lemma {:induction false} PayloadIsMerged(env: Env, e: LedgerEvent)
    ensures FactOf(env, e).Keys !! RecordOf(e).Keys
    ensures forall k :: k in FactOf(env, e) ==> Get(Payload(env, e), k) == FactOf(env, e)[k]
    ensures forall k :: k in RecordOf(e) ==> Get(Payload(env, e), k) == RecordOf(e)[k]
  {
    KeyHalves(env, e);
    KeyHalvesAreDisjoint();
    GetOfMerge(FactOf(env, e), RecordOf(e));
  }

  /** What the hashed object holds of the fact. */
  lemma {:induction false} PayloadHoldsTheFact(env: Env, e: LedgerEvent)
    ensures var j := Payload(env, e);
      && Get(j, "id") == Str(e.id) && Get(j, "eventType") == Str(EventTypeCode(e.eventType))
      && Get(j, "economicEffect") == Str(EffectCode(e.effect)) && Get(j, "occurredAt") == Str(env.iso(e.occurredAt))
      && Get(j, "recordedAt") == Str(env.iso(e.recordedAt)) && Get(j, "sourceAt") == NullableInstant(env, e.sourceAt)
      && Get(j, "dueAt") == NullableInstant(env, e.dueAt) && Get(j, "amount") == Str(ToString(e.amount))
  {
    PayloadIsMerged(env, e);
    FactKeys(
      Str(e.id), Str(EventTypeCode(e.eventType)), Str(EffectCode(e.effect)), Str(env.iso(e.occurredAt)),
      Str(env.iso(e.recordedAt)), NullableInstant(env, e.sourceAt), NullableInstant(env, e.dueAt), Str(ToString(e.amount)));
  }

  /** And of its record. */
  lemma {:induction false} PayloadHoldsTheRecord(env: Env, e: LedgerEvent)
    ensures var j := Payload(env, e);
      && Get(j, "description") == NullableText(e.description) && Get(j, "source") == SourceJson(e.source)
      && Get(j, "normalization") == NormalizationJson(e.normalization)
      && Get(j, "previousHash") == NullableText(e.previousHash) && Get(j, "relatedEventId") == NullableText(e.relatedEventId)
      && Get(j, "parties") == PartiesJson(e.parties) && Get(j, "objects") == ObjectsJson(e.objects)
      && Get(j, "reason") == ReasonJson(e.reason) && Get(j, "reporter") == ReporterJson(e.reporter)
  {
    PayloadIsMerged(env, e);
    RecordKeys(
      NullableText(e.description), SourceJson(e.source), NormalizationJson(e.normalization),
      NullableText(e.previousHash), NullableText(e.relatedEventId),
      PartiesJson(e.parties), ObjectsJson(e.objects), ReasonJson(e.reason), ReporterJson(e.reporter));
  }

  lemma {:induction false} MergeIsInjective(a: map<string, Json>, b: map<string, Json>, c: map<string, Json>, d: map<string, Json>)
    requires a + b == c + d
    requires a.Keys == c.Keys && b.Keys == d.Keys && a.Keys !! b.Keys
    ensures a == c && b == d
  {
    assert forall k :: k in a ==> (a + b)[k] == a[k] && (c + d)[k] == c[k];
    assert forall k :: k in b ==> (a + b)[k] == b[k] && (c + d)[k] == d[k];
  }

  const FACT_KEYS: set<string> :=
    {"id", "eventType", "economicEffect", "occurredAt", "recordedAt", "sourceAt", "dueAt", "amount"}

  const RECORD_KEYS: set<string> :=
    {"description", "source", "normalization", "previousHash", "relatedEventId", "parties", "objects", "reason", "reporter"}

  lemma {:induction false} KeyHalves(env: Env, e: LedgerEvent)
    ensures FactOf(env, e).Keys == FACT_KEYS && RecordOf(e).Keys == RECORD_KEYS
  {
  }

  lemma {:induction false} KeyHalvesAreDisjoint()
    ensures FACT_KEYS !! RECORD_KEYS
  {
    PayloadKeysDiffer();
    forall k | k in FACT_KEYS ensures k !in RECORD_KEYS {
    }
  }

  lemma {:induction false} HalvesAgree(env: Env, a: LedgerEvent, b: LedgerEvent)
    requires Payload(env, a) == Payload(env, b)
    ensures FactOf(env, a) == FactOf(env, b) && RecordOf(a) == RecordOf(b)
  {
    KeyHalves(env, a);
    KeyHalves(env, b);
    KeyHalvesAreDisjoint();
    MergeIsInjective(FactOf(env, a), RecordOf(a), FactOf(env, b), RecordOf(b));
  }

  lemma {:induction false} InstantsAgree(env: Env, s: Option<int>, t: Option<int>)
    requires IsoIsInjective(env.iso)
    requires NullableInstant(env, s) == NullableInstant(env, t)
    ensures s == t
  {
    if s.Some? {
      var x, y := s.value, t.value;
      assert env.iso(x) == env.iso(y) ==> x == y;
    }
  }

  lemma {:induction false} FactsAgree(env: Env, a: LedgerEvent, b: LedgerEvent)
    requires IsoIsInjective(env.iso)
    requires FactOf(env, a) == FactOf(env, b)
    ensures a.id == b.id && a.eventType == b.eventType && a.effect == b.effect && a.occurredAt == b.occurredAt
    ensures a.recordedAt == b.recordedAt && a.sourceAt == b.sourceAt && a.dueAt == b.dueAt
    ensures a.amount.units == b.amount.units
  {
    FactKeys(
      Str(a.id), Str(EventTypeCode(a.eventType)), Str(EffectCode(a.effect)), Str(env.iso(a.occurredAt)),
      Str(env.iso(a.recordedAt)), NullableInstant(env, a.sourceAt), NullableInstant(env, a.dueAt), Str(ToString(a.amount)));
    FactKeys(
      Str(b.id), Str(EventTypeCode(b.eventType)), Str(EffectCode(b.effect)), Str(env.iso(b.occurredAt)),
      Str(env.iso(b.recordedAt)), NullableInstant(env, b.sourceAt), NullableInstant(env, b.dueAt), Str(ToString(b.amount)));
    EventTypeCodeIsInjective(a.eventType, b.eventType);
    EffectCodeIsInjective(a.effect, b.effect);
    ToStringIsInjective(a.amount, b.amount);
    InstantsAgree(env, a.sourceAt, b.sourceAt);
    InstantsAgree(env, a.dueAt, b.dueAt);
  }

  lemma {:induction false} RecordsAgree(a: LedgerEvent, b: LedgerEvent)
    requires RecordOf(a) == RecordOf(b)
    ensures a.description == b.description && a.source == b.source && a.normalization == b.normalization
    ensures a.previousHash == b.previousHash && a.relatedEventId == b.relatedEventId
    ensures |a.parties| == |b.parties|
    ensures forall i :: 0 <= i < |a.parties| ==> HashedPartyOf(a.parties[i]) == HashedPartyOf(b.parties[i])
    ensures a.objects == b.objects && a.reason == b.reason
    ensures a.reporter.reporterType == b.reporter.reporterType && a.reporter.reporterId == b.reporter.reporterId
    ensures a.reporter.channel == b.reporter.channel
  {
    RecordKeys(
      NullableText(a.description), SourceJson(a.source), NormalizationJson(a.normalization),
      NullableText(a.previousHash), NullableText(a.relatedEventId),
      PartiesJson(a.parties), ObjectsJson(a.objects), ReasonJson(a.reason), ReporterJson(a.reporter));
    RecordKeys(
      NullableText(b.description), SourceJson(b.source), NormalizationJson(b.normalization),
      NullableText(b.previousHash), NullableText(b.relatedEventId),
      PartiesJson(b.parties), ObjectsJson(b.objects), ReasonJson(b.reason), ReporterJson(b.reporter));
    ReasonJsonIsInjective(a.reason, b.reason);
    SmallObjectKeys(a.source, a.normalization, a.reporter);
    SmallObjectKeys(b.source, b.normalization, b.reporter);
    ReporterTypeCodeIsInjective(a.reporter.reporterType, b.reporter.reporterType);
    PartiesAgree(a.parties, b.parties);
    ObjectsAgree(a.objects, b.objects);
  }

  /** Two events have one payload exactly when they agree on every hashed field. */
  lemma {:induction false} PayloadsAgreeOnHashedFields(env: Env, a: LedgerEvent, b: LedgerEvent)
    requires IsoIsInjective(env.iso)
    ensures Payload(env, a) == Payload(env, b) <==> HashedFieldsOf(a) == HashedFieldsOf(b)
  {
    if Payload(env, a) == Payload(env, b) {
      HalvesAgree(env, a, b);
      FactsAgree(env, a, b);
      RecordsAgree(a, b);
      assert HashedFieldsOf(a).parties == HashedFieldsOf(b).parties;
    } else if HashedFieldsOf(a) == HashedFieldsOf(b) {
      HashedPartiesDecide(a, b);
      ToStringIsInjective(a.amount, b.amount);
    }
  }

  lemma {:induction false} HashedPartiesDecide(a: LedgerEvent, b: LedgerEvent)
    requires HashedFieldsOf(a) == HashedFieldsOf(b)
    ensures PartiesJson(a.parties) == PartiesJson(b.parties)
  {
    var l, r := HashedFieldsOf(a).parties, HashedFieldsOf(b).parties;
    assert |l| == |a.parties| && |r| == |b.parties|;
    forall i | 0 <= i < |a.parties| ensures PartyJson(a.parties[i]) == PartyJson(b.parties[i]) {
      assert l[i] == r[i];
      var p, q := a.parties[i], b.parties[i];
      if p.amount.Some? {
        ToStringIsInjective(p.amount.value, q.amount.value);
      }
    }
    assert PartiesJson(a.parties).items == PartiesJson(b.parties).items;
  }

  lemma {:induction false} PartiesAgree(xs: seq<Party>, ys: seq<Party>)
    requires PartiesJson(xs) == PartiesJson(ys)
    ensures |xs| == |ys| && forall i :: 0 <= i < |xs| ==> HashedPartyOf(xs[i]) == HashedPartyOf(ys[i])
  {
    var l, r := PartiesJson(xs).items, PartiesJson(ys).items;
    assert |l| == |xs| && |r| == |ys|;
    forall i | 0 <= i < |xs| ensures HashedPartyOf(xs[i]) == HashedPartyOf(ys[i]) {
      assert l[i] == r[i];
      PartyJsonIsInjective(xs[i], ys[i]);
    }
  }

  lemma {:induction false} ObjectsAgree(xs: seq<EventObject>, ys: seq<EventObject>)
    requires ObjectsJson(xs) == ObjectsJson(ys)
    ensures xs == ys
  {
    var l, r := ObjectsJson(xs).items, ObjectsJson(ys).items;
    assert |l| == |xs| && |r| == |ys|;
    forall i | 0 <= i < |xs| ensures xs[i] == ys[i] {
      assert l[i] == r[i];
      ObjectJsonIsInjective(xs[i], ys[i]);
    }
  }
}
