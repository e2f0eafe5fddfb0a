// Every position at once: `buildAggregateMap` of
// ledger/src/infra/persistence/memory/InMemoryLedgerEventRepository.ts, as a group-by over standing rows.

module Aggregates {
  import opened Prelude
  import opened Events
  import opened Validation
  import opened Retraction
  import opened Positions

  /** An event joined with one of the objects it names. */
  datatype Row = Row(event: LedgerEvent, named: EventObject)

  function EventRows(e: LedgerEvent): seq<Row> {
    seq(|e.objects|, i requires 0 <= i < |e.objects| => Row(e, e.objects[i]))
  }

  /** The join over the events that stand, in book order. */
  function StandingRows(store: seq<LedgerEvent>, retracted: set<string>): seq<Row> {
    if store == [] then []
    else
      var e := store[|store| - 1];
      var before := StandingRows(store[..|store| - 1], retracted);
      if e.id in retracted then before else before + EventRows(e)
  }

  function Group(rows: seq<Row>, objectId: string): seq<Row> {
    if rows == [] then []
    else
      var before := Group(rows[..|rows| - 1], objectId);
      if rows[|rows| - 1].named.objectId == objectId then before + [rows[|rows| - 1]] else before
  }

  function ObjectIds(rows: seq<Row>): set<string> {
    set r | r in rows :: r.named.objectId
  }

  // ---- the columns ----

  function RowTally(rows: seq<Row>, objectId: string): Tally {
    if rows == [] then Tally(0, 0, 0, 0, 0, 0, 0, false, false)
    else
      var r := rows[|rows| - 1];
      PlusObject(RowTally(rows[..|rows| - 1], objectId), r.event, r.named, objectId)
  }

  function EventIds(rows: seq<Row>): set<string> {
    set r | r in rows :: r.event.id
  }

  predicate TypeBefore(a: ObjectType, b: ObjectType) {
    Less(ObjectTypeCode(a), ObjectTypeCode(b))
  }

  function GreatestType(rows: seq<Row>): ObjectType
    requires rows != []
  {
    var t := rows[|rows| - 1].named.objectType;
    if |rows| == 1 then t
    else
      var m := GreatestType(rows[..|rows| - 1]);
      if TypeBefore(m, t) then t else m
  }

  /** Starts from the epoch, as the source does. */
  function LatestOccurrence(rows: seq<Row>): int {
    if rows == [] then 0
    else
      var m, t := LatestOccurrence(rows[..|rows| - 1]), rows[|rows| - 1].event.occurredAt;
      if t > m then t else m
  }

  function EarliestRecording(rows: seq<Row>): int
    requires rows != []
  {
    var t := rows[|rows| - 1].event.recordedAt;
    if |rows| == 1 then t
    else
      var m := EarliestRecording(rows[..|rows| - 1]);
      if t < m then t else m
  }

  function Earlier(m: Option<int>, t: int): Option<int> {
    if m.None? || t < m.value then Some(t) else m
  }

  function EarliestOrigination(rows: seq<Row>): Option<int> {
    if rows == [] then None
    else
      var m, r := EarliestOrigination(rows[..|rows| - 1]), rows[|rows| - 1];
      if r.named.relation == Originates then Earlier(m, r.event.occurredAt) else m
  }

  function EarliestDue(rows: seq<Row>): Option<int> {
    if rows == [] then None
    else
      var m, r := EarliestDue(rows[..|rows| - 1]), rows[|rows| - 1];
      if r.named.relation == Originates && r.event.dueAt.Some? then Earlier(m, r.event.dueAt.value) else m
  }

  datatype PositionAggregate = PositionAggregate(
    objectId: string,
    objectType: ObjectType,
    currency: string,
    tally: Tally,
    eventCount: nat,
    lastEventAt: int,
    originatedAt: Option<int>,
    createdAt: int,
    dueAt: Option<int>)

  /** One aggregate per group, column by column. */
  function Aggregate(rows: seq<Row>): PositionAggregate
    requires rows != []
  {
    var objectId := rows[0].named.objectId;
    PositionAggregate(
      objectId, GreatestType(rows), rows[0].event.amount.currency, RowTally(rows, objectId),
      |EventIds(rows)|, LatestOccurrence(rows), EarliestOrigination(rows), EarliestRecording(rows), EarliestDue(rows))
  }

  // ---- the in-place build ----

  /** The entry a position starts from when its first row is met. */
  function Blank(r: Row): PositionAggregate {
    PositionAggregate(
      r.named.objectId, r.named.objectType, r.event.amount.currency, Tally(0, 0, 0, 0, 0, 0, 0, false, false),
      0, 0, None, r.event.recordedAt, None)
  }

  /** The entry while the rows `g` of its group have been read; the count is filled in at the end. */
  ghost function Partial(g: seq<Row>, next: Row): PositionAggregate {
    if g == [] then Blank(next) else Aggregate(g).(eventCount := 0)
  }

  lemma {:induction false} AggregateOfOneMore(g: seq<Row>, r: Row)
    requires g != [] ==> g[0].named.objectId == r.named.objectId
    ensures Aggregate(g + [r]).(eventCount := 0)
            == var p := Partial(g, r);
               PositionAggregate(
                 p.objectId,
                 if TypeBefore(p.objectType, r.named.objectType) then r.named.objectType else p.objectType,
                 p.currency,
                 PlusObject(p.tally, r.event, r.named, r.named.objectId),
                 0,
                 if r.event.occurredAt > p.lastEventAt then r.event.occurredAt else p.lastEventAt,
                 if r.named.relation == Originates then Earlier(p.originatedAt, r.event.occurredAt) else p.originatedAt,
                 if r.event.recordedAt < p.createdAt then r.event.recordedAt else p.createdAt,
                 if r.named.relation == Originates && r.event.dueAt.Some? then Earlier(p.dueAt, r.event.dueAt.value) else p.dueAt)
  {
    var rows := g + [r];
    assert rows[..|g|] == g;
    if g == [] {
      LessIsTotal(ObjectTypeCode(r.named.objectType), ObjectTypeCode(r.named.objectType));
      assert RowTally(g, r.named.objectId) == Tally(0, 0, 0, 0, 0, 0, 0, false, false);
      assert GreatestType(rows) == r.named.objectType && EarliestRecording(rows) == r.event.recordedAt;
      assert LatestOccurrence(g) == 0 && EarliestOrigination(g) == None && EarliestDue(g) == None;
    } else {
      assert rows[0] == g[0];
    }
  }

  /** The switch of `buildAggregateMap` on one row's relation. */
  method UpdateTally(before: Tally, event: LedgerEvent, obj: EventObject) returns (t: Tally)
    ensures t == PlusObject(before, event, obj, obj.objectId)
  {
    var units := event.amount.units;
    t := before;
    if DeclaresUnresolvedOrigin(event) { t := t.(hasUnresolvedLineage := true); }
    match obj.relation {
      case Originates => t := t.(originated := t.originated + units);
      case Settles =>
        t := t.(settled := t.settled + units);
        if event.effect == CashIn { t := t.(cashRecovered := t.cashRecovered + units); }
        if event.effect == NonCash { t := t.(nonCashClosed := t.nonCashClosed + units); }
      case Adjusts => t := t.(adjusted := t.adjusted + units);
      case Reverses => t := t.(hasReversal := true);
      case References =>
        if event.effect == CashIn { t := t.(refCashIn := t.refCashIn + units); }
        if event.effect == CashOut { t := t.(refCashOut := t.refCashOut + units); }
      case Retracts =>
    }
  }

  /** One row, applied to the entry of the position it names. */
  method UpdateEntry(entry: PositionAggregate, event: LedgerEvent, obj: EventObject, ghost g: seq<Row>)
    returns (agg: PositionAggregate)
    requires entry == Partial(g, Row(event, obj))
    requires g != [] ==> g[0].named.objectId == obj.objectId
    ensures agg == Aggregate(g + [Row(event, obj)]).(eventCount := 0)
  {
    AggregateOfOneMore(g, Row(event, obj));
    agg := entry;
    if TypeBefore(agg.objectType, obj.objectType) { agg := agg.(objectType := obj.objectType); }
    var t := UpdateTally(agg.tally, event, obj);
    agg := agg.(tally := t);
    if obj.relation == Originates {
      if agg.originatedAt.None? || event.occurredAt < agg.originatedAt.value {
        agg := agg.(originatedAt := Some(event.occurredAt));
      }
      if event.dueAt.Some? && (agg.dueAt.None? || event.dueAt.value < agg.dueAt.value) {
        agg := agg.(dueAt := event.dueAt);
      }
    }
    if event.occurredAt > agg.lastEventAt { agg := agg.(lastEventAt := event.occurredAt); }
    if event.recordedAt < agg.createdAt { agg := agg.(createdAt := event.recordedAt); }
  }

  lemma {:induction false} GroupOfOneMore(rows: seq<Row>, r: Row, objectId: string)
    ensures Group(rows + [r], objectId) == if r.named.objectId == objectId then Group(rows, objectId) + [r] else Group(rows, objectId)
  {
    assert (rows + [r])[..|rows|] == rows;
  }

  lemma {:induction false} GroupHolds(rows: seq<Row>, objectId: string)
    ensures forall r :: r in Group(rows, objectId) <==> r in rows && r.named.objectId == objectId
    ensures Group(rows, objectId) != [] <==> objectId in ObjectIds(rows)
  {
    if rows != [] {
      var n := |rows| - 1;
      GroupHolds(rows[..n], objectId);
      assert rows == rows[..n] + [rows[n]];
    }
  }

  /** The build, after the rows `rows`: a position's entry and the event ids seen for it. */
  ghost predicate BuiltAt(
    aggMap: map<string, PositionAggregate>, ids: map<string, set<string>>, rows: seq<Row>, objectId: string)
  {
    var g := Group(rows, objectId);
    && (objectId in aggMap <==> g != [])
    && (objectId in ids <==> g != [])
    && (g != [] ==> aggMap[objectId] == Aggregate(g).(eventCount := 0) && ids[objectId] == EventIds(g))
  }

  ghost predicate BuiltFrom(aggMap: map<string, PositionAggregate>, ids: map<string, set<string>>, rows: seq<Row>) {
    forall objectId :: BuiltAt(aggMap, ids, rows, objectId)
  }

  lemma {:induction false} GroupNamesItsObject(rows: seq<Row>, objectId: string)
    requires Group(rows, objectId) != []
    ensures Group(rows, objectId)[0].named.objectId == objectId
  {
    GroupHolds(rows, objectId);
    assert Group(rows, objectId)[0] in Group(rows, objectId);
  }

  lemma {:induction false} IdsOfOneMore(g: seq<Row>, r: Row)
    ensures EventIds(g + [r]) == EventIds(g) + {r.event.id}
  {
    assert forall x :: x in g + [r] <==> x in g || x == r;
  }

  lemma {:induction false} BuiltAtOthers(
      aggMap: map<string, PositionAggregate>, ids: map<string, set<string>>, rows: seq<Row>, r: Row,
      entry: PositionAggregate, seen: set<string>, other: string)
    requires BuiltAt(aggMap, ids, rows, other) && other != r.named.objectId
    ensures BuiltAt(aggMap[r.named.objectId := entry], ids[r.named.objectId := seen], rows + [r], other)
  {
    GroupOfOneMore(rows, r, other);
  }

  lemma {:induction false} BuiltFromOneMore(
      aggMap: map<string, PositionAggregate>, ids: map<string, set<string>>, rows: seq<Row>, r: Row,
      entry: PositionAggregate, seen: set<string>)
    requires BuiltFrom(aggMap, ids, rows)
    requires entry == Aggregate(Group(rows, r.named.objectId) + [r]).(eventCount := 0)
    requires seen == EventIds(Group(rows, r.named.objectId)) + {r.event.id}
    ensures BuiltFrom(aggMap[r.named.objectId := entry], ids[r.named.objectId := seen], rows + [r])
  {
    var oid := r.named.objectId;
    var aggMap', ids' := aggMap[oid := entry], ids[oid := seen];
    forall other ensures BuiltAt(aggMap', ids', rows + [r], other) {
      if other == oid {
        GroupOfOneMore(rows, r, oid);
        IdsOfOneMore(Group(rows, oid), r);
      } else {
        assert BuiltAt(aggMap, ids, rows, other);
        BuiltAtOthers(aggMap, ids, rows, r, entry, seen, other);
      }
    }
  }

  method AddRow(aggMap: map<string, PositionAggregate>, ids: map<string, set<string>>, event: LedgerEvent, obj: EventObject,
                ghost rows: seq<Row>)
    returns (aggMap': map<string, PositionAggregate>, ids': map<string, set<string>>)
    requires BuiltFrom(aggMap, ids, rows)
    ensures BuiltFrom(aggMap', ids', rows + [Row(event, obj)])
  {
    var oid := obj.objectId;
    var entry, seen := Blank(Row(event, obj)), {};
    assert BuiltAt(aggMap, ids, rows, oid);
    if oid in aggMap {
      entry, seen := aggMap[oid], ids[oid];
      GroupNamesItsObject(rows, oid);
    }
    entry := UpdateEntry(entry, event, obj, Group(rows, oid));
    seen := seen + {event.id};
    aggMap', ids' := aggMap[oid := entry], ids[oid := seen];
    BuiltFromOneMore(aggMap, ids, rows, Row(event, obj), entry, seen);
  }

  lemma {:induction false} BuiltEverywhere(aggMap: map<string, PositionAggregate>, ids: map<string, set<string>>, rows: seq<Row>)
    requires BuiltFrom(aggMap, ids, rows)
    ensures aggMap.Keys == ids.Keys
    ensures forall objectId :: objectId in aggMap <==> Group(rows, objectId) != []
    ensures forall objectId :: objectId in aggMap
              ==> aggMap[objectId] == Aggregate(Group(rows, objectId)).(eventCount := 0)
                  && ids[objectId] == EventIds(Group(rows, objectId))
  {
    forall objectId ensures BuiltAt(aggMap, ids, rows, objectId) {
    }
    forall objectId ensures objectId in aggMap.Keys <==> objectId in ids.Keys {
      assert BuiltAt(aggMap, ids, rows, objectId);
    }
    forall objectId ensures objectId in aggMap <==> Group(rows, objectId) != [] {
      assert BuiltAt(aggMap, ids, rows, objectId);
    }
    forall objectId | objectId in aggMap
      ensures aggMap[objectId] == Aggregate(Group(rows, objectId)).(eventCount := 0) && ids[objectId] == EventIds(Group(rows, objectId))
    {
      assert BuiltAt(aggMap, ids, rows, objectId);
    }
  }

  /** The last pass: each entry learns how many distinct events named its position. */
  method FillCounts(entries: map<string, PositionAggregate>, ids: map<string, set<string>>, ghost rows: seq<Row>)
    returns (aggMap: map<string, PositionAggregate>)
    requires BuiltFrom(entries, ids, rows)
    ensures forall objectId :: objectId in aggMap <==> Group(rows, objectId) != []
    ensures forall objectId :: objectId in aggMap ==> aggMap[objectId] == Aggregate(Group(rows, objectId))
  {
    BuiltEverywhere(entries, ids, rows);
    aggMap := entries;
    var pending := ids.Keys;
    while pending != {}
      invariant pending <= ids.Keys && aggMap.Keys == ids.Keys
      invariant forall objectId :: objectId in pending ==> objectId in entries && aggMap[objectId] == entries[objectId]
      invariant forall objectId :: objectId in aggMap ==> Group(rows, objectId) != []
      invariant forall objectId ::
        objectId in aggMap && objectId !in pending ==> aggMap[objectId] == Aggregate(Group(rows, objectId))
      decreases pending
    {
      var oid :| oid in pending;
      pending := pending - {oid};
      aggMap := aggMap[oid := aggMap[oid].(eventCount := |ids[oid]|)];
    }
  }

  /** The map built in place holds, for exactly the positions with a standing row, the group's aggregate. */
  method BuildAggregateMap(store: seq<LedgerEvent>) returns (aggMap: map<string, PositionAggregate>)
    ensures var rows := StandingRows(store, RetractedIds(store));
      && (forall objectId :: objectId in aggMap <==> Group(rows, objectId) != [])
      && (forall objectId :: objectId in aggMap ==> aggMap[objectId] == Aggregate(Group(rows, objectId)))
  {
    aggMap := map[];
    var eventIdsByObject: map<string, set<string>> := map[];
    var retracted := RetractedEventIds(store);
    for i := 0 to |store|
      invariant BuiltFrom(aggMap, eventIdsByObject, StandingRows(store[..i], retracted))
    {
      var event := store[i];
      assert store[..i + 1][..i] == store[..i];
      if event.id in retracted { continue; }
      ghost var before := StandingRows(store[..i], retracted);
      assert before + EventRows(event)[..0] == before;
      for j := 0 to |event.objects|
        invariant BuiltFrom(aggMap, eventIdsByObject, before + EventRows(event)[..j])
      {
        aggMap, eventIdsByObject := AddRow(aggMap, eventIdsByObject, event, event.objects[j], before + EventRows(event)[..j]);
        assert before + EventRows(event)[..j + 1] == before + EventRows(event)[..j] + [Row(event, event.objects[j])];
      }
      assert EventRows(event)[..|event.objects|] == EventRows(event);
    }
    assert store[..|store|] == store;
    aggMap := FillCounts(aggMap, eventIdsByObject, StandingRows(store, retracted));
  }

  // ---- what the columns mean ----

  lemma {:induction false} TypeOccurs(rows: seq<Row>)
    requires rows != []
    ensures exists r :: r in rows && r.named.objectType == GreatestType(rows)
  {
    var n := |rows| - 1;
    assert rows[n] in rows;
    if n > 0 {
      TypeOccurs(rows[..n]);
      var w :| w in rows[..n] && w.named.objectType == GreatestType(rows[..n]);
      assert w in rows;
    }
  }

  /** One step of a running maximum: `d` exceeds neither the old maximum nor, if it is the new one, `c`. */
  lemma {:induction false} MaximumStep(m: string, c: string, d: string)
    requires d == c || !Less(m, d)
    ensures !Less(if Less(m, c) then c else m, d)
  {
    LessIsTotal(c, d);
    LessIsTotal(m, d);
    if Less(m, c) && Less(c, d) {
      LessIsTransitive(m, c, d);
    }
  }

  lemma {:induction false} NoTypeIsGreater(rows: seq<Row>, r: Row)
    requires r in rows
    ensures !TypeBefore(GreatestType(rows), r.named.objectType)
  {
    var n := |rows| - 1;
    var t := rows[n].named.objectType;
    if n == 0 {
      LessIsTotal(ObjectTypeCode(t), ObjectTypeCode(t));
    } else {
      assert rows == rows[..n] + [rows[n]];
      if r != rows[n] {
        NoTypeIsGreater(rows[..n], r);
      }
      MaximumStep(ObjectTypeCode(GreatestType(rows[..n])), ObjectTypeCode(t), ObjectTypeCode(r.named.objectType));
    }
  }

  lemma {:induction false} RecordingIsTheEarliest(rows: seq<Row>)
    requires rows != []
    ensures exists r :: r in rows && r.event.recordedAt == EarliestRecording(rows)
    ensures forall r :: r in rows ==> EarliestRecording(rows) <= r.event.recordedAt
  {
    var n := |rows| - 1;
    assert rows[n] in rows;
    if n > 0 {
      RecordingIsTheEarliest(rows[..n]);
      assert rows == rows[..n] + [rows[n]];
      var w :| w in rows[..n] && w.event.recordedAt == EarliestRecording(rows[..n]);
      assert w in rows;
    }
  }

  lemma {:induction false} OriginationIsTheEarliest(rows: seq<Row>)
    ensures EarliestOrigination(rows).Some? <==> exists r :: r in rows && r.named.relation == Originates
    ensures EarliestOrigination(rows).Some? ==>
      && (exists r :: r in rows && r.named.relation == Originates && r.event.occurredAt == EarliestOrigination(rows).value)
      && (forall r :: r in rows && r.named.relation == Originates ==> EarliestOrigination(rows).value <= r.event.occurredAt)
  {
    if rows != [] {
      var n := |rows| - 1;
      OriginationIsTheEarliest(rows[..n]);
      assert rows == rows[..n] + [rows[n]];
      assert forall r :: r in rows <==> r in rows[..n] || r == rows[n];
    }
  }

  lemma {:induction false} DueIsTheEarliest(rows: seq<Row>)
    ensures EarliestDue(rows).Some? <==> exists r :: r in rows && r.named.relation == Originates && r.event.dueAt.Some?
    ensures EarliestDue(rows).Some? ==>
      && (exists r :: r in rows && r.named.relation == Originates && r.event.dueAt == EarliestDue(rows))
      && (forall r :: r in rows && r.named.relation == Originates && r.event.dueAt.Some?
                      ==> EarliestDue(rows).value <= r.event.dueAt.value)
  {
    if rows != [] {
      var n := |rows| - 1;
      DueIsTheEarliest(rows[..n]);
      assert rows == rows[..n] + [rows[n]];
      assert forall r :: r in rows <==> r in rows[..n] || r == rows[n];
    }
  }

  lemma {:induction false} OccurrenceIsTheLatest(rows: seq<Row>)
    ensures LatestOccurrence(rows) == 0 || exists r :: r in rows && r.event.occurredAt == LatestOccurrence(rows)
    ensures LatestOccurrence(rows) >= 0 && forall r :: r in rows ==> r.event.occurredAt <= LatestOccurrence(rows)
  {
    if rows != [] {
      var n := |rows| - 1;
      OccurrenceIsTheLatest(rows[..n]);
      assert rows == rows[..n] + [rows[n]];
      assert forall r :: r in rows <==> r in rows[..n] || r == rows[n];
    }
  }

  // ---- the sums are the book's figures ----

  lemma {:induction false} TallyOfRowsPlusEvent(rows: seq<Row>, e: LedgerEvent, j: nat, objectId: string)
    requires j <= |e.objects|
    ensures RowTally(rows + EventRows(e)[..j], objectId) == PlusTally(RowTally(rows, objectId), e, e.objects[..j], objectId)
  {
    if j == 0 {
      assert rows + EventRows(e)[..0] == rows;
    } else {
      TallyOfRowsPlusEvent(rows, e, j - 1, objectId);
      TallyOneMoreObject(RowTally(rows, objectId), e, e.objects, j - 1, objectId);
      var more := rows + EventRows(e)[..j];
      assert more[..|more| - 1] == rows + EventRows(e)[..j - 1];
      assert more[|more| - 1] == Row(e, e.objects[j - 1]);
    }
  }

  /** Summing standing rows is folding the book. */
  lemma {:induction false} TallyOfRowsIsTheFold(store: seq<LedgerEvent>, retracted: set<string>, objectId: string)
    ensures RowTally(StandingRows(store, retracted), objectId) == TallyWithout(store, retracted, objectId)
  {
    if store != [] {
      var n := |store| - 1;
      TallyOfRowsIsTheFold(store[..n], retracted, objectId);
      TallyOneMoreEvent(store, n, retracted, objectId);
      assert store[..n + 1] == store;
      if store[n].id !in retracted {
        TallyOfRowsPlusEvent(StandingRows(store[..n], retracted), store[n], |store[n].objects|, objectId);
        assert EventRows(store[n])[..|store[n].objects|] == EventRows(store[n]);
        assert store[n].objects[..|store[n].objects|] == store[n].objects;
      }
    }
  }

  /** Rows of other positions do not enter a position's sums. */
  lemma {:induction false} TallyOfGroup(rows: seq<Row>, objectId: string)
    ensures RowTally(Group(rows, objectId), objectId) == RowTally(rows, objectId)
  {
    if rows != [] {
      var n := |rows| - 1;
      TallyOfGroup(rows[..n], objectId);
      var g := Group(rows[..n], objectId);
      if rows[n].named.objectId == objectId {
        assert (g + [rows[n]])[..|g|] == g;
      }
    }
  }

  lemma {:induction false} AggregateTallyIsTheBooks(store: seq<LedgerEvent>, objectId: string)
    requires Group(StandingRows(store, RetractedIds(store)), objectId) != []
    ensures var agg := Aggregate(Group(StandingRows(store, RetractedIds(store)), objectId));
      agg.objectId == objectId && agg.tally == TallyOf(store, objectId)
  {
    var rows := StandingRows(store, RetractedIds(store));
    GroupNamesItsObject(rows, objectId);
    TallyOfGroup(rows, objectId);
    TallyOfRowsIsTheFold(store, RetractedIds(store), objectId);
  }

  // ---- the two read paths ----

  /** `aggregateToListItem`, as far as it publishes what `project` does. */
  function ListItemOf(agg: PositionAggregate): Summary {
    SummaryOf(agg.objectId, agg.tally)
  }

  /**
   * The projection of a position's own events and the list item of the whole-book aggregate publish the
   * same totals, status, open balance, over-settlement and outcome, on a single-currency position whose
   * retractions stay in scope.
   */
  lemma {:induction false} ProjectionAgreesWithAggregate(store: seq<LedgerEvent>, objectId: string)
    requires RetractionsAreOrderly(store)
    requires OneCurrency(Scope(store, objectId)) && RetractionsStayInScope(store, objectId)
    requires Group(StandingRows(store, RetractedIds(store)), objectId) != []
    ensures Scope(store, objectId) != []
    ensures var scope := Scope(store, objectId);
      && Summable(scope, RetractedIds(scope), objectId, scope[0].amount.currency)
      && SummaryOf(objectId, TallyOf(scope, objectId))
         == ListItemOf(Aggregate(Group(StandingRows(store, RetractedIds(store)), objectId)))
  {
    ScopeAgreesExactlyWhenRetractionsName(store, objectId);
    ScopeGivesTheBooksTally(store, objectId);
    AggregateTallyIsTheBooks(store, objectId);
    var rows := StandingRows(store, RetractedIds(store));
    GroupHolds(rows, objectId);
    var r := Group(rows, objectId)[0];
    assert r in Group(rows, objectId);
    RowsComeFromStandingEvents(store, RetractedIds(store), r);
    ScopeHolds(store, objectId);
    assert r.event in Scope(store, objectId);
  }

  lemma {:induction false} RowsComeFromStandingEvents(store: seq<LedgerEvent>, retracted: set<string>, r: Row)
    ensures r in StandingRows(store, retracted)
            <==> r.event in store && r.event.id !in retracted && r.named in r.event.objects
  {
    if store != [] {
      var n := |store| - 1;
      RowsComeFromStandingEvents(store[..n], retracted, r);
      assert store == store[..n] + [store[n]];
      var before := StandingRows(store[..n], retracted);
      if store[n].id !in retracted {
        var own := EventRows(store[n]);
        assert r in before + own <==> r in before || r in own;
        if r.event == store[n] && r.named in r.event.objects {
          var i :| 0 <= i < |r.event.objects| && r.event.objects[i] == r.named;
          assert own[i] == r;
        }
      }
    }
  }
}
