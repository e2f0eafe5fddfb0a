// The SQL read of all positions: `findPositionAggregates` and `statusToSql` of
// ledger/src/infra/persistence/typeorm/TypeOrmLedgerEventRepository.ts, as relational functions over rows.

module Pushdown {
  import opened Prelude
  import opened Events
  import opened Retraction
  import opened Figures
  import opened Positions
  import opened Aggregates
  import EventPayload
  import L = Ledger
  import W = Witnesses

  /** An empty selection is no filter; several values of one selection are read as OR. */
  datatype Options = Options(
    objectTypes: set<ObjectType>,
    statuses: set<PositionStatus>,
    from: Option<int>,
    to: Option<int>,
    partyIds: set<string>)

  // ---- the columns SQL computes differently ----

  function GreatestCurrency(rows: seq<Row>): string
    requires rows != []
  {
    var c := rows[|rows| - 1].event.amount.currency;
    if |rows| == 1 then c
    else
      var m := GreatestCurrency(rows[..|rows| - 1]);
      if Less(m, c) then c else m
  }

  /** MAX(occurred_at), with no epoch to start from. */
  function LatestOfRows(rows: seq<Row>): int
    requires rows != []
  {
    var t := rows[|rows| - 1].event.occurredAt;
    if |rows| == 1 then t
    else
      var m := LatestOfRows(rows[..|rows| - 1]);
      if t > m then t else m
  }

  function SqlAggregate(rows: seq<Row>): PositionAggregate
    requires rows != []
  {
    Aggregate(rows).(currency := GreatestCurrency(rows), lastEventAt := LatestOfRows(rows))
  }

  // ---- statusToSql ----

  predicate UnknownOriginSql(t: Tally) {
    t.originated == 0 && t.hasUnresolvedLineage
  }

  predicate StatusSql(status: PositionStatus, t: Tally) {
    var closed := t.settled + t.adjusted;
    match status
    case UnknownOrigination => !t.hasReversal && UnknownOriginSql(t)
    case Open => !t.hasReversal && !UnknownOriginSql(t) && (t.originated == 0 || closed == 0)
    case PartiallySettled => !t.hasReversal && t.originated > 0 && closed > 0 && closed < t.originated
    case FullySettled => !t.hasReversal && t.originated > 0 && closed >= t.originated
    case Reversed => t.hasReversal
  }

  /** The SQL predicates are the derived status, on totals that are sums of amounts. */
  lemma {:induction false} StatusSqlIsTheDerivedStatus(status: PositionStatus, t: Tally)
    requires t.originated >= 0 && t.settled >= 0 && t.adjusted >= 0
    ensures StatusSql(status, t) <==> StatusOf(t) == status
  {
    match status
    case UnknownOrigination =>
    case Open =>
    case PartiallySettled =>
    case FullySettled =>
    case Reversed =>
  }

  // ---- the two filter lists ----

  /** A semi-join on object identity: some standing row of the object satisfies it. */
  datatype CandidateFilter =
    | TypeIn(types: set<ObjectType>)
    | RecordedFrom(from: int)
    | RecordedTo(to: int)
    | PartyIn(partyIds: set<string>)

  /** A condition on the finished aggregate. */
  datatype Condition =
    | TypeIs(types: set<ObjectType>)
    | StatusIs(statuses: set<PositionStatus>)
    | CreatedFrom(from: int)
    | CreatedTo(to: int)

  predicate RowSatisfies(r: Row, f: CandidateFilter) {
    match f
    case TypeIn(types) => r.named.objectType in types
    case RecordedFrom(from) => r.event.recordedAt >= from
    case RecordedTo(to) => r.event.recordedAt <= to
    case PartyIn(partyIds) => exists p :: p in r.event.parties && p.partyId in partyIds
  }

  predicate AggregateSatisfies(agg: PositionAggregate, c: Condition) {
    match c
    case TypeIs(types) => agg.objectType in types
    case StatusIs(statuses) => exists s :: s in statuses && StatusSql(s, agg.tally)
    case CreatedFrom(from) => agg.createdAt >= from
    case CreatedTo(to) => agg.createdAt <= to
  }

  function CandidatesOf(o: Options): seq<CandidateFilter> {
    (if o.objectTypes != {} then [TypeIn(o.objectTypes)] else [])
    + (if o.from.Some? then [RecordedFrom(o.from.value)] else [])
    + (if o.to.Some? then [RecordedTo(o.to.value)] else [])
    + (if o.partyIds != {} then [PartyIn(o.partyIds)] else [])
  }

  function ConditionsOf(o: Options): seq<Condition> {
    (if o.objectTypes != {} then [TypeIs(o.objectTypes)] else [])
    + (if o.statuses != {} then [StatusIs(o.statuses)] else [])
    + (if o.from.Some? then [CreatedFrom(o.from.value)] else [])
    + (if o.to.Some? then [CreatedTo(o.to.value)] else [])
  }

  // ---- the query ----

  /** One independent semi-join per filter, never one row satisfying all of them. */
  ghost predicate IsCandidate(rows: seq<Row>, candidates: seq<CandidateFilter>, objectId: string) {
    forall f :: f in candidates ==> exists r :: r in rows && r.named.objectId == objectId && RowSatisfies(r, f)
  }

  ghost function Narrowed(rows: seq<Row>, candidates: seq<CandidateFilter>): set<string> {
    set id | id in ObjectIds(rows) && IsCandidate(rows, candidates, id)
  }

  function RowsOfObjects(rows: seq<Row>, keep: set<string>): seq<Row> {
    if rows == [] then []
    else
      var before := RowsOfObjects(rows[..|rows| - 1], keep);
      if rows[|rows| - 1].named.objectId in keep then before + [rows[|rows| - 1]] else before
  }

  function GroupAggregate(rows: seq<Row>, objectId: string): PositionAggregate
    requires objectId in ObjectIds(rows)
  {
    GroupHolds(rows, objectId);
    SqlAggregate(Group(rows, objectId))
  }

  ghost predicate Meets(agg: PositionAggregate, conditions: seq<Condition>) {
    forall c :: c in conditions ==> AggregateSatisfies(agg, c)
  }

  /** GROUP BY over some rows, then WHERE over the aggregates. */
  ghost function Query(rows: seq<Row>, conditions: seq<Condition>): map<string, PositionAggregate> {
    map id | id in ObjectIds(rows) && Meets(GroupAggregate(rows, id), conditions) :: GroupAggregate(rows, id)
  }

  /** The query as written: narrow the objects, aggregate what is left, filter the aggregates. */
  ghost function Pushed(rows: seq<Row>, o: Options): map<string, PositionAggregate> {
    Query(RowsOfObjects(rows, Narrowed(rows, CandidatesOf(o))), ConditionsOf(o))
  }

  /** Some standing event of the position names one of the parties, in any role. */
  predicate Involves(rows: seq<Row>, objectId: string, partyIds: set<string>) {
    exists r :: r in rows && r.named.objectId == objectId && exists p :: p in r.event.parties && p.partyId in partyIds
  }

  /** What the listing means: aggregate every standing row, then keep the positions that match. */
  ghost function Listed(rows: seq<Row>, o: Options): map<string, PositionAggregate> {
    map id | id in ObjectIds(rows)
        && Meets(GroupAggregate(rows, id), ConditionsOf(o)) && (o.partyIds != {} ==> Involves(rows, id, o.partyIds))
      :: GroupAggregate(rows, id)
  }

  // ---- narrowing first changes nothing ----

  lemma {:induction false} NarrowingKeepsGroupsWhole(rows: seq<Row>, keep: set<string>, objectId: string)
    ensures Group(RowsOfObjects(rows, keep), objectId) == if objectId in keep then Group(rows, objectId) else []
  {
    if rows != [] {
      var n := |rows| - 1;
      NarrowingKeepsGroupsWhole(rows[..n], keep, objectId);
      if rows[n].named.objectId in keep {
        GroupOfOneMore(RowsOfObjects(rows[..n], keep), rows[n], objectId);
      }
    }
  }

  /** MAX(type) is some row's type, MIN(recorded_at) some row's recording: each filter contains its condition. */
  lemma {:induction false} ConditionsImplyCandidacy(rows: seq<Row>, o: Options, objectId: string)
    requires objectId in ObjectIds(rows)
    requires Meets(GroupAggregate(rows, objectId), ConditionsOf(o))
    requires o.partyIds != {} ==> Involves(rows, objectId, o.partyIds)
    ensures IsCandidate(rows, CandidatesOf(o), objectId)
  {
    GroupHolds(rows, objectId);
    var g := Group(rows, objectId);
    TypeOccurs(g);
    RecordingIsTheEarliest(g);
    var agg := GroupAggregate(rows, objectId);
    forall f | f in CandidatesOf(o)
      ensures exists r :: r in rows && r.named.objectId == objectId && RowSatisfies(r, f)
    {
      match f {
        case TypeIn(types) =>
          assert TypeIs(types) in ConditionsOf(o);
          var r :| r in g && r.named.objectType == GreatestType(g);
          assert r in rows && RowSatisfies(r, f);
        case RecordedFrom(from) =>
          assert CreatedFrom(from) in ConditionsOf(o);
          var r :| r in g && r.event.recordedAt == EarliestRecording(g);
          assert r in rows && RowSatisfies(r, f);
        case RecordedTo(to) =>
          assert CreatedTo(to) in ConditionsOf(o);
          var r :| r in g && r.event.recordedAt == EarliestRecording(g);
          assert r in rows && RowSatisfies(r, f);
        case PartyIn(partyIds) =>
          var r :| r in rows && r.named.objectId == objectId && exists p :: p in r.event.parties && p.partyId in partyIds;
          assert RowSatisfies(r, f);
      }
    }
  }

  lemma {:induction false} CandidacyImpliesInvolvement(rows: seq<Row>, o: Options, objectId: string)
    requires o.partyIds != {} && IsCandidate(rows, CandidatesOf(o), objectId)
    ensures Involves(rows, objectId, o.partyIds)
  {
    var f := PartyIn(o.partyIds);
    assert f in CandidatesOf(o);
    var r :| r in rows && r.named.objectId == objectId && RowSatisfies(r, f);
  }

  /**
   * Narrowing by independent semi-joins on object identity before GROUP BY returns the same positions
   * with the same columns as aggregating every standing row and filtering afterwards.
   */
  lemma {:induction false} PushdownIsExact(rows: seq<Row>, o: Options)
    ensures Pushed(rows, o) == Listed(rows, o)
  {
    var keep := Narrowed(rows, CandidatesOf(o));
    var narrowed := RowsOfObjects(rows, keep);
    forall id ensures id in ObjectIds(narrowed) <==> id in keep {
      NarrowingKeepsGroupsWhole(rows, keep, id);
      GroupHolds(narrowed, id);
      GroupHolds(rows, id);
    }
    forall id | id in keep ensures GroupAggregate(narrowed, id) == GroupAggregate(rows, id) {
      NarrowingKeepsGroupsWhole(rows, keep, id);
    }
    forall id ensures id in Pushed(rows, o) <==> id in Listed(rows, o) {
      if id in Listed(rows, o) {
        ConditionsImplyCandidacy(rows, o, id);
      }
      if id in keep && o.partyIds != {} {
        CandidacyImpliesInvolvement(rows, o, id);
      }
    }
  }

  /** The filters as the query accumulates them: whatever the rows, they select what the listing means. */
  method Plan(o: Options) returns (candidates: seq<CandidateFilter>, conditions: seq<Condition>)
    ensures forall rows :: Query(RowsOfObjects(rows, Narrowed(rows, candidates)), conditions) == Listed(rows, o)
  {
    candidates, conditions := [], [];
    if o.objectTypes != {} {
      candidates := candidates + [TypeIn(o.objectTypes)];
      conditions := conditions + [TypeIs(o.objectTypes)];
    }
    if o.statuses != {} {
      conditions := conditions + [StatusIs(o.statuses)];
    }
    if o.from.Some? {
      candidates := candidates + [RecordedFrom(o.from.value)];
      conditions := conditions + [CreatedFrom(o.from.value)];
    }
    if o.to.Some? {
      candidates := candidates + [RecordedTo(o.to.value)];
      conditions := conditions + [CreatedTo(o.to.value)];
    }
    if o.partyIds != {} {
      candidates := candidates + [PartyIn(o.partyIds)];
    }
    assert candidates == CandidatesOf(o) && conditions == ConditionsOf(o);
    forall rows ensures Query(RowsOfObjects(rows, Narrowed(rows, candidates)), conditions) == Listed(rows, o) {
      PushdownIsExact(rows, o);
    }
  }

  // ---- what is listed, position by position ----

  lemma {:induction false} ConditionsMean(agg: PositionAggregate, o: Options)
    requires agg.tally.originated >= 0 && agg.tally.settled >= 0 && agg.tally.adjusted >= 0
    ensures Meets(agg, ConditionsOf(o)) <==>
      && (o.objectTypes == {} || agg.objectType in o.objectTypes)
      && (o.statuses == {} || StatusOf(agg.tally) in o.statuses)
      && (o.from.None? || o.from.value <= agg.createdAt)
      && (o.to.None? || agg.createdAt <= o.to.value)
  {
    forall status ensures StatusSql(status, agg.tally) <==> StatusOf(agg.tally) == status {
      StatusSqlIsTheDerivedStatus(status, agg.tally);
    }
    var conditions := ConditionsOf(o);
    if Meets(agg, conditions) {
      assert o.objectTypes != {} ==> TypeIs(o.objectTypes) in conditions;
      assert o.statuses != {} ==> StatusIs(o.statuses) in conditions;
      assert o.from.Some? ==> CreatedFrom(o.from.value) in conditions;
      assert o.to.Some? ==> CreatedTo(o.to.value) in conditions;
    }
  }

  /** Some standing event of the book names the position. */
  ghost predicate IsNamed(store: seq<LedgerEvent>, objectId: string) {
    exists e :: e in store && e.id !in RetractedIds(store) && Names(e, objectId)
  }

  /** Some standing event that names the position has one of the parties, in any role. */
  ghost predicate IsInvolved(store: seq<LedgerEvent>, objectId: string, partyIds: set<string>) {
    exists e :: e in store && e.id !in RetractedIds(store) && Names(e, objectId) && HasParty(e, partyIds)
  }

  predicate HasParty(e: LedgerEvent, partyIds: set<string>) {
    exists p :: p in e.parties && p.partyId in partyIds
  }

  lemma {:induction false} NamedHasARow(store: seq<LedgerEvent>, e: LedgerEvent, objectId: string) returns (r: Row)
    requires e in store && e.id !in RetractedIds(store) && Names(e, objectId)
    ensures r in StandingRows(store, RetractedIds(store)) && r.event == e && r.named.objectId == objectId
  {
    var o :| o in e.objects && o.objectId == objectId;
    r := Row(e, o);
    RowsComeFromStandingEvents(store, RetractedIds(store), r);
  }

  lemma {:induction false} RowsAreNamed(store: seq<LedgerEvent>, r: Row)
    requires r in StandingRows(store, RetractedIds(store))
    ensures r.event in store && r.event.id !in RetractedIds(store) && Names(r.event, r.named.objectId)
  {
    RowsComeFromStandingEvents(store, RetractedIds(store), r);
  }

  lemma {:induction false} NamedIsGrouped(store: seq<LedgerEvent>, objectId: string)
    ensures Group(StandingRows(store, RetractedIds(store)), objectId) != [] <==> IsNamed(store, objectId)
  {
    var rows := StandingRows(store, RetractedIds(store));
    GroupHolds(rows, objectId);
    if IsNamed(store, objectId) {
      var e :| e in store && e.id !in RetractedIds(store) && Names(e, objectId);
      var r := NamedHasARow(store, e, objectId);
    }
    if objectId in ObjectIds(rows) {
      var r :| r in rows && r.named.objectId == objectId;
      RowsAreNamed(store, r);
    }
  }

  lemma {:induction false} InvolvedIsInvolved(store: seq<LedgerEvent>, objectId: string, partyIds: set<string>)
    ensures Involves(StandingRows(store, RetractedIds(store)), objectId, partyIds) <==> IsInvolved(store, objectId, partyIds)
  {
    var rows := StandingRows(store, RetractedIds(store));
    if IsInvolved(store, objectId, partyIds) {
      var e :| e in store && e.id !in RetractedIds(store) && Names(e, objectId) && HasParty(e, partyIds);
      var r := NamedHasARow(store, e, objectId);
    }
    if Involves(rows, objectId, partyIds) {
      var r :| r in rows && r.named.objectId == objectId && exists p :: p in r.event.parties && p.partyId in partyIds;
      RowsAreNamed(store, r);
      assert HasParty(r.event, partyIds);
    }
  }

  /**
   * What the listing of a book means for one position: some standing event names it; its type, which no row of it
   * exceeds, is asked for; the status its standing events give it is asked for; its earliest recording lies in the
   * period; and one of the parties asked for takes part in it. A filter left empty asks for nothing.
   */
  lemma {:induction false} PositionsAreListedExactly(store: seq<LedgerEvent>, o: Options, objectId: string)
    ensures var rows := StandingRows(store, RetractedIds(store));
      var g := Group(rows, objectId);
      (objectId in Listed(rows, o) <==>
        && IsNamed(store, objectId) && g != []
        && (o.objectTypes == {} || GreatestType(g) in o.objectTypes)
        && (o.statuses == {} || StatusOf(TallyOf(store, objectId)) in o.statuses)
        && (o.from.None? || o.from.value <= EarliestRecording(g))
        && (o.to.None? || EarliestRecording(g) <= o.to.value)
        && (o.partyIds == {} || IsInvolved(store, objectId, o.partyIds)))
  {
    var rows := StandingRows(store, RetractedIds(store));
    GroupHolds(rows, objectId);
    NamedIsGrouped(store, objectId);
    InvolvedIsInvolved(store, objectId, o.partyIds);
    if objectId in ObjectIds(rows) {
      AggregateTallyIsTheBooks(store, objectId);
      BookSumsAreNatural(store, objectId);
      ConditionsMean(GroupAggregate(rows, objectId), o);
    }
  }

  lemma {:induction false} BookSumsAreNatural(store: seq<LedgerEvent>, objectId: string)
    ensures var t := TallyOf(store, objectId); t.originated >= 0 && t.settled >= 0 && t.adjusted >= 0
  {
    SharesAreNatural(store, RetractedIds(store), Originated(objectId));
    SharesAreNatural(store, RetractedIds(store), Settled(objectId));
    SharesAreNatural(store, RetractedIds(store), Adjusted(objectId));
  }

  /** And what it shows of it are the figures of the whole book. */
  lemma {:induction false} ListedPositionsShowTheBooksFigures(store: seq<LedgerEvent>, o: Options, objectId: string)
    requires objectId in Listed(StandingRows(store, RetractedIds(store)), o)
    ensures var agg := Listed(StandingRows(store, RetractedIds(store)), o)[objectId];
      agg.objectId == objectId && agg.tally == TallyOf(store, objectId)
  {
    var rows := StandingRows(store, RetractedIds(store));
    GroupHolds(rows, objectId);
    AggregateTallyIsTheBooks(store, objectId);
  }

  /** The events counted of a position are the standing ones that name it, each once. */
  lemma {:induction false} EventsAreCountedOnce(store: seq<LedgerEvent>, objectId: string, id: string)
    requires IsNamed(store, objectId)
    ensures var g := Group(StandingRows(store, RetractedIds(store)), objectId);
      && (id in EventIds(g) <==> exists e :: e in store && e.id !in RetractedIds(store) && Names(e, objectId) && e.id == id)
      && g != [] && Aggregate(g).eventCount == |EventIds(g)|
  {
    var rows := StandingRows(store, RetractedIds(store));
    NamedIsGrouped(store, objectId);
    GroupHolds(rows, objectId);
    if id in EventIds(Group(rows, objectId)) {
      var r :| r in Group(rows, objectId) && r.event.id == id;
      RowsAreNamed(store, r);
    }
    if exists e :: e in store && e.id !in RetractedIds(store) && Names(e, objectId) && e.id == id {
      var e :| e in store && e.id !in RetractedIds(store) && Names(e, objectId) && e.id == id;
      var r := NamedHasARow(store, e, objectId);
      assert r in Group(rows, objectId);
    }
  }

  // ---- what a single combined semi-join would lose ----

  /** The rejected form: one row that satisfies every filter at once. */
  ghost function PushedCombined(rows: seq<Row>, o: Options): map<string, PositionAggregate> {
    var keep := set id | id in ObjectIds(rows)
        && exists r :: r in rows && r.named.objectId == id && forall f :: f in CandidatesOf(o) ==> RowSatisfies(r, f);
    Query(RowsOfObjects(rows, keep), ConditionsOf(o))
  }

  /** A position typed as an advance by an event recorded early and as a loan by one recorded late. */
  ghost function EarlyAndLate(e: LedgerEvent, objectId: string): seq<Row> {
    [Row(e.(recordedAt := 1), EventObject(objectId, Advance, Settles)),
     Row(e.(recordedAt := 5), EventObject(objectId, Loan, Originates))]
  }

  /** Loans that entered the book by instant 3. */
  const EARLY_LOANS: Options := Options({Loan}, {}, None, Some(3), {})

  lemma {:induction false} EarlyAndLateColumns(e: LedgerEvent, objectId: string)
    ensures var rows := EarlyAndLate(e, objectId);
      Group(rows, objectId) == rows && EarliestRecording(rows) == 1 && GreatestType(rows) == Loan
  {
    var rows := EarlyAndLate(e, objectId);
    var early := [rows[0]];
    assert rows[..1] == early && early[..0] == [];
    assert Group(early, objectId) == early;
    assert "advance"[0] < "loan"[0];
    assert EarliestRecording(early) == 1 && GreatestType(early) == Advance;
  }

  lemma {:induction false} EarlyLoanIsListed(e: LedgerEvent, objectId: string)
    ensures objectId in Listed(EarlyAndLate(e, objectId), EARLY_LOANS)
  {
    var rows := EarlyAndLate(e, objectId);
    EarlyAndLateColumns(e, objectId);
    assert rows[0] in rows && objectId in ObjectIds(rows);
    assert ConditionsOf(EARLY_LOANS) == [TypeIs({Loan}), CreatedTo(3)];
    var agg := GroupAggregate(rows, objectId);
    assert AggregateSatisfies(agg, TypeIs({Loan})) && AggregateSatisfies(agg, CreatedTo(3));
  }

  lemma {:induction false} NoRowIsAnEarlyLoan(e: LedgerEvent, objectId: string)
    ensures forall r :: r in EarlyAndLate(e, objectId) ==> exists f :: f in CandidatesOf(EARLY_LOANS) && !RowSatisfies(r, f)
  {
    assert CandidatesOf(EARLY_LOANS) == [TypeIn({Loan}), RecordedTo(3)];
    assert TypeIn({Loan}) in CandidatesOf(EARLY_LOANS) && RecordedTo(3) in CandidatesOf(EARLY_LOANS);
    forall r | r in EarlyAndLate(e, objectId) ensures !RowSatisfies(r, TypeIn({Loan})) || !RowSatisfies(r, RecordedTo(3)) {
    }
  }

  /** The position belongs in the listing, and the combined form drops it. */
  lemma {:induction false} OneCombinedSemiJoinLosesPositions(e: LedgerEvent, objectId: string)
    ensures objectId in Listed(EarlyAndLate(e, objectId), EARLY_LOANS)
    ensures objectId !in PushedCombined(EarlyAndLate(e, objectId), EARLY_LOANS)
  {
    var rows, o := EarlyAndLate(e, objectId), EARLY_LOANS;
    EarlyLoanIsListed(e, objectId);
    NoRowIsAnEarlyLoan(e, objectId);
    var keep := set id | id in ObjectIds(rows)
        && exists r :: r in rows && r.named.objectId == id && forall f :: f in CandidatesOf(o) ==> RowSatisfies(r, f);
    assert objectId !in keep;
    NarrowingKeepsGroupsWhole(rows, keep, objectId);
    GroupHolds(RowsOfObjects(rows, keep), objectId);
  }

  // ---- the two repositories ----

  lemma {:induction false} OneCurrencyOnly(rows: seq<Row>, currency: string)
    requires rows != [] && forall r :: r in rows ==> r.event.amount.currency == currency
    ensures GreatestCurrency(rows) == currency
  {
    assert rows[|rows| - 1] in rows;
    if |rows| > 1 {
      OneCurrencyOnly(rows[..|rows| - 1], currency);
    }
  }

  lemma {:induction false} LatestAgrees(rows: seq<Row>)
    requires rows != []
    ensures LatestOccurrence(rows) == if LatestOfRows(rows) > 0 then LatestOfRows(rows) else 0
  {
    if |rows| > 1 {
      LatestAgrees(rows[..|rows| - 1]);
    } else {
      assert rows[..0] == [];
    }
  }

  /**
   * The SQL aggregate of a single-currency position is the in-memory one exactly when some event of it
   * occurred at the epoch or later: the in-memory fold of the latest occurrence starts from the epoch.
   */
  lemma {:induction false} RepositoriesAgree(rows: seq<Row>)
    requires rows != [] && forall r :: r in rows ==> r.event.amount.currency == rows[0].event.amount.currency
    ensures SqlAggregate(rows) == Aggregate(rows) <==> exists r :: r in rows && r.event.occurredAt >= 0
  {
    OneCurrencyOnly(rows, rows[0].event.amount.currency);
    LatestAgrees(rows);
    LatestIsSomeRows(rows);
    var w :| w in rows && w.event.occurredAt == LatestOfRows(rows);
  }

  // ---- a book on which they differ ----

  /** An accrual that occurred a millisecond before the epoch. */
  function EarlyStep(): L.Step {
    L.Step(W.CommandOf(W.Accrual(W.P, 100), 1).(occurredAt := -1), W.Name(1), 0)
  }

  lemma {:induction false} TheEarlyStepIsRecorded(env: EventPayload.Env) returns (e: LedgerEvent)
    ensures L.Run(env, [EarlyStep()]) == [e]
    ensures e.occurredAt == -1 && e.objects == [W.Receivable(W.P, Originates)] && !IsRetraction(e)
  {
    var p := W.Accrual(W.P, 100);
    var c := EarlyStep().command;
    W.CommandAsksFor(p, 1);
    W.OriginationPasses([], p);
    W.TheNextNameIsNew([], [], p);
    EarlyPasses(c, p);
    e := W.PlainCommits(env, [], c, p, W.Name(1), 0);
    assert [EarlyStep()][..0] == [];
  }

  lemma {:induction false} EarlyPasses(c: L.Command, p: W.Plain)
    requires W.AsksFor(c, p) && p == W.Accrual(W.P, 100)
    ensures L.GuardRefusal([], c, p.units).None?
  {
    W.PlainPasses([], c, p);
  }

  lemma {:induction false} RowsOfOneEvent(e: LedgerEvent, o: EventObject)
    requires e.objects == [o] && !IsRetraction(e)
    ensures Group(StandingRows([e], RetractedIds([e])), o.objectId) == [Row(e, o)]
  {
    assert [e][..0] == [];
    assert RetractionMap([e]) == map[];
    var rows := StandingRows([e], RetractedIds([e]));
    assert rows == EventRows(e) == [Row(e, o)];
    assert rows[..0] == [];
  }

  /** A book of one event, recorded by the write step, on which the two repositories differ. */
  lemma {:induction false} BeforeTheEpochTheyDiffer(env: EventPayload.Env)
    ensures var store := L.Run(env, [EarlyStep()]);
      var rows := Group(StandingRows(store, RetractedIds(store)), W.P);
      rows != [] && SqlAggregate(rows) != Aggregate(rows)
  {
    var e := TheEarlyStepIsRecorded(env);
    var o := W.Receivable(W.P, Originates);
    RowsOfOneEvent(e, o);
    assert [Row(e, o)][0] == Row(e, o);
    RepositoriesAgree([Row(e, o)]);
  }

  lemma {:induction false} LatestIsSomeRows(rows: seq<Row>)
    requires rows != []
    ensures exists r :: r in rows && r.event.occurredAt == LatestOfRows(rows)
    ensures forall r :: r in rows ==> r.event.occurredAt <= LatestOfRows(rows)
  {
    var n := |rows| - 1;
    assert rows[n] in rows;
    if n > 0 {
      LatestIsSomeRows(rows[..n]);
      assert rows == rows[..n] + [rows[n]];
      var w :| w in rows[..n] && w.event.occurredAt == LatestOfRows(rows[..n]);
      assert w in rows;
    }
  }
}
