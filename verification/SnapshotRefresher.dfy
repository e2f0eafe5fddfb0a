// The cache of positions and the sweep that keeps it honest:
// treasury/src/core/application/services/PositionSnapshot.ts and SnapshotRefresher.ts.

module SnapshotRefresher {
  import opened Prelude

  const PAGE_SIZE: nat := 100

  const MAX_PAGES: nat := 20

  datatype RecordedEvent = RecordedEvent(eventId: string, objectIds: set<string>)

  datatype PositionItem = PositionItem(objectId: string, figures: string)

  /** A remembered answer. Its age is counted in events recorded by the time the Ledger gave it. */
  datatype Entry = Entry(position: PositionItem, asOf: nat)

  // ---- the cache ----

  function Remembered(entries: map<string, Entry>, positions: seq<PositionItem>, asOf: nat): map<string, Entry> {
    if positions == [] then entries
    else
      var p := positions[|positions| - 1];
      Remembered(entries, positions[..|positions| - 1], asOf)[p.objectId := Entry(p, asOf)]
  }

  /** A position is remembered as it was answered last, as old as the answer. */
  lemma {:induction false} AnswersAreRemembered(entries: map<string, Entry>, positions: seq<PositionItem>, asOf: nat, i: nat)
    requires i < |positions| && forall j :: i < j < |positions| ==> positions[j].objectId != positions[i].objectId
    ensures positions[i].objectId in Remembered(entries, positions, asOf)
    ensures Remembered(entries, positions, asOf)[positions[i].objectId] == Entry(positions[i], asOf)
  {
    if i < |positions| - 1 {
      AnswersAreRemembered(entries, positions[..|positions| - 1], asOf, i);
    }
  }

  /** What was not answered is kept as it was. */
  lemma {:induction false} OtherEntriesAreKept(entries: map<string, Entry>, positions: seq<PositionItem>, asOf: nat, objectId: string)
    requires forall p :: p in positions ==> p.objectId != objectId
    ensures objectId in Remembered(entries, positions, asOf) <==> objectId in entries
    ensures objectId in entries ==> Remembered(entries, positions, asOf)[objectId] == entries[objectId]
  {
    if positions != [] {
      var n := |positions| - 1;
      assert positions[n] in positions;
      OtherEntriesAreKept(entries, positions[..n], asOf, objectId);
    }
  }

  class PositionSnapshot {
    var byObjectId: map<string, Entry>

    constructor ()
      ensures byObjectId == map[]
    {
      byObjectId := map[];
    }

    method Remember(positions: seq<PositionItem>, asOf: nat)
      modifies this
      ensures byObjectId == Remembered(old(byObjectId), positions, asOf)
    {
      for i := 0 to |positions|
        invariant byObjectId == Remembered(old(byObjectId), positions[..i], asOf)
      {
        assert positions[..i + 1][..i] == positions[..i];
        byObjectId := byObjectId[positions[i].objectId := Entry(positions[i], asOf)];
      }
      assert positions[..|positions|] == positions;
    }

    method Invalidate(objectId: string)
      modifies this
      ensures byObjectId == old(byObjectId) - {objectId}
    {
      byObjectId := byObjectId - {objectId};
    }

    method InvalidateAll(objectIds: set<string>)
      modifies this
      ensures byObjectId == old(byObjectId) - objectIds
    {
      var pending := objectIds;
      while pending != {}
        invariant pending <= objectIds
        invariant byObjectId == old(byObjectId) - (objectIds - pending)
        decreases pending
      {
        var objectId :| objectId in pending;
        pending := pending - {objectId};
        byObjectId := byObjectId - {objectId};
      }
    }

    method Clear()
      modifies this
      ensures byObjectId == map[]
    {
      byObjectId := map[];
    }
  }

  // ---- the world around a sweep ----

  /** What other code does while the sweep awaits a page: events are recorded, answers remembered or forgotten. */
  datatype Action =
    | Record(event: RecordedEvent)
    | Read(positions: seq<PositionItem>)
    | Forget(objectId: string)

  datatype World = World(log: seq<RecordedEvent>, entries: map<string, Entry>)

  function Act(w: World, a: Action): World {
    match a
    case Record(event) => w.(log := w.log + [event])
    case Read(positions) => w.(entries := Remembered(w.entries, positions, |w.log|))
    case Forget(objectId) => w.(entries := w.entries - {objectId})
  }

  function ActAll(w: World, actions: seq<Action>): World {
    if actions == [] then w else Act(ActAll(w, actions[..|actions| - 1]), actions[|actions| - 1])
  }

  lemma {:induction false} ActAllInTurn(w: World, a: seq<Action>, b: seq<Action>)
    ensures ActAll(w, a + b) == ActAll(ActAll(w, a), b)
  {
    if b == [] {
      assert a + b == a;
    } else {
      var n := |b| - 1;
      ActAllInTurn(w, a, b[..n]);
      assert (a + b)[..|a + b| - 1] == a + b[..n];
    }
  }

  /** A script's actions, batch after batch. */
  function Flat(script: seq<seq<Action>>): seq<Action> {
    if script == [] then [] else script[0] + Flat(script[1..])
  }

  ghost predicate UniqueEvents(log: seq<RecordedEvent>) {
    forall i, j :: 0 <= i < j < |log| ==> log[i].eventId != log[j].eventId
  }

  /** The log only grew, and an entry that is new or changed was read no earlier than `w`. */
  ghost predicate Evolved(w: World, v: World) {
    && w.log <= v.log
    && forall id :: id in v.entries
         ==> v.entries[id].asOf <= |v.log|
             && ((id in w.entries && v.entries[id] == w.entries[id]) || v.entries[id].asOf >= |w.log|)
  }

  ghost predicate ReadInThePast(w: World) {
    forall id :: id in w.entries ==> w.entries[id].asOf <= |w.log|
  }

  lemma {:induction false} RememberedEntries(entries: map<string, Entry>, positions: seq<PositionItem>, asOf: nat)
    ensures var after := Remembered(entries, positions, asOf);
      forall id :: id in after ==> (id in entries && after[id] == entries[id]) || after[id].asOf == asOf
  {
    if positions != [] {
      RememberedEntries(entries, positions[..|positions| - 1], asOf);
    }
  }

  lemma {:induction false} ActionsEvolve(w: World, actions: seq<Action>)
    requires ReadInThePast(w)
    ensures Evolved(w, ActAll(w, actions)) && ReadInThePast(ActAll(w, actions))
  {
    if actions != [] {
      var n := |actions| - 1;
      var v := ActAll(w, actions[..n]);
      ActionsEvolve(w, actions[..n]);
      if actions[n].Read? {
        RememberedEntries(v.entries, actions[n].positions, |v.log|);
      }
    }
  }

  // ---- the feed ----

  /** The newest-first listing, by recording order, cut into pages. */
  function PageOf(log: seq<RecordedEvent>, limit: nat, page: nat): seq<RecordedEvent>
    requires page >= 1
  {
    var skip := (page - 1) * limit;
    if skip >= |log| then []
    else
      var hi := |log| - skip;
      var lo := if hi > limit then hi - limit else 0;
      seq(hi - lo, i requires 0 <= i < hi - lo => log[hi - 1 - i])
  }

  /** The Ledger and everyone else, between two page reads: a script of actions per read. */
  class LedgerEventFeed {
    var log: seq<RecordedEvent>
    var script: seq<seq<Action>>
    const snapshot: PositionSnapshot

    constructor (snapshot: PositionSnapshot, script: seq<seq<Action>>)
      ensures this.snapshot == snapshot && this.script == script && log == []
    {
      this.snapshot := snapshot;
      this.script := script;
      log := [];
    }

    ghost function Current(): World
      reads this, snapshot
    {
      World(log, snapshot.byObjectId)
    }

    /** What happens before the next page is answered. */
    ghost function Next(): seq<Action>
      reads this
    {
      if script == [] then [] else script[0]
    }

    /** Identities stay unique whatever the script records. */
    ghost predicate Valid()
      reads this, snapshot
    {
      ReadInThePast(Current()) && UniqueEvents(log + Recorded(script))
    }

    method Perform(action: Action)
      modifies this`log, snapshot
      ensures Current() == Act(old(Current()), action)
    {
      match action {
        case Record(event) => log := log + [event];
        case Read(positions) => snapshot.Remember(positions, |log|);
        case Forget(objectId) => snapshot.Invalidate(objectId);
      }
    }

    /** One page read: first whatever else happens meanwhile, then the page as the log stands by then. */
    method RecentlyRecorded(limit: nat, page: nat) returns (events: seq<RecordedEvent>)
      requires Valid() && page >= 1
      modifies this, snapshot
      ensures Valid() && UniqueEvents(log)
      ensures Current() == ActAll(old(Current()), old(Next()))
      ensures Flat(old(script)) == old(Next()) + Flat(script)
      ensures Evolved(old(Current()), Current())
      ensures events == PageOf(log, limit, page)
    {
      ghost var before := Current();
      if script != [] {
        var batch := script[0];
        RecordedBatches(script);
        ActionsEvolve(before, batch);
        for i := 0 to |batch|
          invariant Current() == ActAll(before, batch[..i])
          invariant script == old(script)
        {
          assert batch[..i + 1][..i] == batch[..i];
          Perform(batch[i]);
        }
        assert batch[..|batch|] == batch;
        LogAfter(before, batch);
        assert old(log) + Recorded(script) == log + Recorded(script[1..]);
        script := script[1..];
      }
      UniquePrefix(log, Recorded(script));
      events := PageOf(log, limit, page);
    }
  }

  /** The events a batch records, in order; and those of a whole script. */
  function RecordedBy(actions: seq<Action>): seq<RecordedEvent> {
    if actions == [] then []
    else
      var a := actions[|actions| - 1];
      RecordedBy(actions[..|actions| - 1]) + (if a.Record? then [a.event] else [])
  }

  function Recorded(script: seq<seq<Action>>): seq<RecordedEvent> {
    if script == [] then [] else RecordedBy(script[0]) + Recorded(script[1..])
  }

  lemma {:induction false} RecordedBatches(script: seq<seq<Action>>)
    requires script != []
    ensures Recorded(script) == RecordedBy(script[0]) + Recorded(script[1..])
  {
  }

  lemma {:induction false} LogAfter(w: World, actions: seq<Action>)
    ensures ActAll(w, actions).log == w.log + RecordedBy(actions)
  {
    if actions != [] {
      LogAfter(w, actions[..|actions| - 1]);
    }
  }

  lemma {:induction false} RecordedInTurn(a: seq<Action>, b: seq<Action>)
    ensures RecordedBy(a + b) == RecordedBy(a) + RecordedBy(b)
  {
    if b == [] {
      assert a + b == a;
    } else {
      RecordedInTurn(a, b[..|b| - 1]);
      assert (a + b)[..|a + b| - 1] == a + b[..|b| - 1];
    }
  }

  lemma {:induction false} UniquePrefix(log: seq<RecordedEvent>, more: seq<RecordedEvent>)
    requires UniqueEvents(log + more)
    ensures UniqueEvents(log)
  {
    forall i, j | 0 <= i < j < |log| ensures log[i].eventId != log[j].eventId {
      assert (log + more)[i].eventId != (log + more)[j].eventId;
    }
  }

  // ---- what honest means ----

  /** No entry's position was touched by an event recorded since its read, up to event `c`. */
  ghost predicate FreshUpTo(w: World, c: int) {
    forall id, k :: id in w.entries && w.entries[id].asOf <= k <= c && 0 <= k < |w.log| ==> id !in w.log[k].objectIds
  }

  ghost predicate CursorIsAt(log: seq<RecordedEvent>, cursor: Option<string>, c: int) {
    cursor.Some? && 0 <= c < |log| && log[c].eventId == cursor.value
  }

  function NewestOf(log: seq<RecordedEvent>): Option<string> {
    if log == [] then None else Some(log[|log| - 1].eventId)
  }

  /** The cursor is an event of the log, and every entry is fresh up to it. */
  ghost predicate HonestAt(w: World, cursor: Option<string>, c: int) {
    CursorIsAt(w.log, cursor, c) && FreshUpTo(w, c)
  }

  /** Recording, reading and forgetting between sweeps never make the cache dishonest. */
  lemma {:induction false} HonestyOutlivesActions(w: World, actions: seq<Action>, cursor: Option<string>, c: int)
    requires ReadInThePast(w) && HonestAt(w, cursor, c)
    ensures HonestAt(ActAll(w, actions), cursor, c)
  {
    ActionsEvolve(w, actions);
    var v := ActAll(w, actions);
    forall id, k | id in v.entries && v.entries[id].asOf <= k <= c && 0 <= k < |v.log| ensures id !in v.log[k].objectIds {
      assert v.log[k] == w.log[k];
    }
  }

  // ---- the sweep ----

  datatype Forgotten = These(ids: set<string>) | Everything

  datatype RefreshOutcome = RefreshOutcome(invalidated: Forgotten, gaveUp: bool)

  /** Where a page starts and ends in the log. */
  lemma {:induction false} PageCovers(log: seq<RecordedEvent>, page: nat, k: int)
    requires page >= 1
    requires |log| - page * PAGE_SIZE <= k < |log| - (page - 1) * PAGE_SIZE && 0 <= k
    ensures var events := PageOf(log, PAGE_SIZE, page);
      var i := |log| - (page - 1) * PAGE_SIZE - 1 - k;
      0 <= i < |events| && events[i] == log[k]
  {
    assert (page - 1) * PAGE_SIZE + PAGE_SIZE == page * PAGE_SIZE;
  }

  /** The walk never runs out of pages before it meets the cursor. */
  lemma {:induction false} PageIsNotEmpty(log: seq<RecordedEvent>, page: nat, c: int)
    requires page >= 1 && 0 <= c < |log| - (page - 1) * PAGE_SIZE
    ensures |PageOf(log, PAGE_SIZE, page)| > 0
  {
  }

  lemma {:induction false} PageIsFromTheLog(log: seq<RecordedEvent>, page: nat, i: nat)
    requires page >= 1 && i < |PageOf(log, PAGE_SIZE, page)|
    ensures var k := |log| - (page - 1) * PAGE_SIZE - 1 - i;
      0 <= k < |log| && PageOf(log, PAGE_SIZE, page)[i] == log[k]
  {
  }

  /** Some event before the cursor on the page names the position. */
  ghost predicate ScannedFor(events: seq<RecordedEvent>, cursor: Option<string>, id: string) {
    exists i :: 0 <= i < |events| && id in events[i].objectIds && forall j :: 0 <= j <= i ==> Some(events[j].eventId) != cursor
  }

  /** What the scan of a page leaves: the positions of every event before the cursor, and no others, were added. */
  ghost predicate Scanned(events: seq<RecordedEvent>, cursor: Option<string>, touched: set<string>, after: set<string>, reached: bool) {
    && touched <= after
    && (reached <==> exists i :: 0 <= i < |events| && Some(events[i].eventId) == cursor)
    && (forall i :: 0 <= i < |events| && (forall j :: 0 <= j <= i ==> Some(events[j].eventId) != cursor)
          ==> events[i].objectIds <= after)
    && forall id :: id in after - touched ==> ScannedFor(events, cursor, id)
  }

  /** The inner loop over one page: it stops at the cursor. */
  method ScanPage(events: seq<RecordedEvent>, cursor: Option<string>, touched: set<string>)
    returns (after: set<string>, reached: bool)
    ensures Scanned(events, cursor, touched, after, reached)
  {
    after, reached := touched, false;
    for i := 0 to |events|
      invariant touched <= after
      invariant forall id :: id in after - touched ==> ScannedFor(events, cursor, id)
      invariant forall j :: 0 <= j < i ==> Some(events[j].eventId) != cursor && events[j].objectIds <= after
    {
      if Some(events[i].eventId) == cursor { return after, true; }
      after := after + events[i].objectIds;
    }
  }

  /** Events of the log from `low` up to `newest`, and above the cursor, have their positions in `touched`. */
  ghost predicate Walked(log: seq<RecordedEvent>, c: int, low: int, newest: int, touched: set<string>) {
    forall k :: c < k && low <= k < newest && 0 <= k < |log| ==> log[k].objectIds <= touched
  }

  /** Every position in `touched` is named by an event above the cursor. */
  ghost predicate OnlyAbove(log: seq<RecordedEvent>, c: int, touched: set<string>) {
    forall id :: id in touched ==> NamedAbove(log, c, id)
  }

  ghost predicate NamedAbove(log: seq<RecordedEvent>, c: int, id: string) {
    exists k :: c < k < |log| && 0 <= k && id in log[k].objectIds
  }

  /** What was scanned before the cursor on a page is above it in the log. */
  lemma {:induction false} ScannedIsAbove(log: seq<RecordedEvent>, cursor: Option<string>, c: int, page: nat, id: string)
    requires CursorIsAt(log, cursor, c) && page >= 1
    requires c < |log| - (page - 1) * PAGE_SIZE && ScannedFor(PageOf(log, PAGE_SIZE, page), cursor, id)
    ensures NamedAbove(log, c, id)
  {
    var events := PageOf(log, PAGE_SIZE, page);
    var i :| 0 <= i < |events| && id in events[i].objectIds && forall j :: 0 <= j <= i ==> Some(events[j].eventId) != cursor;
    PageIsFromTheLog(log, page, i);
    var top := |log| - (page - 1) * PAGE_SIZE;
    var k := top - 1 - i;
    NotScannedAt(log, cursor, c, page, i, top - 1 - c);
    assert c < k < |log|;
  }

  /** No event scanned before the cursor is the cursor's. */
  lemma {:induction false} NotScannedAt(log: seq<RecordedEvent>, cursor: Option<string>, c: int, page: nat, i: nat, j: int)
    requires CursorIsAt(log, cursor, c) && page >= 1 && i < |PageOf(log, PAGE_SIZE, page)|
    requires forall j :: 0 <= j <= i ==> Some(PageOf(log, PAGE_SIZE, page)[j].eventId) != cursor
    requires j == |log| - (page - 1) * PAGE_SIZE - 1 - c
    ensures !(0 <= j <= i)
  {
    if 0 <= j <= i {
      PageIsFromTheLog(log, page, j);
      assert false;
    }
  }

  /** The log only grows, so what was above the cursor stays above it. */
  lemma {:induction false} AboveStaysAbove(w: World, v: World, c: int, touched: set<string>)
    requires Evolved(w, v) && OnlyAbove(w.log, c, touched)
    ensures OnlyAbove(v.log, c, touched)
  {
    forall id | id in touched ensures NamedAbove(v.log, c, id) {
      var k :| c < k < |w.log| && 0 <= k && id in w.log[k].objectIds;
      assert v.log[k] == w.log[k];
    }
  }

  /** One more page joins what was walked before it without a gap, however the log grew in between. */
  lemma {:induction false} OneMorePage(
      log: seq<RecordedEvent>, cursor: Option<string>, c: int, page: nat, low: int, newest: int,
      touched: set<string>, after: set<string>, reached: bool)
    requires UniqueEvents(log) && CursorIsAt(log, cursor, c)
    requires page >= 1 && newest <= |log| && c < low <= |log| - (page - 1) * PAGE_SIZE
    requires Walked(log, c, low, newest, touched) && touched <= after
    requires var events := PageOf(log, PAGE_SIZE, page);
      && (reached <==> exists i :: 0 <= i < |events| && Some(events[i].eventId) == cursor)
      && (forall i :: 0 <= i < |events| && (forall j :: 0 <= j <= i ==> Some(events[j].eventId) != cursor)
            ==> events[i].objectIds <= after)
    ensures !reached ==> c < |log| - page * PAGE_SIZE
    ensures Walked(log, c, |log| - page * PAGE_SIZE, newest, after)
    ensures reached ==> Walked(log, c, c, newest, after)
  {
    var events := PageOf(log, PAGE_SIZE, page);
    var top := |log| - (page - 1) * PAGE_SIZE;
    var bottom := |log| - page * PAGE_SIZE;
    assert bottom + PAGE_SIZE == top;
    if c >= bottom {
      PageCovers(log, page, c);
      assert Some(events[top - 1 - c].eventId) == cursor;
    }
    forall k | c < k && bottom <= k < newest && 0 <= k < |log| ensures log[k].objectIds <= after {
      if k < low {
        AboveTheCursor(log, cursor, c, page, k, after);
      }
    }
    if reached {
      var i :| 0 <= i < |events| && Some(events[i].eventId) == cursor;
      PageIsFromTheLog(log, page, i);
      assert c == top - 1 - i;
    }
  }

  /** An event on the page and above the cursor was scanned before the cursor was met. */
  lemma {:induction false} AboveTheCursor(log: seq<RecordedEvent>, cursor: Option<string>, c: int, page: nat, k: int, after: set<string>)
    requires UniqueEvents(log) && CursorIsAt(log, cursor, c) && page >= 1
    requires c < k && |log| - page * PAGE_SIZE <= k < |log| - (page - 1) * PAGE_SIZE && 0 <= k
    requires var events := PageOf(log, PAGE_SIZE, page);
      forall i :: 0 <= i < |events| && (forall j :: 0 <= j <= i ==> Some(events[j].eventId) != cursor)
        ==> events[i].objectIds <= after
    ensures log[k].objectIds <= after
  {
    var events := PageOf(log, PAGE_SIZE, page);
    PageCovers(log, page, k);
    var i := |log| - (page - 1) * PAGE_SIZE - 1 - k;
    forall j | 0 <= j <= i ensures Some(events[j].eventId) != cursor {
      PageIsFromTheLog(log, page, j);
    }
  }

  /** Where the walk stands before page `page`: everything above `low` and above the cursor is in `touched`. */
  ghost predicate Walking(
      start: World, w: World, cursor: Option<string>, c: int, page: nat, low: int, newest: int,
      touched: set<string>, newestSeen: Option<string>)
  {
    && page >= 1
    && Evolved(start, w)
    && |start.log| <= newest <= |w.log| && CursorIsAt(w.log, cursor, c)
    && (newestSeen.Some? ==> CursorIsAt(w.log, newestSeen, newest - 1))
    && (newestSeen.None? ==> page == 1 && newest == low == |w.log|)
    && c < low <= |w.log| - (page - 1) * PAGE_SIZE
    && Walked(w.log, c, low, newest, touched) && OnlyAbove(w.log, c, touched)
  }

  /** What one turn leaves: the cursor was met with everything above it touched, or the walk stands one page on. */
  ghost predicate TurnDone(
      start: World, v: World, cursor: Option<string>, c: int, page: nat, newest: int, touched: set<string>, newestSeen: Option<string>, stop: bool)
  {
    && newestSeen.Some? && Evolved(start, v)
    && |start.log| <= newest <= |v.log| && CursorIsAt(v.log, newestSeen, newest - 1)
    && (stop ==> Walked(v.log, c, c, newest, touched)) && OnlyAbove(v.log, c, touched)
    && (!stop ==> Walking(start, v, cursor, c, page + 1, |v.log| - page * PAGE_SIZE, newest, touched, newestSeen))
  }

  lemma {:induction false} OnePageWalked(
      start: World, w: World, v: World, cursor: Option<string>, c: int, page: nat, low: int, newest: int,
      touched: set<string>, newestSeen: Option<string>, after: set<string>, stop: bool)
    returns (newestEnd: int)
    requires Walking(start, w, cursor, c, page, low, newest, touched, newestSeen)
    requires Evolved(w, v) && Evolved(start, v) && UniqueEvents(v.log)
    requires Scanned(PageOf(v.log, PAGE_SIZE, page), cursor, touched, after, stop) && |PageOf(v.log, PAGE_SIZE, page)| > 0
    ensures var first := Some(PageOf(v.log, PAGE_SIZE, page)[0].eventId);
      TurnDone(start, v, cursor, c, page, newestEnd, after, if newestSeen.Some? then newestSeen else first, stop)
  {
    var bottom;
    if newestSeen.Some? {
      newestEnd, bottom := newest, low;
    } else {
      newestEnd, bottom := |v.log|, |v.log|;
      PageIsFromTheLog(v.log, page, 0);
    }
    assert Walked(v.log, c, bottom, newestEnd, touched);
    AboveStaysAbove(w, v, c, touched);
    OnlyAboveAfter(v.log, cursor, c, page, touched, after, stop);
    OnePageMore(v.log, cursor, c, page, bottom, newestEnd, touched, after, stop);
  }

  lemma {:induction false} OnlyAboveAfter(log: seq<RecordedEvent>, cursor: Option<string>, c: int, page: nat, touched: set<string>, after: set<string>, stop: bool)
    requires CursorIsAt(log, cursor, c) && page >= 1 && c < |log| - (page - 1) * PAGE_SIZE && OnlyAbove(log, c, touched)
    requires Scanned(PageOf(log, PAGE_SIZE, page), cursor, touched, after, stop)
    ensures OnlyAbove(log, c, after)
  {
    forall id | id in after ensures NamedAbove(log, c, id) {
      if id !in touched {
        ScannedIsAbove(log, cursor, c, page, id);
      }
    }
  }

  lemma {:induction false} OnePageMore(
      log: seq<RecordedEvent>, cursor: Option<string>, c: int, page: nat, low: int, newest: int,
      touched: set<string>, after: set<string>, stop: bool)
    requires UniqueEvents(log) && CursorIsAt(log, cursor, c)
    requires page >= 1 && newest <= |log| && c < low <= |log| - (page - 1) * PAGE_SIZE
    requires Walked(log, c, low, newest, touched) && Scanned(PageOf(log, PAGE_SIZE, page), cursor, touched, after, stop)
    ensures !stop ==> c < |log| - page * PAGE_SIZE && Walked(log, c, |log| - page * PAGE_SIZE, newest, after)
    ensures stop ==> Walked(log, c, c, newest, after)
  {
    OneMorePage(log, cursor, c, page, low, newest, touched, after, stop);
  }

  class SnapshotRefresher {
    var cursor: Option<string>
    const feed: LedgerEventFeed
    const snapshot: PositionSnapshot

    constructor (feed: LedgerEventFeed)
      ensures this.feed == feed && snapshot == feed.snapshot && cursor == None
    {
      this.feed := feed;
      this.snapshot := feed.snapshot;
      cursor := None;
    }

    ghost predicate Honest()
      reads this, feed, feed.snapshot
    {
      exists c :: HonestAt(feed.Current(), cursor, c)
    }

    /** What was performed since the walk began, and what of the script is left. */
    ghost predicate InStep(start: World, script: seq<Action>, performed: seq<Action>)
      reads this, feed, feed.snapshot
    {
      feed.Current() == ActAll(start, performed) && script == performed + Flat(feed.script)
    }

    /** One page read, in step with the script. */
    method NextPage(ghost start: World, ghost script: seq<Action>, ghost before: seq<Action>, page: nat)
      returns (events: seq<RecordedEvent>, ghost performed: seq<Action>)
      requires feed.Valid() && snapshot == feed.snapshot && page >= 1 && InStep(start, script, before)
      modifies feed, snapshot
      ensures feed.Valid() && UniqueEvents(feed.log) && Evolved(old(feed.Current()), feed.Current())
      ensures performed == before + old(feed.Next()) && InStep(start, script, performed)
      ensures events == PageOf(feed.log, PAGE_SIZE, page)
    {
      performed := before + feed.Next();
      ActAllInTurn(start, before, feed.Next());
      events := feed.RecentlyRecorded(PAGE_SIZE, page);
      assert performed + Flat(feed.script) == before + (old(feed.Next()) + Flat(feed.script));
    }

    /**
     * One turn of the walk: read a page, note its first event if none was seen before, scan it.
     * `tracked` says that the cursor is known to be an event of the log, at `c`.
     */
    method WalkOnePage(ghost tracked: bool, ghost start: World, ghost script: seq<Action>, ghost before: seq<Action>,
        ghost c: int, page: nat, ghost low: int, ghost newest: int, touched: set<string>, newestSeen: Option<string>)
      returns (after: set<string>, newestAfter: Option<string>, stop: bool, ghost newestEnd: int, ghost performed: seq<Action>)
      requires feed.Valid() && snapshot == feed.snapshot && page >= 1
      requires InStep(start, script, before)
      requires tracked ==> Walking(start, feed.Current(), cursor, c, page, low, newest, touched, newestSeen)
      modifies feed, snapshot
      ensures feed.Valid() && performed == before + old(feed.Next()) && InStep(start, script, performed)
      ensures newestSeen.None? && page == 1 ==> newestAfter == NewestOf(feed.log)
      ensures tracked ==> TurnDone(start, feed.Current(), cursor, c, page, newestEnd, after, newestAfter, stop)
    {
      ghost var w := feed.Current();
      var events, actions := NextPage(start, script, before, page);
      newestAfter, newestEnd, performed := newestSeen, newest, actions;
      if tracked {
        EvolvedTwice(start, w, feed.Current());
        PageIsNotEmpty(feed.log, page, c);
      }
      if |events| == 0 { return touched, newestAfter, true, newestEnd, performed; }
      if newestSeen.None? { newestAfter := Some(events[0].eventId); }
      after, stop := ScanPage(events, cursor, touched);
      if tracked {
        newestEnd := OnePageWalked(start, w, feed.Current(), cursor, c, page, low, newest, touched, newestSeen, after, stop);
      }
    }

    /** The walk back to the cursor. `newest` is one past the newest event seen, on the first page. */
    method WalkBack(ghost tracked: bool, ghost c: int)
      returns (touched: set<string>, newestSeen: Option<string>, reached: bool, ghost newest: int, ghost performed: seq<Action>)
      requires feed.Valid() && snapshot == feed.snapshot
      requires tracked ==> CursorIsAt(feed.log, cursor, c)
      modifies feed, snapshot
      ensures feed.Valid()
      ensures feed.Current() == ActAll(old(feed.Current()), performed)
      ensures Flat(old(feed.script)) == performed + Flat(feed.script)
      ensures cursor.None? ==> reached && newestSeen == NewestOf(feed.log) && performed == old(feed.Next())
      ensures tracked ==>
        && |old(feed.log)| <= newest <= |feed.log| && CursorIsAt(feed.log, newestSeen, newest - 1)
        && (reached ==> Walked(feed.log, c, c, newest, touched)) && OnlyAbove(feed.log, c, touched)
        && (!reached ==> c + MAX_PAGES * PAGE_SIZE < |feed.log|)
    {
      touched, newestSeen, reached := {}, None, cursor.None?;
      ghost var start, script := feed.Current(), Flat(feed.script);
      ghost var low;
      newest, low, performed := |feed.log|, |feed.log|, [];
      for page := 1 to MAX_PAGES + 1
        invariant feed.Valid() && reached == cursor.None?
        invariant InStep(start, script, performed)
        invariant cursor.None? ==> page == 1 && performed == [] && feed.script == old(feed.script)
        invariant page == 1 ==> newestSeen.None?
        invariant tracked ==> Walking(start, feed.Current(), cursor, c, page, low, newest, touched, newestSeen)
        invariant tracked && page > 1 ==> newestSeen.Some?
      {
        var stop;
        touched, newestSeen, stop, newest, performed :=
          WalkOnePage(tracked, start, script, performed, c, page, low, newest, touched, newestSeen);
        if stop { reached := true; }
        if reached { break; }
        low := |feed.log| - page * PAGE_SIZE;
      }
    }

    /**
     * One sweep. Whatever is recorded, read or forgotten between its page reads is `performed`; the first sweep
     * takes its bearings and forgets nothing, a later one forgets what it walked over or everything. If the cache
     * was honest, it is: no entry is left whose position was touched by an event between its read and the newest
     * event seen, and that event is no older than the sweep.
     */
    method Refresh() returns (outcome: RefreshOutcome, ghost performed: seq<Action>, ghost newest: int)
      requires feed.Valid() && snapshot == feed.snapshot
      modifies this`cursor, feed, snapshot
      ensures feed.Valid() && Flat(old(feed.script)) == performed + Flat(feed.script)
      ensures feed.Current() == Remaining(ActAll(old(feed.Current()), performed), outcome)
      ensures old(cursor).None? ==>
        && outcome == RefreshOutcome(These({}), false) && cursor == NewestOf(feed.log)
        && performed == old(feed.Next())
      ensures old(cursor).None? && cursor.Some? ==>
        (Honest() <==> old(NothingIsLeftStale(feed.Current(), feed.Next())))
      ensures forall c :: CursorIsAt(old(feed.log), old(cursor), c) ==>
        Swept(old(feed.Current()), c, performed, feed.Current(), cursor, newest, outcome)
      ensures old(Honest()) ==> Honest() && |old(feed.log)| <= newest && HonestAt(feed.Current(), cursor, newest - 1)
    {
      ghost var tracked := exists c :: CursorIsAt(feed.log, cursor, c);
      ghost var c := 0;
      if tracked { c :| CursorIsAt(feed.log, cursor, c); }
      ghost var start, before := feed.Current(), cursor;
      UniquePrefix(feed.log, Recorded(feed.script));
      OneCursor(feed.log, cursor);
      var touched, newestSeen, reached, n, actions := WalkBack(tracked, c);
      newest, performed := n, actions;
      if cursor.None? {
        cursor := newestSeen;
        outcome := RefreshOutcome(These({}), false);
        UniquePrefix(feed.log, Recorded(feed.script));
        BearingsAreHonest(start, performed);
        return;
      }
      if !reached {
        var size := |snapshot.byObjectId|;
        snapshot.Clear();
        cursor := newestSeen;
        outcome := RefreshOutcome(if size > 0 then Everything else These({}), true);
      } else {
        snapshot.InvalidateAll(touched);
        if newestSeen.Some? { cursor := newestSeen; }
        outcome := RefreshOutcome(These(touched), false);
      }
      if tracked {
        assert Swept(start, c, performed, feed.Current(), cursor, newest, outcome);
        HonestyOutlivesTheSweep(start, before, c, performed, feed.Current(), cursor, newest, outcome);
      }
    }

    /** Right after the first sweep the cache is honest exactly when nothing was left stale by then. */
    lemma {:induction false} BearingsAreHonest(start: World, performed: seq<Action>)
      requires ReadInThePast(start) && feed.Current() == ActAll(start, performed)
      requires UniqueEvents(feed.log) && cursor == NewestOf(feed.log)
      ensures cursor.Some? ==> (Honest() <==> NothingIsLeftStale(start, performed))
    {
      if cursor.Some? {
        var w := feed.Current();
        assert CursorIsAt(w.log, cursor, |w.log| - 1);
        OneCursor(w.log, cursor);
        assert Honest() <==> HonestAt(w, cursor, |w.log| - 1);
        FreshnessIsForeseen(start, performed);
      }
    }
  }

  /** What a sweep leaves of the cache. */
  function Remaining(w: World, outcome: RefreshOutcome): World {
    w.(entries := if outcome.gaveUp || outcome.invalidated.Everything? then map[] else w.entries - outcome.invalidated.ids)
  }

  /** A sweep from a cursor at `c`: it gave up on more than the bound, or forgot what it walked over and no more. */
  ghost predicate Swept(
      w: World, c: int, performed: seq<Action>, v: World, next: Option<string>, newest: int, outcome: RefreshOutcome)
  {
    && v == Remaining(ActAll(w, performed), outcome)
    && |w.log| <= newest <= |v.log| && CursorIsAt(v.log, next, newest - 1)
    && (outcome.gaveUp ==> c + MAX_PAGES * PAGE_SIZE < |v.log|)
    && (!outcome.gaveUp ==>
          && outcome.invalidated.These?
          && Walked(v.log, c, c, newest, outcome.invalidated.ids) && OnlyAbove(v.log, c, outcome.invalidated.ids))
  }

  lemma {:induction false} OneCursor(log: seq<RecordedEvent>, cursor: Option<string>)
    requires UniqueEvents(log)
    ensures forall c, d :: CursorIsAt(log, cursor, c) && CursorIsAt(log, cursor, d) ==> c == d
  {
  }

  lemma {:induction false} HonestyOutlivesTheSweep(
      w: World, cursor: Option<string>, c: int, performed: seq<Action>, v: World, next: Option<string>, newest: int, outcome: RefreshOutcome)
    requires ReadInThePast(w) && CursorIsAt(w.log, cursor, c) && Swept(w, c, performed, v, next, newest, outcome)
    ensures HonestAt(w, cursor, c) ==> HonestAt(v, next, newest - 1)
  {
    var walked := ActAll(w, performed);
    ActionsEvolve(w, performed);
    if HonestAt(w, cursor, c) && !outcome.gaveUp {
      ForgettingTheTouchedIsEnough(w, walked, c, newest, outcome.invalidated.ids);
    }
  }

  lemma {:induction false} EvolvedTwice(u: World, v: World, w: World)
    requires Evolved(u, v) && Evolved(v, w)
    ensures Evolved(u, w)
  {
  }

  /** Fresh up to the old cursor, and everything above it forgotten: fresh up to the newest event seen. */
  lemma {:induction false} ForgettingTheTouchedIsEnough(start: World, w: World, c: int, newest: int, touched: set<string>)
    requires Evolved(start, w) && FreshUpTo(start, c) && 0 <= c < |start.log|
    requires Walked(w.log, c, c, newest, touched)
    ensures FreshUpTo(World(w.log, w.entries - touched), newest - 1)
  {
    var v := World(w.log, w.entries - touched);
    forall id, k | id in v.entries && v.entries[id].asOf <= k <= newest - 1 && 0 <= k < |v.log| ensures id !in v.log[k].objectIds {
      assert id in w.entries && w.entries[id] == v.entries[id];
      if k <= c {
        assert w.log[k] == start.log[k];
      }
    }
  }

  // ---- what the first sweep finds ----

  /** How the cache stands on one position, at the head of the log. */
  datatype Memory = Absent | Current | Stale

  ghost function MemoryOf(w: World, id: string): Memory {
    if id !in w.entries then Absent
    else if exists k :: w.entries[id].asOf <= k < |w.log| && id in w.log[k].objectIds then Stale
    else Current
  }

  predicate Reads(positions: seq<PositionItem>, id: string) {
    exists p :: p in positions && p.objectId == id
  }

  /** What one action does to it: a touch makes it stale, a read current, a forgetting absent. */
  function Recall(m: Memory, a: Action, id: string): Memory {
    match a
    case Record(event) => if m == Current && id in event.objectIds then Stale else m
    case Read(positions) => if Reads(positions, id) then Current else m
    case Forget(objectId) => if objectId == id then Absent else m
  }

  function RecallAll(m: Memory, actions: seq<Action>, id: string): Memory {
    if actions == [] then m else Recall(RecallAll(m, actions[..|actions| - 1], id), actions[|actions| - 1], id)
  }

  /**
   * No position ends stale: what is stale before, or read and then touched, is read again or forgotten. Over an
   * empty cache: no answer is read, then touched, and then neither read again nor forgotten.
   */
  ghost predicate NothingIsLeftStale(w: World, actions: seq<Action>) {
    forall id :: RecallAll(MemoryOf(w, id), actions, id) != Stale
  }

  lemma {:induction false} RememberedAnswers(entries: map<string, Entry>, positions: seq<PositionItem>, asOf: nat, id: string)
    ensures var after := Remembered(entries, positions, asOf);
      if Reads(positions, id) then id in after && after[id].asOf == asOf
      else (id in after <==> id in entries) && (id in after ==> after[id] == entries[id])
  {
    if positions != [] {
      var n := |positions| - 1;
      RememberedAnswers(entries, positions[..n], asOf, id);
      assert positions == positions[..n] + [positions[n]];
      assert positions[n].objectId == id ==> Reads(positions, id);
    }
  }

  lemma {:induction false} MemoryFollowsOne(w: World, a: Action, id: string)
    requires ReadInThePast(w)
    ensures MemoryOf(Act(w, a), id) == Recall(MemoryOf(w, id), a, id)
  {
    var v := Act(w, a);
    match a
    case Record(event) =>
      if id in w.entries {
        assert v.log[|w.log|] == event;
        if exists k :: w.entries[id].asOf <= k < |w.log| && id in w.log[k].objectIds {
          var k :| w.entries[id].asOf <= k < |w.log| && id in w.log[k].objectIds;
          assert v.log[k] == w.log[k];
        }
      }
    case Read(positions) => RememberedAnswers(w.entries, positions, |w.log|, id);
    case Forget(_) =>
  }

  lemma {:induction false} MemoryFollows(w: World, actions: seq<Action>, id: string)
    requires ReadInThePast(w)
    ensures MemoryOf(ActAll(w, actions), id) == RecallAll(MemoryOf(w, id), actions, id)
  {
    if actions != [] {
      var n := |actions| - 1;
      MemoryFollows(w, actions[..n], id);
      ActionsEvolve(w, actions[..n]);
      MemoryFollowsOne(ActAll(w, actions[..n]), actions[n], id);
    }
  }

  /** Whether the cache will be fresh is decided by the cache before and the actions to come. */
  lemma {:induction false} FreshnessIsForeseen(w: World, actions: seq<Action>)
    requires ReadInThePast(w)
    ensures var v := ActAll(w, actions);
      FreshUpTo(v, |v.log| - 1) <==> NothingIsLeftStale(w, actions)
  {
    var v := ActAll(w, actions);
    forall id ensures RecallAll(MemoryOf(w, id), actions, id) == MemoryOf(v, id) {
      MemoryFollows(w, actions, id);
    }
    FreshMeansNothingStale(v);
  }

  lemma {:induction false} FreshMeansNothingStale(v: World)
    ensures FreshUpTo(v, |v.log| - 1) <==> forall id :: MemoryOf(v, id) != Stale
  {
    if forall id :: MemoryOf(v, id) != Stale {
      forall id, k | id in v.entries && v.entries[id].asOf <= k <= |v.log| - 1 && 0 <= k < |v.log| ensures id !in v.log[k].objectIds {
        assert MemoryOf(v, id) != Stale;
      }
    }
  }

  // ---- every later sweep ----

  /** The state between two sweeps. */
  datatype Moment = Moment(world: World, cursor: Option<string>)

  ghost predicate IsHonest(m: Moment) {
    exists c :: HonestAt(m.world, m.cursor, c)
  }

  /** A stale answer that no event after the cursor's names. */
  ghost predicate Dormant(w: World, cursor: Option<string>, id: string) {
    id in w.entries && exists c :: CursorIsAt(w.log, cursor, c) && DormantAt(w, c, id)
  }

  ghost predicate DormantAt(w: World, c: int, id: string) {
    && id in w.entries
    && (exists k :: w.entries[id].asOf <= k <= c && k < |w.log| && id in w.log[k].objectIds)
    && forall k :: c < k < |w.log| && 0 <= k ==> id !in w.log[k].objectIds
  }

  predicate Mentions(a: Action, id: string) {
    match a
    case Record(event) => id in event.objectIds
    case Read(positions) => Reads(positions, id)
    case Forget(objectId) => objectId == id
  }

  ghost predicate Unmentioned(actions: seq<Action>, id: string) {
    forall a :: a in actions ==> !Mentions(a, id)
  }

  /** Actions that do not mention a position leave its entry alone, and record nothing that names it. */
  lemma {:induction false} UnmentionedIsLeftAlone(w: World, actions: seq<Action>, id: string)
    requires Unmentioned(actions, id)
    ensures var v := ActAll(w, actions);
      && w.log <= v.log
      && (id in v.entries <==> id in w.entries) && (id in w.entries ==> v.entries[id] == w.entries[id])
      && forall k :: |w.log| <= k < |v.log| ==> id !in v.log[k].objectIds
  {
    if actions != [] {
      var n := |actions| - 1;
      UnmentionedIsLeftAlone(w, actions[..n], id);
      assert !Mentions(actions[n], id);
      if actions[n].Read? {
        var v := ActAll(w, actions[..n]);
        RememberedAnswers(v.entries, actions[n].positions, |v.log|, id);
      }
    }
  }

  lemma {:induction false} NotNamedAbove(w: World, longer: seq<RecordedEvent>, c: int, id: string)
    requires DormantAt(w, c, id) && w.log <= longer
    requires forall k :: |w.log| <= k < |longer| ==> id !in longer[k].objectIds
    ensures !NamedAbove(longer, c, id)
    ensures forall k :: c < k < |longer| && 0 <= k ==> id !in longer[k].objectIds
  {
    forall k | c < k < |longer| && 0 <= k ensures id !in longer[k].objectIds {
      if k < |w.log| {
        assert longer[k] == w.log[k];
      }
    }
  }

  /** A later sweep that does not give up, with nobody naming, reading or forgetting the position, leaves it so. */
  lemma {:induction false} DormantOutlivesTheSweep(
      w: World, c: int, performed: seq<Action>, v: World, next: Option<string>, newest: int, outcome: RefreshOutcome, id: string)
    requires DormantAt(w, c, id) && 0 <= c < |w.log| && Unmentioned(performed, id) && !outcome.gaveUp
    requires Swept(w, c, performed, v, next, newest, outcome)
    ensures Dormant(v, next, id)
  {
    UnmentionedIsLeftAlone(w, performed, id);
    NotNamedAbove(w, v.log, c, id);
    assert id in outcome.invalidated.ids ==> NamedAbove(v.log, c, id);
    var k :| w.entries[id].asOf <= k <= c && k < |w.log| && id in w.log[k].objectIds;
    assert v.log[k] == w.log[k];
    assert DormantAt(v, newest - 1, id);
  }

  /** What a first sweep leaves stale is dormant from then on. */
  lemma {:induction false} StaleIsDormant(w: World, id: string)
    requires MemoryOf(w, id) == Stale && w.log != []
    ensures Dormant(w, NewestOf(w.log), id)
  {
    assert CursorIsAt(w.log, NewestOf(w.log), |w.log| - 1);
    assert DormantAt(w, |w.log| - 1, id);
  }

  ghost predicate HasCursor(log: seq<RecordedEvent>, cursor: Option<string>) {
    exists c :: CursorIsAt(log, cursor, c)
  }

  lemma {:induction false} PartOfTheRest(script: seq<Action>, first: nat, before: seq<Action>, more: seq<Action>, left: seq<Action>)
    requires script == before + (more + left) && first <= |before|
    ensures forall a :: a in more ==> a in script[first..]
    ensures script == (before + more) + left
  {
    assert script == (before + more) + left;
    forall a | a in more ensures a in script[first..] {
      var i :| 0 <= i < |more| && more[i] == a;
      assert script[first..][|before| - first + i] == a;
    }
  }

  ghost predicate StillDormant(
      start: World, first: seq<Action>, rest: seq<Action>, w: World, cursor: Option<string>, gaveUp: bool)
  {
    forall id :: RecallAll(MemoryOf(start, id), first, id) == Stale && !gaveUp && Unmentioned(rest, id) ==> Dormant(w, cursor, id)
  }

  lemma {:induction false} FirstSweepFinds(start: World, first: seq<Action>, w: World)
    requires ReadInThePast(start) && w == ActAll(start, first) && w.log != []
    ensures forall rest :: StillDormant(start, first, rest, w, NewestOf(w.log), false)
  {
    forall rest ensures StillDormant(start, first, rest, w, NewestOf(w.log), false) {
      forall id | RecallAll(MemoryOf(start, id), first, id) == Stale ensures Dormant(w, NewestOf(w.log), id) {
        MemoryFollows(start, first, id);
        StaleIsDormant(w, id);
      }
    }
  }

  lemma {:induction false} StillDormantAfter(
      start: World, first: seq<Action>, rest: seq<Action>, w: World, cursor: Option<string>, performed: seq<Action>,
      v: World, next: Option<string>, newest: int, outcome: RefreshOutcome, gaveUp: bool)
    requires StillDormant(start, first, rest, w, cursor, gaveUp)
    requires forall a :: a in performed ==> a in rest
    requires forall c :: CursorIsAt(w.log, cursor, c) ==> Swept(w, c, performed, v, next, newest, outcome)
    ensures StillDormant(start, first, rest, v, next, gaveUp || outcome.gaveUp)
  {
    forall id | RecallAll(MemoryOf(start, id), first, id) == Stale && !gaveUp && !outcome.gaveUp && Unmentioned(rest, id)
      ensures Dormant(v, next, id)
    {
      var c :| CursorIsAt(w.log, cursor, c) && DormantAt(w, c, id);
      DormantOutlivesTheSweep(w, c, performed, v, next, newest, outcome, id);
    }
  }

  /** What a run of sweeps that began with `first` over `start` keeps from one sweep to the next. */
  ghost predicate Ongoing(
      refresher: SnapshotRefresher, start: World, first: seq<Action>, script: seq<Action>, performed: seq<Action>, gaveUp: bool)
    reads refresher, refresher.feed, refresher.feed.snapshot
  {
    var left := Flat(refresher.feed.script);
    && refresher.feed.Valid() && refresher.snapshot == refresher.feed.snapshot
    && HasCursor(refresher.feed.log, refresher.cursor)
    && |first| <= |performed| && script == performed + left
    && refresher.feed.log == start.log + RecordedBy(performed)
    && (gaveUp ==> |refresher.feed.log| > MAX_PAGES * PAGE_SIZE)
    && |first| <= |script| && StillDormant(start, first, script[|first|..], refresher.feed.Current(), refresher.cursor, gaveUp)
  }

  method SweepFirst(refresher: SnapshotRefresher) returns (ghost performed: seq<Action>)
    requires refresher.feed.Valid() && refresher.snapshot == refresher.feed.snapshot && refresher.cursor.None?
    requires ActAll(refresher.feed.Current(), refresher.feed.Next()).log != []
    modifies refresher`cursor, refresher.feed, refresher.snapshot
    ensures performed == old(refresher.feed.Next())
    ensures Ongoing(refresher, old(refresher.feed.Current()), performed, old(Flat(refresher.feed.script)), performed, false)
    ensures refresher.Honest() <==> old(NothingIsLeftStale(refresher.feed.Current(), refresher.feed.Next()))
  {
    ghost var start := refresher.feed.Current();
    var outcome, actions, newest := refresher.Refresh();
    performed := actions;
    LogAfter(start, performed);
    FirstSweepFinds(start, performed, refresher.feed.Current());
    assert CursorIsAt(refresher.feed.log, refresher.cursor, |refresher.feed.log| - 1);
  }

  method SweepAgain(refresher: SnapshotRefresher, ghost start: World, ghost first: seq<Action>, ghost script: seq<Action>,
      ghost before: seq<Action>, gaveUpBefore: bool)
    returns (gaveUp: bool, ghost performed: seq<Action>)
    requires Ongoing(refresher, start, first, script, before, gaveUpBefore)
    modifies refresher`cursor, refresher.feed, refresher.snapshot
    ensures Ongoing(refresher, start, first, script, performed, gaveUp)
    ensures old(refresher.Honest()) ==> refresher.Honest()
  {
    ghost var w, cursor := refresher.feed.Current(), refresher.cursor;
    ghost var flat := Flat(refresher.feed.script);
    var outcome, more, seen := refresher.Refresh();
    gaveUp := gaveUpBefore || outcome.gaveUp;
    performed := before + more;
    ghost var c :| CursorIsAt(w.log, cursor, c);
    assert Swept(w, c, more, refresher.feed.Current(), refresher.cursor, seen, outcome);
    LogAfter(w, more);
    RecordedInTurn(before, more);
    PartOfTheRest(script, |first|, before, more, Flat(refresher.feed.script));
    StillDormantAfter(
      start, first, script[|first|..], w, cursor, more, refresher.feed.Current(), refresher.cursor, seen, outcome, gaveUpBefore);
    assert HasCursor(refresher.feed.log, refresher.cursor);
  }

  /**
   * The life of a refresher from the first sweep that sets a cursor: that one and `later` more. The cache is
   * honest at every moment of it exactly when the first sweep found nothing left stale, a condition on the cache
   * before and on what happens until its page is read. A position it found stale stays in the cache, stale, for
   * as long as nobody names, reads or forgets it and no sweep gives up.
   */
  method KeepSweeping(refresher: SnapshotRefresher, later: nat)
    returns (ghost moments: seq<Moment>, gaveUp: bool, ghost performed: seq<Action>)
    requires refresher.feed.Valid() && refresher.snapshot == refresher.feed.snapshot && refresher.cursor.None?
    requires ActAll(refresher.feed.Current(), refresher.feed.Next()).log != []
    modifies refresher`cursor, refresher.feed, refresher.snapshot
    ensures Ongoing(refresher, old(refresher.feed.Current()), old(refresher.feed.Next()), old(Flat(refresher.feed.script)), performed, gaveUp)
    ensures |moments| == later + 1 && moments[later] == Moment(refresher.feed.Current(), refresher.cursor)
    ensures (forall i :: 0 <= i <= later ==> IsHonest(moments[i]))
            <==> old(NothingIsLeftStale(refresher.feed.Current(), refresher.feed.Next()))
  {
    ghost var start, first, script := refresher.feed.Current(), refresher.feed.Next(), Flat(refresher.feed.script);
    performed := SweepFirst(refresher);
    moments, gaveUp := [Moment(refresher.feed.Current(), refresher.cursor)], false;
    for i := 0 to later
      invariant Ongoing(refresher, start, first, script, performed, gaveUp)
      invariant |moments| == i + 1 && moments[i] == Moment(refresher.feed.Current(), refresher.cursor)
      invariant IsHonest(moments[0]) <==> NothingIsLeftStale(start, first)
      invariant NothingIsLeftStale(start, first) ==> forall j :: 0 <= j <= i ==> IsHonest(moments[j])
    {
      assert IsHonest(moments[i]) <==> refresher.Honest();
      gaveUp, performed := SweepAgain(refresher, start, first, script, performed, gaveUp);
      moments := moments + [Moment(refresher.feed.Current(), refresher.cursor)];
      assert IsHonest(moments[i + 1]) <==> refresher.Honest();
    }
  }

  // ---- a stale answer for good ----

  /** One answer, read before the first sweep and then touched; and nothing else ever happens. */
  function ReadThenTouched(objectId: string, figures: string): seq<Action> {
    [Read([PositionItem(objectId, figures)]), Record(RecordedEvent("e1", {objectId}))]
  }

  lemma {:induction false} ReadThenTouchedIsStale(objectId: string, figures: string)
    ensures RecallAll(Absent, ReadThenTouched(objectId, figures), objectId) == Stale
    ensures ActAll(World([], map[]), ReadThenTouched(objectId, figures)).log == [RecordedEvent("e1", {objectId})]
    ensures RecordedBy(ReadThenTouched(objectId, figures)) == [RecordedEvent("e1", {objectId})]
  {
    var actions := ReadThenTouched(objectId, figures);
    var positions := [PositionItem(objectId, figures)];
    assert positions[0] in positions && Reads(positions, objectId);
    assert actions[..1] == [actions[0]] && actions[..1][..0] == [];
    assert RecallAll(Absent, actions[..1][..0], objectId) == Absent;
    assert RecallAll(Absent, actions[..1], objectId) == Current;
    assert ActAll(World([], map[]), actions[..1][..0]) == World([], map[]);
    assert ActAll(World([], map[]), actions[..1]).log == [];
    assert RecordedBy(actions[..1][..0]) == [] && RecordedBy(actions[..1]) == [];
  }

  /**
   * The first sweep forgets nothing and no later one looks behind it: an answer read and then touched before it
   * stays in the cache, stale, through any number of sweeps.
   */
  method FirstSweepKeepsStaleEntries(objectId: string, figures: string, later: nat) returns (refresher: SnapshotRefresher)
    ensures refresher.feed.log == [RecordedEvent("e1", {objectId})]
    ensures objectId in refresher.feed.snapshot.byObjectId && refresher.feed.snapshot.byObjectId[objectId].asOf == 0
    ensures Dormant(refresher.feed.Current(), refresher.cursor, objectId) && !refresher.Honest()
  {
    var snapshot := new PositionSnapshot();
    var feed := new LedgerEventFeed(snapshot, [ReadThenTouched(objectId, figures)]);
    refresher := new SnapshotRefresher(feed);
    ReadThenTouchedIsStale(objectId, figures);
    assert Recorded(feed.script[1..]) == [] && Recorded(feed.script) == [RecordedEvent("e1", {objectId})];
    assert feed.log + Recorded(feed.script) == [RecordedEvent("e1", {objectId})];
    assert feed.Current() == World([], map[]);
    assert Flat(feed.script[1..]) == [] && Flat(feed.script) == ReadThenTouched(objectId, figures);
    var moments, gaveUp, performed := KeepSweeping(refresher, later);
    StaleForGood(refresher, objectId, figures, performed, gaveUp);
  }

  lemma {:induction false} StaleForGood(refresher: SnapshotRefresher, objectId: string, figures: string, performed: seq<Action>, gaveUp: bool)
    requires var actions := ReadThenTouched(objectId, figures);
      Ongoing(refresher, World([], map[]), actions, actions, performed, gaveUp)
    ensures refresher.feed.log == [RecordedEvent("e1", {objectId})]
    ensures objectId in refresher.feed.snapshot.byObjectId && refresher.feed.snapshot.byObjectId[objectId].asOf == 0
    ensures Dormant(refresher.feed.Current(), refresher.cursor, objectId) && !refresher.Honest()
  {
    var actions := ReadThenTouched(objectId, figures);
    assert actions[|actions|..] == [];
    ReadThenTouchedIsStale(objectId, figures);
    assert performed == actions;
    StaleAndAlone(refresher.feed.Current(), refresher.cursor, objectId, figures, gaveUp);
    UniquePrefix(refresher.feed.log, Recorded(refresher.feed.script));
    DormantIsNotHonest(refresher.feed.Current(), refresher.cursor, objectId);
  }

  lemma {:induction false} StaleAndAlone(w: World, cursor: Option<string>, objectId: string, figures: string, gaveUp: bool)
    requires StillDormant(World([], map[]), ReadThenTouched(objectId, figures), [], w, cursor, gaveUp)
    requires w.log == [] + RecordedBy(ReadThenTouched(objectId, figures)) && (gaveUp ==> |w.log| > MAX_PAGES * PAGE_SIZE)
    ensures w.log == [RecordedEvent("e1", {objectId})] && Dormant(w, cursor, objectId) && w.entries[objectId].asOf == 0
  {
    ReadThenTouchedIsStale(objectId, figures);
    assert MemoryOf(World([], map[]), objectId) == Absent;
    assert Unmentioned([], objectId);
  }

  lemma {:induction false} DormantIsNotHonest(w: World, cursor: Option<string>, id: string)
    requires UniqueEvents(w.log) && Dormant(w, cursor, id)
    ensures forall c :: !HonestAt(w, cursor, c)
  {
    OneCursor(w.log, cursor);
  }
}
