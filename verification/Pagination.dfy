// The cash-movement listing: `findCashMovementsPaginated` of
// ledger/src/infra/persistence/memory/InMemoryLedgerEventRepository.ts, by keyset and by number.

module Pagination {
  import opened Prelude
  import opened Events
  import opened Retraction

  datatype Axis = OccurredAt | RecordedAt

  /** `limit` is positive; the route clamps it before it gets here. */
  datatype Query = Query(
    partyId: Option<string>, effect: Option<Effect>, from: Option<int>, to: Option<int>,
    limit: nat, axis: Axis, ascending: bool)

  datatype Cursor = Cursor(value: int, id: string)

  datatype Page = Page(items: seq<LedgerEvent>, hasMore: bool, nextCursor: Option<Cursor>)

  datatype NumberedPage = NumberedPage(items: seq<LedgerEvent>, hasMore: bool, total: nat)

  function AxisOf(q: Query, e: LedgerEvent): int {
    match q.axis
    case RecordedAt => e.recordedAt
    case OccurredAt => e.occurredAt
  }

  predicate Moves(e: LedgerEvent, party: string, direction: Direction) {
    exists p :: p in e.parties && p.partyId == party && p.direction == direction
  }

  predicate Matches(e: LedgerEvent, retracted: set<string>, q: Query) {
    && e.id !in retracted
    && (q.effect.Some? ==> e.effect == q.effect.value)
    && (e.effect == CashIn || e.effect == CashOut)
    && (Truthy(q.partyId) ==> Moves(e, q.partyId.value, if e.effect == CashIn then In else Out))
    && (q.from.Some? ==> e.occurredAt >= q.from.value)
    && (q.to.Some? ==> e.occurredAt <= q.to.value)
  }

  function Filtered(store: seq<LedgerEvent>, retracted: set<string>, q: Query): seq<LedgerEvent> {
    if store == [] then []
    else
      var rest := Filtered(store[..|store| - 1], retracted, q);
      if Matches(store[|store| - 1], retracted, q) then rest + [store[|store| - 1]] else rest
  }

  // ---- the order ----

  /** The comparator is negative: the axis in the chosen direction, then the id in the same direction. */
  predicate Before(q: Query, at: int, id: string, bt: int, jd: string) {
    if q.ascending then at < bt || (at == bt && Less(id, jd))
    else at > bt || (at == bt && Less(jd, id))
  }

  predicate Precedes(q: Query, a: LedgerEvent, b: LedgerEvent) {
    Before(q, AxisOf(q, a), a.id, AxisOf(q, b), b.id)
  }

  /** Which events continue after a cursor. */
  predicate AfterCursor(q: Query, c: Option<Cursor>, e: LedgerEvent) {
    c.None? || Before(q, c.value.value, c.value.id, AxisOf(q, e), e.id)
  }

  lemma {:induction false} BeforeIsStrict(q: Query, at: int, id: string, bt: int, jd: string, ct: int, kd: string)
    ensures !Before(q, at, id, at, id)
    ensures !(Before(q, at, id, bt, jd) && Before(q, bt, jd, at, id))
    ensures Before(q, at, id, bt, jd) || Before(q, bt, jd, at, id) || (at == bt && id == jd)
    ensures Before(q, at, id, bt, jd) && Before(q, bt, jd, ct, kd) ==> Before(q, at, id, ct, kd)
  {
    LessIsTotal(id, jd);
    LessIsTotal(id, id);
    if Less(id, jd) && Less(jd, kd) { LessIsTransitive(id, jd, kd); }
    if Less(kd, jd) && Less(jd, id) { LessIsTransitive(kd, jd, id); }
  }

  ghost predicate Ordered(q: Query, s: seq<LedgerEvent>) {
    forall i, j :: 0 <= i < j < |s| ==> Precedes(q, s[i], s[j])
  }

  // ---- sorting ----

  function Insert(q: Query, e: LedgerEvent, s: seq<LedgerEvent>): seq<LedgerEvent> {
    if s == [] || Precedes(q, e, s[0]) then [e] + s else [s[0]] + Insert(q, e, s[1..])
  }

  /** The array after `sort`: ordered by the comparator, the same events. */
  function Sort(q: Query, s: seq<LedgerEvent>): seq<LedgerEvent> {
    if s == [] then [] else Insert(q, s[|s| - 1], Sort(q, s[..|s| - 1]))
  }

  lemma {:induction false} InsertPermutes(q: Query, e: LedgerEvent, s: seq<LedgerEvent>)
    ensures multiset(Insert(q, e, s)) == multiset(s) + multiset{e}
  {
    if s != [] && !Precedes(q, e, s[0]) {
      InsertPermutes(q, e, s[1..]);
      assert s == [s[0]] + s[1..];
    }
  }

  lemma {:induction false} SortPermutes(q: Query, s: seq<LedgerEvent>)
    ensures multiset(Sort(q, s)) == multiset(s)
  {
    if s != [] {
      var n := |s| - 1;
      SortPermutes(q, s[..n]);
      InsertPermutes(q, s[n], Sort(q, s[..n]));
      assert s == s[..n] + [s[n]];
    }
  }

  lemma {:induction false} PermutationHoldsTheSame(a: seq<LedgerEvent>, b: seq<LedgerEvent>)
    requires multiset(a) == multiset(b)
    ensures |a| == |b| && forall e :: e in a <==> e in b
  {
    assert |multiset(a)| == |a| && |multiset(b)| == |b|;
    forall e ensures e in a <==> e in b {
      assert e in a <==> e in multiset(a);
      assert e in b <==> e in multiset(b);
    }
  }

  lemma {:induction false} InsertOrders(q: Query, e: LedgerEvent, s: seq<LedgerEvent>)
    requires Ordered(q, s) && forall x :: x in s ==> x.id != e.id
    ensures Ordered(q, Insert(q, e, s))
  {
    if s != [] {
      var rest := s[1..];
      assert s == [s[0]] + rest && s[0] in s;
      BeforeIsStrict(q, AxisOf(q, e), e.id, AxisOf(q, s[0]), s[0].id, 0, "");
      if Precedes(q, e, s[0]) {
        forall j | 0 <= j < |s| ensures Precedes(q, e, s[j]) {
          if j > 0 {
            BeforeIsStrict(q, AxisOf(q, e), e.id, AxisOf(q, s[0]), s[0].id, AxisOf(q, s[j]), s[j].id);
          }
        }
      } else {
        forall i, j | 0 <= i < j < |rest| ensures Precedes(q, rest[i], rest[j]) {
          assert Precedes(q, s[i + 1], s[j + 1]);
        }
        InsertOrders(q, e, rest);
        InsertPermutes(q, e, rest);
        var tail := Insert(q, e, rest);
        forall x | x in tail ensures Precedes(q, s[0], x) {
          assert x in multiset(tail);
          if x != e {
            assert x in multiset(rest);
            var i :| 0 <= i < |rest| && rest[i] == x;
            assert Precedes(q, s[0], s[i + 1]);
          }
        }
      }
    }
  }

  lemma {:induction false} SortOrders(q: Query, s: seq<LedgerEvent>)
    requires UniqueIds(s)
    ensures Ordered(q, Sort(q, s))
  {
    if s != [] {
      var n := |s| - 1;
      SortOrders(q, s[..n]);
      SortPermutes(q, s[..n]);
      PermutationHoldsTheSame(Sort(q, s[..n]), s[..n]);
      forall x | x in Sort(q, s[..n]) ensures x.id != s[n].id {
        var i :| 0 <= i < n && s[..n][i] == x;
        assert s[i].id != s[n].id;
      }
      InsertOrders(q, s[n], Sort(q, s[..n]));
    }
  }

  lemma {:induction false} FilteredHolds(store: seq<LedgerEvent>, retracted: set<string>, q: Query)
    ensures forall e :: e in Filtered(store, retracted, q) <==> e in store && Matches(e, retracted, q)
    ensures UniqueIds(store) ==> UniqueIds(Filtered(store, retracted, q))
  {
    if store != [] {
      var n := |store| - 1;
      FilteredHolds(store[..n], retracted, q);
      assert store == store[..n] + [store[n]];
      if UniqueIds(store) {
        forall x | x in store[..n] ensures x.id != store[n].id {
          var i :| 0 <= i < n && store[i] == x;
        }
        var rest := Filtered(store[..n], retracted, q);
        forall i | 0 <= i < |rest| ensures rest[i].id != store[n].id {
          assert rest[i] in rest;
        }
      }
    }
  }

  /** The matching events in the order asked for. */
  function Listing(store: seq<LedgerEvent>, q: Query): seq<LedgerEvent> {
    Sort(q, Filtered(store, RetractedIds(store), q))
  }

  /** Nothing precedes the first of an ordered list, and the first is not met again. */
  lemma {:induction false} FirstOfOrdered(q: Query, s: seq<LedgerEvent>, e: LedgerEvent)
    requires s != [] && Ordered(q, s) && e in s
    ensures !Precedes(q, e, s[0])
    ensures e in s[1..] <==> e != s[0]
  {
    var i :| 0 <= i < |s| && s[i] == e;
    BeforeIsStrict(q, AxisOf(q, s[0]), s[0].id, AxisOf(q, e), e.id, 0, "");
    if i > 0 {
      assert Precedes(q, s[0], s[i]) && s[1..][i - 1] == e;
    }
    if e in s[1..] {
      var j :| 0 <= j < |s| - 1 && s[1..][j] == e;
      assert Precedes(q, s[0], s[j + 1]);
    }
  }

  lemma {:induction false} TailsAreOrdered(q: Query, s: seq<LedgerEvent>)
    requires s != [] && Ordered(q, s)
    ensures Ordered(q, s[1..])
  {
    forall i, j | 0 <= i < j < |s| - 1 ensures Precedes(q, s[1..][i], s[1..][j]) {
      assert Precedes(q, s[i + 1], s[j + 1]);
    }
  }

  ghost predicate SameMembers(s: seq<LedgerEvent>, t: seq<LedgerEvent>) {
    forall e :: e in s <==> e in t
  }

  /** A strict order leaves one way to list some events. */
  lemma {:induction false} OrderedListsAreEqual(q: Query, s: seq<LedgerEvent>, t: seq<LedgerEvent>)
    requires Ordered(q, s) && Ordered(q, t) && SameMembers(s, t)
    ensures s == t
  {
    if s != [] {
      NoneIsMissing(s, t);
      assert s[0] in s && t[0] in t;
      FirstsAreEqual(q, s, t);
      forall e ensures e in s[1..] <==> e in t[1..] {
        MembersAfterTheFirst(q, s, e);
        MembersAfterTheFirst(q, t, e);
      }
      TailsAreOrdered(q, s);
      TailsAreOrdered(q, t);
      OrderedListsAreEqual(q, s[1..], t[1..]);
      assert s == [s[0]] + s[1..] && t == [t[0]] + t[1..];
    } else if t != [] {
      NoneIsMissing(t, s);
    }
  }

  lemma {:induction false} NoneIsMissing(s: seq<LedgerEvent>, t: seq<LedgerEvent>)
    requires s != [] && SameMembers(s, t)
    ensures t != []
  {
    assert s[0] in s;
  }

  lemma {:induction false} FirstsAreEqual(q: Query, s: seq<LedgerEvent>, t: seq<LedgerEvent>)
    requires s != [] && t != [] && Ordered(q, s) && Ordered(q, t) && s[0] in t && t[0] in s
    ensures s[0] == t[0]
  {
    FirstOfOrdered(q, s, t[0]);
    var i :| 0 <= i < |t| && t[i] == s[0];
    if i > 0 {
      assert Precedes(q, t[0], t[i]);
    }
  }

  lemma {:induction false} MembersAfterTheFirst(q: Query, s: seq<LedgerEvent>, e: LedgerEvent)
    requires s != [] && Ordered(q, s)
    ensures e in s[1..] <==> e in s && e != s[0]
  {
    assert s == [s[0]] + s[1..];
    if e in s {
      FirstOfOrdered(q, s, e);
    }
  }

  /** The listing holds each matching event once, in strict order; no other list does. */
  lemma {:induction false} ListingIsTheOrderedMatches(store: seq<LedgerEvent>, q: Query)
    requires UniqueIds(store)
    ensures Ordered(q, Listing(store, q))
    ensures forall e :: e in Listing(store, q) <==> e in store && Matches(e, RetractedIds(store), q)
    ensures forall other :: Ordered(q, other) && SameMembers(other, Listing(store, q)) ==> other == Listing(store, q)
  {
    var retracted := RetractedIds(store);
    FilteredHolds(store, retracted, q);
    SortOrders(q, Filtered(store, retracted, q));
    SortPermutes(q, Filtered(store, retracted, q));
    PermutationHoldsTheSame(Listing(store, q), Filtered(store, retracted, q));
    forall other | Ordered(q, other) && SameMembers(other, Listing(store, q)) ensures other == Listing(store, q) {
      OrderedListsAreEqual(q, other, Listing(store, q));
    }
  }

  // ---- the two ways to page ----

  function Continued(q: Query, c: Option<Cursor>, s: seq<LedgerEvent>): seq<LedgerEvent> {
    if s == [] then []
    else
      var rest := Continued(q, c, s[..|s| - 1]);
      if AfterCursor(q, c, s[|s| - 1]) then rest + [s[|s| - 1]] else rest
  }

  method FindByKeyset(store: seq<LedgerEvent>, q: Query, cursor: Option<Cursor>) returns (page: Page)
    requires q.limit >= 1
    ensures page == KeysetPage(store, q, cursor)
  {
    var retracted := RetractedEventIds(store);
    var filtered := Sort(q, Filtered(store, retracted, q));
    if cursor.Some? {
      filtered := Continued(q, cursor, filtered);
    } else {
      EverythingContinues(q, filtered);
    }
    var taken := if |filtered| > q.limit then filtered[..q.limit + 1] else filtered;
    var hasMore := |taken| > q.limit;
    var items := if hasMore then taken[..q.limit] else taken;
    var nextCursor := if hasMore then Some(Cursor(AxisOf(q, items[|items| - 1]), items[|items| - 1].id)) else None;
    if hasMore {
      assert items == filtered[..q.limit];
    }
    page := Page(items, hasMore, nextCursor);
  }

  lemma {:induction false} EverythingContinues(q: Query, s: seq<LedgerEvent>)
    ensures Continued(q, None, s) == s
  {
    if s != [] {
      EverythingContinues(q, s[..|s| - 1]);
    }
  }

  function CursorAt(q: Query, e: LedgerEvent): Cursor {
    Cursor(AxisOf(q, e), e.id)
  }

  function KeysetPage(store: seq<LedgerEvent>, q: Query, cursor: Option<Cursor>): Page
    requires q.limit >= 1
  {
    var left := Continued(q, cursor, Listing(store, q));
    if |left| > q.limit then Page(left[..q.limit], true, Some(CursorAt(q, left[q.limit - 1])))
    else Page(left, false, None)
  }

  /** `slice` clamps both ends to the list. */
  function Slice(s: seq<LedgerEvent>, from: nat, to: nat): seq<LedgerEvent>
    requires from <= to
  {
    if from >= |s| then [] else if to >= |s| then s[from..] else s[from..to]
  }

  /** Page numbers below one are read as one. */
  function FindByNumber(store: seq<LedgerEvent>, q: Query, number: int): NumberedPage {
    var page := if number < 1 then 1 else number;
    var all := Listing(store, q);
    NumberedPage(Slice(all, (page - 1) * q.limit, page * q.limit), page * q.limit < |all|, |all|)
  }

  /** Page numbers below one ask for the first page; every page tells how many events are listed. */
  lemma {:induction false} NumbersBelowOneAskForTheFirst(store: seq<LedgerEvent>, q: Query, number: int)
    ensures number < 1 ==> FindByNumber(store, q, number) == FindByNumber(store, q, 1)
    ensures FindByNumber(store, q, number).total == |Listing(store, q)|
  {
  }

  // ---- a fixed store ----

  lemma {:induction false} ContinuedSplits(q: Query, c: Option<Cursor>, a: seq<LedgerEvent>, b: seq<LedgerEvent>)
    requires forall e :: e in a ==> !AfterCursor(q, c, e)
    requires forall e :: e in b ==> AfterCursor(q, c, e)
    ensures Continued(q, c, a + b) == b
  {
    if b != [] {
      var n := |b| - 1;
      assert (a + b)[..|a + b| - 1] == a + b[..n];
      assert b[n] in b;
      ContinuedSplits(q, c, a, b[..n]);
    } else if a != [] {
      var n := |a| - 1;
      assert a + b == a && a[n] in a;
      assert a[..n] + [] == a[..n];
      ContinuedSplits(q, c, a[..n], []);
    }
  }

  /** The cursor that continues after the first `k` events of a list. */
  function CursorAfter(q: Query, s: seq<LedgerEvent>, k: nat): Option<Cursor>
    requires k <= |s|
  {
    if k == 0 then None else Some(CursorAt(q, s[k - 1]))
  }

  lemma {:induction false} CursorCutsTheListing(q: Query, s: seq<LedgerEvent>, k: nat)
    requires Ordered(q, s) && k <= |s|
    ensures Continued(q, CursorAfter(q, s, k), s) == s[k..]
  {
    var c := CursorAfter(q, s, k);
    forall e | e in s[..k] ensures !AfterCursor(q, c, e) {
      var i :| 0 <= i < k && s[i] == e;
      BeforeIsStrict(q, AxisOf(q, s[k - 1]), s[k - 1].id, AxisOf(q, e), e.id, 0, "");
      assert i < k - 1 ==> Precedes(q, s[i], s[k - 1]);
    }
    forall e | e in s[k..] ensures AfterCursor(q, c, e) {
      var i :| k <= i < |s| && s[i] == e;
      assert k > 0 ==> Precedes(q, s[k - 1], s[i]);
    }
    assert s == s[..k] + s[k..];
    ContinuedSplits(q, c, s[..k], s[k..]);
  }

  /** On a fixed store each keyset page is the numbered page, and its cursor continues where it ends. */
  lemma {:induction false} KeysetPagesAreNumberedPages(store: seq<LedgerEvent>, q: Query, number: nat)
    requires UniqueIds(store) && q.limit >= 1 && number >= 1
    requires (number - 1) * q.limit <= |Listing(store, q)|
    ensures var all := Listing(store, q);
      var page := KeysetPage(store, q, CursorAfter(q, all, (number - 1) * q.limit));
      && page.items == FindByNumber(store, q, number).items
      && page.hasMore == FindByNumber(store, q, number).hasMore
      && page.nextCursor == (if number * q.limit < |all| then CursorAfter(q, all, number * q.limit) else None)
  {
    assert number * q.limit == (number - 1) * q.limit + q.limit;
    PageOfTheListing(store, q, (number - 1) * q.limit);
  }

  // ---- following the cursor over a store that may change ----

  /** What a client is served when page after page is read, each from the store as it is by then. */
  function Served(stores: seq<seq<LedgerEvent>>, q: Query, cursor: Option<Cursor>): seq<LedgerEvent>
    requires q.limit >= 1
  {
    if stores == [] then []
    else
      var page := KeysetPage(stores[0], q, cursor);
      page.items + (if page.nextCursor.Some? then Served(stores[1..], q, page.nextCursor) else [])
  }

  /** The walk reached a page with no next cursor. */
  predicate Finished(stores: seq<seq<LedgerEvent>>, q: Query, cursor: Option<Cursor>)
    requires q.limit >= 1
  {
    stores != []
    && var next := KeysetPage(stores[0], q, cursor).nextCursor;
       next.None? || Finished(stores[1..], q, next)
  }

  lemma {:induction false} ContinuedMembers(q: Query, c: Option<Cursor>, s: seq<LedgerEvent>)
    ensures forall e :: e in Continued(q, c, s) <==> e in s && AfterCursor(q, c, e)
  {
    if s != [] {
      var n := |s| - 1;
      ContinuedMembers(q, c, s[..n]);
      assert s == s[..n] + [s[n]];
    }
  }

  lemma {:induction false} LastOfOrdered(q: Query, s: seq<LedgerEvent>, e: LedgerEvent)
    requires s != [] && Ordered(q, s) && e in s[..|s| - 1]
    ensures Precedes(q, e, s[|s| - 1])
  {
    var j :| 0 <= j < |s| - 1 && s[j] == e;
  }

  lemma {:induction false} OneMoreInOrder(q: Query, rest: seq<LedgerEvent>, last: LedgerEvent)
    requires Ordered(q, rest) && forall e :: e in rest ==> Precedes(q, e, last)
    ensures Ordered(q, rest + [last])
  {
  }

  lemma {:induction false} ContinuedHolds(q: Query, c: Option<Cursor>, s: seq<LedgerEvent>)
    ensures forall e :: e in Continued(q, c, s) <==> e in s && AfterCursor(q, c, e)
    ensures Ordered(q, s) ==> Ordered(q, Continued(q, c, s))
  {
    ContinuedMembers(q, c, s);
    if s != [] && Ordered(q, s) {
      var n := |s| - 1;
      ContinuedHolds(q, c, s[..n]);
      var rest := Continued(q, c, s[..n]);
      forall e | e in rest ensures Precedes(q, e, s[n]) {
        LastOfOrdered(q, s, e);
      }
      OneMoreInOrder(q, rest, s[n]);
    }
  }

  /** A page is ordered, lies after its cursor and up to its next one, and holds only matches. */
  lemma {:induction false} PageFacts(store: seq<LedgerEvent>, q: Query, cursor: Option<Cursor>)
    requires UniqueIds(store) && q.limit >= 1
    ensures var page := KeysetPage(store, q, cursor);
      && Ordered(q, page.items)
      && (forall e :: e in page.items ==> AfterCursor(q, cursor, e) && e in store && Matches(e, RetractedIds(store), q))
      && (page.nextCursor.Some? ==> page.items != [] && page.nextCursor.value == CursorAt(q, page.items[|page.items| - 1]))
      && (forall e :: e in store && Matches(e, RetractedIds(store), q) && AfterCursor(q, cursor, e)
            ==> e in page.items || (page.nextCursor.Some? && AfterCursor(q, page.nextCursor, e)))
  {
    var all := Listing(store, q);
    ListingIsTheOrderedMatches(store, q);
    ContinuedHolds(q, cursor, all);
    var left := Continued(q, cursor, all);
    var page := KeysetPage(store, q, cursor);
    assert forall i :: 0 <= i < |page.items| ==> page.items[i] == left[i];
    forall e | e in page.items ensures e in left {
    }
    forall e | e in store && Matches(e, RetractedIds(store), q) && AfterCursor(q, cursor, e)
      ensures e in page.items || (page.nextCursor.Some? && AfterCursor(q, page.nextCursor, e))
    {
      assert e in left;
      var i :| 0 <= i < |left| && left[i] == e;
      if |left| > q.limit {
        if i < q.limit {
          assert page.items[i] == e;
        } else {
          assert Precedes(q, left[q.limit - 1], left[i]);
        }
      }
    }
  }

  ghost predicate EachHasUniqueIds(stores: seq<seq<LedgerEvent>>) {
    forall i :: 0 <= i < |stores| ==> UniqueIds(stores[i])
  }

  lemma {:induction false} EverythingServedLiesAfter(stores: seq<seq<LedgerEvent>>, q: Query, cursor: Option<Cursor>)
    requires EachHasUniqueIds(stores) && q.limit >= 1
    ensures forall e :: e in Served(stores, q, cursor) ==> AfterCursor(q, cursor, e)
    decreases |stores|
  {
    if stores != [] {
      var page := KeysetPage(stores[0], q, cursor);
      PageFacts(stores[0], q, cursor);
      if page.nextCursor.Some? {
        EverythingServedLiesAfter(stores[1..], q, page.nextCursor);
        var last := page.items[|page.items| - 1];
        forall e | e in Served(stores[1..], q, page.nextCursor) ensures AfterCursor(q, cursor, e) {
          if cursor.Some? {
            assert last in page.items && AfterCursor(q, cursor, last) && AfterCursor(q, page.nextCursor, e);
            BeforeIsStrict(q, cursor.value.value, cursor.value.id, AxisOf(q, last), last.id, AxisOf(q, e), e.id);
          }
        }
      }
    }
  }

  /** However the store changes between calls, what is served over a whole walk is in strict order. */
  lemma {:induction false} ServedIsOrdered(stores: seq<seq<LedgerEvent>>, q: Query, cursor: Option<Cursor>)
    requires EachHasUniqueIds(stores) && q.limit >= 1
    ensures Ordered(q, Served(stores, q, cursor))
    decreases |stores|
  {
    if stores != [] {
      var page := KeysetPage(stores[0], q, cursor);
      PageFacts(stores[0], q, cursor);
      if page.nextCursor.Some? {
        var rest := Served(stores[1..], q, page.nextCursor);
        ServedIsOrdered(stores[1..], q, page.nextCursor);
        EverythingServedLiesAfter(stores[1..], q, page.nextCursor);
        var items := page.items;
        forall i, j | 0 <= i < |items| && 0 <= j < |rest| ensures Precedes(q, items[i], rest[j]) {
          var last := items[|items| - 1];
          assert rest[j] in rest;
          BeforeIsStrict(q, AxisOf(q, items[i]), items[i].id, AxisOf(q, last), last.id, AxisOf(q, rest[j]), rest[j].id);
        }
        OrderedConcatenation(q, items, rest);
      }
    }
  }

  lemma {:induction false} OrderedConcatenation(q: Query, a: seq<LedgerEvent>, b: seq<LedgerEvent>)
    requires Ordered(q, a) && Ordered(q, b)
    requires forall i, j :: 0 <= i < |a| && 0 <= j < |b| ==> Precedes(q, a[i], b[j])
    ensures Ordered(q, a + b)
  {
  }

  /** No event is ever served twice, timestamp ties included, whatever happens to the store in between. */
  lemma {:induction false} NoEventIsServedTwice(stores: seq<seq<LedgerEvent>>, q: Query, i: nat, j: nat)
    requires EachHasUniqueIds(stores) && q.limit >= 1
    requires i < j < |Served(stores, q, None)|
    ensures Served(stores, q, None)[i] != Served(stores, q, None)[j]
  {
    ServedIsOrdered(stores, q, None);
    var e := Served(stores, q, None)[i];
    BeforeIsStrict(q, AxisOf(q, e), e.id, 0, "", 0, "");
  }

  /** A finished walk served every event that matched throughout it. */
  lemma {:induction false} NothingIsSkipped(stores: seq<seq<LedgerEvent>>, q: Query, cursor: Option<Cursor>, e: LedgerEvent)
    requires EachHasUniqueIds(stores) && q.limit >= 1
    requires Finished(stores, q, cursor) && AfterCursor(q, cursor, e)
    requires forall i :: 0 <= i < |stores| ==> e in stores[i] && Matches(e, RetractedIds(stores[i]), q)
    ensures e in Served(stores, q, cursor)
    decreases |stores|
  {
    PageFacts(stores[0], q, cursor);
    var page := KeysetPage(stores[0], q, cursor);
    if e !in page.items {
      NothingIsSkipped(stores[1..], q, page.nextCursor, e);
    }
  }

  // ---- the whole walk over a fixed store ----

  ghost predicate AllAre(stores: seq<seq<LedgerEvent>>, store: seq<LedgerEvent>) {
    forall i :: 0 <= i < |stores| ==> stores[i] == store
  }

  lemma {:induction false} PageOfTheListing(store: seq<LedgerEvent>, q: Query, k: nat)
    requires UniqueIds(store) && q.limit >= 1 && k <= |Listing(store, q)|
    ensures var all := Listing(store, q);
      KeysetPage(store, q, CursorAfter(q, all, k))
      == if |all| - k > q.limit then Page(all[k..k + q.limit], true, CursorAfter(q, all, k + q.limit))
         else Page(all[k..], false, None)
  {
    var all := Listing(store, q);
    ListingIsTheOrderedMatches(store, q);
    CursorCutsTheListing(q, all, k);
    var left := all[k..];
    if |left| > q.limit {
      assert left[..q.limit] == all[k..k + q.limit];
      assert left[q.limit - 1] == all[k + q.limit - 1];
    }
  }

  lemma {:induction false} CutTwice(s: seq<LedgerEvent>, k: nat, n: nat)
    requires k + n <= |s|
    ensures s[k..k + n] + s[k + n..] == s[k..]
  {
  }

  lemma {:induction false} FixedStoreWalk(store: seq<LedgerEvent>, stores: seq<seq<LedgerEvent>>, q: Query, k: nat)
    requires AllAre(stores, store)
    requires UniqueIds(store) && q.limit >= 1 && k <= |Listing(store, q)| && |stores| > |Listing(store, q)| - k
    ensures var all := Listing(store, q);
      Finished(stores, q, CursorAfter(q, all, k)) && Served(stores, q, CursorAfter(q, all, k)) == all[k..]
    decreases |stores|
  {
    var all := Listing(store, q);
    assert stores[0] == store;
    PageOfTheListing(store, q, k);
    if |all| - k > q.limit {
      assert AllAre(stores[1..], store);
      FixedStoreWalk(store, stores[1..], q, k + q.limit);
      MorePages(stores, q, CursorAfter(q, all, k), all[k..k + q.limit], CursorAfter(q, all, k + q.limit));
      CutTwice(all, k, q.limit);
    } else {
      LastPage(stores, q, CursorAfter(q, all, k), all[k..]);
    }
  }

  lemma {:induction false} MorePages(stores: seq<seq<LedgerEvent>>, q: Query, cursor: Option<Cursor>, items: seq<LedgerEvent>, next: Option<Cursor>)
    requires stores != [] && q.limit >= 1 && next.Some? && KeysetPage(stores[0], q, cursor) == Page(items, true, next)
    ensures Served(stores, q, cursor) == items + Served(stores[1..], q, next)
    ensures Finished(stores, q, cursor) <==> Finished(stores[1..], q, next)
  {
  }

  lemma {:induction false} LastPage(stores: seq<seq<LedgerEvent>>, q: Query, cursor: Option<Cursor>, items: seq<LedgerEvent>)
    requires stores != [] && q.limit >= 1 && KeysetPage(stores[0], q, cursor) == Page(items, false, None)
    ensures Served(stores, q, cursor) == items && Finished(stores, q, cursor)
  {
  }

  /** Following the cursor on a fixed store ends, having served the whole listing once, in order. */
  lemma {:induction false} FollowingTheCursorServesTheListing(store: seq<LedgerEvent>, stores: seq<seq<LedgerEvent>>, q: Query)
    requires AllAre(stores, store)
    requires UniqueIds(store) && q.limit >= 1 && |stores| > |Listing(store, q)|
    ensures Finished(stores, q, None)
    ensures Served(stores, q, None) == Listing(store, q)
  {
    FixedStoreWalk(store, stores, q, 0);
    assert Listing(store, q)[0..] == Listing(store, q);
  }
}
