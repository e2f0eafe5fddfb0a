// How alike two normalized names are: `editDistance` and `similarity` of
// treasury/src/core/domain/services/PartyNormalization.ts.

module EditDistance {

  function Min(x: nat, y: nat): nat { if x <= y then x else y }

  function Max(x: nat, y: nat): nat { if x >= y then x else y }

  function Cost(x: char, y: char): nat { if x == y then 0 else 1 }

  function Init(s: string): string
    requires s != ""
  {
    s[..|s| - 1]
  }

  function Last(s: string): char
    requires s != ""
  {
    s[|s| - 1]
  }

  /** The recurrence the table is filled by. */
  function Lev(a: string, b: string): nat
    decreases |a| + |b|
  {
    if a == "" then |b|
    else if b == "" then |a|
    else Min(Min(Lev(a, Init(b)) + 1, Lev(Init(a), b) + 1), Lev(Init(a), Init(b)) + Cost(Last(a), Last(b)))
  }

  // ---- the single-row loop ----

  /** Cell (i, j) of the table. */
  ghost function Table(a: string, b: string, i: nat, j: nat): nat
    requires i <= |a| && j <= |b|
  {
    if i == 0 then j
    else if j == 0 then i
    else Min(Min(Table(a, b, i, j - 1) + 1, Table(a, b, i - 1, j) + 1), Table(a, b, i - 1, j - 1) + Cost(a[i - 1], b[j - 1]))
  }

  lemma {:induction false} LevUnfold(a: string, b: string)
    requires a != "" && b != ""
    ensures Lev(a, b)
            == Min(Min(Lev(a, Init(b)) + 1, Lev(Init(a), b) + 1), Lev(Init(a), Init(b)) + Cost(Last(a), Last(b)))
  {
  }

  /** A cell is the distance between the two prefixes. */
  lemma {:induction false} TableIsLev(a: string, b: string, i: nat, j: nat, u: string, v: string)
    requires i <= |a| && j <= |b| && u == a[..i] && v == b[..j]
    ensures Table(a, b, i, j) == Lev(u, v)
    decreases i + j
  {
    if i > 0 && j > 0 {
      assert Init(u) == a[..i - 1] && Last(u) == a[i - 1];
      assert Init(v) == b[..j - 1] && Last(v) == b[j - 1];
      LevUnfold(u, v);
      TableIsLev(a, b, i, j - 1, u, Init(v));
      TableIsLev(a, b, i - 1, j, Init(u), v);
      TableIsLev(a, b, i - 1, j - 1, Init(u), Init(v));
    }
  }

  ghost predicate IsRow(row: seq<nat>, a: string, i: nat, b: string) {
    i <= |a| && |row| <= |b| + 1 && forall j :: 0 <= j < |row| ==> row[j] == Table(a, b, i, j)
  }

  /** The inner loop: one row from the row above it. */
  method NextRow(a: string, i: nat, b: string, previous: seq<nat>) returns (current: seq<nat>)
    requires 1 <= i <= |a|
    requires |previous| == |b| + 1 && IsRow(previous, a, i - 1, b)
    ensures |current| == |b| + 1 && IsRow(current, a, i, b)
  {
    current := [i];
    for j := 1 to |b| + 1
      invariant |current| == j && IsRow(current, a, i, b)
    {
      var cost := if a[i - 1] == b[j - 1] then 0 else 1;
      current := current + [Min(Min(current[j - 1] + 1, previous[j] + 1), previous[j - 1] + cost)];
    }
  }

  method EditDistance(a: string, b: string) returns (distance: nat)
    ensures distance == Lev(a, b)
  {
    if a == b {
      EqualIsZero(a);
      return 0;
    }
    if |a| == 0 { return |b|; }
    if |b| == 0 { return |a|; }
    var previous: seq<nat> := seq(|b| + 1, i => i);
    for i := 1 to |a| + 1
      invariant |previous| == |b| + 1 && IsRow(previous, a, i - 1, b)
    {
      previous := NextRow(a, i, b, previous);
    }
    TableIsLev(a, b, |a|, |b|, a, b);
    return previous[|b|];
  }

  // ---- single edits ----

  ghost predicate Deletion(x: string, y: string) {
    exists i :: 0 <= i < |x| && y == x[..i] + x[i + 1..]
  }

  ghost predicate Substitution(x: string, y: string) {
    |x| == |y| && exists i :: 0 <= i < |x| && x[..i] == y[..i] && x[i + 1..] == y[i + 1..]
  }

  /** One insertion, deletion or substitution turns `x` into `y`. */
  ghost predicate OneEdit(x: string, y: string) {
    Deletion(x, y) || Deletion(y, x) || Substitution(x, y)
  }

  /** A chain of texts from `a` to `b`, each one edit from the one before. */
  ghost predicate EditChain(chain: seq<string>, a: string, b: string) {
    && chain != [] && chain[0] == a && chain[|chain| - 1] == b
    && forall i :: 0 <= i < |chain| - 1 ==> OneEdit(chain[i], chain[i + 1])
  }

  // ---- the recurrence is a metric ----

  lemma {:induction false} EqualIsZero(a: string)
    ensures Lev(a, a) == 0
  {
    if a != "" { EqualIsZero(Init(a)); }
  }

  lemma {:induction false} ZeroIsEqual(a: string, b: string)
    requires Lev(a, b) == 0
    ensures a == b
    decreases |a|
  {
    if a != "" && b != "" {
      ZeroIsEqual(Init(a), Init(b));
      assert a == Init(a) + [Last(a)] && b == Init(b) + [Last(b)];
    }
  }

  lemma {:induction false} IsSymmetric(a: string, b: string)
    ensures Lev(a, b) == Lev(b, a)
    decreases |a| + |b|
  {
    if a != "" && b != "" {
      IsSymmetric(Init(a), b);
      IsSymmetric(a, Init(b));
      IsSymmetric(Init(a), Init(b));
    }
  }

  /** The distance lies between the difference of the lengths and the longer length. */
  lemma {:induction false} LengthBounds(a: string, b: string)
    ensures |a| <= Lev(a, b) + |b| && |b| <= Lev(a, b) + |a|
    ensures Lev(a, b) <= Max(|a|, |b|)
    decreases |a| + |b|
  {
    if a != "" && b != "" {
      LengthBounds(Init(a), b);
      LengthBounds(a, Init(b));
      LengthBounds(Init(a), Init(b));
    }
  }

  /** Going through a third text is never shorter. */
  lemma {:induction false} Triangle(a: string, b: string, c: string)
    ensures Lev(a, c) <= Lev(a, b) + Lev(b, c)
    decreases |a| + |b| + |c|
  {
    if a == "" || b == "" || c == "" {
      LengthBounds(a, b);
      LengthBounds(b, c);
      LengthBounds(a, c);
    } else if Lev(a, b) == Lev(Init(a), b) + 1 {
      Triangle(Init(a), b, c);
    } else if Lev(b, c) == Lev(b, Init(c)) + 1 {
      Triangle(a, b, Init(c));
    } else if Lev(a, b) == Lev(a, Init(b)) + 1 {
      if Lev(b, c) == Lev(Init(b), c) + 1 {
        Triangle(a, Init(b), c);
      } else {
        Triangle(a, Init(b), Init(c));
      }
    } else if Lev(b, c) == Lev(Init(b), c) + 1 {
      Triangle(Init(a), Init(b), c);
    } else {
      Triangle(Init(a), Init(b), Init(c));
    }
  }

  // ---- the recurrence counts edits ----

  lemma {:induction false} CommonEnd(a: string, b: string, c: char)
    ensures Lev(a + [c], b + [c]) <= Lev(a, b)
  {
    assert Init(a + [c]) == a && Init(b + [c]) == b && Last(a + [c]) == Last(b + [c]) == c;
    LevUnfold(a + [c], b + [c]);
  }

  /** A common ending costs nothing. */
  lemma {:induction false} CommonSuffix(a: string, b: string, s: string)
    ensures Lev(a + s, b + s) <= Lev(a, b)
  {
    if s == "" {
      assert a + s == a && b + s == b;
    } else {
      CommonSuffix(a, b, Init(s));
      CommonEnd(a + Init(s), b + Init(s), Last(s));
      assert a + s == (a + Init(s)) + [Last(s)] && b + s == (b + Init(s)) + [Last(s)];
    }
  }

  lemma {:induction false} OneMoreCharacter(p: string, c: char, d: char)
    ensures Lev(p + [c], p) <= 1
    ensures Lev(p + [c], p + [d]) <= 1
  {
    EqualIsZero(p);
    assert Init(p + [c]) == p && Init(p + [d]) == p;
  }

  lemma {:induction false} DeletionSplits(x: string, y: string) returns (p: string, c: char, s: string)
    requires Deletion(x, y)
    ensures x == p + [c] + s && y == p + s
  {
    var i :| 0 <= i < |x| && y == x[..i] + x[i + 1..];
    p, c, s := x[..i], x[i], x[i + 1..];
  }

  lemma {:induction false} SubstitutionSplits(x: string, y: string) returns (p: string, c: char, d: char, s: string)
    requires Substitution(x, y)
    ensures x == p + [c] + s && y == p + [d] + s
  {
    var i :| 0 <= i < |x| && x[..i] == y[..i] && x[i + 1..] == y[i + 1..];
    p, c, d, s := x[..i], x[i], y[i], x[i + 1..];
  }

  lemma {:induction false} OneEditIsOneAway(x: string, y: string)
    requires OneEdit(x, y)
    ensures Lev(x, y) <= 1
  {
    if Deletion(x, y) {
      var p, c, s := DeletionSplits(x, y);
      OneMoreCharacter(p, c, c);
      CommonSuffix(p + [c], p, s);
    } else if Deletion(y, x) {
      var p, c, s := DeletionSplits(y, x);
      OneMoreCharacter(p, c, c);
      CommonSuffix(p + [c], p, s);
      IsSymmetric(x, y);
    } else {
      var p, c, d, s := SubstitutionSplits(x, y);
      OneMoreCharacter(p, c, d);
      CommonSuffix(p + [c], p + [d], s);
    }
  }

  /** No chain of edits is shorter than the distance. */
  lemma {:induction false} NoChainIsShorter(chain: seq<string>, a: string, b: string)
    requires EditChain(chain, a, b)
    ensures Lev(a, b) <= |chain| - 1
    decreases |chain|
  {
    if |chain| == 1 {
      EqualIsZero(a);
    } else {
      var rest := chain[1..];
      forall i | 0 <= i < |rest| - 1 ensures OneEdit(rest[i], rest[i + 1]) {
        var k := i + 1;
        assert OneEdit(chain[k], chain[k + 1]);
      }
      NoChainIsShorter(rest, chain[1], b);
      OneEditIsOneAway(chain[0], chain[1]);
      Triangle(a, chain[1], b);
    }
  }

  lemma {:induction false} AppendingKeepsOneEdit(x: string, y: string, c: char)
    requires OneEdit(x, y)
    ensures OneEdit(x + [c], y + [c])
  {
    if Deletion(x, y) {
      DeletionUnderSuffix(x, y, c);
    } else if Deletion(y, x) {
      DeletionUnderSuffix(y, x, c);
    } else {
      var i :| 0 <= i < |x| && x[..i] == y[..i] && x[i + 1..] == y[i + 1..];
      var u, v := x + [c], y + [c];
      assert u[..i] == v[..i] && u[i + 1..] == v[i + 1..];
    }
  }

  lemma {:induction false} DeletionUnderSuffix(x: string, y: string, c: char)
    requires Deletion(x, y)
    ensures Deletion(x + [c], y + [c])
  {
    var i :| 0 <= i < |x| && y == x[..i] + x[i + 1..];
    var u := x + [c];
    assert u[..i] == x[..i] && u[i + 1..] == x[i + 1..] + [c];
    assert y + [c] == u[..i] + u[i + 1..];
  }

  ghost function AppendAll(chain: seq<string>, c: char): seq<string> {
    seq(|chain|, i requires 0 <= i < |chain| => chain[i] + [c])
  }

  lemma {:induction false} AppendedChain(chain: seq<string>, a: string, b: string, c: char)
    requires EditChain(chain, a, b)
    ensures EditChain(AppendAll(chain, c), a + [c], b + [c])
  {
    var more := AppendAll(chain, c);
    forall i | 0 <= i < |more| - 1 ensures OneEdit(more[i], more[i + 1]) {
      AppendingKeepsOneEdit(chain[i], chain[i + 1], c);
    }
  }

  lemma {:induction false} ExtendedChain(chain: seq<string>, a: string, b: string, d: string)
    requires EditChain(chain, a, b) && OneEdit(b, d)
    ensures EditChain(chain + [d], a, d)
  {
    var more := chain + [d];
    forall i | 0 <= i < |more| - 1 ensures OneEdit(more[i], more[i + 1]) {
      assert i < |chain| - 1 ==> more[i] == chain[i] && more[i + 1] == chain[i + 1];
    }
  }

  lemma {:induction false} DroppingTheLast(s: string)
    requires s != ""
    ensures Deletion(s, Init(s))
  {
    var i := |s| - 1;
    assert Init(s) == s[..i] + s[i + 1..];
  }

  lemma {:induction false} ReplacingTheLast(p: string, x: char, y: char)
    ensures OneEdit(p + [x], p + [y])
  {
    var u, v := p + [x], p + [y];
    var i := |p|;
    assert u[..i] == v[..i] && u[i + 1..] == v[i + 1..];
    assert Substitution(u, v);
  }

  lemma {:induction false} PrependedChain(d: string, chain: seq<string>, a: string, b: string)
    requires EditChain(chain, a, b) && OneEdit(d, a)
    ensures EditChain([d] + chain, d, b)
  {
    var more := [d] + chain;
    forall i | 0 <= i < |more| - 1 ensures OneEdit(more[i], more[i + 1]) {
      assert more[i + 1] == chain[i];
      assert i > 0 ==> OneEdit(chain[i - 1], chain[i - 1 + 1]);
    }
  }

  /** The last characters are kept or one replaces the other. */
  lemma {:induction false} DiagonalChain(chain: seq<string>, a: string, b: string) returns (more: seq<string>)
    requires a != "" && b != "" && EditChain(chain, Init(a), Init(b))
    ensures EditChain(more, a, b) && |more| == |chain| + Cost(Last(a), Last(b))
  {
    AppendedChain(chain, Init(a), Init(b), Last(a));
    more := AppendAll(chain, Last(a));
    assert a == Init(a) + [Last(a)] && b == Init(b) + [Last(b)];
    if Last(a) != Last(b) {
      ReplacingTheLast(Init(b), Last(a), Last(b));
      ExtendedChain(more, a, Init(b) + [Last(a)], b);
      more := more + [b];
    }
  }

  /** Some chain of edits is as short as the distance. */
  lemma {:induction false} ShortestChain(a: string, b: string) returns (chain: seq<string>)
    ensures EditChain(chain, a, b) && |chain| == Lev(a, b) + 1
    decreases |a| + |b|
  {
    if a == "" && b == "" {
      chain := [""];
    } else if b == "" || (a != "" && Lev(a, b) == Lev(Init(a), b) + 1) {
      var rest := ShortestChain(Init(a), b);
      DroppingTheLast(a);
      PrependedChain(a, rest, Init(a), b);
      chain := [a] + rest;
    } else if a == "" || Lev(a, b) == Lev(a, Init(b)) + 1 {
      var rest := ShortestChain(a, Init(b));
      DroppingTheLast(b);
      ExtendedChain(rest, a, Init(b), b);
      chain := rest + [b];
    } else {
      var rest := ShortestChain(Init(a), Init(b));
      chain := DiagonalChain(rest, a, b);
    }
  }

  /** The distance is the least number of single-character edits that turn one text into the other. */
  lemma {:induction false} DistanceIsTheLeastNumberOfEdits(a: string, b: string, n: nat)
    ensures Lev(a, b) <= n <==> exists chain :: EditChain(chain, a, b) && |chain| - 1 <= n
  {
    var shortest := ShortestChain(a, b);
    forall chain | EditChain(chain, a, b) ensures Lev(a, b) <= |chain| - 1 {
      NoChainIsShorter(chain, a, b);
    }
  }

  // ---- similarity ----

  method Similarity(a: string, b: string) returns (s: real)
    ensures 0.0 <= s <= 1.0
    ensures s == 1.0 <==> a == b
    ensures a != "" || b != "" ==> s == 1.0 - Lev(a, b) as real / Max(|a|, |b|) as real
  {
    if a == "" && b == "" { return 1.0; }
    var longest := Max(|a|, |b|);
    var distance := EditDistance(a, b);
    LengthBounds(a, b);
    RatioIsBounded(distance, longest);
    if a == b { EqualIsZero(a); }
    if distance == 0 { ZeroIsEqual(a, b); }
    return 1.0 - distance as real / longest as real;
  }

  lemma {:induction false} RatioIsBounded(d: nat, n: nat)
    requires d <= n && n > 0
    ensures 0.0 <= d as real / n as real <= 1.0
    ensures d as real / n as real == 0.0 <==> d == 0
  {
  }
}
