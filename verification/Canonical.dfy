// ledger/src/core/domain/value-objects/EventHash.ts: the canonical text an event's hash is taken of.

module Canonical {
  import opened Prelude

  /**
   * The values the ledger serializes. An object is a map, so the order its keys were written in is
   * already forgotten: equality of two values is equality up to key order.
   */
  datatype Json =
    | Null
    | Bool(b: bool)
    | Str(s: string)
    | Arr(items: seq<Json>)
    | Obj(fields: map<string, Json>)

  // ---- JSON.stringify on a string (section 7 of RFC 8259) ----

  function HexDigit(n: nat): char
    requires n < 16
  {
    if n < 10 then '0' + n as char else 'a' + (n - 10) as char
  }

  function EscapeChar(c: char): string {
    if c == '"' then "\\\""
    else if c == '\\' then "\\\\"
    else if c as int == 8 then "\\b"
    else if c as int == 9 then "\\t"
    else if c as int == 10 then "\\n"
    else if c as int == 12 then "\\f"
    else if c as int == 13 then "\\r"
    else if c as int < 32 then ['\\', 'u', '0', '0', HexDigit(c as int / 16), HexDigit(c as int % 16)]
    else [c]
  }

  function Escape(s: string): string {
    if s == "" then "" else EscapeChar(s[0]) + Escape(s[1..])
  }

  function Quote(s: string): string {
    "\"" + Escape(s) + "\""
  }

  // ---- Object.keys(obj).sort() ----

  lemma {:induction false} LeastKeyExists(keys: set<string>)
    requires keys != {}
    ensures exists k :: k in keys && forall x :: x in keys ==> !Less(x, k)
  {
    var k :| k in keys;
    LessIsTotal(k, k);
    var rest := keys - {k};
    if rest == {} {
      assert keys == {k};
    } else {
      LeastKeyExists(rest);
      var m :| m in rest && forall x :: x in rest ==> !Less(x, m);
      forall x | x in keys ensures !Less(x, LesserOf(k, m)) {
        assert x == k || x in rest;
        NoneIsLesser(k, m, x);
      }
      assert LesserOf(k, m) in keys;
    }
  }

  function LesserOf(k: string, m: string): string {
    if Less(k, m) then k else m
  }

  lemma {:induction false} NoneIsLesser(k: string, m: string, x: string)
    requires x == k || !Less(x, m)
    ensures !Less(x, LesserOf(k, m))
  {
    LessIsTotal(k, m);
    if Less(k, m) && Less(x, k) {
      LessIsTransitive(x, k, m);
    }
  }

  lemma {:induction false} LeastKeyIsUnique(keys: set<string>)
    ensures forall k, m ::
      k in keys && m in keys && (forall x :: x in keys ==> !Less(x, k)) && (forall x :: x in keys ==> !Less(x, m)) ==> k == m
  {
    forall k, m | k in keys && m in keys && (forall x :: x in keys ==> !Less(x, k)) && (forall x :: x in keys ==> !Less(x, m))
      ensures k == m
    {
      LessIsTotal(k, m);
    }
  }

  function LeastKey(keys: set<string>): (k: string)
    requires keys != {}
    ensures k in keys && forall x :: x in keys ==> !Less(x, k)
  {
    LeastKeyExists(keys);
    LeastKeyIsUnique(keys);
    var k :| k in keys && forall x :: x in keys ==> !Less(x, k);
    k
  }

  function SortedKeys(keys: set<string>): (ks: seq<string>)
    ensures forall k :: k in ks <==> k in keys
    decreases keys
  {
    if keys == {} then [] else
      var k := LeastKey(keys);
      [k] + SortedKeys(keys - {k})
  }

  /** The keys come out strictly ascending, each once. */
  lemma {:induction false} SortedKeysAscend(keys: set<string>, i: nat, j: nat)
    requires i < j < |SortedKeys(keys)|
    ensures Less(SortedKeys(keys)[i], SortedKeys(keys)[j])
    decreases keys
  {
    var k := LeastKey(keys);
    var rest := SortedKeys(keys - {k});
    if i == 0 {
      assert rest[j - 1] in rest;
      LessIsTotal(k, rest[j - 1]);
    } else {
      SortedKeysAscend(keys - {k}, i - 1, j - 1);
    }
  }

  // ---- canonicalize ----

  function Canonicalize(j: Json): string
    decreases j, 0
  {
    match j
    case Null => "null"
    case Bool(b) => if b then "true" else "false"
    case Str(s) => Quote(s)
    case Arr(items) => "[" + JoinItems(items) + "]"
    case Obj(fields) => "{" + JoinFields(j, SortedKeys(fields.Keys)) + "}"
  }

  function JoinItems(items: seq<Json>): string
    decreases items, 0
  {
    if items == [] then ""
    else if |items| == 1 then Canonicalize(items[0])
    else Canonicalize(items[0]) + "," + JoinItems(items[1..])
  }

  function JoinFields(obj: Json, keys: seq<string>): string
    requires obj.Obj? && forall k :: k in keys ==> k in obj.fields
    decreases obj, 0, |keys|
  {
    if keys == [] then ""
    else
      var pair := Quote(keys[0]) + ":" + Canonicalize(obj.fields[keys[0]]);
      if |keys| == 1 then pair else pair + "," + JoinFields(obj, keys[1..])
  }

  // ---- reading it back (RFC 8259, without numbers and white space, which are never written) ----

  datatype Reading<T> = Read(value: T, rest: string) | Unreadable

  datatype Field = Field(key: string, value: Json)

  function HexValue(c: char): Option<nat> {
    if '0' <= c <= '9' then Some(c as nat - '0' as nat)
    else if 'a' <= c <= 'f' then Some(c as nat - 'a' as nat + 10)
    else if 'A' <= c <= 'F' then Some(c as nat - 'A' as nat + 10)
    else None
  }

  /** The character a four-digit escape stands for, surrogates apart. */
  function ReadHex(s: string): (r: Reading<char>)
    ensures r.Read? ==> |r.rest| < |s|
  {
    if |s| < 4 || exists i :: 0 <= i < 4 && HexValue(s[i]).None? then Unreadable
    else
      var code := 4096 * HexValue(s[0]).value + 256 * HexValue(s[1]).value + 16 * HexValue(s[2]).value + HexValue(s[3]).value;
      if code < 0xD800 then Read(code as char, s[4..]) else Unreadable
  }

  /** One character of a string, after its opening quote. */
  function ReadChar(s: string): (r: Reading<char>)
    ensures r.Read? ==> |r.rest| < |s|
  {
    if s == "" || s[0] as int < 32 || s[0] == '"' then Unreadable
    else if s[0] != '\\' then Read(s[0], s[1..])
    else if |s| == 1 then Unreadable
    else match s[1]
      case '"' => Read('"', s[2..])
      case '\\' => Read('\\', s[2..])
      case '/' => Read('/', s[2..])
      case 'b' => Read(8 as char, s[2..])
      case 'f' => Read(12 as char, s[2..])
      case 'n' => Read(10 as char, s[2..])
      case 'r' => Read(13 as char, s[2..])
      case 't' => Read(9 as char, s[2..])
      case 'u' => ReadHex(s[2..])
      case _ => Unreadable
  }

  /** The characters up to the closing quote. */
  function ReadChars(s: string): (r: Reading<string>)
    ensures r.Read? ==> |r.rest| < |s|
    decreases |s|
  {
    if s != "" && s[0] == '"' then Read("", s[1..])
    else
      var first := ReadChar(s);
      if first.Unreadable? then Unreadable
      else
        var more := ReadChars(first.rest);
        if more.Unreadable? then Unreadable else Read([first.value] + more.value, more.rest)
  }

  function ReadString(s: string): (r: Reading<string>)
    ensures r.Read? ==> |r.rest| < |s|
  {
    if s != "" && s[0] == '"' then ReadChars(s[1..]) else Unreadable
  }

  /** A value, told apart by its first character. */
  function ReadJson(s: string): (r: Reading<Json>)
    ensures r.Read? ==> |r.rest| < |s|
    decreases |s|, 0
  {
    if s == "" then Unreadable
    else match s[0]
      case 'n' => if "null" <= s then Read(Null, s[4..]) else Unreadable
      case 't' => if "true" <= s then Read(Bool(true), s[4..]) else Unreadable
      case 'f' => if "false" <= s then Read(Bool(false), s[5..]) else Unreadable
      case '"' =>
        var text := ReadString(s);
        if text.Unreadable? then Unreadable else Read(Str(text.value), text.rest)
      case '[' =>
        var items := if |s| > 1 && s[1] == ']' then Read([], s[2..]) else ReadItems(s[1..]);
        if items.Unreadable? then Unreadable else Read(Arr(items.value), items.rest)
      case '{' =>
        var fields := if |s| > 1 && s[1] == '}' then Read([], s[2..]) else ReadFields(s[1..]);
        if fields.Unreadable? then Unreadable else Read(Obj(Collected(fields.value)), fields.rest)
      case _ => Unreadable
  }

  /** One item or more, up to the closing bracket. */
  function ReadItems(s: string): (r: Reading<seq<Json>>)
    ensures r.Read? ==> |r.rest| < |s|
    decreases |s|, 1
  {
    var first := ReadJson(s);
    if first.Unreadable? || first.rest == "" then Unreadable
    else if first.rest[0] == ']' then Read([first.value], first.rest[1..])
    else if first.rest[0] != ',' then Unreadable
    else
      var more := ReadItems(first.rest[1..]);
      if more.Unreadable? then Unreadable else Read([first.value] + more.value, more.rest)
  }

  /** One field or more, up to the closing brace, in the order they are written. */
  function ReadFields(s: string): (r: Reading<seq<Field>>)
    ensures r.Read? ==> |r.rest| < |s|
    decreases |s|, 1
  {
    var key := ReadString(s);
    if key.Unreadable? || key.rest == "" || key.rest[0] != ':' then Unreadable
    else
      var value := ReadJson(key.rest[1..]);
      if value.Unreadable? || value.rest == "" then Unreadable
      else
        var field := Field(key.value, value.value);
        if value.rest[0] == '}' then Read([field], value.rest[1..])
        else if value.rest[0] != ',' then Unreadable
        else
          var more := ReadFields(value.rest[1..]);
          if more.Unreadable? then Unreadable else Read([field] + more.value, more.rest)
  }

  /** The object some fields make; a key met again replaces what it held. */
  function Collected(fields: seq<Field>): map<string, Json> {
    if fields == [] then map[]
    else Collected(fields[..|fields| - 1])[fields[|fields| - 1].key := fields[|fields| - 1].value]
  }

  // ---- what is read back is what was written ----

  lemma {:induction false} Associates(a: string, b: string, c: string)
    ensures (a + b) + c == a + (b + c)
  {
  }

  lemma {:induction false} Enclosed(open: string, body: string, close: string, s: string)
    ensures open + body + close + s == open + (body + close + s)
  {
    Associates(open + body, close, s);
    Associates(open, body, close + s);
    Associates(body, close, s);
  }

  lemma {:induction false} After(front: string, s: string)
    ensures (front + s)[|front|..] == s && front <= front + s
  {
  }

  lemma {:induction false} HexDigitsAreRead(n: nat)
    requires n < 16
    ensures HexValue(HexDigit(n)) == Some(n)
  {
  }

  lemma {:induction false} EscapedCharIsRead(c: char, s: string)
    ensures ReadChar(EscapeChar(c) + s) == Read(c, s)
    ensures (EscapeChar(c) + s)[0] != '"'
  {
    var e := EscapeChar(c);
    After(e, s);
    if e[0] == '\\' && e[1] == 'u' {
      ControlIsRead(c, s);
    } else {
      assert |e| == 1 || |e| == 2;
    }
  }

  lemma {:induction false} ControlIsRead(c: char, s: string)
    requires c as int < 32
    ensures ReadHex(['0', '0', HexDigit(c as int / 16), HexDigit(c as int % 16)] + s) == Read(c, s)
  {
    var digits := ['0', '0', HexDigit(c as int / 16), HexDigit(c as int % 16)];
    HexDigitsAreRead(c as int / 16);
    HexDigitsAreRead(c as int % 16);
    After(digits, s);
    assert c as int == c as int / 16 * 16 + c as int % 16;
  }

  lemma {:induction false} EscapedIsRead(a: string, s: string)
    ensures ReadChars(Escape(a) + "\"" + s) == Read(a, s)
  {
    if a == "" {
      assert "" + "\"" + s == "\"" + s;
      After("\"", s);
    } else {
      var more := Escape(a[1..]) + "\"" + s;
      Enclosed(EscapeChar(a[0]), Escape(a[1..]), "\"", s);
      EscapedCharIsRead(a[0], more);
      EscapedIsRead(a[1..], s);
      assert a == [a[0]] + a[1..];
    }
  }

  lemma {:induction false} QuotedIsRead(a: string, s: string)
    ensures ReadString(Quote(a) + s) == Read(a, s)
    ensures (Quote(a) + s)[0] == '"'
  {
    Enclosed("\"", Escape(a), "\"", s);
    After("\"", Escape(a) + "\"" + s);
    EscapedIsRead(a, s);
  }

  function FirstChar(j: Json): char {
    match j
    case Null => 'n'
    case Bool(b) => if b then 't' else 'f'
    case Str(_) => '"'
    case Arr(_) => '['
    case Obj(_) => '{'
  }

  lemma {:induction false} CanonicalStartsWith(j: Json)
    ensures Canonicalize(j) != "" && Canonicalize(j)[0] == FirstChar(j)
  {
  }

  /** The fields of an object under some of its keys, in their order. */
  function FieldsAt(obj: Json, keys: seq<string>): (fields: seq<Field>)
    requires obj.Obj? && forall k :: k in keys ==> k in obj.fields
    ensures |fields| == |keys|
  {
    seq(|keys|, i requires 0 <= i < |keys| => Field(keys[i], obj.fields[keys[i]]))
  }

  lemma {:induction false} FieldsAtTheFirst(obj: Json, keys: seq<string>)
    requires obj.Obj? && keys != [] && forall k :: k in keys ==> k in obj.fields
    ensures FieldsAt(obj, keys) == [Field(keys[0], obj.fields[keys[0]])] + FieldsAt(obj, keys[1..])
  {
  }

  lemma {:induction false} CollectedHolds(obj: Json, keys: seq<string>)
    requires obj.Obj? && forall k :: k in keys ==> k in obj.fields
    ensures Collected(FieldsAt(obj, keys)) == map k | k in keys :: obj.fields[k]
  {
    if keys != [] {
      var n := |keys| - 1;
      CollectedHolds(obj, keys[..n]);
      assert FieldsAt(obj, keys)[..n] == FieldsAt(obj, keys[..n]);
      assert keys == keys[..n] + [keys[n]];
    }
  }

  /** All the fields of an object, in the order of its sorted keys, make the object. */
  lemma {:induction false} SortedFieldsMakeTheObject(obj: Json)
    requires obj.Obj?
    ensures Collected(FieldsAt(obj, SortedKeys(obj.fields.Keys))) == obj.fields
  {
    CollectedHolds(obj, SortedKeys(obj.fields.Keys));
  }

  // ---- what follows a value ----

  lemma {:induction false} ItemsUnfold(items: seq<Json>, s: string)
    requires items != []
    ensures JoinItems(items) + "]" + s
            == Canonicalize(items[0]) + (if |items| == 1 then "]" + s else "," + (JoinItems(items[1..]) + "]" + s))
  {
    if |items| == 1 {
      Associates(Canonicalize(items[0]), "]", s);
    } else {
      Enclosed(Canonicalize(items[0]) + ",", JoinItems(items[1..]), "]", s);
      Associates(Canonicalize(items[0]), ",", JoinItems(items[1..]) + "]" + s);
    }
  }

  lemma {:induction false} FieldsUnfold(obj: Json, keys: seq<string>, s: string)
    requires obj.Obj? && keys != [] && forall k :: k in keys ==> k in obj.fields
    ensures JoinFields(obj, keys) + "}" + s
            == Quote(keys[0]) + (":" + (Canonicalize(obj.fields[keys[0]])
                 + (if |keys| == 1 then "}" + s else "," + (JoinFields(obj, keys[1..]) + "}" + s))))
  {
    var q, v := Quote(keys[0]), Canonicalize(obj.fields[keys[0]]);
    Regroup(q, v, "}", s);
    Regroup(q, v, "," + JoinFields(obj, keys[1..]) + "}", s);
    CommaRegroup(q + ":" + v, JoinFields(obj, keys[1..]), s);
  }

  lemma {:induction false} Regroup(q: string, v: string, close: string, s: string)
    ensures q + ":" + v + close + s == q + (":" + (v + (close + s)))
  {
    Associates(q + ":" + v, close, s);
    Associates(q + ":", v, close + s);
    Associates(q, ":", v + (close + s));
  }

  lemma {:induction false} CommaRegroup(pair: string, rest: string, s: string)
    ensures pair + "," + rest + "}" + s == pair + ("," + rest + "}") + s
    ensures "," + rest + "}" + s == "," + (rest + "}" + s)
  {
    Enclosed(pair, ",", rest, "}");
    Enclosed(",", rest, "}", s);
  }

  // ---- values ----

  lemma {:induction false} LastItemIsRead(text: string, item: Json, s: string)
    requires ReadJson(text) == Read(item, "]" + s)
    ensures ReadItems(text) == Read([item], s)
  {
    After("]", s);
  }

  lemma {:induction false} MoreItemsAreRead(text: string, item: Json, more: string, items: seq<Json>, s: string)
    requires ReadJson(text) == Read(item, "," + more) && ReadItems(more) == Read(items, s)
    ensures ReadItems(text) == Read([item] + items, s)
  {
    After(",", more);
  }

  lemma {:induction false} ItemsAreRead(items: seq<Json>, s: string)
    requires items != []
    ensures ReadItems(JoinItems(items) + "]" + s) == Read(items, s)
    decreases items, 1
  {
    var text := JoinItems(items) + "]" + s;
    ItemsUnfold(items, s);
    if |items| == 1 {
      ValuesAreRead(items[0], "]" + s);
      LastItemIsRead(text, items[0], s);
      assert items == [items[0]];
    } else {
      var more := JoinItems(items[1..]) + "]" + s;
      ValuesAreRead(items[0], "," + more);
      ItemsAreRead(items[1..], s);
      MoreItemsAreRead(text, items[0], more, items[1..], s);
      assert items == [items[0]] + items[1..];
    }
  }

  lemma {:induction false} FieldsAreRead(obj: Json, keys: seq<string>, s: string)
    requires obj.Obj? && keys != [] && forall k :: k in keys ==> k in obj.fields
    ensures ReadFields(JoinFields(obj, keys) + "}" + s) == Read(FieldsAt(obj, keys), s)
    decreases obj, 0, |keys|
  {
    var follows := if |keys| == 1 then "}" + s else "," + (JoinFields(obj, keys[1..]) + "}" + s);
    var value := Canonicalize(obj.fields[keys[0]]) + follows;
    FieldsUnfold(obj, keys, s);
    QuotedIsRead(keys[0], ":" + value);
    After(":", value);
    ValuesAreRead(obj.fields[keys[0]], follows);
    FieldsAtTheFirst(obj, keys);
    if |keys| == 1 {
      After("}", s);
      assert FieldsAt(obj, keys) == [Field(keys[0], obj.fields[keys[0]])];
    } else {
      After(",", JoinFields(obj, keys[1..]) + "}" + s);
      FieldsAreRead(obj, keys[1..], s);
    }
  }

  /**
   * Reading a canonical text, whatever follows it, gives the value it is the text of, and what follows; and an
   * object is written with its fields in the order of their sorted keys.
   */
  lemma {:induction false} ValuesAreRead(j: Json, s: string)
    ensures ReadJson(Canonicalize(j) + s) == Read(j, s)
    decreases j, 1
  {
    match j
    case Null => After("null", s);
    case Bool(b) => After(if b then "true" else "false", s);
    case Str(text) => QuotedIsRead(text, s);
    case Arr(items) => ArraysAreRead(j, s);
    case Obj(fields) => ObjectsAreRead(j, s);
  }

  lemma {:induction false} ArraysAreRead(j: Json, s: string)
    requires j.Arr?
    ensures ReadJson(Canonicalize(j) + s) == Read(j, s)
    decreases j, 0
  {
    var body := JoinItems(j.items) + "]" + s;
    Enclosed("[", JoinItems(j.items), "]", s);
    After("[", body);
    if j.items == [] {
      assert body == "]" + s;
      After("[]", s);
    } else {
      ItemsAreRead(j.items, s);
      ItemsUnfold(j.items, s);
      CanonicalStartsWith(j.items[0]);
    }
  }

  lemma {:induction false} BracedIsRead(body: string, fields: seq<Field>, s: string)
    requires body != "" && body[0] != '}' && ReadFields(body) == Read(fields, s)
    ensures ReadJson("{" + body) == Read(Obj(Collected(fields)), s)
  {
    After("{", body);
  }

  lemma {:induction false} NoFieldsAreRead(s: string)
    ensures ReadJson("{" + ("}" + s)) == Read(Obj(map[]), s)
  {
    After("{", "}" + s);
    After("}", s);
  }

  lemma {:induction false} ObjectsAreRead(j: Json, s: string)
    requires j.Obj?
    ensures ReadJson(Canonicalize(j) + s) == Read(j, s)
    decreases j, 0
  {
    var keys := SortedKeys(j.fields.Keys);
    var body := JoinFields(j, keys) + "}" + s;
    Enclosed("{", JoinFields(j, keys), "}", s);
    if keys == [] {
      assert body == "}" + s;
      NoFieldsAreRead(s);
      assert j.fields.Keys == {} && j.fields == map[];
    } else {
      FieldsStartQuoted(j, keys, s);
      FieldsAreRead(j, keys, s);
      BracedIsRead(body, FieldsAt(j, keys), s);
      SortedFieldsMakeTheObject(j);
    }
  }

  lemma {:induction false} FieldsStartQuoted(obj: Json, keys: seq<string>, s: string)
    requires obj.Obj? && keys != [] && forall k :: k in keys ==> k in obj.fields
    ensures (JoinFields(obj, keys) + "}" + s)[0] == '"'
  {
  }

  /** An object is written with its fields in the ascending order of their keys, each once. */
  lemma {:induction false} FieldsAreWrittenInOrder(j: Json, s: string, i: nat, k: nat)
    requires j.Obj? && i < k < |SortedKeys(j.fields.Keys)|
    ensures var fields := ReadFields((Canonicalize(j) + s)[1..]);
      fields.Read? && k < |fields.value| && Less(fields.value[i].key, fields.value[k].key)
  {
    var keys := SortedKeys(j.fields.Keys);
    Enclosed("{", JoinFields(j, keys), "}", s);
    After("{", JoinFields(j, keys) + "}" + s);
    FieldsAreRead(j, keys, s);
    SortedKeysAscend(j.fields.Keys, i, k);
  }

  // ---- and so no two values share a text ----

  /** No canonical text is the beginning of another: what follows it is determined too. */
  lemma {:induction false} CanonicalizeIsPrefixFree(a: Json, b: Json, s: string, t: string)
    requires Canonicalize(a) + s == Canonicalize(b) + t
    ensures a == b && s == t
  {
    ValuesAreRead(a, s);
    ValuesAreRead(b, t);
  }

  /** Two values have one canonical text exactly when they are equal up to the order of their keys. */
  lemma {:induction false} CanonicalizeIsInjective(a: Json, b: Json)
    ensures Canonicalize(a) == Canonicalize(b) <==> a == b
  {
    if Canonicalize(a) == Canonicalize(b) {
      assert Canonicalize(a) + "" == Canonicalize(b) + "";
      CanonicalizeIsPrefixFree(a, b, "", "");
    }
  }
}
