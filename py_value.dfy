/** Python values as the program's data holds them: JSON-like trees whose
    dictionaries keep insertion order (`seq` of key/value pairs). */
module Py {
  import opened Wrappers
  import opened Text

  datatype Value =
    | Null
    | Bool(b: bool)
    | Int(i: int)
    | Str(s: string)
    | List(items: seq<Value>)
    | Dict(entries: seq<(string, Value)>)

  /** The keys of a dictionary in insertion order. */
  function Keys(d: seq<(string, Value)>): (ks: seq<string>)
    ensures |ks| == |d| && forall i :: 0 <= i < |d| ==> ks[i] == d[i].0
  {
    if |d| == 0 then [] else [d[0].0] + Keys(d[1..])
  }

  lemma {:induction false} KeysConcat(a: seq<(string, Value)>, b: seq<(string, Value)>)
    ensures Keys(a + b) == Keys(a) + Keys(b)
  {
    assert forall i :: 0 <= i < |a + b| ==> Keys(a + b)[i] == (Keys(a) + Keys(b))[i];
  }

  predicate HasKey(d: seq<(string, Value)>, k: string) {
    k in Keys(d)
  }

  /** Every key appears once, as in a Python `dict`. */
  predicate UniqueKeys(d: seq<(string, Value)>) {
    forall i, j :: 0 <= i < j < |d| ==> d[i].0 != d[j].0
  }

  /** The position of `k`, if present. */
  function KeyIndex(d: seq<(string, Value)>, k: string): (r: Option<nat>)
    ensures r.Some? ==> r.value < |d| && d[r.value].0 == k
    ensures r.Some? ==> forall j :: 0 <= j < r.value ==> d[j].0 != k
    ensures r.None? <==> !HasKey(d, k)
  {
    if |d| == 0 then None
    else if d[0].0 == k then Some(0)
    else match KeyIndex(d[1..], k)
      case None => None
      case Some(j) => Some(j + 1)
  }

  /** With unique keys, the entry holding a key is where lookup finds it. */
  lemma {:induction false} KeyIndexOf(d: seq<(string, Value)>, i: nat)
    requires UniqueKeys(d) && i < |d|
    ensures KeyIndex(d, d[i].0) == Some(i)
  {
    assert Keys(d)[i] == d[i].0;
  }

  /** `d.get(k)` */
  function Get(d: seq<(string, Value)>, k: string): Option<Value> {
    match KeyIndex(d, k)
    case None => None
    case Some(i) => Some(d[i].1)
  }

  /** `d[k] = v`: an existing key keeps its place, a new key goes last. */
  function Put(d: seq<(string, Value)>, k: string, v: Value): (r: seq<(string, Value)>)
    ensures Get(r, k) == Some(v)
    ensures forall k' :: k' != k ==> Get(r, k') == Get(d, k')
    ensures Keys(r) == if HasKey(d, k) then Keys(d) else Keys(d) + [k]
    ensures UniqueKeys(d) ==> UniqueKeys(r)
  {
    match KeyIndex(d, k)
    case None =>
      PutNew(d, k, v);
      d + [(k, v)]
    case Some(i) =>
      PutExisting(d, i, k, v);
      d[i := (k, v)]
  }

  lemma {:induction false} PutNew(d: seq<(string, Value)>, k: string, v: Value)
    requires !HasKey(d, k)
    ensures var r := d + [(k, v)];
      Get(r, k) == Some(v) && (forall k' :: k' != k ==> Get(r, k') == Get(d, k'))
      && Keys(r) == Keys(d) + [k] && (UniqueKeys(d) ==> UniqueKeys(r))
  {
    var r := d + [(k, v)];
    assert Keys(r) == Keys(d) + [k];
    KeyIndexAppend(d, k, (k, v));
    forall k' | k' != k ensures KeyIndex(r, k') == KeyIndex(d, k') {
      KeyIndexAppend(d, k', (k, v));
    }
    assert forall i :: 0 <= i < |d| ==> d[i].0 != k by {
      forall i | 0 <= i < |d| ensures d[i].0 != k {
        assert Keys(d)[i] == d[i].0;
      }
    }
  }

  lemma {:induction false} PutExisting(d: seq<(string, Value)>, i: nat, k: string, v: Value)
    requires KeyIndex(d, k) == Some(i)
    ensures var r := d[i := (k, v)];
      Get(r, k) == Some(v) && (forall k' :: k' != k ==> Get(r, k') == Get(d, k'))
      && Keys(r) == Keys(d) && (UniqueKeys(d) ==> UniqueKeys(r))
  {
    var r := d[i := (k, v)];
    assert Keys(r) == Keys(d);
    KeyIndexSame(d, i, k, v);
    forall k' | k' != k ensures KeyIndex(r, k') == KeyIndex(d, k') {
      KeyIndexUpdate(d, i, k', (k, v));
    }
  }

  lemma {:induction false} AppendTail<T>(d: seq<T>, e: T)
    requires |d| > 0
    ensures (d + [e])[1..] == d[1..] + [e]
  {
  }

  lemma {:induction false} UpdateTail<T>(d: seq<T>, i: nat, e: T)
    requires 0 < i < |d|
    ensures d[i := e][1..] == d[1..][i - 1 := e]
  {
  }

  /** A key that is not yet present is found last after it is appended. */
  lemma {:induction false} KeyIndexAppend(d: seq<(string, Value)>, k: string, e: (string, Value))
    ensures e.0 != k ==> KeyIndex(d + [e], k) == KeyIndex(d, k)
    ensures e.0 == k && !HasKey(d, k) ==> KeyIndex(d + [e], k) == Some(|d|)
  {
    if |d| > 0 {
      AppendTail(d, e);
      KeyIndexAppend(d[1..], k, e);
    }
  }

  lemma {:induction false} KeyIndexSame(d: seq<(string, Value)>, i: nat, k: string, v: Value)
    requires KeyIndex(d, k) == Some(i)
    ensures KeyIndex(d[i := (k, v)], k) == Some(i)
  {
    if i > 0 {
      assert d[0].0 != k && KeyIndex(d[1..], k) == Some(i - 1);
      UpdateTail(d, i, (k, v));
      KeyIndexSame(d[1..], i - 1, k, v);
      assert d[i := (k, v)][0] == d[0];
    }
  }

  lemma {:induction false} KeyIndexUpdate(d: seq<(string, Value)>, i: nat, k: string, e: (string, Value))
    requires i < |d| && d[i].0 == e.0 && e.0 != k
    ensures KeyIndex(d[i := e], k) == KeyIndex(d, k)
  {
    if i > 0 {
      UpdateTail(d, i, e);
      KeyIndexUpdate(d[1..], i - 1, k, e);
    }
  }

  /** The second of two assignments to one key is the one that counts. */
  lemma {:induction false} PutTwice(d: seq<(string, Value)>, k: string, x: Value, y: Value)
    ensures Put(Put(d, k, x), k, y) == Put(d, k, y)
  {
    match KeyIndex(d, k) {
      case None => PutTwiceNew(d, k, x, y);
      case Some(i) => PutTwiceOld(d, i, k, x, y);
    }
  }

  lemma {:induction false} PutTwiceNew(d: seq<(string, Value)>, k: string, x: Value, y: Value)
    requires KeyIndex(d, k).None?
    ensures Put(Put(d, k, x), k, y) == Put(d, k, y)
  {
    var e := d + [(k, x)];
    PutEnd(d, k, x);
    PutEnd(d, k, y);
    KeyIndexAppend(d, k, (k, x));
    PutAt(e, |d|, k, y);
    assert e[|d| := (k, y)] == d + [(k, y)];
  }

  lemma {:induction false} PutTwiceOld(d: seq<(string, Value)>, i: nat, k: string, x: Value, y: Value)
    requires KeyIndex(d, k) == Some(i)
    ensures Put(Put(d, k, x), k, y) == Put(d, k, y)
  {
    var e := d[i := (k, x)];
    PutAt(d, i, k, x);
    KeyIndexSame(d, i, k, x);
    PutAt(e, i, k, y);
    PutAt(d, i, k, y);
    UpdateTwice(d, i, (k, x), (k, y));
  }

  lemma {:induction false} UpdateTwice<T>(s: seq<T>, i: nat, a: T, b: T)
    requires i < |s|
    ensures s[i := a][i := b] == s[i := b]
  {
  }

  lemma {:induction false} PutEnd(d: seq<(string, Value)>, k: string, v: Value)
    requires KeyIndex(d, k).None?
    ensures Put(d, k, v) == d + [(k, v)]
  {
  }

  lemma {:induction false} PutAt(d: seq<(string, Value)>, i: nat, k: string, v: Value)
    requires KeyIndex(d, k) == Some(i)
    ensures Put(d, k, v) == d[i := (k, v)]
  {
  }

  /** Assigning a key the value it holds changes nothing. */
  lemma {:induction false} PutSame(d: seq<(string, Value)>, k: string, v: Value)
    requires Get(d, k) == Some(v)
    ensures Put(d, k, v) == d
  {
    var i := KeyIndex(d, k).value;
    assert d[i := (k, v)] == d;
  }

  /** The dictionary after `d[k] = v` for each pair of `ws` in turn. */
  function PutAll(d: seq<(string, Value)>, ws: seq<(string, Value)>): seq<(string, Value)>
    decreases |ws|
  {
    if |ws| == 0 then d else Put(PutAll(d, ws[..|ws| - 1]), ws[|ws| - 1].0, ws[|ws| - 1].1)
  }

  /** The value of the last pair of `ws` whose key is `k`. */
  function LastWrite(ws: seq<(string, Value)>, k: string): (r: Option<Value>)
    ensures r.None? <==> forall i :: 0 <= i < |ws| ==> ws[i].0 != k
    ensures r.Some? ==>
      exists i :: 0 <= i < |ws| && ws[i] == (k, r.value) && forall j :: i < j < |ws| ==> ws[j].0 != k
    decreases |ws|
  {
    if |ws| == 0 then None
    else if ws[|ws| - 1].0 == k then Some(ws[|ws| - 1].1)
    else
      var r := LastWrite(ws[..|ws| - 1], k);
      LastWriteEarlier(ws, ws[..|ws| - 1], k, r);
      r
  }

  /** The last write of a key the final pair does not name is its last
      write among the earlier pairs. */
  lemma {:induction false} LastWriteEarlier(ws: seq<(string, Value)>, init: seq<(string, Value)>, k: string, r: Option<Value>)
    requires 0 < |ws| && init == ws[..|ws| - 1] && ws[|ws| - 1].0 != k
    requires r.None? <==> forall i :: 0 <= i < |init| ==> init[i].0 != k
    requires r.Some? ==>
      exists i :: 0 <= i < |init| && init[i] == (k, r.value) && forall j :: i < j < |init| ==> init[j].0 != k
    ensures r.None? <==> forall i :: 0 <= i < |ws| ==> ws[i].0 != k
    ensures r.Some? ==>
      exists i :: 0 <= i < |ws| && ws[i] == (k, r.value) && forall j :: i < j < |ws| ==> ws[j].0 != k
  {
    assert forall i :: 0 <= i < |init| ==> init[i] == ws[i];
    if r.Some? {
      var i :| 0 <= i < |init| && init[i] == (k, r.value) && forall j :: i < j < |init| ==> init[j].0 != k;
      assert ws[i] == (k, r.value);
      assert forall j :: i < j < |ws| ==> ws[j].0 != k;
    }
  }

  /** After a series of assignments a key holds its last assigned value, or
      what it held before when it was never assigned. */
  lemma {:induction false} GetPutAll(d: seq<(string, Value)>, ws: seq<(string, Value)>, k: string)
    ensures Get(PutAll(d, ws), k) == if LastWrite(ws, k).Some? then LastWrite(ws, k) else Get(d, k)
    decreases |ws|
  {
    if |ws| > 0 {
      GetPutAll(d, ws[..|ws| - 1], k);
    }
  }

  /** Assignments keep the keys unique. */
  lemma {:induction false} PutAllUnique(d: seq<(string, Value)>, ws: seq<(string, Value)>)
    requires UniqueKeys(d)
    ensures UniqueKeys(PutAll(d, ws))
    decreases |ws|
  {
    if |ws| > 0 {
      PutAllUnique(d, ws[..|ws| - 1]);
    }
  }

  /** Two series of assignments in a row are one series. */
  lemma {:induction false} PutAllConcat(d: seq<(string, Value)>, a: seq<(string, Value)>, b: seq<(string, Value)>)
    ensures PutAll(d, a + b) == PutAll(PutAll(d, a), b)
    decreases |b|
  {
    if |b| == 0 {
      assert a + b == a;
    } else {
      assert (a + b)[..|a + b| - 1] == a + b[..|b| - 1];
      PutAllConcat(d, a, b[..|b| - 1]);
    }
  }

  /** Assigning at least once leaves a non-empty dictionary; assigning
      nothing leaves it as it was. */
  lemma {:induction false} PutAllEmpty(d: seq<(string, Value)>, ws: seq<(string, Value)>)
    ensures |ws| == 0 ==> PutAll(d, ws) == d
    ensures |ws| > 0 ==> |PutAll(d, ws)| > 0
  {
    if |ws| > 0 {
      var k := ws[|ws| - 1].0;
      assert Get(PutAll(d, ws), k).Some?;
    }
  }

  /** `if v is not None: d[k] = v` */
  function PutIf(d: seq<(string, Value)>, e: (string, Option<Value>)): seq<(string, Value)> {
    if e.1.Some? then Put(d, e.0, e.1.value) else d
  }

  /** The optional entries put in turn. */
  function PutSome(d: seq<(string, Value)>, es: seq<(string, Option<Value>)>): seq<(string, Value)>
    decreases |es|
  {
    if |es| == 0 then d else PutSome(PutIf(d, es[0]), es[1..])
  }

  lemma {:induction false} PutSomeFive(d: seq<(string, Value)>, a: (string, Option<Value>), b: (string, Option<Value>),
                    c: (string, Option<Value>), e: (string, Option<Value>), f: (string, Option<Value>))
    ensures PutSome(d, [a, b, c, e, f]) == PutIf(PutIf(PutIf(PutIf(PutIf(d, a), b), c), e), f)
  {
    var d1 := PutIf(d, a);
    var d2 := PutIf(d1, b);
    var d3 := PutIf(d2, c);
    var d4 := PutIf(d3, e);
    assert PutSome(d, [a, b, c, e, f]) == PutSome(d1, [b, c, e, f]);
    assert PutSome(d1, [b, c, e, f]) == PutSome(d2, [c, e, f]);
    assert PutSome(d2, [c, e, f]) == PutSome(d3, [e, f]);
    assert PutSome(d3, [e, f]) == PutSome(d4, [f]);
    assert PutSome(d4, [f]) == PutSome(PutIf(d4, f), []);
  }

  /** Optional entries under distinct new keys: each is present exactly
      when given, and nothing else changes. */
  lemma {:induction false} PutSomeReads(d: seq<(string, Value)>, es: seq<(string, Option<Value>)>)
    requires UniqueKeys(d)
    requires forall i :: 0 <= i < |es| ==> !HasKey(d, es[i].0)
    requires forall i, j :: 0 <= i < j < |es| ==> es[i].0 != es[j].0
    ensures var r := PutSome(d, es);
      && UniqueKeys(r)
      && (forall i :: 0 <= i < |es| ==> Get(r, es[i].0) == es[i].1)
      && (forall k :: (forall i :: 0 <= i < |es| ==> es[i].0 != k) ==> Get(r, k) == Get(d, k))
      && (forall k :: HasKey(r, k) ==> HasKey(d, k) || exists i :: 0 <= i < |es| && es[i].0 == k)
    decreases |es|
  {
    if |es| > 0 {
      var e := es[0];
      var rest := es[1..];
      var d1 := PutIf(d, e);
      assert forall i :: 0 <= i < |rest| ==> rest[i] == es[i + 1];
      assert forall i :: 0 <= i < |rest| ==> rest[i].0 != e.0 && !HasKey(d, rest[i].0);
      assert forall k :: HasKey(d1, k) ==> HasKey(d, k) || k == e.0;
      PutSomeReads(d1, rest);
      var r := PutSome(d1, rest);
      assert Get(d1, e.0) == e.1;
      forall i | 0 <= i < |es| ensures Get(r, es[i].0) == es[i].1 {
        if i > 0 {
          assert rest[i - 1] == es[i];
        }
      }
      forall k | HasKey(r, k) ensures HasKey(d, k) || exists i :: 0 <= i < |es| && es[i].0 == k {
        if !HasKey(d1, k) {
          var i :| 0 <= i < |rest| && rest[i].0 == k;
          assert es[i + 1].0 == k;
        }
      }
    }
  }

  /** `container[key] = v`: only a dictionary accepts a string key. */
  function SetItem(container: Value, key: string, v: Value): (r: Result<Value>)
    ensures r.Ok? <==> container.Dict?
    ensures r.Ok? ==> r.value == Dict(Put(container.entries, key, v))
  {
    if container.Dict? then Ok(Dict(Put(container.entries, key, v))) else Raised("TypeError")
  }

  /** A list of strings as a Python list value. */
  function StrList(ws: seq<string>): (r: seq<Value>)
    ensures |r| == |ws| && forall i :: 0 <= i < |ws| ==> r[i] == Str(ws[i])
  {
    seq(|ws|, i requires 0 <= i < |ws| => Str(ws[i]))
  }

  /** Python truthiness. */
  predicate Truthy(v: Value) {
    match v
    case Null => false
    case Bool(b) => b
    case Int(i) => i != 0
    case Str(s) => |s| > 0
    case List(xs) => |xs| > 0
    case Dict(d) => |d| > 0
  }

  /** Python `==`: `True == 1`, and dictionaries compare regardless of order. */
  function PyEq(a: Value, b: Value): bool
    decreases a
  {
    match a
    case Null => b.Null?
    case Bool(x) => (b.Bool? && b.b == x) || (b.Int? && b.i == (if x then 1 else 0))
    case Int(x) => (b.Int? && b.i == x) || (b.Bool? && x == (if b.b then 1 else 0))
    case Str(x) => b.Str? && b.s == x
    case List(xs) =>
      b.List? && |b.items| == |xs|
      && forall i :: 0 <= i < |xs| ==> PyEq(xs[i], b.items[i])
    case Dict(d) =>
      b.Dict? && |b.entries| == |d|
      && (forall i :: 0 <= i < |d| ==> HasKey(b.entries, d[i].0))
      && forall i :: 0 <= i < |d| ==>
        match Get(b.entries, d[i].0)
        case None => false
        case Some(w) => PyEq(d[i].1, w)
  }

  /** Python `key in container` for a string-keyed dictionary, a string or a
      list; anything else raises TypeError. */
  function In(key: Value, container: Value): Result<bool> {
    match container
    case Dict(d) =>
      if key.List? || key.Dict? then Raised("TypeError")
      else Ok(key.Str? && HasKey(d, key.s))
    case Str(s) => if key.Str? then Ok(Contains(s, key.s)) else Raised("TypeError")
    case List(xs) => Ok(exists i :: 0 <= i < |xs| && PyEq(key, xs[i]))
    case _ => Raised("TypeError")
  }

  /** Python `container[key]` with a string key. */
  function Index(container: Value, key: string): Result<Value> {
    if container.Dict? then
      match Get(container.entries, key)
      case Some(v) => Ok(v)
      case None => Raised("KeyError")
    else Raised("TypeError")
  }

  function HexDigit(d: nat): char
    requires d < 16
  {
    if d < 10 then DigitChar(d) else ('a' as int + d - 10) as char
  }

  /** How `repr` writes one character of a string quoted with `quote`. */
  function EscapeChar(c: char, quote: char): string {
    if c == '\\' then "\\\\"
    else if c == quote then ['\\', quote]
    else if c == '\t' then "\\t"
    else if c == '\n' then "\\n"
    else if c == '\r' then "\\r"
    else if c < ' ' || ('\U{7f}' <= c <= '\U{a0}') then
      var n := c as int;
      "\\x" + [HexDigit(n / 16), HexDigit(n % 16)]
    else [c]
  }

  function Escape(s: string, quote: char): string {
    if |s| == 0 then "" else EscapeChar(s[0], quote) + Escape(s[1..], quote)
  }

  /** `repr(s)`: single quotes unless the text holds a single quote and no
      double quote. */
  function ReprString(s: string): string {
    var quote := if '\'' in s && '"' !in s then '"' else '\'';
    [quote] + Escape(s, quote) + [quote]
  }

  /** `str(v)` as an f-string writes it. */
  function PyStr(v: Value): string
    decreases v, 2, 0
  {
    match v
    case Str(s) => s
    case _ => PyRepr(v)
  }

  /** `repr(v)` */
  function PyRepr(v: Value): string
    decreases v, 1, 0
  {
    match v
    case Null => "None"
    case Bool(b) => if b then "True" else "False"
    case Int(i) => IntToString(i)
    case Str(s) => ReprString(s)
    case List(xs) => "[" + ReprItems(v, 0) + "]"
    case Dict(d) => "{" + ReprEntries(v, 0) + "}"
  }

  function ReprItems(v: Value, from: nat): string
    requires v.List?
    decreases v, 0, |v.items| - from
  {
    if from >= |v.items| then ""
    else (if from > 0 then ", " else "") + PyRepr(v.items[from]) + ReprItems(v, from + 1)
  }

  function ReprEntries(v: Value, from: nat): string
    requires v.Dict?
    decreases v, 0, |v.entries| - from
  {
    if from >= |v.entries| then ""
    else
      (if from > 0 then ", " else "") + ReprString(v.entries[from].0) + ": "
      + PyRepr(v.entries[from].1) + ReprEntries(v, from + 1)
  }
}
