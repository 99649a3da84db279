/** The analysis of a Linux `cat /proc/cpuinfo`: the output is cut into
    blocks that start at `processor` and end at the next blank line, every
    line of a block is a `key: value` pair with a typed value, and the
    pairs of each block are filed under its processor in `cpu_info`. */
module CpuInfo {
  import opened Wrappers
  import opened Text
  import opened Py
  import opened Analyzer

  const Command := "cat /proc/cpuinfo"

  /** The pairs of one processor, keyed by name. */
  type Info = seq<(string, Value)>

  /** `cpu_info`: a dictionary whose keys are the processor values (compared
      as Python compares them, so `True` and `1` are the same key), in the
      order they were added. */
  type CpuTable = seq<(Value, Info)>

  // ---------------------------------------------------------------------
  // Blocks

  /** No blank line inside. */
  predicate NoBlank(b: string) {
    forall q :: 0 <= q < |b| - 1 ==> !(b[q] == '\n' && b[q + 1] == '\n')
  }

  /** What `(processor.*?)\n\n` captures: it starts with `processor`, holds
      no blank line and does not end with a newline. */
  predicate IsBlock(b: string) {
    StartsWith(b, "processor") && NoBlank(b) && b[|b| - 1] != '\n'
  }

  /** `re.findall('(processor.*?)\n\n', s, re.DOTALL)`: each match starts at
      the next `processor` and ends at the first blank line after it; the
      search goes on after that blank line. */
  function Blocks(s: string): (r: seq<string>)
    ensures forall k :: 0 <= k < |r| ==> IsBlock(r[k])
    decreases |s|
  {
    match Find(s, "processor", 0)
    case None => []
    case Some(i) =>
      match Find(s, "\n\n", i + 9)
      case None => []
      case Some(j) =>
        BlockFound(s, i, j);
        [s[i..j]] + Blocks(s[j + 2..])
  }

  /** The text between a `processor` and the first blank line after it is a
      block. */
  lemma {:induction false} BlockFound(s: string, i: nat, j: nat)
    requires OccursAt(s, "processor", i) && OccursAt(s, "\n\n", j) && i + 9 <= j
    requires forall q :: i + 9 <= q < j ==> !OccursAt(s, "\n\n", q)
    ensures IsBlock(s[i..j])
  {
    var b := s[i..j];
    assert b[..9] == s[i..i + 9];
    forall q | 0 <= q < |b| - 1 ensures !(b[q] == '\n' && b[q + 1] == '\n') {
      if q < 9 {
        assert b[q] == "processor"[q];
      } else {
        assert !OccursAt(s, "\n\n", i + q);
        assert s[i + q..i + q + 2] == [b[q], b[q + 1]];
      }
    }
    if j - 1 < i + 9 {
      assert b[|b| - 1] == "processor"[8];
    } else {
      assert !OccursAt(s, "\n\n", j - 1);
      assert s[j - 1..j + 1] == [s[j - 1], s[j]];
    }
  }

  /** Every block followed by a blank line. */
  function Terminated(bs: seq<string>): string {
    if |bs| == 0 then "" else bs[0] + "\n\n" + Terminated(bs[1..])
  }

  /** The first block of such a text is found where it stands. */
  lemma {:induction false} BlockHead(b: string, rest: string)
    requires IsBlock(b)
    ensures var s := b + "\n\n" + rest;
      Find(s, "processor", 0) == Some(0) && Find(s, "\n\n", 9) == Some(|b|)
      && s[0..|b|] == b && s[|b| + 2..] == rest
  {
    var s := b + "\n\n" + rest;
    assert s[..|b|] == b;
    assert OccursAt(s, "processor", 0) by { assert s[..9] == b[..9]; }
    BlankAfter(b, rest);
    assert s[|b| + 2..] == rest;
  }

  lemma {:induction false} BlankAfter(b: string, rest: string)
    requires IsBlock(b)
    ensures Find(b + "\n\n" + rest, "\n\n", 9) == Some(|b|)
  {
    var s := b + "\n\n" + rest;
    assert OccursAt(s, "\n\n", |b|) by { assert s[|b|..|b| + 2] == "\n\n"; }
    forall q | 9 <= q < |b| ensures !OccursAt(s, "\n\n", q) {
      if q + 1 < |b| {
        assert s[q..q + 2] == [b[q], b[q + 1]];
      } else {
        assert s[q..q + 2][0] == b[q];
      }
    }
  }

  /** The blocks of a text made of blocks, each followed by a blank line,
      are those blocks. */
  lemma {:induction false} BlocksTerminated(bs: seq<string>)
    requires forall k :: 0 <= k < |bs| ==> IsBlock(bs[k])
    ensures Blocks(Terminated(bs)) == bs
    decreases |bs|
  {
    if |bs| == 0 {
      assert Find("", "processor", 0).None?;
    } else {
      BlocksCons(bs[0], Terminated(bs[1..]));
      BlocksTerminated(bs[1..]);
      assert bs == [bs[0]] + bs[1..];
    }
  }

  lemma {:induction false} BlocksCons(b: string, rest: string)
    requires IsBlock(b)
    ensures Blocks(b + "\n\n" + rest) == [b] + Blocks(rest)
  {
    BlockHead(b, rest);
  }

  /** The output the analyzer sees, with the blank line it appends, is the
      blocks each followed by a blank line. */
  lemma {:induction false} JoinTerminated(bs: seq<string>)
    requires |bs| > 0
    ensures Join(bs, "\n\n") + "\n\n" == Terminated(bs)
    decreases |bs|
  {
    if |bs| > 1 {
      JoinTerminated(bs[1..]);
    }
  }

  /** A `cat /proc/cpuinfo` made of blocks separated by blank lines gives
      exactly those blocks. */
  lemma {:induction false} BlocksOfOutput(bs: seq<string>)
    requires |bs| > 0 && forall k :: 0 <= k < |bs| ==> IsBlock(bs[k])
    ensures Blocks(Join(bs, "\n\n") + "\n\n") == bs
  {
    JoinTerminated(bs);
    BlocksTerminated(bs);
  }

  // ---------------------------------------------------------------------
  // Lines

  /** The typing of a value: all digits become the number `int()` reads,
      an empty value `None`, `yes` and `no` in any case `True` and `False`,
      and anything else the stripped text. */
  function Typed(raw: string): Value {
    var v := Strip(raw);
    if |v| > 0 && AllDigits(v) then
      NumberRead(raw);
      Int(ParseInt(raw).value)
    else if v == "" then Null
    else if Lower(v) == "yes" then Bool(true)
    else if Lower(v) == "no" then Bool(false)
    else Str(v)
  }

  /** `int()` reads a padded run of digits as its decimal value. */
  lemma {:induction false} NumberRead(raw: string)
    requires |Strip(raw)| > 0 && AllDigits(Strip(raw))
    ensures ParseInt(raw) == Some(DigitsValue(Strip(raw)))
  {
    var v := Strip(raw);
    ParseIntDigits(v);
    StripDigits(v);
  }

  /** A number written with padding around it is read back as that number. */
  lemma {:induction false} TypedNumber(n: nat, before: string, after: string)
    requires AllSpace(before) && AllSpace(after)
    ensures Typed(before + NatToString(n) + after) == Int(n)
  {
    var d := NatToString(n);
    PaddedStrip(before, d, after);
    NumberRead(before + d + after);
  }

  /** Stripping padding off a text that starts and ends with a non-space
      gives the text. */
  lemma {:induction false} PaddedStrip(before: string, d: string, after: string)
    requires AllSpace(before) && AllSpace(after) && |d| > 0 && !IsSpace(d[0]) && !IsSpace(d[|d| - 1])
    ensures Strip(before + d + after) == d
  {
    assert before + d + after == before + (d + after);
    LStripPad(before, d + after);
    RStripPad(d, after);
  }

  lemma {:induction false} LStripPad(before: string, x: string)
    requires AllSpace(before) && |x| > 0 && !IsSpace(x[0])
    ensures LStrip(before + x) == x
    decreases |before|
  {
    if |before| > 0 {
      assert (before + x)[1..] == before[1..] + x;
      LStripPad(before[1..], x);
    } else {
      assert before + x == x;
    }
  }

  lemma {:induction false} RStripPad(y: string, after: string)
    requires AllSpace(after) && |y| > 0 && !IsSpace(y[|y| - 1])
    ensures RStrip(y + after) == y
    decreases |after|
  {
    if |after| > 0 {
      var a := after[..|after| - 1];
      assert (y + after)[..|y + after| - 1] == y + a;
      RStripPad(y, a);
    } else {
      assert y + after == y;
    }
  }

  /** Python's `a <= b` on strings: code point by code point, a prefix
      first. */
  predicate LessEq(a: string, b: string)
    decreases |a|
  {
    |a| == 0 || (|b| > 0 && (a[0] < b[0] || (a[0] == b[0] && LessEq(a[1..], b[1..]))))
  }

  lemma {:induction false} LessEqTotal(a: string, b: string)
    ensures LessEq(a, b) || LessEq(b, a)
    decreases |a|
  {
    if |a| > 0 && |b| > 0 && a[0] == b[0] {
      LessEqTotal(a[1..], b[1..]);
    }
  }

  lemma {:induction false} LessEqTrans(a: string, b: string, c: string)
    requires LessEq(a, b) && LessEq(b, c)
    ensures LessEq(a, c)
    decreases |a|
  {
    if |a| > 0 && a[0] == b[0] && b[0] == c[0] {
      LessEqTrans(a[1..], b[1..], c[1..]);
    }
  }

  lemma {:induction false} LessEqAntisym(a: string, b: string)
    requires LessEq(a, b) && LessEq(b, a)
    ensures a == b
    decreases |a|
  {
    if |a| > 0 {
      LessEqAntisym(a[1..], b[1..]);
      assert a == [a[0]] + a[1..] && b == [b[0]] + b[1..];
    }
  }

  predicate Ordered(s: seq<string>) {
    forall i, j :: 0 <= i < j < |s| ==> LessEq(s[i], s[j])
  }

  /** `x` put before the first element it does not exceed. */
  function Insert(x: string, s: seq<string>): seq<string>
    decreases |s|
  {
    if |s| == 0 then [x]
    else if LessEq(x, s[0]) then [x] + s
    else [s[0]] + Insert(x, s[1..])
  }

  /** `sorted()` on a list of strings. */
  function Sort(s: seq<string>): seq<string>
    decreases |s|
  {
    if |s| == 0 then [] else Insert(s[0], Sort(s[1..]))
  }

  lemma {:induction false} LessEqRefl(a: string)
    ensures LessEq(a, a)
    decreases |a|
  {
    if |a| > 0 {
      LessEqRefl(a[1..]);
    }
  }

  /** An element no greater than any of an ordered list can go in front. */
  lemma {:induction false} OrderedCons(a: string, t: seq<string>)
    requires Ordered(t) && forall j :: 0 <= j < |t| ==> LessEq(a, t[j])
    ensures Ordered([a] + t)
  {
    forall i, j | 0 <= i < j < |t| + 1 ensures LessEq(([a] + t)[i], ([a] + t)[j]) {
      if i > 0 { assert ([a] + t)[i] == t[i - 1]; }
    }
  }

  lemma {:induction false} InsertSpec(x: string, s: seq<string>)
    requires Ordered(s)
    ensures Ordered(Insert(x, s)) && multiset(Insert(x, s)) == multiset(s) + multiset{x}
    decreases |s|
  {
    if |s| == 0 {
    } else if LessEq(x, s[0]) {
      InsertFront(x, s);
    } else {
      OrderedTail(s);
      InsertSpec(x, s[1..]);
      InsertBehind(x, s);
    }
  }

  lemma {:induction false} InsertFront(x: string, s: seq<string>)
    requires Ordered(s) && |s| > 0 && LessEq(x, s[0])
    ensures Ordered(Insert(x, s)) && multiset(Insert(x, s)) == multiset(s) + multiset{x}
  {
    forall j | 0 <= j < |s| ensures LessEq(x, s[j]) {
      if j > 0 { LessEqTrans(x, s[0], s[j]); }
    }
    OrderedCons(x, s);
  }

  lemma {:induction false} InsertBehind(x: string, s: seq<string>)
    requires Ordered(s) && |s| > 0 && !LessEq(x, s[0])
    requires Ordered(Insert(x, s[1..])) && multiset(Insert(x, s[1..])) == multiset(s[1..]) + multiset{x}
    ensures Ordered(Insert(x, s)) && multiset(Insert(x, s)) == multiset(s) + multiset{x}
  {
    LessEqTotal(x, s[0]);
    var t := Insert(x, s[1..]);
    forall j | 0 <= j < |t| ensures LessEq(s[0], t[j]) {
      HeadBelow(s, x, t, j);
    }
    OrderedCons(s[0], t);
    assert s == [s[0]] + s[1..];
  }

  lemma {:induction false} HeadBelow(s: seq<string>, x: string, t: seq<string>, j: nat)
    requires Ordered(s) && |s| > 0 && LessEq(s[0], x)
    requires multiset(t) == multiset(s[1..]) + multiset{x} && j < |t|
    ensures LessEq(s[0], t[j])
  {
    assert t[j] in multiset(t);
    if t[j] != x {
      assert t[j] in multiset(s[1..]);
      var m :| 0 <= m < |s[1..]| && s[1..][m] == t[j];
      assert s[m + 1] == t[j];
    }
  }

  /** `sorted()` gives the same strings in ascending order. */
  lemma {:induction false} SortSpec(s: seq<string>)
    ensures Ordered(Sort(s)) && multiset(Sort(s)) == multiset(s)
    decreases |s|
  {
    if |s| > 0 {
      SortSpec(s[1..]);
      InsertSpec(s[0], Sort(s[1..]));
      assert s == [s[0]] + s[1..];
    }
  }

  /** Two ascending orders of the same strings are the same list, so the
      sorted list does not depend on the order of the tokens. */
  lemma {:induction false} OrderedUnique(s: seq<string>, t: seq<string>)
    requires Ordered(s) && Ordered(t) && multiset(s) == multiset(t)
    ensures s == t
    decreases |s|
  {
    if |s| > 0 {
      assert s[0] in multiset(t);
      assert t[0] in multiset(s);
      var i :| 0 <= i < |t| && t[i] == s[0];
      var j :| 0 <= j < |s| && s[j] == t[0];
      if i > 0 { assert LessEq(t[0], t[i]); } else { LessEqRefl(t[0]); }
      if j > 0 { assert LessEq(s[0], s[j]); } else { LessEqRefl(s[0]); }
      LessEqAntisym(s[0], t[0]);
      TailMultiset(s, t);
      OrderedTail(s);
      OrderedTail(t);
      OrderedUnique(s[1..], t[1..]);
      assert s == [s[0]] + s[1..] && t == [t[0]] + t[1..];
    }
  }

  lemma {:induction false} TailMultiset(s: seq<string>, t: seq<string>)
    requires |s| > 0 && |t| > 0 && s[0] == t[0] && multiset(s) == multiset(t)
    ensures multiset(s[1..]) == multiset(t[1..])
  {
    assert s == [s[0]] + s[1..];
    assert t == [t[0]] + t[1..];
    assert multiset(s) == multiset{s[0]} + multiset(s[1..]);
    assert multiset(t) == multiset{t[0]} + multiset(t[1..]);
    assert multiset(s[1..]) == multiset(s) - multiset{s[0]};
    assert multiset(t[1..]) == multiset(t) - multiset{t[0]};
  }

  lemma {:induction false} OrderedTail(s: seq<string>)
    requires Ordered(s) && |s| > 0
    ensures Ordered(s[1..])
  {
    forall i, j | 0 <= i < j < |s| - 1 ensures LessEq(s[1..][i], s[1..][j]) {
      assert s[1..][i] == s[i + 1] && s[1..][j] == s[j + 1];
    }
  }

  /** `sorted(raw.strip().split(' '))`, the value of `flags` and `bugs`. */
  function Tokens(raw: string): Value {
    List(StrList(Sort(Split(Strip(raw), " "))))
  }

  /** A line's key and value: the key is the text before the first `:`
      with tabs removed and stripped, the value the text up to the next `:`;
      a line without `:` raises IndexError. */
  function Field(line: string): (r: Result<(string, Value)>)
    ensures r.Raised? <==> !Contains(line, ":")
    ensures r.Raised? ==> r == Raised("IndexError")
  {
    var kv := Split(line, ":");
    if |kv| < 2 then Raised("IndexError")
    else
      var key := Strip(RemoveChar(kv[0], '\t'));
      if key == "flags" || key == "bugs" then Ok((key, Tokens(kv[1])))
      else Ok((key, Typed(kv[1])))
  }

  lemma {:induction false} RemoveCharAppend(a: string, b: string, c: char)
    ensures RemoveChar(a + b, c) == RemoveChar(a, c) + RemoveChar(b, c)
    decreases |a|
  {
    if |a| > 0 {
      assert (a + b)[0] == a[0];
      assert (a + b)[1..] == a[1..] + b;
      RemoveCharAppend(a[1..], b, c);
      var h := if a[0] == c then "" else [a[0]];
      assert RemoveChar(a + b, c) == h + RemoveChar(a[1..] + b, c);
      assert RemoveChar(a, c) == h + RemoveChar(a[1..], c);
    } else {
      assert a + b == b;
    }
  }

  /** A line as the kernel writes it, `key<TAB>: value`, gives back the key
      and the typed value. */
  lemma {:induction false} FieldLine(key: string, raw: string)
    requires forall j :: 0 <= j < |key| ==> key[j] != ':' && key[j] != '\t'
    requires |key| > 0 && !IsSpace(key[0]) && !IsSpace(key[|key| - 1])
    requires forall j :: 0 <= j < |raw| ==> raw[j] != ':'
    ensures Field(key + "\t: " + raw) ==
      Ok((key, if key == "flags" || key == "bugs" then Tokens(" " + raw) else Typed(" " + raw)))
  {
    LineParts(key, raw);
    KeyCleaned(key);
  }

  lemma {:induction false} LineParts(key: string, raw: string)
    requires forall j :: 0 <= j < |key| ==> key[j] != ':' && key[j] != '\t'
    requires forall j :: 0 <= j < |raw| ==> raw[j] != ':'
    ensures Split(key + "\t: " + raw, ":") == [key + "\t", " " + raw]
  {
    var head := key + "\t";
    var rest := " " + raw;
    var line := key + "\t: " + raw;
    assert line == head + [':'] + rest;
    FindFirstChar(head, ':', rest);
    assert line[..|head|] == head && line[|head| + 1..] == rest;
    MissingFirstChar(rest, ":");
    assert Split(rest, ":") == [rest];
  }

  lemma {:induction false} KeyCleaned(key: string)
    requires forall j :: 0 <= j < |key| ==> key[j] != '\t'
    requires |key| > 0 && !IsSpace(key[0]) && !IsSpace(key[|key| - 1])
    ensures Strip(RemoveChar(key + "\t", '\t')) == key
  {
    RemoveCharAppend(key, "\t", '\t');
    RemoveCharAbsent(key, '\t');
    assert RemoveChar("\t", '\t') == "";
    assert key + "" == key;
    PaddedStrip("", key, "");
    assert "" + key + "" == key;
  }

  // ---------------------------------------------------------------------
  // The processor table

  /** A value Python can use as a dictionary key here. */
  predicate Scalar(v: Value) {
    v.Null? || v.Bool? || v.Int? || v.Str?
  }

  lemma {:induction false} TypedScalar(raw: string)
    ensures Scalar(Typed(raw))
  {
  }

  /** Where `cpu_info` holds a key equal to `k`. */
  function Slot(t: CpuTable, k: Value): (r: Option<nat>)
    ensures r.Some? ==> r.value < |t| && PyEq(k, t[r.value].0)
    ensures r.None? <==> forall i :: 0 <= i < |t| ==> !PyEq(k, t[i].0)
    decreases |t|
  {
    if |t| == 0 then None
    else if PyEq(k, t[0].0) then Some(0)
    else
      match Slot(t[1..], k)
      case None => None
      case Some(i) => Some(i + 1)
  }

  /** `cpu_info[k] = info`: an equal key keeps its place and the spelling it
      was first added with; a new key goes last. */
  function Assign(t: CpuTable, k: Value, info: Info): CpuTable {
    match Slot(t, k)
    case None => t + [(k, info)]
    case Some(i) => t[i := (t[i].0, info)]
  }

  /** No two keys are equal, as in a Python dictionary. */
  predicate Distinct(t: CpuTable) {
    forall i, j :: 0 <= i < j < |t| ==> !PyEq(t[i].0, t[j].0)
  }

  lemma {:induction false} PyEqSymmetric(a: Value, b: Value)
    requires Scalar(a) && Scalar(b)
    ensures PyEq(a, b) == PyEq(b, a)
  {
  }

  /** Assigning keeps the keys distinct, and the key then holds the info. */
  lemma {:induction false} AssignSpec(t: CpuTable, k: Value, info: Info)
    requires Distinct(t) && Scalar(k) && forall i :: 0 <= i < |t| ==> Scalar(t[i].0)
    ensures var r := Assign(t, k, info);
      Distinct(r) && (forall i :: 0 <= i < |r| ==> Scalar(r[i].0))
      && Slot(r, k).Some? && r[Slot(r, k).value].1 == info
      && |r| == if Slot(t, k).Some? then |t| else |t| + 1
  {
    var r := Assign(t, k, info);
    match Slot(t, k) {
      case None =>
        forall i | 0 <= i < |t| ensures !PyEq(t[i].0, k) {
          PyEqSymmetric(k, t[i].0);
        }
        assert PyEq(k, r[|t|].0);
        SlotFirst(r, k, |t|);
      case Some(i) =>
        SlotFirst(r, k, i);
    }
  }

  /** The slot of a key is the first position holding an equal key. */
  lemma {:induction false} SlotFirst(t: CpuTable, k: Value, i: nat)
    requires i < |t| && PyEq(k, t[i].0) && forall j :: 0 <= j < i ==> !PyEq(k, t[j].0)
    ensures Slot(t, k) == Some(i)
    decreases i
  {
    if i > 0 {
      SlotFirst(t[1..], k, i - 1);
    }
  }

  /** The state of the loops: `cpu_info`, `current_cpu` and the block's
      `info`. */
  datatype Scan = Scan(table: CpuTable, current: Value, info: Info)

  /** One line of a block: a `processor` value not yet in the table adds an
      empty entry for it and becomes the current processor, a repeated one
      changes nothing, and any other pair goes into the block's info. */
  function Line(p: Scan, line: string): Result<Scan> {
    var kv :- Field(line);
    if kv.0 == "processor" then
      if Slot(p.table, kv.1).None? then Ok(Scan(Assign(p.table, kv.1, []), kv.1, p.info)) else Ok(p)
    else Ok(p.(info := Put(p.info, kv.0, kv.1)))
  }

  /** The lines of a block in turn; the first line that raises ends it. */
  function BlockLines(p: Scan, lines: seq<string>): Result<Scan>
    decreases |lines|
  {
    if |lines| == 0 then Ok(p)
    else
      var q :- BlockLines(p, lines[..|lines| - 1]);
      Line(q, lines[|lines| - 1])
  }

  /** One block: its lines read from an empty info, then the info filed
      under the current processor. */
  function Block(p: Scan, block: string): Result<Scan> {
    var q :- BlockLines(p.(info := []), Split(block, "\n"));
    Ok(q.(table := Assign(q.table, q.current, q.info)))
  }

  /** The blocks in turn, from an empty table and no current processor. */
  function Scanned(blocks: seq<string>): Result<Scan>
    decreases |blocks|
  {
    if |blocks| == 0 then Ok(Scan([], Null, []))
    else
      var p :- Scanned(blocks[..|blocks| - 1]);
      Block(p, blocks[|blocks| - 1])
  }

  /** `cpu_info` once the whole output is read. */
  function Cpus(text: string): Result<CpuTable> {
    var p :- Scanned(Blocks(text + "\n\n"));
    Ok(p.table)
  }

  /** What `analyze` returns: its outcome, and the `cpu_info` it stores in
      the collection when that table is not empty. */
  datatype Answer = Answer(outcome: Outcome, cpuInfo: Option<CpuTable>)

  /** What `analyze` returns, or the exception it raises. */
  function Analysis(output: Value, collection: Value): Result<Answer> {
    match Open(output, collection, Command)
    case Refuse(m) => Ok(Answer(Refused(m), None))
    case Begin(text, c) =>
      var t :- Cpus(text);
      Ok(Answer(Analysed(true, c), if |t| > 0 then Some(t) else None))
  }

  /** The loop over one block's lines. */
  method ReadBlock(table: CpuTable, current: Value, lines: seq<string>) returns (r: Result<Scan>)
    ensures r == BlockLines(Scan(table, current, []), lines)
  {
    var start := Scan(table, current, []);
    var t, cur, info := table, current, [];
    for l := 0 to |lines|
      invariant BlockLines(start, lines[..l]) == Ok(Scan(t, cur, info))
    {
      assert lines[..l + 1][..l] == lines[..l];
      var kv := Field(lines[l]);
      if kv.Raised? {
        BlockLinesPrefixRaises(start, lines, l + 1);
        return Raised(kv.exception);
      }
      var key := kv.value.0;
      var value := kv.value.1;
      if key == "processor" {
        if Slot(t, value).None? {
          t := Assign(t, value, []);
          cur := value;
        }
      } else {
        info := Put(info, key, value);
      }
    }
    assert lines[..|lines|] == lines;
    return Ok(Scan(t, cur, info));
  }

  /** `analyze`: the loop over the blocks, each read by the loop over its
      lines and then filed under the current processor. */
  method Analyze(output: Value, collection: Value) returns (r: Result<Answer>)
    ensures r == Analysis(output, collection)
  {
    match Open(output, collection, Command) {
      case Refuse(m) =>
        return Ok(Answer(Refused(m), None));
      case Begin(text, c) =>
        var p :- ScanBlocks(Blocks(text + "\n\n"));
        return Ok(Answer(Analysed(true, c), if |p.table| > 0 then Some(p.table) else None));
    }
  }

  /** The loop over the blocks, from an empty table and no current
      processor. */
  method ScanBlocks(blocks: seq<string>) returns (r: Result<Scan>)
    ensures r == Scanned(blocks)
  {
    var table: CpuTable := [];
    var current := Null;
    var info: Info := [];
    for b := 0 to |blocks|
      invariant Scanned(blocks[..b]) == Ok(Scan(table, current, info))
    {
      ScannedSnoc(blocks, b);
      var read := ReadBlock(table, current, Split(blocks[b], "\n"));
      if read.Raised? {
        ScannedPrefixRaises(blocks, b + 1);
        return Raised(read.exception);
      }
      current := read.value.current;
      info := read.value.info;
      table := Assign(read.value.table, current, info);
    }
    assert blocks[..|blocks|] == blocks;
    return Ok(Scan(table, current, info));
  }

  lemma {:induction false} ScannedSnoc(blocks: seq<string>, b: nat)
    requires b < |blocks| && Scanned(blocks[..b]).Ok?
    ensures Scanned(blocks[..b + 1]) == Block(Scanned(blocks[..b]).value, blocks[b])
  {
    assert blocks[..b + 1][..b] == blocks[..b];
  }

  lemma {:induction false} BlockLinesPrefixRaises(p: Scan, lines: seq<string>, n: nat)
    requires n <= |lines| && BlockLines(p, lines[..n]).Raised?
    ensures BlockLines(p, lines) == BlockLines(p, lines[..n])
    decreases |lines|
  {
    if n < |lines| {
      var init := lines[..|lines| - 1];
      assert init[..n] == lines[..n];
      BlockLinesPrefixRaises(p, init, n);
    } else {
      assert lines[..n] == lines;
    }
  }

  lemma {:induction false} ScannedPrefixRaises(blocks: seq<string>, n: nat)
    requires n <= |blocks| && Scanned(blocks[..n]).Raised?
    ensures Scanned(blocks) == Scanned(blocks[..n])
    decreases |blocks|
  {
    if n < |blocks| {
      var init := blocks[..|blocks| - 1];
      assert init[..n] == blocks[..n];
      ScannedPrefixRaises(init, n);
    } else {
      assert blocks[..n] == blocks;
    }
  }

  // ---------------------------------------------------------------------
  // What the loops compute

  /** The pair a line adds to its block's info, if any. */
  function InfoEntry(line: string): Result<Option<(string, Value)>> {
    var kv :- Field(line);
    Ok(if kv.0 == "processor" then None else Some(kv))
  }

  /** Reading a block's lines raises exactly when a line lacks `:`, and
      otherwise fills the info with every pair but `processor`, in order. */
  lemma {:induction false} BlockLinesInfo(p: Scan, lines: seq<string>)
    ensures BlockLines(p, lines).Ok? <==> Gather(lines, InfoEntry).Ok?
    ensures BlockLines(p, lines).Ok? ==>
      BlockLines(p, lines).value.info == PutAll(p.info, Gather(lines, InfoEntry).value)
    decreases |lines|
  {
    if |lines| > 0 {
      var init := lines[..|lines| - 1];
      BlockLinesInfo(p, init);
      if Gather(init, InfoEntry).Ok? {
        var ws := Gather(init, InfoEntry).value;
        var e := InfoEntry(lines[|lines| - 1]);
        if e.Ok? && e.value.Some? {
          assert (ws + [e.value.value])[..|ws|] == ws;
        }
      }
    }
  }

  /** A block as the kernel writes it: a first `processor` line, then other
      pairs, every line holding a `:`. */
  predicate Standard(block: string) {
    var lines := Split(block, "\n");
    Field(lines[0]).Ok? && Field(lines[0]).value.0 == "processor"
    && forall i :: 1 <= i < |lines| ==> Field(lines[i]).Ok? && Field(lines[i]).value.0 != "processor"
  }

  /** The processor a standard block names. */
  function Processor(block: string): Value
    requires Standard(block)
  {
    Field(Split(block, "\n")[0]).value.1
  }

  lemma {:induction false} ProcessorScalar(block: string)
    requires Standard(block)
    ensures Scalar(Processor(block))
  {
    var kv := Split(Split(block, "\n")[0], ":");
    TypedScalar(kv[1]);
  }

  /** The pairs a standard block holds, each key with its last value. */
  function Pairs(block: string): Info
    requires Standard(block)
  {
    var lines := Split(block, "\n");
    GatherRaises(lines, InfoEntry);
    PutAll([], Gather(lines, InfoEntry).value)
  }

  /** After a first `processor` line, the other pairs only fill the info. */
  lemma {:induction false} OtherLines(p: Scan, q: Scan, lines: seq<string>, n: nat)
    requires 1 <= n <= |lines| && BlockLines(p, lines[..1]) == Ok(q) && q.info == []
    requires InfoEntry(lines[0]) == Ok(None)
    requires forall i :: 1 <= i < |lines| ==> Field(lines[i]).Ok? && Field(lines[i]).value.0 != "processor"
    ensures Gather(lines[..n], InfoEntry).Ok?
    ensures BlockLines(p, lines[..n]) == Ok(q.(info := PutAll([], Gather(lines[..n], InfoEntry).value)))
    decreases n
  {
    if n == 1 {
      assert Gather(lines[..1], InfoEntry) == Ok([]) by {
        assert lines[..1][..0] == [];
      }
    } else {
      OtherLines(p, q, lines, n - 1);
      var ws := Gather(lines[..n - 1], InfoEntry).value;
      assert InfoEntry(lines[n - 1]) == Ok(Some(Field(lines[n - 1]).value));
      GatherStep([], lines, InfoEntry, n - 1, ws);
      BlockLinesSnoc(p, lines, n);
    }
  }

  lemma {:induction false} BlockLinesSnoc(p: Scan, lines: seq<string>, n: nat)
    requires 0 < n <= |lines| && BlockLines(p, lines[..n - 1]).Ok?
    ensures BlockLines(p, lines[..n]) == Line(BlockLines(p, lines[..n - 1]).value, lines[n - 1])
  {
    assert lines[..n][..n - 1] == lines[..n - 1];
  }

  /** A standard block naming a new processor adds it last, holding the
      block's pairs, and makes it the current processor. */
  lemma {:induction false} StandardBlock(p: Scan, block: string)
    requires Standard(block) && Slot(p.table, Processor(block)).None?
    ensures Block(p, block) == Ok(Scan(p.table + [(Processor(block), Pairs(block))], Processor(block), Pairs(block)))
  {
    var lines := Split(block, "\n");
    var key := Processor(block);
    var p0 := p.(info := []);
    var t1 := p.table + [(key, [])];
    var q := Scan(t1, key, []);
    assert lines[..1][..0] == [];
    assert BlockLines(p0, lines[..1]) == Line(p0, lines[0]);
    assert BlockLines(p0, lines[..1]) == Ok(q);
    OtherLines(p0, q, lines, |lines|);
    assert lines[..|lines|] == lines;
    ProcessorScalar(block);
    assert PyEq(key, t1[|p.table|].0);
    SlotFirst(t1, key, |p.table|);
    assert t1[|p.table| := (key, Pairs(block))] == p.table + [(key, Pairs(block))];
  }

  /** A standard block naming a processor already in the table files its
      pairs under the current processor instead, replacing what that
      processor held. */
  lemma {:induction false} RepeatedProcessor(p: Scan, block: string)
    requires Standard(block) && Slot(p.table, Processor(block)).Some?
    ensures Block(p, block) == Ok(Scan(Assign(p.table, p.current, Pairs(block)), p.current, Pairs(block)))
  {
    var lines := Split(block, "\n");
    var p0 := p.(info := []);
    assert lines[..1][..0] == [];
    assert BlockLines(p0, lines[..1]) == Line(p0, lines[0]);
    assert BlockLines(p0, lines[..1]) == Ok(p0);
    OtherLines(p0, p0, lines, |lines|);
    assert lines[..|lines|] == lines;
  }

  /** The table the standard blocks make, one entry per block. */
  function Entries(blocks: seq<string>): (r: CpuTable)
    requires forall k :: 0 <= k < |blocks| ==> Standard(blocks[k])
    ensures |r| == |blocks|
    ensures forall k :: 0 <= k < |blocks| ==> r[k] == (Processor(blocks[k]), Pairs(blocks[k]))
  {
    seq(|blocks|, k requires 0 <= k < |blocks| => (Processor(blocks[k]), Pairs(blocks[k])))
  }

  /** Standard blocks naming distinct processors give one entry each, in
      block order. */
  lemma {:induction false} ScannedStandard(blocks: seq<string>)
    requires forall k :: 0 <= k < |blocks| ==> Standard(blocks[k])
    requires forall i, j :: 0 <= i < j < |blocks| ==> !PyEq(Processor(blocks[i]), Processor(blocks[j]))
    ensures Scanned(blocks).Ok? && Scanned(blocks).value.table == Entries(blocks)
    decreases |blocks|
  {
    if |blocks| > 0 {
      var init := blocks[..|blocks| - 1];
      var last := blocks[|blocks| - 1];
      ScannedStandard(init);
      var p := Scanned(init).value;
      forall i | 0 <= i < |init| ensures !PyEq(Processor(last), p.table[i].0) {
        ProcessorScalar(last);
        ProcessorScalar(init[i]);
        PyEqSymmetric(Processor(last), Processor(init[i]));
      }
      StandardBlock(p, last);
      EntriesSnoc(blocks);
    }
  }

  lemma {:induction false} EntriesSnoc(blocks: seq<string>)
    requires |blocks| > 0 && forall k :: 0 <= k < |blocks| ==> Standard(blocks[k])
    ensures var init := blocks[..|blocks| - 1]; var last := blocks[|blocks| - 1];
      Entries(blocks) == Entries(init) + [(Processor(last), Pairs(last))]
  {
    var init := blocks[..|blocks| - 1];
    var last := blocks[|blocks| - 1];
    var e := Entries(blocks);
    var ei := Entries(init);
    forall k | 0 <= k < |init| ensures e[k] == ei[k] {
      assert init[k] == blocks[k];
    }
    SnocOf(e, ei, (Processor(last), Pairs(last)));
  }

  /** A sequence that agrees with `b` and then holds `x` is `b + [x]`. */
  lemma SnocOf<T>(a: seq<T>, b: seq<T>, x: T)
    requires |a| == |b| + 1 && a[|b|] == x
    requires forall k :: 0 <= k < |b| ==> a[k] == b[k]
    ensures a == b + [x]
  {
  }

  /** A `cat /proc/cpuinfo` of standard blocks, separated by blank lines and
      naming distinct processors, yields one `cpu_info` entry per block:
      the processor and the block's pairs. */
  lemma {:induction false} CpusOfOutput(bs: seq<string>)
    requires |bs| > 0 && forall k :: 0 <= k < |bs| ==> IsBlock(bs[k]) && Standard(bs[k])
    requires forall i, j :: 0 <= i < j < |bs| ==> !PyEq(Processor(bs[i]), Processor(bs[j]))
    ensures Cpus(Join(bs, "\n\n")) == Ok(Entries(bs))
  {
    BlocksOfOutput(bs);
    ScannedStandard(bs);
  }

  /** An output without `processor` leaves `cpu_info` unset. */
  lemma {:induction false} NoProcessor(output: Value, collection: Value)
    requires Open(output, collection, Command).Begin? && !Contains(output.s, "processor")
    ensures Analysis(output, collection) == Ok(Answer(Analysed(true, Open(output, collection, Command).entries), None))
  {
    var text := output.s;
    var s := text + "\n\n";
    forall i | 0 <= i ensures !OccursAt(s, "processor", i) {
      if i + 9 <= |text| {
        assert s[i..i + 9] == text[i..i + 9];
        assert !OccursAt(text, "processor", i);
      } else if i + 9 <= |s| {
        assert s[i..i + 9][|text| - i] == '\n';
      }
    }
    assert Find(s, "processor", 0).None?;
    assert Blocks(s) == [];
  }

  /** `flags` and `bugs` hold their tokens in ascending order, each token
      as often as the value holds it. */
  lemma {:induction false} TokensSorted(raw: string)
    ensures exists ws :: (Tokens(raw) == List(StrList(ws)) && Ordered(ws)
      && multiset(ws) == multiset(Split(Strip(raw), " ")))
  {
    SortSpec(Split(Strip(raw), " "));
  }

  /** The loops' state as Python keeps it: the keys of `cpu_info` are
      hashable and pairwise different, and so is the current processor. */
  predicate Sound(p: Scan) {
    Distinct(p.table) && Scalar(p.current) && forall i :: 0 <= i < |p.table| ==> Scalar(p.table[i].0)
  }

  lemma {:induction false} LineSound(p: Scan, line: string)
    requires Sound(p) && Line(p, line).Ok?
    ensures Sound(Line(p, line).value)
  {
    var kv := Field(line).value;
    if kv.0 == "processor" {
      var parts := Split(line, ":");
      assert kv.1 == Typed(parts[1]);
      TypedScalar(parts[1]);
      AssignSpec(p.table, kv.1, []);
    }
  }

  lemma {:induction false} BlockLinesSound(p: Scan, lines: seq<string>)
    requires Sound(p) && BlockLines(p, lines).Ok?
    ensures Sound(BlockLines(p, lines).value)
    decreases |lines|
  {
    if |lines| > 0 {
      var init := lines[..|lines| - 1];
      BlockLinesSound(p, init);
      LineSound(BlockLines(p, init).value, lines[|lines| - 1]);
    }
  }

  /** Reading any output keeps `cpu_info` a proper dictionary: no two of
      its keys are equal. */
  lemma {:induction false} ScannedSound(blocks: seq<string>)
    requires Scanned(blocks).Ok?
    ensures Sound(Scanned(blocks).value)
    decreases |blocks|
  {
    if |blocks| > 0 {
      var init := blocks[..|blocks| - 1];
      ScannedSound(init);
      var p := Scanned(init).value;
      var lines := Split(blocks[|blocks| - 1], "\n");
      BlockLinesSound(p.(info := []), lines);
      var q := BlockLines(p.(info := []), lines).value;
      AssignSpec(q.table, q.current, q.info);
    }
  }
}
