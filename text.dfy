/** Python's `str` operations that the model relies on, on `seq<char>`.
    Case mapping covers ASCII letters only; `\s` and `str.strip()` use the full
    set of characters Python's `str.isspace()` accepts. */
module Text {
  import opened Wrappers

  /** `str.isspace()`, which is also the set a `\s` matches in a `str` pattern. */
  predicate IsSpace(c: char) {
    c == ' ' || ('\t' <= c <= '\r') || ('\U{1c}' <= c <= '\U{1f}') || c == '\U{85}'
    || c == '\U{a0}' || c == '\U{1680}' || ('\U{2000}' <= c <= '\U{200a}') || c == '\U{2028}'
    || c == '\U{2029}' || c == '\U{202f}' || c == '\U{205f}' || c == '\U{3000}'
  }

  /** `\d` on ASCII text. */
  predicate IsDigit(c: char) { '0' <= c <= '9' }

  predicate AllSpace(s: string) { forall i :: 0 <= i < |s| ==> IsSpace(s[i]) }

  predicate AllDigits(s: string) { forall i :: 0 <= i < |s| ==> IsDigit(s[i]) }

  /** No text occurs twice in `ks`. */
  predicate Distinct(ks: seq<string>) {
    forall i, j :: 0 <= i < j < |ks| ==> ks[i] != ks[j]
  }

  predicate NoNewline(s: string) { forall i :: 0 <= i < |s| ==> s[i] != '\n' }

  predicate StartsWith(s: string, p: string) { |p| <= |s| && s[..|p|] == p }

  predicate EndsWith(s: string, p: string) { |p| <= |s| && s[|s| - |p|..] == p }

  /** `t` occurs in `s` starting at index `i`. */
  predicate OccursAt(s: string, t: string, i: int) {
    0 <= i && i + |t| <= |s| && s[i..i + |t|] == t
  }

  /** `s.find(t, from)`: the first occurrence of `t` at or after `from`. */
  function Find(s: string, t: string, from: nat): (r: Option<nat>)
    ensures r.Some? ==> from <= r.value && OccursAt(s, t, r.value)
    ensures r.Some? ==> forall j :: from <= j < r.value ==> !OccursAt(s, t, j)
    ensures r.None? ==> forall j :: from <= j ==> !OccursAt(s, t, j)
    decreases |s| - from
  {
    if from + |t| > |s| then None
    else if OccursAt(s, t, from) then Some(from)
    else Find(s, t, from + 1)
  }

  /** `t in s` for two strings. */
  predicate Contains(s: string, t: string) { Find(s, t, 0).Some? }

  lemma {:induction false} ContainsAt(s: string, t: string, i: int)
    requires OccursAt(s, t, i)
    ensures Contains(s, t)
  {
  }

  /** A text that lacks the first character of `t` does not contain `t`. */
  lemma {:induction false} MissingFirstChar(s: string, t: string)
    requires |t| > 0 && forall j :: 0 <= j < |s| ==> s[j] != t[0]
    ensures !Contains(s, t)
  {
    forall j | 0 <= j && j + |t| <= |s|
      ensures !OccursAt(s, t, j)
    {
      assert s[j..j + |t|][0] == s[j];
    }
  }

  /** `s.lstrip()` */
  function LStrip(s: string): (r: string)
    ensures |r| <= |s| && r == s[|s| - |r|..]
    ensures AllSpace(s[..|s| - |r|])
    ensures |r| > 0 ==> !IsSpace(r[0])
  {
    if |s| > 0 && IsSpace(s[0]) then LStrip(s[1..]) else s
  }

  /** `s.rstrip()` */
  function RStrip(s: string): (r: string)
    ensures |r| <= |s| && r == s[..|r|]
    ensures AllSpace(s[|r|..])
    ensures |r| > 0 ==> !IsSpace(r[|r| - 1])
  {
    if |s| > 0 && IsSpace(s[|s| - 1]) then RStrip(s[..|s| - 1]) else s
  }

  /** `s.strip()` */
  function Strip(s: string): string {
    RStrip(LStrip(s))
  }

  /** `s.split(sep)` with an explicit, non-empty separator. */
  function Split(s: string, sep: string): (parts: seq<string>)
    requires |sep| > 0
    ensures |parts| >= 1
    decreases |s|
  {
    match Find(s, sep, 0)
    case None => [s]
    case Some(i) => [s[..i]] + Split(s[i + |sep|..], sep)
  }

  /** `sep.join(parts)` */
  function Join(parts: seq<string>, sep: string): string {
    if |parts| == 0 then ""
    else if |parts| == 1 then parts[0]
    else parts[0] + sep + Join(parts[1..], sep)
  }

  lemma {:induction false} JoinCons(a: string, parts: seq<string>, sep: string)
    requires |parts| > 0
    ensures Join([a] + parts, sep) == a + sep + Join(parts, sep)
  {
    assert ([a] + parts)[1..] == parts;
  }

  /** A text is what comes before an occurrence, the occurrence and what
      follows it. */
  lemma {:induction false} CutAt(s: string, t: string, i: nat)
    requires OccursAt(s, t, i)
    ensures s == s[..i] + t + s[i + |t|..]
  {
    assert s == s[..i] + s[i..i + |t|] + s[i + |t|..];
  }

  /** Splitting and joining with the same separator gives the text back. */
  lemma {:induction false} JoinSplit(s: string, sep: string)
    requires |sep| > 0
    ensures Join(Split(s, sep), sep) == s
    decreases |s|
  {
    match Find(s, sep, 0)
    case None =>
    case Some(i) =>
      var rest := s[i + |sep|..];
      JoinSplit(rest, sep);
      JoinCons(s[..i], Split(rest, sep), sep);
      CutAt(s, sep, i);
  }

  /** No piece of `s.split(sep)` contains the separator. */
  lemma {:induction false} SplitPiecesFree(s: string, sep: string)
    requires |sep| > 0
    ensures forall k :: 0 <= k < |Split(s, sep)| ==> !Contains(Split(s, sep)[k], sep)
    decreases |s|
  {
    match Find(s, sep, 0)
    case None =>
    case Some(i) =>
      var rest := s[i + |sep|..];
      SplitPiecesFree(rest, sep);
      var head := s[..i];
      if Contains(head, sep) {
        OccursInPrefix(s, sep, i, Find(head, sep, 0).value);
      }
  }

  /** An occurrence in a prefix is an occurrence in the whole. */
  lemma {:induction false} OccursInPrefix(s: string, t: string, n: nat, j: nat)
    requires n <= |s| && OccursAt(s[..n], t, j)
    ensures OccursAt(s, t, j)
  {
    assert s[..n][j..j + |t|] == s[j..j + |t|];
  }

  lemma {:induction false} JoinSnoc(parts: seq<string>, last: string, sep: string)
    requires |parts| > 0
    ensures Join(parts + [last], sep) == Join(parts, sep) + sep + last
    decreases |parts|
  {
    if |parts| == 1 {
      assert parts + [last] == [parts[0], last];
    } else {
      assert (parts + [last])[1..] == parts[1..] + [last];
      JoinSnoc(parts[1..], last, sep);
    }
  }

  /** The first occurrence of a character is where the text lacking it ends. */
  lemma {:induction false} FindFirstChar(a: string, c: char, rest: string)
    requires forall j :: 0 <= j < |a| ==> a[j] != c
    ensures Find(a + [c] + rest, [c], 0) == Some(|a|)
  {
    var s := a + [c] + rest;
    assert OccursAt(s, [c], |a|) by { assert s[|a|..|a| + 1] == [c]; }
    forall j | 0 <= j < |a| ensures !OccursAt(s, [c], j) {
      assert s[j..j + 1][0] == a[j];
    }
  }

  /** Splitting on a one-character separator that no part holds gives the
      parts back. */
  lemma {:induction false} SplitJoin(parts: seq<string>, c: char)
    requires |parts| > 0
    requires forall k, j :: 0 <= k < |parts| && 0 <= j < |parts[k]| ==> parts[k][j] != c
    ensures Split(Join(parts, [c]), [c]) == parts
    decreases |parts|
  {
    if |parts| == 1 {
      MissingFirstChar(parts[0], [c]);
    } else {
      var rest := parts[1..];
      SplitJoin(rest, c);
      JoinCons(parts[0], rest, [c]);
      assert [parts[0]] + rest == parts;
      var s := parts[0] + [c] + Join(rest, [c]);
      FindFirstChar(parts[0], c, Join(rest, [c]));
      assert s[..|parts[0]|] == parts[0];
      assert s[|parts[0]| + 1..] == Join(rest, [c]);
    }
  }

  /** A character that no part and not the separator holds is not in the join. */
  lemma {:induction false} JoinLacks(parts: seq<string>, sep: string, c: char)
    requires forall k, j :: 0 <= k < |parts| && 0 <= j < |parts[k]| ==> parts[k][j] != c
    requires forall j :: 0 <= j < |sep| ==> sep[j] != c
    ensures forall j :: 0 <= j < |Join(parts, sep)| ==> Join(parts, sep)[j] != c
    decreases |parts|
  {
    if |parts| > 1 {
      var rest := parts[1..];
      forall k, j | 0 <= k < |rest| && 0 <= j < |rest[k]| ensures rest[k][j] != c {
        assert rest[k] == parts[k + 1];
      }
      JoinLacks(rest, sep, c);
      assert parts[0] == parts[0];
    } else if |parts| == 1 {
      assert parts[0] == parts[0];
    }
  }

  /** The texts one after another. */
  function Concat(ts: seq<string>): string {
    if |ts| == 0 then "" else Concat(ts[..|ts| - 1]) + ts[|ts| - 1]
  }

  /** Each text followed by a line feed. */
  function Lines(ls: seq<string>): string {
    if |ls| == 0 then "" else ls[0] + "\n" + Lines(ls[1..])
  }

  lemma {:induction false} LinesSnoc(ls: seq<string>, l: string)
    ensures Lines(ls + [l]) == Lines(ls) + l + "\n"
    decreases |ls|
  {
    if |ls| > 0 {
      assert (ls + [l])[1..] == ls[1..] + [l];
      LinesSnoc(ls[1..], l);
    }
  }

  /** Line-feed-terminated lines are the lines and an empty text joined by
      line feeds. */
  lemma {:induction false} LinesJoin(ls: seq<string>)
    ensures Lines(ls) == Join(ls + [""], "\n")
    decreases |ls|
  {
    if |ls| > 0 {
      LinesJoin(ls[1..]);
      assert ls + [""] == [ls[0]] + (ls[1..] + [""]);
      JoinCons(ls[0], ls[1..] + [""], "\n");
    }
  }

  /** `text.split('\n')` on line-feed-terminated lines that hold no line feed. */
  lemma {:induction false} SplitLines(ls: seq<string>)
    requires forall k :: 0 <= k < |ls| ==> NoNewline(ls[k])
    ensures Split(Lines(ls), "\n") == ls + [""]
  {
    LinesJoin(ls);
    var parts := ls + [""];
    forall k, j | 0 <= k < |parts| && 0 <= j < |parts[k]| ensures parts[k][j] != '\n' {
      assert k < |ls| && parts[k] == ls[k];
    }
    SplitJoin(parts, '\n');
  }

  /** `s * n` for a one-character text; a count below one gives "". */
  function Repeat(c: char, n: int): (r: string)
    ensures |r| == if n > 0 then n else 0
    ensures forall i :: 0 <= i < |r| ==> r[i] == c
  {
    if n <= 0 then "" else [c] + Repeat(c, n - 1)
  }

  /** `s.replace(pat, rep)`: Python defines it as `rep.join(s.split(pat))`. */
  function Replace(s: string, pat: string, rep: string): string
    requires |pat| > 0
  {
    Join(Split(s, pat), rep)
  }

  /** A text that does not contain a character lacks it everywhere. */
  lemma {:induction false} NotContainsChar(s: string, c: char)
    requires !Contains(s, [c])
    ensures forall j :: 0 <= j < |s| ==> s[j] != c
  {
    forall j | 0 <= j < |s| ensures s[j] != c {
      if s[j] == c {
        assert s[j..j + 1] == [c];
        ContainsAt(s, [c], j);
      }
    }
  }

  /** After replacing a character by a text that lacks it, the character is gone. */
  lemma {:induction false} ReplacedLacks(s: string, c: char, rep: string)
    requires forall j :: 0 <= j < |rep| ==> rep[j] != c
    ensures forall j :: 0 <= j < |Replace(s, [c], rep)| ==> Replace(s, [c], rep)[j] != c
  {
    var pieces := Split(s, [c]);
    SplitPiecesFree(s, [c]);
    forall k | 0 <= k < |pieces| ensures forall j :: 0 <= j < |pieces[k]| ==> pieces[k][j] != c {
      NotContainsChar(pieces[k], c);
    }
    JoinLacks(pieces, rep, c);
  }

  /** Replacing a text that does not occur changes nothing. */
  lemma {:induction false} ReplaceAbsent(s: string, pat: string, rep: string)
    requires |pat| > 0 && !Contains(s, pat)
    ensures Replace(s, pat, rep) == s
  {
  }

  /** Joining with a longer separator gives a text at least as long, and a
      longer one once there are two parts. */
  lemma {:induction false} JoinLonger(parts: seq<string>, a: string, b: string)
    requires |a| < |b|
    ensures |Join(parts, a)| <= |Join(parts, b)|
    ensures |parts| >= 2 ==> |Join(parts, a)| < |Join(parts, b)|
  {
    if |parts| >= 2 {
      JoinLonger(parts[1..], a, b);
    }
  }

  /** Replacing an occurring text by a longer one lengthens the text. */
  lemma {:induction false} ReplaceGrows(s: string, pat: string, rep: string)
    requires |pat| > 0 && |pat| < |rep| && Contains(s, pat)
    ensures |Replace(s, pat, rep)| > |s|
  {
    JoinSplit(s, pat);
    JoinLonger(Split(s, pat), pat, rep);
  }

  /** `s.split('\n')[-1]`: the text after the last line break. */
  function LastLine(s: string): (r: string)
    ensures NoNewline(r) && EndsWith(s, r)
    ensures |r| < |s| ==> s[|s| - |r| - 1] == '\n'
  {
    if |s| == 0 || s[|s| - 1] == '\n' then ""
    else
      var r := LastLine(s[..|s| - 1]) + [s[|s| - 1]];
      assert s[..|s| - 1][|s| - 1 - (|r| - 1)..] == s[|s| - |r|..|s| - 1];
      r
  }

  /** `s.replace(c, '')` for one character. */
  function RemoveChar(s: string, c: char): (r: string)
    ensures forall i :: 0 <= i < |r| ==> r[i] != c
    ensures |r| <= |s|
  {
    if |s| == 0 then ""
    else (if s[0] == c then "" else [s[0]]) + RemoveChar(s[1..], c)
  }

  lemma {:induction false} RemoveCharAbsent(s: string, c: char)
    requires forall i :: 0 <= i < |s| ==> s[i] != c
    ensures RemoveChar(s, c) == s
  {
    if |s| > 0 { RemoveCharAbsent(s[1..], c); }
  }

  /** `s.replace(a, b)` for one character by another. */
  function MapChar(s: string, a: char, b: char): (r: string)
    ensures |r| == |s|
    ensures forall i :: 0 <= i < |s| ==> r[i] == if s[i] == a then b else s[i]
  {
    seq(|s|, i requires 0 <= i < |s| => if s[i] == a then b else s[i])
  }

  function LowerChar(c: char): char {
    if 'A' <= c <= 'Z' then (c as int + 32) as char else c
  }

  function UpperChar(c: char): char {
    if 'a' <= c <= 'z' then (c as int - 32) as char else c
  }

  /** `s.lower()` (ASCII letters) */
  function Lower(s: string): (r: string)
    ensures |r| == |s|
  {
    seq(|s|, i requires 0 <= i < |s| => LowerChar(s[i]))
  }

  /** Text without capitals is its own lower case. */
  lemma {:induction false} LowerUnchanged(s: string)
    requires forall i :: 0 <= i < |s| ==> !('A' <= s[i] <= 'Z')
    ensures Lower(s) == s
  {
  }

  /** `s.capitalize()` (ASCII letters) */
  function Capitalize(s: string): string {
    if |s| == 0 then "" else [UpperChar(s[0])] + Lower(s[1..])
  }

  function DigitValue(c: char): nat
    requires IsDigit(c)
  {
    c as int - '0' as int
  }

  /** The number a run of decimal digits denotes. */
  function DigitsValue(s: string): nat
    requires AllDigits(s)
  {
    if |s| == 0 then 0 else 10 * DigitsValue(s[..|s| - 1]) + DigitValue(s[|s| - 1])
  }

  function DigitChar(d: nat): (c: char)
    requires d < 10
    ensures IsDigit(c) && DigitValue(c) == d
  {
    ('0' as int + d) as char
  }

  /** `str(n)` for a natural number. */
  function NatToString(n: nat): (r: string)
    ensures |r| > 0 && AllDigits(r) && DigitsValue(r) == n
    ensures n >= 10 ==> r[0] != '0'
  {
    if n < 10 then [DigitChar(n)]
    else
      var r := NatToString(n / 10) + [DigitChar(n % 10)];
      assert r[..|r| - 1] == NatToString(n / 10);
      r
  }

  /** `str(i)` for an integer. */
  function IntToString(i: int): string {
    if i < 0 then "-" + NatToString(-i) else NatToString(i)
  }

  /** Digits in groups joined by single underscores, the body `int()` accepts. */
  predicate DigitGroups(s: string) {
    |s| > 0 && IsDigit(s[0]) && IsDigit(s[|s| - 1])
    && (forall i :: 0 <= i < |s| ==> IsDigit(s[i]) || s[i] == '_')
    && (forall i :: 0 <= i < |s| - 1 ==> s[i] == '_' ==> s[i + 1] != '_')
  }

  /** `int(s)` on a string: surrounding whitespace, an optional sign and digit
      groups; anything else raises ValueError (None here). */
  function ParseInt(s: string): (r: Option<int>)
    ensures r.Some? ==> |Strip(s)| > 0
  {
    ParseSigned(Strip(s))
  }

  /** `int(t)` once the whitespace is gone. */
  function ParseSigned(t: string): (r: Option<int>)
    ensures r.Some? ==> |t| > 0
  {
    var signed := |t| > 0 && (t[0] == '-' || t[0] == '+');
    var body := if signed then t[1..] else t;
    if DigitGroups(body) then
      UnderscoresRemoved(body);
      var m: int := DigitsValue(RemoveChar(body, '_'));
      Some(if signed && t[0] == '-' then -m else m)
    else None
  }

  lemma {:induction false} UnderscoresRemoved(s: string)
    requires forall i :: 0 <= i < |s| ==> IsDigit(s[i]) || s[i] == '_'
    ensures AllDigits(RemoveChar(s, '_'))
  {
    if |s| > 0 { UnderscoresRemoved(s[1..]); }
  }

  lemma {:induction false} StripDigits(s: string)
    requires |s| > 0 && (s[0] == '-' || IsDigit(s[0])) && AllDigits(s[1..])
    ensures Strip(s) == s
  {
    assert !IsSpace(s[0]);
    assert LStrip(s) == s;
    assert !IsSpace(s[|s| - 1]);
  }

  /** A run of digits is a digit group with no underscore to remove. */
  lemma {:induction false} DigitsAreGroups(d: string)
    requires |d| > 0 && AllDigits(d)
    ensures DigitGroups(d) && RemoveChar(d, '_') == d
  {
    RemoveCharAbsent(d, '_');
  }

  /** Digits with no sign in front are read as they are. */
  lemma {:induction false} ParseSignedUnsigned(d: string)
    requires |d| > 0 && AllDigits(d)
    ensures ParseSigned(d) == Some(DigitsValue(d) as int)
  {
    assert IsDigit(d[0]);
    var signed := d[0] == '-' || d[0] == '+';
    assert !signed;
    DigitsAreGroups(d);
  }

  /** Digits after a minus sign are read as a negative number. */
  lemma {:induction false} ParseSignedMinus(d: string)
    requires |d| > 0 && AllDigits(d)
    ensures ParseSigned("-" + d) == Some(-(DigitsValue(d) as int))
  {
    var t := "-" + d;
    assert t[0] == '-' && t[1..] == d;
    DigitsAreGroups(d);
  }

  /** A minus sign before digits leaves nothing to strip. */
  lemma {:induction false} StripMinusDigits(d: string)
    requires |d| > 0 && AllDigits(d)
    ensures Strip("-" + d) == "-" + d
  {
    assert ("-" + d)[1..] == d;
    StripDigits("-" + d);
  }

  /** Text with nothing to strip is parsed as it stands. */
  lemma {:induction false} ParseIntUnstripped(s: string)
    requires Strip(s) == s
    ensures ParseInt(s) == ParseSigned(s)
  {
  }

  lemma {:induction false} ParseIntDigits(d: string)
    requires |d| > 0 && AllDigits(d)
    ensures ParseInt(d) == Some(DigitsValue(d))
  {
    StripDigits(d);
    ParseIntUnstripped(d);
    ParseSignedUnsigned(d);
  }

  lemma {:induction false} ParseIntNegative(d: string)
    requires |d| > 0 && AllDigits(d)
    ensures ParseInt("-" + d) == Some(-(DigitsValue(d) as int))
  {
    StripMinusDigits(d);
    ParseIntUnstripped("-" + d);
    ParseSignedMinus(d);
  }

  /** `int(str(i)) == i` */
  lemma {:induction false} ParseIntToString(i: int)
    ensures ParseInt(IntToString(i)) == Some(i)
  {
    if i < 0 {
      var d := NatToString(-i);
      ParseIntNegative(d);
    } else {
      ParseIntDigits(NatToString(i));
    }
  }
}
