/** The regular expressions the device-identification helper searches with,
    as terms, and what it means for `re.search` to find one: a match is a
    span `s[i..j]` the expression describes.  Greedy and lazy repetition
    describe the same spans, so only whether a match exists is modelled,
    not which one the engine reports. */
module Regex {
  import opened Text

  /** One-character classes: a set of characters, its complement (`.` is
      the complement of "\n", or of nothing under DOTALL), `\s` and `\d`. */
  datatype Class = OneOf(cs: seq<char>) | NoneOf(xs: seq<char>) | Space | Digit

  predicate InClass(k: Class, c: char) {
    match k
    case OneOf(cs) => c in cs
    case NoneOf(xs) => c !in xs
    case Space => IsSpace(c)
    case Digit => IsDigit(c)
  }

  datatype Re =
    | Empty
    /** A literal text. */
    | Text(t: string)
    | Char(k: Class)
    | Cat(a: Re, b: Re)
    | Alt(l: Re, r: Re)
    | Star(x: Re)
    /** `^` without MULTILINE: the start of the text. */
    | Bol
    /** `$` without MULTILINE: the end, or just before a final line break. */
    | Eol

  /** `r` describes `s[i..j]`. */
  predicate Matches(r: Re, s: string, i: nat, j: nat)
    requires i <= j <= |s|
    decreases r, j - i
  {
    match r
    case Empty => i == j
    case Text(t) => j == i + |t| && s[i..j] == t
    case Char(k) => j == i + 1 && InClass(k, s[i])
    case Cat(a, b) => exists m | i <= m <= j :: Matches(a, s, i, m) && Matches(b, s, m, j)
    case Alt(a, b) => Matches(a, s, i, j) || Matches(b, s, i, j)
    case Star(x) =>
      i == j || exists m | i < m <= j :: Matches(x, s, i, m) && Matches(r, s, m, j)
    case Bol => i == j == 0
    case Eol => i == j && (j == |s| || (j == |s| - 1 && s[j] == '\n'))
  }

  /** `re.search(r, s)` finds a match. */
  predicate Search(r: Re, s: string) {
    exists i, j | 0 <= i <= j <= |s| :: Matches(r, s, i, j)
  }

  // ---------------------------------------------------------------------
  // Building blocks
  // ---------------------------------------------------------------------

  /** `.` without DOTALL. */
  function Dot(): Re { Char(NoneOf("\n")) }

  /** `.` under DOTALL. */
  function AnyChar(): Re { Char(NoneOf("")) }

  /** `[cs]` */
  function Set(cs: string): Re { Char(OneOf(cs)) }

  /** `\s` */
  function Ws(): Re { Char(Space) }

  /** `x?` */
  function Opt(x: Re): Re { Alt(x, Empty) }

  /** `x+` */
  function Plus(x: Re): Re { Cat(x, Star(x)) }

  /** `x1 x2 ... xn` */
  function Seq(xs: seq<Re>): Re
    decreases |xs|
  {
    if |xs| == 0 then Empty else Cat(xs[0], Seq(xs[1..]))
  }

  /** `x1|x2|...|xn` (an empty alternation matches nothing). */
  function AnyOf(xs: seq<Re>): Re
    decreases |xs|
  {
    if |xs| == 0 then Char(OneOf("")) else if |xs| == 1 then xs[0] else Alt(xs[0], AnyOf(xs[1..]))
  }

  // ---------------------------------------------------------------------
  // What the building blocks mean
  // ---------------------------------------------------------------------

  /** Searching for a literal is a substring test. */
  lemma {:induction false} TextSearch(t: string, s: string)
    ensures Search(Text(t), s) <==> Contains(s, t)
  {
    if Search(Text(t), s) {
      var i, j :| 0 <= i <= j <= |s| && Matches(Text(t), s, i, j);
      ContainsAt(s, t, i);
    }
    if Contains(s, t) {
      var i := Find(s, t, 0).value;
      assert Matches(Text(t), s, i, i + |t|);
    }
  }

  /** Searching for an alternation searches for either side. */
  lemma {:induction false} AltSearch(a: Re, b: Re, s: string)
    ensures Search(Alt(a, b), s) <==> Search(a, s) || Search(b, s)
  {
    if Search(Alt(a, b), s) {
      var i, j :| 0 <= i <= j <= |s| && Matches(Alt(a, b), s, i, j);
      assert Matches(a, s, i, j) || Matches(b, s, i, j);
    }
    if Search(a, s) {
      var i, j :| 0 <= i <= j <= |s| && Matches(a, s, i, j);
      assert Matches(Alt(a, b), s, i, j);
    }
    if Search(b, s) {
      var i, j :| 0 <= i <= j <= |s| && Matches(b, s, i, j);
      assert Matches(Alt(a, b), s, i, j);
    }
  }

  /** A search that finds `a` followed by `b` finds `a`, whatever `b` is. */
  lemma {:induction false} CatSearch(a: Re, b: Re, s: string)
    requires Search(Cat(a, b), s)
    ensures Search(a, s)
  {
    var i, j :| 0 <= i <= j <= |s| && Matches(Cat(a, b), s, i, j);
    assert Matches(Cat(a, b), s, i, j) == exists m | i <= m <= j :: Matches(a, s, i, m) && Matches(b, s, m, j);
    var m :| i <= m <= j && Matches(a, s, i, m) && Matches(b, s, m, j);
    assert Matches(a, s, i, m);
  }

  /** A match of `a` followed by a match of `b` is a match of `ab`. */
  lemma {:induction false} CatJoin(a: Re, b: Re, s: string, i: nat, m: nat, j: nat)
    requires i <= m <= j <= |s| && Matches(a, s, i, m) && Matches(b, s, m, j)
    ensures Matches(Cat(a, b), s, i, j)
  {
  }

  /** A match of `ab` splits into a match of `a` and one of `b`. */
  lemma {:induction false} CatSplit(a: Re, b: Re, s: string, i: nat, j: nat) returns (m: nat)
    requires i <= j <= |s| && Matches(Cat(a, b), s, i, j)
    ensures i <= m <= j && Matches(a, s, i, m) && Matches(b, s, m, j)
  {
    assert Matches(Cat(a, b), s, i, j) == exists m | i <= m <= j :: Matches(a, s, i, m) && Matches(b, s, m, j);
    m :| i <= m <= j && Matches(a, s, i, m) && Matches(b, s, m, j);
  }

  /** `a.b` is `a`, any character, `b`. */
  lemma {:induction false} DottedTerm(a: string, b: string)
    ensures Seq([Text(a), AnyChar(), Text(b)]) == Cat(Text(a), Cat(AnyChar(), Cat(Text(b), Empty)))
  {
    assert Seq([Text(b)]) == Cat(Text(b), Empty) by {
      assert [Text(b)][1..] == [];
    }
    assert Seq([AnyChar(), Text(b)]) == Cat(AnyChar(), Seq([Text(b)])) by {
      assert [AnyChar(), Text(b)][1..] == [Text(b)];
    }
    assert [Text(a), AnyChar(), Text(b)][1..] == [AnyChar(), Text(b)];
  }

  /** Under DOTALL, `a.b` finds `a`, any one character, then `b`. */
  lemma {:induction false} DottedSearch(a: string, b: string, s: string)
    ensures Search(Seq([Text(a), AnyChar(), Text(b)]), s) <==>
      exists i :: OccursAt(s, a, i) && OccursAt(s, b, i + |a| + 1)
  {
    DottedTerm(a, b);
    if Search(Cat(Text(a), Cat(AnyChar(), Cat(Text(b), Empty))), s) {
      DottedFound(a, b, s);
    }
    if exists i :: OccursAt(s, a, i) && OccursAt(s, b, i + |a| + 1) {
      var i :| OccursAt(s, a, i) && OccursAt(s, b, i + |a| + 1);
      DottedAt(a, b, s, i);
    }
  }

  lemma {:induction false} DottedFound(a: string, b: string, s: string)
    requires Search(Cat(Text(a), Cat(AnyChar(), Cat(Text(b), Empty))), s)
    ensures exists i :: OccursAt(s, a, i) && OccursAt(s, b, i + |a| + 1)
  {
    var r3 := Cat(Text(b), Empty);
    var r2 := Cat(AnyChar(), r3);
    var r1 := Cat(Text(a), r2);
    var i, j :| 0 <= i <= j <= |s| && Matches(r1, s, i, j);
    var m1 := CatSplit(Text(a), r2, s, i, j);
    var m2 := CatSplit(AnyChar(), r3, s, m1, j);
    var m3 := CatSplit(Text(b), Empty, s, m2, j);
    assert OccursAt(s, a, i) && OccursAt(s, b, i + |a| + 1);
  }

  lemma {:induction false} DottedAt(a: string, b: string, s: string, i: int)
    requires OccursAt(s, a, i) && OccursAt(s, b, i + |a| + 1)
    ensures Search(Cat(Text(a), Cat(AnyChar(), Cat(Text(b), Empty))), s)
  {
    var r3 := Cat(Text(b), Empty);
    var r2 := Cat(AnyChar(), r3);
    var m1 := i + |a|;
    var m2 := m1 + 1;
    var j := m2 + |b|;
    CatJoin(Text(b), Empty, s, m2, j, j);
    CatJoin(AnyChar(), r3, s, m1, m2, j);
    CatJoin(Text(a), r2, s, i, m1, j);
  }

  /** In particular `a.b` finds the text `a`, a dot, then `b`. */
  lemma {:induction false} DottedLiteral(a: string, b: string, s: string)
    requires Contains(s, a + "." + b)
    ensures Search(Seq([Text(a), AnyChar(), Text(b)]), s)
  {
    var t := a + "." + b;
    var i := Find(s, t, 0).value;
    assert s[i..i + |a|] == t[..|a|] == a;
    assert s[i + |a| + 1..i + |a| + 1 + |b|] == t[|a| + 1..] == b;
    assert OccursAt(s, a, i) && OccursAt(s, b, i + |a| + 1);
    DottedSearch(a, b, s);
  }

  /** The pieces `xs`, literals and one-character classes only, describe
      exactly the text `t`. */
  predicate Spells(xs: seq<Re>, t: string)
    decreases |xs|
  {
    if |xs| == 0 then t == []
    else match xs[0]
      case Text(w) => |w| <= |t| && t[..|w|] == w && Spells(xs[1..], t[|w|..])
      case Char(k) => |t| > 0 && InClass(k, t[0]) && Spells(xs[1..], t[1..])
      case _ => false
  }

  lemma {:induction false} SpellsMatch(xs: seq<Re>, t: string, s: string, i: nat)
    requires Spells(xs, t) && OccursAt(s, t, i)
    ensures Matches(Seq(xs), s, i, i + |t|)
    decreases |xs|
  {
    if |xs| == 0 {
      assert t == [];
    } else {
      var n := match xs[0] case Text(w) => |w| case _ => 1;
      assert n <= |t|;
      var rest := t[n..];
      assert OccursAt(s, rest, i + n) by {
        assert s[i + n..i + n + |rest|] == s[i..i + |t|][n..];
      }
      SpellsMatch(xs[1..], rest, s, i + n);
      assert Matches(xs[0], s, i, i + n) by {
        assert s[i..i + n] == s[i..i + |t|][..n];
        if !xs[0].Text? {
          assert s[i] == s[i..i + |t|][0];
        }
      }
      CatJoin(xs[0], Seq(xs[1..]), s, i, i + n, i + |t|);
    }
  }

  /** Where the text occurs, the pieces that spell it are found. */
  lemma {:induction false} SpellsSearch(xs: seq<Re>, t: string, s: string)
    requires Spells(xs, t) && Contains(s, t)
    ensures Search(Seq(xs), s)
  {
    var i := Find(s, t, 0).value;
    SpellsMatch(xs, t, s, i);
  }

  /** Searching for an alternation of four finds one of them. */
  lemma {:induction false} AnyOfFour(xs: seq<Re>, s: string)
    requires |xs| == 4
    ensures Search(AnyOf(xs), s) <==> Search(xs[0], s) || Search(xs[1], s) || Search(xs[2], s) || Search(xs[3], s)
  {
    assert AnyOf(xs[3..]) == xs[3];
    assert AnyOf(xs[2..]) == Alt(xs[2], xs[3]) by {
      assert xs[2..][1..] == xs[3..];
    }
    assert AnyOf(xs[1..]) == Alt(xs[1], AnyOf(xs[2..])) by {
      assert xs[1..][1..] == xs[2..];
    }
    AltSearch(xs[0], AnyOf(xs[1..]), s);
    AltSearch(xs[1], AnyOf(xs[2..]), s);
    AltSearch(xs[2], xs[3], s);
  }
}
