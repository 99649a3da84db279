/** `strip_ansi`: removes terminal control sequences from device output with
    one case-insensitive regular expression,
    ESC ( [@-Z\\-_] [0-9] ';' '~' BEL  |  '[' [0-?]* [ -/]* [@-~] ),
    the second alternative being a control sequence of section 5.4 of ECMA-48. */
module Sanitiser {
  import opened Wrappers
  import opened Text

  const ESC: char := '\U{1b}'
  const BEL: char := '\U{07}'

  /** The characters that case-insensitive matching takes for an ASCII letter
      although they are not ASCII: dotted capital I, dotless small i, long s
      and the Kelvin sign. */
  function FoldSpecial(c: char): char {
    if c == '\U{130}' || c == '\U{131}' then 'i'
    else if c == '\U{17f}' then 's'
    else if c == '\U{212a}' then 'k'
    else c
  }

  /** `[@-Z\\-_]` under IGNORECASE: the range @..Z, lower-case letters included,
      and the four characters backslash, ']', '^', '_' (not '['). */
  predicate IsIntroducer(c: char) {
    var f := UpperChar(FoldSpecial(c));
    ('@' <= f <= 'Z') || ('\\' <= f <= '_')
  }

  /** `[0-?]`: parameter bytes. */
  predicate IsParameter(c: char) { '0' <= c <= '?' }

  /** `[ -/]`: intermediate bytes. */
  predicate IsIntermediate(c: char) { ' ' <= c <= '/' }

  /** `[@-~]` under IGNORECASE: final bytes. */
  predicate IsFinal(c: char) { '@' <= FoldSpecial(c) <= '~' }

  /** How many characters from `i` on satisfy the parameter class. */
  function ParameterRun(s: string, i: nat): (n: nat)
    requires i <= |s|
    ensures i + n <= |s|
    ensures forall k :: i <= k < i + n ==> IsParameter(s[k])
    ensures i + n < |s| ==> !IsParameter(s[i + n])
    decreases |s| - i
  {
    if i < |s| && IsParameter(s[i]) then 1 + ParameterRun(s, i + 1) else 0
  }

  function IntermediateRun(s: string, i: nat): (n: nat)
    requires i <= |s|
    ensures i + n <= |s|
    ensures forall k :: i <= k < i + n ==> IsIntermediate(s[k])
    ensures i + n < |s| ==> !IsIntermediate(s[i + n])
    decreases |s| - i
  {
    if i < |s| && IsIntermediate(s[i]) then 1 + IntermediateRun(s, i + 1) else 0
  }

  /** The length of the escape sequence the expression matches at the start of
      `s`, if any. The three classes after '[' are disjoint, so the greedy
      repetitions never need to give characters back. */
  function SequenceLength(s: string): (n: Option<nat>)
    ensures n.Some? ==> 2 <= n.value <= |s| && s[0] == ESC
  {
    if FirstAlternative(s) then Some(6)
    else if |s| >= 2 && s[0] == ESC && s[1] == '[' then
      var p := 2 + ParameterRun(s, 2);
      var q := p + IntermediateRun(s, p);
      if q < |s| && IsFinal(s[q]) then Some(q + 1) else None
    else None
  }

  /** `re.sub(pattern, '', text)`: scan left to right, drop every match, keep
      every other character. */
  function StripAnsi(text: string): (r: string)
    ensures |r| <= |text|
    decreases |text|
  {
    if |text| == 0 then ""
    else match SequenceLength(text)
      case Some(n) => StripAnsi(text[n..])
      case None => [text[0]] + StripAnsi(text[1..])
  }

  /** One step of the scan: a character kept, or a whole sequence dropped. */
  datatype Piece = Kept(c: char) | Dropped(sequence: string)

  function Pieces(text: string): seq<Piece>
    decreases |text|
  {
    if |text| == 0 then []
    else match SequenceLength(text)
      case Some(n) => [Dropped(text[..n])] + Pieces(text[n..])
      case None => [Kept(text[0])] + Pieces(text[1..])
  }

  /** The text the pieces came from. */
  function Glue(ps: seq<Piece>): string {
    if |ps| == 0 then ""
    else PieceText(ps[0]) + Glue(ps[1..])
  }

  /** The text the kept pieces spell. */
  function KeptText(ps: seq<Piece>): string {
    if |ps| == 0 then ""
    else (match ps[0] case Kept(c) => [c] case Dropped(_) => "") + KeptText(ps[1..])
  }

  /** A complete escape sequence on its own. */
  predicate IsEscapeSequence(t: string) { SequenceLength(t) == Some(|t|) }

  /** The first alternative looks at the first six characters only. */
  predicate FirstAlternative(s: string) {
    |s| >= 6 && s[0] == ESC && IsIntroducer(s[1]) && IsDigit(s[2]) && s[3] == ';'
    && s[4] == '~' && s[5] == BEL
  }

  lemma {:induction false} FirstAlternativePrefix(s: string, n: nat)
    requires n <= |s|
    ensures n >= 6 ==> (FirstAlternative(s[..n]) <==> FirstAlternative(s))
    ensures n < 6 ==> !FirstAlternative(s[..n])
  {
  }

  lemma {:induction false} SequenceLengthPrefix(s: string, n: nat)
    requires SequenceLength(s) == Some(n)
    ensures IsEscapeSequence(s[..n])
  {
    FirstAlternativePrefix(s, n);
    if !FirstAlternative(s) {
      ControlSequencePrefix(s, n);
    }
  }

  /** The second alternative, cut at its own end, still matches whole. */
  lemma {:induction false} ControlSequencePrefix(s: string, n: nat)
    requires !FirstAlternative(s) && SequenceLength(s) == Some(n)
    ensures SequenceLength(s[..n]) == Some(n)
  {
    var t := s[..n];
    var p := 2 + ParameterRun(s, 2);
    var q := p + IntermediateRun(s, p);
    assert n == q + 1 && IsFinal(s[q]);
    FirstAlternativePrefix(s, n);
    ParameterRunPrefix(s, n, 2);
    IntermediateRunPrefix(s, n, p);
    assert t[0] == ESC && t[1] == '[' && t[q] == s[q];
  }

  lemma {:induction false} ParameterRunPrefix(s: string, n: nat, i: nat)
    requires i <= n <= |s| && i + ParameterRun(s, i) < n
    ensures ParameterRun(s[..n], i) == ParameterRun(s, i)
    decreases |s| - i
  {
    if i < n && IsParameter(s[i]) { ParameterRunPrefix(s, n, i + 1); }
  }

  lemma {:induction false} IntermediateRunPrefix(s: string, n: nat, i: nat)
    requires i <= n <= |s| && i + IntermediateRun(s, i) < n
    ensures IntermediateRun(s[..n], i) == IntermediateRun(s, i)
    decreases |s| - i
  {
    if i < n && IsIntermediate(s[i]) { IntermediateRunPrefix(s, n, i + 1); }
  }

  function PieceText(p: Piece): string {
    match p case Kept(c) => [c] case Dropped(t) => t
  }

  lemma {:induction false} GlueCons(p: Piece, ps: seq<Piece>)
    ensures Glue([p] + ps) == PieceText(p) + Glue(ps)
    ensures KeptText([p] + ps) == (if p.Kept? then [p.c] else "") + KeptText(ps)
  {
    assert ([p] + ps)[1..] == ps;
  }

  lemma {:induction false} PiecesGlue(text: string)
    ensures Glue(Pieces(text)) == text
    decreases |text|
  {
    if |text| > 0 {
      match SequenceLength(text)
      case Some(n) =>
        assert Pieces(text) == [Dropped(text[..n])] + Pieces(text[n..]);
        PiecesGlue(text[n..]);
        GlueCons(Dropped(text[..n]), Pieces(text[n..]));
        assert text == text[..n] + text[n..];
      case None =>
        assert Pieces(text) == [Kept(text[0])] + Pieces(text[1..]);
        PiecesGlue(text[1..]);
        GlueCons(Kept(text[0]), Pieces(text[1..]));
        assert text == [text[0]] + text[1..];
    }
  }

  lemma {:induction false} PiecesKept(text: string)
    ensures KeptText(Pieces(text)) == StripAnsi(text)
    decreases |text|
  {
    if |text| > 0 {
      match SequenceLength(text)
      case Some(n) =>
        PiecesKept(text[n..]);
        GlueCons(Dropped(text[..n]), Pieces(text[n..]));
      case None =>
        PiecesKept(text[1..]);
        GlueCons(Kept(text[0]), Pieces(text[1..]));
    }
  }

  lemma {:induction false} PiecesDropped(text: string)
    ensures forall k :: 0 <= k < |Pieces(text)| && Pieces(text)[k].Dropped? ==>
      IsEscapeSequence(Pieces(text)[k].sequence) && Pieces(text)[k].sequence[0] == ESC
    decreases |text|
  {
    if |text| > 0 {
      match SequenceLength(text)
      case Some(n) =>
        PiecesDropped(text[n..]);
        SequenceLengthPrefix(text, n);
        var ps := Pieces(text);
        assert ps == [Dropped(text[..n])] + Pieces(text[n..]);
        forall k | 0 <= k < |ps| && ps[k].Dropped?
          ensures IsEscapeSequence(ps[k].sequence) && ps[k].sequence[0] == ESC
        {
          if k > 0 { assert ps[k] == Pieces(text[n..])[k - 1]; }
        }
      case None =>
        PiecesDropped(text[1..]);
        var ps := Pieces(text);
        assert ps == [Kept(text[0])] + Pieces(text[1..]);
        forall k | 0 <= k < |ps| && ps[k].Dropped?
          ensures IsEscapeSequence(ps[k].sequence) && ps[k].sequence[0] == ESC
        {
          assert ps[k] == Pieces(text[1..])[k - 1];
        }
    }
  }

  /** The scan cuts the text into kept characters and dropped escape sequences:
      gluing the pieces gives the text back, the result is what the kept pieces
      spell, and every dropped piece is an escape sequence. */
  lemma {:induction false} StripAnsiPieces(text: string)
    ensures Glue(Pieces(text)) == text
    ensures KeptText(Pieces(text)) == StripAnsi(text)
    ensures forall k :: 0 <= k < |Pieces(text)| && Pieces(text)[k].Dropped? ==>
      IsEscapeSequence(Pieces(text)[k].sequence) && Pieces(text)[k].sequence[0] == ESC
  {
    PiecesGlue(text);
    PiecesKept(text);
    PiecesDropped(text);
  }

  /** Text without an ESC character passes through unchanged. */
  lemma {:induction false} StripAnsiWithoutEscape(text: string)
    requires ESC !in text
    ensures StripAnsi(text) == text
    decreases |text|
  {
    if |text| > 0 {
      assert text[0] != ESC;
      assert text[1..] + [] == text[1..];
      StripAnsiWithoutEscape(text[1..]);
      assert text == [text[0]] + text[1..];
    }
  }

  /** The reset sequence ESC '[' '0' 'm' after plain text leaves the text. */
  lemma {:induction false} StripAnsiResetAfter()
    ensures StripAnsi("ok\U{1b}[0m") == "ok"
  {
    var t := "\U{1b}[0m";
    assert ParameterRun(t, 2) == 1;
    assert SequenceLength(t) == Some(4);
    assert StripAnsi(t) == "" by { assert t[4..] == ""; }
    assert SequenceLength("k" + t) == None;
    assert StripAnsi("k" + t) == "k" by { assert ("k" + t)[1..] == t; }
    assert SequenceLength("ok" + t) == None;
    assert ("ok" + t)[1..] == "k" + t;
    assert "ok" + t == "ok\U{1b}[0m";
  }

  /** A select-graphic-rendition sequence is removed whole. */
  lemma {:induction false} StripAnsiColour()
    ensures StripAnsi("\U{1b}[1;32mok\U{1b}[0m") == "ok"
  {
    var s := "\U{1b}[1;32mok\U{1b}[0m";
    assert ParameterRun(s, 2) == 4;
    assert SequenceLength(s) == Some(7);
    assert s[7..] == "ok\U{1b}[0m";
    StripAnsiResetAfter();
  }

  /** An ESC that starts no sequence stays: ESC '7' (save cursor). */
  lemma {:induction false} StripAnsiKeepsLoneEscape()
    ensures StripAnsi("\U{1b}7") == "\U{1b}7"
  {
    assert SequenceLength("\U{1b}7") == None;
    assert SequenceLength("7") == None;
  }

  /** Removing a sequence can join the characters around it into a new one, so
      a second pass removes more: the function is not idempotent. */
  lemma {:induction false} StripAnsiNotIdempotent()
    ensures StripAnsi("\U{1b}\U{1b}[m[m") == "\U{1b}[m"
    ensures StripAnsi("\U{1b}[m") == ""
  {
    var s := "\U{1b}\U{1b}[m[m";
    assert SequenceLength(s) == None;
    assert SequenceLength(s[1..]) == Some(3);
    assert s[4..] == "[m";
    assert SequenceLength("[m") == None;
    assert SequenceLength("m") == None;
    assert SequenceLength("\U{1b}[m") == Some(3);
  }

  /** Sanitising two chunks one by one is not sanitising their concatenation:
      a sequence split across chunks survives. */
  lemma {:induction false} StripAnsiChunked()
    ensures StripAnsi("\U{1b}[") + StripAnsi("0m") == "\U{1b}[0m"
    ensures StripAnsi("\U{1b}[" + "0m") == ""
  {
    assert SequenceLength("\U{1b}[") == None;
    assert SequenceLength("[") == None;
    assert SequenceLength("0m") == None;
    assert SequenceLength("m") == None;
    assert "\U{1b}[" + "0m" == "\U{1b}[0m";
    assert SequenceLength("\U{1b}[0m") == Some(4);
  }
}
