/** The conversion helpers of the analysis library: uptimes and durations
    in seconds, and lists rendered as prose. */
module AnalysisUtil {
  import opened Wrappers
  import opened Text

  // ---------------------------------------------------------------------
  // date_time_delta
  // ---------------------------------------------------------------------

  /** The seconds between two timestamps whose difference is `days` days
      and `seconds` seconds: the difference is split into minutes and
      seconds with Python's flooring `divmod` and put back together. */
  function DateTimeDelta(days: int, seconds: int): (delta: int)
    ensures delta == days * 86400 + seconds
  {
    var total := days * 86400 + seconds;
    var minutes, rest := total / 60, total % 60;
    minutes * 60 + rest
  }

  // ---------------------------------------------------------------------
  // Searching for numbers followed by a unit
  // ---------------------------------------------------------------------

  /** The run of decimal digits that starts at `i`. */
  function DigitRun(s: string, i: nat): (d: string)
    requires i <= |s|
    ensures AllDigits(d) && i + |d| <= |s| && s[i..i + |d|] == d
    ensures i + |d| == |s| || !IsDigit(s[i + |d|])
    decreases |s| - i
  {
    if i < |s| && IsDigit(s[i]) then [s[i]] + DigitRun(s, i + 1) else ""
  }

  /** One alternative of a pattern: `(\d+)tail`, or ` (\d+)tail` with a
      space before the digits. */
  datatype Alt = Digits(tail: string) | Spaced(tail: string)

  /** The number an alternative captures when it matches at `i`. `\d+` is
      greedy and giving digits back leaves a digit where `tail` or the
      space must start, so the whole digit run is the only candidate. */
  function MatchAt(s: string, i: nat, a: Alt): (r: Option<nat>)
    requires i <= |s|
  {
    var start := if a.Spaced? then i + 1 else i;
    if a.Spaced? && (i == |s| || s[i] != ' ') then None
    else
      var d := DigitRun(s, start);
      if |d| > 0 && StartsWith(s[start + |d|..], a.tail) then Some(DigitsValue(d)) else None
  }

  /** The alternatives tried in order at one position. */
  function FirstAlt(s: string, i: nat, alts: seq<Alt>): Option<nat>
    requires i <= |s|
  {
    if |alts| == 0 then None
    else match MatchAt(s, i, alts[0])
      case Some(n) => Some(n)
      case None => FirstAlt(s, i, alts[1..])
  }

  /** `re.search` for a pattern made of `alts`: the leftmost position at
      which an alternative matches, and there the first that does. */
  function Search(s: string, alts: seq<Alt>, i: nat): (r: Option<nat>)
    requires i <= |s|
    decreases |s| - i
  {
    if i == |s| then None
    else match FirstAlt(s, i, alts)
      case Some(n) => Some(n)
      case None => Search(s, alts, i + 1)
  }

  /** The patterns of `uptime_to_seconds`. */
  const Years := [Digits(" year")]
  const Weeks := [Digits(" week")]
  const Days := [Digits(" day")]
  /** `^ (\d+)d `, tried at the start only. */
  const LeadingDays := Spaced("d ")
  const Hours := [Digits(" hour"), Spaced("h ")]
  const Minutes := [Digits(" minute"), Spaced("m ")]
  const Seconds := [Digits(" second"), Spaced("s ")]

  /** No alternative matches at any position from `i` up to `j`. */
  predicate NoneBetween(s: string, alts: seq<Alt>, i: nat, j: nat)
    requires j <= |s|
  {
    forall k :: i <= k < j ==> FirstAlt(s, k, alts).None?
  }

  /** `re.search` finds the leftmost position at which the pattern
      matches, and nothing when no position does. */
  lemma {:induction false} SearchIsLeftmost(s: string, alts: seq<Alt>, i: nat)
    requires i <= |s|
    ensures Search(s, alts, i).None? <==> NoneBetween(s, alts, i, |s|)
    ensures Search(s, alts, i).Some? ==>
      exists j :: i <= j < |s| && FirstAlt(s, j, alts) == Search(s, alts, i) && NoneBetween(s, alts, i, j)
    decreases |s| - i
  {
    if i < |s| {
      if FirstAlt(s, i, alts).Some? {
        assert !NoneBetween(s, alts, i, |s|);
        assert NoneBetween(s, alts, i, i);
      } else {
        SearchIsLeftmost(s, alts, i + 1);
        assert NoneBetween(s, alts, i, |s|) <==> NoneBetween(s, alts, i + 1, |s|);
        if Search(s, alts, i + 1).Some? {
          var j :| i + 1 <= j < |s| && FirstAlt(s, j, alts) == Search(s, alts, i + 1) && NoneBetween(s, alts, i + 1, j);
          assert NoneBetween(s, alts, i, j);
        }
      }
    }
  }

  /** A run of digits followed by the tail, which does not start with a
      digit, is what `(\d+)tail` captures. */
  lemma {:induction false} MatchDigits(s: string, i: nat, d: string, tail: string)
    requires |d| > 0 && AllDigits(d) && i + |d| <= |s| && s[i..i + |d|] == d
    requires |tail| > 0 && !IsDigit(tail[0]) && StartsWith(s[i + |d|..], tail)
    ensures MatchAt(s, i, Digits(tail)) == Some(DigitsValue(d))
  {
    DigitRunIs(s, i, d);
  }

  lemma {:induction false} DigitRunIs(s: string, i: nat, d: string)
    requires AllDigits(d) && i + |d| <= |s| && s[i..i + |d|] == d
    requires i + |d| == |s| || !IsDigit(s[i + |d|])
    ensures DigitRun(s, i) == d
    decreases |d|
  {
    if |d| > 0 {
      assert s[i] == d[0];
      assert s[i + 1..i + 1 + |d[1..]|] == d[1..];
      DigitRunIs(s, i + 1, d[1..]);
    }
  }

  function Amount(r: Option<nat>): nat {
    if r.Some? then r.value else 0
  }

  /** The first number the pattern finds in `u`, or 0. */
  function Found(u: string, alts: seq<Alt>): nat {
    Amount(Search(u, alts, 0))
  }

  /** The years, weeks and days of an uptime, summed unless the text starts
      with an `Nd ` token, whose days replace them. */
  function Dates(u: string): nat {
    var lead := MatchAt(u, 0, LeadingDays);
    if lead.Some? then lead.value * 86400
    else Found(u, Years) * 31536000 + Found(u, Weeks) * 604800 + Found(u, Days) * 86400
  }

  /** What `uptime_to_seconds` computes: the dates, then hours, minutes and
      seconds (long or one-letter form) added. Only the first occurrence of
      each unit counts. */
  function Uptime(uptime: string): nat {
    var u := " " + uptime + " ";
    Dates(u) + Found(u, Hours) * 3600 + Found(u, Minutes) * 60 + Found(u, Seconds)
  }

  /** `uptime_to_seconds`: the text is padded with a space on each side and
      the accumulator is updated unit by unit. */
  method UptimeToSeconds(uptime: string) returns (seconds: int)
    ensures seconds == Uptime(uptime) && seconds >= 0
  {
    seconds := 0;
    var u := " " + uptime + " ";
    var found := Search(u, Years, 0);
    if found.Some? {
      seconds := seconds + found.value * 31536000;
    }
    found := Search(u, Weeks, 0);
    if found.Some? {
      seconds := seconds + found.value * 604800;
    }
    found := Search(u, Days, 0);
    if found.Some? {
      seconds := seconds + found.value * 86400;
    }
    assert seconds == Found(u, Years) * 31536000 + Found(u, Weeks) * 604800 + Found(u, Days) * 86400;
    found := MatchAt(u, 0, LeadingDays);
    if found.Some? {
      seconds := found.value * 86400;
    }
    assert seconds == Dates(u);
    found := Search(u, Hours, 0);
    if found.Some? {
      seconds := seconds + found.value * 3600;
    }
    assert seconds == Dates(u) + Found(u, Hours) * 3600;
    found := Search(u, Minutes, 0);
    if found.Some? {
      seconds := seconds + found.value * 60;
    }
    assert seconds == Dates(u) + Found(u, Hours) * 3600 + Found(u, Minutes) * 60;
    found := Search(u, Seconds, 0);
    if found.Some? {
      seconds := seconds + found.value;
    }
  }

  /** A pattern whose every alternative needs a digit finds nothing in a
      text without digits. */
  lemma {:induction false} NoDigitsNoMatch(s: string, alts: seq<Alt>, i: nat)
    requires i <= |s| && forall j :: 0 <= j < |s| ==> !IsDigit(s[j])
    ensures Search(s, alts, i) == None
    decreases |s| - i
  {
    if i < |s| {
      NoAltMatches(s, i, alts);
      NoDigitsNoMatch(s, alts, i + 1);
    }
  }

  lemma {:induction false} NoAltMatches(s: string, i: nat, alts: seq<Alt>)
    requires i <= |s| && forall j :: 0 <= j < |s| ==> !IsDigit(s[j])
    ensures FirstAlt(s, i, alts) == None
  {
    if |alts| > 0 {
      var a := alts[0];
      var start := if a.Spaced? then i + 1 else i;
      if start <= |s| {
        assert start == |s| || !IsDigit(s[start]);
        assert DigitRun(s, start) == "";
      }
      NoAltMatches(s, i, alts[1..]);
    }
  }

  /** A text without digits is an uptime of zero seconds. */
  lemma {:induction false} UptimeWithoutDigits(uptime: string)
    requires forall j :: 0 <= j < |uptime| ==> !IsDigit(uptime[j])
    ensures Uptime(uptime) == 0
  {
    var u := " " + uptime + " ";
    assert forall j :: 0 <= j < |u| ==> !IsDigit(u[j]) by {
      forall j | 0 <= j < |u| ensures !IsDigit(u[j]) {
        if 0 < j < |u| - 1 { assert u[j] == uptime[j - 1]; }
      }
    }
    NoDigitsNoMatch(u, Years, 0);
    NoDigitsNoMatch(u, Weeks, 0);
    NoDigitsNoMatch(u, Days, 0);
    NoDigitsNoMatch(u, Hours, 0);
    NoDigitsNoMatch(u, Minutes, 0);
    NoDigitsNoMatch(u, Seconds, 0);
    assert u[1] != '0' && DigitRun(u, 1) == "";
  }

  // ---------------------------------------------------------------------
  // The worked examples of uptime_to_seconds
  // ---------------------------------------------------------------------

  /** At `k` alternative `a` cannot match: a spaced alternative without
      its space, or a digit run ending at `e` without the tail after it. */
  predicate Blocked(s: string, k: nat, a: Alt, e: nat)
    requires k <= |s|
  {
    var start := if a.Spaced? then k + 1 else k;
    (a.Spaced? && (k == |s| || s[k] != ' '))
    || (start <= e <= |s| && (forall j :: start <= j < e ==> IsDigit(s[j]))
        && (e == |s| || !IsDigit(s[e])) && !(start < e && StartsWith(s[e..], a.tail)))
  }

  lemma {:induction false} BlockedMisses(s: string, k: nat, a: Alt, e: nat)
    requires k <= |s| && Blocked(s, k, a, e)
    ensures MatchAt(s, k, a) == None
  {
    var start := if a.Spaced? then k + 1 else k;
    if !(a.Spaced? && (k == |s| || s[k] != ' ')) {
      DigitRunIs(s, start, s[start..e]);
    }
  }

  /** ` (\d+)c `: a space, digits up to `e`, then `c` and a space. */
  lemma {:induction false} HitsSpaced(s: string, k: nat, e: nat, c: char)
    requires k + 1 < e && e + 1 < |s| && s[k] == ' ' && s[e] == c && s[e + 1] == ' ' && !IsDigit(c)
    requires forall j :: k + 1 <= j < e ==> IsDigit(s[j])
    ensures MatchAt(s, k, Spaced([c, ' '])) == Some(DigitsValue(s[k + 1..e]))
  {
    DigitRunIs(s, k + 1, s[k + 1..e]);
    assert s[e..][..2] == [c, ' '];
  }

  /** Where the first of two alternatives is blocked, the search at `k`
      is whatever the second gives there. */
  lemma {:induction false} SecondAt(s: string, alts: seq<Alt>, k: nat, e0: nat)
    requires k < |s| && |alts| == 2 && Blocked(s, k, alts[0], e0) && MatchAt(s, k, alts[1]).Some?
    ensures Search(s, alts, k) == MatchAt(s, k, alts[1])
  {
    BlockedMisses(s, k, alts[0], e0);
    assert alts[1..][0] == alts[1];
    assert FirstAlt(s, k, alts[1..]) == MatchAt(s, k, alts[1]);
  }

  /** No digit in `s[i..j]` is followed by the tail of an alternative. */
  predicate QuietSpan(s: string, alts: seq<Alt>, i: nat, j: nat) {
    forall m :: i <= m < j && m < |s| && IsDigit(s[m]) ==>
      forall a :: a in alts ==> !StartsWith(s[m + 1..], a.tail)
  }

  /** Quiet stretches are skipped: where the stretch ends at the end of the
      text, or before a character that is neither a digit nor a space, no
      position in it starts a match. */
  lemma {:induction false} QuietSkips(s: string, alts: seq<Alt>, i: nat, j: nat)
    requires i <= j <= |s| && QuietSpan(s, alts, i, j)
    requires j == |s| || (0 < j && !IsDigit(s[j - 1]) && s[j - 1] != ' ')
    ensures Search(s, alts, i) == Search(s, alts, j)
    decreases j - i
  {
    if i < j {
      QuietMisses(s, alts, i, j);
      QuietSkips(s, alts, i + 1, j);
    }
  }

  lemma {:induction false} QuietMisses(s: string, alts: seq<Alt>, i: nat, j: nat)
    requires i < j <= |s| && QuietSpan(s, alts, i, j)
    requires j == |s| || (0 < j && !IsDigit(s[j - 1]) && s[j - 1] != ' ')
    ensures FirstAlt(s, i, alts) == None
  {
    if |alts| > 0 {
      assert alts[0] in alts;
      AltMisses(s, i, j, alts[0]);
      assert QuietSpan(s, alts[1..], i, j) by {
        forall b | b in alts[1..] ensures b in alts { }
      }
      QuietMisses(s, alts[1..], i, j);
    }
  }

  lemma {:induction false} AltMisses(s: string, i: nat, j: nat, a: Alt)
    requires i < j <= |s|
    requires forall m :: i <= m < j && m < |s| && IsDigit(s[m]) ==> !StartsWith(s[m + 1..], a.tail)
    requires j == |s| || (0 < j && !IsDigit(s[j - 1]) && s[j - 1] != ' ')
    ensures MatchAt(s, i, a) == None
  {
    var start := if a.Spaced? then i + 1 else i;
    if !(a.Spaced? && (i == |s| || s[i] != ' ')) {
      var d := DigitRun(s, start);
      var e := start + |d|;
      if |d| > 0 {
        assert forall x :: start <= x < e ==> IsDigit(s[x]) by {
          forall x | start <= x < e ensures IsDigit(s[x]) { assert s[x] == d[x - start]; }
        }
        assert i <= e - 1 < j && IsDigit(s[e - 1]);
        assert !StartsWith(s[(e - 1) + 1..], a.tail);
        assert (e - 1) + 1 == start + |d|;
      }
    }
  }

  /** Quiet follows from the characters after the digits: none of them
      is the first character of a tail. */
  lemma {:induction false} QuietByHeads(s: string, alts: seq<Alt>, i: nat, j: nat, heads: set<char>)
    requires forall a :: a in alts ==> |a.tail| > 0 && a.tail[0] in heads
    requires forall m :: i <= m < j && m < |s| && IsDigit(s[m]) ==> m + 1 < |s| && s[m + 1] !in heads
    ensures QuietSpan(s, alts, i, j)
  {
    forall m, a | i <= m < j && m < |s| && IsDigit(s[m]) && a in alts
      ensures !StartsWith(s[m + 1..], a.tail)
    {
      assert s[m + 1..][0] == s[m + 1];
    }
  }

  /** Quiet follows from the two characters after each digit: no pair is
      the start of a tail. */
  lemma {:induction false} QuietByPairs(s: string, alts: seq<Alt>, i: nat, j: nat, heads: set<(char, char)>)
    requires forall a :: a in alts ==> |a.tail| >= 2 && (a.tail[0], a.tail[1]) in heads
    requires forall m :: i <= m < j && m + 2 < |s| && IsDigit(s[m]) ==> (s[m + 1], s[m + 2]) !in heads
    ensures QuietSpan(s, alts, i, j)
  {
    forall m, a | i <= m < j && m < |s| && IsDigit(s[m]) && a in alts
      ensures !StartsWith(s[m + 1..], a.tail)
    {
      if m + 2 < |s| {
        assert s[m + 1..][0] == s[m + 1] && s[m + 1..][1] == s[m + 2];
      }
    }
  }

  lemma {:induction false} TwoDigits(d: string)
    requires |d| == 2 && AllDigits(d)
    ensures DigitsValue(d) == 10 * DigitValue(d[0]) + DigitValue(d[1])
  {
    assert d[..1][..0] == [];
    assert DigitsValue(d[..1]) == DigitValue(d[0]);
  }

  lemma {:induction false} ThreeDigits(d: string)
    requires |d| == 3 && AllDigits(d)
    ensures DigitsValue(d) == 100 * DigitValue(d[0]) + 10 * DigitValue(d[1]) + DigitValue(d[2])
  {
    TwoDigits(d[..2]);
  }

  /** A two-alternative pattern `(\d+)tail|\s(\d+)c\s` whose digits before
      `k` are all quiet finds the number between `k` and `e`. */
  lemma {:induction false} FoundSpaced(s: string, alts: seq<Alt>, k: nat, e: nat, c: char)
    requires |alts| == 2 && alts[0].Digits? && alts[1] == Spaced([c, ' '])
    requires 0 < k < |s| && QuietSpan(s, alts, 0, k) && !IsDigit(s[k - 1]) && s[k - 1] != ' '
    requires k + 1 < e && e + 1 < |s| && s[k] == ' ' && s[e] == c && s[e + 1] == ' ' && !IsDigit(c)
    requires forall j :: k + 1 <= j < e ==> IsDigit(s[j])
    ensures Found(s, alts) == DigitsValue(s[k + 1..e])
  {
    QuietSkips(s, alts, 0, k);
    HitsSpaced(s, k, e, c);
    SecondAt(s, alts, k, k);
  }

  /** The padded text of the documented example `628d 3h 39m 8s`, character
      by character. */
  predicate LongText(u: string) {
    |u| == 16 && u[0] == ' ' && u[1] == '6' && u[2] == '2' && u[3] == '8' && u[4] == 'd' && u[5] == ' '
    && u[6] == '3' && u[7] == 'h' && u[8] == ' ' && u[9] == '3' && u[10] == '9' && u[11] == 'm'
    && u[12] == ' ' && u[13] == '8' && u[14] == 's' && u[15] == ' '
  }

  lemma {:induction false} LongHours(u: string)
    requires LongText(u)
    ensures Found(u, Hours) == 3
  {
    forall m | 0 <= m < 5 && m < |u| && IsDigit(u[m])
      ensures m + 1 < |u| && u[m + 1] !in {' ', 'h'}
    {
      assert m == 1 || m == 2 || m == 3;
    }
    assert Hours == [Digits(" hour"), Spaced("h ")];
    QuietByHeads(u, Hours, 0, 5, {' ', 'h'});
    FoundSpaced(u, Hours, 5, 7, 'h');
    assert u[6..7][..0] == [];
  }

  lemma {:induction false} LongMinutes(u: string)
    requires LongText(u)
    ensures Found(u, Minutes) == 39
  {
    forall m | 0 <= m < 8 && m < |u| && IsDigit(u[m])
      ensures m + 1 < |u| && u[m + 1] !in {' ', 'm'}
    {
      assert m == 1 || m == 2 || m == 3 || m == 6;
    }
    assert Minutes == [Digits(" minute"), Spaced("m ")];
    QuietByHeads(u, Minutes, 0, 8, {' ', 'm'});
    FoundSpaced(u, Minutes, 8, 11, 'm');
    TwoDigits(u[9..11]);
  }

  lemma {:induction false} LongSeconds(u: string)
    requires LongText(u)
    ensures Found(u, Seconds) == 8
  {
    forall m | 0 <= m < 12 && m < |u| && IsDigit(u[m])
      ensures m + 1 < |u| && u[m + 1] !in {' ', 's'}
    {
      assert m == 1 || m == 2 || m == 3 || m == 6 || m == 9 || m == 10;
    }
    assert Seconds == [Digits(" second"), Spaced("s ")];
    QuietByHeads(u, Seconds, 0, 12, {' ', 's'});
    FoundSpaced(u, Seconds, 12, 14, 's');
    assert u[13..14][..0] == [];
  }

  lemma {:induction false} LongDates(u: string)
    requires LongText(u)
    ensures Dates(u) == 628 * 86400
  {
    HitsSpaced(u, 0, 4, 'd');
    ThreeDigits(u[1..4]);
  }

  /** The documented example: 628 days, 3 hours, 39 minutes and 8 seconds. */
  lemma {:induction false} UptimeLongExample()
    ensures Uptime("628d 3h 39m 8s") == 54272348
  {
    var u := " " + "628d 3h 39m 8s" + " ";
    assert LongText(u);
    LongDates(u);
    LongHours(u);
    LongMinutes(u);
    LongSeconds(u);
  }

  /** The padded text of `2d 1 year`, character by character. */
  predicate ShortText(u: string) {
    |u| == 11 && u[0] == ' ' && u[1] == '2' && u[2] == 'd' && u[3] == ' ' && u[4] == '1' && u[5] == ' '
    && u[6] == 'y' && u[7] == 'e' && u[8] == 'a' && u[9] == 'r' && u[10] == ' '
  }

  lemma {:induction false} ShortMisses(u: string, alts: seq<Alt>, c: char)
    requires ShortText(u) && c != 'd' && c != 'y'
    requires forall a :: a in alts ==> |a.tail| >= 2 && (a.tail[0], a.tail[1]) in {(' ', c), (c, ' ')}
    ensures Found(u, alts) == 0
  {
    forall m | 0 <= m < 11 && m + 2 < |u| && IsDigit(u[m])
      ensures (u[m + 1], u[m + 2]) !in {(' ', c), (c, ' ')}
    {
      assert m == 1 || m == 4;
    }
    QuietByPairs(u, alts, 0, 11, {(' ', c), (c, ' ')});
    QuietSkips(u, alts, 0, 11);
  }

  /** A leading `Nd ` token replaces the years found later in the text:
      `2d 1 year` is two days. */
  lemma {:induction false} UptimeShortExample()
    ensures Uptime("2d 1 year") == 172800
  {
    var u := " " + "2d 1 year" + " ";
    assert ShortText(u);
    HitsSpaced(u, 0, 2, 'd');
    assert u[1..2][..0] == [];
    assert Dates(u) == 2 * 86400;
    assert Hours == [Digits(" hour"), Spaced("h ")];
    ShortMisses(u, Hours, 'h');
    assert Minutes == [Digits(" minute"), Spaced("m ")];
    ShortMisses(u, Minutes, 'm');
    assert Seconds == [Digits(" second"), Spaced("s ")];
    ShortMisses(u, Seconds, 's');
  }

  // ---------------------------------------------------------------------
  // list_to_string
  // ---------------------------------------------------------------------

  function Quoted(item: string, quote: string): string {
    quote + item + quote
  }

  /** What follows the item that has `left` items after it: ', ' between
      items, and before the last one ' and ' or ' or ' (', ' for any other
      conjunction). */
  function After(left: nat, andOr: string): string {
    if left >= 2 then ", "
    else if left == 1 then (if andOr == "and" || andOr == "or" then " " + andOr + " " else ", ")
    else ""
  }

  /** The rendering of `items`, item by item from the front. */
  function Prose(items: seq<string>, andOr: string, quote: string): string
  {
    if |items| == 0 then ""
    else Quoted(items[0], quote) + After(|items| - 1, andOr) + Prose(items[1..], andOr, quote)
  }

  lemma {:induction false} ProseStep(items: seq<string>, i: nat, andOr: string, quote: string)
    requires i < |items|
    ensures Prose(items[i..], andOr, quote)
         == Quoted(items[i], quote) + After(|items| - i - 1, andOr) + Prose(items[i + 1..], andOr, quote)
  {
    assert items[i..][1..] == items[i + 1..];
  }

  lemma {:induction false} Regroup(a: string, b: string, c: string, d: string)
    ensures a + (b + c + d) == a + b + c + d
  {
  }

  /** `list_to_string` */
  method ListToString(items: seq<string>, andOr: string, quote: string) returns (text: string)
    ensures text == Prose(items, andOr, quote)
  {
    text := "";
    for index := 0 to |items|
      invariant text + Prose(items[index..], andOr, quote) == Prose(items, andOr, quote)
    {
      ProseStep(items, index, andOr, quote);
      var sep := "";
      if index < |items| - 2 {
        sep := ", ";
      } else if index == |items| - 2 {
        if andOr == "and" || andOr == "or" {
          sep := " " + andOr + " ";
        } else {
          sep := ", ";
        }
      }
      assert sep == After(|items| - index - 1, andOr);
      ghost var rest := Prose(items[index + 1..], andOr, quote);
      var q := Quoted(items[index], quote);
      assert Prose(items[index..], andOr, quote) == q + sep + rest;
      Regroup(text, q, sep, rest);
      text := text + q + sep;
    }
    assert items[|items|..] == [];
  }

  function QuoteAll(items: seq<string>, quote: string): (q: seq<string>)
    ensures |q| == |items|
  {
    if |items| == 0 then [] else [Quoted(items[0], quote)] + QuoteAll(items[1..], quote)
  }

  /** The rendering is the quoted items joined by ', ', except that the last
      two are joined by the conjunction. */
  lemma {:induction false} ProseIsJoin(init: seq<string>, last: string, andOr: string, quote: string)
    requires |init| >= 1
    ensures Prose(init + [last], andOr, quote)
         == Join(QuoteAll(init, quote), ", ") + After(1, andOr) + Quoted(last, quote)
  {
    var q0 := Quoted(init[0], quote);
    assert (init + [last])[1..] == init[1..] + [last];
    if |init| == 1 {
      assert Prose([last], andOr, quote) == Quoted(last, quote) + "" + "";
    } else {
      ProseIsJoin(init[1..], last, andOr, quote);
      var body := QuoteAll(init[1..], quote);
      Regroup(q0 + ", ", Join(body, ", "), After(1, andOr), Quoted(last, quote));
      JoinCons(q0, body, ", ");
    }
  }

  lemma {:induction false} ProseOfOne(item: string, andOr: string, quote: string)
    ensures Prose([item], andOr, quote) == quote + item + quote
  {
  }

  lemma {:induction false} ProseOfNone(andOr: string, quote: string)
    ensures Prose([], andOr, quote) == ""
  {
  }

  // ---------------------------------------------------------------------
  // seconds_to_summary_string
  // ---------------------------------------------------------------------

  /** The units of a summary, largest first, with a year of 365.25 days. */
  const Intervals: seq<(string, nat)> :=
    [("y", 31557600), ("w", 604800), ("d", 86400), ("h", 3600), ("m", 60), ("s", 1)]

  predicate Positive(units: seq<(string, nat)>) {
    forall j :: 0 <= j < |units| ==> units[j].1 > 0
  }

  /** Each unit is larger than the next. */
  predicate Descending(units: seq<(string, nat)>) {
    forall j :: 0 < j < |units| ==> units[j - 1].1 > units[j].1
  }

  lemma {:induction false} IntervalsAreUnits()
    ensures Positive(Intervals) && Descending(Intervals) && Intervals[|Intervals| - 1].1 == 1
  {
  }

  /** A component: a value in a unit. */
  datatype Part = Part(value: int, unit: nat, name: string)

  /** The non-zero components of `seconds` in `units`, each taken with
      Python's flooring `//` and subtracted before the next unit, which
      leaves the remainder of the division (`Subtracted`). */
  function Parts(seconds: int, units: seq<(string, nat)>): (ps: seq<Part>)
    requires Positive(units)
    decreases |units|
  {
    if units == [] then []
    else
      var value := seconds / units[0].1;
      var rest := Parts(seconds % units[0].1, units[1..]);
      if value != 0 then [Part(value, units[0].1, units[0].0)] + rest else rest
  }

  predicate NonZero(ps: seq<Part>) {
    forall i :: 0 <= i < |ps| ==> ps[i].value != 0
  }

  /** Every unit is smaller than `bound` and than the units before it. */
  predicate Ordered(ps: seq<Part>, bound: int) {
    (forall i :: 0 <= i < |ps| ==> ps[i].unit < bound)
    && forall i, j :: 0 <= i < j < |ps| ==> ps[i].unit > ps[j].unit
  }

  /** Only non-zero components are kept, and in the order of the units,
      each unit at most once. */
  lemma {:induction false} PartsOrdered(seconds: int, units: seq<(string, nat)>, bound: int)
    requires Positive(units) && Descending(units) && (|units| > 0 ==> units[0].1 < bound)
    ensures NonZero(Parts(seconds, units)) && Ordered(Parts(seconds, units), bound)
    decreases |units|
  {
    if units != [] {
      var value := seconds / units[0].1;
      var rest := Parts(seconds % units[0].1, units[1..]);
      PartsOrdered(seconds % units[0].1, units[1..], units[0].1);
      if value != 0 {
        var ps := [Part(value, units[0].1, units[0].0)] + rest;
        assert Parts(seconds, units) == ps;
        forall i | 0 <= i < |ps| ensures ps[i].value != 0 && ps[i].unit < bound {
          if i > 0 { assert ps[i] == rest[i - 1]; }
        }
        forall i, j | 0 <= i < j < |ps| ensures ps[i].unit > ps[j].unit {
          assert ps[j] == rest[j - 1];
          if i > 0 { assert ps[i] == rest[i - 1]; }
        }
      } else {
        assert Parts(seconds, units) == rest;
      }
    }
  }

  function Total(ps: seq<Part>): int {
    if |ps| == 0 then 0 else ps[0].value * ps[0].unit + Total(ps[1..])
  }

  /** When the last unit is one second, the components add up to the
      number of seconds, whatever its sign. */
  lemma {:induction false} PartsAddUp(seconds: int, units: seq<(string, nat)>)
    requires Positive(units) && |units| > 0 && units[|units| - 1].1 == 1
    ensures Total(Parts(seconds, units)) == seconds
    decreases |units|
  {
    var count := units[0].1;
    var value := seconds / count;
    var rest := Parts(seconds % count, units[1..]);
    Subtracted(seconds, count);
    if |units| > 1 {
      PartsAddUp(seconds % count, units[1..]);
    } else {
      assert count == 1 && value == seconds && seconds % count == 0;
    }
    assert Total(rest) == seconds % count;
    if value != 0 {
      var ps := [Part(value, count, units[0].0)] + rest;
      assert ps[1..] == rest;
      assert Total(ps) == value * count + Total(rest);
      assert Parts(seconds, units) == ps;
    } else {
      assert Parts(seconds, units) == rest;
    }
  }

  /** Unit `k` of the loop over the units. */
  lemma {:induction false} PartsStep(left: int, units: seq<(string, nat)>, k: nat, value: int)
    requires Positive(units) && k < |units| && value == left / units[k].1
    ensures Parts(left, units[k..])
      == if value != 0 then [Part(value, units[k].1, units[k].0)] + Parts(left % units[k].1, units[k + 1..])
         else Parts(left, units[k + 1..])
  {
    assert units[k..][1..] == units[k + 1..];
  }

  /** `value` followed by the unit letter, whose trailing 's' is stripped
      when the value is 1. */
  function Label(p: Part): string {
    IntToString(p.value) + (if p.value == 1 && p.name == "s" then "" else p.name)
  }

  function Labels(ps: seq<Part>): (ls: seq<string>)
    ensures |ls| == |ps| && forall i :: 0 <= i < |ps| ==> ls[i] == Label(ps[i])
  {
    if |ps| == 0 then [] else [Label(ps[0])] + Labels(ps[1..])
  }

  /** `xs[:n]` */
  function Head<T>(xs: seq<T>, n: int): (h: seq<T>)
    ensures h <= xs
    ensures 0 <= n ==> |h| == if n < |xs| then n else |xs|
  {
    if n >= |xs| then xs
    else if n >= 0 then xs[..n]
    else if |xs| + n > 0 then xs[..|xs| + n]
    else []
  }

  function Summary(seconds: int, granularity: int): string {
    IntervalsAreUnits();
    Join(Head(Labels(Parts(seconds, Intervals)), granularity), ", ")
  }

  /** `seconds_to_summary_string` */
  method SecondsToSummaryString(seconds: int, granularity: int) returns (summary: string)
    ensures summary == Summary(seconds, granularity)
  {
    IntervalsAreUnits();
    var result := Components(seconds, Intervals);
    summary := Join(Head(result, granularity), ", ");
  }

  /** The loop of `seconds_to_summary_string` over the units. */
  method Components(seconds: int, units: seq<(string, nat)>) returns (result: seq<string>)
    requires Positive(units)
    ensures result == Labels(Parts(seconds, units))
  {
    var left := seconds;
    result := [];
    ghost var parts: seq<Part> := [];
    for k := 0 to |units|
      invariant result == Labels(parts)
      invariant parts + Parts(left, units[k..]) == Parts(seconds, units)
    {
      var name, count := units[k].0, units[k].1;
      var value := left / count;
      ComponentsStep(seconds, units, k, left, parts);
      if value != 0 {
        ghost var p := Part(value, count, name);
        Subtracted(left, count);
        left := left - value * count;
        if value == 1 && name == "s" {
          name := "";
        }
        assert IntToString(value) + name == Label(p);
        result := result + [IntToString(value) + name];
        LabelsAppend(parts, p);
        parts := parts + [p];
      }
    }
    assert units[|units|..] == [] && parts + [] == parts;
  }

  /** One unit of the loop: a non-zero count of it is the next part, and
      the rest of the parts come from what is left. */
  lemma {:induction false} ComponentsStep(seconds: int, units: seq<(string, nat)>, k: nat, left: int, parts: seq<Part>)
    requires Positive(units) && k < |units|
    requires parts + Parts(left, units[k..]) == Parts(seconds, units)
    ensures var value := left / units[k].1;
      if value != 0 then
        parts + [Part(value, units[k].1, units[k].0)] + Parts(left % units[k].1, units[k + 1..]) == Parts(seconds, units)
      else parts + Parts(left, units[k + 1..]) == Parts(seconds, units)
  {
    var value := left / units[k].1;
    PartsStep(left, units, k, value);
    if value != 0 {
      RegroupParts(parts, [Part(value, units[k].1, units[k].0)], Parts(left % units[k].1, units[k + 1..]));
    }
  }

  /** Subtracting the whole units leaves the remainder. */
  lemma {:induction false} Subtracted(left: int, count: nat)
    requires 0 < count
    ensures left - (left / count) * count == left % count
  {
  }

  lemma {:induction false} RegroupParts(a: seq<Part>, b: seq<Part>, c: seq<Part>)
    ensures a + (b + c) == a + b + c
  {
  }

  lemma {:induction false} LabelsAppend(ps: seq<Part>, p: Part)
    ensures Labels(ps + [p]) == Labels(ps) + [Label(p)]
  {
  }

  /** Before truncation to `granularity`, the components of a summary are
      non-zero, come in the order y, w, d, h, m, s with each unit at most
      once, and add up to the number of seconds. */
  lemma {:induction false} SummaryComponents(seconds: int)
    ensures Positive(Intervals)
    ensures var ps := Parts(seconds, Intervals);
      NonZero(ps) && Ordered(ps, Intervals[0].1 + 1) && Total(ps) == seconds
  {
    IntervalsAreUnits();
    PartsOrdered(seconds, Intervals, Intervals[0].1 + 1);
    PartsAddUp(seconds, Intervals);
  }

  /** Exactly one second renders as '1': the unit letter 's' is stripped. */
  lemma {:induction false} OneSecond()
    ensures Summary(1, 3) == "1"
  {
    IntervalsAreUnits();
    assert Parts(1, Intervals) == [Part(1, 1, "s")];
  }
}
