/** Device identification from what an SSH session shows: the prompt line,
    the server's identification string (section 4.2 of RFC 4253) and pager
    prompts that want a keystroke.  Every regular expression of the rule
    tables is written out as an exact predicate over the text it is applied
    to; the doc comment of each quotes the pattern it stands for. */
module Identify {
  import opened Wrappers
  import opened Text
  import opened Py

  /** One line of terminal output: the prompt candidate is always the text
      after the last line break, so it never holds one. */
  type Line = s: string | NoNewline(s)

  // ---------------------------------------------------------------------
  // Prompt patterns
  // ---------------------------------------------------------------------

  datatype PromptPattern = Aruba | Linux | Ksh | Darwin | F5 | CiscoArista

  /** `^(\((.*?)\)\s+\*#)$`: groups prompt and hostname. */
  function ArubaGroups(s: Line): (r: Option<seq<string>>)
    ensures r.Some? ==>
      |r.value| == 2 && r.value[0] == s && |r.value[1]| + 5 <= |s|
      && s == "(" + r.value[1] + ")" + s[|r.value[1]| + 2..|s| - 2] + "*#"
      && AllSpace(s[|r.value[1]| + 2..|s| - 2])
  {
    if |s| >= 5 && s[0] == '(' && EndsWith(s, "*#") then
      var core := RStrip(s[..|s| - 2]);
      if |core| >= 2 && |core| < |s| - 2 && core[|core| - 1] == ')' then
        var host := s[1..|core| - 1];
        assert s == "(" + host + ")" + s[|core|..|s| - 2] + "*#";
        Some([s, host])
      else None
    else None
  }

  /** Largest `i` with `lo <= i < hi` and `s[i] == c`. */
  function LastIndexIn(s: string, c: char, lo: nat, hi: nat): (r: Option<nat>)
    requires hi <= |s|
    ensures r.Some? ==> lo <= r.value < hi && s[r.value] == c
    ensures r.Some? ==> forall j :: r.value < j < hi ==> s[j] != c
    ensures r.None? ==> forall j :: lo <= j < hi ==> s[j] != c
    decreases hi
  {
    if hi <= lo then None
    else if s[hi - 1] == c then Some(hi - 1)
    else LastIndexIn(s, c, lo, hi - 1)
  }

  /** The greedy `(.+)@(.+):` of the Linux rule, tried from `a` downwards:
      the largest '@' at index 1 or more that still has a ':' at least two
      places later and before the dollar at `d`, with the largest such ':'. */
  function LinuxSplit(s: string, d: nat, a: nat): (r: Option<(nat, nat)>)
    requires d < |s| && a < d
    ensures r.Some? ==>
      var (at, colon) := r.value;
      1 <= at <= a && s[at] == '@' && at + 2 <= colon < d && s[colon] == ':'
    decreases a
  {
    if a == 0 then None
    else if s[a] == '@' && LastIndexIn(s, ':', a + 2, d).Some? then
      Some((a, LastIndexIn(s, ':', a + 2, d).value))
    else LinuxSplit(s, d, a - 1)
  }

  /** The groups of the Linux rule once the dollar is known to be at `d`. */
  function LinuxGroupsTo(s: Line, d: nat): (r: Option<seq<string>>)
    requires 0 < d < |s|
    ensures r.Some? ==> |r.value| == 4 && r.value[0] == s
  {
    match LinuxSplit(s, d, d - 1)
    case None => None
    case Some((at, colon)) => Some([s, s[..at], s[at + 1..colon], s[colon + 1..d]])
  }

  /** `^((.+)@(.+):(.*?)\$\s+)$`: groups prompt, username, hostname, path. */
  function LinuxGroups(s: Line): (r: Option<seq<string>>)
    ensures r.Some? ==> |r.value| == 4 && r.value[0] == s
  {
    var core := RStrip(s);
    if |core| == |s| || |core| < 5 || core[|core| - 1] != '$' then None
    else LinuxGroupsTo(s, |core| - 1)
  }

  /** A line the Linux rule accepts is username '@' hostname ':' path '$'
      followed by whitespace, with non-empty username and hostname. */
  lemma {:induction false} LinuxGroupsRebuild(s: Line)
    requires LinuxGroups(s).Some?
    ensures var g := LinuxGroups(s).value;
      |g[1]| > 0 && |g[2]| > 0
      && var n := |g[1]| + |g[2]| + |g[3]| + 3;
      n < |s| && AllSpace(s[n..]) && s == g[1] + "@" + g[2] + ":" + g[3] + "$" + s[n..]
  {
    var d := |RStrip(s)| - 1;
    assert LinuxGroups(s) == LinuxGroupsTo(s, d);
    var (at, colon) := LinuxSplit(s, d, d - 1).value;
    Reassembled(s, at, colon, d);
  }

  /** A line is its parts around the '@', the ':' and the '$'. */
  lemma {:induction false} Reassembled(s: string, at: nat, colon: nat, d: nat)
    requires at < colon < d < |s| && s[at] == '@' && s[colon] == ':' && s[d] == '$'
    ensures s == s[..at] + "@" + s[at + 1..colon] + ":" + s[colon + 1..d] + "$" + s[d + 1..]
  {
    assert s[..at + 1] == s[..at] + "@";
    assert s[..colon] == s[..at + 1] + s[at + 1..colon];
    assert s[..colon + 1] == s[..colon] + ":";
    assert s[..d] == s[..colon + 1] + s[colon + 1..d];
    assert s[..d + 1] == s[..d] + "$";
    assert s == s[..d + 1] + s[d + 1..];
  }

  /** `^(\$\s+)$`: group prompt. */
  function KshGroups(s: Line): (r: Option<seq<string>>)
    ensures r.Some? ==> r.value == [s] && |s| >= 2 && s[0] == '$' && AllSpace(s[1..])
  {
    if |s| >= 2 && s[0] == '$' && AllSpace(s[1..]) then Some([s]) else None
  }

  /** `^((.*?)@(.*?):(.*))\s+$`: groups prompt (the line without its last
      character), username (up to the first '@'), hostname (up to the first
      ':' after it) and path. */
  function DarwinGroups(s: Line): (r: Option<seq<string>>)
    ensures r.Some? ==>
      |r.value| == 4 && |s| > 0 && IsSpace(s[|s| - 1]) && r.value[0] == s[..|s| - 1]
      && r.value[0] == r.value[1] + "@" + r.value[2] + ":" + r.value[3]
      && '@' !in r.value[1] && ':' !in r.value[2]
  {
    if |s| == 0 || !IsSpace(s[|s| - 1]) then None
    else match Find(s, "@", 0)
      case None => None
      case Some(at) =>
        match Find(s, ":", at + 1)
        case None => None
        case Some(colon) =>
          DarwinParts(s, at, colon);
          Some([s[..|s| - 1], s[..at], s[at + 1..colon], s[colon + 1..|s| - 1]])
  }

  /** The first occurrence of a character from `from` on: the text before
      it, from `from`, lacks that character. */
  lemma {:induction false} FirstChar(s: string, c: char, from: nat, i: nat)
    requires Find(s, [c], from) == Some(i)
    ensures i < |s| && s[i] == c && c !in s[from..i]
  {
    assert s[i] == s[i..i + 1][0];
    forall j | from <= j < i ensures s[j] != c {
      assert !OccursAt(s, [c], j);
      assert s[j..j + 1] == [s[j]];
    }
  }

  /** A darwin prompt cut at its first '@' and the first ':' after it. */
  lemma {:induction false} DarwinParts(s: string, at: nat, colon: nat)
    requires |s| > 0 && IsSpace(s[|s| - 1])
    requires Find(s, "@", 0) == Some(at) && Find(s, ":", at + 1) == Some(colon)
    ensures at < colon < |s| - 1
    ensures s[..|s| - 1] == s[..at] + "@" + s[at + 1..colon] + ":" + s[colon + 1..|s| - 1]
    ensures '@' !in s[..at] && ':' !in s[at + 1..colon]
  {
    FirstChar(s, '@', 0, at);
    FirstChar(s, ':', at + 1, colon);
    assert s[0..at] == s[..at];
    CutAround(s, at, colon);
  }

  /** A text cut at two of its places, the characters there kept. */
  lemma {:induction false} CutAround(s: string, at: nat, colon: nat)
    requires at < colon < |s| - 1 && s[at] == '@' && s[colon] == ':'
    ensures s[..|s| - 1] == s[..at] + "@" + s[at + 1..colon] + ":" + s[colon + 1..|s| - 1]
  {
    var t := s[..|s| - 1];
    assert t[..at + 1] == s[..at] + "@";
    assert t[..colon] == t[..at + 1] + s[at + 1..colon];
    assert t[..colon + 1] == t[..colon] + ":";
    assert t == t[..colon + 1] + s[colon + 1..|s| - 1];
  }

  /** `\s?\(tmos\)#\s+$` at index `i`. */
  predicate TmosTail(s: string, i: nat) {
    (OccursAt(s, "(tmos)#", i) && i + 7 < |s| && AllSpace(s[i + 7..]))
    || (i < |s| && IsSpace(s[i]) && OccursAt(s, "(tmos)#", i + 1) && i + 8 < |s|
        && AllSpace(s[i + 8..]))
  }

  /** `k` more `\(.*?\)` groups from index `i`, then the tmos tail. */
  predicate Parens(s: string, i: nat, k: nat)
    requires i <= |s|
    decreases k, |s| - i, 1
  {
    if k == 0 then TmosTail(s, i)
    else i < |s| && s[i] == '(' && CloseThen(s, i + 1, k)
  }

  /** Some ')' at or after `j` closes the current group and the remaining
      `k - 1` groups follow it. */
  predicate CloseThen(s: string, j: nat, k: nat)
    requires j <= |s| && k >= 1
    decreases k, |s| - j, 0
  {
    j < |s| && ((s[j] == ')' && Parens(s, j + 1, k - 1)) || CloseThen(s, j + 1, k))
  }

  /** The lazy hostname group of the F5 rule: the first ')' at or after `h`
      after which the three bracketed groups and the tmos tail follow. */
  function F5Host(s: string, h: nat): (r: Option<nat>)
    requires h <= |s|
    ensures r.Some? ==> h <= r.value < |s| && s[r.value] == ')' && Parens(s, r.value + 1, 3)
    decreases |s| - h
  {
    if h == |s| then None
    else if s[h] == ')' && Parens(s, h + 1, 3) then Some(h)
    else F5Host(s, h + 1)
  }

  /** The lazy username group of the F5 rule, tried from `u` upwards. */
  function F5User(s: string, u: nat): (r: Option<(nat, nat)>)
    requires u <= |s|
    ensures r.Some? ==>
      var (at, close) := r.value;
      u <= at && OccursAt(s, "@(", at) && at + 2 <= close < |s| && s[close] == ')'
    decreases |s| - u
  {
    if u + 2 > |s| then None
    else if OccursAt(s, "@(", u) && F5Host(s, u + 2).Some? then Some((u, F5Host(s, u + 2).value))
    else F5User(s, u + 1)
  }

  /** `^((.*?)@\((.*?)\)\(.*?\)\(.*?\)\(.*?\)\s?\(tmos\)#\s+)$`: groups prompt,
      username and hostname. */
  function F5Groups(s: Line): (r: Option<seq<string>>)
    ensures r.Some? ==>
      |r.value| == 3 && r.value[0] == s
      && StartsWith(s, r.value[1] + "@(" + r.value[2] + ")")
  {
    match F5User(s, 0)
    case None => None
    case Some((at, close)) =>
      var user, host := s[..at], s[at + 2..close];
      assert s[..|user + "@(" + host + ")"|] == user + "@(" + host + ")";
      Some([s, user, host])
  }

  /** `^((.*?)(#|>))$`: groups prompt, hostname and mode. */
  function CiscoAristaGroups(s: Line): (r: Option<seq<string>>)
    ensures r.Some? <==> |s| > 0 && s[|s| - 1] in "#>"
    ensures r.Some? ==> r.value == [s, s[..|s| - 1], [s[|s| - 1]]]
  {
    if |s| > 0 && (s[|s| - 1] == '#' || s[|s| - 1] == '>') then Some([s, s[..|s| - 1], [s[|s| - 1]]])
    else None
  }

  /** The capture groups 1, 2, … of a prompt pattern, if it matches. */
  function PromptGroups(p: PromptPattern, s: Line): Option<seq<string>> {
    match p
    case Aruba => ArubaGroups(s)
    case Linux => LinuxGroups(s)
    case Ksh => KshGroups(s)
    case Darwin => DarwinGroups(s)
    case F5 => F5Groups(s)
    case CiscoArista => CiscoAristaGroups(s)
  }

  function GroupCount(p: PromptPattern): nat {
    match p
    case Aruba => 2
    case Linux => 4
    case Ksh => 1
    case Darwin => 4
    case F5 => 3
    case CiscoArista => 3
  }

  lemma {:induction false} PromptGroupsCount(p: PromptPattern, s: Line)
    requires PromptGroups(p, s).Some?
    ensures |PromptGroups(p, s).value| == GroupCount(p)
  {
  }
  // ---------------------------------------------------------------------
  // The SSH_PROMPTS table
  // ---------------------------------------------------------------------

  /** A rule of the prompt table.  Every rule lists 'regex' first and
      'extract' second, then the keys held in `rest`. */
  datatype PromptRule = PromptRule(
    pattern: PromptPattern,
    regex: string,
    extract: seq<string>,
    rest: seq<(string, Value)>)

  const CommandNotFoundRegex: string := @"^bash: .*?: (command not found)$"
  const CannotOpenRegex: string := @"^.*?: can\'t open \'.*?\': (No such file or directory)"
  const InvalidInputRegex: string := @"% (Invalid input detected) at \'\^\' marker\."

  const ShellCommands: Value := List([Str("cat /etc/os-release"), Str("echo $SHELL")])
  const ShellErrors: Value := List([Str(CommandNotFoundRegex), Str(CannotOpenRegex)])

  const ArubaRule: PromptRule := PromptRule(Aruba, @"^(\((.*?)\)\s+\*#)$", ["prompt", "hostname"],
    [("vendor", Str("Aruba")), ("commands", List([Str("show version"), Str("show inventory")])),
     ("known_errors", List([Str(InvalidInputRegex)]))])

  const LinuxRule: PromptRule := PromptRule(Linux, @"^((.+)@(.+):(.*?)\$\s+)$",
    ["prompt", "username", "hostname", "path"],
    [("vendor", Str("linux")), ("os", Str("linux")), ("shell", Str("bash")),
     ("commands", ShellCommands), ("known_errors", ShellErrors)])

  const KshRule: PromptRule := PromptRule(Ksh, @"^(\$\s+)$", ["prompt"],
    [("os", Str("linux")), ("shell", Str("ksh")),
     ("commands", ShellCommands), ("known_errors", ShellErrors)])

  const DarwinRule: PromptRule := PromptRule(Darwin, @"^((.*?)@(.*?):(.*))\s+$",
    ["prompt", "username", "hostname", "path"],
    [("os", Str("darwin")), ("shell", Str("bash")),
     ("commands", ShellCommands), ("known_errors", ShellErrors)])

  const F5Rule: PromptRule := PromptRule(F5,
    @"^((.*?)@\((.*?)\)\(.*?\)\(.*?\)\(.*?\)\s?\(tmos\)#\s+)$", ["prompt", "username", "hostname"],
    [("vendor", Str("f5")),
     ("commands", List([Str("show sys version"), Str("show sys hardware"), Str("show info")])),
     ("known_errors", List([]))])

  const CiscoAristaRule: PromptRule := PromptRule(CiscoArista, @"^((.*?)(#|>))$",
    ["prompt", "hostname", "mode"],
    [("vendor", Str("arista|cisco")), ("commands", List([Str("show version")])),
     ("known_errors", List([]))])

  /** The patterns of `SSH_PROMPTS`, in the order they are tried. */
  function PromptOrder(): seq<PromptPattern> {
    [Aruba, Linux, Ksh, Darwin, F5, CiscoArista]
  }

  /** The entry of `SSH_PROMPTS` for a pattern. */
  function RuleFor(p: PromptPattern): (rule: PromptRule)
    ensures rule.pattern == p
  {
    match p
    case Aruba => ArubaRule
    case Linux => LinuxRule
    case Ksh => KshRule
    case Darwin => DarwinRule
    case F5 => F5Rule
    case CiscoArista => CiscoAristaRule
  }

  /** `SSH_PROMPTS`, in the order the rules are tried. */
  function PromptRules(): (rules: seq<PromptRule>)
    ensures |rules| == |PromptOrder()|
    ensures forall k :: 0 <= k < |rules| ==> rules[k].pattern == PromptOrder()[k]
  {
    seq(|PromptOrder()|, k requires 0 <= k < |PromptOrder()| => RuleFor(PromptOrder()[k]))
  }

  /** Pairs the i-th extract name with capture group i + 1. */
  function Bindings(names: seq<string>, groups: seq<string>): (r: seq<(string, Value)>)
    requires |names| <= |groups|
    ensures Keys(r) == names
    ensures forall i :: 0 <= i < |names| ==> r[i].1 == Str(groups[i])
  {
    seq(|names|, i requires 0 <= i < |names| => (names[i], Str(groups[i])))
  }

  /** `for k, v in entries: result[k] = v` */
  function PutAll(d: seq<(string, Value)>, entries: seq<(string, Value)>): seq<(string, Value)>
    decreases |entries|
  {
    if |entries| == 0 then d else PutAll(Put(d, entries[0].0, entries[0].1), entries[1..])
  }

  /** The dictionary `id_by_prompt` builds, key by key, from a rule and the
      groups of its match. */
  function Describe(rule: PromptRule, groups: seq<string>): seq<(string, Value)>
    requires |rule.extract| <= |groups|
  {
    PutAll(PutAll([("regex", Str(rule.regex))], Bindings(rule.extract, groups)), rule.rest)
  }

  /** The same dictionary written as one literal: the rule's keys in order,
      'extract' replaced by the names it lists, each bound to its group. */
  function Expanded(rule: PromptRule, groups: seq<string>): seq<(string, Value)>
    requires |rule.extract| <= |groups|
  {
    [("regex", Str(rule.regex))] + Bindings(rule.extract, groups) + rule.rest
  }

  /** The keys of the expanded dictionary, which do not depend on the groups. */
  function RuleKeys(rule: PromptRule): seq<string> {
    ["regex"] + rule.extract + Keys(rule.rest)
  }

  /** Storing keys that are all new appends them in order. */
  lemma {:induction false} PutAllFresh(d: seq<(string, Value)>, entries: seq<(string, Value)>)
    requires UniqueKeys(d + entries)
    ensures PutAll(d, entries) == d + entries
    decreases |entries|
  {
    if |entries| > 0 {
      var e := entries[0];
      NextKeyFresh(d, entries);
      PutAllNext(d, entries);
      ShiftFirst(d, entries);
      PutAllFresh(d + [e], entries[1..]);
    }
  }

  lemma {:induction false} ShiftFirst<T>(d: seq<T>, entries: seq<T>)
    requires |entries| > 0
    ensures d + [entries[0]] + entries[1..] == d + entries
  {
    assert entries == [entries[0]] + entries[1..];
  }

  lemma {:induction false} NextKeyFresh(d: seq<(string, Value)>, entries: seq<(string, Value)>)
    requires |entries| > 0 && UniqueKeys(d + entries)
    ensures !HasKey(d, entries[0].0)
  {
    assert (d + entries)[|d|] == entries[0];
    forall i | 0 <= i < |d| ensures Keys(d)[i] != entries[0].0 {
      assert (d + entries)[i] == d[i];
    }
  }

  lemma {:induction false} PutAllNext(d: seq<(string, Value)>, entries: seq<(string, Value)>)
    requires |entries| > 0 && !HasKey(d, entries[0].0)
    ensures PutAll(d, entries) == PutAll(d + [entries[0]], entries[1..])
  {
    assert KeyIndex(d, entries[0].0).None?;
  }

  lemma {:induction false} ExpandedKeys(rule: PromptRule, groups: seq<string>)
    requires |rule.extract| <= |groups|
    ensures Keys(Expanded(rule, groups)) == RuleKeys(rule)
  {
    var binds := Bindings(rule.extract, groups);
    var e := Expanded(rule, groups);
    assert e == [("regex", Str(rule.regex))] + (binds + rule.rest);
    KeysConcat([("regex", Str(rule.regex))], binds + rule.rest);
    KeysConcat(binds, rule.rest);
  }

  lemma {:induction false} UniqueFromDistinct(d: seq<(string, Value)>)
    requires Distinct(Keys(d))
    ensures UniqueKeys(d)
  {
    assert forall i :: 0 <= i < |d| ==> d[i].0 == Keys(d)[i];
  }

  lemma {:induction false} UniquePrefix(a: seq<(string, Value)>, b: seq<(string, Value)>)
    requires UniqueKeys(a + b)
    ensures UniqueKeys(a)
  {
    assert forall i :: 0 <= i < |a| ==> a[i] == (a + b)[i];
  }

  /** Building the dictionary key by key gives the expanded literal when no
      key repeats. */
  lemma {:induction false} DescribeIsExpanded(rule: PromptRule, groups: seq<string>)
    requires |rule.extract| <= |groups| && Distinct(RuleKeys(rule))
    ensures Describe(rule, groups) == Expanded(rule, groups)
  {
    var base := [("regex", Str(rule.regex))];
    var binds := Bindings(rule.extract, groups);
    ExpandedKeys(rule, groups);
    UniqueFromDistinct(Expanded(rule, groups));
    assert base + binds + rule.rest == Expanded(rule, groups);
    UniquePrefix(base + binds, rule.rest);
    PutAllFresh(base, binds);
    PutAllFresh(base + binds, rule.rest);
  }

  lemma {:induction false} ArubaRuleKeys()
    ensures Distinct(RuleKeys(ArubaRule))
  {
    assert RuleKeys(ArubaRule) == ["regex", "prompt", "hostname", "vendor", "commands", "known_errors"];
  }

  lemma {:induction false} LinuxRuleKeys()
    ensures Distinct(RuleKeys(LinuxRule))
  {
    assert RuleKeys(LinuxRule) == ["regex", "prompt", "username", "hostname", "path", "vendor",
      "os", "shell", "commands", "known_errors"];
  }

  lemma {:induction false} KshRuleKeys()
    ensures Distinct(RuleKeys(KshRule))
  {
    assert RuleKeys(KshRule) == ["regex", "prompt", "os", "shell", "commands", "known_errors"];
  }

  lemma {:induction false} DarwinRuleKeys()
    ensures Distinct(RuleKeys(DarwinRule))
  {
    assert RuleKeys(DarwinRule) == ["regex", "prompt", "username", "hostname", "path", "os",
      "shell", "commands", "known_errors"];
  }

  lemma {:induction false} F5RuleKeys()
    ensures Distinct(RuleKeys(F5Rule))
  {
    assert RuleKeys(F5Rule) == ["regex", "prompt", "username", "hostname", "vendor", "commands",
      "known_errors"];
  }

  lemma {:induction false} CiscoAristaRuleKeys()
    ensures Distinct(RuleKeys(CiscoAristaRule))
  {
    assert RuleKeys(CiscoAristaRule) == ["regex", "prompt", "hostname", "mode", "vendor",
      "commands", "known_errors"];
  }

  /** Every rule names one key per capture group, and no key of the
      dictionary it yields repeats. */
  lemma {:induction false} RuleWellFormed(p: PromptPattern)
    ensures |RuleFor(p).extract| == GroupCount(p)
    ensures Distinct(RuleKeys(RuleFor(p)))
  {
    match p
    case Aruba => ArubaRuleKeys();
    case Linux => LinuxRuleKeys();
    case Ksh => KshRuleKeys();
    case Darwin => DarwinRuleKeys();
    case F5 => F5RuleKeys();
    case CiscoArista => CiscoAristaRuleKeys();
  }

  lemma {:induction false} PromptRuleWellFormed(k: nat)
    requires k < |PromptOrder()|
    ensures |PromptRules()[k].extract| == GroupCount(PromptOrder()[k])
    ensures Distinct(RuleKeys(PromptRules()[k]))
  {
    assert PromptRules()[k] == RuleFor(PromptOrder()[k]);
    RuleWellFormed(PromptOrder()[k]);
  }

  /** The index and contents of the first `Some` at index `k` or later. */
  function FirstSome<T>(xs: seq<Option<T>>, k: nat): (r: Option<(nat, T)>)
    requires k <= |xs|
    ensures r.Some? ==> k <= r.value.0 < |xs| && xs[r.value.0] == Some(r.value.1)
    ensures r.Some? ==> forall j :: k <= j < r.value.0 ==> xs[j].None?
    ensures r.None? ==> forall j :: k <= j < |xs| ==> xs[j].None?
    decreases |xs| - k
  {
    if k == |xs| then None
    else match xs[k]
      case Some(v) => Some((k, v))
      case None => FirstSome(xs, k + 1)
  }

  /** A None entry passes the search on to the next one. */
  lemma {:induction false} FirstSomeSkip<T>(xs: seq<Option<T>>, k: nat)
    requires k < |xs| && xs[k].None?
    ensures FirstSome(xs, k) == FirstSome(xs, k + 1)
  {
  }

  /** A Some entry ends the search. */
  lemma {:induction false} FirstSomeHere<T>(xs: seq<Option<T>>, k: nat)
    requires k < |xs| && xs[k].Some?
    ensures FirstSome(xs, k) == Some((k, xs[k].value))
  {
  }

  /** When every entry from `i` up to `k` is None and entry `k` is not, the
      search from `i` stops at `k`. */
  lemma {:induction false} FirstSomeFrom<T>(xs: seq<Option<T>>, i: nat, k: nat)
    requires i <= k < |xs| && xs[k].Some?
    requires forall j :: i <= j < k ==> xs[j].None?
    ensures FirstSome(xs, i) == Some((k, xs[k].value))
    decreases k - i
  {
    if i < k {
      FirstSomeSkip(xs, i);
      FirstSomeFrom(xs, i + 1, k);
    } else {
      FirstSomeHere(xs, k);
    }
  }

  /** In six entries of which only the last is Some, the search stops at
      the last. */
  lemma {:induction false} SixthFirst<T>(xs: seq<Option<T>>)
    requires |xs| == 6 && xs[0].None? && xs[1].None? && xs[2].None?
    requires xs[3].None? && xs[4].None? && xs[5].Some?
    ensures FirstSome(xs, 0) == Some((5, xs[5].value))
  {
    FirstSomeSkip(xs, 0);
    FirstSomeSkip(xs, 1);
    FirstSomeSkip(xs, 2);
    FirstSomeSkip(xs, 3);
    FirstSomeSkip(xs, 4);
    FirstSomeHere(xs, 5);
  }

  /** What every rule's pattern makes of `s`, in table order. */
  function PromptMatches(s: Line): seq<Option<seq<string>>> {
    seq(|PromptOrder()|, k requires 0 <= k < |PromptOrder()| => PromptGroups(PromptOrder()[k], s))
  }

  /** The first rule whose pattern matches `s`, with the groups of that
      match. */
  function FirstPromptMatch(s: Line): Option<(nat, seq<string>)> {
    FirstSome(PromptMatches(s), 0)
  }

  /** `id_by_prompt`: the description built from the first matching rule, or
      None where the program returns False. */
  function IdByPrompt(s: Line): Option<Value> {
    match FirstPromptMatch(s)
    case None => None
    case Some((k, groups)) =>
      PromptGroupsCount(PromptOrder()[k], s);
      Some(Dict(Describe(PromptRules()[k], groups)))
  }

  /** The result is the first matching rule with 'extract' replaced by the
      extracted fields: every other key of the rule is copied, 'regex'
      included, and the i-th name is bound to capture group i + 1. */
  lemma {:induction false} IdByPromptDescribes(s: Line)
    ensures IdByPrompt(s).None? <==>
      forall j :: 0 <= j < |PromptOrder()| ==> PromptGroups(PromptOrder()[j], s).None?
    ensures IdByPrompt(s).Some? ==>
      var (k, groups) := FirstPromptMatch(s).value;
      |PromptRules()[k].extract| == |groups|
      && IdByPrompt(s).value == Dict(Expanded(PromptRules()[k], groups))
  {
    assert forall j :: 0 <= j < |PromptOrder()| ==> PromptMatches(s)[j] == PromptGroups(PromptOrder()[j], s);
    if FirstPromptMatch(s).Some? {
      var (k, groups) := FirstPromptMatch(s).value;
      PromptGroupsCount(PromptOrder()[k], s);
      PromptRuleWellFormed(k);
      DescribeIsExpanded(PromptRules()[k], groups);
    }
  }

  /** The identification once the first matching rule is known. */
  lemma {:induction false} IdByPromptAt(s: Line, k: nat, groups: seq<string>)
    requires FirstPromptMatch(s) == Some((k, groups))
    ensures k < |PromptRules()| && |PromptRules()[k].extract| == |groups|
    ensures IdByPrompt(s) == Some(Dict(Expanded(PromptRules()[k], groups)))
  {
    IdByPromptDescribes(s);
  }

  lemma {:induction false} LinuxRuleSecond()
    ensures PromptRules()[1] == LinuxRule
  {
    assert PromptOrder()[1] == Linux;
  }

  lemma {:induction false} CiscoAristaFirst(s: Line)
    requires |s| > 0 && s[|s| - 1] in "#>"
    requires ArubaGroups(s).None? && LinuxGroups(s).None? && KshGroups(s).None?
    requires DarwinGroups(s).None? && F5Groups(s).None?
    ensures FirstPromptMatch(s) == Some((5, [s, s[..|s| - 1], [s[|s| - 1]]]))
  {
    var o := PromptOrder();
    assert o[0] == Aruba && o[1] == Linux && o[2] == Ksh;
    assert o[3] == Darwin && o[4] == F5 && o[5] == CiscoArista;
    SixthFirst(PromptMatches(s));
  }

  /** The dictionary the Cisco/Arista rule yields for three groups. */
  lemma {:induction false} CiscoAristaEntries(groups: seq<string>)
    requires |groups| == 3
    ensures var e := Expanded(CiscoAristaRule, groups);
      |e| == 7 && e[1] == ("prompt", Str(groups[0])) && e[2] == ("hostname", Str(groups[1]))
      && e[3] == ("mode", Str(groups[2])) && e[4] == ("vendor", Str("arista|cisco"))
  {
    var binds := Bindings(CiscoAristaRule.extract, groups);
    assert binds == [("prompt", Str(groups[0])), ("hostname", Str(groups[1])), ("mode", Str(groups[2]))];
    var e := Expanded(CiscoAristaRule, groups);
    assert e[1] == binds[0] && e[2] == binds[1] && e[3] == binds[2];
    assert e[4] == CiscoAristaRule.rest[0];
  }

  /** A line that ends in '#' or '>' and that no earlier rule claims is a
      Cisco or Arista prompt: the hostname is everything before the last
      character and the mode is that character. */
  lemma {:induction false} CiscoAristaFallback(s: Line)
    requires |s| > 0 && s[|s| - 1] in "#>"
    requires ArubaGroups(s).None? && LinuxGroups(s).None? && KshGroups(s).None?
    requires DarwinGroups(s).None? && F5Groups(s).None?
    ensures IdByPrompt(s).Some?
    ensures var d := IdByPrompt(s).value.entries;
      |d| == 7 && d[1] == ("prompt", Str(s)) && d[2] == ("hostname", Str(s[..|s| - 1]))
      && d[3] == ("mode", Str([s[|s| - 1]])) && d[4] == ("vendor", Str("arista|cisco"))
  {
    var groups := [s, s[..|s| - 1], [s[|s| - 1]]];
    CiscoAristaFirst(s);
    IdByPromptDescribes(s);
    assert PromptRules()[5] == RuleFor(CiscoArista);
    CiscoAristaEntries(groups);
  }

  /** `rstrip` removes exactly a whitespace tail that follows a
      non-whitespace character. */
  lemma {:induction false} RStripTail(x: string, w: string)
    requires |x| > 0 && !IsSpace(x[|x| - 1]) && AllSpace(w)
    ensures RStrip(x + w) == x
    decreases |w|
  {
    if |w| == 0 {
      assert x + w == x;
    } else {
      assert (x + w)[..|x + w| - 1] == x + w[..|w| - 1];
      RStripTail(x, w[..|w| - 1]);
    }
  }

  lemma {:induction false} LastIndexInFound(s: string, c: char, lo: nat, at: nat, hi: nat)
    requires lo <= at < hi <= |s| && s[at] == c
    requires forall j :: at < j < hi ==> s[j] != c
    ensures LastIndexIn(s, c, lo, hi) == Some(at)
    decreases hi
  {
    if hi - 1 != at {
      LastIndexInFound(s, c, lo, at, hi - 1);
    }
  }

  lemma {:induction false} LinuxSplitSkips(s: string, d: nat, at: nat, a: nat)
    requires at <= a < d < |s|
    requires forall j :: at < j <= a ==> s[j] != '@'
    ensures LinuxSplit(s, d, a) == LinuxSplit(s, d, at)
    decreases a
  {
    if a > at {
      LinuxSplitSkips(s, d, at, a - 1);
    }
  }

  /** The prompt text of a bash prompt with its parts. */
  function BashPrompt(user: string, host: string, path: string, w: string): string {
    user + "@" + host + ":" + path + "$" + w
  }

  lemma {:induction false} BashPromptParts(s: string, user: string, host: string, path: string, w: string)
    requires s == BashPrompt(user, host, path, w)
    ensures var at, colon, d := |user|, |user| + 1 + |host|, |user| + |host| + |path| + 2;
      |s| == d + 1 + |w| && s[..at] == user && s[at] == '@' && s[at + 1..colon] == host
      && s[colon] == ':' && s[colon + 1..d] == path && s[d] == '$' && s[..d + 1] + w == s
  {
  }

  lemma {:induction false} LinuxSplitFound(s: string, at: nat, colon: nat, d: nat)
    requires 1 <= at && at + 2 <= colon < d < |s|
    requires s[at] == '@' && s[colon] == ':'
    requires forall j :: at < j < d ==> s[j] != '@'
    requires forall j :: colon < j < d ==> s[j] != ':'
    ensures LinuxSplit(s, d, d - 1) == Some((at, colon))
  {
    LastIndexInFound(s, ':', at + 2, colon, d);
    LinuxSplitSkips(s, d, at, d - 1);
  }

  lemma {:induction false} LinuxDollarAt(s: Line, d: nat)
    requires 4 <= d && d + 1 < |s|
    requires RStrip(s) == s[..d + 1] && s[d] == '$'
    ensures LinuxGroups(s) == LinuxGroupsTo(s, d)
  {
  }

  lemma {:induction false} LinuxGroupsToSplit(s: Line, at: nat, colon: nat, d: nat)
    requires 0 < d < |s| && at < colon < d
    requires LinuxSplit(s, d, d - 1) == Some((at, colon))
    ensures LinuxGroupsTo(s, d) == Some([s, s[..at], s[at + 1..colon], s[colon + 1..d]])
  {
  }

  lemma {:induction false} LinuxSplitsAt(s: Line, at: nat, colon: nat, d: nat, user: string, host: string, path: string)
    requires 1 <= at && at + 2 <= colon && colon + 1 <= d && d + 1 < |s|
    requires s[at] == '@' && s[colon] == ':' && s[d] == '$'
    requires forall j :: at < j < d ==> s[j] != '@'
    requires forall j :: colon < j < d ==> s[j] != ':'
    requires RStrip(s) == s[..d + 1]
    requires s[..at] == user && s[at + 1..colon] == host && s[colon + 1..d] == path
    ensures LinuxGroups(s) == Some([s, user, host, path])
  {
    LinuxSplitFound(s, at, colon, d);
    LinuxGroupsToSplit(s, at, colon, d);
    LinuxDollarAt(s, d);
  }

  lemma {:induction false} LinuxSplitsBashPrompt(s: Line, user: string, host: string, path: string, w: string)
    requires |user| > 0 && |host| > 0 && |w| > 0 && AllSpace(w)
    requires '@' !in host && '@' !in path && ':' !in path
    requires s == BashPrompt(user, host, path, w)
    ensures LinuxGroups(s) == Some([s, user, host, path])
  {
    BashPromptParts(s, user, host, path, w);
    var at, colon, d := |user|, |user| + 1 + |host|, |user| + |host| + |path| + 2;
    RStripTail(s[..d + 1], w);
    assert forall j :: at < j < d ==> s[j] != '@' by {
      forall j | at < j < d ensures s[j] != '@' {
        if j < colon { assert s[j] == s[at + 1..colon][j - at - 1]; }
        else if j > colon { assert s[j] == s[colon + 1..d][j - colon - 1]; }
      }
    }
    assert forall j :: colon < j < d ==> s[j] != ':' by {
      forall j | colon < j < d ensures s[j] != ':' {
        assert s[j] == s[colon + 1..d][j - colon - 1];
      }
    }
    LinuxSplitsAt(s, at, colon, d, user, host, path);
  }

  lemma {:induction false} DarwinMatchesBashPrompt(s: Line, user: string, host: string, path: string, w: string)
    requires |w| > 0 && AllSpace(w)
    requires s == BashPrompt(user, host, path, w)
    ensures DarwinGroups(s).Some?
  {
    var at := |user|;
    var colon := |user| + 1 + |host|;
    assert IsSpace(s[|s| - 1]);
    assert OccursAt(s, "@", at);
    assert Find(s, "@", 0).Some?;
    var a2 := Find(s, "@", 0).value;
    assert OccursAt(s, ":", colon);
    assert Find(s, ":", a2 + 1).Some?;
  }

  /** A line the Linux rule matches and that ends in whitespace is claimed by
      that rule: the Aruba rule, the only one before it, needs a final '#'. */
  lemma {:induction false} LinuxFirst(s: Line, g: seq<string>)
    requires |s| > 0 && IsSpace(s[|s| - 1]) && LinuxGroups(s) == Some(g)
    ensures FirstPromptMatch(s) == Some((1, g))
  {
    var m := PromptMatches(s);
    FirstSomeSkip(m, 0);
    FirstSomeHere(m, 1);
  }

  lemma {:induction false} LinuxIdentified(s: Line, g: seq<string>)
    requires |s| > 0 && IsSpace(s[|s| - 1]) && LinuxGroups(s) == Some(g)
    ensures IdByPrompt(s) == Some(Dict(Expanded(LinuxRule, g)))
  {
    LinuxFirst(s, g);
    IdByPromptAt(s, 1, g);
    LinuxRuleSecond();
  }

  /** A bash prompt `user@host:path$ ` (host and path free of '@', path free
      of ':') is split into exactly those parts, and the Linux rule takes it
      although the Darwin rule would match it too. */
  lemma {:induction false} LinuxPrompt(s: Line, user: string, host: string, path: string, w: string)
    requires |user| > 0 && |host| > 0 && |w| > 0 && AllSpace(w)
    requires '@' !in host && '@' !in path && ':' !in path
    requires s == BashPrompt(user, host, path, w)
    ensures LinuxGroups(s) == Some([s, user, host, path])
    ensures DarwinGroups(s).Some?
    ensures IdByPrompt(s) == Some(Dict(Expanded(LinuxRule, [s, user, host, path])))
  {
    LinuxSplitsBashPrompt(s, user, host, path, w);
    DarwinMatchesBashPrompt(s, user, host, path, w);
    assert IsSpace(s[|s| - 1]);
    LinuxIdentified(s, [s, user, host, path]);
  }

  // ---------------------------------------------------------------------
  // The SSH_VERSIONS table
  // ---------------------------------------------------------------------

  /** What `.*?)$` can reach: the text before a final line break, which `$`
      also accepts. */
  function VersionBody(s: string): string {
    if |s| > 0 && s[|s| - 1] == '\n' then s[..|s| - 1] else s
  }

  /** `marker` followed by a digit somewhere at or after index 4. */
  predicate MarkerThenDigit(b: string, marker: string) {
    exists j :: 4 <= j < |b| && OccursAt(b, marker, j) && j + |marker| < |b|
      && IsDigit(b[j + |marker|])
  }

  /** `^(SSH-.*?-Cisco-\d.*?)$` */
  predicate CiscoVersion(s: string) {
    var b := VersionBody(s);
    NoNewline(b) && StartsWith(b, "SSH-") && MarkerThenDigit(b, "-Cisco-")
  }

  /** `^(SSH-.*[Uu]buntu\d.*?)$` */
  predicate UbuntuVersion(s: string) {
    var b := VersionBody(s);
    NoNewline(b) && StartsWith(b, "SSH-")
    && (MarkerThenDigit(b, "Ubuntu") || MarkerThenDigit(b, "ubuntu"))
  }

  const CiscoVersionRule: Value :=
    Dict([("regex", Str(@"^(SSH-.*?-Cisco-\d.*?)$")), ("vendor", Str("cisco"))])
  const UbuntuVersionRule: Value :=
    Dict([("regex", Str(@"^(SSH-.*[Uu]buntu\d.*?)$")), ("vendor", Str("ubuntu"))])

  /** `id_by_ssh_version`: a copy of the first matching rule, or None where
      the program returns False. */
  function IdBySshVersion(version: string): (r: Option<Value>)
    ensures r.Some? <==> CiscoVersion(version) || UbuntuVersion(version)
    ensures CiscoVersion(version) ==> r == Some(CiscoVersionRule)
    ensures !CiscoVersion(version) && UbuntuVersion(version) ==> r == Some(UbuntuVersionRule)
  {
    if CiscoVersion(version) then Some(CiscoVersionRule)
    else if UbuntuVersion(version) then Some(UbuntuVersionRule)
    else None
  }

  /** Any one-line identification string with "-Cisco-" and a digit after
      the protocol version is a Cisco device. */
  lemma {:induction false} CiscoBanner(x: string, digit: char, y: string)
    requires IsDigit(digit) && NoNewline(x + y)
    ensures IdBySshVersion("SSH-" + x + "-Cisco-" + [digit] + y) == Some(CiscoVersionRule)
  {
    var s := "SSH-" + x + "-Cisco-" + [digit] + y;
    assert VersionBody(s) == s by {
      if |y| > 0 { assert s[|s| - 1] == (x + y)[|x + y| - 1]; }
    }
    assert NoNewline(s) by {
      forall i | 0 <= i < |s| ensures s[i] != '\n' {
        if 4 <= i < 4 + |x| { assert s[i] == (x + y)[i - 4]; }
        else if i > 11 + |x| { assert s[i] == (x + y)[i - 12]; }
      }
    }
    var j := 4 + |x|;
    var marker := "-Cisco-";
    assert OccursAt(s, marker, j) && IsDigit(s[j + |marker|]);
    assert s[..4] == "SSH-";
    assert CiscoVersion(s);
  }

  // ---------------------------------------------------------------------
  // Known errors
  // ---------------------------------------------------------------------

  /** Index `i` starts a line of `s` (MULTILINE `^`). */
  predicate LineStart(s: string, i: int) { i == 0 || (0 < i <= |s| && s[i - 1] == '\n') }

  /** Index `i` ends a line of `s` (MULTILINE `$`). */
  predicate LineEnd(s: string, i: int) { i == |s| || (0 <= i < |s| && s[i] == '\n') }

  /** `^bash: .*?: (command not found)$` with MULTILINE and DOTALL. */
  predicate CommandNotFoundIn(s: string) {
    exists i, j :: 0 <= i <= |s| && i + 6 <= j <= |s| && LineStart(s, i) && OccursAt(s, "bash: ", i)
      && OccursAt(s, ": command not found", j) && LineEnd(s, j + 19)
  }

  /** `^.*?: can\'t open \'.*?\': (No such file or directory)` with DOTALL:
      index 0 starts a line, so only the two literal texts matter. */
  predicate CannotOpenIn(s: string) {
    exists j, k :: 0 <= j <= |s| && j + 14 <= k <= |s| && OccursAt(s, ": can't open '", j)
      && OccursAt(s, "': No such file or directory", k)
  }

  /** `re.search(error_re, output, re.MULTILINE | re.DOTALL)` for the error
      patterns of the table, answering capture group 1. */
  function KnownErrorGroup(errorRegex: string, output: string): (r: Option<string>)
    ensures r.Some? ==> errorRegex in [InvalidInputRegex, CommandNotFoundRegex, CannotOpenRegex]
    ensures errorRegex == CommandNotFoundRegex ==>
      (r.Some? <==> CommandNotFoundIn(output)) && (r.Some? ==> r.value == "command not found")
  {
    if errorRegex == InvalidInputRegex then
      if Contains(output, "% Invalid input detected at '^' marker.") then Some("Invalid input detected")
      else None
    else if errorRegex == CommandNotFoundRegex then
      if CommandNotFoundIn(output) then Some("command not found") else None
    else if errorRegex == CannotOpenRegex then
      if CannotOpenIn(output) then Some("No such file or directory") else None
    else None
  }

  /** A shell's complaint on a line of its own is recognised. */
  lemma {:induction false} CommandNotFoundLine(before: string, name: string, after: string)
    requires before == "" || before[|before| - 1] == '\n'
    requires after == "" || after[0] == '\n'
    ensures CommandNotFoundIn(before + "bash: " + name + ": command not found" + after)
  {
    var s := before + "bash: " + name + ": command not found" + after;
    var i, j := |before|, |before| + 6 + |name|;
    assert s[i..i + 6] == "bash: ";
    assert s[j..j + 19] == ": command not found";
    assert 0 <= i <= |s| && i + 6 <= j <= |s| && LineStart(s, i) && OccursAt(s, "bash: ", i)
      && OccursAt(s, ": command not found", j) && LineEnd(s, j + 19);
  }

  // ---------------------------------------------------------------------
  // The SSH_AUTO_RESPONSE table
  // ---------------------------------------------------------------------

  datatype AutoPattern = MoreLong | MoreShort | DisplayAll | LessPager | LinesPager | EndMarker

  /** The end of the maximal digit run from `i`. */
  function DigitsEnd(s: string, i: nat): (j: nat)
    requires i <= |s|
    ensures i <= j <= |s| && AllDigits(s[i..j]) && (j == |s| || !IsDigit(s[j]))
    decreases |s| - i
  {
    if i < |s| && IsDigit(s[i]) then DigitsEnd(s, i + 1) else i
  }

  lemma {:induction false} DigitsEndAt(s: string, i: nat, j: nat)
    requires i <= j <= |s| && AllDigits(s[i..j]) && (j == |s| || !IsDigit(s[j]))
    ensures DigitsEnd(s, i) == j
    decreases j - i
  {
    if i < j {
      assert IsDigit(s[i..j][0]);
      assert s[i + 1..j] == s[i..j][1..];
      DigitsEndAt(s, i + 1, j);
    }
  }

  /** `Display all \d+ items\? \(y/n\)\s+$` matching from index `i`. */
  predicate DisplayAllAt(s: string, i: nat) {
    OccursAt(s, "Display all ", i)
    && var e := DigitsEnd(s, i + 12);
    e > i + 12 && OccursAt(s, " items? (y/n)", e) && e + 13 < |s| && AllSpace(s[e + 13..])
  }

  /** Leftmost start of the Display-all pattern at or after `i`. */
  function DisplayAllFrom(s: string, i: nat): (r: Option<nat>)
    ensures r.Some? ==> i <= r.value && DisplayAllAt(s, r.value)
    ensures r.Some? ==> forall j :: i <= j < r.value ==> !DisplayAllAt(s, j)
    ensures r.None? ==> forall j :: i <= j ==> !DisplayAllAt(s, j)
    decreases |s| - i
  {
    if i >= |s| then None
    else if DisplayAllAt(s, i) then Some(i)
    else DisplayAllFrom(s, i + 1)
  }

  /** `lines \d+-\d+` from `i`; answers the index after the second number. */
  function LinesRange(s: string, i: nat): (r: Option<nat>)
    ensures r.Some? ==> OccursAt(s, "lines ", i) && i + 8 < r.value <= |s|
  {
    if !OccursAt(s, "lines ", i) then None
    else
      var a := DigitsEnd(s, i + 6);
      if a == i + 6 || a >= |s| || s[a] != '-' then None
      else
        var b := DigitsEnd(s, a + 1);
        if b == a + 1 then None else Some(b)
  }

  /** The alternative `lines \d+-\d+/\d+ \(END\) $` matching from `i`. */
  predicate LinesEndAt(s: string, i: nat) {
    match LinesRange(s, i)
    case None => false
    case Some(b) =>
      b < |s| && s[b] == '/'
      && var c := DigitsEnd(s, b + 1);
      c > b + 1 && s[c..] == " (END) "
  }

  function LinesEndFrom(s: string, i: nat): (r: Option<nat>)
    ensures r.Some? ==> i <= r.value && LinesEndAt(s, r.value)
    ensures r.Some? ==> forall j :: i <= j < r.value ==> !LinesEndAt(s, j)
    ensures r.None? ==> forall j :: i <= j ==> !LinesEndAt(s, j)
    decreases |s| - i
  {
    if i >= |s| then None
    else if LinesEndAt(s, i) then Some(i)
    else LinesEndFrom(s, i + 1)
  }

  /** `^---\(less\s+\d+%\)---$` */
  predicate LessPagerLine(s: string) {
    StartsWith(s, "---(less")
    && var t := s[8..];
    var w := |t| - |LStrip(t)|;
    var e := DigitsEnd(t, w);
    w > 0 && e > w && t[e..] == "%)---"
  }

  /** `^lines \d+-\d+ |lines \d+-\d+/\d+ \(END\) $`: the first alternative
      only at the start, the second anywhere, leftmost start first. */
  function LinesPagerFind(s: string): (r: Option<string>)
    ensures r.Some? ==> |r.value| > 0 && (StartsWith(s, r.value) || EndsWith(s, r.value))
  {
    match LinesRange(s, 0)
    case Some(b) =>
      if b < |s| && s[b] == ' ' then Some(s[..b + 1])
      else if LinesEndAt(s, 0) then Some(s)
      else (match LinesEndFrom(s, 1) case None => None case Some(i) => Some(s[i..]))
    case None => (match LinesEndFrom(s, 1) case None => None case Some(i) => Some(s[i..]))
  }

  /** `re.search(find, line).group(0)` for each pattern of the table. */
  function AutoFind(p: AutoPattern, s: Line): (r: Option<string>)
    ensures r.Some? ==> |r.value| > 0 && (StartsWith(s, r.value) || EndsWith(s, r.value))
  {
    match p
    case MoreLong =>
      if s == MorePrompt then Some(s) else None
    case MoreShort => if s == " --More-- " then Some(s) else None
    case DisplayAll =>
      (match DisplayAllFrom(s, 0)
       case None => None
       case Some(i) => Some(s[i..]))
    case LessPager => if LessPagerLine(s) then Some(s) else None
    case LinesPager => LinesPagerFind(s)
    case EndMarker => if s == "(END)" then Some(s) else None
  }

  /** An entry of the table: the pattern's text, the reply, the optional
      clean-up pattern and the 'found' text a match writes into it. */
  datatype AutoReply = AutoReply(
    pattern: AutoPattern,
    find: string,
    replyWith: string,
    clean: Option<string>,
    found: Option<string>)

  /** The entry of `SSH_AUTO_RESPONSE` for a pattern, before any match. */
  function ReplyFor(p: AutoPattern): (e: AutoReply)
    ensures e.pattern == p && e.found.None?
  {
    match p
    case MoreLong =>
      AutoReply(MoreLong, @"^--More-- \(q\) quit \(u\) pageup \(/\) search \(n\) repeat $", " ",
        Some(@"--More-- \(q\) quit \(u\) pageup \(/\) search \(n\) repeat\s{51}"), None)
    case MoreShort =>
      AutoReply(MoreShort, @"^ --More-- $", " ", Some(@" --More-- (\x08){9}\s+(\x08){8}"), None)
    case DisplayAll => AutoReply(DisplayAll, @"Display all \d+ items\? \(y/n\)\s+$", "y", None, None)
    case LessPager => AutoReply(LessPager, @"^---\(less\s+\d+%\)---$", " ", None, None)
    case LinesPager =>
      AutoReply(LinesPager, @"^lines \d+-\d+ |lines \d+-\d+/\d+ \(END\) $", " ", None, None)
    case EndMarker => AutoReply(EndMarker, @"^\(END\)$", "q", None, None)
  }

  /** The patterns of `SSH_AUTO_RESPONSE`, in the order they are tried. */
  function AutoOrder(): seq<AutoPattern> {
    [MoreLong, MoreShort, DisplayAll, LessPager, LinesPager, EndMarker]
  }

  /** `SSH_AUTO_RESPONSE` as the program starts with it. */
  function AutoReplies(): (t: seq<AutoReply>)
    ensures |t| == |AutoOrder()|
  {
    seq(|AutoOrder()|, i requires 0 <= i < |AutoOrder()| => ReplyFor(AutoOrder()[i]))
  }

  /** Two entries that differ at most in their 'found' text. */
  predicate SameRule(a: AutoReply, b: AutoReply) {
    a.(found := None) == b.(found := None)
  }

  /** What every entry's pattern finds in `s`, in table order. */
  function AutoMatches(table: seq<AutoReply>, s: Line): seq<Option<string>> {
    seq(|table|, i requires 0 <= i < |table| => AutoFind(table[i].pattern, s))
  }

  /** The first entry whose pattern matches `s`, with the matched text. */
  function FirstAutoMatch(table: seq<AutoReply>, s: Line): Option<(nat, string)> {
    FirstSome(AutoMatches(table, s), 0)
  }

  /** The table after `auto_reponse(s)`: the first matching entry records
      the text it matched; with no match nothing changes. */
  function Responded(table: seq<AutoReply>, s: Line): (r: seq<AutoReply>)
    ensures |r| == |table|
  {
    match FirstAutoMatch(table, s)
    case None => table
    case Some((k, g)) => table[k := table[k].(found := Some(g))]
  }

  /** The table after `auto_reponse` has been asked about each line in turn. */
  function RespondedAll(table: seq<AutoReply>, lines: seq<Line>): (r: seq<AutoReply>)
    ensures |r| == |table|
  {
    if |lines| == 0 then table
    else Responded(RespondedAll(table, lines[..|lines| - 1]), lines[|lines| - 1])
  }

  lemma {:induction false} RespondedAllSnoc(table: seq<AutoReply>, lines: seq<Line>, s: Line)
    ensures RespondedAll(table, lines + [s]) == Responded(RespondedAll(table, lines), s)
  {
    assert (lines + [s])[..|lines|] == lines;
  }

  /** However often it is asked, the table keeps its rules: only the
      'found' fields change. */
  lemma {:induction false} RespondedAllKeepsRules(table: seq<AutoReply>, lines: seq<Line>)
    ensures forall i :: 0 <= i < |table| ==> SameRule(RespondedAll(table, lines)[i], table[i])
    decreases |lines|
  {
    if |lines| > 0 {
      var before := RespondedAll(table, lines[..|lines| - 1]);
      RespondedAllKeepsRules(table, lines[..|lines| - 1]);
      var r := RespondedAll(table, lines);
      assert r == Responded(before, lines[|lines| - 1]);
      forall i | 0 <= i < |table|
        ensures SameRule(r[i], table[i])
      {
        assert SameRule(r[i], before[i]);
      }
    }
  }

  /** The shared `SSH_AUTO_RESPONSE` table, whose entries `auto_reponse`
      updates in place. */
  class AutoResponseTable {
    var entries: seq<AutoReply>

    ghost predicate Valid()
      reads this
    {
      |entries| == |AutoReplies()|
      && forall i :: 0 <= i < |entries| ==> SameRule(entries[i], AutoReplies()[i])
    }

    constructor()
      ensures Valid() && entries == AutoReplies()
    {
      entries := AutoReplies();
    }

    /** `auto_reponse(line)`: the first matching entry, after its 'found'
        field has been set to the matched text; None where the program
        returns False, with the table untouched. */
    method Respond(s: Line) returns (r: Option<AutoReply>)
      requires Valid()
      modifies this
      ensures Valid() && entries == Responded(old(entries), s)
      ensures FirstAutoMatch(old(entries), s).None? ==> r.None? && entries == old(entries)
      ensures FirstAutoMatch(old(entries), s).Some? ==>
        var (k, g) := FirstAutoMatch(old(entries), s).value;
        entries == old(entries)[k := old(entries)[k].(found := Some(g))]
        && r == Some(entries[k])
    {
      var i := 0;
      while i < |entries|
        invariant 0 <= i <= |entries| && entries == old(entries)
        invariant FirstAutoMatch(entries, s) == FirstSome(AutoMatches(entries, s), i)
      {
        var g := AutoFind(entries[i].pattern, s);
        if g.Some? {
          entries := entries[i := entries[i].(found := g)];
          return Some(entries[i]);
        }
        i := i + 1;
      }
      return None;
    }
  }

  lemma {:induction false} EndMarkerMisses(e: Line)
    requires e == "(END)"
    ensures AutoFind(MoreLong, e).None? && AutoFind(MoreShort, e).None?
    ensures AutoFind(DisplayAll, e).None? && AutoFind(LessPager, e).None?
    ensures AutoFind(LinesPager, e).None? && AutoFind(EndMarker, e) == Some(e)
  {
    assert MorePrompt[0] == '-';
    assert DisplayAllFrom(e, 0).None?;
    assert !LessPagerLine(e);
    assert LinesRange(e, 0).None?;
    assert LinesEndFrom(e, 1).None?;
  }

  /** Entry `j` of the initial table tries the `j`-th pattern. */
  lemma {:induction false} AutoMatchAt(s: Line, j: nat)
    requires j < |AutoOrder()|
    ensures |AutoMatches(AutoReplies(), s)| == |AutoOrder()|
    ensures AutoMatches(AutoReplies(), s)[j] == AutoFind(AutoOrder()[j], s)
  {
  }

  /** On the pager's end marker only the last pattern matches. */
  lemma {:induction false} EndMarkerMatches(e: Line)
    requires e == "(END)"
    ensures var m := AutoMatches(AutoReplies(), e);
      |m| == 6 && m[0].None? && m[1].None? && m[2].None? && m[3].None? && m[4].None? && m[5] == Some(e)
  {
    EndMarkerMisses(e);
    var o := AutoOrder();
    assert o[0] == MoreLong && o[1] == MoreShort && o[2] == DisplayAll;
    assert o[3] == LessPager && o[4] == LinesPager && o[5] == EndMarker;
    AutoMatchAt(e, 0);
    AutoMatchAt(e, 1);
    AutoMatchAt(e, 2);
    AutoMatchAt(e, 3);
    AutoMatchAt(e, 4);
    AutoMatchAt(e, 5);
  }

  /** The pager's end marker gets 'q', and only the last entry matches it. */
  lemma {:induction false} EndMarkerReply(e: Line)
    requires e == "(END)"
    ensures FirstAutoMatch(AutoReplies(), e) == Some((5, e))
    ensures AutoReplies()[5].replyWith == "q"
  {
    EndMarkerMatches(e);
    SixthFirst(AutoMatches(AutoReplies(), e));
    EndMarkerAnswer();
  }

  lemma {:induction false} EndMarkerAnswer()
    ensures AutoReplies()[5].replyWith == "q"
  {
    assert AutoReplies()[5] == ReplyFor(EndMarker);
  }

  /** The pager line of `more`, written in two pieces. */
  const MorePrompt: string := "--More-- (q) quit (u) " + "pageup (/) search (n) repeat "

  /** The text readline prints before listing `n` completions. */
  function DisplayAllQuestion(n: string, w: string): string {
    "Display all " + n + " items? (y/n)" + w
  }

  lemma {:induction false} DisplayAllQuestionLine(n: string, w: string)
    requires AllDigits(n) && NoNewline(w)
    ensures NoNewline(DisplayAllQuestion(n, w))
  {
    var s := DisplayAllQuestion(n, w);
    forall i | 0 <= i < |s| ensures s[i] != '\n' {
      if 12 <= i < 12 + |n| { assert s[i] == n[i - 12]; }
      else if i >= 25 + |n| { assert s[i] == w[i - 25 - |n|]; }
    }
  }

  lemma {:induction false} DisplayAllQuestionAt(n: string, w: string)
    requires |n| > 0 && AllDigits(n) && |w| > 0 && AllSpace(w)
    ensures DisplayAllAt(DisplayAllQuestion(n, w), 0)
  {
    var s := DisplayAllQuestion(n, w);
    assert s[12..12 + |n|] == n;
    DigitsEndAt(s, 12, 12 + |n|);
    assert s[12 + |n|..25 + |n|] == " items? (y/n)";
    assert s[25 + |n|..] == w;
  }

  lemma {:induction false} NotMorePrompt(s: Line)
    requires |s| > 0 && s[0] == 'D'
    ensures AutoFind(MoreLong, s).None? && AutoFind(MoreShort, s).None?
  {
    assert MorePrompt[0] == '-' && s != MorePrompt;
    var short := " --More-- ";
    assert short[0] == ' ' && s != short;
  }

  /** On readline's completion question the third pattern is the first
      that matches. */
  lemma {:induction false} DisplayAllMatches(s: Line, n: string, w: string)
    requires |n| > 0 && AllDigits(n) && |w| > 0 && AllSpace(w)
    requires s == DisplayAllQuestion(n, w)
    ensures var m := AutoMatches(AutoReplies(), s);
      |m| == 6 && m[0].None? && m[1].None? && m[2] == Some(s)
  {
    DisplayAllQuestionAt(n, w);
    assert s[0] == 'D';
    NotMorePrompt(s);
    assert AutoFind(DisplayAll, s) == Some(s);
    var o := AutoOrder();
    assert o[0] == MoreLong && o[1] == MoreShort && o[2] == DisplayAll;
    AutoMatchAt(s, 0);
    AutoMatchAt(s, 1);
    AutoMatchAt(s, 2);
  }

  /** Readline's completion question gets 'y' whatever the count and the
      trailing blanks. */
  lemma {:induction false} DisplayAllReply(s: Line, n: string, w: string)
    requires |n| > 0 && AllDigits(n) && |w| > 0 && AllSpace(w)
    requires s == DisplayAllQuestion(n, w)
    ensures FirstAutoMatch(AutoReplies(), s) == Some((2, s))
    ensures AutoReplies()[2].replyWith == "y"
  {
    DisplayAllMatches(s, n, w);
    var m := AutoMatches(AutoReplies(), s);
    FirstSomeSkip(m, 0);
    FirstSomeSkip(m, 1);
    FirstSomeHere(m, 2);
    DisplayAllAnswer();
  }

  lemma {:induction false} DisplayAllAnswer()
    ensures AutoReplies()[2].replyWith == "y"
  {
    assert AutoReplies()[2] == ReplyFor(DisplayAll);
  }
}
