/** The older identification helper used when a device's OS type is
    `auto`: it classifies the first prompt with a chain of regular
    expressions and plans the commands that will tell the vendor apart,
    recognises a few banners, classifies the output of the version
    commands, and keeps the table from OS type to vendor. */
module AnalysisHelper {
  import opened Wrappers
  import opened Text
  import opened Py
  import opened Regex

  // ---------------------------------------------------------------------
  // The prompt rules
  // ---------------------------------------------------------------------

  /** The branches of the prompt chain, in the order they are tried;
      `Unknown` is a prompt none of them recognises. */
  datatype Branch =
    | PaloAlto | F5 | F5DiskFull | Riverbed | Netscout | LinuxBracket | LinuxColon
    | Generic | LastLogin | Dollar | Aruba | NoShell | Unknown

  function Chain(): seq<Branch> {
    [PaloAlto, F5, F5DiskFull, Riverbed, Netscout, LinuxBracket, LinuxColon,
     Generic, LastLogin, Dollar, Aruba, NoShell]
  }

  /** The place of a branch in the chain. */
  function Rank(b: Branch): (r: nat)
    ensures r <= |Chain()| && (r < |Chain()| <==> b != Unknown)
  {
    match b
    case PaloAlto => 0
    case F5 => 1
    case F5DiskFull => 2
    case Riverbed => 3
    case Netscout => 4
    case LinuxBracket => 5
    case LinuxColon => 6
    case Generic => 7
    case LastLogin => 8
    case Dollar => 9
    case Aruba => 10
    case NoShell => 11
    case Unknown => 12
  }

  lemma {:induction false} RankOfChain(i: nat)
    requires i < |Chain()|
    ensures Rank(Chain()[i]) == i
  {
  }

  /** The regular expression each branch searches the prompt for.  The
      text of each pattern follows its constructor in the comment. */
  function Pattern(b: Branch): Re {
    match b
    // ^(.*?@(.*?)(\((.*)\))?>\s+)$
    case PaloAlto =>
      Seq([Bol, Star(Dot()), Text("@"), Star(Dot()),
           Opt(Seq([Text("("), Star(Dot()), Text(")")])), Text(">"), Plus(Ws()), Eol])
    // ^.*?@\(.*?\)\(.*?\)\(.*?\)\(.*?\).*?\(.*?tmos.*?\).*?#\s?$
    case F5 =>
      Seq([Bol, Star(Dot()), Text("@("), Star(Dot()), Text(")("), Star(Dot()), Text(")("),
           Star(Dot()), Text(")("), Star(Dot()), Text(")"), Star(Dot()), Text("("), Star(Dot()),
           Text("tmos"), Star(Dot()), Text(")"), Star(Dot()), Text("#"), Opt(Ws()), Eol])
    // Can't create temp directory, /var.* No space left on device\)
    case F5DiskFull =>
      Seq([Text("Can't create temp directory, /var"), Star(Dot()), Text(" No space left on device)")])
    // ^.*?\s>\s$
    case Riverbed => Seq([Bol, Star(Dot()), Ws(), Text(">"), Ws(), Eol])
    // ^.*?@.*:/#\s+
    case Netscout => Seq([Bol, Star(Dot()), Text("@"), Star(Dot()), Text(":/#"), Plus(Ws())])
    // ^((.*)\n)?(\[(.*?)@(.*?)\s+?(.*?)][#$]\s+?)
    case LinuxBracket =>
      Seq([Bol, Opt(Seq([Star(Dot()), Text("\n")])), Text("["), Star(Dot()), Text("@"), Star(Dot()),
           Plus(Ws()), Star(Dot()), Text("]"), Set("#$"), Plus(Ws())])
    // ^((.*)\n)?((.*?)@(.*?):(.*?)#\s+?)
    case LinuxColon =>
      Seq([Bol, Opt(Seq([Star(Dot()), Text("\n")])), Star(Dot()), Text("@"), Star(Dot()), Text(":"),
           Star(Dot()), Text("#"), Plus(Ws())])
    // ^(.*?[#>](\s+)?)$
    case Generic => Seq([Bol, Star(Dot()), Set("#>"), Opt(Plus(Ws())), Eol])
    // ^Last login: .*? from (.*?)\n\$ $
    case LastLogin =>
      Seq([Bol, Text("Last login: "), Star(Dot()), Text(" from "), Star(Dot()), Text("\n$ "), Eol])
    // ^(.*\$ )$
    case Dollar => Seq([Bol, Star(Dot()), Text("$ "), Eol])
    // ^\((.*?)\)\s\*?#
    case Aruba => Seq([Bol, Text("("), Star(Dot()), Text(")"), Ws(), Opt(Text("*")), Text("#")])
    // User '.*?' does not have shell access on this device
    case NoShell =>
      Seq([Text("User '"), Star(Dot()), Text("' does not have shell access on this device")])
    case Unknown => AnyOf([])
  }

  /** The first branch of the chain, from place `k` on, that `hit`
      accepts. */
  function FirstHit(hit: Branch -> bool, k: nat): (r: nat)
    requires k <= |Chain()|
    ensures k <= r <= |Chain()|
    ensures r < |Chain()| ==> hit(Chain()[r])
    ensures forall i :: k <= i < r ==> !hit(Chain()[i])
    decreases |Chain()| - k
  {
    if k == |Chain()| then k
    else if hit(Chain()[k]) then k
    else FirstHit(hit, k + 1)
  }

  /** An if/elif chain over the branches: the first that `hit` accepts,
      or none. */
  function FirstBranch(hit: Branch -> bool): (b: Branch)
    ensures b != Unknown ==> hit(b)
    ensures forall i :: 0 <= i < Rank(b) ==> !hit(Chain()[i])
  {
    var r := FirstHit(hit, 0);
    if r == |Chain()| then Unknown
    else
      RankOfChain(r);
      Chain()[r]
  }

  /** A branch that `hit` accepts is never passed over for a later one. */
  lemma {:induction false} FirstBranchFirst(hit: Branch -> bool, b: Branch)
    requires b != Unknown && hit(b)
    ensures Rank(FirstBranch(hit)) <= Rank(b)
  {
    var c := FirstBranch(hit);
    if Rank(b) < Rank(c) {
      RankAt(b);
    }
  }

  lemma {:induction false} RankAt(b: Branch)
    requires b != Unknown
    ensures Chain()[Rank(b)] == b
  {
  }

  /** Which branches' patterns the prompt `p` matches. */
  function Hit(p: string): Branch -> bool {
    b => Search(Pattern(b), p)
  }

  /** The branch of the if/elif chain that runs for the prompt `p`: the
      first whose pattern matches, or none. */
  function Classify(p: string): (b: Branch)
    ensures b != Unknown ==> Search(Pattern(b), p)
    ensures forall i :: 0 <= i < Rank(b) ==> !Search(Pattern(Chain()[i]), p)
  {
    HitMeans(p);
    FirstMatches(Hit(p), p);
    FirstBranch(Hit(p))
  }

  lemma {:induction false} FirstMatches(hit: Branch -> bool, p: string)
    requires forall b :: hit(b) == Search(Pattern(b), p)
    ensures FirstBranch(hit) != Unknown ==> Search(Pattern(FirstBranch(hit)), p)
    ensures forall i :: 0 <= i < Rank(FirstBranch(hit)) ==> !Search(Pattern(Chain()[i]), p)
  {
    var b := FirstBranch(hit);
    forall i | 0 <= i < Rank(b) ensures !Search(Pattern(Chain()[i]), p) {
      assert !hit(Chain()[i]);
    }
  }

  lemma {:induction false} HitMeans(p: string)
    ensures forall b :: Hit(p)(b) == Search(Pattern(b), p)
  {
  }

  /** A prompt that matches a branch's pattern is never classified later
      in the chain than that branch. */
  lemma {:induction false} ClassifyFirst(p: string, b: Branch)
    requires b != Unknown && Search(Pattern(b), p)
    ensures Rank(Classify(p)) <= Rank(b)
  {
    FirstBranchFirst(Hit(p), b);
  }

  /** The generic `#`/`>` rule runs before the last-login, `$ `, Aruba and
      shell-access rules, so any prompt it accepts never reaches them. */
  lemma {:induction false} GenericBeforeAruba(p: string)
    requires Search(Pattern(Generic), p)
    ensures Classify(p) !in {LastLogin, Dollar, Aruba, NoShell, Unknown}
  {
    ClassifyFirst(p, Generic);
    RankedBeforeGeneric(Classify(p));
  }

  lemma {:induction false} RankedBeforeGeneric(b: Branch)
    requires Rank(b) <= Rank(Generic)
    ensures b !in {LastLogin, Dollar, Aruba, NoShell, Unknown}
  {
  }

  // ---------------------------------------------------------------------
  // The plan the rules make
  // ---------------------------------------------------------------------

  /** What the rules decide: whether the prompt is recognised, an error to
      report, the commands to run first, the vendor, the vendors it might
      be, the prompt filter, and whether the collection is told that the
      user has no shell. */
  datatype Plan = Plan(
    valid: bool, error: Option<string>, prepend: seq<string>, vendor: Option<string>,
    mightBe: seq<string>, filter: Option<Value>, denied: bool)

  const DiskFull := "Device OS issue: No space left on device."
  const NoShellError := "User does not have shell access on this device"

  /** The SSH identification string of a Cisco device: `SSH.*-Cisco-\d`. */
  function CiscoSsh(): Re {
    Seq([Text("SSH"), Star(Dot()), Text("-Cisco-"), Char(Digit)])
  }

  /** A prompt filter: the pattern, and the groups holding the response
      and the prompt. */
  function Filter(re: string, response: int, prompt: int): Value {
    Dict([("re", Str(re)), ("response", Int(response)), ("prompt", Int(prompt))])
  }

  /** The Cisco filter, which also names the group of the config mode. */
  function CiscoFilter(): Value {
    Dict([("re", Str("^((.*)\\n)?(.*?(\\((.*)\\))?[#>](\\s+)?)$")),
          ("response", Int(1)), ("prompt", Int(3)), ("mode", Int(5))])
  }

  /** Whether the identification string the session saw is Cisco's.  Each
      step of `collection['_session_info']['ssh_settings']['version']` is
      looked up only if the one before holds it, with Python's `in`, which
      raises on a value that holds nothing. */
  function CiscoSeed(c: seq<(string, Value)>): (r: Result<bool>)
    ensures !HasKey(c, "_session_info") ==> r == Ok(false)
    ensures r == Ok(true) ==>
      Index(Dict(c), "_session_info").Ok?
      && Index(Index(Dict(c), "_session_info").value, "ssh_settings").Ok?
      && var ss := Index(Index(Dict(c), "_session_info").value, "ssh_settings").value;
         Index(ss, "version").Ok? && Index(ss, "version").value.Str?
         && Search(CiscoSsh(), Index(ss, "version").value.s)
  {
    match Get(c, "_session_info")
    case None => Ok(false)
    case Some(si) =>
      var hasSettings :- In(Str("ssh_settings"), si);
      if !hasSettings then Ok(false)
      else
        var ss :- Index(si, "ssh_settings");
        var hasVersion :- In(Str("version"), ss);
        if !hasVersion then Ok(false)
        else
          var v :- Index(ss, "version");
          if !v.Str? then Raised("TypeError") else Ok(Search(CiscoSsh(), v.s))
  }

  /** `collection['_session_info']['authentication']['username']`, which
      the Netscout filter is built from. */
  function Username(c: seq<(string, Value)>): Result<Value> {
    var si :- Index(Dict(c), "_session_info");
    var au :- Index(si, "authentication");
    Index(au, "username")
  }

  /** The branches that install a prompt filter. */
  predicate Filters(b: Branch) {
    !(b.F5DiskFull? || b.NoShell? || b.Unknown?)
  }

  /** The filter a branch installs, if any; the Netscout one raises when
      the user name cannot be found. */
  function BranchFilter(b: Branch, c: seq<(string, Value)>): (r: Result<Option<Value>>)
    ensures r.Ok? ==> (r.value.Some? <==> Filters(b))
    ensures r.Raised? ==> b == Netscout && Username(c).Raised?
  {
    match b
    case PaloAlto => Ok(Some(Filter("^((.*)\\n)?(.*?@(.*?)(\\((.*)\\))?[#>](\\s+)?)$", 1, 3)))
    case F5 =>
      Ok(Some(Filter("^(.*?\\n)?(<<username>>@\\(.*?\\)\\(.*?\\)" + "\\(.*?\\)\\(.*?\\)\\s?\\(tmos\\)#\\s)$", 1, 2)))
    case Riverbed => Ok(Some(Filter("^(.*?\\n)?(.*?\\s>\\s)$", 1, 2)))
    case Netscout =>
      var user :- Username(c);
      Ok(Some(Filter("^((.*)\\n)?(" + PyStr(user) + "@.*?:/#\\s+)$", 1, 3)))
    case LinuxBracket => Ok(Some(Filter("^((.*)\\n)?(.*?@.*?)$", 1, 3)))
    case LinuxColon => Ok(Some(Filter("^((.*)\\n)?((.*?@.*?):(.*?)#\\s+?)$", 1, 3)))
    case Generic => Ok(Some(Filter("^((.*)\\n)?(.*?[#>](\\s+)?)$", 1, 3)))
    case LastLogin => Ok(Some(Filter("^(.*)?(.*?@.*?)$", 1, 2)))
    case Dollar => Ok(Some(Filter("^((.*)\\n)?(.*?\\$\\s+)", 1, 3)))
    case Aruba => Ok(Some(Filter("^((.*)\\n)?(\\((.*?)\\) \\*?\\#)$", 1, 3)))
    case _ => Ok(None)
  }

  /** A command added only when it is not already planned. */
  function Plain(c: string): (string, string) { (c, c) }

  /** The Linux commands; the last is added unless `ps -ef` is planned,
      which it never is, so `ps -ef -w -w` is always added. */
  function LinuxCommands(first: string, second: string): seq<(string, string)> {
    [Plain(first), Plain(second), Plain("cat /proc/uptime"), Plain("cat /proc/meminfo"),
     Plain("cat /proc/cpuinfo"), ("ps -ef", "ps -ef -w -w")]
  }

  /** The commands a branch plans, each with the command whose presence
      stops it being added; `gt` says whether the prompt holds a `>`. */
  function Guards(b: Branch, gt: bool): seq<(string, string)> {
    match b
    case PaloAlto => [Plain("set cli scripting-mode on"), Plain("show system info")]
    case F5 => [Plain("show sys version"), Plain("show sys hardware"), Plain("run util bash -c 'cat /proc/uptime'")]
    case Riverbed => [Plain("show version"), Plain("show info")]
    case Netscout =>
      [Plain("system version"), Plain("system hardware"), Plain("ip interfaces show"), Plain("system license show")]
    case LinuxBracket => LinuxCommands("uname -a", "cat /etc/os-release")
    case LinuxColon => LinuxCommands("uname -a", "cat /etc/os-release")
    case Generic =>
      (if gt then [Plain("enable")] else [])
      + [Plain("terminal length 0"), Plain("show version"), Plain("dump overview")]
    case Dollar => LinuxCommands("cat /etc/os-release", "uname -a")
    case Aruba => [Plain("show version")]
    case _ => []
  }

  function BranchVendor(b: Branch): Option<string> {
    match b
    case PaloAlto => Some("Palo Alto")
    case F5 => Some("F5")
    case F5DiskFull => Some("F5")
    case Riverbed => Some("Riverbed")
    case Netscout => Some("Netscout")
    case _ => None
  }

  function MightBe(b: Branch): seq<string> {
    match b
    case LinuxBracket => ["Linux"]
    case LinuxColon => ["Linux"]
    case Generic => ["cisco", "arista", "paloalto", "cloudgenix"]
    case LastLogin => ["Linux"]
    case Dollar => ["linux"]
    case Aruba => ["aruba"]
    case _ => []
  }

  /** `if guard not in xs: xs.append(c)` */
  function Appended(xs: seq<string>, guard: string, c: string): (r: seq<string>)
    ensures guard in xs ==> r == xs
    ensures guard !in xs ==> r == xs + [c]
  {
    if guard in xs then xs else xs + [c]
  }

  /** `xs` with each planned command added unless its guard is there. */
  function Merge(xs: seq<string>, gs: seq<(string, string)>): seq<string>
    decreases |gs|
  {
    if |gs| == 0 then xs
    else Merge(Appended(xs, gs[0].0, gs[0].1), gs[1..])
  }

  /** Merging a table is appending its commands one after the other. */
  lemma {:induction false} MergeThree(xs: seq<string>, a: (string, string), b: (string, string), c: (string, string))
    ensures Merge(xs, [a]) == Appended(xs, a.0, a.1)
    ensures Merge(xs, [a, b]) == Appended(Appended(xs, a.0, a.1), b.0, b.1)
    ensures Merge(xs, [a, b, c]) == Appended(Appended(Appended(xs, a.0, a.1), b.0, b.1), c.0, c.1)
  {
    var x1 := Appended(xs, a.0, a.1);
    assert Merge(xs, [a]) == Merge(x1, []);
    assert Merge(xs, [a, b]) == Merge(x1, [b]);
    assert Merge(x1, [b]) == Merge(Appended(x1, b.0, b.1), []);
    assert Merge(xs, [a, b, c]) == Merge(x1, [b, c]);
    assert Merge(x1, [b, c]) == Merge(Appended(x1, b.0, b.1), [c]);
  }

  lemma {:induction false} MergeFour(xs: seq<string>, a: (string, string), b: (string, string), c: (string, string), d: (string, string))
    ensures Merge(xs, [a, b, c, d]) ==
      Appended(Appended(Appended(Appended(xs, a.0, a.1), b.0, b.1), c.0, c.1), d.0, d.1)
  {
    var x1 := Appended(xs, a.0, a.1);
    assert Merge(xs, [a, b, c, d]) == Merge(x1, [b, c, d]);
    MergeThree(x1, b, c, d);
  }

  /** The plan the Cisco identification string seeds. */
  function Seeded(seed: bool): Plan {
    if seed then Plan(true, None, ["terminal length 0", "show version"], Some("Cisco"), [], Some(CiscoFilter()), false)
    else Plan(false, None, [], None, [], None, false)
  }

  /** The branches that mark the prompt as recognised. */
  predicate Recognised(b: Branch) {
    !(b.Aruba? || b.NoShell? || b.Unknown?)
  }

  /** What branch `b` makes of the plan `s` so far, given whether the
      prompt holds a `>` and the filter the branch installs: it adds its
      commands and vendor hints, and overrides the vendor and filter only
      where it sets its own. */
  function Ruled(b: Branch, gt: bool, f: Option<Value>, s: Plan): Plan {
    Plan(
      s.valid || Recognised(b),
      if b == F5DiskFull then Some(DiskFull) else s.error,
      Merge(s.prepend, Guards(b, gt)),
      if BranchVendor(b).Some? then BranchVendor(b) else s.vendor,
      s.mightBe + MightBe(b),
      if f.Some? then f else s.filter,
      s.denied || b == NoShell)
  }

  /** The plan for prompt `p` and collection entries `c`: the seed, then
      the one branch of the chain that runs. */
  function Planned(p: string, c: seq<(string, Value)>): Result<Plan> {
    var seed :- CiscoSeed(c);
    var b := Classify(p);
    var f :- BranchFilter(b, c);
    Ok(Ruled(b, Search(Text(">"), p), f, Seeded(seed)))
  }

  /** The helper's planning: the seed from the identification string,
      then the branch of the chain that recognises the prompt.  The one lookup that can raise,
      the Netscout user name, is made before the branch's other effects,
      which nobody sees once it raises. */
  method Accumulate(p: string, c: seq<(string, Value)>) returns (r: Result<Plan>)
    ensures r == Planned(p, c)
  {
    var seed := CiscoSeed(c);
    if seed.Raised? {
      return Raised(seed.exception);
    }
    var s := SeedPlan(seed.value);
    var b := Classify(p);
    var f := BranchFilter(b, c);
    if f.Raised? {
      return Raised(f.exception);
    }
    var plan := ApplyRule(b, Search(Text(">"), p), f.value, s);
    r := Ok(plan);
  }

  /** The plan before any prompt rule: nothing planned, and a Cisco
      identification string plans `terminal length 0` and `show version` and sets the
      Cisco filter and vendor. */
  method SeedPlan(seed: bool) returns (s: Plan)
    ensures s == Seeded(seed)
  {
    var valid := false;
    var prepend: seq<string> := [];
    var vendor: Option<string> := None;
    var filter: Option<Value> := None;
    if seed {
      prepend := Appended(prepend, "terminal length 0", "terminal length 0");
      prepend := Appended(prepend, "show version", "show version");
      filter := Some(CiscoFilter());
      vendor := Some("Cisco");
      valid := true;
    }
    s := Plan(valid, None, prepend, vendor, [], filter, false);
  }

  /** The branch `b` of the chain; each branch's assignments and guarded
      appends are the statements of its own method below. */
  method ApplyRule(b: Branch, gt: bool, f: Option<Value>, s: Plan) returns (r: Plan)
    requires Filters(b) <==> f.Some?
    ensures r == Ruled(b, gt, f, s)
  {
    match b {
      case PaloAlto => r := PaloAltoRule(f.value, s);
      case F5 => r := F5Rule(f.value, s);
      case F5DiskFull => r := s.(vendor := Some("F5"), error := Some(DiskFull), valid := true);
      case Riverbed => r := RiverbedRule(f.value, s);
      case Netscout => r := NetscoutRule(f.value, s);
      case LinuxBracket => r := LinuxRule(b, f.value, s);
      case LinuxColon => r := LinuxRule(b, f.value, s);
      case Generic => r := GenericRule(gt, f.value, s);
      case LastLogin => r := s.(filter := f, mightBe := s.mightBe + ["Linux"], valid := true);
      case Dollar => r := LinuxRule(b, f.value, s);
      case Aruba => r := ArubaRule(f.value, s);
      case NoShell => r := s.(denied := true);
      case Unknown => r := s;
    }
  }

  /** A Palo Alto prompt: the vendor is Palo Alto, the prompt valid, and
      `set cli scripting-mode on` and `show system info` are planned, each
      unless it already is. */
  method PaloAltoRule(filter: Value, s: Plan) returns (r: Plan)
    ensures r == Ruled(PaloAlto, false, Some(filter), s)
  {
    var prepend := s.prepend;
    prepend := Appended(prepend, "set cli scripting-mode on", "set cli scripting-mode on");
    prepend := Appended(prepend, "show system info", "show system info");
    MergeThree(s.prepend, Plain("set cli scripting-mode on"), Plain("show system info"), Plain(""));
    r := s.(vendor := Some("Palo Alto"), filter := Some(filter), prepend := prepend, valid := true);
  }
  /** An F5 prompt: the vendor is F5, the prompt valid, and
      `show sys version`, `show sys hardware` and the uptime read through
      `run util bash` are planned, each unless it already is. */
  method F5Rule(filter: Value, s: Plan) returns (r: Plan)
    ensures r == Ruled(F5, false, Some(filter), s)
  {
    var prepend := s.prepend;
    prepend := Appended(prepend, "show sys version", "show sys version");
    prepend := Appended(prepend, "show sys hardware", "show sys hardware");
    prepend := Appended(prepend, "run util bash -c 'cat /proc/uptime'", "run util bash -c 'cat /proc/uptime'");
    MergeThree(s.prepend, Plain("show sys version"), Plain("show sys hardware"),
      Plain("run util bash -c 'cat /proc/uptime'"));
    r := s.(vendor := Some("F5"), filter := Some(filter), prepend := prepend, valid := true);
  }

  /** A Riverbed prompt: the vendor is Riverbed, the prompt valid, and
      `show version` and `show info` are planned, each unless it already
      is. */
  method RiverbedRule(filter: Value, s: Plan) returns (r: Plan)
    ensures r == Ruled(Riverbed, false, Some(filter), s)
  {
    var prepend := s.prepend;
    prepend := Appended(prepend, "show version", "show version");
    prepend := Appended(prepend, "show info", "show info");
    MergeThree(s.prepend, Plain("show version"), Plain("show info"), Plain(""));
    r := s.(vendor := Some("Riverbed"), filter := Some(filter), prepend := prepend, valid := true);
  }

  /** A Netscout prompt: the vendor is Netscout, the prompt valid, and
      `system version`, `system hardware`, `ip interfaces show` and
      `system license show` are planned, each unless it already is. */
  method NetscoutRule(filter: Value, s: Plan) returns (r: Plan)
    ensures r == Ruled(Netscout, false, Some(filter), s)
  {
    var prepend := s.prepend;
    prepend := Appended(prepend, "system version", "system version");
    prepend := Appended(prepend, "system hardware", "system hardware");
    prepend := Appended(prepend, "ip interfaces show", "ip interfaces show");
    prepend := Appended(prepend, "system license show", "system license show");
    MergeFour(s.prepend, Plain("system version"), Plain("system hardware"), Plain("ip interfaces show"),
      Plain("system license show"));
    r := s.(vendor := Some("Netscout"), filter := Some(filter), prepend := prepend, valid := true);
  }

  /** A Linux-style prompt (the bracket and colon rules and the `$ `
      rule): the prompt is valid, Linux is a possible vendor, and
      `uname -a` and `cat /etc/os-release` are planned; the rules differ in the vendor hint and the order of the
      first two commands. */
  method LinuxRule(b: Branch, filter: Value, s: Plan) returns (r: Plan)
    requires b.LinuxBracket? || b.LinuxColon? || b.Dollar?
    ensures r == Ruled(b, false, Some(filter), s)
  {
    var prepend, mightBe;
    if b.Dollar? {
      mightBe := s.mightBe + ["linux"];
      prepend := LinuxAppends(s.prepend, "cat /etc/os-release", "uname -a");
    } else {
      mightBe := s.mightBe + ["Linux"];
      prepend := LinuxAppends(s.prepend, "uname -a", "cat /etc/os-release");
    }
    r := s.(filter := Some(filter), mightBe := mightBe, prepend := prepend, valid := true);
    LinuxRuled(b, filter, s);
  }

  lemma {:induction false} LinuxRuled(b: Branch, filter: Value, s: Plan)
    requires b.LinuxBracket? || b.LinuxColon? || b.Dollar?
    ensures var first := if b.Dollar? then "cat /etc/os-release" else "uname -a";
      var second := if b.Dollar? then "uname -a" else "cat /etc/os-release";
      Ruled(b, false, Some(filter), s)
      == s.(filter := Some(filter), mightBe := s.mightBe + [if b.Dollar? then "linux" else "Linux"],
            prepend := Merge(s.prepend, LinuxCommands(first, second)), valid := true)
  {
  }

  /** A prompt ending in `#` or `>`: Cisco, Arista, Palo Alto and
      CloudGenix are possible vendors, and `terminal length 0`,
      `show version` and `dump overview` are planned, with `enable` first
      when the prompt holds a `>`. */
  method GenericRule(gt: bool, filter: Value, s: Plan) returns (r: Plan)
    ensures r == Ruled(Generic, gt, Some(filter), s)
  {
    var prepend := s.prepend;
    if gt {
      prepend := Appended(prepend, "enable", "enable");
    }
    prepend := Appended(prepend, "terminal length 0", "terminal length 0");
    prepend := Appended(prepend, "show version", "show version");
    prepend := Appended(prepend, "dump overview", "dump overview");
    ghost var rest := [Plain("terminal length 0"), Plain("show version"), Plain("dump overview")];
    if gt {
      MergeFour(s.prepend, Plain("enable"), rest[0], rest[1], rest[2]);
      assert Guards(Generic, gt) == [Plain("enable"), rest[0], rest[1], rest[2]];
    } else {
      MergeThree(s.prepend, rest[0], rest[1], rest[2]);
      assert Guards(Generic, gt) == rest;
    }
    r := s.(filter := Some(filter), mightBe := s.mightBe + ["cisco", "arista", "paloalto", "cloudgenix"],
      prepend := prepend, valid := true);
    GenericRuled(gt, filter, s);
  }

  lemma {:induction false} GenericRuled(gt: bool, filter: Value, s: Plan)
    ensures Ruled(Generic, gt, Some(filter), s)
      == s.(filter := Some(filter), mightBe := s.mightBe + ["cisco", "arista", "paloalto", "cloudgenix"],
            prepend := Merge(s.prepend, Guards(Generic, gt)), valid := true)
  {
  }

  /** An Aruba prompt: Aruba is a possible vendor and `show version` is
      planned, but the prompt is not marked valid. */
  method ArubaRule(filter: Value, s: Plan) returns (r: Plan)
    ensures r == Ruled(Aruba, false, Some(filter), s)
  {
    var prepend := Appended(s.prepend, "show version", "show version");
    MergeThree(s.prepend, Plain("show version"), Plain(""), Plain(""));
    r := s.(filter := Some(filter), mightBe := s.mightBe + ["aruba"], prepend := prepend);
  }

  /** The six guarded appends the Linux rules share, the first two in the
      order the rule gives them. */
  method LinuxAppends(prepend: seq<string>, first: string, second: string) returns (r: seq<string>)
    ensures r == Merge(prepend, LinuxCommands(first, second))
  {
    r := prepend;
    r := Appended(r, first, first);
    r := Appended(r, second, second);
    r := Appended(r, "cat /proc/uptime", "cat /proc/uptime");
    r := Appended(r, "cat /proc/meminfo", "cat /proc/meminfo");
    r := Appended(r, "cat /proc/cpuinfo", "cat /proc/cpuinfo");
    r := Appended(r, "ps -ef", "ps -ef -w -w");
    ghost var gs := LinuxCommands(first, second);
    ghost var x2 := Appended(Appended(prepend, first, first), second, second);
    assert Merge(prepend, gs) == Merge(x2, gs[2..]) by {
      assert Merge(prepend, gs) == Merge(Appended(prepend, first, first), gs[1..]);
    }
    MergeFour(x2, gs[2], gs[3], gs[4], gs[5]);
    assert gs[2..] == [gs[2], gs[3], gs[4], gs[5]];
  }

  // ---------------------------------------------------------------------
  // What merging a command table does
  // ---------------------------------------------------------------------

  /** The commands already planned stay first, in their order. */
  lemma {:induction false} MergeKeeps(xs: seq<string>, gs: seq<(string, string)>)
    ensures |xs| <= |Merge(xs, gs)| && Merge(xs, gs)[..|xs|] == xs
    decreases |gs|
  {
    if |gs| > 0 {
      var ys := Appended(xs, gs[0].0, gs[0].1);
      MergeKeeps(ys, gs[1..]);
      assert ys[..|xs|] == xs;
    }
  }

  /** Every command merged in was planned before or comes from the table,
      and every command the table adds unconditionally once absent ends up
      planned. */
  lemma {:induction false} MergeMembers(xs: seq<string>, gs: seq<(string, string)>, x: string)
    ensures x in Merge(xs, gs) ==> x in xs || exists i :: 0 <= i < |gs| && gs[i].1 == x
    ensures (x in xs || exists i :: 0 <= i < |gs| && gs[i] == (x, x)) ==> x in Merge(xs, gs)
    decreases |gs|
  {
    if |gs| > 0 {
      var ys := Appended(xs, gs[0].0, gs[0].1);
      MergeMembers(ys, gs[1..], x);
      MergeKeeps(xs, [gs[0]]);
      if x in Merge(xs, gs) && x !in xs && x in ys {
        assert gs[0].1 == x;
      }
      if x in Merge(xs, gs) && x !in ys {
        var i :| 0 <= i < |gs[1..]| && gs[1..][i].1 == x;
        assert gs[i + 1].1 == x;
      }
      if exists i :: 0 <= i < |gs| && gs[i] == (x, x) {
        var i :| 0 <= i < |gs| && gs[i] == (x, x);
        if i > 0 {
          assert gs[1..][i - 1] == (x, x);
        }
      }
    }
  }

  /** A table whose only unguarded command is absent and unique adds no
      command twice. */
  predicate Guarded(xs: seq<string>, gs: seq<(string, string)>) {
    forall i :: 0 <= i < |gs| && gs[i].0 != gs[i].1 ==>
      gs[i].1 !in xs && forall j :: 0 <= j < |gs| && j != i ==> gs[j].1 != gs[i].1
  }

  lemma {:induction false} MergeDistinct(xs: seq<string>, gs: seq<(string, string)>)
    requires Distinct(xs) && Guarded(xs, gs)
    ensures Distinct(Merge(xs, gs))
    decreases |gs|
  {
    if |gs| > 0 {
      var ys := Appended(xs, gs[0].0, gs[0].1);
      assert Distinct(ys) by {
        if gs[0].0 !in xs {
          assert gs[0].1 !in xs;
        }
      }
      forall i | 0 <= i < |gs[1..]| && gs[1..][i].0 != gs[1..][i].1
        ensures gs[1..][i].1 !in ys && forall j :: 0 <= j < |gs[1..]| && j != i ==> gs[1..][j].1 != gs[1..][i].1
      {
        assert gs[i + 1].1 != gs[0].1;
        forall j | 0 <= j < |gs[1..]| && j != i ensures gs[1..][j].1 != gs[1..][i].1 {
          assert gs[j + 1].1 != gs[i + 1].1;
        }
      }
      MergeDistinct(ys, gs[1..]);
    }
  }

  // ---------------------------------------------------------------------
  // What the plan promises
  // ---------------------------------------------------------------------

  /** The Linux table's one unguarded command, `ps -ef -w -w`, is added
      once, whatever came before it that does not already hold it. */
  lemma {:induction false} LinuxGuarded(first: string, second: string, xs: seq<string>)
    requires |first| > 0 && |second| > 0 && first[0] != 'p' && second[0] != 'p'
    requires "ps -ef -w -w" !in xs
    ensures Guarded(xs, LinuxCommands(first, second))
  {
    var gs := LinuxCommands(first, second);
    var ps := "ps -ef -w -w";
    forall i | 0 <= i < |gs| && gs[i].0 != gs[i].1
      ensures gs[i].1 !in xs && forall j :: 0 <= j < |gs| && j != i ==> gs[j].1 != gs[i].1
    {
      assert i == 5;
      forall j | 0 <= j < |gs| && j != i ensures gs[j].1 != ps {
        assert gs[j].1[0] != ps[0];
      }
    }
  }

  /** The seed's commands differ, and every table adds its one unguarded
      command, `ps -ef -w -w`, only where nothing else plans it. */
  lemma {:induction false} TablesGuarded(b: Branch, gt: bool, seed: bool)
    ensures Distinct(Seeded(seed).prepend)
    ensures Guarded(Seeded(seed).prepend, Guards(b, gt))
  {
    var xs := Seeded(seed).prepend;
    assert "terminal length 0"[0] != "show version"[0];
    assert "terminal length 0"[0] != 'p' && "show version"[0] != 'p';
    if b.LinuxBracket? || b.LinuxColon? {
      LinuxGuarded("uname -a", "cat /etc/os-release", xs);
    } else if b.Dollar? {
      LinuxGuarded("cat /etc/os-release", "uname -a", xs);
    } else {
      PlainGuarded(xs, Guards(b, gt));
    }
  }

  /** A table of commands each guarded by itself is guarded. */
  lemma {:induction false} PlainGuarded(xs: seq<string>, gs: seq<(string, string)>)
    requires forall i :: 0 <= i < |gs| ==> gs[i].0 == gs[i].1
    ensures Guarded(xs, gs)
  {
  }

  /** A successful plan is the seed's plan ruled by the prompt's branch. */
  lemma {:induction false} PlannedRuled(p: string, c: seq<(string, Value)>)
    requires Planned(p, c).Ok?
    ensures CiscoSeed(c).Ok? && BranchFilter(Classify(p), c).Ok?
    ensures Planned(p, c).value
      == Ruled(Classify(p), Search(Text(">"), p), BranchFilter(Classify(p), c).value, Seeded(CiscoSeed(c).value))
  {
  }

  /** A branch never plans a command twice when its table is guarded. */
  lemma {:induction false} RuledDistinct(b: Branch, gt: bool, f: Option<Value>, seed: bool)
    ensures Distinct(Ruled(b, gt, f, Seeded(seed)).prepend)
  {
    TablesGuarded(b, gt, seed);
    MergeDistinct(Seeded(seed).prepend, Guards(b, gt));
  }

  /** The commands planned never repeat. */
  lemma {:induction false} PlanDistinct(p: string, c: seq<(string, Value)>)
    requires Planned(p, c).Ok?
    ensures Distinct(Planned(p, c).value.prepend)
  {
    PlannedRuled(p, c);
    RuledDistinct(Classify(p), Search(Text(">"), p), BranchFilter(Classify(p), c).value, CiscoSeed(c).value);
  }

  /** No table but the generic one behind a `>` plans `enable`. */
  lemma {:induction false} NoEnable(b: Branch, gt: bool)
    requires !(b == Generic && gt)
    ensures forall i :: 0 <= i < |Guards(b, gt)| ==> Guards(b, gt)[i].1 != "enable"
  {
    var gs := Guards(b, gt);
    forall i | 0 <= i < |gs| ensures gs[i].1 != "enable" {
      assert gs[i].1[0] != 'e';
    }
  }

  /** A branch plans `enable` exactly when it is the generic prompt and the
      prompt holds a `>`. */
  lemma {:induction false} RuledEnable(b: Branch, gt: bool, f: Option<Value>, seed: bool)
    ensures "enable" in Ruled(b, gt, f, Seeded(seed)).prepend <==> b == Generic && gt
  {
    var xs := Seeded(seed).prepend;
    var gs := Guards(b, gt);
    assert Ruled(b, gt, f, Seeded(seed)).prepend == Merge(xs, gs);
    MergeMembers(xs, gs, "enable");
    assert "enable" !in xs by {
      assert "terminal length 0"[0] != 'e' && "show version"[0] != 'e';
    }
    if b == Generic && gt {
      assert gs == [Plain("enable"), Plain("terminal length 0"), Plain("show version"), Plain("dump overview")];
    } else {
      NoEnable(b, gt);
    }
  }

  /** `enable` is planned exactly for a generic prompt
      that holds a `>`. */
  lemma {:induction false} EnableIff(p: string, c: seq<(string, Value)>)
    requires Planned(p, c).Ok?
    ensures "enable" in Planned(p, c).value.prepend <==> Classify(p) == Generic && Contains(p, ">")
  {
    PlannedRuled(p, c);
    TextSearch(">", p);
    RuledEnable(Classify(p), Search(Text(">"), p), BranchFilter(Classify(p), c).value, CiscoSeed(c).value);
  }

  // ---------------------------------------------------------------------
  // The answer check_prompt returns
  // ---------------------------------------------------------------------

  /** The optional entries of the information dictionary, in the order
      lines 213 to 224 write them. */
  function Optional(plan: Plan): seq<(string, Option<Value>)> {
    [("error", if plan.error.Some? then Some(Str(plan.error.value)) else None),
     ("prepend_command_list", if |plan.prepend| > 0 then Some(List(StrList(plan.prepend))) else None),
     ("vendor", if plan.vendor.Some? then Some(Str(plan.vendor.value)) else None),
     ("might_be", if |plan.mightBe| > 0 then Some(List(StrList(plan.mightBe))) else None),
     ("prompt_filter", plan.filter)]
  }

  /** The dictionary of lines 209 to 226: `valid` and `prompt`, then each
      optional entry the plan has. */
  function Rendered(plan: Plan, p: string): seq<(string, Value)> {
    PutSome([("valid", Bool(plan.valid)), ("prompt", Str(p))], Optional(plan))
  }

  /** What `check_prompt` returns: the rejection pair `(False, message)`,
      or the information dictionary. */
  datatype Checked = Rejected(message: string) | Info(entries: seq<(string, Value)>)

  const CollectionNotDict := "Collection should be in 'dict' format."
  const PromptNotStr := "Prompt output should be in string format."

  /** The entries of the collection; `None` becomes the empty dictionary. */
  function Entries(collection: Value): seq<(string, Value)> {
    if collection.Dict? then collection.entries else []
  }

  /** `check_prompt(prompt, collection)`: its answer and the caller's
      collection afterwards (`None` stands for the fresh dictionary the
      function makes itself, which nobody else sees). */
  function Check(prompt: Value, collection: Value): Result<(Checked, Value)> {
    if !(collection.Null? || collection.Dict?) then Ok((Rejected(CollectionNotDict), collection))
    else if !prompt.Str? then Ok((Rejected(PromptNotStr), collection))
    else
      var c := Entries(collection);
      var plan :- Planned(prompt.s, c);
      var after := if plan.denied && collection.Dict? then Dict(Put(c, "error", Str(NoShellError))) else collection;
      Ok((Info(Rendered(plan, prompt.s)), after))
  }

  /** `check_prompt(prompt, collection)`: the collection and prompt are
      checked, the prompt is classified and planned for, and the
      information dictionary is built from the plan. */
  method CheckPrompt(prompt: Value, collection: Value) returns (r: Result<(Checked, Value)>)
    ensures r == Check(prompt, collection)
  {
    var c: seq<(string, Value)> := [];
    if collection.Null? {
      c := [];
    } else if !collection.Dict? {
      return Ok((Rejected(CollectionNotDict), collection));
    } else {
      c := collection.entries;
    }
    if !prompt.Str? {
      return Ok((Rejected(PromptNotStr), collection));
    }
    var planned := Accumulate(prompt.s, c);
    if planned.Raised? {
      return Raised(planned.exception);
    }
    var plan := planned.value;
    var after := collection;
    if plan.denied && collection.Dict? {
      after := Dict(Put(c, "error", Str(NoShellError)));
    }
    var info := RenderInfo(plan, prompt.s);
    r := Ok((Info(info), after));
  }

  /** Lines 209 to 226: the dictionary filled in entry by entry. */
  method RenderInfo(plan: Plan, p: string) returns (info: seq<(string, Value)>)
    ensures info == Rendered(plan, p)
  {
    var es := Optional(plan);
    info := [("valid", Bool(plan.valid)), ("prompt", Str(p))];
    PutSomeFive(info, es[0], es[1], es[2], es[3], es[4]);
    if plan.error.Some? {
      info := Put(info, "error", Str(plan.error.value));
    }
    if |plan.prepend| > 0 {
      info := Put(info, "prepend_command_list", List(StrList(plan.prepend)));
    }
    if plan.vendor.Some? {
      info := Put(info, "vendor", Str(plan.vendor.value));
    }
    if |plan.mightBe| > 0 {
      info := Put(info, "might_be", List(StrList(plan.mightBe)));
    }
    if plan.filter.Some? {
      info := Put(info, "prompt_filter", plan.filter.value);
    }
  }
  /** The keys the information dictionary may hold, in the order the
      helper writes them; `extend_command_list` is never written, since
      nothing is ever added to that list. */
  const InfoKeys := ["valid", "prompt", "error", "prepend_command_list", "vendor", "might_be", "prompt_filter"]

  lemma {:induction false} InfoKeysApart()
    ensures Distinct(InfoKeys) && "extend_command_list" !in InfoKeys
  {
    var ks := InfoKeys;
    forall i, j | 0 <= i < j < |ks| ensures ks[i] != ks[j] {
      assert |ks[i]| != |ks[j]| || ks[i][1] != ks[j][1] || ks[i][2] != ks[j][2];
    }
    forall i | 0 <= i < |ks| ensures ks[i] != "extend_command_list" {
      assert ks[i][0] != 'e' || ks[i][1] != 'x';
    }
  }

  /** The information dictionary is the fixed start with the optional
      entries put under their new keys. */
  lemma {:induction false} RenderedParts(plan: Plan, p: string)
    ensures var base := [("valid", Bool(plan.valid)), ("prompt", Str(p))];
      var es := Optional(plan);
      var r := Rendered(plan, p);
      && Keys(base) == InfoKeys[..2]
      && (forall i :: 0 <= i < |es| ==> es[i].0 == InfoKeys[i + 2])
      && UniqueKeys(r)
      && (forall i :: 0 <= i < |es| ==> Get(r, es[i].0) == es[i].1)
      && (forall k :: (forall i :: 0 <= i < |es| ==> es[i].0 != k) ==> Get(r, k) == Get(base, k))
      && (forall k :: HasKey(r, k) ==> HasKey(base, k) || exists i :: 0 <= i < |es| && es[i].0 == k)
  {
    InfoKeysApart();
    var base := [("valid", Bool(plan.valid)), ("prompt", Str(p))];
    var es := Optional(plan);
    assert Keys(base) == InfoKeys[..2];
    forall i | 0 <= i < |es| ensures es[i].0 == InfoKeys[i + 2] {
    }
    PutSomeReads(base, es);
  }

  /** The information dictionary always holds the recognition flag and
      the prompt. */
  lemma {:induction false} RenderedFixed(plan: Plan, p: string)
    ensures Get(Rendered(plan, p), "valid") == Some(Bool(plan.valid))
    ensures Get(Rendered(plan, p), "prompt") == Some(Str(p))
  {
    RenderedParts(plan, p);
    var base := [("valid", Bool(plan.valid)), ("prompt", Str(p))];
    var es := Optional(plan);
    forall i | 0 <= i < |es| ensures es[i].0 != "valid" && es[i].0 != "prompt" {
      assert |es[i].0| != 5 || es[i].0[0] != 'v';
      assert |es[i].0| != 6 || es[i].0[1] != 'r';
    }
    assert KeyIndex(base, "valid") == Some(0);
    assert KeyIndex(base, "prompt") == Some(1) by {
      assert base[0].0 != "prompt";
    }
  }

  /** Each other entry of the information dictionary is there exactly
      when the plan has it. */
  lemma {:induction false} RenderedReads(plan: Plan, p: string)
    ensures var r := Rendered(plan, p);
      && Get(r, "error") == (if plan.error.Some? then Some(Str(plan.error.value)) else None)
      && Get(r, "prepend_command_list") == (if |plan.prepend| > 0 then Some(List(StrList(plan.prepend))) else None)
      && Get(r, "vendor") == (if plan.vendor.Some? then Some(Str(plan.vendor.value)) else None)
      && Get(r, "might_be") == (if |plan.mightBe| > 0 then Some(List(StrList(plan.mightBe))) else None)
      && Get(r, "prompt_filter") == plan.filter
  {
    RenderedParts(plan, p);
    var es := Optional(plan);
    var r := Rendered(plan, p);
    assert Get(r, es[0].0) == es[0].1 && Get(r, es[1].0) == es[1].1 && Get(r, es[2].0) == es[2].1;
    assert Get(r, es[3].0) == es[3].1 && Get(r, es[4].0) == es[4].1;
  }


  /** The information dictionary holds no key twice and no key the helper
      does not write; in particular never `extend_command_list`. */
  lemma {:induction false} RenderedKeys(plan: Plan, p: string)
    ensures UniqueKeys(Rendered(plan, p))
    ensures forall k :: HasKey(Rendered(plan, p), k) ==> k in InfoKeys
    ensures !HasKey(Rendered(plan, p), "extend_command_list")
  {
    RenderedParts(plan, p);
    InfoKeysApart();
    var base := [("valid", Bool(plan.valid)), ("prompt", Str(p))];
    var es := Optional(plan);
    var r := Rendered(plan, p);
    forall k | HasKey(r, k) ensures k in InfoKeys {
      if HasKey(base, k) {
        assert k in Keys(base);
      } else {
        var i :| 0 <= i < |es| && es[i].0 == k;
        assert k == InfoKeys[i + 2];
      }
    }
  }


  // ---------------------------------------------------------------------
  // What check_prompt promises
  // ---------------------------------------------------------------------

  /** Lines 22 to 28: anything but a dictionary or `None` as the
      collection, or anything but a string as the prompt, is refused with
      its message and nothing else happens; otherwise the answer is the
      information dictionary. */
  lemma {:induction false} CheckRefuses(prompt: Value, collection: Value)
    ensures !(collection.Null? || collection.Dict?) ==>
      Check(prompt, collection) == Ok((Rejected(CollectionNotDict), collection))
    ensures (collection.Null? || collection.Dict?) && !prompt.Str? ==>
      Check(prompt, collection) == Ok((Rejected(PromptNotStr), collection))
    ensures (collection.Null? || collection.Dict?) && prompt.Str? && Check(prompt, collection).Ok? ==>
      Check(prompt, collection).value.0.Info?
  {
  }

  /** Only two lookups can raise: the identification string under
      `_session_info`, and the Netscout user name, which a collection
      without `_session_info` (such as the default `None`) never has. */
  lemma {:induction false} RaisesOnly(p: string, c: seq<(string, Value)>)
    ensures Planned(p, c).Raised? ==>
      (HasKey(c, "_session_info") && CiscoSeed(c).Raised?) || (Classify(p) == Netscout && Username(c).Raised?)
    ensures !HasKey(c, "_session_info") ==> (Planned(p, c).Raised? <==> Classify(p) == Netscout)
  {
    PlannedRaised(p, c);
    if !HasKey(c, "_session_info") && Classify(p) == Netscout {
      NetscoutRaises(c);
    }
  }

  lemma {:induction false} PlannedRaised(p: string, c: seq<(string, Value)>)
    ensures Planned(p, c).Raised? <==>
      CiscoSeed(c).Raised? || (CiscoSeed(c).Ok? && BranchFilter(Classify(p), c).Raised?)
  {
  }

  lemma {:induction false} NetscoutRaises(c: seq<(string, Value)>)
    requires !HasKey(c, "_session_info")
    ensures BranchFilter(Netscout, c).Raised?
  {
    assert KeyIndex(c, "_session_info").None?;
    assert Index(Dict(c), "_session_info").Raised?;
  }

  /** The chain stops before the Aruba rule exactly when an earlier
      branch is accepted. */
  lemma {:induction false} FirstBranchEarly(hit: Branch -> bool)
    ensures Recognised(FirstBranch(hit)) <==> exists b :: b != Unknown && Rank(b) < Rank(Aruba) && hit(b)
  {
    var b := FirstBranch(hit);
    if Recognised(b) {
      assert b != Unknown && Rank(b) < Rank(Aruba) && hit(b);
    }
    if exists b' :: b' != Unknown && Rank(b') < Rank(Aruba) && hit(b') {
      var b' :| b' != Unknown && Rank(b') < Rank(Aruba) && hit(b');
      FirstBranchFirst(hit, b');
    }
  }

  /** A prompt is recognised exactly when a rule before the Aruba one
      matches it. */
  lemma {:induction false} RecognisedIff(p: string)
    ensures Recognised(Classify(p)) <==> exists b :: b != Unknown && Rank(b) < Rank(Aruba) && Search(Pattern(b), p)
  {
    FirstBranchEarly(Hit(p));
    assert forall b :: Hit(p)(b) == Search(Pattern(b), p);
  }

  /** Lines 30 to 200: the prompt is recognised exactly when the Cisco
      identification string was seen, or a rule before the Aruba one
      matches it. */
  lemma {:induction false} ValidIff(p: string, c: seq<(string, Value)>)
    requires Planned(p, c).Ok?
    ensures Planned(p, c).value.valid <==>
      CiscoSeed(c) == Ok(true) || exists b :: b != Unknown && Rank(b) < Rank(Aruba) && Search(Pattern(b), p)
  {
    PlannedRuled(p, c);
    RecognisedIff(p);
  }

  /** A successful check answers with the rendered plan and touches the
      collection only when the user has no shell. */
  lemma {:induction false} CheckIs(p: string, collection: Value)
    requires collection.Null? || collection.Dict?
    requires Check(Str(p), collection).Ok?
    ensures Planned(p, Entries(collection)).Ok?
    ensures var plan := Planned(p, Entries(collection)).value;
      Check(Str(p), collection).value.0 == Info(Rendered(plan, p))
  {
  }

  /** Only the full-disk F5 prompt reports an error, and it reports the
      disk. */
  lemma {:induction false} ErrorOnlyDiskFull(p: string, collection: Value)
    requires collection.Null? || collection.Dict?
    requires Check(Str(p), collection).Ok?
    ensures Check(Str(p), collection).value.0.Info?
    ensures Get(Check(Str(p), collection).value.0.entries, "error") ==
      if Classify(p) == F5DiskFull then Some(Str(DiskFull)) else None
  {
    CheckIs(p, collection);
    var c := Entries(collection);
    PlannedRuled(p, c);
    RenderedReads(Planned(p, c).value, p);
  }

  /** The vendor reported is the one the prompt's rule names, else Cisco
      when the identification string said so, else none. */
  lemma {:induction false} VendorIs(p: string, collection: Value)
    requires collection.Null? || collection.Dict?
    requires Check(Str(p), collection).Ok?
    ensures Check(Str(p), collection).value.0.Info?
    ensures Get(Check(Str(p), collection).value.0.entries, "vendor") ==
      if BranchVendor(Classify(p)).Some? then Some(Str(BranchVendor(Classify(p)).value))
      else if CiscoSeed(Entries(collection)) == Ok(true) then Some(Str("Cisco"))
      else None
  {
    CheckIs(p, collection);
    var c := Entries(collection);
    PlannedRuled(p, c);
    RenderedReads(Planned(p, c).value, p);
  }

  /** A prompt filter is reported exactly when the prompt's rule installs
      one or the identification string said Cisco; the rule's filter wins. */
  lemma {:induction false} FilterIs(p: string, collection: Value)
    requires collection.Null? || collection.Dict?
    requires Check(Str(p), collection).Ok?
    ensures Check(Str(p), collection).value.0.Info?
    ensures var f := Get(Check(Str(p), collection).value.0.entries, "prompt_filter");
      && (f.Some? <==> Filters(Classify(p)) || CiscoSeed(Entries(collection)) == Ok(true))
      && (Filters(Classify(p)) ==> BranchFilter(Classify(p), Entries(collection)) == Ok(f))
      && (!Filters(Classify(p)) && f.Some? ==> f == Some(CiscoFilter()))
  {
    CheckIs(p, collection);
    var c := Entries(collection);
    PlannedRuled(p, c);
    RenderedReads(Planned(p, c).value, p);
  }

  /** Line 200: the caller's collection gains the shell-access error when
      the user has no shell, and nothing else in it changes; a collection
      of `None` is a fresh dictionary nobody else sees. */
  lemma {:induction false} CollectionTouched(p: string, collection: Value)
    requires collection.Null? || collection.Dict?
    requires Check(Str(p), collection).Ok?
    ensures var after := Check(Str(p), collection).value.1;
      && (collection.Null? ==> after == Null)
      && (collection.Dict? ==>
            && after.Dict?
            && Get(after.entries, "error") ==
               (if Classify(p) == NoShell then Some(Str(NoShellError)) else Get(collection.entries, "error"))
            && (forall k :: k != "error" ==> Get(after.entries, k) == Get(collection.entries, k)))
  {
    CheckIs(p, collection);
    PlannedRuled(p, Entries(collection));
  }

  /** Lines 39 to 53: after the Cisco identification string the first
      commands are always `terminal length 0` and `show version`, whatever
      the prompt's rule adds after them. */
  lemma {:induction false} SeedFirst(p: string, c: seq<(string, Value)>)
    requires Planned(p, c).Ok? && CiscoSeed(c) == Ok(true)
    ensures |Planned(p, c).value.prepend| >= 2
      && Planned(p, c).value.prepend[..2] == ["terminal length 0", "show version"]
  {
    PlannedRuled(p, c);
    MergeKeeps(Seeded(true).prepend, Guards(Classify(p), Search(Text(">"), p)));
  }

  // ---------------------------------------------------------------------
  // check_banner
  // ---------------------------------------------------------------------

  /** What `check_banner` and `analyze` return: the rejection pair
      `(False, message)`, a dictionary, or `None`. */
  datatype Reply = Refused(message: string) | Found(entries: seq<(string, Value)>) | Nothing

  /** The banner rules in the order they are tried: each distribution with
      the pattern (searched under DOTALL) that names it. */
  function Distributions(): seq<(string, Re)> {
    [("Ubuntu", Alt(Text("Welcome to Ubuntu"), Seq([Text("ubuntu"), AnyChar(), Text("com")]))),
     ("OPNsense", Alt(Text("OPNsense"), Seq([Text("opnsense"), AnyChar(), Text("org")]))),
     ("VMware", AnyOf([Seq([Text("ESXi "), Set("Ss"), Text("hell")]), Text("VMware"),
                       Seq([Text("vmware"), AnyChar(), Text("com")])])),
     ("Debian", Text("Debian"))]
  }

  /** The first rule from place `k` on whose pattern the banner matches. */
  function FirstDistribution(banner: string, k: nat): (r: nat)
    requires k <= |Distributions()|
    ensures k <= r <= |Distributions()|
    ensures r < |Distributions()| ==> Search(Distributions()[r].1, banner)
    ensures forall i :: k <= i < r ==> !Search(Distributions()[i].1, banner)
    decreases |Distributions()| - k
  {
    if k == |Distributions()| then k
    else if Search(Distributions()[k].1, banner) then k
    else FirstDistribution(banner, k + 1)
  }

  function Linux(distribution: string): seq<(string, Value)> {
    [("vendor", Str("Linux")), ("distribution", Str(distribution))]
  }

  const BannerNotStr := "Banner output should be in string format."

  /** Lines 229 to 253: the collection must be a dictionary (the default
      `None` is refused too) and the banner a string; then the first
      distribution whose pattern the banner matches, or `None`. */
  function CheckBanner(banner: Value, collection: Value): (r: Reply)
    ensures !collection.Dict? ==> r == Refused(CollectionNotDict)
    ensures collection.Dict? && !banner.Str? ==> r == Refused(BannerNotStr)
    ensures r.Found? ==> banner.Str? && (exists i :: (
      && 0 <= i < |Distributions()|
      && r.entries == Linux(Distributions()[i].0) && Search(Distributions()[i].1, banner.s)
      && (forall j :: 0 <= j < i ==> !Search(Distributions()[j].1, banner.s))))
    ensures r.Nothing? <==> (collection.Dict? && banner.Str?
      && forall i :: 0 <= i < |Distributions()| ==> !Search(Distributions()[i].1, banner.s))
  {
    if !collection.Dict? then Refused(CollectionNotDict)
    else if !banner.Str? then Refused(BannerNotStr)
    else
      var k := FirstDistribution(banner.s, 0);
      if k == |Distributions()| then Nothing else Found(Linux(Distributions()[k].0))
  }

  /** A banner welcoming to Ubuntu, or naming `ubuntu.com`, is reported as
      Ubuntu, whatever else it mentions. */
  lemma {:induction false} UbuntuBanner(b: string, c: seq<(string, Value)>)
    requires Contains(b, "Welcome to Ubuntu") || Contains(b, "ubuntu.com")
    ensures CheckBanner(Str(b), Dict(c)) == Found(Linux("Ubuntu"))
  {
    var re := Distributions()[0].1;
    AltSearch(Text("Welcome to Ubuntu"), Seq([Text("ubuntu"), AnyChar(), Text("com")]), b);
    TextSearch("Welcome to Ubuntu", b);
    if !Contains(b, "Welcome to Ubuntu") {
      assert "ubuntu" + "." + "com" == "ubuntu.com";
      DottedLiteral("ubuntu", "com", b);
    }
    assert Search(re, b);
    assert FirstDistribution(b, 0) == 0;
  }

  /** A banner that names OPNsense, VMware or Debian is always reported as
      some distribution. */
  lemma {:induction false} NamedBanner(b: string, c: seq<(string, Value)>)
    requires Contains(b, "OPNsense") || Contains(b, "VMware") || Contains(b, "Debian")
    ensures CheckBanner(Str(b), Dict(c)).Found?
  {
    var ds := Distributions();
    TextSearch("OPNsense", b);
    TextSearch("VMware", b);
    TextSearch("Debian", b);
    AltSearch(Text("OPNsense"), Seq([Text("opnsense"), AnyChar(), Text("org")]), b);
    var vm := [Seq([Text("ESXi "), Set("Ss"), Text("hell")]), Text("VMware"), Seq([Text("vmware"), AnyChar(), Text("com")])];
    assert AnyOf(vm) == Alt(vm[0], Alt(vm[1], vm[2])) by {
      assert vm[1..][1..] == [vm[2]];
    }
    AltSearch(vm[0], Alt(vm[1], vm[2]), b);
    AltSearch(vm[1], vm[2], b);
    if Contains(b, "OPNsense") {
      assert Search(ds[1].1, b);
    } else if Contains(b, "VMware") {
      assert Search(ds[2].1, b);
    } else {
      assert Search(ds[3].1, b);
    }
  }

  // ---------------------------------------------------------------------
  // analyze
  // ---------------------------------------------------------------------

  /** `([Ss]yntax [Ee]rror|[Ii]nvalid [Cc]ommand)|: [Cc]ommand not found|: [Pp]ermission denied` */
  function CommandError(): Re {
    AnyOf([Seq([Set("Ss"), Text("yntax "), Set("Ee"), Text("rror")]),
           Seq([Set("Ii"), Text("nvalid "), Set("Cc"), Text("ommand")]),
           Seq([Text(": "), Set("Cc"), Text("ommand not found")]),
           Seq([Text(": "), Set("Pp"), Text("ermission denied")])])
  }

  /** The Cisco version banners, searched under DOTALL:
      `Cisco Nexus Operating System \(NX-OS\) Software`,
      `IOS \(tm\) .*? Software \(.*?\), Version .*?, .*\n`,
      `Cisco\s+.*?\s+\(.*?\),\s+[Vv]ersion\s+.*?(,)?\s+.*?` and
      `Cisco IOS Software`. */
  function CiscoVersion(): Re {
    AnyOf([Text("Cisco Nexus Operating System (NX-OS) Software"),
           Seq([Text("IOS (tm) "), Star(AnyChar()), Text(" Software ("), Star(AnyChar()), Text("), Version "),
                Star(AnyChar()), Text(", "), Star(AnyChar()), Text("\n")]),
           Seq([Text("Cisco"), Plus(Ws()), Star(AnyChar()), Plus(Ws()), Text("("), Star(AnyChar()), Text("),"),
                Plus(Ws()), Set("Vv"), Text("ersion"), Plus(Ws()), Star(AnyChar()), Opt(Text(",")), Plus(Ws()),
                Star(AnyChar())]),
           Text("Cisco IOS Software")])
  }

  /** `Product name:\s+rbt_.*?\n\nProduct model:\s+.*?\s+\(` under DOTALL. */
  function RiverbedVersion(): Re {
    Seq([Text("Product name:"), Plus(Ws()), Text("rbt_"), Star(AnyChar()), Text("\n\nProduct model:"),
         Plus(Ws()), Star(AnyChar()), Plus(Ws()), Text("(")])
  }

  /** `Arista .*?\nHardware version:.*?\nSerial number:` under DOTALL. */
  function AristaVersion(): Re {
    Seq([Text("Arista "), Star(AnyChar()), Text("\nHardware version:"), Star(AnyChar()), Text("\nSerial number:")])
  }

  /** A vendor, with the commands to run first when there are any. */
  function Vendor(name: string, prepend: seq<string>): seq<(string, Value)> {
    [("vendor", Str(name))] + if |prepend| > 0 then [("prepend_command_list", List(StrList(prepend)))] else []
  }

  /** Lines 256 to 303: an output that reports a bad command is an error
      whatever the command; otherwise the version commands name a vendor
      when their output has the vendor's banner. */
  function Analyze(command: string, output: string): (r: Reply)
    ensures !r.Refused?
    ensures Search(CommandError(), output) ==> r == Found([("_error", Str(Strip(output)))])
    ensures r.Found? && !Search(CommandError(), output) ==>
      || (command == "show version" && r.entries in
           [Vendor("Cisco", []), Vendor("Riverbed", ["show info"]), Vendor("Arista", ["show info"])])
      || (command in ["sys version", "system version"] && r.entries == Vendor("Netscout", ["system hardware"]))
  {
    if Search(CommandError(), output) then Found([("_error", Str(Strip(output)))])
    else if command == "show version" then
      if Search(CiscoVersion(), output) then Found(Vendor("Cisco", []))
      else if Search(RiverbedVersion(), output) then Found(Vendor("Riverbed", ["show info"]))
      else if Search(AristaVersion(), output) then Found(Vendor("Arista", ["show info"]))
      else Nothing
    else if command in ["sys version", "system version"] then
      if Search(Text("Version: Arbor Edge Defense"), output) then Found(Vendor("Netscout", ["system hardware"]))
      else Nothing
    else Nothing
  }

  /** Line 269: output saying `command not found` or `Permission denied`
      after a colon, `Syntax Error` or `Invalid command` is reported as an
      error, stripped, whatever the command was. */
  lemma {:induction false} ErrorOutput(command: string, output: string)
    requires || Contains(output, "Syntax Error") || Contains(output, "syntax error")
             || Contains(output, "Invalid command") || Contains(output, ": command not found")
             || Contains(output, ": Permission denied")
    ensures Analyze(command, output) == Found([("_error", Str(Strip(output)))])
  {
    var xs := [Seq([Set("Ss"), Text("yntax "), Set("Ee"), Text("rror")]),
               Seq([Set("Ii"), Text("nvalid "), Set("Cc"), Text("ommand")]),
               Seq([Text(": "), Set("Cc"), Text("ommand not found")]),
               Seq([Text(": "), Set("Pp"), Text("ermission denied")])];
    AnyOfFour(xs, output);
    if Contains(output, "Syntax Error") || Contains(output, "syntax error") {
      SyntaxError(output);
    } else if Contains(output, "Invalid command") {
      InvalidCommand(output);
    } else if Contains(output, ": command not found") {
      NotFound(output);
    } else {
      Denied(output);
    }
  }

  lemma {:induction false} SyntaxError(output: string)
    requires Contains(output, "Syntax Error") || Contains(output, "syntax error")
    ensures Search(Seq([Set("Ss"), Text("yntax "), Set("Ee"), Text("rror")]), output)
  {
    if Contains(output, "Syntax Error") {
      SyntaxCapital(output);
    } else {
      SyntaxLower(output);
    }
  }

  lemma {:induction false} SyntaxCapital(output: string)
    requires Contains(output, "Syntax Error")
    ensures Search(Seq([Set("Ss"), Text("yntax "), Set("Ee"), Text("rror")]), output)
  {
    SpellsSearch([Set("Ss"), Text("yntax "), Set("Ee"), Text("rror")], "Syntax Error", output);
  }

  lemma {:induction false} SyntaxLower(output: string)
    requires Contains(output, "syntax error")
    ensures Search(Seq([Set("Ss"), Text("yntax "), Set("Ee"), Text("rror")]), output)
  {
    SpellsSearch([Set("Ss"), Text("yntax "), Set("Ee"), Text("rror")], "syntax error", output);
  }

  lemma {:induction false} InvalidCommand(output: string)
    requires Contains(output, "Invalid command")
    ensures Search(Seq([Set("Ii"), Text("nvalid "), Set("Cc"), Text("ommand")]), output)
  {
    SpellsSearch([Set("Ii"), Text("nvalid "), Set("Cc"), Text("ommand")], "Invalid command", output);
  }

  lemma {:induction false} NotFound(output: string)
    requires Contains(output, ": command not found")
    ensures Search(Seq([Text(": "), Set("Cc"), Text("ommand not found")]), output)
  {
    SpellsSearch([Text(": "), Set("Cc"), Text("ommand not found")], ": command not found", output);
  }

  lemma {:induction false} Denied(output: string)
    requires Contains(output, ": Permission denied")
    ensures Search(Seq([Text(": "), Set("Pp"), Text("ermission denied")]), output)
  {
    SpellsSearch([Text(": "), Set("Pp"), Text("ermission denied")], ": Permission denied", output);
  }

  /** Lines 278 to 285: `show version` output naming Cisco IOS Software or
      the Nexus operating system, and reporting no bad command, is Cisco. */
  lemma {:induction false} CiscoOutput(output: string)
    requires !Search(CommandError(), output)
    requires Contains(output, "Cisco IOS Software") || Contains(output, "Cisco Nexus Operating System (NX-OS) Software")
    ensures Analyze("show version", output) == Found(Vendor("Cisco", []))
  {
    var xs := [Text("Cisco Nexus Operating System (NX-OS) Software"),
               Seq([Text("IOS (tm) "), Star(AnyChar()), Text(" Software ("), Star(AnyChar()), Text("), Version "),
                    Star(AnyChar()), Text(", "), Star(AnyChar()), Text("\n")]),
               Seq([Text("Cisco"), Plus(Ws()), Star(AnyChar()), Plus(Ws()), Text("("), Star(AnyChar()), Text("),"),
                    Plus(Ws()), Set("Vv"), Text("ersion"), Plus(Ws()), Star(AnyChar()), Opt(Text(",")), Plus(Ws()),
                    Star(AnyChar())]),
               Text("Cisco IOS Software")];
    assert CiscoVersion() == AnyOf(xs);
    AnyOfFour(xs, output);
    TextSearch("Cisco IOS Software", output);
    TextSearch("Cisco Nexus Operating System (NX-OS) Software", output);
  }

  /** Lines 299 to 303: the Arbor Edge Defense version line after
      `sys version` or `system version`, with no bad command reported, is
      Netscout, which plans `system hardware`. */
  lemma {:induction false} ArborOutput(command: string, output: string)
    requires command == "sys version" || command == "system version"
    requires !Search(CommandError(), output)
    requires Contains(output, "Version: Arbor Edge Defense")
    ensures Analyze(command, output) == Found(Vendor("Netscout", ["system hardware"]))
  {
    TextSearch("Version: Arbor Edge Defense", output);
    SystemVersion(command);
  }

  lemma {:induction false} SystemVersion(command: string)
    requires command == "sys version" || command == "system version"
    ensures command != "show version" && command in ["sys version", "system version"]
  {
    assert command[1] != "show version"[1];
  }

  // ---------------------------------------------------------------------
  // os_type_to_vendor
  // ---------------------------------------------------------------------

  /** One row of the OS type table: the analysis package that handles it,
      the vendor and OS names for reports, the prompt filter, and the
      commands to start with (absent for two rows). */
  datatype OsType = OsType(
    osType: string, identifier: string, vendor: string, osName: string,
    filter: Value, commands: Option<seq<string>>)

  /** Lines 324 to 357, row by row.  The filters are the raw strings as
      written, doubled backslashes included. */
  function OsTypes(): seq<OsType> {
    [CiscoIos(), CiscoNxos(), AristaEos(), F5Tmos(), ArbOs(), OgOs(), RbSteelhead(), LinuxOs(), CgxOs(),
     ArubaOs(), PanOs()]
  }

  function CiscoIos(): OsType {
    OsType("cisco_ios", "cisco", "Cisco", "IOS", CiscoFilter(), Some(["terminal length 0", "show version"]))
  }

  function CiscoNxos(): OsType { OsType("cisco_nxos", "cisco", "Cisco", "NXOS", CiscoFilter(), None) }

  function AristaEos(): OsType {
    OsType("arista_eos", "arista", "Arista", "EOS",
      Dict([("re", Str("^((.*)\\n)?(.*?[#>](\\\\s+)?)$")), ("response", Int(1)), ("prompt", Int(3)), ("mode", Int(5))]),
      None)
  }

  function F5Tmos(): OsType {
    OsType("f5_tmos", "f5", "F5", "TMOS",
      Filter("^(.*?\\n)?(<<username>>@\\(.*?\\)\\(.*?\\)" + "\\(.*?\\)\\(.*?\\)\\s?\\(tmos\\)#\\s)$", 1, 2),
      Some(["show sys version", "show sys hardware", "run util bash -c 'cat /proc/uptime'"]))
  }

  function ArbOs(): OsType {
    OsType("arb_os", "netscout", "Netscout", "Arbor OS",
      Filter("^((.*)\\\\n)?(svc-ens-auto-ro@.*?:/#\\\\s+)$", 1, 3), Some(["system version", "system hardware"]))
  }

  function OgOs(): OsType {
    OsType("og_os", "opengear", "Opengear", "OG_OS", Filter("^((.*)\\n)?(.*?\\$\\s+)", 1, 3),
      Some(["config -g config", "showserial", "cat /proc/uptime", "config --show-config", "config export"]))
  }

  function RbSteelhead(): OsType {
    OsType("rb_steelhead", "riverbed", "Riverbed", "RiOS", Filter("^(.*?\\\\n)?(.*?\\\\s>\\\\s)$", 1, 2),
      Some(["show version", "show info"]))
  }

  function LinuxOs(): OsType {
    OsType("linux", "linux", "Linux", "Linux", Filter("^((.*)\\n)?(.*?@.*?)$", 1, 3),
      Some(["cat /etc/version", "uname -a"]))
  }

  function CgxOs(): OsType {
    OsType("cgx_os", "cloudgenix", "Palo Alto", "Cloudgenix OS", Filter("^((.*)\\n)?(.*?[#>](\\s+)?)$", 1, 3),
      Some(["dump overview"]))
  }

  function ArubaOs(): OsType {
    OsType("aruba_os", "aruba", "Aruba", "Aruba OS", Filter("^((.*)\\n)?(\\((.*?)\\) \\*?\\#)$", 1, 3),
      Some(["show version"]))
  }

  function PanOs(): OsType {
    OsType("pan_os", "paloalto", "Palo Alto", "PAN_OS",
      Filter("^((.*)\\n)?(.*?@(.*?)(\\((.*)\\))?[#>](\\s+)?)$", 1, 3),
      Some(["set cli scripting-mode on", "show system info"]))
  }

  /** A row as the dictionary the function returns for it. */
  function Row(o: OsType): seq<(string, Value)> {
    [("identifier", Str(o.identifier)), ("vendor", Str(o.vendor)), ("os_name", Str(o.osName)),
     ("prompt_filter", o.filter)]
    + if o.commands.Some? then [("commands", List(StrList(o.commands.value)))] else []
  }

  function Rows(os: seq<OsType>): (r: seq<(string, Value)>)
    ensures |r| == |os| && forall i :: 0 <= i < |os| ==> r[i] == (os[i].osType, Dict(Row(os[i])))
  {
    if |os| == 0 then [] else [(os[0].osType, Dict(Row(os[0])))] + Rows(os[1..])
  }

  /** `os_type_to_vendor()` */
  function OsTypeToVendor(): Value {
    Dict(Rows(OsTypes()))
  }

  /** The row for an OS type, if there is one. */
  function Lookup(osType: string): Option<OsType> {
    match KeyIndex(Rows(OsTypes()), osType)
    case None => None
    case Some(i) => Some(OsTypes()[i])
  }

  /** The OS types of the table's rows, in row order. */
  function OsTypeNames(): seq<string> {
    ["cisco_ios", "cisco_nxos", "arista_eos", "f5_tmos", "arb_os", "og_os", "rb_steelhead",
     "linux", "cgx_os", "aruba_os", "pan_os"]
  }

  /** No OS type appears twice in the table. */
  lemma {:induction false} TableUnique()
    ensures UniqueKeys(OsTypeToVendor().entries)
  {
    OsTypesNamed();
    NamesApart();
    RowsUnique(OsTypes(), OsTypeNames());
  }

  lemma {:induction false} RowsUnique(os: seq<OsType>, names: seq<string>)
    requires |os| == |names| && forall i :: 0 <= i < |os| ==> os[i].osType == names[i]
    requires forall i, j :: 0 <= i < j < |names| ==> names[i] != names[j]
    ensures UniqueKeys(Rows(os))
  {
  }

  lemma {:induction false} OsTypesNamed()
    ensures |OsTypes()| == |OsTypeNames()|
    ensures forall i :: 0 <= i < |OsTypes()| ==> OsTypes()[i].osType == OsTypeNames()[i]
  {
    forall i | 0 <= i < |OsTypes()| ensures OsTypes()[i].osType == OsTypeNames()[i] {
      OsTypeName(i);
    }
  }

  lemma {:induction false} OsTypeName(i: nat)
    requires i < |OsTypes()|
    ensures OsTypes()[i].osType == OsTypeNames()[i]
  {
    var os := OsTypes();
    if i == 0 { assert os[0].osType == "cisco_ios"; }
    else if i == 1 { assert os[1].osType == "cisco_nxos"; }
    else if i == 2 { assert os[2].osType == "arista_eos"; }
    else if i == 3 { assert os[3].osType == "f5_tmos"; }
    else if i == 4 { assert os[4].osType == "arb_os"; }
    else if i == 5 { assert os[5].osType == "og_os"; }
    else if i == 6 { assert os[6].osType == "rb_steelhead"; }
    else if i == 7 { assert os[7].osType == "linux"; }
    else if i == 8 { assert os[8].osType == "cgx_os"; }
    else if i == 9 { assert os[9].osType == "aruba_os"; }
    else { assert os[10].osType == "pan_os"; }
  }

  lemma {:induction false} NamesApart()
    ensures forall i, j :: 0 <= i < j < |OsTypeNames()| ==> OsTypeNames()[i] != OsTypeNames()[j]
  {
    var names := OsTypeNames();
    forall i, j | 0 <= i < j < |names| ensures names[i] != names[j] {
      assert |names[i]| != |names[j]| || names[i][0] != names[j][0];
    }
  }

  /** Looking an OS type of the table up finds its own row. */
  lemma {:induction false} LookupRow(i: nat)
    requires i < |OsTypes()|
    ensures Lookup(OsTypes()[i].osType) == Some(OsTypes()[i])
  {
    TableUnique();
    KeyIndexOf(Rows(OsTypes()), i);
  }

  /** The filter the identification string installs (line 50) is the
      table's Cisco IOS filter, and the prompt rules for Palo Alto, F5,
      bracketed Linux, generic and Aruba prompts install exactly the
      filters the table gives PAN-OS, TMOS, Linux, CloudGenix and Aruba OS. */
  lemma {:induction false} FiltersAgree(c: seq<(string, Value)>)
    ensures CiscoIos().filter == CiscoFilter()
    ensures BranchFilter(PaloAlto, c) == Ok(Some(PanOs().filter))
    ensures BranchFilter(F5, c) == Ok(Some(F5Tmos().filter))
    ensures BranchFilter(LinuxBracket, c) == Ok(Some(LinuxOs().filter))
    ensures BranchFilter(Generic, c) == Ok(Some(CgxOs().filter))
    ensures BranchFilter(Aruba, c) == Ok(Some(ArubaOs().filter))
  {
  }

  /** The table's Riverbed filter is not the one the Riverbed prompt rule
      installs: its raw string doubles each backslash, so it asks for a
      literal backslash where the rule asks for a line break or a space. */
  lemma {:induction false} RiverbedFiltersDiffer(c: seq<(string, Value)>)
    ensures BranchFilter(Riverbed, c) != Ok(Some(RbSteelhead().filter))
  {
    var ours := "^(.*?\\n)?(.*?\\s>\\s)$";
    var table := "^(.*?\\\\n)?(.*?\\\\s>\\\\s)$";
    assert ours[6] != table[6];
    assert Filter(ours, 1, 2).entries[0].1.s != Filter(table, 1, 2).entries[0].1.s;
  }

  lemma {:induction false} LookupName(i: nat)
    requires i < |OsTypes()|
    ensures Lookup(OsTypeNames()[i]) == Some(OsTypes()[i])
  {
    OsTypeName(i);
    LookupRow(i);
  }

  /** Some row of the table has vendor `v`. */
  predicate KnownVendor(v: string) {
    exists i :: 0 <= i < |OsTypes()| && OsTypes()[i].vendor == v
  }

  /** Some row of the table is handled by the analysis package `id`. */
  predicate KnownIdentifier(id: string) {
    exists i :: 0 <= i < |OsTypes()| && OsTypes()[i].identifier == id
  }

  /** Every vendor the prompt rules, the identification string or the
      version commands name is a vendor of the table. */
  lemma {:induction false} VendorsKnown()
    ensures forall b :: BranchVendor(b).Some? ==> KnownVendor(BranchVendor(b).value)
    ensures KnownVendor("Cisco") && KnownVendor("Arista")
  {
    var os := OsTypes();
    assert os[0].vendor == "Cisco" && os[2].vendor == "Arista" && os[3].vendor == "F5";
    assert os[4].vendor == "Netscout" && os[6].vendor == "Riverbed" && os[10].vendor == "Palo Alto";
  }

  /** Each vendor a prompt rule says the device might be names, lower-cased,
      the analysis package of some row. */
  lemma {:induction false} HintsKnown(b: Branch, h: string)
    requires h in MightBe(b)
    ensures KnownIdentifier(Lower(h))
  {
    var os := OsTypes();
    assert os[0].identifier == "cisco" && os[2].identifier == "arista" && os[7].identifier == "linux";
    assert os[8].identifier == "cloudgenix" && os[9].identifier == "aruba" && os[10].identifier == "paloalto";
    if h == "Linux" {
      assert Lower(h) == "linux";
    } else {
      assert h in ["cisco", "arista", "paloalto", "cloudgenix", "linux", "aruba"];
      LowerUnchanged(h);
    }
  }
}
