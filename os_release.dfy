/** The analysis of `cat /etc/os-release`: every `KEY="value"` line goes into
    `linux.os_release`, and the host's type, model, vendor, version and
    release type are then derived from it. */
module OsRelease {
  import opened Wrappers
  import opened Text
  import opened Py
  import opened Analyzer

  const Command := "cat /etc/os-release"

  /** What `cat` prints when the file is missing. */
  const Missing := "cat: can't open '/etc/os-release': No such file or directory"

  /** The vendors looked for in the pretty name, in the order tried. */
  const Vendors := ["Oracle", "Redhat", "Debian", "Ubuntu", "FreeBSD", "CentOS Linux"]

  predicate IsQuote(c: char) { c == '"' || c == '\'' }

  /** The pattern `^(.*?)=['"](.*)['"]$` can match a line with its key ending
      at `p`: an `=` there, a quote after it, and a different quote character
      position closing the line. */
  predicate Opens(line: string, p: int) {
    0 <= p && p + 2 < |line| && line[p] == '=' && IsQuote(line[p + 1]) && IsQuote(line[|line| - 1])
  }

  /** The smallest key end from `from` on: the lazy group takes the
      shortest key. */
  function FirstOpen(line: string, from: nat): (r: Option<nat>)
    ensures r.Some? ==> from <= r.value && Opens(line, r.value)
    ensures r.Some? ==> forall q :: from <= q < r.value ==> !Opens(line, q)
    ensures r.None? ==> forall q :: from <= q ==> !Opens(line, q)
    decreases |line| - from
  {
    if from + 2 >= |line| then None
    else if Opens(line, from) then Some(from)
    else FirstOpen(line, from + 1)
  }

  /** The key and the quoted value one line gives, if the pattern matches. */
  function Match(line: string): Option<(string, string)> {
    match FirstOpen(line, 0)
    case None => None
    case Some(p) => Some((line[..p], line[p + 2..|line| - 1]))
  }

  /** The assignment a line makes to `os_release`: the lower-cased key and
      the stripped value. */
  function Entry(line: string): Result<Option<(string, Value)>> {
    match Match(line)
    case None => Ok(None)
    case Some((k, v)) => Ok(Some((Lower(k), Str(Strip(v)))))
  }

  /** One match stored: `linux` and `linux.os_release` are created when
      missing, and each must take the assignment. */
  function Store(c: seq<(string, Value)>, key: string, value: string): Result<seq<(string, Value)>> {
    SetIn(c, "linux", "os_release", Lower(key), Str(Strip(value)))
  }

  /** Every matching line stored in turn. */
  function Releases(c: seq<(string, Value)>, lines: seq<string>): Result<seq<(string, Value)>>
    decreases |lines|
  {
    if |lines| == 0 then Ok(c)
    else
      var c' :- Releases(c, lines[..|lines| - 1]);
      match Match(lines[|lines| - 1])
      case None => Ok(c')
      case Some((k, v)) => Store(c', k, v)
  }

  /** The first vendor whose lower-cased name occurs in `pretty`. */
  function FirstVendor(pretty: string, vendors: seq<string>): Option<string>
    decreases |vendors|
  {
    if |vendors| == 0 then None
    else if Contains(pretty, Lower(vendors[0])) then Some(vendors[0])
    else FirstVendor(pretty, vendors[1..])
  }

  /** A vendor is found exactly when one is named, and the one found is
      the earliest named. */
  lemma {:induction false} FirstVendorSpec(pretty: string, vendors: seq<string>)
    ensures var r := FirstVendor(pretty, vendors);
      && (r.Some? <==> exists i :: 0 <= i < |vendors| && Contains(pretty, Lower(vendors[i])))
      && (r.Some? ==> exists i :: (0 <= i < |vendors| && vendors[i] == r.value && Contains(pretty, Lower(r.value))
        && forall j :: 0 <= j < i ==> !Contains(pretty, Lower(vendors[j]))))
    decreases |vendors|
  {
    if |vendors| > 0 && !Contains(pretty, Lower(vendors[0])) {
      var rest := vendors[1..];
      FirstVendorSpec(pretty, rest);
      assert forall i :: 0 < i < |vendors| ==> vendors[i] == rest[i - 1];
      var r := FirstVendor(pretty, rest);
      if r.Some? {
        var i :| (0 <= i < |rest| && rest[i] == r.value && Contains(pretty, Lower(r.value))
          && forall j :: 0 <= j < i ==> !Contains(pretty, Lower(rest[j])));
        assert vendors[i + 1] == r.value;
      } else {
        forall i | 0 < i < |vendors| ensures !Contains(pretty, Lower(vendors[i])) {
          assert vendors[i] == rest[i - 1];
        }
      }
    }
  }

  /** `host_model` from the pretty name, and `host_vendor` from the first
      vendor it names; `.lower()` needs the pretty name to be text. */
  function Pretty(c: seq<(string, Value)>, release: Value): Result<seq<(string, Value)>> {
    var has :- In(Str("pretty_name"), release);
    if !has then Ok(c)
    else
      var pretty :- Index(release, "pretty_name");
      var c1 := Put(c, "host_model", pretty);
      if !pretty.Str? then Raised("AttributeError")
      else
        match FirstVendor(Lower(pretty.s), Vendors)
        case None => Ok(c1)
        case Some(v) => Ok(Put(c1, "host_vendor", Str(v)))
  }

  /** `c[to] = release[from]` when `from in release`. */
  function Copied(c: seq<(string, Value)>, release: Value, from: string, to: string): Result<seq<(string, Value)>> {
    var has :- In(Str(from), release);
    if !has then Ok(c)
    else
      var v :- Index(release, from);
      Ok(Put(c, to, v))
  }

  /** `os_type` set to `linux` unless it already holds something. */
  function OsTyped(c: seq<(string, Value)>): seq<(string, Value)> {
    if Get(c, "os_type").Some? && !Get(c, "os_type").value.Null? then c else Put(c, "os_type", Str("linux"))
  }

  /** `host_software_type` set to `Linux` unless present. */
  function SoftwareTyped(c: seq<(string, Value)>): seq<(string, Value)> {
    if Get(c, "host_software_type").Some? then c else Put(c, "host_software_type", Str("Linux"))
  }

  /** The fields read from the `os_release` table. */
  function Detailed(c: seq<(string, Value)>, linux: Value): Result<seq<(string, Value)>> {
    var release :- Index(linux, "os_release");
    var c3 :- Pretty(c, release);
    var c4 :- Copied(c3, release, "version", "host_software_version");
    Copied(c4, release, "variant", "host_software_release_type")
  }

  /** The host fields derived once the lines are stored. */
  function Summary(c: seq<(string, Value)>): Result<seq<(string, Value)>> {
    match Get(c, "linux")
    case None => Ok(c)
    case Some(linux) =>
      var has :- In(Str("os_release"), linux);
      if !has then Ok(OsTyped(c)) else Detailed(SoftwareTyped(OsTyped(c)), linux)
  }

  /** The collection the analysis leaves, or the exception it raises. */
  function OsReleaseInfo(text: string, c: seq<(string, Value)>): Result<seq<(string, Value)>> {
    var c0 := if text == Missing then Put(c, "_error", Str(Missing)) else c;
    var c1 :- Releases(c0, Split(text, "\n"));
    Summary(c1)
  }

  /** What `analyze` returns, or the exception it raises. */
  function Analysis(output: Value, collection: Value): Result<Outcome> {
    match Open(output, collection, Command)
    case Refuse(m) => Ok(Refused(m))
    case Begin(text, c) =>
      match OsReleaseInfo(text, c)
      case Ok(c') => Ok(Analysed(true, c'))
      case Raised(e) => Raised(e)
  }

  /** The loop over the matches. */
  method StoreAll(c: seq<(string, Value)>, lines: seq<string>) returns (r: Result<seq<(string, Value)>>)
    ensures r == Releases(c, lines)
  {
    var cur := c;
    for i := 0 to |lines|
      invariant Releases(c, lines[..i]) == Ok(cur)
    {
      ReleasesSnoc(c, lines, i, cur);
      match Match(lines[i]) {
        case None =>
        case Some(kv) =>
          var next := Store(cur, kv.0, kv.1);
          if next.Raised? {
            ReleasesPrefixRaises(c, lines, i + 1);
            return next;
          }
          cur := next.value;
      }
    }
    assert lines[..|lines|] == lines;
    return Ok(cur);
  }

  /** The loop over the vendors, which stops at the first one named. */
  method FindVendor(pretty: string) returns (r: Option<string>)
    ensures r == FirstVendor(pretty, Vendors)
  {
    var i := 0;
    while i < |Vendors|
      invariant 0 <= i <= |Vendors|
      invariant FirstVendor(pretty, Vendors[i..]) == FirstVendor(pretty, Vendors)
    {
      assert Vendors[i..][1..] == Vendors[i + 1..];
      if Contains(pretty, Lower(Vendors[i])) {
        return Some(Vendors[i]);
      }
      i := i + 1;
    }
    return None;
  }

  /** `host_model` and `host_vendor` from the pretty name. */
  method Describe(c: seq<(string, Value)>, release: Value) returns (r: Result<seq<(string, Value)>>)
    ensures r == Pretty(c, release)
  {
    var has := In(Str("pretty_name"), release);
    if has.Raised? {
      return Raised(has.exception);
    }
    if !has.value {
      return Ok(c);
    }
    var pretty := Index(release, "pretty_name");
    if pretty.Raised? {
      return Raised(pretty.exception);
    }
    var c1 := Put(c, "host_model", pretty.value);
    if !pretty.value.Str? {
      return Raised("AttributeError");
    }
    var vendor := FindVendor(Lower(pretty.value.s));
    if vendor.Some? {
      return Ok(Put(c1, "host_vendor", Str(vendor.value)));
    }
    return Ok(c1);
  }

  /** The derivation of the host fields. */
  method Summarise(c: seq<(string, Value)>) returns (r: Result<seq<(string, Value)>>)
    ensures r == Summary(c)
  {
    if Get(c, "linux").None? {
      return Ok(c);
    }
    var linux := Get(c, "linux").value;
    var c1 := c;
    if Get(c, "os_type").None? || Get(c, "os_type").value.Null? {
      c1 := Put(c, "os_type", Str("linux"));
    }
    var has := In(Str("os_release"), linux);
    if has.Raised? {
      return Raised(has.exception);
    }
    if !has.value {
      return Ok(c1);
    }
    var c2 := c1;
    if Get(c1, "host_software_type").None? {
      c2 := Put(c1, "host_software_type", Str("Linux"));
    }
    var release := Index(linux, "os_release");
    if release.Raised? {
      return Raised(release.exception);
    }
    var c3 := Describe(c2, release.value);
    if c3.Raised? {
      return c3;
    }
    var c4 := Copied(c3.value, release.value, "version", "host_software_version");
    if c4.Raised? {
      return c4;
    }
    r := Copied(c4.value, release.value, "variant", "host_software_release_type");
  }

  /** `analyze`: the guard, the missing-file note, the matches stored, then
      the host fields. */
  method Analyze(output: Value, collection: Value) returns (r: Result<Outcome>)
    ensures r == Analysis(output, collection)
  {
    match Open(output, collection, Command) {
      case Refuse(m) =>
        return Ok(Refused(m));
      case Begin(text, c) =>
        var c0 := c;
        if text == Missing {
          c0 := Put(c, "_error", Str(Missing));
        }
        var stored := StoreAll(c0, Split(text, "\n"));
        if stored.Raised? {
          return Raised(stored.exception);
        }
        var summary := Summarise(stored.value);
        if summary.Raised? {
          return Raised(summary.exception);
        }
        return Ok(Analysed(true, summary.value));
    }
  }

  /** The first match whose storing raises decides the exception. */
  lemma {:induction false} ReleasesPrefixRaises(c: seq<(string, Value)>, lines: seq<string>, n: nat)
    requires n <= |lines| && Releases(c, lines[..n]).Raised?
    ensures Releases(c, lines) == Releases(c, lines[..n])
    decreases |lines|
  {
    if n < |lines| {
      var init := lines[..|lines| - 1];
      assert init[..n] == lines[..n];
      ReleasesPrefixRaises(c, init, n);
      ReleasesRaisedStep(c, lines);
    } else {
      assert lines[..n] == lines;
    }
  }

  /** One more line stores its match, if any, into what the lines before
      it left. */
  lemma {:induction false} ReleasesSnoc(c: seq<(string, Value)>, lines: seq<string>, i: nat, cur: seq<(string, Value)>)
    requires i < |lines| && Releases(c, lines[..i]) == Ok(cur)
    ensures Releases(c, lines[..i + 1]) ==
      match Match(lines[i])
      case None => Ok(cur)
      case Some((k, v)) => Store(cur, k, v)
  {
    assert lines[..i + 1][..i] == lines[..i];
  }

  /** A raised exception passes through one more line. */
  lemma {:induction false} ReleasesRaisedStep(c: seq<(string, Value)>, lines: seq<string>)
    requires |lines| > 0 && Releases(c, lines[..|lines| - 1]).Raised?
    ensures Releases(c, lines) == Releases(c, lines[..|lines| - 1])
  {
  }

  /** A line `KEY="value"` whose key has no `=` gives back that key and
      that value, whichever quote characters open and close it. */
  lemma {:induction false} MatchLine(key: string, value: string, open: char, close: char)
    requires forall i :: 0 <= i < |key| ==> key[i] != '='
    requires IsQuote(open) && IsQuote(close)
    ensures Match(key + "=" + [open] + value + [close]) == Some((key, value))
  {
    var line := key + "=" + [open] + value + [close];
    forall q | 0 <= q < |key| ensures !Opens(line, q) {
      assert line[q] == key[q];
    }
    assert Opens(line, |key|);
    assert line[..|key|] == key;
    assert line[|key| + 2..|line| - 1] == value;
  }

  /** The collection has no `os_release` table yet: `linux` is missing or
      is a dictionary without one. */
  predicate Fresh(c: seq<(string, Value)>) {
    match Get(c, "linux")
    case None => true
    case Some(linux) => linux.Dict? && !HasKey(linux.entries, "os_release")
  }

  /** The nested dictionary `linux.os_release` set to `table`. */
  function Nested(c: seq<(string, Value)>, table: seq<(string, Value)>): seq<(string, Value)> {
    Put(c, "linux", Dict(Put(EntriesOf(c, "linux"), "os_release", Dict(table))))
  }

  /** The first match creates the nested tables and holds one entry. */
  lemma {:induction false} StoreFresh(c: seq<(string, Value)>, key: string, value: string)
    requires Fresh(c)
    ensures Store(c, key, value) == Ok(Nested(c, Put([], Lower(key), Str(Strip(value)))))
  {
    SetInNew(c, "linux", "os_release", Lower(key), Str(Strip(value)));
  }

  /** A later match adds its entry to the nested table. */
  lemma {:induction false} StoreNested(c: seq<(string, Value)>, table: seq<(string, Value)>, key: string, value: string)
    ensures Store(Nested(c, table), key, value) == Ok(Nested(c, Put(table, Lower(key), Str(Strip(value)))))
  {
    var l := EntriesOf(c, "linux");
    var l1 := Put(l, "os_release", Dict(table));
    var release1 := Dict(Put(table, Lower(key), Str(Strip(value))));
    SetInOnto(Nested(c, table), "linux", l1, "os_release", table, Lower(key), Str(Strip(value)));
    PutTwice(l, "os_release", Dict(table), release1);
    PutTwice(c, "linux", Dict(l1), Dict(Put(l, "os_release", release1)));
  }

  /** The matches of the lines, folded: stored in a fresh collection they
      make the nested table the assignments fill, and nothing at all when
      no line matches. */
  lemma {:induction false} ReleasesFresh(c: seq<(string, Value)>, lines: seq<string>)
    requires Fresh(c)
    ensures Gather(lines, Entry).Ok?
    ensures var ws := Gather(lines, Entry).value;
      Releases(c, lines) == Ok(if |ws| == 0 then c else Nested(c, PutAll([], ws)))
    decreases |lines|
  {
    if |lines| > 0 {
      var n := |lines| - 1;
      var init := lines[..n];
      ReleasesFresh(c, init);
      var ws := Gather(init, Entry).value;
      var cur := if |ws| == 0 then c else Nested(c, PutAll([], ws));
      assert lines[..n + 1] == lines;
      ReleasesSnoc(c, lines, n, cur);
      GatherSnoc(lines);
      match Match(lines[n]) {
        case None =>
        case Some((k, v)) =>
          StoreFolded(c, ws, k, v);
      }
    }
  }

  /** The assignments of one more line are those before it and its own. */
  lemma {:induction false} GatherSnoc(lines: seq<string>)
    requires |lines| > 0 && Gather(lines[..|lines| - 1], Entry).Ok?
    ensures Gather(lines, Entry) == Ok(
      var ws := Gather(lines[..|lines| - 1], Entry).value;
      match Match(lines[|lines| - 1])
      case None => ws
      case Some((k, v)) => ws + [(Lower(k), Str(Strip(v)))])
  {
  }

  /** Storing one more match in the folded table folds it in too. */
  lemma {:induction false} StoreFolded(c: seq<(string, Value)>, ws: seq<(string, Value)>, k: string, v: string)
    requires Fresh(c)
    ensures var w := (Lower(k), Str(Strip(v)));
      Store(if |ws| == 0 then c else Nested(c, PutAll([], ws)), k, v) == Ok(Nested(c, PutAll([], ws + [w])))
  {
    var w := (Lower(k), Str(Strip(v)));
    assert (ws + [w])[..|ws|] == ws;
    if |ws| == 0 {
      StoreFresh(c, k, v);
    } else {
      StoreNested(c, PutAll([], ws), k, v);
    }
  }

  /** What the loop leaves in a collection without an `os_release` table:
      the table holds, for each key, the value of the last line assigning
      it, and a text without matches leaves the collection alone. */
  lemma {:induction false} ReleasesTable(c: seq<(string, Value)>, lines: seq<string>)
    requires Fresh(c)
    ensures (forall i :: 0 <= i < |lines| ==> Match(lines[i]).None?) ==> Releases(c, lines) == Ok(c)
    ensures (exists i :: 0 <= i < |lines| && Match(lines[i]).Some?) ==>
      exists m :: Releases(c, lines) == Ok(Nested(c, m)) && forall k :: Get(m, k) == LastEntry(lines, Entry, k)
  {
    ReleasesFresh(c, lines);
    GatherEmpty(lines, Entry);
    var ws := Gather(lines, Entry).value;
    assert forall i :: 0 <= i < |lines| ==> (Entry(lines[i]) == Ok(None) <==> Match(lines[i]).None?);
    forall k ensures Get(PutAll([], ws), k) == LastEntry(lines, Entry, k) {
      GatheredLookup([], lines, Entry, k);
    }
  }

  /** The vendor the pretty name names, if any. */
  function VendorOf(pretty: Option<Value>): Option<Value> {
    match pretty
    case Some(Str(p)) =>
      (match FirstVendor(Lower(p), Vendors)
       case Some(v) => Some(Str(v))
       case None => None)
    case _ => None
  }

  /** `d[k]` after an assignment only if `v` is present, otherwise what
      it was. */
  function Override(v: Option<Value>, before: Option<Value>): Option<Value> {
    if v.Some? then v else before
  }

  /** Every key outside `ks` holds in `b` what it holds in `a`. */
  ghost predicate Keeps(a: seq<(string, Value)>, b: seq<(string, Value)>, ks: set<string>) {
    forall k {:trigger Get(b, k)} :: k !in ks ==> Get(b, k) == Get(a, k)
  }

  lemma {:induction false} OsTypedFields(c: seq<(string, Value)>)
    ensures Get(OsTyped(c), "os_type") ==
      (if Get(c, "os_type").Some? && !Get(c, "os_type").value.Null? then Get(c, "os_type") else Some(Str("linux")))
    ensures Keeps(c, OsTyped(c), {"os_type"})
  {
  }

  lemma {:induction false} SoftwareTypedFields(c: seq<(string, Value)>)
    ensures Get(SoftwareTyped(c), "host_software_type") == Override(Get(c, "host_software_type"), Some(Str("Linux")))
    ensures Keeps(c, SoftwareTyped(c), {"host_software_type"})
  {
  }

  lemma {:induction false} PrettyFields(c: seq<(string, Value)>, table: seq<(string, Value)>)
    requires Get(table, "pretty_name").None? || Get(table, "pretty_name").value.Str?
    ensures Pretty(c, Dict(table)).Ok?
    ensures var r := Pretty(c, Dict(table)).value;
      && Get(r, "host_model") == Override(Get(table, "pretty_name"), Get(c, "host_model"))
      && Get(r, "host_vendor") == Override(VendorOf(Get(table, "pretty_name")), Get(c, "host_vendor"))
      && Keeps(c, r, {"host_model", "host_vendor"})
  {
    match Get(table, "pretty_name") {
      case None =>
        PrettyAbsent(c, table);
      case Some(p) =>
        PrettyPresent(c, table, p.s);
        var c1 := Put(c, "host_model", p);
        PutKeeps(c, "host_model", p);
        VendorOfText(p.s);
        match FirstVendor(Lower(p.s), Vendors) {
          case None =>
            assert Get(c1, "host_vendor") == Get(c, "host_vendor");
          case Some(v) =>
            PutKeeps(c1, "host_vendor", Str(v));
            KeepsTrans(c, c1, Put(c1, "host_vendor", Str(v)), {"host_model"}, {"host_vendor"});
            assert {"host_model"} + {"host_vendor"} == {"host_model", "host_vendor"};
        }
    }
  }

  lemma {:induction false} PrettyAbsent(c: seq<(string, Value)>, table: seq<(string, Value)>)
    requires Get(table, "pretty_name").None?
    ensures Pretty(c, Dict(table)) == Ok(c)
  {
    assert In(Str("pretty_name"), Dict(table)) == Ok(false);
  }

  lemma {:induction false} PrettyPresent(c: seq<(string, Value)>, table: seq<(string, Value)>, p: string)
    requires Get(table, "pretty_name") == Some(Str(p))
    ensures Pretty(c, Dict(table)) == Ok(
      var c1 := Put(c, "host_model", Str(p));
      match FirstVendor(Lower(p), Vendors)
      case None => c1
      case Some(v) => Put(c1, "host_vendor", Str(v)))
  {
    assert In(Str("pretty_name"), Dict(table)) == Ok(true);
  }

  lemma {:induction false} VendorOfText(p: string)
    ensures VendorOf(Some(Str(p))) == match FirstVendor(Lower(p), Vendors) case Some(v) => Some(Str(v)) case None => None
  {
  }

  lemma {:induction false} PutKeeps(d: seq<(string, Value)>, k: string, v: Value)
    ensures Keeps(d, Put(d, k, v), {k})
  {
  }

  lemma {:induction false} CopiedField(c: seq<(string, Value)>, table: seq<(string, Value)>, from: string, to: string)
    ensures Copied(c, Dict(table), from, to).Ok?
    ensures Get(Copied(c, Dict(table), from, to).value, to) == Override(Get(table, from), Get(c, to))
    ensures Keeps(c, Copied(c, Dict(table), from, to).value, {to})
  {
    assert In(Str(from), Dict(table)) == Ok(Get(table, from).Some?);
  }

  lemma {:induction false} DetailedFields(c: seq<(string, Value)>, l: seq<(string, Value)>, table: seq<(string, Value)>)
    requires Get(l, "os_release") == Some(Dict(table))
    requires Get(table, "pretty_name").None? || Get(table, "pretty_name").value.Str?
    ensures Detailed(c, Dict(l)).Ok?
    ensures var r := Detailed(c, Dict(l)).value;
      && Get(r, "host_model") == Override(Get(table, "pretty_name"), Get(c, "host_model"))
      && Get(r, "host_vendor") == Override(VendorOf(Get(table, "pretty_name")), Get(c, "host_vendor"))
      && Get(r, "host_software_version") == Override(Get(table, "version"), Get(c, "host_software_version"))
      && Get(r, "host_software_release_type") == Override(Get(table, "variant"), Get(c, "host_software_release_type"))
      && Keeps(c, r, DetailKeys)
  {
    assert Index(Dict(l), "os_release") == Ok(Dict(table));
    PrettyFields(c, table);
    var c3 := Pretty(c, Dict(table)).value;
    CopiedField(c3, table, "version", "host_software_version");
    var c4 := Copied(c3, Dict(table), "version", "host_software_version").value;
    CopiedField(c4, table, "variant", "host_software_release_type");
    var r := Copied(c4, Dict(table), "variant", "host_software_release_type").value;
    KeepsTrans(c, c3, c4, {"host_model", "host_vendor"}, {"host_software_version"});
    KeepsTrans(c, c4, r, {"host_model", "host_vendor"} + {"host_software_version"}, {"host_software_release_type"});
  }

  /** Once an `os_release` table is in place, the host fields come from it:
      `os_type` becomes `linux` unless it holds something, the software
      type `Linux` unless present, and the model, vendor, version and
      release type follow the table's `pretty_name`, `version` and
      `variant`; every other key keeps its value. */
  lemma {:induction false} SummaryFields(c: seq<(string, Value)>, l: seq<(string, Value)>, table: seq<(string, Value)>)
    requires Get(c, "linux") == Some(Dict(l)) && Get(l, "os_release") == Some(Dict(table))
    requires Get(table, "pretty_name").None? || Get(table, "pretty_name").value.Str?
    ensures Summary(c).Ok?
    ensures var r := Summary(c).value;
      && Get(r, "os_type") == (if Get(c, "os_type").Some? && !Get(c, "os_type").value.Null? then Get(c, "os_type") else Some(Str("linux")))
      && Get(r, "host_software_type") == Override(Get(c, "host_software_type"), Some(Str("Linux")))
      && Get(r, "host_model") == Override(Get(table, "pretty_name"), Get(c, "host_model"))
      && Get(r, "host_vendor") == Override(VendorOf(Get(table, "pretty_name")), Get(c, "host_vendor"))
      && Get(r, "host_software_version") == Override(Get(table, "version"), Get(c, "host_software_version"))
      && Get(r, "host_software_release_type") == Override(Get(table, "variant"), Get(c, "host_software_release_type"))
      && Keeps(c, r, HostKeys)
  {
    var c1 := OsTyped(c);
    var c2 := SoftwareTyped(c1);
    OsTypedFields(c);
    SoftwareTypedFields(c1);
    DetailedFields(c2, l, table);
    SummaryUnfold(c, l);
    var r := Detailed(c2, Dict(l)).value;
    KeepsTrans(c, c1, c2, {"os_type"}, {"host_software_type"});
    KeepsTrans(c, c2, r, {"os_type"} + {"host_software_type"}, DetailKeys);
    TypeKeysApart();
    assert Get(r, "os_type") == Get(c2, "os_type") == Get(c1, "os_type");
    assert Get(r, "host_software_type") == Get(c2, "host_software_type");
  }

  lemma {:induction false} SummaryUnfold(c: seq<(string, Value)>, l: seq<(string, Value)>)
    requires Get(c, "linux") == Some(Dict(l)) && HasKey(l, "os_release")
    ensures Summary(c) == Detailed(SoftwareTyped(OsTyped(c)), Dict(l))
  {
    assert In(Str("os_release"), Dict(l)) == Ok(true);
  }

  /** The keys read from the `os_release` table. */
  const DetailKeys := {"host_model", "host_vendor"} + {"host_software_version"} + {"host_software_release_type"}

  /** The keys the derivation may set. */
  const HostKeys := {"os_type"} + {"host_software_type"} + DetailKeys

  lemma {:induction false} TypeKeysApart()
    ensures "os_type" !in DetailKeys && "host_software_type" !in DetailKeys && "os_type" != "host_software_type"
  {
  }

  lemma {:induction false} KeepsTrans(a: seq<(string, Value)>, b: seq<(string, Value)>, c: seq<(string, Value)>, s: set<string>, t: set<string>)
    requires Keeps(a, b, s) && Keeps(b, c, t)
    ensures Keeps(a, c, s + t)
  {
  }

  /** A pretty name that is not text stops the derivation: `lower` is
      missing on it. */
  lemma {:induction false} SummaryAttribute(c: seq<(string, Value)>, l: seq<(string, Value)>, table: seq<(string, Value)>)
    requires Get(c, "linux") == Some(Dict(l)) && Get(l, "os_release") == Some(Dict(table))
    requires Get(table, "pretty_name").Some? && !Get(table, "pretty_name").value.Str?
    ensures Summary(c) == Raised("AttributeError")
  {
    SummaryUnfold(c, l);
    DetailedAttribute(SoftwareTyped(OsTyped(c)), l, table);
  }

  lemma {:induction false} DetailedAttribute(c: seq<(string, Value)>, l: seq<(string, Value)>, table: seq<(string, Value)>)
    requires Get(l, "os_release") == Some(Dict(table))
    requires Get(table, "pretty_name").Some? && !Get(table, "pretty_name").value.Str?
    ensures Detailed(c, Dict(l)) == Raised("AttributeError")
  {
    PrettyAttribute(c, table);
  }

  lemma {:induction false} PrettyAttribute(c: seq<(string, Value)>, table: seq<(string, Value)>)
    requires Get(table, "pretty_name").Some? && !Get(table, "pretty_name").value.Str?
    ensures Pretty(c, Dict(table)) == Raised("AttributeError")
  {
    assert In(Str("pretty_name"), Dict(table)) == Ok(true);
  }

  /** Without an `os_release` table only `os_type` is derived, and without
      `linux` nothing is. */
  lemma {:induction false} SummaryWithoutTable(c: seq<(string, Value)>)
    requires Get(c, "linux").None? || (Get(c, "linux").value.Dict? && !HasKey(Get(c, "linux").value.entries, "os_release"))
    ensures Summary(c).Ok?
    ensures Get(c, "linux").None? ==> Summary(c).value == c
    ensures Get(c, "linux").Some? ==>
      Get(Summary(c).value, "os_type") ==
        (if Get(c, "os_type").Some? && !Get(c, "os_type").value.Null? then Get(c, "os_type") else Some(Str("linux")))
      && Keeps(c, Summary(c).value, {"os_type"})
  {
    if Get(c, "linux").Some? {
      var linux := Get(c, "linux").value;
      assert In(Str("os_release"), linux) == Ok(false);
      assert Summary(c) == Ok(OsTyped(c));
      OsTypedFields(c);
    }
  }
}
