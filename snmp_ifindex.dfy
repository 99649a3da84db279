/** The analysis of a Cisco device's `show snmp mib ifmib ifindex`: the
    device is marked as Cisco, an error reply is recorded and stops the
    analysis, and every `name: Ifindex = N` line stores N as the SNMP
    interface index of the named interface. */
module SnmpIfIndex {
  import opened Wrappers
  import opened Text
  import opened Py
  import opened Analyzer

  const Command := "show snmp mib ifmib ifindex"

  /** What separates the interface name from its index. */
  const Marker := ": Ifindex = "

  /** The key each interface stores its index under. */
  const OidKey := "snmp_interface_oid"

  /** The pattern the session later uses to find the host name in a prompt. */
  const NamePattern := "^(.*?)[>#]"

  /** An error reply from the device starts at `i`. */
  predicate ErrorAt(s: string, i: int) {
    OccursAt(s, "% Invalid", i) || OccursAt(s, "% Ambiguous", i)
  }

  /** Where the search for an error reply first succeeds. */
  function FirstError(s: string, from: nat): (r: Option<nat>)
    ensures r.Some? ==> from <= r.value && ErrorAt(s, r.value)
    ensures r.Some? ==> forall q :: from <= q < r.value ==> !ErrorAt(s, q)
    ensures r.None? ==> forall q :: from <= q ==> !ErrorAt(s, q)
    decreases |s| - from
  {
    if from + 9 > |s| then None
    else if ErrorAt(s, from) then Some(from)
    else FirstError(s, from + 1)
  }

  /** Where the line holding index `i` ends. */
  function LineEnd(s: string, i: nat): (r: nat)
    requires i <= |s|
    ensures i <= r <= |s| && NoNewline(s[i..r])
    ensures r < |s| ==> s[r] == '\n'
  {
    match Find(s, "\n", i)
    case None =>
      forall j | i <= j < |s| ensures s[j] != '\n' {
        assert !OccursAt(s, "\n", j);
        assert s[j..j + 1] == [s[j]];
      }
      |s|
    case Some(j) =>
      forall q | i <= q < j ensures s[q] != '\n' {
        assert !OccursAt(s, "\n", q);
        assert s[q..q + 1] == [s[q]];
      }
      assert s[j..j + 1] == "\n";
      j
  }

  /** The text starts as an error reply does. */
  predicate ErrorReply(e: string) {
    StartsWith(e, "% Invalid") || StartsWith(e, "% Ambiguous")
  }

  /** `t` stands at `i` in `s` and runs to the end of that line. */
  predicate WholeLineAt(s: string, t: string, i: int) {
    OccursAt(s, t, i) && (i + |t| == |s| || s[i + |t|] == '\n')
  }

  /** The first group of `(% (Invalid|Ambiguous).*)`: the error reply up to
      the end of its line, when the output holds one. */
  function ErrorText(s: string): (r: Option<string>)
    ensures r.None? <==> !Contains(s, "% Invalid") && !Contains(s, "% Ambiguous")
    ensures r.Some? ==> ErrorReply(r.value)
    ensures r.Some? ==> NoNewline(r.value) && exists i :: WholeLineAt(s, r.value, i)
  {
    match FirstError(s, 0)
    case None =>
      forall j | 0 <= j ensures !OccursAt(s, "% Invalid", j) && !OccursAt(s, "% Ambiguous", j) {
        assert !ErrorAt(s, j);
      }
      None
    case Some(i) =>
      var e := LineEnd(s, i);
      var r := s[i..e];
      assert ErrorAt(s, i);
      assert Contains(s, "% Invalid") || Contains(s, "% Ambiguous") by {
        if OccursAt(s, "% Invalid", i) { ContainsAt(s, "% Invalid", i); }
        else { ContainsAt(s, "% Ambiguous", i); }
      }
      ErrorLine(s, i, e);
      assert s[i..i + |r|] == r;
      assert WholeLineAt(s, r, i);
      Some(r)
  }

  lemma {:induction false} ErrorLine(s: string, i: nat, e: nat)
    requires ErrorAt(s, i) && i <= e <= |s| && NoNewline(s[i..e])
    requires e < |s| ==> s[e] == '\n'
    ensures StartsWith(s[i..e], "% Invalid") || StartsWith(s[i..e], "% Ambiguous")
  {
    if OccursAt(s, "% Invalid", i) {
      LongEnough(s, i, e, "% Invalid");
    } else {
      LongEnough(s, i, e, "% Ambiguous");
    }
  }

  /** A newline-free marker that starts a line at `i` is inside the line. */
  lemma {:induction false} LongEnough(s: string, i: nat, e: nat, t: string)
    requires OccursAt(s, t, i) && NoNewline(t) && i <= e <= |s| && NoNewline(s[i..e])
    requires e < |s| ==> s[e] == '\n'
    ensures StartsWith(s[i..e], t)
  {
    if e < i + |t| {
      assert false;
    }
    assert s[i..e][..|t|] == s[i..i + |t|];
  }

  /** The pattern `^(.*?): Ifindex = (\d+)$` can end its name at `p`. */
  predicate IndexAt(line: string, p: int) {
    OccursAt(line, Marker, p) && p + |Marker| < |line| && AllDigits(line[p + |Marker|..])
  }

  /** The smallest name end from `from` on. */
  function FirstIndex(line: string, from: nat): (r: Option<nat>)
    ensures r.Some? ==> from <= r.value && IndexAt(line, r.value)
    ensures r.Some? ==> forall q :: from <= q < r.value ==> !IndexAt(line, q)
    ensures r.None? ==> forall q :: from <= q ==> !IndexAt(line, q)
    decreases |line| - from
  {
    if from + |Marker| >= |line| then None
    else if IndexAt(line, from) then Some(from)
    else FirstIndex(line, from + 1)
  }

  /** The interface name and its index, when the line matches. */
  function Match(line: string): Option<(string, string)> {
    match FirstIndex(line, 0)
    case None => None
    case Some(p) => Some((line[..p], line[p + |Marker|..]))
  }

  /** One matching line stored: `interfaces` and the interface's own
      dictionary are created when missing. */
  function Store(c: seq<(string, Value)>, name: string, index: string): Result<seq<(string, Value)>> {
    SetIn(c, "interfaces", name, OidKey, Str(index))
  }

  /** The interface a line describes, unless its name mentions being
      controlled. */
  function Described(line: string): Option<(string, string)> {
    match Match(line)
    case None => None
    case Some((name, index)) => if Contains(name, "ontrolled") then None else Some((name, index))
  }

  /** Every described interface stored in turn. */
  function Interfaces(c: seq<(string, Value)>, lines: seq<string>): Result<seq<(string, Value)>>
    decreases |lines|
  {
    if |lines| == 0 then Ok(c)
    else
      var c' :- Interfaces(c, lines[..|lines| - 1]);
      Step(c', lines[|lines| - 1])
  }

  /** One line's effect on the collection. */
  function Step(c: seq<(string, Value)>, line: string): Result<seq<(string, Value)>> {
    match Described(line)
    case None => Ok(c)
    case Some((name, index)) => Store(c, name, index)
  }

  /** The marks every answer leaves: the vendor, and the host name pattern. */
  function Stamped(c: seq<(string, Value)>): seq<(string, Value)> {
    Put(Put(c, "host_vendor", Str("Cisco")), "_host_name_extraction", Str(NamePattern))
  }

  /** What `analyze` returns, or the exception it raises. */
  function Analysis(output: Value, collection: Value): Result<Outcome> {
    match Open(output, collection, Command)
    case Refuse(m) => Ok(Refused(m))
    case Begin(text, c) =>
      var c1 := Stamped(c);
      match ErrorText(text)
      case Some(e) => Ok(Analysed(false, Put(c1, "_error", Str(e))))
      case None =>
        match Interfaces(c1, Split(text, "\n"))
        case Ok(c2) => Ok(Analysed(true, c2))
        case Raised(x) => Raised(x)
  }

  /** The loop over the lines. */
  method StoreAll(c: seq<(string, Value)>, lines: seq<string>) returns (r: Result<seq<(string, Value)>>)
    ensures r == Interfaces(c, lines)
  {
    var cur := c;
    for i := 0 to |lines|
      invariant Interfaces(c, lines[..i]) == Ok(cur)
    {
      assert lines[..i + 1][..i] == lines[..i];
      var next := Step(cur, lines[i]);
      if next.Raised? {
        InterfacesPrefixRaises(c, lines, i + 1);
        return next;
      }
      cur := next.value;
    }
    assert lines[..|lines|] == lines;
    return Ok(cur);
  }

  /** `analyze`: the guard, the marks, the error check, then the lines. */
  method Analyze(output: Value, collection: Value) returns (r: Result<Outcome>)
    ensures r == Analysis(output, collection)
  {
    match Open(output, collection, Command) {
      case Refuse(m) =>
        return Ok(Refused(m));
      case Begin(text, c) =>
        var c1 := Put(c, "host_vendor", Str("Cisco"));
        c1 := Put(c1, "_host_name_extraction", Str(NamePattern));
        var error := ErrorText(text);
        if error.Some? {
          return Ok(Analysed(false, Put(c1, "_error", Str(error.value))));
        }
        var stored := StoreAll(c1, Split(text, "\n"));
        if stored.Raised? {
          return Raised(stored.exception);
        }
        return Ok(Analysed(true, stored.value));
    }
  }

  /** The first line whose storing raises decides the exception. */
  lemma {:induction false} InterfacesPrefixRaises(c: seq<(string, Value)>, lines: seq<string>, n: nat)
    requires n <= |lines| && Interfaces(c, lines[..n]).Raised?
    ensures Interfaces(c, lines) == Interfaces(c, lines[..n])
    decreases |lines|
  {
    if n < |lines| {
      var init := lines[..|lines| - 1];
      assert init[..n] == lines[..n];
      InterfacesPrefixRaises(c, init, n);
    } else {
      assert lines[..n] == lines;
    }
  }

  /** A line `name: Ifindex = N` gives back that name and N, whatever the
      name holds. */
  lemma {:induction false} MatchLine(name: string, index: string)
    requires |index| > 0 && AllDigits(index)
    ensures Match(name + Marker + index) == Some((name, index))
  {
    var line := name + Marker + index;
    forall q | 0 <= q < |name| ensures !IndexAt(line, q) {
      if q + |Marker| < |line| {
        assert line[|name| + 11] == ' ';
        assert line[q + |Marker|..][|name| + 11 - q - |Marker|] == ' ';
      }
    }
    assert line[|name|..|name| + |Marker|] == Marker;
    assert line[|name| + |Marker|..] == index;
    assert IndexAt(line, |name|);
    assert line[..|name|] == name;
  }

  /** The assignment a line makes to the `interfaces` table of a collection
      that had none: the interface and a dictionary holding only its
      index. */
  function Entry(line: string): Result<Option<(string, Value)>> {
    match Described(line)
    case None => Ok(None)
    case Some((name, index)) => Ok(Some((name, Dict([(OidKey, Str(index))]))))
  }

  /** An interface's dictionary as the analysis builds it: the index alone. */
  predicate IndexOnly(v: Value) {
    v.Dict? && |v.entries| == 1 && v.entries[0].0 == OidKey
  }

  lemma {:induction false} GatherIndexOnly(lines: seq<string>)
    ensures Gather(lines, Entry).Ok?
    ensures forall i :: 0 <= i < |Gather(lines, Entry).value| ==> IndexOnly(Gather(lines, Entry).value[i].1)
    decreases |lines|
  {
    if |lines| > 0 {
      GatherIndexOnly(lines[..|lines| - 1]);
    }
  }

  lemma {:induction false} TableIndexOnly(ws: seq<(string, Value)>, name: string)
    requires forall i :: 0 <= i < |ws| ==> IndexOnly(ws[i].1)
    ensures Get(PutAll([], ws), name).None? || IndexOnly(Get(PutAll([], ws), name).value)
  {
    GetPutAll([], ws, name);
  }

  /** Storing into a table built so far adds or replaces the interface's
      dictionary by one holding only the new index. */
  lemma {:induction false} StoreStep(c: seq<(string, Value)>, t: seq<(string, Value)>, name: string, index: string)
    requires Get(c, "interfaces").None?
    requires Get(t, name).None? || IndexOnly(Get(t, name).value)
    ensures Store(Put(c, "interfaces", Dict(t)), name, index)
      == Ok(Put(c, "interfaces", Dict(Put(t, name, Dict([(OidKey, Str(index))])))))
  {
    var c' := Put(c, "interfaces", Dict(t));
    var single := Dict([(OidKey, Str(index))]);
    assert Get(c', "interfaces") == Some(Dict(t));
    if Get(t, name).None? {
      StoreNew(c', t, name, Str(index));
    } else {
      StoreOnto(c', t, name, Get(t, name).value.entries, Str(index));
    }
    PutTwice(c, "interfaces", Dict(t), Dict(Put(t, name, single)));
  }

  lemma {:induction false} StoreFirst(c: seq<(string, Value)>, name: string, index: string)
    requires Get(c, "interfaces").None?
    ensures Store(c, name, index) == Ok(Put(c, "interfaces", Dict([(name, Dict([(OidKey, Str(index))]))])))
  {
    var v := Str(index);
    SetInNew(c, "interfaces", name, OidKey, v);
    assert EntriesOf(c, "interfaces") == [];
    assert Store(c, name, index) == Ok(Put(c, "interfaces", Dict(Put([], name, Dict(Put([], OidKey, v))))));
    PutEnd([], OidKey, v);
    assert Put([], OidKey, v) == [(OidKey, v)];
    PutEnd([], name, Dict([(OidKey, v)]));
    assert Put([], name, Dict([(OidKey, v)])) == [(name, Dict([(OidKey, v)]))];
  }

  lemma {:induction false} StoreNew(c: seq<(string, Value)>, t: seq<(string, Value)>, name: string, v: Value)
    requires Get(c, "interfaces") == Some(Dict(t)) && Get(t, name).None?
    ensures SetIn(c, "interfaces", name, OidKey, v) == Ok(Put(c, "interfaces", Dict(Put(t, name, Dict([(OidKey, v)])))))
  {
    assert KeyIndex(t, name).None?;
    assert EntriesOf(c, "interfaces") == t;
    SetInNew(c, "interfaces", name, OidKey, v);
    assert SetIn(c, "interfaces", name, OidKey, v) == Ok(Put(c, "interfaces", Dict(Put(t, name, Dict(Put([], OidKey, v))))));
    PutEnd([], OidKey, v);
    assert Put([], OidKey, v) == [(OidKey, v)];
  }

  lemma {:induction false} StoreOnto(c: seq<(string, Value)>, t: seq<(string, Value)>, name: string, e: seq<(string, Value)>, v: Value)
    requires Get(c, "interfaces") == Some(Dict(t)) && Get(t, name) == Some(Dict(e))
    requires |e| == 1 && e[0].0 == OidKey
    ensures SetIn(c, "interfaces", name, OidKey, v) == Ok(Put(c, "interfaces", Dict(Put(t, name, Dict([(OidKey, v)])))))
  {
    SetInOnto(c, "interfaces", t, name, e, OidKey, v);
    PutSingle(e, OidKey, v);
  }

  lemma {:induction false} PutSingle(e: seq<(string, Value)>, k: string, v: Value)
    requires |e| == 1 && e[0].0 == k
    ensures Put(e, k, v) == [(k, v)]
  {
    assert KeyIndex(e, k) == Some(0);
    PutAt(e, 0, k, v);
    assert e[0 := (k, v)] == [(k, v)];
  }

  /** The lines stored into a collection without `interfaces` make exactly
      the table the assignments fill, and nothing at all when no line
      describes an interface. */
  lemma {:induction false} InterfacesFresh(c: seq<(string, Value)>, lines: seq<string>)
    requires Get(c, "interfaces").None?
    ensures Gather(lines, Entry).Ok?
    ensures var ws := Gather(lines, Entry).value;
      Interfaces(c, lines) == Ok(if |ws| == 0 then c else Put(c, "interfaces", Dict(PutAll([], ws))))
    decreases |lines|
  {
    GatherIndexOnly(lines);
    if |lines| > 0 {
      var init := lines[..|lines| - 1];
      InterfacesFresh(c, init);
      GatherIndexOnly(init);
      var ws := Gather(init, Entry).value;
      match Described(lines[|lines| - 1]) {
        case None =>
        case Some((name, index)) =>
          var w := (name, Dict([(OidKey, Str(index))]));
          assert Gather(lines, Entry) == Ok(ws + [w]);
          assert (ws + [w])[..|ws|] == ws;
          assert Interfaces(c, lines) == Step(Interfaces(c, init).value, lines[|lines| - 1]);
          if |ws| == 0 {
            StoreFirst(c, name, index);
            assert PutAll([], ws + [w]) == Put([], name, w.1);
            PutEnd([], name, w.1);
          } else {
            TableIndexOnly(ws, name);
            StoreStep(c, PutAll([], ws), name, index);
          }
      }
    }
  }

  /** In a collection that had no `interfaces`, the table maps every
      interface to a dictionary holding just the index of the last line
      that describes it; without such a line the collection is untouched. */
  lemma {:induction false} IfIndexTable(c: seq<(string, Value)>, lines: seq<string>)
    requires Get(c, "interfaces").None?
    ensures (forall i :: 0 <= i < |lines| ==> Described(lines[i]).None?) ==> Interfaces(c, lines) == Ok(c)
    ensures (exists i :: 0 <= i < |lines| && Described(lines[i]).Some?) ==>
      exists m :: Interfaces(c, lines) == Ok(Put(c, "interfaces", Dict(m)))
        && forall k :: Get(m, k) == LastEntry(lines, Entry, k)
  {
    InterfacesFresh(c, lines);
    GatherEmpty(lines, Entry);
    var ws := Gather(lines, Entry).value;
    assert forall i :: 0 <= i < |lines| ==> (Entry(lines[i]) == Ok(None) <==> Described(lines[i]).None?);
    forall k ensures Get(PutAll([], ws), k) == LastEntry(lines, Entry, k) {
      GatheredLookup([], lines, Entry, k);
    }
  }

  /** A line about an interface the collection already describes adds the
      index to that interface's dictionary and keeps its other keys. */
  lemma {:induction false} StoreExtends(c: seq<(string, Value)>, l: seq<(string, Value)>, name: string, t: seq<(string, Value)>, index: string)
    requires Get(c, "interfaces") == Some(Dict(l)) && Get(l, name) == Some(Dict(t))
    ensures Store(c, name, index) == Ok(Put(c, "interfaces", Dict(Put(l, name, Dict(Put(t, OidKey, Str(index)))))))
    ensures forall k :: k != OidKey ==> Get(Put(t, OidKey, Str(index)), k) == Get(t, k)
  {
    SetInOnto(c, "interfaces", l, name, t, OidKey, Str(index));
  }

  /** Storing touches only `interfaces`. */
  lemma {:induction false} InterfacesOnly(c: seq<(string, Value)>, lines: seq<string>, k: string)
    requires k != "interfaces" && Interfaces(c, lines).Ok?
    ensures Get(Interfaces(c, lines).value, k) == Get(c, k)
    decreases |lines|
  {
    if |lines| > 0 {
      var init := lines[..|lines| - 1];
      InterfacesOnly(c, init, k);
      var c' := Interfaces(c, init).value;
      match Described(lines[|lines| - 1]) {
        case None =>
        case Some((name, index)) =>
          var c1 := WithKey(c', "interfaces");
          assert Get(c1, k) == Get(c', k);
          var outer :- assert WithInner(Get(c1, "interfaces").value, name);
          var outer1 :- assert AssignIn(outer, name, OidKey, Str(index));
          assert Store(c', name, index) == Ok(Put(c1, "interfaces", outer1));
      }
    }
  }

  /** The keys the analysis writes are distinct. */
  lemma {:induction false} KeysApart()
    ensures "host_vendor" != "_error" && "_host_name_extraction" != "_error" && "interfaces" != "_error"
    ensures "interfaces" != "host_vendor" && "interfaces" != "_host_name_extraction"
    ensures "host_vendor" != "_host_name_extraction"
  {
    assert "host_vendor"[0] != "_error"[0];
    assert "interfaces"[0] != "_error"[0];
    assert "interfaces"[0] != "host_vendor"[0];
    assert "interfaces"[0] != "_host_name_extraction"[0];
    assert "host_vendor"[0] != "_host_name_extraction"[0];
    assert |"_host_name_extraction"| != |"_error"|;
  }

  /** What the marks set, and that they set nothing else. */
  lemma {:induction false} StampedFields(c: seq<(string, Value)>)
    ensures Get(Stamped(c), "host_vendor") == Some(Str("Cisco"))
    ensures Get(Stamped(c), "_host_name_extraction") == Some(Str(NamePattern))
    ensures forall k :: k != "host_vendor" && k != "_host_name_extraction" ==> Get(Stamped(c), k) == Get(c, k)
  {
    KeysApart();
  }

  /** An error reply stops the analysis with `_error` set to the reply's
      line; the vendor and the host name pattern are already set and the
      interfaces are left alone. */
  lemma {:induction false} ErrorAnswer(output: Value, collection: Value)
    requires Open(output, collection, Command).Begin?
    requires Contains(output.s, "% Invalid") || Contains(output.s, "% Ambiguous")
    ensures exists r, e :: (Analysis(output, collection) == Ok(Analysed(false, r))
      && Get(r, "_error") == Some(Str(e)) && ErrorReply(e)
      && Get(r, "host_vendor") == Some(Str("Cisco"))
      && Get(r, "interfaces") == Get(Open(output, collection, Command).entries, "interfaces"))
  {
    var c := Open(output, collection, Command).entries;
    var text := Open(output, collection, Command).text;
    var e := ErrorText(text).value;
    var r := Put(Stamped(c), "_error", Str(e));
    ErrorStops(output, collection, text, c, e);
    ErrorFields(c, e);
  }

  lemma {:induction false} ErrorFields(c: seq<(string, Value)>, e: string)
    ensures var r := Put(Stamped(c), "_error", Str(e));
      Get(r, "_error") == Some(Str(e)) && Get(r, "host_vendor") == Some(Str("Cisco"))
      && Get(r, "interfaces") == Get(c, "interfaces")
  {
    StampedFields(c);
    KeysApart();
  }

  lemma {:induction false} ErrorStops(output: Value, collection: Value, text: string, c: seq<(string, Value)>, e: string)
    requires Open(output, collection, Command) == Begin(text, c) && ErrorText(text) == Some(e)
    ensures Analysis(output, collection) == Ok(Analysed(false, Put(Stamped(c), "_error", Str(e))))
  {
  }

  /** Without an error reply the analysis succeeds with the vendor and the
      host name pattern set, and only `interfaces` otherwise changed; it
      cannot raise when the collection had no `interfaces`. */
  lemma {:induction false} CleanAnswer(output: Value, collection: Value)
    requires Open(output, collection, Command).Begin?
    requires !Contains(output.s, "% Invalid") && !Contains(output.s, "% Ambiguous")
    ensures Get(Open(output, collection, Command).entries, "interfaces").None? ==> Analysis(output, collection).Ok?
    ensures Analysis(output, collection).Ok? ==> exists r :: (Analysis(output, collection) == Ok(Analysed(true, r))
      && Get(r, "host_vendor") == Some(Str("Cisco"))
      && Get(r, "_host_name_extraction") == Some(Str(NamePattern))
      && forall k :: k != "host_vendor" && k != "_host_name_extraction" && k != "interfaces" ==>
        Get(r, k) == Get(Open(output, collection, Command).entries, k))
  {
    if Get(Open(output, collection, Command).entries, "interfaces").None? {
      CleanFresh(output, collection);
    }
    if Analysis(output, collection).Ok? {
      CleanFields(output, collection);
    }
  }

  lemma {:induction false} CleanUnfold(output: Value, collection: Value)
    requires Open(output, collection, Command).Begin?
    requires !Contains(output.s, "% Invalid") && !Contains(output.s, "% Ambiguous")
    ensures var o := Open(output, collection, Command);
      var stored := Interfaces(Stamped(o.entries), Split(o.text, "\n"));
      Analysis(output, collection) == if stored.Ok? then Ok(Analysed(true, stored.value)) else Raised(stored.exception)
  {
    assert ErrorText(Open(output, collection, Command).text).None?;
  }

  lemma {:induction false} CleanFresh(output: Value, collection: Value)
    requires Open(output, collection, Command).Begin?
    requires !Contains(output.s, "% Invalid") && !Contains(output.s, "% Ambiguous")
    requires Get(Open(output, collection, Command).entries, "interfaces").None?
    ensures Analysis(output, collection).Ok?
  {
    var c := Open(output, collection, Command).entries;
    var c1 := Stamped(c);
    CleanUnfold(output, collection);
    StampedFields(c);
    KeysApart();
    assert Get(c1, "interfaces").None?;
    InterfacesFresh(c1, Split(Open(output, collection, Command).text, "\n"));
  }

  lemma {:induction false} CleanFields(output: Value, collection: Value)
    requires Open(output, collection, Command).Begin?
    requires !Contains(output.s, "% Invalid") && !Contains(output.s, "% Ambiguous")
    requires Analysis(output, collection).Ok?
    ensures exists r :: (Analysis(output, collection) == Ok(Analysed(true, r))
      && Get(r, "host_vendor") == Some(Str("Cisco"))
      && Get(r, "_host_name_extraction") == Some(Str(NamePattern))
      && forall k :: k != "host_vendor" && k != "_host_name_extraction" && k != "interfaces" ==>
        Get(r, k) == Get(Open(output, collection, Command).entries, k))
  {
    var c := Open(output, collection, Command).entries;
    var c1 := Stamped(c);
    var lines := Split(Open(output, collection, Command).text, "\n");
    var stored := Interfaces(c1, lines);
    CleanUnfold(output, collection);
    StampedFields(c);
    KeysApart();
    InterfacesOnly(c1, lines, "host_vendor");
    InterfacesOnly(c1, lines, "_host_name_extraction");
    forall k | k != "host_vendor" && k != "_host_name_extraction" && k != "interfaces"
      ensures Get(stored.value, k) == Get(c, k)
    {
      InterfacesOnly(c1, lines, k);
    }
    assert Analysis(output, collection) == Ok(Analysed(true, stored.value));
  }
}
