/** The Netbox helpers that post-filter and flatten the records a Netbox
    query returns: `filter_result` decides whether a flattened record passes
    the configured criteria, and `convert_to_dotted_notation` flattens a
    nested record into one level of dotted keys. */
module Netbox {
  import opened Wrappers
  import opened Text
  import opened Py

  // ---------------------------------------------------------------------
  // filter_result
  // ---------------------------------------------------------------------

  /** What `filter_result` returns: `False`, `True`, or the `(False, message)`
      tuple for a misconfigured criterion. */
  datatype Verdict = Keep | Skip | Misconfigured(message: string)

  /** The caller skips the record when the result is truthy: `True`, and also
      the non-empty tuple of a misconfiguration. */
  predicate Passes(v: Verdict) {
    v.Keep?
  }

  predicate Relational(op: Value) {
    op == Str(">") || op == Str("<") || op == Str(">=") || op == Str("<=")
  }

  /** `isinstance(v, int | str)`: `bool` is a subclass of `int`. */
  predicate NumberOrText(v: Value) {
    v.Int? || v.Bool? || v.Str?
  }

  /** `type(v).__name__` */
  function TypeName(v: Value): string {
    match v
    case Null => "NoneType"
    case Bool(_) => "bool"
    case Int(_) => "int"
    case Str(_) => "str"
    case List(_) => "list"
    case Dict(_) => "dict"
  }

  /** `int(v)`: a string goes through Python's numeric parsing, which raises
      ValueError; a container or `None` raises TypeError. */
  function PyInt(v: Value): Result<int> {
    match v
    case Int(i) => Ok(i)
    case Bool(b) => Ok(if b then 1 else 0)
    case Str(s) => if ParseInt(s).Some? then Ok(ParseInt(s).value) else Raised("ValueError")
    case _ => Raised("TypeError")
  }

  /** `int(str(i)) == i` for the values `filter_result` compares. */
  lemma {:induction false} PyIntOfText(i: int)
    ensures PyInt(Str(IntToString(i))) == Ok(i)
  {
    ParseIntToString(i);
  }

  function Misconfiguration(op: Value, want: Value): string {
    "CONFIGURATION: Cannot use type '" + TypeName(want) + "' (" + PyStr(want)
    + ") when using the '" + PyStr(op) + "' operator, use a string or number instead."
  }

  function Decide(fails: bool): Verdict {
    if fails then Skip else Keep
  }

  /** One criterion `{'operator': op, 'value': want}` applied to the value
      `found` the record holds. `search(pattern, text)` stands for
      `re.search`, whose engine is not part of this model. */
  function Criterion(op: Value, want: Value, found: Value, search: (string, string) -> bool): (r: Result<Verdict>)
    ensures !Truthy(found) ==> r == Ok(Keep)
    ensures (r.Ok? && r.value.Misconfigured?) <==> (Truthy(found) && Relational(op) && !NumberOrText(want))
  {
    if !Truthy(found) then Ok(Keep)
    else if Relational(op) && !NumberOrText(want) then Ok(Misconfigured(Misconfiguration(op, want)))
    else if op == Str("=") || op == Str("!=") then
      if want.List? then
        var member := exists i :: 0 <= i < |want.items| && PyEq(found, want.items[i]);
        Ok(Decide(if op == Str("=") then !member else member))
      else if NumberOrText(want) then
        var equal := PyEq(found, want);
        Ok(Decide(if op == Str("=") then !equal else equal))
      else Ok(Keep)
    else if op == Str(">") then
      if NumberOrText(found) then
        var f :- PyInt(found);
        var w :- PyInt(want);
        Ok(Decide(f <= w))
      else Ok(Keep)
    else if op == Str("<") then
      var f :- PyInt(found);
      var w :- PyInt(want);
      Ok(Decide(f >= w))
    else if op == Str(">=") then
      var f :- PyInt(found);
      var w :- PyInt(want);
      Ok(Decide(f < w))
    else if op == Str("<=") then
      var f :- PyInt(found);
      var w :- PyInt(want);
      Ok(Decide(f > w))
    else if op == Str("re") || op == Str("!re") then
      if !want.Str? || !found.Str? then Raised("TypeError")
      else
        var hit := search(want.s, found.s);
        Ok(Decide(if op == Str("re") then !hit else hit))
    else Ok(Keep)
  }

  /** `'='` and `'!='` against a list test membership, against a number or a
      string test equality; any other value never skips. */
  lemma {:induction false} EqualityCriteria(op: Value, want: Value, found: Value, search: (string, string) -> bool)
    requires Truthy(found) && (op == Str("=") || op == Str("!="))
    ensures var r := Criterion(op, want, found, search);
      && r.Ok? && (r.value == Skip || r.value == Keep)
      && (want.List? ==>
            (r == Ok(Skip) <==> (op == Str("=")) == forall i :: 0 <= i < |want.items| ==> !PyEq(found, want.items[i])))
      && (NumberOrText(want) ==> (r == Ok(Skip) <==> (op == Str("=")) == !PyEq(found, want)))
      && (!want.List? && !NumberOrText(want) ==> r == Ok(Keep))
  {
  }

  /** The relational operators compare `int(found)` with `int(want)` and skip
      when the relation fails; `'>'` alone first requires a number or a string. */
  lemma {:induction false} RelationalCriteria(op: Value, want: Value, found: Value, search: (string, string) -> bool)
    requires Truthy(found) && Relational(op) && NumberOrText(want)
    ensures var r := Criterion(op, want, found, search);
      && (op == Str(">") && !NumberOrText(found) ==> r == Ok(Keep))
      && (r.Raised? <==> (op != Str(">") || NumberOrText(found)) && (PyInt(found).Raised? || PyInt(want).Raised?))
      && (PyInt(found).Ok? && PyInt(want).Ok? && (op != Str(">") || NumberOrText(found)) ==>
            var f, w := PyInt(found).value, PyInt(want).value;
            r == Ok(Decide(if op == Str(">") then f <= w else if op == Str("<") then f >= w
                           else if op == Str(">=") then f < w else f > w)))
  {
  }

  /** `'re'` skips when the pattern does not match, `'!re'` when it does; both
      need strings. */
  lemma {:induction false} RegexCriteria(op: Value, want: Value, found: Value, search: (string, string) -> bool)
    requires Truthy(found) && (op == Str("re") || op == Str("!re"))
    ensures var r := Criterion(op, want, found, search);
      && (r.Raised? <==> !(want.Str? && found.Str?))
      && (want.Str? && found.Str? ==> (r == Ok(Skip) <==> (op == Str("re")) != search(want.s, found.s)))
  {
  }

  /** An operator the function does not know never skips. */
  lemma {:induction false} UnknownOperator(op: Value, want: Value, found: Value, search: (string, string) -> bool)
    requires !Relational(op) && op != Str("=") && op != Str("!=") && op != Str("re") && op != Str("!re")
    ensures Criterion(op, want, found, search) == Ok(Keep)
  {
  }

  /** A numeric text compares as its number: `'12' > 5` keeps the record. */
  lemma {:induction false} TextComparesAsNumber(n: int, w: int, search: (string, string) -> bool)
    requires n != 0
    ensures Criterion(Str(">"), Int(w), Str(IntToString(n)), search) == Ok(Decide(n <= w))
    ensures Criterion(Str("<"), Str(IntToString(w)), Int(n), search) == Ok(Decide(n >= w))
  {
    PyIntOfText(n);
    PyIntOfText(w);
    var t := IntToString(n);
    assert |t| > 0 by {
      if n < 0 { assert |NatToString(-n)| > 0; } else { assert |NatToString(n)| > 0; }
    }
    assert Truthy(Str(t));
    RelationalCriteria(Str(">"), Int(w), Str(t), search);
    RelationalCriteria(Str("<"), Str(IntToString(w)), Int(n), search);
  }

  /** The criterion `entry` of `post_filter` applied to the record `data`:
      a key the record lacks passes without its settings being read. */
  function Outcome(entry: (string, Value), data: seq<(string, Value)>, search: (string, string) -> bool): Result<Verdict> {
    match Get(data, entry.0)
    case None => Ok(Keep)
    case Some(found) =>
      var op :- Index(entry.1, "operator");
      var want :- Index(entry.1, "value");
      Criterion(op, want, found, search)
  }

  /** The debug line written before a skip reads `logger.debug`
      (AttributeError when no logger was passed) and `data['id']`. */
  function Logged(data: seq<(string, Value)>, logged: bool): Result<Verdict> {
    if !logged then Raised("AttributeError")
    else if !HasKey(data, "id") then Raised("KeyError")
    else Ok(Skip)
  }

  /** The criteria from `post_filter`, in order, applied to the record `data`;
      the first criterion that fails or is misconfigured ends the scan. */
  function Scan(postFilter: seq<(string, Value)>, data: seq<(string, Value)>, logged: bool,
                search: (string, string) -> bool): (r: Result<Verdict>)
    decreases |postFilter|
  {
    if |postFilter| == 0 then Ok(Keep)
    else
      var v :- Outcome(postFilter[0], data, search);
      match v
      case Keep => Scan(postFilter[1..], data, logged, search)
      case Misconfigured(_) => Ok(v)
      case Skip => Logged(data, logged)
  }

  /** `filter_result(post_filter, data, logger)` */
  method FilterResult(postFilter: seq<(string, Value)>, data: seq<(string, Value)>, logged: bool,
                      search: (string, string) -> bool) returns (r: Result<Verdict>)
    ensures r == Scan(postFilter, data, logged, search)
  {
    var skip := false;
    var i := 0;
    while i < |postFilter|
      invariant 0 <= i <= |postFilter|
      invariant Scan(postFilter, data, logged, search) == Scan(postFilter[i..], data, logged, search)
    {
      ScanHead(postFilter[i..], data, logged, search);
      assert postFilter[i..][0] == postFilter[i] && postFilter[i..][1..] == postFilter[i + 1..];
      var v :- Judge(postFilter[i], data, search);
      if v.Misconfigured? {
        return Ok(v);
      }
      if v == Skip {
        skip := true;
        if !logged {
          return Raised("AttributeError");
        }
        if !HasKey(data, "id") {
          return Raised("KeyError");
        }
        break;
      }
      i := i + 1;
    }
    if skip {
      return Ok(Skip);
    }
    return Ok(Keep);
  }

  /** One pass of the loop: a key the record lacks is passed over (the
      `continue`), otherwise the criterion's settings are read and applied. */
  method Judge(entry: (string, Value), data: seq<(string, Value)>, search: (string, string) -> bool)
    returns (r: Result<Verdict>)
    ensures r == Outcome(entry, data, search)
  {
    var item := entry.0;
    if !HasKey(data, item) {
      return Ok(Keep);
    }
    var found := Get(data, item).value;
    var op :- Index(entry.1, "operator");
    var want :- Index(entry.1, "value");
    r := Criterion(op, want, found, search);
  }

  /** The first criterion decides unless it keeps the record. */
  lemma {:induction false} ScanHead(a: seq<(string, Value)>, data: seq<(string, Value)>,
                                    logged: bool, search: (string, string) -> bool)
    requires |a| > 0
    ensures Scan(a, data, logged, search) ==
      match Outcome(a[0], data, search)
      case Raised(e) => Raised(e)
      case Ok(Keep) => Scan(a[1..], data, logged, search)
      case Ok(Misconfigured(m)) => Ok(Misconfigured(m))
      case Ok(Skip) => Logged(data, logged)
  {
  }

  /** The criteria a record's keys select. */
  function Present(postFilter: seq<(string, Value)>, data: seq<(string, Value)>): (p: seq<(string, Value)>)
    ensures forall i :: 0 <= i < |p| ==> HasKey(data, p[i].0)
    ensures |p| <= |postFilter|
  {
    if |postFilter| == 0 then []
    else if HasKey(data, postFilter[0].0) then [postFilter[0]] + Present(postFilter[1..], data)
    else Present(postFilter[1..], data)
  }

  /** Criteria on keys the record lacks change nothing. */
  lemma {:induction false} AbsentIgnored(postFilter: seq<(string, Value)>, data: seq<(string, Value)>, logged: bool,
                                         search: (string, string) -> bool)
    ensures Scan(postFilter, data, logged, search) == Scan(Present(postFilter, data), data, logged, search)
    decreases |postFilter|
  {
    if |postFilter| > 0 {
      AbsentIgnored(postFilter[1..], data, logged, search);
      if HasKey(data, postFilter[0].0) {
        var p := [postFilter[0]] + Present(postFilter[1..], data);
        assert p[0] == postFilter[0] && p[1..] == Present(postFilter[1..], data);
        ScanSameHead(postFilter, p, data, logged, search);
      } else {
        ScanAbsentHead(postFilter, data, logged, search);
      }
    }
  }

  /** Two lists of criteria with the same first criterion, whose rests scan
      alike, scan alike. */
  lemma {:induction false} ScanSameHead(a: seq<(string, Value)>, b: seq<(string, Value)>, data: seq<(string, Value)>,
                                        logged: bool, search: (string, string) -> bool)
    requires |a| > 0 && |b| > 0 && a[0] == b[0]
    requires Scan(a[1..], data, logged, search) == Scan(b[1..], data, logged, search)
    ensures Scan(a, data, logged, search) == Scan(b, data, logged, search)
  {
  }

  /** A first criterion on a key the record lacks is passed over. */
  lemma {:induction false} ScanAbsentHead(a: seq<(string, Value)>, data: seq<(string, Value)>,
                                          logged: bool, search: (string, string) -> bool)
    requires |a| > 0 && !HasKey(data, a[0].0)
    ensures Scan(a, data, logged, search) == Scan(a[1..], data, logged, search)
  {
  }

  /** A criterion whose settings can be read. */
  predicate Configured(spec: Value) {
    spec.Dict? && HasKey(spec.entries, "operator") && HasKey(spec.entries, "value")
  }

  predicate Falsy(data: seq<(string, Value)>, k: string) {
    match Get(data, k)
    case None => true
    case Some(v) => !Truthy(v)
  }

  /** A record whose filtered values are all falsy (`None`, `''`, `0`, empty)
      is never skipped, whatever the criteria say. */
  lemma {:induction false} FalsyNeverSkips(postFilter: seq<(string, Value)>, data: seq<(string, Value)>, logged: bool,
                                           search: (string, string) -> bool)
    requires forall i :: 0 <= i < |postFilter| ==> Falsy(data, postFilter[i].0) && Configured(postFilter[i].1)
    ensures Scan(postFilter, data, logged, search) == Ok(Keep)
    decreases |postFilter|
  {
    if |postFilter| > 0 {
      FalsyNeverSkips(postFilter[1..], data, logged, search);
      assert Falsy(data, postFilter[0].0) && Configured(postFilter[0].1);
    }
  }

  /** The criteria are checked in order until one fails: what follows a
      failing or misconfigured criterion is never looked at, and what follows
      passing criteria decides alone. */
  lemma {:induction false} FirstFailureStops(a: seq<(string, Value)>, b: seq<(string, Value)>, data: seq<(string, Value)>,
                                             logged: bool, search: (string, string) -> bool)
    ensures Scan(a + b, data, logged, search)
            == if Scan(a, data, logged, search) == Ok(Keep) then Scan(b, data, logged, search)
               else Scan(a, data, logged, search)
    decreases |a|
  {
    if |a| == 0 {
      assert a + b == b;
    } else {
      assert (a + b)[0] == a[0] && (a + b)[1..] == a[1..] + b;
      FirstFailureStops(a[1..], b, data, logged, search);
    }
  }

  /** The caller keeps a record exactly when every criterion accepts it: one
      that fails, and one that is misconfigured, both drop it. */
  lemma {:induction false} PassesIffAccepted(postFilter: seq<(string, Value)>, data: seq<(string, Value)>, logged: bool,
                                             search: (string, string) -> bool)
    requires Scan(postFilter, data, logged, search).Ok?
    ensures Passes(Scan(postFilter, data, logged, search).value)
            <==> forall i :: 0 <= i < |postFilter| ==> Outcome(postFilter[i], data, search) == Ok(Keep)
    decreases |postFilter|
  {
    if |postFilter| > 0 {
      var rest := postFilter[1..];
      assert forall i :: 0 <= i < |rest| ==> rest[i] == postFilter[i + 1];
      if Outcome(postFilter[0], data, search) == Ok(Keep) {
        PassesIffAccepted(rest, data, logged, search);
        if forall i :: 0 <= i < |rest| ==> Outcome(rest[i], data, search) == Ok(Keep) {
          forall i | 0 <= i < |postFilter| ensures Outcome(postFilter[i], data, search) == Ok(Keep) {
            if i > 0 { assert Outcome(rest[i - 1], data, search) == Ok(Keep); }
          }
        } else {
          var j :| 0 <= j < |rest| && Outcome(rest[j], data, search) != Ok(Keep);
          assert Outcome(postFilter[j + 1], data, search) != Ok(Keep);
        }
      }
    }
  }

  /** The only records `filter_result` lets through are those every present,
      truthy criterion accepts; a misconfiguration drops the record too. */
  lemma {:induction false} KeptMeansAccepted(postFilter: seq<(string, Value)>, data: seq<(string, Value)>, logged: bool,
                                             search: (string, string) -> bool, i: nat)
    requires Scan(postFilter, data, logged, search) == Ok(Keep)
    requires i < |postFilter| && HasKey(data, postFilter[i].0)
    ensures Index(postFilter[i].1, "operator").Ok? && Index(postFilter[i].1, "value").Ok?
    ensures Criterion(Index(postFilter[i].1, "operator").value, Index(postFilter[i].1, "value").value,
                      Get(data, postFilter[i].0).value, search) == Ok(Keep)
    decreases |postFilter|
  {
    if i > 0 {
      assert postFilter[1..][i - 1] == postFilter[i];
      KeptMeansAccepted(postFilter[1..], data, logged, search, i - 1);
    }
  }

  // ---------------------------------------------------------------------
  // convert_to_dotted_notation
  // ---------------------------------------------------------------------

  /** The one entry of `ignore_fields`: a key whose value is not walked. */
  const Ignored: string := "config_context"

  /** The separator in front of a key at `level`: a dot down to the third
      level, a comma at the fourth and fifth. */
  function Sep(level: nat): string {
    if level <= 3 then "." else ","
  }

  /** The assignments to `nb_dict` for the entries `d` of a dictionary found
      at `level` (2 to 5) under the dotted path `path`. */
  function Level(level: nat, bare: bool, path: string, d: seq<(string, Value)>): Result<seq<(string, Value)>>
    requires 2 <= level <= 5
    decreases 5 - level, |d|
  {
    if |d| == 0 then Ok([])
    else
      var w :- Nested(level, bare, path, d[0].0, d[0].1);
      var rest :- Level(level, bare, path, d[1..]);
      Ok(w + rest)
  }

  /** The assignments for the entry `f: v` at `level` under `path`. With
      `hide_custom_fields` a second-level key under `custom_fields` loses its
      prefix, but the keys below it keep the full path. A `None` is written
      before the ignore test, and a dictionary at the fifth level reaches
      `pformat`, which the module never imports (NameError). */
  function Nested(level: nat, bare: bool, path: string, f: string, v: Value): Result<seq<(string, Value)>>
    requires 2 <= level <= 5
    decreases 5 - level, 0
  {
    var full := path + Sep(level) + f;
    var key := if level == 2 && bare && path == "custom_fields" then f else full;
    var none := if v.Null? then [(key, Null)] else [];
    if key == Ignored then Ok(none)
    else if v.Dict? then
      if level == 5 then Raised("NameError")
      else
        var w :- Level(level + 1, bare, full, v.entries);
        Ok(none + w)
    else Ok(none + [(key, v)])
  }

  /** The element field `'<key>.list'` shows, chosen by the first element:
      `display`, else `name`, else `slug`, else none. */
  function Label(first: Value): Result<Option<string>> {
    var display :- In(Str("display"), first);
    if display then Ok(Some("display"))
    else
      var name :- In(Str("name"), first);
      if name then Ok(Some("name"))
      else
        var slug :- In(Str("slug"), first);
        if slug then Ok(Some("slug")) else Ok(None)
  }

  /** `f"{sub_item[field]}"` for every element, in order. */
  function Labels(xs: seq<Value>, field: string): (r: Result<seq<string>>)
    ensures r.Ok? <==> forall i :: 0 <= i < |xs| ==> Index(xs[i], field).Ok?
    ensures r.Ok? ==> |r.value| == |xs| && forall i :: 0 <= i < |xs| ==> r.value[i] == PyStr(Index(xs[i], field).value)
  {
    if |xs| == 0 then Ok([])
    else
      var x :- Index(xs[0], field);
      var rest :- Labels(xs[1..], field);
      Ok([PyStr(x)] + rest)
  }

  /** A non-empty list is kept, and `'<key>.list'` joins its elements'
      labels with newlines. */
  function ListWrites(key: string, xs: seq<Value>): Result<seq<(string, Value)>>
    requires |xs| > 0
  {
    var field :- Label(xs[0]);
    match field
    case None => Ok([(key, List(xs))])
    case Some(l) =>
      var names :- Labels(xs, l);
      Ok([(key, List(xs)), (key + ".list", Str(Join(names, "\n")))])
  }

  /** `tag_list`: the `display` value of every tag that has one. */
  function TagList(items: seq<Value>): (r: Result<seq<Value>>)
    ensures r.Ok? ==> |r.value| <= |items|
    ensures (forall i :: 0 <= i < |items| ==> items[i].Dict?) ==> r.Ok?
    ensures (forall i :: 0 <= i < |items| ==> items[i].Dict? && HasKey(items[i].entries, "display")) ==>
      r.Ok? && |r.value| == |items|
      && forall i :: 0 <= i < |items| ==> Get(items[i].entries, "display") == Some(r.value[i])
  {
    if |items| == 0 then Ok([])
    else
      var has :- In(Str("display"), items[0]);
      if has then
        var x :- Index(items[0], "display");
        var rest :- TagList(items[1..]);
        Ok([x] + rest)
      else TagList(items[1..])
  }

  /** A dictionary's `tags` list also sets `tag_list`; the pairs a record
      yields do not. */
  function TagWrites(record: bool, key: string, v: Value): Result<seq<(string, Value)>> {
    if !record && key == "tags" && v.List? then
      var tags :- TagList(v.items);
      Ok([("tag_list", List(tags))])
    else Ok([])
  }

  /** The assignments for a top-level field's own value. */
  function Own(bare: bool, key: string, v: Value): Result<seq<(string, Value)>> {
    if key == Ignored then Ok([])
    else if v.Null? then Ok([(key, Null)])
    else if v.List? then
      if |v.items| > 0 then ListWrites(key, v.items) else Ok([(key, Null)])
    else if v.Dict? then Level(2, bare, key, v.entries)
    else Ok([(key, v)])
  }

  /** The assignments for one top-level field. */
  function Field(record: bool, bare: bool, key: string, v: Value): Result<seq<(string, Value)>> {
    var tags :- TagWrites(record, key, v);
    var own :- Own(bare, key, v);
    Ok(tags + own)
  }

  /** The assignments for the fields of `data`, in order. */
  function Writes(data: seq<(string, Value)>, record: bool, bare: bool): Result<seq<(string, Value)>>
    decreases |data|
  {
    if |data| == 0 then Ok([])
    else
      var before :- Writes(data[..|data| - 1], record, bare);
      var last :- Field(record, bare, data[|data| - 1].0, data[|data| - 1].1);
      Ok(before + last)
  }

  /** The flattened dictionary `convert_to_dotted_notation` returns. */
  function Dotted(data: seq<(string, Value)>, record: bool, bare: bool): Result<seq<(string, Value)>> {
    var ws :- Writes(data, record, bare);
    Ok(PutAll([], ws))
  }

  /** Once a field raises, so does everything after it. */
  lemma {:induction false} WritesRaised(data: seq<(string, Value)>, j: nat, record: bool, bare: bool)
    requires j <= |data| && Writes(data[..j], record, bare).Raised?
    ensures Writes(data, record, bare) == Writes(data[..j], record, bare)
    decreases |data| - j
  {
    if j < |data| {
      assert data[..j + 1][..j] == data[..j];
      WritesRaised(data, j + 1, record, bare);
    } else {
      assert data[..j] == data;
    }
  }

  /** `convert_to_dotted_notation(data, hide_custom_fields)`: `record` tells
      whether `data` is a Netbox record, which yields `(key, value)` pairs,
      rather than a dictionary. */
  method ConvertToDottedNotation(data: seq<(string, Value)>, record: bool, bare: bool)
    returns (r: Result<seq<(string, Value)>>)
    ensures r == Dotted(data, record, bare)
  {
    var nbDict: seq<(string, Value)> := [];
    ghost var ws: seq<(string, Value)> := [];
    var i := 0;
    while i < |data|
      invariant 0 <= i <= |data|
      invariant Writes(data[..i], record, bare) == Ok(ws)
      invariant nbDict == PutAll([], ws)
    {
      assert data[..i + 1][..i] == data[..i];
      var step := Field(record, bare, data[i].0, data[i].1);
      if step.Raised? {
        WritesRaised(data, i + 1, record, bare);
        return Raised(step.exception);
      }
      PutAllConcat([], ws, step.value);
      nbDict := PutAll(nbDict, step.value);
      ws := ws + step.value;
      i := i + 1;
    }
    assert data[..i] == data;
    return Ok(nbDict);
  }

  /** `config_context` holds no dot or comma, so no dotted key equals it. */
  lemma {:induction false} IgnoredUndotted(k: string, p: string, sep: string)
    requires sep == "." || sep == ","
    requires StartsWith(k, p + sep)
    ensures k != Ignored
  {
    assert k[|p|] == (p + sep)[|p|] == sep[0];
    assert forall i :: 0 <= i < |Ignored| ==> Ignored[i] != '.' && Ignored[i] != ',';
  }

  lemma {:induction false} PrefixOfPrefix(k: string, a: string, b: string)
    requires StartsWith(k, a + b)
    ensures StartsWith(k, a)
  {
    assert k[..|a|] == (a + b)[..|a|];
  }

  /** Below the top level every key extends its parent's path and a
      separator, except the second-level keys `hide_custom_fields` strips;
      the only assignment to `config_context` itself is a `None`. */
  lemma {:induction false} LevelKeys(level: nat, bare: bool, path: string, d: seq<(string, Value)>)
    requires 2 <= level <= 5 && Level(level, bare, path, d).Ok?
    ensures forall w :: w in Level(level, bare, path, d).value && w.0 == Ignored ==> w.1 == Null
    ensures !(level == 2 && bare && path == "custom_fields") ==>
      forall w :: w in Level(level, bare, path, d).value ==> StartsWith(w.0, path + Sep(level))
    decreases 5 - level, |d|
  {
    if |d| > 0 {
      NestedKeys(level, bare, path, d[0].0, d[0].1);
      LevelKeys(level, bare, path, d[1..]);
    }
  }

  lemma {:induction false} NestedKeys(level: nat, bare: bool, path: string, f: string, v: Value)
    requires 2 <= level <= 5 && Nested(level, bare, path, f, v).Ok?
    ensures forall w :: w in Nested(level, bare, path, f, v).value && w.0 == Ignored ==> w.1 == Null
    ensures !(level == 2 && bare && path == "custom_fields") ==>
      forall w :: w in Nested(level, bare, path, f, v).value ==> StartsWith(w.0, path + Sep(level))
    decreases 5 - level, 0
  {
    var full := path + Sep(level) + f;
    var key := if level == 2 && bare && path == "custom_fields" then f else full;
    assert StartsWith(full, path + Sep(level));
    if key != Ignored && v.Dict? && level < 5 {
      LevelKeys(level + 1, bare, full, v.entries);
      forall w | w in Level(level + 1, bare, full, v.entries).value
        ensures StartsWith(w.0, path + Sep(level))
      {
        PrefixOfPrefix(w.0, full, Sep(level + 1));
        PrefixOfPrefix(w.0, path + Sep(level), f);
      }
    }
  }

  /** What one top-level field assigns to `config_context` is at most a
      `None`, and nothing at all unless `hide_custom_fields` is set. */
  lemma {:induction false} FieldKeys(record: bool, bare: bool, key: string, v: Value)
    requires Field(record, bare, key, v).Ok?
    ensures forall w :: w in Field(record, bare, key, v).value && w.0 == Ignored ==> w.1 == Null
    ensures !bare ==> forall w :: w in Field(record, bare, key, v).value ==> w.0 != Ignored
  {
    assert "tag_list" != Ignored;
    if key != Ignored {
      if v.List? && |v.items| > 0 {
        assert StartsWith(key + ".list", key + ".");
        IgnoredUndotted(key + ".list", key, ".");
      } else if v.Dict? {
        LevelKeys(2, bare, key, v.entries);
        if !bare {
          NestedNotIgnored(key, v.entries);
        }
      }
    }
  }

  /** Without `hide_custom_fields`, no key below a top-level field is
      `config_context`. */
  lemma {:induction false} NestedNotIgnored(key: string, d: seq<(string, Value)>)
    requires Level(2, false, key, d).Ok?
    requires forall w :: w in Level(2, false, key, d).value ==> StartsWith(w.0, key + Sep(2))
    ensures forall w :: w in Level(2, false, key, d).value ==> w.0 != Ignored
  {
    forall w | w in Level(2, false, key, d).value
      ensures w.0 != Ignored
    {
      IgnoredUndotted(w.0, key, ".");
    }
  }

  lemma {:induction false} WritesKeys(data: seq<(string, Value)>, record: bool, bare: bool)
    requires Writes(data, record, bare).Ok?
    ensures forall w :: w in Writes(data, record, bare).value && w.0 == Ignored ==> w.1 == Null
    ensures !bare ==> forall w :: w in Writes(data, record, bare).value ==> w.0 != Ignored
    decreases |data|
  {
    if |data| > 0 {
      WritesKeys(data[..|data| - 1], record, bare);
      FieldKeys(record, bare, data[|data| - 1].0, data[|data| - 1].1);
    }
  }

  /** `config_context` is never walked: the flattened dictionary holds no
      such key, or, with `hide_custom_fields`, at most a `None` under it from
      `custom_fields['config_context']`. */
  lemma {:induction false} ConfigContextSkipped(data: seq<(string, Value)>, record: bool, bare: bool)
    requires Dotted(data, record, bare).Ok?
    ensures Get(Dotted(data, record, bare).value, Ignored) == None
            || Get(Dotted(data, record, bare).value, Ignored) == Some(Null)
    ensures !bare ==> !HasKey(Dotted(data, record, bare).value, Ignored)
  {
    var ws := Writes(data, record, bare).value;
    WritesKeys(data, record, bare);
    GetPutAll([], ws, Ignored);
    if LastWrite(ws, Ignored).Some? {
      var i :| 0 <= i < |ws| && ws[i] == (Ignored, LastWrite(ws, Ignored).value);
      assert ws[i] in ws;
    }
  }

  /** The shown field of every element, as `f"{...}"` writes it. */
  function Shown(xs: seq<Value>, field: string): seq<string>
    requires forall i :: 0 <= i < |xs| ==> xs[i].Dict? && HasKey(xs[i].entries, field)
  {
    seq(|xs|, i requires 0 <= i < |xs| => PyStr(Get(xs[i].entries, field).value))
  }

  /** A non-empty list of records is kept as it is, and `'<key>.list'` joins
      with newlines the field the first record offers first among
      `display`, `name` and `slug`. */
  lemma {:induction false} ListField(bare: bool, key: string, xs: seq<Value>, field: string)
    requires key != Ignored && |xs| > 0
    requires forall i :: 0 <= i < |xs| ==> xs[i].Dict? && HasKey(xs[i].entries, field)
    requires field == "display"
             || (field == "name" && !HasKey(xs[0].entries, "display"))
             || (field == "slug" && !HasKey(xs[0].entries, "display") && !HasKey(xs[0].entries, "name"))
    ensures Own(bare, key, List(xs)) == Ok([(key, List(xs)), (key + ".list", Str(Join(Shown(xs, field), "\n")))])
  {
    assert Label(xs[0]) == Ok(Some(field));
    var r := Labels(xs, field);
    assert r.Ok?;
    assert r.value == Shown(xs, field);
  }

  /** An empty list becomes `None`; an empty `tags` list of a dictionary
      also sets `tag_list` to an empty list. */
  lemma {:induction false} EmptyListIsNone(record: bool, bare: bool, key: string)
    requires key != Ignored
    ensures Field(record, bare, key, List([]))
            == Ok(if !record && key == "tags" then [("tag_list", List([])), (key, Null)] else [(key, Null)])
  {
    assert Own(bare, key, List([])) == Ok([(key, Null)]);
    if !record && key == "tags" {
      assert TagList([]) == Ok([]);
      assert [("tag_list", List([]))] + [(key, Null)] == [("tag_list", List([])), (key, Null)];
    } else {
      assert [] + [(key, Null)] == [(key, Null)];
    }
  }

  /** The `display` values of a list of tags that all have one. */
  function Displays(xs: seq<Value>): seq<Value>
    requires forall i :: 0 <= i < |xs| ==> xs[i].Dict? && HasKey(xs[i].entries, "display")
  {
    seq(|xs|, i requires 0 <= i < |xs| => Get(xs[i].entries, "display").value)
  }

  /** The `tags` of a dictionary give `tag_list`, the tags' display values,
      ahead of the list itself and its `tags.list`. */
  lemma {:induction false} TagsField(bare: bool, xs: seq<Value>)
    requires |xs| > 0
    requires forall i :: 0 <= i < |xs| ==> xs[i].Dict? && HasKey(xs[i].entries, "display")
    ensures Field(false, bare, "tags", List(xs))
            == Ok([("tag_list", List(Displays(xs))), ("tags", List(xs)),
                   ("tags.list", Str(Join(Shown(xs, "display"), "\n")))])
  {
    var t := TagList(xs);
    assert t.Ok? && t.value == Displays(xs);
    assert TagWrites(false, "tags", List(xs)) == Ok([("tag_list", List(Displays(xs)))]);
    ListField(bare, "tags", xs, "display");
    var l := ("tags.list", Str(Join(Shown(xs, "display"), "\n")));
    assert [("tag_list", List(Displays(xs)))] + [("tags", List(xs)), l]
           == [("tag_list", List(Displays(xs))), ("tags", List(xs)), l];
    var tw := TagWrites(false, "tags", List(xs));
    var ow := Own(bare, "tags", List(xs));
    assert tw.Ok? && ow.Ok?;
    assert Field(false, bare, "tags", List(xs)) == Ok(tw.value + ow.value);
    assert "tags" + ".list" == "tags.list";
    assert ow.value == [("tags", List(xs)), l];
  }

  lemma {:induction false} LevelSingle(level: nat, bare: bool, path: string, f: string, v: Value)
    requires 2 <= level <= 5
    ensures Level(level, bare, path, [(f, v)]) == Nested(level, bare, path, f, v)
  {
    assert [(f, v)][1..] == [];
    if Nested(level, bare, path, f, v).Ok? {
      assert Nested(level, bare, path, f, v).value + [] == Nested(level, bare, path, f, v).value;
    }
  }

  /** A value that is not a dictionary is assigned under its dotted key;
      a `None` is assigned twice, before and after the ignore test. */
  lemma {:induction false} NestedLeaf(level: nat, bare: bool, path: string, f: string, x: Value)
    requires 2 <= level <= 5 && !x.Dict? && !(level == 2 && bare && path == "custom_fields")
    requires path + Sep(level) + f != Ignored
    ensures var k := path + Sep(level) + f;
      Nested(level, bare, path, f, x) == Ok(if x.Null? then [(k, Null), (k, Null)] else [(k, x)])
  {
    var k := path + Sep(level) + f;
    assert [(k, Null)] + [(k, Null)] == [(k, Null), (k, Null)];
    assert [] + [(k, x)] == [(k, x)];
  }

  /** A dictionary above the fifth level is walked under its dotted path. */
  lemma {:induction false} NestedDict(level: nat, bare: bool, path: string, f: string, v: Value)
    requires 2 <= level < 5 && v.Dict? && !(level == 2 && bare && path == "custom_fields")
    requires path + Sep(level) + f != Ignored
    ensures Nested(level, bare, path, f, v) == Level(level + 1, bare, path + Sep(level) + f, v.entries)
  {
    var w := Level(level + 1, bare, path + Sep(level) + f, v.entries);
    if w.Ok? {
      assert [] + w.value == w.value;
    }
  }

  /** Five levels flatten to `a.b.c,d,e`: dots down to the third level,
      commas below, and a `None` at the bottom stays `None`. */
  lemma {:induction false} DeepKey(record: bool, bare: bool, a: string, b: string, c: string, d: string, e: string, x: Value)
    requires a != Ignored && !(bare && a == "custom_fields") && !x.Dict?
    ensures Dotted([(a, Dict([(b, Dict([(c, Dict([(d, Dict([(e, x)]))]))]))]))], record, bare)
            == Ok([(a + "." + b + "." + c + "," + d + "," + e, x)])
  {
    var p2, p3, p4 := a + "." + b, a + "." + b + "." + c, a + "." + b + "." + c + "," + d;
    var k := p4 + "," + e;
    assert StartsWith(k, p4 + ",");
    IgnoredUndotted(k, p4, ",");
    assert StartsWith(p4, p3 + ",");
    IgnoredUndotted(p4, p3, ",");
    assert StartsWith(p3, p2 + ".");
    IgnoredUndotted(p3, p2, ".");
    assert StartsWith(p2, a + ".");
    IgnoredUndotted(p2, a, ".");
    var v4 := Dict([(e, x)]);
    var v3 := Dict([(d, v4)]);
    var v2 := Dict([(c, v3)]);
    var top := Dict([(b, v2)]);
    var ws := if x.Null? then [(k, Null), (k, Null)] else [(k, x)];
    NestedLeaf(5, bare, p4, e, x);
    LevelSingle(5, bare, p4, e, x);
    NestedDict(4, bare, p3, d, v4);
    LevelSingle(4, bare, p3, d, v4);
    NestedDict(3, bare, p2, c, v3);
    LevelSingle(3, bare, p2, c, v3);
    NestedDict(2, bare, a, b, v2);
    LevelSingle(2, bare, a, b, v2);
    assert Level(2, bare, a, top.entries) == Ok(ws);
    FieldOfDict(record, bare, a, top);
    DottedSingle(record, bare, a, top);
    assert Dotted([(a, top)], record, bare) == Ok(PutAll([], ws));
    PutAllSame(k, x);
  }

  /** Assigning a key of an empty dictionary once, or `None` twice, leaves
      that one entry. */
  lemma {:induction false} PutAllSame(k: string, x: Value)
    ensures PutAll([], if x.Null? then [(k, Null), (k, Null)] else [(k, x)]) == [(k, x)]
  {
    var one := [(k, x)];
    assert one[..0] == [];
    assert KeyIndex([], k) == None;
    assert PutAll([], one) == Put([], k, x) == [(k, x)];
    if x.Null? {
      var ws := [(k, Null), (k, Null)];
      assert ws[..1] == one;
      assert KeyIndex(one, k) == Some(0);
      assert PutAll([], ws) == Put(one, k, Null) == one[0 := (k, Null)];
    }
  }

  /** A dictionary-valued field is walked from the second level. */
  lemma {:induction false} FieldOfDict(record: bool, bare: bool, key: string, v: Value)
    requires key != Ignored && v.Dict?
    ensures Field(record, bare, key, v) == Level(2, bare, key, v.entries)
  {
    var w := Level(2, bare, key, v.entries);
    if w.Ok? {
      assert [] + w.value == w.value;
    }
  }

  /** A one-field record flattens to its field's assignments. */
  lemma {:induction false} DottedSingle(record: bool, bare: bool, key: string, v: Value)
    ensures Field(record, bare, key, v).Ok? ==>
      Dotted([(key, v)], record, bare) == Ok(PutAll([], Field(record, bare, key, v).value))
    ensures Field(record, bare, key, v).Raised? ==> Dotted([(key, v)], record, bare).Raised?
  {
    var data := [(key, v)];
    assert data[..|data| - 1] == [] && data[|data| - 1] == (key, v);
    assert Writes([], record, bare) == Ok([]);
    if Field(record, bare, key, v).Ok? {
      assert [] + Field(record, bare, key, v).value == Field(record, bare, key, v).value;
      assert Writes(data, record, bare) == Ok(Field(record, bare, key, v).value);
    }
  }
}
