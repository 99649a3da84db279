/** What the line-oriented analyzers share: the opening guard on their
    arguments and the fold that turns the lines of a command's output into
    dictionary assignments. */
module Analyzer {
  import opened Wrappers
  import opened Text
  import opened Py

  /** An analyzer's answer: `(False, message)` for arguments it refuses, or
      its verdict and the collection it filled in. */
  datatype Outcome = Refused(message: string) | Analysed(ok: bool, collection: seq<(string, Value)>)

  /** How an analyzer starts: it refuses the arguments, or works on the
      output text and the entries of the collection. */
  datatype Opening = Refuse(message: string) | Begin(text: string, entries: seq<(string, Value)>)

  /** The guard every analyzer opens with: a missing collection becomes a
      fresh dictionary, any other non-dictionary is refused, and so is an
      output that is not text. */
  function Open(output: Value, collection: Value, command: string): (r: Opening)
    ensures r.Begin? <==> (collection.Null? || collection.Dict?) && output.Str?
    ensures r.Begin? ==> r.text == output.s && r.entries == if collection.Dict? then collection.entries else []
    ensures !(collection.Null? || collection.Dict?) ==> r == Refuse("Collection should be in 'dict' format.")
    ensures (collection.Null? || collection.Dict?) && !output.Str? ==>
      r == Refuse("Output from '" + command + "' command should be in string format.")
  {
    if !(collection.Null? || collection.Dict?) then Refuse("Collection should be in 'dict' format.")
    else if !output.Str? then Refuse("Output from '" + command + "' command should be in string format.")
    else Begin(output.s, if collection.Dict? then collection.entries else [])
  }

  /** The assignments the lines make, in line order: each line gives at most
      one `key = value`, and the first line whose parse raises ends it. */
  function Gather(lines: seq<string>, entry: string -> Result<Option<(string, Value)>>): Result<seq<(string, Value)>>
    decreases |lines|
  {
    if |lines| == 0 then Ok([])
    else
      var ws :- Gather(lines[..|lines| - 1], entry);
      var e :- entry(lines[|lines| - 1]);
      Ok(if e.Some? then ws + [e.value] else ws)
  }

  /** The value the last line that assigns `k` gives it. */
  function LastEntry(lines: seq<string>, entry: string -> Result<Option<(string, Value)>>, k: string): Option<Value>
    decreases |lines|
  {
    if |lines| == 0 then None
    else
      var e := entry(lines[|lines| - 1]);
      if e.Ok? && e.value.Some? && e.value.value.0 == k then Some(e.value.value.1)
      else LastEntry(lines[..|lines| - 1], entry, k)
  }

  /** The fold raises exactly when one of the lines does. */
  lemma {:induction false} GatherRaises(lines: seq<string>, entry: string -> Result<Option<(string, Value)>>)
    ensures Gather(lines, entry).Raised? <==> exists i :: 0 <= i < |lines| && entry(lines[i]).Raised?
    decreases |lines|
  {
    if |lines| > 0 {
      var init := lines[..|lines| - 1];
      GatherRaises(init, entry);
      assert forall i :: 0 <= i < |init| ==> init[i] == lines[i];
      if exists i :: 0 <= i < |lines| && entry(lines[i]).Raised? {
        var i :| 0 <= i < |lines| && entry(lines[i]).Raised?;
        if i < |init| { assert entry(init[i]).Raised?; }
      }
    }
  }

  /** Once the lines are gathered, the last assignment of `k` is the one
      the last line that assigns `k` makes. */
  lemma {:induction false} GatherLast(lines: seq<string>, entry: string -> Result<Option<(string, Value)>>, k: string)
    requires Gather(lines, entry).Ok?
    ensures LastWrite(Gather(lines, entry).value, k) == LastEntry(lines, entry, k)
    decreases |lines|
  {
    if |lines| > 0 {
      var init := lines[..|lines| - 1];
      GatherLast(init, entry, k);
      var ws := Gather(init, entry).value;
      var e := entry(lines[|lines| - 1]).value;
      if e.Some? {
        assert (ws + [e.value])[..|ws|] == ws;
      }
    }
  }

  /** A dictionary filled from the lines holds, for every key, the value
      the last line assigning that key gives, and no other key. */
  lemma {:induction false} GatheredLookup(d: seq<(string, Value)>, lines: seq<string>, entry: string -> Result<Option<(string, Value)>>, k: string)
    requires Gather(lines, entry).Ok?
    ensures Get(PutAll(d, Gather(lines, entry).value), k) ==
      if LastEntry(lines, entry, k).Some? then LastEntry(lines, entry, k) else Get(d, k)
  {
    GetPutAll(d, Gather(lines, entry).value, k);
    GatherLast(lines, entry, k);
  }

  /** The lines assign nothing exactly when every line parses to nothing. */
  lemma {:induction false} GatherEmpty(lines: seq<string>, entry: string -> Result<Option<(string, Value)>>)
    requires Gather(lines, entry).Ok?
    ensures |Gather(lines, entry).value| == 0 <==> forall i :: 0 <= i < |lines| ==> entry(lines[i]) == Ok(None)
    decreases |lines|
  {
    if |lines| > 0 {
      var init := lines[..|lines| - 1];
      GatherEmpty(init, entry);
      assert forall i :: 0 <= i < |init| ==> init[i] == lines[i];
    }
  }

  /** The first line that raises decides the exception of the whole fold. */
  lemma {:induction false} GatherPrefixRaises(lines: seq<string>, entry: string -> Result<Option<(string, Value)>>, n: nat)
    requires n <= |lines| && Gather(lines[..n], entry).Raised?
    ensures Gather(lines, entry) == Gather(lines[..n], entry)
    decreases |lines|
  {
    if n < |lines| {
      var init := lines[..|lines| - 1];
      assert init[..n] == lines[..n];
      GatherPrefixRaises(init, entry, n);
    } else {
      assert lines[..n] == lines;
    }
  }

  /** One turn of an analyzer's loop over the lines: a line that assigns
      extends the gathered assignments and the dictionary they fill, a line
      that assigns nothing leaves both, and a line that raises raises for
      the whole output. */
  lemma {:induction false} GatherStep(d: seq<(string, Value)>, lines: seq<string>, entry: string -> Result<Option<(string, Value)>>, i: nat, ws: seq<(string, Value)>)
    requires i < |lines| && Gather(lines[..i], entry) == Ok(ws)
    ensures entry(lines[i]).Ok? && entry(lines[i]).value.Some? ==>
      var w := entry(lines[i]).value.value;
      Gather(lines[..i + 1], entry) == Ok(ws + [w]) && PutAll(d, ws + [w]) == Put(PutAll(d, ws), w.0, w.1)
    ensures entry(lines[i]) == Ok(None) ==> Gather(lines[..i + 1], entry) == Ok(ws)
    ensures entry(lines[i]).Raised? ==> Gather(lines, entry) == Raised(entry(lines[i]).exception)
  {
    assert lines[..i + 1][..i] == lines[..i];
    assert lines[..i + 1][i] == lines[i];
    if entry(lines[i]).Ok? && entry(lines[i]).value.Some? {
      var w := entry(lines[i]).value.value;
      assert (ws + [w])[..|ws|] == ws;
    }
    if entry(lines[i]).Raised? {
      GatherPrefixRaises(lines, entry, i + 1);
    }
  }

  /** The collection once the gathered assignments fill a fresh dictionary
      stored under `key`, which is set only when the dictionary is not
      empty. */
  function Filed(c: seq<(string, Value)>, key: string, lines: seq<string>, entry: string -> Result<Option<(string, Value)>>): Result<seq<(string, Value)>> {
    var ws :- Gather(lines, entry);
    var table := PutAll([], ws);
    Ok(if |table| > 0 then Put(c, key, Dict(table)) else c)
  }

  /** The loop of the analyzers that file a table: each line's assignment
      goes into a fresh dictionary, which is stored under `key` when it is
      not empty. */
  method FileTable(c: seq<(string, Value)>, key: string, lines: seq<string>, entry: string -> Result<Option<(string, Value)>>)
    returns (r: Result<seq<(string, Value)>>)
    ensures r == Filed(c, key, lines, entry)
  {
    var table: seq<(string, Value)> := [];
    ghost var ws: seq<(string, Value)> := [];
    for i := 0 to |lines|
      invariant Gather(lines[..i], entry) == Ok(ws) && table == PutAll([], ws)
    {
      GatherStep([], lines, entry, i, ws);
      var e := entry(lines[i]);
      if e.Raised? {
        return Raised(e.exception);
      }
      if e.value.Some? {
        table := Put(table, e.value.value.0, e.value.value.1);
        ws := ws + [e.value.value];
      }
    }
    assert lines[..|lines|] == lines;
    if |table| > 0 {
      return Ok(Put(c, key, Dict(table)));
    }
    return Ok(c);
  }

  /** The filed dictionary maps every key to the value of the last line
      assigning it; when no line assigns, the collection is unchanged. */
  lemma {:induction false} FiledTable(c: seq<(string, Value)>, key: string, lines: seq<string>, entry: string -> Result<Option<(string, Value)>>)
    requires Filed(c, key, lines, entry).Ok?
    ensures (forall i :: 0 <= i < |lines| ==> entry(lines[i]) == Ok(None)) ==> Filed(c, key, lines, entry).value == c
    ensures (exists i :: 0 <= i < |lines| && entry(lines[i]) != Ok(None)) ==>
      exists m :: Filed(c, key, lines, entry).value == Put(c, key, Dict(m)) && forall k :: Get(m, k) == LastEntry(lines, entry, k)
  {
    var ws := Gather(lines, entry).value;
    GatherEmpty(lines, entry);
    PutAllEmpty([], ws);
    var m := PutAll([], ws);
    forall k ensures Get(m, k) == LastEntry(lines, entry, k) {
      GatheredLookup([], lines, entry, k);
    }
  }

  /** Filing raises exactly when a line raises, with the exception of the
      first line that does. */
  lemma {:induction false} FiledRaises(c: seq<(string, Value)>, key: string, lines: seq<string>, entry: string -> Result<Option<(string, Value)>>)
    ensures Filed(c, key, lines, entry).Raised? <==> exists i :: 0 <= i < |lines| && entry(lines[i]).Raised?
    ensures Filed(c, key, lines, entry).Raised? ==>
      exists i :: 0 <= i < |lines| && entry(lines[i]) == Raised(Filed(c, key, lines, entry).exception)
        && forall j :: 0 <= j < i ==> entry(lines[j]).Ok?
  {
    GatherRaises(lines, entry);
    if Gather(lines, entry).Raised? {
      var i :| 0 <= i < |lines| && entry(lines[i]).Raised?;
      var n: nat := 0;
      while n < |lines| && entry(lines[n]).Ok?
        invariant n <= i && Gather(lines[..n], entry).Ok?
        invariant forall j :: 0 <= j < n ==> entry(lines[j]).Ok?
      {
        assert lines[..n + 1][..n] == lines[..n];
        assert lines[..n + 1][n] == lines[n];
        n := n + 1;
      }
      assert lines[..n + 1][..n] == lines[..n];
      assert lines[..n + 1][n] == lines[n];
      GatherPrefixRaises(lines, entry, n + 1);
    }
  }

  /** `[f(x) for x in xs]` where each call may raise: the first call that
      raises ends it. */
  function Collect<T, U>(xs: seq<T>, f: T -> Result<U>): Result<seq<U>>
    decreases |xs|
  {
    if |xs| == 0 then Ok([])
    else
      var us :- Collect(xs[..|xs| - 1], f);
      var u :- f(xs[|xs| - 1]);
      Ok(us + [u])
  }

  /** The list is the calls' values in order, unless a call raises. */
  lemma {:induction false} CollectValues<T, U>(xs: seq<T>, f: T -> Result<U>)
    ensures Collect(xs, f).Raised? <==> exists i :: 0 <= i < |xs| && f(xs[i]).Raised?
    ensures Collect(xs, f).Ok? ==>
      |Collect(xs, f).value| == |xs| && forall i :: 0 <= i < |xs| ==> f(xs[i]) == Ok(Collect(xs, f).value[i])
    decreases |xs|
  {
    if |xs| > 0 {
      var init := xs[..|xs| - 1];
      CollectValues(init, f);
      assert forall i :: 0 <= i < |init| ==> init[i] == xs[i];
      if exists i :: 0 <= i < |xs| && f(xs[i]).Raised? {
        var i :| 0 <= i < |xs| && f(xs[i]).Raised?;
        if i < |init| { assert f(init[i]).Raised?; }
      }
    }
  }

  /** The first call that raises decides the exception. */
  lemma {:induction false} CollectPrefixRaises<T, U>(xs: seq<T>, f: T -> Result<U>, n: nat)
    requires n <= |xs| && Collect(xs[..n], f).Raised?
    ensures Collect(xs, f) == Collect(xs[..n], f)
    decreases |xs|
  {
    if n < |xs| {
      var init := xs[..|xs| - 1];
      assert init[..n] == xs[..n];
      CollectPrefixRaises(init, f, n);
    } else {
      assert xs[..n] == xs;
    }
  }

  /** One turn of a loop that builds the list. */
  lemma {:induction false} CollectStep<T, U>(xs: seq<T>, f: T -> Result<U>, j: nat, us: seq<U>)
    requires j < |xs| && Collect(xs[..j], f) == Ok(us)
    ensures f(xs[j]).Ok? ==> Collect(xs[..j + 1], f) == Ok(us + [f(xs[j]).value])
    ensures f(xs[j]).Raised? ==> Collect(xs, f) == Raised(f(xs[j]).exception)
  {
    assert xs[..j + 1][..j] == xs[..j];
    assert xs[..j + 1][j] == xs[j];
    if f(xs[j]).Raised? {
      CollectPrefixRaises(xs, f, j + 1);
    }
  }

  /** `c[a]`, created as an empty dictionary when missing. */
  function WithKey(c: seq<(string, Value)>, a: string): (r: seq<(string, Value)>)
    ensures Get(r, a).Some?
  {
    if Get(c, a).Some? then c else Put(c, a, Dict([]))
  }

  /** `outer[b]` created as an empty dictionary when `b not in outer`; the
      test and the assignment each raise on a value that does not take
      them. */
  function WithInner(outer: Value, b: string): Result<Value> {
    var present :- In(Str(b), outer);
    if present then Ok(outer) else SetItem(outer, b, Dict([]))
  }

  /** `outer[b][k] = v` */
  function AssignIn(outer: Value, b: string, k: string, v: Value): Result<Value> {
    var inner :- Index(outer, b);
    var inner1 :- SetItem(inner, k, v);
    SetItem(outer, b, inner1)
  }

  /** `c[a][b][k] = v` after creating `c[a]` and `c[a][b]` when missing. */
  function SetIn(c: seq<(string, Value)>, a: string, b: string, k: string, v: Value): Result<seq<(string, Value)>> {
    var c1 := WithKey(c, a);
    var outer :- WithInner(Get(c1, a).value, b);
    var outer1 :- AssignIn(outer, b, k, v);
    Ok(Put(c1, a, outer1))
  }

  /** The entries of the dictionary `c[a]`, or none. */
  function EntriesOf(c: seq<(string, Value)>, a: string): seq<(string, Value)> {
    match Get(c, a)
    case Some(Dict(l)) => l
    case _ => []
  }

  /** A nested assignment where `c[a][b]` is missing creates it holding
      just the one entry, keeping what `c[a]` held. */
  lemma {:induction false} SetInNew(c: seq<(string, Value)>, a: string, b: string, k: string, v: Value)
    requires Get(c, a).None? || (Get(c, a).value.Dict? && !HasKey(Get(c, a).value.entries, b))
    ensures SetIn(c, a, b, k, v) == Ok(Put(c, a, Dict(Put(EntriesOf(c, a), b, Dict(Put([], k, v))))))
  {
    var l := EntriesOf(c, a);
    var c1 := WithKey(c, a);
    assert Get(c1, a) == Some(Dict(l));
    var l1 := Put(l, b, Dict([]));
    assert WithInner(Dict(l), b) == Ok(Dict(l1));
    var inner1 := Dict(Put([], k, v));
    AssignOnto(l1, b, [], k, v);
    PutTwice(l, b, Dict([]), inner1);
    if Get(c, a).None? {
      PutTwice(c, a, Dict([]), Dict(Put(l, b, inner1)));
    }
  }

  /** A nested assignment where both levels are dictionaries updates the
      inner one in place. */
  lemma {:induction false} SetInOnto(c: seq<(string, Value)>, a: string, l: seq<(string, Value)>, b: string, t: seq<(string, Value)>, k: string, v: Value)
    requires Get(c, a) == Some(Dict(l)) && Get(l, b) == Some(Dict(t))
    ensures SetIn(c, a, b, k, v) == Ok(Put(c, a, Dict(Put(l, b, Dict(Put(t, k, v))))))
  {
    assert WithKey(c, a) == c;
    assert In(Str(b), Dict(l)) == Ok(true);
    assert WithInner(Dict(l), b) == Ok(Dict(l));
    AssignOnto(l, b, t, k, v);
  }

  lemma {:induction false} AssignOnto(l: seq<(string, Value)>, b: string, t: seq<(string, Value)>, k: string, v: Value)
    requires Get(l, b) == Some(Dict(t))
    ensures AssignIn(Dict(l), b, k, v) == Ok(Dict(Put(l, b, Dict(Put(t, k, v)))))
  {
  }
}

