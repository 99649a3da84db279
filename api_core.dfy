/** `parse_configuration`'s check of a configuration dictionary: profile
    names listed in an authentication profile group that are not keys of
    `authentication_profiles` are removed from the group's list in place,
    with the list's own iterator running over it as it shrinks. */
module ApiCore {
  import opened Wrappers
  import opened Text
  import opened Py

  const Profiles := "authentication_profiles"
  const ProfileGroups := "authentication_profile_groups"

  // ---------------------------------------------------------------------
  // One group's list
  // ---------------------------------------------------------------------

  /** `profile in valid_authentication_profiles`: the key list holds only
      strings, so only an equal string is found. */
  predicate Valid(p: Value, valid: seq<string>) {
    p.Str? && p.s in valid
  }

  /** The warning for an invalid profile of a group. */
  function Warning(group: string, p: Value): string {
    "Authentication profile group '" + group + "' contains invalid authentication profile '" + PyStr(p) + "'."
  }

  /** `if msg not in warnings: warnings.append(msg)` */
  function Note(warnings: seq<string>, msg: string): (r: seq<string>)
    ensures msg in r && forall m :: m in r ==> m in warnings || m == msg
    ensures Distinct(warnings) ==> Distinct(r)
  {
    if msg in warnings then warnings else warnings + [msg]
  }

  /** `list.remove` compares by identity first, then by `==`. */
  predicate Matches(x: Value, p: Value) {
    x == p || PyEq(x, p)
  }

  /** The position `list.remove(p)` removes: the first element matching `p`. */
  function FirstMatch(xs: seq<Value>, p: Value): (r: Option<nat>)
    ensures r.Some? ==> r.value < |xs| && Matches(xs[r.value], p)
    ensures r.Some? ==> forall j :: 0 <= j < r.value ==> !Matches(xs[j], p)
    ensures r.None? ==> forall j :: 0 <= j < |xs| ==> !Matches(xs[j], p)
  {
    if |xs| == 0 then None
    else if Matches(xs[0], p) then Some(0)
    else match FirstMatch(xs[1..], p)
      case None => None
      case Some(j) => Some(j + 1)
  }

  /** `xs.remove(p)` for a `p` that `xs` holds. */
  function Remove(xs: seq<Value>, p: Value): (r: seq<Value>)
    requires p in xs
    ensures |r| == |xs| - 1
  {
    var j := FirstMatch(xs, p);
    if j.None? then assert false; xs
    else xs[..j.value] + xs[j.value + 1..]
  }

  /** The list after `for profile in xs: ... xs.remove(profile)` from the
      iterator's position `i`: the iterator advances by one position every
      step, so the element that slides into a removed one's place is never
      looked at. */
  function Kept(xs: seq<Value>, i: nat, valid: seq<string>): seq<Value>
    decreases |xs| - i
  {
    if i >= |xs| then xs
    else if Valid(xs[i], valid) then Kept(xs, i + 1, valid)
    else Kept(Remove(xs, xs[i]), i + 1, valid)
  }

  /** The warnings the same loop records. */
  function Warned(group: string, xs: seq<Value>, i: nat, valid: seq<string>, warnings: seq<string>): seq<string>
    decreases |xs| - i
  {
    if i >= |xs| then warnings
    else if Valid(xs[i], valid) then Warned(group, xs, i + 1, valid, warnings)
    else Warned(group, Remove(xs, xs[i]), i + 1, valid, Note(warnings, Warning(group, xs[i])))
  }

  /** The inner loop over one group's list. */
  method PruneList(group: string, xs: seq<Value>, valid: seq<string>, warnings: seq<string>)
    returns (ys: seq<Value>, ws: seq<string>)
    ensures ys == Kept(xs, 0, valid) && ws == Warned(group, xs, 0, valid, warnings)
  {
    ys, ws := xs, warnings;
    var i := 0;
    while i < |ys|
      invariant Kept(xs, 0, valid) == Kept(ys, i, valid)
      invariant Warned(group, xs, 0, valid, warnings) == Warned(group, ys, i, valid, ws)
      decreases |ys| - i
    {
      var profile := ys[i];
      if !Valid(profile, valid) {
        ws := Note(ws, Warning(group, profile));
        ys := Remove(ys, profile);
      }
      i := i + 1;
    }
  }

  /** An element that matches an invalid profile is itself invalid. */
  lemma {:induction false} MatchInvalid(x: Value, p: Value, valid: seq<string>)
    requires Matches(x, p) && !Valid(p, valid)
    ensures !Valid(x, valid)
  {
  }

  /** Removing an invalid profile takes out one invalid element and nothing
      else. */
  lemma {:induction false} RemoveInvalid(xs: seq<Value>, p: Value, valid: seq<string>)
    requires p in xs && !Valid(p, valid)
    ensures exists x :: x in xs && !Valid(x, valid) && multiset(Remove(xs, p)) == multiset(xs) - multiset{x}
  {
    var j := FirstMatch(xs, p).value;
    MatchInvalid(xs[j], p, valid);
    var before, after := xs[..j], xs[j + 1..];
    assert Remove(xs, p) == before + after;
    assert xs == before + [xs[j]] + after;
    assert multiset(xs) == multiset(before) + multiset{xs[j]} + multiset(after);
    assert multiset(Remove(xs, p)) == multiset(xs) - multiset{xs[j]};
  }

  /** Valid profiles are never removed, and nothing is ever added. */
  lemma {:induction false} KeptValid(xs: seq<Value>, i: nat, valid: seq<string>, v: Value)
    ensures multiset(Kept(xs, i, valid)) <= multiset(xs)
    ensures Valid(v, valid) ==> multiset(Kept(xs, i, valid))[v] == multiset(xs)[v]
    decreases |xs| - i
  {
    if i < |xs| {
      if Valid(xs[i], valid) {
        KeptValid(xs, i + 1, valid, v);
      } else {
        RemoveInvalid(xs, xs[i], valid);
        var x :| x in xs && !Valid(x, valid) && multiset(Remove(xs, xs[i])) == multiset(xs) - multiset{x};
        KeptValid(Remove(xs, xs[i]), i + 1, valid, v);
      }
    }
  }

  /** A group of valid profiles only is left as it is. */
  lemma {:induction false} KeptAllValid(xs: seq<Value>, i: nat, valid: seq<string>)
    requires forall j :: 0 <= j < |xs| ==> Valid(xs[j], valid)
    ensures Kept(xs, i, valid) == xs
    decreases |xs| - i
  {
    if i < |xs| {
      KeptAllValid(xs, i + 1, valid);
    }
  }

  /** Two invalid profiles in a row: the first is removed, the second slides
      into its place, the iterator moves past it, and it survives. */
  lemma {:induction false} SecondInvalidSurvives()
    ensures Kept([Str("bad1"), Str("bad2"), Str("good")], 0, ["good"]) == [Str("bad2"), Str("good")]
  {
    var xs := [Str("bad1"), Str("bad2"), Str("good")];
    assert FirstMatch(xs, Str("bad1")) == Some(0);
    assert Remove(xs, Str("bad1")) == [Str("bad2"), Str("good")];
    assert Valid(Str("good"), ["good"]);
  }

  /** Each warning is recorded once, and every new one names an invalid
      profile the group listed. */
  lemma {:induction false} WarnedDistinct(group: string, xs: seq<Value>, i: nat, valid: seq<string>, warnings: seq<string>, m: string)
    requires Distinct(warnings)
    ensures Distinct(Warned(group, xs, i, valid, warnings))
    ensures m in Warned(group, xs, i, valid, warnings) ==>
      m in warnings || exists p :: p in xs && !Valid(p, valid) && m == Warning(group, p)
    decreases |xs| - i
  {
    if i < |xs| {
      if Valid(xs[i], valid) {
        WarnedDistinct(group, xs, i + 1, valid, warnings, m);
      } else {
        var p := xs[i];
        var ws := Note(warnings, Warning(group, p));
        WarnedDistinct(group, Remove(xs, p), i + 1, valid, ws, m);
        if m in Warned(group, xs, i, valid, warnings) && m !in warnings && m != Warning(group, p) {
          var q :| q in Remove(xs, p) && !Valid(q, valid) && m == Warning(group, q);
          RemoveInvalid(xs, p, valid);
          var x :| x in xs && !Valid(x, valid) && multiset(Remove(xs, p)) == multiset(xs) - multiset{x};
          assert q in multiset(Remove(xs, p));
          assert q in xs;
        }
      }
    }
  }

  // ---------------------------------------------------------------------
  // All groups
  // ---------------------------------------------------------------------

  /** A group's value after its loop, when the loop finishes. */
  function Cleaned(v: Value, valid: seq<string>): Value {
    if v.List? then List(Kept(v.items, 0, valid)) else v
  }

  /** What iterating a group's value yields: a dictionary its keys, a string
      its characters; anything else is not iterable (TypeError). */
  function Members(v: Value): Result<seq<Value>> {
    match v
    case List(xs) => Ok(xs)
    case Dict(d) => Ok(seq(|d|, i requires 0 <= i < |d| => Str(d[i].0)))
    case Str(s) => Ok(seq(|s|, i requires 0 <= i < |s| => Str([s[i]])))
    case _ => Raised("TypeError")
  }

  /** The first invalid member, if any. */
  function FirstInvalid(xs: seq<Value>, valid: seq<string>): (r: Option<nat>)
    ensures r.Some? ==> r.value < |xs| && !Valid(xs[r.value], valid)
    ensures r.None? ==> forall j :: 0 <= j < |xs| ==> Valid(xs[j], valid)
  {
    if |xs| == 0 then None
    else if !Valid(xs[0], valid) then Some(0)
    else match FirstInvalid(xs[1..], valid)
      case None => None
      case Some(j) => Some(j + 1)
  }

  /** One group: a list is pruned; a dictionary or string with an invalid
      member records its warning and then fails on `remove`, which neither
      has (AttributeError). */
  function Group(group: string, v: Value, valid: seq<string>, warnings: seq<string>)
    : (r: (Value, seq<string>, Option<string>))
    ensures r.2.None? ==> r.0 == Cleaned(v, valid)
    ensures r.2.Some? ==> r.0 == v
  {
    if v.List? then (List(Kept(v.items, 0, valid)), Warned(group, v.items, 0, valid, warnings), None)
    else match Members(v)
      case Raised(e) => (v, warnings, Some(e))
      case Ok(xs) =>
        match FirstInvalid(xs, valid)
        case None => (v, warnings, None)
        case Some(j) => (v, Note(warnings, Warning(group, xs[j])), Some("AttributeError"))
  }

  /** The groups from position `i` on, in order; the first failure stops the
      loop and leaves the groups before it pruned. */
  function Groups(groups: seq<(string, Value)>, i: nat, valid: seq<string>, warnings: seq<string>)
    : (seq<(string, Value)>, seq<string>, Option<string>)
    decreases |groups| - i
  {
    if i >= |groups| then (groups, warnings, None)
    else
      var (v, ws, e) := Group(groups[i].0, groups[i].1, valid, warnings);
      if e.Some? then (groups, ws, e)
      else Groups(groups[i := (groups[i].0, v)], i + 1, valid, ws)
  }

  /** The loop keeps every group name in place; a group at or after the
      start is either untouched or cleaned, and cleaned for sure once the
      loop finishes. */
  lemma {:induction false} GroupsShape(groups: seq<(string, Value)>, i: nat, valid: seq<string>, warnings: seq<string>, k: nat)
    ensures var r := Groups(groups, i, valid, warnings);
      && |r.0| == |groups|
      && (k < |groups| ==> (r.0[k].0 == groups[k].0
        && (r.0[k].1 == groups[k].1 || (i <= k && r.0[k].1 == Cleaned(groups[k].1, valid)))
        && (r.2.None? && i <= k ==> r.0[k].1 == Cleaned(groups[k].1, valid))))
    decreases |groups| - i
  {
    if i < |groups| {
      var (v, ws, e) := Group(groups[i].0, groups[i].1, valid, warnings);
      if e.None? {
        var next := groups[i := (groups[i].0, v)];
        GroupsShape(next, i + 1, valid, ws, k);
        if k != i || k >= |groups| {
          assert k < |groups| ==> next[k] == groups[k];
        } else {
          var r := Groups(next, i + 1, valid, ws);
          assert r.0[k] == next[k];
        }
      }
    }
  }

  /** The configuration after pruning, the warnings it collected, and the
      exception it raised, if any. */
  datatype Pruning = Pruning(entries: seq<(string, Value)>, warnings: seq<string>, raised: Option<string>)

  /** `xs[e]` on a list: an int, or a bool (which Python takes as 0 or 1),
      counts from the front, a negative one from the back; out of range it
      is IndexError, and any other index is TypeError. */
  function ListIndex(xs: seq<Value>, e: Value): (r: Result<nat>)
    ensures r.Ok? ==> r.value < |xs| && (e.Int? || e.Bool?)
    ensures r.Ok? && e.Int? ==> r.value == if e.i >= 0 then e.i else |xs| + e.i
    ensures r.Ok? && e.Bool? ==> r.value == if e.b then 1 else 0
    ensures r.Raised? <==> !(e.Int? || e.Bool?) || !(-|xs| <= AsIndex(e) < |xs|)
    ensures r.Raised? ==> r.exception == if e.Int? || e.Bool? then "IndexError" else "TypeError"
  {
    if !(e.Int? || e.Bool?) then Raised("TypeError")
    else
      var n := AsIndex(e);
      if n < -|xs| || n >= |xs| then Raised("IndexError")
      else if n >= 0 then Ok(n) else Ok(|xs| + n)
  }

  /** An int or a bool as the integer it indexes with. */
  function AsIndex(e: Value): int
    requires e.Int? || e.Bool?
  {
    if e.Int? then e.i else if e.b then 1 else 0
  }

  /** The groups loop over a list of groups, from position `i` on: each
      element is the index of the group it names, so the loop prunes
      `xs[xs[i]]` in place, and an element that an earlier step pruned is
      read as it now is. The first failure stops the loop. */
  function ListGroups(xs: seq<Value>, i: nat, valid: seq<string>, warnings: seq<string>)
    : (seq<Value>, seq<string>, Option<string>)
    decreases |xs| - i
  {
    if i >= |xs| then (xs, warnings, None)
    else match ListIndex(xs, xs[i])
      case Raised(e) => (xs, warnings, Some(e))
      case Ok(k) =>
        var (v, ws, e) := Group(PyStr(xs[i]), xs[k], valid, warnings);
        if e.Some? then (xs, ws, e)
        else ListGroups(xs[k := v], i + 1, valid, ws)
  }

  /** Pruning runs only when both keys are present; reading the profiles'
      keys needs a dictionary (AttributeError otherwise). The groups are
      iterated: a dictionary gives its group names, a list its elements,
      each then used as an index into the list itself (`ListGroups`), and a
      string its characters, by which a string cannot be indexed
      (TypeError); an empty string iterates nothing, and any other value
      is not iterable (TypeError). Only the groups value changes, and the
      warnings never repeat. */
  function Pruned(cfg: seq<(string, Value)>): (r: Pruning)
    ensures Keys(r.entries) == Keys(cfg)
    ensures Distinct(r.warnings)
  {
    if !HasKey(cfg, Profiles) then Pruning(cfg, [], None)
    else
      var profiles := Get(cfg, Profiles).value;
      if !profiles.Dict? then Pruning(cfg, [], Some("AttributeError"))
      else if !HasKey(cfg, ProfileGroups) then Pruning(cfg, [], None)
      else PrunedGroupsIn(cfg, Keys(profiles.entries), Get(cfg, ProfileGroups).value)
  }

  /** The loop over `groups`, the groups value of `cfg`, with `valid` the
      profile names. */
  function PrunedGroupsIn(cfg: seq<(string, Value)>, valid: seq<string>, groups: Value): (r: Pruning)
    requires Get(cfg, ProfileGroups) == Some(groups)
    ensures Keys(r.entries) == Keys(cfg)
    ensures Distinct(r.warnings)
  {
    match groups
    case Dict(gs) =>
      var r := Groups(gs, 0, valid, []);
      GroupsWarned(gs, 0, valid, [], "");
      Pruning(Put(cfg, ProfileGroups, Dict(r.0)), r.1, r.2)
    case List(xs) =>
      var r := ListGroups(xs, 0, valid, []);
      ListGroupsWarned(xs, 0, valid, []);
      Pruning(Put(cfg, ProfileGroups, List(r.0)), r.1, r.2)
    case Str(s) => if |s| == 0 then Pruning(cfg, [], None) else Pruning(cfg, [], Some("TypeError"))
    case _ => Pruning(cfg, [], Some("TypeError"))
  }

  /** Pruning changes no key but the groups. */
  lemma {:induction false} PrunedOthers(cfg: seq<(string, Value)>, k: string)
    requires k != ProfileGroups
    ensures Get(Pruned(cfg).entries, k) == Get(cfg, k)
  {
    if HasKey(cfg, Profiles) && Get(cfg, Profiles).value.Dict? && HasKey(cfg, ProfileGroups) {
      var valid := Keys(Get(cfg, Profiles).value.entries);
      var groups := Get(cfg, ProfileGroups).value;
      assert Pruned(cfg) == PrunedGroupsIn(cfg, valid, groups);
    }
  }

  /** Without both keys the configuration is left alone. */
  lemma {:induction false} BothKeysNeeded(cfg: seq<(string, Value)>)
    requires !HasKey(cfg, Profiles) || (Get(cfg, Profiles).value.Dict? && !HasKey(cfg, ProfileGroups))
    ensures Pruned(cfg) == Pruning(cfg, [], None)
  {
  }

  /** After a clean check, every group list is pruned, every other group
      value and every other key is untouched, and each warning appears
      once. */
  lemma {:induction false} PrunedGroups(cfg: seq<(string, Value)>, k: string)
    requires HasKey(cfg, Profiles) && HasKey(cfg, ProfileGroups)
    requires Get(cfg, Profiles).value.Dict? && Get(cfg, ProfileGroups).value.Dict?
    requires Pruned(cfg).raised.None?
    ensures var gs := Get(cfg, ProfileGroups).value.entries;
      var valid := Keys(Get(cfg, Profiles).value.entries);
      var out := Get(Pruned(cfg).entries, ProfileGroups);
      && out.Some? && out.value.Dict? && |out.value.entries| == |gs|
      && forall i :: 0 <= i < |gs| ==> out.value.entries[i] == (gs[i].0, Cleaned(gs[i].1, valid))
    ensures k != ProfileGroups ==> Get(Pruned(cfg).entries, k) == Get(cfg, k)
    ensures Distinct(Pruned(cfg).warnings)
  {
    var gs := Get(cfg, ProfileGroups).value.entries;
    var valid := Keys(Get(cfg, Profiles).value.entries);
    var r := Groups(gs, 0, valid, []);
    PrunedDict(cfg);
    if k != ProfileGroups {
      PrunedOthers(cfg, k);
    }
    GroupsCleaned(gs, valid);
    assert Get(Pruned(cfg).entries, ProfileGroups) == Some(Dict(r.0));
  }

  /** With a dictionary of groups, pruning runs the groups loop on it. */
  lemma {:induction false} PrunedDict(cfg: seq<(string, Value)>)
    requires HasKey(cfg, Profiles) && HasKey(cfg, ProfileGroups)
    requires Get(cfg, Profiles).value.Dict? && Get(cfg, ProfileGroups).value.Dict?
    ensures var r := Groups(Get(cfg, ProfileGroups).value.entries, 0, Keys(Get(cfg, Profiles).value.entries), []);
      Pruned(cfg) == Pruning(Put(cfg, ProfileGroups, Dict(r.0)), r.1, r.2)
  {
    var valid := Keys(Get(cfg, Profiles).value.entries);
    var gs := Get(cfg, ProfileGroups).value.entries;
    assert Pruned(cfg) == PrunedGroupsIn(cfg, valid, Dict(gs));
  }

  /** A groups loop that raises nothing cleans every group and keeps its
      name. */
  lemma {:induction false} GroupsCleaned(gs: seq<(string, Value)>, valid: seq<string>)
    requires Groups(gs, 0, valid, []).2.None?
    ensures var r := Groups(gs, 0, valid, []);
      |r.0| == |gs| && forall i :: 0 <= i < |gs| ==> r.0[i] == (gs[i].0, Cleaned(gs[i].1, valid))
  {
    var r := Groups(gs, 0, valid, []);
    GroupsShape(gs, 0, valid, [], 0);
    forall i | 0 <= i < |gs| ensures r.0[i] == (gs[i].0, Cleaned(gs[i].1, valid)) {
      GroupsShape(gs, 0, valid, [], i);
    }
  }

  /** The warnings of the groups loop stay free of repeats. */
  lemma {:induction false} GroupsWarned(groups: seq<(string, Value)>, i: nat, valid: seq<string>, warnings: seq<string>, m: string)
    requires Distinct(warnings)
    ensures Distinct(Groups(groups, i, valid, warnings).1)
    decreases |groups| - i
  {
    if i < |groups| {
      var (g, v) := groups[i];
      if v.List? {
        WarnedDistinct(g, v.items, 0, valid, warnings, m);
      }
      var (v', ws, e) := Group(g, v, valid, warnings);
      if e.None? {
        GroupsWarned(groups[i := (g, v')], i + 1, valid, ws, m);
      }
    }
  }

  /** The warnings of the loop over a list of groups stay free of
      repeats. */
  lemma {:induction false} ListGroupsWarned(xs: seq<Value>, i: nat, valid: seq<string>, warnings: seq<string>)
    requires Distinct(warnings)
    ensures Distinct(ListGroups(xs, i, valid, warnings).1)
    decreases |xs| - i
  {
    if i < |xs| {
      var k := ListIndex(xs, xs[i]);
      if k.Ok? {
        var g, v := PyStr(xs[i]), xs[k.value];
        if v.List? {
          WarnedDistinct(g, v.items, 0, valid, warnings, "");
        }
        var (v', ws, e) := Group(g, v, valid, warnings);
        if e.None? {
          ListGroupsWarned(xs[k.value := v'], i + 1, valid, ws);
        }
      }
    }
  }

  /** The loop over a list of groups keeps its length; a group that is not
      a list stays as it was, and a list group only loses invalid
      profiles, however often it is named. */
  lemma {:induction false} ListGroupsShape(xs: seq<Value>, i: nat, valid: seq<string>, warnings: seq<string>, k: nat, p: Value)
    ensures var r := ListGroups(xs, i, valid, warnings);
      && |r.0| == |xs|
      && (k < |xs| && !xs[k].List? ==> r.0[k] == xs[k])
      && (k < |xs| && xs[k].List? ==>
            && r.0[k].List? && multiset(r.0[k].items) <= multiset(xs[k].items)
            && (Valid(p, valid) ==> multiset(r.0[k].items)[p] == multiset(xs[k].items)[p]))
    decreases |xs| - i
  {
    if i < |xs| {
      var j := ListIndex(xs, xs[i]);
      if j.Ok? {
        var g := Group(PyStr(xs[i]), xs[j.value], valid, warnings);
        if g.2.None? {
          var next := xs[j.value := g.0];
          assert ListGroups(xs, i, valid, warnings) == ListGroups(next, i + 1, valid, g.1);
          ListGroupsShape(next, i + 1, valid, g.1, k, p);
          if k == j.value {
            GroupPrunes(PyStr(xs[i]), xs[k], valid, warnings, p);
          } else if k < |xs| {
            assert next[k] == xs[k];
          }
        }
      }
    }
  }

  /** A group that completes its loop is unchanged unless it is a list,
      and a list only loses invalid profiles. */
  lemma {:induction false} GroupPrunes(group: string, v: Value, valid: seq<string>, warnings: seq<string>, p: Value)
    ensures var g := Group(group, v, valid, warnings);
      g.2.None? ==>
        && (!v.List? ==> g.0 == v)
        && (v.List? ==>
              && g.0.List? && multiset(g.0.items) <= multiset(v.items)
              && (Valid(p, valid) ==> multiset(g.0.items)[p] == multiset(v.items)[p]))
  {
    if v.List? {
      KeptValid(v.items, 0, valid, p);
    }
  }

  /** `[5]` as the groups: 5 is past the end of the list (IndexError), and
      nothing changes. */
  lemma {:induction false} IndexPastEnd(valid: seq<string>, warnings: seq<string>)
    ensures ListGroups([Int(5)], 0, valid, warnings) == ([Int(5)], warnings, Some("IndexError"))
  {
    assert ListIndex([Int(5)], Int(5)) == Raised("IndexError");
  }

  /** `[1, "x"]` as the groups, "x" not a profile: element 1 names the
      string "x", whose one character is invalid, so its warning is
      recorded and `str` has no `remove` (AttributeError). */
  lemma {:induction false} IndexedString(valid: seq<string>)
    requires "x" !in valid
    ensures ListGroups([Int(1), Str("x")], 0, valid, [])
         == ([Int(1), Str("x")], [Warning("1", Str("x"))], Some("AttributeError"))
  {
    var xs := [Int(1), Str("x")];
    assert ListIndex(xs, Int(1)) == Ok(1);
    assert PyStr(Int(1)) == "1" by { assert IntToString(1) == "1"; }
    var m := Members(Str("x")).value;
    assert |m| == 1 && m[0] == Str("x");
    assert m == [Str("x")];
    assert FirstInvalid(m, valid) == Some(0);
    assert Note([], Warning("1", Str("x"))) == [Warning("1", Str("x"))];
    assert Group("1", Str("x"), valid, []) == (Str("x"), [Warning("1", Str("x"))], Some("AttributeError"));
  }

  /** `[1, ["bad"]]` as the groups, "bad" not a profile: element 1 names the
      inner list, which is pruned to `[]` in place; the loop then reads that
      empty list as the next index (TypeError), leaving the pruned list in
      the configuration. */
  lemma {:induction false} PrunedThenIndexed(valid: seq<string>)
    requires "bad" !in valid
    ensures ListGroups([Int(1), List([Str("bad")])], 0, valid, [])
         == ([Int(1), List([])], [Warning("1", Str("bad"))], Some("TypeError"))
  {
    var xs := [Int(1), List([Str("bad")])];
    assert ListIndex(xs, Int(1)) == Ok(1);
    assert PyStr(Int(1)) == "1" by { assert IntToString(1) == "1"; }
    var inner := [Str("bad")];
    assert FirstMatch(inner, Str("bad")) == Some(0);
    assert Remove(inner, Str("bad")) == [];
    assert Kept(inner, 0, valid) == [];
    assert Warned("1", inner, 0, valid, []) == [Warning("1", Str("bad"))];
    assert Group("1", List(inner), valid, []) == (List([]), [Warning("1", Str("bad"))], None);
    var ys := xs[1 := List([])];
    assert ys == [Int(1), List([])];
    assert ListIndex(ys, List([])) == Raised("TypeError");
    assert ListGroups(ys, 1, valid, [Warning("1", Str("bad"))]) == (ys, [Warning("1", Str("bad"))], Some("TypeError"));
    assert ListGroups(xs, 0, valid, []) == ListGroups(ys, 1, valid, [Warning("1", Str("bad"))]);
  }

  /** A non-empty list of groups none of whose elements is an int or a bool
      fails on its first element (TypeError) and changes nothing. */
  lemma {:induction false} ListWithoutIndexRaises(cfg: seq<(string, Value)>)
    requires HasKey(cfg, Profiles) && Get(cfg, Profiles).value.Dict? && HasKey(cfg, ProfileGroups)
    requires var g := Get(cfg, ProfileGroups).value;
      g.List? && |g.items| > 0 && forall j :: 0 <= j < |g.items| ==> !g.items[j].Int? && !g.items[j].Bool?
    ensures Pruned(cfg) == Pruning(cfg, [], Some("TypeError"))
  {
    var g := Get(cfg, ProfileGroups).value;
    var valid := Keys(Get(cfg, Profiles).value.entries);
    assert ListIndex(g.items, g.items[0]) == Raised("TypeError");
    assert ListGroups(g.items, 0, valid, []) == (g.items, [], Some("TypeError"));
    PutSame(cfg, ProfileGroups, g);
    assert PrunedGroupsIn(cfg, valid, g) == Pruning(cfg, [], Some("TypeError"));
  }

  /** The loop over a list of groups. */
  method PruneListGroups(groups: seq<Value>, valid: seq<string>)
    returns (xs: seq<Value>, warnings: seq<string>, raised: Option<string>)
    ensures (xs, warnings, raised) == ListGroups(groups, 0, valid, [])
  {
    xs, warnings := groups, [];
    var i := 0;
    while i < |xs|
      invariant |xs| == |groups| && 0 <= i <= |xs|
      invariant ListGroups(groups, 0, valid, []) == ListGroups(xs, i, valid, warnings)
    {
      var profileGroup := xs[i];
      var k := ListIndex(xs, profileGroup);
      if k.Raised? {
        return xs, warnings, Some(k.exception);
      }
      var v := xs[k.value];
      if v.List? {
        var ys, ws := PruneList(PyStr(profileGroup), v.items, valid, warnings);
        assert Group(PyStr(profileGroup), v, valid, warnings) == (List(ys), ws, None);
        xs := xs[k.value := List(ys)];
        warnings := ws;
      } else {
        var (_, ws, e) := Group(PyStr(profileGroup), v, valid, warnings);
        if e.Some? {
          return xs, ws, e;
        }
        assert xs[k.value := v] == xs;
        warnings := ws;
      }
      i := i + 1;
    }
    raised := None;
  }

  // ---------------------------------------------------------------------
  // The caller's dictionary
  // ---------------------------------------------------------------------

  /** A configuration dictionary passed by the caller, which pruning
      changes in place. */
  class Configuration {
    var entries: seq<(string, Value)>

    constructor (entries: seq<(string, Value)>)
      ensures this.entries == entries
    {
      this.entries := entries;
    }
  }

  /** The loop over the groups. */
  method PruneGroups(groups: seq<(string, Value)>, valid: seq<string>)
    returns (gs: seq<(string, Value)>, warnings: seq<string>, raised: Option<string>)
    ensures (gs, warnings, raised) == Groups(groups, 0, valid, [])
  {
    gs, warnings := groups, [];
    var i := 0;
    while i < |gs|
      invariant |gs| == |groups| && 0 <= i <= |gs|
      invariant Groups(groups, 0, valid, []) == Groups(gs, i, valid, warnings)
    {
      var (profileGroup, v) := gs[i];
      if v.List? {
        var ys, ws := PruneList(profileGroup, v.items, valid, warnings);
        assert Group(profileGroup, v, valid, warnings) == (List(ys), ws, None);
        gs := gs[i := (profileGroup, List(ys))];
        warnings := ws;
      } else {
        var (_, ws, e) := Group(profileGroup, v, valid, warnings);
        if e.Some? {
          return gs, ws, e;
        }
        assert gs[i := (profileGroup, v)] == gs;
        warnings := ws;
      }
      i := i + 1;
    }
    raised := None;
  }

  /** `parse_configuration(configuration)` for a dictionary: the same object
      comes back, changed in place; the warnings are dropped. */
  method ParseConfiguration(configuration: Configuration) returns (r: Result<Configuration>)
    modifies configuration
    ensures configuration.entries == Pruned(old(configuration.entries)).entries
    ensures r.Ok? <==> Pruned(old(configuration.entries)).raised.None?
    ensures r.Ok? ==> r.value == configuration
    ensures r.Raised? ==> Pruned(old(configuration.entries)).raised == Some(r.exception)
  {
    var cfg := configuration.entries;
    if !HasKey(cfg, Profiles) {
      return Ok(configuration);
    }
    var profiles := Get(cfg, Profiles).value;
    if !profiles.Dict? {
      return Raised("AttributeError");
    }
    var valid := Keys(profiles.entries);
    if !HasKey(cfg, ProfileGroups) {
      return Ok(configuration);
    }
    var groups := Get(cfg, ProfileGroups).value;
    if groups.Dict? {
      var gs', warnings, raised := PruneGroups(groups.entries, valid);
      assert Pruned(cfg) == PrunedGroupsIn(cfg, valid, groups) == Pruning(Put(cfg, ProfileGroups, Dict(gs')), warnings, raised);
      configuration.entries := Put(cfg, ProfileGroups, Dict(gs'));
      if raised.Some? {
        return Raised(raised.value);
      }
      return Ok(configuration);
    }
    if groups.List? {
      var xs', warnings, raised := PruneListGroups(groups.items, valid);
      assert Pruned(cfg) == PrunedGroupsIn(cfg, valid, groups) == Pruning(Put(cfg, ProfileGroups, List(xs')), warnings, raised);
      configuration.entries := Put(cfg, ProfileGroups, List(xs'));
      if raised.Some? {
        return Raised(raised.value);
      }
      return Ok(configuration);
    }
    if groups.Str? && |groups.s| == 0 {
      return Ok(configuration);
    }
    return Raised("TypeError");
  }
}
