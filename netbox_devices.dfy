/** `convert_netbox_data`: the device export's flattening of Netbox records
    into one level of dotted keys, its field renames, and the projection of
    every record onto the chosen fields. */
module NetboxDevices {
  import opened Wrappers
  import opened Text
  import opened Py
  import Netbox

  // ---------------------------------------------------------------------
  // Field specifications
  // ---------------------------------------------------------------------

  /** `re.search(r'^(.*?):(.*)$', spec)` as `(group(1), group(2))`: the text
      before the first colon and the rest, where `.` does not cross a line
      break and `$` also matches just before a final one. */
  function SplitSpec(spec: string): (r: Option<(string, string)>)
    ensures r.Some? ==> NoNewline(r.value.0) && NoNewline(r.value.1)
    ensures r.Some? ==> OccursAt(spec, ":", |r.value.0|) && !Contains(r.value.0, ":")
  {
    match Find(spec, ":", 0)
    case None => None
    case Some(i) =>
      var src, rest := spec[..i], spec[i + 1..];
      var dst := if |rest| > 0 && rest[|rest| - 1] == '\n' then rest[..|rest| - 1] else rest;
      if NoNewline(src) && NoNewline(dst) then
        assert !Contains(src, ":") by {
          forall j | 0 <= j ensures !OccursAt(src, ":", j) {
            if j + 1 <= |src| {
              assert src[j..j + 1] == spec[j..j + 1];
              assert !OccursAt(spec, ":", j);
            }
          }
        }
        Some((src, dst))
      else None
  }

  /** A spec `src:dst` whose source has no colon and which holds no line
      break renames `src` to `dst`. */
  lemma {:induction false} SplitRename(src: string, dst: string)
    requires !Contains(src, ":") && NoNewline(src) && NoNewline(dst)
    ensures SplitSpec(src + ":" + dst) == Some((src, dst))
  {
    var spec := src + ":" + dst;
    assert OccursAt(spec, ":", |src|);
    forall j | 0 <= j < |src| ensures !OccursAt(spec, ":", j) {
      if OccursAt(spec, ":", j) {
        assert spec[j] == ':' == src[j];
        assert OccursAt(src, ":", j);
        ContainsAt(src, ":", j);
      }
    }
    assert spec[..|src|] == src && spec[|src| + 1..] == dst;
    if |dst| > 0 {
      assert dst[|dst| - 1] != '\n';
    }
  }

  /** A spec without a colon does not match. */
  lemma {:induction false} NoColonNoMatch(spec: string)
    requires !Contains(spec, ":")
    ensures SplitSpec(spec).None?
  {
  }

  /** `field_dict` (source name to shown name) and `new_field_list` after the
      specs `fields`: each spec maps its source to its shown name and lists
      the shown name; a spec that does not match fails on `None.group`. */
  function Specs(fields: seq<string>): (r: Result<(seq<(string, Value)>, seq<string>)>)
    ensures r.Raised? <==> exists i :: 0 <= i < |fields| && SplitSpec(fields[i]).None?
    ensures r.Ok? ==> (|r.value.1| == |fields|
      && forall i :: 0 <= i < |fields| ==> SplitSpec(fields[i]).Some? && r.value.1[i] == SplitSpec(fields[i]).value.1)
    ensures r.Raised? ==> r.exception == "AttributeError"
  {
    var parsed := Parsed(fields);
    PairsShape(parsed);
    Pairs(parsed)
  }

  /** Every spec split on its first colon, in order. */
  function Parsed(fields: seq<string>): (r: seq<Option<(string, string)>>)
    ensures |r| == |fields| && forall i :: 0 <= i < |fields| ==> r[i] == SplitSpec(fields[i])
  {
    seq(|fields|, i requires 0 <= i < |fields| => SplitSpec(fields[i]))
  }

  /** The loop over the split specs: the first that did not match raises,
      otherwise each maps its source to its shown name. */
  function Pairs(parsed: seq<Option<(string, string)>>): Result<(seq<(string, Value)>, seq<string>)>
    decreases |parsed|
  {
    if |parsed| == 0 then Ok(([], []))
    else
      var before :- Pairs(parsed[..|parsed| - 1]);
      var last := parsed[|parsed| - 1];
      if last.None? then Raised("AttributeError")
      else Ok((Put(before.0, last.value.0, Str(last.value.1)), before.1 + [last.value.1]))
  }

  /** The loop fails exactly when some spec did not match, and otherwise
      lists every shown name in order. */
  lemma {:induction false} PairsShape(parsed: seq<Option<(string, string)>>)
    ensures Pairs(parsed).Raised? <==> exists i :: 0 <= i < |parsed| && parsed[i].None?
    ensures Pairs(parsed).Ok? ==> (|Pairs(parsed).value.1| == |parsed|
      && forall i :: 0 <= i < |parsed| ==> parsed[i].Some? && Pairs(parsed).value.1[i] == parsed[i].value.1)
    ensures Pairs(parsed).Raised? ==> Pairs(parsed).exception == "AttributeError"
    decreases |parsed|
  {
    if |parsed| > 0 {
      var prefix := parsed[..|parsed| - 1];
      PairsShape(prefix);
      assert forall i :: 0 <= i < |prefix| ==> prefix[i] == parsed[i];
      var before := Pairs(prefix);
      if before.Raised? {
        var j :| 0 <= j < |prefix| && prefix[j].None?;
        assert parsed[j].None?;
      } else if parsed[|parsed| - 1].Some? {
        var names := Pairs(parsed).value.1;
        assert names == before.value.1 + [parsed[|parsed| - 1].value.1];
        forall i | 0 <= i < |parsed| ensures parsed[i].Some? && names[i] == parsed[i].value.1 {
          if i < |prefix| {
            assert prefix[i] == parsed[i] && prefix[i].Some?;
            assert names[i] == before.value.1[i] == prefix[i].value.1;
          } else {
            assert |before.value.1| == i;
          }
        }
      }
    }
  }

  // ---------------------------------------------------------------------
  // Flattening one record
  // ---------------------------------------------------------------------

  /** `v.replace('/api', '')[:-1]`: the web page a Netbox API link names. */
  function Page(v: string): string {
    var t := Replace(v, "/api", "");
    if |t| == 0 then t else t[..|t| - 1]
  }

  /** A link without `/api` loses only its last character. */
  lemma {:induction false} PageWithoutApi(v: string)
    requires |v| > 0 && !Contains(v, "/api")
    ensures Page(v) == v[..|v| - 1]
  {
    ReplaceAbsent(v, "/api", "");
  }

  /** The two assignments for a link: the original under `apiKey`, the page
      under `key`. A value without `replace` raises AttributeError. */
  function UrlInto(nf: seq<(string, Value)>, apiKey: string, key: string, v: Value): (r: Result<seq<(string, Value)>>)
    ensures r.Ok? <==> v.Str?
    ensures r.Ok? ==> Get(r.value, key) == Some(Str(Page(v.s)))
    ensures r.Ok? && apiKey != key ==> Get(r.value, apiKey) == Some(v)
  {
    if v.Str? then Ok(Put(Put(nf, apiKey, v), key, Str(Page(v.s)))) else Raised("AttributeError")
  }

  /** A plain value below the top level: a key whose `check` path holds
      `.url` gets the link treatment under `key.replace('.url', '.url_api')`. */
  function Leaf(nf: seq<(string, Value)>, check: string, key: string, v: Value): Result<seq<(string, Value)>> {
    if Contains(check, ".url") then UrlInto(nf, Replace(key, ".url", ".url_api"), key, v)
    else Ok(Put(nf, key, v))
  }

  /** The entries `d` of a dictionary at `level` (2 to 5) under `path`. */
  function Level(nf: seq<(string, Value)>, level: nat, path: string, d: seq<(string, Value)>): Result<seq<(string, Value)>>
    requires 2 <= level <= 5
    decreases 5 - level, |d|
  {
    if |d| == 0 then Ok(nf)
    else
      var next :- Entry(nf, level, path, d[0].0, d[0].1);
      Level(next, level, path, d[1..])
  }

  /** The entry `f: v` at `level` under `path`. A fourth-level value tests its
      parent's path for `.url`; a fifth-level value is never a link; a
      fifth-level dictionary reaches `pformat`, which the module never
      imports (NameError). */
  function Entry(nf: seq<(string, Value)>, level: nat, path: string, f: string, v: Value): Result<seq<(string, Value)>>
    requires 2 <= level <= 5
    decreases 5 - level, 0
  {
    var key := path + Netbox.Sep(level) + f;
    if v.Null? then Ok(Put(nf, key, Null))
    else if v.Dict? then
      if level == 5 then Raised("NameError") else Level(nf, level + 1, key, v.entries)
    else if level == 5 then Ok(Put(nf, key, v))
    else Leaf(nf, if level == 4 then path else key, key, v)
  }

  /** A non-empty list is kept, and `'<key>.list'` joins the elements' field
      that the first element offers first among `display`, `name` and
      `slug`. When it offers none, the first `+=` reads a missing
      `'<key>.list'` (KeyError) or, if an earlier field left one, indexes the
      element with `None`. */
  function ListInto(nf: seq<(string, Value)>, key: string, xs: seq<Value>): Result<seq<(string, Value)>>
    requires |xs| > 0
  {
    var kept := Put(nf, key, List(xs));
    var field :- Netbox.Label(xs[0]);
    match field
    case Some(l) =>
      var names :- Netbox.Labels(xs, l);
      Ok(Put(kept, key + ".list", Str(Join(names, "\n"))))
    case None =>
      if HasKey(kept, key + ".list") && !xs[0].Dict? then Raised("TypeError") else Raised("KeyError")
  }

  /** One top-level field of a record. */
  function FieldInto(nf: seq<(string, Value)>, key: string, v: Value): Result<seq<(string, Value)>> {
    if v.Null? then Ok(Put(nf, key, Null))
    else if v.List? then
      if |v.items| > 0 then ListInto(nf, key, v.items) else Ok(Put(nf, key, Null))
    else if v.Dict? then Level(nf, 2, key, v.entries)
    else if key == "url" then UrlInto(nf, "url_api", key, v)
    else Ok(Put(nf, key, v))
  }

  /** `new_fields` after the fields `item` on top of `nf`. */
  function FlattenFrom(nf: seq<(string, Value)>, item: seq<(string, Value)>): Result<seq<(string, Value)>>
    decreases |item|
  {
    if |item| == 0 then Ok(nf)
    else
      var next :- FieldInto(nf, item[0].0, item[0].1);
      FlattenFrom(next, item[1..])
  }

  /** The flattened record `new_fields`. */
  function Flatten(item: seq<(string, Value)>): Result<seq<(string, Value)>> {
    FlattenFrom([], item)
  }

  /** The inner loop over a record's fields. */
  method FlattenItem(item: seq<(string, Value)>) returns (r: Result<seq<(string, Value)>>)
    ensures r == Flatten(item)
  {
    var newFields: seq<(string, Value)> := [];
    var i := 0;
    while i < |item|
      invariant 0 <= i <= |item|
      invariant Flatten(item) == FlattenFrom(newFields, item[i..])
    {
      assert item[i..][0] == item[i] && item[i..][1..] == item[i + 1..];
      newFields :- FieldInto(newFields, item[i].0, item[i].1);
      i := i + 1;
    }
    assert item[i..] == [];
    return Ok(newFields);
  }

  /** A link gets two keys: `key.replace('.url', '.url_api')` keeps the
      original and `key` the page; they differ, so both survive. */
  lemma {:induction false} LinkKeys(nf: seq<(string, Value)>, check: string, key: string, u: string)
    requires Contains(check, ".url") && Contains(key, ".url")
    ensures Leaf(nf, check, key, Str(u)).Ok?
    ensures Get(Leaf(nf, check, key, Str(u)).value, key) == Some(Str(Page(u)))
    ensures Get(Leaf(nf, check, key, Str(u)).value, Replace(key, ".url", ".url_api")) == Some(Str(u))
  {
    ReplaceGrows(key, ".url", ".url_api");
  }

  /** A top-level `url` keeps the API link under `url_api` and the page under
      `url`; a value without `replace` raises AttributeError. */
  lemma {:induction false} TopLevelUrl(nf: seq<(string, Value)>, v: Value)
    requires !v.Null? && !v.List? && !v.Dict?
    ensures FieldInto(nf, "url", v).Ok? <==> v.Str?
    ensures v.Str? ==> (Get(FieldInto(nf, "url", v).value, "url_api") == Some(v)
      && Get(FieldInto(nf, "url", v).value, "url") == Some(Str(Page(v.s))))
    ensures !v.Str? ==> FieldInto(nf, "url", v) == Raised("AttributeError")
  {
  }

  /** A dictionary of one entry is that entry. */
  lemma {:induction false} LevelSingle(nf: seq<(string, Value)>, level: nat, path: string, f: string, v: Value)
    requires 2 <= level <= 5
    ensures Level(nf, level, path, [(f, v)]) == Entry(nf, level, path, f, v)
  {
    assert [(f, v)][1..] == [];
  }

  /** `{'site': {'name': n}}` flattens to the key `site.name`. */
  lemma {:induction false} SecondLevel(nf: seq<(string, Value)>, a: string, b: string, v: Value)
    requires !v.Null? && !v.Dict? && !Contains(a + "." + b, ".url")
    ensures FieldInto(nf, a, Dict([(b, v)])) == Ok(Put(nf, a + "." + b, v))
  {
    LevelSingle(nf, 2, a, b, v);
  }

  /** A link two levels down, such as `device_type.manufacturer.url`, keeps
      the API link under `device_type.manufacturer.url_api` and the page
      under the key itself. */
  lemma {:induction false} ThirdLevelLink(nf: seq<(string, Value)>, a: string, b: string, c: string, u: string)
    requires Contains(a + "." + b + "." + c, ".url")
    ensures var k := a + "." + b + "." + c;
      var r := FieldInto(nf, a, Dict([(b, Dict([(c, Str(u))]))]));
      && r.Ok? && Get(r.value, k) == Some(Str(Page(u)))
      && Get(r.value, Replace(k, ".url", ".url_api")) == Some(Str(u))
  {
    var k := a + "." + b + "." + c;
    LevelSingle(nf, 2, a, b, Dict([(c, Str(u))]));
    LevelSingle(nf, 3, a + "." + b, c, Str(u));
    LinkKeys(nf, k, k, u);
  }

  /** Fifth-level keys join the first three names with dots and the rest
      with commas, and a fifth-level value is stored as it is. */
  lemma {:induction false} FifthLevel(nf: seq<(string, Value)>, a: string, b: string, c: string, d: string, e: string, v: Value)
    requires !v.Null? && !v.Dict?
    ensures FieldInto(nf, a, Dict([(b, Dict([(c, Dict([(d, Dict([(e, v)]))]))]))]))
      == Ok(Put(nf, a + "." + b + "." + c + "," + d + "," + e, v))
  {
    var p2, p3, p4 := a + "." + b, a + "." + b + "." + c, a + "." + b + "." + c + "," + d;
    LevelSingle(nf, 2, a, b, Dict([(c, Dict([(d, Dict([(e, v)]))]))]));
    LevelSingle(nf, 3, p2, c, Dict([(d, Dict([(e, v)]))]));
    LevelSingle(nf, 4, p3, d, Dict([(e, v)]));
    LevelSingle(nf, 5, p4, e, v);
  }

  /** A dictionary at the fifth level reaches `pformat`, which is never
      imported: NameError. */
  lemma {:induction false} SixthLevelRaises(nf: seq<(string, Value)>, a: string, b: string, c: string, d: string, e: string, inner: seq<(string, Value)>)
    ensures FieldInto(nf, a, Dict([(b, Dict([(c, Dict([(d, Dict([(e, Dict(inner))]))]))]))]))
      == Raised("NameError")
  {
    var p2, p3, p4 := a + "." + b, a + "." + b + "." + c, a + "." + b + "." + c + "," + d;
    LevelSingle(nf, 2, a, b, Dict([(c, Dict([(d, Dict([(e, Dict(inner))]))]))]));
    LevelSingle(nf, 3, p2, c, Dict([(d, Dict([(e, Dict(inner))]))]));
    LevelSingle(nf, 4, p3, d, Dict([(e, Dict(inner))]));
    LevelSingle(nf, 5, p4, e, Dict(inner));
  }

  /** A non-empty list of records keeps the list and adds `key.list`, the
      field the first record offers first among `display`, `name` and
      `slug`, one per line. */
  lemma {:induction false} ListLabelled(nf: seq<(string, Value)>, key: string, xs: seq<Value>, field: string)
    requires |xs| > 0
    requires forall i :: 0 <= i < |xs| ==> xs[i].Dict? && HasKey(xs[i].entries, field)
    requires field == "display"
             || (field == "name" && !HasKey(xs[0].entries, "display"))
             || (field == "slug" && !HasKey(xs[0].entries, "display") && !HasKey(xs[0].entries, "name"))
    ensures FieldInto(nf, key, List(xs)).Ok?
    ensures Get(FieldInto(nf, key, List(xs)).value, key) == Some(List(xs))
    ensures Get(FieldInto(nf, key, List(xs)).value, key + ".list") == Some(Str(Join(Netbox.Shown(xs, field), "\n")))
  {
    assert Netbox.Label(xs[0]) == Ok(Some(field));
    var names := Netbox.Labels(xs, field);
    assert names.Ok?;
    assert names.value == Netbox.Shown(xs, field);
    assert key != key + ".list";
  }

  /** A list whose first element offers none of the three fields raises:
      KeyError on the missing `key.list`, or TypeError when an earlier
      field left one and the element cannot be indexed by `None`. */
  lemma {:induction false} ListUnlabelled(nf: seq<(string, Value)>, key: string, xs: seq<Value>)
    requires |xs| > 0 && Netbox.Label(xs[0]) == Ok(None)
    ensures FieldInto(nf, key, List(xs)).Raised?
    ensures !HasKey(nf, key + ".list") ==> FieldInto(nf, key, List(xs)) == Raised("KeyError")
  {
    var kept := Put(nf, key, List(xs));
    if !HasKey(nf, key + ".list") {
      assert key + ".list" != key;
      assert Get(kept, key + ".list") == Get(nf, key + ".list");
    }
  }

  // ---------------------------------------------------------------------
  // Field discovery and projection
  // ---------------------------------------------------------------------

  /** With no field specs, each flattened key not yet listed is listed and
      mapped to itself, in first-seen order. */
  function Discover(fieldList: seq<string>, fieldDict: seq<(string, Value)>, keys: seq<string>)
    : (r: (seq<string>, seq<(string, Value)>))
    decreases |keys|
  {
    if |keys| == 0 then (fieldList, fieldDict)
    else if keys[0] in fieldList then Discover(fieldList, fieldDict, keys[1..])
    else Discover(fieldList + [keys[0]], Put(fieldDict, keys[0], Str(keys[0])), keys[1..])
  }

  /** Every entry of the map sends its field to itself. */
  predicate MapsToItself(fieldDict: seq<(string, Value)>) {
    forall i :: 0 <= i < |fieldDict| ==> fieldDict[i].1 == Str(fieldDict[i].0)
  }

  /** Discovery only extends the list, lists every new key, and lists
      nothing else. */
  lemma {:induction false} DiscoverGrows(fieldList: seq<string>, fieldDict: seq<(string, Value)>, keys: seq<string>)
    ensures var fl := Discover(fieldList, fieldDict, keys).0;
      && |fieldList| <= |fl| && fl[..|fieldList|] == fieldList
      && (forall k :: k in keys ==> k in fl)
      && (forall k :: k in fl ==> k in fieldList || k in keys)
    decreases |keys|
  {
    if |keys| > 0 {
      var k := keys[0];
      if k in fieldList {
        DiscoverGrows(fieldList, fieldDict, keys[1..]);
      } else {
        var fl := fieldList + [k];
        DiscoverGrows(fl, Put(fieldDict, k, Str(k)), keys[1..]);
        var fl' := Discover(fl, Put(fieldDict, k, Str(k)), keys[1..]).0;
        assert fl'[..|fieldList|] == fl[..|fieldList|] == fieldList;
        assert fl'[..|fl|][|fieldList|] == k;
      }
    }
  }

  /** Discovery never lists a field twice. */
  lemma {:induction false} DiscoverDistinct(fieldList: seq<string>, fieldDict: seq<(string, Value)>, keys: seq<string>)
    requires Distinct(fieldList)
    ensures Distinct(Discover(fieldList, fieldDict, keys).0)
    decreases |keys|
  {
    if |keys| > 0 {
      var k := keys[0];
      if k in fieldList {
        DiscoverDistinct(fieldList, fieldDict, keys[1..]);
      } else {
        assert Distinct(fieldList + [k]);
        DiscoverDistinct(fieldList + [k], Put(fieldDict, k, Str(k)), keys[1..]);
      }
    }
  }

  /** `tmp`: each mapped source the record holds, under its shown name, in
      the map's order. */
  function Project(fieldDict: seq<(string, Value)>, nf: seq<(string, Value)>): seq<(string, Value)>
    decreases |fieldDict|
  {
    if |fieldDict| == 0 then []
    else
      var before := Project(fieldDict[..|fieldDict| - 1], nf);
      var (src, dst) := fieldDict[|fieldDict| - 1];
      match Get(nf, src)
      case None => before
      case Some(v) => Put(before, PyStr(dst), v)
  }

  /** Every output key is the shown name of a mapped source the record holds,
      and carries that source's value. */
  lemma {:induction false} ProjectSources(fieldDict: seq<(string, Value)>, nf: seq<(string, Value)>, k: string)
    requires HasKey(Project(fieldDict, nf), k)
    ensures exists i :: (0 <= i < |fieldDict| && PyStr(fieldDict[i].1) == k
      && Get(nf, fieldDict[i].0) == Get(Project(fieldDict, nf), k))
    decreases |fieldDict|
  {
    var n := |fieldDict|;
    var prefix := fieldDict[..n - 1];
    var (src, dst) := fieldDict[n - 1];
    if Get(nf, src).Some? && PyStr(dst) == k {
      assert PyStr(fieldDict[n - 1].1) == k;
    } else {
      assert Get(Project(fieldDict, nf), k) == Get(Project(prefix, nf), k);
      ProjectSources(prefix, nf, k);
      var i :| 0 <= i < |prefix| && PyStr(prefix[i].1) == k && Get(nf, prefix[i].0) == Get(Project(prefix, nf), k);
      assert fieldDict[i] == prefix[i];
    }
  }

  /** Every mapped source the record holds shows up under its shown name. */
  lemma {:induction false} ProjectCovers(fieldDict: seq<(string, Value)>, nf: seq<(string, Value)>, i: nat)
    requires i < |fieldDict| && HasKey(nf, fieldDict[i].0)
    ensures HasKey(Project(fieldDict, nf), PyStr(fieldDict[i].1))
    decreases |fieldDict|
  {
    var n := |fieldDict|;
    var prefix := fieldDict[..n - 1];
    var k := PyStr(fieldDict[i].1);
    var before := Project(prefix, nf);
    var (src, dst) := fieldDict[n - 1];
    if i < n - 1 {
      assert prefix[i] == fieldDict[i];
      ProjectCovers(prefix, nf, i);
      match Get(nf, src)
      case None =>
        assert Project(fieldDict, nf) == before;
      case Some(v) =>
        assert Project(fieldDict, nf) == Put(before, PyStr(dst), v);
        PutKeeps(before, PyStr(dst), v, k);
    } else {
      assert Get(nf, src).Some?;
      assert Project(fieldDict, nf) == Put(before, PyStr(dst), Get(nf, src).value);
      PutKeeps(before, PyStr(dst), Get(nf, src).value, k);
    }
  }

  /** An assignment keeps every key and adds its own. */
  lemma {:induction false} PutKeeps(d: seq<(string, Value)>, key: string, v: Value, k: string)
    ensures HasKey(Put(d, key, v), k) <==> HasKey(d, k) || k == key
  {
    if k != key {
      assert Get(Put(d, key, v), k) == Get(d, k);
    }
  }

  /** With the map an identity over every key of the record, the projection
      holds exactly the record's values. */
  lemma {:induction false} ProjectIdentity(fieldDict: seq<(string, Value)>, nf: seq<(string, Value)>, k: string)
    requires MapsToItself(fieldDict)
    requires forall j :: 0 <= j < |nf| ==> HasKey(fieldDict, nf[j].0)
    ensures Get(Project(fieldDict, nf), k) == Get(nf, k)
  {
    if HasKey(Project(fieldDict, nf), k) {
      ProjectSources(fieldDict, nf, k);
      var i :| 0 <= i < |fieldDict| && PyStr(fieldDict[i].1) == k
        && Get(nf, fieldDict[i].0) == Get(Project(fieldDict, nf), k);
      assert fieldDict[i].0 == k;
    } else if HasKey(nf, k) {
      var j := KeyIndex(nf, k).value;
      assert HasKey(fieldDict, k);
      var i := KeyIndex(fieldDict, k).value;
      assert PyStr(fieldDict[i].1) == k;
      ProjectCovers(fieldDict, nf, i);
    }
  }

  // ---------------------------------------------------------------------
  // The whole conversion
  // ---------------------------------------------------------------------

  /** The function's running state: `new_field_list`, `field_dict` and
      `new_data`. */
  datatype State = State(fieldList: seq<string>, fieldDict: seq<(string, Value)>, newData: seq<seq<(string, Value)>>)

  /** The state before the first record. */
  function Start(fields: Option<seq<string>>): Result<State> {
    match fields
    case None => Ok(State([], [], []))
    case Some(fs) =>
      var (fd, fl) :- Specs(fs);
      Ok(State(fl, fd, []))
  }

  /** One record: flatten it, stop at `sys.exit(3)` after printing it when
      `show_fields` is set, discover fields when no specs were given, and
      append its projection. */
  function Step(s: State, item: seq<(string, Value)>, discover: bool, show: bool): Result<State> {
    var nf :- Flatten(item);
    if show then Raised("SystemExit")
    else
      var (fl, fd) := if discover then Discover(s.fieldList, s.fieldDict, Keys(nf)) else (s.fieldList, s.fieldDict);
      Ok(State(fl, fd, s.newData + [Project(fd, nf)]))
  }

  /** The state after the records `data`. */
  function Run(s: State, data: seq<seq<(string, Value)>>, discover: bool, show: bool): (r: Result<State>)
    ensures r.Ok? ==> |r.value.newData| == |s.newData| + |data|
    decreases |data|
  {
    if |data| == 0 then Ok(s)
    else
      var before :- Run(s, data[..|data| - 1], discover, show);
      Step(before, data[|data| - 1], discover, show)
  }

  /** `convert_netbox_data(data, fields, show_fields)` as a value. */
  function Convert(data: seq<seq<(string, Value)>>, fields: Option<seq<string>>, show: bool)
    : Result<(seq<string>, seq<seq<(string, Value)>>)>
  {
    var s :- Start(fields);
    var e :- Run(s, data, fields.None?, show);
    Ok((e.fieldList, e.newData))
  }

  /** Once a record raises, so does the whole conversion. */
  lemma {:induction false} RunRaised(s: State, data: seq<seq<(string, Value)>>, j: nat, discover: bool, show: bool)
    requires j <= |data| && Run(s, data[..j], discover, show).Raised?
    ensures Run(s, data, discover, show) == Run(s, data[..j], discover, show)
    decreases |data| - j
  {
    if j < |data| {
      assert data[..j + 1][..j] == data[..j];
      RunRaised(s, data, j + 1, discover, show);
    } else {
      assert data[..j] == data;
    }
  }

  /** The run over one more record is one more step after the run before it. */
  lemma {:induction false} RunSnoc(s: State, data: seq<seq<(string, Value)>>, i: nat, discover: bool, show: bool)
    requires i < |data| && Run(s, data[..i], discover, show).Ok?
    ensures Run(s, data[..i + 1], discover, show) == Step(Run(s, data[..i], discover, show).value, data[i], discover, show)
  {
    assert data[..i + 1][..i] == data[..i];
  }

  /** With specs given, the state keeps its list and map, and the record for
      `data[j]` is the projection of its flattened form through the map. */
  lemma {:induction false} RunProjects(s: State, data: seq<seq<(string, Value)>>, j: nat)
    requires Run(s, data, false, false).Ok? && j < |data|
    ensures Flatten(data[j]).Ok?
    ensures var e := Run(s, data, false, false).value;
      e.fieldList == s.fieldList && e.fieldDict == s.fieldDict
      && e.newData[|s.newData| + j] == Project(s.fieldDict, Flatten(data[j]).value)
    decreases |data|
  {
    var prefix := data[..|data| - 1];
    if j == |data| - 1 {
      LastProjected(s, data);
    } else {
      RunLast(s, data, false);
      RunProjects(s, prefix, j);
      assert prefix[j] == data[j];
      EarlierProjected(s, data, j);
    }
  }

  /** The last record is the projection of the last flattened record. */
  lemma {:induction false} LastProjected(s: State, data: seq<seq<(string, Value)>>)
    requires Run(s, data, false, false).Ok? && |data| > 0
    ensures Flatten(data[|data| - 1]).Ok?
    ensures var e := Run(s, data, false, false).value;
      e.fieldList == s.fieldList && e.fieldDict == s.fieldDict
      && e.newData[|s.newData| + |data| - 1] == Project(s.fieldDict, Flatten(data[|data| - 1]).value)
  {
    var prefix := data[..|data| - 1];
    RunLast(s, data, false);
    RunKeeps(s, prefix);
    StepProjects(Run(s, prefix, false, false).value, data[|data| - 1]);
  }

  /** One more record leaves the earlier records as they were. */
  lemma {:induction false} EarlierProjected(s: State, data: seq<seq<(string, Value)>>, j: nat)
    requires Run(s, data, false, false).Ok? && j < |data| - 1
    requires Run(s, data[..|data| - 1], false, false).Ok? && Flatten(data[j]).Ok?
    requires Run(s, data[..|data| - 1], false, false).value.newData[|s.newData| + j]
      == Project(s.fieldDict, Flatten(data[j]).value)
    ensures var e := Run(s, data, false, false).value;
      e.fieldList == s.fieldList && e.fieldDict == s.fieldDict
      && e.newData[|s.newData| + j] == Project(s.fieldDict, Flatten(data[j]).value)
  {
    var prefix := data[..|data| - 1];
    RunLast(s, data, false);
    RunKeeps(s, prefix);
    StepProjects(Run(s, prefix, false, false).value, data[|data| - 1]);
  }

  /** With specs given, the state keeps its list and map. */
  lemma {:induction false} RunKeeps(s: State, data: seq<seq<(string, Value)>>)
    requires Run(s, data, false, false).Ok?
    ensures var e := Run(s, data, false, false).value;
      e.fieldList == s.fieldList && e.fieldDict == s.fieldDict
    decreases |data|
  {
    if |data| > 0 {
      RunLast(s, data, false);
      RunKeeps(s, data[..|data| - 1]);
    }
  }

  /** With specs given, one record keeps the list and map and appends the
      record's projection. */
  lemma {:induction false} StepProjects(b: State, item: seq<(string, Value)>)
    requires Step(b, item, false, false).Ok?
    ensures Flatten(item).Ok?
    ensures Step(b, item, false, false).value == State(b.fieldList, b.fieldDict, b.newData + [Project(b.fieldDict, Flatten(item).value)])
  {
  }

  /** The map that sends each listed field to itself, in list order. */
  function Identity(fieldList: seq<string>): (d: seq<(string, Value)>)
    ensures Keys(d) == fieldList && MapsToItself(d)
  {
    var d := seq(|fieldList|, i requires 0 <= i < |fieldList| => (fieldList[i], Str(fieldList[i])));
    assert forall i :: 0 <= i < |d| ==> Keys(d)[i] == fieldList[i];
    d
  }

  /** Discovery from an identity map ends in the identity map of the
      extended list. */
  lemma {:induction false} DiscoverIdentity(fieldList: seq<string>, keys: seq<string>)
    ensures var (fl, fd) := Discover(fieldList, Identity(fieldList), keys); fd == Identity(fl)
    decreases |keys|
  {
    if |keys| > 0 && keys[0] !in fieldList {
      var k := keys[0];
      assert !HasKey(Identity(fieldList), k);
      assert Put(Identity(fieldList), k, Str(k)) == Identity(fieldList) + [(k, Str(k))];
      assert Identity(fieldList) + [(k, Str(k))] == Identity(fieldList + [k]);
      DiscoverIdentity(fieldList + [k], keys[1..]);
    } else if |keys| > 0 {
      DiscoverIdentity(fieldList, keys[1..]);
    }
  }

  /** The state invariant of discovery: the map sends exactly the listed
      fields to themselves, in list order. */
  predicate Discovered(s: State) {
    s.fieldDict == Identity(s.fieldList)
  }

  /** One record without specs keeps the invariant, extends the list by the
      record's new keys, and appends a record holding exactly the values of
      the flattened one. */
  lemma {:induction false} StepDiscovers(b: State, item: seq<(string, Value)>, k: string)
    requires Discovered(b) && Step(b, item, true, false).Ok?
    ensures Flatten(item).Ok?
    ensures var e := Step(b, item, true, false).value;
      Discovered(e) && |b.fieldList| <= |e.fieldList| && e.fieldList[..|b.fieldList|] == b.fieldList
      && |e.newData| == |b.newData| + 1 && e.newData[..|b.newData|] == b.newData
      && Get(e.newData[|b.newData|], k) == Get(Flatten(item).value, k)
      && (k in Keys(Flatten(item).value) ==> k in e.fieldList)
  {
    var nf := Flatten(item).value;
    DiscoverGrows(b.fieldList, b.fieldDict, Keys(nf));
    DiscoverIdentity(b.fieldList, Keys(nf));
    var (fl, fd) := Discover(b.fieldList, b.fieldDict, Keys(nf));
    var e := Step(b, item, true, false).value;
    assert e == State(fl, fd, b.newData + [Project(fd, nf)]);
    assert e.newData[..|b.newData|] == b.newData;
    forall m | 0 <= m < |nf| ensures HasKey(fd, nf[m].0) {
      assert Keys(nf)[m] == nf[m].0;
      assert nf[m].0 in fl;
    }
    ProjectIdentity(fd, nf, k);
  }

  /** Without specs, the run keeps the invariant and only extends the list
      and the records. */
  lemma {:induction false} RunDiscovers(s: State, data: seq<seq<(string, Value)>>)
    requires Discovered(s) && Run(s, data, true, false).Ok?
    ensures var e := Run(s, data, true, false).value;
      Discovered(e) && |s.fieldList| <= |e.fieldList| && e.fieldList[..|s.fieldList|] == s.fieldList
      && e.newData[..|s.newData|] == s.newData
    decreases |data|
  {
    var n := |data|;
    if n > 0 {
      RunLast(s, data, true);
      var b := Run(s, data[..n - 1], true, false).value;
      RunDiscovers(s, data[..n - 1]);
      StepDiscovers(b, data[n - 1], "");
      var e := Run(s, data, true, false).value;
      PrefixChain(s.fieldList, b.fieldList, e.fieldList);
      PrefixChain(s.newData, b.newData, e.newData);
    }
  }

  /** A prefix of a prefix is a prefix. */
  lemma {:induction false} PrefixChain<T>(a: seq<T>, b: seq<T>, c: seq<T>)
    requires |a| <= |b| <= |c| && b[..|a|] == a && c[..|b|] == b
    ensures c[..|a|] == a
  {
    assert c[..|a|] == c[..|b|][..|a|];
  }

  /** Without specs, the field list never holds a field twice. */
  lemma {:induction false} RunDistinct(s: State, data: seq<seq<(string, Value)>>)
    requires Distinct(s.fieldList) && Run(s, data, true, false).Ok?
    ensures Distinct(Run(s, data, true, false).value.fieldList)
    decreases |data|
  {
    if |data| > 0 {
      RunLast(s, data, true);
      var b := Run(s, data[..|data| - 1], true, false).value;
      RunDistinct(s, data[..|data| - 1]);
      DiscoverDistinct(b.fieldList, b.fieldDict, Keys(Flatten(data[|data| - 1]).value));
    }
  }

  /** A run over a non-empty list is the run over all but the last record,
      followed by one step. */
  lemma {:induction false} RunLast(s: State, data: seq<seq<(string, Value)>>, discover: bool)
    requires |data| > 0 && Run(s, data, discover, false).Ok?
    ensures Run(s, data[..|data| - 1], discover, false).Ok?
    ensures Run(s, data, discover, false)
      == Step(Run(s, data[..|data| - 1], discover, false).value, data[|data| - 1], discover, false)
  {
  }

  /** Without specs, the record for `data[j]` holds exactly the values of its
      flattened form. */
  lemma {:induction false} RunRecord(s: State, data: seq<seq<(string, Value)>>, j: nat, k: string)
    requires Discovered(s) && Run(s, data, true, false).Ok? && j < |data|
    ensures Flatten(data[j]).Ok?
    ensures Get(Run(s, data, true, false).value.newData[|s.newData| + j], k) == Get(Flatten(data[j]).value, k)
    decreases |data|
  {
    var n := |data|;
    var prefix := data[..n - 1];
    RunLast(s, data, true);
    var b := Run(s, prefix, true, false).value;
    var e := Run(s, data, true, false).value;
    RunDiscovers(s, prefix);
    StepDiscovers(b, data[n - 1], k);
    if j < n - 1 {
      assert prefix[j] == data[j];
      RunRecord(s, prefix, j, k);
      assert e.newData[|s.newData| + j] == e.newData[..|b.newData|][|s.newData| + j];
    } else {
      assert j == n - 1;
    }
  }

  /** Without specs, every key of every flattened record ends up listed. */
  lemma {:induction false} RunListed(s: State, data: seq<seq<(string, Value)>>, j: nat, k: string)
    requires Discovered(s) && Run(s, data, true, false).Ok? && j < |data|
    ensures Flatten(data[j]).Ok?
    ensures k in Keys(Flatten(data[j]).value) ==> k in Run(s, data, true, false).value.fieldList
    decreases |data|
  {
    var n := |data|;
    var prefix := data[..n - 1];
    RunLast(s, data, true);
    var b := Run(s, prefix, true, false).value;
    var e := Run(s, data, true, false).value;
    RunDiscovers(s, prefix);
    StepDiscovers(b, data[n - 1], k);
    if j < n - 1 {
      assert prefix[j] == data[j];
      RunListed(s, prefix, j, k);
      if k in Keys(Flatten(data[j]).value) {
        PrefixHolds(b.fieldList, e.fieldList, k);
      }
    } else {
      assert j == n - 1;
    }
  }

  /** A name in a list is in every list that extends it. */
  lemma {:induction false} PrefixHolds(a: seq<string>, c: seq<string>, k: string)
    requires |a| <= |c| && c[..|a|] == a && k in a
    ensures k in c
  {
    var m :| 0 <= m < |a| && a[m] == k;
    assert c[..|a|][m] == k;
  }

  /** The conversion is the run from the state its specs give. */
  lemma {:induction false} ConvertRuns(data: seq<seq<(string, Value)>>, fields: Option<seq<string>>, show: bool, s: State)
    requires Start(fields) == Ok(s)
    ensures var r := Run(s, data, fields.None?, show);
      Convert(data, fields, show) == if r.Ok? then Ok((r.value.fieldList, r.value.newData)) else Raised(r.exception)
  {
  }

  /** Without specs, the conversion is the run from the empty state. */
  lemma {:induction false} ConvertNone(data: seq<seq<(string, Value)>>)
    requires Convert(data, None, false).Ok?
    ensures Run(State([], [], []), data, true, false).Ok?
    ensures var e := Run(State([], [], []), data, true, false).value;
      Convert(data, None, false).value == (e.fieldList, e.newData)
  {
    ConvertRuns(data, None, false, State([], [], []));
  }

  /** `convert_netbox_data(data)` without specs: record `j` holds exactly the
      values of the flattened `data[j]`, and the field list, free of
      repeats, names every flattened key. */
  lemma {:induction false} DiscoveredRecords(data: seq<seq<(string, Value)>>, j: nat, k: string)
    requires Convert(data, None, false).Ok? && j < |data|
    ensures Flatten(data[j]).Ok?
    ensures Get(Convert(data, None, false).value.1[j], k) == Get(Flatten(data[j]).value, k)
    ensures k in Keys(Flatten(data[j]).value) ==> k in Convert(data, None, false).value.0
    ensures Distinct(Convert(data, None, false).value.0)
  {
    DiscoveredValues(data, j, k);
    DiscoveredListed(data, j, k);
    DiscoveredDistinct(data);
  }

  lemma {:induction false} DiscoveredValues(data: seq<seq<(string, Value)>>, j: nat, k: string)
    requires Convert(data, None, false).Ok? && j < |data|
    ensures Flatten(data[j]).Ok?
    ensures Get(Convert(data, None, false).value.1[j], k) == Get(Flatten(data[j]).value, k)
  {
    var s := State([], [], []);
    assert Discovered(s);
    ConvertNone(data);
    RunRecord(s, data, j, k);
  }

  lemma {:induction false} DiscoveredListed(data: seq<seq<(string, Value)>>, j: nat, k: string)
    requires Convert(data, None, false).Ok? && j < |data|
    ensures Flatten(data[j]).Ok?
    ensures k in Keys(Flatten(data[j]).value) ==> k in Convert(data, None, false).value.0
  {
    var s := State([], [], []);
    assert Discovered(s);
    ConvertNone(data);
    RunListed(s, data, j, k);
  }

  lemma {:induction false} DiscoveredDistinct(data: seq<seq<(string, Value)>>)
    requires Convert(data, None, false).Ok?
    ensures Distinct(Convert(data, None, false).value.0)
  {
    var s := State([], [], []);
    ConvertNone(data);
    RunDistinct(s, data);
  }

  /** `convert_netbox_data(data, fields)`: the field list is the shown names
      in spec order, and record `j` is the flattened `data[j]` projected
      through the spec map. */
  lemma {:induction false} SpecRecords(data: seq<seq<(string, Value)>>, fields: seq<string>, j: nat)
    requires Convert(data, Some(fields), false).Ok? && j < |data|
    ensures Specs(fields).Ok? && Flatten(data[j]).Ok?
    ensures Convert(data, Some(fields), false).value.0 == Specs(fields).value.1
    ensures Convert(data, Some(fields), false).value.1[j] == Project(Specs(fields).value.0, Flatten(data[j]).value)
  {
    var (fd, fl) := Specs(fields).value;
    RunProjects(State(fl, fd, []), data, j);
  }

  /** The spec loop. */
  method ParseFields(fields: seq<string>) returns (r: Result<(seq<(string, Value)>, seq<string>)>)
    ensures r == Specs(fields)
  {
    ghost var parsed := Parsed(fields);
    var fieldDict: seq<(string, Value)> := [];
    var newFieldList: seq<string> := [];
    var i := 0;
    while i < |fields|
      invariant 0 <= i <= |fields|
      invariant Pairs(parsed[..i]) == Ok((fieldDict, newFieldList))
    {
      assert parsed[..i + 1][..i] == parsed[..i];
      var tmp := SplitSpec(fields[i]);
      if tmp.None? {
        assert parsed[i].None?;
        return Raised("AttributeError");
      }
      fieldDict := Put(fieldDict, tmp.value.0, Str(tmp.value.1));
      newFieldList := newFieldList + [tmp.value.1];
      i := i + 1;
    }
    assert parsed[..i] == parsed;
    return Ok((fieldDict, newFieldList));
  }

  /** The discovery loop over a flattened record's keys. */
  method DiscoverFields(fieldList: seq<string>, fieldDict: seq<(string, Value)>, keys: seq<string>)
    returns (fl: seq<string>, fd: seq<(string, Value)>)
    ensures (fl, fd) == Discover(fieldList, fieldDict, keys)
  {
    fl, fd := fieldList, fieldDict;
    var i := 0;
    while i < |keys|
      invariant 0 <= i <= |keys|
      invariant Discover(fieldList, fieldDict, keys) == Discover(fl, fd, keys[i..])
    {
      assert keys[i..][0] == keys[i] && keys[i..][1..] == keys[i + 1..];
      if keys[i] !in fl {
        fl := fl + [keys[i]];
        fd := Put(fd, keys[i], Str(keys[i]));
      }
      i := i + 1;
    }
    assert keys[i..] == [];
  }

  /** The projection loop. */
  method ProjectFields(fieldDict: seq<(string, Value)>, newFields: seq<(string, Value)>)
    returns (tmp: seq<(string, Value)>)
    ensures tmp == Project(fieldDict, newFields)
  {
    tmp := [];
    var i := 0;
    while i < |fieldDict|
      invariant 0 <= i <= |fieldDict|
      invariant tmp == Project(fieldDict[..i], newFields)
    {
      assert fieldDict[..i + 1][..i] == fieldDict[..i];
      var field := fieldDict[i].0;
      if HasKey(newFields, field) {
        tmp := Put(tmp, PyStr(fieldDict[i].1), Get(newFields, field).value);
      }
      i := i + 1;
    }
    assert fieldDict[..i] == fieldDict;
  }

  /** The body of the loop over the records. */
  method ConvertItem(s: State, item: seq<(string, Value)>, discover: bool, show: bool) returns (r: Result<State>)
    ensures r == Step(s, item, discover, show)
  {
    var newFields :- FlattenItem(item);
    if show {
      return Raised("SystemExit");
    }
    var newFieldList, fieldDict := s.fieldList, s.fieldDict;
    if discover {
      newFieldList, fieldDict := DiscoverFields(newFieldList, fieldDict, Keys(newFields));
    }
    var tmp := ProjectFields(fieldDict, newFields);
    return Ok(State(newFieldList, fieldDict, s.newData + [tmp]));
  }

  /** `convert_netbox_data(data, fields, show_fields)`: `fields` is `None`
      or the specs; the printout before `sys.exit(3)` is not modelled. */
  method ConvertNetboxData(data: seq<seq<(string, Value)>>, fields: Option<seq<string>>, show: bool)
    returns (r: Result<(seq<string>, seq<seq<(string, Value)>>)>)
    ensures r == Convert(data, fields, show)
  {
    var s := State([], [], []);
    if fields.Some? {
      var parsed := ParseFields(fields.value);
      if parsed.Raised? {
        return Raised(parsed.exception);
      }
      s := State(parsed.value.1, parsed.value.0, []);
    }
    assert Start(fields) == Ok(s);
    var e :- RunRecords(s, data, fields.None?, show);
    return Ok((e.fieldList, e.newData));
  }

  /** The loop over the records, from the state `s0` before the first. */
  method RunRecords(s0: State, data: seq<seq<(string, Value)>>, discover: bool, show: bool) returns (r: Result<State>)
    ensures r == Run(s0, data, discover, show)
  {
    var s := s0;
    var i := 0;
    while i < |data|
      invariant 0 <= i <= |data|
      invariant Run(s0, data[..i], discover, show) == Ok(s)
    {
      RunSnoc(s0, data, i, discover, show);
      var next := ConvertItem(s, data[i], discover, show);
      if next.Raised? {
        RunRaised(s0, data, i + 1, discover, show);
        return Raised(next.exception);
      }
      s := next.value;
      i := i + 1;
    }
    assert data[..i] == data;
    return Ok(s);
  }
}
