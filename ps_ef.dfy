/** The analysis of `ps -ef -w -w`: the first line names the columns, every
    further line becomes one process record, and the records are stored as
    `linux.active_processes`. */
module PsEf {
  import opened Wrappers
  import opened Text
  import opened Py
  import opened Analyzer

  const Command := "ps -ef"

  /** The pieces that are not empty, in order. */
  function NonEmpty(pieces: seq<string>): (r: seq<string>)
    ensures forall i :: 0 <= i < |r| ==> r[i] != ""
    ensures |r| <= |pieces|
    decreases |pieces|
  {
    if |pieces| == 0 then []
    else NonEmpty(pieces[..|pieces| - 1]) + (if pieces[|pieces| - 1] == "" then [] else [pieces[|pieces| - 1]])
  }

  /** `line.split(' ')` with every empty piece removed: the words of a line. */
  function Tokens(line: string): seq<string> {
    NonEmpty(Split(line, " "))
  }

  /** The dictionary one process line gives under the header's field names:
      token `j` goes to field `j`; a token past the last field is added to
      that field's text after a space, and there is no last field when the
      header is empty. */
  function Record(fields: seq<string>, row: seq<string>): Result<seq<(string, Value)>>
    decreases |row|
  {
    if |row| == 0 then Ok([])
    else
      var proc :- Record(fields, row[..|row| - 1]);
      var j := |row| - 1;
      if j < |fields| then Ok(Put(proc, fields[j], Str(row[j])))
      else if |fields| == 0 then Raised("IndexError")
      else
        var last := fields[|fields| - 1];
        match Get(proc, last)
        case None => Raised("KeyError")
        case Some(v) => Ok(Put(proc, last, Str(PyStr(v) + " " + row[j])))
  }

  /** The process one line after the header gives. */
  function Process(fields: seq<string>, line: string): Result<Value> {
    var proc :- Record(fields, Tokens(line));
    Ok(Dict(proc))
  }

  /** `Process` under one header, as a value to map over the lines. */
  function ProcessUnder(fields: seq<string>): string -> Result<Value> {
    line => Process(fields, line)
  }

  /** The collection once the records are stored: nothing happens without
      records; otherwise `linux` is created when missing and must be a
      dictionary to take `active_processes`. */
  function Stored(c: seq<(string, Value)>, ps: seq<Value>): Result<seq<(string, Value)>> {
    if |ps| == 0 then Ok(c)
    else
      var linux := match Get(c, "linux") case Some(v) => v case None => Dict([]);
      var linux' :- SetItem(linux, "active_processes", List(ps));
      Ok(Put(c, "linux", linux'))
  }

  /** The collection the analysis leaves, or the exception it raises. */
  function ActiveProcesses(text: string, c: seq<(string, Value)>): Result<seq<(string, Value)>> {
    var lines := Split(text, "\n");
    var ps :- Collect(lines[1..], ProcessUnder(Tokens(lines[0])));
    Stored(c, ps)
  }

  /** What `analyze` returns, or the exception it raises. */
  function Analysis(output: Value, collection: Value): Result<Outcome> {
    match Open(output, collection, Command)
    case Refuse(m) => Ok(Refused(m))
    case Begin(text, c) =>
      match ActiveProcesses(text, c)
      case Ok(c') => Ok(Analysed(true, c'))
      case Raised(e) => Raised(e)
  }

  /** The loop that drops the empty pieces of a split line. */
  method Words(line: string) returns (row: seq<string>)
    ensures row == Tokens(line)
  {
    var pieces := Split(line, " ");
    row := [];
    for i := 0 to |pieces|
      invariant row == NonEmpty(pieces[..i])
    {
      assert pieces[..i + 1][..i] == pieces[..i];
      if pieces[i] != "" {
        row := row + [pieces[i]];
      }
    }
    assert pieces[..|pieces|] == pieces;
  }

  /** The loop that fills one process record from its tokens. */
  method FillRecord(fields: seq<string>, row: seq<string>) returns (r: Result<seq<(string, Value)>>)
    ensures r == Record(fields, row)
  {
    var proc: seq<(string, Value)> := [];
    for j := 0 to |row|
      invariant Record(fields, row[..j]) == Ok(proc)
    {
      RecordNext(fields, row, j, proc);
      if j < |fields| {
        proc := Put(proc, fields[j], Str(row[j]));
      } else if |fields| == 0 {
        RecordPrefixRaises(fields, row, j + 1);
        return Raised("IndexError");
      } else {
        var last := fields[|fields| - 1];
        match Get(proc, last) {
          case None =>
            RecordPrefixRaises(fields, row, j + 1);
            return Raised("KeyError");
          case Some(v) =>
            proc := Put(proc, last, Str(PyStr(v) + " " + row[j]));
        }
      }
    }
    assert row[..|row|] == row;
    return Ok(proc);
  }

  /** The loop over the lines after the header, one process per line. */
  method ProcessList(fields: seq<string>, lines: seq<string>) returns (r: Result<seq<Value>>)
    ensures r == Collect(lines, ProcessUnder(fields))
  {
    var ps: seq<Value> := [];
    for i := 0 to |lines|
      invariant Collect(lines[..i], ProcessUnder(fields)) == Ok(ps)
    {
      var row := Words(lines[i]);
      var proc := FillRecord(fields, row);
      CollectStep(lines, ProcessUnder(fields), i, ps);
      if proc.Raised? {
        return Raised(proc.exception);
      }
      ps := ps + [Dict(proc.value)];
    }
    assert lines[..|lines|] == lines;
    return Ok(ps);
  }

  /** `analyze`: the header, then one process per further line, then the
      processes stored in the collection. */
  method Analyze(output: Value, collection: Value) returns (r: Result<Outcome>)
    ensures r == Analysis(output, collection)
  {
    match Open(output, collection, Command) {
      case Refuse(m) =>
        return Ok(Refused(m));
      case Begin(text, c) =>
        var lines := Split(text, "\n");
        var fields := Words(lines[0]);
        var ps := ProcessList(fields, lines[1..]);
        if ps.Raised? {
          return Raised(ps.exception);
        }
        var stored := Stored(c, ps.value);
        if stored.Raised? {
          return Raised(stored.exception);
        }
        return Ok(Analysed(true, stored.value));
    }
  }

  /** One more token: the record of the longer prefix from the record of
      the shorter one. */
  lemma {:induction false} RecordNext(fields: seq<string>, row: seq<string>, j: nat, proc: seq<(string, Value)>)
    requires j < |row| && Record(fields, row[..j]) == Ok(proc)
    ensures j < |fields| ==> Record(fields, row[..j + 1]) == Ok(Put(proc, fields[j], Str(row[j])))
    ensures |fields| <= j && |fields| == 0 ==> Record(fields, row[..j + 1]) == Raised("IndexError")
    ensures 0 < |fields| <= j && Get(proc, fields[|fields| - 1]).None? ==> Record(fields, row[..j + 1]) == Raised("KeyError")
    ensures 0 < |fields| <= j && Get(proc, fields[|fields| - 1]).Some? ==>
      Record(fields, row[..j + 1]) == Ok(Put(proc, fields[|fields| - 1], Str(PyStr(Get(proc, fields[|fields| - 1]).value) + " " + row[j])))
  {
    var pre := row[..j + 1];
    assert pre[..|pre| - 1] == row[..j] && pre[|pre| - 1] == row[j];
  }

  lemma {:induction false} RecordPrefixRaises(fields: seq<string>, row: seq<string>, n: nat)
    requires n <= |row| && Record(fields, row[..n]).Raised?
    ensures Record(fields, row) == Record(fields, row[..n])
    decreases |row|
  {
    if n < |row| {
      var init := row[..|row| - 1];
      assert init[..n] == row[..n];
      RecordPrefixRaises(fields, init, n);
    } else {
      assert row[..n] == row;
    }
  }

  /** Pieces that are all non-empty come through unchanged. */
  lemma {:induction false} NonEmptyKeeps(pieces: seq<string>)
    requires forall i :: 0 <= i < |pieces| ==> pieces[i] != ""
    ensures NonEmpty(pieces) == pieces
    decreases |pieces|
  {
    if |pieces| > 0 {
      NonEmptyKeeps(pieces[..|pieces| - 1]);
    }
  }

  /** Words written out with single spaces are read back as the same words. */
  lemma {:induction false} TokensJoin(words: seq<string>)
    requires forall i :: 0 <= i < |words| ==> words[i] != ""
    requires forall i, j :: 0 <= i < |words| && 0 <= j < |words[i]| ==> words[i][j] != ' '
    ensures Tokens(Join(words, " ")) == words
  {
    if |words| == 0 {
      MissingFirstChar("", " ");
      assert Split("", " ") == [""];
    } else {
      SplitJoin(words, ' ');
      NonEmptyKeeps(words);
    }
  }

  /** A record raises exactly when the header has no fields and the line
      has tokens, and the exception is IndexError. */
  lemma {:induction false} RecordRaises(fields: seq<string>, row: seq<string>)
    ensures Record(fields, row).Raised? <==> |fields| == 0 && |row| > 0
    ensures Record(fields, row).Raised? ==> Record(fields, row).exception == "IndexError"
    decreases |row|
  {
    if |fields| > 0 {
      RecordOk(fields, row);
    } else if |row| > 0 {
      RecordRaises(fields, row[..|row| - 1]);
    }
  }

  /** Under a header with fields, every line gives a record, and once the
      line reaches the last field the record holds that field. */
  lemma {:induction false} RecordOk(fields: seq<string>, row: seq<string>)
    requires |fields| > 0
    ensures Record(fields, row).Ok?
    ensures |row| >= |fields| ==> Get(Record(fields, row).value, fields[|fields| - 1]).Some?
    decreases |row|
  {
    if |row| > 0 {
      var init := row[..|row| - 1];
      RecordOk(fields, init);
      if |row| - 1 >= |fields| {
        RecordExtend(fields, row, Get(Record(fields, init).value, fields[|fields| - 1]).value);
      } else {
        RecordPlace(fields, row);
      }
    }
  }

  /** Every key of a record is a field name. */
  lemma {:induction false} RecordKeys(fields: seq<string>, row: seq<string>)
    requires Record(fields, row).Ok?
    ensures forall k :: Get(Record(fields, row).value, k).Some? ==> k in fields
    decreases |row|
  {
    if |row| > 0 {
      var init := row[..|row| - 1];
      RecordKeys(fields, init);
    }
  }

  /** A token within the header goes to its own field. */
  lemma {:induction false} RecordPlace(fields: seq<string>, row: seq<string>)
    requires 0 < |row| <= |fields| && Record(fields, row[..|row| - 1]).Ok?
    ensures Record(fields, row) == Ok(Put(Record(fields, row[..|row| - 1]).value, fields[|row| - 1], Str(row[|row| - 1])))
  {
  }

  /** A token past the header extends the last field's text. */
  lemma {:induction false} RecordExtend(fields: seq<string>, row: seq<string>, v: Value)
    requires 0 < |fields| < |row| && Record(fields, row[..|row| - 1]).Ok?
    requires Get(Record(fields, row[..|row| - 1]).value, fields[|fields| - 1]) == Some(v)
    ensures Record(fields, row) == Ok(Put(Record(fields, row[..|row| - 1]).value, fields[|fields| - 1], Str(PyStr(v) + " " + row[|row| - 1])))
  {
  }

  /** Each field but the last holds the token in its column. */
  predicate Leading(fields: seq<string>, row: seq<string>, rec: seq<(string, Value)>) {
    forall j :: 0 <= j < |row| && j < |fields| - 1 ==> Get(rec, fields[j]) == Some(Str(row[j]))
  }

  /** The fields past the line's tokens are absent. */
  predicate Absent(fields: seq<string>, row: seq<string>, rec: seq<(string, Value)>) {
    forall j :: |row| <= j < |fields| ==> Get(rec, fields[j]).None?
  }

  /** Under a header whose field names differ, each field but the last
      holds the token in its column, the last field holds every remaining
      token joined by single spaces, and fields past the line's tokens are
      absent. */
  lemma {:induction false} RecordColumns(fields: seq<string>, row: seq<string>)
    requires |fields| > 0 && Distinct(fields)
    ensures Record(fields, row).Ok?
    ensures forall j :: 0 <= j < |row| && j < |fields| - 1 ==>
      Get(Record(fields, row).value, fields[j]) == Some(Str(row[j]))
    ensures |row| >= |fields| ==>
      Get(Record(fields, row).value, fields[|fields| - 1]) == Some(Str(Join(row[|fields| - 1..], " ")))
    ensures forall j :: |row| <= j < |fields| ==> Get(Record(fields, row).value, fields[j]).None?
    decreases |row|
  {
    RecordOk(fields, row);
    if |row| > 0 {
      RecordColumns(fields, row[..|row| - 1]);
      if |row| - 1 >= |fields| {
        StepExtend(fields, row);
      } else {
        RecordPlace(fields, row);
        StepPlace(fields, row, Record(fields, row[..|row| - 1]).value);
      }
    }
  }

  /** The columns after a token past the header. */
  lemma {:induction false} StepExtend(fields: seq<string>, row: seq<string>)
    requires 0 < |fields| < |row| && Distinct(fields)
    requires Record(fields, row[..|row| - 1]).Ok?
    requires Leading(fields, row[..|row| - 1], Record(fields, row[..|row| - 1]).value)
    requires Get(Record(fields, row[..|row| - 1]).value, fields[|fields| - 1]) == Some(Str(Join(row[..|row| - 1][|fields| - 1..], " ")))
    ensures Record(fields, row).Ok? && Leading(fields, row, Record(fields, row).value)
    ensures Get(Record(fields, row).value, fields[|fields| - 1]) == Some(Str(Join(row[|fields| - 1..], " ")))
    ensures Absent(fields, row, Record(fields, row).value)
  {
    var init := row[..|row| - 1];
    var proc := Record(fields, init).value;
    var last := fields[|fields| - 1];
    var text := Join(init[|fields| - 1..], " ");
    RecordExtend(fields, row, Str(text));
    JoinTail(row, |fields| - 1);
    var v := Str(Join(row[|fields| - 1..], " "));
    assert Record(fields, row).value == Put(proc, last, v);
    PutSetsOnly(proc, last, v);
    LeadingExtend(fields, row, proc, v, Put(proc, last, v));
  }

  /** The columns after a token within the header. */
  lemma {:induction false} StepPlace(fields: seq<string>, row: seq<string>, proc: seq<(string, Value)>)
    requires 0 < |row| <= |fields| && Distinct(fields)
    requires Leading(fields, row[..|row| - 1], proc) && Absent(fields, row[..|row| - 1], proc)
    ensures var rec := Put(proc, fields[|row| - 1], Str(row[|row| - 1]));
      Leading(fields, row, rec) && Absent(fields, row, rec) &&
      (|row| == |fields| ==> Get(rec, fields[|fields| - 1]) == Some(Str(Join(row[|fields| - 1..], " "))))
  {
    var f := fields[|row| - 1];
    var v := Str(row[|row| - 1]);
    PutSetsOnly(proc, f, v);
    ColumnsPlace(fields, row, proc, Put(proc, f, v));
    if |row| == |fields| {
      assert row[|fields| - 1..] == [row[|row| - 1]];
    }
  }

  lemma {:induction false} PutSetsOnly(proc: seq<(string, Value)>, k: string, v: Value)
    ensures SetsOnly(proc, k, v, Put(proc, k, v))
  {
  }

  /** Setting one key: that key holds the value, every other key keeps
      its value. */
  ghost predicate SetsOnly(proc: seq<(string, Value)>, k: string, v: Value, rec: seq<(string, Value)>) {
    forall k' :: Get(rec, k') == if k' == k then Some(v) else Get(proc, k')
  }

  /** A token past the header leaves the leading fields. */
  lemma {:induction false} LeadingExtend(fields: seq<string>, row: seq<string>, proc: seq<(string, Value)>, v: Value, rec: seq<(string, Value)>)
    requires 0 < |fields| < |row| && LastUnique(fields)
    requires Leading(fields, row[..|row| - 1], proc) && SetsOnly(proc, fields[|fields| - 1], v, rec)
    ensures Leading(fields, row, rec)
  {
    var init := row[..|row| - 1];
    var L := |fields|;
    forall j | 0 <= j < |row| && j < L - 1 ensures Get(rec, fields[j]) == Some(Str(row[j])) {
      assert init[j] == row[j];
      KeepsOther(proc, fields[L - 1], v, rec, fields[j]);
    }
  }

  /** No field before the last one has the last one's name. */
  predicate LastUnique(fields: seq<string>)
    requires 0 < |fields|
  {
    forall j :: 0 <= j < |fields| - 1 ==> fields[j] != fields[|fields| - 1]
  }

  lemma {:induction false} KeepsOther(proc: seq<(string, Value)>, k: string, v: Value, rec: seq<(string, Value)>, other: string)
    requires SetsOnly(proc, k, v, rec) && other != k
    ensures Get(rec, other) == Get(proc, other)
  {
  }

  /** A token within the header goes to its field and keeps the rest. */
  lemma {:induction false} ColumnsPlace(fields: seq<string>, row: seq<string>, proc: seq<(string, Value)>, rec: seq<(string, Value)>)
    requires 0 < |row| <= |fields| && Distinct(fields)
    requires Leading(fields, row[..|row| - 1], proc) && Absent(fields, row[..|row| - 1], proc)
    requires SetsOnly(proc, fields[|row| - 1], Str(row[|row| - 1]), rec)
    ensures Leading(fields, row, rec) && Absent(fields, row, rec)
  {
    var n := |row|;
    var init := row[..n - 1];
    var L := |fields|;
    forall j | 0 <= j < n && j < L - 1 ensures Get(rec, fields[j]) == Some(Str(row[j])) {
      if j < n - 1 {
        assert init[j] == row[j];
      }
    }
    forall j | n <= j < L ensures Get(rec, fields[j]).None? {
      assert fields[n - 1] != fields[j];
    }
  }

  /** Joining the tail of a line is joining the tail before its last token,
      then a space and that token. */
  lemma {:induction false} JoinTail(row: seq<string>, a: nat)
    requires a < |row| - 1
    ensures Join(row[..|row| - 1][a..], " ") + " " + row[|row| - 1] == Join(row[a..], " ")
  {
    TailSnoc(row, a);
    JoinSnoc(row[..|row| - 1][a..], row[|row| - 1], " ");
  }

  lemma {:induction false} TailSnoc(row: seq<string>, a: nat)
    requires a < |row|
    ensures row[..|row| - 1][a..] + [row[|row| - 1]] == row[a..]
  {
  }

  /** There is one process per line, the record of that line's tokens,
      unless some line's record raises. */
  lemma {:induction false} ProcessesLines(fields: seq<string>, lines: seq<string>)
    ensures Collect(lines, ProcessUnder(fields)).Raised? <==>
      exists i :: 0 <= i < |lines| && Record(fields, Tokens(lines[i])).Raised?
    ensures Collect(lines, ProcessUnder(fields)).Ok? ==>
      |Collect(lines, ProcessUnder(fields)).value| == |lines|
      && forall i :: 0 <= i < |lines| ==>
        Collect(lines, ProcessUnder(fields)).value[i] == Dict(Record(fields, Tokens(lines[i])).value)
  {
    CollectValues(lines, ProcessUnder(fields));
  }

  /** Storing no records leaves the collection; storing some puts them
      under `linux.active_processes`, keeping every other key of `linux` and
      of the collection, and raises TypeError when `linux` is not a
      dictionary. */
  lemma {:induction false} StoredLinux(c: seq<(string, Value)>, ps: seq<Value>)
    ensures |ps| == 0 ==> Stored(c, ps) == Ok(c)
    ensures |ps| > 0 ==> (Stored(c, ps).Raised? <==> Get(c, "linux").Some? && !Get(c, "linux").value.Dict?)
    ensures |ps| > 0 && Stored(c, ps).Ok? ==>
      var before := if Get(c, "linux").Some? then Get(c, "linux").value.entries else [];
      exists after :: Get(Stored(c, ps).value, "linux") == Some(Dict(after))
        && Get(after, "active_processes") == Some(List(ps))
        && (forall k :: k != "active_processes" ==> Get(after, k) == Get(before, k))
        && forall k :: k != "linux" ==> Get(Stored(c, ps).value, k) == Get(c, k)
  {
  }
}
