/** The analysis of `cat /proc/meminfo`: one integer per `Key: value kB`
    line, gathered under the collection's `mem_info` key. */
module Meminfo {
  import opened Wrappers
  import opened Text
  import opened Py
  import opened Analyzer

  const Command := "cat /proc/meminfo"

  /** A line once ` kB` is removed, cut at its colons. */
  function Fields(line: string): seq<string> {
    Split(Replace(line, " kB", ""), ":")
  }

  /** A line with exactly one colon assigns its left part, tabs removed and
      stripped, the integer its stripped right part spells; `int` raises
      ValueError when that part is not an integer. Other lines assign nothing. */
  function Entry(line: string): Result<Option<(string, Value)>> {
    var kv := Fields(line);
    if |kv| != 2 then Ok(None)
    else
      match ParseInt(Strip(kv[1]))
      case None => Raised("ValueError")
      case Some(n) => Ok(Some((Strip(RemoveChar(kv[0], '\t')), Int(n))))
  }

  /** A line with one colon whose value is not an integer. */
  predicate Malformed(line: string) {
    var kv := Fields(line);
    |kv| == 2 && ParseInt(Strip(kv[1])).None?
  }

  /** The collection the analysis leaves: `mem_info` holds the gathered
      table when at least one line assigned something. */
  function MemInfo(text: string, c: seq<(string, Value)>): Result<seq<(string, Value)>> {
    Filed(c, "mem_info", Split(text, "\n"), Entry)
  }

  /** What `analyze` returns, or the exception it raises. */
  function Analysis(output: Value, collection: Value): Result<Outcome> {
    match Open(output, collection, Command)
    case Refuse(m) => Ok(Refused(m))
    case Begin(text, c) =>
      match MemInfo(text, c)
      case Ok(c') => Ok(Analysed(true, c'))
      case Raised(e) => Raised(e)
  }

  /** `analyze`: the guard, then the lines filed under `mem_info`. */
  method Analyze(output: Value, collection: Value) returns (r: Result<Outcome>)
    ensures r == Analysis(output, collection)
  {
    match Open(output, collection, Command) {
      case Refuse(m) =>
        return Ok(Refused(m));
      case Begin(text, c) =>
        var filed := FileTable(c, "mem_info", Split(text, "\n"), Entry);
        if filed.Raised? {
          return Raised(filed.exception);
        }
        return Ok(Analysed(true, filed.value));
    }
  }

  /** After the analysis, `mem_info` maps every key to the value of the last
      line that assigns it; when no line assigns anything the collection is
      left as it was. */
  lemma {:induction false} MemInfoTable(text: string, lines: seq<string>, c: seq<(string, Value)>)
    requires lines == Split(text, "\n") && MemInfo(text, c).Ok?
    ensures (forall i :: 0 <= i < |lines| ==> Entry(lines[i]) == Ok(None)) ==> MemInfo(text, c).value == c
    ensures (exists i :: 0 <= i < |lines| && Entry(lines[i]) != Ok(None)) ==>
      exists m :: MemInfo(text, c).value == Put(c, "mem_info", Dict(m))
        && forall k :: Get(m, k) == LastEntry(lines, Entry, k)
  {
    FiledTable(c, "mem_info", lines, Entry);
  }

  /** The exceptions a line's parse raises: ValueError, for a line with one
      colon and a value that is not an integer. */
  lemma {:induction false} EntryRaises(line: string)
    ensures Entry(line).Raised? <==> Malformed(line)
    ensures Entry(line).Raised? ==> Entry(line).exception == "ValueError"
  {
  }

  /** The analysis raises ValueError exactly when some line has one colon
      and a value that is not an integer. */
  lemma {:induction false} MemInfoRaises(text: string, lines: seq<string>, c: seq<(string, Value)>)
    requires lines == Split(text, "\n")
    ensures MemInfo(text, c).Raised? <==> exists i :: 0 <= i < |lines| && Malformed(lines[i])
    ensures MemInfo(text, c).Raised? ==> MemInfo(text, c).exception == "ValueError"
  {
    FiledRaises(c, "mem_info", lines, Entry);
    forall i | 0 <= i < |lines| ensures Entry(lines[i]).Raised? <==> Malformed(lines[i])
      ensures Entry(lines[i]).Raised? ==> Entry(lines[i]).exception == "ValueError"
    {
      EntryRaises(lines[i]);
    }
  }

  /** A line `key:value` with one colon, no ` kB` and an integer value
      assigns that integer to the key with its tabs and outer blanks gone. */
  lemma {:induction false} LineAssigns(key: string, value: string, n: int)
    requires forall j :: 0 <= j < |key| ==> key[j] != ':'
    requires forall j :: 0 <= j < |value| ==> value[j] != ':'
    requires !Contains(key + ":" + value, " kB")
    requires ParseInt(Strip(value)) == Some(n)
    ensures Entry(key + ":" + value) == Ok(Some((Strip(RemoveChar(key, '\t')), Int(n))))
  {
    FieldsOfPair(key, value);
  }

  lemma {:induction false} FieldsOfPair(key: string, value: string)
    requires forall j :: 0 <= j < |key| ==> key[j] != ':'
    requires forall j :: 0 <= j < |value| ==> value[j] != ':'
    requires !Contains(key + ":" + value, " kB")
    ensures Fields(key + ":" + value) == [key, value]
  {
    var line := key + ":" + value;
    ReplaceAbsent(line, " kB", "");
    var parts := [key, value];
    assert forall k, j :: 0 <= k < |parts| && 0 <= j < |parts[k]| ==> parts[k][j] != ':';
    SplitJoin(parts, ':');
    assert Join(parts, ":") == line;
  }
}
