/** The analysis of `cat /etc/*-release`: every `key=value` line of the
    release files, gathered under the collection's `linux_info` key. */
module StarRelease {
  import opened Wrappers
  import opened Text
  import opened Py
  import opened Analyzer

  const Command := "cat /etc/*-release"

  /** A line with an `=` assigns the lower-cased text before the first `=`
      the text after it with every double quote removed; other lines assign
      nothing. */
  function Entry(line: string): Result<Option<(string, Value)>> {
    match Find(line, "=", 0)
    case None => Ok(None)
    case Some(p) => Ok(Some((Lower(line[..p]), Str(RemoveChar(line[p + 1..], '"')))))
  }

  /** The collection the analysis leaves. */
  function LinuxInfo(text: string, c: seq<(string, Value)>): Result<seq<(string, Value)>> {
    Filed(c, "linux_info", Split(text, "\n"), Entry)
  }

  /** What `analyze` returns. */
  function Analysis(output: Value, collection: Value): Result<Outcome> {
    match Open(output, collection, Command)
    case Refuse(m) => Ok(Refused(m))
    case Begin(text, c) =>
      match LinuxInfo(text, c)
      case Ok(c') => Ok(Analysed(true, c'))
      case Raised(e) => Raised(e)
  }

  /** `analyze`: the guard, then the lines filed under `linux_info`. */
  method Analyze(output: Value, collection: Value) returns (r: Result<Outcome>)
    ensures r == Analysis(output, collection)
  {
    match Open(output, collection, Command) {
      case Refuse(m) =>
        return Ok(Refused(m));
      case Begin(text, c) =>
        var filed := FileTable(c, "linux_info", Split(text, "\n"), Entry);
        if filed.Raised? {
          return Raised(filed.exception);
        }
        return Ok(Analysed(true, filed.value));
    }
  }

  /** The analysis never raises: `linux_info` maps every key to the value of
      the last line that assigns it, and is left out when no line has an
      `=`. */
  lemma {:induction false} LinuxInfoTable(text: string, lines: seq<string>, c: seq<(string, Value)>)
    requires lines == Split(text, "\n")
    ensures LinuxInfo(text, c).Ok?
    ensures (forall i :: 0 <= i < |lines| ==> !Contains(lines[i], "=")) ==> LinuxInfo(text, c).value == c
    ensures (exists i :: 0 <= i < |lines| && Contains(lines[i], "=")) ==>
      exists m :: LinuxInfo(text, c).value == Put(c, "linux_info", Dict(m))
        && forall k :: Get(m, k) == LastEntry(lines, Entry, k)
  {
    FiledRaises(c, "linux_info", lines, Entry);
    FiledTable(c, "linux_info", lines, Entry);
  }

  /** A line `key=value` whose key has no `=` and whose value has no double
      quote assigns that value to the lower-cased key. */
  lemma {:induction false} LineAssigns(key: string, value: string)
    requires forall j :: 0 <= j < |key| ==> key[j] != '='
    requires forall j :: 0 <= j < |value| ==> value[j] != '"'
    ensures Entry(key + "=" + value) == Ok(Some((Lower(key), Str(value))))
  {
    var line := key + "=" + value;
    FindFirstChar(key, '=', value);
    assert line[..|key|] == key && line[|key| + 1..] == value;
    RemoveCharAbsent(value, '"');
  }
}
