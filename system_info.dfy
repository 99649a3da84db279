/** The analysis of a Palo Alto firewall's `show system info`: every
    `name: value` line becomes a collection key, a few names are renamed to
    the host fields, the uptime is converted to seconds, and a firewall
    reporting its dlp, url_db and app_version is marked as PAN-OS. */
module SystemInfo {
  import opened Wrappers
  import opened Text
  import opened Py
  import opened Analyzer

  const Command := "show system info"

  /** The pattern `^(.*?):\s+(.*)$` can end its name at `p`: a colon there
      and whitespace after it. */
  predicate Splits(line: string, p: int) {
    0 <= p && p + 1 < |line| && line[p] == ':' && IsSpace(line[p + 1])
  }

  /** The smallest name end from `from` on: the lazy group takes the
      shortest name. */
  function FirstSplit(line: string, from: nat): (r: Option<nat>)
    ensures r.Some? ==> from <= r.value && Splits(line, r.value)
    ensures r.Some? ==> forall q :: from <= q < r.value ==> !Splits(line, q)
    ensures r.None? ==> forall q :: from <= q ==> !Splits(line, q)
    decreases |line| - from
  {
    if from + 1 >= |line| then None
    else if Splits(line, from) then Some(from)
    else FirstSplit(line, from + 1)
  }

  /** The two groups of the pattern: the name, and the value once the
      greedy run of whitespace after the colon is gone. */
  function Match(line: string): Option<(string, string)> {
    match FirstSplit(line, 0)
    case None => None
    case Some(p) => Some((line[..p], LStrip(line[p + 1..])))
  }

  /** The length of the run of digits `s` starts with. */
  function DigitRun(s: string): (n: nat)
    ensures n <= |s| && AllDigits(s[..n])
    ensures n < |s| ==> !IsDigit(s[n])
  {
    if |s| == 0 || !IsDigit(s[0]) then 0
    else
      var n := 1 + DigitRun(s[1..]);
      assert s[..n] == [s[0]] + s[1..][..n - 1];
      n
  }

  /** `^(\d+) days`: the digits a value starts with, when ` days` follows
      them. */
  function Days(v: string): Option<nat> {
    var n := DigitRun(v);
    if n > 0 && StartsWith(v[n..], " days") then Some(DigitsValue(v[..n])) else None
  }

  /** `(\d\d):(\d\d):(\d\d)` matches at `i`. */
  predicate ClockAt(v: string, i: int) {
    0 <= i && i + 8 <= |v|
    && IsDigit(v[i]) && IsDigit(v[i + 1]) && v[i + 2] == ':'
    && IsDigit(v[i + 3]) && IsDigit(v[i + 4]) && v[i + 5] == ':'
    && IsDigit(v[i + 6]) && IsDigit(v[i + 7])
  }

  /** Where the search for a clock first succeeds. */
  function FirstClock(v: string, from: nat): (r: Option<nat>)
    ensures r.Some? ==> from <= r.value && ClockAt(v, r.value)
    ensures r.Some? ==> forall q :: from <= q < r.value ==> !ClockAt(v, q)
    ensures r.None? ==> forall q :: from <= q ==> !ClockAt(v, q)
    decreases |v| - from
  {
    if from + 8 > |v| then None
    else if ClockAt(v, from) then Some(from)
    else FirstClock(v, from + 1)
  }

  /** The number two digits at `i` denote. */
  function Two(v: string, i: nat): nat
    requires i + 1 < |v| && IsDigit(v[i]) && IsDigit(v[i + 1])
  {
    10 * DigitValue(v[i]) + DigitValue(v[i + 1])
  }

  /** The seconds of the clock at `i`. */
  function ClockSeconds(v: string, i: nat): nat
    requires ClockAt(v, i)
  {
    Two(v, i) * 3600 + Two(v, i + 3) * 60 + Two(v, i + 6)
  }

  /** The uptime in seconds: the leading day count, plus the first clock
      found anywhere in the value. */
  function Uptime(v: string): nat {
    (match Days(v) case Some(d) => d * 86400 case None => 0)
    + (match FirstClock(v, 0) case Some(i) => ClockSeconds(v, i) case None => 0)
  }

  /** The names stored under a host field instead of their own. */
  function Renamed(name: string): string {
    if name == "serial" then "host_serial_number"
    else if name == "hostname" then "host_system_name"
    else if name == "uptime" then "host_uptime"
    else if name == "sw_version" then "host_software_version"
    else if name == "model" then "host_model"
    else name
  }

  /** The assignment a line makes: the name with `-` turned into `_` and
      renamed, and the value as text, or in seconds for the uptime. */
  function Entry(line: string): Result<Option<(string, Value)>> {
    match Match(line)
    case None => Ok(None)
    case Some((n, v)) =>
      var name := MapChar(n, '-', '_');
      Ok(Some((Renamed(name), if name == "uptime" then Int(Uptime(v)) else Str(v))))
  }

  /** A collection that reports dlp, url_db and app_version is a PAN-OS
      firewall from Palo Alto. */
  function Flagged(c: seq<(string, Value)>): seq<(string, Value)> {
    if HasKey(c, "dlp") && HasKey(c, "url_db") && HasKey(c, "app_version") then
      Put(Put(c, "os_type", Str("pan_os")), "host_vendor", Str("Palo Alto"))
    else c
  }

  /** The collection the analysis leaves. */
  function SystemInfo(text: string, c: seq<(string, Value)>): Result<seq<(string, Value)>> {
    var ws :- Gather(Split(text, "\n"), Entry);
    Ok(Flagged(PutAll(c, ws)))
  }

  /** What `analyze` returns. */
  function Analysis(output: Value, collection: Value): Result<Outcome> {
    match Open(output, collection, Command)
    case Refuse(m) => Ok(Refused(m))
    case Begin(text, c) =>
      match SystemInfo(text, c)
      case Ok(c') => Ok(Analysed(true, c'))
      case Raised(e) => Raised(e)
  }

  /** `analyze`: the guard, each line's assignment in turn, then the
      PAN-OS check. */
  method Analyze(output: Value, collection: Value) returns (r: Result<Outcome>)
    ensures r == Analysis(output, collection)
  {
    match Open(output, collection, Command) {
      case Refuse(m) =>
        return Ok(Refused(m));
      case Begin(text, c) =>
        var lines := Split(text, "\n");
        var cur := c;
        ghost var ws: seq<(string, Value)> := [];
        for i := 0 to |lines|
          invariant Gather(lines[..i], Entry) == Ok(ws) && cur == PutAll(c, ws)
        {
          GatherStep(c, lines, Entry, i, ws);
          var e := Entry(lines[i]);
          if e.value.Some? {
            cur := Put(cur, e.value.value.0, e.value.value.1);
            ws := ws + [e.value.value];
          }
        }
        assert lines[..|lines|] == lines;
        if HasKey(cur, "dlp") && HasKey(cur, "url_db") && HasKey(cur, "app_version") {
          cur := Put(cur, "os_type", Str("pan_os"));
          cur := Put(cur, "host_vendor", Str("Palo Alto"));
        }
        return Ok(Analysed(true, cur));
    }
  }

  /** The analysis never raises. Every key other than the two the PAN-OS
      test sets holds the value of the last line assigning it, or what it
      held before; the PAN-OS test sets `os_type` and `host_vendor` exactly when
      dlp, url_db and app_version are all present. */
  lemma {:induction false} SystemInfoTable(text: string, lines: seq<string>, c: seq<(string, Value)>)
    requires lines == Split(text, "\n")
    ensures SystemInfo(text, c).Ok?
    ensures var r := SystemInfo(text, c).value;
      forall k :: k != "os_type" && k != "host_vendor" ==>
        Get(r, k) == if LastEntry(lines, Entry, k).Some? then LastEntry(lines, Entry, k) else Get(c, k)
    ensures var r := SystemInfo(text, c).value;
      var filled := PutAll(c, Gather(lines, Entry).value);
      if HasKey(filled, "dlp") && HasKey(filled, "url_db") && HasKey(filled, "app_version") then
        Get(r, "os_type") == Some(Str("pan_os")) && Get(r, "host_vendor") == Some(Str("Palo Alto"))
      else r == filled
  {
    GatherRaises(lines, Entry);
    forall k {
      GatheredLookup(c, lines, Entry, k);
    }
  }

  /** A line `name: value` whose name has no colon gives that name and the
      value, however much whitespace separates them. */
  lemma {:induction false} MatchLine(name: string, gap: string, value: string)
    requires forall j :: 0 <= j < |name| ==> name[j] != ':'
    requires |gap| > 0 && AllSpace(gap)
    requires |value| == 0 || !IsSpace(value[0])
    ensures Match(name + ":" + gap + value) == Some((name, value))
  {
    var line := name + ":" + gap + value;
    NameEndSplits(name, gap, value);
    FirstSplitAt(line, |name|);
    LineParts(name, gap + value);
    assert line == name + ":" + (gap + value);
    MatchAt(line, |name|, name, gap + value);
    LStripGap(gap, value);
  }

  lemma {:induction false} LineParts(name: string, rest: string)
    ensures (name + ":" + rest)[..|name|] == name && (name + ":" + rest)[|name| + 1..] == rest
  {
  }

  /** The match once the line is known to split first at `p`. */
  lemma {:induction false} MatchAt(line: string, p: nat, name: string, rest: string)
    requires FirstSplit(line, 0) == Some(p) && p < |line| && line[..p] == name && line[p + 1..] == rest
    ensures Match(line) == Some((name, LStrip(rest)))
  {
  }

  lemma {:induction false} NameEndSplits(name: string, gap: string, value: string)
    requires forall j :: 0 <= j < |name| ==> name[j] != ':'
    requires |gap| > 0 && AllSpace(gap)
    ensures Splits(name + ":" + gap + value, |name|)
    ensures forall q :: 0 <= q < |name| ==> !Splits(name + ":" + gap + value, q)
  {
    var line := name + ":" + gap + value;
    forall q | 0 <= q < |name| ensures !Splits(line, q) {
      assert line[q] == name[q];
    }
    assert line[|name| + 1] == gap[0];
  }

  /** The first place the line splits is the one before which it does not. */
  lemma {:induction false} FirstSplitAt(line: string, p: nat)
    requires Splits(line, p) && forall q :: 0 <= q < p ==> !Splits(line, q)
    ensures FirstSplit(line, 0) == Some(p)
  {
  }

  lemma {:induction false} LStripGap(gap: string, value: string)
    requires AllSpace(gap)
    requires |value| == 0 || !IsSpace(value[0])
    ensures LStrip(gap + value) == value
    decreases |gap|
  {
    if |gap| == 0 {
      assert gap + value == value;
    } else {
      assert (gap + value)[1..] == gap[1..] + value;
      LStripGap(gap[1..], value);
    }
  }

  /** Two digits for a number below a hundred. */
  function Pad(n: nat): (r: string)
    requires n < 100
    ensures |r| == 2 && IsDigit(r[0]) && IsDigit(r[1]) && 10 * DigitValue(r[0]) + DigitValue(r[1]) == n
  {
    [DigitChar(n / 10), DigitChar(n % 10)]
  }

  /** `HH:MM:SS` */
  function Clock(h: nat, m: nat, s: nat): (r: string)
    requires h < 100 && m < 100 && s < 100
    ensures |r| == 8 && ClockAt(r, 0)
  {
    Pad(h) + ":" + Pad(m) + ":" + Pad(s)
  }

  /** An uptime written `N days, HH:MM:SS` is N days and that clock time in
      seconds. */
  lemma {:induction false} UptimeSeconds(d: nat, h: nat, m: nat, s: nat)
    requires h < 100 && m < 100 && s < 100
    ensures Uptime(NatToString(d) + " days, " + Clock(h, m, s)) == d * 86400 + h * 3600 + m * 60 + s
  {
    var ds := NatToString(d);
    var clock := Clock(h, m, s);
    DaysOf(ds, " days, " + clock);
    assert ds + " days, " + clock == ds + (" days, " + clock);
    DaysHaveNoColon(ds);
    ClockFirst(ds + " days, ", clock);
    ClockValue(h, m, s);
  }

  lemma {:induction false} DaysHaveNoColon(ds: string)
    requires AllDigits(ds)
    ensures forall j :: 0 <= j < |ds + " days, "| ==> (ds + " days, ")[j] != ':'
  {
    forall j | 0 <= j < |ds + " days, "| ensures (ds + " days, ")[j] != ':' {
      if j < |ds| {
        assert IsDigit(ds[j]);
      }
    }
  }

  /** The first clock of a value is the one after a colon-free prefix. */
  lemma {:induction false} ClockFirst(prefix: string, clock: string)
    requires forall j :: 0 <= j < |prefix| ==> prefix[j] != ':'
    requires |clock| == 8 && ClockAt(clock, 0)
    ensures FirstClock(prefix + clock, 0) == Some(|prefix|)
    ensures ClockSeconds(prefix + clock, |prefix|) == ClockSeconds(clock, 0)
  {
    var v := prefix + clock;
    forall j | 0 <= j < 8 ensures v[|prefix| + j] == clock[j] {}
    assert ClockAt(v, |prefix|);
    forall q | 0 <= q < |prefix| ensures !ClockAt(v, q) {
      if q + 2 < |prefix| {
        assert v[q + 2] == prefix[q + 2];
      } else {
        assert v[q + 2] == clock[q + 2 - |prefix|];
      }
    }
  }

  lemma {:induction false} ClockValue(h: nat, m: nat, s: nat)
    requires h < 100 && m < 100 && s < 100
    ensures ClockSeconds(Clock(h, m, s), 0) == h * 3600 + m * 60 + s
  {
    var c := Clock(h, m, s);
    assert c[0..2] == Pad(h) && c[3..5] == Pad(m) && c[6..8] == Pad(s);
  }

  /** The day count of a value that starts with digits and then ` days`. */
  lemma {:induction false} DaysOf(ds: string, rest: string)
    requires |ds| > 0 && AllDigits(ds) && StartsWith(rest, " days")
    ensures Days(ds + rest) == Some(DigitsValue(ds))
  {
    DigitRunOf(ds, rest);
    assert (ds + rest)[..|ds|] == ds;
    assert (ds + rest)[|ds|..] == rest;
  }

  lemma {:induction false} DigitRunOf(ds: string, rest: string)
    requires AllDigits(ds) && (|rest| == 0 || !IsDigit(rest[0]))
    ensures DigitRun(ds + rest) == |ds|
    decreases |ds|
  {
    if |ds| == 0 {
      assert ds + rest == rest;
    } else {
      assert (ds + rest)[1..] == ds[1..] + rest;
      DigitRunOf(ds[1..], rest);
    }
  }

  /** `H:MM:SS` with a one-digit hour. */
  function ShortClock(h: nat, m: nat, s: nat): (r: string)
    requires h < 10 && m < 100 && s < 100
    ensures |r| == 7 && r[1] == ':' && r[4] == ':'
    ensures forall j :: 0 <= j < 7 && j != 1 && j != 4 ==> IsDigit(r[j])
  {
    [DigitChar(h)] + ":" + Pad(m) + ":" + Pad(s)
  }

  /** A one-digit hour is not a clock to the pattern: of `N days, H:MM:SS`
      only the days count. */
  lemma {:induction false} ShortHourUptime(d: nat, h: nat, m: nat, s: nat)
    requires h < 10 && m < 100 && s < 100
    ensures Uptime(NatToString(d) + " days, " + ShortClock(h, m, s)) == d * 86400
  {
    var ds := NatToString(d);
    var tail := ShortClock(h, m, s);
    DaysOf(ds, " days, " + tail);
    assert ds + " days, " + tail == ds + (" days, " + tail);
    DaysHaveNoColon(ds);
    NoClock(ds + " days, ", tail);
  }

  /** No clock fits in a value whose only colons are those of a short
      `H:MM:SS` after a prefix ending in a non-digit. */
  lemma {:induction false} NoClock(prefix: string, tail: string)
    requires |prefix| > 0 && !IsDigit(prefix[|prefix| - 1])
    requires forall j :: 0 <= j < |prefix| ==> prefix[j] != ':'
    requires |tail| == 7 && forall j :: 0 <= j < 7 && j != 1 && j != 4 ==> IsDigit(tail[j])
    ensures FirstClock(prefix + tail, 0) == None
  {
    var v := prefix + tail;
    forall q | 0 <= q ensures !ClockAt(v, q) {
      if q + 8 <= |v| {
        if q + 2 < |prefix| {
          assert v[q + 2] == prefix[q + 2];
        } else if q + 2 == |prefix| {
          assert v[q + 2] == tail[0];
        } else {
          assert v[q] == prefix[|prefix| - 1];
        }
      }
    }
  }
}
