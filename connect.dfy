/** `connect`: logs in to the host, trying every authentication profile up
    to `retries` times, and waits on the interactive shell for a prompt that
    identifies the device. The transport is a script: attempt `n` (counted
    across all profiles) either is refused with an error text or is accepted
    with the server's version string, an optional banner and a shell that
    either fails to open or delivers a finite sequence of polls. */
module Connect {
  import opened Wrappers
  import opened Text
  import opened Py
  import opened Sanitiser
  import opened Identify
  import opened Transport
  import opened Session
  import SessionPool

  // ---------------------------------------------------------------------
  // The transport script
  // ---------------------------------------------------------------------

  /** Why `invoke_shell()` raised. */
  datatype ShellFailure = EofFailure | ResetFailure | OtherFailure(text: string)

  datatype ShellOpen = ShellFailed(failure: ShellFailure) | ShellOpened(polls: seq<Poll>)

  /** What `SSHClient.connect(...)` does: raise with an error text, or log
      in and hand over the server's version string, its banner and the
      outcome of `invoke_shell()`. */
  datatype Transported =
    | Refused(error: string)
    | Accepted(version: string, banner: Option<string>, shell: ShellOpen)

  /** One pass of the retry loop: the clock at its start and what the
      transport did. */
  datatype Attempt = Attempt(start: int, transport: Transported)

  /** How a prompt line is identified: `id_by_prompt`, which `connect`
      is given as `Identify.IdByPrompt`; the loop is stated for any
      identifier. */
  type Identifier = Line -> Option<Value>

  /** Everything `connect` takes as given: the transport script, the
      host, time-out and retry count it reads from the session, and the
      prompt identifier. */
  datatype Env = Env(script: nat -> Attempt, host: string, timeout: int, retries: int, identify: Identifier)

  /** The error text each kind of `invoke_shell()` failure records. */
  function ShellError(f: ShellFailure): string {
    match f
    case EofFailure => "EOF Error"
    case ResetFailure => "Connection Reset"
    case OtherFailure(t) => t
  }

  // ---------------------------------------------------------------------
  // The session fields `connect` reads and writes
  // ---------------------------------------------------------------------

  datatype ConnState = ConnState(
    status: Status,
    sshError: Option<string>,
    raw: string,
    history: string,
    prompt: PromptField,
    vendor: Option<string>,
    username: Option<Value>,
    channel: Channel,
    startTime: Option<int>,
    authentication: Value)

  function Snapshot(s: SshSession): ConnState
    reads s
  {
    ConnState(s.status, s.sshError, s.raw, s.history, s.prompt, s.vendor, s.username,
              s.sessionObject, s.startTime, s.authentication)
  }

  // ---------------------------------------------------------------------
  // Waiting for the first prompt
  // ---------------------------------------------------------------------

  /** The locals of the prompt loop, and `self.raw`: the sanitised output,
      its last line (the prompt candidate) and the identification found. */
  datatype Seen = Seen(raw: string, out: string, cur: Line, found: Option<Value>)

  /** How the prompt loop ended: a prompt was identified, the channel
      closed, or the connection time-out passed. */
  datatype End = Quiet | Lost | TimedOut

  datatype Watch = Watch(seen: Seen, end: End)

  /** One poll: everything ready is appended, and a non-empty last line is
      offered to `id_by_prompt` until one is identified. */
  function Received(w: Seen, p: Poll, id: Identifier): Seen {
    var out := w.out + Cleaned(p.chunks);
    var cur: Line := if p.chunks == [] then w.cur else LastLine(out);
    var found := if cur != "" && w.found.None? then id(cur) else w.found;
    Seen(w.raw + Joined(p.chunks), out, cur, found)
  }

  /** The prompt loop from poll `i` on, with the time-out check at
      `deadline` (the attempt's start plus `connection_timeout`). A closed
      channel is checked first, then the clock, and only then whether a
      prompt was identified. */
  function Watching(w: Seen, polls: seq<Poll>, i: nat, deadline: int, id: Identifier): Watch
    requires i <= |polls|
    decreases |polls| - i, 1
  {
    var p := PollAt(polls, i, deadline);
    Checked(Received(w, p, id), p, polls, i, deadline, id)
  }

  /** The checks that end poll `i` of the loop, which delivered `p` and
      left `w`. */
  function Checked(w: Seen, p: Poll, polls: seq<Poll>, i: nat, deadline: int, id: Identifier): Watch
    requires i <= |polls| && p == PollAt(polls, i, deadline)
    decreases |polls| - i, 0
  {
    match Ending(w, p, deadline)
    case Some(e) => Watch(w, e)
    case None => Watching(w, polls, i + 1, deadline, id)
  }

  lemma {:induction false} WatchingUnfolds(w: Seen, polls: seq<Poll>, i: nat, deadline: int, id: Identifier)
    requires i <= |polls|
    ensures var p := PollAt(polls, i, deadline);
      Watching(w, polls, i, deadline, id) == Checked(Received(w, p, id), p, polls, i, deadline, id)
  {
  }

  lemma {:induction false} CheckedContinues(w: Seen, p: Poll, polls: seq<Poll>, i: nat, deadline: int, id: Identifier)
    requires i <= |polls| && p == PollAt(polls, i, deadline) && Ending(w, p, deadline).None?
    ensures i < |polls| && Checked(w, p, polls, i, deadline, id) == Watching(w, polls, i + 1, deadline, id)
  {
  }

  lemma {:induction false} CheckedStops(w: Seen, p: Poll, polls: seq<Poll>, i: nat, deadline: int, id: Identifier)
    requires i <= |polls| && p == PollAt(polls, i, deadline) && Ending(w, p, deadline).Some?
    ensures Checked(w, p, polls, i, deadline, id) == Watch(w, Ending(w, p, deadline).value)
  {
  }

  /** The exit checks after a poll: a closed channel first, then the
      clock, and only then whether a prompt was identified. */
  function Ending(w: Seen, p: Poll, deadline: int): (e: Option<End>)
    ensures e.None? ==> w.found.None?
  {
    if p.closed then Some(Lost)
    else if p.now > deadline then Some(TimedOut)
    else if w.found.Some? then Some(Quiet)
    else None
  }

  /** With nothing on the channel the loop waits out the time-out and
      identifies nothing. */
  lemma {:induction false} SilentShellTimesOut(raw: string, deadline: int, id: Identifier)
    ensures Watching(Seen(raw, "", "", None), [], 0, deadline, id)
         == Watch(Seen(raw, "", "", None), TimedOut)
  {
    assert Joined([]) == "" && Cleaned([]) == "";
  }

  /** What the prompt loop leaves in the session: the received bytes, the
      identified prompt, and the error (and, on a time-out, the history and
      the unrecognised prompt text) it recorded on the way out. */
  function Polled(st: ConnState, w: Watch): ConnState {
    var st1 := st.(raw := w.seen.raw,
                   prompt := if w.seen.found.Some? then PromptInfo(w.seen.found.value) else st.prompt);
    match w.end
    case Quiet => st1
    case Lost => st1.(sshError := Some("Connection lost"))
    case TimedOut =>
      st1.(history := StripAnsi(w.seen.raw), prompt := PromptText(w.seen.cur),
           sshError := Some("Timed out. Unknown prompt."))
  }

  // ---------------------------------------------------------------------
  // One attempt
  // ---------------------------------------------------------------------

  /** What an attempt leads to: the login succeeded, an exception escapes
      `connect`, or the retry loop goes on (`stop`: with the next
      profile). */
  datatype Outcome = LoggedIn | Raises(exception: string) | Retry(stop: bool)

  datatype Stepped = Stepped(st: ConnState, outcome: Outcome)

  /** A profile with a `sudo_command` and a `password` but no
      `sudo_password` gets the password as its `sudo_password`. */
  function WithSudo(d: seq<(string, Value)>): (r: seq<(string, Value)>)
    ensures HasKey(d, "sudo_command") && HasKey(d, "password") && !HasKey(d, "sudo_password") ==>
      Get(r, "sudo_password") == Get(d, "password")
      && forall k :: k != "sudo_password" ==> Get(r, k) == Get(d, k)
    ensures !(HasKey(d, "sudo_command") && HasKey(d, "password") && !HasKey(d, "sudo_password")) ==>
      r == d
  {
    if HasKey(d, "sudo_command") && HasKey(d, "password") && !HasKey(d, "sudo_password") then
      assert Get(d, "password").Some?;
      Put(d, "sudo_password", Get(d, "password").value)
    else d
  }

  /** `self.authentication` after profile `k` (the dictionary `d`) was
      given its `sudo_password`: the profile dictionaries are updated in
      place. */
  function Sudoed(auth: Value, k: nat, d: seq<(string, Value)>): Value {
    if auth.List? && k < |auth.items| then List(auth.items[k := Dict(WithSudo(d))]) else auth
  }

  /** The vendor `id_by_ssh_version` reads from the server's version
      string, or the one already known. */
  function VersionVendor(vendor: Option<string>, version: string): Option<string> {
    match IdBySshVersion(version)
    case None => vendor
    case Some(rule) =>
      match Index(rule, "vendor")
      case Ok(Str(v)) => Some(v)
      case _ => vendor
  }

  /** The error text as `connect` records it: one trailing full stop
      dropped, a failed name lookup and the two time-out texts reworded. */
  function Normalise(e: string, host: string): string {
    var e' := DropFullStop(e);
    if Contains(e', "getaddrinfo failed") then "Unable to resolve '" + host + "'."
    else if e' == "timed out" || e' == "Timeout opening channel" then "Connection timed out"
    else e'
  }

  function DropFullStop(e: string): (r: string)
    ensures |e| > 0 && e[|e| - 1] == '.' ==> e == r + "."
    ensures !(|e| > 0 && e[|e| - 1] == '.') ==> r == e
  {
    if |e| > 0 && e[|e| - 1] == '.' then e[..|e| - 1] else e
  }

  /** The text of a refused channel open on the jump host. */
  const ChannelRefused := "ChannelException(2, 'Connect failed')"

  /** The errors after which the same profile is not tried again. The
      fourth alternative of the pattern is
      `ChannelException(2, 'Connect failed')`, whose parentheses form a
      group: it matches the text "ChannelException2, 'Connect failed'",
      not the exception's own text. */
  predicate StopsRetries(e: string) {
    StartsWith(e, "Authentication failed")
    || StartsWith(e, "Bad authentication type; allowed types:")
    || StartsWith(e, "Device OS issue: No space left on device")
    || StartsWith(e, "ChannelException2, 'Connect failed'")
  }

  /** The error path of an attempt: status 'error', the normalised text
      recorded (a refused channel open as 'Permission denied'), and
      whether this profile is given up. */
  function Failure(st: ConnState, e: string, host: string): Stepped {
    var e' := Normalise(e, host);
    Stepped(st.(status := Failed, sshError := Some(if e' == ChannelRefused then "Permission denied" else e')),
            Retry(StopsRetries(e')))
  }

  /** `self.prompt['prompt']`: a prompt left as text raises TypeError. */
  function PromptLookup(p: PromptField): (r: Result<Value>)
    ensures r.Ok? ==> p.PromptInfo?
  {
    match p
    case PromptText(t) => Index(Str(t), "prompt")
    case PromptInfo(v) => Index(v, "prompt")
  }

  /** After the prompt loop: an identified prompt makes the shell the
      session's channel and its output part of the history, clears the
      error and logs the prompt; otherwise a time-out gives up the
      profile and anything else tries again. */
  function Watched(st: ConnState, w: Watch): (r: Stepped)
  {
    var st' := Polled(st, w);
    if w.seen.found.Some? then
      var done := st'.(channel := Shell(w.end.Lost?), history := st'.history + w.seen.out, sshError := None);
      match PromptLookup(done.prompt)
      case Ok(_) => Stepped(done, LoggedIn)
      case Raised(e) => Stepped(done, Raises(e))
    else Stepped(st', Retry(w.end.TimedOut?))
  }

  /** A login the transport accepted: status 'connected', the vendor the
      version string names, and the sanitised banner added to the
      history. */
  function Greeted(st: ConnState, version: string, banner: Option<string>): ConnState {
    st.(status := Connected, vendor := VersionVendor(st.vendor, version),
        history := st.history + (if banner.Some? then StripAnsi(banner.value) else ""))
  }

  /** A shell that failed to open is an error of the attempt; an opened one
      is watched for a prompt until `deadline`. */
  function Shelled(st: ConnState, shell: ShellOpen, deadline: int, host: string, id: Identifier): Stepped {
    match shell
    case ShellFailed(f) => Failure(st, ShellError(f), host)
    case ShellOpened(polls) => Watched(st, Watching(Seen(st.raw, "", "", None), polls, 0, deadline, id))
  }

  /** The start of an attempt at time `start` with profile `d` (number
      `k`): its 'username', or None, becomes the session's, and it is given
      its `sudo_password`. */
  function Begun(st: ConnState, k: nat, d: seq<(string, Value)>, start: int): ConnState {
    st.(startTime := Some(start), username := Some(Get(d, "username").GetOr(Null)),
        authentication := Sudoed(st.authentication, k, d))
  }

  /** What the transport did, as the attempt records it. */
  function Exchanged(st: ConnState, t: Transported, deadline: int, host: string, id: Identifier): Stepped {
    match t
    case Refused(e) => Failure(st, e, host)
    case Accepted(version, banner, shell) => Shelled(Greeted(st, version, banner), shell, deadline, host, id)
  }

  /** One pass of the retry loop with profile `k` (`item`). A profile that
      is not a dictionary has no `get` and raises AttributeError. */
  function AttemptStep(st: ConnState, k: nat, item: Value, a: Attempt, host: string, timeout: int, id: Identifier): Stepped {
    if !item.Dict? then Stepped(st.(startTime := Some(a.start)), Raises("AttributeError"))
    else Attempted(st, k, item.entries, a, host, timeout, id)
  }

  /** An attempt with the profile dictionary `d`. */
  function Attempted(st: ConnState, k: nat, d: seq<(string, Value)>, a: Attempt, host: string, timeout: int, id: Identifier): Stepped {
    Exchanged(Begun(st, k, d, a.start), a.transport, a.start + timeout, host, id)
  }

  // ---------------------------------------------------------------------
  // The retry loop and the profile loop
  // ---------------------------------------------------------------------

  datatype Verdict = Pending | Succeeded | Raising(exception: string)

  /** The session after a run of attempts, how it ended and how many
      attempts of the script it used. */
  datatype Run = Run(st: ConnState, verdict: Verdict, attempts: nat)

  /** `while tries < self.retries` for profile `k`, the next attempt being
      number `n` of the script. */
  function Retrying(st: ConnState, k: nat, item: Value, tries: int, n: nat, env: Env): Run
    decreases env.retries - tries, 1
  {
    if tries >= env.retries then Run(st, Pending, n)
    else Continued(AttemptStep(st, k, item, env.script(n), env.host, env.timeout, env.identify), k, item, tries, n, env)
  }

  /** The loop after attempt `n`, the `tries`-th of this profile, ended in
      `step`. */
  function Continued(step: Stepped, k: nat, item: Value, tries: int, n: nat, env: Env): Run
    requires tries < env.retries
    decreases env.retries - tries, 0
  {
    match step.outcome
    case LoggedIn => Run(step.st, Succeeded, n + 1)
    case Raises(e) => Run(step.st, Raising(e), n + 1)
    case Retry(stop) => Retrying(step.st, k, item, if stop then env.retries else tries + 1, n + 1, env)
  }

  /** `for auth_item in self.authentication`, from profile `k` on; the
      error is cleared after every profile that did not log in. */
  function ProfilesFrom(st: ConnState, items: seq<Value>, k: nat, n: nat, env: Env): Run
    requires k <= |items|
    decreases |items| - k, 1
  {
    if k == |items| then Run(st, Pending, n)
    else AfterProfile(Retrying(st, k, items[k], 0, n, env), items, k, env)
  }

  /** The loop after profile `k` ended in `r`. */
  function AfterProfile(r: Run, items: seq<Value>, k: nat, env: Env): Run
    requires k < |items|
    decreases |items| - k, 0
  {
    if !r.verdict.Pending? then r
    else ProfilesFrom(r.st.(sshError := None), items, k + 1, r.attempts, env)
  }

  /** What iterating over `self.authentication` yields: a list's items, a
      dictionary's keys, a string's characters; anything else raises. */
  function ProfileItems(v: Value): (r: Result<seq<Value>>)
    ensures v.List? ==> r == Ok(v.items)
    ensures r.Ok? ==> v.List? || v.Dict? || v.Str?
  {
    match v
    case List(xs) => Ok(xs)
    case Dict(d) => Ok(seq(|d|, i requires 0 <= i < |d| => Str(d[i].0)))
    case Str(t) => Ok(seq(|t|, i requires 0 <= i < |t| => Str([t[i]])))
    case _ => Raised("TypeError")
  }

  /** `connect(self)` on the session state `st0`. */
  function ConnectRun(st0: ConnState, env: Env): Run {
    var st := st0.(status := Connecting, channel := Client(false));
    match ProfileItems(st.authentication)
    case Raised(e) => Run(st, Raising(e), 0)
    case Ok(items) => ProfilesFrom(st, items, 0, 0, env)
  }

  /** What `connect` returns: True, False, or the exception it raises. */
  function Answer(v: Verdict): (r: Result<bool>)
    ensures r == Ok(true) <==> v.Succeeded?
    ensures r == Ok(false) <==> v.Pending?
  {
    match v
    case Pending => Ok(false)
    case Succeeded => Ok(true)
    case Raising(e) => Raised(e)
  }

  // ---------------------------------------------------------------------
  // The methods
  // ---------------------------------------------------------------------

  /** `while inv_shell.recv_ready()`: every chunk goes into `self.raw` and,
      sanitised, into the output, whose last line becomes the candidate. */
  method Drain(s: SshSession, chunks: seq<string>, out: string, cur: Line)
    returns (out': string, cur': Line)
    modifies s`status, s`sshError, s`raw, s`history, s`prompt, s`vendor, s`username,
             s`sessionObject, s`startTime, s`authentication
    ensures Snapshot(s) == old(Snapshot(s)).(raw := s.raw)
    ensures s.raw == old(s.raw) + Joined(chunks) && out' == out + Cleaned(chunks)
    ensures cur' == if chunks == [] then cur else LastLine(out')
  {
    var got, clean := Gather(chunks);
    s.raw := s.raw + got;
    out' := out + clean;
    // The last line is taken after every chunk; only the last value counts.
    cur' := if chunks == [] then cur else LastLine(out');
  }

  /** One pass of the prompt loop up to its exit checks: drain the
      channel, and offer a non-empty last line to `id_by_prompt`, which
      sets the session's prompt when it identifies one. */
  method Inspect(s: SshSession, w: Seen, p: Poll, id: Identifier) returns (w': Seen)
    requires w.raw == s.raw && w.found.None?
    modifies s`status, s`sshError, s`raw, s`history, s`prompt, s`vendor, s`username,
             s`sessionObject, s`startTime, s`authentication
    ensures w' == Received(w, p, id)
    ensures Snapshot(s) == old(Snapshot(s)).(raw := w'.raw,
      prompt := if w'.found.Some? then PromptInfo(w'.found.value) else old(s.prompt))
  {
    var out, cur := Drain(s, p.chunks, w.out, w.cur);
    var found: Option<Value> := None;
    if cur != "" {
      found := id(cur);
      if found.Some? {
        s.prompt := PromptInfo(found.value);
      }
    }
    w' := Seen(s.raw, out, cur, found);
  }

  /** One pass of the prompt loop with its exit checks, recording the
      error (and, on a time-out, the history and the unrecognised prompt)
      when the loop ends. */
  method PollOnce(s: SshSession, w: Seen, p: Poll, deadline: int, id: Identifier) returns (w': Seen, e: Option<End>)
    requires w.raw == s.raw && w.found.None?
    modifies s`status, s`sshError, s`raw, s`history, s`prompt, s`vendor, s`username,
             s`sessionObject, s`startTime, s`authentication
    ensures w' == Received(w, p, id) && e == Ending(w', p, deadline)
    ensures e.Some? ==> Snapshot(s) == Polled(old(Snapshot(s)), Watch(w', e.value))
    ensures e.None? ==> w'.raw == s.raw && Snapshot(s) == old(Snapshot(s)).(raw := s.raw)
  {
    w' := Inspect(s, w, p, id);
    if p.closed {
      s.sshError := Some("Connection lost");
      e := Some(Lost);
    } else if p.now > deadline {
      s.history := StripAnsi(s.raw);
      s.prompt := PromptText(w'.cur);
      s.sshError := Some("Timed out. Unknown prompt.");
      e := Some(TimedOut);
    } else if w'.found.Some? {
      e := Some(Quiet);
    } else {
      e := None;
    }
  }

  /** The prompt loop of one attempt. */
  method AwaitPrompt(s: SshSession, polls: seq<Poll>, deadline: int, id: Identifier) returns (w: Watch)
    modifies s`status, s`sshError, s`raw, s`history, s`prompt, s`vendor, s`username,
             s`sessionObject, s`startTime, s`authentication
    ensures w == Watching(Seen(old(s.raw), "", "", None), polls, 0, deadline, id)
    ensures Snapshot(s) == Polled(old(Snapshot(s)), w)
  {
    var seen := Seen(s.raw, "", "", None);
    var i := 0;
    while true
      invariant i <= |polls| && seen.found.None? && seen.raw == s.raw
      invariant Snapshot(s) == old(Snapshot(s)).(raw := s.raw)
      invariant Watching(seen, polls, i, deadline, id) == Watching(Seen(old(s.raw), "", "", None), polls, 0, deadline, id)
      decreases |polls| - i
    {
      var p := PollAt(polls, i, deadline);
      ghost var before := seen;
      var e;
      seen, e := PollOnce(s, seen, p, deadline, id);
      WatchingUnfolds(before, polls, i, deadline, id);
      if e.Some? {
        PolledIgnoresRaw(old(Snapshot(s)), before.raw, Watch(seen, e.value));
        return Watch(seen, e.value);
      }
      CheckedContinues(seen, p, polls, i, deadline, id);
      i := i + 1;
    }
  }

  /** What the prompt loop leaves does not depend on the bytes received
      before it. */
  lemma {:induction false} PolledIgnoresRaw(st: ConnState, raw: string, w: Watch)
    ensures Polled(st.(raw := raw), w) == Polled(st, w)
  {
  }

  /** The error path of an attempt. */
  method RecordFailure(s: SshSession, e: string) returns (o: Outcome)
    modifies s`status, s`sshError, s`raw, s`history, s`prompt, s`vendor, s`username,
             s`sessionObject, s`startTime, s`authentication
    ensures Stepped(Snapshot(s), o) == Failure(old(Snapshot(s)), e, s.host)
  {
    s.status := Failed;
    var e' := Normalise(e, s.host);
    s.sshError := Some(e');
    var stop := StopsRetries(e');
    if e' == ChannelRefused {
      s.sshError := Some("Permission denied");
    }
    return Retry(stop);
  }

  /** The prompt loop on an opened shell and what follows it. */
  method FinishShell(s: SshSession, polls: seq<Poll>, deadline: int, id: Identifier) returns (o: Outcome)
    modifies s`status, s`sshError, s`raw, s`history, s`prompt, s`vendor, s`username,
             s`sessionObject, s`startTime, s`authentication
    ensures Stepped(Snapshot(s), o)
         == Watched(old(Snapshot(s)), Watching(Seen(old(s.raw), "", "", None), polls, 0, deadline, id))
  {
    var w := AwaitPrompt(s, polls, deadline, id);
    if w.seen.found.Some? {
      s.sessionObject := Shell(w.end.Lost?);
      s.history := s.history + w.seen.out;
      s.sshError := None;
      var p := PromptLookup(s.prompt);
      if p.Raised? {
        return Raises(p.exception);
      }
      return LoggedIn;
    }
    return Retry(w.end.TimedOut?);
  }

  /** Recording an accepted login. */
  method Greet(s: SshSession, version: string, banner: Option<string>)
    modifies s`status, s`sshError, s`raw, s`history, s`prompt, s`vendor, s`username,
             s`sessionObject, s`startTime, s`authentication
    ensures Snapshot(s) == Greeted(old(Snapshot(s)), version, banner)
  {
    s.status := Connected;
    s.vendor := VersionVendor(s.vendor, version);
    s.history := s.history + (if banner.Some? then StripAnsi(banner.value) else "");
  }

  /** `invoke_shell()` and what follows it. */
  method UseShell(s: SshSession, shell: ShellOpen, deadline: int, id: Identifier) returns (o: Outcome)
    modifies s`status, s`sshError, s`raw, s`history, s`prompt, s`vendor, s`username,
             s`sessionObject, s`startTime, s`authentication
    ensures Stepped(Snapshot(s), o) == Shelled(old(Snapshot(s)), shell, deadline, s.host, id)
  {
    match shell {
      case ShellFailed(f) =>
        o := RecordFailure(s, ShellError(f));
      case ShellOpened(polls) =>
        o := FinishShell(s, polls, deadline, id);
    }
  }

  /** Reading the profile at the start of an attempt. */
  method Begin(s: SshSession, k: nat, d: seq<(string, Value)>, start: int)
    modifies s`status, s`sshError, s`raw, s`history, s`prompt, s`vendor, s`username,
             s`sessionObject, s`startTime, s`authentication
    ensures Snapshot(s) == Begun(old(Snapshot(s)), k, d, start)
  {
    s.startTime := Some(start);
    s.username := Some(Get(d, "username").GetOr(Null));
    s.authentication := Sudoed(s.authentication, k, d);
  }

  /** `SSHClient.connect(...)` and, when it succeeds, the rest of the
      attempt. */
  method Exchange(s: SshSession, t: Transported, deadline: int, id: Identifier) returns (o: Outcome)
    modifies s`status, s`sshError, s`raw, s`history, s`prompt, s`vendor, s`username,
             s`sessionObject, s`startTime, s`authentication
    ensures Stepped(Snapshot(s), o) == Exchanged(old(Snapshot(s)), t, deadline, s.host, id)
  {
    match t {
      case Refused(e) =>
        o := RecordFailure(s, e);
      case Accepted(version, banner, shell) =>
        Greet(s, version, banner);
        o := UseShell(s, shell, deadline, id);
    }
  }

  /** One pass of the retry loop. */
  method TryOnce(s: SshSession, k: nat, item: Value, a: Attempt, id: Identifier) returns (o: Outcome)
    modifies s`status, s`sshError, s`raw, s`history, s`prompt, s`vendor, s`username,
             s`sessionObject, s`startTime, s`authentication
    ensures Stepped(Snapshot(s), o) == AttemptStep(old(Snapshot(s)), k, item, a, s.host, s.connectionTimeout, id)
  {
    if !item.Dict? {
      s.startTime := Some(a.start);
      return Raises("AttributeError");
    }
    o := AttemptWithProfile(s, k, item.entries, a, id);
  }

  /** An attempt with a profile that is a dictionary. */
  method AttemptWithProfile(s: SshSession, k: nat, d: seq<(string, Value)>, a: Attempt, id: Identifier) returns (o: Outcome)
    modifies s`status, s`sshError, s`raw, s`history, s`prompt, s`vendor, s`username,
             s`sessionObject, s`startTime, s`authentication
    ensures Stepped(Snapshot(s), o) == Attempted(old(Snapshot(s)), k, d, a, s.host, s.connectionTimeout, id)
  {
    Begin(s, k, d, a.start);
    o := Exchange(s, a.transport, a.start + s.connectionTimeout, id);
  }

  /** One pass of the retry loop for profile `k`: attempt number `n` of
      the script, and the count of tries after it. */
  method RetryOnce(s: SshSession, k: nat, item: Value, tries: int, n: nat, env: Env)
    returns (v: Verdict, tries': int, n': nat)
    requires env.host == s.host && env.timeout == s.connectionTimeout && env.retries == s.retries
    requires tries < env.retries
    modifies s`status, s`sshError, s`raw, s`history, s`prompt, s`vendor, s`username,
             s`sessionObject, s`startTime, s`authentication
    ensures tries < tries' <= env.retries
    ensures var r := Retrying(old(Snapshot(s)), k, item, tries, n, env);
      if v.Pending? then Retrying(Snapshot(s), k, item, tries', n', env) == r
      else Run(Snapshot(s), v, n') == r
  {
    var o := TryOnce(s, k, item, env.script(n), env.identify);
    n' := n + 1;
    match o {
      case LoggedIn => v, tries' := Succeeded, tries + 1;
      case Raises(e) => v, tries' := Raising(e), tries + 1;
      case Retry(stop) => v, tries' := Pending, if stop then s.retries else tries + 1;
    }
  }

  /** `while tries < self.retries` for profile `k`, the next attempt being
      number `n` of the script. */
  method TryProfile(s: SshSession, k: nat, item: Value, n: nat, env: Env) returns (v: Verdict, n': nat)
    requires env.host == s.host && env.timeout == s.connectionTimeout && env.retries == s.retries
    modifies s`status, s`sshError, s`raw, s`history, s`prompt, s`vendor, s`username,
             s`sessionObject, s`startTime, s`authentication
    ensures Run(Snapshot(s), v, n') == Retrying(old(Snapshot(s)), k, item, 0, n, env)
  {
    var tries := 0;
    n' := n;
    while tries < s.retries
      invariant Retrying(Snapshot(s), k, item, tries, n', env) == Retrying(old(Snapshot(s)), k, item, 0, n, env)
      decreases s.retries - tries
    {
      v, tries, n' := RetryOnce(s, k, item, tries, n', env);
      if !v.Pending? {
        return;
      }
    }
    return Pending, n';
  }

  /** `for auth_item in self.authentication`: every profile in turn until
      one logs in or raises, the error cleared after each that did not. */
  method TryProfiles(s: SshSession, items: seq<Value>, env: Env) returns (v: Verdict)
    requires env.host == s.host && env.timeout == s.connectionTimeout && env.retries == s.retries
    modifies s`status, s`sshError, s`raw, s`history, s`prompt, s`vendor, s`username,
             s`sessionObject, s`startTime, s`authentication
    ensures var run := ProfilesFrom(old(Snapshot(s)), items, 0, 0, env);
      Snapshot(s) == run.st && v == run.verdict
  {
    ghost var total := ProfilesFrom(Snapshot(s), items, 0, 0, env);
    var n := 0;
    for k := 0 to |items|
      invariant ProfilesFrom(Snapshot(s), items, k, n, env) == total
    {
      v, n := TryProfile(s, k, items[k], n, env);
      if !v.Pending? {
        return;
      }
      s.sshError := None;
    }
    return Pending;
  }

  /** `connect(self)`, with the transport answering from `script`. */
  method Connect(s: SshSession, script: nat -> Attempt) returns (r: Result<bool>)
    modifies s`status, s`sshError, s`raw, s`history, s`prompt, s`vendor, s`username,
             s`sessionObject, s`startTime, s`authentication
    ensures var run := ConnectRun(old(Snapshot(s)), Env(script, s.host, s.connectionTimeout, s.retries, IdByPrompt));
      Snapshot(s) == run.st && r == Answer(run.verdict)
  {
    var env := Env(script, s.host, s.connectionTimeout, s.retries, IdByPrompt);
    s.status := Connecting;
    s.sessionObject := Client(false);
    var items := ProfileItems(s.authentication);
    if items.Raised? {
      return Raised(items.exception);
    }
    var v := TryProfiles(s, items.value, env);
    r := Answer(v);
  }

  // ---------------------------------------------------------------------
  // Properties
  // ---------------------------------------------------------------------

  /** The prompt loop only appends to `self.raw`. */
  lemma {:induction false} WatchingKeepsRaw(w: Seen, polls: seq<Poll>, i: nat, deadline: int, id: Identifier)
    requires i <= |polls|
    ensures w.raw <= Watching(w, polls, i, deadline, id).seen.raw
    decreases |polls| - i, 1
  {
    var p := PollAt(polls, i, deadline);
    var w' := Received(w, p, id);
    ReceivedKeepsRaw(w, p, id);
    WatchingUnfolds(w, polls, i, deadline, id);
    CheckedKeepsRaw(w', p, polls, i, deadline, id);
    PrefixChain(w.raw, w'.raw, Checked(w', p, polls, i, deadline, id).seen.raw);
  }

  lemma {:induction false} CheckedKeepsRaw(w: Seen, p: Poll, polls: seq<Poll>, i: nat, deadline: int, id: Identifier)
    requires i <= |polls| && p == PollAt(polls, i, deadline)
    ensures w.raw <= Checked(w, p, polls, i, deadline, id).seen.raw
    decreases |polls| - i, 0
  {
    if Ending(w, p, deadline).None? {
      CheckedContinues(w, p, polls, i, deadline, id);
      WatchingKeepsRaw(w, polls, i + 1, deadline, id);
    } else {
      CheckedStops(w, p, polls, i, deadline, id);
    }
  }

  lemma {:induction false} PrefixChain(a: string, b: string, c: string)
    requires a <= b && b <= c
    ensures a <= c
  {
  }

  /** A prompt, once identified, is what the identifier makes of the
      current line, which is not empty. */
  predicate Identified(w: Seen, id: Identifier) {
    w.found.Some? ==> w.cur != "" && w.found == id(w.cur)
  }

  /** How the prompt loop may end: quietly only with a prompt identified. */
  predicate Settled(r: Watch, id: Identifier) {
    (r.end.Quiet? ==> r.seen.found.Some?) && Identified(r.seen, id)
  }

  /** The prompt loop ends quietly only with a prompt identified, and an
      identified prompt is what the identifier makes of the last line of
      the output, which is not empty. */
  lemma {:induction false} WatchingFacts(w: Seen, polls: seq<Poll>, i: nat, deadline: int, id: Identifier)
    requires i <= |polls| && w.found.None?
    ensures Settled(Watching(w, polls, i, deadline, id), id)
    decreases |polls| - i, 1
  {
    var p := PollAt(polls, i, deadline);
    ReceivedFacts(w, p, id);
    WatchingUnfolds(w, polls, i, deadline, id);
    CheckedFacts(Received(w, p, id), p, polls, i, deadline, id);
  }

  lemma {:induction false} CheckedFacts(w: Seen, p: Poll, polls: seq<Poll>, i: nat, deadline: int, id: Identifier)
    requires i <= |polls| && p == PollAt(polls, i, deadline) && Identified(w, id)
    ensures Settled(Checked(w, p, polls, i, deadline, id), id)
    decreases |polls| - i, 0
  {
    if Ending(w, p, deadline).None? {
      CheckedContinues(w, p, polls, i, deadline, id);
      WatchingFacts(w, polls, i + 1, deadline, id);
    } else {
      CheckedStops(w, p, polls, i, deadline, id);
    }
  }

  lemma {:induction false} ReceivedKeepsRaw(w: Seen, p: Poll, id: Identifier)
    ensures w.raw <= Received(w, p, id).raw
  {
    assert Received(w, p, id).raw == w.raw + Joined(p.chunks);
  }

  /** One poll keeps what was received before and identifies a prompt only
      from a non-empty last line. */
  lemma {:induction false} ReceivedFacts(w: Seen, p: Poll, id: Identifier)
    requires w.found.None?
    ensures Identified(Received(w, p, id), id)
  {
  }

  /** What an attempt makes of the prompt loop's end: with no prompt it is
      tried again unless the time-out passed; a prompt identified in the
      same poll in which the time-out passed has been overwritten by the
      text, and looking up its 'prompt' raises TypeError; otherwise the
      login succeeds exactly when the identification has a 'prompt' key. */
  lemma {:induction false} WatchedOutcome(st: ConnState, w: Watch)
    ensures w.seen.found.None? ==> Watched(st, w).outcome == Retry(w.end.TimedOut?)
    ensures w.seen.found.Some? && w.end.TimedOut? ==> Watched(st, w).outcome == Raises("TypeError")
    ensures w.seen.found.Some? && !w.end.TimedOut? ==>
      (Watched(st, w).outcome.LoggedIn? <==> Index(w.seen.found.value, "prompt").Ok?)
  {
  }

  /** Status 'connected' is set as soon as the transport accepts the login,
      so an attempt whose prompt loop times out leaves the session
      'connected' while recording the time-out and giving up the
      profile. */
  lemma {:induction false} TimedOutStaysConnected(st: ConnState, version: string, banner: Option<string>,
                                                  polls: seq<Poll>, deadline: int, host: string, id: Identifier)
    requires Watching(Seen(st.raw, "", "", None), polls, 0, deadline, id).end.TimedOut?
    requires Watching(Seen(st.raw, "", "", None), polls, 0, deadline, id).seen.found.None?
    ensures Exchanged(st, Accepted(version, banner, ShellOpened(polls)), deadline, host, id).st.status == Connected
    ensures Exchanged(st, Accepted(version, banner, ShellOpened(polls)), deadline, host, id).st.sshError
         == Some("Timed out. Unknown prompt.")
    ensures Exchanged(st, Accepted(version, banner, ShellOpened(polls)), deadline, host, id).outcome == Retry(true)
  {
    var g := Greeted(st, version, banner);
    assert g.raw == st.raw && g.status == Connected;
    var w := Watching(Seen(st.raw, "", "", None), polls, 0, deadline, id);
    assert Exchanged(st, Accepted(version, banner, ShellOpened(polls)), deadline, host, id) == Watched(g, w);
    assert Watched(g, w) == Stepped(Polled(g, w), Retry(true));
  }

  /** A logged-in attempt leaves the session connected, without error,
      with the identified prompt and the shell as its channel. */
  predicate LoggedInState(st: ConnState) {
    st.status == Connected && st.sshError == None && st.prompt.PromptInfo?
    && Index(st.prompt.info, "prompt").Ok? && st.channel.Shell?
  }

  lemma {:induction false} AttemptLoggedIn(st: ConnState, k: nat, item: Value, a: Attempt, host: string, timeout: int, id: Identifier)
    ensures AttemptStep(st, k, item, a, host, timeout, id).outcome.LoggedIn? ==>
      LoggedInState(AttemptStep(st, k, item, a, host, timeout, id).st)
  {
  }

  lemma {:induction false} RetryingSucceeds(st: ConnState, k: nat, item: Value, tries: int, n: nat, env: Env)
    ensures Retrying(st, k, item, tries, n, env).verdict.Succeeded? ==>
      LoggedInState(Retrying(st, k, item, tries, n, env).st)
    decreases env.retries - tries, 1
  {
    if tries < env.retries {
      AttemptLoggedIn(st, k, item, env.script(n), env.host, env.timeout, env.identify);
      ContinuedSucceeds(AttemptStep(st, k, item, env.script(n), env.host, env.timeout, env.identify), k, item, tries, n, env);
    }
  }

  lemma {:induction false} ContinuedSucceeds(step: Stepped, k: nat, item: Value, tries: int, n: nat, env: Env)
    requires tries < env.retries
    requires step.outcome.LoggedIn? ==> LoggedInState(step.st)
    ensures Continued(step, k, item, tries, n, env).verdict.Succeeded? ==>
      LoggedInState(Continued(step, k, item, tries, n, env).st)
    decreases env.retries - tries, 0
  {
    if step.outcome.Retry? {
      RetryingSucceeds(step.st, k, item, if step.outcome.stop then env.retries else tries + 1, n + 1, env);
    }
  }

  lemma {:induction false} ProfilesSucceed(st: ConnState, items: seq<Value>, k: nat, n: nat, env: Env)
    requires k <= |items|
    ensures ProfilesFrom(st, items, k, n, env).verdict.Succeeded? ==>
      LoggedInState(ProfilesFrom(st, items, k, n, env).st)
    decreases |items| - k, 1
  {
    if k < |items| {
      RetryingSucceeds(st, k, items[k], 0, n, env);
      AfterProfileSucceeds(Retrying(st, k, items[k], 0, n, env), items, k, env);
    }
  }

  lemma {:induction false} AfterProfileSucceeds(r: Run, items: seq<Value>, k: nat, env: Env)
    requires k < |items|
    requires r.verdict.Succeeded? ==> LoggedInState(r.st)
    ensures AfterProfile(r, items, k, env).verdict.Succeeded? ==>
      LoggedInState(AfterProfile(r, items, k, env).st)
    decreases |items| - k, 0
  {
    if r.verdict.Pending? {
      ProfilesSucceed(r.st.(sshError := None), items, k + 1, r.attempts, env);
    }
  }

  /** `connect` answers True only after a login that identified the
      prompt: the session is connected, has no error, keeps the
      identification (with its 'prompt') and talks to the shell. */
  lemma {:induction false} ConnectSucceeds(st0: ConnState, env: Env)
    ensures ConnectRun(st0, env).verdict.Succeeded? ==> LoggedInState(ConnectRun(st0, env).st)
  {
    var st := st0.(status := Connecting, channel := Client(false));
    if ProfileItems(st.authentication).Ok? {
      ProfilesSucceed(st, ProfileItems(st.authentication).value, 0, 0, env);
    }
  }

  lemma {:induction false} ProfilesClearError(st: ConnState, items: seq<Value>, k: nat, n: nat, env: Env)
    requires k < |items|
    ensures ProfilesFrom(st, items, k, n, env).verdict.Pending? ==>
      ProfilesFrom(st, items, k, n, env).st.sshError == None
    decreases |items| - k, 1
  {
    AfterProfileClearsError(Retrying(st, k, items[k], 0, n, env), items, k, env);
  }

  lemma {:induction false} AfterProfileClearsError(r: Run, items: seq<Value>, k: nat, env: Env)
    requires k < |items|
    ensures AfterProfile(r, items, k, env).verdict.Pending? ==>
      AfterProfile(r, items, k, env).st.sshError == None
    decreases |items| - k, 0
  {
    if r.verdict.Pending? && k + 1 < |items| {
      ProfilesClearError(r.st.(sshError := None), items, k + 1, r.attempts, env);
    }
  }

  /** When `connect` answers False after trying at least one profile, the
      error is None: the error of the last attempt is cleared with the
      profile, so the reason of the failure is not kept. With no profile
      at all the error the session had is left as it was. */
  lemma {:induction false} FalseLeavesNoError(st0: ConnState, env: Env)
    requires st0.authentication.List?
    ensures |st0.authentication.items| > 0 && ConnectRun(st0, env).verdict.Pending? ==>
      ConnectRun(st0, env).st.sshError == None
    ensures |st0.authentication.items| == 0 ==>
      ConnectRun(st0, env) == Run(st0.(status := Connecting, channel := Client(false)), Pending, 0)
  {
    var st := st0.(status := Connecting, channel := Client(false));
    if |st0.authentication.items| > 0 {
      ProfilesClearError(st, st0.authentication.items, 0, 0, env);
    }
  }

  function Max0(x: int): nat {
    if x < 0 then 0 else x
  }

  lemma {:induction false} RetryingAttempts(st: ConnState, k: nat, item: Value, tries: int, n: nat, env: Env)
    ensures n <= Retrying(st, k, item, tries, n, env).attempts <= n + Max0(env.retries - tries)
    decreases env.retries - tries, 1
  {
    if tries < env.retries {
      ContinuedAttempts(AttemptStep(st, k, item, env.script(n), env.host, env.timeout, env.identify), k, item, tries, n, env);
    }
  }

  lemma {:induction false} ContinuedAttempts(step: Stepped, k: nat, item: Value, tries: int, n: nat, env: Env)
    requires tries < env.retries
    ensures n < Continued(step, k, item, tries, n, env).attempts <= n + Max0(env.retries - tries)
    decreases env.retries - tries, 0
  {
    match step.outcome
    case Retry(stop) =>
      var next := if stop then env.retries else tries + 1;
      RetryingAttempts(step.st, k, item, next, n + 1, env);
      MaxStep(env.retries, tries, next);
    case _ =>
  }

  lemma {:induction false} MaxStep(retries: int, tries: int, next: int)
    requires tries < retries && tries < next
    ensures Max0(retries - next) + 1 <= Max0(retries - tries)
  {
  }

  /** `count` times `m`, by repeated addition. */
  function Times(count: nat, m: nat): nat {
    if count == 0 then 0 else m + Times(count - 1, m)
  }

  lemma {:induction false} ProfilesAttempts(st: ConnState, items: seq<Value>, k: nat, n: nat, env: Env)
    requires k <= |items|
    ensures n <= ProfilesFrom(st, items, k, n, env).attempts <= n + Times(|items| - k, Max0(env.retries))
    decreases |items| - k, 1
  {
    if k < |items| {
      RetryingAttempts(st, k, items[k], 0, n, env);
      AfterProfileAttempts(Retrying(st, k, items[k], 0, n, env), items, k, n, env);
    }
  }

  lemma {:induction false} AfterProfileAttempts(r: Run, items: seq<Value>, k: nat, n: nat, env: Env)
    requires k < |items| && n <= r.attempts <= n + Max0(env.retries)
    ensures n <= AfterProfile(r, items, k, env).attempts <= n + Times(|items| - k, Max0(env.retries))
    decreases |items| - k, 0
  {
    if r.verdict.Pending? {
      ProfilesAttempts(r.st.(sshError := None), items, k + 1, r.attempts, env);
    }
  }

  lemma {:induction false} TimesIsProduct(count: nat, m: nat)
    ensures Times(count, m) == count * m
  {
    if count > 0 {
      TimesIsProduct(count - 1, m);
    }
  }

  /** `connect` makes at most `retries` attempts per profile, and none
      when `retries` is not positive. */
  lemma {:induction false} ConnectAttempts(st0: ConnState, env: Env)
    requires ProfileItems(st0.authentication).Ok?
    ensures ConnectRun(st0, env).attempts <= |ProfileItems(st0.authentication).value| * Max0(env.retries)
  {
    var st := st0.(status := Connecting, channel := Client(false));
    var items := ProfileItems(st0.authentication).value;
    ProfilesAttempts(st, items, 0, 0, env);
    TimesIsProduct(|items|, Max0(env.retries));
  }

  /** The vendor comes from the version string when `id_by_ssh_version`
      recognises it, and is otherwise left alone. */
  lemma {:induction false} VersionVendorCases(vendor: Option<string>, version: string)
    ensures CiscoVersion(version) ==> VersionVendor(vendor, version) == Some("cisco")
    ensures !CiscoVersion(version) && UbuntuVersion(version) ==> VersionVendor(vendor, version) == Some("ubuntu")
    ensures !CiscoVersion(version) && !UbuntuVersion(version) ==> VersionVendor(vendor, version) == vendor
  {
  }

  /** The error text recorded for an error: the name-lookup failure and the
      two time-out texts are reworded, anything else keeps its text less
      one trailing full stop. */
  lemma {:induction false} NormaliseCases(e: string, host: string)
    ensures Contains(DropFullStop(e), "getaddrinfo failed") ==>
      Normalise(e, host) == "Unable to resolve '" + host + "'."
    ensures !Contains(DropFullStop(e), "getaddrinfo failed") ==>
      Normalise(e, host) == (if DropFullStop(e) in ["timed out", "Timeout opening channel"]
                             then "Connection timed out" else DropFullStop(e))
  {
  }

  /** A failed authentication gives up the profile. */
  lemma {:induction false} AuthenticationFailureStops(st: ConnState, rest: string, host: string)
    requires !Contains(DropFullStop("Authentication failed" + rest), "getaddrinfo failed")
    ensures Failure(st, "Authentication failed" + rest, host).outcome == Retry(true)
  {
    var e := "Authentication failed" + rest;
    var e' := DropFullStop(e);
    assert e[..21] == "Authentication failed";
    assert e'[..21] == e[..21];
    assert e' != "timed out" && e' != "Timeout opening channel" by {
      assert e'[0] == e'[..21][0] == 'A';
    }
    assert StartsWith(Normalise(e, host), "Authentication failed");
  }

  /** A channel the jump host could not open is recorded as 'Permission
      denied' and the same profile is tried again: the pattern meant to
      stop retrying it does not match the exception's text. */
  lemma {:induction false} RefusedChannelRetries(st: ConnState, host: string)
    ensures Failure(st, ChannelRefused, host)
         == Stepped(st.(status := Failed, sshError := Some("Permission denied")), Retry(false))
  {
    RefusedChannelKept(host);
    RefusedChannelContinues();
  }

  lemma {:induction false} RefusedChannelKept(host: string)
    ensures Normalise(ChannelRefused, host) == ChannelRefused
  {
    var e := ChannelRefused;
    assert DropFullStop(e) == e;
    MissingFirstChar(e, "getaddrinfo failed");
    assert e[0] == 'C';
    NormaliseCases(e, host);
  }

  lemma {:induction false} RefusedChannelContinues()
    ensures !StopsRetries(ChannelRefused)
  {
    var e := ChannelRefused;
    assert e[0] == 'C';
    assert e[16] == '(';
  }
}
