/** `send_command`: writes one command to the interactive shell, reads until
    `id_by_prompt` recognises the last line of the output, the channel
    closes or the session time-out passes, answers pager prompts on the way,
    and hands back the output with the command echo and the prompt taken
    off. The channel is the scripted one of `Transport`. */
module Send {
  import opened Wrappers
  import opened Text
  import opened Py
  import opened Sanitiser
  import opened Identify
  import opened Transport
  import opened Session
  import Connect

  // ---------------------------------------------------------------------
  // Auto-responses
  // ---------------------------------------------------------------------

  /** What is written back for a candidate prompt, if anything. */
  type Responder = Line -> Option<string>

  /** `auto_reponse(line)['reply_with']`: the reply for the first pattern
      of `SSH_AUTO_RESPONSE`, in table order, that matches the line. */
  function AutoReplyText(s: Line): Option<string> {
    ReplyFrom(s, 0)
  }

  /** The reply for the first pattern at position `i` or later that
      matches. */
  function ReplyFrom(s: Line, i: nat): Option<string>
    requires i <= |AutoOrder()|
    decreases |AutoOrder()| - i
  {
    if i == |AutoOrder()| then None
    else if AutoFind(AutoOrder()[i], s).Some? then Some(ReplyFor(AutoOrder()[i]).replyWith)
    else ReplyFrom(s, i + 1)
  }

  /** Pattern by pattern, the replies are those of the first matching entry
      of the table. */
  lemma {:induction false} ReplyFromTable(s: Line, i: nat)
    requires i <= |AutoOrder()|
    ensures ReplyFrom(s, i) == match FirstSome(AutoMatches(AutoReplies(), s), i)
      case None => None
      case Some((k, _)) => Some(AutoReplies()[k].replyWith)
    decreases |AutoOrder()| - i
  {
    if i < |AutoOrder()| {
      assert AutoReplies()[i] == ReplyFor(AutoOrder()[i]);
      if AutoFind(AutoOrder()[i], s).None? {
        ReplyFromTable(s, i + 1);
      }
    }
  }

  /** The reply of the first matching entry of `SSH_AUTO_RESPONSE`. */
  lemma {:induction false} AutoReplyTextIsTable(s: Line)
    ensures AutoReplyText(s) == match FirstAutoMatch(AutoReplies(), s)
      case None => None
      case Some((k, _)) => Some(AutoReplies()[k].replyWith)
  {
    ReplyFromTable(s, 0);
  }

  /** The 'found' texts a table has collected do not change what its
      patterns match. */
  lemma {:induction false} SameMatches(entries: seq<AutoReply>, s: Line)
    requires |entries| == |AutoReplies()|
    requires forall i :: 0 <= i < |entries| ==> SameRule(entries[i], AutoReplies()[i])
    ensures AutoMatches(entries, s) == AutoMatches(AutoReplies(), s)
  {
    forall i | 0 <= i < |entries|
      ensures entries[i].pattern == AutoReplies()[i].pattern
    {
      assert entries[i].(found := None).pattern == AutoReplies()[i].(found := None).pattern;
    }
  }

  /** `auto_reponse(prompt)` and the reply it hands back. */
  method AutoRespond(table: AutoResponseTable, s: Line) returns (reply: Option<string>)
    requires table.Valid()
    modifies table
    ensures table.Valid() && reply == AutoReplyText(s)
    ensures table.entries == Responded(old(table.entries), s)
  {
    ghost var before := table.entries;
    SameMatches(before, s);
    AutoReplyTextIsTable(s);
    var r := table.Respond(s);
    if r.Some? {
      var k := FirstAutoMatch(before, s).value.0;
      assert SameRule(before[k], AutoReplies()[k]);
      assert before[k].(found := None).replyWith == AutoReplies()[k].(found := None).replyWith;
      reply := Some(r.value.replyWith);
    } else {
      reply := None;
    }
  }

  /** The end marker of a pager is answered with 'q'. */
  lemma {:induction false} EndMarkerAnswered(e: Line)
    requires e == "(END)"
    ensures AutoReplyText(e) == Some("q")
  {
    EndMarkerReply(e);
    AutoReplyTextIsTable(e);
  }

  /** Readline's completion question is answered with 'y'. */
  lemma {:induction false} DisplayAllAnswered(s: Line, n: string, w: string)
    requires |n| > 0 && AllDigits(n) && |w| > 0 && AllSpace(w)
    requires s == DisplayAllQuestion(n, w)
    ensures AutoReplyText(s) == Some("y")
  {
    DisplayAllReply(s, n, w);
    AutoReplyTextIsTable(s);
  }

  // ---------------------------------------------------------------------
  // Known errors
  // ---------------------------------------------------------------------

  /** `re.search(pattern, output, re.MULTILINE | re.DOTALL).group(1)`, or
      None where nothing matches; `send_command` is given
      `Identify.KnownErrorGroup`, and the scan is stated for any search. */
  type Searcher = (string, string) -> Option<string>

  /** An entry of 'known_errors' that finds an error in the output. */
  predicate Flags(item: Value, text: string, search: Searcher) {
    item.Str? && search(item.s, text).Some?
  }

  /** The first entry at `from` or later that finds an error. */
  function FirstFlagged(items: seq<Value>, text: string, search: Searcher, from: nat): (r: Option<nat>)
    requires from <= |items|
    ensures r.Some? ==> from <= r.value < |items| && Flags(items[r.value], text, search)
    ensures r.Some? ==> forall k :: from <= k < r.value ==> !Flags(items[k], text, search)
    ensures r.None? ==> forall k :: from <= k < |items| ==> !Flags(items[k], text, search)
    decreases |items| - from
  {
    if from == |items| then None
    else if Flags(items[from], text, search) then Some(from)
    else FirstFlagged(items, text, search, from + 1)
  }

  /** The error recorded for a matching entry: capture group 1, stripped
      and capitalised. */
  function ErrorText(item: Value, text: string, search: Searcher): string
    requires Flags(item, text, search)
  {
    Capitalize(Strip(search(item.s, text).value))
  }

  /** The 'known_errors' list of an identified prompt, if it has one. */
  function KnownErrorList(v: Value): Option<seq<Value>> {
    if v.Dict? then
      match Get(v.entries, "known_errors")
      case Some(List(items)) => Some(items)
      case _ => None
    else None
  }

  /** The error the 'known_errors' patterns of an identified prompt find in
      the output: the first pattern that matches decides. */
  function KnownErrorIn(v: Value, text: string, search: Searcher): Option<string> {
    match KnownErrorList(v)
    case None => None
    case Some(items) =>
      match FirstFlagged(items, text, search, 0)
      case None => None
      case Some(k) => Some(ErrorText(items[k], text, search))
  }

  /** The first flagged entry decides, whatever the entries after it. */
  lemma {:induction false} FirstErrorDecides(v: Value, text: string, search: Searcher, k: nat)
    requires KnownErrorList(v).Some? && k < |KnownErrorList(v).value|
    requires Flags(KnownErrorList(v).value[k], text, search)
    requires forall j :: 0 <= j < k ==> !Flags(KnownErrorList(v).value[j], text, search)
    ensures KnownErrorIn(v, text, search) == Some(ErrorText(KnownErrorList(v).value[k], text, search))
  {
    var items := KnownErrorList(v).value;
    assert FirstFlagged(items, text, search, 0).Some?;
  }

  /** The scan of 'known_errors' with its early `break`. */
  method KnownErrors(v: Value, text: string, search: Searcher) returns (e: Option<string>)
    ensures e == KnownErrorIn(v, text, search)
  {
    e := None;
    var list := KnownErrorList(v);
    if list.None? {
      return;
    }
    var items := list.value;
    var i := 0;
    while i < |items|
      invariant i <= |items| && FirstFlagged(items, text, search, 0) == FirstFlagged(items, text, search, i)
    {
      var m := if items[i].Str? then search(items[i].s, text) else None;
      if m.Some? {
        assert Flags(items[i], text, search) && FirstFlagged(items, text, search, i) == Some(i);
        e := Some(Capitalize(Strip(m.value)));
        return;
      }
      assert FirstFlagged(items, text, search, i) == FirstFlagged(items, text, search, i + 1);
      i := i + 1;
    }
  }

  // ---------------------------------------------------------------------
  // The read loop
  // ---------------------------------------------------------------------

  /** The locals of the read loop and what it adds to the session: the
      bytes received since the send (`cmd_raw`, which `self.raw` gains as
      well), the sanitised output (`ssh_output`), the candidate prompt
      (`output['prompt']`), `output['output']` once it is set, the
      identified prompt, `self.ssh_error`, the auto-responses written
      to the channel, and the candidates offered to `auto_reponse`. */
  datatype Locals = Locals(cmdRaw: string, out: string, cand: Line,
                           text: Option<string>, found: Option<Value>, error: Option<string>,
                           replies: seq<string>, asked: seq<Line>)

  /** The candidate is always empty or the last line of the output: it is
      taken from the output and cleared once answered. */
  type Heard = h: Locals | h.cand == "" || h.cand == LastLine(h.out)
    witness Locals("", "", "", None, None, None, [], [])

  /** The device knowledge a call consults: the prompt identifier, the
      auto-responder and the known-error search. */
  datatype Rules = Rules(id: Connect.Identifier, reply: Responder, search: Searcher)

  /** What the program consults: `id_by_prompt`, `auto_reponse` and
      `re.search` on the patterns of the prompt table. */
  function Standard(): Rules {
    Rules(IdByPrompt, AutoReplyText, KnownErrorGroup)
  }

  /** What one call works with: the command, `session_object_start_time`,
      `session_object_timeout` and the device knowledge. */
  datatype Ask = Ask(command: string, start: Option<int>, timeout: int, rules: Rules)

  /** The clock reading after which the time-out check fires. */
  function Deadline(a: Ask): int {
    if a.start.Some? then a.start.value + a.timeout else 0
  }

  /** `while inv_shell.recv_ready()`: the chunks go into `self.raw` and
      `cmd_raw` and, sanitised, into the output, whose last line becomes
      the candidate. */
  function Received(h: Heard, chunks: seq<string>): Heard {
    var out := h.out + Cleaned(chunks);
    assert chunks == [] ==> out == h.out;
    h.(cmdRaw := h.cmdRaw + Joined(chunks), out := out,
       cand := if chunks == [] then h.cand else LastLine(out))
  }

  /** One trailing line break is dropped when the text holds one at all. */
  function Trimmed(t: string): (r: string)
    ensures r == t || (t == r + "\n" && '\n' in t)
  {
    if '\n' in t && t[|t| - 1] == '\n' then t[..|t| - 1] else t
  }

  /** A non-empty candidate: the output without the candidate becomes
      `output['output']`, the candidate is offered to the identifier and
      then to the auto-responder. */
  function Examined(h: Heard, a: Ask): (r: Heard)
    ensures r.cmdRaw == h.cmdRaw && r.out == h.out
    ensures h.replies <= r.replies && (r.cand == "" || r.cand == h.cand)
  {
    if h.cand == "" then h else Inspected(h, Trimmed(Replace(h.out, h.cand, "")), a)
  }

  /** The checks of a non-empty candidate, with `t` as `output['output']`. */
  function Inspected(h: Heard, t: string, a: Ask): (r: Heard)
    ensures r.cmdRaw == h.cmdRaw && r.out == h.out
    ensures h.replies <= r.replies && (r.cand == "" || r.cand == h.cand)
  {
    Replied(Recognised(h.(text := Some(t)), t, a), a)
  }

  /** An identified prompt ends the loop and its 'known_errors' are checked
      against the output `t`. */
  function Recognised(h: Heard, t: string, a: Ask): Heard {
    match a.rules.id(h.cand)
    case None => h
    case Some(v) => h.(found := Some(v), error := KnownErrorIn(v, t, a.rules.search))
  }

  /** The candidate is offered to the auto-responder; one it knows is
      answered and cleared. */
  function Replied(h: Heard, a: Ask): Heard {
    var h1 := h.(asked := h.asked + [h.cand]);
    match a.rules.reply(h.cand)
    case None => h1
    case Some(r) => h1.(replies := h.replies + [r], cand := "")
  }

  /** One pass of the loop up to its exit checks. */
  function Took(h: Heard, p: Poll, a: Ask): Heard {
    Examined(Received(h, p.chunks), a)
  }

  /** How the loop ended: a prompt was identified, the channel closed
      after a command that ends the session or closed otherwise, the
      time-out passed, or the start time was never set (the subtraction
      raises). */
  datatype End = Done | Closed | Lost | TimedOut | NoStart

  /** `command.lower() in ['exit', 'quit', 'logout']` */
  predicate Quits(command: string) {
    Lower(command) in ["exit", "quit", "logout"]
  }

  /** The exit checks after a pass: the closed channel first, then the
      clock (measured from the session's start), then the loop condition. */
  function Ending(h: Heard, p: Poll, a: Ask): (e: Option<End>)
    ensures e.None? ==> !p.closed && a.start.Some? && p.now <= Deadline(a)
    ensures e.None? ==> h.found.None? && h.error.None?
  {
    if p.closed then Some(if Quits(a.command) then Closed else Lost)
    else if a.start.None? then Some(NoStart)
    else if p.now - a.start.value > a.timeout then Some(TimedOut)
    else if h.found.Some? || h.error.Some? then Some(Done)
    else None
  }

  /** The loop's final locals, how it ended, and the clock then. */
  datatype Listened = Listened(heard: Heard, end: End, at: int)

  /** The read loop from poll `i` on. */
  function Listening(h: Heard, polls: seq<Poll>, i: nat, a: Ask): Listened
    requires i <= |polls|
    decreases |polls| - i, 1
  {
    var p := PollAt(polls, i, Deadline(a));
    Checked(Took(h, p, a), p, polls, i, a)
  }

  /** The exit checks that end poll `i`, which delivered `p` and left `h`. */
  function Checked(h: Heard, p: Poll, polls: seq<Poll>, i: nat, a: Ask): Listened
    requires i <= |polls| && p == PollAt(polls, i, Deadline(a))
    decreases |polls| - i, 0
  {
    match Ending(h, p, a)
    case Some(e) => Listened(h, e, p.now)
    case None => Listening(h, polls, i + 1, a)
  }

  lemma {:induction false} ListeningUnfolds(h: Heard, polls: seq<Poll>, i: nat, a: Ask)
    requires i <= |polls|
    ensures var p := PollAt(polls, i, Deadline(a));
      Listening(h, polls, i, a) == Checked(Took(h, p, a), p, polls, i, a)
  {
  }

  lemma {:induction false} CheckedContinues(h: Heard, p: Poll, polls: seq<Poll>, i: nat, a: Ask)
    requires i <= |polls| && p == PollAt(polls, i, Deadline(a)) && Ending(h, p, a).None?
    ensures i < |polls| && Checked(h, p, polls, i, a) == Listening(h, polls, i + 1, a)
  {
  }

  /** One pass of the read loop: it ends with the exit checks' verdict or
      goes on with the next poll. */
  lemma {:induction false} ListeningStep(h: Heard, polls: seq<Poll>, i: nat, a: Ask)
    requires i <= |polls|
    ensures var p := PollAt(polls, i, Deadline(a)); var h1 := Took(h, p, a);
      match Ending(h1, p, a)
      case Some(e) => Listening(h, polls, i, a) == Listened(h1, e, p.now)
      case None => i < |polls| && Listening(h, polls, i, a) == Listening(h1, polls, i + 1, a)
  {
  }

  lemma {:induction false} CheckedStops(h: Heard, p: Poll, polls: seq<Poll>, i: nat, a: Ask)
    requires i <= |polls| && p == PollAt(polls, i, Deadline(a)) && Ending(h, p, a).Some?
    ensures Checked(h, p, polls, i, a) == Listened(h, Ending(h, p, a).value, p.now)
  {
  }

  // ---------------------------------------------------------------------
  // The session fields `send_command` reads and writes
  // ---------------------------------------------------------------------

  datatype SendState = SendState(sshError: Option<string>, raw: string, history: string,
                                 prompt: PromptField, closedTime: Option<int>,
                                 transmitted: seq<string>, username: Option<Value>)

  function Snapshot(s: SshSession): SendState
    reads s
  {
    SendState(s.sshError, s.raw, s.history, s.prompt, s.closedTime, s.transmitted, s.username)
  }

  /** The session while the loop runs: the received bytes, the error, the
      identified prompt and what was written. */
  function Reflected(st: SendState, h: Heard): SendState {
    st.(raw := st.raw + h.cmdRaw, sshError := h.error, transmitted := st.transmitted + h.replies,
        prompt := if h.found.Some? then PromptInfo(h.found.value) else st.prompt)
  }

  const LostText := "Connection lost"
  const TimedOutText := "Timed out. No prompt detected."

  /** The error the loop leaves: a lost connection and a time-out replace
      whatever was found before. */
  function FinalError(e: Option<string>, end: End): Option<string> {
    match end
    case Lost => Some(LostText)
    case TimedOut => Some(TimedOutText)
    case _ => e
  }

  /** The session when the loop has ended. */
  function Posted(st: SendState, l: Listened): SendState {
    Reflected(st, l.heard).(sshError := FinalError(l.heard.error, l.end),
      closedTime := if l.end == Closed || l.end == Lost then Some(l.at) else st.closedTime)
  }

  // ---------------------------------------------------------------------
  // The result
  // ---------------------------------------------------------------------

  /** The dictionary `send_command` returns, without its time stamps: the
      early answer of a session that already failed, or the normalised
      output, the last candidate, the raw output, and whether the 'error'
      key (None) is present, that is whether no error was recorded. */
  datatype Reply =
    | Declined(command: string, sshError: string)
    | Answer(command: string, prompt: string, output: string, rawOutput: string, errorCleared: bool)

  /** The session after a call, its result, and the lines it offered to
      `auto_reponse` (whose table records what each match found). */
  datatype Sent = Sent(st: SendState, result: Result<Reply>, asked: seq<Line>)

  /** `re.sub(rb'\r\n.*?$', b'', x)`, from index `k` on: the end of a lazy
      `.*?$` (no MULTILINE, no DOTALL), where `$` holds at the end and
      before a final line break, and `.` stops at a line break. */
  function LazyEnd(x: string, k: nat): (r: Option<nat>)
    requires k <= |x|
    ensures r.Some? ==> k <= r.value <= |x| && NoNewline(x[k..r.value])
    decreases |x| - k
  {
    if k == |x| || (k == |x| - 1 && x[k] == '\n') then Some(k)
    else if x[k] == '\n' then None
    else
      var r := LazyEnd(x, k + 1);
      assert r.Some? ==> x[k..r.value] == [x[k]] + x[k + 1..r.value];
      r
  }

  /** The leftmost match of `\r\n.*?$` at index `i` or later. */
  function FirstCut(x: string, i: nat): (r: Option<(nat, nat)>)
    requires i <= |x|
    ensures r.Some? ==> i <= r.value.0 && r.value.0 + 2 <= r.value.1 <= |x|
    decreases |x| - i
  {
    if i + 2 > |x| then None
    else if x[i] == '\r' && x[i + 1] == '\n' then
      match LazyEnd(x, i + 2)
      case Some(j) => Some((i, j))
      case None => FirstCut(x, i + 1)
    else FirstCut(x, i + 1)
  }

  /** The substitution: a match ends at the end of the text or before its
      final line break, so there is at most one. */
  function CutPrompt(x: string): string {
    match FirstCut(x, 0)
    case None => x
    case Some((i, j)) => x[..i] + x[j..]
  }

  /** `output['raw_output']`: the bytes received since the send, without
      the command's echo and without the last line. */
  function RawOutput(cmdRaw: string, command: string): string {
    CutPrompt(Replace(cmdRaw, command + "\r\n", ""))
  }

  /** `output['output'].split('\r\n')` with every '\r' removed from each
      item. */
  function Relined(t: string): (tmp: seq<string>)
    ensures |tmp| >= 1
  {
    var parts := Split(t, "\r\n");
    seq(|parts|, i requires 0 <= i < |parts| => RemoveChar(parts[i], '\r'))
  }

  /** The output as returned: a first line equal to the command is
      dropped, and the lines are joined with '\n'. */
  function Normalised(t: string, command: string): string {
    var tmp := Relined(t);
    if tmp[0] == command then Join(tmp[1..], "\n") else Join(tmp, "\n")
  }

  /** After the loop: the output goes into the history and the reply is
      built; the start-time check and `output['output']` can raise. */
  function Concluded(st: SendState, l: Listened, a: Ask): Sent {
    var st1 := Posted(st, l);
    if l.end == NoStart then Sent(st1, Raised("TypeError"), l.heard.asked)
    else
      var st2 := st1.(history := st1.history + l.heard.out);
      match l.heard.text
      case None => Sent(st2, Raised("KeyError"), l.heard.asked)
      case Some(t) =>
        Sent(st2, Ok(Answer(a.command, l.heard.cand, Normalised(t, a.command),
                            RawOutput(l.heard.cmdRaw, a.command), st2.sshError.None?)), l.heard.asked)
  }

  /** The loop's locals when it starts. */
  function Start(): Heard {
    Locals("", "", "", None, None, None, [], [])
  }

  /** Everything after the command has been written. */
  function Dispatched(st: SendState, polls: seq<Poll>, a: Ask): Sent {
    Concluded(st, Listening(Start(), polls, 0, a), a)
  }

  const NotAString := "Error: The 'send_command' function accepts only a string."

  /** `send_command(command)` on a session with the given channel. */
  function Sending(st: SendState, channel: Channel, command: Value, polls: seq<Poll>,
                   start: Option<int>, timeout: int, rules: Rules): Sent
  {
    if !command.Str? then Sent(st.(sshError := Some(NotAString)), Raised("KeyError"), [])
    else if st.username.None? then Sent(st, Raised("AttributeError"), [])
    else if st.sshError.Some? then Sent(st, Ok(Declined(command.s, Strip(st.sshError.value))), [])
    else if !channel.Shell? then Sent(st, Raised("AttributeError"), [])
    else
      Dispatched(st.(transmitted := st.transmitted + [command.s + "\n"]), polls,
                 Ask(command.s, start, timeout, rules))
  }

  // ---------------------------------------------------------------------
  // The methods
  // ---------------------------------------------------------------------

  /** `while inv_shell.recv_ready()` */
  method Drain(s: SshSession, chunks: seq<string>, h: Heard, ghost st0: SendState) returns (h': Heard)
    requires Snapshot(s) == Reflected(st0, h)
    modifies s`sshError, s`raw, s`history, s`prompt, s`closedTime, s`transmitted
    ensures h' == Received(h, chunks) && Snapshot(s) == Reflected(st0, h')
    ensures h'.found == h.found && h'.asked == h.asked
  {
    var got, clean := Gather(chunks);
    // `self.raw`, `cmd_raw` and the sanitised output grow chunk by chunk;
    // nothing reads them inside the loop.
    s.raw := s.raw + got;
    var out := h.out + clean;
    // `output['prompt']` is taken after every chunk; only the last value counts.
    var cand: Line := if chunks == [] then h.cand else LastLine(out);
    assert chunks == [] ==> out == h.out;
    h' := h.(cmdRaw := h.cmdRaw + got, out := out, cand := cand);
    ReceivedReflected(st0, h, chunks);
  }

  /** Received bytes extend the session's. */
  lemma {:induction false} ReceivedReflected(st0: SendState, h: Heard, chunks: seq<string>)
    ensures var st := Reflected(st0, h);
      Reflected(st0, Received(h, chunks)) == st.(raw := st.raw + Joined(chunks))
  {
    assert st0.raw + (h.cmdRaw + Joined(chunks)) == st0.raw + h.cmdRaw + Joined(chunks);
  }

  /** The candidate checks of one pass: set `output['output']`, identify
      the prompt and scan for known errors, then try the auto-responder. */
  method Examine(s: SshSession, table: AutoResponseTable, h: Heard, a: Ask, ghost st0: SendState,
                 ghost e0: seq<AutoReply>)
    returns (h': Heard)
    requires table.Valid() && a.rules.reply == AutoReplyText && table.entries == RespondedAll(e0, h.asked)
    requires h.found.None? && Snapshot(s) == Reflected(st0, h)
    modifies s`sshError, s`raw, s`history, s`prompt, s`closedTime, s`transmitted, table
    ensures table.Valid() && h' == Examined(h, a) && Snapshot(s) == Reflected(st0, h')
    ensures table.entries == RespondedAll(e0, h'.asked)
  {
    if h.cand == "" {
      return h;
    }
    var t := Trimmed(Replace(h.out, h.cand, ""));
    h' := Inspect(s, table, h, t, a, st0, e0);
  }

  /** The checks of a non-empty candidate. */
  method Inspect(s: SshSession, table: AutoResponseTable, h: Heard, t: string, a: Ask, ghost st0: SendState,
                 ghost e0: seq<AutoReply>)
    returns (h': Heard)
    requires table.Valid() && a.rules.reply == AutoReplyText && table.entries == RespondedAll(e0, h.asked)
    requires h.found.None? && Snapshot(s) == Reflected(st0, h)
    modifies s`sshError, s`raw, s`history, s`prompt, s`closedTime, s`transmitted, table
    ensures table.Valid() && h' == Inspected(h, t, a) && Snapshot(s) == Reflected(st0, h')
    ensures table.entries == RespondedAll(e0, h'.asked)
  {
    var h1 := Recognise(s, h.(text := Some(t)), t, a, st0);
    h' := ReplyIfKnown(s, table, h1, a, st0, e0);
  }

  /** `id_by_prompt(output['prompt'])` and, on a match, the scan of its
      'known_errors'. */
  method Recognise(s: SshSession, h: Heard, t: string, a: Ask, ghost st0: SendState) returns (h': Heard)
    requires h.found.None? && Snapshot(s) == Reflected(st0, h)
    modifies s`sshError, s`raw, s`history, s`prompt, s`closedTime, s`transmitted
    ensures h' == Recognised(h, t, a) && Snapshot(s) == Reflected(st0, h')
  {
    h' := h;
    var identified := a.rules.id(h.cand);
    if identified.Some? {
      s.prompt := PromptInfo(identified.value);
      s.sshError := None;
      var e := KnownErrors(identified.value, t, a.rules.search);
      s.sshError := e;
      h' := h.(found := identified, error := e);
    }
  }

  /** `auto_reponse(output['prompt'])` and, on a match, the reply. */
  method ReplyIfKnown(s: SshSession, table: AutoResponseTable, h: Heard, a: Ask, ghost st0: SendState,
                      ghost e0: seq<AutoReply>)
    returns (h': Heard)
    requires table.Valid() && a.rules.reply == AutoReplyText && Snapshot(s) == Reflected(st0, h)
    requires table.entries == RespondedAll(e0, h.asked)
    modifies s`sshError, s`raw, s`history, s`prompt, s`closedTime, s`transmitted, table
    ensures table.Valid() && h' == Replied(h, a) && Snapshot(s) == Reflected(st0, h')
    ensures table.entries == RespondedAll(e0, h'.asked)
  {
    h' := h.(asked := h.asked + [h.cand]);
    RespondedAllSnoc(e0, h.asked, h.cand);
    var reply := AutoRespond(table, h.cand);
    if reply.Some? {
      s.transmitted := s.transmitted + [reply.value];
      RepliedReflected(st0, h', reply.value);
      h' := h'.(replies := h.replies + [reply.value], cand := "");
    }
  }

  /** A reply extends what the session wrote. */
  lemma {:induction false} RepliedReflected(st0: SendState, h: Heard, r: string)
    ensures var st := Reflected(st0, h);
      Reflected(st0, h.(replies := h.replies + [r], cand := "")) == st.(transmitted := st.transmitted + [r])
  {
    assert st0.transmitted + (h.replies + [r]) == st0.transmitted + h.replies + [r];
  }

  /** One pass of the loop with its exit checks. */
  method ListenOnce(s: SshSession, table: AutoResponseTable, h: Heard, p: Poll, a: Ask, ghost st0: SendState,
                    ghost e0: seq<AutoReply>)
    returns (h': Heard, e: Option<End>)
    requires table.Valid() && a.rules.reply == AutoReplyText && table.entries == RespondedAll(e0, h.asked)
    requires a.start == s.startTime && a.timeout == s.sessionTimeout
    requires h.found.None? && Snapshot(s) == Reflected(st0, h)
    modifies s`sshError, s`raw, s`history, s`prompt, s`closedTime, s`transmitted, table
    ensures table.Valid() && table.entries == RespondedAll(e0, h'.asked)
    ensures h' == Took(h, p, a) && e == Ending(h', p, a)
    ensures e.None? ==> Snapshot(s) == Reflected(st0, h')
    ensures e.Some? ==> Snapshot(s) == Posted(st0, Listened(h', e.value, p.now))
  {
    h' := Take(s, table, h, p, a, st0, e0);
    e := CheckExit(s, h', p, a);
  }

  /** What one pass reads and replies, before its exit checks. */
  method Take(s: SshSession, table: AutoResponseTable, h: Heard, p: Poll, a: Ask, ghost st0: SendState,
              ghost e0: seq<AutoReply>)
    returns (h': Heard)
    requires table.Valid() && a.rules.reply == AutoReplyText && table.entries == RespondedAll(e0, h.asked)
    requires h.found.None? && Snapshot(s) == Reflected(st0, h)
    modifies s`sshError, s`raw, s`history, s`prompt, s`closedTime, s`transmitted, table
    ensures table.Valid() && table.entries == RespondedAll(e0, h'.asked)
    ensures h' == Took(h, p, a) && Snapshot(s) == Reflected(st0, h')
  {
    var h1 := Drain(s, p.chunks, h, st0);
    h' := Examine(s, table, h1, a, st0, e0);
  }

  /** The exit checks of a pass, which record the closing time and the
      error. */
  method CheckExit(s: SshSession, h: Heard, p: Poll, a: Ask) returns (e: Option<End>)
    requires a.start == s.startTime && a.timeout == s.sessionTimeout
    modifies s`sshError, s`raw, s`history, s`prompt, s`closedTime, s`transmitted
    ensures e == Ending(h, p, a)
    ensures e.None? ==> Snapshot(s) == old(Snapshot(s))
    ensures e.Some? ==> Snapshot(s) == old(Snapshot(s)).(sshError := FinalError(old(s.sshError), e.value),
      closedTime := if e.value == Closed || e.value == Lost then Some(p.now) else old(s.closedTime))
  {
    if p.closed {
      if Quits(a.command) {
        s.closedTime := Some(p.now);
        e := Some(Closed);
      } else {
        s.sshError := Some(LostText);
        s.closedTime := Some(p.now);
        e := Some(Lost);
      }
    } else if s.startTime.None? {
      e := Some(NoStart);
    } else if p.now - s.startTime.value > s.sessionTimeout {
      s.sshError := Some(TimedOutText);
      e := Some(TimedOut);
    } else if h.found.Some? || h.error.Some? {
      e := Some(Done);
    } else {
      e := None;
    }
  }

  /** The loop's state before pass `i`, from the session `st0` it started
      with: the session shows the locals `h`, nothing has been identified
      yet, and the passes left end as the whole loop does. */
  predicate Tracking(st0: SendState, st: SendState, h: Heard, polls: seq<Poll>, i: nat, a: Ask,
                     target: Listened)
  {
    i <= |polls| && h.found.None? && h.error.None? && st == Reflected(st0, h)
    && Listening(h, polls, i, a) == target
  }

  /** One pass of the loop body, with what it means for the whole loop. */
  method Advance(s: SshSession, table: AutoResponseTable, h: Heard, polls: seq<Poll>, i: nat, a: Ask,
                 ghost st0: SendState, ghost target: Listened, ghost e0: seq<AutoReply>)
    returns (h': Heard, e: Option<End>)
    requires table.Valid() && a.rules.reply == AutoReplyText && table.entries == RespondedAll(e0, h.asked)
    requires a.start == s.startTime && a.timeout == s.sessionTimeout
    requires Tracking(st0, Snapshot(s), h, polls, i, a, target)
    modifies s`sshError, s`raw, s`history, s`prompt, s`closedTime, s`transmitted, table
    ensures table.Valid() && table.entries == RespondedAll(e0, h'.asked)
    ensures e.None? ==> Tracking(st0, Snapshot(s), h', polls, i + 1, a, target)
    ensures e.Some? ==> target == Listened(h', e.value, PollAt(polls, i, Deadline(a)).now)
    ensures e.Some? ==> Snapshot(s) == Posted(st0, target)
  {
    var p := PollAt(polls, i, Deadline(a));
    h', e := ListenOnce(s, table, h, p, a, st0, e0);
    ListeningStep(h, polls, i, a);
  }

  /** The read loop. */
  method Listen(s: SshSession, table: AutoResponseTable, polls: seq<Poll>, a: Ask) returns (l: Listened)
    requires table.Valid() && a.rules.reply == AutoReplyText
    requires a.start == s.startTime && a.timeout == s.sessionTimeout && s.sshError.None?
    modifies s`sshError, s`raw, s`history, s`prompt, s`closedTime, s`transmitted, table
    ensures table.Valid() && table.entries == RespondedAll(old(table.entries), l.heard.asked)
    ensures l == Listening(Start(), polls, 0, a)
    ensures Snapshot(s) == Posted(old(Snapshot(s)), l)
  {
    var h := Start();
    ghost var st0 := Snapshot(s);
    ghost var e0 := table.entries;
    ghost var target := Listening(h, polls, 0, a);
    assert st0.raw + "" == st0.raw && st0.transmitted + [] == st0.transmitted;
    var i := 0;
    while true
      invariant table.Valid() && Tracking(st0, Snapshot(s), h, polls, i, a, target)
      invariant table.entries == RespondedAll(e0, h.asked)
      decreases |polls| - i
    {
      var e;
      h, e := Advance(s, table, h, polls, i, a, st0, target, e0);
      if e.Some? {
        return Listened(h, e.value, PollAt(polls, i, Deadline(a)).now);
      }
      i := i + 1;
    }
  }

  /** The normalisation of `output['output']`, rewriting the list in place
      and popping the echoed command. */
  method NormaliseOutput(t: string, command: string) returns (r: string)
    ensures r == Normalised(t, command)
  {
    var tmp := Split(t, "\r\n");
    ghost var parts := tmp;
    for index := 0 to |tmp|
      invariant |tmp| == |parts|
      invariant forall k :: 0 <= k < index ==> tmp[k] == RemoveChar(parts[k], '\r')
      invariant forall k :: index <= k < |tmp| ==> tmp[k] == parts[k]
    {
      tmp := tmp[index := RemoveChar(tmp[index], '\r')];
    }
    assert tmp == Relined(t);
    if tmp[0] == command {
      tmp := tmp[1..];
    }
    r := Join(tmp, "\n");
  }

  /** Everything after the command has been written: the loop, the history,
      the raw output and the normalised output. */
  method Converse(s: SshSession, table: AutoResponseTable, polls: seq<Poll>, a: Ask) returns (r: Result<Reply>)
    requires table.Valid() && a.rules.reply == AutoReplyText
    requires a.start == s.startTime && a.timeout == s.sessionTimeout && s.sshError.None?
    modifies s`sshError, s`raw, s`history, s`prompt, s`closedTime, s`transmitted, table
    ensures table.Valid()
    ensures var d := Dispatched(old(Snapshot(s)), polls, a);
      Snapshot(s) == d.st && r == d.result && table.entries == RespondedAll(old(table.entries), d.asked)
  {
    var l := Listen(s, table, polls, a);
    if l.end == NoStart {
      return Raised("TypeError");
    }
    s.history := s.history + l.heard.out;
    var rawOutput := RawOutput(l.heard.cmdRaw, a.command);
    if l.heard.text.None? {
      return Raised("KeyError");
    }
    var output := NormaliseOutput(l.heard.text.value, a.command);
    r := Ok(Answer(a.command, l.heard.cand, output, rawOutput, s.sshError.None?));
  }

  /** `send_command(command)` */
  method SendCommand(s: SshSession, table: AutoResponseTable, command: Value, polls: seq<Poll>)
    returns (r: Result<Reply>)
    requires table.Valid()
    modifies s`sshError, s`raw, s`history, s`prompt, s`closedTime, s`transmitted, table
    ensures table.Valid()
    ensures var out := Sending(old(Snapshot(s)), s.sessionObject, command, polls,
                               s.startTime, s.sessionTimeout, Standard());
      Snapshot(s) == out.st && r == out.result && table.entries == RespondedAll(old(table.entries), out.asked)
  {
    if !command.Str? {
      s.sshError := Some(NotAString);
      return Raised("KeyError");
    }
    if s.username.None? {
      // The log prefix reads `username`, which only `connect` sets.
      return Raised("AttributeError");
    }
    if s.sshError.Some? {
      return Ok(Declined(command.s, Strip(s.sshError.value)));
    }
    if !s.sessionObject.Shell? {
      // Neither None nor the transport client has a `send`.
      return Raised("AttributeError");
    }
    s.transmitted := s.transmitted + [command.s + "\n"];
    r := Converse(s, table, polls, Ask(command.s, s.startTime, s.sessionTimeout, Standard()));
  }

  // ---------------------------------------------------------------------
  // What the loop keeps
  // ---------------------------------------------------------------------

  /** A call on a usable session writes the command, with a line break,
      before anything else; every byte received is added to the session's;
      and the prompt returned is empty (answered by the auto-responder) or
      the last line of the sanitised output, which the history gains. */
  lemma {:induction false} SendingWritesCommandFirst(st: SendState, channel: Channel, command: string, polls: seq<Poll>,
                                  start: Option<int>, timeout: int, rules: Rules)
    requires st.username.Some? && st.sshError.None? && channel.Shell?
    ensures var r := Sending(st, channel, Str(command), polls, start, timeout, rules);
      var t := st.transmitted + [command + "\n"];
      |t| <= |r.st.transmitted| && r.st.transmitted[..|t|] == t
      && StartsWith(r.st.raw, st.raw)
    ensures var r := Sending(st, channel, Str(command), polls, start, timeout, rules);
      r.result.Ok? ==>
        r.result.value.Answer? && |st.history| <= |r.st.history|
        && (r.result.value.prompt == "" || r.result.value.prompt == LastLine(r.st.history[|st.history|..]))
  {
    var st1 := st.(transmitted := st.transmitted + [command + "\n"]);
    var a := Ask(command, start, timeout, rules);
    var l := Listening(Start(), polls, 0, a);
    SendingDispatches(st, channel, command, polls, start, timeout, rules);
    ConcludedExtends(st1, l, a);
    var h: Heard := l.heard;
    assert h.cand == "" || h.cand == LastLine(h.out);
    assert (st.history + h.out)[|st.history|..] == h.out;
  }

  /** What the end of a call leaves: the session's bytes and what was
      written are those before the loop followed by the loop's, and an
      answer returns the candidate and adds the output to the history. */
  lemma {:induction false} ConcludedExtends(st: SendState, l: Listened, a: Ask)
    ensures var r := Concluded(st, l, a);
      r.st.raw == st.raw + l.heard.cmdRaw && r.st.transmitted == st.transmitted + l.heard.replies
      && (r.result.Ok? ==> r.result.value.Answer? && r.result.value.prompt == l.heard.cand
                           && r.st.history == st.history + l.heard.out)
  {
  }

  // ---------------------------------------------------------------------
  // How a call ends
  // ---------------------------------------------------------------------

  /** A session that already failed answers with its error, stripped, and
      writes nothing. */
  lemma {:induction false} DeclinedAfterError(st: SendState, channel: Channel, command: string, polls: seq<Poll>,
                           start: Option<int>, timeout: int, rules: Rules)
    requires st.username.Some? && st.sshError.Some?
    ensures Sending(st, channel, Str(command), polls, start, timeout, rules)
         == Sent(st, Ok(Declined(command, Strip(st.sshError.value))), [])
  {
    var c := Str(command);
    assert c.Str? && c.s == command && st.username.Some? && st.sshError.Some?;
    assert Sending(st, channel, c, polls, start, timeout, rules)
        == Sent(st, Ok(Declined(c.s, Strip(st.sshError.value))), []);
  }

  /** A command that is not a string records the error and then fails on
      the missing output. */
  lemma {:induction false} NotAStringRaises(st: SendState, channel: Channel, command: Value, polls: seq<Poll>,
                         start: Option<int>, timeout: int, rules: Rules)
    requires !command.Str?
    ensures var r := Sending(st, channel, command, polls, start, timeout, rules);
      r.result == Raised("KeyError") && r.st.sshError == Some(NotAString)
      && r.st.transmitted == st.transmitted
  {
  }

  /** The locals after a first poll that delivers `chunks` on a fresh loop. */
  lemma {:induction false} FirstPoll(chunks: seq<string>)
    ensures var h := Received(Start(), chunks);
      h.out == Cleaned(chunks) && h.cmdRaw == Joined(chunks) && h.replies == []
      && h.found.None? && h.error.None? && h.text.None?
      && h.cand == if chunks == [] then "" else LastLine(Cleaned(chunks))
  {
    var h := Received(Start(), chunks);
    assert h.out == "" + Cleaned(chunks) == Cleaned(chunks);
    assert h.cmdRaw == "" + Joined(chunks) == Joined(chunks);
  }

  /** A pass whose candidate is identified keeps the identification and
      the errors its 'known_errors' find in the output. */
  lemma {:induction false} ExaminedIdentified(h: Heard, a: Ask, v: Value)
    requires h.cand != "" && a.rules.id(h.cand) == Some(v)
    ensures var t := Trimmed(Replace(h.out, h.cand, ""));
      var h' := Examined(h, a);
      h'.found == Some(v) && h'.error == KnownErrorIn(v, t, a.rules.search) && h'.text == Some(t)
  {
  }

  /** A loop whose first poll ends it. */
  lemma {:induction false} OnePollEnds(h: Heard, p: Poll, a: Ask)
    requires Ending(Took(h, p, a), p, a).Some?
    ensures Listening(h, [p], 0, a) == Listened(Took(h, p, a), Ending(Took(h, p, a), p, a).value, p.now)
  {
    assert PollAt([p], 0, Deadline(a)) == p;
    ListeningUnfolds(h, [p], 0, a);
    CheckedStops(Took(h, p, a), p, [p], 0, a);
  }

  /** A first poll whose last line is identified. */
  lemma {:induction false} TookIdentified(p: Poll, a: Ask, v: Value)
    requires p.chunks != [] && LastLine(Cleaned(p.chunks)) != "" && a.rules.id(LastLine(Cleaned(p.chunks))) == Some(v)
    ensures var h := Took(Start(), p, a);
      var out := Cleaned(p.chunks);
      var t := Trimmed(Replace(out, LastLine(out), ""));
      h.found == Some(v) && h.error == KnownErrorIn(v, t, a.rules.search) && h.text == Some(t)
  {
    FirstPoll(p.chunks);
    ExaminedIdentified(Received(Start(), p.chunks), a, v);
  }

  /** A single poll that delivers `chunks` whose last line is identified,
      with the channel open and the clock at `now`. */
  lemma {:induction false} IdentifiedPoll(command: string, chunks: seq<string>, now: int, start: int,
                       timeout: int, rules: Rules, v: Value)
    requires chunks != [] && LastLine(Cleaned(chunks)) != "" && rules.id(LastLine(Cleaned(chunks))) == Some(v)
    ensures var a := Ask(command, Some(start), timeout, rules);
      var p := Poll(chunks, false, now);
      var h := Took(Start(), p, a);
      var out := Cleaned(chunks);
      var t := Trimmed(Replace(out, LastLine(out), ""));
      h.found == Some(v) && h.error == KnownErrorIn(v, t, rules.search) && h.text == Some(t)
      && Listening(Start(), [p], 0, a)
         == Listened(h, if now - start > timeout then TimedOut else Done, now)
  {
    var a := Ask(command, Some(start), timeout, rules);
    var p := Poll(chunks, false, now);
    TookIdentified(p, a, v);
    OnePollEnds(Start(), p, a);
  }

  /** A call on a usable session writes the command and runs the loop. */
  lemma {:induction false} SendingDispatches(st: SendState, channel: Channel, command: string, polls: seq<Poll>,
                          start: Option<int>, timeout: int, rules: Rules)
    requires st.username.Some? && st.sshError.None? && channel.Shell?
    ensures var st1 := st.(transmitted := st.transmitted + [command + "\n"]);
      var a := Ask(command, start, timeout, rules);
      Sending(st, channel, Str(command), polls, start, timeout, rules)
      == Concluded(st1, Listening(Start(), polls, 0, a), a)
  {
  }

  /** A loop that ended with output set and without the start-time error
      answers with its output; the session's error decides the 'error'
      key. */
  lemma {:induction false} ConcludedAnswers(st: SendState, l: Listened, a: Ask)
    requires l.end != NoStart && l.heard.text.Some?
    ensures var r := Concluded(st, l, a);
      r.st.sshError == FinalError(l.heard.error, l.end)
      && r.st.prompt == (if l.heard.found.Some? then PromptInfo(l.heard.found.value) else st.prompt)
      && r.result.Ok? && r.result.value.Answer? && r.result.value.prompt == l.heard.cand
      && r.result.value.errorCleared == FinalError(l.heard.error, l.end).None?
  {
  }

  /** A prompt identified together with one of its known errors still
      completes the command: the error is recorded, the prompt is kept and
      the output is returned without the 'error' key. */
  lemma {:induction false} KnownErrorStillCompletes(st: SendState, command: string, chunks: seq<string>, now: int,
                                 start: int, timeout: int, rules: Rules,
                                 v: Value, e: string)
    requires st.username.Some? && st.sshError.None? && now - start <= timeout && chunks != []
    requires LastLine(Cleaned(chunks)) != "" && rules.id(LastLine(Cleaned(chunks))) == Some(v)
    requires KnownErrorIn(v, Trimmed(Replace(Cleaned(chunks), LastLine(Cleaned(chunks)), "")), rules.search) == Some(e)
    ensures var r := Sending(st, Shell(false), Str(command), [Poll(chunks, false, now)], Some(start),
                             timeout, rules);
      r.st.sshError == Some(e) && r.st.prompt == PromptInfo(v)
      && r.result.Ok? && r.result.value.Answer? && !r.result.value.errorCleared
  {
    var st1 := st.(transmitted := st.transmitted + [command + "\n"]);
    var a := Ask(command, Some(start), timeout, rules);
    var polls := [Poll(chunks, false, now)];
    IdentifiedPoll(command, chunks, now, start, timeout, rules, v);
    var l := Listening(Start(), polls, 0, a);
    assert l == Listened(Took(Start(), polls[0], a), Done, now);
    SendingDispatches(st, Shell(false), command, polls, Some(start), timeout, rules);
    ConcludedAnswers(st1, l, a);
    assert FinalError(l.heard.error, l.end) == Some(e);
  }

  /** The time-out is measured from the start of the session, not from the
      send: past it a command fails even when its prompt was identified. */
  lemma {:induction false} TimedOutDespitePrompt(st: SendState, command: string, chunks: seq<string>, now: int,
                              start: int, timeout: int, rules: Rules, v: Value)
    requires st.username.Some? && st.sshError.None? && now - start > timeout && chunks != []
    requires LastLine(Cleaned(chunks)) != "" && rules.id(LastLine(Cleaned(chunks))) == Some(v)
    ensures var r := Sending(st, Shell(false), Str(command), [Poll(chunks, false, now)], Some(start),
                             timeout, rules);
      r.st.sshError == Some(TimedOutText) && r.st.prompt == PromptInfo(v)
      && r.result.Ok? && r.result.value.Answer? && !r.result.value.errorCleared
  {
    var st1 := st.(transmitted := st.transmitted + [command + "\n"]);
    var a := Ask(command, Some(start), timeout, rules);
    var polls := [Poll(chunks, false, now)];
    IdentifiedPoll(command, chunks, now, start, timeout, rules, v);
    var l := Listening(Start(), polls, 0, a);
    assert l == Listened(Took(Start(), polls[0], a), TimedOut, now);
    SendingDispatches(st, Shell(false), command, polls, Some(start), timeout, rules);
    ConcludedAnswers(st1, l, a);
    assert FinalError(l.heard.error, l.end) == Some(TimedOutText);
  }

  /** A channel that closes after 'exit', 'quit' or 'logout' records the
      time and no error; with no output seen the call then fails on the
      missing output. */
  lemma {:induction false} QuitClosesQuietly(st: SendState, command: string, now: int, start: Option<int>, timeout: int,
                          rules: Rules)
    requires st.username.Some? && st.sshError.None? && Quits(command)
    ensures var r := Sending(st, Shell(false), Str(command), [Poll([], true, now)], start, timeout, rules);
      r.st.sshError.None? && r.st.closedTime == Some(now) && r.result == Raised("KeyError")
  {
    var st1 := st.(transmitted := st.transmitted + [command + "\n"]);
    var a := Ask(command, start, timeout, rules);
    FirstPoll([]);
    ListeningUnfolds(Start(), [Poll([], true, now)], 0, a);
  }

  /** A channel that closes after any other command is a lost connection. */
  lemma {:induction false} OtherCloseIsLost(st: SendState, command: string, now: int, start: Option<int>, timeout: int,
                         rules: Rules)
    requires st.username.Some? && st.sshError.None? && !Quits(command)
    ensures var r := Sending(st, Shell(false), Str(command), [Poll([], true, now)], start, timeout, rules);
      r.st.sshError == Some(LostText) && r.st.closedTime == Some(now) && r.result == Raised("KeyError")
  {
    var st1 := st.(transmitted := st.transmitted + [command + "\n"]);
    var a := Ask(command, start, timeout, rules);
    FirstPoll([]);
    ListeningUnfolds(Start(), [Poll([], true, now)], 0, a);
  }

  /** A silent channel waits out the time-out; nothing was ever offered as
      output, so the call fails on the missing output after recording the
      time-out. */
  lemma {:induction false} SilentChannelTimesOut(st: SendState, command: string, start: int, timeout: int,
                              rules: Rules)
    requires st.username.Some? && st.sshError.None?
    ensures var r := Sending(st, Shell(false), Str(command), [], Some(start), timeout, rules);
      r.st.sshError == Some(TimedOutText) && r.result == Raised("KeyError")
      && r.st.transmitted == st.transmitted + [command + "\n"] && r.st.history == st.history
  {
    var st1 := st.(transmitted := st.transmitted + [command + "\n"]);
    var a := Ask(command, Some(start), timeout, rules);
    FirstPoll([]);
    ListeningUnfolds(Start(), [], 0, a);
  }

  /** Without a start time the time-out check raises. */
  lemma {:induction false} NoStartRaises(st: SendState, command: string, timeout: int, rules: Rules)
    requires st.username.Some? && st.sshError.None?
    ensures var r := Sending(st, Shell(false), Str(command), [], None, timeout, rules);
      r.result == Raised("TypeError") && r.st.sshError.None?
  {
    var st1 := st.(transmitted := st.transmitted + [command + "\n"]);
    var a := Ask(command, None, timeout, rules);
    FirstPoll([]);
    ListeningUnfolds(Start(), [], 0, a);
  }

  /** A candidate the auto-responder answers is written back and cleared,
      and the loop goes on unless the same line was also identified. */
  lemma {:induction false} AnsweredCandidateCleared(h: Heard, a: Ask, r: string)
    requires h.cand != "" && h.found.None? && a.rules.id(h.cand).None? && a.rules.reply(h.cand) == Some(r)
    ensures var h' := Examined(h, a);
      h'.cand == "" && h'.replies == h.replies + [r] && h'.found.None? && h'.error.None? == h.error.None?
      && h'.text == Some(Trimmed(Replace(h.out, h.cand, "")))
  {
  }

  // ---------------------------------------------------------------------
  // The returned output
  // ---------------------------------------------------------------------

  /** The first occurrence, found by position. */
  lemma {:induction false} FindFirst(s: string, t: string, n: nat)
    requires OccursAt(s, t, n) && forall j :: 0 <= j < n ==> !OccursAt(s, t, j)
    ensures Find(s, t, 0) == Some(n)
  {
    var r := Find(s, t, 0);
    assert r.Some?;
  }

  lemma {:induction false} JoinLacks(parts: seq<string>, sep: string, c: char)
    requires c !in sep && forall i :: 0 <= i < |parts| ==> c !in parts[i]
    ensures c !in Join(parts, sep)
    decreases |parts|
  {
    if |parts| > 1 {
      JoinLacks(parts[1..], sep, c);
    }
  }

  /** The returned output holds no carriage return. */
  lemma {:induction false} NormalisedHasNoReturn(t: string, command: string)
    ensures '\r' !in Normalised(t, command)
  {
    var tmp := Relined(t);
    forall i | 0 <= i < |tmp| ensures '\r' !in tmp[i] {
      var w := tmp[i];
      assert forall j :: 0 <= j < |w| ==> w[j] != '\r';
    }
    JoinLacks(tmp, "\n", '\r');
    JoinLacks(tmp[1..], "\n", '\r');
  }

  /** Output without carriage returns that is not the command itself comes
      back as it is. */
  lemma {:induction false} PlainOutputKept(t: string, command: string)
    requires '\r' !in t && t != command
    ensures Normalised(t, command) == t
  {
    MissingFirstChar(t, "\r\n");
    RemoveCharAbsent(t, '\r');
  }

  /** The echoed command, on a first line of its own, is dropped. */
  lemma {:induction false} EchoDropped(command: string, body: string)
    requires '\r' !in command
    ensures Normalised(command + "\r\n" + body, command) == Join(Relined(body), "\n")
  {
    var x := command + "\r\n" + body;
    var n := |command|;
    assert x[n..n + 2] == "\r\n";
    forall j | 0 <= j < n ensures !OccursAt(x, "\r\n", j) {
      assert x[j] == command[j];
    }
    FindFirst(x, "\r\n", n);
    assert x[..n] == command && x[n + 2..] == body;
    assert Split(x, "\r\n") == [command] + Split(body, "\r\n");
    RemoveCharAbsent(command, '\r');
    assert Relined(x) == [command] + Relined(body);
    assert Relined(x)[1..] == Relined(body);
  }

  /** A lazy `.*?$` runs to the end of a text with no line break in it. */
  lemma {:induction false} LazyEndFree(x: string, k: nat)
    requires k <= |x| && NoNewline(x[k..])
    ensures LazyEnd(x, k) == Some(|x|)
    decreases |x| - k
  {
    if k < |x| {
      assert x[k] == x[k..][0];
      assert x[k + 1..] == x[k..][1..];
      LazyEndFree(x, k + 1);
    }
  }

  /** ... and fails at a line break that is not the last character. */
  lemma {:induction false} LazyEndBlocked(x: string, k: nat, n: nat)
    requires k <= n < |x| - 1 && x[n] == '\n'
    ensures LazyEnd(x, k).None?
    decreases n - k
  {
    if k < n && x[k] != '\n' {
      LazyEndBlocked(x, k + 1, n);
    }
  }

  lemma {:induction false} FirstCutLast(b: string, q: string, i: nat)
    requires q != "" && NoNewline(q) && i <= |b|
    ensures var x := b + "\r\n" + q; FirstCut(x, i) == Some((|b|, |x|))
    decreases |b| - i
  {
    var x := b + "\r\n" + q;
    assert x[|b|] == '\r' && x[|b| + 1] == '\n';
    if i == |b| {
      assert x[i + 2..] == q;
      LazyEndFree(x, i + 2);
    } else {
      if x[i] == '\r' && x[i + 1] == '\n' {
        LazyEndBlocked(x, i + 2, |b| + 1);
      }
      FirstCutLast(b, q, i + 1);
    }
  }

  /** The substitution takes off the last line, a non-empty prompt, and the
      line break before it. */
  lemma {:induction false} CutPromptDropsLastLine(b: string, q: string)
    requires q != "" && NoNewline(q)
    ensures CutPrompt(b + "\r\n" + q) == b
  {
    var x := b + "\r\n" + q;
    FirstCutLast(b, q, 0);
    assert x[..|b|] == b;
  }

  /** Replacing a leading occurrence that does not occur again. */
  lemma {:induction false} ReplaceLeading(pat: string, rest: string)
    requires |pat| > 0 && !Contains(rest, pat)
    ensures Replace(pat + rest, pat, "") == rest
  {
    var x := pat + rest;
    assert x[0..|pat|] == pat;
    assert Find(x, pat, 0) == Some(0);
    assert x[..0] == "" && x[|pat|..] == rest;
    assert Split(x, pat) == ["", rest];
    assert ["", rest][1..] == [rest];
    assert Join(["", rest], "") == "" + "" + Join([rest], "");
  }

  /** The raw output of a command whose echo is followed by its output and
      a prompt is that output. */
  lemma {:induction false} RawOutputIsBody(command: string, body: string, prompt: string)
    requires prompt != "" && NoNewline(prompt)
    requires !Contains(body + "\r\n" + prompt, command + "\r\n")
    ensures RawOutput(command + "\r\n" + body + "\r\n" + prompt, command) == body
  {
    var rest := body + "\r\n" + prompt;
    assert command + "\r\n" + body + "\r\n" + prompt == (command + "\r\n") + rest;
    ReplaceLeading(command + "\r\n", rest);
    CutPromptDropsLastLine(body, prompt);
  }
}
