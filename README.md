# starlight session engine and converters in Dafny

This project models the core of starlight, a Python toolkit that logs in to
network devices and servers over SSH, runs commands on them, recognises what
kind of device answered, and turns what it reads into structured records.
The model states in Dafny what that code does and proves it.

What is modelled, module by module:

- `SessionPool`, `Session`, `Disconnect`: the jump-host slot pool
  (`SessionManager`) in both of its releases. It is a class holding an array
  of slots and a counter.
  - The current release scans every slot.
  - The legacy release never hands out the last slot, so a pool of one
    slot allocates nothing.
  - Also modelled: the `SSHSession` constructors, the class-wide session-id
    counter, and `disconnect` freeing the slot a session held on its jump
    host.
- `Transport`: the SSH channel as a script. Each poll of an interactive
  shell delivers some bytes, a closed flag and a clock reading.
- `Connect`: `connect`'s loop over authentication profiles and retries.
  - It normalises and classifies the transport's error texts.
  - It polls the shell until the last line of the sanitised output is
    identified as a prompt.
  - It is proved against recursive functions that state the whole run.
- `Send`: `send_command`'s read loop.
  - It drains the channel and picks the last line as the candidate prompt.
  - The candidate goes through prompt identification, the first-match scan
    for known errors, and the pager auto-responses.
  - It handles a close after exit-style commands and the time-out measured
    from the session's start.
  - It normalises the output window it returns.
- `Identify`: the ordered first-match rule tables for prompts, for SSH
  identification strings (section 4.2 of RFC 4253) and for pager prompts.
  Every regular expression is written out as an exact predicate.
- `Sanitiser`: `strip_ansi`, which removes the control sequences of
  section 5.4 of ECMA-48 and one further escape form.
- `AnalysisHelper`: the older if/elif prompt classifier, `check_banner`,
  `analyze`, and the OS-type-to-vendor table.
- `AnalysisUtil`: `uptime_to_seconds`, `seconds_to_summary_string`,
  `list_to_string` and `date_time_delta`.
- `Render`, `RenderGrid`, `RowNumbers`: `render_output`'s CSV, HTML and grid
  output and its numbered column.
- `Netbox`, `NetboxDevices`: the post-filter predicate and the two
  flatteners of Netbox records into dotted keys.
- `ApiCore`: the pruning of authentication-profile groups in
  `parse_configuration`.
- `Analyzer` and one module per analyzer: the line-oriented analyzers of
  `/proc/meminfo`, `ps -ef`, `/etc/*-release`, `/etc/os-release`,
  `/proc/cpuinfo`, Palo Alto `show system info` and Cisco
  `show snmp mib ifmib ifindex`.
- `Py`, `Text`, `Regex`, `Wrappers`: Python values (dictionaries keep their
  insertion order), the `str` operations the program uses, `re.search` over
  regular-expression terms, and `Result`/`Option`.

Where the code does state-changing work (the slot pool, the login and read
loops, the rendering loops, the analyzers' line loops, the in-place pruning),
it is modelled by classes and methods with loops. Each method is proved
equal to a recursive specification function, and the properties are proved
as lemmas about that function.

Behaviour the code has as written, which the model keeps and states:

- The legacy pool never allocates its last slot (`SessionPool.LegacySkipsLastSlot`).
- A failed `connect` returns False with `ssh_error` cleared, because the error
  is reset after every profile (`Connect.FalseLeavesNoError`).
- A prompt time-out after the transport connected leaves the status
  'connected' (`Connect.TimedOutStaysConnected`).
- `send_command` measures its time-out from the session's start, not from the
  send (`Send.TimedOutDespitePrompt`).
- `strip_ansi` is not idempotent: removing one sequence can join its
  neighbours into a new one (`Sanitiser.StripAnsiNotIdempotent`).
- Pruning removes names from a list while iterating over it, so the name
  after each removed one is skipped (`ApiCore.SecondInvalidSurvives`).
- A list of profile groups is indexed by its own elements: the loop reads
  `groups[element]`, so `[5]` raises IndexError, `[1, "x"]` records a warning
  and raises AttributeError, and `[1, ["bad"]]` empties the inner list in place
  before raising TypeError (`ApiCore.IndexPastEnd`, `ApiCore.IndexedString`,
  `ApiCore.PrunedThenIndexed`).
- The grid output looks an item's cells up by the item's position among the
  stored entries. When an earlier item stored nothing, the grid raises
  KeyError (`RenderGrid.MisplacedEntryRaises`).
- The CSV output does not double quotes inside quoted cells, unlike section 2
  of RFC 4180 (`Render.QuoteNotDoubled`).
- Flattening a sixth level of nesting calls `pformat`, which neither Netbox
  module imports, so it raises NameError (`NetboxDevices.SixthLevelRaises`).
- `uptime_to_seconds` counts a year as 31536000 seconds, while
  `seconds_to_summary_string` counts it as 31557600.

## Model

| member | source | states |
|---|---|---|
| SessionPool.ScanLimit | ssh/bin/session.py:133 | the allocation loop visits `max_sessions` slots in the current release and `max_sessions - 1` in the legacy one, never more than the capacity |
| SessionPool.Fresh | src/starlight/ssh/bin/session.py:137-147 | a new pool has one idle slot per capacity, each with id and activity None, and a zero counter |
| SessionPool.FirstIdleFrom | src/starlight/ssh/bin/session.py:153-159 | the answer is 0 exactly when no scanned slot is idle, and otherwise the first idle slot |
| SessionPool.FirstWithIdFrom | src/starlight/ssh/bin/session.py:162-166 | the answer is 0 exactly when no slot holds the id, and otherwise the first slot that does |
| SessionPool.AllocateLowest | src/starlight/ssh/bin/session.py:149-160 | allocation answers the lowest idle slot the scan reaches, stamps it with the id and time and counts it; it answers 0 and changes nothing when the guard fails or no scanned slot is idle |
| SessionPool.FreeFirstOccupant | src/starlight/ssh/bin/session.py:169-177 | freeing resets the first slot held by the id and uncounts it; it answers 0 and changes nothing exactly when no slot holds the id |
| SessionPool.FreshConsistent | src/starlight/ssh/bin/session.py:137-147 | a new pool's counter equals its number of allocated slots |
| SessionPool.AllocatePreservesConsistent | src/starlight/ssh/bin/session.py:152-160 | allocating to an id no slot holds keeps the counter equal to the number of allocated slots |
| SessionPool.FreePreservesConsistent | src/starlight/ssh/bin/session.py:169-177 | freeing a present id keeps the counter equal to the number of allocated slots |
| SessionPool.ConsistentBounded | src/starlight/ssh/bin/session.py:152-158 | in a consistent pool the counter stays between 0 and the capacity |
| SessionPool.AllocateFreeRoundTrip | src/starlight/ssh/bin/session.py:154-176 | allocating to a fresh id and then freeing that id gives back the same slot and restores the table and counter exactly |
| SessionPool.LegacySkipsLastSlot | ssh/bin/session.py:132-141 | the legacy release never answers its last slot |
| SessionPool.LegacySingleSlotNeverAllocates | ssh/bin/session.py:132-141 | a legacy pool of one slot answers 0 and changes nothing |
| SessionPool.FirstChildGetsSlotOne | test/ssh_via_jump_host.py:17-28 | the first session through a fresh jump host gets slot 1 |
| SessionPool.FreeNoneOnFreshPool | src/starlight/ssh/bin/session.py:149-175 | `free_session(None)` on a fresh pool matches idle slot 1 and drives the counter to -1 while no slot is allocated |
| SessionPool.SessionManager.constructor | src/starlight/ssh/bin/session.py:119-147 | the new object's table is the fresh pool and its queue is empty |
| SessionPool.SessionManager.GetNextAvailableSession | src/starlight/ssh/bin/session.py:149-160 | the loop's answer and the new table and counter are those of the allocation function, so AllocateLowest describes them |
| SessionPool.SessionManager.FindSession | src/starlight/ssh/bin/session.py:162-166 | answers the first slot holding the id, or 0 exactly when none does |
| SessionPool.SessionManager.FreeSession | src/starlight/ssh/bin/session.py:169-177 | the answer and new state are those of the free function, so FreeFirstOccupant describes them |
| Session.IdCounter.Next | ssh/bin/session.py:18-19 | each call issues the counter's current value and advances it by one, so ids strictly increase and the first is 1 |
| Session.CommandList | src/starlight/ssh/bin/session.py:67-74 | None becomes [], a string a one-element list, a list itself; every other value raises TypeError, and only those |
| Session.Profiles | src/starlight/ssh/bin/session.py:41-44 | a single profile (dict) is wrapped in a one-element list; any other value is kept unchanged |
| Session.SshSession.constructor | ssh/bin/session.py:36-61 | every field both constructors set the same way takes the given value or its initial one (`Initial`: keep-alive 120, no channel, status or times, empty raw, prompt and history, no username, nothing sent), no error, and the task id, command list and pool the caller passes |
| Session.NewSession | src/starlight/ssh/bin/session.py:40-80 | the id is drawn first (so a rejected command list still uses one up); the result is an error exactly when the command list is rejected; a new session holds every argument and initial value of `Initial` under the drawn id, the stored command list, the given task id and no error; a jump host gets a fresh pool exactly when the host it connects through has none |
| Session.NewLegacySession | ssh/bin/session.py:36-78 | a new session holds every argument and initial value of `Initial` under the drawn id, no task id, an empty command list and no pool of its own; of the jump host only its pool may change: it gets a default legacy pool of 10 when it has none, and the new session takes the slot the legacy allocation gives its id; with no slot it records the no-sessions message and returns early; with a slot it fails exactly when the jump host never logged in, since the log line reads its username |
| Session.PoolOf | ssh/bin/session.py:67-70 | the jump host's pool, a fresh default legacy pool of 10 when it had none and otherwise the one it had; no other field of the jump host changes |
| Disconnect.Disconnect | ssh/bin/disconnect.py:12-34 | the end time is always set and the channel closed; a result is True; through a jump host the pool afterwards is what freeing this session's id leaves, its queue untouched, and otherwise no pool changes; it raises exactly when there is no channel, no username, or a jump host without a username or pool |
| Transport.PollAt | ssh/bin/connect.py:175-235 | a poll inside the script is the scripted one; past its end the channel is open and silent and the clock is past the deadline, so every prompt loop ends |
| Transport.Gather | ssh/bin/connect.py:177-183 | one drain yields the received chunks back to back and the same chunks sanitised one at a time |
| Transport.CleanedIsNotStripped | ssh/bin/connect.py:180-183 | sanitising chunk by chunk differs from sanitising the whole: a control sequence split across two chunks survives |
| Connect.Drain | ssh/bin/connect.py:177-195 | every chunk is added to `raw` and, sanitised, to the output; the candidate becomes the last line of the output when anything arrived; no other session field changes |
| Connect.Inspect | ssh/bin/connect.py:177-205 | one poll as the prompt-loop function describes it: a non-empty last line is given to the identifier and an identification is stored as the session's prompt |
| Connect.PollOnce | ssh/bin/connect.py:175-235 | the exit checks come in source order: a closed channel records "Connection lost", a passed deadline records the sanitised full log as history, the unrecognised line as prompt and "Timed out. Unknown prompt.", and only then does an identified prompt end the loop |
| Connect.AwaitPrompt | ssh/bin/connect.py:170-235 | the loop's result and the session it leaves are those of the prompt-loop function on the shell's script |
| Connect.SilentShellTimesOut | ssh/bin/connect.py:175-232 | a shell that never sends anything makes the loop wait out the time-out without identifying anything |
| Connect.PolledIgnoresRaw | ssh/bin/connect.py:180-228 | what the prompt loop leaves does not depend on the bytes received before it started |
| Connect.WatchingKeepsRaw | ssh/bin/connect.py:180 | the prompt loop only appends to `raw` |
| Connect.WatchingFacts | ssh/bin/connect.py:195-232 | the prompt loop ends without a closed channel or a time-out only once a prompt is identified, and any identification is what the identifier makes of the last, non-empty line of the output |
| Connect.ReceivedFacts | ssh/bin/connect.py:195-205 | one poll identifies a prompt only from a non-empty last line |
| Connect.WatchedOutcome | ssh/bin/connect.py:239-246 | with no prompt an attempt is retried, and the profile is given up exactly on a time-out; a prompt found in the poll in which the time-out passed was overwritten by text, so reading its 'prompt' raises TypeError; otherwise the login succeeds exactly when the identification has a 'prompt' key |
| Connect.TimedOutStaysConnected | ssh/bin/connect.py:119-232 | an accepted login whose prompt loop times out leaves status 'connected' next to the error "Timed out. Unknown prompt." and gives up the profile |
| Connect.RecordFailure | ssh/bin/connect.py:248-275 | the error path sets status 'error', records the normalised text (the refused-channel text as 'Permission denied') and gives up the profile exactly when the stop pattern matches |
| Connect.FinishShell | ssh/bin/connect.py:170-246 | after the prompt loop an identified prompt makes the shell the channel, appends the output to the history and clears the error |
| Connect.Greet | ssh/bin/connect.py:111-153 | an accepted login sets status 'connected', the vendor the version string names, and appends the sanitised banner to the history |
| Connect.UseShell | ssh/bin/connect.py:155-168 | a shell that fails to open records "EOF Error", "Connection Reset" or the exception text as the attempt's error; an opened one is watched for a prompt |
| Connect.Begin | ssh/bin/connect.py:43-50 | an attempt records its start time, takes the profile's 'username' (or None) and gives the profile its `sudo_password` in place |
| Connect.WithSudo | ssh/bin/connect.py:48-50 | a profile with `sudo_command` and `password` but no `sudo_password` gets the password under that key and keeps every other entry; any other profile is unchanged |
| Connect.Exchange | ssh/bin/connect.py:56-109 | a refused login takes the error path; an accepted one is greeted and then opens the shell |
| Connect.TryOnce | ssh/bin/connect.py:36-283 | one pass of the retry loop as the attempt function describes it; a profile that is not a dictionary raises AttributeError |
| Connect.AttemptWithProfile | ssh/bin/connect.py:43-246 | an attempt with a dictionary profile is its start followed by the exchange with the deadline start plus `connection_timeout` |
| Connect.RetryOnce | ssh/bin/connect.py:36-283 | one retry consumes one scripted attempt and strictly raises `tries`, to `retries` when the profile is given up |
| Connect.TryProfile | ssh/bin/connect.py:36-283 | the retry loop for one profile ends in the state and verdict of the retry-loop function |
| Connect.TryProfiles | ssh/bin/connect.py:34-288 | the profile loop ends in the state and verdict of the profile-loop function, clearing the error after each profile that did not log in |
| Connect.ProfileItems | ssh/bin/connect.py:34 | iterating over a list yields its items; only lists, dictionaries and strings can be iterated |
| Connect.Answer | ssh/bin/connect.py:246-291 | `connect` answers True exactly when a login succeeded and False exactly when every profile was tried |
| Connect.Connect | ssh/bin/connect.py:19-291 | `connect` sets status 'connecting' and a new client, then leaves the state and answer of the whole run as the run function describes it |
| Connect.ConnectSucceeds | ssh/bin/connect.py:239-246 | True is answered only with the session connected, without error, with the identified prompt (which has a 'prompt' key) and the shell as its channel |
| Connect.FalseLeavesNoError | ssh/bin/connect.py:285-291 | when `connect` answers False after trying a profile, `ssh_error` is None, so the failure's reason is lost; with no profile nothing is tried |
| Connect.ConnectAttempts | ssh/bin/connect.py:34-283 | the number of attempts is at most the number of profiles times `retries` (none when `retries` is not positive), with no pause between them |
| Connect.VersionVendorCases | ssh/bin/connect.py:136-139 | the vendor becomes 'cisco' or 'ubuntu' when the version string names one, and is otherwise left as it was |
| Connect.NormaliseCases | ssh/bin/connect.py:254-260 | a text containing 'getaddrinfo failed' becomes "Unable to resolve '<host>'.", the two time-out texts become 'Connection timed out', and anything else loses one trailing full stop |
| Connect.AuthenticationFailureStops | ssh/bin/connect.py:265-270 | an error starting with "Authentication failed" gives up the profile |
| Connect.RefusedChannelRetries | ssh/bin/connect.py:265-275 | a refused channel is recorded as 'Permission denied' and the same profile is tried again, because the stop pattern's parentheses form a group and do not match the exception's text |
| Connect.RefusedChannelContinues | ssh/bin/connect.py:265-268 | the stop pattern does not match "ChannelException(2, 'Connect failed')" |
| Connect.PromptLookup | ssh/bin/connect.py:245 | logging the prompt succeeds only when the prompt is an identification dictionary; a prompt left as text raises |
| Connect.AttemptLoggedIn | ssh/bin/connect.py:239-246 | an attempt that logs in leaves the session connected, without error, with the identified prompt and the shell as its channel |
| Connect.RetryingSucceeds | ssh/bin/connect.py:36-283 | the retry loop for one profile succeeds only in a logged-in state |
| Connect.ProfilesSucceed | ssh/bin/connect.py:34-288 | the profile loop succeeds only in a logged-in state |
| Connect.ProfilesClearError | ssh/bin/connect.py:285-288 | when every remaining profile fails the error is cleared |
| Connect.RetryingAttempts | ssh/bin/connect.py:36-283 | the retry loop for one profile makes at most `retries` attempts |
| Connect.ProfilesAttempts | ssh/bin/connect.py:34-288 | the profile loop makes at most `retries` attempts per remaining profile |
| Send.ReplyFromTable | src/starlight/ssh/bin/identify.py:46-56 | scanning the auto-response patterns from a position on gives the reply of the first entry there that matches |
| Send.AutoReplyTextIsTable | src/starlight/ssh/bin/identify.py:46-171 | the reply written back for a line is that of the first entry of `SSH_AUTO_RESPONSE`, in table order, whose pattern matches it |
| Send.AutoRespond | ssh/bin/send.py:123-132 | asking the responder gives the table's first matching reply and records what that entry found, leaving the table well formed |
| Send.EndMarkerAnswered | src/starlight/ssh/bin/identify.py:167-170 | a pager's "(END)" line is answered with 'q' |
| Send.DisplayAllAnswered | src/starlight/ssh/bin/identify.py:155-158 | the "Display all N items? (y/n)" question is answered with 'y' |
| Send.FirstFlagged | ssh/bin/send.py:106-115 | the index found is the first from the start position whose known-error pattern matches the output, and none is found exactly when no pattern matches |
| Send.FirstErrorDecides | ssh/bin/send.py:106-115 | the first matching known-error pattern decides the error, whatever the patterns after it |
| Send.KnownErrors | ssh/bin/send.py:106-115 | the scan with its early `break` records the error the first matching pattern finds, capture group 1 stripped and capitalised |
| Send.Trimmed | ssh/bin/send.py:93-96 | one trailing line break is removed, and only when the text holds a line break at all |
| Send.Ending | ssh/bin/send.py:67-159 | the loop goes on only with the channel open, a start time set, the clock within the time-out and neither a prompt nor an error recorded |
| Send.ListeningStep | ssh/bin/send.py:67-159 | one pass of the read loop either ends with the exit checks' verdict or goes on with the next poll |
| Send.Drain | ssh/bin/send.py:69-88 | received chunks extend `self.raw` and `cmd_raw`, their sanitised text the output, and the last line of the output becomes the candidate |
| Send.Examine | ssh/bin/send.py:90-132 | a non-empty candidate sets `output['output']` to the output without it, is offered to the identifier and the known-error scan, and then to the auto-responder |
| Send.Recognise | ssh/bin/send.py:99-115 | an identified candidate is stored as the session's prompt, ends the loop and sets the error its known errors find |
| Send.ReplyIfKnown | ssh/bin/send.py:123-132 | a candidate the auto-responder knows is answered with its reply, written to the channel, and cleared |
| Send.ListenOnce | ssh/bin/send.py:67-159 | one pass of the loop followed by its exit checks, as the loop function describes them |
| Send.CheckExit | ssh/bin/send.py:134-159 | a close after 'exit', 'quit' or 'logout' records the closing time only; any other close records "Connection lost" and the time; a passed time-out records "Timed out. No prompt detected." |
| Send.Advance | ssh/bin/send.py:67-159 | each pass keeps the loop invariant, and a pass that ends the loop leaves the session as the whole loop does |
| Send.Listen | ssh/bin/send.py:61-159 | the read loop ends in the locals and the session state of the loop function on the poll script |
| Send.NormaliseOutput | ssh/bin/send.py:184-189 | the in-place rewrite of the split output, with the echoed command popped, gives the normalised output |
| Send.Converse | ssh/bin/send.py:61-191 | after the command is written, the loop, the history, the raw output and the normalised output are those the call function describes |
| Send.SendCommand | ssh/bin/send.py:17-191 | `send_command` leaves the session and the result of the call function: a non-string command records the error and fails, a failed session declines, and otherwise the command is written and the loop runs |
| Send.SendingWritesCommandFirst | ssh/bin/send.py:59-170 | on a usable session the command with a line break is written before anything else, received bytes only extend the session's, and an answer's prompt is empty or the last line of what the history gained |
| Send.ConcludedExtends | ssh/bin/send.py:170-191 | what a call leaves extends the bytes and writes from before the loop, and an answer returns the candidate and adds the output to the history |
| Send.DeclinedAfterError | ssh/bin/send.py:52-54 | a session that already has an error answers with that error, stripped, and writes nothing |
| Send.NotAStringRaises | ssh/bin/send.py:176-184 | a command that is not a string records the type error, writes nothing, and the call then fails on the missing 'output' key |
| Send.KnownErrorStillCompletes | ssh/bin/send.py:99-117 | a prompt identified with one of its known errors still completes the command: the error and the prompt are recorded and the output is returned without the 'error' key |
| Send.TimedOutDespitePrompt | ssh/bin/send.py:156-159 | the time-out runs from the session's start, not from the send, so past it a command fails even though its prompt was identified |
| Send.QuitClosesQuietly | ssh/bin/send.py:135-144 | a channel that closes after 'exit', 'quit' or 'logout' records the closing time and no error |
| Send.OtherCloseIsLost | ssh/bin/send.py:145-153 | a channel that closes after any other command records "Connection lost" and the closing time |
| Send.SilentChannelTimesOut | ssh/bin/send.py:155-184 | a silent channel waits out the time-out, leaves the history as it was, and the call fails on the missing output |
| Send.NoStartRaises | ssh/bin/send.py:156 | without a session start time the time-out check raises TypeError |
| Send.AnsweredCandidateCleared | ssh/bin/send.py:122-132 | an unidentified candidate the auto-responder knows is answered once and cleared, and the loop goes on |
| Send.NormalisedHasNoReturn | ssh/bin/send.py:184-189 | the returned output holds no carriage return |
| Send.PlainOutputKept | ssh/bin/send.py:184-189 | output without carriage returns that is not the command itself comes back unchanged |
| Send.EchoDropped | ssh/bin/send.py:187-188 | the echoed command on a first line of its own is dropped from the returned output |
| Send.LazyEnd | ssh/bin/send.py:173-174 | a lazy `.*?$` stops at the end of the text or before a final line break and never crosses a line break |
| Send.CutPromptDropsLastLine | ssh/bin/send.py:173-174 | the substitution removes the last line (a non-empty prompt) and the line break before it |
| Send.RawOutputIsBody | ssh/bin/send.py:173-174 | the raw output of an echoed command followed by its output and a prompt is exactly that output |
| Send.ConcludedAnswers | ssh/bin/send.py:170-191 | a loop that ended with output and a start time answers with the candidate prompt; the session keeps the identified prompt, or its old one, and its error is the one the loop found or the time-out error |
| Identify.ArubaGroups | src/starlight/ssh/bin/identify.py:76-82 | a line the Aruba rule matches is "(" hostname ")" followed by whitespace and "*#", and the groups are the line and that hostname |
| Identify.LinuxGroups | src/starlight/ssh/bin/identify.py:85-96 | a match of the Linux rule yields four groups, the first being the whole line |
| Identify.LinuxGroupsRebuild | src/starlight/ssh/bin/identify.py:86-87 | a line the Linux rule accepts is username '@' hostname ':' path '$' followed by whitespace, with non-empty username and hostname |
| Identify.DarwinGroups | src/starlight/ssh/bin/identify.py:110-120 | a line the macOS rule accepts ends in whitespace; its prompt group is the line less that character, split at the first '@' and the first ':' after it into username, hostname and path |
| Identify.F5Groups | src/starlight/ssh/bin/identify.py:123-129 | a line the F5 rule accepts starts with username "@(" hostname ")" and the groups are the line, that username and hostname |
| Identify.CiscoAristaGroups | src/starlight/ssh/bin/identify.py:132-138 | the Cisco/Arista rule matches exactly the lines ending in '#' or '>'; the hostname is the rest and the mode is the last character |
| Identify.PromptRules | src/starlight/ssh/bin/identify.py:73-141 | the prompt table holds the six rules in source order |
| Identify.RuleWellFormed | src/starlight/ssh/bin/identify.py:73-141 | every rule names one key per capture group, and no key of the dictionary it yields repeats |
| Identify.FirstSome | src/starlight/ssh/bin/identify.py:13-16 | the first-match search answers the first entry that matched, after only entries that did not, and nothing exactly when nothing matched |
| Identify.IdByPromptDescribes | src/starlight/ssh/bin/identify.py:10-29 | `id_by_prompt` answers False exactly when no rule matches; otherwise it answers the first matching rule with 'extract' replaced by the i-th name bound to capture group i + 1 and every other key copied, 'regex' included |
| Identify.CiscoAristaFallback | src/starlight/ssh/bin/identify.py:10-138 | a line ending in '#' or '>' that no earlier rule claims is identified as the combined type naming arista and cisco, joined by a bar, with hostname the line less its last character and mode that character |
| Identify.LinuxFirst | src/starlight/ssh/bin/identify.py:76-96 | a line the Linux rule matches and that ends in whitespace is claimed by that rule, since the Aruba rule before it needs a final '#' |
| Identify.LinuxPrompt | src/starlight/ssh/bin/identify.py:85-120 | a bash prompt `user@host:path$ ` is split into exactly those parts and identified by the Linux rule, although the macOS rule would match it too |
| Identify.IdBySshVersion | src/starlight/ssh/bin/identify.py:32-70 | `id_by_ssh_version` recognises a version string exactly when the Cisco or the Ubuntu pattern matches it, and answers a copy of the first rule that does |
| Identify.CiscoBanner | src/starlight/ssh/bin/identify.py:62-63 | every one-line identification string "SSH-…-Cisco-" followed by a digit is a Cisco device |
| Identify.KnownErrorGroup | src/starlight/ssh/bin/identify.py:81-95 | only the table's three error patterns find anything; the command-not-found pattern finds "command not found" exactly when such a line is in the output |
| Identify.CommandNotFoundLine | src/starlight/ssh/bin/identify.py:93 | a line "bash: <name>: command not found" of its own in the output is recognised |
| Identify.AutoFind | src/starlight/ssh/bin/identify.py:144-171 | what a pager pattern matches is a non-empty start or end of the line |
| Identify.Responded | src/starlight/ssh/bin/identify.py:50-54 | after a question the first matching entry records the text it matched; with no match the table is unchanged |
| Identify.RespondedAllKeepsRules | src/starlight/ssh/bin/identify.py:50-54 | however often it is asked, the table keeps its patterns and replies; only the 'found' fields change |
| Identify.AutoResponseTable.constructor | src/starlight/ssh/bin/identify.py:144-171 | the shared table starts as `SSH_AUTO_RESPONSE` |
| Identify.AutoResponseTable.Respond | src/starlight/ssh/bin/identify.py:46-56 | `auto_reponse` answers the first matching entry after setting its 'found' field to the matched text, and answers False with the table untouched when no pattern matches |
| Identify.EndMarkerReply | src/starlight/ssh/bin/identify.py:164-170 | on the pager's "(END)" line only the last entry matches, and its reply is 'q' |
| Identify.DisplayAllReply | src/starlight/ssh/bin/identify.py:145-158 | on "Display all N items? (y/n)" followed by blanks the third entry is the first that matches, and its reply is 'y' |
| Sanitiser.SequenceLength | src/starlight/ssh/bin/utilities.py:14-15 | a match of the escape expression at the start of a text is at least two characters long and starts with ESC |
| Sanitiser.StripAnsi | src/starlight/ssh/bin/utilities.py:4-17 | the sanitised text is never longer than the input |
| Sanitiser.StripAnsiPieces | src/starlight/ssh/bin/utilities.py:14-17 | the left-to-right scan cuts the text into kept characters and dropped escape sequences: the pieces glue back to the text, the result is the kept characters, and every dropped piece is one whole match |
| Sanitiser.StripAnsiWithoutEscape | src/starlight/ssh/bin/utilities.py:14-17 | text without an ESC character passes through unchanged |
| Sanitiser.StripAnsiResetAfter | src/starlight/ssh/bin/utilities.py:14-17 | the reset sequence ESC "[0m" after plain text is removed |
| Sanitiser.StripAnsiColour | src/starlight/ssh/bin/utilities.py:14-17 | a select-graphic-rendition sequence with parameters is removed whole |
| Sanitiser.StripAnsiKeepsLoneEscape | src/starlight/ssh/bin/utilities.py:14-17 | an ESC that starts no sequence (ESC '7') is kept |
| Sanitiser.StripAnsiNotIdempotent | src/starlight/ssh/bin/utilities.py:14-17 | removing one sequence can join its neighbours into a new one, so a second pass removes more: `strip_ansi` is not idempotent |
| Sanitiser.StripAnsiChunked | src/starlight/ssh/bin/utilities.py:14-17 | sanitising two chunks one by one differs from sanitising their concatenation |
| Text.LastLine | ssh/bin/connect.py:195 | the candidate prompt is the text after the last line break, and holds none |
| Netbox.PyIntOfText | src/starlight/api/lib/netbox/netbox.py:369-378 | `int` reads back every integer's decimal text |
| Netbox.EqualityCriteria | src/starlight/api/lib/netbox/netbox.py:352-366 | '=' and '!=' against a list test membership, against a number or a string test equality, and never skip for any other value |
| Netbox.RelationalCriteria | src/starlight/api/lib/netbox/netbox.py:347-379 | the relational operators compare `int(found)` with `int(want)` and skip exactly when the relation fails; only '>' first requires the found value to be a number or a string |
| Netbox.RegexCriteria | src/starlight/api/lib/netbox/netbox.py:380-385 | 're' skips when the pattern does not match and '!re' when it does |
| Netbox.UnknownOperator | src/starlight/api/lib/netbox/netbox.py:346-385 | an operator the function does not know never skips |
| Netbox.TextComparesAsNumber | src/starlight/api/lib/netbox/netbox.py:367-373 | a numeric text compares as its number with '>' and '<' |
| Netbox.FilterResult | src/starlight/api/lib/netbox/netbox.py:335-400 | the loop's verdict is that of the criteria scan: keys the record lacks are passed over, and the first failing or misconfigured criterion ends it |
| Netbox.Judge | src/starlight/api/lib/netbox/netbox.py:339-385 | one criterion is passed over when the record lacks its key, and is otherwise read and applied |
| Netbox.AbsentIgnored | src/starlight/api/lib/netbox/netbox.py:339-340 | criteria on keys the record lacks change nothing |
| Netbox.FalsyNeverSkips | src/starlight/api/lib/netbox/netbox.py:346 | a record whose filtered values are all falsy is never skipped, whatever the criteria say |
| Netbox.FirstFailureStops | src/starlight/api/lib/netbox/netbox.py:338-398 | criteria are checked in order: after a failing or misconfigured one nothing else is looked at, and after passing ones the rest decide alone |
| Netbox.PassesIffAccepted | src/starlight/api/lib/netbox/netbox.py:335-400 | a record is kept exactly when every criterion accepts it |
| Netbox.KeptMeansAccepted | src/starlight/api/lib/netbox/netbox.py:342-385 | a kept record's every present criterion has an operator and a value and accepts the record's value |
| Netbox.ConvertToDottedNotation | src/starlight/api/lib/netbox/netbox.py:498-615 | the loop over the fields builds the dictionary the flattening function describes, and raises exactly when a field does |
| Netbox.ConfigContextSkipped | src/starlight/api/lib/netbox/netbox.py:520-544 | 'config_context' is never walked: the flattened dictionary has no such key, or with `hide_custom_fields` at most a None under it |
| Netbox.ListField | src/starlight/api/lib/netbox/netbox.py:547-564 | a non-empty list is kept as it is, and '<key>.list' joins with line breaks the field the first element offers |
| Netbox.EmptyListIsNone | src/starlight/api/lib/netbox/netbox.py:530-566 | an empty list becomes None, and an empty 'tags' list also sets 'tag_list' to [] |
| Netbox.TagsField | src/starlight/api/lib/netbox/netbox.py:530-541 | a dictionary's 'tags' give 'tag_list', the tags' display values, before the list itself and its 'tags.list' |
| Netbox.NestedLeaf | src/starlight/api/lib/netbox/netbox.py:574-611 | a nested value that is not a dictionary is stored under its dotted key; a None is stored twice, before and after the ignore test |
| Netbox.NestedDict | src/starlight/api/lib/netbox/netbox.py:578-595 | a dictionary above the fifth level is walked under its dotted path |
| Netbox.DeepKey | src/starlight/api/lib/netbox/netbox.py:570-605 | five levels flatten to `a.b.c,d,e`: dots down to the third level and commas below, as the key templates are written |
| Netbox.FieldOfDict | src/starlight/api/lib/netbox/netbox.py:567-568 | a dictionary-valued field is walked from the second level |
| Netbox.DottedSingle | src/starlight/api/lib/netbox/netbox.py:524-613 | a one-field record flattens to exactly its field's assignments, and raises when that field does |
| Netbox.LevelKeys | src/starlight/api/lib/netbox/netbox.py:570-611 | below the top level every flattened key extends its parent's path and that level's separator, except the second-level keys that hiding custom fields strips, and the only value ever stored under 'config_context' is None |
| Netbox.FieldKeys | src/starlight/api/lib/netbox/netbox.py:520-568 | a top-level field stores at most None under 'config_context', and nothing at all unless custom fields are hidden |
| NetboxDevices.SplitSpec | src/starlight/api/netbox_devices.py:46-48 | a field spec matches only with a colon: the source name is the text before the first colon, holds no colon, and neither part crosses a line break |
| NetboxDevices.SplitRename | src/starlight/api/netbox_devices.py:46-48 | `src:dst` with a colon-free, single-line `src` renames `src` to `dst` |
| NetboxDevices.NoColonNoMatch | src/starlight/api/netbox_devices.py:46-50 | a spec without a colon does not match, so the else branch's `tmp.group` is reached on `None` |
| NetboxDevices.Specs | src/starlight/api/netbox_devices.py:43-51 | the spec loop raises AttributeError exactly when some spec does not match; otherwise the field list holds each spec's shown name, in spec order |
| NetboxDevices.Parsed | src/starlight/api/netbox_devices.py:45-46 | every spec is split independently, one result per spec in order |
| NetboxDevices.PairsShape | src/starlight/api/netbox_devices.py:44-51 | over already-split specs, the loop fails exactly when one did not match and otherwise lists every shown name in order |
| NetboxDevices.PageWithoutApi | src/starlight/api/netbox_devices.py:122 | the page for a link without `/api` is the link minus its last character (the trailing slash) |
| NetboxDevices.UrlInto | src/starlight/api/netbox_devices.py:120-122 | a link value succeeds exactly when it is a string; the key then holds the web page and the `url_api` key the original link |
| NetboxDevices.FlattenItem | src/starlight/api/netbox_devices.py:54-130 | the field loop of one record computes the flattened record `new_fields` or the exception it raises |
| NetboxDevices.LinkKeys | src/starlight/api/netbox_devices.py:113-122 | a string under a `.url` path gets both keys: the page under the key, the original under `.url` replaced by `.url_api` |
| NetboxDevices.TopLevelUrl | src/starlight/api/netbox_devices.py:125-128 | a top-level `url` keeps the API link under `url_api` and the page under `url`; a non-string value raises AttributeError |
| NetboxDevices.SecondLevel | src/starlight/api/netbox_devices.py:78-80 | `{'site': {'name': n}}` flattens to the dotted key `site.name` holding `n` |
| NetboxDevices.ThirdLevelLink | src/starlight/api/netbox_devices.py:84-85 | a link two levels down keeps the API link under the `.url_api` key and the page under its own key |
| NetboxDevices.FifthLevel | src/starlight/api/netbox_devices.py:94-103 | fifth-level keys join the first three names with dots and the rest with commas, and the value is stored unchanged |
| NetboxDevices.SixthLevelRaises | src/starlight/api/netbox_devices.py:98-100 | a dictionary at the fifth level reaches `pformat`, which the module never imports, so the conversion raises NameError |
| NetboxDevices.ListLabelled | src/starlight/api/netbox_devices.py:59-75 | a non-empty list is kept and `key.list` joins, one per line, the field the first element offers first among `display`, `name` and `slug` |
| NetboxDevices.ListUnlabelled | src/starlight/api/netbox_devices.py:63-73 | a list whose first element has none of the three fields raises, KeyError when no `key.list` exists yet |
| NetboxDevices.DiscoverGrows | src/starlight/api/netbox_devices.py:136-140 | without specs, discovery only extends the field list, lists every new key and nothing else |
| NetboxDevices.DiscoverDistinct | src/starlight/api/netbox_devices.py:136-140 | discovery never lists a field twice |
| NetboxDevices.ProjectSources | src/starlight/api/netbox_devices.py:142-145 | every key of an output record is the shown name of a mapped source and carries that source's value |
| NetboxDevices.ProjectCovers | src/starlight/api/netbox_devices.py:142-145 | every mapped source present in the flattened record appears under its shown name |
| NetboxDevices.ProjectIdentity | src/starlight/api/netbox_devices.py:136-145 | when the map sends each field to itself and covers the record, the output record holds exactly the record's values |
| NetboxDevices.Run | src/starlight/api/netbox_devices.py:53-147 | a successful run appends exactly one output record per input record |
| NetboxDevices.RunRaised | src/starlight/api/netbox_devices.py:53-147 | once a record raises, the whole conversion raises the same exception |
| NetboxDevices.RunProjects | src/starlight/api/netbox_devices.py:142-147 | with specs, the list and map stay fixed and record `j` is the projection of the flattened `data[j]` |
| NetboxDevices.RunDiscovers | src/starlight/api/netbox_devices.py:136-147 | without specs, the run keeps the map equal to the identity on the list and only extends the list and the records |
| NetboxDevices.RunDistinct | src/starlight/api/netbox_devices.py:136-140 | without specs, the field list never holds a field twice |
| NetboxDevices.RunRecord | src/starlight/api/netbox_devices.py:136-147 | without specs, record `j` holds exactly the values of the flattened `data[j]` |
| NetboxDevices.RunListed | src/starlight/api/netbox_devices.py:136-140 | without specs, every key of every flattened record ends up in the field list |
| NetboxDevices.ConvertRuns | src/starlight/api/netbox_devices.py:40-149 | the conversion returns the field list and records of the run from the state the specs give, or the run's exception |
| NetboxDevices.ConvertNone | src/starlight/api/netbox_devices.py:40-149 | without specs the conversion is the run from the empty list and map |
| NetboxDevices.DiscoveredRecords | src/starlight/api/netbox_devices.py:14-149 | `convert_netbox_data(data)`: record `j` holds the flattened `data[j]`, and the repeat-free field list names every flattened key |
| NetboxDevices.DiscoveredValues | src/starlight/api/netbox_devices.py:136-147 | without specs, record `j` of the result holds the flattened `data[j]` values |
| NetboxDevices.DiscoveredListed | src/starlight/api/netbox_devices.py:136-140 | without specs, every flattened key appears in the returned field list |
| NetboxDevices.DiscoveredDistinct | src/starlight/api/netbox_devices.py:136-140 | without specs, the returned field list has no repeats |
| NetboxDevices.SpecRecords | src/starlight/api/netbox_devices.py:14-149 | `convert_netbox_data(data, fields)`: the field list is the shown names in spec order and record `j` is the flattened `data[j]` projected through the specs |
| NetboxDevices.ParseFields | src/starlight/api/netbox_devices.py:43-51 | the spec loop computes the map and field list of `Specs`, or its AttributeError |
| NetboxDevices.DiscoverFields | src/starlight/api/netbox_devices.py:136-140 | the discovery loop computes `Discover`, whose growth and distinctness are proved above |
| NetboxDevices.ProjectFields | src/starlight/api/netbox_devices.py:142-145 | the projection loop computes `Project`, whose key and value facts are proved above |
| NetboxDevices.ConvertItem | src/starlight/api/netbox_devices.py:54-147 | one record's body: flatten, stop with SystemExit when `show_fields` is set, discover, project and append |
| NetboxDevices.ConvertNetboxData | src/starlight/api/netbox_devices.py:14-149 | the function computes `Convert`, of which the record and field-list facts above are proved |
| NetboxDevices.RunRecords | src/starlight/api/netbox_devices.py:53-147 | the record loop computes `Run`, stopping at the first exception |
| ApiCore.Note | api/bin/api_core_utils.py:51-52 | a warning is recorded once: the new list holds it, holds nothing else new, and stays free of repeats |
| ApiCore.FirstMatch | api/bin/api_core_utils.py:53 | `list.remove` targets the first element equal to the profile, or none when no element is |
| ApiCore.Remove | api/bin/api_core_utils.py:53 | removing a held profile shortens the list by exactly one |
| ApiCore.PruneList | api/bin/api_core_utils.py:46-53 | the loop over one group's list, which removes while it iterates, computes the kept list and the warnings of `Kept` and `Warned` |
| ApiCore.MatchInvalid | api/bin/api_core_utils.py:47-53 | the element `remove` takes out for an invalid profile is itself invalid |
| ApiCore.RemoveInvalid | api/bin/api_core_utils.py:47-53 | removing an invalid profile takes out one invalid element and nothing else |
| ApiCore.KeptValid | api/bin/api_core_utils.py:45-53 | the loop never adds a profile and never removes a valid one |
| ApiCore.KeptAllValid | api/bin/api_core_utils.py:45-53 | a group whose profiles are all valid is left as it is |
| ApiCore.SecondInvalidSurvives | api/bin/api_core_utils.py:46-53 | removing during iteration skips the next element: of two invalid profiles in a row only the first is removed |
| ApiCore.WarnedDistinct | api/bin/api_core_utils.py:48-52 | the warnings stay free of repeats and every new one names an invalid profile of the group |
| ApiCore.FirstInvalid | api/bin/api_core_utils.py:46-47 | finds the first profile not among the valid names, or reports that all are valid |
| ApiCore.Group | api/bin/api_core_utils.py:46-53 | a group that completes its loop holds its cleaned value; one that fails is left as it was |
| ApiCore.GroupsShape | api/bin/api_core_utils.py:45-53 | the group loop keeps every group name in place and leaves each value as it was or cleaned, cleaned for all when no group fails |
| ApiCore.BothKeysNeeded | api/bin/api_core_utils.py:42-44 | without both the profiles and the profile groups the configuration and warnings are left alone |
| ApiCore.PrunedGroups | api/bin/api_core_utils.py:40-53 | after a clean check every group is cleaned, every other key is unchanged and the warnings have no repeats |
| ApiCore.GroupsWarned | api/bin/api_core_utils.py:48-52 | the warnings collected over all groups stay free of repeats |
| ApiCore.Configuration.constructor | api/bin/api_core_utils.py:19-20 | a configuration dictionary passed by the caller holds the given entries |
| ApiCore.PruneGroups | api/bin/api_core_utils.py:45-53 | the loop over the groups computes `Groups`: pruned groups, warnings, and the exception of the first group that fails |
| ApiCore.ParseConfiguration | api/bin/api_core_utils.py:40-59 | the configuration is pruned in place, whether its groups are a dictionary or a list indexed by its own elements, and the same object is returned exactly when pruning raises nothing; otherwise the exception is the one pruning raised |
| ApiCore.Pruned | api/bin/api_core_utils.py:42-53 | pruning keeps every key of the configuration and never records a warning twice |
| ApiCore.PrunedGroupsIn | api/bin/api_core_utils.py:44-53 | iterating the groups value, whatever its type, keeps every key and records no warning twice |
| ApiCore.ListIndex | api/bin/api_core_utils.py:46 | a list indexed by an int or bool counts from the front, or from the back when negative; out of range is IndexError and any other index TypeError, both ways |
| ApiCore.PrunedOthers | api/bin/api_core_utils.py:42-53 | pruning changes no key but the profile groups |
| ApiCore.PrunedDict | api/bin/api_core_utils.py:44-53 | with a dictionary of groups, pruning writes back the result of the groups loop with its warnings and exception |
| ApiCore.GroupsCleaned | api/bin/api_core_utils.py:45-53 | a groups loop that raises nothing keeps every group name and cleans every group |
| ApiCore.ListGroupsWarned | api/bin/api_core_utils.py:48-52 | the warnings of the loop over a list of groups stay free of repeats |
| ApiCore.ListGroupsShape | api/bin/api_core_utils.py:45-53 | the loop over a list of groups keeps its length, leaves non-list elements alone, and a list element only loses profiles, never a valid one, however often it is indexed |
| ApiCore.GroupPrunes | api/bin/api_core_utils.py:46-53 | a group whose loop completes is unchanged unless it is a list, and a list loses no valid profile |
| ApiCore.IndexPastEnd | api/bin/api_core_utils.py:45-46 | groups `[5]`: indexing past the end raises IndexError and nothing changes |
| ApiCore.IndexedString | api/bin/api_core_utils.py:45-53 | groups `[1, "x"]`: element 1 names the string, its invalid character is warned about, and `remove` on a string raises AttributeError |
| ApiCore.PrunedThenIndexed | api/bin/api_core_utils.py:45-53 | groups `[1, ["bad"]]`: the inner list is emptied in place, then used as an index, raising TypeError |
| ApiCore.ListWithoutIndexRaises | api/bin/api_core_utils.py:44-46 | a non-empty list of groups with no int or bool element raises TypeError and leaves the configuration as it was |
| ApiCore.PruneListGroups | api/bin/api_core_utils.py:45-53 | the loop over a list of groups computes `ListGroups`: the list after in-place pruning, the warnings, and the first exception |
| AnalysisUtil.DateTimeDelta | ssh/lib/analysis/utilities.py:46-60 | splitting the difference into minutes and seconds and recombining them gives back its days times 86400 plus its seconds |
| AnalysisUtil.DigitRun | ssh/lib/analysis/utilities.py:75 | `\d+` takes the longest run of ASCII digits at a position: all digits, and not followed by another digit |
| AnalysisUtil.SearchIsLeftmost | ssh/lib/analysis/utilities.py:75-96 | `re.search` reports no match exactly when no alternative matches anywhere, and otherwise the match at the leftmost position |
| AnalysisUtil.UptimeToSeconds | ssh/lib/analysis/utilities.py:63-98 | the method computes `Uptime` (years, weeks, days, a leading `Nd ` that replaces them, then hours, minutes and seconds) and never goes negative |
| AnalysisUtil.NoDigitsNoMatch | ssh/lib/analysis/utilities.py:75-96 | a pattern whose alternatives all need a digit finds nothing in a text without digits |
| AnalysisUtil.UptimeWithoutDigits | ssh/lib/analysis/utilities.py:63-98 | a text without digits is an uptime of zero seconds |
| AnalysisUtil.FoundSpaced | ssh/lib/analysis/utilities.py:87-96 | when no earlier digit run is followed by a unit word, the spaced form ` Nh ` (or `m`, `s`) supplies the number |
| AnalysisUtil.UptimeLongExample | ssh/lib/analysis/utilities.py:69 | the documented example `628d 3h 39m 8s` is 54272348 seconds |
| AnalysisUtil.UptimeShortExample | ssh/lib/analysis/utilities.py:81-86 | a leading `Nd ` token overwrites the years found earlier: `2d 1 year` is two days only |
| AnalysisUtil.ListToString | ssh/lib/analysis/utilities.py:101-129 | the loop computes the prose rendering `Prose`, which is characterised by the lemmas below |
| AnalysisUtil.ProseIsJoin | ssh/lib/analysis/utilities.py:113-129 | the rendering is the quoted items joined by ', ', except the last two, joined by ' and ', ' or ' or ', ' |
| AnalysisUtil.ProseOfOne | ssh/lib/analysis/utilities.py:113-129 | a single item is just that item quoted |
| AnalysisUtil.ProseOfNone | ssh/lib/analysis/utilities.py:113-129 | an empty list renders as the empty string |
| AnalysisUtil.IntervalsAreUnits | ssh/lib/analysis/utilities.py:134 | the summary units are positive, strictly decreasing, and end with one second |
| AnalysisUtil.PartsOrdered | ssh/lib/analysis/utilities.py:138-144 | only non-zero components are kept, in unit order, each unit at most once |
| AnalysisUtil.PartsAddUp | ssh/lib/analysis/utilities.py:135-144 | when the last unit is one second the components add up to the input, for negative inputs too (floor division) |
| AnalysisUtil.Labels | ssh/lib/analysis/utilities.py:142-144 | one label per component, in order |
| AnalysisUtil.SecondsToSummaryString | ssh/lib/analysis/utilities.py:132-146 | the function computes `Summary`: the first `granularity` component labels joined by ', ' |
| AnalysisUtil.Components | ssh/lib/analysis/utilities.py:137-144 | the loop over the units yields the labels of the non-zero components `Parts`, whose order and sum are proved above |
| AnalysisUtil.SummaryComponents | ssh/lib/analysis/utilities.py:132-146 | before truncation, the components are non-zero, ordered y, w, d, h, m, s, and add up to the seconds |
| AnalysisUtil.OneSecond | ssh/lib/analysis/utilities.py:142-143 | exactly one second renders as '1', since `rstrip('s')` strips the unit letter |
| AnalysisHelper.Rank | ssh/lib/analysis/helper.py:56-199 | every branch of the if/elif chain has a place in it, and only the fall-through case has none |
| AnalysisHelper.FirstHit | ssh/lib/analysis/helper.py:56-199 | the scan of the chain from a place stops at the first branch it accepts, having rejected all before |
| AnalysisHelper.FirstBranch | ssh/lib/analysis/helper.py:56-199 | an if/elif chain runs the first branch whose test holds, and no earlier branch's test holds |
| AnalysisHelper.FirstBranchFirst | ssh/lib/analysis/helper.py:56-199 | a branch whose test holds is never passed over for a later one |
| AnalysisHelper.Classify | ssh/lib/analysis/helper.py:56-199 | the prompt runs the first branch whose pattern it matches, and matches no earlier pattern |
| AnalysisHelper.ClassifyFirst | ssh/lib/analysis/helper.py:56-199 | a prompt matching a branch's pattern is classified no later than that branch |
| AnalysisHelper.GenericBeforeAruba | ssh/lib/analysis/helper.py:153-199 | a prompt the generic `#`/`>` rule accepts never reaches the last-login, `$ `, Aruba or shell-access rules |
| AnalysisHelper.CiscoSeed | ssh/lib/analysis/helper.py:39-42 | without `_session_info` the Cisco test is false; a true test means every nested key was present and the version string is a string |
| AnalysisHelper.BranchFilter | ssh/lib/analysis/helper.py:56-194 | a branch installs a prompt filter exactly when its rule sets one; only the Netscout rule can raise, on a missing user name |
| AnalysisHelper.Appended | ssh/lib/analysis/helper.py:43-46 | a guarded append leaves the list alone when the guard is present and appends the command otherwise |
| AnalysisHelper.MergeThree | ssh/lib/analysis/helper.py:155-162 | merging a table is the guarded appends one after the other |
| AnalysisHelper.Accumulate | ssh/lib/analysis/helper.py:30-200 | the locals after the seed and the prompt's branch are the plan `Planned`, or the lookup error it raises |
| AnalysisHelper.SeedPlan | ssh/lib/analysis/helper.py:30-53 | the locals start empty, and a Cisco identification string plans `terminal length 0` and `show version` with the Cisco filter and vendor |
| AnalysisHelper.ApplyRule | ssh/lib/analysis/helper.py:56-200 | one branch's assignments and guarded appends, for the filter the branch installs |
| AnalysisHelper.PaloAltoRule | ssh/lib/analysis/helper.py:56-64 | the Palo Alto branch's statements |
| AnalysisHelper.F5Rule | ssh/lib/analysis/helper.py:68-80 | the F5 branch's statements |
| AnalysisHelper.RiverbedRule | ssh/lib/analysis/helper.py:89-97 | the Riverbed branch's statements |
| AnalysisHelper.NetscoutRule | ssh/lib/analysis/helper.py:101-114 | the Netscout branch's statements |
| AnalysisHelper.LinuxRule | ssh/lib/analysis/helper.py:117-189 | the bracketed, colon and `$ ` Linux branches' statements |
| AnalysisHelper.GenericRule | ssh/lib/analysis/helper.py:153-165 | the generic branch plans `enable` first only when the prompt holds a `>` |
| AnalysisHelper.ArubaRule | ssh/lib/analysis/helper.py:192-196 | the Aruba branch plans `show version` but does not mark the prompt valid |
| AnalysisHelper.LinuxAppends | ssh/lib/analysis/helper.py:177-188 | the six guarded appends the Linux rules share, including `ps -ef -w -w` guarded by `ps -ef` |
| AnalysisHelper.MergeKeeps | ssh/lib/analysis/helper.py:43-196 | guarded appends keep the commands already planned first, in their order |
| AnalysisHelper.MergeMembers | ssh/lib/analysis/helper.py:43-196 | every merged command was planned before or comes from the table, and every self-guarded table command ends up planned |
| AnalysisHelper.MergeDistinct | ssh/lib/analysis/helper.py:43-196 | merging a guarded table into a repeat-free list keeps it free of repeats |
| AnalysisHelper.LinuxGuarded | ssh/lib/analysis/helper.py:187-188 | `ps -ef -w -w`, guarded by `ps -ef`, is still added at most once |
| AnalysisHelper.TablesGuarded | ssh/lib/analysis/helper.py:39-196 | the seed's commands differ and every branch's table is guarded against the seed |
| AnalysisHelper.PlannedRuled | ssh/lib/analysis/helper.py:30-200 | a successful plan is the seed's plan ruled by the prompt's branch with the filter it installs |
| AnalysisHelper.RuledDistinct | ssh/lib/analysis/helper.py:39-196 | a branch never plans a command twice |
| AnalysisHelper.PlanDistinct | ssh/lib/analysis/helper.py:30-200 | the planned commands never repeat |
| AnalysisHelper.NoEnable | ssh/lib/analysis/helper.py:56-196 | no table but the generic one behind a `>` contains `enable` |
| AnalysisHelper.RuledEnable | ssh/lib/analysis/helper.py:153-165 | a branch plans `enable` exactly when it is the generic rule and the prompt holds a `>` |
| AnalysisHelper.EnableIff | ssh/lib/analysis/helper.py:153-165 | `enable` is planned exactly for a prompt classified generic that holds a `>` |
| AnalysisHelper.CheckPrompt | ssh/lib/analysis/helper.py:13-226 | the method computes `Check`, of which the lemmas below prove the refusals, errors, vendor, filter and collection effects |
| AnalysisHelper.RenderInfo | ssh/lib/analysis/helper.py:209-226 | the information dictionary is filled entry by entry as `Rendered` says |
| AnalysisHelper.RenderedParts | ssh/lib/analysis/helper.py:209-224 | the dictionary is the fixed start with each present optional entry under its own key, and nothing else |
| AnalysisHelper.RenderedFixed | ssh/lib/analysis/helper.py:209 | the dictionary always holds the recognition flag and the prompt |
| AnalysisHelper.RenderedReads | ssh/lib/analysis/helper.py:213-224 | each other entry is present exactly when the plan has a value for it, and holds that value |
| AnalysisHelper.RenderedKeys | ssh/lib/analysis/helper.py:202-224 | no key twice, no key the helper does not write, and never `extend_command_list`, which stays empty |
| AnalysisHelper.CheckRefuses | ssh/lib/analysis/helper.py:22-28 | a collection that is neither a dictionary nor `None`, or a prompt that is not a string, is refused with its message and nothing changes |
| AnalysisHelper.RaisesOnly | ssh/lib/analysis/helper.py:39-114 | only the Cisco lookups under `_session_info` and the Netscout user name can raise; without `_session_info` only a Netscout prompt raises |
| AnalysisHelper.PlannedRaised | ssh/lib/analysis/helper.py:30-200 | the plan raises exactly when the seed raises or the branch's filter lookup does |
| AnalysisHelper.NetscoutRaises | ssh/lib/analysis/helper.py:101-114 | a Netscout prompt without `_session_info` raises on the user name lookup |
| AnalysisHelper.RecognisedIff | ssh/lib/analysis/helper.py:56-199 | a prompt is recognised by the chain exactly when a rule before the Aruba one matches it |
| AnalysisHelper.ValidIff | ssh/lib/analysis/helper.py:30-200 | `valid` is set exactly when the Cisco identification string was seen or a rule before the Aruba one matches |
| AnalysisHelper.CheckIs | ssh/lib/analysis/helper.py:13-226 | a successful check answers with the rendered plan, and the collection is replaced only as the shell-access rule says |
| AnalysisHelper.ErrorOnlyDiskFull | ssh/lib/analysis/helper.py:83-87 | only the full-disk F5 prompt reports an error, and it names the disk |
| AnalysisHelper.VendorIs | ssh/lib/analysis/helper.py:39-196 | the vendor is the prompt rule's vendor, else Cisco after a Cisco identification string, else absent |
| AnalysisHelper.FilterIs | ssh/lib/analysis/helper.py:39-196 | a filter is reported exactly when the rule installs one or the identification string said Cisco, and the rule's filter wins |
| AnalysisHelper.CollectionTouched | ssh/lib/analysis/helper.py:199-200 | the caller's collection gains the shell-access error only for that prompt, and no other key changes |
| AnalysisHelper.SeedFirst | ssh/lib/analysis/helper.py:39-53 | after a Cisco identification string the first two planned commands are `terminal length 0` and `show version` |
| AnalysisHelper.FirstDistribution | ssh/lib/analysis/helper.py:243-253 | the first distribution whose pattern the banner matches, with none before it matching |
| AnalysisHelper.CheckBanner | ssh/lib/analysis/helper.py:229-253 | refuses a non-dictionary collection or a non-string banner; otherwise reports the first matching distribution as Linux, or nothing exactly when none matches |
| AnalysisHelper.UbuntuBanner | ssh/lib/analysis/helper.py:243-244 | a banner welcoming to Ubuntu or naming ubuntu.com is Ubuntu, whatever else it mentions |
| AnalysisHelper.NamedBanner | ssh/lib/analysis/helper.py:246-253 | a banner naming OPNsense, VMware or Debian always yields some distribution |
| AnalysisHelper.Analyze | ssh/lib/analysis/helper.py:256-303 | a bad-command report is an error for any command; otherwise only the version commands name a vendor, and only from the listed outputs |
| AnalysisHelper.ErrorOutput | ssh/lib/analysis/helper.py:269-270 | syntax errors, invalid commands, `: command not found` and `: Permission denied` are reported as the stripped output |
| AnalysisHelper.SyntaxError | ssh/lib/analysis/helper.py:269 | `Syntax Error` and `syntax error` both match the error pattern |
| AnalysisHelper.InvalidCommand | ssh/lib/analysis/helper.py:269 | `Invalid command` matches the error pattern |
| AnalysisHelper.NotFound | ssh/lib/analysis/helper.py:269 | `: command not found` matches the error pattern |
| AnalysisHelper.Denied | ssh/lib/analysis/helper.py:269 | `: Permission denied` matches the error pattern |
| AnalysisHelper.CiscoOutput | ssh/lib/analysis/helper.py:278-284 | `show version` output naming Cisco IOS Software or NX-OS, with no bad command, is Cisco |
| AnalysisHelper.ArborOutput | ssh/lib/analysis/helper.py:296-301 | the Arbor Edge Defense version line after `sys version` or `system version` is Netscout and plans `system hardware` |
| AnalysisHelper.Rows | ssh/lib/analysis/helper.py:324-357 | one table row per OS type, keyed by its name |
| AnalysisHelper.TableUnique | ssh/lib/analysis/helper.py:324-357 | no OS type appears twice in the table |
| AnalysisHelper.LookupRow | ssh/lib/analysis/helper.py:324-357 | looking an OS type up finds its own row |
| AnalysisHelper.FiltersAgree | ssh/lib/analysis/helper.py:50-51 | the Cisco seed's filter is the table's Cisco IOS filter, and the Palo Alto, F5, Linux, generic and Aruba rules install their rows' filters |
| AnalysisHelper.RiverbedFiltersDiffer | ssh/lib/analysis/helper.py:342-343 | the table's Riverbed filter differs from the Riverbed rule's: its raw string doubles each backslash |
| AnalysisHelper.VendorsKnown | ssh/lib/analysis/helper.py:306-357 | every vendor a prompt rule, the identification string or the version commands name is a vendor of the table |
| AnalysisHelper.HintsKnown | ssh/lib/analysis/helper.py:164-193 | each `might_be` hint names, lower-cased, the analysis package of some row |
| Analyzer.Open | src/starlight/ssh/lib/analysis/linux/cat_proc_meminfo.py:19-25 | the shared guard: a missing collection becomes a fresh dictionary, a non-dictionary is refused with its message, and so is output that is not text |
| Analyzer.GatherRaises | src/starlight/ssh/lib/analysis/linux/cat_proc_meminfo.py:30-35 | the loop over the lines raises exactly when one of the lines does |
| Analyzer.GatherLast | src/starlight/ssh/lib/analysis/linux/cat_proc_meminfo.py:30-35 | after the loop, each key's last assignment is the one made by the last line assigning it |
| Analyzer.GatheredLookup | src/starlight/ssh/lib/analysis/linux/cat_proc_meminfo.py:30-35 | the dictionary filled from the lines maps every key to the last line's value for it, and holds no other key |
| Analyzer.GatherEmpty | src/starlight/ssh/lib/analysis/linux/cat_proc_meminfo.py:30-37 | the lines assign nothing exactly when every line parses to nothing |
| Analyzer.GatherPrefixRaises | src/starlight/ssh/lib/analysis/linux/cat_proc_meminfo.py:30-35 | the first line that raises decides the exception |
| Analyzer.GatherStep | src/starlight/ssh/lib/analysis/linux/cat_proc_meminfo.py:30-35 | one turn of the loop extends the assignments and the dictionary they fill, leaves them for a line that assigns nothing, or raises |
| Analyzer.FileTable | src/starlight/ssh/lib/analysis/linux/cat_proc_meminfo.py:29-38 | the loop fills a fresh dictionary from the lines and stores it under its key when it is not empty |
| Analyzer.FiledTable | src/starlight/ssh/lib/analysis/linux/cat_proc_meminfo.py:29-38 | the stored dictionary maps every key to its last line's value; when no line assigns, the collection is unchanged |
| Analyzer.FiledRaises | src/starlight/ssh/lib/analysis/linux/cat_proc_meminfo.py:30-35 | filing raises exactly when a line raises, with the first such line's exception |
| Analyzer.CollectValues | src/starlight/ssh/lib/analysis/linux/ps_minus_ef.py:32-50 | the list built line by line is each line's value in order, unless a line raises |
| Analyzer.CollectPrefixRaises | src/starlight/ssh/lib/analysis/linux/ps_minus_ef.py:32-50 | the first line that raises decides the exception |
| Analyzer.CollectStep | src/starlight/ssh/lib/analysis/linux/ps_minus_ef.py:43-50 | one turn of the list-building loop appends the line's value or raises |
| Analyzer.WithKey | src/starlight/ssh/lib/analysis/linux/ps_minus_ef.py:53-54 | `c[a]` exists once it has been created as an empty dictionary when missing |
| Analyzer.SetInNew | src/starlight/ssh/lib/analysis/linux/cat_etc_os_release.py:34-39 | a nested assignment where the inner dictionary is missing creates it with just the one entry, keeping the outer one's entries |
| Analyzer.SetInOnto | src/starlight/ssh/lib/analysis/linux/cat_etc_os_release.py:36-39 | a nested assignment onto existing dictionaries updates the inner one in place |
| Meminfo.Analyze | src/starlight/ssh/lib/analysis/linux/cat_proc_meminfo.py:3-40 | the method computes the analysis: guard, then `mem_info` filled from the lines of the form `key: number` |
| Meminfo.MemInfoTable | src/starlight/ssh/lib/analysis/linux/cat_proc_meminfo.py:29-38 | `mem_info` maps each key to the number on its last line, and is stored only when some line has exactly one colon |
| Meminfo.EntryRaises | src/starlight/ssh/lib/analysis/linux/cat_proc_meminfo.py:31-35 | a line raises exactly when it has one colon and `int()` rejects its value, and the exception is ValueError |
| Meminfo.MemInfoRaises | src/starlight/ssh/lib/analysis/linux/cat_proc_meminfo.py:30-35 | the analysis raises ValueError exactly when some line is malformed in that way |
| Meminfo.LineAssigns | src/starlight/ssh/lib/analysis/linux/cat_proc_meminfo.py:31-35 | a line `key:value` with a numeric value assigns the stripped, tab-free key that number |
| StarRelease.Analyze | ssh/lib/analysis/linux/cat_etc_star_dash_release.py:4-40 | the method computes the analysis: guard, then `linux_info` from the `key=value` lines |
| StarRelease.LinuxInfoTable | ssh/lib/analysis/linux/cat_etc_star_dash_release.py:31-38 | the analysis never raises; `linux_info` maps each lower-cased key to the value of its last line, and is stored only when some line holds an `=` |
| StarRelease.LineAssigns | ssh/lib/analysis/linux/cat_etc_star_dash_release.py:33-35 | `key=value` assigns the lower-cased key the value with quotes removed |
| PsEf.NonEmpty | src/starlight/ssh/lib/analysis/linux/ps_minus_ef.py:34-38 | removing the empty pieces leaves only non-empty pieces |
| PsEf.Words | src/starlight/ssh/lib/analysis/linux/ps_minus_ef.py:34-38 | the loop that removes empty pieces yields the words of the line |
| PsEf.FillRecord | src/starlight/ssh/lib/analysis/linux/ps_minus_ef.py:43-48 | the loop fills a process record from the line's words as `Record` says |
| PsEf.ProcessList | src/starlight/ssh/lib/analysis/linux/ps_minus_ef.py:32-50 | the loop over the lines after the header builds one process per line |
| PsEf.Analyze | src/starlight/ssh/lib/analysis/linux/ps_minus_ef.py:4-57 | the method computes the analysis: guard, header, processes, then `linux.active_processes` |
| PsEf.TokensJoin | src/starlight/ssh/lib/analysis/linux/ps_minus_ef.py:34-38 | words written with single spaces are read back as the same words |
| PsEf.RecordRaises | src/starlight/ssh/lib/analysis/linux/ps_minus_ef.py:44-48 | a record raises IndexError exactly when the header has no fields and the line has words |
| PsEf.RecordOk | src/starlight/ssh/lib/analysis/linux/ps_minus_ef.py:44-48 | under a header with fields every line gives a record, and a line as long as the header fills the last field |
| PsEf.RecordKeys | src/starlight/ssh/lib/analysis/linux/ps_minus_ef.py:44-48 | every key of a record is a header field |
| PsEf.RecordColumns | src/starlight/ssh/lib/analysis/linux/ps_minus_ef.py:44-48 | under distinct field names each field but the last holds its column's word, the last holds the remaining words joined by spaces, and fields past the line are absent |
| PsEf.ProcessesLines | src/starlight/ssh/lib/analysis/linux/ps_minus_ef.py:32-50 | the process list raises exactly when some line's record does, and otherwise holds one record per line, in order |
| PsEf.StoredLinux | src/starlight/ssh/lib/analysis/linux/ps_minus_ef.py:52-55 | no processes leave the collection alone; otherwise `linux.active_processes` holds them, raising only when `linux` is not a dictionary, and nothing else changes |
| CpuInfo.Blocks | src/starlight/ssh/lib/analysis/linux/cat_proc_cpuinfo.py:31-34 | every block found starts with `processor` and holds no blank line |
| CpuInfo.BlockFound | src/starlight/ssh/lib/analysis/linux/cat_proc_cpuinfo.py:31-34 | the text from a `processor` to the first blank line after it is a block |
| CpuInfo.BlocksTerminated | src/starlight/ssh/lib/analysis/linux/cat_proc_cpuinfo.py:31-34 | a text made of blocks, each followed by a blank line, yields exactly those blocks |
| CpuInfo.BlocksOfOutput | src/starlight/ssh/lib/analysis/linux/cat_proc_cpuinfo.py:34 | an output of blocks separated by blank lines, with the appended blank line, yields exactly those blocks |
| CpuInfo.TypedNumber | src/starlight/ssh/lib/analysis/linux/cat_proc_cpuinfo.py:40-41 | a number written with padding around it is read back as that number |
| CpuInfo.SortSpec | src/starlight/ssh/lib/analysis/linux/cat_proc_cpuinfo.py:49 | `sorted()` gives the same strings in ascending order |
| CpuInfo.OrderedUnique | src/starlight/ssh/lib/analysis/linux/cat_proc_cpuinfo.py:49 | two ascending orders of the same strings are the same list, so the sort is determined |
| CpuInfo.Field | src/starlight/ssh/lib/analysis/linux/cat_proc_cpuinfo.py:37-49 | a line raises IndexError exactly when it has no colon |
| CpuInfo.FieldLine | src/starlight/ssh/lib/analysis/linux/cat_proc_cpuinfo.py:37-49 | a line `key<TAB>: value` gives back the key and its typed value, or the sorted tokens for `flags` and `bugs` |
| CpuInfo.Slot | src/starlight/ssh/lib/analysis/linux/cat_proc_cpuinfo.py:52 | finds the key equal to a processor value under Python equality, or reports that none is |
| CpuInfo.AssignSpec | src/starlight/ssh/lib/analysis/linux/cat_proc_cpuinfo.py:52-58 | assigning keeps the table's keys distinct, adds a key only when no equal key exists, and the key then holds the info |
| CpuInfo.ReadBlock | src/starlight/ssh/lib/analysis/linux/cat_proc_cpuinfo.py:36-56 | the loop over one block's lines computes `BlockLines` |
| CpuInfo.Analyze | src/starlight/ssh/lib/analysis/linux/cat_proc_cpuinfo.py:3-63 | the method computes the analysis: guard, blocks, lines, then `cpu_info` |
| CpuInfo.ScanBlocks | src/starlight/ssh/lib/analysis/linux/cat_proc_cpuinfo.py:34-58 | the loop over the blocks computes `Scanned` |
| CpuInfo.BlockLinesInfo | src/starlight/ssh/lib/analysis/linux/cat_proc_cpuinfo.py:36-56 | reading a block raises exactly when the line loop does, and otherwise the info is every non-processor pair, each key with its last value |
| CpuInfo.StandardBlock | src/starlight/ssh/lib/analysis/linux/cat_proc_cpuinfo.py:34-58 | a standard block naming a new processor adds it last, holding the block's other pairs |
| CpuInfo.RepeatedProcessor | src/starlight/ssh/lib/analysis/linux/cat_proc_cpuinfo.py:51-58 | a block naming a processor already present files its info under the previous block's processor |
| CpuInfo.ScannedStandard | src/starlight/ssh/lib/analysis/linux/cat_proc_cpuinfo.py:34-58 | standard blocks naming distinct processors give one entry each, in order |
| CpuInfo.CpusOfOutput | src/starlight/ssh/lib/analysis/linux/cat_proc_cpuinfo.py:31-58 | a `cat /proc/cpuinfo` of standard blocks with distinct processors gives one table entry per processor with its pairs |
| CpuInfo.NoProcessor | src/starlight/ssh/lib/analysis/linux/cat_proc_cpuinfo.py:31-61 | an output without `processor` leaves the collection as it was |
| CpuInfo.TokensSorted | src/starlight/ssh/lib/analysis/linux/cat_proc_cpuinfo.py:48-49 | `flags` and `bugs` hold their tokens in ascending order, as a permutation of the split text |
| CpuInfo.ScannedSound | src/starlight/ssh/lib/analysis/linux/cat_proc_cpuinfo.py:34-58 | reading any output keeps `cpu_info` a proper dictionary: no two of its keys are equal |
| OsRelease.FirstOpen | src/starlight/ssh/lib/analysis/linux/cat_etc_os_release.py:32 | the lazy key group ends at the first `=` followed by a quote at which the rest of the line can close the match |
| OsRelease.FirstVendorSpec | src/starlight/ssh/lib/analysis/linux/cat_etc_os_release.py:54-57 | a vendor is found exactly when one is named, and it is the first named in the list's order |
| OsRelease.StoreAll | src/starlight/ssh/lib/analysis/linux/cat_etc_os_release.py:33-39 | the loop over the matches stores each in turn as `Releases` says |
| OsRelease.FindVendor | src/starlight/ssh/lib/analysis/linux/cat_etc_os_release.py:54-57 | the loop over the vendors stops at the first one named |
| OsRelease.Describe | src/starlight/ssh/lib/analysis/linux/cat_etc_os_release.py:52-57 | `host_model` and `host_vendor` from the pretty name |
| OsRelease.Summarise | src/starlight/ssh/lib/analysis/linux/cat_etc_os_release.py:43-61 | the host fields derived once the lines are stored |
| OsRelease.Analyze | src/starlight/ssh/lib/analysis/linux/cat_etc_os_release.py:4-63 | the method computes the analysis: guard, missing-file note, matches, then host fields |
| OsRelease.ReleasesPrefixRaises | src/starlight/ssh/lib/analysis/linux/cat_etc_os_release.py:33-39 | the first match whose storing raises decides the exception |
| OsRelease.MatchLine | src/starlight/ssh/lib/analysis/linux/cat_etc_os_release.py:32-33 | a line `KEY="value"` whose key has no `=` gives back that key and value |
| OsRelease.StoreFresh | src/starlight/ssh/lib/analysis/linux/cat_etc_os_release.py:34-39 | the first match creates `linux` and `linux.os_release` holding one entry |
| OsRelease.StoreNested | src/starlight/ssh/lib/analysis/linux/cat_etc_os_release.py:36-39 | a later match adds its entry to the nested table |
| OsRelease.ReleasesTable | src/starlight/ssh/lib/analysis/linux/cat_etc_os_release.py:33-39 | in a collection without the table, no match leaves it as it was; otherwise the table maps each key to its last line's stripped value |
| OsRelease.OsTypedFields | src/starlight/ssh/lib/analysis/linux/cat_etc_os_release.py:43-48 | `os_type` becomes `linux` unless it already holds something other than `None`, and no other key changes |
| OsRelease.SoftwareTypedFields | src/starlight/ssh/lib/analysis/linux/cat_etc_os_release.py:49-51 | `host_software_type` becomes `Linux` unless present, and no other key changes |
| OsRelease.PrettyFields | src/starlight/ssh/lib/analysis/linux/cat_etc_os_release.py:52-57 | the pretty name, when present, becomes `host_model` and its first named vendor `host_vendor` |
| OsRelease.CopiedField | src/starlight/ssh/lib/analysis/linux/cat_etc_os_release.py:58-61 | a table field, when present, is copied to its host field, and no other key changes |
| OsRelease.SummaryFields | src/starlight/ssh/lib/analysis/linux/cat_etc_os_release.py:43-61 | once the table is in place, every derived host field is its table field when present and otherwise what the collection held |
| OsRelease.SummaryAttribute | src/starlight/ssh/lib/analysis/linux/cat_etc_os_release.py:52-55 | a pretty name that is not text stops the derivation with AttributeError |
| OsRelease.SummaryWithoutTable | src/starlight/ssh/lib/analysis/linux/cat_etc_os_release.py:43-49 | without an `os_release` table only `os_type` is derived, and without `linux` nothing at all |
| SystemInfo.Analyze | ssh/lib/analysis/paloalto/show_system_info.py:18-61 | the method's result is the analysis function's: the guards first, then each matching line assigned in turn, then the PAN-OS check |
| SystemInfo.SystemInfoTable | ssh/lib/analysis/paloalto/show_system_info.py:27-59 | the analysis never raises; each key other than os_type and host_vendor holds the value of the last line that assigns it, or what the collection held before; os_type and host_vendor are set exactly when dlp, url_db and app_version are all present, and otherwise the collection is left as the lines filled it |
| SystemInfo.FirstSplit | ssh/lib/analysis/paloalto/show_system_info.py:29 | the lazy name group ends at the first colon followed by whitespace and at no earlier one; with none the line does not match |
| SystemInfo.MatchLine | ssh/lib/analysis/paloalto/show_system_info.py:29-32 | a line `name: value` whose name holds no colon yields exactly that name and that value, however much whitespace follows the colon |
| SystemInfo.FirstClock | ssh/lib/analysis/paloalto/show_system_info.py:44 | the clock search finds the leftmost `DD:DD:DD` and no earlier one; with none the clock adds nothing |
| SystemInfo.UptimeSeconds | ssh/lib/analysis/paloalto/show_system_info.py:38-49 | an uptime written `N days, HH:MM:SS` is stored as N*86400 + HH*3600 + MM*60 + SS seconds |
| SystemInfo.ShortHourUptime | ssh/lib/analysis/paloalto/show_system_info.py:44-48 | an uptime with a one-digit hour `N days, H:MM:SS` counts only its days, since the clock pattern needs two hour digits |
| SystemInfo.NoClock | ssh/lib/analysis/paloalto/show_system_info.py:44 | no two-digit clock is found in a value whose only colons belong to a one-digit-hour clock after a non-digit |
| SystemInfo.DaysOf | ssh/lib/analysis/paloalto/show_system_info.py:41-43 | a value that starts with digits followed by ` days` yields those digits as the day count |
| SystemInfo.ClockFirst | ssh/lib/analysis/paloalto/show_system_info.py:44-48 | after a colon-free prefix the first clock found is the one that follows the prefix, and it gives that clock's seconds |
| SnmpIfIndex.Analyze | ssh/lib/analysis/cisco/show_snmp_mib_ifmib_ifindex.py:20-54 | the method's result is the analysis function's: the guards, the Cisco marks, the error check, then the lines |
| SnmpIfIndex.StoreAll | ssh/lib/analysis/cisco/show_snmp_mib_ifmib_ifindex.py:40-52 | the loop over the lines stores each described interface in turn and stops at the first line whose storing raises |
| SnmpIfIndex.InterfacesPrefixRaises | ssh/lib/analysis/cisco/show_snmp_mib_ifmib_ifindex.py:40-52 | once a line raises, the lines after it change nothing: the first raising line decides the exception |
| SnmpIfIndex.FirstError | ssh/lib/analysis/cisco/show_snmp_mib_ifmib_ifindex.py:33 | the error search finds the leftmost `% Invalid` or `% Ambiguous` and no earlier one |
| SnmpIfIndex.ErrorText | ssh/lib/analysis/cisco/show_snmp_mib_ifmib_ifindex.py:33-35 | an error is found exactly when the output contains `% Invalid` or `% Ambiguous`; the recorded error starts with one of them and runs to the end of its line, without the newline |
| SnmpIfIndex.LineEnd | ssh/lib/analysis/cisco/show_snmp_mib_ifmib_ifindex.py:33 | the `.*` of the error pattern stops at the first newline or at the end of the output |
| SnmpIfIndex.FirstIndex | ssh/lib/analysis/cisco/show_snmp_mib_ifmib_ifindex.py:42 | the lazy name group ends at the first place where `: Ifindex = ` is followed by digits running to the end of the line, and at no earlier one |
| SnmpIfIndex.MatchLine | ssh/lib/analysis/cisco/show_snmp_mib_ifmib_ifindex.py:42-44 | a line `name: Ifindex = N` with N all digits yields exactly that name and N |
| SnmpIfIndex.StoreFirst | ssh/lib/analysis/cisco/show_snmp_mib_ifmib_ifindex.py:46-52 | the first interface stored into a collection without `interfaces` creates the table holding just that interface and its index |
| SnmpIfIndex.StoreExtends | ssh/lib/analysis/cisco/show_snmp_mib_ifmib_ifindex.py:49-52 | storing for an interface the collection already describes sets its index and keeps the other keys of its dictionary |
| SnmpIfIndex.StoreStep | ssh/lib/analysis/cisco/show_snmp_mib_ifmib_ifindex.py:46-52 | storing into a table built by the analysis adds the interface, or replaces its dictionary by one holding only the new index |
| SnmpIfIndex.InterfacesFresh | ssh/lib/analysis/cisco/show_snmp_mib_ifmib_ifindex.py:40-52 | from a collection without `interfaces`, storing never raises and builds exactly the table the described lines fill, or adds nothing when no line describes an interface |
| SnmpIfIndex.IfIndexTable | ssh/lib/analysis/cisco/show_snmp_mib_ifmib_ifindex.py:40-52 | from a collection without `interfaces`, each interface maps to the index of the last line describing it, and the collection is unchanged when no line describes an interface |
| SnmpIfIndex.InterfacesOnly | ssh/lib/analysis/cisco/show_snmp_mib_ifmib_ifindex.py:40-52 | the line loop changes no key but `interfaces` |
| SnmpIfIndex.StampedFields | ssh/lib/analysis/cisco/show_snmp_mib_ifmib_ifindex.py:29-30 | every answer that passes the guards marks the vendor as Cisco and stores the host-name pattern, and changes nothing else |
| SnmpIfIndex.ErrorAnswer | ssh/lib/analysis/cisco/show_snmp_mib_ifmib_ifindex.py:29-36 | output holding an error reply answers False with `_error` set to the reply's line, the vendor set to Cisco, and `interfaces` left alone |
| SnmpIfIndex.CleanAnswer | ssh/lib/analysis/cisco/show_snmp_mib_ifmib_ifindex.py:29-54 | output without an error reply answers True with the Cisco marks and no other key changed but `interfaces`, and cannot raise when the collection had no `interfaces` |
| RowNumbers.NumberedAt | api/bin/output/render_output.py:37-42 | with the numbered column, item i of the data carries the number i + 1 under the new key and is otherwise unchanged |
| RowNumbers.NumberRows | api/bin/output/render_output.py:39-42 | the numbering loop leaves each item numbered by its position counted from 1 |
| Render.Request.constructor | api/bin/output/render_output.py:1 | a call starts from the caller's own field list and data |
| Render.Request.Number | api/bin/output/render_output.py:37-42 | adding the numbered column puts 'No' first in the caller's field list and numbers every item of the caller's data in place |
| Render.Request.RenderOutput | api/bin/output/render_output.py:26-207 | the result is the rendering of the field list and data as they were at the call; the caller's field list and data are changed in place exactly when the call passes both refusals and the numbered column is asked for |
| Render.RefusesExactly | api/bin/output/render_output.py:26-35 | the call answers False exactly when there is no data or the output type, in any letter case, is none of csv, grid, html and pandas |
| Render.EmitContent | api/bin/output/render_output.py:44-205 | each supported type yields its own rendering: the HTML page, the CSV text, the grid text (or the exception the grid raises), or the data frame of the fields and data |
| Render.NumberedCell | api/bin/output/render_output.py:37-86 | in the CSV text the numbered column of item i holds i + 1 |
| Render.NumberedKeeps | api/bin/output/render_output.py:37-90 | numbering leaves every other cell of the CSV text as it was |
| Render.WriteHeader | api/bin/output/render_output.py:77-78 | the header loop writes each field name in double quotes, each followed by a comma |
| Render.WriteRow | api/bin/output/render_output.py:81-90 | the row loop appends each of the item's cells followed by a comma: empty for a missing or None value, bare for a number, quoted for anything else |
| Render.CloseRow | api/bin/output/render_output.py:79-91 | dropping the last character of a row of terminated cells leaves the cells joined by commas |
| Render.CsvStart | api/bin/output/render_output.py:77-79 | the header line ends with its last comma turned into a line feed |
| Render.CsvStep | api/bin/output/render_output.py:80-91 | each item adds its own line, closed the same way |
| Render.CsvContent | api/bin/output/render_output.py:75-91 | the CSV loops build the header line and then one line per item |
| Render.RowLinesAt | api/bin/output/render_output.py:80-91 | line i after the header is the line of item i |
| Render.CsvReadsBack | api/bin/output/render_output.py:75-91 | when no cell holds a comma or a line feed, splitting the CSV text at line feeds gives the header line, one line per item and an empty tail, and splitting each line at commas gives back its cells |
| Render.CsvLinesClean | api/bin/output/render_output.py:75-91 | with such cells no CSV line holds a line feed |
| Render.QuoteNotDoubled | api/bin/output/render_output.py:87-88 | a text value is written between double quotes as it is: a quote inside it is not doubled as section 2 of RFC 4180 asks |
| Render.ListCell | api/bin/output/render_output.py:62-67 | a list cell holds its elements with `<br>` between each two and none after the last |
| Render.WriteCell | api/bin/output/render_output.py:55-70 | one HTML cell: empty for a missing or None value, the text with line feeds turned into `<br>` for a string or number, the list's elements for a list |
| Render.WriteHtmlRow | api/bin/output/render_output.py:53-71 | one item's HTML row: the row tags around one cell per field |
| Render.WriteHeadCells | api/bin/output/render_output.py:49-50 | one `<th>` line per field, in order |
| Render.HtmlRowsStep | api/bin/output/render_output.py:52-71 | each item adds its own row to the HTML table |
| Render.HtmlContent | api/bin/output/render_output.py:44-73 | the HTML loops build the page head, one header cell per field, one row per item, then the page tail |
| Render.ScalarCellOneLine | api/bin/output/render_output.py:59-60 | the text of a string, number or bool cell holds no line feed |
| RenderGrid.Chars | api/bin/output/render_output.py:95-108 | every style has eleven frame characters; the first style named among the options wins and rounded corners are the default |
| RenderGrid.TextRows | api/bin/output/render_output.py:143-144 | a string or number cell gives one text line per line of its text, with carriage returns removed, and at least one |
| RenderGrid.PlaceRowsOf | api/bin/output/render_output.py:134-151 | the loop over a cell's text lines measures and stores each in turn, and raises when a line has no length |
| RenderGrid.PlaceCellOf | api/bin/output/render_output.py:116-151 | one cell: the field name widens its column; a list gives one line per element, text one per line; an empty list reads the stale loop variable and raises UnboundLocalError when there is none |
| RenderGrid.MeasureItem | api/bin/output/render_output.py:115-151 | the loop over the fields measures each cell of the item in turn and stops at the first that raises |
| RenderGrid.MeasureAll | api/bin/output/render_output.py:114-151 | the loop over the items measures each in turn and stops at the first that raises |
| RenderGrid.WidenStore | api/bin/output/render_output.py:120-151 | widening a column to a line's length and storing the line keeps every stored line within its column's width, and widths only grow |
| RenderGrid.PlaceRowsKeeps | api/bin/output/render_output.py:134-151 | measuring a cell's lines keeps every stored line within its width and only widens columns |
| RenderGrid.PlaceCellKeeps | api/bin/output/render_output.py:116-151 | measuring a cell keeps the fit, only widens, and leaves the column at least as wide as its name |
| RenderGrid.PlaceFieldsKeeps | api/bin/output/render_output.py:115-151 | measuring an item keeps the fit and leaves every field at least as wide as its name |
| RenderGrid.PlaceItemsKeeps | api/bin/output/render_output.py:114-151 | measuring the items keeps the fit and, once an item is measured, every field is at least as wide as its name |
| RenderGrid.MeasureFits | api/bin/output/render_output.py:110-151 | after measuring, every stored text line fits its column, and with at least one item every column is at least as wide as its field name |
| RenderGrid.FrameLines | api/bin/output/render_output.py:154-169 | the loop over the fields builds the top line, the title line, the line between items and the bottom line |
| RenderGrid.RuleWidth | api/bin/output/render_output.py:159-169 | a frame line is as long as its first character plus each column's width and three |
| RenderGrid.TitlesWidth | api/bin/output/render_output.py:163 | the title line is as long as its first bar plus each column's width and three |
| RenderGrid.FrameAligned | api/bin/output/render_output.py:154-169 | when every column covers its name, the four frame lines are equally long |
| RenderGrid.ColumnIndex | api/bin/output/render_output.py:182-183 | a cell is found for a field exactly when the item has a column for it |
| RenderGrid.MaxRows | api/bin/output/render_output.py:174-179 | an item spans as many lines as its tallest cell |
| RenderGrid.RowCount | api/bin/output/render_output.py:174-179 | the loop over the cells counts the lines of the tallest one |
| RenderGrid.WriteSlot | api/bin/output/render_output.py:183-190 | one slot: blank when the cell has no such line or the line is 'None' or empty, otherwise the text padded to the width |
| RenderGrid.SlotsStep | api/bin/output/render_output.py:182-190 | a slot whose entry or column is absent raises KeyError, otherwise it adds its text |
| RenderGrid.WriteSlots | api/bin/output/render_output.py:181-190 | the loop over an item's columns builds one text line of the item, or raises KeyError |
| RenderGrid.WriteItem | api/bin/output/render_output.py:180-191 | the loop over the lines writes every text line of the item, each ended by a line feed |
| RenderGrid.SectionStep | api/bin/output/render_output.py:173-196 | each entry adds its text lines and, with the separator option, the line between items or, for the last, the bottom line |
| RenderGrid.WriteSection | api/bin/output/render_output.py:173-196 | the loop over the entries builds the data section |
| RenderGrid.Draw | api/bin/output/render_output.py:153-201 | drawing writes the frame, the titles, the data section and the bottom line unless the separator already closed the text, then drops one final line feed |
| RenderGrid.GridContent | api/bin/output/render_output.py:93-201 | the grid text is the drawing of the measured cells, or the exception measuring raises |
| RenderGrid.FieldsOf | api/bin/output/render_output.py:182 | the columns' fields, in order |
| RenderGrid.SlotWidth | api/bin/output/render_output.py:183-190 | a slot of a fitting text line is its column's width plus three characters long |
| RenderGrid.SlotsWidth | api/bin/output/render_output.py:181-190 | a data line built from fitting text lines is as long as its first bar plus each column's width and three |
| RenderGrid.DataLineAligned | api/bin/output/render_output.py:173-191 | a data line of an item with a cell for every field, in field order and stored under its own position, is exactly as long as the frame lines |
| RenderGrid.MisplacedEntryRaises | api/bin/output/render_output.py:173-183 | the data loop looks up each item's cells under the item's position among the entries; when an earlier item stored nothing the keys shift and the grid raises KeyError |
| Text.Find | ssh/lib/analysis/cisco/show_snmp_mib_ifmib_ifindex.py:44 | a substring test finds the first place where the text occurs and no earlier one, and fails only when the text occurs nowhere |
| Text.JoinSplit | ssh/lib/analysis/paloalto/show_system_info.py:27 | splitting a text at a separator and joining the pieces with it gives the text back |
| Text.SplitPiecesFree | ssh/lib/analysis/paloalto/show_system_info.py:27 | no piece of a split holds the separator |
| Text.ParseIntToString | src/starlight/api/lib/netbox/netbox.py:369-378 | `int(str(i))` is i for every integer |
| Py.GetPutAll | ssh/lib/analysis/paloalto/show_system_info.py:55 | after a series of `collection[name] = value` assignments a key holds its last assigned value, or what it held before when never assigned |
| Py.PutTwice | ssh/lib/analysis/paloalto/show_system_info.py:55 | of two assignments to one key the second is the one that counts |
| Py.PutAllUnique | ssh/lib/analysis/paloalto/show_system_info.py:55 | assignments keep every key once, as a Python dictionary does |
| Py.PutAllEmpty | ssh/lib/analysis/paloalto/show_system_info.py:55 | assigning at least once leaves a non-empty dictionary, and assigning nothing leaves it as it was |
| Py.Put | ssh/lib/analysis/paloalto/show_system_info.py:55 | `d[k] = v` makes k hold v and leaves every other key as it was; an existing key keeps its place, a new key goes last, and keys stay unique |

## Left out

- Paramiko and the network are not modelled: `SSHClient.connect`, `get_transport`, the 'direct-tcpip' tunnel of section 7.2 of RFC 4254, `invoke_shell`, `recv`/`send`, socket time-outs and keepalives. They are replaced by the script of `Transport` and the attempt script `Env.script` of `Connect`. Past the end of its polls a scripted shell is silent and its clock reads past the time-out.
- `time.time` and `time.sleep` are not modelled: clock readings are part of the script, and no delay is modelled.
- Received bytes are treated as text: `Transport.Poll` delivers its chunks as strings, and `Connect` and `Send` take decoding to be the identity. So the model does not capture two behaviours. A multibyte character split across two reads is dropped by the lenient per-chunk decoding (ssh/bin/connect.py:183, ssh/bin/send.py:76). Invalid UTF-8 raises UnicodeDecodeError from the strict decoding at ssh/bin/connect.py:153 and 228.
- The script cannot express partial or reordered reads, `recv_ready` races, or exceptions that paramiko raises while a shell is open. Only the exception texts of a refused attempt are modelled.
- Python's `re` engine is not modelled. Each pattern the core uses is written out as an exact predicate or function over the text, and its doc comment quotes the pattern.
  - `\d` is taken to match ASCII digits only (`Text.IsDigit`, used by `AnalysisUtil.UptimeToSeconds`, `Identify.MarkerThenDigit` and the analyzers). Python's `str` patterns also accept other Unicode decimal digits, such as the Arabic-Indic digit three in an uptime text.
  - Case mapping covers ASCII letters only.
  - The 're' and '!re' operators of `filter_result` receive the search as a parameter, because their patterns come from the configuration.
- Floating-point numbers are not part of the value domain. This drops the float branch of the CSV cells and the `int()` truncation of a float in `seconds_to_summary_string`: `AnalysisUtil.SecondsToSummaryString` is given an integer number of seconds.
- `date_time_delta` receives the difference's days and seconds as integers. The subtraction of two `datetime` values is not modelled.
- Logging, `print` and `pprint` output are not modelled. The only effect of logging kept is that `filter_result` raises AttributeError when it must log a skip without a logger.
- With `show_fields` set, `convert_netbox_data` prints the flattened record and calls `sys.exit(3)`. The model stops the run at that point; the printout is not modelled.
- The 'pandas' output type returns its columns and rows as a value; the pandas `DataFrame` itself is not built.
- The job orchestration in `ssh_worker` (ssh/bin/session.py:161-299), ssh/bin/ssh_runner.py and the stub ssh/bin/interaction.py is not part of this model. It calls methods and reads globals that do not exist, and it has no scheduling loop to state.
- ssh/bin/identify.py and ssh/bin/utilities.py, which the ssh/bin `connect` and `send_command` import, are not part of this model. The src/starlight/ssh/bin identification tables and `strip_ansi` stand in for them.
- Credentials (`get_creds`, the keyring and vault modules), the Netbox and other external API clients, and the SQLite code are foreign calls and are not modelled.
- `parse_configuration` is modelled from the configuration dictionary on. Reading the configuration files (api/bin/api_core_utils.py:10-38) and `manage_modules` are file I/O and are not modelled.
- The regular-expression screen scrapers for Cisco, F5, Netscout, Opengear, CloudGenix, Riverbed, Arista, Aruba and the other Palo Alto commands are not modelled. Their behaviour rests on large backtracking expressions, `strptime` and `float()`.
- `retry_interval` is stored by the constructor but never read, so no retry delay is modelled.
- `session_object_interact_time` is not a field of the model. The constructors set it to None and `connect` and `send_command` set it to the clock, but nothing in the core reads it.
