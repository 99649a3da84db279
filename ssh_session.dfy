/** `SSHSession`: the per-host session object whose fields `connect`,
    `send_command` and `disconnect` read and update, the class-wide session
    id counter, and the two releases of the constructor: the current one
    (src/starlight) normalises the command list and may give a jump host
    its own pool; the legacy one (ssh/bin) takes a slot in the pool of the
    host it connects through. */
module Session {
  import opened Wrappers
  import opened Py
  import opened SessionPool

  /** `status`: None, 'connecting', 'connected' or 'error'. */
  datatype Status = Unset | Connecting | Connected | Failed

  /** `session_object`: None, the transport client, or the interactive
      shell it opened; each of the last two may have been closed. */
  datatype Channel = NoChannel | Client(clientClosed: bool) | Shell(shellClosed: bool)

  /** `prompt`: text ('' at first, the unrecognised candidate after a
      prompt time-out) or the descriptor `id_by_prompt` built. */
  datatype PromptField = PromptText(text: string) | PromptInfo(info: Value)

  /** `itertools.count()` advanced once at class creation, so the first id
      it issues is 1; it is shared by every session. */
  class IdCounter {
    var next: nat

    constructor()
      ensures next == 1
    {
      next := 1;
    }

    /** `next(SSHSession.session_id)` */
    method Next() returns (id: nat)
      modifies this
      ensures id == old(next) && next == old(next) + 1
    {
      id := next;
      next := next + 1;
    }
  }

  /** `command_list` as the current constructor stores it: None gives [],
      a string a one-element list, a list itself; anything else raises. */
  function CommandList(v: Value): (r: Result<seq<Value>>)
    ensures r.Raised? <==> !(v.Null? || v.Str? || v.List?)
    ensures v.Null? ==> r == Ok([])
    ensures v.Str? ==> r == Ok([v])
    ensures v.List? ==> r == Ok(v.items)
  {
    match v
    case Null => Ok([])
    case Str(_) => Ok([v])
    case List(items) => Ok(items)
    case _ => Raised("TypeError")
  }

  /** `authentication` as both constructors store it: a single profile
      (a dict) is wrapped in a list, anything else is kept as given. */
  function Profiles(v: Value): (r: Value)
    ensures v.Dict? ==> r == List([v])
    ensures !v.Dict? ==> r == v
  {
    if v.Dict? then List([v]) else v
  }

  /** The pool of the host `j`, as the set of objects a slot change
      touches. */
  function PoolFrame(j: SshSession?): set<object>
    reads j
  {
    if j == null || j.sessionManager == null then {} else {j.sessionManager, j.sessionManager.slots}
  }

  class SshSession {
    var host: string
    var authentication: Value
    var port: int
    var connectionTimeout: int
    /** `session_object_timeout` */
    var sessionTimeout: int
    var retries: int
    /** `retry_interval`: stored and never read. */
    var retryInterval: int
    var compression: bool
    var vendor: Option<string>
    var keepaliveInterval: int
    var description: Option<string>
    var sessionId: int
    /** `session_object_start_time` */
    var startTime: Option<int>
    var sessionObject: Channel
    var status: Status
    /** `session_object_closed_time` */
    var closedTime: Option<int>
    /** `session_end_time`, absent (None here) until `disconnect` */
    var endTime: Option<int>
    var sshError: Option<string>
    /** `raw`: every byte received, across attempts and commands. */
    var raw: string
    var prompt: PromptField
    var history: string
    /** `jump_host`: the session this one connects through. */
    var jumpHost: SshSession?
    var taskId: Option<int>
    /** `command_list` (current release; [] for the legacy one). */
    var commandList: seq<Value>
    /** `session_manager`, absent (null) unless this host was given a
        pool. */
    var sessionManager: SessionManager?
    /** `username`, absent (None) until `connect` reads a profile. */
    var username: Option<Value>
    /** Everything written to the channel, in order. */
    var transmitted: seq<string>

    /** The fields both releases of `__init__` set the same way: the
        arguments as given (a single profile wrapped in a list), a
        keep-alive of 120 seconds, the session id drawn, and no channel,
        times, output, prompt, user or traffic yet. */
    predicate Initial(host: string, authentication: Value, port: int, connectionTimeout: int,
                      sessionTimeout: int, retries: int, retryInterval: int, compression: bool,
                      vendor: Option<string>, description: Option<string>, id: int,
                      connectVia: SshSession?)
      reads this
    {
      && this.host == host && this.authentication == Profiles(authentication)
      && this.port == port && this.connectionTimeout == connectionTimeout
      && this.sessionTimeout == sessionTimeout && this.retries == retries
      && this.retryInterval == retryInterval && this.compression == compression
      && this.vendor == vendor && this.description == description
      && keepaliveInterval == 120 && sessionId == id && jumpHost == connectVia
      && startTime == None && sessionObject == NoChannel && status == Unset
      && closedTime == None && endTime == None
      && raw == "" && prompt == PromptText("") && history == ""
      && username == None && transmitted == []
    }

    /** Every field but `session_manager` holds what it held before. */
    twostate predicate KeptButPool()
      reads this
    {
      && host == old(host) && authentication == old(authentication) && port == old(port)
      && connectionTimeout == old(connectionTimeout) && sessionTimeout == old(sessionTimeout)
      && retries == old(retries) && retryInterval == old(retryInterval)
      && compression == old(compression) && vendor == old(vendor)
      && keepaliveInterval == old(keepaliveInterval) && description == old(description)
      && sessionId == old(sessionId) && startTime == old(startTime)
      && sessionObject == old(sessionObject) && status == old(status)
      && closedTime == old(closedTime) && endTime == old(endTime) && sshError == old(sshError)
      && raw == old(raw) && prompt == old(prompt) && history == old(history)
      && jumpHost == old(jumpHost) && taskId == old(taskId) && commandList == old(commandList)
      && username == old(username) && transmitted == old(transmitted)
    }

    /** `__init__` once its arguments are checked: the fields both
        releases set the same way, no error, and the task id, command list
        and pool the release in use gives. */
    constructor(host: string, authentication: Value, port: int, connectionTimeout: int,
                sessionTimeout: int, retries: int, retryInterval: int, compression: bool,
                vendor: Option<string>, description: Option<string>, id: int,
                connectVia: SshSession?, taskId: Option<int>, commandList: seq<Value>,
                sessionManager: SessionManager?)
      ensures Initial(host, authentication, port, connectionTimeout, sessionTimeout, retries,
                      retryInterval, compression, vendor, description, id, connectVia)
      ensures sshError == None && this.taskId == taskId && this.commandList == commandList
      ensures this.sessionManager == sessionManager
    {
      this.host := host;
      this.authentication := Profiles(authentication);
      this.port := port;
      this.connectionTimeout := connectionTimeout;
      this.sessionTimeout := sessionTimeout;
      this.retries := retries;
      this.retryInterval := retryInterval;
      this.compression := compression;
      this.vendor := vendor;
      keepaliveInterval := 120;
      this.description := description;
      sessionId := id;
      startTime := None;
      sessionObject := NoChannel;
      status := Unset;
      closedTime := None;
      endTime := None;
      sshError := None;
      raw := "";
      prompt := PromptText("");
      history := "";
      jumpHost := connectVia;
      this.taskId := taskId;
      this.commandList := commandList;
      this.sessionManager := sessionManager;
      username := None;
      transmitted := [];
    }
  }

  /** The current release of `SSHSession(...)`. The id is drawn before the
      command list is checked, so a rejected command list still uses one
      up. A jump host gets a pool of its own unless the host it connects
      through already has one. */
  method NewSession(counter: IdCounter, host: string, authentication: Value, port: int,
                    connectionTimeout: int, sessionTimeout: int, retries: int, retryInterval: int,
                    compression: bool, vendor: Option<string>, description: Option<string>,
                    connectVia: SshSession?, isJumpHost: bool, commandList: Value,
                    maxSessions: int, taskId: Option<int>)
    returns (r: Result<SshSession>)
    modifies counter
    ensures counter.next == old(counter.next) + 1
    ensures r.Ok? <==> CommandList(commandList).Ok?
    ensures r.Ok? ==>
      r.value.Initial(host, authentication, port, connectionTimeout, sessionTimeout, retries,
                      retryInterval, compression, vendor, description, old(counter.next), connectVia)
    ensures r.Ok? ==>
      var s := r.value;
      fresh(s)
      && s.commandList == CommandList(commandList).value && s.taskId == taskId
      && s.sshError == None
      && (s.sessionManager != null <==> isJumpHost && (connectVia == null || connectVia.sessionManager == null))
      && (s.sessionManager != null ==>
            fresh(s.sessionManager) && s.sessionManager.Valid() && s.sessionManager.release == Current
            && s.sessionManager.State() == Fresh(maxSessions))
  {
    var id := counter.Next();
    var cl := CommandList(commandList);
    if cl.Raised? {
      return Raised(cl.exception);
    }
    var m: SessionManager? := null;
    if isJumpHost && (connectVia == null || connectVia.sessionManager == null) {
      m := new SessionManager(Current, maxSessions, DefaultSettings);
    }
    var s := new SshSession(host, authentication, port, connectionTimeout, sessionTimeout, retries,
                            retryInterval, compression, vendor, description, id, connectVia,
                            taskId, cl.value, m);
    return Ok(s);
  }

  /** The pool of the jump host `j`, which the legacy constructor first
      gives a default legacy pool of 10 when it has none; nothing else of
      `j` changes. */
  method PoolOf(j: SshSession) returns (m: SessionManager)
    requires j.sessionManager != null ==> j.sessionManager.Valid()
    modifies j
    ensures j.KeptButPool() && j.sessionManager == m && m.Valid()
    ensures old(j.sessionManager) == null ==>
      && fresh(m) && fresh(m.slots) && m.release == Legacy && m.maxSessions == 10
      && m.defaults == DefaultSettings && m.State() == Fresh(10)
    ensures old(j.sessionManager) != null ==> m == old(j.sessionManager)
  {
    if j.sessionManager == null {
      m := new SessionManager(Legacy, 10, DefaultSettings);
      j.sessionManager := m;
    } else {
      m := j.sessionManager;
    }
  }

  /** The message the legacy constructor leaves when the jump host has no
      free slot. */
  function NoSessionsAvailable(jumpHost: string): string {
    "Jump host '" + jumpHost + "' has no sessions available."
  }

  /** The legacy release of `SSHSession(...)` at time `now`. Through a
      jump host it gives that host a default (legacy) pool if it has none
      and takes a slot keyed by the new session's id. With no slot it
      records "Jump host '<host>' has no sessions available." and stops
      initialising; with a slot it logs the jump host's `username`, which
      raises AttributeError when the jump host never connected, after the
      slot has been taken. */
  method NewLegacySession(counter: IdCounter, host: string, authentication: Value, port: int,
                          connectionTimeout: int, sessionTimeout: int, retries: int,
                          retryInterval: int, compression: bool, vendor: Option<string>,
                          description: Option<string>, connectVia: SshSession?, now: int)
    returns (r: Result<SshSession>)
    requires connectVia != null && connectVia.sessionManager != null ==> connectVia.sessionManager.Valid()
    modifies counter, connectVia, PoolFrame(connectVia)
    ensures counter.next == old(counter.next) + 1
    ensures connectVia == null ==> r.Ok? && r.value.sshError == None
    ensures connectVia != null ==> connectVia.KeptButPool()
    ensures r.Ok? ==>
      r.value.Initial(host, authentication, port, connectionTimeout, sessionTimeout, retries,
                      retryInterval, compression, vendor, description, old(counter.next), connectVia)
    ensures r.Ok? ==>
      fresh(r.value) && r.value.taskId == None && r.value.commandList == [] && r.value.sessionManager == null
    ensures connectVia != null ==>
      var m := connectVia.sessionManager;
      m != null && m.Valid()
      && (old(connectVia.sessionManager) == null ==>
            fresh(m) && m.release == Legacy && m.maxSessions == 10 && m.defaults == DefaultSettings)
      && (old(connectVia.sessionManager) != null ==> m == old(connectVia.sessionManager))
      && var before := if old(connectVia.sessionManager) == null then Fresh(10)
                       else old(connectVia.sessionManager.State());
         var step := Allocate(m.release, m.maxSessions, before, Some(old(counter.next)), now);
         m.State() == step.pool
         && (step.slot == 0 ==> r.Ok? && r.value.sshError == Some(NoSessionsAvailable(connectVia.host)))
         && (step.slot != 0 ==> (r.Ok? <==> connectVia.username.Some?))
         && (step.slot != 0 && r.Ok? ==> r.value.sshError == None)
  {
    var id := counter.Next();
    var s := new SshSession(host, authentication, port, connectionTimeout, sessionTimeout, retries,
                            retryInterval, compression, vendor, description, id, connectVia,
                            None, [], null);
    if connectVia != null {
      var m := PoolOf(connectVia);
      var n := m.GetNextAvailableSession(Some(id), now);
      if n > 0 {
        if connectVia.username.None? {
          return Raised("AttributeError");
        }
      } else {
        s.sshError := Some(NoSessionsAvailable(connectVia.host));
        return Ok(s);
      }
    }
    return Ok(s);
  }
}
