/** `disconnect`: records the end time, closes the channel and, for a
    session through a jump host, frees the slot it held in that host's
    pool. */
module Disconnect {
  import opened Wrappers
  import opened Py
  import opened SessionPool
  import opened Session

  /** The channel after `close()`. */
  function Closed(c: Channel): Channel
    requires !c.NoChannel?
  {
    match c
    case Client(_) => Client(true)
    case Shell(_) => Shell(true)
  }

  /** What `disconnect` needs in order to return rather than raise: a
      channel to close, and the `username` attributes its log lines read
      (set by `connect`), and a pool on the jump host. */
  predicate Completes(c: Channel, username: Option<Value>, viaJumpHost: bool,
                      jumpUsername: Option<Value>, jumpHasPool: bool)
  {
    !c.NoChannel? && username.Some? && (viaJumpHost ==> jumpUsername.Some? && jumpHasPool)
  }

  /** `disconnect(self)` at time `now`. It always answers True when it
      returns; through a jump host the pool afterwards is the one
      `free_session(session_id)` leaves, and a direct session touches no
      pool. A session that never connected has no channel and raises. */
  method Disconnect(s: SshSession, now: int) returns (r: Result<bool>)
    requires s.jumpHost != null && s.jumpHost.sessionManager != null ==> s.jumpHost.sessionManager.Valid()
    modifies s`endTime, s`sessionObject, PoolFrame(s.jumpHost)
    ensures s.endTime == Some(now)
    ensures r.Ok? ==> r.value
    ensures r.Ok? <==> Completes(old(s.sessionObject), s.username, s.jumpHost != null,
                                 if s.jumpHost == null then None else s.jumpHost.username,
                                 s.jumpHost != null && s.jumpHost.sessionManager != null)
    ensures !old(s.sessionObject).NoChannel? ==> s.sessionObject == Closed(old(s.sessionObject))
    ensures old(s.sessionObject).NoChannel? ==> s.sessionObject == old(s.sessionObject)
    ensures old(s.jumpHost) != null && old(s.jumpHost.sessionManager) != null ==>
      var m := old(s.jumpHost.sessionManager);
      m.Valid() && m.queue == old(m.queue)
      && m.State() == (if r.Ok? then Free(old(m.State()), Some(old(s.sessionId))).pool else old(m.State()))
  {
    s.endTime := Some(now);
    if s.sessionObject.NoChannel? {
      return Raised("AttributeError");
    }
    s.sessionObject := Closed(s.sessionObject);
    if s.username.None? {
      return Raised("AttributeError");
    }
    if s.jumpHost != null {
      if s.jumpHost.username.None? || s.jumpHost.sessionManager == null {
        return Raised("AttributeError");
      }
      var freed := s.jumpHost.sessionManager.FreeSession(Some(s.sessionId));
    }
    return Ok(true);
  }
}
