/** The jump-host slot pool (`SessionManager`): a fixed table of numbered
    slots, each idle or allocated to a session id, and a counter of the
    allocations it has made and not yet freed.

    Two releases of the class exist and they differ in allocation only:
    the current one (src/starlight) allows allocation while the counter is
    at most the capacity and scans every slot; the legacy one (ssh/bin)
    requires the counter to be below the capacity and scans slots
    1 .. capacity - 1, so it never hands out the last slot. */
module SessionPool {
  import opened Wrappers

  datatype SlotStatus = Idle | Allocated

  /** One entry of `sessions`: the occupant's id (`None` for Python's
      None), the status and the time of allocation. */
  datatype Slot = Slot(id: Option<int>, status: SlotStatus, activity: Option<int>)

  /** `{"id": None, "status": 'idle', "activity": None}` */
  const FreeSlot := Slot(None, Idle, None)

  /** Which of the two releases of `SessionManager`. */
  datatype Release = Current | Legacy

  /** The per-pool defaults the constructor records and nothing reads. */
  datatype Defaults = Defaults(
    connectionTimeout: int,
    sessionTimeout: int,
    retries: int,
    retryInterval: int,
    compression: bool)

  /** The constructor's default arguments. */
  const DefaultSettings := Defaults(30, 180, 2, 15, false)

  /** The number of slots `range(max_sessions)` creates. */
  function Capacity(maxSessions: int): nat {
    if maxSessions < 0 then 0 else maxSessions
  }

  /** The guard of `get_next_available_session`. */
  predicate MayAllocate(release: Release, current: int, maxSessions: int) {
    match release
    case Current => current <= maxSessions
    case Legacy => current < maxSessions
  }

  /** How many slots, from slot 1 on, the allocation loop visits:
      `range(1, max_sessions + 1)` or `range(1, max_sessions)`. */
  function ScanLimit(release: Release, maxSessions: int): (n: nat)
    ensures n <= Capacity(maxSessions)
  {
    match release
    case Current => Capacity(maxSessions)
    case Legacy => if maxSessions <= 1 then 0 else maxSessions - 1
  }

  /** The table and the counter, as values. */
  datatype Pool = Pool(slots: seq<Slot>, current: int)

  /** A pool operation's answer: a slot number (0 for none) and the pool
      after it. */
  datatype Step = Step(slot: nat, pool: Pool)

  /** A freshly constructed pool of `maxSessions` slots. */
  function Fresh(maxSessions: int): (p: Pool)
    ensures |p.slots| == Capacity(maxSessions) && p.current == 0
    ensures forall i :: 0 <= i < |p.slots| ==> p.slots[i] == FreeSlot
  {
    Pool(seq(Capacity(maxSessions), _ => FreeSlot), 0)
  }

  /** The number of the first idle slot among slots i+1 .. limit, or 0. */
  function FirstIdleFrom(slots: seq<Slot>, limit: nat, i: nat): (r: nat)
    requires i <= limit <= |slots|
    ensures r == 0 <==> forall j :: i <= j < limit ==> slots[j].status != Idle
    ensures r != 0 ==>
      (i < r <= limit && slots[r - 1].status == Idle
       && forall j :: i <= j < r - 1 ==> slots[j].status != Idle)
    decreases limit - i
  {
    if i == limit then 0
    else if slots[i].status == Idle then i + 1
    else FirstIdleFrom(slots, limit, i + 1)
  }

  /** The number of the first slot whose occupant is `id`, or 0. */
  function FirstWithIdFrom(slots: seq<Slot>, id: Option<int>, i: nat): (r: nat)
    requires i <= |slots|
    ensures r == 0 <==> forall j :: i <= j < |slots| ==> slots[j].id != id
    ensures r != 0 ==>
      (i < r <= |slots| && slots[r - 1].id == id
       && forall j :: i <= j < r - 1 ==> slots[j].id != id)
    decreases |slots| - i
  {
    if i == |slots| then 0
    else if slots[i].id == id then i + 1
    else FirstWithIdFrom(slots, id, i + 1)
  }

  /** `find_session(id)` */
  function Find(p: Pool, id: Option<int>): nat {
    FirstWithIdFrom(p.slots, id, 0)
  }

  /** `get_next_available_session(id)` at time `now`. */
  function Allocate(release: Release, maxSessions: int, p: Pool, id: Option<int>, now: int): Step
    requires |p.slots| == Capacity(maxSessions)
  {
    var n := if MayAllocate(release, p.current, maxSessions)
      then FirstIdleFrom(p.slots, ScanLimit(release, maxSessions), 0) else 0;
    if n == 0 then Step(0, p)
    else Step(n, Pool(p.slots[n - 1 := Slot(id, Allocated, Some(now))], p.current + 1))
  }

  /** `free_session(id)` */
  function Free(p: Pool, id: Option<int>): Step {
    var n := Find(p, id);
    if n == 0 then Step(0, p)
    else Step(n, Pool(p.slots[n - 1 := FreeSlot], p.current - 1))
  }

  /** The number of allocated slots among the first `n`. */
  function AllocatedCount(slots: seq<Slot>): (c: nat)
    ensures c <= |slots|
  {
    if |slots| == 0 then 0
    else AllocatedCount(slots[..|slots| - 1]) + (if slots[|slots| - 1].status == Allocated then 1 else 0)
  }

  /** Idle slots are exactly the free ones, and allocated slots carry a
      time: what every operation of the class leaves behind. */
  predicate WellFormed(slots: seq<Slot>) {
    forall i :: 0 <= i < |slots| ==>
      (slots[i].status == Idle ==> slots[i] == FreeSlot)
      && (slots[i].status == Allocated ==> slots[i].activity.Some?)
  }

  /** The counter tracks the table when every occupant has an id of its
      own: ids are present and pairwise distinct on allocated slots, and
      the counter is the number of allocated slots. */
  predicate Consistent(p: Pool) {
    WellFormed(p.slots)
    && (forall i :: 0 <= i < |p.slots| && p.slots[i].status == Allocated ==> p.slots[i].id.Some?)
    && (forall i, j ::
          (0 <= i < j < |p.slots| && p.slots[i].status == Allocated && p.slots[j].status == Allocated)
          ==> p.slots[i].id != p.slots[j].id)
    && p.current == AllocatedCount(p.slots)
  }

  /** No slot has `id` as its occupant. */
  predicate Absent(p: Pool, id: Option<int>) {
    forall i :: 0 <= i < |p.slots| ==> p.slots[i].id != id
  }

  /** Allocation hands out the lowest-numbered idle slot the scan reaches,
      records the occupant and the time and counts it; it answers 0 and
      changes nothing when the guard fails or no scanned slot is idle. */
  lemma {:induction false} AllocateLowest(release: Release, maxSessions: int, p: Pool, id: Option<int>, now: int)
    requires |p.slots| == Capacity(maxSessions)
    ensures var s := Allocate(release, maxSessions, p, id, now);
      var limit := ScanLimit(release, maxSessions);
      (s.slot == 0 <==> !MayAllocate(release, p.current, maxSessions)
                        || forall j :: 0 <= j < limit ==> p.slots[j].status != Idle)
      && (s.slot == 0 ==> s.pool == p)
      && (s.slot != 0 ==>
            s.slot <= limit && p.slots[s.slot - 1].status == Idle
            && (forall j :: 0 <= j < s.slot - 1 ==> p.slots[j].status != Idle)
            && s.pool.slots == p.slots[s.slot - 1 := Slot(id, Allocated, Some(now))]
            && s.pool.current == p.current + 1)
  {
  }

  /** Freeing resets the first slot whose occupant is `id` and uncounts
      it; with no such slot it answers 0 and changes nothing. */
  lemma {:induction false} FreeFirstOccupant(p: Pool, id: Option<int>)
    ensures var s := Free(p, id);
      (s.slot == 0 <==> Absent(p, id))
      && (s.slot == 0 ==> s.pool == p)
      && (s.slot != 0 ==>
            s.slot <= |p.slots| && p.slots[s.slot - 1].id == id
            && (forall j :: 0 <= j < s.slot - 1 ==> p.slots[j].id != id)
            && s.pool.slots == p.slots[s.slot - 1 := FreeSlot]
            && s.pool.current == p.current - 1)
  {
  }

  /** Counting over a table with one slot replaced. */
  lemma {:induction false} AllocatedCountUpdate(slots: seq<Slot>, k: nat, x: Slot)
    requires k < |slots|
    ensures AllocatedCount(slots[k := x]) + (if slots[k].status == Allocated then 1 else 0)
         == AllocatedCount(slots) + (if x.status == Allocated then 1 else 0)
    decreases |slots|
  {
    var u := slots[k := x];
    assert u[..|u| - 1] == if k == |slots| - 1 then slots[..|slots| - 1]
                           else slots[..|slots| - 1][k := x];
    if k < |slots| - 1 {
      AllocatedCountUpdate(slots[..|slots| - 1], k, x);
    }
  }

  /** A table of free slots has nothing allocated. */
  lemma {:induction false} AllocatedCountFree(slots: seq<Slot>)
    requires forall i :: 0 <= i < |slots| ==> slots[i] == FreeSlot
    ensures AllocatedCount(slots) == 0
    decreases |slots|
  {
    if |slots| > 0 {
      AllocatedCountFree(slots[..|slots| - 1]);
    }
  }

  /** A new pool is consistent. */
  lemma {:induction false} FreshConsistent(maxSessions: int)
    ensures Consistent(Fresh(maxSessions))
  {
    AllocatedCountFree(Fresh(maxSessions).slots);
  }

  /** Allocating to an id that occupies no slot keeps the counter equal to
      the number of allocated slots. */
  lemma {:induction false} AllocatePreservesConsistent(release: Release, maxSessions: int, p: Pool, id: Option<int>, now: int)
    requires |p.slots| == Capacity(maxSessions) && Consistent(p)
    requires id.Some? && Absent(p, id)
    ensures Consistent(Allocate(release, maxSessions, p, id, now).pool)
  {
    var s := Allocate(release, maxSessions, p, id, now);
    if s.slot != 0 {
      AllocatedCountUpdate(p.slots, s.slot - 1, Slot(id, Allocated, Some(now)));
    }
  }

  /** Freeing an id keeps the counter equal to the number of allocated
      slots. */
  lemma {:induction false} FreePreservesConsistent(p: Pool, id: Option<int>)
    requires Consistent(p) && id.Some?
    ensures Consistent(Free(p, id).pool)
  {
    var s := Free(p, id);
    if s.slot != 0 {
      assert p.slots[s.slot - 1].status == Allocated;
      AllocatedCountUpdate(p.slots, s.slot - 1, FreeSlot);
    }
  }

  /** In a consistent pool the counter never exceeds the capacity. */
  lemma {:induction false} ConsistentBounded(maxSessions: int, p: Pool)
    requires |p.slots| == Capacity(maxSessions) && Consistent(p)
    ensures 0 <= p.current <= Capacity(maxSessions)
  {
  }

  /** Allocating a slot to a fresh id and then freeing that id gives the
      same slot back and restores the table and the counter exactly. */
  lemma {:induction false} AllocateFreeRoundTrip(release: Release, maxSessions: int, p: Pool, id: Option<int>, now: int)
    requires |p.slots| == Capacity(maxSessions) && WellFormed(p.slots)
    requires id.Some? && Absent(p, id)
    requires Allocate(release, maxSessions, p, id, now).slot != 0
    ensures var s := Allocate(release, maxSessions, p, id, now);
      Free(s.pool, id) == Step(s.slot, p)
  {
    var s := Allocate(release, maxSessions, p, id, now);
    var k := s.slot - 1;
    assert p.slots[k] == FreeSlot;
    var f := FirstWithIdFrom(s.pool.slots, id, 0);
    assert s.pool.slots[k].id == id;
    assert f == s.slot;
    assert s.pool.slots[k := FreeSlot] == p.slots;
  }

  /** The legacy release never hands out its last slot. */
  lemma {:induction false} LegacySkipsLastSlot(maxSessions: int, p: Pool, id: Option<int>, now: int)
    requires |p.slots| == Capacity(maxSessions)
    ensures Allocate(Legacy, maxSessions, p, id, now).slot < Capacity(maxSessions)
      || Allocate(Legacy, maxSessions, p, id, now).slot == 0
  {
  }

  /** A legacy pool of capacity one never allocates anything. */
  lemma {:induction false} LegacySingleSlotNeverAllocates(p: Pool, id: Option<int>, now: int)
    requires |p.slots| == 1
    ensures Allocate(Legacy, 1, p, id, now) == Step(0, p)
  {
  }

  /** The first session through a fresh jump host gets slot 1. */
  lemma {:induction false} FirstChildGetsSlotOne(release: Release, maxSessions: int, id: Option<int>, now: int)
    requires maxSessions >= 2
    ensures Allocate(release, maxSessions, Fresh(maxSessions), id, now).slot == 1
  {
    assert Fresh(maxSessions).slots[0] == FreeSlot;
  }

  /** `free_session(None)` on a fresh pool "frees" the idle slot 1, whose
      occupant is None, and drives the counter to -1: the counter tracks
      the table only when ids are present and distinct. */
  lemma {:induction false} FreeNoneOnFreshPool(maxSessions: int)
    requires maxSessions >= 1
    ensures var s := Free(Fresh(maxSessions), None);
      s.slot == 1 && s.pool.current == -1 && AllocatedCount(s.pool.slots) == 0
  {
    var p := Fresh(maxSessions);
    assert p.slots[0].id == None;
    var s := Free(p, None);
    assert s.pool.slots == p.slots;
    AllocatedCountFree(p.slots);
  }

  /** `SessionManager`: the slot table `sessions` (slot n at index n - 1),
      the counter `current_sessions` and the capacity `max_sessions`. */
  class SessionManager {
    const release: Release
    const maxSessions: int
    const defaults: Defaults
    const slots: array<Slot>
    var currentSessions: int
    /** `queue` (current release only); nothing reads it. */
    var queue: seq<int>

    function State(): Pool
      reads this, slots
    {
      Pool(slots[..], currentSessions)
    }

    ghost predicate Valid()
      reads this, slots
    {
      slots.Length == Capacity(maxSessions) && WellFormed(slots[..])
    }

    /** `SessionManager(max_sessions, ...)`: every slot free, nothing
        counted, an empty queue. */
    constructor(release: Release, maxSessions: int, defaults: Defaults)
      ensures Valid() && fresh(slots)
      ensures this.release == release && this.maxSessions == maxSessions && this.defaults == defaults
      ensures State() == Fresh(maxSessions) && queue == []
    {
      this.release := release;
      this.maxSessions := maxSessions;
      this.defaults := defaults;
      slots := new Slot[Capacity(maxSessions)](_ => FreeSlot);
      currentSessions := 0;
      queue := [];
    }

    /** `get_next_available_session(session_id)` at time `now`. */
    method GetNextAvailableSession(id: Option<int>, now: int) returns (n: nat)
      requires Valid()
      modifies this, slots
      ensures Valid() && queue == old(queue)
      ensures Step(n, State()) == Allocate(release, maxSessions, old(State()), id, now)
    {
      if MayAllocate(release, currentSessions, maxSessions) {
        var limit := ScanLimit(release, maxSessions);
        var i := 0;
        while i < limit
          invariant 0 <= i <= limit
          invariant FirstIdleFrom(slots[..], limit, 0) == FirstIdleFrom(slots[..], limit, i)
        {
          if slots[i].status == Idle {
            slots[i] := Slot(id, Allocated, Some(now));
            currentSessions := currentSessions + 1;
            return i + 1;
          }
          i := i + 1;
        }
      }
      return 0;
    }

    /** `find_session(session_id)`: the first slot whose occupant is
        `id`, or 0. */
    method FindSession(id: Option<int>) returns (n: nat)
      requires Valid()
      ensures n == Find(State(), id)
      ensures n == 0 <==> Absent(State(), id)
      ensures n != 0 ==> n <= slots.Length && slots[n - 1].id == id
    {
      var i := 0;
      while i < slots.Length
        invariant 0 <= i <= slots.Length
        invariant Find(State(), id) == FirstWithIdFrom(slots[..], id, i)
      {
        if slots[i].id == id {
          return i + 1;
        }
        i := i + 1;
      }
      return 0;
    }

    /** `free_session(session_id)` */
    method FreeSession(id: Option<int>) returns (n: nat)
      requires Valid()
      modifies this, slots
      ensures Valid() && queue == old(queue)
      ensures Step(n, State()) == Free(old(State()), id)
    {
      n := FindSession(id);
      if n > 0 {
        slots[n - 1] := FreeSlot;
        currentSessions := currentSessions - 1;
      }
    }
  }
}
