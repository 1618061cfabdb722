/**
 Every interleaving of the pool's goroutines (internal/pool/python/pool.go): the workers, and one control goroutine
 that first creates the initial processes (Start) and then runs the monitor.  Each region under one lock is one
 step; between two steps of one goroutine the others may do anything.

 Process ids are fresh numbers.  `processes` keeps the statistics of every process ever started, since goroutines
 hold references to processes the pool has already dropped; `live` is the key set of the pool's process map.
 */
module PoolMachine {
  import opened Basics
  import opened PoolModel

  datatype Counters = Counters(total: int, idle: int, busy: int, starting: int, stopping: int)

  /** Where to go on after recycling: back to waiting, or to the rest of the monitor's sweep. */
  datatype After = ToWait | ToSweep(rest: seq<nat>)

  /** Why a process is being created. */
  datatype Why = ForTask(request: nat) | Refill(left: nat, after: After) | Boot(left: nat)

  /** The next step of a goroutine; `r` is the index of the request it serves. */
  datatype Pc =
    | Waiting
    // getIdleProcess
    | Picking(r: nat)
    | Picked(id: nat, r: nat)
    | Claimed(id: nat, r: nat)
    // the task itself
    | Holding(id: nat, r: nat)
    | Running(id: nat, r: nat)
    | Answering(id: nat, r: nat, reply: Reply)
    | Refusing(r: nat)
    // updateProcessStats, shouldRecycleProcess, returnProcessToIdlePool
    | Refreshing(id: nat)
    | Snapshotting(id: nat)
    | Judging(id: nat)
    | Returning(id: nat)
    | Returned
    // createProcess
    | Checking(why: Why)
    | Admitted(why: Why)
    | Launching(why: Why)
    | Launched(id: nat, why: Why)
    | Inserted(id: nat, why: Why)
    | Counted(id: nat, why: Why)
    | Refilling(left: nat, after: After)
    | Booting(left: nat)
    // recycleProcess
    | Retiring(id: nat, after: After)
    | Unlisting(id: nat, after: After)
    | Tallying(id: nat, after: After)
    | Retallying(id: nat, after: After)
    | Stopping(id: nat, matched: bool, after: After)
    | Deleting(id: nat, matched: bool, after: After)
    | Closing(id: nat, matched: bool, after: After)
    | Recounting(after: After)
    // checkAndRecycleProcesses
    | Sweeping(rest: seq<nat>)
    | Halted

  /**
   `requests` are the task ids taken from the task queue and `replies` what was sent on the channel of each.
   `unmatched` counts completed recycles that decremented neither Idle nor Busy; `repeats` counts deletions of a
   process that was no longer in the map.
   */
  datatype Pool = Pool(processes: map<nat, Stats>, live: set<nat>, idle: seq<nat>, counters: Counters,
                       snapshots: map<nat, Stats>, threads: seq<Pc>, nextId: nat,
                       requests: seq<string>, replies: seq<seq<Reply>>,
                       unmatched: nat, repeats: nat)

  function To(s: Pool, t: nat, pc: Pc): Pool
    requires t < |s.threads|
  {
    s.(threads := s.threads[t := pc])
  }

  function Resume(after: After): Pc {
    match after
    case ToWait => Waiting
    case ToSweep(rest) => Sweeping(rest)
  }

  /** Where a goroutine goes when createProcess fails. */
  function Failing(why: Why): Pc {
    match why
    case ForTask(r) => Refusing(r)
    case Refill(left, after) => Refilling(left, after)
    case Boot(_) => Halted
  }

  /** Where it goes when createProcess succeeds. */
  function Succeeding(why: Why): Pc {
    match why
    case ForTask(r) => Picking(r)
    case Refill(left, after) => Refilling(left, after)
    case Boot(left) => Booting(left)
  }

  function RemoveFirst(s: seq<nat>, id: nat): seq<nat> {
    if s == [] then []
    else if s[0] == id then s[1..]
    else [s[0]] + RemoveFirst(s[1..], id)
  }

  lemma {:induction false} RemoveFirstShrinks(ids: seq<nat>, id: nat)
    ensures forall x :: x in RemoveFirst(ids, id) ==> x in ids
  {
    if ids != [] {
      RemoveFirstShrinks(ids[1..], id);
    }
  }

  ghost predicate ListOf(ids: seq<nat>, live: set<nat>) {
    && (forall i, j :: 0 <= i < j < |ids| ==> ids[i] != ids[j])
    && (forall id :: id in ids <==> id in live)
  }

  ghost predicate Init(c: Config, s: Pool)
    requires Normal(c)
  {
    && s.processes == map[] && s.live == {} && s.idle == [] && s.counters == Counters(0, 0, 0, 0, 0)
    && s.snapshots == map[] && s.nextId == 0 && s.requests == [] && s.replies == []
    && s.unmatched == 0 && s.repeats == 0
    && |s.threads| == c.maxProcesses + 1
    && (forall t :: 0 <= t < c.maxProcesses ==> s.threads[t] == Waiting)
    && s.threads[c.maxProcesses] == Booting(c.minProcesses)
  }

  // ----- the steps, one predicate for each phase of a goroutine

  /** getIdleProcess, the task, and the reply. */
  ghost predicate ServeStep(s: Pool, t: nat, s': Pool)
    requires t < |s.threads|
  {
    match s.threads[t]
    case Picking(r) =>
      if s.idle != [] then s' == To(s.(idle := s.idle[1..]), t, Picked(s.idle[0], r))
      else s' == To(s, t, Checking(ForTask(r)))
    case Picked(id, r) =>
      s' == To(s, t, if id in s.live then Claimed(id, r) else Picking(r))
    case Claimed(id, r) =>
      s' == To(s.(counters := s.counters.(idle := s.counters.idle - 1, busy := s.counters.busy + 1)), t, Holding(id, r))
    case Holding(id, r) =>
      id in s.processes && s' == To(s.(processes := s.processes[id := s.processes[id].(state := Busy)]), t, Running(id, r))
    case Running(id, r) =>
      id in s.processes && r < |s.requests|
      && exists after, reply ::
           && Executed(s.requests[r], s.processes[id], after, reply)
           && s' == To(s.(processes := s.processes[id := after]), t, Answering(id, r, reply))
    case Answering(id, r, reply) =>
      r < |s.replies| && s' == To(s.(replies := s.replies[r := s.replies[r] + [reply]]), t, Refreshing(id))
    case Refusing(r) =>
      r < |s.replies| && s' == To(s.(replies := s.replies[r := s.replies[r] + [Fault]]), t, Waiting)
    case _ => false
  }

  /** After the reply: the snapshot, the recycling test, and the way back to the idle list. */
  ghost predicate SettleStep(c: Config, s: Pool, t: nat, s': Pool)
    requires t < |s.threads|
  {
    match s.threads[t]
    case Refreshing(id) =>
      s' == To(s, t, if id in s.live then Snapshotting(id) else Judging(id))
    case Snapshotting(id) =>
      id in s.processes && s' == To(s.(snapshots := s.snapshots[id := s.processes[id]]), t, Judging(id))
    case Judging(id) =>
      exists now :: s' == To(s, t, if ShouldRecycle(c, s.snapshots, id, now) then Retiring(id, ToWait) else Returning(id))
    case Returning(id) =>
      s' == To(s.(idle := s.idle + [id]), t, Returned)
    case Returned =>
      s' == To(s.(counters := s.counters.(idle := s.counters.idle + 1, busy := s.counters.busy - 1)), t, Waiting)
    case _ => false
  }

  /** createProcess until the process is started, and the loops around it. */
  ghost predicate CreateStep(c: Config, s: Pool, t: nat, s': Pool)
    requires t < |s.threads|
  {
    match s.threads[t]
    case Checking(why) =>
      s' == To(s, t, if |s.live| >= c.maxProcesses then Failing(why) else Admitted(why))
    case Admitted(why) =>
      s' == To(s.(counters := s.counters.(starting := s.counters.starting + 1)), t, Launching(why))
    case Refilling(left, after) =>
      s' == To(s, t, if left > 0 then Checking(Refill(left - 1, after)) else Resume(after))
    case Booting(left) =>
      s' == To(s, t, if left > 0 then Checking(Boot(left - 1)) else Waiting)
    case _ => false
  }

  /** Starting the Python process, which may fail. */
  ghost predicate LaunchStep(s: Pool, t: nat, s': Pool)
    requires t < |s.threads|
  {
    match s.threads[t]
    case Launching(why) =>
      || s' == To(s.(counters := s.counters.(starting := s.counters.starting - 1)), t, Failing(why))
      || (exists now ::
            s' == To(s.(processes := s.processes[s.nextId := FreshStats(now)], nextId := s.nextId + 1), t, Launched(s.nextId, why)))
    case _ => false
  }

  /** createProcess from the start of the process on: the process map, the counters, the idle list. */
  ghost predicate EnrolStep(s: Pool, t: nat, s': Pool)
    requires t < |s.threads|
  {
    match s.threads[t]
    case Launched(id, why) =>
      s' == To(s.(live := s.live + {id}), t, Inserted(id, why))
    case Inserted(id, why) =>
      id in s.processes
      && s' == To(s.(counters := s.counters.(total := s.counters.total + 1, idle := s.counters.idle + 1, starting := s.counters.starting - 1),
                     snapshots := s.snapshots[id := s.processes[id]]), t, Counted(id, why))
    case Counted(id, why) =>
      s' == To(s.(idle := s.idle + [id]), t, Succeeding(why))
    case _ => false
  }

  /** The monitor's sweep, the first half of recycleProcess, and ensureMinProcesses. */
  ghost predicate SweepStep(c: Config, s: Pool, t: nat, s': Pool)
    requires t < |s.threads|
  {
    match s.threads[t]
    case Sweeping(rest) =>
      if rest == [] then s' == To(s, t, Recounting(ToWait))
      else exists now :: s' == To(s, t, if ShouldRecycle(c, s.snapshots, rest[0], now) then Retiring(rest[0], ToSweep(rest[1..])) else Sweeping(rest[1..]))
    case Retiring(id, after) =>
      s' == To(s, t, if id in s.live then Unlisting(id, after) else Resume(after))
    case Unlisting(id, after) =>
      s' == To(s.(idle := RemoveFirst(s.idle, id)), t, Tallying(id, after))
    case Recounting(after) =>
      s' == To(s, t, Refilling(Max(0, c.minProcesses - |s.live|), after))
    case _ => false
  }

  /** recycleProcess from its statistics on. */
  ghost predicate RetireStep(s: Pool, t: nat, s': Pool)
    requires t < |s.threads|
  {
    match s.threads[t]
    case Tallying(id, after) =>
      id in s.processes
      && if s.processes[id].state == Idle
         then s' == To(s.(counters := s.counters.(stopping := s.counters.stopping + 1, idle := s.counters.idle - 1)), t, Stopping(id, true, after))
         else s' == To(s.(counters := s.counters.(stopping := s.counters.stopping + 1)), t, Retallying(id, after))
    case Retallying(id, after) =>
      id in s.processes
      && if s.processes[id].state == Busy
         then s' == To(s.(counters := s.counters.(busy := s.counters.busy - 1)), t, Stopping(id, true, after))
         else s' == To(s, t, Stopping(id, false, after))
    case Stopping(id, matched, after) =>
      id in s.processes && s' == To(s.(processes := s.processes[id := s.processes[id].(state := Stopped)]), t, Deleting(id, matched, after))
    case Deleting(id, matched, after) =>
      s' == To(s.(live := s.live - {id}, repeats := s.repeats + if id in s.live then 0 else 1), t, Closing(id, matched, after))
    case Closing(id, matched, after) =>
      s' == To(s.(counters := s.counters.(total := s.counters.total - 1, stopping := s.counters.stopping - 1),
                  snapshots := s.snapshots - {id},
                  unmatched := s.unmatched + if matched then 0 else 1), t, Recounting(after))
    case _ => false
  }

  /** A worker takes a request from the task queue; the control goroutine starts a sweep. */
  ghost predicate WakeStep(c: Config, s: Pool, t: nat, s': Pool)
    requires t < |s.threads|
  {
    && s.threads[t] == Waiting
    && if t < c.maxProcesses then
         exists task :: s' == To(s.(requests := s.requests + [task], replies := s.replies + [[]]), t, Picking(|s.requests|))
       else
         exists ids :: ListOf(ids, s.live) && s' == To(s, t, Sweeping(ids))
  }

  ghost predicate Next(c: Config, s: Pool, s': Pool) {
    exists t: nat :: t < |s.threads| && ThreadStep(c, s, t, s')
  }

  ghost predicate ThreadStep(c: Config, s: Pool, t: nat, s': Pool)
    requires t < |s.threads|
  {
    || WakeStep(c, s, t, s')
    || ServeStep(s, t, s')
    || SettleStep(c, s, t, s')
    || CreateStep(c, s, t, s')
    || LaunchStep(s, t, s')
    || EnrolStep(s, t, s')
    || SweepStep(c, s, t, s')
    || RetireStep(s, t, s')
  }

  ghost predicate Run(c: Config, trace: seq<Pool>) {
    && Normal(c)
    && |trace| > 0
    && Init(c, trace[0])
    && forall k: nat :: k + 1 < |trace| ==> StepAt(c, trace, k)
  }

  ghost predicate StepAt(c: Config, trace: seq<Pool>, k: nat)
    requires k + 1 < |trace|
  {
    Next(c, trace[k], trace[k + 1])
  }
}
