/**
 One task from beginning to end with nobody interfering: a worker gets a request, runs it, answers it, and either
 returns the process to the idle list or, when it failed, recycles it.
 */
module PoolTask {
  import opened Basics
  import opened PoolModel
  import opened PoolMachine
  import opened PoolRuns
  import opened PoolRefinement

  /** Only `t` has moved, and what is live and idle is as before, but for what `t` holds. */
  ghost predicate Apart(s: Pool, t: nat, pc: Pc, held: set<nat>, s': Pool)
    requires t < |s.threads|
  {
    && s'.threads == s.threads[t := pc] && s'.live == s.live + held && s'.idle == s.idle
    && (forall id :: id in held ==> id in s'.processes)
  }

  /** A worker takes a request and gets a new process for it. */
  lemma Fetches(c: Config, s: Pool, t: nat) returns (s': Pool)
    requires At(s, t, Waiting) && t < c.maxProcesses && |s.live| < c.maxProcesses && s.idle == []
    requires |s.replies| == |s.requests|
    ensures Alone(c, s, t, s') && Apart(s, t, Holding(s.nextId, |s.requests|), {s.nextId}, s')
    ensures |s'.replies| == |s'.requests| == |s.requests| + 1 && s'.unmatched == s.unmatched
  {
    var r := |s.requests|;
    var s1 := To(s.(requests := s.requests + ["task"], replies := s.replies + [[]]), t, Picking(r));
    WakesOn(c, s, t, s1);
    s' := To(HeadTaken(Created(s1, 0)), t, Holding(s.nextId, r));
    TakesNew(c, s1, t, r, 0);
    Then(c, s, t, s1, s');
  }

  /** The process fails and the request is answered with an error. */
  lemma Faults(c: Config, s: Pool, t: nat, id: nat, r: nat) returns (s': Pool)
    requires At(s, t, Holding(id, r)) && id in s.processes && r < |s.requests| && r < |s.replies|
    ensures Alone(c, s, t, s') && Apart(s, t, Refreshing(id), {}, s') && s'.unmatched == s.unmatched
    ensures id in s'.processes && s'.processes[id].state == Failed
  {
    var busy, failed := s.processes[id].(state := Busy), s.processes[id].(state := Failed);
    var s1 := To(s.(processes := s.processes[id := busy]), t, Running(id, r));
    var s2 := To(s1.(processes := s1.processes[id := failed]), t, Answering(id, r, Fault));
    ServesOn(c, s, t, s1);
    assert Executed(s.requests[r], busy, failed, Fault);
    ServesOn(c, s1, t, s2);
    Then(c, s, t, s1, s2);
    s' := To(s2.(replies := s2.replies[r := s2.replies[r] + [Fault]]), t, Refreshing(id));
    ServesOn(c, s2, t, s');
    Then(c, s, t, s2, s');
  }

  /** The failed process is found to be one to recycle. */
  lemma Condemns(c: Config, s: Pool, t: nat, id: nat) returns (s': Pool)
    requires At(s, t, Refreshing(id)) && id in s.live && id in s.processes && s.processes[id].state == Failed
    ensures Alone(c, s, t, s') && Apart(s, t, Retiring(id, ToWait), {}, s') && s'.unmatched == s.unmatched
    ensures s'.processes == s.processes
  {
    var s1 := To(s, t, Snapshotting(id));
    var s2 := To(s1.(snapshots := s1.snapshots[id := s1.processes[id]]), t, Judging(id));
    SettlesOn(c, s, t, s1);
    SettlesOn(c, s1, t, s2);
    Then(c, s, t, s1, s2);
    s' := To(s2, t, Retiring(id, ToWait));
    assert ShouldRecycle(c, s2.snapshots, id, 0);
    SettlesOn(c, s2, t, s');
    Then(c, s, t, s2, s');
  }

  /** From an empty pool a worker gets as far as counting no live process, with one more recycle counted in neither state. */
  lemma WorkerFails(c: Config, s: Pool, t: nat) returns (s': Pool)
    requires At(s, t, Waiting) && t < c.maxProcesses && s.live == {} && s.idle == []
    requires |s.replies| == |s.requests|
    ensures Alone(c, s, t, s') && s'.threads == s.threads[t := Recounting(ToWait)]
    ensures s'.live == {} && s'.idle == [] && s'.unmatched == s.unmatched + 1
  {
    var id, r := s.nextId, |s.requests|;
    var s1 := Fetches(c, s, t);
    var s2 := Faults(c, s1, t, id, r);
    Then(c, s, t, s1, s2);
    var s3 := Condemns(c, s2, t, id);
    Then(c, s, t, s2, s3);
    Retires(c, s3, t, id, ToWait);
    s' := To(Dropped(s3, id), t, Recounting(ToWait));
    Then(c, s, t, s3, s');
  }

  /** After its task a worker recycles a process that failed, did all its tasks or never did one, and returns one without a snapshot. */
  lemma WorkerDecides(c: Config, s: Pool, t: nat, id: nat, s': Pool)
    requires Normal(c) && At(s, t, Judging(id)) && ThreadStep(c, s, t, s')
    ensures s' == To(s, t, Retiring(id, ToWait)) || s' == To(s, t, Returning(id))
    ensures id in s.snapshots && (s.snapshots[id].state == Failed || s.snapshots[id].tasks >= c.maxTasks) ==> s' == To(s, t, Retiring(id, ToWait))
    ensures id in s.snapshots && s.snapshots[id].state == ProcessState.Idle && s.snapshots[id].lastTask == None ==> s' == To(s, t, Retiring(id, ToWait))
    ensures id !in s.snapshots ==> s' == To(s, t, Returning(id))
  {
  }

  // ----- a task that succeeds

  /** The statistics of a process after one more task. */
  function Served(before: Stats, now: int): Stats {
    Stats(ProcessState.Idle, before.startTime, before.tasks + 1, Some(now))
  }

  /** The pool with request `r` answered by process `id`. */
  function AnsweredBy(s: Pool, id: nat, r: nat, now: int): Pool
    requires id in s.processes && r < |s.requests| && r < |s.replies|
  {
    s.(processes := s.processes[id := Served(s.processes[id], now)], replies := s.replies[r := s.replies[r] + [Answered(s.requests[r])]])
  }

  /** The task runs and the answer, which carries the task's own id, is sent. */
  lemma Answers(c: Config, s: Pool, t: nat, id: nat, r: nat, now: int)
    requires At(s, t, Holding(id, r)) && id in s.processes && r < |s.requests| && r < |s.replies|
    ensures Alone(c, s, t, To(AnsweredBy(s, id, r, now), t, Refreshing(id)))
  {
    var busy, reply := s.processes[id].(state := Busy), Answered(s.requests[r]);
    var s1 := To(s.(processes := s.processes[id := busy]), t, Running(id, r));
    var s2 := To(s1.(processes := s1.processes[id := Served(busy, now)]), t, Answering(id, r, reply));
    var s3 := To(s2.(replies := s2.replies[r := s2.replies[r] + [reply]]), t, Refreshing(id));
    ServesOn(c, s, t, s1);
    assert Executed(s1.requests[r], busy, Served(busy, now), reply);
    ServesOn(c, s1, t, s2);
    Then(c, s, t, s1, s2);
    ServesOn(c, s2, t, s3);
    Then(c, s, t, s2, s3);
    assert s3 == To(AnsweredBy(s, id, r, now), t, Refreshing(id));
  }

  /** The pool with a process returned. */
  function BackIn(s: Pool, id: nat): Pool {
    s.(idle := s.idle + [id], counters := s.counters.(idle := s.counters.idle + 1, busy := s.counters.busy - 1))
  }

  lemma Returns(c: Config, s: Pool, t: nat, id: nat)
    requires At(s, t, Returning(id))
    ensures Alone(c, s, t, To(BackIn(s, id), t, Waiting))
  {
    var s1 := To(s.(idle := s.idle + [id]), t, Returned);
    SettlesOn(c, s, t, s1);
    var s2 := To(s1.(counters := s1.counters.(idle := s1.counters.idle + 1, busy := s1.counters.busy - 1)), t, Waiting);
    SettlesOn(c, s1, t, s2);
    Then(c, s, t, s1, s2);
    ToTo(BackIn(s, id), t, Returned, Waiting);
  }

  /** A process with nothing against it is kept. */
  lemma Acquits(c: Config, s: Pool, t: nat, id: nat, now: int)
    requires At(s, t, Refreshing(id)) && id in s.live && id in s.processes
    requires !Expired(c, s.processes[id], now)
    ensures Alone(c, s, t, To(s.(snapshots := s.snapshots[id := s.processes[id]]), t, Returning(id)))
  {
    var x := s.(snapshots := s.snapshots[id := s.processes[id]]);
    var s1, s2, s3 := To(s, t, Snapshotting(id)), To(x, t, Judging(id)), To(x, t, Returning(id));
    SettlesOn(c, s, t, s1);
    SettlesOn(c, s1, t, s2);
    Then(c, s, t, s1, s2);
    assert !ShouldRecycle(c, s2.snapshots, id, now);
    ToTo(x, t, Judging(id), Returning(id));
    SettlesOn(c, s2, t, s3);
    Then(c, s, t, s2, s3);
  }

  function Kept(s: Pool, id: nat): Pool
    requires id in s.processes
  {
    s.(snapshots := s.snapshots[id := s.processes[id]])
  }

  /** From the process in hand to the process returned. */
  lemma Completes(c: Config, s: Pool, t: nat, id: nat, r: nat, now: int)
    requires At(s, t, Holding(id, r)) && id in s.live && id in s.processes && r < |s.requests| && r < |s.replies|
    requires !Expired(c, Served(s.processes[id], now), now)
    ensures Alone(c, s, t, To(BackIn(Kept(AnsweredBy(s, id, r, now), id), id), t, Waiting))
  {
    var x := AnsweredBy(s, id, r, now);
    var s1 := To(x, t, Refreshing(id));
    Answers(c, s, t, id, r, now);
    Acquits(c, s1, t, id, now);
    var s2 := To(Kept(s1, id), t, Returning(id));
    Then(c, s, t, s1, s2);
    ToTo(Kept(x, id), t, Refreshing(id), Returning(id));
    Returns(c, s2, t, id);
    var s3 := To(BackIn(s2, id), t, Waiting);
    Then(c, s, t, s2, s3);
    ToTo(BackIn(Kept(x, id), id), t, Returning(id), Waiting);
  }

  function Asked(s: Pool, task: string): Pool {
    s.(requests := s.requests + [task], replies := s.replies + [[]])
  }

  lemma TakesTask(c: Config, s: Pool, t: nat, task: string)
    requires At(s, t, Waiting) && t < c.maxProcesses && s.idle != [] && s.idle[0] in s.live
    ensures Alone(c, s, t, To(HeadTaken(Asked(s, task)), t, Holding(s.idle[0], |s.requests|)))
  {
    var x := Asked(s, task);
    var s1 := To(x, t, Picking(|s.requests|));
    WakesOn(c, s, t, s1);
    TakesHead(c, s1, t, |s.requests|);
    var s2 := To(HeadTaken(s1), t, Holding(s.idle[0], |s.requests|));
    Then(c, s, t, s1, s2);
    ToTo(HeadTaken(x), t, Picking(|s.requests|), Holding(s.idle[0], |s.requests|));
  }

  /** The pool with a task served by the process at the head of the idle list. */
  function WithTask(s: Pool, task: string, now: int): Pool
    requires s.idle != [] && s.idle[0] in s.processes
  {
    var id := s.idle[0];
    var stats := Stats(ProcessState.Idle, s.processes[id].startTime, s.processes[id].tasks + 1, Some(now));
    s.(requests := s.requests + [task], replies := s.replies + [[Answered(task)]],
       processes := s.processes[id := stats], snapshots := s.snapshots[id := stats], idle := s.idle[1..] + [id])
  }

  lemma TaskAddsUp(s: Pool, task: string, now: int)
    requires s.idle != [] && s.idle[0] in s.processes && |s.replies| == |s.requests|
    ensures BackIn(Kept(AnsweredBy(HeadTaken(Asked(s, task)), s.idle[0], |s.requests|, now), s.idle[0]), s.idle[0]) == WithTask(s, task, now)
  {
    assert [] + [Answered(task)] == [Answered(task)];
    assert (s.replies + [[]])[|s.requests| := [Answered(task)]] == s.replies + [[Answered(task)]];
  }

  /**
   A request is answered with its own task id, exactly once, by the process at the head of the idle list, which ends at
   the tail with one more task; the counters are as before.
   */
  lemma WorkerServes(c: Config, s: Pool, t: nat, task: string, now: int)
    requires Normal(c) && At(s, t, Waiting) && t < c.maxProcesses && |s.replies| == |s.requests|
    requires s.idle != [] && s.idle[0] in s.live && s.idle[0] in s.processes
    requires s.processes[s.idle[0]].tasks + 1 < c.maxTasks && now <= s.processes[s.idle[0]].startTime + c.maxAge
    ensures var id := s.idle[0];
            var stats := Stats(ProcessState.Idle, s.processes[id].startTime, s.processes[id].tasks + 1, Some(now));
            Alone(c, s, t, s.(requests := s.requests + [task], replies := s.replies + [[Answered(task)]],
                              processes := s.processes[id := stats], snapshots := s.snapshots[id := stats], idle := s.idle[1..] + [id]))
  {
    var id, r := s.idle[0], |s.requests|;
    TakesTask(c, s, t, task);
    var x := HeadTaken(Asked(s, task));
    var s1 := To(x, t, Holding(id, r));
    Completes(c, s1, t, id, r, now);
    var s2 := To(BackIn(Kept(AnsweredBy(s1, id, r, now), id), id), t, Waiting);
    Then(c, s, t, s1, s2);
    TaskAddsUp(s, task, now);
    ToTo(WithTask(s, task, now), t, Holding(id, r), Waiting);
    assert To(WithTask(s, task, now), t, Waiting) == WithTask(s, task, now);
  }
}
