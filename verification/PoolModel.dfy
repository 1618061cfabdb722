/**
 What internal/pool/python/pool.go and process.go share: configuration, process statistics, the recycling test and
 what one task execution does to a process.  Wall-clock times and durations are integers.
 */
module PoolModel {
  import opened Basics

  // ----- configuration (NewProcessPool)

  datatype Config = Config(minProcesses: int, maxProcesses: int, maxTasks: int, maxIdle: int, maxAge: int)

  const MINUTE := 60

  function Normalise(c: Config): Config {
    var min := if c.minProcesses <= 0 then 1 else c.minProcesses;
    var max := if c.maxProcesses <= 0 then 10 else c.maxProcesses;
    Config(min,
           if max < min then min else max,
           if c.maxTasks <= 0 then 100 else c.maxTasks,
           if c.maxIdle <= 0 then 5 * MINUTE else c.maxIdle,
           if c.maxAge <= 0 then 60 * MINUTE else c.maxAge)
  }

  ghost predicate Normal(c: Config) {
    && 1 <= c.minProcesses <= c.maxProcesses
    && c.maxTasks >= 1 && c.maxIdle >= 1 && c.maxAge >= 1
  }

  /** The usable configurations are exactly those normalisation can produce, and it leaves them alone. */
  lemma NormaliseExact(c: Config)
    ensures Normal(Normalise(c))
    ensures Normal(c) <==> Normalise(c) == c
  {
  }

  /** Each usable setting is kept and each other one replaced by its default; a maximum below the minimum is raised to it. */
  lemma NormaliseFields(c: Config)
    ensures var n := Normalise(c);
            && n.minProcesses == (if c.minProcesses >= 1 then c.minProcesses else 1)
            && (c.maxProcesses >= 1 && c.maxProcesses >= n.minProcesses ==> n.maxProcesses == c.maxProcesses)
            && (c.maxProcesses >= 1 && c.maxProcesses < n.minProcesses ==> n.maxProcesses == n.minProcesses)
            && (c.maxProcesses <= 0 && n.minProcesses <= 10 ==> n.maxProcesses == 10)
            && (c.maxProcesses <= 0 && n.minProcesses > 10 ==> n.maxProcesses == n.minProcesses)
            && n.maxTasks == (if c.maxTasks >= 1 then c.maxTasks else 100)
            && n.maxIdle == (if c.maxIdle >= 1 then c.maxIdle else 300)
            && n.maxAge == (if c.maxAge >= 1 then c.maxAge else 3600)
  {
  }

  // ----- processes

  datatype ProcessState = Idle | Busy | Starting | Stopped | Failed

  /** `lastTask` is None for the zero time of a process that has not completed a task. */
  datatype Stats = Stats(state: ProcessState, startTime: int, tasks: nat, lastTask: Option<int>)

  function FreshStats(now: int): Stats {
    Stats(Idle, now, 0, None)
  }

  /** shouldRecycleProcess, on the last snapshot of a process.  The zero time lies more than any idle limit back. */
  predicate Expired(c: Config, stats: Stats, now: int) {
    || (c.maxTasks > 0 && stats.tasks >= c.maxTasks)
    || (c.maxIdle > 0 && stats.state == Idle && (stats.lastTask.None? || stats.lastTask.value + c.maxIdle < now))
    || (c.maxAge > 0 && stats.startTime + c.maxAge < now)
    || stats.state == Failed
  }

  predicate ShouldRecycle(c: Config, snapshots: map<nat, Stats>, id: nat, now: int) {
    id in snapshots && Expired(c, snapshots[id], now)
  }

  /**
   With a usable configuration a process is to be recycled exactly for one of four reasons: it failed, it has done all
   its tasks, it is idle with no task or none in the last `maxIdle` seconds, or it is more than `maxAge` seconds old.
   Without a snapshot there is none.
   */
  lemma RecycleReasons(c: Config, snapshots: map<nat, Stats>, id: nat, now: int)
    requires Normal(c)
    ensures ShouldRecycle(c, snapshots, id, now) <==>
              id in snapshots
              && (|| snapshots[id].state == Failed
                  || snapshots[id].tasks >= c.maxTasks
                  || (snapshots[id].state == Idle && snapshots[id].lastTask == None)
                  || (snapshots[id].state == Idle && snapshots[id].lastTask.Some? && now - snapshots[id].lastTask.value > c.maxIdle)
                  || now - snapshots[id].startTime > c.maxAge)
  {
  }

  /** Both time limits are exclusive. */
  lemma RecycleBoundaries(c: Config, snapshots: map<nat, Stats>, id: nat, last: int, now: int)
    requires Normal(c) && id in snapshots && snapshots[id].tasks < c.maxTasks && snapshots[id].state == Idle && snapshots[id].lastTask == Some(last)
    ensures now == last + c.maxIdle && now <= snapshots[id].startTime + c.maxAge ==>
              !ShouldRecycle(c, snapshots, id, now) && ShouldRecycle(c, snapshots, id, now + 1)
    ensures now == snapshots[id].startTime + c.maxAge && now <= last + c.maxIdle ==>
              !ShouldRecycle(c, snapshots, id, now) && ShouldRecycle(c, snapshots, id, now + 1)
  {
  }

  // ----- one task on one process

  /** What the caller of ExecuteTask gets: the task id a result carries, or an error. */
  datatype Reply = Answered(taskId: string) | Fault

  /**
   The ways PythonProcess.ExecuteTask can end: a result for this very task, a failed or timed-out process, or an
   error before the task reached the process (then the statistics are left as they are).
   */
  ghost predicate Executed(taskId: string, before: Stats, after: Stats, reply: Reply) {
    || (reply == Answered(taskId)
        && exists now :: after == before.(state := Idle, tasks := before.tasks + 1, lastTask := Some(now)))
    || (reply == Fault && after == before.(state := Failed))
    || (reply == Fault && after == before)
  }
}
