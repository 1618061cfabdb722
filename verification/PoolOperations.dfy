/**
 What each operation of the pool does when nothing interleaves with it, as a relation between the pool's contents before
 and after.  The methods of `ProcessPool` are proved to do this, and `PoolRefinement` shows that the goroutines of
 `PoolMachine` can do it too.
 */
module PoolOperations {
  import opened Basics
  import opened PoolModel
  import opened PoolMachine

  datatype Contents = Contents(processes: map<nat, Stats>, idle: seq<nat>, snapshots: map<nat, Stats>, counters: Counters, nextId: nat)

  // ----- createProcess

  function CreatedIn(x: Contents, now: int): Contents {
    var stats := FreshStats(now);
    Contents(x.processes[x.nextId := stats], x.idle + [x.nextId], x.snapshots[x.nextId := stats],
             x.counters.(total := x.counters.total + 1, idle := x.counters.idle + 1), x.nextId + 1)
  }

  /** `k` successful calls. */
  function CreatedMany(x: Contents, k: nat, now: int): Contents {
    if k == 0 then x else CreatedIn(CreatedMany(x, k - 1, now), now)
  }

  /** The contents before and after each of a number of successful calls. */
  ghost predicate Creations(xs: seq<Contents>, now: int) {
    |xs| > 0 && forall i: nat :: i + 1 < |xs| ==> CreatedAt(xs, i, now)
  }

  ghost predicate CreatedAt(xs: seq<Contents>, i: nat, now: int)
    requires i + 1 < |xs|
  {
    xs[i + 1] == CreatedIn(xs[i], now)
  }

  lemma CreationsSnoc(xs: seq<Contents>, y: Contents, now: int)
    requires Creations(xs, now) && y == CreatedIn(xs[|xs| - 1], now)
    ensures Creations(xs + [y], now)
  {
    forall i: nat | i + 1 < |xs + [y]| ensures CreatedAt(xs + [y], i, now) {
      if i + 1 < |xs| {
        assert CreatedAt(xs, i, now);
      }
    }
  }

  /** All ids in use have been given out. */
  ghost predicate Issued(x: Contents) {
    && (forall id :: id in x.processes ==> id < x.nextId)
    && (forall id :: id in x.snapshots ==> id < x.nextId)
    && (forall id :: id in x.idle ==> id < x.nextId)
  }

  /** `m'` is `m` with the same statistics for `k` new ids. */
  ghost predicate Grown(m: map<nat, Stats>, since: nat, k: nat, stats: Stats, m': map<nat, Stats>) {
    && (forall id :: id in m' <==> id in m || since <= id < since + k)
    && (forall id :: id in m' ==> m'[id] == if id in m then m[id] else stats)
  }

  lemma GrownOneMore(m: map<nat, Stats>, since: nat, k: nat, stats: Stats, m': map<nat, Stats>)
    requires Grown(m, since, k, stats, m') && forall id :: id in m ==> id < since
    ensures since + k !in m' && Grown(m, since, k + 1, stats, m'[since + k := stats])
  {
  }

  lemma OneLarger(m: map<nat, Stats>, id: nat, stats: Stats)
    requires id !in m
    ensures |m[id := stats]| == |m| + 1
  {
    assert m[id := stats].Keys == m.Keys + {id};
  }

  function NewIds(since: nat, k: nat): seq<nat> {
    if k == 0 then [] else NewIds(since, k - 1) + [since + k - 1]
  }

  /** The new processes are fresh and the others as they were ... */
  lemma {:induction false} CreatedManyProcesses(x: Contents, k: nat, now: int)
    requires forall id :: id in x.processes ==> id < x.nextId
    ensures var y := CreatedMany(x, k, now);
            && y.nextId == x.nextId + k && |y.processes| == |x.processes| + k
            && Grown(x.processes, x.nextId, k, FreshStats(now), y.processes)
  {
    if k > 0 {
      CreatedManyProcesses(x, k - 1, now);
      var y := CreatedMany(x, k - 1, now);
      GrownOneMore(x.processes, x.nextId, k - 1, FreshStats(now), y.processes);
      OneLarger(y.processes, y.nextId, FreshStats(now));
    }
  }

  /** ... and so are the snapshots. */
  lemma {:induction false} CreatedManySnapshots(x: Contents, k: nat, now: int)
    requires forall id :: id in x.snapshots ==> id < x.nextId
    ensures var y := CreatedMany(x, k, now);
            y.nextId == x.nextId + k && Grown(x.snapshots, x.nextId, k, FreshStats(now), y.snapshots)
  {
    if k > 0 {
      CreatedManySnapshots(x, k - 1, now);
      GrownOneMore(x.snapshots, x.nextId, k - 1, FreshStats(now), CreatedMany(x, k - 1, now).snapshots);
    }
  }

  /** They are at the end of the idle list, and counted. */
  lemma {:induction false} CreatedManyIdle(x: Contents, k: nat, now: int)
    ensures var y := CreatedMany(x, k, now);
            && y.nextId == x.nextId + k
            && y.idle == x.idle + NewIds(x.nextId, k)
            && y.counters == x.counters.(total := x.counters.total + k, idle := x.counters.idle + k)
  {
    if k > 0 {
      CreatedManyIdle(x, k - 1, now);
    }
  }

  // ----- getIdleProcess and returnProcessToIdlePool

  function Claim(x: Contents): Contents {
    x.(counters := x.counters.(idle := x.counters.idle - 1, busy := x.counters.busy + 1))
  }

  /** The process taken, and the contents afterwards; `started` says whether a process could be started. */
  function Take(c: Config, x: Contents, started: bool, now: int): (Option<nat>, Contents)
    decreases |x.idle|
  {
    if x.idle == [] then
      if |x.processes| < c.maxProcesses && started then (Some(x.nextId), Claim(CreatedIn(x, now).(idle := [])))
      else (None, x)
    else if x.idle[0] in x.processes then (Some(x.idle[0]), Claim(x.(idle := x.idle[1..])))
    else Take(c, x.(idle := x.idle[1..]), started, now)
  }

  /** How many ids at the head of the idle list are no longer live. */
  function StalePrefix(idle: seq<nat>, live: set<nat>): (k: nat)
    ensures k <= |idle|
    ensures forall j :: 0 <= j < k ==> idle[j] !in live
    ensures k < |idle| ==> idle[k] in live
  {
    if idle == [] || idle[0] in live then 0 else 1 + StalePrefix(idle[1..], live)
  }

  /**
   Exactly the stale prefix of the idle list is discarded and the first live id is taken; without one at most one process
   is created, and the lookup fails only when the cap is reached or the start fails.
   */
  lemma {:induction false} TakeExact(c: Config, x: Contents, started: bool, now: int)
    ensures var k := StalePrefix(x.idle, x.processes.Keys);
            var counters := x.counters.(idle := x.counters.idle - 1, busy := x.counters.busy + 1);
            Take(c, x, started, now)
            == if k < |x.idle| then (Some(x.idle[k]), x.(idle := x.idle[k + 1..], counters := counters))
               else if |x.processes| < c.maxProcesses && started then
                 (Some(x.nextId), Contents(x.processes[x.nextId := Stats(ProcessState.Idle, now, 0, None)], [],
                                           x.snapshots[x.nextId := Stats(ProcessState.Idle, now, 0, None)],
                                           x.counters.(total := x.counters.total + 1, busy := x.counters.busy + 1), x.nextId + 1))
               else (None, x.(idle := []))
    decreases |x.idle|
  {
    if x.idle != [] && x.idle[0] !in x.processes {
      var y := x.(idle := x.idle[1..]);
      TakeExact(c, y, started, now);
      var k := StalePrefix(y.idle, y.processes.Keys);
      assert k < |y.idle| ==> y.idle[k + 1..] == x.idle[k + 2..];
    }
  }

  function ReturnedTo(x: Contents, id: nat): Contents {
    x.(idle := x.idle + [id], counters := x.counters.(idle := x.counters.idle + 1, busy := x.counters.busy - 1))
  }

  // ----- ensureMinProcesses

  function Missing(c: Config, x: Contents): nat {
    Max(0, c.minProcesses - |x.processes|)
  }

  /** One call of createProcess, which fails when the cap is reached or the process does not start. */
  function Tried(c: Config, x: Contents, started: bool, now: int): Contents {
    if |x.processes| < c.maxProcesses && started then CreatedIn(x, now) else x
  }

  /** One round of the loop for each of `starts`, which say whether the process would start. */
  function Rounds(c: Config, x: Contents, starts: seq<bool>, now: int): Contents {
    if starts == [] then x else Tried(c, Rounds(c, x, starts[..|starts| - 1], now), starts[|starts| - 1], now)
  }

  ghost predicate Refilled(c: Config, x: Contents, x': Contents, now: int) {
    exists starts :: |starts| == Missing(c, x) && x' == Rounds(c, x, starts, now)
  }

  lemma RoundsSnoc(c: Config, x: Contents, starts: seq<bool>, started: bool, now: int)
    ensures Rounds(c, x, starts + [started], now) == Tried(c, Rounds(c, x, starts, now), started, now)
  {
    assert (starts + [started])[..|starts|] == starts;
  }

  /** Whichever rounds succeed, only their number matters. */
  lemma {:induction false} RoundsCreate(c: Config, x: Contents, starts: seq<bool>, now: int) returns (k: nat)
    ensures k <= |starts| && Rounds(c, x, starts, now) == CreatedMany(x, k, now)
    decreases |starts|
  {
    if starts == [] {
      k := 0;
    } else {
      var before := starts[..|starts| - 1];
      k := RoundsCreate(c, x, before, now);
      if Rounds(c, x, starts, now) != Rounds(c, x, before, now) {
        k := k + 1;
      }
    }
  }

  /** Processes and snapshots with old ids, but for `gone`, stay as they are. */
  ghost predicate Spares(x: Contents, gone: nat, x': Contents) {
    && x.nextId <= x'.nextId && gone !in x'.processes
    && SparesIn(x.nextId, x.processes, gone, x'.processes)
    && SparesIn(x.nextId, x.snapshots, gone, x'.snapshots)
  }

  ghost predicate SparesIn(since: nat, m: map<nat, Stats>, gone: nat, m': map<nat, Stats>) {
    && (forall id :: id in m && id != gone ==> id in m' && m'[id] == m[id])
    && (forall id :: id in m' && id < since ==> id in m)
  }

  lemma RefilledKeeps(c: Config, x: Contents, x': Contents, now: int, gone: nat)
    requires Issued(x) && Refilled(c, x, x', now)
    ensures x.nextId <= x'.nextId
    ensures SparesIn(x.nextId, x.processes, gone, x'.processes) && SparesIn(x.nextId, x.snapshots, gone, x'.snapshots)
  {
    var starts :| |starts| == Missing(c, x) && x' == Rounds(c, x, starts, now);
    var k := RoundsCreate(c, x, starts, now);
    CreatedManyProcesses(x, k, now);
    CreatedManySnapshots(x, k, now);
  }

  /** What a refill adds is fresh; what was there stays. */
  lemma RefilledFresh(c: Config, x: Contents, x': Contents, now: int)
    requires Issued(x) && Refilled(c, x, x', now)
    ensures forall id :: id in x.processes ==> id in x'.processes && x'.processes[id] == x.processes[id]
    ensures forall id :: id in x'.processes && id !in x.processes ==> id >= x.nextId && x'.processes[id] == Stats(ProcessState.Idle, now, 0, None)
  {
    var starts :| |starts| == Missing(c, x) && x' == Rounds(c, x, starts, now);
    var k := RoundsCreate(c, x, starts, now);
    CreatedManyProcesses(x, k, now);
  }

  // ----- recycleProcess

  lemma {:induction false} RemoveFirstAt(ids: seq<nat>, k: nat)
    requires k < |ids| && ids[k] !in ids[..k]
    ensures RemoveFirst(ids, ids[k]) == ids[..k] + ids[k + 1..]
  {
    if k > 0 {
      assert ids[..k] == [ids[0]] + ids[1..][..k - 1];
      RemoveFirstAt(ids[1..], k - 1);
      assert ids[1..][k..] == ids[k + 1..];
    }
  }

  lemma {:induction false} RemoveFirstNone(ids: seq<nat>, id: nat)
    requires id !in ids
    ensures RemoveFirst(ids, id) == ids
  {
    if ids != [] {
      RemoveFirstNone(ids[1..], id);
    }
  }

  /** What removing a process in the given state does to the counters. */
  function Retired(k: Counters, state: ProcessState): Counters {
    k.(total := k.total - 1,
       idle := k.idle - (if state == Idle then 1 else 0),
       busy := k.busy - (if state == Busy then 1 else 0))
  }

  function RetiredFrom(x: Contents, id: nat): Contents
    requires id in x.processes
  {
    Contents(x.processes - {id}, RemoveFirst(x.idle, id), x.snapshots - {id}, Retired(x.counters, x.processes[id].state), x.nextId)
  }

  ghost predicate Recycled(c: Config, x: Contents, id: nat, x': Contents, now: int) {
    if id !in x.processes then x' == x else Refilled(c, RetiredFrom(x, id), x', now)
  }

  lemma RecycledKeeps(c: Config, x: Contents, id: nat, x': Contents, now: int)
    requires Issued(x) && id in x.processes && Recycled(c, x, id, x', now)
    ensures Spares(x, id, x')
  {
    RemoveFirstShrinks(x.idle, id);
    RefilledKeeps(c, RetiredFrom(x, id), x', now, id);
  }

  // ----- checkAndRecycleProcesses

  /** One round of the sweep. */
  ghost predicate Judged(c: Config, x: Contents, id: nat, x': Contents, now: int) {
    if ShouldRecycle(c, x.snapshots, id, now) then Recycled(c, x, id, x', now) else x' == x
  }

  /**
   Where the sweep stands: the processes of `before` outside `rest` have been judged; those in `rest`, and their
   snapshots, are as they were.
   */
  ghost predicate Swept(c: Config, before: Contents, rest: set<nat>, x: Contents, now: int) {
    && before.nextId <= x.nextId
    && (forall id :: id in before.processes && id in x.processes ==> x.processes[id] == before.processes[id])
    && (forall id :: id in rest && id in before.processes ==>
          && id in x.processes
          && (id in x.snapshots <==> id in before.snapshots)
          && (id in x.snapshots ==> x.snapshots[id] == before.snapshots[id]))
    && (forall id :: id in before.processes && id !in rest ==>
          (id in x.processes <==> !ShouldRecycle(c, before.snapshots, id, now)))
  }

  lemma JudgedSwept(c: Config, before: Contents, rest: set<nat>, x: Contents, id: nat, x': Contents, now: int)
    requires Issued(before) && Issued(x) && Swept(c, before, rest, x, now)
    requires id in rest && id in before.processes && Judged(c, x, id, x', now)
    ensures Swept(c, before, rest - {id}, x', now)
  {
    if ShouldRecycle(c, x.snapshots, id, now) {
      RecycledKeeps(c, x, id, x', now);
      SparedSwept(c, before, rest, x, id, x', now);
    }
  }

  lemma SparedSwept(c: Config, before: Contents, rest: set<nat>, x: Contents, id: nat, x': Contents, now: int)
    requires Issued(before) && Swept(c, before, rest, x, now) && Spares(x, id, x')
    requires id in rest && id in before.processes && ShouldRecycle(c, before.snapshots, id, now)
    ensures Swept(c, before, rest - {id}, x', now)
  {
  }

  ghost predicate SweptOver(c: Config, x: Contents, ids: seq<nat>, x': Contents, now: int)
    decreases |ids|
  {
    if ids == [] then x' == x
    else exists x1 :: Judged(c, x, ids[0], x1, now) && SweptOver(c, x1, ids[1..], x', now)
  }

  lemma {:induction false} SweptSnoc(c: Config, x: Contents, ids: seq<nat>, y: Contents, id: nat, y': Contents, now: int)
    requires SweptOver(c, x, ids, y, now) && Judged(c, y, id, y', now)
    ensures SweptOver(c, x, ids + [id], y', now)
    decreases |ids|
  {
    if ids == [] {
      assert SweptOver(c, y', [], y', now);
      assert ([] + [id])[1..] == [];
    } else {
      var x1 :| Judged(c, x, ids[0], x1, now) && SweptOver(c, x1, ids[1..], y, now);
      SweptSnoc(c, x1, ids[1..], y, id, y', now);
      assert (ids + [id])[1..] == ids[1..] + [id];
    }
  }

  lemma ListOfSnoc(ids: seq<nat>, all: set<nat>, rest: set<nat>, id: nat)
    requires ListOf(ids, all - rest) && id in rest && rest <= all
    ensures ListOf(ids + [id], all - (rest - {id}))
  {
  }

  /** The processes are visited in some order, and the minimum is restored at the end. */
  ghost predicate Checked(c: Config, x: Contents, x': Contents, now: int) {
    exists ids, y :: ListOf(ids, x.processes.Keys) && SweptOver(c, x, ids, y, now) && Refilled(c, y, x', now)
  }
}
