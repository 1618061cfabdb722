/**
 internal/pool/python/pool.go with whole operations run without interleaving: the pool object, its idle list, process
 map and snapshots, updated in place.  A process is represented by its statistics; whether starting the process
 with a given id succeeds is a parameter, and ids are fresh numbers.
 */
module ProcessPool {
  import opened Basics
  import opened PoolModel
  import opened PoolMachine
  import opened PoolOperations

  lemma OneFewer(m: map<nat, Stats>, id: nat)
    requires id in m
    ensures |m - {id}| == |m| - 1
  {
  }

  class Pool {
    const config: Config
    var processes: map<nat, Stats>
    var idle: seq<nat>
    var snapshots: map<nat, Stats>
    var counters: Counters
    var nextId: nat
    var attempts: nat

    ghost function Now(): Contents
      reads this
    {
      Contents(processes, idle, snapshots, counters, nextId)
    }

    /** Nothing refers to an id that has not been given out, and run without interleaving every operation respects the cap. */
    ghost predicate Valid()
      reads this
    {
      && Normal(config)
      && |processes| <= config.maxProcesses
      && Issued(Now())
    }

    constructor (raw: Config)
      ensures Valid() && config == Normalise(raw)
      ensures processes == map[] && idle == [] && snapshots == map[] && counters == Counters(0, 0, 0, 0, 0)
    {
      NormaliseExact(raw);
      config := Normalise(raw);
      processes, idle, snapshots, nextId, attempts := map[], [], map[], 0, 0;
      counters := Counters(0, 0, 0, 0, 0);
    }

    /** createProcess */
    method CreateProcess(started: bool, now: int) returns (ok: bool)
      requires Valid()
      modifies this
      ensures Valid()
      ensures ok <==> |old(processes)| < config.maxProcesses && started
      ensures Now() == if ok then CreatedIn(old(Now()), now) else old(Now())
      ensures ok ==>
                var id, stats := old(nextId), Stats(Idle, now, 0, None);
                && processes == old(processes)[id := stats] && snapshots == old(snapshots)[id := stats] && idle == old(idle) + [id]
                && counters == old(counters).(total := old(counters).total + 1, idle := old(counters).idle + 1)
    {
      if |processes| >= config.maxProcesses {
        return false;
      }
      attempts := attempts + 1;
      counters := counters.(starting := counters.starting + 1);
      if !started {
        counters := counters.(starting := counters.starting - 1);
        return false;
      }
      var id := nextId;
      nextId := nextId + 1;
      var stats := FreshStats(now);
      processes := processes[id := stats];
      counters := counters.(total := counters.total + 1, idle := counters.idle + 1, starting := counters.starting - 1);
      snapshots := snapshots[id := stats];
      idle := idle + [id];
      return true;
    }

    /** Start after its goroutines: the initial processes, up to the first that cannot be created. */
    method Start(starts: nat -> bool, now: int) returns (ok: bool, ghost xs: seq<Contents>)
      requires Valid()
      modifies this
      ensures Valid()
      ensures Creations(xs, now) && xs[0] == old(Now()) && xs[|xs| - 1] == Now()
      ensures |xs| - 1 <= config.minProcesses && (ok <==> |xs| - 1 == config.minProcesses)
      ensures |processes| == |old(processes)| + |xs| - 1
      ensures forall i :: 0 <= i < |xs| - 1 ==> |xs[i].processes| < config.maxProcesses
      ensures (forall k :: starts(k)) && |old(processes)| + config.minProcesses <= config.maxProcesses ==> ok
    {
      xs := [Now()];
      for i := 0 to config.minProcesses
        invariant Valid() && |xs| == i + 1 && StartedSoFar(xs, now)
        invariant xs[0] == old(Now())
        invariant |processes| == |old(processes)| + i
      {
        ok, xs := StartOne(starts, now, xs);
        if !ok {
          return;
        }
      }
      ok := true;
    }

    /** The pool after the creations in `xs`. */
    ghost predicate StartedSoFar(xs: seq<Contents>, now: int)
      reads this
    {
      && Creations(xs, now) && xs[|xs| - 1] == Now()
      && forall i :: 0 <= i < |xs| - 1 ==> |xs[i].processes| < config.maxProcesses
    }

    /** One round of that loop. */
    method StartOne(starts: nat -> bool, now: int, ghost xs: seq<Contents>) returns (ok: bool, ghost xs': seq<Contents>)
      requires Valid() && StartedSoFar(xs, now)
      modifies this
      ensures Valid() && StartedSoFar(xs', now) && xs' == if ok then xs + [Now()] else xs
      ensures |processes| == |old(processes)| + if ok then 1 else 0
      ensures (forall k :: starts(k)) && |old(processes)| < config.maxProcesses ==> ok
    {
      ok := CreateProcess(starts(attempts), now);
      if ok {
        CreationsSnoc(xs, Now(), now);
        xs' := xs + [Now()];
      } else {
        xs' := xs;
      }
    }

    /** getIdleProcess terminates; `TakeExact` says what it takes. */
    method GetIdleProcess(started: bool, now: int) returns (r: Option<nat>)
      requires Valid()
      modifies this
      ensures Valid()
      ensures (r, Now()) == Take(config, old(Now()), started, now)
      decreases if StalePrefix(idle, processes.Keys) < |idle| then 0 else 1, |idle|
    {
      if |idle| > 0 {
        r := TakeHead(started, now);
        return;
      }
      var ok := CreateProcess(started, now);
      if !ok {
        return None;
      }
      assert idle == [old(nextId)];
      r := TakeHead(started, now);
    }

    /** The idle list is not empty. */
    method TakeHead(started: bool, now: int) returns (r: Option<nat>)
      requires Valid() && idle != []
      modifies this
      ensures Valid()
      ensures (r, Now()) == Take(config, old(Now()), started, now)
      decreases if StalePrefix(idle, processes.Keys) < |idle| then 0 else 1, |idle|, 0
    {
      var id := idle[0];
      assert forall x :: x in idle[1..] ==> x in idle;
      idle := idle[1..];
      if id in processes {
        counters := counters.(idle := counters.idle - 1, busy := counters.busy + 1);
        return Some(id);
      }
      r := GetIdleProcess(started, now);
    }

    /** returnProcessToIdlePool */
    method ReturnProcess(id: nat)
      requires Valid() && id < nextId
      modifies this`idle, this`counters
      ensures Valid()
      ensures Now() == ReturnedTo(old(Now()), id)
      ensures idle == old(idle) + [id]
      ensures counters == old(counters).(idle := old(counters).idle + 1, busy := old(counters).busy - 1)
    {
      idle := idle + [id];
      counters := counters.(idle := counters.idle + 1, busy := counters.busy - 1);
    }

    /** ensureMinProcesses: with every start succeeding it reaches the minimum, and it never passes it. */
    method EnsureMin(starts: nat -> bool, now: int)
      requires Valid()
      modifies this
      ensures Valid()
      ensures Refilled(config, old(Now()), Now(), now)
      ensures forall id :: id in old(processes) ==> id in processes && processes[id] == old(processes)[id]
      ensures forall id :: id in processes && id !in old(processes) ==> id >= old(nextId) && processes[id] == Stats(Idle, now, 0, None)
      ensures |old(processes)| <= |processes| <= Max(|old(processes)|, config.minProcesses)
      ensures (forall k :: starts(k)) ==> |processes| == Max(|old(processes)|, config.minProcesses)
    {
      var i := |processes|;
      ghost var x, tries: seq<bool> := Now(), [];
      while i < config.minProcesses
        invariant Valid()
        invariant |x.processes| <= |processes| <= i == |x.processes| + |tries| <= Max(|x.processes|, config.minProcesses)
        invariant Now() == Rounds(config, x, tries, now)
        invariant (forall k :: starts(k)) ==> |processes| == i
      {
        var ok := CreateProcess(starts(attempts), now);
        RoundsSnoc(config, x, tries, ok, now);
        i, tries := i + 1, tries + [ok];
      }
      RefilledFresh(config, x, Now(), now);
    }

    /** recycleProcess: the process goes, and the minimum is topped up. */
    method RecycleProcess(id: nat, starts: nat -> bool, now: int)
      requires Valid()
      modifies this
      ensures Valid()
      ensures Recycled(config, old(Now()), id, Now(), now)
      ensures id !in old(processes) ==> Now() == old(Now())
      ensures id in old(processes) ==> id !in processes
      ensures forall other :: other in old(processes) && other != id ==> other in processes && processes[other] == old(processes)[other]
      ensures id in old(processes) ==>
                && |old(processes)| - 1 <= |processes| <= Max(|old(processes)| - 1, config.minProcesses)
                && ((forall k :: starts(k)) ==> |processes| == Max(|old(processes)| - 1, config.minProcesses))
    {
      if id !in processes {
        return;
      }
      Remove(id);
      EnsureMin(starts, now);
      RecycledKeeps(config, old(Now()), id, Now(), now);
    }

    /** recycleProcess up to the removal of the process from the map and the statistics. */
    method Remove(id: nat)
      requires Valid() && id in processes
      modifies this
      ensures Valid() && |processes| == |old(processes)| - 1
      ensures Now() == RetiredFrom(old(Now()), id)
      ensures processes == old(processes) - {id} && snapshots == old(snapshots) - {id}
      ensures counters.total == old(counters).total - 1
      ensures counters.idle == old(counters).idle - (if old(processes)[id].state == Idle then 1 else 0)
      ensures counters.busy == old(counters).busy - (if old(processes)[id].state == Busy then 1 else 0)
      ensures counters.starting == old(counters).starting && counters.stopping == old(counters).stopping
    {
      RemoveFirstShrinks(idle, id);
      OneFewer(processes, id);
      Unlist(id);
      counters := counters.(stopping := counters.stopping + 1);
      if processes[id].state == Idle {
        counters := counters.(idle := counters.idle - 1);
      } else if processes[id].state == Busy {
        counters := counters.(busy := counters.busy - 1);
      }
      processes := processes - {id};
      counters := counters.(total := counters.total - 1, stopping := counters.stopping - 1);
      snapshots := snapshots - {id};
    }

    /** The first step of recycleProcess: the first occurrence of the id leaves the idle list. */
    method Unlist(id: nat)
      modifies this`idle
      ensures idle == RemoveFirst(old(idle), id)
      ensures id !in old(idle) ==> idle == old(idle)
      ensures id in old(idle) ==>
                exists k :: 0 <= k < |old(idle)| && old(idle)[k] == id && id !in old(idle)[..k] && idle == old(idle)[..k] + old(idle)[k + 1..]
    {
      for i := 0 to |idle|
        invariant idle == old(idle) && id !in idle[..i]
      {
        if idle[i] == id {
          RemoveFirstAt(idle, i);
          idle := idle[..i] + idle[i + 1..];
          return;
        }
      }
      RemoveFirstNone(idle, id);
    }

    /**
     checkAndRecycleProcesses, for every order of the process map: a process is gone afterwards exactly when its
     snapshot met the recycling test; the others are untouched, and with every start succeeding the pool ends with
     the kept processes or the minimum, whichever is more.
     */
    method CheckAndRecycle(starts: nat -> bool, now: int)
      requires Valid()
      modifies this
      ensures Valid()
      ensures forall id :: id in old(processes) ==>
                (id !in processes <==>
                   id in old(snapshots)
                   && (|| old(snapshots)[id].state == Failed
                       || old(snapshots)[id].tasks >= config.maxTasks
                       || (old(snapshots)[id].state == Idle
                           && (old(snapshots)[id].lastTask == None || now - old(snapshots)[id].lastTask.value > config.maxIdle))
                       || now - old(snapshots)[id].startTime > config.maxAge))
      ensures forall id :: id in old(processes) && id in processes ==> processes[id] == old(processes)[id]
      ensures (forall id :: starts(id)) ==>
                |processes| == Max(|old(processes)| - |Gone(old(processes), {}, config, old(snapshots), now)|, config.minProcesses)
      ensures (forall id :: starts(id)) ==> config.minProcesses <= |processes| <= config.maxProcesses
      ensures Checked(config, old(Now()), Now(), now)
    {
      ghost var ids := SweepAll(starts, now);
      ghost var y := Now();
      EnsureMin(starts, now);
      RefilledKeeps(config, y, Now(), now, nextId);
    }

    /** The loop over the snapshot of the process map. */
    method SweepAll(starts: nat -> bool, now: int) returns (ghost ids: seq<nat>)
      requires Valid()
      modifies this
      ensures Valid()
      ensures Swept(config, old(Now()), {}, Now(), now)
      ensures forall id :: id in old(processes) ==>
                (id !in processes <==>
                   id in old(snapshots)
                   && (|| old(snapshots)[id].state == Failed
                       || old(snapshots)[id].tasks >= config.maxTasks
                       || (old(snapshots)[id].state == Idle
                           && (old(snapshots)[id].lastTask == None || now - old(snapshots)[id].lastTask.value > config.maxIdle))
                       || now - old(snapshots)[id].startTime > config.maxAge))
      ensures Sized(|old(processes)|, |Gone(old(processes), {}, config, old(snapshots), now)|, starts)
      ensures ListOf(ids, old(processes).Keys) && SweptOver(config, old(Now()), ids, Now(), now)
    {
      ids := [];
      ghost var before := Now();
      var rest := processes.Keys;
      assert Gone(before.processes, rest, config, before.snapshots, now) == {};
      while rest != {}
        invariant Valid() && rest <= before.processes.Keys
        invariant Swept(config, before, rest, Now(), now)
        invariant Sized(|before.processes|, |Gone(before.processes, rest, config, before.snapshots, now)|, starts)
        invariant ListOf(ids, before.processes.Keys - rest) && SweptOver(config, before, ids, Now(), now)
        decreases rest
      {
        var id :| id in rest;
        ghost var y := Now();
        SweepOne(id, before, rest, starts, now);
        SweptSnoc(config, before, ids, y, id, Now(), now);
        ListOfSnoc(ids, before.processes.Keys, rest, id);
        ids := ids + [id];
        rest := rest - {id};
      }
    }

    /** One round of the sweep. */
    method SweepOne(id: nat, ghost before: Contents, ghost rest: set<nat>, starts: nat -> bool, now: int)
      requires Valid() && Issued(before) && id in rest && rest <= before.processes.Keys
      requires Swept(config, before, rest, Now(), now)
      requires Sized(|before.processes|, |Gone(before.processes, rest, config, before.snapshots, now)|, starts)
      modifies this
      ensures Valid()
      ensures Judged(config, old(Now()), id, Now(), now)
      ensures Swept(config, before, rest - {id}, Now(), now)
      ensures Sized(|before.processes|, |Gone(before.processes, rest - {id}, config, before.snapshots, now)|, starts)
    {
      GoneOneMore(before.processes, rest, id, config, before.snapshots, now);
      if ShouldRecycle(config, snapshots, id, now) {
        RecycleProcess(id, starts, now);
      }
      JudgedSwept(config, before, rest, old(Now()), id, Now(), now);
    }

    /** The pool's size when `r` of `n` processes have been recycled. */
    ghost predicate Sized(n: nat, r: nat, starts: nat -> bool)
      reads this
    {
      && |processes| <= Max(n, config.minProcesses)
      && ((forall id :: starts(id)) ==> |processes| == if r == 0 then n else Max(n - r, config.minProcesses))
    }
  }

  /** The processes the sweep has recycled when those in `rest` are still to be judged. */
  ghost function Gone(before: map<nat, Stats>, rest: set<nat>, c: Config, snapshots: map<nat, Stats>, now: int): set<nat> {
    set id | id in before && id !in rest && ShouldRecycle(c, snapshots, id, now)
  }

  lemma GoneOneMore(before: map<nat, Stats>, rest: set<nat>, id: nat, c: Config, snapshots: map<nat, Stats>, now: int)
    requires id in rest && id in before
    ensures |Gone(before, rest - {id}, c, snapshots, now)|
         == |Gone(before, rest, c, snapshots, now)| + if ShouldRecycle(c, snapshots, id, now) then 1 else 0
  {
    var small, big := Gone(before, rest, c, snapshots, now), Gone(before, rest - {id}, c, snapshots, now);
    if ShouldRecycle(c, snapshots, id, now) {
      assert big == small + {id};
    } else {
      assert big == small;
    }
  }
}
