/**
 The operations of `PoolOperations`, which the methods of `ProcessPool` are proved to perform, can be done in `PoolMachine`
 by one goroutine while nobody else moves.
 */
module PoolRefinement {
  import opened Basics
  import opened PoolModel
  import opened PoolMachine
  import opened PoolOwnership
  import opened PoolOperations
  import opened PoolRuns

  /** What the pool holds in a state of the machine. */
  ghost predicate Mirrors(s: Pool, x: Contents) {
    && x.processes.Keys == s.live
    && (forall id :: id in s.live ==> id in s.processes && id < s.nextId && x.processes[id] == s.processes[id])
    && x.idle == s.idle && x.snapshots == s.snapshots && x.counters == s.counters && x.nextId == s.nextId
  }

  /** Every reachable state has its contents. */
  lemma HasContents(c: Config, trace: seq<Pool>, i: nat) returns (x: Contents)
    requires Run(c, trace) && i < |trace|
    ensures Mirrors(trace[i], x)
  {
    RunOwned(c, trace, i);
    var s := trace[i];
    x := Contents(map id | id in s.live && id in s.processes :: s.processes[id], s.idle, s.snapshots, s.counters, s.nextId);
    assert x.processes.Keys == s.live;
  }

  lemma SameSize(s: Pool, x: Contents)
    requires Mirrors(s, x)
    ensures |x.processes| == |s.live|
  {
    assert |x.processes| == |x.processes.Keys|;
  }

  ghost predicate At(s: Pool, t: nat, pc: Pc) {
    t < |s.threads| && s.threads[t] == pc
  }

  lemma ToTo(s: Pool, t: nat, a: Pc, b: Pc)
    requires t < |s.threads|
    ensures To(To(s, t, a), t, b) == To(s, t, b)
  {
  }

  // ----- createProcess

  /** The pool with one more process. */
  function Created(s: Pool, now: int): Pool {
    var id, stats := s.nextId, FreshStats(now);
    s.(processes := s.processes[id := stats], live := s.live + {id}, idle := s.idle + [id], snapshots := s.snapshots[id := stats],
       counters := s.counters.(total := s.counters.total + 1, idle := s.counters.idle + 1), nextId := id + 1)
  }

  lemma CreatedMirrors(s: Pool, x: Contents, now: int)
    requires Mirrors(s, x)
    ensures Mirrors(Created(s, now), CreatedIn(x, now)) && |Created(s, now).live| == |s.live| + 1
  {
    assert CreatedIn(x, now).processes.Keys == x.processes.Keys + {x.nextId};
  }

  function StartingOne(s: Pool): Pool {
    s.(counters := s.counters.(starting := s.counters.starting + 1))
  }

  /** A goroutine passes the check against the cap. */
  lemma Passes(c: Config, s: Pool, t: nat, why: Why)
    requires At(s, t, Checking(why)) && |s.live| < c.maxProcesses
    ensures Alone(c, s, t, To(StartingOne(s), t, Launching(why)))
  {
    var s1 := To(s, t, Admitted(why));
    var s2 := To(StartingOne(s1), t, Launching(why));
    CreatesOn(c, s, t, s1);
    CreatesOn(c, s1, t, s2);
    Then(c, s, t, s1, s2);
    ToTo(StartingOne(s), t, Admitted(why), Launching(why));
  }

  function Entered(s: Pool, now: int): Pool {
    s.(processes := s.processes[s.nextId := FreshStats(now)], live := s.live + {s.nextId}, nextId := s.nextId + 1)
  }

  /** It starts the process and puts it into the map. */
  lemma Enters(c: Config, s: Pool, t: nat, why: Why, now: int)
    requires At(s, t, Launching(why))
    ensures Alone(c, s, t, To(Entered(s, now), t, Inserted(s.nextId, why)))
  {
    var s1 := To(s.(processes := s.processes[s.nextId := FreshStats(now)], nextId := s.nextId + 1), t, Launched(s.nextId, why));
    var s2 := To(s1.(live := s1.live + {s.nextId}), t, Inserted(s.nextId, why));
    LaunchesOn(c, s, t, s1);
    EnrolsOn(c, s1, t, s2);
    Then(c, s, t, s1, s2);
    ToTo(Entered(s, now), t, Launched(s.nextId, why), Inserted(s.nextId, why));
  }

  function Registered(s: Pool, id: nat): Pool
    requires id in s.processes
  {
    s.(counters := s.counters.(total := s.counters.total + 1, idle := s.counters.idle + 1, starting := s.counters.starting - 1),
       snapshots := s.snapshots[id := s.processes[id]], idle := s.idle + [id])
  }

  /** It counts the process and puts it onto the idle list. */
  lemma Registers(c: Config, s: Pool, t: nat, id: nat, why: Why)
    requires At(s, t, Inserted(id, why)) && id in s.processes
    ensures Alone(c, s, t, To(Registered(s, id), t, Succeeding(why)))
  {
    var s1 := To(Registered(s, id).(idle := s.idle), t, Counted(id, why));
    var s2 := To(s1.(idle := s1.idle + [id]), t, Succeeding(why));
    EnrolsOn(c, s, t, s1);
    EnrolsOn(c, s1, t, s2);
    Then(c, s, t, s1, s2);
    ToTo(Registered(s, id), t, Counted(id, why), Succeeding(why));
  }

  /** createProcess succeeds. */
  lemma Creates(c: Config, s: Pool, t: nat, why: Why, now: int)
    requires At(s, t, Checking(why)) && |s.live| < c.maxProcesses
    ensures Alone(c, s, t, To(Created(s, now), t, Succeeding(why)))
  {
    var s1 := To(StartingOne(s), t, Launching(why));
    var s2 := To(Entered(s1, now), t, Inserted(s.nextId, why));
    var s3 := To(Registered(s2, s.nextId), t, Succeeding(why));
    Passes(c, s, t, why);
    Enters(c, s1, t, why, now);
    Then(c, s, t, s1, s2);
    Registers(c, s2, t, s.nextId, why);
    Then(c, s, t, s2, s3);
    assert s3 == To(Created(s, now), t, Succeeding(why));
  }

  /** createProcess fails: the cap is reached or the process does not start. */
  lemma Refuses(c: Config, s: Pool, t: nat, why: Why)
    requires At(s, t, Checking(why))
    ensures Alone(c, s, t, To(s, t, Failing(why)))
  {
    if |s.live| >= c.maxProcesses {
      CreatesOn(c, s, t, To(s, t, Failing(why)));
    } else {
      var s1 := To(StartingOne(s), t, Launching(why));
      Passes(c, s, t, why);
      LaunchesOn(c, s1, t, To(s, t, Failing(why)));
      Then(c, s, t, s1, To(s, t, Failing(why)));
    }
  }

  // ----- ensureMinProcesses

  /** A round of the loop that succeeds. */
  lemma RoundCreates(c: Config, s: Pool, t: nat, n: nat, after: After, now: int)
    requires n > 0 && At(s, t, Refilling(n, after)) && |s.live| < c.maxProcesses
    ensures Alone(c, s, t, To(Created(s, now), t, Refilling(n - 1, after)))
  {
    var why := Refill(n - 1, after);
    var s1 := To(s, t, Checking(why));
    var s2 := To(Created(s1, now), t, Refilling(n - 1, after));
    CreatesOn(c, s, t, s1);
    Creates(c, s1, t, why, now);
    Then(c, s, t, s1, s2);
    ToTo(Created(s, now), t, Checking(why), Refilling(n - 1, after));
  }

  /** A round that fails. */
  lemma RoundFails(c: Config, s: Pool, t: nat, n: nat, after: After)
    requires n > 0 && At(s, t, Refilling(n, after))
    ensures Alone(c, s, t, To(s, t, Refilling(n - 1, after)))
  {
    var why := Refill(n - 1, after);
    var s1 := To(s, t, Checking(why));
    CreatesOn(c, s, t, s1);
    Refuses(c, s1, t, why);
    Then(c, s, t, s1, To(s1, t, Refilling(n - 1, after)));
    ToTo(s, t, Checking(why), Refilling(n - 1, after));
  }

  /** One round, whether or not it succeeds. */
  lemma RoundWhole(c: Config, s: Pool, t: nat, n: nat, after: After, x: Contents, started: bool, now: int) returns (s': Pool)
    requires Mirrors(s, x) && n > 0 && At(s, t, Refilling(n, after))
    ensures Alone(c, s, t, s') && At(s', t, Refilling(n - 1, after)) && Mirrors(s', Tried(c, x, started, now))
  {
    SameSize(s, x);
    if |s.live| < c.maxProcesses && started {
      RoundCreates(c, s, t, n, after, now);
      CreatedMirrors(s, x, now);
      s' := To(Created(s, now), t, Refilling(n - 1, after));
    } else {
      RoundFails(c, s, t, n, after);
      s' := To(s, t, Refilling(n - 1, after));
    }
  }

  lemma {:induction false} RoundsWhole(c: Config, s: Pool, t: nat, n: nat, after: After, x: Contents, starts: seq<bool>, now: int) returns (s': Pool)
    requires Mirrors(s, x) && At(s, t, Refilling(n + |starts|, after)) && starts != []
    ensures Alone(c, s, t, s') && At(s', t, Refilling(n, after)) && Mirrors(s', Rounds(c, x, starts, now))
    decreases |starts|
  {
    var before, last := starts[..|starts| - 1], starts[|starts| - 1];
    if before == [] {
      s' := RoundWhole(c, s, t, n + 1, after, x, last, now);
    } else {
      var s1 := RoundsWhole(c, s, t, n + 1, after, x, before, now);
      s' := RoundsOneMore(c, s, t, s1, n, after, Rounds(c, x, before, now), last, now);
    }
  }

  lemma RoundsOneMore(c: Config, s: Pool, t: nat, s1: Pool, n: nat, after: After, y: Contents, started: bool, now: int) returns (s': Pool)
    requires Alone(c, s, t, s1) && Mirrors(s1, y) && At(s1, t, Refilling(n + 1, after))
    ensures Alone(c, s, t, s') && At(s', t, Refilling(n, after)) && Mirrors(s', Tried(c, y, started, now))
  {
    s' := RoundWhole(c, s1, t, n + 1, after, y, started, now);
    Then(c, s, t, s1, s');
  }

  lemma EndsRefill(c: Config, s: Pool, t: nat, after: After) returns (s': Pool)
    requires At(s, t, Refilling(0, after))
    ensures Alone(c, s, t, s') && s' == To(s, t, Resume(after))
  {
    s' := To(s, t, Resume(after));
    CreatesOn(c, s, t, s');
  }

  lemma RefillsWhole(c: Config, s: Pool, t: nat, after: After, x: Contents, starts: seq<bool>, now: int) returns (s': Pool)
    requires Mirrors(s, x) && At(s, t, Refilling(|starts|, after))
    ensures Alone(c, s, t, s') && At(s', t, Resume(after)) && Mirrors(s', Rounds(c, x, starts, now))
  {
    if starts == [] {
      s' := EndsRefill(c, s, t, after);
    } else {
      var s1 := RoundsWhole(c, s, t, 0, after, x, starts, now);
      s' := EndsRefill(c, s1, t, after);
      Then(c, s, t, s1, s');
    }
  }

  /** ensureMinProcesses, whichever starts fail. */
  lemma Restores(c: Config, s: Pool, t: nat, after: After, x: Contents, x': Contents, now: int) returns (s': Pool)
    requires Mirrors(s, x) && At(s, t, Recounting(after)) && Refilled(c, x, x', now)
    ensures Alone(c, s, t, s') && At(s', t, Resume(after)) && Mirrors(s', x')
  {
    SameSize(s, x);
    var starts :| |starts| == Missing(c, x) && x' == Rounds(c, x, starts, now);
    var s1 := To(s, t, Refilling(Missing(c, x), after));
    SweepsOn(c, s, t, s1);
    s' := RefillsWhole(c, s1, t, after, x, starts, now);
    Then(c, s, t, s1, s');
  }

  // ----- Start

  lemma BootCreates(c: Config, s: Pool, t: nat, n: nat, now: int)
    requires n > 0 && At(s, t, Booting(n)) && |s.live| < c.maxProcesses
    ensures Alone(c, s, t, To(Created(s, now), t, Booting(n - 1)))
  {
    var s1 := To(s, t, Checking(Boot(n - 1)));
    var s2 := To(Created(s1, now), t, Booting(n - 1));
    CreatesOn(c, s, t, s1);
    Creates(c, s1, t, Boot(n - 1), now);
    Then(c, s, t, s1, s2);
    ToTo(Created(s, now), t, Checking(Boot(n - 1)), Booting(n - 1));
  }

  /** The first creation that fails ends Start with an error: there will be no monitor. */
  lemma BootFails(c: Config, s: Pool, t: nat, n: nat)
    requires n > 0 && At(s, t, Booting(n))
    ensures Alone(c, s, t, To(s, t, Halted))
  {
    var s1 := To(s, t, Checking(Boot(n - 1)));
    CreatesOn(c, s, t, s1);
    Refuses(c, s1, t, Boot(n - 1));
    Then(c, s, t, s1, To(s1, t, Halted));
    ToTo(s, t, Checking(Boot(n - 1)), Halted);
  }

  lemma BootCreatesOne(c: Config, s: Pool, t: nat, n: nat, x: Contents, now: int) returns (s': Pool)
    requires Mirrors(s, x) && n > 0 && At(s, t, Booting(n)) && |s.live| < c.maxProcesses
    ensures Alone(c, s, t, s') && At(s', t, Booting(n - 1)) && Mirrors(s', CreatedIn(x, now)) && |s'.live| == |s.live| + 1
  {
    BootCreates(c, s, t, n, now);
    CreatedMirrors(s, x, now);
    s' := To(Created(s, now), t, Booting(n - 1));
  }

  lemma {:induction false} BootsSome(c: Config, s: Pool, t: nat, n: nat, xs: seq<Contents>, k: nat, now: int) returns (s': Pool)
    requires Creations(xs, now) && Mirrors(s, xs[0]) && At(s, t, Booting(n + k)) && 0 < k < |xs|
    requires forall i :: 0 <= i < k ==> |xs[i].processes| < c.maxProcesses
    ensures Alone(c, s, t, s') && At(s', t, Booting(n)) && Mirrors(s', xs[k])
    decreases k
  {
    if k == 1 {
      s' := BootsTo(c, s, t, n, xs, 1, now);
    } else {
      var s1 := BootsSome(c, s, t, n + 1, xs, k - 1, now);
      s' := BootsOneMore(c, s, t, s1, n, xs, k, now);
    }
  }

  lemma BootsOneMore(c: Config, s: Pool, t: nat, s1: Pool, n: nat, xs: seq<Contents>, k: nat, now: int) returns (s': Pool)
    requires Creations(xs, now) && 0 < k < |xs| && |xs[k - 1].processes| < c.maxProcesses
    requires Alone(c, s, t, s1) && Mirrors(s1, xs[k - 1]) && At(s1, t, Booting(n + 1))
    ensures Alone(c, s, t, s') && At(s', t, Booting(n)) && Mirrors(s', xs[k])
  {
    s' := BootsTo(c, s1, t, n, xs, k, now);
    Then(c, s, t, s1, s');
  }

  lemma BootsTo(c: Config, s: Pool, t: nat, n: nat, xs: seq<Contents>, k: nat, now: int) returns (s': Pool)
    requires Creations(xs, now) && 0 < k < |xs| && |xs[k - 1].processes| < c.maxProcesses
    requires Mirrors(s, xs[k - 1]) && At(s, t, Booting(n + 1))
    ensures Alone(c, s, t, s') && At(s', t, Booting(n)) && Mirrors(s', xs[k])
  {
    assert CreatedAt(xs, k - 1, now);
    SameSize(s, xs[k - 1]);
    s' := BootCreatesOne(c, s, t, n + 1, xs[k - 1], now);
  }

  /** How Start ends: with all its processes it becomes the monitor, else it halts. */
  lemma BootEnds(c: Config, s: Pool, t: nat, n: nat, halts: bool) returns (s': Pool)
    requires At(s, t, Booting(n)) && (halts <==> n > 0)
    ensures Alone(c, s, t, s') && s' == To(s, t, if halts then Halted else Waiting)
  {
    s' := To(s, t, if halts then Halted else Waiting);
    if halts {
      BootFails(c, s, t, n);
    } else {
      CreatesOn(c, s, t, s');
    }
  }

  /** Start, however many of its processes can be created. */
  lemma BootsWhole(c: Config, s: Pool, t: nat, n: nat, xs: seq<Contents>, now: int) returns (s': Pool)
    requires Creations(xs, now) && Mirrors(s, xs[0]) && At(s, t, Booting(n)) && |xs| - 1 <= n
    requires forall i :: 0 <= i < |xs| - 1 ==> |xs[i].processes| < c.maxProcesses
    ensures Alone(c, s, t, s') && At(s', t, if |xs| - 1 < n then Halted else Waiting) && Mirrors(s', xs[|xs| - 1])
  {
    var k := |xs| - 1;
    if k == 0 {
      s' := BootEnds(c, s, t, n, 0 < n);
    } else {
      var s1 := BootsSome(c, s, t, n - k, xs, k, now);
      s' := BootEnds(c, s1, t, n - k, k < n);
      Then(c, s, t, s1, s');
    }
  }

  lemma HaltedIsStuck(c: Config, s: Pool, t: nat, s': Pool)
    requires At(s, t, Halted)
    ensures !ThreadStep(c, s, t, s')
  {
  }

  /** Once halted, a goroutine stays so. */
  lemma HaltedStays(c: Config, s: Pool, t: nat, s': Pool)
    requires At(s, t, Halted) && Next(c, s, s')
    ensures At(s', t, Halted)
  {
    var u: nat :| u < |s.threads| && ThreadStep(c, s, u, s');
    HaltedIsStuck(c, s, t, s');
    ThreadTrades(c, s, u, s');
  }

  // ----- recycleProcess

  /** The pool without the process. */
  function Dropped(s: Pool, id: nat): Pool
    requires id in s.processes
  {
    var state := s.processes[id].state;
    s.(processes := s.processes[id := s.processes[id].(state := Stopped)], live := s.live - {id}, idle := RemoveFirst(s.idle, id),
       snapshots := s.snapshots - {id}, counters := Retired(s.counters, state),
       unmatched := s.unmatched + if state == Idle || state == Busy then 0 else 1)
  }

  lemma DroppedMirrors(s: Pool, x: Contents, id: nat)
    requires Mirrors(s, x) && id in s.live
    ensures Mirrors(Dropped(s, id), RetiredFrom(x, id))
  {
    assert RetiredFrom(x, id).processes.Keys == x.processes.Keys - {id};
  }

  function Tallied(s: Pool, state: ProcessState): Pool {
    var k := s.counters;
    s.(counters := k.(stopping := k.stopping + 1,
                      idle := k.idle - (if state == Idle then 1 else 0),
                      busy := k.busy - (if state == Busy then 1 else 0)))
  }

  /** The counter of its state is decremented, in one lookup ... */
  lemma TalliesIdle(c: Config, s: Pool, t: nat, id: nat, after: After)
    requires At(s, t, Tallying(id, after)) && id in s.processes && s.processes[id].state == Idle
    ensures Alone(c, s, t, To(Tallied(s, Idle), t, Stopping(id, true, after)))
  {
    RetiresOn(c, s, t, To(Tallied(s, Idle), t, Stopping(id, true, after)));
  }

  /** ... or in two. */
  lemma TalliesOther(c: Config, s: Pool, t: nat, id: nat, after: After)
    requires At(s, t, Tallying(id, after)) && id in s.processes && s.processes[id].state != Idle
    ensures Alone(c, s, t, To(Tallied(s, s.processes[id].state), t, Stopping(id, s.processes[id].state == Busy, after)))
  {
    var state := s.processes[id].state;
    var s1 := To(s.(counters := s.counters.(stopping := s.counters.stopping + 1)), t, Retallying(id, after));
    var s2 := To(Tallied(s, state), t, Stopping(id, state == Busy, after));
    ToTo(Tallied(s, state), t, Retallying(id, after), Stopping(id, state == Busy, after));
    RetiresOn(c, s, t, s1);
    RetiresOn(c, s1, t, s2);
    Then(c, s, t, s1, s2);
  }

  function Removed(s: Pool, id: nat, matched: bool): Pool
    requires id in s.processes
  {
    s.(processes := s.processes[id := s.processes[id].(state := Stopped)], live := s.live - {id}, snapshots := s.snapshots - {id},
       counters := s.counters.(total := s.counters.total - 1, stopping := s.counters.stopping - 1),
       unmatched := s.unmatched + if matched then 0 else 1)
  }

  /** The process is stopped and removed ... */
  lemma Leaves(c: Config, s: Pool, t: nat, id: nat, matched: bool, after: After)
    requires At(s, t, Stopping(id, matched, after)) && id in s.processes && id in s.live
    ensures Alone(c, s, t, To(Left(s, id), t, Closing(id, matched, after)))
  {
    var s1 := To(s.(processes := s.processes[id := s.processes[id].(state := Stopped)]), t, Deleting(id, matched, after));
    var s2 := To(Left(s, id), t, Closing(id, matched, after));
    ToTo(Left(s, id), t, Deleting(id, matched, after), Closing(id, matched, after));
    RetiresOn(c, s, t, s1);
    RetiresOn(c, s1, t, s2);
    Then(c, s, t, s1, s2);
  }

  function Left(s: Pool, id: nat): Pool
    requires id in s.processes
  {
    s.(processes := s.processes[id := s.processes[id].(state := Stopped)], live := s.live - {id})
  }

  /** ... and forgotten. */
  lemma Removes(c: Config, s: Pool, t: nat, id: nat, matched: bool, after: After)
    requires At(s, t, Stopping(id, matched, after)) && id in s.processes && id in s.live
    ensures Alone(c, s, t, To(Removed(s, id, matched), t, Recounting(after)))
  {
    var s1 := To(Left(s, id), t, Closing(id, matched, after));
    var s2 := To(Removed(s, id, matched), t, Recounting(after));
    Leaves(c, s, t, id, matched, after);
    ToTo(Removed(s, id, matched), t, Closing(id, matched, after), Recounting(after));
    RetiresOn(c, s1, t, s2);
    Then(c, s, t, s1, s2);
  }

  /** The process leaves the idle list. */
  lemma Delists(c: Config, s: Pool, t: nat, id: nat, after: After)
    requires At(s, t, Retiring(id, after)) && id in s.live
    ensures Alone(c, s, t, To(s.(idle := RemoveFirst(s.idle, id)), t, Tallying(id, after)))
  {
    var s1 := To(s, t, Unlisting(id, after));
    var s2 := To(s1.(idle := RemoveFirst(s.idle, id)), t, Tallying(id, after));
    SweepsOn(c, s, t, s1);
    SweepsOn(c, s1, t, s2);
    Then(c, s, t, s1, s2);
    ToTo(s.(idle := RemoveFirst(s.idle, id)), t, Unlisting(id, after), Tallying(id, after));
  }

  /** recycleProcess up to the refill. */
  lemma Retires(c: Config, s: Pool, t: nat, id: nat, after: After)
    requires At(s, t, Retiring(id, after)) && id in s.live && id in s.processes
    ensures Alone(c, s, t, To(Dropped(s, id), t, Recounting(after)))
  {
    var state := s.processes[id].state;
    var matched := state == Idle || state == Busy;
    var s1 := To(s.(idle := RemoveFirst(s.idle, id)), t, Tallying(id, after));
    var s2 := To(Tallied(s1, state), t, Stopping(id, matched, after));
    var s3 := To(Removed(s2, id, matched), t, Recounting(after));
    Delists(c, s, t, id, after);
    if state == Idle {
      TalliesIdle(c, s1, t, id, after);
    } else {
      TalliesOther(c, s1, t, id, after);
    }
    Then(c, s, t, s1, s2);
    Removes(c, s2, t, id, matched, after);
    Then(c, s, t, s2, s3);
    assert s3 == To(Dropped(s, id), t, Recounting(after));
  }

  /** recycleProcess. */
  lemma RecyclesWhole(c: Config, s: Pool, t: nat, id: nat, after: After, x: Contents, x': Contents, now: int) returns (s': Pool)
    requires Mirrors(s, x) && At(s, t, Retiring(id, after)) && Recycled(c, x, id, x', now)
    ensures Alone(c, s, t, s') && At(s', t, Resume(after)) && Mirrors(s', x')
  {
    if id in s.live {
      var s1 := To(Dropped(s, id), t, Recounting(after));
      Retires(c, s, t, id, after);
      DroppedMirrors(s, x, id);
      s' := Restores(c, s1, t, after, RetiredFrom(x, id), x', now);
      Then(c, s, t, s1, s');
    } else {
      s' := To(s, t, Resume(after));
      SweepsOn(c, s, t, s');
    }
  }

  // ----- checkAndRecycleProcesses

  lemma JudgesOne(c: Config, s: Pool, t: nat, ids: seq<nat>, x: Contents, x': Contents, now: int) returns (s': Pool)
    requires Mirrors(s, x) && ids != [] && At(s, t, Sweeping(ids)) && Judged(c, x, ids[0], x', now)
    ensures Alone(c, s, t, s') && At(s', t, Sweeping(ids[1..])) && Mirrors(s', x')
  {
    if ShouldRecycle(c, s.snapshots, ids[0], now) {
      var s1 := To(s, t, Retiring(ids[0], ToSweep(ids[1..])));
      SweepsOn(c, s, t, s1);
      s' := RecyclesWhole(c, s1, t, ids[0], ToSweep(ids[1..]), x, x', now);
      Then(c, s, t, s1, s');
    } else {
      s' := To(s, t, Sweeping(ids[1..]));
      SweepsOn(c, s, t, s');
    }
  }

  lemma {:induction false} Sweeps(c: Config, s: Pool, t: nat, ids: seq<nat>, x: Contents, x': Contents, now: int) returns (s': Pool)
    requires Mirrors(s, x) && At(s, t, Sweeping(ids)) && SweptOver(c, x, ids, x', now)
    ensures Alone(c, s, t, s') && At(s', t, Recounting(ToWait)) && Mirrors(s', x')
    decreases |ids|
  {
    if ids == [] {
      s' := To(s, t, Recounting(ToWait));
      SweepsOn(c, s, t, s');
    } else {
      var x1 :| Judged(c, x, ids[0], x1, now) && SweptOver(c, x1, ids[1..], x', now);
      var s1 := JudgesOne(c, s, t, ids, x, x1, now);
      s' := Sweeps(c, s1, t, ids[1..], x1, x', now);
      Then(c, s, t, s1, s');
    }
  }

  /** The sweep and the refill. */
  lemma ChecksWhole(c: Config, s: Pool, t: nat, x: Contents, x': Contents, now: int) returns (s': Pool)
    requires Mirrors(s, x) && t == c.maxProcesses && At(s, t, Waiting) && Checked(c, x, x', now)
    ensures Alone(c, s, t, s') && At(s', t, Waiting) && Mirrors(s', x')
  {
    var ids, y :| ListOf(ids, x.processes.Keys) && SweptOver(c, x, ids, y, now) && Refilled(c, y, x', now);
    var s1 := To(s, t, Sweeping(ids));
    WakesOn(c, s, t, s1);
    var s2 := Sweeps(c, s1, t, ids, x, y, now);
    Then(c, s, t, s1, s2);
    s' := Restores(c, s2, t, ToWait, y, x', now);
    Then(c, s, t, s2, s');
  }

  // ----- getIdleProcess and returnProcessToIdlePool

  /** Where getIdleProcess leaves a worker. */
  function TakenPc(r: nat, taken: Option<nat>): Pc {
    match taken
    case Some(id) => Holding(id, r)
    case None => Refusing(r)
  }

  /** The pool with the head of the idle list taken. */
  function HeadTaken(s: Pool): Pool
    requires s.idle != []
  {
    s.(idle := s.idle[1..], counters := s.counters.(idle := s.counters.idle - 1, busy := s.counters.busy + 1))
  }

  /** The head of the idle list is live. */
  lemma TakesHead(c: Config, s: Pool, t: nat, r: nat)
    requires At(s, t, Picking(r)) && s.idle != [] && s.idle[0] in s.live
    ensures Alone(c, s, t, To(HeadTaken(s), t, Holding(s.idle[0], r)))
  {
    var id, x := s.idle[0], s.(idle := s.idle[1..]);
    var s1, s2, s3 := To(x, t, Picked(id, r)), To(x, t, Claimed(id, r)), To(HeadTaken(s), t, Holding(id, r));
    ToTo(x, t, Picked(id, r), Claimed(id, r));
    ToTo(HeadTaken(s), t, Claimed(id, r), Holding(id, r));
    ServesOn(c, s, t, s1);
    ServesOn(c, s1, t, s2);
    Then(c, s, t, s1, s2);
    ServesOn(c, s2, t, s3);
    Then(c, s, t, s2, s3);
  }

  /** The head of the idle list is stale. */
  lemma SkipsHead(c: Config, s: Pool, t: nat, r: nat)
    requires At(s, t, Picking(r)) && s.idle != [] && s.idle[0] !in s.live
    ensures Alone(c, s, t, s.(idle := s.idle[1..]))
  {
    var id, x := s.idle[0], s.(idle := s.idle[1..]);
    var s1 := To(x, t, Picked(id, r));
    ToTo(x, t, Picked(id, r), Picking(r));
    assert To(x, t, Picking(r)) == x;
    ServesOn(c, s, t, s1);
    ServesOn(c, s1, t, x);
    Then(c, s, t, s1, x);
  }

  /** The idle list is empty, but a process can be created. */
  lemma TakesNew(c: Config, s: Pool, t: nat, r: nat, now: int)
    requires At(s, t, Picking(r)) && s.idle == [] && |s.live| < c.maxProcesses
    ensures Alone(c, s, t, To(HeadTaken(Created(s, now)), t, Holding(s.nextId, r)))
  {
    var s1 := To(s, t, Checking(ForTask(r)));
    var s2 := To(Created(s1, now), t, Picking(r));
    var s3 := To(HeadTaken(s2), t, Holding(s.nextId, r));
    ServesOn(c, s, t, s1);
    Creates(c, s1, t, ForTask(r), now);
    Then(c, s, t, s1, s2);
    TakesHead(c, s2, t, r);
    Then(c, s, t, s2, s3);
    assert s3 == To(HeadTaken(Created(s, now)), t, Holding(s.nextId, r));
  }

  /** And none is created. */
  lemma TakesNone(c: Config, s: Pool, t: nat, r: nat)
    requires At(s, t, Picking(r)) && s.idle == []
    ensures Alone(c, s, t, To(s, t, Refusing(r)))
  {
    var s1 := To(s, t, Checking(ForTask(r)));
    ServesOn(c, s, t, s1);
    Refuses(c, s1, t, ForTask(r));
    Then(c, s, t, s1, To(s1, t, Refusing(r)));
    ToTo(s, t, Checking(ForTask(r)), Refusing(r));
  }

  lemma HeadMirrors(s: Pool, x: Contents)
    requires Mirrors(s, x) && s.idle != []
    ensures Mirrors(HeadTaken(s), Claim(x.(idle := x.idle[1..])))
  {
  }

  lemma NewMirrors(s: Pool, x: Contents, now: int)
    requires Mirrors(s, x) && s.idle == []
    ensures Mirrors(HeadTaken(Created(s, now)), Claim(CreatedIn(x, now).(idle := [])))
  {
    CreatedMirrors(s, x, now);
    HeadMirrors(Created(s, now), CreatedIn(x, now));
  }

  /** The lookup is about to be decided. */
  lemma TakesNow(c: Config, s: Pool, t: nat, r: nat, started: bool, x: Contents, now: int) returns (s': Pool)
    requires Mirrors(s, x) && At(s, t, Picking(r)) && (s.idle == [] || s.idle[0] in s.live)
    ensures var (taken, x') := Take(c, x, started, now); Alone(c, s, t, s') && At(s', t, TakenPc(r, taken)) && Mirrors(s', x')
  {
    SameSize(s, x);
    if s.idle == [] && |s.live| < c.maxProcesses && started {
      TakesNew(c, s, t, r, now);
      NewMirrors(s, x, now);
      s' := To(HeadTaken(Created(s, now)), t, Holding(s.nextId, r));
    } else if s.idle == [] {
      TakesNone(c, s, t, r);
      s' := To(s, t, Refusing(r));
    } else {
      TakesHead(c, s, t, r);
      HeadMirrors(s, x);
      s' := To(HeadTaken(s), t, Holding(s.idle[0], r));
    }
  }

  /** getIdleProcess. */
  lemma {:induction false} TakesWhole(c: Config, s: Pool, t: nat, r: nat, started: bool, x: Contents, now: int) returns (s': Pool)
    requires Mirrors(s, x) && At(s, t, Picking(r))
    ensures var (taken, x') := Take(c, x, started, now); Alone(c, s, t, s') && At(s', t, TakenPc(r, taken)) && Mirrors(s', x')
    decreases |s.idle|
  {
    if s.idle == [] || s.idle[0] in s.live {
      s' := TakesNow(c, s, t, r, started, x, now);
    } else {
      var s1 := s.(idle := s.idle[1..]);
      SkipsHead(c, s, t, r);
      s' := TakesWhole(c, s1, t, r, started, x.(idle := x.idle[1..]), now);
      Then(c, s, t, s1, s');
    }
  }

  /** returnProcessToIdlePool. */
  lemma ReturnsWhole(c: Config, s: Pool, t: nat, id: nat, x: Contents) returns (s': Pool)
    requires Mirrors(s, x) && At(s, t, Returning(id))
    ensures Alone(c, s, t, s') && At(s', t, Waiting) && Mirrors(s', ReturnedTo(x, id))
  {
    var s1 := To(s.(idle := s.idle + [id]), t, Returned);
    s' := To(s1.(counters := s1.counters.(idle := s1.counters.idle + 1, busy := s1.counters.busy - 1)), t, Waiting);
    SettlesOn(c, s, t, s1);
    SettlesOn(c, s1, t, s');
    Then(c, s, t, s1, s');
  }
}
