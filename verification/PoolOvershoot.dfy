/**
 `MaxProcesses` is not a hard cap: the check (pool.go:352-357) and the insertion (pool.go:392-394) are separate locked
 regions.  For every configuration there is a run that ends with `PeakSize` live processes, and `PoolPeak` shows that
 there is none with more.

 In that run the tasks of all workers fail one after the other, so that every worker has counted no live process and is
 about to create MinProcesses new ones, as is Start.  With MinProcesses > 1 all but one of the workers create a process
 and still have one to create.  Then all goroutines pass the check before any of them inserts.
 */
module PoolOvershoot {
  import opened Basics
  import opened PoolModel
  import opened PoolMachine
  import opened PoolOwnership
  import opened PoolRouting
  import opened PoolRuns
  import opened PoolRefinement
  import opened PoolTask

  function PeakSize(c: Config): int {
    if c.minProcesses == 1 then c.maxProcesses + 1 else 2 * c.maxProcesses
  }

  /** About to create a process. */
  predicate Poised(pc: Pc) {
    (pc.Refilling? && pc.left >= 1) || (pc.Booting? && pc.left >= 1)
  }

  /** The workers up to `n` have counted no live process; the others have not begun. */
  ghost predicate SetBack(c: Config, s: Pool, n: nat)
    requires Normal(c)
  {
    && |s.threads| == c.maxProcesses + 1 && n <= c.maxProcesses
    && s.live == {} && s.idle == []
    && (forall t :: 0 <= t < n ==> s.threads[t] == Refilling(c.minProcesses, ToWait))
    && (forall t :: n <= t < c.maxProcesses ==> s.threads[t] == Waiting)
    && s.threads[c.maxProcesses] == Booting(c.minProcesses)
  }

  lemma FailsAndRecounts(c: Config, s: Pool, t: nat) returns (s': Pool)
    requires At(s, t, Waiting) && t < c.maxProcesses && s.live == {} && s.idle == [] && |s.replies| == |s.requests|
    ensures Alone(c, s, t, s') && s'.threads == s.threads[t := Refilling(Max(0, c.minProcesses), ToWait)]
    ensures s'.live == {} && s'.idle == []
  {
    var s1 := WorkerFails(c, s, t);
    s' := To(s1, t, Refilling(Max(0, c.minProcesses), ToWait));
    SweepsOn(c, s1, t, s');
    Then(c, s, t, s1, s');
  }

  lemma {:induction false} AllFail(c: Config, trace: seq<Pool>, n: nat) returns (longer: seq<Pool>)
    requires Run(c, trace) && SetBack(c, Last(trace), n)
    ensures Run(c, longer) && longer[0] == trace[0] && SetBack(c, Last(longer), c.maxProcesses)
    decreases c.maxProcesses - n
  {
    if n == c.maxProcesses {
      longer := trace;
    } else {
      RunRouted(c, trace, |trace| - 1);
      var s' := FailsAndRecounts(c, Last(trace), n);
      longer := Continues(c, trace, n, s');
      longer := AllFail(c, longer, n + 1);
    }
  }

  /** Every goroutine is about to create a process; the workers from `n` on still have all of theirs to create. */
  ghost predicate AllPoised(c: Config, s: Pool, n: nat)
    requires Normal(c)
  {
    && |s.threads| == c.maxProcesses + 1 && n <= c.maxProcesses
    && |s.live| == n
    && (forall t :: 0 <= t < |s.threads| ==> Poised(s.threads[t]))
    && (forall t :: n <= t < c.maxProcesses ==> s.threads[t] == Refilling(c.minProcesses, ToWait))
  }

  /** Past the check for what it is about to create. */
  function WhyOf(pc: Pc): Why
    requires Poised(pc)
  {
    match pc
    case Refilling(left, after) => Refill(left - 1, after)
    case Booting(left) => Boot(left - 1)
  }

  lemma PassesCheck(c: Config, s: Pool, t: nat) returns (s': Pool)
    requires t < |s.threads| && Poised(s.threads[t]) && |s.live| < c.maxProcesses
    ensures Alone(c, s, t, s') && s'.threads == s.threads[t := Admitted(WhyOf(s.threads[t]))] && s'.live == s.live
  {
    var why := WhyOf(s.threads[t]);
    var s1 := To(s, t, Checking(why));
    s' := To(s1, t, Admitted(why));
    CreatesOn(c, s, t, s1);
    CreatesOn(c, s1, t, s');
    Then(c, s, t, s1, s');
  }

  lemma {:induction false} AllButOneCreate(c: Config, trace: seq<Pool>, n: nat) returns (longer: seq<Pool>)
    requires Run(c, trace) && AllPoised(c, Last(trace), n) && n < c.maxProcesses && c.minProcesses >= 2
    ensures Run(c, longer) && longer[0] == trace[0] && AllPoised(c, Last(longer), c.maxProcesses - 1)
    decreases c.maxProcesses - n
  {
    if n == c.maxProcesses - 1 {
      longer := trace;
    } else {
      var s, left := Last(trace), c.minProcesses;
      RunOwned(c, trace, |trace| - 1);
      RoundCreates(c, s, n, left, ToWait, 0);
      longer := Continues(c, trace, n, To(Created(s, 0), n, Refilling(left - 1, ToWait)));
      longer := AllButOneCreate(c, longer, n + 1);
    }
  }

  /** The first `n` goroutines are past the check, the others about to reach it. */
  ghost predicate Passed(c: Config, s: Pool, n: nat) {
    && |s.threads| == c.maxProcesses + 1 && n <= |s.threads|
    && (forall t :: 0 <= t < n ==> s.threads[t].Admitted?)
    && (forall t :: n <= t < |s.threads| ==> Poised(s.threads[t]))
  }

  lemma {:induction false} AllPass(c: Config, trace: seq<Pool>, n: nat) returns (longer: seq<Pool>)
    requires Run(c, trace) && Passed(c, Last(trace), n) && |Last(trace).live| < c.maxProcesses
    ensures Run(c, longer) && longer[0] == trace[0] && Passed(c, Last(longer), c.maxProcesses + 1) && Last(longer).live == Last(trace).live
    decreases |Last(trace).threads| - n
  {
    if n == |Last(trace).threads| {
      longer := trace;
    } else {
      var s' := PassesCheck(c, Last(trace), n);
      longer := Continues(c, trace, n, s');
      longer := AllPass(c, longer, n + 1);
    }
  }

  lemma Inserts(c: Config, s: Pool, t: nat) returns (s': Pool)
    requires t < |s.threads| && s.threads[t].Admitted?
    ensures Alone(c, s, t, s') && s'.live == s.live + {s.nextId}
    ensures s'.threads == s.threads[t := Inserted(s.nextId, s.threads[t].why)]
  {
    var why := s.threads[t].why;
    var s1 := To(StartingOne(s), t, Launching(why));
    CreatesOn(c, s, t, s1);
    Enters(c, s1, t, why, 0);
    s' := To(Entered(s1, 0), t, Inserted(s.nextId, why));
    Then(c, s, t, s1, s');
  }

  lemma {:induction false} AllInsert(c: Config, trace: seq<Pool>, n: nat) returns (longer: seq<Pool>)
    requires Run(c, trace) && n <= |Last(trace).threads| && forall t :: 0 <= t < n ==> Last(trace).threads[t].Admitted?
    ensures Run(c, longer) && longer[0] == trace[0] && |Last(longer).live| == |Last(trace).live| + n
    decreases n
  {
    if n == 0 {
      longer := trace;
    } else {
      RunOwned(c, trace, |trace| - 1);
      var s' := Inserts(c, Last(trace), n - 1);
      longer := Continues(c, trace, n - 1, s');
      longer := AllInsert(c, longer, n - 1);
    }
  }

  /** For every configuration some run breaks the cap, by one process at least. */
  lemma CapIsExceeded(c: Config, s: Pool) returns (trace: seq<Pool>)
    requires Normal(c) && Init(c, s)
    ensures Run(c, trace) && trace[0] == s
    ensures |Last(trace).live| == PeakSize(c) > c.maxProcesses
  {
    trace := [s];
    assert Last(trace) == s;
    trace := AllFail(c, trace, 0);
    if c.minProcesses > 1 {
      trace := AllButOneCreate(c, trace, 0);
    }
    trace := AllPass(c, trace, 0);
    trace := AllInsert(c, trace, c.maxProcesses + 1);
  }
}
