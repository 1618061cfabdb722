/** Runs of the pool in which one goroutine moves and the others stand still, built from the steps of `PoolMachine`. */
module PoolRuns {
  import opened PoolModel
  import opened PoolMachine

  function Last(trace: seq<Pool>): Pool
    requires trace != []
  {
    trace[|trace| - 1]
  }

  ghost predicate StepBy(c: Config, path: seq<Pool>, k: nat, t: nat)
    requires k + 1 < |path|
  {
    t < |path[k].threads| && ThreadStep(c, path[k], t, path[k + 1])
  }

  ghost predicate Path(c: Config, path: seq<Pool>, t: nat) {
    forall k: nat :: k + 1 < |path| ==> StepBy(c, path, k, t)
  }

  /** Goroutine `t` alone can bring the pool from `s` to `s'`. */
  ghost predicate Alone(c: Config, s: Pool, t: nat, s': Pool) {
    exists via: seq<Pool> :: Path(c, [s] + via + [s'], t)
  }

  lemma Steps(c: Config, s: Pool, t: nat, s': Pool)
    requires t < |s.threads| && ThreadStep(c, s, t, s')
    ensures Alone(c, s, t, s')
  {
    var path := [s] + [] + [s'];
    assert StepBy(c, path, 0, t);
    assert Path(c, path, t);
  }

  lemma Then(c: Config, s: Pool, t: nat, s1: Pool, s2: Pool)
    requires Alone(c, s, t, s1) && Alone(c, s1, t, s2)
    ensures Alone(c, s, t, s2)
  {
    var a: seq<Pool> :| Path(c, [s] + a + [s1], t);
    var b: seq<Pool> :| Path(c, [s1] + b + [s2], t);
    var first, second, path := [s] + a + [s1], [s1] + b + [s2], [s] + (a + [s1] + b) + [s2];
    forall k: nat | k + 1 < |path| ensures StepBy(c, path, k, t) {
      if k + 1 < |first| {
        assert StepBy(c, first, k, t);
      } else {
        assert StepBy(c, second, k + 1 - |first|, t);
      }
    }
    assert Path(c, path, t);
  }

  /** A run goes on with what one goroutine does. */
  lemma Continues(c: Config, trace: seq<Pool>, t: nat, s': Pool) returns (longer: seq<Pool>)
    requires Run(c, trace) && Alone(c, Last(trace), t, s')
    ensures Run(c, longer) && longer[0] == trace[0] && Last(longer) == s'
  {
    var via: seq<Pool> :| Path(c, [Last(trace)] + via + [s'], t);
    var path := [Last(trace)] + via + [s'];
    longer := trace + via + [s'];
    forall k: nat | k + 1 < |longer| ensures StepAt(c, longer, k) {
      if k + 1 < |trace| {
        assert StepAt(c, trace, k);
      } else {
        assert StepBy(c, path, k + 1 - |trace|, t);
      }
    }
  }

  // ----- one step of each phase

  lemma WakesOn(c: Config, s: Pool, t: nat, s': Pool)
    requires t < |s.threads| && WakeStep(c, s, t, s')
    ensures Alone(c, s, t, s')
  {
    Steps(c, s, t, s');
  }

  lemma ServesOn(c: Config, s: Pool, t: nat, s': Pool)
    requires t < |s.threads| && ServeStep(s, t, s')
    ensures Alone(c, s, t, s')
  {
    Steps(c, s, t, s');
  }

  lemma SettlesOn(c: Config, s: Pool, t: nat, s': Pool)
    requires t < |s.threads| && SettleStep(c, s, t, s')
    ensures Alone(c, s, t, s')
  {
    Steps(c, s, t, s');
  }

  lemma CreatesOn(c: Config, s: Pool, t: nat, s': Pool)
    requires t < |s.threads| && CreateStep(c, s, t, s')
    ensures Alone(c, s, t, s')
  {
    Steps(c, s, t, s');
  }

  lemma LaunchesOn(c: Config, s: Pool, t: nat, s': Pool)
    requires t < |s.threads| && LaunchStep(s, t, s')
    ensures Alone(c, s, t, s')
  {
    Steps(c, s, t, s');
  }

  lemma EnrolsOn(c: Config, s: Pool, t: nat, s': Pool)
    requires t < |s.threads| && EnrolStep(s, t, s')
    ensures Alone(c, s, t, s')
  {
    Steps(c, s, t, s');
  }

  lemma SweepsOn(c: Config, s: Pool, t: nat, s': Pool)
    requires t < |s.threads| && SweepStep(c, s, t, s')
    ensures Alone(c, s, t, s')
  {
    Steps(c, s, t, s');
  }

  lemma RetiresOn(c: Config, s: Pool, t: nat, s': Pool)
    requires t < |s.threads| && RetireStep(s, t, s')
    ensures Alone(c, s, t, s')
  {
    Steps(c, s, t, s');
  }
}
