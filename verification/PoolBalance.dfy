/**
 When Idle + Busy = Total fails.  While nobody is recycling, the balance holds exactly when no recycle so far has found
 its process neither idle nor busy; once lost it stays lost; and a single failing task loses it, whatever the
 configuration.
 */
module PoolBalance {
  import opened PoolModel
  import opened PoolMachine
  import opened PoolOwnership
  import opened PoolLedger
  import opened PoolRouting
  import opened PoolRuns
  import opened PoolTask

  ghost predicate Balanced(s: Pool) {
    s.counters.idle + s.counters.busy == s.counters.total
  }

  /** Nobody is between the two updates of the counters that a recycle makes. */
  ghost predicate Quiet(s: Pool) {
    forall t :: 0 <= t < |s.threads| ==> !Recycling(s.threads[t])
  }

  /** A recycle that has found its process neither idle nor busy. */
  predicate Missed(pc: Pc) {
    (pc.Stopping? && !pc.matched) || (pc.Deleting? && !pc.matched) || (pc.Closing? && !pc.matched)
  }

  ghost predicate MissedIn(s: Pool) {
    exists t :: 0 <= t < |s.threads| && Missed(s.threads[t])
  }

  /** A missed recycle goes on until it is counted as one. */
  ghost predicate Blames(s: Pool, t: nat, s': Pool)
    requires t < |s.threads| == |s'.threads|
  {
    && s'.unmatched >= s.unmatched
    && (s'.unmatched > s.unmatched ==> Missed(s.threads[t]))
    && (Missed(s.threads[t]) ==> Missed(s'.threads[t]) || s'.unmatched > s.unmatched)
  }

  lemma RetireBlames(s: Pool, t: nat, s': Pool)
    requires t < |s.threads| == |s'.threads| && RetireStep(s, t, s')
    ensures Blames(s, t, s')
  {
  }

  lemma OtherBlames(c: Config, s: Pool, t: nat, s': Pool)
    requires t < |s.threads| == |s'.threads| && ThreadStep(c, s, t, s') && !RetireStep(s, t, s')
    ensures Blames(s, t, s')
  {
  }

  lemma NextBlames(c: Config, s: Pool, s': Pool)
    requires Next(c, s, s')
    ensures s'.unmatched >= s.unmatched
    ensures s'.unmatched > s.unmatched ==> MissedIn(s)
    ensures MissedIn(s) ==> MissedIn(s') || s'.unmatched > s.unmatched
  {
    var t: nat :| t < |s.threads| && ThreadStep(c, s, t, s');
    ThreadTrades(c, s, t, s');
    if RetireStep(s, t, s') {
      RetireBlames(s, t, s');
    } else {
      OtherBlames(c, s, t, s');
    }
    if u :| 0 <= u < |s.threads| && Missed(s.threads[u]) && u != t {
      assert Missed(s'.threads[u]);
    }
  }

  /** Some recycle has missed, up to state `i`, exactly when one has been counted or is under way. */
  lemma {:induction false} RunBlames(c: Config, trace: seq<Pool>, i: nat)
    requires Run(c, trace) && i < |trace|
    ensures (exists k :: 0 <= k <= i && MissedIn(trace[k])) <==> trace[i].unmatched > 0 || MissedIn(trace[i])
  {
    if i > 0 {
      RunBlames(c, trace, i - 1);
      assert StepAt(c, trace, i - 1);
      NextBlames(c, trace[i - 1], trace[i]);
    }
  }

  lemma StepBlames(c: Config, trace: seq<Pool>, k: nat)
    requires Run(c, trace) && k + 1 < |trace|
    ensures trace[k].unmatched <= trace[k + 1].unmatched
  {
    assert StepAt(c, trace, k);
    NextBlames(c, trace[k], trace[k + 1]);
  }

  lemma {:induction false} UnmatchedGrows(c: Config, trace: seq<Pool>, i: nat, j: nat)
    requires Run(c, trace) && i <= j < |trace|
    ensures trace[i].unmatched <= trace[j].unmatched
    decreases j
  {
    if i < j {
      UnmatchedGrows(c, trace, i, j - 1);
      StepBlames(c, trace, j - 1);
    }
  }

  /** With nobody recycling the balance is off by the number of recycles counted in neither way. */
  lemma QuietDifference(c: Config, trace: seq<Pool>, i: nat)
    requires Run(c, trace) && i < |trace| && Quiet(trace[i])
    ensures trace[i].counters.idle + trace[i].counters.busy == trace[i].counters.total + trace[i].unmatched
    ensures !MissedIn(trace[i])
  {
    RunBooks(c, trace, i);
    CountNone(trace[i].threads, Matched);
  }

  /** With nobody recycling: Idle + Busy = Total if and only if every recycle so far found its process idle or busy. */
  lemma QuietBalanceIff(c: Config, trace: seq<Pool>, i: nat)
    requires Run(c, trace) && i < |trace| && Quiet(trace[i])
    ensures Balanced(trace[i]) <==> forall k :: 0 <= k <= i ==> !MissedIn(trace[k])
    ensures trace[i].counters.idle + trace[i].counters.busy >= trace[i].counters.total
  {
    QuietDifference(c, trace, i);
    RunBlames(c, trace, i);
  }

  /** Once lost, the balance is lost whenever nobody is recycling. */
  lemma ImbalanceStays(c: Config, trace: seq<Pool>, i: nat, j: nat)
    requires Run(c, trace) && i <= j < |trace| && Quiet(trace[i]) && Quiet(trace[j]) && !Balanced(trace[i])
    ensures !Balanced(trace[j])
  {
    QuietDifference(c, trace, i);
    QuietDifference(c, trace, j);
    UnmatchedGrows(c, trace, i, j);
  }

  /** One failing task is enough: from every initial state a run loses the balance with nobody recycling any more. */
  lemma BalanceIsLost(c: Config, s: Pool) returns (trace: seq<Pool>)
    requires Normal(c) && Init(c, s)
    ensures Run(c, trace) && trace[0] == s && Quiet(Last(trace))
    ensures Last(trace).counters.idle + Last(trace).counters.busy == Last(trace).counters.total + 1
  {
    trace := [s];
    assert Last(trace) == s;
    RunRouted(c, trace, 0);
    var s' := WorkerFails(c, s, 0);
    trace := Continues(c, trace, 0, s');
    QuietDifference(c, trace, |trace| - 1);
  }
}
