/**
 The task quota: over every interleaving, a process on the idle list that is still live has completed fewer than
 MaxTasksPerProcess tasks, and no process ever completes more.
 */
module PoolQuota {
  import opened Basics
  import opened PoolModel
  import opened PoolMachine
  import opened PoolOwnership

  ghost predicate Below(c: Config, s: Pool, id: nat) {
    id in s.processes && s.processes[id].tasks < c.maxTasks
  }

  /** The snapshot the recycling test will read is up to date. */
  ghost predicate Current(s: Pool, id: nat) {
    id in s.processes && id in s.snapshots && s.snapshots[id].tasks == s.processes[id].tasks
  }

  ghost predicate PcQuota(c: Config, s: Pool, pc: Pc) {
    match pc
    case Picked(id, _) => id in s.live ==> Below(c, s, id)
    case Claimed(id, _) => Below(c, s, id)
    case Holding(id, _) => Below(c, s, id)
    case Running(id, _) => Below(c, s, id)
    case Judging(id) => id in s.live ==> Current(s, id)
    case Returning(id) => id in s.live ==> Below(c, s, id)
    case Launched(id, _) => Below(c, s, id)
    case Inserted(id, _) => Below(c, s, id)
    case Counted(id, _) => Below(c, s, id)
    case Closing(id, _, _) => id !in s.live
    case _ => true
  }

  ghost predicate Bounded(c: Config, s: Pool) {
    forall id :: id in s.processes ==> s.processes[id].tasks <= c.maxTasks
  }

  ghost predicate IdleBelow(c: Config, s: Pool) {
    forall id :: id in s.idle && id in s.live ==> Below(c, s, id)
  }

  ghost predicate Quota(c: Config, s: Pool) {
    && Bounded(c, s)
    && IdleBelow(c, s)
    && forall t :: 0 <= t < |s.threads| ==> PcQuota(c, s, s.threads[t])
  }

  /** Task counts and snapshots change only for the process `t` holds, unless that process is gone. */
  ghost predicate Frame(s: Pool, t: nat, s': Pool)
    requires t < |s.threads|
  {
    && (forall id :: id in s.processes ==>
          id in s'.processes && (s'.processes[id].tasks == s.processes[id].tasks || Holds(s.threads[t]) == Some(id)))
    && (forall id :: id in s'.live ==> id in s.live || (s.threads[t].Launched? && s.threads[t].id == id))
    && (forall id :: id in s.snapshots && id in s'.live ==>
          Holds(s.threads[t]) == Some(id) || (id in s'.snapshots && s'.snapshots[id] == s.snapshots[id]))
  }

  lemma OthersKeepQuota(c: Config, s: Pool, t: nat, s': Pool, u: nat)
    requires Owned(s) && Moves(s, t, s') && Frame(s, t, s')
    requires u < |s.threads| && u != t && PcQuota(c, s, s.threads[u])
    ensures PcQuota(c, s', s.threads[u])
  {
  }

  lemma IdleKeepsQuota(c: Config, s: Pool, t: nat, s': Pool)
    requires Owned(s) && Moves(s, t, s') && Frame(s, t, s') && IdleBelow(c, s)
    requires forall id :: id in s'.idle ==> id in s.idle || Holds(s.threads[t]) == Some(id)
    requires forall id :: id in s'.idle && id !in s.idle && id in s'.live ==> Below(c, s', id)
    ensures IdleBelow(c, s')
  {
  }

  /** What `t` itself gains: its own obligation, the bound, and the id it may have put on the idle list. */
  ghost predicate Gains(c: Config, s: Pool, t: nat, s': Pool)
    requires t < |s.threads| == |s'.threads|
  {
    && PcQuota(c, s', s'.threads[t])
    && Bounded(c, s')
    && (forall id :: id in s'.idle && id !in s.idle && id in s'.live ==> Below(c, s', id))
  }

  lemma ServeFrame(c: Config, s: Pool, t: nat, s': Pool)
    requires t < |s.threads| == |s'.threads| && ServeStep(s, t, s')
    requires PcQuota(c, s, s.threads[t]) && forall id: nat :: id in s.processes ==> id < s.nextId
    ensures Frame(s, t, s')
  {
  }

  lemma ServeGains(c: Config, s: Pool, t: nat, s': Pool)
    requires t < |s.threads| == |s'.threads| && ServeStep(s, t, s')
    requires PcQuota(c, s, s.threads[t]) && Bounded(c, s) && IdleBelow(c, s) && c.maxTasks >= 1
    ensures Gains(c, s, t, s')
  {
  }

  lemma SettleFrame(c: Config, s: Pool, t: nat, s': Pool)
    requires t < |s.threads| == |s'.threads| && SettleStep(c, s, t, s')
    requires PcQuota(c, s, s.threads[t]) && forall id: nat :: id in s.processes ==> id < s.nextId
    ensures Frame(s, t, s')
  {
  }

  lemma SettleGains(c: Config, s: Pool, t: nat, s': Pool)
    requires t < |s.threads| == |s'.threads| && SettleStep(c, s, t, s')
    requires PcQuota(c, s, s.threads[t]) && Bounded(c, s) && IdleBelow(c, s) && c.maxTasks >= 1
    ensures Gains(c, s, t, s')
  {
  }

  lemma CreateFrame(c: Config, s: Pool, t: nat, s': Pool)
    requires t < |s.threads| == |s'.threads| && (CreateStep(c, s, t, s') || LaunchStep(s, t, s') || WakeStep(c, s, t, s'))
    requires PcQuota(c, s, s.threads[t]) && forall id: nat :: id in s.processes ==> id < s.nextId
    ensures Frame(s, t, s')
  {
  }

  lemma CreateGains(c: Config, s: Pool, t: nat, s': Pool)
    requires t < |s.threads| == |s'.threads| && (CreateStep(c, s, t, s') || LaunchStep(s, t, s') || WakeStep(c, s, t, s'))
    requires PcQuota(c, s, s.threads[t]) && Bounded(c, s) && IdleBelow(c, s) && c.maxTasks >= 1
    ensures Gains(c, s, t, s')
  {
  }

  lemma EnrolFrame(c: Config, s: Pool, t: nat, s': Pool)
    requires t < |s.threads| == |s'.threads| && EnrolStep(s, t, s')
    requires PcQuota(c, s, s.threads[t]) && forall id: nat :: id in s.processes ==> id < s.nextId
    ensures Frame(s, t, s')
  {
  }

  lemma EnrolGains(c: Config, s: Pool, t: nat, s': Pool)
    requires t < |s.threads| == |s'.threads| && EnrolStep(s, t, s')
    requires PcQuota(c, s, s.threads[t]) && Bounded(c, s) && IdleBelow(c, s) && c.maxTasks >= 1
    ensures Gains(c, s, t, s')
  {
  }

  lemma SweepFrame(c: Config, s: Pool, t: nat, s': Pool)
    requires t < |s.threads| == |s'.threads| && SweepStep(c, s, t, s')
    requires PcQuota(c, s, s.threads[t]) && forall id: nat :: id in s.processes ==> id < s.nextId
    ensures Frame(s, t, s')
  {
  }

  lemma SweepGains(c: Config, s: Pool, t: nat, s': Pool)
    requires t < |s.threads| == |s'.threads| && SweepStep(c, s, t, s')
    requires PcQuota(c, s, s.threads[t]) && Bounded(c, s) && IdleBelow(c, s) && c.maxTasks >= 1
    ensures Gains(c, s, t, s')
  {
    if s.threads[t].Unlisting? {
      RemoveFirstShrinks(s.idle, s.threads[t].id);
    }
  }

  lemma RetireFrame(c: Config, s: Pool, t: nat, s': Pool)
    requires t < |s.threads| == |s'.threads| && RetireStep(s, t, s')
    requires PcQuota(c, s, s.threads[t]) && forall id: nat :: id in s.processes ==> id < s.nextId
    ensures Frame(s, t, s')
  {
  }

  lemma RetireGains(c: Config, s: Pool, t: nat, s': Pool)
    requires t < |s.threads| == |s'.threads| && RetireStep(s, t, s')
    requires PcQuota(c, s, s.threads[t]) && Bounded(c, s) && IdleBelow(c, s) && c.maxTasks >= 1
    ensures Gains(c, s, t, s')
  {
  }

  lemma ThreadEffects(c: Config, s: Pool, t: nat, s': Pool)
    requires t < |s.threads| == |s'.threads| && ThreadStep(c, s, t, s')
    requires PcQuota(c, s, s.threads[t]) && Bounded(c, s) && IdleBelow(c, s) && c.maxTasks >= 1
    requires forall id: nat :: id in s.processes ==> id < s.nextId
    ensures Frame(s, t, s') && Gains(c, s, t, s')
  {
    if CreateStep(c, s, t, s') || LaunchStep(s, t, s') || WakeStep(c, s, t, s') {
      CreateFrame(c, s, t, s');
      CreateGains(c, s, t, s');
    } else if ServeStep(s, t, s') {
      ServeFrame(c, s, t, s');
      ServeGains(c, s, t, s');
    } else if SettleStep(c, s, t, s') {
      SettleFrame(c, s, t, s');
      SettleGains(c, s, t, s');
    } else if EnrolStep(s, t, s') {
      EnrolFrame(c, s, t, s');
      EnrolGains(c, s, t, s');
    } else if SweepStep(c, s, t, s') {
      SweepFrame(c, s, t, s');
      SweepGains(c, s, t, s');
    } else {
      RetireFrame(c, s, t, s');
      RetireGains(c, s, t, s');
    }
  }

  lemma ThreadQuota(c: Config, s: Pool, t: nat, s': Pool)
    requires Owned(s) && Quota(c, s) && c.maxTasks >= 1 && t < |s.threads| == |s'.threads| && ThreadStep(c, s, t, s')
    ensures Quota(c, s')
  {
    ThreadTrades(c, s, t, s');
    ThreadEffects(c, s, t, s');
    forall u | 0 <= u < |s.threads| && u != t ensures PcQuota(c, s', s'.threads[u]) {
      OthersKeepQuota(c, s, t, s', u);
    }
    TradesShrinkIdle(s, t, s');
    IdleKeepsQuota(c, s, t, s');
  }

  lemma NextQuota(c: Config, s: Pool, s': Pool)
    requires Owned(s) && Quota(c, s) && c.maxTasks >= 1 && Next(c, s, s')
    ensures Quota(c, s')
  {
    var t: nat :| t < |s.threads| && ThreadStep(c, s, t, s');
    ThreadTrades(c, s, t, s');
    ThreadQuota(c, s, t, s');
  }

  lemma InitQuota(c: Config, s: Pool)
    requires Normal(c) && Init(c, s)
    ensures Quota(c, s)
  {
  }

  lemma {:induction false} RunQuota(c: Config, trace: seq<Pool>, i: nat)
    requires Run(c, trace) && i < |trace|
    ensures Quota(c, trace[i])
  {
    if i == 0 {
      InitQuota(c, trace[0]);
    } else {
      RunQuota(c, trace, i - 1);
      RunOwned(c, trace, i - 1);
      assert StepAt(c, trace, i - 1);
      NextQuota(c, trace[i - 1], trace[i]);
    }
  }

  /** In every run: nothing live on the idle list has used up its quota, and no process ever exceeds it. */
  lemma QuotaKept(c: Config, trace: seq<Pool>, i: nat, id: nat)
    requires Run(c, trace) && i < |trace|
    requires id in trace[i].processes
    ensures trace[i].processes[id].tasks <= c.maxTasks
    ensures id in trace[i].idle && id in trace[i].live ==> trace[i].processes[id].tasks < c.maxTasks
    ensures forall t :: 0 <= t < |trace[i].threads| && trace[i].threads[t].Running? && trace[i].threads[t].id == id ==>
              trace[i].processes[id].tasks < c.maxTasks
  {
    RunQuota(c, trace, i);
    forall t | 0 <= t < |trace[i].threads| && trace[i].threads[t].Running? && trace[i].threads[t].id == id
      ensures trace[i].processes[id].tasks < c.maxTasks
    {
      assert PcQuota(c, trace[i], trace[i].threads[t]);
    }
  }
}
