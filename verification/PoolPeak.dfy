/**
 The largest number of processes the pool can reach, over every interleaving: `PeakSize`.  With MinProcesses > 1 this is
 the bound of `PoolLedger`.  With MinProcesses = 1 it is MaxProcesses + 1: whenever a goroutine sets out to create a
 process, either no process is live or every live one is in the hands of another goroutine, so that live processes and
 goroutines set on creating one are together never more than the goroutines.
 */
module PoolPeak {
  import opened Basics
  import opened PoolModel
  import opened PoolMachine
  import opened PoolOwnership
  import opened PoolLedger
  import opened PoolRuns
  import opened PoolOvershoot

  /** The process a goroutine works on. */
  function Has(pc: Pc): Option<nat> {
    match pc
    case Picked(id, _) => Some(id)
    case Claimed(id, _) => Some(id)
    case Holding(id, _) => Some(id)
    case Running(id, _) => Some(id)
    case Answering(id, _, _) => Some(id)
    case Refreshing(id) => Some(id)
    case Snapshotting(id) => Some(id)
    case Judging(id) => Some(id)
    case Returning(id) => Some(id)
    case Inserted(id, _) => Some(id)
    case Counted(id, _) => Some(id)
    case Retiring(id, _) => Some(id)
    case Unlisting(id, _) => Some(id)
    case Tallying(id, _) => Some(id)
    case Retallying(id, _) => Some(id)
    case Stopping(id, _, _) => Some(id)
    case Deleting(id, _, _) => Some(id)
    case _ => None
  }

  predicate HasOne(pc: Pc) {
    Has(pc).Some?
  }

  /** Set on creating a process. */
  predicate Creator(pc: Pc) {
    pc.Checking? || PastCheck(pc) || Poised(pc)
  }

  /** Nothing is left to create after the process that is being created. */
  predicate LastOf(why: Why) {
    match why
    case ForTask(_) => true
    case Refill(left, _) => left == 0
    case Boot(left) => left == 0
  }

  predicate Lone(pc: Pc) {
    match pc
    case Refilling(left, _) => left <= 1
    case Booting(left) => left <= 1
    case Checking(why) => LastOf(why)
    case Admitted(why) => LastOf(why)
    case Launching(why) => LastOf(why)
    case Launched(_, why) => LastOf(why)
    case Inserted(_, why) => LastOf(why)
    case Counted(_, why) => LastOf(why)
    case _ => true
  }

  /** Every live process is on the idle list or in the hands of a goroutine. */
  ghost predicate Covered(s: Pool) {
    forall id :: id in s.live ==> id in s.idle || InHand(s, id)
  }

  ghost predicate InHand(s: Pool, id: nat) {
    exists t :: 0 <= t < |s.threads| && Has(s.threads[t]) == Some(id)
  }

  ghost predicate Tight(c: Config, s: Pool) {
    && |s.threads| == c.maxProcesses + 1
    && (forall t :: 0 <= t < |s.threads| ==> Lone(s.threads[t]))
    && Covered(s)
    && |s.live| + Count(s.threads, Creator) <= |s.threads|
  }

  // ----- what a step does to it

  /** A live process `t` does not cover any more was not its to cover. */
  ghost predicate Covers(s: Pool, t: nat, s': Pool)
    requires t < |s.threads| == |s'.threads|
  {
    forall id :: id in s'.live ==>
      || id in s'.idle || Has(s'.threads[t]) == Some(id)
      || (id in s.live && id !in s.idle && Has(s.threads[t]) != Some(id))
  }

  /** A goroutine sets out to create a process only when the idle list is empty or nothing is live. */
  ghost predicate SetsOut(s: Pool, t: nat, s': Pool)
    requires t < |s.threads| == |s'.threads|
  {
    || |s'.live| - |s.live| + Change(Creator, s.threads[t], s'.threads[t]) <= 0
    || (s'.live == s.live && (s.idle == [] || s.live == {}) && !HasOne(s.threads[t]) && !Creator(s.threads[t]))
  }

  ghost predicate Keeps(s: Pool, t: nat, s': Pool)
    requires t < |s.threads| == |s'.threads|
  {
    Covers(s, t, s') && SetsOut(s, t, s') && Lone(s'.threads[t])
  }

  lemma ServeKeeps(s: Pool, t: nat, s': Pool)
    requires t < |s.threads| == |s'.threads| && Lone(s.threads[t]) && ServeStep(s, t, s')
    ensures Keeps(s, t, s')
  {
  }

  lemma SettleKeeps(c: Config, s: Pool, t: nat, s': Pool)
    requires t < |s.threads| == |s'.threads| && Lone(s.threads[t]) && SettleStep(c, s, t, s')
    ensures Keeps(s, t, s')
  {
  }

  lemma CreateKeeps(c: Config, s: Pool, t: nat, s': Pool)
    requires t < |s.threads| == |s'.threads| && Lone(s.threads[t])
    requires CreateStep(c, s, t, s') || LaunchStep(s, t, s') || WakeStep(c, s, t, s')
    ensures Keeps(s, t, s')
  {
  }

  lemma EnrolKeeps(s: Pool, t: nat, s': Pool)
    requires t < |s.threads| == |s'.threads| && Lone(s.threads[t]) && EnrolStep(s, t, s')
    ensures Keeps(s, t, s')
  {
  }

  lemma {:induction false} RemoveFirstSpares(ids: seq<nat>, id: nat, x: nat)
    requires x in ids && x != id
    ensures x in RemoveFirst(ids, id)
  {
    if ids[0] != id && ids[0] != x {
      RemoveFirstSpares(ids[1..], id, x);
    }
  }

  lemma SweepKeeps(c: Config, s: Pool, t: nat, s': Pool)
    requires t < |s.threads| == |s'.threads| && Lone(s.threads[t]) && c.minProcesses == 1 && SweepStep(c, s, t, s')
    ensures Keeps(s, t, s')
  {
    if s.threads[t].Unlisting? {
      forall x | x in s.idle && x != s.threads[t].id ensures x in s'.idle {
        RemoveFirstSpares(s.idle, s.threads[t].id, x);
      }
    }
  }

  lemma RetireCovers(s: Pool, t: nat, s': Pool)
    requires t < |s.threads| == |s'.threads| && RetireStep(s, t, s')
    ensures Covers(s, t, s')
  {
  }

  lemma RetireSetsOut(s: Pool, t: nat, s': Pool)
    requires t < |s.threads| == |s'.threads| && Lone(s.threads[t]) && RetireStep(s, t, s')
    ensures SetsOut(s, t, s')
  {
    RetireShrinks(s, t, s');
    RetirePc(s, t, s');
  }

  lemma RetirePc(s: Pool, t: nat, s': Pool)
    requires t < |s.threads| == |s'.threads| && RetireStep(s, t, s')
    ensures HasOne(s.threads[t]) || s.threads[t].Closing?
    ensures HasOne(s'.threads[t]) || s'.threads[t].Closing? || s'.threads[t].Recounting?
    ensures Lone(s'.threads[t])
  {
  }

  lemma RetireShrinks(s: Pool, t: nat, s': Pool)
    requires t < |s.threads| == |s'.threads| && RetireStep(s, t, s')
    ensures |s'.live| <= |s.live|
  {
    if s.threads[t].Deleting? {
      assert s'.live <= s.live && s.live == s'.live + (s.live * {s.threads[t].id});
    }
  }

  lemma RetireKeeps(s: Pool, t: nat, s': Pool)
    requires t < |s.threads| == |s'.threads| && Lone(s.threads[t]) && RetireStep(s, t, s')
    ensures Keeps(s, t, s')
  {
    RetireCovers(s, t, s');
    RetireSetsOut(s, t, s');
    RetirePc(s, t, s');
  }

  lemma ThreadKeeps(c: Config, s: Pool, t: nat, s': Pool)
    requires t < |s.threads| == |s'.threads| && Lone(s.threads[t]) && c.minProcesses == 1 && ThreadStep(c, s, t, s')
    ensures Keeps(s, t, s')
  {
    if CreateStep(c, s, t, s') || LaunchStep(s, t, s') || WakeStep(c, s, t, s') {
      CreateKeeps(c, s, t, s');
    } else if ServeStep(s, t, s') {
      ServeKeeps(s, t, s');
    } else if SettleStep(c, s, t, s') {
      SettleKeeps(c, s, t, s');
    } else if EnrolStep(s, t, s') {
      EnrolKeeps(s, t, s');
    } else if SweepStep(c, s, t, s') {
      SweepKeeps(c, s, t, s');
    } else {
      RetireKeeps(s, t, s');
    }
  }

  // ----- counting

  /** As many processes in hand as goroutines holding one, at most. */
  lemma {:induction false} CountHolders(threads: seq<Pc>, ids: set<nat>)
    requires forall id :: id in ids ==> exists t :: 0 <= t < |threads| && Has(threads[t]) == Some(id)
    ensures |ids| <= Count(threads, HasOne)
  {
    if threads == [] {
      assert ids == {};
    } else {
      var rest := ids - if HasOne(threads[0]) then {Has(threads[0]).value} else {};
      forall id | id in rest ensures exists t :: 0 <= t < |threads[1..]| && Has(threads[1..][t]) == Some(id) {
        var t :| 0 <= t < |threads| && Has(threads[t]) == Some(id);
        assert threads[1..][t - 1] == threads[t];
      }
      CountHolders(threads[1..], rest);
    }
  }

  lemma {:induction false} CountDisjoint(threads: seq<Pc>)
    ensures Count(threads, HasOne) + Count(threads, Creator) <= |threads|
  {
    if threads != [] {
      CountDisjoint(threads[1..]);
    }
  }

  lemma {:induction false} CountDisjointBut(threads: seq<Pc>, t: nat)
    requires t < |threads| && !HasOne(threads[t]) && !Creator(threads[t])
    ensures Count(threads, HasOne) + Count(threads, Creator) < |threads|
  {
    if t == 0 {
      CountDisjoint(threads[1..]);
    } else {
      CountDisjointBut(threads[1..], t - 1);
    }
  }

  // ----- over a whole run

  lemma CoversCovered(s: Pool, t: nat, s': Pool)
    requires Covered(s) && Moves(s, t, s') && Covers(s, t, s')
    ensures Covered(s')
  {
    forall id | id in s'.live ensures id in s'.idle || InHand(s', id) {
      if id !in s'.idle && Has(s'.threads[t]) != Some(id) {
        var u :| 0 <= u < |s.threads| && Has(s.threads[u]) == Some(id);
        assert s'.threads[u] == s.threads[u];
      }
    }
  }

  lemma SetsOutFits(s: Pool, t: nat, s': Pool)
    requires Covered(s) && Moves(s, t, s') && SetsOut(s, t, s')
    requires |s.live| + Count(s.threads, Creator) <= |s.threads|
    ensures |s'.live| + Count(s'.threads, Creator) <= |s'.threads|
  {
    assert s'.threads == s.threads[t := s'.threads[t]];
    CountUpdate(s.threads, t, s'.threads[t], Creator);
    if |s'.live| - |s.live| + Change(Creator, s.threads[t], s'.threads[t]) > 0 {
      CountHolders(s.threads, s.live);
      CountDisjointBut(s.threads, t);
    }
  }

  lemma NextTight(c: Config, s: Pool, s': Pool)
    requires Tight(c, s) && c.minProcesses == 1 && Next(c, s, s')
    ensures Tight(c, s')
  {
    var t: nat :| t < |s.threads| && ThreadStep(c, s, t, s');
    ThreadTrades(c, s, t, s');
    ThreadKeeps(c, s, t, s');
    CoversCovered(s, t, s');
    SetsOutFits(s, t, s');
  }

  lemma InitTight(c: Config, s: Pool)
    requires Normal(c) && c.minProcesses == 1 && Init(c, s)
    ensures Tight(c, s)
  {
    assert forall t :: 0 <= t < |s.threads| ==> s.threads[t].Waiting? || s.threads[t].Booting?;
    CountAll(s.threads, Creator);
  }

  lemma {:induction false} RunTight(c: Config, trace: seq<Pool>, i: nat)
    requires Run(c, trace) && c.minProcesses == 1 && i < |trace|
    ensures Tight(c, trace[i])
  {
    if i == 0 {
      InitTight(c, trace[0]);
    } else {
      RunTight(c, trace, i - 1);
      assert StepAt(c, trace, i - 1);
      NextTight(c, trace[i - 1], trace[i]);
    }
  }

  /** No run has more live processes than `PeakSize`. */
  lemma PeakBound(c: Config, trace: seq<Pool>, i: nat)
    requires Run(c, trace) && i < |trace|
    ensures |trace[i].live| <= PeakSize(c)
  {
    if c.minProcesses == 1 {
      RunTight(c, trace, i);
    } else {
      SizeBound(c, trace, i);
    }
  }

  /** `PeakSize` is the maximum: no run exceeds it, and from every initial state some run attains it. */
  lemma LargestSize(c: Config, s: Pool)
    requires Normal(c) && Init(c, s)
    ensures forall trace: seq<Pool>, i: nat :: Run(c, trace) && i < |trace| ==> |trace[i].live| <= PeakSize(c)
    ensures exists trace: seq<Pool> :: Run(c, trace) && trace[0] == s && |Last(trace).live| == PeakSize(c)
  {
    forall trace: seq<Pool>, i: nat | Run(c, trace) && i < |trace| ensures |trace[i].live| <= PeakSize(c) {
      PeakBound(c, trace, i);
    }
    var trace := CapIsExceeded(c, s);
  }
}
