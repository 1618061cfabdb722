/**
 The pool's counters and its size, over every interleaving: what StartingProcesses and StoppingProcesses count, by how
 much Idle + Busy and Total drift apart, and how far the number of processes can exceed the configured maximum.
 */
module PoolLedger {
  import opened PoolModel
  import opened PoolMachine
  import opened PoolOwnership

  function Count(threads: seq<Pc>, p: Pc -> bool): nat {
    if threads == [] then 0 else (if p(threads[0]) then 1 else 0) + Count(threads[1..], p)
  }

  function Weight(p: Pc -> bool, pc: Pc): nat {
    if p(pc) then 1 else 0
  }

  lemma {:induction false} CountUpdate(threads: seq<Pc>, t: nat, pc: Pc, p: Pc -> bool)
    requires t < |threads|
    ensures Count(threads[t := pc], p) == Count(threads, p) - Weight(p, threads[t]) + Weight(p, pc)
  {
    if t == 0 {
      assert threads[0 := pc][1..] == threads[1..];
    } else {
      assert threads[t := pc][1..] == threads[1..][t - 1 := pc];
      CountUpdate(threads[1..], t - 1, pc, p);
    }
  }

  lemma {:induction false} CountAtMost(threads: seq<Pc>, t: nat, p: Pc -> bool)
    requires t < |threads| && !p(threads[t])
    ensures Count(threads, p) < |threads|
  {
    if t == 0 {
      CountAll(threads[1..], p);
    } else {
      CountAtMost(threads[1..], t - 1, p);
    }
  }

  lemma {:induction false} CountAll(threads: seq<Pc>, p: Pc -> bool)
    ensures Count(threads, p) <= |threads|
  {
    if threads != [] {
      CountAll(threads[1..], p);
    }
  }

  lemma {:induction false} CountNone(threads: seq<Pc>, p: Pc -> bool)
    requires forall t :: 0 <= t < |threads| ==> !p(threads[t])
    ensures Count(threads, p) == 0
  {
    if threads != [] {
      CountNone(threads[1..], p);
    }
  }

  // ----- what the counters count

  /** Between the increment of StartingProcesses and its decrement. */
  predicate Creating(pc: Pc) {
    pc.Launching? || pc.Launched? || pc.Inserted?
  }

  /** Between the increment of StoppingProcesses and its decrement. */
  predicate Recycling(pc: Pc) {
    pc.Retallying? || pc.Stopping? || pc.Deleting? || pc.Closing?
  }

  /** Of these, the recycles that decremented Idle or Busy. */
  predicate Matched(pc: Pc) {
    (pc.Stopping? && pc.matched) || (pc.Deleting? && pc.matched) || (pc.Closing? && pc.matched)
  }

  /** In the process map, but not yet in TotalProcesses. */
  predicate Uncounted(pc: Pc) {
    pc.Inserted?
  }

  /** Out of the process map, but still in TotalProcesses. */
  predicate Leaving(pc: Pc) {
    pc.Closing?
  }

  /** Past the check against MaxProcesses, but not yet in the process map. */
  predicate PastCheck(pc: Pc) {
    pc.Admitted? || pc.Launching? || pc.Launched?
  }

  ghost predicate Ledger(s: Pool) {
    && s.counters.starting == Count(s.threads, Creating)
    && s.counters.stopping == Count(s.threads, Recycling)
    && s.counters.idle + s.counters.busy - s.counters.total == s.unmatched - Count(s.threads, Matched)
    && s.counters.total == |s.live| - Count(s.threads, Uncounted) + Count(s.threads, Leaving) - s.repeats
  }

  ghost predicate SizeOk(c: Config, s: Pool) {
    && |s.threads| == c.maxProcesses + 1
    && |s.live| + Count(s.threads, PastCheck) <= 2 * c.maxProcesses
  }

  // ----- every step keeps the books

  function Change(p: Pc -> bool, pc: Pc, pc': Pc): int {
    Weight(p, pc') - Weight(p, pc)
  }

  ghost predicate Booked(s: Pool, t: nat, s': Pool)
    requires t < |s.threads| == |s'.threads|
  {
    var pc, pc' := s.threads[t], s'.threads[t];
    var k, k' := s.counters, s'.counters;
    && s'.threads == s.threads[t := pc']
    && k'.starting - k.starting == Change(Creating, pc, pc')
    && k'.stopping - k.stopping == Change(Recycling, pc, pc')
    && (k'.idle + k'.busy - k'.total) - (k.idle + k.busy - k.total) == s'.unmatched - s.unmatched - Change(Matched, pc, pc')
    && k'.total - k.total == |s'.live| - |s.live| - Change(Uncounted, pc, pc') + Change(Leaving, pc, pc') - (s'.repeats - s.repeats)
  }

  /** Only the check against the maximum lets the pool grow. */
  ghost predicate Admits(c: Config, s: Pool, t: nat, s': Pool)
    requires t < |s.threads| == |s'.threads|
  {
    || |s'.live| - |s.live| + Change(PastCheck, s.threads[t], s'.threads[t]) <= 0
    || (!PastCheck(s.threads[t]) && PastCheck(s'.threads[t]) && s'.live == s.live && |s.live| < c.maxProcesses)
  }

  lemma ServeBooked(c: Config, s: Pool, t: nat, s': Pool)
    requires t < |s.threads| == |s'.threads| && ServeStep(s, t, s')
    ensures Booked(s, t, s') && Admits(c, s, t, s')
  {
  }

  lemma SettleBooked(c: Config, s: Pool, t: nat, s': Pool)
    requires t < |s.threads| == |s'.threads| && SettleStep(c, s, t, s')
    ensures Booked(s, t, s') && Admits(c, s, t, s')
  {
  }

  lemma CreateBooked(c: Config, s: Pool, t: nat, s': Pool)
    requires t < |s.threads| == |s'.threads| && CreateStep(c, s, t, s')
    ensures Booked(s, t, s') && Admits(c, s, t, s')
  {
  }

  lemma LaunchBooked(c: Config, s: Pool, t: nat, s': Pool)
    requires t < |s.threads| == |s'.threads| && LaunchStep(s, t, s')
    ensures Booked(s, t, s') && Admits(c, s, t, s')
  {
  }

  lemma EnrolBooked(c: Config, s: Pool, t: nat, s': Pool)
    requires t < |s.threads| == |s'.threads| && EnrolStep(s, t, s')
    requires s.threads[t].Launched? ==> s.threads[t].id !in s.live
    ensures Booked(s, t, s') && Admits(c, s, t, s')
  {
  }

  lemma SweepBooked(c: Config, s: Pool, t: nat, s': Pool)
    requires t < |s.threads| == |s'.threads| && SweepStep(c, s, t, s')
    ensures Booked(s, t, s') && Admits(c, s, t, s')
  {
  }

  lemma RetireBooked(c: Config, s: Pool, t: nat, s': Pool)
    requires t < |s.threads| == |s'.threads| && RetireStep(s, t, s')
    ensures Booked(s, t, s') && Admits(c, s, t, s')
  {
  }

  lemma WakeBooked(c: Config, s: Pool, t: nat, s': Pool)
    requires t < |s.threads| == |s'.threads| && WakeStep(c, s, t, s')
    ensures Booked(s, t, s') && Admits(c, s, t, s')
  {
  }

  lemma ThreadBooked(c: Config, s: Pool, t: nat, s': Pool)
    requires t < |s.threads| == |s'.threads| && ThreadStep(c, s, t, s')
    requires s.threads[t].Launched? ==> s.threads[t].id !in s.live
    ensures Booked(s, t, s') && Admits(c, s, t, s')
  {
    if WakeStep(c, s, t, s') {
      WakeBooked(c, s, t, s');
    } else if ServeStep(s, t, s') {
      ServeBooked(c, s, t, s');
    } else if SettleStep(c, s, t, s') {
      SettleBooked(c, s, t, s');
    } else if CreateStep(c, s, t, s') {
      CreateBooked(c, s, t, s');
    } else if LaunchStep(s, t, s') {
      LaunchBooked(c, s, t, s');
    } else if EnrolStep(s, t, s') {
      EnrolBooked(c, s, t, s');
    } else if SweepStep(c, s, t, s') {
      SweepBooked(c, s, t, s');
    } else {
      RetireBooked(c, s, t, s');
    }
  }

  lemma BookedLedger(s: Pool, t: nat, s': Pool)
    requires t < |s.threads| == |s'.threads| && Ledger(s) && Booked(s, t, s')
    ensures Ledger(s')
  {
    var pc' := s'.threads[t];
    CountUpdate(s.threads, t, pc', Creating);
    CountUpdate(s.threads, t, pc', Recycling);
    CountUpdate(s.threads, t, pc', Matched);
    CountUpdate(s.threads, t, pc', Uncounted);
    CountUpdate(s.threads, t, pc', Leaving);
  }

  lemma AdmitsSize(c: Config, s: Pool, t: nat, s': Pool)
    requires t < |s.threads| == |s'.threads| && SizeOk(c, s) && Admits(c, s, t, s')
    requires s'.threads == s.threads[t := s'.threads[t]]
    ensures SizeOk(c, s')
  {
    CountUpdate(s.threads, t, s'.threads[t], PastCheck);
    if !PastCheck(s.threads[t]) {
      CountAtMost(s.threads, t, PastCheck);
    }
  }

  lemma NextBooks(c: Config, s: Pool, s': Pool)
    requires Owned(s) && Ledger(s) && SizeOk(c, s) && Next(c, s, s')
    ensures Ledger(s') && SizeOk(c, s')
  {
    var t: nat :| t < |s.threads| && ThreadStep(c, s, t, s');
    ThreadTrades(c, s, t, s');
    ThreadBooked(c, s, t, s');
    BookedLedger(s, t, s');
    AdmitsSize(c, s, t, s');
  }

  lemma InitBooks(c: Config, s: Pool)
    requires Normal(c) && Init(c, s)
    ensures Ledger(s) && SizeOk(c, s)
  {
    assert forall t :: 0 <= t < |s.threads| ==> s.threads[t].Waiting? || s.threads[t].Booting?;
    CountNone(s.threads, Creating);
    CountNone(s.threads, Recycling);
    CountNone(s.threads, Matched);
    CountNone(s.threads, Uncounted);
    CountNone(s.threads, Leaving);
    CountNone(s.threads, PastCheck);
  }

  /** At every step of every interleaving the counters stand in exactly this relation. */
  lemma {:induction false} RunBooks(c: Config, trace: seq<Pool>, i: nat)
    requires Run(c, trace) && i < |trace|
    ensures Ledger(trace[i]) && SizeOk(c, trace[i])
  {
    if i == 0 {
      InitBooks(c, trace[0]);
    } else {
      RunBooks(c, trace, i - 1);
      RunOwned(c, trace, i - 1);
      assert StepAt(c, trace, i - 1);
      NextBooks(c, trace[i - 1], trace[i]);
    }
  }

  /** Idle + Busy = Total, exactly when the two kinds of recycle that break it cancel out. */
  lemma BalanceIff(c: Config, trace: seq<Pool>, i: nat)
    requires Run(c, trace) && i < |trace|
    ensures var s := trace[i];
            s.counters.idle + s.counters.busy == s.counters.total <==> s.unmatched == Count(s.threads, Matched)
  {
    RunBooks(c, trace, i);
  }

  /** Live processes never exceed twice the configured maximum. */
  lemma SizeBound(c: Config, trace: seq<Pool>, i: nat)
    requires Run(c, trace) && i < |trace|
    ensures |trace[i].live| + Count(trace[i].threads, PastCheck) <= 2 * c.maxProcesses
    ensures |trace[i].live| <= 2 * c.maxProcesses
  {
    RunBooks(c, trace, i);
  }
}
