/**
 Process exclusivity and the task quota of the pool, over every interleaving: no process id is ever in two places,
 so no two workers share a process, and no process completes more tasks than its quota.
 */
module PoolOwnership {
  import opened Basics
  import opened PoolModel
  import opened PoolMachine

  /** The process id a goroutine will put on the idle list, unless it finds it stale. */
  function Holds(pc: Pc): Option<nat> {
    match pc
    case Picked(id, _) => Some(id)
    case Claimed(id, _) => Some(id)
    case Holding(id, _) => Some(id)
    case Running(id, _) => Some(id)
    case Answering(id, _, _) => Some(id)
    case Refreshing(id) => Some(id)
    case Snapshotting(id) => Some(id)
    case Judging(id) => Some(id)
    case Returning(id) => Some(id)
    case Launched(id, _) => Some(id)
    case Inserted(id, _) => Some(id)
    case Counted(id, _) => Some(id)
    case _ => None
  }

  function AfterIds(after: After): set<nat> {
    if after.ToSweep? then set id | id in after.rest else {}
  }

  function WhyIds(why: Why): set<nat> {
    if why.Refill? then AfterIds(why.after) else {}
  }

  /** Every process id a goroutine refers to. */
  function Mentions(pc: Pc): set<nat> {
    (if Holds(pc).Some? then {Holds(pc).value} else {}) +
    match pc
    case Checking(why) => WhyIds(why)
    case Admitted(why) => WhyIds(why)
    case Launching(why) => WhyIds(why)
    case Launched(_, why) => WhyIds(why)
    case Inserted(_, why) => WhyIds(why)
    case Counted(_, why) => WhyIds(why)
    case Refilling(_, after) => AfterIds(after)
    case Retiring(id, after) => {id} + AfterIds(after)
    case Unlisting(id, after) => {id} + AfterIds(after)
    case Tallying(id, after) => {id} + AfterIds(after)
    case Retallying(id, after) => {id} + AfterIds(after)
    case Stopping(id, _, after) => {id} + AfterIds(after)
    case Deleting(id, _, after) => {id} + AfterIds(after)
    case Closing(id, _, after) => {id} + AfterIds(after)
    case Recounting(after) => AfterIds(after)
    case Sweeping(rest) => set id | id in rest
    case _ => {}
  }

  /** Only ids that have been given out are in use. */
  ghost predicate Known(s: Pool) {
    && (forall id: nat :: id in s.processes <==> id < s.nextId)
    && (forall id :: id in s.live ==> id < s.nextId)
    && (forall id :: id in s.idle ==> id < s.nextId)
    && (forall t, id :: 0 <= t < |s.threads| && id in Mentions(s.threads[t]) ==> id < s.nextId)
  }

  /** A process that has been started but not yet put into the map is known to its creator alone. */
  ghost predicate Private(s: Pool) {
    forall t :: 0 <= t < |s.threads| && s.threads[t].Launched? ==>
      && s.threads[t].id !in s.live
      && forall u :: 0 <= u < |s.threads| && u != t ==> s.threads[t].id !in Mentions(s.threads[u])
  }

  ghost predicate NoDuplicates(ids: seq<nat>) {
    forall i, j :: 0 <= i < j < |ids| ==> ids[i] != ids[j]
  }

  /** Each process id occurs at most once across the idle list and the goroutines holding one. */
  ghost predicate Exclusive(s: Pool) {
    && NoDuplicates(s.idle)
    && (forall t :: 0 <= t < |s.threads| && Holds(s.threads[t]).Some? ==> Holds(s.threads[t]).value !in s.idle)
    && (forall t, u :: 0 <= t < u < |s.threads| && Holds(s.threads[t]).Some? ==> Holds(s.threads[t]) != Holds(s.threads[u]))
  }

  ghost predicate Owned(s: Pool) {
    Known(s) && Exclusive(s) && Private(s)
  }

  lemma InitOwned(c: Config, s: Pool)
    requires Normal(c) && Init(c, s)
    ensures Owned(s)
  {
  }

  // ----- the ways a step can touch the ownership of ids

  /** `t` moves from `pc` to `pc'`, everybody else stays. */
  ghost predicate Moves(s: Pool, t: nat, s': Pool) {
    && t < |s.threads| == |s'.threads|
    && (forall u :: 0 <= u < |s.threads| && u != t ==> s'.threads[u] == s.threads[u])
  }

  lemma Keep(s: Pool, t: nat, s': Pool)
    requires Exclusive(s) && Moves(s, t, s') && s'.idle == s.idle
    requires Holds(s'.threads[t]) == Holds(s.threads[t]) || Holds(s'.threads[t]) == None
    ensures Exclusive(s')
  {
  }

  lemma Pop(s: Pool, t: nat, s': Pool)
    requires Exclusive(s) && Moves(s, t, s') && s.idle != [] && s'.idle == s.idle[1..]
    requires Holds(s.threads[t]) == None && Holds(s'.threads[t]) == Some(s.idle[0])
    ensures Exclusive(s')
  {
  }

  lemma Push(s: Pool, t: nat, s': Pool, id: nat)
    requires Exclusive(s) && Moves(s, t, s') && s'.idle == s.idle + [id]
    requires Holds(s.threads[t]) == Some(id) && Holds(s'.threads[t]) == None
    ensures Exclusive(s')
  {
  }

  lemma Fresh(s: Pool, t: nat, s': Pool)
    requires Owned(s) && Moves(s, t, s') && s'.idle == s.idle
    requires Holds(s'.threads[t]) == Some(s.nextId)
    ensures Exclusive(s')
  {
    forall u | 0 <= u < |s.threads| && Holds(s.threads[u]).Some? ensures Holds(s.threads[u]).value < s.nextId {
      assert Holds(s.threads[u]).value in Mentions(s.threads[u]);
    }
  }

  lemma Drop(s: Pool, t: nat, s': Pool, id: nat)
    requires Exclusive(s) && Moves(s, t, s') && s'.idle == RemoveFirst(s.idle, id)
    requires Holds(s.threads[t]) == None && Holds(s'.threads[t]) == None
    ensures Exclusive(s')
  {
    RemoveFirstMembers(s.idle, id);
  }

  lemma {:induction false} RemoveFirstMembers(ids: seq<nat>, id: nat)
    requires NoDuplicates(ids)
    ensures NoDuplicates(RemoveFirst(ids, id))
    ensures forall x :: x in RemoveFirst(ids, id) <==> x in ids && x != id
  {
    if ids != [] {
      assert ids == [ids[0]] + ids[1..];
      assert NoDuplicates(ids[1..]);
      RemoveFirstMembers(ids[1..], id);
      var rest := RemoveFirst(ids[1..], id);
      if ids[0] != id {
        assert RemoveFirst(ids, id) == [ids[0]] + rest;
        assert ids[0] !in ids[1..];
      }
    }
  }

  /** `t` learns of ids only from what it knew, the idle list, the process map, or by making one up. */
  ghost predicate Learns(s: Pool, t: nat, s': Pool)
    requires t < |s.threads| == |s'.threads|
  {
    forall id :: id in Mentions(s'.threads[t]) ==>
      id in Mentions(s.threads[t]) || id in s.idle || id in s.live || s.nextId <= id < s'.nextId
  }

  ghost predicate Grows(s: Pool, t: nat, s': Pool) {
    && Moves(s, t, s')
    && (forall id :: id in s'.live ==> id in s.live || (s.threads[t].Launched? && s.threads[t].id == id && !s'.threads[t].Launched?))
    && s.nextId <= s'.nextId
    && (forall id: nat :: id in s'.processes <==> id in s.processes || s.nextId <= id < s'.nextId)
    && (s'.threads[t].Launched? ==> s'.threads[t].id == s.nextId < s'.nextId)
  }

  lemma TradesShrinkIdle(s: Pool, t: nat, s': Pool)
    requires t < |s.threads| == |s'.threads| && Trades(s, t, s')
    ensures forall id :: id in s'.idle ==> id in s.idle || Holds(s.threads[t]) == Some(id)
  {
    if id :| s'.idle == RemoveFirst(s.idle, id) {
      RemoveFirstShrinks(s.idle, id);
    }
  }

  lemma LearnsKnown(s: Pool, t: nat, s': Pool)
    requires Known(s) && Grows(s, t, s') && Learns(s, t, s') && Trades(s, t, s')
    ensures Known(s')
  {
    TradesShrinkIdle(s, t, s');
    forall u, id | 0 <= u < |s.threads| && id in Mentions(s'.threads[u]) ensures id < s'.nextId {
      if u != t {
        assert id in Mentions(s.threads[u]);
      }
    }
    assert Holds(s.threads[t]).Some? ==> Holds(s.threads[t]).value in Mentions(s.threads[t]);
    assert s.threads[t].Launched? ==> s.threads[t].id in Mentions(s.threads[t]);
  }

  lemma LearnsPrivate(s: Pool, t: nat, s': Pool)
    requires Owned(s) && Grows(s, t, s') && Learns(s, t, s')
    ensures Private(s')
  {
    forall u | 0 <= u < |s.threads| && s'.threads[u].Launched?
      ensures s'.threads[u].id !in s'.live
      ensures forall w :: 0 <= w < |s.threads| && w != u ==> s'.threads[u].id !in Mentions(s'.threads[w])
    {
      if u == t {
        assert forall w :: 0 <= w < |s.threads| && w != u ==> s.nextId !in Mentions(s.threads[w]);
      } else {
        var id := s.threads[u].id;
        assert id in Mentions(s.threads[u]) && Holds(s.threads[u]) == Some(id);
        assert id !in Mentions(s.threads[t]) && id !in s.idle && id !in s.live && id < s.nextId;
        assert s.threads[t].Launched? ==> s.threads[t].id in Mentions(s.threads[t]);
      }
    }
  }

  /** The idle list and what `t` holds change together, in one of five ways. */
  ghost predicate Trades(s: Pool, t: nat, s': Pool)
    requires t < |s.threads| == |s'.threads|
  {
    var held, held' := Holds(s.threads[t]), Holds(s'.threads[t]);
    || (s'.idle == s.idle && (held' == held || held' == None))
    || (s.idle != [] && s'.idle == s.idle[1..] && held == None && held' == Some(s.idle[0]))
    || (held.Some? && s'.idle == s.idle + [held.value] && held' == None)
    || (s'.idle == s.idle && held' == Some(s.nextId))
    || (held == None && held' == None && exists id :: s'.idle == RemoveFirst(s.idle, id))
  }

  lemma TradesOwned(s: Pool, t: nat, s': Pool)
    requires Owned(s) && Grows(s, t, s') && Learns(s, t, s') && Trades(s, t, s')
    ensures Owned(s')
  {
    var held, held' := Holds(s.threads[t]), Holds(s'.threads[t]);
    if s'.idle == s.idle && (held' == held || held' == None) {
      Keep(s, t, s');
    } else if s.idle != [] && s'.idle == s.idle[1..] && held == None && held' == Some(s.idle[0]) {
      Pop(s, t, s');
    } else if held.Some? && s'.idle == s.idle + [held.value] && held' == None {
      Push(s, t, s', held.value);
    } else if held' == Some(s.nextId) {
      Fresh(s, t, s');
    } else {
      var id :| s'.idle == RemoveFirst(s.idle, id);
      Drop(s, t, s', id);
    }
    LearnsKnown(s, t, s');
    LearnsPrivate(s, t, s');
  }

  // ----- every step is of that kind

  lemma ServeLearns(s: Pool, t: nat, s': Pool)
    requires t < |s.threads| == |s'.threads| && ServeStep(s, t, s')
    ensures Learns(s, t, s')
  {
  }

  lemma ServeTrades(s: Pool, t: nat, s': Pool)
    requires t < |s.threads| && ServeStep(s, t, s')
    ensures Grows(s, t, s') && Trades(s, t, s')
  {
  }

  lemma SettleLearns(c: Config, s: Pool, t: nat, s': Pool)
    requires t < |s.threads| == |s'.threads| && SettleStep(c, s, t, s')
    ensures Learns(s, t, s')
  {
  }

  lemma SettleTrades(c: Config, s: Pool, t: nat, s': Pool)
    requires t < |s.threads| && SettleStep(c, s, t, s')
    ensures Grows(s, t, s') && Trades(s, t, s')
  {
  }

  /** The next step of a goroutine that is about to create a process, whatever the outcome. */
  ghost predicate CreateMove(pc: Pc, pc': Pc) {
    match pc
    case Checking(why) => pc' == Failing(why) || pc' == Admitted(why)
    case Admitted(why) => pc' == Launching(why)
    case Refilling(left, after) => pc' == Resume(after) || (left > 0 && pc' == Checking(Refill(left - 1, after)))
    case Booting(left) => pc' == Waiting || (left > 0 && pc' == Checking(Boot(left - 1)))
    case _ => false
  }

  lemma CreatePc(c: Config, s: Pool, t: nat, s': Pool)
    requires t < |s.threads| == |s'.threads| && CreateStep(c, s, t, s')
    ensures CreateMove(s.threads[t], s'.threads[t])
  {
  }

  lemma CreateMentions(pc: Pc, pc': Pc)
    requires CreateMove(pc, pc')
    ensures Mentions(pc') <= Mentions(pc)
  {
  }

  lemma CreateLearns(c: Config, s: Pool, t: nat, s': Pool)
    requires t < |s.threads| == |s'.threads| && CreateStep(c, s, t, s')
    ensures Learns(s, t, s')
  {
    CreatePc(c, s, t, s');
    CreateMentions(s.threads[t], s'.threads[t]);
  }

  lemma CreateTrades(c: Config, s: Pool, t: nat, s': Pool)
    requires t < |s.threads| && CreateStep(c, s, t, s')
    ensures Grows(s, t, s') && Trades(s, t, s')
  {
  }

  lemma LaunchLearns(s: Pool, t: nat, s': Pool)
    requires t < |s.threads| == |s'.threads| && LaunchStep(s, t, s')
    ensures Learns(s, t, s')
  {
  }

  lemma LaunchTrades(s: Pool, t: nat, s': Pool)
    requires t < |s.threads| && LaunchStep(s, t, s')
    ensures Grows(s, t, s') && Trades(s, t, s')
  {
  }

  lemma EnrolLearns(s: Pool, t: nat, s': Pool)
    requires t < |s.threads| == |s'.threads| && EnrolStep(s, t, s')
    ensures Learns(s, t, s')
  {
  }

  lemma EnrolTrades(s: Pool, t: nat, s': Pool)
    requires t < |s.threads| && EnrolStep(s, t, s')
    ensures Grows(s, t, s') && Trades(s, t, s')
  {
  }

  /** The next step of the sweep or of a recycle that has not reached the statistics. */
  ghost predicate SweepMove(pc: Pc, pc': Pc) {
    match pc
    case Sweeping(rest) =>
      if rest == [] then pc' == Recounting(ToWait)
      else pc' == Retiring(rest[0], ToSweep(rest[1..])) || pc' == Sweeping(rest[1..])
    case Retiring(id, after) => pc' == Unlisting(id, after) || pc' == Resume(after)
    case Unlisting(id, after) => pc' == Tallying(id, after)
    case Recounting(after) => pc'.Refilling? && pc'.after == after
    case _ => false
  }

  lemma SweepPc(c: Config, s: Pool, t: nat, s': Pool)
    requires t < |s.threads| == |s'.threads| && SweepStep(c, s, t, s')
    ensures SweepMove(s.threads[t], s'.threads[t])
  {
  }

  lemma SweepMentions(pc: Pc, pc': Pc)
    requires SweepMove(pc, pc')
    ensures Mentions(pc') <= Mentions(pc)
  {
  }

  lemma SweepLearns(c: Config, s: Pool, t: nat, s': Pool)
    requires t < |s.threads| == |s'.threads| && SweepStep(c, s, t, s')
    ensures Learns(s, t, s')
  {
    SweepPc(c, s, t, s');
    SweepMentions(s.threads[t], s'.threads[t]);
  }

  lemma SweepTrades(c: Config, s: Pool, t: nat, s': Pool)
    requires t < |s.threads| && SweepStep(c, s, t, s')
    ensures Grows(s, t, s') && Trades(s, t, s')
  {
  }

  lemma RetireLearns(s: Pool, t: nat, s': Pool)
    requires t < |s.threads| == |s'.threads| && RetireStep(s, t, s')
    ensures Learns(s, t, s')
  {
  }

  lemma RetireTrades(s: Pool, t: nat, s': Pool)
    requires t < |s.threads| && RetireStep(s, t, s')
    ensures Grows(s, t, s') && Trades(s, t, s')
  {
  }

  lemma WakeLearns(c: Config, s: Pool, t: nat, s': Pool)
    requires t < |s.threads| == |s'.threads| && WakeStep(c, s, t, s')
    ensures Learns(s, t, s')
  {
  }

  lemma WakeTrades(c: Config, s: Pool, t: nat, s': Pool)
    requires t < |s.threads| && WakeStep(c, s, t, s')
    ensures Grows(s, t, s') && Trades(s, t, s')
  {
  }

  lemma ThreadTrades(c: Config, s: Pool, t: nat, s': Pool)
    requires t < |s.threads| && ThreadStep(c, s, t, s')
    ensures Grows(s, t, s') && Learns(s, t, s') && Trades(s, t, s')
  {
    if WakeStep(c, s, t, s') {
      WakeTrades(c, s, t, s');
      WakeLearns(c, s, t, s');
    } else if ServeStep(s, t, s') {
      ServeTrades(s, t, s');
      ServeLearns(s, t, s');
    } else if SettleStep(c, s, t, s') {
      SettleTrades(c, s, t, s');
      SettleLearns(c, s, t, s');
    } else if CreateStep(c, s, t, s') {
      CreateTrades(c, s, t, s');
      CreateLearns(c, s, t, s');
    } else if LaunchStep(s, t, s') {
      LaunchTrades(s, t, s');
      LaunchLearns(s, t, s');
    } else if EnrolStep(s, t, s') {
      EnrolTrades(s, t, s');
      EnrolLearns(s, t, s');
    } else if SweepStep(c, s, t, s') {
      SweepTrades(c, s, t, s');
      SweepLearns(c, s, t, s');
    } else {
      RetireTrades(s, t, s');
      RetireLearns(s, t, s');
    }
  }

  lemma NextOwned(c: Config, s: Pool, s': Pool)
    requires Owned(s) && Next(c, s, s')
    ensures Owned(s')
  {
    var t: nat :| t < |s.threads| && ThreadStep(c, s, t, s');
    ThreadTrades(c, s, t, s');
    TradesOwned(s, t, s');
  }

  lemma {:induction false} RunOwned(c: Config, trace: seq<Pool>, i: nat)
    requires Run(c, trace) && i < |trace|
    ensures Owned(trace[i])
  {
    if i == 0 {
      InitOwned(c, trace[0]);
    } else {
      RunOwned(c, trace, i - 1);
      assert StepAt(c, trace, i - 1);
      NextOwned(c, trace[i - 1], trace[i]);
    }
  }

  /** No two goroutines ever run tasks on the same process, and none runs one on a process that is on the idle list. */
  lemma NoSharedProcess(c: Config, trace: seq<Pool>, i: nat, t: nat, u: nat)
    requires Run(c, trace) && i < |trace|
    requires t < |trace[i].threads| && u < |trace[i].threads| && trace[i].threads[t].Running? && trace[i].threads[u].Running?
    requires trace[i].threads[t].id == trace[i].threads[u].id
    ensures t == u && trace[i].threads[t].id !in trace[i].idle
  {
    RunOwned(c, trace, i);
    var s := trace[i];
    assert Holds(s.threads[t]) == Holds(s.threads[u]);
  }
}
