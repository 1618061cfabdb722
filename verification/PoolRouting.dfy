/**
 Reply routing, over every interleaving: each request taken from the task queue gets exactly one reply on its own
 channel, the send finds the channel's buffer empty, and a result carries the request's own task id.
 */
module PoolRouting {
  import opened Basics
  import opened PoolModel
  import opened PoolMachine
  import opened PoolOwnership

  function ServedBy(why: Why): Option<nat> {
    if why.ForTask? then Some(why.request) else None
  }

  /** The request a goroutine still owes a reply. */
  function Serves(pc: Pc): Option<nat> {
    match pc
    case Picking(r) => Some(r)
    case Picked(_, r) => Some(r)
    case Claimed(_, r) => Some(r)
    case Holding(_, r) => Some(r)
    case Running(_, r) => Some(r)
    case Answering(_, r, _) => Some(r)
    case Refusing(r) => Some(r)
    case Checking(why) => ServedBy(why)
    case Admitted(why) => ServedBy(why)
    case Launching(why) => ServedBy(why)
    case Launched(_, why) => ServedBy(why)
    case Inserted(_, why) => ServedBy(why)
    case Counted(_, why) => ServedBy(why)
    case _ => None
  }

  ghost predicate Honest(s: Pool, r: nat, reply: Reply) {
    r < |s.requests| && (reply.Answered? ==> reply.taskId == s.requests[r])
  }

  ghost predicate Pending(s: Pool) {
    && |s.replies| == |s.requests|
    && (forall t :: 0 <= t < |s.threads| && Serves(s.threads[t]).Some? ==>
          Serves(s.threads[t]).value < |s.replies| && s.replies[Serves(s.threads[t]).value] == [])
    && (forall t, u :: 0 <= t < u < |s.threads| && Serves(s.threads[t]).Some? ==> Serves(s.threads[t]) != Serves(s.threads[u]))
    && (forall t :: 0 <= t < |s.threads| && s.threads[t].Answering? ==> Honest(s, s.threads[t].r, s.threads[t].reply))
  }

  ghost predicate Owed(s: Pool, r: nat) {
    exists t :: 0 <= t < |s.threads| && Serves(s.threads[t]) == Some(r)
  }

  ghost predicate Settled(s: Pool, r: nat)
    requires r < |s.replies|
  {
    |s.replies[r]| == 1 && Honest(s, r, s.replies[r][0])
  }

  ghost predicate Routed(s: Pool) {
    && Pending(s)
    && forall r: nat :: r < |s.replies| ==> Owed(s, r) || Settled(s, r)
  }

  /** A goroutine carries its request along, takes a new one, or replies to it. */
  ghost predicate Carries(s: Pool, t: nat, s': Pool)
    requires t < |s.threads| == |s'.threads|
  {
    && s'.requests == s.requests && s'.replies == s.replies && Serves(s'.threads[t]) == Serves(s.threads[t])
    && (s'.threads[t].Answering? ==> Honest(s, s'.threads[t].r, s'.threads[t].reply))
  }

  ghost predicate Takes(s: Pool, t: nat, s': Pool)
    requires t < |s.threads| == |s'.threads|
  {
    && Serves(s.threads[t]) == None && Serves(s'.threads[t]) == Some(|s.requests|) && !s'.threads[t].Answering?
    && |s'.requests| == |s.requests| + 1 && s.requests <= s'.requests && s'.replies == s.replies + [[]]
  }

  ghost predicate Replies(s: Pool, t: nat, s': Pool)
    requires t < |s.threads| == |s'.threads|
  {
    && Serves(s.threads[t]).Some? && Serves(s'.threads[t]) == None && !s'.threads[t].Answering?
    && var r := Serves(s.threads[t]).value;
       && r < |s.replies|
       && s'.requests == s.requests
       && exists reply :: (s.threads[t].Answering? ==> s.threads[t].reply == reply)
            && (!s.threads[t].Answering? ==> reply == Fault)
            && s'.replies == s.replies[r := s.replies[r] + [reply]]
  }

  lemma CarriesRouted(s: Pool, t: nat, s': Pool)
    requires Routed(s) && Moves(s, t, s') && Carries(s, t, s')
    ensures Routed(s')
  {
    forall r: nat | r < |s'.replies| ensures Owed(s', r) || Settled(s', r) {
      if Owed(s, r) {
        var u :| 0 <= u < |s.threads| && Serves(s.threads[u]) == Some(r);
        assert Serves(s'.threads[u]) == Some(r);
      } else {
        assert Settled(s, r);
      }
    }
  }

  lemma TakesRouted(s: Pool, t: nat, s': Pool)
    requires Routed(s) && Moves(s, t, s') && Takes(s, t, s')
    ensures Routed(s')
  {
    forall r: nat | r < |s'.replies| ensures Owed(s', r) || Settled(s', r) {
      if r == |s.requests| {
        assert Serves(s'.threads[t]) == Some(r);
      } else if Owed(s, r) {
        var u :| 0 <= u < |s.threads| && Serves(s.threads[u]) == Some(r);
        assert Serves(s'.threads[u]) == Some(r);
      } else {
        assert Settled(s, r);
      }
    }
  }

  lemma RepliesRouted(s: Pool, t: nat, s': Pool)
    requires Routed(s) && Moves(s, t, s') && Replies(s, t, s')
    ensures Routed(s')
  {
    var q := Serves(s.threads[t]).value;
    forall r: nat | r < |s'.replies| ensures Owed(s', r) || Settled(s', r) {
      if r == q {
        assert s.replies[q] == [];
      } else if Owed(s, r) {
        var u :| 0 <= u < |s.threads| && Serves(s.threads[u]) == Some(r);
        assert Serves(s'.threads[u]) == Some(r);
      } else {
        assert Settled(s, r);
      }
    }
  }

  lemma ServeRoutes(s: Pool, t: nat, s': Pool)
    requires t < |s.threads| == |s'.threads| && ServeStep(s, t, s')
    ensures Carries(s, t, s') || Replies(s, t, s')
  {
  }

  lemma SettleRoutes(c: Config, s: Pool, t: nat, s': Pool)
    requires t < |s.threads| == |s'.threads| && (SettleStep(c, s, t, s') || SweepStep(c, s, t, s'))
    ensures Carries(s, t, s')
  {
  }

  lemma CreateRoutes(c: Config, s: Pool, t: nat, s': Pool)
    requires t < |s.threads| == |s'.threads| && (CreateStep(c, s, t, s') || LaunchStep(s, t, s') || EnrolStep(s, t, s'))
    ensures Carries(s, t, s')
  {
  }

  lemma RetireRoutes(s: Pool, t: nat, s': Pool)
    requires t < |s.threads| == |s'.threads| && RetireStep(s, t, s')
    ensures Carries(s, t, s')
  {
  }

  lemma WakeRoutes(c: Config, s: Pool, t: nat, s': Pool)
    requires t < |s.threads| == |s'.threads| && WakeStep(c, s, t, s')
    ensures Carries(s, t, s') || Takes(s, t, s')
  {
  }

  lemma ThreadRoutes(c: Config, s: Pool, t: nat, s': Pool)
    requires t < |s.threads| == |s'.threads| && ThreadStep(c, s, t, s')
    ensures Carries(s, t, s') || Takes(s, t, s') || Replies(s, t, s')
  {
    if WakeStep(c, s, t, s') {
      WakeRoutes(c, s, t, s');
    } else if ServeStep(s, t, s') {
      ServeRoutes(s, t, s');
    } else if SettleStep(c, s, t, s') || SweepStep(c, s, t, s') {
      SettleRoutes(c, s, t, s');
    } else if CreateStep(c, s, t, s') || LaunchStep(s, t, s') || EnrolStep(s, t, s') {
      CreateRoutes(c, s, t, s');
    } else {
      RetireRoutes(s, t, s');
    }
  }

  lemma NextRouted(c: Config, s: Pool, s': Pool)
    requires Routed(s) && Next(c, s, s')
    ensures Routed(s')
  {
    var t: nat :| t < |s.threads| && ThreadStep(c, s, t, s');
    ThreadTrades(c, s, t, s');
    ThreadRoutes(c, s, t, s');
    if Carries(s, t, s') {
      CarriesRouted(s, t, s');
    } else if Takes(s, t, s') {
      TakesRouted(s, t, s');
    } else {
      RepliesRouted(s, t, s');
    }
  }

  lemma InitRouted(c: Config, s: Pool)
    requires Normal(c) && Init(c, s)
    ensures Routed(s)
  {
  }

  lemma {:induction false} RunRouted(c: Config, trace: seq<Pool>, i: nat)
    requires Run(c, trace) && i < |trace|
    ensures Routed(trace[i])
  {
    if i == 0 {
      InitRouted(c, trace[0]);
    } else {
      RunRouted(c, trace, i - 1);
      assert StepAt(c, trace, i - 1);
      NextRouted(c, trace[i - 1], trace[i]);
    }
  }

  /**
   Either exactly one goroutine still owes the reply to request `r` and its channel is empty, or exactly one reply
   was sent and nobody will send another; a result carries the task id of the request itself.
   */
  lemma ExactlyOneReply(c: Config, trace: seq<Pool>, i: nat, r: nat)
    requires Run(c, trace) && i < |trace| && r < |trace[i].requests|
    ensures r < |trace[i].replies|
    ensures Owed(trace[i], r) <==> trace[i].replies[r] == []
    ensures Owed(trace[i], r) <==> |trace[i].replies[r]| != 1
    ensures forall reply :: reply in trace[i].replies[r] && reply.Answered? ==> reply.taskId == trace[i].requests[r]
    ensures forall t, u | 0 <= t < u < |trace[i].threads| :: Serves(trace[i].threads[t]) == Some(r) ==> Serves(trace[i].threads[u]) != Some(r)
  {
    RunRouted(c, trace, i);
    assert Owed(trace[i], r) || Settled(trace[i], r);
  }
}
