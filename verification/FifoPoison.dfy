/**
 Undecodable messages are neither handed out nor deleted (internal/broker/sqs/fifo.go:227-231 and 313-317), so SQS delivers
 them again in front of everything published after them in their group.  This file says how many of them block a group.
 */
module FifoPoison {
  import opened Basics
  import opened FifoQueues
  import opened FifoBroker
  import opened FifoProtocol
  import opened FifoStranding

  /** The undecodable messages published before position `n`. */
  function Bad(log: seq<Option<string>>, n: nat): set<nat> {
    set k: nat | k < n && k < |log| && log[k].None?
  }

  /** Every accepted message of the group has fewer undecodable ones before it than a receive can bring in. */
  ghost predicate Behind(c: Setup, v: View) {
    forall m :: m in Line(v) ==> |Bad(v.lane.log, m.seqNo)| < Max(1, Batch(c))
  }

  ghost predicate DeletedGood(lane: Lane) {
    forall k :: k in lane.deleted ==> k < |lane.log| && lane.log[k].Some?
  }

  ghost predicate Blocks(c: Setup, s: System) {
    && (forall g :: Behind(c, ViewOf(s, g)) && DeletedGood(LaneOf(s.server, g)))
    && (s.loop.Fetching? ==> s.loop.size <= Batch(c))
  }

  // ----- a served reply

  lemma {:induction false} TakenSize(reply: seq<SqsMessage>, g: string)
    ensures |Taken(reply, g)| <= |reply|
  {
    if reply == [] {
      assert Taken(reply, g) == {};
    } else {
      var front, m := reply[..|reply| - 1], reply[|reply| - 1];
      TakenSize(front, g);
      assert Taken(reply, g) <= Taken(front, g) + {m.seqNo};
      Subset(Taken(reply, g), Taken(front, g) + {m.seqNo});
    }
  }

  lemma {:induction false} Subset(a: set<nat>, b: set<nat>)
    requires a <= b
    ensures |a| <= |b|
    decreases b
  {
    if x :| x in a {
      Subset(a - {x}, b - {x});
    }
  }

  /** The undecodable messages before a message come along with it. */
  lemma BadComeAlong(before: Server, reply: seq<SqsMessage>, after: Server, g: string, m: Message)
    requires Served(before, reply, after) && DeletedGood(LaneOf(before, g)) && m in Own(reply, g)
    ensures |Bad(LaneOf(after, g).log, m.seqNo)| < |reply|
  {
    OwnMembers(reply, g);
    ServedLane(before, reply, after, g);
    var log, r := LaneOf(before, g).log, SqsMessage(Some(g), m.seqNo, Some(m.body));
    assert FromLane(before, r);
    forall k | k in Bad(log, m.seqNo) + {m.seqNo} ensures k in Taken(reply, g) {
      var q := if k == m.seqNo then r else SqsMessage(r.group, k, log[k]);
      assert q in reply;
      var i :| 0 <= i < |reply| && reply[i] == q;
    }
    Subset(Bad(log, m.seqNo) + {m.seqNo}, Taken(reply, g));
    TakenSize(reply, g);
  }

  // ----- steps that bring nothing in

  /** Nothing new is accepted, nothing is deleted that was not accepted, and the log only grows. */
  ghost predicate Moves(g: string, v: View, v': View) {
    && (forall m :: m in Line(v') ==> m in Line(v))
    && v.lane.log <= v'.lane.log
    && (forall k :: k in v'.lane.deleted ==> k in v.lane.deleted || exists m :: m in Line(v) && m.seqNo == k)
  }

  lemma BadStays(log: seq<Option<string>>, log': seq<Option<string>>, n: nat)
    requires log <= log' && n <= |log|
    ensures Bad(log', n) == Bad(log, n)
  {
  }

  lemma MovesKeeps(c: Setup, g: string, v: View, v': View)
    requires GroupInv(g, v) && Behind(c, v) && DeletedGood(v.lane) && Moves(g, v, v')
    ensures Behind(c, v') && DeletedGood(v'.lane)
  {
    forall m | m in Line(v') ensures |Bad(v'.lane.log, m.seqNo)| < Max(1, Batch(c)) {
      LineMember(g, v, m);
      BadStays(v.lane.log, v'.lane.log, m.seqNo);
    }
    forall k | k in v'.lane.deleted ensures k < |v'.lane.log| && v'.lane.log[k].Some? {
      if k !in v.lane.deleted {
        var m :| m in Line(v) && m.seqNo == k;
        LineMember(g, v, m);
      }
    }
  }

  lemma LoopMoves(c: Setup, s: System, s': System, g: string)
    requires LoopOk(s.loop) && (DequeueStep(c, s, s') || MarkStep(s, s') || (exists h :: AddStep(s, s', h)) || ReturnStep(s, s'))
    ensures Moves(g, ViewOf(s, g), ViewOf(s', g))
  {
    if DequeueStep(c, s, s') {
      DequeueView(c, s, s', g);
    } else if MarkStep(s, s') {
      MarkView(s, s', g);
    } else if h :| AddStep(s, s', h) {
      AddMoves(s, s', h, g);
    } else {
      ForGroupConcat(s.handed, s.loop.ready, g);
    }
  }

  lemma AddMoves(s: System, s': System, h: string, g: string)
    requires LoopOk(s.loop) && AddStep(s, s', h)
    ensures Moves(g, ViewOf(s, g), ViewOf(s', g))
  {
    if h != g {
      ForGroupSnocOther(s.loop.ready, s.loop.pending[h][0], g);
      AddView(s, s', h, g);
    } else {
      AddOwnView(s, s', g);
    }
  }

  lemma RemoteMoves(s: System, s': System, g: string)
    requires RemoteStep(s, s')
    ensures Moves(g, ViewOf(s, g), ViewOf(s', g))
  {
    RemoteFrame(s, s');
    ForGroupMembers(s.handed, g);
    if m, ok, applied :| DeleteStep(s, s', m, ok, applied) {
      assert m.groupId == g ==> m in Line(ViewOf(s, g));
    }
  }

  lemma QuietMoves(c: Setup, s: System, s': System, g: string)
    requires AskStep(c, s, s') || exists h :: ReleaseStep(s, s', h)
    ensures Moves(g, ViewOf(s, g), ViewOf(s', g))
  {
  }

  // ----- steps that bring something in

  ghost predicate Brings(v: View, v': View, own: seq<Message>) {
    && (forall m :: m in Line(v') ==> m in Line(v) || m in own)
    && v'.lane.log == v.lane.log && v'.lane.deleted == v.lane.deleted
  }

  lemma BringsKeeps(c: Setup, g: string, before: Server, reply: seq<SqsMessage>, after: Server, v: View, v': View)
    requires GroupInv(g, v) && Behind(c, v) && DeletedGood(v.lane) && Brings(v, v', Own(reply, g))
    requires Served(before, reply, after) && v.lane == LaneOf(before, g) && v'.lane == LaneOf(after, g) && |reply| <= Max(1, Batch(c))
    ensures Behind(c, v') && DeletedGood(v'.lane)
  {
    forall m | m in Line(v') ensures |Bad(v'.lane.log, m.seqNo)| < Max(1, Batch(c)) {
      if m in Own(reply, g) {
        BadComeAlong(before, reply, after, g, m);
      }
    }
  }

  lemma FetchBrings(c: Setup, s: System, s': System, reply: seq<SqsMessage>, server': Server, kept: bool, g: string)
    requires FetchStep(c, s, s', reply, server', kept)
    ensures Brings(ViewOf(s, g), ViewOf(s', g), Own(reply, g))
  {
    FetchView(c, s, s', reply, server', kept, g);
    if s'.loop.Marking? {
      SingleIsOwn(reply, g);
    }
    FetchComing(c, s, s', reply, server', kept, g);
    ServedLane(s.server, reply, server', g);
  }

  lemma ProbeBrings(c: Setup, s: System, s': System, reply: seq<SqsMessage>, server': Server, kept: bool, g: string)
    requires ProbeStep(c, s, s', reply, server', kept)
    ensures Brings(ViewOf(s, g), ViewOf(s', g), Own(reply, g))
  {
    ProbeView(c, s, s', reply, server', kept, g);
    ServedLane(s.server, reply, server', g);
  }

  // ----- over a whole run

  lemma FetchBlocks(c: Setup, s: System, s': System, reply: seq<SqsMessage>, server': Server, kept: bool)
    requires Inv(s) && Blocks(c, s) && FetchStep(c, s, s', reply, server', kept)
    ensures Blocks(c, s')
  {
    forall g ensures Behind(c, ViewOf(s', g)) && DeletedGood(LaneOf(s'.server, g)) {
      assert GroupInv(g, ViewOf(s, g)) && Behind(c, ViewOf(s, g)) && DeletedGood(LaneOf(s.server, g));
      FetchBrings(c, s, s', reply, server', kept, g);
      BringsKeeps(c, g, s.server, reply, server', ViewOf(s, g), ViewOf(s', g));
    }
  }

  lemma ProbeBlocks(c: Setup, s: System, s': System, reply: seq<SqsMessage>, server': Server, kept: bool)
    requires Inv(s) && Blocks(c, s) && ProbeStep(c, s, s', reply, server', kept)
    ensures Blocks(c, s')
  {
    AsksForBatch(c, s.groups, if kept then Ok(reply) else Err(()));
    forall g ensures Behind(c, ViewOf(s', g)) && DeletedGood(LaneOf(s'.server, g)) {
      assert GroupInv(g, ViewOf(s, g)) && Behind(c, ViewOf(s, g)) && DeletedGood(LaneOf(s.server, g));
      ProbeBrings(c, s, s', reply, server', kept, g);
      BringsKeeps(c, g, s.server, reply, server', ViewOf(s, g), ViewOf(s', g));
    }
  }

  lemma MovesBlocks(c: Setup, s: System, s': System)
    requires Inv(s) && Blocks(c, s) && forall g :: Moves(g, ViewOf(s, g), ViewOf(s', g))
    requires s'.loop.Fetching? ==> s'.loop.size <= Batch(c)
    ensures Blocks(c, s')
  {
    forall g ensures Behind(c, ViewOf(s', g)) && DeletedGood(LaneOf(s'.server, g)) {
      assert GroupInv(g, ViewOf(s, g)) && Behind(c, ViewOf(s, g)) && DeletedGood(LaneOf(s.server, g));
      MovesKeeps(c, g, ViewOf(s, g), ViewOf(s', g));
    }
  }

  lemma NextBlocks(c: Setup, s: System, s': System)
    requires Inv(s) && Blocks(c, s) && Next(c, s, s')
    ensures Blocks(c, s')
  {
    if reply, server', kept :| FetchStep(c, s, s', reply, server', kept) {
      FetchBlocks(c, s, s', reply, server', kept);
    } else if reply, server', kept :| ProbeStep(c, s, s', reply, server', kept) {
      ProbeBlocks(c, s, s', reply, server', kept);
    } else {
      forall g ensures Moves(g, ViewOf(s, g), ViewOf(s', g)) {
        if LoopStep(c, s, s') {
          LoopMoves(c, s, s', g);
        } else if QuietStep(c, s, s') {
          QuietMoves(c, s, s', g);
        } else {
          RemoteMoves(s, s', g);
        }
      }
      if AskStep(c, s, s') {
        AsksForBatch(c, s.groups, Err(()));
      }
      MovesBlocks(c, s, s');
    }
  }

  lemma {:induction false} RunBlocks(c: Setup, trace: seq<System>, i: nat)
    requires Run(c, trace) && i < |trace|
    ensures Blocks(c, trace[i])
  {
    if i > 0 {
      RunBlocks(c, trace, i - 1);
      RunInv(c, trace, i - 1);
      assert StepAt(c, trace, i - 1);
      NextBlocks(c, trace[i - 1], trace[i]);
    }
  }

  /**
   As many undecodable messages as a receive can ask for, one in single mode, block their group: in no run is any message
   published after them in that group ever handed out.
   */
  lemma PoisonBlocks(c: Setup, trace: seq<System>, i: nat, m: Message)
    requires Run(c, trace) && i < |trace| && m in trace[i].handed
    ensures |Bad(LaneOf(trace[i].server, m.groupId).log, m.seqNo)| < Max(1, Batch(c))
    ensures c.config.fetchMode == "single" ==>
              forall k: nat :: k < m.seqNo && k < |LaneOf(trace[i].server, m.groupId).log| ==> LaneOf(trace[i].server, m.groupId).log[k].Some?
  {
    RunBlocks(c, trace, i);
    var v := ViewOf(trace[i], m.groupId);
    assert Behind(c, v);
    ForGroupMembers(trace[i].handed, m.groupId);
    assert m in Line(v);
    if c.config.fetchMode == "single" {
      forall k: nat | k < m.seqNo && k < |v.lane.log| ensures v.lane.log[k].Some? {
        assert k !in Bad(v.lane.log, m.seqNo);
      }
    }
  }
}
