/**
 Which messages the broker loses.  Messages queued behind another of their group are never handed out once the group is
 stranded: processing, with messages in its queue.  This file says when a queued message is handed out after all, and
 which configurations strand messages.
 */
module FifoStranding {
  import opened Basics
  import opened FifoQueues
  import opened FifoBroker
  import opened FifoProtocol

  // ----- stranded groups are dead

  /** Between these states no message of the group was chosen to be handed out. */
  ghost predicate SameGiven(s: System, s': System, g: string) {
    Given(ViewOf(s, g)) == Given(ViewOf(s', g))
  }

  lemma SameGivenTransitive(s: System, s': System, s'': System, g: string)
    requires SameGiven(s, s', g) && SameGiven(s', s'', g)
    ensures SameGiven(s, s'', g)
  {
  }

  lemma StrandedLoopStep(c: Setup, s: System, s': System, g: string)
    requires LoopOk(s.loop) && ViewOf(s, g).coming == [] && LoopStep(c, s, s')
    requires g in s.groups && Stranded(s.groups[g])
    ensures g in s'.groups && Stranded(s'.groups[g])
    ensures SameGiven(s, s', g)
  {
    if DequeueStep(c, s, s') {
      DequeueView(c, s, s', g);
    } else if reply, server', kept :| FetchStep(c, s, s', reply, server', kept) {
      FetchView(c, s, s', reply, server', kept, g);
    } else if MarkStep(s, s') {
      MarkView(s, s', g);
    } else if h :| AddStep(s, s', h) {
      if h != g {
        ForGroupSnocOther(s.loop.ready, s.loop.pending[h][0], g);
        AddView(s, s', h, g);
      }
    } else {
      ForGroupConcat(s.handed, s.loop.ready, g);
    }
  }

  lemma QuietKeepsGiven(s: System, s': System, g: string)
    requires s'.handed == s.handed && ReadyOf(s'.loop) == ReadyOf(s.loop)
    ensures SameGiven(s, s', g)
  {
  }

  lemma QuietGroups(c: Setup, s: System, s': System, g: string)
    requires QuietStep(c, s, s')
    requires g in s.groups && Stranded(s.groups[g])
    ensures g in s'.groups && s'.groups[g] == s.groups[g]
    ensures s'.handed == s.handed && ReadyOf(s'.loop) == ReadyOf(s.loop)
  {
    if reply, server', kept :| ProbeStep(c, s, s', reply, server', kept) {
      ProbedKeepsStranded(s.groups, reply, g);
    }
  }

  lemma RemoteFrame(s: System, s': System)
    requires RemoteStep(s, s')
    ensures s'.groups == s.groups && s'.loop == s.loop && s'.handed == s.handed
  {
  }

  lemma StrandedNext(c: Setup, s: System, s': System, g: string)
    requires LoopOk(s.loop) && GroupInv(g, ViewOf(s, g)) && Next(c, s, s')
    requires g in s.groups && Stranded(s.groups[g])
    ensures g in s'.groups && Stranded(s'.groups[g])
    ensures SameGiven(s, s', g)
  {
    if LoopStep(c, s, s') {
      StrandedLoopStep(c, s, s', g);
    } else {
      if QuietStep(c, s, s') {
        QuietGroups(c, s, s', g);
      } else {
        RemoteFrame(s, s');
      }
      QuietKeepsGiven(s, s', g);
    }
  }

  /** Once a group is stranded, no further message of it is ever handed out. */
  lemma {:induction false} StrandedIsDead(c: Setup, trace: seq<System>, i: nat, j: nat, g: string)
    requires Run(c, trace) && i <= j < |trace|
    requires g in trace[i].groups && Stranded(trace[i].groups[g])
    ensures g in trace[j].groups && Stranded(trace[j].groups[g])
    ensures SameGiven(trace[i], trace[j], g)
    decreases j
  {
    if i < j {
      StrandedIsDead(c, trace, i, j - 1, g);
      StrandedOneMore(c, trace, j - 1, g);
      SameGivenTransitive(trace[i], trace[j - 1], trace[j], g);
    }
  }

  lemma StrandedOneMore(c: Setup, trace: seq<System>, i: nat, g: string)
    requires Run(c, trace) && i + 1 < |trace|
    requires g in trace[i].groups && Stranded(trace[i].groups[g])
    ensures g in trace[i + 1].groups && Stranded(trace[i + 1].groups[g])
    ensures SameGiven(trace[i], trace[i + 1], g)
  {
    RunGroupInv(c, trace, i, g);
    assert StepAt(c, trace, i);
    StrandedNext(c, trace[i], trace[i + 1], g);
  }

  lemma RunSnoc(c: Setup, trace: seq<System>, s': System)
    requires Run(c, trace) && Next(c, trace[|trace| - 1], s')
    ensures Run(c, trace + [s'])
  {
    var longer := trace + [s'];
    forall k: nat | k + 1 < |longer| ensures StepAt(c, longer, k) {
      if k + 1 < |trace| {
        assert StepAt(c, trace, k);
      }
    }
  }

  // ----- queued messages that are not stranded

  /** A group is marked for a single receive only while its queue is empty: SQS locks it as long as a message is queued. */
  ghost predicate MarksClear(s: System) {
    s.loop.Marking? ==> Lookup(s.groups, s.loop.group).tasks == []
  }

  lemma FetchMarksClear(c: Setup, s: System, s': System, reply: seq<SqsMessage>, server': Server, kept: bool)
    requires Inv(s) && FetchStep(c, s, s', reply, server', kept)
    ensures MarksClear(s')
  {
    if s'.loop.Marking? {
      var g := s'.loop.group;
      assert reply[0] in reply && FromLane(s.server, reply[0]);
      assert GroupInv(g, ViewOf(s, g));
      HasMember(Lookup(s.groups, g).tasks);
    }
  }

  lemma NextMarksClear(c: Setup, s: System, s': System)
    requires Inv(s) && MarksClear(s) && Next(c, s, s')
    ensures MarksClear(s')
  {
    if reply, server', kept :| FetchStep(c, s, s', reply, server', kept) {
      FetchMarksClear(c, s, s', reply, server', kept);
    } else if RemoteStep(s, s') {
      RemoteFrame(s, s');
    }
  }

  lemma {:induction false} RunMarksClear(c: Setup, trace: seq<System>, i: nat)
    requires Run(c, trace) && i < |trace|
    ensures MarksClear(trace[i])
  {
    if i > 0 {
      RunMarksClear(c, trace, i - 1);
      RunInv(c, trace, i - 1);
      assert StepAt(c, trace, i - 1);
      NextMarksClear(c, trace[i - 1], trace[i]);
    }
  }

  function Last(trace: seq<System>): System
    requires trace != []
  {
    trace[|trace| - 1]
  }

  ghost predicate ReadyIn(s: System, g: string) {
    g in s.groups && Ready(s.groups[g])
  }

  /** Nothing of a ready group has been chosen to be handed out. */
  lemma ReadyNotGiven(c: Setup, trace: seq<System>, i: nat, g: string)
    requires Run(c, trace) && i < |trace| && ReadyIn(trace[i], g)
    ensures Given(ViewOf(trace[i], g)) == []
  {
    RunGroupInv(c, trace, i, g);
  }

  /** From anywhere the receive loop can return to its top with a ready group still ready. */
  lemma {:induction false} ToTop(c: Setup, trace: seq<System>, g: string) returns (longer: seq<System>)
    requires Run(c, trace) && ReadyIn(Last(trace), g)
    ensures Run(c, longer) && trace <= longer && ReadyIn(Last(longer), g) && Last(longer).loop == Top
    decreases Distance(Last(trace).loop)
  {
    if Last(trace).loop == Top {
      longer := trace;
    } else {
      var s := StepUp(c, trace, g);
      longer := ToTop(c, trace + [s], g);
    }
  }

  lemma StepUp(c: Setup, trace: seq<System>, g: string) returns (s: System)
    requires Run(c, trace) && ReadyIn(Last(trace), g) && Last(trace).loop != Top
    ensures Run(c, trace + [s]) && ReadyIn(s, g) && Distance(s.loop) < Distance(Last(trace).loop)
  {
    s := StepUpAt(c, trace, |trace| - 1, g);
    RunSnoc(c, trace, s);
  }

  lemma StepUpAt(c: Setup, trace: seq<System>, i: nat, g: string) returns (s: System)
    requires Run(c, trace) && i < |trace| && ReadyIn(trace[i], g) && trace[i].loop != Top
    ensures Next(c, trace[i], s) && ReadyIn(s, g) && Distance(s.loop) < Distance(trace[i].loop)
  {
    RunGroupInv(c, trace, i, g);
    RunMarksClear(c, trace, i);
    s := OneUp(c, trace[i], g);
  }

  function Distance(loop: Loop): nat {
    match loop
    case Top => 0
    case Asking => 2
    case Fetching(_) => 1
    case Sorting(pending, _) => 1 + |pending|
    case Marking(_, _) => 1
  }

  lemma OneUp(c: Setup, now: System, g: string) returns (s: System)
    requires LoopOk(now.loop) && GroupInv(g, ViewOf(now, g)) && MarksClear(now)
    requires now.loop != Top && ReadyIn(now, g)
    ensures Next(c, now, s) && ReadyIn(s, g) && Distance(s.loop) < Distance(now.loop)
  {
    match now.loop {
      case Asking =>
        s := now.(loop := Fetching(RequestSize(c.config, now.groups, Err(()), Limit(c))));
        assert AskStep(c, now, s);
      case Fetching(_) =>
        s := FetchedUp(c, now, g);
      case Sorting(_, _) =>
        s := SortedUp(c, now, g);
      case Marking(_, _) =>
        s := MarkedUp(c, now, g);
    }
  }

  lemma FetchedUp(c: Setup, now: System, g: string) returns (s: System)
    requires now.loop.Fetching? && ReadyIn(now, g)
    ensures LoopStep(c, now, s) && ReadyIn(s, g) && s.loop == Top
  {
    s := now.(loop := Top);
    assert Served(now.server, [], now.server);
    assert FetchStep(c, now, s, [], now.server, false);
  }

  lemma MarkedUp(c: Setup, now: System, g: string) returns (s: System)
    requires now.loop.Marking? && MarksClear(now) && ReadyIn(now, g)
    ensures LoopStep(c, now, s) && ReadyIn(s, g) && s.loop == Top
  {
    s := now.(groups := MarkProcessing(now.groups, now.loop.group), handed := now.handed + now.loop.got, loop := Top);
    assert MarkStep(now, s);
  }

  lemma SortedUp(c: Setup, now: System, g: string) returns (s: System)
    requires now.loop.Sorting? && LoopOk(now.loop) && GroupInv(g, ViewOf(now, g)) && ReadyIn(now, g)
    ensures LoopStep(c, now, s) && ReadyIn(s, g) && Distance(s.loop) < Distance(now.loop)
  {
    var pending, ready := now.loop.pending, now.loop.ready;
    if pending == map[] {
      s := now.(handed := now.handed + ready, loop := Top);
      assert ReturnStep(now, s);
    } else {
      var h :| h in pending;
      s := now.(groups := AddTo(now.groups, h, pending[h]), loop := Sorting(pending - {h}, ready + [pending[h][0]]));
      assert AddStep(now, s, h);
      assert (pending - {h}).Keys == pending.Keys - {h};
    }
  }

  /** Every queued message sits with its own group. */
  ghost predicate HeadsHome(groups: Groups) {
    forall h :: h in groups && groups[h].tasks != [] ==> groups[h].tasks[0].groupId == h
  }

  lemma InvHeadsHome(s: System)
    requires Inv(s)
    ensures HeadsHome(s.groups)
  {
    forall h | h in s.groups && s.groups[h].tasks != [] ensures s.groups[h].tasks[0].groupId == h {
      assert GroupInv(h, ViewOf(s, h));
      assert s.groups[h].tasks[0] in Line(ViewOf(s, h));
      LineMember(h, ViewOf(s, h), s.groups[h].tasks[0]);
    }
  }

  /** A dequeue that has begun can be completed. */
  lemma {:induction false} DequeueRest(before: Groups, rest: set<string>, mid: Groups, out: seq<Message>, limit: nat)
    returns (after: Groups, all: seq<Message>)
    requires HeadsHome(before) && rest <= before.Keys && DequeuedSoFar(before, rest, mid, out) && |out| <= Max(1, limit)
    ensures Dequeued(before, limit, after, all) && out <= all
    decreases rest
  {
    if rest == {} || (out != [] && |out| >= limit) {
      after, all := mid, out;
    } else {
      var h :| h in rest;
      assert mid[h] == before[h];
      assert rest - {h} + {h} == rest;
      if Ready(mid[h]) {
        DequeueOneMore(before, rest - {h}, mid, out, h);
        after, all := DequeueRest(before, rest - {h}, mid[h := GroupQueue(true, mid[h].tasks[1..])], out + [mid[h].tasks[0]], limit);
      } else {
        after, all := DequeueRest(before, rest - {h}, mid, out, limit);
      }
    }
  }

  /** A dequeue that happens to visit group `g` first. */
  lemma DequeueFirst(groups: Groups, g: string, limit: nat) returns (after: Groups, out: seq<Message>)
    requires HeadsHome(groups) && g in groups && Ready(groups[g])
    ensures Dequeued(groups, limit, after, out) && groups[g].tasks[0] in out
  {
    assert groups.Keys - {g} + {g} == groups.Keys;
    assert DequeuedSoFar(groups, groups.Keys, groups, []);
    DequeueOneMore(groups, groups.Keys - {g}, groups, [], g);
    after, out := DequeueRest(groups, groups.Keys - {g}, groups[g := GroupQueue(true, groups[g].tasks[1..])], [] + [groups[g].tasks[0]], limit);
    assert out[0] == groups[g].tasks[0];
  }

  lemma HandsOut(c: Setup, s: System, g: string) returns (s': System)
    requires Inv(s) && s.loop == Top && ReadyIn(s, g)
    ensures Next(c, s, s') && HasGiven(s', g)
  {
    InvHeadsHome(s);
    var after, out := DequeueFirst(s.groups, g, Limit(c));
    s' := s.(groups := after, handed := s.handed + out, loop := if out == [] then Asking else Top);
    assert DequeueStep(c, s, s');
    ForGroupConcat(s.handed, out, g);
    ForGroupMembers(out, g);
    assert s.groups[g].tasks[0].groupId == g;
    assert s.groups[g].tasks[0] in Given(ViewOf(s', g));
  }

  /** In this continuation another message of the group is chosen to be handed out. */
  ghost predicate HandsOutLater(c: Setup, trace: seq<System>, later: seq<System>, g: string)
    requires trace != []
  {
    later != [] && Run(c, trace + later) && !SameGiven(Last(trace), Last(later), g)
  }

  lemma ReadyIsHandedOut(c: Setup, trace: seq<System>, g: string) returns (later: seq<System>)
    requires Run(c, trace) && ReadyIn(Last(trace), g)
    ensures HandsOutLater(c, trace, later, g)
  {
    var longer := ToTop(c, trace, g);
    var s := HandsOutAt(c, longer, |longer| - 1, g);
    later := Later(trace, longer, s);
    GoesOn(c, trace, |trace| - 1, s, g);
  }

  lemma Later(trace: seq<System>, longer: seq<System>, s: System) returns (later: seq<System>)
    requires trace <= longer
    ensures later != [] && Last(later) == s && trace + later == longer + [s]
  {
    later := longer[|trace|..] + [s];
  }

  lemma HandsOutAt(c: Setup, trace: seq<System>, i: nat, g: string) returns (s: System)
    requires Run(c, trace) && i + 1 == |trace| && trace[i].loop == Top && ReadyIn(trace[i], g)
    ensures Run(c, trace + [s]) && HasGiven(s, g)
  {
    RunInv(c, trace, i);
    s := HandsOut(c, trace[i], g);
    RunSnoc(c, trace, s);
  }

  lemma GoesOn(c: Setup, trace: seq<System>, i: nat, s: System, g: string)
    requires Run(c, trace) && i < |trace| && ReadyIn(trace[i], g) && HasGiven(s, g)
    ensures !SameGiven(trace[i], s, g)
  {
    ReadyNotGiven(c, trace, i, g);
  }

  ghost predicate HasGiven(s: System, g: string) {
    Given(ViewOf(s, g)) != []
  }

  lemma StrandedIsNotHandedOut(c: Setup, trace: seq<System>, later: seq<System>, g: string)
    requires trace != [] && g in Last(trace).groups && Stranded(Last(trace).groups[g])
    ensures !HandsOutLater(c, trace, later, g)
  {
    if later != [] && Run(c, trace + later) {
      StrandedIsDead(c, trace + later, |trace| - 1, |trace + later| - 1, g);
    }
  }

  /**
   A queued message is handed out in some continuation exactly when its group is not marked as processing,
   although the comment at internal/broker/sqs/fifo.go:670-671 promises it for every queued message.
   */
  lemma QueuedHandedOutIff(c: Setup, trace: seq<System>, g: string)
    requires Run(c, trace) && g in Last(trace).groups && Last(trace).groups[g].tasks != []
    ensures !Last(trace).groups[g].processing <==> exists later: seq<System> :: HandsOutLater(c, trace, later, g)
  {
    if !Last(trace).groups[g].processing {
      var later := ReadyIsHandedOut(c, trace, g);
    } else {
      forall later: seq<System> ensures !HandsOutLater(c, trace, later, g) {
        StrandedIsNotHandedOut(c, trace, later, g);
      }
    }
  }

  // ----- which configurations strand messages

  ghost predicate Strands(s: System) {
    exists g :: g in s.groups && Stranded(s.groups[g])
  }

  /** The most messages one receive can bring in. */
  function Batch(c: Setup): int {
    if c.config.fetchMode == "single" then 1 else Min(c.config.batchSize, Limit(c))
  }

  lemma AsksForBatch(c: Setup, groups: Groups, probe: Reply)
    ensures RequestSize(c.config, groups, probe, Limit(c)) <= Batch(c)
  {
  }

  /** No queue holds a second message, and none a message of a group that is being processed. */
  ghost predicate Calm(s: System) {
    && (forall g :: g in s.groups && s.groups[g].tasks != [] ==> !s.groups[g].processing && |s.groups[g].tasks| == 1)
    && (s.loop.Fetching? ==> s.loop.size <= 1)
    && (s.loop.Sorting? ==> forall g :: g in s.loop.pending ==> |s.loop.pending[g]| <= 1)
  }

  lemma CalmFetch(c: Setup, s: System, s': System, reply: seq<SqsMessage>, server': Server, kept: bool)
    requires Calm(s) && FetchStep(c, s, s', reply, server', kept)
    ensures Calm(s')
  {
    if s'.loop.Sorting? {
      forall g | g in s'.loop.pending ensures |s'.loop.pending[g]| <= 1 {
        ForGroupSize(Decoded(reply), g);
      }
    }
  }

  lemma {:induction false} ForGroupSize(ms: seq<Message>, g: string)
    ensures |ForGroup(ms, g)| <= |ms|
  {
    if ms != [] {
      ForGroupSize(ms[..|ms| - 1], g);
    }
  }

  lemma CalmLoopStep(c: Setup, s: System, s': System)
    requires Calm(s) && MarksClear(s) && LoopStep(c, s, s')
    ensures Calm(s')
  {
    if DequeueStep(c, s, s') {
      forall g | g in s'.groups && s'.groups[g].tasks != [] ensures !s'.groups[g].processing && |s'.groups[g].tasks| == 1 {
        var after, out :| Dequeued(s.groups, Limit(c), after, out)
          && s' == s.(groups := after, handed := s.handed + out, loop := if out == [] then Asking else Top);
        DequeueConserves(s.groups, Limit(c), after, out, g);
      }
    } else if reply, server', kept :| FetchStep(c, s, s', reply, server', kept) {
      CalmFetch(c, s, s', reply, server', kept);
    }
  }

  lemma CalmProbe(c: Setup, s: System, s': System, reply: seq<SqsMessage>, server': Server, kept: bool)
    requires Calm(s) && Batch(c) <= 1 && ProbeStep(c, s, s', reply, server', kept)
    ensures Calm(s')
  {
    ProbeCreatesOnly(s.groups, reply);
    AsksForBatch(c, s.groups, if kept then Ok(reply) else Err(()));
  }

  lemma CalmQuietStep(c: Setup, s: System, s': System)
    requires Calm(s) && Batch(c) <= 1 && QuietStep(c, s, s')
    ensures Calm(s')
  {
    if AskStep(c, s, s') {
      AsksForBatch(c, s.groups, Err(()));
    } else if reply, server', kept :| ProbeStep(c, s, s', reply, server', kept) {
      CalmProbe(c, s, s', reply, server', kept);
    }
  }

  lemma {:induction false} RunCalm(c: Setup, trace: seq<System>, i: nat)
    requires Run(c, trace) && Batch(c) <= 1 && i < |trace|
    ensures Calm(trace[i])
  {
    if i > 0 {
      var s, s' := trace[i - 1], trace[i];
      RunCalm(c, trace, i - 1);
      RunMarksClear(c, trace, i - 1);
      assert StepAt(c, trace, i - 1);
      if LoopStep(c, s, s') {
        CalmLoopStep(c, s, s');
      } else if QuietStep(c, s, s') {
        CalmQuietStep(c, s, s');
      } else {
        RemoteFrame(s, s');
      }
    }
  }

  /** Some run strands a message if and only if the broker is in batch mode and may ask for two messages at a time. */
  lemma StrandsIff(c: Setup)
    requires Normal(c.config)
    ensures (exists trace: seq<System> :: trace != [] && Run(c, trace) && Strands(Last(trace)))
            <==> c.config.fetchMode == "batch" && Min(c.prefetch, c.config.maxPrefetch) >= 2
  {
    NormalSizes(c.config);
    if Batch(c) >= 2 {
      var trace := StrandingHappens(c, "g", "x", "y");
      assert Strands(Last(trace));
    } else {
      forall trace: seq<System> | trace != [] && Run(c, trace) ensures !Strands(Last(trace)) {
        RunCalm(c, trace, |trace| - 1);
      }
    }
  }

  lemma NormalSizes(c: Config)
    requires Normal(c)
    ensures c.fetchMode == "single" || c.fetchMode == "batch"
    ensures 2 <= c.batchSize <= 10 && c.maxPrefetch >= 1
  {
  }

  /** How it happens: after an empty probe, a batch receive of two messages of one group strands the second. */
  lemma StrandingHappens(c: Setup, g: string, x: string, y: string) returns (trace: seq<System>)
    requires Normal(c.config) && Batch(c) >= 2
    ensures Run(c, trace)
    ensures g in Last(trace).groups && Last(trace).groups[g] == GroupQueue(true, [Message(g, 1, y)])
  {
    var s0 := System(map[g := Lane([Some(x), Some(y)], {}, {})], map[], Top, [], {}, multiset{});
    var s1 := s0.(loop := Asking);
    var s2 := s0.(loop := Fetching(Batch(c)));
    StrandingDequeue(c, s0);
    StrandingProbe(c, s1);
    var s3 := StrandingFetch(c, s2, g, x, y);
    var s4 := StrandingAdd(c, s3, g, x, y);
    RunSnoc(c, [s0], s1);
    RunSnoc(c, [s0] + [s1], s2);
    RunSnoc(c, [s0] + [s1] + [s2], s3);
    RunSnoc(c, [s0] + [s1] + [s2] + [s3], s4);
    trace := [s0] + [s1] + [s2] + [s3] + [s4];
  }

  lemma StrandingDequeue(c: Setup, s: System)
    requires Init(s)
    ensures DequeueStep(c, s, s.(loop := Asking))
  {
    assert DequeuedSoFar(s.groups, {}, s.groups, []);
    assert Dequeued(s.groups, Limit(c), s.groups, []);
    assert s.handed + [] == s.handed;
  }

  lemma StrandingProbe(c: Setup, s: System)
    requires s.groups == map[] && s.loop == Asking && c.config.fetchMode != "single"
    ensures ProbeStep(c, s, s.(loop := Fetching(Batch(c))), [], s.server, true)
  {
    assert AvailableCount(s.groups, Ok([])) == 0;
  }

  function Two(g: string, x: string, y: string): seq<SqsMessage> {
    [SqsMessage(Some(g), 0, Some(x)), SqsMessage(Some(g), 1, Some(y))]
  }

  lemma StrandingServed(g: string, x: string, y: string)
    ensures Served(map[g := Lane([Some(x), Some(y)], {}, {})], Two(g, x, y), map[g := Lane([Some(x), Some(y)], {0, 1}, {})])
  {
    var reply := Two(g, x, y);
    assert Taken(reply, g) == {0, 1} by { assert reply[0].seqNo == 0 && reply[1].seqNo == 1; }
  }

  lemma StrandingFetch(c: Setup, s: System, g: string, x: string, y: string) returns (s': System)
    requires c.config.fetchMode != "single" && s.loop.Fetching? && s.loop.size >= 2
    requires s.server == map[g := Lane([Some(x), Some(y)], {}, {})] && s.groups == map[]
    ensures Next(c, s, s')
    ensures s'.groups == map[] && s'.loop == Sorting(map[g := [Message(g, 0, x), Message(g, 1, y)]], [])
  {
    var server := map[g := Lane([Some(x), Some(y)], {0, 1}, {})];
    s' := s.(server := server, loop := Sorting(map[g := [Message(g, 0, x), Message(g, 1, y)]], []));
    StrandingServed(g, x, y);
    TwoOfOneGroup(g, x, y);
    assert FetchStep(c, s, s', Two(g, x, y), server, true);
  }

  lemma StrandingAdd(c: Setup, s: System, g: string, x: string, y: string) returns (s': System)
    requires s.groups == map[] && s.loop == Sorting(map[g := [Message(g, 0, x), Message(g, 1, y)]], [])
    ensures Next(c, s, s')
    ensures s'.groups == map[g := GroupQueue(true, [Message(g, 1, y)])]
  {
    var ms := s.loop.pending[g];
    s' := s.(groups := AddTo(s.groups, g, ms), loop := Sorting(s.loop.pending - {g}, s.loop.ready + [ms[0]]));
    assert AddStep(s, s', g);
    assert ms[1..] == [Message(g, 1, y)];
    assert NEW_GROUP.tasks + ms[1..] == ms[1..];
  }

  lemma TwoOfOneGroup(g: string, x: string, y: string)
    ensures Grouped(Decoded(Two(g, x, y))) == map[g := [Message(g, 0, x), Message(g, 1, y)]]
  {
    var a, b := SqsMessage(Some(g), 0, Some(x)), SqsMessage(Some(g), 1, Some(y));
    assert Decoded([a]) == [Decode(a)] by { SingleIsOwn([a], g); }
    assert Decoded([a, b]) == [Decode(a), Decode(b)] by { assert [a, b][..1] == [a]; }
    assert Grouped([]) == map[];
    GroupedSnoc([], Decode(a));
    assert [] + [Decode(a)] == [Decode(a)];
    GroupedSnoc([Decode(a)], Decode(b));
    assert [Decode(a)] + [Decode(b)] == [Decode(a), Decode(b)];
  }
}
