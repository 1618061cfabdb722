/**
 What the methods of `FifoBroker` are proved to do, a broker of `FifoProtocol` can do while nobody else moves: an
 uninterrupted ReceiveMessages and an uninterrupted AcknowledgeMessage are runs of the protocol.
 */
module FifoRefinement {
  import opened Basics
  import opened FifoQueues
  import opened FifoBroker
  import opened FifoProtocol

  ghost predicate StepIn(c: Setup, path: seq<System>, k: nat)
    requires k + 1 < |path|
  {
    Next(c, path[k], path[k + 1])
  }

  ghost predicate Path(c: Setup, path: seq<System>) {
    forall k: nat :: k + 1 < |path| ==> StepIn(c, path, k)
  }

  /** Steps of the protocol lead from `s` to `s'`. */
  ghost predicate Leads(c: Setup, s: System, s': System) {
    exists via: seq<System> :: Path(c, [s] + via + [s'])
  }

  lemma Steps(c: Setup, s: System, s': System)
    requires Next(c, s, s')
    ensures Leads(c, s, s')
  {
    var path := [s] + [] + [s'];
    assert StepIn(c, path, 0);
    assert Path(c, path);
  }

  lemma Then(c: Setup, s: System, s1: System, s2: System)
    requires Leads(c, s, s1) && Leads(c, s1, s2)
    ensures Leads(c, s, s2)
  {
    var a: seq<System> :| Path(c, [s] + a + [s1]);
    var b: seq<System> :| Path(c, [s1] + b + [s2]);
    var first, second, path := [s] + a + [s1], [s1] + b + [s2], [s] + (a + [s1] + b) + [s2];
    forall k: nat | k + 1 < |path| ensures StepIn(c, path, k) {
      if k + 1 < |first| {
        assert StepIn(c, first, k);
      } else {
        assert StepIn(c, second, k + 1 - |first|);
      }
    }
    assert Path(c, path);
  }

  /** A run goes on with what leads further. */
  lemma Continues(c: Setup, trace: seq<System>, s': System) returns (longer: seq<System>)
    requires Run(c, trace) && Leads(c, trace[|trace| - 1], s')
    ensures Run(c, longer) && trace <= longer && longer[|longer| - 1] == s'
  {
    var last := trace[|trace| - 1];
    var via: seq<System> :| Path(c, [last] + via + [s']);
    var path := [last] + via + [s'];
    longer := trace + via + [s'];
    forall k: nat | k + 1 < |longer| ensures StepAt(c, longer, k) {
      if k + 1 < |trace| {
        assert StepAt(c, trace, k);
      } else {
        assert StepIn(c, path, k + 1 - |trace|);
      }
    }
  }

  // ----- ReceiveMessages

  /** The internal queues give something. */
  lemma DequeuesWhole(c: Setup, s: System, after: Groups, out: seq<Message>)
    requires s.loop == Top && Dequeued(s.groups, Limit(c), after, out) && out != []
    ensures Leads(c, s, s.(groups := after, handed := s.handed + out))
  {
    var s' := s.(groups := after, handed := s.handed + out);
    assert DequeueStep(c, s, s');
    Steps(c, s, s');
  }

  /** They give nothing when no group is ready. */
  lemma FindsNothing(c: Setup, s: System)
    requires s.loop == Top && forall g :: g in s.groups ==> !Ready(s.groups[g])
    ensures Leads(c, s, s.(loop := Asking))
  {
    var s' := s.(loop := Asking);
    assert DequeuedSoFar(s.groups, {}, s.groups, []);
    assert Dequeued(s.groups, Limit(c), s.groups, []);
    assert s.handed + [] == s.handed;
    assert DequeueStep(c, s, s');
    Steps(c, s, s');
  }

  /** What the server does during the probe, which is sent only when every known group is processing. */
  ghost predicate ProbeServed(groups: Groups, before: Server, probe: Reply, after: Server) {
    if AllProcessing(groups) && probe.Ok? then Served(before, probe.value, after) && |probe.value| <= 1 else after == before
  }

  /** getAvailableGroups. */
  lemma AsksWhole(c: Setup, s: System, probe: Reply, server': Server)
    requires s.loop == Asking && ProbeServed(s.groups, s.server, probe, server')
    ensures Leads(c, s, s.(server := server', groups := Refreshed(s.groups, probe),
                           loop := Fetching(RequestSize(c.config, s.groups, probe, Limit(c)))))
  {
    var s' := s.(server := server', groups := Refreshed(s.groups, probe), loop := Fetching(RequestSize(c.config, s.groups, probe, Limit(c))));
    if !AllProcessing(s.groups) {
      assert AskStep(c, s, s');
    } else if probe.Ok? {
      assert ProbeStep(c, s, s', probe.value, server', true);
    } else {
      assert Served(s.server, [], s.server);
      assert ProbeStep(c, s, s', [], server', false);
    }
    Steps(c, s, s');
  }

  ghost predicate FetchServed(c: Setup, size: int, before: Server, fetch: Reply, after: Server) {
    match fetch
    case Err(_) => after == before
    case Ok(reply) => Served(before, reply, after) && |reply| <= Max(0, size) && (c.config.fetchMode == "single" ==> |reply| <= 1)
  }

  function Received(out: Result<seq<Message>, ()>): seq<Message> {
    if out.Ok? then out.value else []
  }

  /** The call to SQS fails, or there is nothing to receive. */
  lemma ReceivesNothing(c: Setup, s: System, fetch: Reply, server': Server, after: Groups, out: Result<seq<Message>, ()>)
    requires s.loop.Fetching? && FetchServed(c, s.loop.size, s.server, fetch, server') && (fetch.Err? || fetch.value == [])
    requires Fetched(c.config, s.groups, fetch, after, out)
    ensures after == s.groups && Received(out) == [] && Leads(c, s, s.(server := server', loop := Top))
  {
    var s' := s.(server := server', loop := Top);
    if fetch.Err? {
      assert Served(s.server, [], s.server);
      assert FetchStep(c, s, s', [], server', false);
    } else {
      if c.config.fetchMode != "single" {
        NothingTaken(s.groups, after, out.value);
      }
      assert FetchStep(c, s, s', [], server', true);
    }
    Steps(c, s, s');
  }

  lemma NothingTaken(before: Groups, after: Groups, out: seq<Message>)
    requires BatchTaken(before, Decoded([]), after, out)
    ensures after == before && out == []
  {
    NoGroups(out);
  }

  lemma NoGroups(ms: seq<Message>)
    ensures GroupsOf(ms) == {} <==> ms == []
  {
    if ms != [] {
      assert ms[0].groupId in GroupsOf(ms);
    }
  }

  /** receiveSingleMessage. */
  lemma SingleWhole(c: Setup, s: System, reply: seq<SqsMessage>, server': Server, after: Groups, out: Result<seq<Message>, ()>)
    requires c.config.fetchMode == "single" && s.loop.Fetching? && FetchServed(c, s.loop.size, s.server, Ok(reply), server')
    requires reply != [] && Fetched(c.config, s.groups, Ok(reply), after, out)
    ensures Leads(c, s, s.(server := server', groups := after, handed := s.handed + Received(out), loop := Top))
  {
    var m := reply[0];
    assert FromLane(s.server, m);
    var s1 := s.(server := server', loop := Marking(m.group.value, if WellFormed(m) then [Decode(m)] else []));
    assert FetchStep(c, s, s1, reply, server', true);
    Steps(c, s, s1);
    var s2 := s1.(groups := after, handed := s.handed + Received(out), loop := Top);
    assert MarkStep(s1, s2);
    Steps(c, s1, s2);
    Then(c, s, s1, s2);
  }

  /** The groups after those of the messages in `out` have been added in this order. */
  function AddedAll(before: Groups, byGroup: map<string, seq<Message>>, out: seq<Message>): Groups
    requires forall m :: m in out ==> m.groupId in byGroup
  {
    if out == [] then before
    else
      var g := out[|out| - 1].groupId;
      AddTo(AddedAll(before, byGroup, out[..|out| - 1]), g, byGroup[g])
  }

  /** Messages of distinct groups, each the first of its own. */
  ghost predicate Heads(byGroup: map<string, seq<Message>>, out: seq<Message>) {
    OnePerGroup(out) && forall m :: m in out ==> m.groupId in byGroup && byGroup[m.groupId] != [] && byGroup[m.groupId][0] == m
  }

  lemma {:induction false} AddedSoFar(before: Groups, byGroup: map<string, seq<Message>>, out: seq<Message>)
    requires Heads(byGroup, out)
    ensures BatchSoFar(before, byGroup, GroupsOf(out), AddedAll(before, byGroup, out), out)
  {
    if out == [] {
      assert GroupsOf(out) == {};
    } else {
      var front, m := out[..|out| - 1], out[|out| - 1];
      assert out == front + [m] && m in out;
      assert forall x :: x in front ==> x in out;
      AddedSoFar(before, byGroup, front);
      NotInFront(front, m);
      BatchOneMore(before, byGroup, GroupsOf(front), AddedAll(before, byGroup, front), front, m.groupId);
      GroupsOfSnoc(front, m);
    }
  }

  lemma NotInFront(front: seq<Message>, m: Message)
    requires OnePerGroup(front + [m])
    ensures OnePerGroup(front) && m.groupId !in GroupsOf(front)
  {
    var all := front + [m];
    forall k | 0 <= k < |front| ensures front[k].groupId != m.groupId {
      assert all[k].groupId != all[|front|].groupId;
    }
    forall i, j | 0 <= i < j < |front| ensures front[i].groupId != front[j].groupId {
      assert all[i].groupId != all[j].groupId;
    }
  }

  lemma BatchDetermined(before: Groups, byGroup: map<string, seq<Message>>, done: set<string>, a: Groups, b: Groups, out: seq<Message>)
    requires BatchSoFar(before, byGroup, done, a, out) && BatchSoFar(before, byGroup, done, b, out)
    ensures a == b
  {
    assert a.Keys == b.Keys;
    assert forall g :: g in a ==> a[g] == b[g];
  }

  /** The loop over the groups, in the order in which their first messages are returned. */
  lemma {:induction false} AddsWhole(c: Setup, s: System, byGroup: map<string, seq<Message>>, out: seq<Message>)
    requires s.loop == Sorting(byGroup, []) && Heads(byGroup, out)
    ensures if out == [] then Sorted(s, byGroup, out) == s else Leads(c, s, Sorted(s, byGroup, out))
    decreases |out|
  {
    if out == [] {
      NoGroups(out);
      assert byGroup - GroupsOf(out) == byGroup;
    } else {
      var front, m := out[..|out| - 1], out[|out| - 1];
      assert out == front + [m] && m in out;
      assert forall x :: x in front ==> x in out;
      NotInFront(front, m);
      AddsWhole(c, s, byGroup, front);
      AddsLast(c, s, byGroup, front, m);
      assert Leads(c, Sorted(s, byGroup, front), Sorted(s, byGroup, out));
      if front != [] {
        Then(c, s, Sorted(s, byGroup, front), Sorted(s, byGroup, out));
      }
    }
  }

  /** Where that loop stands after the groups of `out`. */
  function Sorted(s: System, byGroup: map<string, seq<Message>>, out: seq<Message>): System
    requires forall m :: m in out ==> m.groupId in byGroup
  {
    s.(groups := AddedAll(s.groups, byGroup, out), loop := Sorting(byGroup - GroupsOf(out), out))
  }

  lemma AddsLast(c: Setup, s: System, byGroup: map<string, seq<Message>>, front: seq<Message>, m: Message)
    requires Heads(byGroup, front + [m]) && (forall x :: x in front ==> x.groupId in byGroup)
    ensures forall x :: x in front + [m] ==> x.groupId in byGroup
    ensures Leads(c, Sorted(s, byGroup, front), Sorted(s, byGroup, front + [m]))
  {
    var all := front + [m];
    assert m in all && all[..|all| - 1] == front;
    NotInFront(front, m);
    GroupsOfSnoc(front, m);
    var s1, s2 := Sorted(s, byGroup, front), Sorted(s, byGroup, all);
    assert (byGroup - GroupsOf(front)) - {m.groupId} == byGroup - GroupsOf(all);
    assert AddStep(s1, s2, m.groupId);
    Steps(c, s1, s2);
  }

  /** receiveBatchMessages. */
  lemma BatchWhole(c: Setup, s: System, reply: seq<SqsMessage>, server': Server, after: Groups, out: Result<seq<Message>, ()>)
    requires c.config.fetchMode != "single" && s.loop.Fetching? && FetchServed(c, s.loop.size, s.server, Ok(reply), server')
    requires reply != [] && Fetched(c.config, s.groups, Ok(reply), after, out)
    ensures Leads(c, s, s.(server := server', groups := after, handed := s.handed + Received(out), loop := Top))
  {
    var byGroup := Grouped(Decoded(reply));
    assert FromLane(s.server, reply[0]);
    var s1 := s.(server := server', loop := Sorting(byGroup, []));
    assert FetchStep(c, s, s1, reply, server', true);
    Steps(c, s, s1);
    AddsWhole(c, s1, byGroup, out.value);
    var s2 := Sorted(s1, byGroup, out.value);
    if out.value != [] {
      Then(c, s, s1, s2);
    }
    AddedSoFar(s.groups, byGroup, out.value);
    BatchDetermined(s.groups, byGroup, GroupsOf(out.value), s2.groups, after, out.value);
    assert byGroup - GroupsOf(out.value) == map[];
    var s3 := s2.(handed := s.handed + out.value, loop := Top);
    assert ReturnStep(s2, s3);
    Steps(c, s2, s3);
    Then(c, s, s2, s3);
  }

  /** ReceiveMessages when no group is ready: the question for available groups, the call to SQS, and what it brings. */
  lemma ReceivesWhole(c: Setup, s: System, probe: Reply, server1: Server, fetch: Reply, server2: Server, after: Groups, out: Result<seq<Message>, ()>)
    requires s.loop == Top && forall g :: g in s.groups ==> !Ready(s.groups[g])
    requires ProbeServed(s.groups, s.server, probe, server1)
    requires FetchServed(c, RequestSize(c.config, s.groups, probe, Limit(c)), server1, fetch, server2)
    requires Fetched(c.config, Refreshed(s.groups, probe), fetch, after, out)
    ensures Leads(c, s, s.(server := server2, groups := after, handed := s.handed + Received(out)))
  {
    var s1 := s.(loop := Asking);
    FindsNothing(c, s);
    AsksWhole(c, s1, probe, server1);
    var s2 := s.(server := server1, groups := Refreshed(s.groups, probe), loop := Fetching(RequestSize(c.config, s.groups, probe, Limit(c))));
    Then(c, s, s1, s2);
    var s3 := s.(server := server2, groups := after, handed := s.handed + Received(out));
    if fetch.Err? || fetch.value == [] {
      ReceivesNothing(c, s2, fetch, server2, after, out);
      assert s.handed + [] == s.handed;
    } else if c.config.fetchMode == "single" {
      SingleWhole(c, s2, fetch.value, server2, after, out);
    } else {
      BatchWhole(c, s2, fetch.value, server2, after, out);
    }
    Then(c, s, s2, s3);
  }

  // ----- AcknowledgeMessage

  /** The message is deleted and its group released. */
  lemma AcknowledgesWhole(c: Setup, s: System, m: Message, after: Groups)
    requires m in s.handed && m !in s.attempted && m.groupId in s.server && after == MarkAvailable(s.groups, m.groupId)
    ensures Leads(c, s, s.(server := Delete(s.server, m), attempted := s.attempted + {m}, groups := after))
  {
    var s1 := s.(server := Delete(s.server, m), attempted := s.attempted + {m}, releasing := s.releasing + multiset{m.groupId});
    assert DeleteStep(s, s1, m, true, true);
    Steps(c, s, s1);
    var s2 := s.(server := Delete(s.server, m), attempted := s.attempted + {m}, groups := after);
    assert s1.releasing - multiset{m.groupId} == s.releasing;
    assert ReleaseStep(s1, s2, m.groupId);
    Steps(c, s1, s2);
    Then(c, s, s1, s2);
  }

  /** The delete fails: the broker's map stays as it is. */
  lemma FailsToAcknowledge(c: Setup, s: System, m: Message)
    requires m in s.handed && m !in s.attempted && m.groupId in s.server
    ensures Leads(c, s, s.(attempted := s.attempted + {m}))
  {
    var s' := s.(attempted := s.attempted + {m});
    assert DeleteStep(s, s', m, false, false);
    Steps(c, s, s');
  }
}
