/**
 That messages do get through: for every configuration and every log of decodable messages there is a run in which all of
 them are handed out, deleted and released, one by one.  In single mode this holds for no other log.
 */
module FifoDelivery {
  import opened Basics
  import opened FifoQueues
  import opened FifoBroker
  import opened FifoProtocol
  import opened FifoStranding
  import opened FifoPoison
  import opened FifoRefinement

  function Seqs(n: nat): (all: set<nat>)
    ensures forall k: nat :: k in all <==> k < n
  {
    if n == 0 then {} else Seqs(n - 1) + {n - 1}
  }

  /** The group knows no queued message and is free. */
  ghost predicate Free(groups: Groups, g: string) {
    groups == map[] || groups == map[g := GroupQueue(false, [])]
  }

  /** The first `n` messages of the log are handed out, deleted and released, and nothing is going on. */
  ghost predicate Delivered(s: System, g: string, log: seq<Option<string>>, n: nat)
    requires n <= |log|
  {
    && s.server == map[g := Lane(log, {}, Seqs(n))] && Free(s.groups, g) && s.loop == Top
    && s.handed == Goods(g, log[..n]) && (forall m :: m in s.attempted ==> m in s.handed)
  }

  /** The broker asks for at least one message. */
  ghost predicate Asks(c: Setup) {
    c.config.fetchMode == "single" || Limit(c) >= 1
  }

  lemma AsksForOne(c: Setup, groups: Groups, g: string)
    requires Normal(c.config) && Asks(c) && Free(groups, g)
    ensures RequestSize(c.config, groups, Err(()), Limit(c)) >= 1
  {
    NormalSizes(c.config);
    if groups != map[] {
      assert g in groups && FreeGroups(groups, {}) == {g};
    }
  }

  lemma OneServed(g: string, log: seq<Option<string>>, n: nat)
    requires n < |log| && log[n].Some?
    ensures Served(map[g := Lane(log, {}, Seqs(n))], [SqsMessage(Some(g), n, log[n])], map[g := Lane(log, {n}, Seqs(n))])
  {
    var reply := [SqsMessage(Some(g), n, log[n])];
    assert reply[0].seqNo == n;
    assert Taken(reply, g) == {n};
  }

  lemma OneGrouped(g: string, n: nat, body: string)
    ensures var m := Message(g, n, body);
            Decoded([SqsMessage(Some(g), n, Some(body))]) == [m] && GroupsOf([m]) == {g} && Grouped([m]) == map[g := [m]]
  {
    var m := Message(g, n, body);
    SingleIsOwn([SqsMessage(Some(g), n, Some(body))], g);
    SingleForGroup(m);
    assert [m][0].groupId == g;
  }

  /** The message is received and the group marked, in batch mode ... */
  lemma OneBatched(groups: Groups, g: string, m: Message)
    requires Free(groups, g) && m.groupId == g
    requires GroupsOf([m]) == {g} && Grouped([m]) == map[g := [m]]
    ensures BatchTaken(groups, [m], map[g := GroupQueue(true, [])], [m])
  {
    AddedSoFar(groups, map[g := [m]], [m]);
    OneAdded(groups, g, m);
    assert AddedAll(groups, map[g := [m]], [m]) == AddTo(groups, g, [m]);
  }

  lemma OneAdded(groups: Groups, g: string, m: Message)
    requires Free(groups, g)
    ensures AddTo(groups, g, [m]) == map[g := GroupQueue(true, [])]
  {
    assert Lookup(groups, g) == NEW_GROUP;
    var tasks: seq<Message> := [];
    assert tasks + tasks == tasks && [m] != tasks;
    assert AddTo(groups, g, [m])[g] == GroupQueue(true, tasks);
    assert AddTo(groups, g, [m]).Keys == {g};
  }

  /** ... and in either mode. */
  lemma OneTaken(c: Setup, groups: Groups, g: string, n: nat, body: string)
    requires Free(groups, g)
    ensures Fetched(c.config, groups, Ok([SqsMessage(Some(g), n, Some(body))]), map[g := GroupQueue(true, [])], Ok([Message(g, n, body)]))
  {
    OneGrouped(g, n, body);
    OneBatched(groups, g, Message(g, n, body));
  }

  lemma ReceiveOne(c: Setup, s: System, g: string, log: seq<Option<string>>, n: nat)
    requires Normal(c.config) && Asks(c) && n < |log| && log[n].Some? && Delivered(s, g, log, n)
    ensures Leads(c, s, s.(server := map[g := Lane(log, {n}, Seqs(n))], groups := map[g := GroupQueue(true, [])],
                           handed := s.handed + [Message(g, n, log[n].value)]))
  {
    var m, reply := Message(g, n, log[n].value), [SqsMessage(Some(g), n, log[n])];
    AsksForOne(c, s.groups, g);
    OneServed(g, log, n);
    OneTaken(c, s.groups, g, n, log[n].value);
    ReceivesWhole(c, s, Err(()), s.server, Ok(reply), map[g := Lane(log, {n}, Seqs(n))], map[g := GroupQueue(true, [])], Ok([m]));
  }

  lemma FinishOne(c: Setup, s: System, g: string, log: seq<Option<string>>, n: nat, m: Message)
    requires n < |log| && log[n] == Some(m.body) && m == Message(g, n, m.body)
    requires s.server == map[g := Lane(log, {n}, Seqs(n))] && s.groups == map[g := GroupQueue(true, [])] && s.loop == Top
    requires s.handed == Goods(g, log[..n]) + [m] && forall x :: x in s.attempted ==> x in Goods(g, log[..n])
    ensures var s' := s.(server := map[g := Lane(log, {}, Seqs(n + 1))], groups := map[g := GroupQueue(false, [])], attempted := s.attempted + {m});
            Leads(c, s, s') && Delivered(s', g, log, n + 1)
  {
    GoodsMembers(g, log[..n]);
    assert m in s.handed && m !in s.attempted;
    assert MarkAvailable(s.groups, g) == map[g := GroupQueue(false, [])];
    AcknowledgesWhole(c, s, m, map[g := GroupQueue(false, [])]);
    assert {n} - {n} == {} && Seqs(n) + {n} == Seqs(n + 1);
    assert Delete(s.server, m) == map[g := Lane(log, {}, Seqs(n + 1))];
    assert log[..n + 1][..n] == log[..n];
  }

  lemma DeliverOne(c: Setup, s: System, g: string, log: seq<Option<string>>, n: nat) returns (s': System)
    requires Normal(c.config) && Asks(c) && n < |log| && log[n].Some? && Delivered(s, g, log, n)
    ensures Leads(c, s, s') && Delivered(s', g, log, n + 1)
  {
    var m := Message(g, n, log[n].value);
    ReceiveOne(c, s, g, log, n);
    var s1 := s.(server := map[g := Lane(log, {n}, Seqs(n))], groups := map[g := GroupQueue(true, [])], handed := s.handed + [m]);
    FinishOne(c, s1, g, log, n, m);
    s' := s1.(server := map[g := Lane(log, {}, Seqs(n + 1))], groups := map[g := GroupQueue(false, [])], attempted := s1.attempted + {m});
    Then(c, s, s1, s');
  }

  /** Any log can be published. */
  lemma {:induction false} PublishAll(c: Setup, g: string, log: seq<Option<string>>) returns (trace: seq<System>)
    requires Normal(c.config)
    ensures Run(c, trace) && Last(trace) == System(map[g := Lane(log, {}, {})], map[], Top, [], {}, multiset{})
  {
    if log == [] {
      trace := [System(map[g := Lane([], {}, {})], map[], Top, [], {}, multiset{})];
    } else {
      var front, body := log[..|log| - 1], log[|log| - 1];
      trace := PublishAll(c, g, front);
      var s := Last(trace);
      var s' := s.(server := map[g := Lane(front + [body], {}, {})]);
      assert Publish(s, s', g, body);
      assert RemoteStep(s, s');
      Steps(c, s, s');
      trace := Continues(c, trace, s');
      assert front + [body] == log;
    }
  }

  /** Every log of decodable messages can be handed out completely, each message deleted before the next one. */
  lemma {:induction false} EverythingGetsThrough(c: Setup, g: string, log: seq<Option<string>>, n: nat) returns (trace: seq<System>)
    requires Normal(c.config) && Asks(c) && n <= |log| && forall k :: 0 <= k < n ==> log[k].Some?
    ensures Run(c, trace) && Delivered(Last(trace), g, log, n)
  {
    if n == 0 {
      trace := PublishAll(c, g, log);
    } else {
      trace := EverythingGetsThrough(c, g, log, n - 1);
      var s' := DeliverOne(c, Last(trace), g, log, n - 1);
      trace := Continues(c, trace, s');
    }
  }

  ghost predicate HandsOutOf(c: Setup, trace: seq<System>, g: string, log: seq<Option<string>>, m: Message) {
    trace != [] && Run(c, trace) && log <= LaneOf(Last(trace).server, g).log && m in Last(trace).handed
  }

  /** In single mode a decodable message can be handed out if and only if everything published before it in its group is decodable. */
  lemma DeliverableIff(c: Setup, g: string, log: seq<Option<string>>, n: nat)
    requires Normal(c.config) && c.config.fetchMode == "single" && n < |log| && log[n].Some?
    ensures (exists trace :: HandsOutOf(c, trace, g, log, Message(g, n, log[n].value)))
            <==> forall k :: 0 <= k < n ==> log[k].Some?
  {
    var m := Message(g, n, log[n].value);
    if forall k :: 0 <= k < n ==> log[k].Some? {
      var trace := EverythingGetsThrough(c, g, log, n + 1);
      GoodsMembers(g, log[..n + 1]);
      assert m in Last(trace).handed;
      assert HandsOutOf(c, trace, g, log, m);
    }
    forall trace, k | HandsOutOf(c, trace, g, log, m) && 0 <= k < n ensures log[k].Some? {
      PoisonBlocks(c, trace, |trace| - 1, m);
    }
  }
}
