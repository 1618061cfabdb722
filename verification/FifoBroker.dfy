/**
 internal/broker/sqs/fifo.go: the broker object with its in-place group map, and its configuration.
 Replies of the SQS client are parameters: `Err` when the call fails, any sequence of messages otherwise.
 Go visits maps in any order, so the loops below choose the next group freely.
 */
module FifoBroker {
  import opened Basics
  import opened FifoQueues

  // ----- configuration

  datatype Config = Config(queueUrl: string, fetchMode: string, batchSize: int, maxPrefetch: int)

  datatype ConfigError = QueueUrlEmpty | NotFifo | BadFetchMode

  const FIFO_SUFFIX := ".fifo"

  function Normalise(c: Config): Result<Config, ConfigError> {
    if c.queueUrl == "" then Err(QueueUrlEmpty)
    else if |c.queueUrl| < 5 || c.queueUrl[|c.queueUrl| - 5..] != FIFO_SUFFIX then Err(NotFifo)
    else if c.fetchMode != "" && c.fetchMode != "single" && c.fetchMode != "batch" then Err(BadFetchMode)
    else Ok(c.(
      fetchMode := if c.fetchMode == "" then "batch" else c.fetchMode,
      batchSize := if c.batchSize <= 0 then 10 else if c.batchSize < 2 then 2 else if c.batchSize > 10 then 10 else c.batchSize,
      maxPrefetch := if c.maxPrefetch <= 0 then 50 else c.maxPrefetch))
  }

  /** How many messages receiveBatchMessages asks SQS for, given the number of available groups. */
  function BatchRequest(c: Config, available: nat, maxMessages: int): int {
    var batchSize := Min(c.batchSize, maxMessages);
    if available > 0 then Min(batchSize, available) else batchSize
  }

  /** Exactly what configurations are refused, and what the others become. */
  lemma NormaliseFields(c: Config)
    ensures Normalise(c).Ok? <==>
              && (exists front: string :: c.queueUrl == front + ['.', 'f', 'i', 'f', 'o'])
              && (c.fetchMode == "" || c.fetchMode == "single" || c.fetchMode == "batch")
    ensures Normalise(c) == Err(QueueUrlEmpty) <==> c.queueUrl == []
    ensures Normalise(c) == Err(NotFifo) <==> c.queueUrl != [] && forall front: string :: c.queueUrl != front + ['.', 'f', 'i', 'f', 'o']
    ensures Normalise(c).Ok? ==>
              var n := Normalise(c).value;
              && n.queueUrl == c.queueUrl
              && (n.fetchMode == "single" <==> c.fetchMode == "single")
              && (n.fetchMode == "batch" <==> c.fetchMode == "" || c.fetchMode == "batch")
              && (c.batchSize <= 0 ==> n.batchSize == 10)
              && (c.batchSize == 1 ==> n.batchSize == 2)
              && (2 <= c.batchSize <= 10 ==> n.batchSize == c.batchSize)
              && (c.batchSize > 10 ==> n.batchSize == 10)
              && (c.maxPrefetch <= 0 ==> n.maxPrefetch == 50)
              && (c.maxPrefetch > 0 ==> n.maxPrefetch == c.maxPrefetch)
  {
    var k := |c.queueUrl| - 5;
    if k >= 0 {
      assert c.queueUrl == c.queueUrl[..k] + c.queueUrl[k..];
    }
    forall front: string | c.queueUrl == front + ['.', 'f', 'i', 'f', 'o'] ensures k >= 0 && c.queueUrl[k..] == FIFO_SUFFIX {
    }
  }

  /** A batch request is as large as the batch size, the worker's limit and the number of available groups allow. */
  lemma RequestIsLargest(c: Config, available: nat, maxMessages: int, k: int)
    ensures k <= BatchRequest(c, available, maxMessages) <==>
              k <= c.batchSize && k <= maxMessages && (available > 0 ==> k <= available)
  {
  }

  /** SQS accepts 1 to 10 messages per request; every batch request of a normalised broker stays within that
      exactly when the worker's prefetch is at least one. */
  lemma RequestSizes(raw: Config, c: Config, available: nat, prefetch: int)
    requires Normalise(raw) == Ok(c)
    ensures 1 <= BatchRequest(c, available, Min(prefetch, c.maxPrefetch)) <= 10 <==> prefetch >= 1
    ensures c.fetchMode == "single" || c.fetchMode == "batch"
    ensures Normalise(c) == Ok(c)
  {
  }

  ghost predicate Normal(c: Config) {
    exists raw :: Normalise(raw) == Ok(c)
  }

  type Reply = Result<seq<SqsMessage>, ()>

  // ----- the broker

  class Broker {
    const config: Config
    var groups: Groups

    ghost predicate Valid()
      reads this
    {
      Homed(groups) && Normal(config)
    }

    constructor (raw: Config, c: Config)
      requires Normalise(raw) == Ok(c)
      ensures Valid() && groups == map[] && config == c
    {
      config := c;
      groups := map[];
    }

    /** `maxMessages` is a nat: a negative value makes the Go code panic when it allocates the result. */
    method GetMessagesFromInternalQueues(maxMessages: nat) returns (out: seq<Message>)
      requires Valid()
      modifies this`groups
      ensures Valid()
      ensures Dequeued(old(groups), maxMessages, groups, out)
    {
      out := [];
      var rest := groups.Keys;
      while rest != {}
        invariant Valid() && rest <= groups.Keys
        invariant out == [] || |out| < maxMessages
        invariant DequeuedSoFar(old(groups), rest, groups, out)
        decreases rest
      {
        var g :| g in rest;
        rest := rest - {g};
        if groups[g].processing || |groups[g].tasks| == 0 {
          continue;
        }
        var message := groups[g].tasks[0];
        assert message in groups[g].tasks;
        DequeueOneMore(old(groups), rest, groups, out, g);
        groups := groups[g := GroupQueue(true, groups[g].tasks[1..])];
        out := out + [message];
        if |out| >= maxMessages {
          break;
        }
      }
    }

    method AddMessagesToGroup(g: string, messages: seq<Message>)
      requires Valid() && forall m :: m in messages ==> m.groupId == g
      modifies this`groups
      ensures Valid()
      ensures groups == AddTo(old(groups), g, messages)
      ensures groups.Keys == old(groups).Keys + {g} && forall h :: h in groups && h != g ==> groups[h] == old(groups)[h]
      ensures groups[g].tasks == (if g in old(groups) then old(groups)[g].tasks else []) + if messages == [] then [] else messages[1..]
      ensures groups[g].processing <==>
                (g in old(groups) && old(groups)[g].processing) || (messages != [] && (g !in old(groups) || old(groups)[g].tasks == []))
    {
      if g !in groups {
        groups := groups[g := GroupQueue(false, [])];
      }
      var q := groups[g];
      if |q.tasks| == 0 && |messages| > 0 {
        q := q.(processing := true);
      }
      if |messages| > 1 {
        q := q.(tasks := q.tasks + messages[1..]);
      }
      groups := groups[g := q];
      assert groups[g] == AddTo(old(groups), g, messages)[g];
    }

    method MarkGroupAsProcessing(g: string)
      requires Valid()
      modifies this`groups
      ensures Valid()
      ensures groups == MarkProcessing(old(groups), g)
      ensures groups.Keys == old(groups).Keys + {g} && forall h :: h in groups && h != g ==> groups[h] == old(groups)[h]
      ensures groups[g].processing && groups[g].tasks == if g in old(groups) then old(groups)[g].tasks else []
    {
      if g !in groups {
        groups := groups[g := GroupQueue(false, [])];
      }
      groups := groups[g := groups[g].(processing := true)];
    }

    method MarkGroupAsAvailable(g: string)
      requires Valid()
      modifies this`groups
      ensures Valid()
      ensures groups == MarkAvailable(old(groups), g)
      ensures groups.Keys == old(groups).Keys && forall h :: h in groups && h != g ==> groups[h] == old(groups)[h]
      ensures g in groups && old(groups)[g].tasks == [] ==> !groups[g].processing && groups[g].tasks == []
      ensures g in groups && old(groups)[g].tasks != [] ==> groups[g] == old(groups)[g]
    {
      if g !in groups {
        return;
      }
      if |groups[g].tasks| > 0 {
        return;
      }
      groups := groups[g := groups[g].(processing := false)];
    }

    /** getAvailableGroups.  `probe` is consulted only when no known group is available. */
    method GetAvailableGroups(probe: Reply) returns (available: seq<string>)
      requires Valid()
      modifies this`groups
      ensures Valid()
      ensures !AllProcessing(old(groups)) ==> groups == old(groups) && available != []
      ensures AllProcessing(old(groups)) ==>
                groups == if probe.Ok? then Probed(old(groups), probe.value) else old(groups)
      ensures !AllProcessing(old(groups)) ==>
                && (forall g :: g in available <==> g in groups && !groups[g].processing)
                && (forall i, j :: 0 <= i < j < |available| ==> available[i] != available[j])
      ensures |available| == AvailableCount(old(groups), probe)
      ensures AllProcessing(old(groups)) ==> available == if probe.Ok? then ProbedGroups(old(groups), probe.value) else []
    {
      available := [];
      var rest := groups.Keys;
      assert FreeGroups(groups, rest) == {};
      while rest != {}
        invariant groups == old(groups) && rest <= groups.Keys
        invariant forall g :: g in available <==> g in groups && g !in rest && !groups[g].processing
        invariant forall i, j :: 0 <= i < j < |available| ==> available[i] != available[j]
        invariant |available| == |FreeGroups(groups, rest)|
        decreases rest
      {
        var g :| g in rest;
        FreeGroupsStep(groups, rest, g);
        rest := rest - {g};
        if !groups[g].processing {
          available := available + [g];
        }
      }
      if |available| > 0 {
        assert available[0] in available;
        return;
      }
      assert AllProcessing(groups) by {
        forall g | g in groups ensures groups[g].processing {
          assert g !in available;
        }
      }
      if probe.Err? {
        return;
      }
      available := Probe(probe.value);
    }

    /** The loop over the probe reply. */
    method Probe(reply: seq<SqsMessage>) returns (available: seq<string>)
      requires Valid()
      modifies this`groups
      ensures Valid()
      ensures groups == Probed(old(groups), reply)
      ensures available == ProbedGroups(old(groups), reply)
      ensures reply == [] ==> groups == old(groups) && available == []
      ensures |reply| == 1 && reply[0].group.Some? ==>
                var g := reply[0].group.value;
                var busy := g in old(groups) && old(groups)[g].processing;
                && available == (if busy then [] else [g])
                && groups == if busy || reply[0].body.None? then old(groups)
                             else old(groups)[g := GroupQueue(false, (if g in old(groups) then old(groups)[g].tasks else [])
                                                                     + [Message(g, reply[0].seqNo, reply[0].body.value)])]
      ensures |reply| == 1 && reply[0].group.None? ==> groups == old(groups) && available == []
    {
      available := [];
      for i := 0 to |reply|
        invariant Valid()
        invariant groups == Probed(old(groups), reply[..i])
        invariant available == ProbedGroups(old(groups), reply[..i])
      {
        var m := reply[i];
        ghost var before := groups;
        assert reply[..i + 1][..i] == reply[..i] && reply[..i + 1][i] == m;
        assert Probed(old(groups), reply[..i + 1]) == ProbeOne(before, m);
        if m.group.None? {
          continue;
        }
        var g := m.group.value;
        if g in groups && groups[g].processing {
          continue;
        }
        available := available + [g];
        if m.body.None? {
          continue;
        }
        var msg := Decode(m);
        if g in groups {
          groups := groups[g := groups[g].(tasks := groups[g].tasks + [msg])];
        } else {
          assert NEW_GROUP.tasks + [msg] == [msg];
          groups := groups[g := GroupQueue(false, [msg])];
        }
      }
      assert reply[..|reply|] == reply;
    }

    /** The first loop of receiveBatchMessages. */
    static method SplitByGroup(reply: seq<SqsMessage>) returns (byGroup: map<string, seq<Message>>)
      ensures byGroup == Grouped(Decoded(reply))
    {
      byGroup := map[];
      for i := 0 to |reply|
        invariant byGroup == Grouped(Decoded(reply[..i]))
      {
        var m := reply[i];
        ghost var sofar := Decoded(reply[..i]);
        assert reply[..i + 1][..i] == reply[..i] && reply[..i + 1][i] == m;
        assert Decoded(reply[..i + 1]) == sofar + if WellFormed(m) then [Decode(m)] else [];
        if m.group.None? {
          assert Decoded(reply[..i + 1]) == sofar;
          continue;
        }
        if m.body.None? {
          assert Decoded(reply[..i + 1]) == sofar;
          continue;
        }
        var msg := Decode(m);
        GroupedSnoc(sofar, msg);
        var own := if msg.groupId in byGroup then byGroup[msg.groupId] else [];
        byGroup := byGroup[msg.groupId := own + [msg]];
      }
      assert reply[..|reply|] == reply;
    }

    /** receiveBatchMessages after the SQS call. */
    method AcceptBatch(reply: seq<SqsMessage>) returns (out: seq<Message>)
      requires Valid()
      modifies this`groups
      ensures Valid()
      ensures BatchTaken(old(groups), Decoded(reply), groups, out)
    {
      var byGroup := SplitByGroup(reply);
      ghost var ms := Decoded(reply);
      forall g | g in byGroup ensures byGroup[g] != [] && (forall m: Message :: m in byGroup[g] ==> m.groupId == g) {
        GroupedNonempty(ms, g);
      }
      out := AddAll(byGroup);
    }

    /** The second loop of receiveBatchMessages. */
    method AddAll(byGroup: map<string, seq<Message>>) returns (out: seq<Message>)
      requires Valid()
      requires forall g :: g in byGroup ==> byGroup[g] != [] && forall m: Message :: m in byGroup[g] ==> m.groupId == g
      modifies this`groups
      ensures Valid()
      ensures BatchSoFar(old(groups), byGroup, byGroup.Keys, groups, out)
    {
      out := [];
      var rest := byGroup.Keys;
      ghost var done: set<string> := {};
      while rest != {}
        invariant Valid()
        invariant rest !! done && rest + done == byGroup.Keys
        invariant BatchSoFar(old(groups), byGroup, done, groups, out)
        decreases rest
      {
        var g :| g in rest;
        var groupMessages := byGroup[g];
        assert groupMessages[0] in groupMessages;
        BatchOneMore(old(groups), byGroup, done, groups, out, g);
        AddMessagesToGroup(g, groupMessages);
        if |groupMessages| > 0 {
          out := out + [groupMessages[0]];
        }
        rest, done := rest - {g}, done + {g};
      }
    }

    /** receiveSingleMessage after the SQS call: an undecodable body is an error, but the group is marked first. */
    method AcceptSingle(reply: seq<SqsMessage>) returns (out: Result<seq<Message>, ()>)
      requires Valid()
      modifies this`groups
      ensures Valid()
      ensures SingleTaken(old(groups), reply, groups, out)
      ensures reply == [] || reply[0].group.None? ==> groups == old(groups) && out == Ok([])
      ensures reply != [] && reply[0].group.Some? ==>
                var g := reply[0].group.value;
                && groups.Keys == old(groups).Keys + {g} && (forall h :: h in groups && h != g ==> groups[h] == old(groups)[h])
                && groups[g].processing && groups[g].tasks == (if g in old(groups) then old(groups)[g].tasks else [])
                && out == if reply[0].body.Some? then Ok([Message(g, reply[0].seqNo, reply[0].body.value)]) else Err(())
    {
      if |reply| == 0 {
        return Ok([]);
      }
      var m := reply[0];
      if m.group.None? {
        return Ok([]);
      }
      MarkGroupAsProcessing(m.group.value);
      if m.body.None? {
        return Err(());
      }
      return Ok([Decode(m)]);
    }

    /** receiveSingleMessage or receiveBatchMessages; `size` is the number of messages asked for. */
    method Fetch(limit: nat, probe: Reply, fetch: Reply) returns (out: Result<seq<Message>, ()>, size: int)
      requires Valid() && limit <= config.maxPrefetch
      modifies this`groups
      ensures Valid()
      ensures Fetched(config, Refreshed(old(groups), probe), fetch, groups, out)
      ensures size == RequestSize(config, old(groups), probe, limit)
      ensures limit >= 1 ==> 1 <= size <= 10
      ensures fetch.Err? ==> out == Err(())
      ensures config.fetchMode == "single" ==> size == 1
      ensures config.fetchMode == "batch" ==>
                var available := AvailableCount(old(groups), probe);
                && size <= config.batchSize && size <= limit && (available > 0 ==> size <= available)
                && (size == config.batchSize || size == limit || (available > 0 && size == available))
    {
      var available := GetAvailableGroups(probe);
      if config.fetchMode == "single" {
        size := 1;
        if fetch.Err? {
          out := Err(());
        } else {
          out := AcceptSingle(fetch.value);
        }
      } else {
        size := BatchRequest(config, |available|, limit);
        if fetch.Err? {
          out := Err(());
        } else {
          var messages := AcceptBatch(fetch.value);
          out := Ok(messages);
        }
      }
    }

    /**
     ReceiveMessages with no concurrent acknowledgement.  Only when the internal queues give nothing does it turn
     to SQS (`size` is 0 when it does not).
     */
    method ReceiveMessages(maxMessages: nat, probe: Reply, fetch: Reply)
      returns (out: Result<seq<Message>, ()>, size: int)
      requires Valid()
      modifies this`groups
      ensures Valid()
      ensures (exists g :: g in old(groups) && Ready(old(groups)[g])) ==>
                out.Ok? && out.value != [] && size == 0 && Dequeued(old(groups), Min(maxMessages, config.maxPrefetch), groups, out.value)
      ensures (forall g :: g in old(groups) ==> !Ready(old(groups)[g])) ==>
                && Fetched(config, Refreshed(old(groups), probe), fetch, groups, out)
                && size == RequestSize(config, old(groups), probe, Min(maxMessages, config.maxPrefetch))
                && (maxMessages >= 1 ==> 1 <= size <= 10)
                && (config.fetchMode == "single" ==> size == 1)
                && (fetch.Err? ==> out == Err(()))
      ensures (forall g :: g in old(groups) ==> !Ready(old(groups)[g])) && config.fetchMode == "batch" ==>
                var available := AvailableCount(old(groups), probe);
                && size <= config.batchSize && size <= maxMessages && size <= config.maxPrefetch && (available > 0 ==> size <= available)
                && (size == config.batchSize || size == maxMessages || size == config.maxPrefetch || (available > 0 && size == available))
    {
      var limit := Min(maxMessages, config.maxPrefetch);
      var internal := GetMessagesFromInternalQueues(limit);
      if |internal| > 0 {
        assert TakenHead(old(groups), groups, internal[0]);
        return Ok(internal), 0;
      }
      assert groups == old(groups);
      out, size := Fetch(limit, probe, fetch);
    }

    /** AcknowledgeMessage with nothing between its halves: the group is released only once the message is deleted. */
    method AcknowledgeMessage(message: Message, deleted: bool) returns (ok: bool)
      requires Valid()
      modifies this`groups
      ensures Valid()
      ensures ok == deleted
      ensures groups == if deleted then MarkAvailable(old(groups), message.groupId) else old(groups)
      ensures !deleted ==> groups == old(groups)
      ensures groups.Keys == old(groups).Keys && forall h :: h in groups && h != message.groupId ==> groups[h] == old(groups)[h]
      ensures deleted && message.groupId in groups && old(groups)[message.groupId].tasks == [] ==>
                !groups[message.groupId].processing && groups[message.groupId].tasks == []
      ensures message.groupId in groups && old(groups)[message.groupId].tasks != [] ==>
                groups[message.groupId] == old(groups)[message.groupId]
    {
      if !deleted {
        return false;
      }
      MarkGroupAsAvailable(message.groupId);
      return true;
    }
  }

  /** How many groups getAvailableGroups reports. */
  ghost function AvailableCount(groups: Groups, probe: Reply): nat {
    if !AllProcessing(groups) then |FreeGroups(groups, {})|
    else if probe.Err? then 0
    else |ProbedGroups(groups, probe.value)|
  }

  /** How many messages a receive asks SQS for. */
  ghost function RequestSize(c: Config, groups: Groups, probe: Reply, limit: int): int {
    if c.fetchMode == "single" then 1 else BatchRequest(c, AvailableCount(groups, probe), limit)
  }

  lemma FreeGroupsStep(groups: Groups, rest: set<string>, g: string)
    requires g in rest && g in groups
    ensures |FreeGroups(groups, rest - {g})| == |FreeGroups(groups, rest)| + if groups[g].processing then 0 else 1
  {
    assert FreeGroups(groups, rest - {g}) == FreeGroups(groups, rest) + if groups[g].processing then {} else {g};
  }

  ghost predicate SingleTaken(before: Groups, reply: seq<SqsMessage>, after: Groups, out: Result<seq<Message>, ()>) {
    if reply == [] || reply[0].group.None? then
      after == before && out == Ok([])
    else
      && after == MarkProcessing(before, reply[0].group.value)
      && out == if reply[0].body.None? then Err(()) else Ok([Decode(reply[0])])
  }

  /** The map after the question for available groups. */
  ghost function Refreshed(groups: Groups, probe: Reply): Groups {
    if AllProcessing(groups) && probe.Ok? then Probed(groups, probe.value) else groups
  }

  /** What an SQS receive does to the map and returns, in either fetch mode. */
  ghost predicate Fetched(c: Config, before: Groups, fetch: Reply, after: Groups, out: Result<seq<Message>, ()>) {
    match fetch
    case Err(_) => after == before && out == Err(())
    case Ok(reply) =>
      if c.fetchMode == "single" then SingleTaken(before, reply, after, out)
      else out.Ok? && BatchTaken(before, Decoded(reply), after, out.value)
  }

  lemma DequeueOneMore(before: Groups, rest: set<string>, mid: Groups, out: seq<Message>, g: string)
    requires DequeuedSoFar(before, rest + {g}, mid, out) && g !in rest
    requires g in mid && Ready(mid[g]) && mid[g].tasks[0].groupId == g
    ensures DequeuedSoFar(before, rest, mid[g := GroupQueue(true, mid[g].tasks[1..])], out + [mid[g].tasks[0]])
  {
    OnePerGroupSnoc(out, mid[g].tasks[0]);
  }

  lemma BatchOneMore(before: Groups, byGroup: map<string, seq<Message>>, done: set<string>, mid: Groups, out: seq<Message>, g: string)
    requires BatchSoFar(before, byGroup, done, mid, out)
    requires g in byGroup && g !in done && byGroup[g] != [] && byGroup[g][0].groupId == g
    ensures BatchSoFar(before, byGroup, done + {g}, AddTo(mid, g, byGroup[g]), out + [byGroup[g][0]])
  {
    OnePerGroupSnoc(out, byGroup[g][0]);
  }
}
