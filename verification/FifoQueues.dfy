/**
 The state of the SQS FIFO broker, internal/broker/sqs/fifo.go, as values: the map from message group
 to its queue, what each locked region does to that map, and what a caller can rely on.
 The methods of `FifoBroker` are proved against these definitions and the protocol in `FifoProtocol` runs them.
 */
module FifoQueues {
  import opened Basics

  /** A decoded message.  `seqNo` is the SQS sequence number: the position in the publish order of its group. */
  datatype Message = Message(groupId: string, seqNo: nat, body: string)

  /** A message as SQS delivers it: the group attribute may be missing, `body` is None when base64 decoding fails. */
  datatype SqsMessage = SqsMessage(group: Option<string>, seqNo: nat, body: Option<string>)

  datatype GroupQueue = GroupQueue(processing: bool, tasks: seq<Message>)

  type Groups = map<string, GroupQueue>

  const NEW_GROUP := GroupQueue(false, [])

  function Lookup(groups: Groups, g: string): GroupQueue {
    if g in groups then groups[g] else NEW_GROUP
  }

  /** The internal dequeue takes from exactly these groups. */
  predicate Ready(q: GroupQueue) {
    !q.processing && q.tasks != []
  }

  /** A group that is marked as processing while messages wait in its queue. */
  predicate Stranded(q: GroupQueue) {
    q.processing && q.tasks != []
  }

  /** Every queued message sits in the queue of its own group. */
  ghost predicate Homed(groups: Groups) {
    forall g, m :: g in groups && m in groups[g].tasks ==> m.groupId == g
  }

  // ----- messages of one group, in arrival order

  predicate WellFormed(m: SqsMessage) {
    m.group.Some? && m.body.Some?
  }

  function Decode(m: SqsMessage): Message
    requires WellFormed(m)
  {
    Message(m.group.value, m.seqNo, m.body.value)
  }

  /** The well-formed messages of a reply, decoded, in arrival order. */
  function Decoded(reply: seq<SqsMessage>): (ms: seq<Message>)
    ensures |ms| <= |reply|
  {
    if reply == [] then []
    else
      var m := reply[|reply| - 1];
      Decoded(reply[..|reply| - 1]) + if WellFormed(m) then [Decode(m)] else []
  }

  function ForGroup(ms: seq<Message>, g: string): seq<Message> {
    if ms == [] then []
    else
      var m := ms[|ms| - 1];
      ForGroup(ms[..|ms| - 1], g) + if m.groupId == g then [m] else []
  }

  lemma {:induction false} ForGroupMembers(ms: seq<Message>, g: string)
    ensures forall m :: m in ForGroup(ms, g) <==> m in ms && m.groupId == g
  {
    if ms != [] {
      assert ms == ms[..|ms| - 1] + [ms[|ms| - 1]];
      ForGroupMembers(ms[..|ms| - 1], g);
    }
  }

  function GroupsOf(ms: seq<Message>): set<string> {
    set i | 0 <= i < |ms| :: ms[i].groupId
  }

  ghost predicate OnePerGroup(ms: seq<Message>) {
    forall i, j :: 0 <= i < j < |ms| ==> ms[i].groupId != ms[j].groupId
  }

  lemma GroupsOfSnoc(ms: seq<Message>, m: Message)
    ensures GroupsOf(ms + [m]) == GroupsOf(ms) + {m.groupId}
  {
    var all := ms + [m];
    assert all[|ms|] == m;
    forall g | g in GroupsOf(ms) ensures g in GroupsOf(all) {
      var k :| 0 <= k < |ms| && ms[k].groupId == g;
      assert all[k].groupId == g;
    }
  }

  lemma OnePerGroupSnoc(ms: seq<Message>, m: Message)
    requires OnePerGroup(ms) && m.groupId !in GroupsOf(ms)
    ensures OnePerGroup(ms + [m]) && GroupsOf(ms + [m]) == GroupsOf(ms) + {m.groupId}
  {
    GroupsOfSnoc(ms, m);
    forall k | 0 <= k < |ms| ensures ms[k].groupId != m.groupId {
      assert ms[k].groupId in GroupsOf(ms);
    }
  }

  lemma ForGroupSnocOther(ms: seq<Message>, m: Message, g: string)
    requires m.groupId != g
    ensures ForGroup(ms + [m], g) == ForGroup(ms, g)
  {
  }

  lemma ForGroupSnocOwn(ms: seq<Message>, m: Message)
    ensures ForGroup(ms + [m], m.groupId) == ForGroup(ms, m.groupId) + [m]
  {
  }

  lemma {:induction false} ForGroupConcat(a: seq<Message>, b: seq<Message>, g: string)
    ensures ForGroup(a + b, g) == ForGroup(a, g) + ForGroup(b, g)
    decreases |b|
  {
    if b == [] {
      assert a + b == a;
    } else {
      var front := b[..|b| - 1];
      assert (a + b)[..|a + b| - 1] == a + front;
      ForGroupConcat(a, front, g);
    }
  }

  lemma {:induction false} ForGroupOfOne(ms: seq<Message>, m: Message)
    requires OnePerGroup(ms) && m in ms
    ensures ForGroup(ms, m.groupId) == [m]
  {
    var k :| 0 <= k < |ms| && ms[k] == m;
    assert ms == ms[..k] + [m] + ms[k + 1..];
    ForGroupConcat(ms[..k] + [m], ms[k + 1..], m.groupId);
    ForGroupConcat(ms[..k], [m], m.groupId);
    assert ForGroup(ms[..k], m.groupId) == [] by { NoneForGroup(ms[..k], m.groupId); }
    assert ForGroup(ms[k + 1..], m.groupId) == [] by { NoneForGroup(ms[k + 1..], m.groupId); }
    SingleForGroup(m);
  }

  lemma SingleForGroup(m: Message)
    ensures ForGroup([m], m.groupId) == [m]
    ensures forall g :: g != m.groupId ==> ForGroup([m], g) == []
  {
  }

  lemma {:induction false} NoneForGroup(ms: seq<Message>, g: string)
    requires forall i :: 0 <= i < |ms| ==> ms[i].groupId != g
    ensures ForGroup(ms, g) == []
  {
    if ms != [] {
      NoneForGroup(ms[..|ms| - 1], g);
    }
  }

  lemma {:induction false} DecodedMembers(reply: seq<SqsMessage>)
    ensures forall m :: m in Decoded(reply) <==> exists r :: r in reply && WellFormed(r) && Decode(r) == m
  {
    if reply != [] {
      var front, last := reply[..|reply| - 1], reply[|reply| - 1];
      assert reply == front + [last];
      DecodedMembers(front);
    }
  }

  // ----- what each locked region does to the map

  /** addMessagesToGroup: the first message is being handed out, the others are queued behind it. */
  function AddTo(groups: Groups, g: string, ms: seq<Message>): Groups {
    var q := Lookup(groups, g);
    groups[g := GroupQueue(q.processing || (q.tasks == [] && ms != []), q.tasks + if |ms| > 1 then ms[1..] else [])]
  }

  /** markGroupAsProcessing */
  function MarkProcessing(groups: Groups, g: string): Groups {
    groups[g := GroupQueue(true, Lookup(groups, g).tasks)]
  }

  /** markGroupAsAvailable: a group with queued messages keeps its flag. */
  function MarkAvailable(groups: Groups, g: string): Groups {
    if g in groups && groups[g].tasks == [] then groups[g := GroupQueue(false, [])] else groups
  }

  predicate AllProcessing(groups: Groups) {
    forall g :: g in groups ==> groups[g].processing
  }

  /** The groups that are not processing, leaving out those in `except`. */
  ghost function FreeGroups(groups: Groups, except: set<string>): set<string> {
    set g | g in groups && g !in except && !groups[g].processing
  }

  /** What one probe message does to the map. */
  function ProbeOne(groups: Groups, m: SqsMessage): Groups {
    if m.group.None? then groups
    else if Lookup(groups, m.group.value).processing then groups
    else if m.body.None? then groups
    else
      var q := Lookup(groups, m.group.value);
      groups[m.group.value := GroupQueue(false, q.tasks + [Decode(m)])]
  }

  /** The probe inside getAvailableGroups, for a reply of any length. */
  function Probed(groups: Groups, reply: seq<SqsMessage>): Groups {
    if reply == [] then groups
    else ProbeOne(Probed(groups, reply[..|reply| - 1]), reply[|reply| - 1])
  }

  /** The groups the probe reports as available: those that are not processing when its message arrives. */
  function ProbedGroups(groups: Groups, reply: seq<SqsMessage>): seq<string> {
    if reply == [] then []
    else
      var front, m := reply[..|reply| - 1], reply[|reply| - 1];
      ProbedGroups(groups, front)
      + if m.group.Some? && !Lookup(Probed(groups, front), m.group.value).processing then [m.group.value] else []
  }

  /**
   getMessagesFromInternalQueues, for every order in which the map can be visited: `out` is handed out,
   `before` becomes `after`.
   */
  ghost predicate Dequeued(before: Groups, maxMessages: nat, after: Groups, out: seq<Message>) {
    && |out| <= Max(1, maxMessages)
    && exists rest :: DequeuedSoFar(before, rest, after, out)
         && (|out| < maxMessages || out == [] ==> rest == {})
  }

  /** The same when the groups in `rest` have not been visited. */
  ghost predicate DequeuedSoFar(before: Groups, rest: set<string>, after: Groups, out: seq<Message>) {
    && after.Keys == before.Keys
    && OnePerGroup(out)
    && GroupsOf(out) !! rest
    && (forall m :: m in out ==> TakenHead(before, after, m))
    && (forall g :: g in before && g !in GroupsOf(out) ==> after[g] == before[g])
    && (forall g :: g in after && g !in rest ==> !Ready(after[g]))
  }

  ghost predicate TakenHead(before: Groups, after: Groups, m: Message) {
    && m.groupId in before && m.groupId in after
    && Ready(before[m.groupId])
    && m == before[m.groupId].tasks[0]
    && after[m.groupId] == GroupQueue(true, before[m.groupId].tasks[1..])
  }

  /** A dequeue leaves a group alone or hands out its queue head: returned plus remaining is the old queue. */
  lemma DequeueConserves(before: Groups, maxMessages: nat, after: Groups, out: seq<Message>, g: string)
    requires Dequeued(before, maxMessages, after, out)
    ensures var q := Lookup(before, g);
            || (ForGroup(out, g) == [] && Lookup(after, g) == q)
            || (Ready(q) && ForGroup(out, g) == [q.tasks[0]] && Lookup(after, g) == GroupQueue(true, q.tasks[1..]))
  {
    if g in GroupsOf(out) {
      var k :| 0 <= k < |out| && out[k].groupId == g;
      ForGroupOfOne(out, out[k]);
    } else {
      NoneForGroup(out, g);
    }
  }

  /** The messages of a reply by group: what the first loop of receiveBatchMessages builds. */
  function Grouped(ms: seq<Message>): map<string, seq<Message>> {
    map g | g in GroupsOf(ms) :: ForGroup(ms, g)
  }

  lemma GroupedSnoc(ms: seq<Message>, m: Message)
    ensures var grouped := Grouped(ms);
            Grouped(ms + [m]) == grouped[m.groupId := (if m.groupId in grouped then grouped[m.groupId] else []) + [m]]
  {
    GroupsOfSnoc(ms, m);
    forall g | g in GroupsOf(ms + [m]) && g != m.groupId ensures ForGroup(ms + [m], g) == ForGroup(ms, g) {
      ForGroupSnocOther(ms, m, g);
    }
    ForGroupSnocOwn(ms, m);
    if m.groupId !in GroupsOf(ms) {
      NoneForGroup(ms, m.groupId);
    }
  }

  lemma GroupedNonempty(ms: seq<Message>, g: string)
    requires g in GroupsOf(ms)
    ensures ForGroup(ms, g) != []
    ensures forall m :: m in ForGroup(ms, g) ==> m.groupId == g
  {
    var k :| 0 <= k < |ms| && ms[k].groupId == g;
    ForGroupMembers(ms, g);
    assert ms[k] in ms;
  }

  /**
   The second half of receiveBatchMessages, for every order in which the groups can be visited: `ms` are the
   well-formed messages of the reply and `out` is returned.
   */
  ghost predicate BatchTaken(before: Groups, ms: seq<Message>, after: Groups, out: seq<Message>) {
    BatchSoFar(before, Grouped(ms), GroupsOf(ms), after, out)
  }

  /** The same when only the groups in `done` have been visited. */
  ghost predicate BatchSoFar(before: Groups, byGroup: map<string, seq<Message>>, done: set<string>, after: Groups, out: seq<Message>) {
    && done <= byGroup.Keys
    && after.Keys == before.Keys + done
    && OnePerGroup(out)
    && GroupsOf(out) == done
    && (forall m :: m in out ==> m.groupId in byGroup && byGroup[m.groupId] != [] && byGroup[m.groupId][0] == m)
    && (forall g :: g in after ==>
          after[g] == if g in done then AddTo(before, g, byGroup[g])[g] else before[g])
  }

  /** Every well-formed message is returned once as the first of its group or queued once behind it, in order. */
  lemma {:induction false} BatchConserves(before: Groups, ms: seq<Message>, after: Groups, out: seq<Message>, g: string)
    requires BatchTaken(before, ms, after, out)
    ensures Lookup(before, g).tasks <= Lookup(after, g).tasks
    ensures ForGroup(out, g) + Lookup(after, g).tasks[|Lookup(before, g).tasks|..] == ForGroup(ms, g)
    ensures |ForGroup(out, g)| == if g in GroupsOf(ms) then 1 else 0
  {
    if g in GroupsOf(ms) {
      assert g in GroupsOf(out);
      var k :| 0 <= k < |out| && out[k].groupId == g;
      ForGroupOfOne(out, out[k]);
      assert out[k] in out;
      QueuedBehindFirst(Lookup(before, g).tasks, Grouped(ms)[g]);
    } else {
      NoneForGroup(ms, g);
      NoneForGroup(out, g);
    }
  }

  lemma QueuedBehindFirst(queued: seq<Message>, own: seq<Message>)
    requires own != []
    ensures var rest := if |own| > 1 then own[1..] else [];
            [own[0]] + rest == own && (queued + rest)[|queued|..] == rest
  {
  }

  /**
   Messages of a stranded group are never handed out again, so this is when a batch loses messages: a group becomes
   stranded exactly when its queue was empty and two well-formed messages of the reply are its own.
   */
  lemma BatchStrandsIff(before: Groups, ms: seq<Message>, after: Groups, out: seq<Message>, g: string)
    requires BatchTaken(before, ms, after, out)
    ensures Stranded(Lookup(after, g)) <==>
              Stranded(Lookup(before, g)) || (Lookup(before, g).tasks == [] && |ForGroup(ms, g)| >= 2)
  {
    if g !in GroupsOf(ms) {
      NoneForGroup(ms, g);
    }
  }

  /**
   A probe is sent only when every known group is processing.  Its reply of at most one message then never
   meets an existing queue: at most one unknown group is created, holding exactly that message.
   */
  lemma ProbeCreatesOnly(groups: Groups, reply: seq<SqsMessage>)
    requires AllProcessing(groups) && |reply| <= 1
    ensures forall g :: g in groups ==> g in Probed(groups, reply) && Probed(groups, reply)[g] == groups[g]
    ensures forall g :: g in Probed(groups, reply) && g !in groups ==>
              reply != [] && WellFormed(reply[0]) && reply[0].group.value == g
              && Probed(groups, reply)[g] == GroupQueue(false, [Decode(reply[0])])
  {
  }

  // ----- stranded groups absorb, whatever the server does

  /** Any one locked region of the broker, with any server reply; `out` is what the internal queue hands out. */
  ghost predicate BrokerStep(before: Groups, after: Groups, out: seq<Message>) {
    || (exists n: nat :: Dequeued(before, n, after, out))
    || (out == [] && exists g, ms: seq<Message> :: after == AddTo(before, g, ms))
    || (out == [] && exists g :: after == MarkProcessing(before, g))
    || (out == [] && exists g :: after == MarkAvailable(before, g))
    || (out == [] && exists reply: seq<SqsMessage> :: after == Probed(before, reply))
  }

  lemma {:induction false} ProbedKeepsStranded(groups: Groups, reply: seq<SqsMessage>, g: string)
    requires g in groups && groups[g].processing
    ensures g in Probed(groups, reply) && Probed(groups, reply)[g] == groups[g]
    decreases |reply|
  {
    if reply != [] {
      ProbedKeepsStranded(groups, reply[..|reply| - 1], g);
    }
  }

  lemma StrandedStep(before: Groups, after: Groups, out: seq<Message>, g: string)
    requires BrokerStep(before, after, out)
    requires g in before && Stranded(before[g])
    ensures g in after && Stranded(after[g])
    ensures before[g].tasks <= after[g].tasks
    ensures ForGroup(out, g) == []
  {
    if n: nat :| Dequeued(before, n, after, out) {
      DequeueConserves(before, n, after, out, g);
    } else if reply: seq<SqsMessage> :| after == Probed(before, reply) {
      ProbedKeepsStranded(before, reply, g);
    }
  }

  ghost predicate BrokerRun(states: seq<Groups>, outs: seq<seq<Message>>) {
    && |states| == |outs| + 1
    && forall i, j :: 0 <= i < j < |states| && j == i + 1 ==> BrokerStep(states[i], states[j], outs[i])
  }

  /**
   Once a group is processing with messages in its queue it stays so in every later state, its queue only
   grows at the tail, and the internal queue hands out none of its messages ever again.
   */
  lemma {:induction false} StrandedForever(states: seq<Groups>, outs: seq<seq<Message>>, i: nat, j: nat, g: string)
    requires BrokerRun(states, outs) && i <= j < |states|
    requires g in states[i] && Stranded(states[i][g])
    ensures g in states[j] && Stranded(states[j][g]) && states[i][g].tasks <= states[j][g].tasks
    ensures forall k :: i <= k < j ==> ForGroup(outs[k], g) == []
    decreases j
  {
    if i < j {
      StrandedForever(states, outs, i, j - 1, g);
      StrandedStep(states[j - 1], states[j], outs[j - 1], g);
    }
  }
}
