/**
 The broker of internal/broker/sqs/fifo.go running against an SQS FIFO queue: one receive loop
 (internal/worker/factory.go:122-140), concurrent acknowledgements whose remote delete and local release are
 separate steps, and a server that hands out the messages of a group in publish order and locks a group while
 any of its messages is in flight.

 The server may lose any reply after serving it, and the visibility of a message the broker does not hold
 (dropped by a probe, undecodable, or lost with its reply) may expire at any moment.  The one assumption is that
 the visibility of a held message does not expire before it is deleted.
 */
module FifoProtocol {
  import opened Basics
  import opened FifoQueues
  import opened FifoBroker

  // ----- the SQS server

  /** One message group: everything published (None: a body that will not decode), in flight, deleted. */
  datatype Lane = Lane(log: seq<Option<string>>, flying: set<nat>, deleted: set<nat>)

  type Server = map<string, Lane>

  function LaneOf(server: Server, g: string): Lane {
    if g in server then server[g] else Lane([], {}, {})
  }

  /** The decodable messages of a log, in publish order. */
  function Goods(g: string, log: seq<Option<string>>): seq<Message> {
    if log == [] then []
    else
      var last := |log| - 1;
      Goods(g, log[..last]) + if log[last].Some? then [Message(g, last, log[last].value)] else []
  }

  ghost predicate FromLane(server: Server, m: SqsMessage) {
    && m.group.Some? && m.group.value in server
    && var lane := server[m.group.value];
       lane.flying == {} && m.seqNo < |lane.log| && m.seqNo !in lane.deleted && m.body == lane.log[m.seqNo]
  }

  ghost function Taken(reply: seq<SqsMessage>, g: string): set<nat> {
    set i | 0 <= i < |reply| && reply[i].group == Some(g) :: reply[i].seqNo
  }

  /** FIFO delivery: from unlocked groups only, oldest undeleted messages first, none skipped. */
  ghost predicate Served(before: Server, reply: seq<SqsMessage>, after: Server) {
    && after.Keys == before.Keys
    && (forall m :: m in reply ==> FromLane(before, m))
    && (forall i, j :: 0 <= i < j < |reply| && reply[i].group == reply[j].group ==> reply[i].seqNo < reply[j].seqNo)
    && (forall m, k: nat :: m in reply && k < m.seqNo && k !in before[m.group.value].deleted ==>
          SqsMessage(m.group, k, before[m.group.value].log[k]) in reply)
    && (forall g :: g in before ==> after[g] == before[g].(flying := before[g].flying + Taken(reply, g)))
  }

  // ----- the composed system

  /** A broker with its normalised configuration, and the number of messages its worker asks for at a time. */
  datatype Setup = Setup(config: Config, prefetch: nat)

  function Limit(c: Setup): nat {
    Max(0, Min(c.prefetch, c.config.maxPrefetch))
  }

  /** Where the receive loop stands inside ReceiveMessages. */
  datatype Loop =
    | Top
    | Asking                                                              // before getAvailableGroups
    | Fetching(size: int)                                                 // before the SQS call for up to `size` messages
    | Sorting(pending: map<string, seq<Message>>, ready: seq<Message>)    // batch: groups still to be added
    | Marking(group: string, got: seq<Message>)                           // single: before markGroupAsProcessing

  /**
   `handed`: everything ReceiveMessages has returned, in order; `attempted`: acknowledgements begun;
   `releasing`: groups whose delete succeeded and whose release is still to come.
   */
  datatype System = System(server: Server, groups: Groups, loop: Loop, handed: seq<Message>,
                           attempted: set<Message>, releasing: multiset<string>)

  function ReadyOf(loop: Loop): seq<Message> {
    if loop.Sorting? then loop.ready else []
  }

  function ComingOf(loop: Loop, g: string): seq<Message> {
    if loop.Sorting? && g in loop.pending then loop.pending[g]
    else if loop.Marking? && loop.group == g then loop.got
    else []
  }

  ghost predicate Init(s: System) {
    s.groups == map[] && s.loop == Top && s.handed == [] && s.attempted == {} && s.releasing == multiset{}
    && forall g :: g in s.server ==> s.server[g].flying == {} && s.server[g].deleted == {}
  }

  ghost predicate Publish(s: System, s': System, g: string, body: Option<string>) {
    var lane := LaneOf(s.server, g);
    s' == s.(server := s.server[g := lane.(log := lane.log + [body])])
  }

  ghost predicate Expire(s: System, s': System, g: string, i: nat) {
    && g in s.server && i in s.server[g].flying
    && (forall m :: m in Line(ViewOf(s, g)) ==> m.seqNo != i)
    && s' == s.(server := s.server[g := s.server[g].(flying := s.server[g].flying - {i})])
  }

  ghost predicate DequeueStep(c: Setup, s: System, s': System) {
    && s.loop == Top
    && exists after, out ::
         && Dequeued(s.groups, Limit(c), after, out)
         && s' == s.(groups := after, handed := s.handed + out, loop := if out == [] then Asking else Top)
  }

  /** getAvailableGroups when a known group is available. */
  ghost predicate AskStep(c: Setup, s: System, s': System) {
    s.loop == Asking && !AllProcessing(s.groups) && s' == s.(loop := Fetching(RequestSize(c.config, s.groups, Err(()), Limit(c))))
  }

  /** getAvailableGroups with its probe, one locked region; `kept` is false when the reply is lost. */
  ghost predicate ProbeStep(c: Setup, s: System, s': System, reply: seq<SqsMessage>, server': Server, kept: bool) {
    && s.loop == Asking && AllProcessing(s.groups)
    && Served(s.server, reply, server') && |reply| <= 1
    && s' == s.(server := server', groups := if kept then Probed(s.groups, reply) else s.groups,
                loop := Fetching(RequestSize(c.config, s.groups, if kept then Ok(reply) else Err(()), Limit(c))))
  }

  ghost predicate FetchStep(c: Setup, s: System, s': System, reply: seq<SqsMessage>, server': Server, kept: bool) {
    && s.loop.Fetching?
    && Served(s.server, reply, server') && |reply| <= Max(0, s.loop.size)
    && (c.config.fetchMode == "single" ==> |reply| <= 1)
    && s' == s.(server := server', loop :=
         if !kept || reply == [] || reply[0].group.None? then Top
         else if c.config.fetchMode == "single" then Marking(reply[0].group.value, if WellFormed(reply[0]) then [Decode(reply[0])] else [])
         else Sorting(Grouped(Decoded(reply)), []))
  }

  ghost predicate MarkStep(s: System, s': System) {
    && s.loop.Marking?
    && s' == s.(groups := MarkProcessing(s.groups, s.loop.group), handed := s.handed + s.loop.got, loop := Top)
  }

  ghost predicate AddStep(s: System, s': System, g: string) {
    && s.loop.Sorting? && g in s.loop.pending && s.loop.pending[g] != []
    && s' == s.(groups := AddTo(s.groups, g, s.loop.pending[g]),
                loop := Sorting(s.loop.pending - {g}, s.loop.ready + [s.loop.pending[g][0]]))
  }

  ghost predicate ReturnStep(s: System, s': System) {
    && s.loop.Sorting? && s.loop.pending == map[]
    && s' == s.(handed := s.handed + s.loop.ready, loop := Top)
  }

  function Delete(server: Server, m: Message): Server
    requires m.groupId in server
  {
    var lane := server[m.groupId];
    server[m.groupId := lane.(flying := lane.flying - {m.seqNo}, deleted := lane.deleted + {m.seqNo})]
  }

  /** The remote half of AcknowledgeMessage; when the call fails the message may or may not have been deleted. */
  ghost predicate DeleteStep(s: System, s': System, m: Message, ok: bool, applied: bool) {
    && m in s.handed && m !in s.attempted && m.groupId in s.server && (ok ==> applied)
    && s' == s.(server := if applied then Delete(s.server, m) else s.server,
                attempted := s.attempted + {m},
                releasing := if ok then s.releasing + multiset{m.groupId} else s.releasing)
  }

  ghost predicate ReleaseStep(s: System, s': System, g: string) {
    && g in s.releasing
    && s' == s.(groups := MarkAvailable(s.groups, g), releasing := s.releasing - multiset{g})
  }

  /** A release frees its group unless messages are queued in it, and leaves everything else alone. */
  lemma ReleaseFrees(s: System, s': System, g: string)
    requires ReleaseStep(s, s', g)
    ensures s'.groups.Keys == s.groups.Keys && forall h :: h in s.groups && h != g ==> s'.groups[h] == s.groups[h]
    ensures g in s.groups && s.groups[g].tasks == [] ==> !s'.groups[g].processing && s'.groups[g].tasks == []
    ensures g in s.groups && s.groups[g].tasks != [] ==> s'.groups[g] == s.groups[g]
    ensures s'.server == s.server && s'.loop == s.loop && s'.handed == s.handed && s'.attempted == s.attempted
    ensures forall h :: h != g ==> s'.releasing[h] == s.releasing[h]
    ensures s'.releasing[g] + 1 == s.releasing[g]
  {
  }

  /** Steps of the receive loop that move messages towards the worker. */
  ghost predicate LoopStep(c: Setup, s: System, s': System) {
    || DequeueStep(c, s, s')
    || (exists reply, server', kept :: FetchStep(c, s, s', reply, server', kept))
    || MarkStep(s, s')
    || (exists g :: AddStep(s, s', g))
    || ReturnStep(s, s')
  }

  /** The question for available groups and the local half of an acknowledgement. */
  ghost predicate QuietStep(c: Setup, s: System, s': System) {
    || AskStep(c, s, s')
    || (exists reply, server', kept :: ProbeStep(c, s, s', reply, server', kept))
    || (exists g :: ReleaseStep(s, s', g))
  }

  /** The remote half of an acknowledgement, publishers, and visibility expiry. */
  ghost predicate RemoteStep(s: System, s': System) {
    || (exists m, ok, applied :: DeleteStep(s, s', m, ok, applied))
    || (exists g, body :: Publish(s, s', g, body))
    || (exists g, i: nat :: Expire(s, s', g, i))
  }

  ghost predicate Next(c: Setup, s: System, s': System) {
    LoopStep(c, s, s') || QuietStep(c, s, s') || RemoteStep(s, s')
  }

  ghost predicate Run(c: Setup, trace: seq<System>) {
    && Normal(c.config)
    && |trace| > 0
    && Init(trace[0])
    && forall k: nat :: k + 1 < |trace| ==> StepAt(c, trace, k)
  }

  ghost predicate StepAt(c: Setup, trace: seq<System>, k: nat)
    requires k + 1 < |trace|
  {
    Next(c, trace[k], trace[k + 1])
  }

  // ----- one group of the system

  datatype View = View(lane: Lane, known: bool, processing: bool,
                       handed: seq<Message>, ready: seq<Message>, coming: seq<Message>, stored: seq<Message>)

  function ViewOf(s: System, g: string): View {
    View(LaneOf(s.server, g), g in s.groups, Lookup(s.groups, g).processing,
         ForGroup(s.handed, g), ForGroup(ReadyOf(s.loop), g), ComingOf(s.loop, g), Lookup(s.groups, g).tasks)
  }

  /** Handed out already, or chosen by the call that is under way. */
  function Given(v: View): seq<Message> {
    v.handed + v.ready
  }

  /** Every message of the group the broker has accepted, in the order it will hand them out. */
  function Line(v: View): seq<Message> {
    v.handed + v.ready + v.coming + v.stored
  }

  /** The accepted messages are exactly the decodable ones among the first `n` published. */
  ghost predicate Frontier(g: string, v: View, n: nat) {
    && n <= |v.lane.log|
    && Line(v) == Goods(g, v.lane.log[..n])
    && (forall i :: i in v.lane.deleted ==> i < n)
  }

  /** Accepted messages not handed out yet are in flight; a handed-out one is in flight or deleted. */
  ghost predicate Tracked(v: View) {
    && v.lane.flying !! v.lane.deleted
    && (forall m :: m in v.handed ==> m.seqNo in v.lane.flying || m.seqNo in v.lane.deleted)
    && (forall m :: m in v.ready ==> m.seqNo in v.lane.flying)
    && (forall m :: m in v.coming ==> m.seqNo in v.lane.flying)
    && (forall m :: m in v.stored ==> m.seqNo in v.lane.flying)
  }

  /** Only the last of these messages may still be undeleted. */
  ghost predicate OneOpen(given: seq<Message>, deleted: set<nat>) {
    forall k :: 0 <= k < |given| - 1 ==> given[k].seqNo in deleted
  }

  ghost predicate AllDeleted(given: seq<Message>, deleted: set<nat>) {
    forall m :: m in given ==> m.seqNo in deleted
  }

  ghost predicate GroupInv(g: string, v: View) {
    && (exists n: nat :: Frontier(g, v, n))
    && Tracked(v)
    && OneOpen(Given(v), v.lane.deleted)
    && (v.coming != [] ==> v.stored == [] && AllDeleted(Given(v), v.lane.deleted))
    && (!v.processing && v.stored != [] ==> Given(v) == [])
    && (Given(v) != [] ==> v.known)
    && (!v.known ==> !v.processing && v.stored == [])
  }

  /** What the loop is about to hand out belongs to the group it is filed under. */
  ghost predicate LoopOk(loop: Loop) {
    && (loop.Sorting? ==> forall g :: g in loop.pending ==> loop.pending[g] != [] && loop.pending[g][0].groupId == g)
    && (loop.Marking? ==> loop.got == [] || (|loop.got| == 1 && loop.got[0].groupId == loop.group))
  }

  ghost predicate Inv(s: System) {
    LoopOk(s.loop) && forall g :: GroupInv(g, ViewOf(s, g))
  }

  // ----- sorted sequences

  ghost predicate Increasing(ms: seq<Message>) {
    forall i, j :: 0 <= i < j < |ms| ==> ms[i].seqNo < ms[j].seqNo
  }

  lemma {:induction false} GoodsMembers(g: string, log: seq<Option<string>>)
    ensures forall m :: m in Goods(g, log) <==> m.groupId == g && m.seqNo < |log| && log[m.seqNo] == Some(m.body)
    ensures Increasing(Goods(g, log))
  {
    if log != [] {
      GoodsMembers(g, log[..|log| - 1]);
    }
  }

  lemma {:induction false} SameSorted(a: seq<Message>, b: seq<Message>)
    requires Increasing(a) && Increasing(b)
    requires forall m :: m in a <==> m in b
    ensures a == b
  {
    assert a != [] ==> a[0] in a;
    assert b != [] ==> b[0] in b;
    if a != [] && b != [] {
      var x, y := a[|a| - 1], b[|b| - 1];
      assert x in b && y in a;
      assert x == y;
      var a', b' := a[..|a| - 1], b[..|b| - 1];
      forall m ensures m in a' <==> m in b' {
        assert m in a' <==> m in a && m != x;
        assert m in b' <==> m in b && m != x;
      }
      SameSorted(a', b');
      assert a == a' + [x] && b == b' + [x];
    }
  }

  ghost predicate OrderedPerGroup(ms: seq<Message>) {
    forall i, j :: 0 <= i < j < |ms| && ms[i].groupId == ms[j].groupId ==> ms[i].seqNo < ms[j].seqNo
  }

  lemma {:induction false} ForGroupIncreasing(ms: seq<Message>, g: string)
    requires OrderedPerGroup(ms)
    ensures Increasing(ForGroup(ms, g))
  {
    if ms != [] {
      ForGroupIncreasing(ms[..|ms| - 1], g);
      ForGroupMembers(ms[..|ms| - 1], g);
    }
  }

  lemma {:induction false} DecodedOrdered(reply: seq<SqsMessage>)
    requires forall i, j :: 0 <= i < j < |reply| && reply[i].group == reply[j].group ==> reply[i].seqNo < reply[j].seqNo
    ensures OrderedPerGroup(Decoded(reply))
  {
    if reply != [] {
      var front := reply[..|reply| - 1];
      DecodedOrdered(front);
      DecodedMembers(front);
      var last := reply[|reply| - 1];
      forall m | m in Decoded(front) && last.group == Some(m.groupId) ensures m.seqNo < last.seqNo {
        var r :| r in front && WellFormed(r) && Decode(r) == m;
        var k :| 0 <= k < |front| && front[k] == r;
        assert reply[k].group == last.group;
      }
    }
  }

  lemma HasMember<T>(s: seq<T>)
    ensures s != [] ==> exists x :: x in s
  {
    if s != [] {
      assert s[0] in s;
    }
  }

  // ----- what a served reply means for one group

  /** The decodable messages of group `g` in a reply. */
  function Own(reply: seq<SqsMessage>, g: string): seq<Message> {
    ForGroup(Decoded(reply), g)
  }

  lemma OwnMembers(reply: seq<SqsMessage>, g: string)
    ensures forall m: Message :: m in Own(reply, g) <==> m.groupId == g && SqsMessage(Some(g), m.seqNo, Some(m.body)) in reply
  {
    ForGroupMembers(Decoded(reply), g);
    DecodedMembers(reply);
    forall m: Message ensures m in Own(reply, g) <==> m.groupId == g && SqsMessage(Some(g), m.seqNo, Some(m.body)) in reply {
      if m.groupId == g && SqsMessage(Some(g), m.seqNo, Some(m.body)) in reply {
        var r := SqsMessage(Some(g), m.seqNo, Some(m.body));
        assert WellFormed(r) && Decode(r) == m;
      }
    }
  }

  /** In a served reply, a group's own messages come from beyond everything already deleted. */
  lemma OwnIsBeyond(before: Server, reply: seq<SqsMessage>, after: Server, g: string, n: nat, m: Message)
    requires Served(before, reply, after)
    requires g in before && n <= |before[g].log| && m in Own(reply, g)
    requires forall x :: x in Goods(g, before[g].log[..n]) ==> x.seqNo in before[g].deleted
    ensures n <= m.seqNo < |before[g].log| && before[g].log[m.seqNo] == Some(m.body) && m.groupId == g
  {
    OwnMembers(reply, g);
    GoodsMembers(g, before[g].log[..n]);
    assert FromLane(before, SqsMessage(Some(g), m.seqNo, Some(m.body)));
    assert m !in Goods(g, before[g].log[..n]);
  }

  /** Nothing decodable is skipped before a message of the reply. */
  lemma NothingSkipped(before: Server, reply: seq<SqsMessage>, after: Server, g: string, n: nat, last: Message, m: Message)
    requires Served(before, reply, after)
    requires g in before && last in Own(reply, g)
    requires forall i :: i in before[g].deleted ==> i < n
    requires n <= m.seqNo < last.seqNo < |before[g].log| && m.groupId == g && before[g].log[m.seqNo] == Some(m.body)
    ensures m in Own(reply, g)
  {
    OwnMembers(reply, g);
    var r := SqsMessage(Some(g), last.seqNo, Some(last.body));
    assert r in reply && m.seqNo !in before[g].deleted;
    assert SqsMessage(r.group, m.seqNo, before[g].log[m.seqNo]) in reply;
  }

  /** A reply continues an unlocked group exactly where the accepted messages end. */
  lemma ServedContinues(before: Server, reply: seq<SqsMessage>, after: Server, g: string, n: nat)
    requires Served(before, reply, after)
    requires g in before && n <= |before[g].log| && Own(reply, g) != []
    requires forall i :: i in before[g].deleted ==> i < n
    requires forall m :: m in Goods(g, before[g].log[..n]) ==> m.seqNo in before[g].deleted
    ensures exists n': nat :: n <= n' <= |before[g].log|
              && Goods(g, before[g].log[..n']) == Goods(g, before[g].log[..n]) + Own(reply, g)
  {
    var own, log := Own(reply, g), before[g].log;
    DecodedOrdered(reply);
    ForGroupIncreasing(Decoded(reply), g);
    forall m | m in own ensures n <= m.seqNo < |log| && log[m.seqNo] == Some(m.body) && m.groupId == g {
      OwnIsBeyond(before, reply, after, g, n, m);
    }
    var last := own[|own| - 1];
    assert last in own;
    forall m: Message | n <= m.seqNo < last.seqNo && m.groupId == g && log[m.seqNo] == Some(m.body) ensures m in own {
      NothingSkipped(before, reply, after, g, n, last, m);
    }
    GoodsExtend(g, log, n, own);
  }

  lemma GoodsExtend(g: string, log: seq<Option<string>>, n: nat, own: seq<Message>)
    requires Increasing(own) && own != [] && n <= |log|
    requires forall m :: m in own ==> n <= m.seqNo < |log| && log[m.seqNo] == Some(m.body) && m.groupId == g
    requires forall m: Message :: n <= m.seqNo < own[|own| - 1].seqNo && m.groupId == g && log[m.seqNo] == Some(m.body) ==> m in own
    ensures var n' := own[|own| - 1].seqNo + 1; n <= n' <= |log| && Goods(g, log[..n']) == Goods(g, log[..n]) + own
  {
    var last := own[|own| - 1];
    assert last in own;
    var n' := last.seqNo + 1;
    var sofar := Goods(g, log[..n]);
    GoodsMembers(g, log[..n]);
    GoodsMembers(g, log[..n']);
    forall m ensures m in Goods(g, log[..n']) <==> m in sofar + own {
      assert m.seqNo == last.seqNo && m in Goods(g, log[..n']) ==> m == last;
    }
    IncreasingConcat(sofar, own, n);
    SameSorted(Goods(g, log[..n']), sofar + own);
  }

  lemma IncreasingConcat(a: seq<Message>, b: seq<Message>, n: nat)
    requires Increasing(a) && Increasing(b)
    requires (forall m :: m in a ==> m.seqNo < n) && (forall m :: m in b ==> n <= m.seqNo)
    ensures Increasing(a + b)
  {
  }

  /** What serving a reply does to the lane of one group. */
  lemma ServedLane(before: Server, reply: seq<SqsMessage>, after: Server, g: string)
    requires Served(before, reply, after)
    ensures var lane, lane' := LaneOf(before, g), LaneOf(after, g);
            && lane' == lane.(flying := lane.flying + Taken(reply, g))
            && Taken(reply, g) !! lane.deleted
            && (Taken(reply, g) != {} ==> lane.flying == {})
            && (Own(reply, g) != [] ==> lane.flying == {})
            && (forall m :: m in Own(reply, g) ==> m.seqNo in lane'.flying)
            && (g !in before ==> Own(reply, g) == [] && Taken(reply, g) == {})
  {
    OwnMembers(reply, g);
    forall m | m in Own(reply, g) ensures m.seqNo in Taken(reply, g) {
      var r := SqsMessage(Some(g), m.seqNo, Some(m.body));
      var k :| 0 <= k < |reply| && reply[k] == r;
    }
    forall i | i in Taken(reply, g) ensures g in before && LaneOf(before, g).flying == {} && i !in LaneOf(before, g).deleted {
      var k :| 0 <= k < |reply| && reply[k].group == Some(g) && reply[k].seqNo == i;
      assert reply[k] in reply;
    }
    if Own(reply, g) != [] {
      assert Own(reply, g)[0] in Own(reply, g);
    }
  }

  // ----- every local change keeps the invariant of its group

  lemma LineMember(g: string, v: View, m: Message)
    requires GroupInv(g, v) && m in Line(v)
    ensures m.groupId == g && m.seqNo < |v.lane.log| && v.lane.log[m.seqNo] == Some(m.body)
  {
    var n: nat :| Frontier(g, v, n);
    GoodsMembers(g, v.lane.log[..n]);
  }

  lemma LineIncreasing(g: string, v: View)
    requires GroupInv(g, v)
    ensures Increasing(Line(v))
  {
    var n: nat :| Frontier(g, v, n);
    GoodsMembers(g, v.lane.log[..n]);
  }

  lemma PublishInv(g: string, v: View, body: Option<string>)
    requires GroupInv(g, v)
    ensures GroupInv(g, v.(lane := v.lane.(log := v.lane.log + [body])))
  {
    var n: nat :| Frontier(g, v, n);
    assert (v.lane.log + [body])[..n] == v.lane.log[..n];
    assert Frontier(g, v.(lane := v.lane.(log := v.lane.log + [body])), n);
  }

  lemma ExpireInv(g: string, v: View, i: nat)
    requires GroupInv(g, v) && forall m :: m in Line(v) ==> m.seqNo != i
    ensures GroupInv(g, v.(lane := v.lane.(flying := v.lane.flying - {i})))
  {
    var n: nat :| Frontier(g, v, n);
    assert Frontier(g, v.(lane := v.lane.(flying := v.lane.flying - {i})), n);
    forall m | m in v.handed || m in v.ready || m in v.coming || m in v.stored ensures m.seqNo != i {
      assert m in Line(v);
    }
  }

  /** With nothing of the group in flight, everything accepted has been handed out and deleted. */
  lemma UnlockedIsDrained(g: string, v: View)
    requires GroupInv(g, v) && v.lane.flying == {}
    ensures v.ready == [] && v.coming == [] && v.stored == [] && Line(v) == v.handed
    ensures AllDeleted(v.handed, v.lane.deleted)
  {
    HasMember(v.ready);
    HasMember(v.coming);
    HasMember(v.stored);
  }

  /** The lane after serving, and the messages of the reply, as far as one group is concerned. */
  ghost predicate Received(g: string, lane: Lane, lane': Lane, own: seq<Message>) {
    && lane'.log == lane.log && lane'.deleted == lane.deleted
    && lane.flying <= lane'.flying
    && (lane'.flying - lane.flying) !! lane.deleted
    && (own != [] ==> lane.flying == {})
    && (forall m :: m in own ==> m.seqNo in lane'.flying)
  }

  lemma ServedMeansReceived(before: Server, reply: seq<SqsMessage>, after: Server, g: string)
    requires Served(before, reply, after)
    ensures Received(g, LaneOf(before, g), LaneOf(after, g), Own(reply, g))
  {
    ServedLane(before, reply, after, g);
  }

  lemma KeepInv(g: string, v: View, lane': Lane, own: seq<Message>, n: nat, n': nat)
    requires GroupInv(g, v) && Received(g, v.lane, lane', own) && own != []
    requires Frontier(g, v, n) && n <= n' <= |v.lane.log|
    requires Goods(g, v.lane.log[..n']) == Goods(g, v.lane.log[..n]) + own
    ensures GroupInv(g, v.(lane := lane', coming := own))
  {
    var v' := v.(lane := lane', coming := own);
    UnlockedIsDrained(g, v);
    assert Line(v') == v.handed + own;
    assert Frontier(g, v', n');
    assert Given(v') == v.handed;
  }

  lemma KeepServed(g: string, v: View, before: Server, reply: seq<SqsMessage>, after: Server)
    requires GroupInv(g, v) && v.lane == LaneOf(before, g) && Served(before, reply, after)
    requires Own(reply, g) != []
    ensures GroupInv(g, v.(lane := LaneOf(after, g), coming := Own(reply, g)))
  {
    var n: nat :| Frontier(g, v, n);
    ServedMeansReceived(before, reply, after, g);
    ServedLane(before, reply, after, g);
    UnlockedIsDrained(g, v);
    ServedContinues(before, reply, after, g, n);
    var n': nat :| n <= n' <= |v.lane.log| && Goods(g, v.lane.log[..n']) == Goods(g, v.lane.log[..n]) + Own(reply, g);
    KeepInv(g, v, LaneOf(after, g), Own(reply, g), n, n');
  }

  lemma DropInv(g: string, v: View, lane': Lane, own: seq<Message>)
    requires GroupInv(g, v) && Received(g, v.lane, lane', own)
    ensures GroupInv(g, v.(lane := lane'))
  {
    var n: nat :| Frontier(g, v, n);
    var v' := v.(lane := lane');
    assert Line(v') == Line(v) && Given(v') == Given(v);
    assert Frontier(g, v', n);
  }

  lemma StashInv(g: string, v: View)
    requires GroupInv(g, v) && !v.known
    ensures GroupInv(g, v.(known := true, coming := [], stored := v.coming))
  {
    var n: nat :| Frontier(g, v, n);
    var v' := v.(known := true, coming := [], stored := v.coming);
    assert Line(v') == v.coming == Line(v);
    assert Frontier(g, v', n);
  }

  lemma DequeueInv(g: string, v: View)
    requires GroupInv(g, v) && !v.processing && v.stored != []
    ensures GroupInv(g, v.(processing := true, handed := v.handed + [v.stored[0]], stored := v.stored[1..]))
  {
    var n: nat :| Frontier(g, v, n);
    var v' := v.(processing := true, handed := v.handed + [v.stored[0]], stored := v.stored[1..]);
    assert v.coming == [] && Given(v) == [];
    assert v.stored == [v.stored[0]] + v.stored[1..];
    assert Line(v') == Line(v);
    assert Frontier(g, v', n);
  }

  lemma NothingReadyIfComing(g: string, v: View)
    requires GroupInv(g, v) && v.coming != []
    ensures v.ready == [] && v.stored == []
  {
    HasMember(v.ready);
    assert forall m :: m in v.ready ==> m in Given(v);
  }

  lemma MarkInv(g: string, v: View)
    requires GroupInv(g, v) && |v.coming| <= 1 && v.ready == []
    ensures GroupInv(g, v.(known := true, processing := true, handed := v.handed + v.coming, coming := []))
  {
    var n: nat :| Frontier(g, v, n);
    var v' := v.(known := true, processing := true, handed := v.handed + v.coming, coming := []);
    assert Line(v') == Line(v);
    assert Frontier(g, v', n);
    forall k | 0 <= k < |Given(v')| - 1 ensures Given(v')[k].seqNo in v.lane.deleted {
      assert Given(v')[k] == Given(v)[k];
      assert Given(v)[k] in Given(v);
    }
  }

  lemma AddInv(g: string, v: View)
    requires GroupInv(g, v) && v.coming != []
    ensures GroupInv(g, v.(known := true, processing := true, ready := v.ready + [v.coming[0]], coming := [], stored := v.coming[1..]))
  {
    NothingReadyIfComing(g, v);
    var n: nat :| Frontier(g, v, n);
    var v' := v.(known := true, processing := true, ready := v.ready + [v.coming[0]], coming := [], stored := v.coming[1..]);
    assert v.coming == [v.coming[0]] + v.coming[1..];
    assert Line(v') == Line(v);
    assert Frontier(g, v', n);
    forall k | 0 <= k < |Given(v')| - 1 ensures Given(v')[k].seqNo in v.lane.deleted {
      assert Given(v')[k] == Given(v)[k];
      assert Given(v)[k] in Given(v);
    }
  }

  lemma ReturnInv(g: string, v: View)
    requires GroupInv(g, v)
    ensures GroupInv(g, v.(handed := v.handed + v.ready, ready := []))
  {
    var n: nat :| Frontier(g, v, n);
    var v' := v.(handed := v.handed + v.ready, ready := []);
    assert Line(v') == Line(v) && Given(v') == Given(v);
    assert Frontier(g, v', n);
  }

  lemma HandedApart(g: string, v: View, m: Message, x: Message)
    requires GroupInv(g, v) && m in v.handed && x in v.ready + v.coming + v.stored
    ensures m.seqNo != x.seqNo
  {
    LineIncreasing(g, v);
    var rest := v.ready + v.coming + v.stored;
    assert Line(v) == v.handed + rest;
    var k :| 0 <= k < |v.handed| && v.handed[k] == m;
    var j :| 0 <= j < |rest| && rest[j] == x;
    assert Line(v)[k] == m && Line(v)[|v.handed| + j] == x;
  }

  lemma DeleteInv(g: string, v: View, m: Message)
    requires GroupInv(g, v) && m in v.handed
    ensures GroupInv(g, v.(lane := v.lane.(flying := v.lane.flying - {m.seqNo}, deleted := v.lane.deleted + {m.seqNo})))
  {
    var n: nat :| Frontier(g, v, n);
    var v' := v.(lane := v.lane.(flying := v.lane.flying - {m.seqNo}, deleted := v.lane.deleted + {m.seqNo}));
    assert Given(v') == Given(v);
    assert m in Line(v);
    GoodsMembers(g, v.lane.log[..n]);
    assert Frontier(g, v', n);
    assert Tracked(v') by {
      forall x | x in v.ready || x in v.coming || x in v.stored ensures x.seqNo != m.seqNo {
        HandedApart(g, v, m, x);
      }
    }
  }

  lemma ReleaseInv(g: string, v: View)
    requires GroupInv(g, v) && v.stored == []
    ensures GroupInv(g, v.(processing := false))
  {
    var n: nat :| Frontier(g, v, n);
    assert Given(v.(processing := false)) == Given(v);
    assert Frontier(g, v.(processing := false), n);
  }

  // ----- every step of the system keeps the invariant

  lemma InitInv(s: System)
    requires Init(s)
    ensures Inv(s)
  {
    forall g ensures GroupInv(g, ViewOf(s, g)) {
      assert Frontier(g, ViewOf(s, g), 0);
    }
  }

  lemma PublishStepInv(s: System, s': System, g: string, body: Option<string>)
    requires Inv(s) && Publish(s, s', g, body)
    ensures Inv(s')
  {
    forall h ensures GroupInv(h, ViewOf(s', h)) {
      var v := ViewOf(s, h);
      if h == g {
        PublishInv(h, v, body);
        assert ViewOf(s', h) == v.(lane := v.lane.(log := v.lane.log + [body]));
      } else {
        assert ViewOf(s', h) == v;
      }
    }
  }

  lemma ExpireStepInv(s: System, s': System, g: string, i: nat)
    requires Inv(s) && Expire(s, s', g, i)
    ensures Inv(s')
  {
    forall h ensures GroupInv(h, ViewOf(s', h)) {
      var v := ViewOf(s, h);
      if h == g {
        ExpireInv(h, v, i);
        assert ViewOf(s', h) == v.(lane := v.lane.(flying := v.lane.flying - {i}));
      } else {
        assert ViewOf(s', h) == v;
      }
    }
  }

  /** A dequeue either leaves a group alone or moves its queue head to what is handed out. */
  lemma DequeueView(c: Setup, s: System, s': System, h: string)
    requires DequeueStep(c, s, s')
    ensures var v := ViewOf(s, h);
            || ViewOf(s', h) == v
            || (!v.processing && v.stored != []
                && ViewOf(s', h) == v.(processing := true, handed := v.handed + [v.stored[0]], stored := v.stored[1..]))
  {
    var after, out :| Dequeued(s.groups, Limit(c), after, out)
      && s' == s.(groups := after, handed := s.handed + out, loop := if out == [] then Asking else Top);
    DequeueConserves(s.groups, Limit(c), after, out, h);
    DequeuedView(s, s', out, h);
  }

  lemma DequeuedView(s: System, s': System, out: seq<Message>, h: string)
    requires s.loop == Top && !s'.loop.Sorting? && !s'.loop.Marking?
    requires s'.server == s.server && s'.handed == s.handed + out && (h in s'.groups <==> h in s.groups)
    requires var q := Lookup(s.groups, h);
             || (ForGroup(out, h) == [] && Lookup(s'.groups, h) == q)
             || (Ready(q) && ForGroup(out, h) == [q.tasks[0]] && Lookup(s'.groups, h) == GroupQueue(true, q.tasks[1..]))
    ensures var v := ViewOf(s, h);
            || ViewOf(s', h) == v
            || (!v.processing && v.stored != []
                && ViewOf(s', h) == v.(processing := true, handed := v.handed + [v.stored[0]], stored := v.stored[1..]))
  {
    ForGroupConcat(s.handed, out, h);
    assert ForGroup(s.handed, h) + [] == ForGroup(s.handed, h);
  }

  lemma DequeueStepInv(c: Setup, s: System, s': System)
    requires Inv(s) && DequeueStep(c, s, s')
    ensures Inv(s')
  {
    forall h ensures GroupInv(h, ViewOf(s', h)) {
      DequeueView(c, s, s', h);
      if ViewOf(s', h) != ViewOf(s, h) {
        DequeueInv(h, ViewOf(s, h));
      }
    }
  }

  /** A probe changes only the lane of a group, or also stashes its message when the group was unknown. */
  lemma ProbeView(c: Setup, s: System, s': System, reply: seq<SqsMessage>, server': Server, kept: bool, h: string)
    requires ProbeStep(c, s, s', reply, server', kept)
    ensures var v := ViewOf(s, h);
            || ViewOf(s', h) == v.(lane := LaneOf(server', h))
            || (!v.known && Own(reply, h) != []
                && ViewOf(s', h) == v.(lane := LaneOf(server', h), known := true, coming := [], stored := Own(reply, h)))
  {
    if kept {
      ProbeCreatesOnly(s.groups, reply);
      if h !in s.groups && h in s'.groups {
        SingleIsOwn(reply, h);
        assert Decoded(reply) == [Decode(reply[0])];
      }
    }
  }

  lemma ProbeStepInv(c: Setup, s: System, s': System, reply: seq<SqsMessage>, server': Server, kept: bool)
    requires Inv(s) && ProbeStep(c, s, s', reply, server', kept)
    ensures Inv(s')
  {
    forall h ensures GroupInv(h, ViewOf(s', h)) {
      var v := ViewOf(s, h);
      ProbeView(c, s, s', reply, server', kept, h);
      ServedMeansReceived(s.server, reply, server', h);
      if ViewOf(s', h) == v.(lane := LaneOf(server', h)) {
        DropInv(h, v, LaneOf(server', h), Own(reply, h));
      } else {
        KeepServed(h, v, s.server, reply, server');
        StashInv(h, v.(lane := LaneOf(server', h), coming := Own(reply, h)));
      }
    }
  }

  /** The message a single receive is about to mark is all the reply holds for its group. */
  lemma SingleIsOwn(reply: seq<SqsMessage>, h: string)
    requires |reply| <= 1 && reply != [] && reply[0].group.Some?
    ensures Decoded(reply) == if WellFormed(reply[0]) then [Decode(reply[0])] else []
    ensures h == reply[0].group.value ==> Own(reply, h) == Decoded(reply)
  {
  }

  lemma FetchView(c: Setup, s: System, s': System, reply: seq<SqsMessage>, server': Server, kept: bool, h: string)
    requires FetchStep(c, s, s', reply, server', kept)
    ensures ViewOf(s', h) == ViewOf(s, h).(lane := LaneOf(server', h), coming := ComingOf(s'.loop, h))
  {
  }

  lemma FetchComing(c: Setup, s: System, s': System, reply: seq<SqsMessage>, server': Server, kept: bool, h: string)
    requires FetchStep(c, s, s', reply, server', kept)
    requires s'.loop.Marking? && s'.loop.group == h ==> s'.loop.got == Own(reply, h)
    ensures ComingOf(s'.loop, h) == [] || ComingOf(s'.loop, h) == Own(reply, h)
  {
  }

  lemma FetchLoopOk(c: Setup, s: System, s': System, reply: seq<SqsMessage>, server': Server, kept: bool)
    requires FetchStep(c, s, s', reply, server', kept)
    ensures LoopOk(s'.loop)
  {
    if s'.loop.Sorting? {
      forall g | g in s'.loop.pending ensures s'.loop.pending[g] != [] && s'.loop.pending[g][0].groupId == g {
        GroupedNonempty(Decoded(reply), g);
        assert s'.loop.pending[g][0] in ForGroup(Decoded(reply), g);
      }
    }
  }

  lemma FetchStepInv(c: Setup, s: System, s': System, reply: seq<SqsMessage>, server': Server, kept: bool)
    requires Inv(s) && FetchStep(c, s, s', reply, server', kept)
    ensures Inv(s')
  {
    forall h ensures GroupInv(h, ViewOf(s', h)) {
      FetchView(c, s, s', reply, server', kept, h);
      if s'.loop.Marking? {
        SingleIsOwn(reply, h);
      }
      FetchComing(c, s, s', reply, server', kept, h);
      ServedMeansReceived(s.server, reply, server', h);
      if ViewOf(s', h).coming == [] {
        DropInv(h, ViewOf(s, h), LaneOf(server', h), Own(reply, h));
      } else {
        KeepServed(h, ViewOf(s, h), s.server, reply, server');
      }
    }
    FetchLoopOk(c, s, s', reply, server', kept);
  }

  lemma MarkView(s: System, s': System, h: string)
    requires MarkStep(s, s') && (s.loop.got == [] || (|s.loop.got| == 1 && s.loop.got[0].groupId == s.loop.group))
    ensures var v := ViewOf(s, h);
            ViewOf(s', h) == if h == s.loop.group
                             then v.(known := true, processing := true, handed := v.handed + v.coming, coming := [])
                             else v
  {
    if s.loop.got == [] {
      assert s.handed + s.loop.got == s.handed;
      assert ForGroup(s.handed, h) + [] == ForGroup(s.handed, h);
    } else {
      var m := s.loop.got[0];
      assert s.loop.got == [m];
      if h == m.groupId {
        ForGroupSnocOwn(s.handed, m);
      } else {
        ForGroupSnocOther(s.handed, m, h);
      }
    }
  }

  lemma MarkStepInv(s: System, s': System)
    requires Inv(s) && MarkStep(s, s')
    ensures Inv(s')
  {
    forall h ensures GroupInv(h, ViewOf(s', h)) {
      MarkView(s, s', h);
      if h == s.loop.group {
        MarkInv(h, ViewOf(s, h));
      }
    }
  }

  lemma AddView(s: System, s': System, g: string, h: string)
    requires AddStep(s, s', g) && h != g && ForGroup(s'.loop.ready, h) == ForGroup(s.loop.ready, h)
    ensures ViewOf(s', h) == ViewOf(s, h)
  {
  }

  lemma AddOwnView(s: System, s': System, g: string)
    requires AddStep(s, s', g) && s.loop.pending[g][0].groupId == g
    ensures var v := ViewOf(s, g);
            && v.coming != []
            && ViewOf(s', g) == v.(known := true, processing := v.processing || v.stored == [],
                                   ready := v.ready + [v.coming[0]], coming := [], stored := v.stored + v.coming[1..])
  {
  }

  lemma AddStepInv(s: System, s': System, g: string)
    requires Inv(s) && AddStep(s, s', g)
    ensures Inv(s')
  {
    forall h ensures GroupInv(h, ViewOf(s', h)) {
      if h != g {
        ForGroupSnocOther(s.loop.ready, s.loop.pending[g][0], h);
        AddView(s, s', g, h);
      } else {
        AddOwnView(s, s', g);
        var v := ViewOf(s, h);
        AddInv(h, v);
        assert v.stored + v.coming[1..] == v.coming[1..];
      }
    }
  }

  lemma ReturnStepInv(s: System, s': System)
    requires Inv(s) && ReturnStep(s, s')
    ensures Inv(s')
  {
    forall h ensures GroupInv(h, ViewOf(s', h)) {
      var v := ViewOf(s, h);
      ForGroupConcat(s.handed, s.loop.ready, h);
      ReturnInv(h, v);
      assert ViewOf(s', h) == v.(handed := v.handed + v.ready, ready := []);
    }
  }

  lemma DeleteStepInv(s: System, s': System, m: Message, ok: bool, applied: bool)
    requires Inv(s) && DeleteStep(s, s', m, ok, applied)
    ensures Inv(s')
  {
    forall h ensures GroupInv(h, ViewOf(s', h)) {
      var v := ViewOf(s, h);
      if h == m.groupId && applied {
        ForGroupMembers(s.handed, h);
        DeleteInv(h, v, m);
        assert ViewOf(s', h) == v.(lane := v.lane.(flying := v.lane.flying - {m.seqNo}, deleted := v.lane.deleted + {m.seqNo}));
      } else {
        assert ViewOf(s', h) == v;
      }
    }
  }

  lemma ReleaseStepInv(s: System, s': System, g: string)
    requires Inv(s) && ReleaseStep(s, s', g)
    ensures Inv(s')
  {
    forall h ensures GroupInv(h, ViewOf(s', h)) {
      var v := ViewOf(s, h);
      if h == g && h in s.groups && s.groups[h].tasks == [] {
        ReleaseInv(h, v);
        assert ViewOf(s', h) == v.(processing := false);
      } else {
        assert ViewOf(s', h) == v;
      }
    }
  }

  lemma LoopStepInv(c: Setup, s: System, s': System)
    requires Inv(s) && LoopStep(c, s, s')
    ensures Inv(s')
  {
    if DequeueStep(c, s, s') {
      DequeueStepInv(c, s, s');
    } else if reply, server', kept :| FetchStep(c, s, s', reply, server', kept) {
      FetchStepInv(c, s, s', reply, server', kept);
    } else if MarkStep(s, s') {
      MarkStepInv(s, s');
    } else if g :| AddStep(s, s', g) {
      AddStepInv(s, s', g);
    } else {
      ReturnStepInv(s, s');
    }
  }

  lemma QuietStepInv(c: Setup, s: System, s': System)
    requires Inv(s) && QuietStep(c, s, s')
    ensures Inv(s')
  {
    if AskStep(c, s, s') {
      forall h ensures GroupInv(h, ViewOf(s', h)) {
        assert ViewOf(s', h) == ViewOf(s, h);
      }
    } else if reply, server', kept :| ProbeStep(c, s, s', reply, server', kept) {
      ProbeStepInv(c, s, s', reply, server', kept);
    } else {
      var g :| ReleaseStep(s, s', g);
      ReleaseStepInv(s, s', g);
    }
  }

  lemma RemoteStepInv(s: System, s': System)
    requires Inv(s) && RemoteStep(s, s')
    ensures Inv(s')
  {
    if m, ok, applied :| DeleteStep(s, s', m, ok, applied) {
      DeleteStepInv(s, s', m, ok, applied);
    } else if g, body :| Publish(s, s', g, body) {
      PublishStepInv(s, s', g, body);
    } else {
      var g, i: nat :| Expire(s, s', g, i);
      ExpireStepInv(s, s', g, i);
    }
  }

  lemma NextInv(c: Setup, s: System, s': System)
    requires Inv(s) && Next(c, s, s')
    ensures Inv(s')
  {
    if LoopStep(c, s, s') {
      LoopStepInv(c, s, s');
    } else if QuietStep(c, s, s') {
      QuietStepInv(c, s, s');
    } else {
      RemoteStepInv(s, s');
    }
  }

  lemma {:induction false} RunInv(c: Setup, trace: seq<System>, i: nat)
    requires Run(c, trace) && i < |trace|
    ensures Inv(trace[i])
  {
    if i == 0 {
      InitInv(trace[0]);
    } else {
      RunInv(c, trace, i - 1);
      assert StepAt(c, trace, i - 1);
      NextInv(c, trace[i - 1], trace[i]);
    }
  }

  lemma RunGroupInv(c: Setup, trace: seq<System>, i: nat, g: string)
    requires Run(c, trace) && i < |trace|
    ensures LoopOk(trace[i].loop) && GroupInv(g, ViewOf(trace[i], g))
  {
    RunInv(c, trace, i);
  }
}
