/**
 What the protocol guarantees to the consumers of one message group in every run: one message at a time, in publish order,
 with no duplicate and no gap, and none deleted unseen.
 */
module FifoOrder {
  import opened Basics
  import opened FifoQueues
  import opened FifoProtocol

  /** Handed out or about to be, and not yet deleted. */
  ghost predicate Open(s: System, m: Message) {
    m in s.handed + ReadyOf(s.loop) && m.seqNo !in LaneOf(s.server, m.groupId).deleted
  }

  /** One at a time: no reachable state has two open messages of one group. */
  lemma OneAtATime(c: Setup, trace: seq<System>, i: nat, a: Message, b: Message)
    requires Run(c, trace) && i < |trace|
    requires Open(trace[i], a) && Open(trace[i], b) && a.groupId == b.groupId
    ensures a == b
  {
    RunInv(c, trace, i);
    var s, g := trace[i], a.groupId;
    var v := ViewOf(s, g);
    assert GroupInv(g, v);
    ForGroupMembers(s.handed, g);
    ForGroupMembers(ReadyOf(s.loop), g);
    assert a in Given(v) && b in Given(v);
  }

  /**
   Order, no duplicates and no gaps: what has been handed out for a group is, in order, exactly the decodable
   messages among the first `n` published in that group.
   */
  lemma HandedInPublishOrder(c: Setup, trace: seq<System>, i: nat, g: string)
    requires Run(c, trace) && i < |trace|
    ensures exists n: nat :: n <= |LaneOf(trace[i].server, g).log|
              && ForGroup(trace[i].handed, g) == Goods(g, LaneOf(trace[i].server, g).log[..n])
  {
    RunGroupInv(c, trace, i, g);
    HandedIsPrefix(g, ViewOf(trace[i], g));
  }

  lemma HandedIsPrefix(g: string, v: View)
    requires GroupInv(g, v)
    ensures exists n: nat :: n <= |v.lane.log| && v.handed == Goods(g, v.lane.log[..n])
  {
    var n: nat :| Frontier(g, v, n);
    assert Line(v)[..|v.handed|] == v.handed;
    GoodsPrefix(g, v.lane.log[..n], |v.handed|);
    var n': nat :| n' <= n && Goods(g, v.lane.log[..n][..n']) == v.handed;
    assert v.lane.log[..n][..n'] == v.lane.log[..n'];
  }

  lemma {:induction false} GoodsPrefix(g: string, log: seq<Option<string>>, k: nat)
    requires k <= |Goods(g, log)|
    ensures exists n: nat :: n <= |log| && Goods(g, log[..n]) == Goods(g, log)[..k]
  {
    if k == |Goods(g, log)| {
      assert log[..|log|] == log && Goods(g, log)[..k] == Goods(g, log);
    } else {
      var front := log[..|log| - 1];
      GoodsPrefix(g, front, k);
      var n: nat :| n <= |front| && Goods(g, front[..n]) == Goods(g, front)[..k];
      assert log[..n] == front[..n];
      assert Goods(g, log)[..k] == Goods(g, front)[..k];
    }
  }

  lemma HandedIncreasing(c: Setup, trace: seq<System>, i: nat, j: nat, k: nat)
    requires Run(c, trace) && i < |trace|
    requires j < k < |trace[i].handed| && trace[i].handed[j].groupId == trace[i].handed[k].groupId
    ensures trace[i].handed[j].seqNo < trace[i].handed[k].seqNo
  {
    var g := trace[i].handed[j].groupId;
    RunInv(c, trace, i);
    LineIncreasing(g, ViewOf(trace[i], g));
    var own := ForGroup(trace[i].handed, g);
    assert own <= Line(ViewOf(trace[i], g));
    IncreasingInside(trace[i].handed, g, j, k);
  }

  lemma IncreasingInside(ms: seq<Message>, g: string, j: nat, k: nat)
    requires Increasing(ForGroup(ms, g))
    requires j < k < |ms| && ms[j].groupId == ms[k].groupId == g
    ensures ms[j].seqNo < ms[k].seqNo
  {
    var before, rest := ms[..k], ms[k..];
    assert ms == before + rest;
    ForGroupConcat(before, rest, g);
    assert before[j] in before && rest[0] in rest;
    ForGroupMembers(before, g);
    ForGroupMembers(rest, g);
    var x :| 0 <= x < |ForGroup(before, g)| && ForGroup(before, g)[x] == ms[j];
    var y :| 0 <= y < |ForGroup(rest, g)| && ForGroup(rest, g)[y] == ms[k];
    assert ForGroup(ms, g)[x] == ms[j] && ForGroup(ms, g)[|ForGroup(before, g)| + y] == ms[k];
  }

  /** No decodable message is deleted from the queue without having been handed out. */
  lemma DeletedWasHanded(c: Setup, trace: seq<System>, i: nat, g: string, k: nat)
    requires Run(c, trace) && i < |trace|
    requires k in LaneOf(trace[i].server, g).deleted && k < |LaneOf(trace[i].server, g).log| && LaneOf(trace[i].server, g).log[k].Some?
    ensures Message(g, k, LaneOf(trace[i].server, g).log[k].value) in trace[i].handed
  {
    RunInv(c, trace, i);
    var s := trace[i];
    var v := ViewOf(s, g);
    assert GroupInv(g, v);
    var n: nat :| Frontier(g, v, n);
    GoodsMembers(g, v.lane.log[..n]);
    var m := Message(g, k, v.lane.log[k].value);
    assert m in Line(v);
    assert m in v.handed;
    ForGroupMembers(s.handed, g);
  }
}
