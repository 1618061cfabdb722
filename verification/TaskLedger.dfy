/**
 internal/worker/factory.go: the receive loop and the goroutines that execute tasks, interleaved step by step.  The
 unsynchronised counter increments of the original are taken to be atomic.  Deliveries are numbered in the order the
 broker returned them; `deliveries[d]` is the decoded task id, None when decoding fails.
 */
module TaskLedger {
  import opened Basics

  datatype TaskState = Pending | Running | Success | Error

  /** Where the loop stands with delivery `next`: untouched, stored, or counted but not yet started. */
  datatype Stage = Ready | Stored | Counted

  datatype Phase = Spawned | Executing | Failing | Settled | Done

  datatype Exec = Exec(delivery: nat, task: string, phase: Phase)

  datatype Worker = Worker(infos: map<string, TaskState>, received: nat, succeeded: nat, failed: nat,
                           deliveries: seq<Option<string>>, next: nat, stage: Stage, execs: seq<Exec>, acks: seq<nat>)

  ghost predicate Init(s: Worker) {
    s == Worker(map[], 0, 0, 0, [], 0, Ready, [], [])
  }

  // ----- the receive loop

  ghost predicate LoopStep(s: Worker, s': Worker) {
    || (s.stage == Ready && s.next == |s.deliveries| && exists batch :: s' == s.(deliveries := s.deliveries + batch))
    || (s.next < |s.deliveries| && s.deliveries[s.next].None? && s.stage == Ready && s' == s.(next := s.next + 1))
    || (s.next < |s.deliveries| && s.deliveries[s.next].Some? && IntakeStep(s, s'))
  }

  ghost predicate IntakeStep(s: Worker, s': Worker)
    requires s.next < |s.deliveries| && s.deliveries[s.next].Some?
  {
    var task := s.deliveries[s.next].value;
    match s.stage
    case Ready => s' == s.(infos := s.infos[task := Pending], stage := Stored)
    case Stored => s' == s.(received := s.received + 1, stage := Counted)
    case Counted => s' == s.(execs := s.execs + [Exec(s.next, task, Spawned)], next := s.next + 1, stage := Ready)
  }

  // ----- one execution

  function Moved(s: Worker, i: nat, phase: Phase): Worker
    requires i < |s.execs|
  {
    s.(execs := s.execs[i := s.execs[i].(phase := phase)])
  }

  ghost predicate ExecStep(s: Worker, i: nat, s': Worker)
    requires i < |s.execs|
  {
    var task := s.execs[i].task;
    match s.execs[i].phase
    case Spawned => s' == Moved(s, i, Executing).(infos := s.infos[task := Running])
    case Executing =>
      || s' == Moved(s, i, Failing).(infos := s.infos[task := Error])                                       // the pool returned an error
      || s' == Moved(s, i, Settled).(infos := s.infos[task := Success], succeeded := s.succeeded + 1)
      || s' == Moved(s, i, Settled).(infos := s.infos[task := Error], failed := s.failed + 1)               // a result other than success
    case Failing => s' == Moved(s, i, Settled).(failed := s.failed + 1)
    case Settled => s' == Moved(s, i, Done).(acks := s.acks + [s.execs[i].delivery])
    case Done => false
  }

  ghost predicate Next(s: Worker, s': Worker) {
    LoopStep(s, s') || exists i: nat :: i < |s.execs| && ExecStep(s, i, s')
  }

  ghost predicate Run(trace: seq<Worker>) {
    && |trace| > 0
    && Init(trace[0])
    && forall k: nat :: k + 1 < |trace| ==> StepAt(trace, k)
  }

  ghost predicate StepAt(trace: seq<Worker>, k: nat)
    requires k + 1 < |trace|
  {
    Next(trace[k], trace[k + 1])
  }

  // ----- conservation

  predicate Uncounted(e: Exec) {
    e.phase.Spawned? || e.phase.Executing? || e.phase.Failing?
  }

  function Open(execs: seq<Exec>): nat {
    if execs == [] then 0 else Open(execs[..|execs| - 1]) + if Uncounted(execs[|execs| - 1]) then 1 else 0
  }

  ghost predicate Ledger(s: Worker) {
    s.received == s.succeeded + s.failed + Open(s.execs) + if s.stage == Counted then 1 else 0
  }

  lemma {:induction false} OpenUpdate(execs: seq<Exec>, i: nat, e: Exec)
    requires i < |execs|
    ensures Open(execs[i := e]) + (if Uncounted(execs[i]) then 1 else 0) == Open(execs) + (if Uncounted(e) then 1 else 0)
  {
    var last := |execs| - 1;
    if i == last {
      assert execs[i := e][..last] == execs[..last];
    } else {
      assert execs[i := e][..last] == execs[..last][i := e];
      OpenUpdate(execs[..last], i, e);
    }
  }

  lemma LoopStepLedger(s: Worker, s': Worker)
    requires Ledger(s) && LoopStep(s, s')
    ensures Ledger(s')
  {
  }

  lemma ExecStepLedger(s: Worker, i: nat, s': Worker)
    requires Ledger(s) && i < |s.execs| && ExecStep(s, i, s')
    ensures Ledger(s')
  {
    OpenUpdate(s.execs, i, s'.execs[i]);
  }

  lemma LedgerStep(s: Worker, s': Worker)
    requires Ledger(s) && Next(s, s')
    ensures Ledger(s')
  {
    if LoopStep(s, s') {
      LoopStepLedger(s, s');
    } else {
      var i: nat :| i < |s.execs| && ExecStep(s, i, s');
      ExecStepLedger(s, i, s');
    }
  }

  /** In every run: received = succeeded + failed + what has been started or is about to be and is not counted yet. */
  lemma {:induction false} RunLedger(trace: seq<Worker>, k: nat)
    requires Run(trace) && k < |trace|
    ensures Ledger(trace[k])
  {
    if k > 0 {
      RunLedger(trace, k - 1);
      assert StepAt(trace, k - 1);
      LedgerStep(trace[k - 1], trace[k]);
    }
  }

  // ----- task states and acknowledgements

  /** No two deliveries carry the same task id. */
  ghost predicate Distinct(deliveries: seq<Option<string>>) {
    forall d, e :: 0 <= d < e < |deliveries| && deliveries[d].Some? ==> deliveries[d] != deliveries[e]
  }

  predicate Terminal(state: TaskState) {
    state.Success? || state.Error?
  }

  predicate Agrees(phase: Phase, state: TaskState) {
    match phase
    case Spawned => state == Pending
    case Executing => state == Running
    case Failing => state == Error
    case Settled => Terminal(state)
    case Done => Terminal(state)
  }

  /** Executions belong to distinct deliveries the loop is done with. */
  ghost predicate Filed(s: Worker) {
    && s.next <= |s.deliveries|
    && (s.stage != Ready ==> s.next < |s.deliveries| && s.deliveries[s.next].Some?)
    && (forall i :: 0 <= i < |s.execs| ==> s.execs[i].delivery < s.next && s.deliveries[s.execs[i].delivery] == Some(s.execs[i].task))
    && (forall i, j :: 0 <= i < j < |s.execs| ==> s.execs[i].delivery < s.execs[j].delivery)
  }

  /** Every recorded task is that of a delivery the loop has begun. */
  ghost predicate Recorded(s: Worker) {
    forall task :: task in s.infos ==>
      (exists d :: 0 <= d < s.next && d < |s.deliveries| && s.deliveries[d] == Some(task))
      || (s.stage != Ready && s.next < |s.deliveries| && s.deliveries[s.next] == Some(task))
  }

  /** Every execution, and a stored delivery, has an entry in the task map. */
  ghost predicate Listed(s: Worker) {
    && (forall i :: 0 <= i < |s.execs| ==> s.execs[i].task in s.infos)
    && (s.stage != Ready && s.next < |s.deliveries| && s.deliveries[s.next].Some? ==> s.deliveries[s.next].value in s.infos)
  }

  /** Every task is in the state its one execution has brought it to. */
  ghost predicate InStep(s: Worker) {
    && (forall i :: 0 <= i < |s.execs| ==> s.execs[i].task in s.infos && Agrees(s.execs[i].phase, s.infos[s.execs[i].task]))
    && (s.stage != Ready && s.next < |s.deliveries| && s.deliveries[s.next].Some? ==>
          && s.deliveries[s.next].value in s.infos
          && s.infos[s.deliveries[s.next].value] == Pending)
  }

  /** One acknowledgement per finished execution. */
  ghost predicate Acked(s: Worker) {
    && (forall a, b :: 0 <= a < b < |s.acks| ==> s.acks[a] != s.acks[b])
    && (forall d :: d in s.acks ==> d < s.next)
    && (forall i :: 0 <= i < |s.execs| ==> (s.execs[i].phase == Done <==> s.execs[i].delivery in s.acks))
    && (forall d :: d in s.acks ==> HasExec(s, d))
  }

  /** The loop loses nothing: every decodable delivery it is done with has an execution. */
  ghost predicate Dispatched(s: Worker) {
    forall d :: 0 <= d < s.next && d < |s.deliveries| && s.deliveries[d].Some? ==> HasExec(s, d)
  }

  ghost predicate HasExec(s: Worker, d: nat) {
    exists i :: 0 <= i < |s.execs| && s.execs[i].delivery == d
  }

  /** What holds whether or not task ids repeat. */
  ghost predicate Books(s: Worker) {
    Filed(s) && Recorded(s) && Listed(s) && Acked(s) && Dispatched(s)
  }

  ghost predicate Inv(s: Worker) {
    Books(s) && InStep(s)
  }

  function Rank(state: TaskState): nat {
    match state case Pending => 0 case Running => 1 case Success => 2 case Error => 2
  }

  /** Task states move only forward, and terminal ones not at all. */
  ghost predicate Advances(s: Worker, s': Worker) {
    forall task :: task in s.infos ==>
      task in s'.infos && Rank(s.infos[task]) <= Rank(s'.infos[task]) && (Terminal(s.infos[task]) ==> s'.infos[task] == s.infos[task])
  }

  lemma LoopStepBooks(s: Worker, s': Worker)
    requires Books(s) && LoopStep(s, s')
    ensures Books(s')
  {
    LoopStepFiled(s, s');
    LoopStepRecorded(s, s');
    LoopStepListed(s, s');
    LoopStepAcked(s, s');
    LoopStepDispatched(s, s');
  }

  lemma LoopStepListed(s: Worker, s': Worker)
    requires Filed(s) && Listed(s) && LoopStep(s, s')
    ensures Listed(s')
  {
  }

  lemma LoopStepAdvances(s: Worker, s': Worker)
    requires Recorded(s) && LoopStep(s, s') && Distinct(s.deliveries)
    ensures Advances(s, s')
  {
  }

  lemma LoopStepFiled(s: Worker, s': Worker)
    requires Filed(s) && LoopStep(s, s')
    ensures Filed(s')
  {
  }

  lemma LoopStepAcked(s: Worker, s': Worker)
    requires Filed(s) && Acked(s) && LoopStep(s, s')
    ensures Acked(s')
  {
    forall d: nat | HasExec(s, d) ensures HasExec(s', d) {
      var i :| 0 <= i < |s.execs| && s.execs[i].delivery == d;
      assert s'.execs[i].delivery == d;
    }
  }

  lemma LoopStepDispatched(s: Worker, s': Worker)
    requires Filed(s) && Dispatched(s) && LoopStep(s, s')
    ensures Dispatched(s')
  {
    forall d: nat | HasExec(s, d) ensures HasExec(s', d) {
      var i :| 0 <= i < |s.execs| && s.execs[i].delivery == d;
      assert s'.execs[i].delivery == d;
    }
    if |s'.execs| > |s.execs| {
      assert s'.execs[|s.execs|].delivery == s.next && HasExec(s', s.next);
    }
  }

  lemma LoopStepInStep(s: Worker, s': Worker)
    requires Filed(s) && Recorded(s) && InStep(s) && LoopStep(s, s') && Distinct(s.deliveries)
    ensures InStep(s')
  {
  }

  lemma LoopStepRecorded(s: Worker, s': Worker)
    requires Filed(s) && Recorded(s) && LoopStep(s, s')
    ensures Recorded(s')
  {
    forall task | task in s'.infos
      ensures (exists d :: 0 <= d < s'.next && d < |s'.deliveries| && s'.deliveries[d] == Some(task))
              || (s'.stage != Ready && s'.next < |s'.deliveries| && s'.deliveries[s'.next] == Some(task))
    {
      if task in s.infos {
        if d :| 0 <= d < s.next && d < |s.deliveries| && s.deliveries[d] == Some(task) {
          assert s'.deliveries[d] == Some(task);
        } else {
          assert s'.deliveries[s.next] == Some(task);
        }
      }
    }
  }

  /** What every step of an execution leaves alone. */
  ghost predicate ExecFrame(s: Worker, i: nat, s': Worker)
    requires i < |s.execs|
  {
    && s'.deliveries == s.deliveries && s'.next == s.next && s'.stage == s.stage
    && |s'.execs| == |s.execs|
    && (forall j :: 0 <= j < |s.execs| ==> s'.execs[j].delivery == s.execs[j].delivery && s'.execs[j].task == s.execs[j].task)
    && (forall j :: 0 <= j < |s.execs| && j != i ==> s'.execs[j].phase == s.execs[j].phase)
    && (forall task :: task in s.infos ==> task in s'.infos && (task != s.execs[i].task ==> s'.infos[task] == s.infos[task]))
    && (forall task :: task in s'.infos ==> task in s.infos)
  }

  lemma ExecStepFrame(s: Worker, i: nat, s': Worker)
    requires i < |s.execs| && ExecStep(s, i, s') && s.execs[i].task in s.infos
    ensures ExecFrame(s, i, s')
  {
  }

  lemma ExecStepAgrees(s: Worker, i: nat, s': Worker)
    requires i < |s.execs| && ExecStep(s, i, s')
    requires s.execs[i].task in s.infos && Agrees(s.execs[i].phase, s.infos[s.execs[i].task])
    ensures var task := s.execs[i].task;
            && |s'.execs| == |s.execs| && task in s'.infos && Agrees(s'.execs[i].phase, s'.infos[task])
            && Rank(s.infos[task]) <= Rank(s'.infos[task])
            && (Terminal(s.infos[task]) ==> s'.infos[task] == s.infos[task])
  {
  }

  lemma TasksDiffer(s: Worker, i: nat, j: nat)
    requires Filed(s) && Distinct(s.deliveries) && i < |s.execs| && j < |s.execs| && i != j
    ensures s.execs[i].task != s.execs[j].task
  {
  }

  lemma ExecStepInStep(s: Worker, i: nat, s': Worker)
    requires Filed(s) && InStep(s) && Distinct(s.deliveries) && i < |s.execs| && ExecStep(s, i, s') && ExecFrame(s, i, s')
    ensures InStep(s')
  {
    ExecStepAgrees(s, i, s');
    forall j | 0 <= j < |s.execs| && j != i ensures s.execs[j].task != s.execs[i].task {
      TasksDiffer(s, i, j);
    }
    assert s.deliveries[s.execs[i].delivery] == Some(s.execs[i].task);
  }

  lemma HasExecKept(s: Worker, i: nat, s': Worker)
    requires i < |s.execs| && ExecFrame(s, i, s')
    ensures forall d: nat :: HasExec(s, d) ==> HasExec(s', d)
  {
  }

  lemma FrameFiles(s: Worker, i: nat, s': Worker)
    requires Filed(s) && i < |s.execs| && ExecFrame(s, i, s')
    ensures Filed(s')
  {
  }

  lemma FrameLists(s: Worker, i: nat, s': Worker)
    requires Recorded(s) && Listed(s) && i < |s.execs| && ExecFrame(s, i, s')
    ensures Recorded(s') && Listed(s')
  {
  }

  lemma FrameDispatches(s: Worker, i: nat, s': Worker)
    requires Dispatched(s) && i < |s.execs| && ExecFrame(s, i, s')
    ensures Dispatched(s')
  {
    HasExecKept(s, i, s');
  }

  lemma ExecStepBooks(s: Worker, i: nat, s': Worker)
    requires Books(s) && i < |s.execs| && ExecStep(s, i, s')
    ensures Books(s') && ExecFrame(s, i, s')
  {
    ExecStepFrame(s, i, s');
    FrameFiles(s, i, s');
    FrameLists(s, i, s');
    FrameDispatches(s, i, s');
    ExecStepAcked(s, i, s');
  }

  lemma ExecStepAdvances(s: Worker, i: nat, s': Worker)
    requires InStep(s) && i < |s.execs| && ExecStep(s, i, s') && ExecFrame(s, i, s')
    ensures Advances(s, s')
  {
  }

  lemma ExecStepAcked(s: Worker, i: nat, s': Worker)
    requires Filed(s) && Acked(s) && i < |s.execs| && ExecStep(s, i, s') && ExecFrame(s, i, s')
    ensures Acked(s')
  {
    HasExecKept(s, i, s');
    assert s.execs[i].delivery == s.execs[i].delivery && HasExec(s, s.execs[i].delivery);
  }

  lemma NextBooks(s: Worker, s': Worker)
    requires Books(s) && Next(s, s')
    ensures Books(s')
  {
    if LoopStep(s, s') {
      LoopStepBooks(s, s');
    } else {
      var i: nat :| i < |s.execs| && ExecStep(s, i, s');
      ExecStepBooks(s, i, s');
    }
  }

  lemma {:induction false} RunBooks(trace: seq<Worker>, k: nat)
    requires Run(trace) && k < |trace|
    ensures Books(trace[k])
  {
    if k > 0 {
      RunBooks(trace, k - 1);
      assert StepAt(trace, k - 1);
      NextBooks(trace[k - 1], trace[k]);
    }
  }

  lemma DeliveriesGrow(s: Worker, s': Worker)
    requires Next(s, s') && Distinct(s'.deliveries)
    ensures s.deliveries <= s'.deliveries && Distinct(s.deliveries)
  {
  }

  lemma NextInStep(s: Worker, s': Worker)
    requires Inv(s) && Next(s, s') && Distinct(s.deliveries)
    ensures InStep(s') && Advances(s, s')
  {
    if LoopStep(s, s') {
      LoopStepInStep(s, s');
      LoopStepAdvances(s, s');
    } else {
      var i: nat :| i < |s.execs| && ExecStep(s, i, s');
      ExecStepFrame(s, i, s');
      ExecStepInStep(s, i, s');
      ExecStepAdvances(s, i, s');
    }
  }

  lemma {:induction false} RunInv(trace: seq<Worker>, k: nat)
    requires Run(trace) && k < |trace| && Distinct(trace[k].deliveries)
    ensures Inv(trace[k])
  {
    RunBooks(trace, k);
    if k > 0 {
      assert StepAt(trace, k - 1);
      DeliveriesGrow(trace[k - 1], trace[k]);
      RunInv(trace, k - 1);
      NextInStep(trace[k - 1], trace[k]);
    }
  }

  /** With distinct task ids every step moves task states forward only: pending, running, then success or error for good. */
  lemma StatesAdvance(trace: seq<Worker>, k: nat)
    requires Run(trace) && k + 1 < |trace| && Distinct(trace[k + 1].deliveries)
    ensures Advances(trace[k], trace[k + 1])
  {
    assert StepAt(trace, k);
    DeliveriesGrow(trace[k], trace[k + 1]);
    RunInv(trace, k);
    NextInStep(trace[k], trace[k + 1]);
  }

  /**
   In every run, whether or not task ids repeat: each delivery is acknowledged at most once, only if it was decodable,
   and only by the execution started for it.
   */
  lemma AckedOnce(trace: seq<Worker>, k: nat)
    requires Run(trace) && k < |trace|
    ensures var s := trace[k];
            && (forall a, b :: 0 <= a < b < |s.acks| ==> s.acks[a] != s.acks[b])
            && (forall d :: d in s.acks ==> d < |s.deliveries| && s.deliveries[d].Some? && IsDone(s, d))
  {
    RunBooks(trace, k);
    var s := trace[k];
    forall d | d in s.acks ensures d < |s.deliveries| && s.deliveries[d].Some? && IsDone(s, d) {
      assert HasExec(s, d);
    }
  }

  /** The execution of delivery `d` has finished. */
  ghost predicate IsDone(s: Worker, d: nat) {
    exists i :: 0 <= i < |s.execs| && s.execs[i].delivery == d && s.execs[i].phase == Done
  }

  /** With distinct task ids the task of an acknowledged delivery is terminal. */
  lemma AckedLate(trace: seq<Worker>, k: nat, d: nat)
    requires Run(trace) && k < |trace| && Distinct(trace[k].deliveries) && d in trace[k].acks
    ensures d < |trace[k].deliveries| && trace[k].deliveries[d].Some?
    ensures var task := trace[k].deliveries[d].value; task in trace[k].infos && Terminal(trace[k].infos[task])
  {
    RunInv(trace, k);
    AckedOnce(trace, k);
  }

  /** Nothing is left waiting: the loop has taken every delivery and every execution has finished. */
  ghost predicate Drained(s: Worker) {
    s.next == |s.deliveries| && s.stage == Ready && forall i :: 0 <= i < |s.execs| ==> s.execs[i].phase == Done
  }

  /** Once drained, the acknowledged deliveries are exactly the decodable ones and the counters balance. */
  lemma DrainedAcksDecodable(trace: seq<Worker>, k: nat)
    requires Run(trace) && k < |trace| && Drained(trace[k])
    ensures var s := trace[k];
            && s.received == s.succeeded + s.failed
            && forall d: nat :: d in s.acks <==> d < |s.deliveries| && s.deliveries[d].Some?
  {
    RunBooks(trace, k);
    RunLedger(trace, k);
    var s := trace[k];
    NoneOpen(s.execs);
    forall d: nat ensures d in s.acks <==> d < |s.deliveries| && s.deliveries[d].Some? {
      if d in s.acks || (d < |s.deliveries| && s.deliveries[d].Some?) {
        assert HasExec(s, d);
        var i :| 0 <= i < |s.execs| && s.execs[i].delivery == d;
        assert s.execs[i].phase == Done;
      }
    }
  }

  lemma {:induction false} NoneOpen(execs: seq<Exec>)
    requires forall i :: 0 <= i < |execs| ==> execs[i].phase == Done
    ensures Open(execs) == 0
  {
    if execs != [] {
      NoneOpen(execs[..|execs| - 1]);
    }
  }

  // ----- repeated task ids

  /** Writing this state over the entry of the task would take it back, or change a terminal one. */
  predicate Conflicts(infos: map<string, TaskState>, task: string, state: TaskState) {
    task in infos && (Rank(state) < Rank(infos[task]) || (Terminal(infos[task]) && state != infos[task]))
  }

  /** The loop stores a delivery whose task is recorded and past pending. */
  ghost predicate StoresOver(s: Worker, s': Worker) {
    && s.stage == Ready && s'.stage == Stored && s.next < |s.deliveries| && s.deliveries[s.next].Some?
    && Conflicts(s.infos, s.deliveries[s.next].value, Pending)
  }

  /** Execution `i` starts or ends while another execution of the same task has brought it further or to another end. */
  ghost predicate WritesOver(s: Worker, i: nat, s': Worker)
    requires i < |s.execs|
  {
    var task := s.execs[i].task;
    && (s.execs[i].phase.Spawned? || s.execs[i].phase.Executing?)
    && ExecStep(s, i, s') && task in s'.infos && Conflicts(s.infos, task, s'.infos[task])
  }

  /**
   Distinctness is what the original does not check.  A step, of any kind and from any state, takes a task state back
   or changes a terminal one exactly when it is one of these two writes.
   */
  lemma RegressesIff(s: Worker, s': Worker)
    requires Next(s, s')
    ensures !Advances(s, s') <==> StoresOver(s, s') || exists i: nat :: i < |s.execs| && WritesOver(s, i, s')
  {
    if LoopStep(s, s') {
      LoopRegressesIff(s, s');
    } else {
      var i: nat :| i < |s.execs| && ExecStep(s, i, s');
      ExecRegressesIff(s, i, s');
    }
  }

  lemma LoopRegressesIff(s: Worker, s': Worker)
    requires LoopStep(s, s')
    ensures !Advances(s, s') <==> StoresOver(s, s')
    ensures forall i: nat :: i < |s.execs| ==> !WritesOver(s, i, s')
  {
    forall i: nat | i < |s.execs| ensures !WritesOver(s, i, s') {
    }
    if s'.stage == Stored {
      assert s'.infos[s.deliveries[s.next].value] == Pending;
    }
  }

  lemma ExecRegressesIff(s: Worker, i: nat, s': Worker)
    requires i < |s.execs| && ExecStep(s, i, s')
    ensures !Advances(s, s') <==> WritesOver(s, i, s')
    ensures !StoresOver(s, s')
    ensures forall j: nat :: j < |s.execs| && WritesOver(s, j, s') ==> j == i
  {
    forall j: nat | j < |s.execs| && WritesOver(s, j, s') ensures j == i {
      assert s'.execs[i].phase != s.execs[i].phase;
    }
  }

  /**
   A run in which a task id is delivered twice: the first execution succeeds and is acknowledged, then the start of the
   second takes the task back to running, so an acknowledged task is not terminal.
   */
  lemma RepeatedIdRegresses(task: string) returns (trace: seq<Worker>)
    ensures Run(trace) && |trace| >= 2
    ensures var s, s' := trace[|trace| - 2], trace[|trace| - 1];
            && s.deliveries == [Some(task), Some(task)] && s.infos == map[task := Success] && s.acks == [0]
            && s'.infos == map[task := Running] && s'.acks == [0] && !Advances(s, s')
  {
    trace := StartedTwice(task);
    var s := trace[|trace| - 1];
    var s1 := Moved(s, 0, Executing).(infos := s.infos[task := Running]);
    trace := Executed(trace, 0, s1);
    var s2 := Moved(s1, 0, Settled).(infos := s1.infos[task := Success], succeeded := 1);
    trace := Executed(trace, 0, s2);
    var s3 := Moved(s2, 0, Done).(acks := s2.acks + [0]);
    trace := Executed(trace, 0, s3);
    var s4 := Moved(s3, 1, Executing).(infos := s3.infos[task := Running]);
    trace := Executed(trace, 1, s4);
    assert s3.infos == map[task := Success] && s4.infos == map[task := Running];
    assert Terminal(s3.infos[task]) && s4.infos[task] == Running;
  }

  lemma StartedTwice(task: string) returns (trace: seq<Worker>)
    ensures Run(trace)
    ensures trace[|trace| - 1] == Worker(map[task := Pending], 2, 0, 0, [Some(task), Some(task)], 2, Ready,
                                         [Exec(0, task, Spawned), Exec(1, task, Spawned)], [])
  {
    var s0 := Worker(map[], 0, 0, 0, [], 0, Ready, [], []);
    var s1 := s0.(deliveries := [Some(task), Some(task)]);
    assert s1.deliveries == s0.deliveries + [Some(task), Some(task)];
    RunSnoc([s0], s1);
    var once := TakesIn([s0] + [s1], task);
    trace := TakesIn(once, task);
    assert trace[|trace| - 1].infos == map[task := Pending];
    assert trace[|trace| - 1].execs == [Exec(0, task, Spawned), Exec(1, task, Spawned)];
  }

  /** The loop takes in its next delivery. */
  lemma TakesIn(trace: seq<Worker>, task: string) returns (longer: seq<Worker>)
    requires Run(trace)
    requires var s := trace[|trace| - 1]; s.stage == Ready && s.next < |s.deliveries| && s.deliveries[s.next] == Some(task)
    ensures Run(longer)
    ensures var s := trace[|trace| - 1];
            longer[|longer| - 1] == s.(infos := s.infos[task := Pending], received := s.received + 1,
                                       execs := s.execs + [Exec(s.next, task, Spawned)], next := s.next + 1)
  {
    var s := trace[|trace| - 1];
    var s1 := s.(infos := s.infos[task := Pending], stage := Stored);
    var s2 := s1.(received := s.received + 1, stage := Counted);
    var s3 := s2.(execs := s.execs + [Exec(s.next, task, Spawned)], next := s.next + 1, stage := Ready);
    assert LoopStep(s, s1) && LoopStep(s1, s2) && LoopStep(s2, s3);
    RunSnoc(trace, s1);
    RunSnoc(trace + [s1], s2);
    RunSnoc(trace + [s1] + [s2], s3);
    longer := trace + [s1] + [s2] + [s3];
  }

  lemma RunSnoc(trace: seq<Worker>, s: Worker)
    requires Run(trace) && Next(trace[|trace| - 1], s)
    ensures Run(trace + [s])
  {
    var longer := trace + [s];
    forall k: nat | k + 1 < |longer| ensures StepAt(longer, k) {
      if k + 1 < |trace| {
        assert StepAt(trace, k);
      }
    }
  }

  /** Acknowledgement does not wait for success: a run in which the pool fails and the message is acknowledged. */
  lemma FailedTaskIsAcked(task: string) returns (trace: seq<Worker>)
    ensures Run(trace) && Distinct(trace[|trace| - 1].deliveries)
    ensures var s := trace[|trace| - 1]; s.acks == [0] && s.deliveries == [Some(task)] && s.infos == map[task := Error]
  {
    trace := StartedRun(task);
    var s4 := trace[|trace| - 1];
    var s5 := Moved(s4, 0, Executing).(infos := s4.infos[task := Running]);
    trace := Executed(trace, 0, s5);
    var s6 := Moved(s5, 0, Failing).(infos := s5.infos[task := Error]);
    trace := Executed(trace, 0, s6);
    var s7 := Moved(s6, 0, Settled).(failed := 1);
    trace := Executed(trace, 0, s7);
    var s8 := Moved(s7, 0, Done).(acks := [0]);
    trace := Executed(trace, 0, s8);
    assert s8.infos == map[task := Error];
  }

  lemma StartedRun(task: string) returns (trace: seq<Worker>)
    ensures Run(trace)
    ensures trace[|trace| - 1] == Worker(map[task := Pending], 1, 0, 0, [Some(task)], 1, Ready, [Exec(0, task, Spawned)], [])
  {
    var s0 := Worker(map[], 0, 0, 0, [], 0, Ready, [], []);
    var s1 := s0.(deliveries := s0.deliveries + [Some(task)]);
    RunSnoc([s0], s1);
    trace := TakesIn([s0] + [s1], task);
  }

  lemma Executed(trace: seq<Worker>, i: nat, s: Worker) returns (longer: seq<Worker>)
    requires Run(trace) && i < |trace[|trace| - 1].execs| && ExecStep(trace[|trace| - 1], i, s)
    ensures Run(longer) && longer == trace + [s]
  {
    RunSnoc(trace, s);
    longer := trace + [s];
  }
}
