/**
 internal/worker/factory.go, `DefaultWorker`: its fields and its operations as methods, each run without interruption.
 What the broker and the pool return are parameters, and `decode` stands for the protocol's DecodeTask.  Every change
 is also a run of the interleaved model in `TaskLedger`, kept in the ghost field `trace`.
 */
module TaskWorker {
  import opened Basics
  import opened JsonModel
  import FifoQueues
  import opened CeleryCodec
  import opened TaskLedger

  type Message = FifoQueues.Message

  datatype TaskInfo = TaskInfo(id: string, name: string, state: TaskState, args: Option<seq<Json>>, kwargs: Option<map<string, Json>>,
                               queue: string, groupId: string, retries: int, result: Json, error: string, traceback: string)

  /** One goroutine running executeTask. */
  datatype Job = Job(payload: TaskPayload, message: Message)

  /** What a lookup of an unknown task id gives. */
  const NO_INFO := TaskInfo("", "", Pending, None, None, "", "", 0, Null, "", "")

  function Known(infos: map<string, TaskInfo>, id: string): TaskInfo {
    if id in infos then infos[id] else NO_INFO
  }

  function NewInfo(job: Job): TaskInfo {
    var p := job.payload;
    TaskInfo(p.taskId, p.taskName, Pending, p.args, p.kwargs, p.queue, job.message.groupId, p.retries, Null, "", "")
  }

  // ----- one batch

  function TaskIdOf(decode: string -> Option<TaskPayload>, m: Message): Option<string> {
    match decode(m.body)
    case Some(p) => Some(p.taskId)
    case None => None
  }

  function TaskIdsOf(decode: string -> Option<TaskPayload>, batch: seq<Message>): (tasks: seq<Option<string>>)
    ensures |tasks| == |batch|
    ensures forall i :: 0 <= i < |batch| ==> tasks[i] == TaskIdOf(decode, batch[i])
  {
    seq(|batch|, i requires 0 <= i < |batch| => TaskIdOf(decode, batch[i]))
  }

  /** The decodable messages of a batch, in the order received. */
  function Jobs(decode: string -> Option<TaskPayload>, batch: seq<Message>): (jobs: seq<Job>)
    ensures |jobs| <= |batch|
  {
    if batch == [] then []
    else
      var m := batch[|batch| - 1];
      Jobs(decode, batch[..|batch| - 1]) + if decode(m.body).Some? then [Job(decode(m.body).value, m)] else []
  }

  function DecodableAt(decode: string -> Option<TaskPayload>, batch: seq<Message>): (at: seq<nat>)
    ensures forall j :: 0 <= j < |at| ==> at[j] < |batch|
    ensures forall j, k :: 0 <= j < k < |at| ==> at[j] < at[k]
  {
    if batch == [] then []
    else
      var last := |batch| - 1;
      DecodableAt(decode, batch[..last]) + if decode(batch[last].body).Some? then [last] else []
  }

  lemma {:induction false} DecodableAtExact(decode: string -> Option<TaskPayload>, batch: seq<Message>, i: nat)
    requires i < |batch|
    ensures i in DecodableAt(decode, batch) <==> decode(batch[i].body).Some?
  {
    var last := |batch| - 1;
    if i < last {
      DecodableAtExact(decode, batch[..last], i);
    } else {
      var at := DecodableAt(decode, batch[..last]);
      assert i !in at;
    }
  }

  /** The jobs are the decodable messages and no others, each with its own payload, in the order received. */
  lemma {:induction false} JobsAreDecodable(decode: string -> Option<TaskPayload>, batch: seq<Message>, j: nat)
    requires j < |Jobs(decode, batch)|
    ensures var at := DecodableAt(decode, batch);
            && |Jobs(decode, batch)| == |at|
            && Jobs(decode, batch)[j].message == batch[at[j]]
            && Some(Jobs(decode, batch)[j].payload) == decode(batch[at[j]].body)
  {
    var last := |batch| - 1;
    JobsCounted(decode, batch[..last]);
    if j < |Jobs(decode, batch[..last])| {
      JobsAreDecodable(decode, batch[..last], j);
    }
  }

  lemma {:induction false} JobsCounted(decode: string -> Option<TaskPayload>, batch: seq<Message>)
    ensures |Jobs(decode, batch)| == |DecodableAt(decode, batch)|
  {
    if batch != [] {
      JobsCounted(decode, batch[..|batch| - 1]);
    }
  }

  /** What storing the jobs one by one leaves in the task map. */
  function WithPending(infos: map<string, TaskInfo>, jobs: seq<Job>): map<string, TaskInfo> {
    if jobs == [] then infos
    else
      var job := jobs[|jobs| - 1];
      WithPending(infos, jobs[..|jobs| - 1])[job.payload.taskId := NewInfo(job)]
  }

  /** The entry of a task id is the fresh one of the last job with that id ... */
  lemma {:induction false} PendingIsLast(infos: map<string, TaskInfo>, jobs: seq<Job>, j: nat)
    requires j < |jobs|
    requires forall k :: j < k < |jobs| ==> jobs[k].payload.taskId != jobs[j].payload.taskId
    ensures var p, after := jobs[j].payload, WithPending(infos, jobs);
            && p.taskId in after
            && after[p.taskId].id == p.taskId && after[p.taskId].name == p.taskName
            && after[p.taskId].args == p.args && after[p.taskId].kwargs == p.kwargs
            && after[p.taskId].queue == p.queue && after[p.taskId].groupId == jobs[j].message.groupId
            && after[p.taskId].retries == p.retries && after[p.taskId].state == Pending
            && after[p.taskId].result == Null && after[p.taskId].error == "" && after[p.taskId].traceback == ""
  {
    var last := |jobs| - 1;
    if j < last {
      assert jobs[last].payload.taskId != jobs[j].payload.taskId;
      PendingIsLast(infos, jobs[..last], j);
    }
  }

  /** ... and untouched when there is none. */
  lemma {:induction false} PendingElsewhere(infos: map<string, TaskInfo>, jobs: seq<Job>, id: string)
    requires forall j :: 0 <= j < |jobs| ==> jobs[j].payload.taskId != id
    ensures id in WithPending(infos, jobs) <==> id in infos
    ensures id in infos ==> WithPending(infos, jobs)[id] == infos[id]
  {
    if jobs != [] {
      PendingElsewhere(infos, jobs[..|jobs| - 1], id);
    }
  }

  /** What taking in a batch does to the task map, the counter and the list of jobs. */
  ghost predicate TakenIn(decode: string -> Option<TaskPayload>, batch: seq<Message>, infos: map<string, TaskInfo>, received: nat,
                          jobs: seq<Job>, infos': map<string, TaskInfo>, received': nat, jobs': seq<Job>)
  {
    var added := Jobs(decode, batch);
    infos' == WithPending(infos, added) && received' == received + |added| && jobs' == jobs + added
  }

  lemma TakenNone(decode: string -> Option<TaskPayload>, batch: seq<Message>, infos: map<string, TaskInfo>, received: nat, jobs: seq<Job>)
    ensures TakenIn(decode, batch[..0], infos, received, jobs, infos, received, jobs)
  {
    assert jobs + [] == jobs;
  }

  lemma TakenOneMore(decode: string -> Option<TaskPayload>, batch: seq<Message>, m: Message, infos: map<string, TaskInfo>, received: nat,
                     jobs: seq<Job>, infos': map<string, TaskInfo>, received': nat, jobs': seq<Job>)
    requires TakenIn(decode, batch, infos, received, jobs, infos', received', jobs')
    ensures decode(m.body).None? ==> TakenIn(decode, batch + [m], infos, received, jobs, infos', received', jobs')
    ensures decode(m.body).Some? ==>
              var job := Job(decode(m.body).value, m);
              TakenIn(decode, batch + [m], infos, received, jobs,
                      infos'[job.payload.taskId := NewInfo(job)], received' + 1, jobs' + [job])
  {
    assert (batch + [m])[..|batch|] == batch;
    var added := Jobs(decode, batch);
    if decode(m.body).Some? {
      var job := Job(decode(m.body).value, m);
      assert Jobs(decode, batch + [m]) == added + [job];
      assert (added + [job])[..|added|] == added;
      assert jobs + (added + [job]) == jobs' + [job];
    } else {
      assert Jobs(decode, batch + [m]) == added;
    }
  }

  // ----- one execution

  /** Its last word: the pool's error, or the result, whose status alone decides the state. */
  function Finished(info: TaskInfo, outcome: Result<ResultPayload, string>): TaskInfo {
    match outcome
    case Err(e) => info.(state := Error, error := e)
    case Ok(r) =>
      if r.status == "success" then info.(state := Success, result := r.result)
      else info.(state := Error, result := r.result, error := r.error, traceback := r.traceback)
  }

  /** The running state in between leaves no trace. */
  lemma FinishedAnyway(infos: map<string, TaskInfo>, id: string, outcome: Result<ResultPayload, string>)
    ensures var running := infos[id := Known(infos, id).(state := Running)];
            running[id := Finished(Known(running, id), outcome)] == infos[id := Finished(Known(infos, id), outcome)]
  {
  }

  predicate Succeeds(outcome: Result<ResultPayload, string>) {
    outcome.Ok? && outcome.value.status == "success"
  }

  /** The task map and the states the interleaved model keeps say the same. */
  ghost predicate Mirrors(infos: map<string, TaskInfo>, states: map<string, TaskState>) {
    && (forall id :: id in infos <==> id in states)
    && (forall id :: id in infos ==> infos[id].state == states[id])
  }

  /** The loop has exactly these messages before it. */
  ghost predicate Delivers(s: Worker, decode: string -> Option<TaskPayload>, messages: seq<Message>) {
    s.next <= |s.deliveries| && s.deliveries[s.next..] == TaskIdsOf(decode, messages)
  }

  lemma DeliversAll(s: Worker, decode: string -> Option<TaskPayload>, messages: seq<Message>)
    requires Delivers(s, decode, messages)
    ensures s.next + |messages| == |s.deliveries|
  {
    assert |s.deliveries[s.next..]| == |messages|;
  }

  lemma DeliversAt(s: Worker, decode: string -> Option<TaskPayload>, messages: seq<Message>, i: nat)
    requires Delivers(s, decode, messages) && i < |messages|
    ensures s.next + i < |s.deliveries| && s.deliveries[s.next + i] == TaskIdOf(decode, messages[i])
  {
  }

  class DefaultWorker {
    const decode: string -> Option<TaskPayload>
    var infos: map<string, TaskInfo>
    var received: nat
    var succeeded: nat
    var failed: nat
    var jobs: seq<Job>
    var acked: seq<Message>
    ghost var trace: seq<Worker>

    ghost function View(): Worker
      requires |trace| > 0
      reads this`trace
    {
      trace[|trace| - 1]
    }

    /** The fields show the last state of a run. */
    ghost predicate Shows()
      reads this
    {
      && Run(trace)
      && View().received == received && View().succeeded == succeeded && View().failed == failed
      && Mirrors(infos, View().infos)
      && |View().execs| == |jobs|
      && (forall i :: 0 <= i < |jobs| ==> View().execs[i].task == jobs[i].payload.taskId)
      && |View().acks| == |acked|
      && View().stage == Ready
    }

    ghost predicate Valid()
      reads this
    {
      Shows() && View().next == |View().deliveries|
    }

    /** Grown by `steps`, the run stays a run. */
    ghost method Record(s: Worker)
      requires Run(trace) && Next(View(), s)
      modifies this`trace
      ensures Run(trace) && trace == old(trace) + [s] && View() == s
    {
      RunSnoc(trace, s);
      trace := trace + [s];
    }

    ghost method RecordExec(i: nat, s: Worker)
      requires Run(trace) && i < |View().execs| && ExecStep(View(), i, s)
      modifies this`trace
      ensures Run(trace) && trace == old(trace) + [s] && View() == s
    {
      Record(s);
    }

    constructor (decode: string -> Option<TaskPayload>)
      ensures Valid() && this.decode == decode
      ensures infos == map[] && received == 0 && succeeded == 0 && failed == 0 && jobs == [] && acked == []
      ensures View().deliveries == []
    {
      this.decode := decode;
      infos, received, succeeded, failed, jobs, acked := map[], 0, 0, 0, [], [];
      trace := [Worker(map[], 0, 0, 0, [], 0, Ready, [], [])];
    }

    /** processTasks; a failed receive changes nothing, an undecodable message is skipped and not acknowledged. */
    method ProcessTasks(reply: Result<seq<Message>, ()>) returns (ok: bool)
      requires Valid()
      modifies this
      ensures Valid() && old(trace) <= trace
      ensures ok == reply.Ok?
      ensures succeeded == old(succeeded) && failed == old(failed) && acked == old(acked)
      ensures reply.Err? ==> infos == old(infos) && received == old(received) && jobs == old(jobs) && trace == old(trace)
      ensures reply.Ok? ==>
                && TakenIn(decode, reply.value, old(infos), old(received), old(jobs), infos, received, jobs)
                && View().deliveries == old(View().deliveries) + TaskIdsOf(decode, reply.value)
    {
      if reply.Err? {
        return false;
      }
      ghost var s := View();
      Record(s.(deliveries := s.deliveries + TaskIdsOf(decode, reply.value)));
      TakeBatch(reply.value);
      return true;
    }

    /** The loop in processTasks. */
    method TakeBatch(messages: seq<Message>)
      requires Shows() && Delivers(View(), decode, messages)
      modifies this
      ensures Valid() && old(trace) <= trace
      ensures View().deliveries == old(View().deliveries)
      ensures succeeded == old(succeeded) && failed == old(failed) && acked == old(acked)
      ensures TakenIn(decode, messages, old(infos), old(received), old(jobs), infos, received, jobs)
    {
      ghost var s := View();
      TakenNone(decode, messages, infos, received, jobs);
      for i := 0 to |messages|
        invariant Shows() && old(trace) <= trace
        invariant View().deliveries == s.deliveries && View().next == s.next + i
        invariant succeeded == old(succeeded) && failed == old(failed) && acked == old(acked)
        invariant TakenIn(decode, messages[..i], old(infos), old(received), old(jobs), infos, received, jobs)
      {
        DeliversAt(s, decode, messages, i);
        IntakeNext(messages, i, old(infos), old(received), old(jobs));
      }
      assert messages[..|messages|] == messages;
      DeliversAll(s, decode, messages);
    }

    /** One round of that loop. */
    method IntakeNext(messages: seq<Message>, i: nat, ghost infos0: map<string, TaskInfo>, ghost received0: nat, ghost jobs0: seq<Job>)
      requires Shows() && i < |messages|
      requires View().next < |View().deliveries| && View().deliveries[View().next] == TaskIdOf(decode, messages[i])
      requires TakenIn(decode, messages[..i], infos0, received0, jobs0, infos, received, jobs)
      modifies this
      ensures Shows() && old(trace) <= trace
      ensures View().deliveries == old(View().deliveries) && View().next == old(View().next) + 1
      ensures succeeded == old(succeeded) && failed == old(failed) && acked == old(acked)
      ensures TakenIn(decode, messages[..i + 1], infos0, received0, jobs0, infos, received, jobs)
    {
      assert messages[..i] + [messages[i]] == messages[..i + 1];
      TakenOneMore(decode, messages[..i], messages[i], infos0, received0, jobs0, infos, received, jobs);
      Intake(messages[i]);
    }

    /** The body of the loop in processTasks. */
    method Intake(message: Message)
      requires Shows() && View().next < |View().deliveries| && View().deliveries[View().next] == TaskIdOf(decode, message)
      modifies this
      ensures Shows() && old(trace) <= trace
      ensures View().deliveries == old(View().deliveries) && View().next == old(View().next) + 1
      ensures succeeded == old(succeeded) && failed == old(failed) && acked == old(acked)
      ensures decode(message.body).None? ==> infos == old(infos) && received == old(received) && jobs == old(jobs)
      ensures decode(message.body).Some? ==>
                var job := Job(decode(message.body).value, message);
                && infos == old(infos)[job.payload.taskId := NewInfo(job)]
                && received == old(received) + 1
                && jobs == old(jobs) + [job]
    {
      var decoded := decode(message.body);
      ghost var s := View();
      if decoded.None? {
        Record(s.(next := s.next + 1));
        return;
      }
      var job := Job(decoded.value, message);
      var id := job.payload.taskId;
      infos := infos[id := NewInfo(job)];
      Record(s.(infos := s.infos[id := Pending], stage := Stored));
      received := received + 1;
      Record(View().(received := s.received + 1, stage := Counted));
      jobs := jobs + [job];
      Record(View().(execs := s.execs + [Exec(s.next, id, Spawned)], next := s.next + 1, stage := Ready));
    }

    /** executeTask up to the call of the pool. */
    method BeginTask(i: nat)
      requires Valid() && i < |jobs| && View().execs[i].phase == Spawned
      modifies this
      ensures Valid() && old(trace) <= trace
      ensures received == old(received) && succeeded == old(succeeded) && failed == old(failed) && jobs == old(jobs) && acked == old(acked)
      ensures var id := jobs[i].payload.taskId; infos == old(infos)[id := Known(old(infos), id).(state := Running)]
      ensures View().execs[i].phase == Executing && OthersRest(old(View()), i, View())
    {
      var id := jobs[i].payload.taskId;
      var info := Known(infos, id);
      infos := infos[id := info.(state := Running)];
      ghost var s := View();
      RecordExec(i, Moved(s, i, Executing).(infos := s.infos[id := Running]));
    }

    /** executeTask from the pool's answer to the acknowledgement: the task becomes terminal and is counted once. */
    method ConcludeTask(i: nat, outcome: Result<ResultPayload, string>)
      requires Valid() && i < |jobs| && View().execs[i].phase == Executing
      modifies this
      ensures Valid() && old(trace) <= trace
      ensures received == old(received) && jobs == old(jobs) && acked == old(acked)
      ensures succeeded == old(succeeded) + (if Succeeds(outcome) then 1 else 0)
      ensures failed == old(failed) + (if Succeeds(outcome) then 0 else 1)
      ensures var id := jobs[i].payload.taskId; infos == old(infos)[id := Finished(Known(old(infos), id), outcome)]
      ensures infos.Keys == old(infos).Keys
      ensures forall other :: other in infos && other != jobs[i].payload.taskId ==> infos[other] == old(infos)[other]
      ensures jobs[i].payload.taskId in old(infos)
      ensures outcome.Ok? && outcome.value.status == "success" ==>
                && succeeded == old(succeeded) + 1 && failed == old(failed)
                && var id, r := jobs[i].payload.taskId, outcome.value;
                   infos[id] == old(infos)[id].(state := Success, result := r.result)
      ensures outcome.Ok? && outcome.value.status != "success" ==>
                && succeeded == old(succeeded) && failed == old(failed) + 1
                && var id, r := jobs[i].payload.taskId, outcome.value;
                   infos[id] == old(infos)[id].(state := Error, result := r.result, error := r.error, traceback := r.traceback)
      ensures outcome.Err? ==>
                && succeeded == old(succeeded) && failed == old(failed) + 1
                && var id := jobs[i].payload.taskId;
                   infos[id] == old(infos)[id].(state := Error, error := outcome.error)
      ensures View().execs[i].phase == Settled && OthersRest(old(View()), i, View())
    {
      JobIsListed(this, i);
      match outcome {
        case Err(error) => FailTask(i, error);
        case Ok(result) => SettleTask(i, result);
      }
    }

    /** The branch of executeTask for an error from the pool: the state is stored before the failure is counted. */
    method FailTask(i: nat, error: string)
      requires Valid() && i < |jobs| && View().execs[i].phase == Executing
      modifies this`infos, this`failed, this`trace
      ensures Valid() && old(trace) <= trace
      ensures failed == old(failed) + 1
      ensures var id := jobs[i].payload.taskId; infos == old(infos)[id := Finished(Known(old(infos), id), Err(error))]
      ensures View().execs[i].phase == Settled && OthersRest(old(View()), i, View())
    {
      var id := jobs[i].payload.taskId;
      ghost var s := View();
      infos := infos[id := Known(infos, id).(state := Error, error := error)];
      RecordExec(i, Moved(s, i, Failing).(infos := s.infos[id := Error]));
      failed := failed + 1;
      RecordExec(i, Moved(View(), i, Settled).(failed := s.failed + 1));
    }

    /** The branch of executeTask for a result, within one locked region. */
    method SettleTask(i: nat, result: ResultPayload)
      requires Valid() && i < |jobs| && View().execs[i].phase == Executing
      modifies this`infos, this`succeeded, this`failed, this`trace
      ensures Valid() && old(trace) <= trace
      ensures succeeded == old(succeeded) + (if Succeeds(Ok(result)) then 1 else 0)
      ensures failed == old(failed) + (if Succeeds(Ok(result)) then 0 else 1)
      ensures var id := jobs[i].payload.taskId; infos == old(infos)[id := Finished(Known(old(infos), id), Ok(result))]
      ensures View().execs[i].phase == Settled && OthersRest(old(View()), i, View())
    {
      var id := jobs[i].payload.taskId;
      ghost var s := View();
      var info := Known(infos, id).(result := result.result);
      if result.status == "success" {
        info := info.(state := Success);
        succeeded := succeeded + 1;
        RecordExec(i, Moved(s, i, Settled).(infos := s.infos[id := Success], succeeded := s.succeeded + 1));
      } else {
        info := info.(state := Error, error := result.error, traceback := result.traceback);
        failed := failed + 1;
        RecordExec(i, Moved(s, i, Settled).(infos := s.infos[id := Error], failed := s.failed + 1));
      }
      infos := infos[id := info];
    }

    /** The acknowledgement at the end of executeTask, whatever the outcome was. */
    method AcknowledgeTask(i: nat)
      requires Valid() && i < |jobs| && View().execs[i].phase == Settled
      modifies this`acked, this`trace
      ensures Valid() && old(trace) <= trace
      ensures acked == old(acked) + [jobs[i].message]
      ensures View().execs[i].phase == Done && OthersRest(old(View()), i, View())
    {
      ghost var s := View();
      acked := acked + [jobs[i].message];
      RecordExec(i, Moved(s, i, Done).(acks := s.acks + [s.execs[i].delivery]));
    }

    /** executeTask, uninterrupted. */
    method ExecuteTask(i: nat, outcome: Result<ResultPayload, string>)
      requires Valid() && i < |jobs| && View().execs[i].phase == Spawned
      modifies this
      ensures Valid() && old(trace) <= trace
      ensures received == old(received) && jobs == old(jobs) && acked == old(acked) + [jobs[i].message]
      ensures succeeded == old(succeeded) + (if Succeeds(outcome) then 1 else 0)
      ensures failed == old(failed) + (if Succeeds(outcome) then 0 else 1)
      ensures var id := jobs[i].payload.taskId; infos == old(infos)[id := Finished(Known(old(infos), id), outcome)]
      ensures infos.Keys == old(infos).Keys
      ensures forall other :: other in infos && other != jobs[i].payload.taskId ==> infos[other] == old(infos)[other]
      ensures jobs[i].payload.taskId in old(infos)
      ensures outcome.Ok? && outcome.value.status == "success" ==>
                && succeeded == old(succeeded) + 1 && failed == old(failed)
                && var id, r := jobs[i].payload.taskId, outcome.value;
                   infos[id] == old(infos)[id].(state := Success, result := r.result)
      ensures outcome.Ok? && outcome.value.status != "success" ==>
                && succeeded == old(succeeded) && failed == old(failed) + 1
                && var id, r := jobs[i].payload.taskId, outcome.value;
                   infos[id] == old(infos)[id].(state := Error, result := r.result, error := r.error, traceback := r.traceback)
      ensures outcome.Err? ==>
                && succeeded == old(succeeded) && failed == old(failed) + 1
                && var id := jobs[i].payload.taskId;
                   infos[id] == old(infos)[id].(state := Error, error := outcome.error)
      ensures View().execs[i].phase == Done && OthersRest(old(View()), i, View())
    {
      JobIsListed(this, i);
      ghost var infos0, id := infos, jobs[i].payload.taskId;
      BeginTask(i);
      ConcludeTask(i, outcome);
      FinishedAnyway(infos0, id, outcome);
      AcknowledgeTask(i);
    }
  }

  /** A job's task has an entry in the task map, whatever operations led here. */
  lemma JobIsListed(w: DefaultWorker, i: nat)
    requires w.Valid() && i < |w.jobs|
    ensures w.jobs[i].payload.taskId in w.infos
  {
    RunBooks(w.trace, |w.trace| - 1);
  }

  /** Only execution `i` moved. */
  ghost predicate OthersRest(s: Worker, i: nat, s': Worker) {
    && s'.deliveries == s.deliveries && s'.next == s.next && |s'.execs| == |s.execs|
    && forall j :: 0 <= j < |s.execs| && j != i ==> s'.execs[j] == s.execs[j]
  }

  /** On the fields: received = succeeded + failed + jobs not counted yet, whatever operations led here. */
  lemma WorkerBalances(w: DefaultWorker)
    requires w.Valid()
    ensures w.received == w.succeeded + w.failed + Open(w.View().execs)
  {
    RunLedger(w.trace, |w.trace| - 1);
  }
}
