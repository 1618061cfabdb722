/**
 internal/pool/python/process.go: the state and statistics of one Python process, and the scan of its output for the
 result of a task.  The process itself is foreign: whether encoding and writing succeed, the lines it prints (None:
 not JSON), how its output ends, and how many lines are scanned before the deadline fires are all parameters.
 */
module PythonProcess {
  import opened Basics
  import opened JsonModel
  import opened CeleryCodec
  import opened PoolModel

  datatype StreamEnd = Eof | ReadError

  datatype ExecError = EncodeFailed | WriteFailed | StreamFailed | TimedOut

  /** What the reading goroutine reports before the deadline. */
  datatype Scan = Found(result: ResultPayload) | Broke | Nothing

  /** The line is a result message for this task. */
  predicate Matches(validTime: string -> bool, taskId: string, line: Option<Json>) {
    var r := DecodeResult(validTime, line);
    r.Ok? && r.value.taskId == taskId
  }

  /** The scan stops at the first matching line, whatever was printed before it. */
  ghost predicate Scanned(validTime: string -> bool, taskId: string, lines: seq<Option<Json>>, end: StreamEnd, deadline: nat, scan: Scan) {
    match scan
    case Found(result) =>
      exists k :: 0 <= k < |lines| && k < deadline
        && Matches(validTime, taskId, lines[k]) && DecodeResult(validTime, lines[k]) == Ok(result)
        && forall j :: 0 <= j < k ==> !Matches(validTime, taskId, lines[j])
    case Broke =>
      end == ReadError && |lines| < deadline && forall j :: 0 <= j < |lines| ==> !Matches(validTime, taskId, lines[j])
    case Nothing =>
      (end == Eof || deadline <= |lines|) && forall j :: 0 <= j < |lines| && j < deadline ==> !Matches(validTime, taskId, lines[j])
  }

  /** The outcome of a scan is determined, and a found result is always one for the task that was sent. */
  lemma ScannedUnique(validTime: string -> bool, taskId: string, lines: seq<Option<Json>>, end: StreamEnd, deadline: nat, a: Scan, b: Scan)
    requires Scanned(validTime, taskId, lines, end, deadline, a) && Scanned(validTime, taskId, lines, end, deadline, b)
    ensures a == b
    ensures a.Found? ==> a.result.taskId == taskId
  {
  }

  /** No line before line `k` decodes to a result for this task. */
  ghost predicate NoneBefore(validTime: string -> bool, taskId: string, lines: seq<Option<Json>>, k: int) {
    forall j :: 0 <= j < k && j < |lines| && DecodeResult(validTime, lines[j]).Ok? ==> DecodeResult(validTime, lines[j]).value.taskId != taskId
  }

  /** What ends a scan, in terms of decoding alone: the first result for this task whatever it says, else a read error, else the deadline. */
  lemma ScannedExact(validTime: string -> bool, taskId: string, lines: seq<Option<Json>>, end: StreamEnd, deadline: nat, scan: Scan)
    ensures Scanned(validTime, taskId, lines, end, deadline, scan) <==>
              match scan
              case Found(result) =>
                result.taskId == taskId
                && exists k :: 0 <= k < |lines| && k < deadline
                     && DecodeResult(validTime, lines[k]) == Ok(result) && NoneBefore(validTime, taskId, lines, k)
              case Broke => end == ReadError && |lines| < deadline && NoneBefore(validTime, taskId, lines, |lines|)
              case Nothing => (end == Eof || deadline <= |lines|) && NoneBefore(validTime, taskId, lines, deadline)
  {
  }

  /** Every result a process prints for this task before the deadline is found, whatever its status, unless another one for it came first. */
  lemma PrintedIsFound(validTime: string -> bool, taskId: string, lines: seq<Option<Json>>, end: StreamEnd, deadline: nat, scan: Scan,
                       k: nat, result: ResultPayload, freshId: string, now: string)
    requires Scanned(validTime, taskId, lines, end, deadline, scan)
    requires k < |lines| && k < deadline && lines[k] == Some(EncodeResult(result, freshId, now))
    requires result.taskId == taskId && validTime(now) && IsInt64(result.memoryUsed)
    requires forall j :: 0 <= j < k && DecodeResult(validTime, lines[j]).Ok? ==> DecodeResult(validTime, lines[j]).value.taskId != taskId
    ensures scan == Found(result)
  {
    ResultRoundTrip(validTime, result, freshId, now);
    assert Matches(validTime, taskId, lines[k]);
  }

  function ReplyOf(out: Result<ResultPayload, ExecError>): Reply {
    match out
    case Ok(result) => Answered(result.taskId)
    case Err(_) => Fault
  }

  class Process {
    const id: nat
    var stats: Stats
    var currentTask: string

    /** NewPythonProcess */
    constructor (id: nat, now: int)
      ensures this.id == id && stats == FreshStats(now).(state := Starting) && currentTask == ""
    {
      this.id := id;
      stats := Stats(Starting, now, 0, None);
      currentTask := "";
    }

    method Start(ok: bool)
      modifies this`stats
      ensures stats == if ok then old(stats).(state := Idle) else old(stats)
    {
      if ok {
        stats := stats.(state := Idle);
      }
    }

    method Stop()
      modifies this`stats
      ensures stats == old(stats).(state := Stopped)
    {
      stats := stats.(state := Stopped);
    }

    static method ScanOutput(validTime: string -> bool, taskId: string, lines: seq<Option<Json>>, end: StreamEnd, deadline: nat)
      returns (scan: Scan)
      ensures Scanned(validTime, taskId, lines, end, deadline, scan)
      ensures scan.Found? <==>
                exists k :: 0 <= k < |lines| && k < deadline
                  && DecodeResult(validTime, lines[k]).Ok? && DecodeResult(validTime, lines[k]).value.taskId == taskId
      ensures scan.Found? ==>
                exists k :: 0 <= k < |lines| && k < deadline && DecodeResult(validTime, lines[k]) == Ok(scan.result)
                  && forall j :: 0 <= j < k && DecodeResult(validTime, lines[j]).Ok? ==> DecodeResult(validTime, lines[j]).value.taskId != taskId
      ensures scan.Broke? ==> end == ReadError && |lines| < deadline
      ensures scan.Nothing? ==> end == Eof || deadline <= |lines|
    {
      var i := 0;
      while i < |lines| && i < deadline
        invariant 0 <= i <= |lines| && i <= deadline
        invariant forall j :: 0 <= j < i ==> !Matches(validTime, taskId, lines[j])
      {
        var result := DecodeResult(validTime, lines[i]);
        if result.Ok? && result.value.taskId == taskId {
          return Found(result.value);
        }
        i := i + 1;
      }
      if i < deadline && end == ReadError {
        return Broke;
      }
      return Nothing;
    }

    /**
     ExecuteTask.  However it ends, the statistics change in one of the ways the pool reckons with, and a result is
     the first one printed for this very task.
     */
    method ExecuteTask(validTime: string -> bool, taskId: string, encoded: bool, written: bool,
                       lines: seq<Option<Json>>, end: StreamEnd, deadline: nat, now: int)
      returns (out: Result<ResultPayload, ExecError>)
      modifies this
      ensures Executed(taskId, old(stats).(state := Busy), stats, ReplyOf(out))
      ensures out.Ok? ==> encoded && written && Scanned(validTime, taskId, lines, end, deadline, Found(out.value))
      ensures out.Ok? ==> stats == old(stats).(state := Idle, tasks := old(stats).tasks + 1, lastTask := Some(now)) && currentTask == ""
      ensures out.Err? && encoded && written ==>
                stats == old(stats).(state := Failed) && currentTask == ""
                && Scanned(validTime, taskId, lines, end, deadline, if out.error == StreamFailed then Broke else Nothing)
      ensures encoded && written ==>
                (out.Ok? <==> exists k :: 0 <= k < |lines| && k < deadline
                                && DecodeResult(validTime, lines[k]).Ok? && DecodeResult(validTime, lines[k]).value.taskId == taskId)
      ensures encoded && written ==>
                forall k, r, freshId, printedAt ::
                  && 0 <= k < |lines| && k < deadline && lines[k] == Some(EncodeResult(r, freshId, printedAt))
                  && r.taskId == taskId && validTime(printedAt) && IsInt64(r.memoryUsed)
                  && (forall j :: 0 <= j < k && DecodeResult(validTime, lines[j]).Ok? ==> DecodeResult(validTime, lines[j]).value.taskId != taskId)
                  ==> out == Ok(r) && stats.state == Idle
      ensures !encoded || !written ==> stats == old(stats).(state := Busy) && currentTask == taskId
      ensures out == Err(EncodeFailed) <==> !encoded
      ensures out == Err(WriteFailed) <==> encoded && !written
    {
      stats := stats.(state := Busy);
      currentTask := taskId;
      if !encoded {
        return Err(EncodeFailed);
      }
      if !written {
        return Err(WriteFailed);
      }
      var scan := ScanOutput(validTime, taskId, lines, end, deadline);
      forall k, r, freshId, printedAt |
        && 0 <= k < |lines| && k < deadline && lines[k] == Some(EncodeResult(r, freshId, printedAt))
        && r.taskId == taskId && validTime(printedAt) && IsInt64(r.memoryUsed)
        && (forall j :: 0 <= j < k && DecodeResult(validTime, lines[j]).Ok? ==> DecodeResult(validTime, lines[j]).value.taskId != taskId)
        ensures scan == Found(r)
      {
        PrintedIsFound(validTime, taskId, lines, end, deadline, scan, k, r, freshId, printedAt);
      }
      match scan {
        case Found(result) =>
          stats := stats.(state := Idle, tasks := stats.tasks + 1, lastTask := Some(now));
          out := Ok(result);
        case Broke =>
          stats := stats.(state := Failed);
          out := Err(StreamFailed);
        case Nothing =>
          stats := stats.(state := Failed);
          out := Err(TimedOut);
      }
      currentTask := "";
    }
  }
}
