/**
 What DecodeTask makes of an arbitrary JSON object, field by field: which objects it takes for Celery messages, what it
 reads from their headers, properties and body, and which of them it refuses.
 */
module CeleryFields {
  import opened Basics
  import opened JsonModel
  import opened CeleryCodec
  import opened Numerals

  // ----- looking into a JSON object

  ghost predicate NullOr(m: map<string, Json>, key: string, fits: Json -> bool) {
    key in m ==> m[key] == Null || fits(m[key])
  }

  /** The text under a key, empty when there is none. */
  function TextAt(m: map<string, Json>, key: string): string {
    if key in m && m[key].Str? then m[key].s else ""
  }

  /** The fields of the object under a key, none when there is no object. */
  function FieldsAt(m: map<string, Json>, key: string): map<string, Json> {
    if key in m && m[key].Obj? then m[key].fields else map[]
  }

  ghost predicate HasText(m: map<string, Json>, key: string) {
    key in m && m[key].Str?
  }

  // ----- what is taken for a Celery message

  /** A JSON object is a Celery message exactly when its five Celery fields, where present and not null, have their types. */
  lemma CeleryIff(m: map<string, Json>)
    ensures ParseCelery(Some(Obj(m))).Some? <==>
              && NullOr(m, "body", (j: Json) => j.Str?) && NullOr(m, "content-encoding", (j: Json) => j.Str?)
              && NullOr(m, "content-type", (j: Json) => j.Str?)
              && NullOr(m, "headers", (j: Json) => j.Obj?) && NullOr(m, "properties", (j: Json) => j.Obj?)
  {
  }

  /** Its headers and properties are looked up in the object itself; only numbers change, to float64. */
  lemma ParsedGet(m: map<string, Json>, key: string)
    requires ParseCelery(Some(Obj(m))).Some?
    ensures var msg := ParseCelery(Some(Obj(m))).value;
            && msg.body == TextAt(m, "body")
            && Get(msg.headers, key) == (if key in FieldsAt(m, "headers") then Some(FromJson(FieldsAt(m, "headers")[key])) else None)
            && Get(msg.properties, key) == (if key in FieldsAt(m, "properties") then Some(FromJson(FieldsAt(m, "properties")[key])) else None)
  {
  }

  /** When a Celery message is refused, and why; a missing name is noticed before a missing id, and both before the body. */
  lemma CeleryRefused(w: Wire, validTime: string -> bool, m: map<string, Json>)
    requires ParseCelery(Some(Obj(m))).Some?
    ensures var out, headers, body := DecodeTask(w, validTime, Some(Obj(m))), FieldsAt(m, "headers"), w.decode(TextAt(m, "body"));
            && (out == Err(NoTaskName) <==> !HasText(headers, "task"))
            && (out == Err(NoTaskId) <==> HasText(headers, "task") && !HasText(headers, "id"))
            && (HasText(headers, "task") && HasText(headers, "id") ==>
                  match body
                  case Err(e) => out == Err(BadBody(e))
                  case Ok(Null) => out == Err(BodyTooShort)
                  case Ok(Arr(items)) => (|items| < 2 ==> out == Err(BodyTooShort)) && (|items| >= 2 ==> out.Ok?)
                  case Ok(_) => out == Err(BodyNotArray))
  {
    ParsedGet(m, "task");
    ParsedGet(m, "id");
  }

  /** An accepted Celery message. */
  ghost predicate Accepted(w: Wire, validTime: string -> bool, m: map<string, Json>) {
    ParseCelery(Some(Obj(m))).Some? && DecodeTask(w, validTime, Some(Obj(m))).Ok?
  }

  // ----- what is taken from it

  /** The name and the id are headers; args and kwargs are the first two items of the body, empty when they have the wrong type. */
  lemma TakenFields(w: Wire, validTime: string -> bool, m: map<string, Json>)
    requires Accepted(w, validTime, m)
    ensures var p, headers, body := DecodeTask(w, validTime, Some(Obj(m))).value, FieldsAt(m, "headers"), w.decode(TextAt(m, "body"));
            && headers["task"] == Str(p.taskName) && headers["id"] == Str(p.taskId)
            && body.Ok? && body.value.Arr? && |body.value.items| >= 2
            && var args, kwargs := body.value.items[0], body.value.items[1];
               && p.args == Some(if args.Arr? then args.items else [])
               && p.kwargs == Some(if kwargs.Obj? then kwargs.fields else map[])
  {
    ParsedGet(m, "task");
    ParsedGet(m, "id");
    CeleryRefused(w, validTime, m);
  }

  /** The queue is the routing key of the delivery info, empty when either is missing or has the wrong type. */
  lemma TakenQueue(w: Wire, validTime: string -> bool, m: map<string, Json>)
    requires Accepted(w, validTime, m)
    ensures var queue, info := DecodeTask(w, validTime, Some(Obj(m))).value.queue, FieldsAt(FieldsAt(m, "properties"), "delivery_info");
            && ("routing_key" in info && info["routing_key"].Str? ==> info["routing_key"] == Str(queue))
            && ("routing_key" !in info || !info["routing_key"].Str? ==> queue == "")
  {
    ParsedGet(m, "delivery_info");
  }

  /**
   The retry count: a number is truncated toward zero, a string counts when it is the numeral of a 64-bit integer, and
   everything else is zero.
   */
  lemma RetryCount(w: Wire, msg: CeleryMessage)
    requires Extract(w, msg).Ok?
    ensures var headers, n := msg.headers.value, Extract(w, msg).value.retries;
            if "retries" !in headers then n == 0
            else match headers["retries"]
              case Int(k) => n == k
              case Js(Num(x)) =>
                && (0.0 <= x < 9223372036854775808.0 ==> n as real <= x < n as real + 1.0)
                && (-9223372036854775809.0 < x <= 0.0 ==> n as real - 1.0 < x <= n as real)
              case Js(Str(s)) =>
                && (forall k :: Denotes(s, k) && -9223372036854775808 <= k <= 9223372036854775807 ==> n == k)
                && ((forall k :: Denotes(s, k) ==> k < -9223372036854775808 || k > 9223372036854775807) ==> n == 0)
              case Js(_) => n == 0
  {
    if "retries" in msg.headers.value && msg.headers.value["retries"].Js? {
      var j := msg.headers.value["retries"].json;
      if j.Str? {
        RetryText(j.s);
      } else if j.Num? {
        Truncates(j.value);
      }
    }
  }

  lemma RetryText(s: string)
    ensures var n := RetriesOf(Some(Js(Str(s))));
            && (forall k :: Denotes(s, k) && -9223372036854775808 <= k <= 9223372036854775807 ==> n == k)
            && ((forall k :: Denotes(s, k) ==> k < -9223372036854775808 || k > 9223372036854775807) ==> n == 0)
  {
    forall k | Denotes(s, k) && -9223372036854775808 <= k <= 9223372036854775807 ensures Atoi(s) == Some(k) {
      AtoiIff(s, k);
    }
    if Atoi(s).Some? {
      AtoiIff(s, Atoi(s).value);
    }
  }

  lemma Truncates(x: real)
    ensures 0.0 <= x < 9223372036854775808.0 ==> ToInt(x) as real <= x < ToInt(x) as real + 1.0
    ensures -9223372036854775809.0 < x <= 0.0 ==> ToInt(x) as real - 1.0 < x <= ToInt(x) as real
  {
  }

  lemma PrintedIsRead(s: string, n: int)
    requires -9223372036854775808 <= n <= 9223372036854775807 && (s == Text(n) || (n >= 0 && s == "+" + Text(n)))
    ensures RetriesOf(Some(Js(Str(s)))) == n
  {
    TextDenotes(n);
    AtoiIff(s, n);
  }

  /** Every 64-bit integer printed in decimal arrives as itself, also with a plus sign in front when it has no other. */
  lemma PrintedRetries(w: Wire, validTime: string -> bool, m: map<string, Json>, s: string, n: int)
    requires Accepted(w, validTime, m) && "retries" in FieldsAt(m, "headers") && FieldsAt(m, "headers")["retries"] == Str(s)
    requires -9223372036854775808 <= n <= 9223372036854775807 && (s == Text(n) || (n >= 0 && s == "+" + Text(n)))
    ensures DecodeTask(w, validTime, Some(Obj(m))).value.retries == n
  {
    ParsedGet(m, "retries");
    PrintedIsRead(s, n);
  }

  /** What is in the JSON header: integers up to 2^53 arrive as they are, other text and values as `RetryCount` says. */
  lemma TakenRetries(w: Wire, validTime: string -> bool, m: map<string, Json>)
    requires Accepted(w, validTime, m)
    ensures var headers, n := FieldsAt(m, "headers"), DecodeTask(w, validTime, Some(Obj(m))).value.retries;
            if "retries" !in headers then n == 0
            else match headers["retries"]
              case Num(x) =>
                && (x.Floor as real == x && -9007199254740992.0 <= x <= 9007199254740992.0 ==> n as real == x)
                && (x.Floor as real != x && 0.0 <= x < 9223372036854775808.0 ==> n as real < x < n as real + 1.0)
                && (x.Floor as real != x && -9223372036854775809.0 < x <= 0.0 ==> n as real - 1.0 < x < n as real)
              case Str(s) =>
                && (forall k :: Denotes(s, k) && -9223372036854775808 <= k <= 9223372036854775807 ==> n == k)
                && ((forall k :: Denotes(s, k) ==> k < -9223372036854775808 || k > 9223372036854775807) ==> n == 0)
              case _ => n == 0
  {
    ParsedGet(m, "retries");
    if "retries" in FieldsAt(m, "headers") {
      match FieldsAt(m, "headers")["retries"] {
        case Num(x) =>
          Truncates(x);
          if x.Floor as real == x && -9007199254740992.0 <= x <= 9007199254740992.0 {
            SmallThroughText(x.Floor);
          }
        case Str(s) => RetryText(s);
        case _ =>
      }
    }
  }

  lemma SmallThroughText(n: int)
    requires -9007199254740992 <= n <= 9007199254740992
    ensures ToInt(ToDouble(n) as real) == n
  {
    SmallIsExact(n);
    ToDoubleExact(n);
    ToIntOfInt(n);
  }

  // ----- the internal messages

  /** An object that is no Celery message is accepted exactly as a task message with fields of the right types, and gives these. */
  lemma InternalFields(w: Wire, validTime: string -> bool, m: map<string, Json>)
    requires ParseCelery(Some(Obj(m))).None?
    ensures var out := DecodeTask(w, validTime, Some(Obj(m)));
            && (out.Ok? <==>
                  && "type" in m && m["type"] == Str("task") && NullOr(m, "id", (j: Json) => j.Str?)
                  && NullOr(m, "timestamp", (j: Json) => j.Str? && validTime(j.s))
                  && NullOr(m, "task_name", (j: Json) => j.Str?) && NullOr(m, "task_id", (j: Json) => j.Str?)
                  && NullOr(m, "args", (j: Json) => j.Arr?) && NullOr(m, "kwargs", (j: Json) => j.Obj?)
                  && NullOr(m, "retries", Integral) && NullOr(m, "queue", (j: Json) => j.Str?))
            && (out.Ok? ==>
                  && out.value.taskName == TextAt(m, "task_name") && out.value.taskId == TextAt(m, "task_id")
                  && out.value.args == (if "args" in m && m["args"].Arr? then Some(m["args"].items) else None)
                  && out.value.kwargs == (if "kwargs" in m && m["kwargs"].Obj? then Some(m["kwargs"].fields) else None)
                  && out.value.retries as real == (if "retries" in m && m["retries"].Num? then m["retries"].value else 0.0)
                  && out.value.queue == TextAt(m, "queue"))
            && (out == Err(Unparsable) <==> !NullOr(m, "type", (j: Json) => j.Str?))
            && (out == Err(NotATask) <==> NullOr(m, "type", (j: Json) => j.Str?) && TextAt(m, "type") != "task")
  {
  }

  predicate Integral(j: Json) {
    j.Num? && j.value.Floor as real == j.value && -9223372036854775808.0 <= j.value <= 9223372036854775807.0
  }

  /** The same for a line printed by a process. */
  lemma ResultFields(validTime: string -> bool, m: map<string, Json>)
    ensures var out := DecodeResult(validTime, Some(Obj(m)));
            && (out.Ok? <==>
                  && "type" in m && m["type"] == Str("result") && NullOr(m, "id", (j: Json) => j.Str?)
                  && NullOr(m, "timestamp", (j: Json) => j.Str? && validTime(j.s))
                  && NullOr(m, "task_id", (j: Json) => j.Str?) && NullOr(m, "status", (j: Json) => j.Str?)
                  && NullOr(m, "error", (j: Json) => j.Str?) && NullOr(m, "traceback", (j: Json) => j.Str?)
                  && NullOr(m, "runtime_seconds", (j: Json) => j.Num?) && NullOr(m, "memory_used", Integral))
            && (out.Ok? ==>
                  && out.value.taskId == TextAt(m, "task_id") && out.value.status == TextAt(m, "status")
                  && out.value.result == (if "result" in m then m["result"] else Null)
                  && out.value.error == TextAt(m, "error") && out.value.traceback == TextAt(m, "traceback")
                  && out.value.runtime == (if "runtime_seconds" in m && m["runtime_seconds"].Num? then m["runtime_seconds"].value else 0.0)
                  && out.value.memoryUsed as real == (if "memory_used" in m && m["memory_used"].Num? then m["memory_used"].value else 0.0))
            && (out == Err(Unparsable) <==> !NullOr(m, "type", (j: Json) => j.Str?))
            && (out == Err(NotAResult) <==> NullOr(m, "type", (j: Json) => j.Str?) && TextAt(m, "type") != "result")
  {
  }

  /** Anything but an object is neither a task nor a result. */
  lemma OnlyObjects(w: Wire, validTime: string -> bool, data: Option<Json>)
    requires data.None? || !data.value.Obj?
    ensures DecodeTask(w, validTime, data).Err? && DecodeResult(validTime, data).Err?
  {
  }

  /** A task message carries a fresh id and its time. */
  lemma SentTask(p: TaskPayload, freshId: string, now: string)
    ensures var m := MarshalTask(NewTask(p, freshId, now)).fields;
            TextAt(m, "type") == "task" && HasText(m, "id") && TextAt(m, "id") == freshId && HasText(m, "timestamp") && TextAt(m, "timestamp") == now
  {
  }

  /** And so does a result message. */
  lemma SentResult(p: ResultPayload, freshId: string, now: string)
    ensures var m := EncodeResult(p, freshId, now).fields;
            TextAt(m, "type") == "result" && HasText(m, "id") && TextAt(m, "id") == freshId && HasText(m, "timestamp") && TextAt(m, "timestamp") == now
  {
    RequiredFields(p, freshId, now);
    EncodedField(p, freshId, now, "type");
    EncodedField(p, freshId, now, "id");
    EncodedField(p, freshId, now, "timestamp");
  }

  lemma ExtraKeys(p: ResultPayload)
    ensures var keys := Extras(p).Keys;
            && ("result" in keys <==> p.result != Null) && ("error" in keys <==> p.error != "")
            && ("traceback" in keys <==> p.traceback != "") && ("memory_used" in keys <==> p.memoryUsed != 0)
  {
  }

  /** An optional field is sent exactly when it is not empty; the others are always sent. */
  lemma EncodedKeys(p: ResultPayload, freshId: string, now: string)
    ensures var keys := EncodeResult(p, freshId, now).fields.Keys;
            && {"type", "id", "timestamp", "task_id", "status", "runtime_seconds"} <= keys
            && ("result" in keys <==> p.result != Null) && ("error" in keys <==> p.error != "")
            && ("traceback" in keys <==> p.traceback != "") && ("memory_used" in keys <==> p.memoryUsed != 0)
  {
    RequiredFields(p, freshId, now);
    ExtraKeys(p);
    KeysApart();
    assert EncodeResult(p, freshId, now).fields.Keys == Required(p, freshId, now).Keys + Extras(p).Keys;
  }

  /** What another Celery worker finds in the headers of a message built here ... */
  lemma BuiltForOthers(w: Wire, p: TaskPayload, argsRepr: string, kwargsRepr: string)
    ensures var msg := Build(w, p, argsRepr, kwargsRepr);
            && msg.contentEncoding == "utf-8" && msg.contentType == "application/json"
            && AsString(Get(msg.headers, "root_id")) == Some(p.taskId)
            && AsString(Get(msg.headers, "lang")) == Some("py") && AsString(Get(msg.headers, "origin")) == Some("celery-go-worker")
            && AsString(Get(msg.headers, "argsrepr")) == Some(argsRepr) && AsString(Get(msg.headers, "kwargsrepr")) == Some(kwargsRepr)
  {
  }

  /** ... in its body ... */
  lemma BuiltBody(w: Wire, p: TaskPayload, argsRepr: string, kwargsRepr: string)
    requires Faithful(w, p)
    ensures var body := w.decode(Build(w, p, argsRepr, kwargsRepr).body);
            && body.Ok? && body.value.Arr? && |body.value.items| == 3 && body.value.items[2].Obj?
            && var options := body.value.items[2].fields;
               forall key :: key in ["callbacks", "errbacks", "chain", "chord"] ==> key in options && options[key] == Null
  {
  }

  /** ... and in its properties. */
  lemma BuiltProperties(w: Wire, p: TaskPayload, argsRepr: string, kwargsRepr: string)
    ensures var properties := Build(w, p, argsRepr, kwargsRepr).properties;
            && AsString(Get(properties, "correlation_id")) == Some(p.taskId) && AsString(Get(properties, "body_encoding")) == Some("base64")
            && Get(properties, "delivery_mode") == Some(Int(2)) && Get(properties, "priority") == Some(Int(0))
            && Get(properties, "delivery_info")
               == if p.queue == "" then None else Some(Js(Obj(map["exchange" := Str(""), "routing_key" := Str(p.queue)])))
  {
  }
}
