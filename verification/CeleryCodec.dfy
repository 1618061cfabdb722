/**
 internal/protocol/celery/json.go and internal/protocol/message/message.go: payloads in and out of Celery v2
 messages and of the internal messages exchanged with the Python processes.

 JSON text and base64 (section 4 of RFC 4648) are library code: `Wire` stands for their composition on message
 bodies, of which only the inverse law on the body at hand is used.  Input data is an optional JSON value, None when it is no JSON.
 Fresh ids and timestamps are parameters; `validTime` says which strings a timestamp field accepts.
 */
module CeleryCodec {
  import opened Basics
  import opened JsonModel

  datatype BodyError = NotBase64 | NotJson

  datatype Wire = Wire(encode: Json -> string, decode: string -> Result<Json, BodyError>)

  datatype TaskPayload = TaskPayload(taskName: string, taskId: string, args: Option<seq<Json>>,
                                     kwargs: Option<map<string, Json>>, retries: int, queue: string)

  datatype CeleryMessage = CeleryMessage(body: string, contentEncoding: string, contentType: string,
                                         headers: Option<map<string, Value>>, properties: Option<map<string, Value>>)

  datatype DecodeError =
    | NoTaskName | NoTaskId | BadBody(error: BodyError) | BodyNotArray | BodyTooShort
    | Unparsable | NotATask | BadTaskMessage | NotAResult | BadResultMessage

  function Get(m: Option<map<string, Value>>, key: string): Option<Value> {
    if m.Some? && key in m.value then Some(m.value[key]) else None
  }

  function AsString(v: Option<Value>): Option<string> {
    if v.Some? && v.value.Js? && v.value.json.Str? then Some(v.value.json.s) else None
  }

  // ----- Celery v2 messages

  function RetriesOf(v: Option<Value>): int {
    match v
    case Some(Int(n)) => n
    case Some(Js(Num(x))) => ToInt(x)
    case Some(Js(Str(s))) => if Atoi(s).Some? then Atoi(s).value else 0
    case _ => 0
  }

  function QueueOf(properties: Option<map<string, Value>>): string {
    match Get(properties, "delivery_info")
    case Some(Js(Obj(info))) => if "routing_key" in info && info["routing_key"].Str? then info["routing_key"].s else ""
    case _ => ""
  }

  /** TaskPayloadFromCeleryMessage */
  function Extract(w: Wire, msg: CeleryMessage): Result<TaskPayload, DecodeError> {
    var name := AsString(Get(msg.headers, "task"));
    var id := AsString(Get(msg.headers, "id"));
    if name.None? then Err(NoTaskName)
    else if id.None? then Err(NoTaskId)
    else
      match w.decode(msg.body)
      case Err(e) => Err(BadBody(e))
      case Ok(Null) => Err(BodyTooShort)
      case Ok(Arr(items)) =>
        if |items| < 2 then Err(BodyTooShort)
        else Ok(TaskPayload(name.value, id.value,
                            Some(if items[0].Arr? then items[0].items else []),
                            Some(if items[1].Obj? then items[1].fields else map[]),
                            RetriesOf(Get(msg.headers, "retries")),
                            QueueOf(msg.properties)))
      case Ok(_) => Err(BodyNotArray)
  }

  const OPTIONS: Json := Obj(map["callbacks" := Null, "errbacks" := Null, "chain" := Null, "chord" := Null])

  function BodyOf(p: TaskPayload): Json {
    Arr([SliceJson(p.args), MapJson(p.kwargs), OPTIONS])
  }

  /** JSON text and base64 give this payload's body back. */
  predicate Faithful(w: Wire, p: TaskPayload) {
    w.decode(w.encode(BodyOf(p))) == Ok(BodyOf(p))
  }

  /** CeleryMessageFromTaskPayload; the two representation strings are Go's own formatting of args and kwargs. */
  function Build(w: Wire, p: TaskPayload, argsRepr: string, kwargsRepr: string): CeleryMessage {
    CeleryMessage(
      w.encode(BodyOf(p)),
      "utf-8",
      "application/json",
      Some(map["task" := Js(Str(p.taskName)), "id" := Js(Str(p.taskId)), "retries" := Int(p.retries), "lang" := Js(Str("py")),
               "root_id" := Js(Str(p.taskId)), "origin" := Js(Str("celery-go-worker")),
               "argsrepr" := Js(Str(argsRepr)), "kwargsrepr" := Js(Str(kwargsRepr))]),
      Some(map["correlation_id" := Js(Str(p.taskId)), "delivery_mode" := Int(2), "priority" := Int(0),
               "body_encoding" := Js(Str("base64"))]
           + if p.queue != "" then map["delivery_info" := Js(Obj(map["exchange" := Str(""), "routing_key" := Str(p.queue)]))]
             else map[]))
  }

  /** Nil args and kwargs come back empty. */
  function Normal(p: TaskPayload): TaskPayload {
    p.(args := Some(if p.args.Some? then p.args.value else []),
       kwargs := Some(if p.kwargs.Some? then p.kwargs.value else map[]))
  }

  // ----- JSON text of a Celery message

  function ValuesToJson(m: Option<map<string, Value>>): Json {
    if m.None? then Null else Obj(map k | k in m.value :: ToJson(m.value[k]))
  }

  function ValuesFromJson(m: Option<map<string, Json>>): Option<map<string, Value>> {
    if m.None? then None else Some(map k | k in m.value :: FromJson(m.value[k]))
  }

  function MarshalCelery(msg: CeleryMessage): Json {
    Obj(map["body" := Str(msg.body), "content-encoding" := Str(msg.contentEncoding), "content-type" := Str(msg.contentType),
            "headers" := ValuesToJson(msg.headers), "properties" := ValuesToJson(msg.properties)])
  }

  /** No Celery field of the object has the wrong type. */
  predicate FitsCelery(m: map<string, Json>) {
    && StringField(m, "body").Some?
    && StringField(m, "content-encoding").Some?
    && StringField(m, "content-type").Some?
    && MapField(m, "headers").Some?
    && MapField(m, "properties").Some?
  }

  /** ParseCeleryMessage; null leaves the zero message. */
  function ParseCelery(data: Option<Json>): Option<CeleryMessage> {
    match data
    case Some(Null) => Some(CeleryMessage("", "", "", None, None))
    case Some(Obj(m)) =>
      if FitsCelery(m) then
        Some(CeleryMessage(StringField(m, "body").value, StringField(m, "content-encoding").value, StringField(m, "content-type").value,
                           ValuesFromJson(MapField(m, "headers").value), ValuesFromJson(MapField(m, "properties").value)))
      else None
    case _ => None
  }

  // ----- internal task messages

  datatype TaskMessage = TaskMessage(messageType: string, messageId: string, timestamp: string, payload: TaskPayload)

  /** NewTaskMessage */
  function NewTask(p: TaskPayload, freshId: string, now: string): TaskMessage {
    TaskMessage("task", freshId, now, p)
  }

  /** EncodeTask after the constructor. */
  function MarshalTask(msg: TaskMessage): Json {
    Obj(map["type" := Str(msg.messageType), "id" := Str(msg.messageId), "timestamp" := Str(msg.timestamp),
            "task_name" := Str(msg.payload.taskName), "task_id" := Str(msg.payload.taskId),
            "args" := SliceJson(msg.payload.args), "kwargs" := MapJson(msg.payload.kwargs),
            "retries" := Num(msg.payload.retries as real), "queue" := Str(msg.payload.queue)])
  }

  /** The type tag of a message: None when the input is no object or null, or the tag no string. */
  function TypeOf(data: Option<Json>): Option<string> {
    match data
    case Some(Null) => Some("")
    case Some(Obj(m)) => StringField(m, "type")
    case _ => None
  }

  predicate TimeFits(m: map<string, Json>, validTime: string -> bool) {
    "timestamp" !in m || m["timestamp"].Null? || (m["timestamp"].Str? && validTime(m["timestamp"].s))
  }

  predicate FitsTask(m: map<string, Json>, validTime: string -> bool) {
    && StringField(m, "type").Some? && StringField(m, "id").Some? && TimeFits(m, validTime)
    && StringField(m, "task_name").Some? && StringField(m, "task_id").Some?
    && SliceField(m, "args").Some? && MapField(m, "kwargs").Some?
    && IntField(m, "retries").Some? && StringField(m, "queue").Some?
  }

  /** The payload of an object that fits the fields of a task message. */
  function TaskOf(m: map<string, Json>, validTime: string -> bool): TaskPayload
    requires FitsTask(m, validTime)
  {
    TaskPayload(StringField(m, "task_name").value, StringField(m, "task_id").value, SliceField(m, "args").value,
                MapField(m, "kwargs").value, IntField(m, "retries").value, StringField(m, "queue").value)
  }

  function DecodeInternal(validTime: string -> bool, data: Option<Json>): Result<TaskPayload, DecodeError> {
    match TypeOf(data)
    case None => Err(Unparsable)
    case Some(tag) =>
      if tag != "task" then Err(NotATask)
      else match data
        case Some(Obj(m)) => if FitsTask(m, validTime) then Ok(TaskOf(m, validTime)) else Err(BadTaskMessage)
        case _ => Err(BadTaskMessage)
  }

  /** DecodeTask: Celery first, the internal format only when that does not parse. */
  function DecodeTask(w: Wire, validTime: string -> bool, data: Option<Json>): Result<TaskPayload, DecodeError> {
    match ParseCelery(data)
    case Some(msg) => Extract(w, msg)
    case None => DecodeInternal(validTime, data)
  }

  // ----- internal result messages

  datatype ResultPayload = ResultPayload(taskId: string, status: string, result: Json, error: string, traceback: string,
                                         runtime: real, memoryUsed: int)

  function Optional(key: string, empty: bool, j: Json): map<string, Json> {
    if empty then map[] else map[key := j]
  }

  function Extras(p: ResultPayload): map<string, Json> {
    Optional("result", p.result.Null?, p.result)
    + Optional("error", p.error == "", Str(p.error))
    + Optional("traceback", p.traceback == "", Str(p.traceback))
    + Optional("memory_used", p.memoryUsed == 0, Num(p.memoryUsed as real))
  }

  function Required(p: ResultPayload, freshId: string, now: string): map<string, Json> {
    map["type" := Str("result"), "id" := Str(freshId), "timestamp" := Str(now),
        "task_id" := Str(p.taskId), "status" := Str(p.status), "runtime_seconds" := Num(p.runtime)]
  }

  /** EncodeResult: NewResultMessage and its JSON, in which empty optional fields are left out. */
  function EncodeResult(p: ResultPayload, freshId: string, now: string): Json {
    Obj(Required(p, freshId, now) + Extras(p))
  }

  predicate FitsResult(m: map<string, Json>, validTime: string -> bool) {
    && StringField(m, "type").Some? && StringField(m, "id").Some? && TimeFits(m, validTime)
    && StringField(m, "task_id").Some? && StringField(m, "status").Some?
    && StringField(m, "error").Some? && StringField(m, "traceback").Some?
    && RealField(m, "runtime_seconds").Some? && IntField(m, "memory_used").Some?
  }

  function DecodeResult(validTime: string -> bool, data: Option<Json>): Result<ResultPayload, DecodeError> {
    match TypeOf(data)
    case None => Err(Unparsable)
    case Some(tag) =>
      if tag != "result" then Err(NotAResult)
      else match data
        case Some(Obj(m)) =>
          if FitsResult(m, validTime) then
            Ok(ResultPayload(StringField(m, "task_id").value, StringField(m, "status").value, AnyField(m, "result"),
                             StringField(m, "error").value, StringField(m, "traceback").value,
                             RealField(m, "runtime_seconds").value, IntField(m, "memory_used").value))
          else Err(BadResultMessage)
        case _ => Err(BadResultMessage)
  }

  // ----- round trips

  /** Extraction, from what it looks up. */
  lemma ExtractFrom(w: Wire, msg: CeleryMessage, name: string, id: string, args: Json, kwargs: Json, options: Json)
    requires AsString(Get(msg.headers, "task")) == Some(name) && AsString(Get(msg.headers, "id")) == Some(id)
    requires w.decode(msg.body) == Ok(Arr([args, kwargs, options]))
    ensures Extract(w, msg) == Ok(TaskPayload(name, id, Some(if args.Arr? then args.items else []), Some(if kwargs.Obj? then kwargs.fields else map[]),
                                              RetriesOf(Get(msg.headers, "retries")), QueueOf(msg.properties)))
  {
  }

  lemma BuiltHeaders(w: Wire, p: TaskPayload, argsRepr: string, kwargsRepr: string)
    ensures var headers := Build(w, p, argsRepr, kwargsRepr).headers;
            && Get(headers, "task") == Some(Js(Str(p.taskName)))
            && Get(headers, "id") == Some(Js(Str(p.taskId)))
            && Get(headers, "retries") == Some(Int(p.retries))
  {
  }

  /** Extracting from the built message gives the payload back, with nil args and kwargs made empty. */
  lemma ExtractBuilt(w: Wire, p: TaskPayload, argsRepr: string, kwargsRepr: string)
    requires Faithful(w, p)
    ensures Extract(w, Build(w, p, argsRepr, kwargsRepr)) == Ok(Normal(p))
  {
    BuiltHeaders(w, p, argsRepr, kwargsRepr);
    BuiltQueue(w, p, argsRepr, kwargsRepr);
    ExtractFrom(w, Build(w, p, argsRepr, kwargsRepr), p.taskName, p.taskId, SliceJson(p.args), MapJson(p.kwargs), OPTIONS);
  }

  lemma BuiltQueue(w: Wire, p: TaskPayload, argsRepr: string, kwargsRepr: string)
    ensures QueueOf(Build(w, p, argsRepr, kwargsRepr).properties) == p.queue
  {
  }

  /** Through JSON text every header and property comes back as it was, except that ints become float64. */
  lemma CeleryTrip(msg: CeleryMessage)
    ensures ParseCelery(Some(MarshalCelery(msg))) == Some(msg.(
              headers := Tripped(msg.headers), properties := Tripped(msg.properties)))
  {
    var m := MarshalCelery(msg).fields;
    assert m["body"] == Str(msg.body) && m["content-encoding"] == Str(msg.contentEncoding) && m["content-type"] == Str(msg.contentType);
    assert m["headers"] == ValuesToJson(msg.headers) && m["properties"] == ValuesToJson(msg.properties);
    ValuesTrip(msg.headers);
    ValuesTrip(msg.properties);
  }

  function Tripped(m: Option<map<string, Value>>): Option<map<string, Value>> {
    if m.None? then None else Some(map k | k in m.value :: FromJson(ToJson(m.value[k])))
  }

  lemma ValuesTrip(m: Option<map<string, Value>>)
    ensures m.None? ==> ValuesToJson(m).Null?
    ensures m.Some? ==> ValuesToJson(m).Obj? && ValuesFromJson(Some(ValuesToJson(m).fields)) == Tripped(m)
  {
    if m.Some? {
      var j := ValuesToJson(m).fields;
      assert j.Keys == m.value.Keys;
      var back, tripped := ValuesFromJson(Some(j)).value, Tripped(m).value;
      assert forall k :: k in m.value ==> back[k] == tripped[k];
      assert back == tripped;
    }
  }

  lemma TrippedGet(m: Option<map<string, Value>>, key: string)
    ensures Get(Tripped(m), key) == match Get(m, key) case None => None case Some(v) => Some(FromJson(ToJson(v)))
  {
  }

  /** A marshalled message is decoded by extraction from what the trip through text leaves of it. */
  lemma MarshalledExtract(w: Wire, validTime: string -> bool, msg: CeleryMessage)
    ensures DecodeTask(w, validTime, Some(MarshalCelery(msg)))
         == Extract(w, msg.(headers := Tripped(msg.headers), properties := Tripped(msg.properties)))
  {
    CeleryTrip(msg);
  }

  /** The payload that arrives when a built message travels as JSON text. */
  lemma DecodeMarshalled(w: Wire, validTime: string -> bool, p: TaskPayload, argsRepr: string, kwargsRepr: string)
    requires Faithful(w, p)
    ensures DecodeTask(w, validTime, Some(MarshalCelery(Build(w, p, argsRepr, kwargsRepr))))
         == Ok(Normal(p).(retries := ToInt(ToDouble(p.retries) as real)))
  {
    var msg := Build(w, p, argsRepr, kwargsRepr);
    MarshalledExtract(w, validTime, msg);
    BuiltHeaders(w, p, argsRepr, kwargsRepr);
    BuiltQueue(w, p, argsRepr, kwargsRepr);
    ExtractTripped(w, msg, p);
  }

  lemma ExtractTripped(w: Wire, msg: CeleryMessage, p: TaskPayload)
    requires Get(msg.headers, "task") == Some(Js(Str(p.taskName))) && Get(msg.headers, "id") == Some(Js(Str(p.taskId)))
    requires Get(msg.headers, "retries") == Some(Int(p.retries)) && QueueOf(msg.properties) == p.queue
    requires w.decode(msg.body) == Ok(BodyOf(p))
    ensures Extract(w, msg.(headers := Tripped(msg.headers), properties := Tripped(msg.properties)))
         == Ok(Normal(p).(retries := ToInt(ToDouble(p.retries) as real)))
  {
    TrippedGet(msg.headers, "task");
    TrippedGet(msg.headers, "id");
    TrippedGet(msg.headers, "retries");
    TrippedQueue(msg.properties);
    IntThroughText(p.retries);
    ExtractFrom(w, msg.(headers := Tripped(msg.headers), properties := Tripped(msg.properties)),
                p.taskName, p.taskId, SliceJson(p.args), MapJson(p.kwargs), OPTIONS);
  }

  lemma IntThroughText(n: int)
    ensures FromJson(ToJson(Int(n))) == Js(Num(ToDouble(n) as real))
  {
  }

  lemma TrippedQueue(properties: Option<map<string, Value>>)
    ensures QueueOf(Tripped(properties)) == QueueOf(properties)
  {
  }

  /**
   The trip through JSON text keeps the whole payload exactly when float64 can represent the retry count, in
   particular up to a magnitude of 2^53.
   */
  lemma CeleryRoundTripIff(w: Wire, validTime: string -> bool, p: TaskPayload, argsRepr: string, kwargsRepr: string)
    requires Faithful(w, p) && IsInt64(p.retries)
    ensures DecodeTask(w, validTime, Some(MarshalCelery(Build(w, p, argsRepr, kwargsRepr)))) == Ok(Normal(p))
            <==> Abs(p.retries) % Ulp(Abs(p.retries)) == 0
    ensures Abs(p.retries) <= TWO_53 ==>
              DecodeTask(w, validTime, Some(MarshalCelery(Build(w, p, argsRepr, kwargsRepr)))) == Ok(Normal(p))
  {
    DecodeMarshalled(w, validTime, p, argsRepr, kwargsRepr);
    ToDoubleExact(p.retries);
    ToIntOfInt(ToDouble(p.retries));
    if p.retries == -TWO_63 {
      MinIsExact();
    }
    if Abs(p.retries) <= TWO_53 {
      SmallIsExact(p.retries);
    }
  }

  lemma ToIntOfInt(n: int)
    ensures ToInt(n as real) == if IsInt64(n) then n else -TWO_63
  {
  }

  lemma {:induction false} UlpScales(m: nat)
    requires m >= TWO_53
    ensures Ulp(2 * m) == 2 * Ulp(m)
  {
  }

  lemma MinIsExact()
    ensures TWO_63 % Ulp(TWO_63) == 0
  {
    assert TWO_63 == 1024 * TWO_53;
    UlpScales(TWO_53);
    UlpScales(2 * TWO_53);
    UlpScales(4 * TWO_53);
    UlpScales(8 * TWO_53);
    UlpScales(16 * TWO_53);
    UlpScales(32 * TWO_53);
    UlpScales(64 * TWO_53);
    UlpScales(128 * TWO_53);
    UlpScales(256 * TWO_53);
    UlpScales(512 * TWO_53);
    assert Ulp(TWO_53) == 2;
  }

  /** The first retry count that does not survive. */
  lemma FirstLoss(w: Wire, validTime: string -> bool, p: TaskPayload, argsRepr: string, kwargsRepr: string)
    requires Faithful(w, p) && p.retries == TWO_53 + 1
    ensures DecodeTask(w, validTime, Some(MarshalCelery(Build(w, p, argsRepr, kwargsRepr)))) == Ok(Normal(p).(retries := TWO_53))
  {
    DecodeMarshalled(w, validTime, p, argsRepr, kwargsRepr);
    FirstInexact();
    ToIntOfInt(TWO_53);
  }

  // ----- dispatch

  /** Every object that fits the Celery fields is decoded as a Celery message, and nothing else is but null. */
  lemma DispatchIff(w: Wire, validTime: string -> bool, data: Option<Json>)
    ensures ParseCelery(data).Some? <==> data == Some(Null) || (data.Some? && data.value.Obj? && FitsCelery(data.value.fields))
    ensures ParseCelery(data).Some? ==> DecodeTask(w, validTime, data) == Extract(w, ParseCelery(data).value)
    ensures data == Some(Null) ==> DecodeTask(w, validTime, data) == Err(NoTaskName)
  {
  }

  /** The internal format is accepted exactly for task objects in which some Celery field has the wrong type. */
  lemma FallbackIff(w: Wire, validTime: string -> bool, data: Option<Json>)
    requires ParseCelery(data).None?
    ensures DecodeTask(w, validTime, data).Ok? <==>
              data.Some? && data.value.Obj? && !FitsCelery(data.value.fields)
              && StringField(data.value.fields, "type") == Some("task") && FitsTask(data.value.fields, validTime)
  {
  }

  /** Whatever EncodeTask builds, DecodeTask rejects. */
  lemma EncodedTaskRejected(w: Wire, validTime: string -> bool, p: TaskPayload, freshId: string, now: string)
    ensures DecodeTask(w, validTime, Some(MarshalTask(NewTask(p, freshId, now)))) == Err(NoTaskName)
  {
    var m := MarshalTask(NewTask(p, freshId, now)).fields;
    assert "body" !in m && "content-encoding" !in m && "content-type" !in m && "headers" !in m && "properties" !in m;
    assert FitsCelery(m);
  }

  /** Yet the message itself carries the payload unchanged, nil args and kwargs included. */
  lemma InternalRoundTrip(validTime: string -> bool, p: TaskPayload, freshId: string, now: string)
    requires validTime(now) && IsInt64(p.retries)
    ensures DecodeInternal(validTime, Some(MarshalTask(NewTask(p, freshId, now)))) == Ok(p)
  {
  }

  lemma RequiredFields(p: ResultPayload, freshId: string, now: string)
    ensures var m := Required(p, freshId, now);
            && AnyField(m, "type") == Str("result") && AnyField(m, "id") == Str(freshId) && AnyField(m, "timestamp") == Str(now)
            && AnyField(m, "task_id") == Str(p.taskId) && AnyField(m, "status") == Str(p.status)
            && AnyField(m, "runtime_seconds") == Num(p.runtime)
            && m.Keys == {"type", "id", "timestamp", "task_id", "status", "runtime_seconds"}
  {
  }

  lemma ExtraFields(p: ResultPayload)
    ensures var m := Extras(p);
            && AnyField(m, "result") == p.result
            && AnyField(m, "error") == (if p.error == "" then Null else Str(p.error))
            && AnyField(m, "traceback") == (if p.traceback == "" then Null else Str(p.traceback))
            && AnyField(m, "memory_used") == (if p.memoryUsed == 0 then Null else Num(p.memoryUsed as real))
            && m.Keys <= {"result", "error", "traceback", "memory_used"}
  {
  }

  /** A required or extra field of the whole message is that field of its own part. */
  lemma EncodedField(p: ResultPayload, freshId: string, now: string, key: string)
    ensures var m := EncodeResult(p, freshId, now).fields;
            && (key in {"type", "id", "timestamp", "task_id", "status", "runtime_seconds"} ==>
                  key in m && m[key] == AnyField(Required(p, freshId, now), key))
            && (key in {"result", "error", "traceback", "memory_used"} ==> AnyField(m, key) == AnyField(Extras(p), key))
  {
    RequiredFields(p, freshId, now);
    ExtraFields(p);
    KeysApart();
  }

  lemma KeysApart()
    ensures {"type", "id", "timestamp", "task_id", "status", "runtime_seconds"} !! {"result", "error", "traceback", "memory_used"}
  {
  }

  /** A result survives the trip to a process and back, absent optional fields included. */
  lemma ResultRoundTrip(validTime: string -> bool, p: ResultPayload, freshId: string, now: string)
    requires validTime(now) && IsInt64(p.memoryUsed)
    ensures DecodeResult(validTime, Some(EncodeResult(p, freshId, now))) == Ok(p)
  {
    var m := EncodeResult(p, freshId, now).fields;
    RequiredFields(p, freshId, now);
    ExtraFields(p);
    EncodedField(p, freshId, now, "type");
    EncodedField(p, freshId, now, "id");
    EncodedField(p, freshId, now, "timestamp");
    EncodedField(p, freshId, now, "task_id");
    EncodedField(p, freshId, now, "status");
    EncodedField(p, freshId, now, "runtime_seconds");
    EncodedField(p, freshId, now, "result");
    EncodedField(p, freshId, now, "error");
    EncodedField(p, freshId, now, "traceback");
    EncodedField(p, freshId, now, "memory_used");
    FieldsDecode(validTime, m, p, freshId, now);
  }

  lemma FieldsDecode(validTime: string -> bool, m: map<string, Json>, p: ResultPayload, freshId: string, now: string)
    requires validTime(now) && IsInt64(p.memoryUsed)
    requires AnyField(m, "type") == Str("result") && AnyField(m, "id") == Str(freshId) && AnyField(m, "timestamp") == Str(now)
    requires AnyField(m, "task_id") == Str(p.taskId) && AnyField(m, "status") == Str(p.status)
    requires AnyField(m, "runtime_seconds") == Num(p.runtime) && AnyField(m, "result") == p.result
    requires AnyField(m, "error") == if p.error == "" then Null else Str(p.error)
    requires AnyField(m, "traceback") == if p.traceback == "" then Null else Str(p.traceback)
    requires AnyField(m, "memory_used") == if p.memoryUsed == 0 then Null else Num(p.memoryUsed as real)
    ensures DecodeResult(validTime, Some(Obj(m))) == Ok(p)
  {
  }
}
