/**
 * The basic intent router (app/connectors/openai_intent.py,
 * `OpenAIIntentConnector.parse`), from the model's reply to the `IntentResult`.
 *
 * Unlike the enhanced router it has no gate and catches nothing around the
 * model call; an undecodable reply becomes a question whose answer is the raw
 * text, and the event, update and task-operation payloads are attached
 * whenever they are truthy and valid, whatever the intent.
 */
module IntentBasic {
  import opened Common
  import opened Json
  import opened Models

  datatype Reply = ApiFailed | Content(raw: Option<string>)

  datatype Outcome = Returned(result: IntentResult) | Raised

  /** `json.loads(raw)`: `Raised` for `None` (a `TypeError`), `Some(None)` for a `JSONDecodeError`, which `""` always is. */
  function Decoded(raw: Option<string>, decode: string -> Option<Value>): (r: Option<Option<Value>>)
    ensures r.None? <==> raw.None?
    ensures raw == Some("") ==> r == Some(None)
  {
    if raw.None? then None
    else if raw.value == "" then Some(None)
    else Some(decode(raw.value))
  }

  /** `data.get("intent", "QUESTION")`, with `GENERAL_QA` renamed to `QUESTION`. */
  function IntentName(data: map<string, Value>): (r: Value)
    ensures r != Str("GENERAL_QA")
    ensures "intent" !in data ==> r == Str("QUESTION")
    ensures "intent" in data && data["intent"] != Str("GENERAL_QA") ==> r == data["intent"]
    ensures "intent" in data && data["intent"] == Str("GENERAL_QA") ==> r == Str("QUESTION")
  {
    var name := Get(data, "intent", Str("QUESTION"));
    if name == Str("GENERAL_QA") then Str("QUESTION") else name
  }

  /** The envelope's scalar fields; `None` when `IntentResult` rejects one of them. */
  function Base(data: map<string, Value>, val: Validators): (r: Option<IntentResult>)
    ensures r.Some? ==> r.value.event.None? && r.value.update.None? && r.value.taskOp.None?
    ensures r.Some? ==> r.value.task.None? && r.value.taskUpdate.None? && r.value.listQuery.None?
    ensures r.Some? ==> r.value.intent != Some("GENERAL_QA")
    ensures "answer" in data && !data["answer"].Str? ==> r.None?
    ensures data == map[] ==> r == Some(Envelope(Some("QUESTION"), ""))
  {
    var intent := OptStrField(IntentName(data));
    var answer := StrField(Get(data, "answer", Str("")));
    var confidence := OptFloatField(Get(data, "confidence", Null), val);
    var recency := OptBoolField(Get(data, "recency_required", Null), val);
    var domain := OptStrField(Get(data, "domain", Null));
    if intent.None? || answer.None? || confidence.None? || recency.None? || domain.None? then None
    else Some(Envelope(intent.value, answer.value).(confidence := confidence.value, recencyRequired := recency.value, domain := domain.value))
  }

  /** `if data.get(key): try: ... except Exception: pass` */
  function Payload(data: map<string, Value>, key: string, valid: map<string, Value> -> bool): (r: Option<Value>)
    ensures r.Some? <==> key in data && Truthy(data[key]) && Accepts(valid, data[key])
    ensures r.Some? ==> r.value == data[key]
  {
    if key in data && Truthy(data[key]) && Accepts(valid, data[key]) then Some(data[key]) else None
  }

  function Route(reply: Reply, decode: string -> Option<Value>, val: Validators): (o: Outcome)
    ensures reply.ApiFailed? || reply.raw.None? ==> o.Raised?
    ensures o.Returned? ==> o.result.intent != Some("GENERAL_QA")
    ensures o.Returned? ==> o.result.task.None? && o.result.taskUpdate.None? && o.result.listQuery.None?
  {
    match reply
    case ApiFailed => Raised
    case Content(raw) =>
      var d := Decoded(raw, decode);
      if d.None? then Raised
      else if d.value.None? then Returned(Envelope(Some("QUESTION"), if raw.value == "" then "OK" else raw.value))
      else if !d.value.value.Obj? then Raised
      else
        var data := d.value.value.fields;
        var base := Base(data, val);
        if base.None? then Raised
        else Returned(base.value.(event := Payload(data, "event", val.eventCreate),
                                  update := Payload(data, "update", val.eventUpdate),
                                  taskOp := Payload(data, "task_op", val.taskOp)))
  }

  /** A reply that is not JSON is answered with its own text, and an empty one with "OK". */
  lemma UndecodableEchoed(raw: string, decode: string -> Option<Value>, val: Validators)
    requires raw == "" || decode(raw).None?
    ensures Route(Content(Some(raw)), decode, val) == Returned(Envelope(Some("QUESTION"), if raw == "" then "OK" else raw))
  {
  }

  /**
   * A payload is attached exactly when it is truthy and valid, whatever the
   * intent says; an invalid one is dropped without affecting the rest.
   */
  lemma PayloadsIgnoreIntent(raw: string, decode: string -> Option<Value>, val: Validators)
    requires raw != "" && decode(raw).Some? && decode(raw).value.Obj?
    requires Base(decode(raw).value.fields, val).Some?
    ensures var data := decode(raw).value.fields;
      var o := Route(Content(Some(raw)), decode, val);
      o.Returned?
      && (o.result.event.Some? <==> "event" in data && Truthy(data["event"]) && Accepts(val.eventCreate, data["event"]))
      && (o.result.update.Some? <==> "update" in data && Truthy(data["update"]) && Accepts(val.eventUpdate, data["update"]))
      && (o.result.taskOp.Some? <==> "task_op" in data && Truthy(data["task_op"]) && Accepts(val.taskOp, data["task_op"]))
  {
  }

  /** Whether `parse` raises never depends on the sub-model validators: their failures are all caught. */
  lemma ValidatorsNeverRaise(reply: Reply, decode: string -> Option<Value>, val: Validators, other: Validators)
    requires val.laxFloat == other.laxFloat && val.laxBool == other.laxBool
    ensures Route(reply, decode, val).Raised? <==> Route(reply, decode, other).Raised?
  {
    if reply.Content? && reply.raw.Some? && reply.raw.value != "" {
      var d := decode(reply.raw.value);
      if d.Some? && d.value.Obj? {
        assert Base(d.value.fields, val) == Base(d.value.fields, other);
      }
    }
  }

  /** A string `task_op`, which the enhanced router keeps, is dropped here: `TaskOp(**"...")` fails and is caught. */
  lemma StringTaskOpDropped(raw: string, decode: string -> Option<Value>, val: Validators)
    requires raw != "" && decode(raw).Some? && decode(raw).value.Obj?
    requires Base(decode(raw).value.fields, val).Some?
    requires "task_op" in decode(raw).value.fields && decode(raw).value.fields["task_op"].Str?
    ensures Route(Content(Some(raw)), decode, val).result.taskOp.None?
  {
  }
}
