/**
 * The enhanced intent router (app/connectors/openai_intent_enhanced.py,
 * `EnhancedOpenAIIntentConnector.parse`): the rate-limiter gate, the fallbacks
 * for a failed model call and for an undecodable reply, and the normalisation
 * of the decoded JSON object into an `IntentResult`.
 *
 * The model call is its outcome (`Reply`), `json.loads` is the `decode`
 * function handed in, and sub-model validity is the `Validators` record.
 * Validation errors that escape `parse` are the `Raised` outcome.
 */
module IntentEnhanced {
  import opened Common
  import opened Json
  import opened Models
  import RateLimiter

  const Busy := "I'm processing too many requests right now. Please try again in a moment."
  const Trouble := "I'm having trouble processing your request right now. Please try again in a moment."
  const Rephrase := "I had trouble understanding that. Could you rephrase?"
  const EventTrouble := "I had trouble understanding the event details. Could you be more specific?"
  const UpdateTrouble := "I had trouble understanding what you want to update. Could you be more specific?"

  /** The rate-limiter key and window of the router. */
  const GateKey := "openai_intent"
  const GateWindow := 60

  /** What the chat-completion call gave back: an exception, or the message content. */
  datatype Reply = ApiFailed | Content(raw: Option<string>)

  datatype Outcome = Returned(result: IntentResult) | Raised

  /** `IntentResult(intent="GENERAL_QA", answer=...)` */
  function Fallback(answer: string): (r: IntentResult)
    ensures r.intent == Some("GENERAL_QA") && r.answer == answer && r.confidence.None?
  {
    Envelope(Some("GENERAL_QA"), answer)
  }

  /** `json.loads(raw or "{}")`; `None` is a `JSONDecodeError`. */
  function Decoded(raw: Option<string>, decode: string -> Option<Value>): (r: Option<Value>)
    ensures !NonEmpty(raw) ==> r == Some(Obj(map[]))
    ensures NonEmpty(raw) ==> r == decode(raw.value)
  {
    if NonEmpty(raw) then decode(raw.value) else Some(Obj(map[]))
  }

  /** `data.get("intent", "GENERAL_QA")` */
  function IntentName(data: map<string, Value>): Value
  {
    Get(data, "intent", Str("GENERAL_QA"))
  }

  /** The envelope built from `intent`, `confidence` and `answer`; `None` when its validation fails. */
  function Base(data: map<string, Value>, val: Validators): (r: Option<IntentResult>)
    ensures r.Some? ==> IntentName(data).Str? ==> r.value.intent == Some(IntentName(data).s)
    ensures r.Some? ==> r.value.event.None? && r.value.update.None? && r.value.listQuery.None?
    ensures r.Some? ==> r.value.taskOp.None? && r.value.task.None? && r.value.taskUpdate.None?
    ensures r.Some? ==> r.value.recencyRequired.None? && r.value.domain.None?
    ensures "answer" in data && !data["answer"].Str? ==> r.None?
    ensures "intent" !in data && "confidence" !in data && "answer" !in data
      ==> r == Some(Envelope(Some("GENERAL_QA"), "").(confidence := Some(0.8)))
  {
    var intent := OptStrField(IntentName(data));
    var confidence := OptFloatField(Get(data, "confidence", Num(0.8)), val);
    var answer := StrField(Get(data, "answer", Str("")));
    if intent.None? || confidence.None? || answer.None? then None
    else Some(Envelope(intent.value, answer.value).(confidence := confidence.value))
  }

  /** `EventListQuery(scope="day")` */
  const DayQuery := Obj(map["scope" := Str("day")])

  /** The `TASK_OP` branch: a string `task_op` is stored as it is, a dictionary must be a valid `TaskUpdate` (the error is not caught). */
  function AttachTaskOp(data: map<string, Value>, base: IntentResult, val: Validators): (o: Outcome)
    ensures o.Returned? ==> o.result.intent == base.intent && o.result.answer == base.answer
    ensures "task_op" in data && !data["task_op"].Str? && !Accepts(val.taskUpdate, data["task_op"]) ==> o.Raised?
  {
    var withOp :=
      if "task_op" !in data then Some(base)
      else if data["task_op"].Str? then Some(base.(taskOp := Some(data["task_op"])))
      else if Accepts(val.taskUpdate, data["task_op"]) then Some(base.(taskOp := Some(data["task_op"])))
      else None;
    if withOp.None? then Raised
    else
      var task := if "task" in data && Accepts(val.taskItem, data["task"]) then Some(data["task"]) else None;
      var update := if "task_update" in data && Accepts(val.taskUpdate, data["task_update"]) then Some(data["task_update"]) else None;
      Returned(withOp.value.(task := task, taskUpdate := update))
  }

  /** `update_data.get(key, {})`, which is `None` when `update_data` is not a dictionary (the `.get` raises). */
  function UpdatePart(u: Value, key: string): Option<Value>
  {
    if u.Obj? then Some(Get(u.fields, key, Obj(map[]))) else None
  }

  /** The intent-specific branch of `parse`, on a valid envelope. */
  function Attach(data: map<string, Value>, base: IntentResult, val: Validators): (o: Outcome)
  {
    var name := IntentName(data);
    if name == Str("EVENT_TASK") && "event" in data then
      if Accepts(val.eventCreate, data["event"]) then Returned(base.(event := Some(data["event"])))
      else Returned(base.(intent := Some("GENERAL_QA"), answer := EventTrouble))
    else if name == Str("EVENT_UPDATE") && "update" in data then
      var c, ch := UpdatePart(data["update"], "criteria"), UpdatePart(data["update"], "changes");
      if c.Some? && ch.Some? && Accepts(val.criteria, c.value) && Accepts(val.changes, ch.value) then
        Returned(base.(update := Some(Obj(map["criteria" := c.value, "changes" := ch.value]))))
      else Returned(base.(intent := Some("GENERAL_QA"), answer := UpdateTrouble))
    else if name == Str("EVENT_LIST") && "list_query" in data then
      var q := if Accepts(val.listQuery, data["list_query"]) then data["list_query"] else DayQuery;
      Returned(base.(listQuery := Some(q)))
    else if name == Str("TASK_OP") then AttachTaskOp(data, base, val)
    else Returned(base)
  }

  /** Everything `parse` does once the rate-limiter gate has let the call through. */
  function Route(reply: Reply, decode: string -> Option<Value>, val: Validators): (o: Outcome)
    ensures reply.ApiFailed? ==> o == Returned(Fallback(Trouble))
    ensures reply.Content? && Decoded(reply.raw, decode).None? ==> o == Returned(Fallback(Rephrase))
    ensures reply.Content? && Decoded(reply.raw, decode).Some? && !Decoded(reply.raw, decode).value.Obj? ==> o.Raised?
    ensures o.Returned? ==> o.result.recencyRequired.None? && o.result.domain.None?
  {
    match reply
    case ApiFailed => Returned(Fallback(Trouble))
    case Content(raw) =>
      var d := Decoded(raw, decode);
      if d.None? then Returned(Fallback(Rephrase))
      else if !d.value.Obj? then Raised
      else
        var base := Base(d.value.fields, val);
        if base.None? then Raised else Attach(d.value.fields, base.value, val)
  }

  /** An empty or missing reply is an empty object: a general question, with confidence 0.8 and no answer. */
  lemma EmptyReplyIsGeneralQa(raw: Option<string>, decode: string -> Option<Value>, val: Validators)
    requires !NonEmpty(raw)
    ensures Route(Content(raw), decode, val) == Returned(Envelope(Some("GENERAL_QA"), "").(confidence := Some(0.8)))
  {
  }

  /**
   * Each sub-payload appears only under its own intent, and only after passing
   * its validation; a list query that fails validation becomes `{"scope": "day"}`.
   */
  lemma PayloadMatchesIntent(reply: Reply, decode: string -> Option<Value>, val: Validators)
    ensures var o := Route(reply, decode, val);
      o.Returned? ==>
        (o.result.event.Some? ==> o.result.intent == Some("EVENT_TASK") && Accepts(val.eventCreate, o.result.event.value))
        && (o.result.update.Some? ==> o.result.intent == Some("EVENT_UPDATE"))
        && (o.result.listQuery.Some? ==>
              o.result.intent == Some("EVENT_LIST")
              && (o.result.listQuery.value == DayQuery || Accepts(val.listQuery, o.result.listQuery.value)))
        && (o.result.taskOp.Some? || o.result.task.Some? || o.result.taskUpdate.Some? ==> o.result.intent == Some("TASK_OP"))
        && (o.result.task.Some? ==> Accepts(val.taskItem, o.result.task.value))
        && (o.result.taskUpdate.Some? ==> Accepts(val.taskUpdate, o.result.taskUpdate.value))
  {
    if reply.Content? {
      var d := Decoded(reply.raw, decode);
      if d.Some? && d.value.Obj? {
        var data := d.value.fields;
        var base := Base(data, val);
        if base.Some? {
          var name := IntentName(data);
          if name == Str("TASK_OP") && !(name == Str("EVENT_TASK") && "event" in data) {
            assert base.value.intent == Some("TASK_OP");
          }
        }
      }
    }
  }

  /**
   * An event or an update that fails validation turns the result into a
   * general question with a fixed answer: for an update, a value that is not a
   * dictionary, or `criteria` or `changes` that is not one or is rejected. An
   * event or update intent without its key keeps the envelope as it is.
   */
  lemma InvalidPayloadFallsBack(data: map<string, Value>, base: IntentResult, val: Validators)
    ensures IntentName(data) == Str("EVENT_TASK") && "event" in data && !Accepts(val.eventCreate, data["event"])
      ==> Attach(data, base, val) == Returned(base.(intent := Some("GENERAL_QA"), answer := EventTrouble))
    ensures IntentName(data) == Str("EVENT_UPDATE") && "update" in data && !data["update"].Obj?
      ==> Attach(data, base, val) == Returned(base.(intent := Some("GENERAL_QA"), answer := UpdateTrouble))
    ensures IntentName(data) == Str("EVENT_UPDATE") && "update" in data
      ==> var c, ch := UpdatePart(data["update"], "criteria"), UpdatePart(data["update"], "changes");
          !(c.Some? && ch.Some? && Accepts(val.criteria, c.value) && Accepts(val.changes, ch.value))
          ==> Attach(data, base, val) == Returned(base.(intent := Some("GENERAL_QA"), answer := UpdateTrouble))
    ensures IntentName(data) == Str("EVENT_TASK") && "event" !in data ==> Attach(data, base, val) == Returned(base)
    ensures IntentName(data) == Str("EVENT_UPDATE") && "update" !in data ==> Attach(data, base, val) == Returned(base)
  {
  }

  /**
   * A `TASK_OP` whose `task_op` is a string keeps it verbatim; one whose
   * `task_op` is neither a string nor a valid `TaskUpdate` escapes as an error,
   * while invalid `task` and `task_update` payloads are only dropped.
   */
  lemma TaskOpHandling(data: map<string, Value>, base: IntentResult, val: Validators)
    requires IntentName(data) == Str("TASK_OP")
    ensures "task_op" in data && data["task_op"].Str? ==>
      Attach(data, base, val).Returned? && Attach(data, base, val).result.taskOp == Some(data["task_op"])
    ensures "task_op" in data && !data["task_op"].Str? && !Accepts(val.taskUpdate, data["task_op"]) ==>
      Attach(data, base, val).Raised?
    ensures "task_op" !in data ==> Attach(data, base, val).Returned?
  {
  }

  /** `parse`: the gate first, then the call, the decoding and the normalisation. */
  method Parse(limiter: RateLimiter.RateLimiter, rpm: int, now: int,
               reply: Reply, decode: string -> Option<Value>, val: Validators)
    returns (o: Outcome)
    modifies limiter
    ensures var step := RateLimiter.Step(old(limiter.Queue(GateKey)), rpm, GateWindow, now);
      limiter.calls == old(limiter.calls)[GateKey := step.1]
      && (step.0 ==> o == Route(reply, decode, val))
      && (!step.0 && RateLimiter.WaitFor(step.1, rpm, GateWindow, now).Some? ==> o == Returned(Fallback(Busy)))
      && (!step.0 && RateLimiter.WaitFor(step.1, rpm, GateWindow, now).None? ==> o.Raised?)
  {
    var allowed := limiter.IsAllowed(GateKey, rpm, GateWindow, now);
    if !allowed {
      var wait := limiter.WaitTime(GateKey, rpm, GateWindow, now);
      if wait.None? {
        return Raised;
      }
      return Returned(Fallback(Busy));
    }
    o := Route(reply, decode, val);
  }
}
