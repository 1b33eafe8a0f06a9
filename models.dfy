/**
 * The record types of app/models.py: the alias normalisation that runs before
 * `EventCreate` is validated, the fields `EventCreate` requires, the domain of
 * `TaskOp.op`, and the `IntentResult` envelope with its defaults.
 *
 * Input dictionaries are decoded JSON values. Pydantic's lax coercions are
 * modelled only where stated: a string field takes a JSON string, an integer
 * field takes a JSON number with no fractional part or a string of decimal
 * digits, and unknown keys are ignored.
 */
module Models {
  import opened Common
  import opened Json

  // ---------------------------------------------------------------------
  // EventCreate._normalize_aliases
  // ---------------------------------------------------------------------

  /** `if alias in v and canonical not in v: v[canonical] = v.pop(alias)` */
  function MoveAlias(m: map<string, Value>, alias: string, canonical: string): map<string, Value>
  {
    if alias in m && canonical !in m then (m - {alias})[canonical := m[alias]] else m
  }

  /** The dictionary `_normalize_aliases` leaves behind; anything that is not a dictionary is returned as it is. */
  function AliasNormalized(v: Value): Value
  {
    if !v.Obj? then v
    else Obj(MoveAlias(MoveAlias(MoveAlias(v.fields, "date", "start_date"), "time", "start_time"), "description", "notes"))
  }

  predicate IsAliasKey(k: string)
  {
    k == "date" || k == "start_date" || k == "time" || k == "start_time" || k == "description" || k == "notes"
  }

  /** `_normalize_aliases(v)`, which rewrites the dictionary in place with `pop` and assignment. */
  method NormalizeAliases(v: Value) returns (r: Value)
    ensures r == AliasNormalized(v)
  {
    if !v.Obj? {
      return v;
    }
    var m := v.fields;
    if "date" in m && "start_date" !in m {
      var x := m["date"];
      m := m - {"date"};
      m := m["start_date" := x];
    }
    if "time" in m && "start_time" !in m {
      var x := m["time"];
      m := m - {"time"};
      m := m["start_time" := x];
    }
    if "description" in m && "notes" !in m {
      var x := m["description"];
      m := m - {"description"};
      m := m["notes" := x];
    }
    r := Obj(m);
  }

  /**
   * For each alias pair: the canonical key is present afterwards exactly when
   * either key was, it keeps its own value when it had one and takes the
   * alias's value otherwise, and the alias key survives only next to a
   * canonical key that was already there.
   */
  lemma AliasPair(m: map<string, Value>, alias: string, canonical: string)
    requires (alias, canonical) in {("date", "start_date"), ("time", "start_time"), ("description", "notes")}
    ensures var r := AliasNormalized(Obj(m)).fields;
      (canonical in r <==> canonical in m || alias in m)
      && (canonical in m ==> r[canonical] == m[canonical])
      && (canonical !in m && alias in m ==> r[canonical] == m[alias])
      && (alias in r <==> alias in m && canonical in m)
      && (alias in r ==> r[alias] == m[alias])
  {
  }

  /** Keys other than the three aliases and their canonical names are never touched. */
  lemma OtherKeysKept(m: map<string, Value>, k: string)
    requires !IsAliasKey(k)
    ensures var r := AliasNormalized(Obj(m)).fields;
      (k in r <==> k in m) && (k in m ==> r[k] == m[k])
  {
  }

  /** Normalising twice is normalising once. */
  lemma AliasesIdempotent(v: Value)
    ensures AliasNormalized(AliasNormalized(v)) == AliasNormalized(v)
  {
  }

  // ---------------------------------------------------------------------
  // EventCreate
  // ---------------------------------------------------------------------

  /** `EventCreate`: title and start date are required, the rest default to `None` (not to 60 minutes). */
  datatype EventCreate = EventCreate(
    title: string,
    startDate: string,
    startTime: Option<string>,
    durationMinutes: Option<int>,
    location: Option<string>,
    notes: Option<string>)

  /** An optional string field: absent or null is `None`, a string is kept, anything else fails. */
  function OptString(m: map<string, Value>, key: string): (r: Option<Option<string>>)
    ensures key !in m ==> r == Some(None)
    ensures key in m && m[key].Null? ==> r == Some(None)
    ensures key in m && m[key].Str? ==> r == Some(Some(m[key].s))
    ensures r.None? <==> key in m && !m[key].Null? && !m[key].Str?
  {
    if key !in m then Some(None)
    else match m[key]
      case Null => Some(None)
      case Str(s) => Some(Some(s))
      case _ => None
  }

  /** An optional integer field, with pydantic's lax reading of integral numbers and digit strings. */
  function OptInt(m: map<string, Value>, key: string): (r: Option<Option<int>>)
    ensures key !in m ==> r == Some(None)
    ensures key in m && m[key].Num? && m[key].n == m[key].n.Floor as real ==> r == Some(Some(m[key].n.Floor))
    ensures key in m && m[key].Str? && m[key].s != [] && AllDigits(m[key].s) ==> r == Some(Some(DigitsValue(m[key].s)))
  {
    if key !in m then Some(None)
    else match m[key]
      case Null => Some(None)
      case Num(n) => if n == n.Floor as real then Some(Some(n.Floor)) else None
      case Str(s) => if s != [] && AllDigits(s) then Some(Some(DigitsValue(s))) else None
      case _ => None
  }

  /** `EventCreate(**v)` after alias normalisation; `None` is a validation error. */
  function ParseEventCreate(v: Value): (r: Option<EventCreate>)
    ensures r.Some? ==> v.Obj?
    ensures r.Some? ==> var m := AliasNormalized(v).fields;
      "title" in m && m["title"] == Str(r.value.title) && "start_date" in m && m["start_date"] == Str(r.value.startDate)
    ensures v.Obj? && "title" !in v.fields ==> r.None?
    ensures v.Obj? && "start_date" !in v.fields && "date" !in v.fields ==> r.None?
  {
    var n := AliasNormalized(v);
    if !n.Obj? then None
    else
      var m := n.fields;
      if "title" !in m || !m["title"].Str? || "start_date" !in m || !m["start_date"].Str? then None
      else
        var st, dur, loc, notes := OptString(m, "start_time"), OptInt(m, "duration_minutes"), OptString(m, "location"), OptString(m, "notes");
        if st.None? || dur.None? || loc.None? || notes.None? then None
        else Some(EventCreate(m["title"].s, m["start_date"].s, st.value, dur.value, loc.value, notes.value))
  }

  /** The old key names are accepted: `{"title", "date", "time", "description"}` gives the same event as the canonical names. */
  lemma LegacyKeysAccepted(title: string, date: string, time: string, desc: string)
    ensures ParseEventCreate(Obj(map["title" := Str(title), "date" := Str(date), "time" := Str(time), "description" := Str(desc)]))
      == Some(EventCreate(title, date, Some(time), None, None, Some(desc)))
  {
    var m := map["title" := Str(title), "date" := Str(date), "time" := Str(time), "description" := Str(desc)];
    var n := AliasNormalized(Obj(m)).fields;
    assert n == map["title" := Str(title), "start_date" := Str(date), "start_time" := Str(time), "notes" := Str(desc)];
  }

  // ---------------------------------------------------------------------
  // TaskOp
  // ---------------------------------------------------------------------

  datatype OpKind = Create | Update | ListOp | Complete | Delete

  function OpName(k: OpKind): string
  {
    match k
    case Create => "create"
    case Update => "update"
    case ListOp => "list"
    case Complete => "complete"
    case Delete => "delete"
  }

  /** The `Literal["create", "update", "list", "complete", "delete"]` check on `TaskOp.op`. */
  function ParseOp(s: string): (r: Option<OpKind>)
    ensures r.Some? ==> OpName(r.value) == s
  {
    if s == "create" then Some(Create)
    else if s == "update" then Some(Update)
    else if s == "list" then Some(ListOp)
    else if s == "complete" then Some(Complete)
    else if s == "delete" then Some(Delete)
    else None
  }

  /** A string is read as an operation exactly when it is that operation's name. */
  lemma OpRoundTrip(k: OpKind, s: string)
    ensures ParseOp(s) == Some(k) <==> s == OpName(k)
  {
  }

  datatype TaskOp = TaskOp(op: OpKind, criteria: Option<map<string, Value>>)

  // ---------------------------------------------------------------------
  // IntentResult
  // ---------------------------------------------------------------------

  /**
   * The router's envelope. Sub-payloads (`event`, `update`, `task_op`, `task`,
   * `task_update`, `list_query`) are kept as the JSON value that was accepted
   * for them.
   */
  datatype IntentResult = IntentResult(
    intent: Option<string>,
    answer: string,
    confidence: Option<real>,
    recencyRequired: Option<bool>,
    domain: Option<string>,
    event: Option<Value>,
    update: Option<Value>,
    taskOp: Option<Value>,
    task: Option<Value>,
    taskUpdate: Option<Value>,
    listQuery: Option<Value>)

  /** `IntentResult(intent=..., answer=...)`: every other field takes its default. */
  function Envelope(intent: Option<string>, answer: string): (r: IntentResult)
    ensures r.intent == intent && r.answer == answer
    ensures r.confidence.None? && r.recencyRequired.None? && r.domain.None?
    ensures r.event.None? && r.update.None? && r.taskOp.None? && r.task.None? && r.taskUpdate.None? && r.listQuery.None?
  {
    IntentResult(intent, answer, None, None, None, None, None, None, None, None, None)
  }

  /** `IntentResult(intent="EVENT_UPDATE")` has an empty answer and no event. */
  lemma MinimalStub()
    ensures Envelope(Some("EVENT_UPDATE"), "").answer == "" && Envelope(Some("EVENT_UPDATE"), "").event.None?
  {
  }

  /**
   * Which sub-payloads pydantic would accept: the routers cannot see inside the
   * sub-models, so each validity check is a predicate on the dictionary given.
   */
  datatype Validators = Validators(
    eventCreate: map<string, Value> -> bool,
    eventUpdate: map<string, Value> -> bool,
    criteria: map<string, Value> -> bool,
    changes: map<string, Value> -> bool,
    listQuery: map<string, Value> -> bool,
    taskItem: map<string, Value> -> bool,
    taskUpdate: map<string, Value> -> bool,
    taskOp: map<string, Value> -> bool,
    laxFloat: Value -> Option<real>,
    laxBool: Value -> Option<bool>)

  /** `Model(**v)`: `v` must be a dictionary (otherwise `**` raises a `TypeError`) that the model accepts. */
  predicate Accepts(valid: map<string, Value> -> bool, v: Value)
  {
    v.Obj? && valid(v.fields)
  }

  /**
   * The scalar fields of `IntentResult` as its constructor validates them: the
   * outer `None` is a validation error, the inner one a `None` field.
   */
  function OptStrField(v: Value): (r: Option<Option<string>>)
    ensures r == Some(None) <==> v.Null?
    ensures r.Some? && r.value.Some? <==> v.Str?
    ensures v.Str? ==> r == Some(Some(v.s))
  {
    match v
    case Null => Some(None)
    case Str(s) => Some(Some(s))
    case _ => None
  }

  /** `answer: str`: a string, and never `None`. */
  function StrField(v: Value): (r: Option<string>)
    ensures r.Some? <==> v.Str?
    ensures v.Str? ==> r == Some(v.s)
  {
    if v.Str? then Some(v.s) else None
  }

  /** `Optional[float]`: numbers are taken as they are; other inputs go through pydantic's lax reading. */
  function OptFloatField(v: Value, val: Validators): (r: Option<Option<real>>)
    ensures v.Null? ==> r == Some(None)
    ensures v.Num? ==> r == Some(Some(v.n))
  {
    match v
    case Null => Some(None)
    case Num(n) => Some(Some(n))
    case _ => if val.laxFloat(v).Some? then Some(Some(val.laxFloat(v).value)) else None
  }

  /** `Optional[bool]`: booleans are taken as they are; other inputs go through pydantic's lax reading. */
  function OptBoolField(v: Value, val: Validators): (r: Option<Option<bool>>)
    ensures v.Null? ==> r == Some(None)
    ensures v.Bool? ==> r == Some(Some(v.b))
  {
    match v
    case Null => Some(None)
    case Bool(b) => Some(Some(b))
    case _ => if val.laxBool(v).Some? then Some(Some(val.laxBool(v).value)) else None
  }
}
