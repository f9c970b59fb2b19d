/**
 * The shape of the agent's answer and its validator. Every top-level field is
 * optional; a present field must have the right type; absent `previous` and
 * `delta_pct` default to the empty string; unknown keys are dropped.
 * "Optional" means absent: a key present with the value null is rejected.
 */
module AgentSchema {
  import opened Wrappers
  import opened JsonValues

  datatype Window = Window(start: string, end: string)
  datatype Metric = Metric(current: string, previous: string, deltaPct: string)
  datatype AgentResponse = AgentResponse(question: Option<string>, window: Option<Window>,
                                         cac: Option<Metric>, roas: Option<Metric>)

  // ---- what conforming means, field by field

  predicate IsString(v: Option<Json>)
  {
    v.Some? && v.value.JStr?
  }

  predicate OptionalString(v: Option<Json>)
  {
    v.None? || IsString(v)
  }

  predicate WindowConforms(v: Option<Json>)
  {
    v.None? || (v.value.JObj? && IsString(Get(v.value, "start")) && IsString(Get(v.value, "end")))
  }

  predicate MetricConforms(v: Option<Json>)
  {
    v.None? ||
    (v.value.JObj? && IsString(Get(v.value, "current")) &&
     OptionalString(Get(v.value, "previous")) && OptionalString(Get(v.value, "delta_pct")))
  }

  /** The value is an object whose schema fields, where present, have the schema's types. */
  predicate Conforms(j: Json)
  {
    j.JObj? && OptionalString(Get(j, "question")) && WindowConforms(Get(j, "window")) &&
    MetricConforms(Get(j, "cac")) && MetricConforms(Get(j, "roas"))
  }

  /** The string held by a present string field, or `default` when the field is absent. */
  function StringOr(v: Option<Json>, default: string): string
  {
    if IsString(v) then v.value.s else default
  }

  // ---- the validator

  /** Result of validating one optional field: rejected, or accepted with its value if present. */
  datatype Field<T> = Rejected | Accepted(value: Option<T>)

  function ParseOptionalString(v: Option<Json>): (r: Field<string>)
    ensures r.Accepted? <==> OptionalString(v)
    ensures r.Accepted? ==> r.value == (if v.Some? then Some(v.value.s) else None)
  {
    match v
    case None => Accepted(None)
    case Some(JStr(s)) => Accepted(Some(s))
    case Some(_) => Rejected
  }

  /** `z.string().optional().default('')`: None means rejected. */
  function ParseDefaulted(v: Option<Json>): (r: Option<string>)
    ensures r.Some? <==> OptionalString(v)
    ensures r.Some? ==> r.value == StringOr(v, "")
  {
    match v
    case None => Some("")
    case Some(JStr(s)) => Some(s)
    case Some(_) => None
  }

  function ParseWindow(v: Option<Json>): (r: Field<Window>)
    ensures r.Accepted? <==> WindowConforms(v)
    ensures r.Accepted? ==> (r.value.Some? <==> v.Some?)
    ensures r.Accepted? && v.Some? ==>
              r.value.value == Window(Get(v.value, "start").value.s, Get(v.value, "end").value.s)
  {
    match v
    case None => Accepted(None)
    case Some(w) =>
      match (Get(w, "start"), Get(w, "end"))
      case (Some(JStr(start)), Some(JStr(end))) => Accepted(Some(Window(start, end)))
      case _ => Rejected
  }

  function ParseMetric(v: Option<Json>): (r: Field<Metric>)
    ensures r.Accepted? <==> MetricConforms(v)
    ensures r.Accepted? ==> (r.value.Some? <==> v.Some?)
    ensures r.Accepted? && v.Some? ==>
              r.value.value == Metric(Get(v.value, "current").value.s,
                                      StringOr(Get(v.value, "previous"), ""),
                                      StringOr(Get(v.value, "delta_pct"), ""))
  {
    match v
    case None => Accepted(None)
    case Some(m) =>
      match (Get(m, "current"), ParseDefaulted(Get(m, "previous")), ParseDefaulted(Get(m, "delta_pct")))
      case (Some(JStr(current)), Some(previous), Some(deltaPct)) => Accepted(Some(Metric(current, previous, deltaPct)))
      case _ => Rejected
  }

  /** AgentResponseSchema.safeParse: the normalised answer, or None on a schema violation. */
  function Validate(j: Json): (r: Option<AgentResponse>)
    ensures r.Some? <==> Conforms(j)
  {
    if !j.JObj? then None
    else
      match (ParseOptionalString(Get(j, "question")), ParseWindow(Get(j, "window")),
             ParseMetric(Get(j, "cac")), ParseMetric(Get(j, "roas")))
      case (Accepted(question), Accepted(window), Accepted(cac), Accepted(roas)) =>
        Some(AgentResponse(question, window, cac, roas))
      case _ => None
  }

  /**
   * An accepted answer keeps exactly the schema fields the input had, with
   * the input's strings, and the empty string for an absent `previous` or
   * `delta_pct`.
   */
  lemma ValidateKeepsFields(j: Json)
    requires Validate(j).Some?
    ensures var r := Validate(j).value;
      (r.question.Some? <==> "question" in j.fields) &&
      (r.window.Some? <==> "window" in j.fields) &&
      (r.cac.Some? <==> "cac" in j.fields) &&
      (r.roas.Some? <==> "roas" in j.fields) &&
      (r.question.Some? ==> r.question.value == j.fields["question"].s) &&
      (r.window.Some? ==> r.window.value.start == Get(j.fields["window"], "start").value.s &&
                          r.window.value.end == Get(j.fields["window"], "end").value.s) &&
      (r.cac.Some? ==> r.cac.value.current == Get(j.fields["cac"], "current").value.s &&
                       r.cac.value.previous == StringOr(Get(j.fields["cac"], "previous"), "") &&
                       r.cac.value.deltaPct == StringOr(Get(j.fields["cac"], "delta_pct"), "")) &&
      (r.roas.Some? ==> r.roas.value.current == Get(j.fields["roas"], "current").value.s &&
                        r.roas.value.previous == StringOr(Get(j.fields["roas"], "previous"), "") &&
                        r.roas.value.deltaPct == StringOr(Get(j.fields["roas"], "delta_pct"), ""))
  {
  }

  /** A present metric without a string `current` makes the whole answer a schema violation. */
  lemma RejectsMetricWithoutCurrent(j: Json, key: string)
    requires key == "cac" || key == "roas"
    requires Get(j, key).Some? && !IsString(Get(Get(j, key).value, "current"))
    ensures Validate(j).None?
  {
  }

  /** A present window lacking a string `start` or `end` makes the answer a schema violation. */
  lemma RejectsIncompleteWindow(j: Json)
    requires Get(j, "window").Some?
    requires !IsString(Get(Get(j, "window").value, "start")) || !IsString(Get(Get(j, "window").value, "end"))
    ensures Validate(j).None?
  {
  }

  // ---- the normalised answer as a JSON value again

  function Put(m: map<string, Json>, key: string, v: Option<Json>): map<string, Json>
  {
    if v.Some? then m[key := v.value] else m
  }

  function WindowJson(w: Window): Json
  {
    JObj(map["start" := JStr(w.start), "end" := JStr(w.end)])
  }

  function MetricJson(m: Metric): Json
  {
    JObj(map["current" := JStr(m.current), "previous" := JStr(m.previous), "delta_pct" := JStr(m.deltaPct)])
  }

  function Lift<T>(o: Option<T>, f: T -> Json): Option<Json>
  {
    if o.Some? then Some(f(o.value)) else None
  }

  /** The parsed object as plain data: every present field, defaults already filled in. */
  function ToJson(r: AgentResponse): Json
  {
    JObj(Put(Put(Put(Put(map[], "question", Lift(r.question, s => JStr(s))),
                     "window", Lift(r.window, WindowJson)),
                 "cac", Lift(r.cac, MetricJson)),
             "roas", Lift(r.roas, MetricJson)))
  }

  /** A metric written out as JSON parses back to itself. */
  lemma MetricRoundTrip(m: Option<Metric>)
    ensures ParseMetric(Lift(m, MetricJson)) == Accepted(m)
  {
    if m.Some? {
      var o := MetricJson(m.value);
      assert Get(o, "current") == Some(JStr(m.value.current));
      assert Get(o, "previous") == Some(JStr(m.value.previous));
      assert Get(o, "delta_pct") == Some(JStr(m.value.deltaPct));
    }
  }

  /** A window written out as JSON parses back to itself. */
  lemma WindowRoundTrip(w: Option<Window>)
    ensures ParseWindow(Lift(w, WindowJson)) == Accepted(w)
  {
    if w.Some? {
      var o := WindowJson(w.value);
      assert Get(o, "start") == Some(JStr(w.value.start));
      assert Get(o, "end") == Some(JStr(w.value.end));
    }
  }

  /** Validating a normalised answer again gives it back unchanged. */
  lemma RevalidateIsIdentity(r: AgentResponse)
    ensures Validate(ToJson(r)) == Some(r)
  {
    var j := ToJson(r);
    assert Get(j, "question") == Lift(r.question, s => JStr(s));
    assert Get(j, "window") == Lift(r.window, WindowJson);
    assert Get(j, "cac") == Lift(r.cac, MetricJson);
    assert Get(j, "roas") == Lift(r.roas, MetricJson);
    WindowRoundTrip(r.window);
    MetricRoundTrip(r.cac);
    MetricRoundTrip(r.roas);
  }

  /** Idempotence: re-validating an accepted answer yields the identical normalised result. */
  lemma ValidateIdempotent(j: Json)
    requires Validate(j).Some?
    ensures Validate(ToJson(Validate(j).value)) == Validate(j)
  {
    RevalidateIsIdentity(Validate(j).value);
  }
}
