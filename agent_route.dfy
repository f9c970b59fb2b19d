/**
 * The server endpoint that forwards a question to the workflow engine under
 * a deadline. The engine's outcome is an input; the timer and the outbound
 * call are recorded as effects.
 */
module AgentRoute {
  import opened Wrappers
  import opened JsonValues

  const QuestionRequired := "Field \"question\" is required."
  const UpstreamFailed := "Failed to query agent in n8n"

  /** What the engine call yields: its data, or the message of the Error it threw. */
  datatype Upstream = UpOk(data: Json) | UpErr(message: string)

  /** The HTTP answer, or an exception that escapes the handler (answered by the framework, not by this code). */
  datatype Reply = Respond(status: nat, body: Json) | Uncaught

  /** The handler's side effects: the deadline timer and the call to the engine. */
  datatype Effect = ArmTimer(ms: nat) | CallUpstream(payload: Json) | ClearTimer

  function ErrorBody(message: string): Json
  {
    Singleton("error", JStr(message))
  }

  function QuestionPayload(q: string): Json
  {
    Singleton("question", JStr(q))
  }

  /**
   * The `question` read from the request body; None is the body that is not
   * JSON, which counts as `{question: ''}`.
   */
  function QuestionOf(body: Option<Json>): (q: Option<Json>)
    ensures body.None? ==> q == Some(JStr(""))
    ensures body.Some? && body.value.JObj? ==>
              (q.Some? <==> "question" in body.value.fields) &&
              (q.Some? ==> q.value == body.value.fields["question"])
    ensures body.Some? && !body.value.JObj? ==> q.None?
  {
    if body.None? then Some(JStr("")) else Get(body.value, "question")
  }

  /**
   * The question the handler accepts: a string that is not empty. It is not
   * trimmed, so a question of spaces is accepted.
   */
  function AcceptedQuestion(body: Option<Json>): (q: Option<string>)
    ensures q.Some? <==> IsNonEmptyString(QuestionOf(body))
    ensures q.Some? ==> QuestionOf(body) == Some(JStr(q.value))
    ensures body.None? ==> q.None?
  {
    match QuestionOf(body)
    case Some(JStr(s)) => if s != "" then Some(s) else None
    case _ => None
  }

  predicate IsNonEmptyString(v: Option<Json>)
  {
    v.Some? && v.value.JStr? && v.value.s != ""
  }

  /**
   * POST /api/agent. A JSON null body cannot be destructured and throws
   * before the handler answers. A missing or unusable question gets 400; an
   * accepted one goes to the engine, whose data comes back unchanged with 200
   * or whose failure comes back as 502 with its message.
   */
  function Post(body: Option<Json>, upstream: Upstream): (r: Reply)
    ensures r.Uncaught? <==> body == Some(JNull)
    ensures r.Respond? && r.status == 400 <==> body != Some(JNull) && AcceptedQuestion(body).None?
    ensures r.Respond? && r.status == 400 ==> r.body == ErrorBody(QuestionRequired)
    ensures r.Respond? && r.status == 200 <==> AcceptedQuestion(body).Some? && upstream.UpOk?
    ensures r.Respond? && r.status == 200 ==> r.body == upstream.data
    ensures r.Respond? && r.status == 502 <==> AcceptedQuestion(body).Some? && upstream.UpErr?
    ensures r.Respond? && r.status == 502 ==>
              r.body == ErrorBody(if upstream.message != "" then upstream.message else UpstreamFailed)
  {
    if body == Some(JNull) then Uncaught
    else match AcceptedQuestion(body)
      case None => Respond(400, ErrorBody(QuestionRequired))
      case Some(_) =>
        match upstream
        case UpOk(data) => Respond(200, data)
        case UpErr(message) => Respond(502, ErrorBody(if message != "" then message else UpstreamFailed))
  }

  /** A body that is not JSON is answered with 400. */
  lemma MalformedBodyRejected(upstream: Upstream)
    ensures Post(None, upstream) == Respond(400, ErrorBody(QuestionRequired))
  {
  }

  /** A question made only of spaces is forwarded as it is. */
  lemma BlankQuestionForwarded(q: string)
    requires q != ""
    ensures AcceptedQuestion(Some(QuestionPayload(q))) == Some(q)
  {
  }

  // ---- the timer discipline

  function TimerDelta(e: Effect): int
  {
    match e
    case ArmTimer(_) => 1
    case ClearTimer => -1
    case CallUpstream(_) => 0
  }

  /** Timers armed and not yet cleared after the effects in `log`. */
  function OpenTimers(log: seq<Effect>): int
  {
    if log == [] then 0 else OpenTimers(log[..|log| - 1]) + TimerDelta(log[|log| - 1])
  }

  lemma {:induction false} OpenTimersAppend(a: seq<Effect>, b: seq<Effect>)
    ensures OpenTimers(a + b) == OpenTimers(a) + OpenTimers(b)
    decreases |b|
  {
    if b == [] {
      assert a + b == a;
    } else {
      var b' := b[..|b| - 1];
      assert (a + b)[..|a + b| - 1] == a + b';
      OpenTimersAppend(a, b');
    }
  }

  /**
   * Every effect log the endpoint produces leaves no timer armed, and every
   * engine call happens while a timer is armed.
   */
  ghost predicate Disciplined(log: seq<Effect>)
  {
    OpenTimers(log) == 0 &&
    forall i :: 0 <= i < |log| && log[i].CallUpstream? ==> OpenTimers(log[..i]) > 0
  }

  /** Appending one armed-call-cleared round keeps a log disciplined. */
  lemma {:induction false} RoundKeepsDiscipline(log: seq<Effect>, ms: nat, payload: Json)
    requires Disciplined(log)
    ensures Disciplined(log + [ArmTimer(ms), CallUpstream(payload), ClearTimer])
  {
    var round := [ArmTimer(ms), CallUpstream(payload), ClearTimer];
    var log' := log + round;
    OpenTimersAppend(log, round);
    assert OpenTimers(round) == 0 by {
      var armedOnly := [ArmTimer(ms)];
      var called := [ArmTimer(ms), CallUpstream(payload)];
      assert armedOnly[..0] == [];
      assert OpenTimers(armedOnly) == 1;
      assert called[..1] == armedOnly;
      assert OpenTimers(called) == 1;
      assert round[..2] == called;
    }
    forall i | 0 <= i < |log'| && log'[i].CallUpstream?
      ensures OpenTimers(log'[..i]) > 0
    {
      if i < |log| {
        assert log'[..i] == log[..i];
      } else {
        assert i == |log| + 1;
        assert log'[..i] == log + [ArmTimer(ms)];
        OpenTimersAppend(log, [ArmTimer(ms)]);
        assert [ArmTimer(ms)][..0] == [];
      }
    }
  }

  class Endpoint {
    /** The deadline, N8N_TIMEOUT_MS. */
    const timeoutMs: nat
    var log: seq<Effect>
    ghost var armed: bool

    ghost predicate Valid()
      reads this
    {
      !armed && Disciplined(log)
    }

    constructor (timeoutMs: nat)
      ensures Valid() && this.timeoutMs == timeoutMs && log == []
    {
      this.timeoutMs := timeoutMs;
      log := [];
      armed := false;
    }

    /** Calls the engine once with `payload`; only allowed while the deadline timer is armed. */
    method Call(payload: Json, upstream: Upstream) returns (outcome: Upstream)
      requires armed
      modifies this`log
      ensures log == old(log) + [CallUpstream(payload)]
      ensures outcome == upstream
    {
      log := log + [CallUpstream(payload)];
      outcome := upstream;
    }

    /**
     * Handles one request. A rejected request makes no call and arms no
     * timer; an accepted one arms the timer, calls the engine exactly once
     * with `{question}`, and clears the timer on both outcomes.
     */
    method Handle(body: Option<Json>, upstream: Upstream) returns (r: Reply)
      requires Valid()
      modifies this`log, this`armed
      ensures Valid()
      ensures r == Post(body, upstream)
      ensures body == Some(JNull) || AcceptedQuestion(body).None? ==> log == old(log)
      ensures body != Some(JNull) && AcceptedQuestion(body).Some? ==>
                log == old(log) + [ArmTimer(timeoutMs), CallUpstream(QuestionPayload(AcceptedQuestion(body).value)), ClearTimer]
    {
      if body == Some(JNull) {
        return Uncaught;
      }
      var question := AcceptedQuestion(body);
      if question.None? {
        return Respond(400, ErrorBody(QuestionRequired));
      }
      ghost var before := log;
      log := log + [ArmTimer(timeoutMs)];
      armed := true;
      var outcome := Call(QuestionPayload(question.value), upstream);
      match outcome {
        case UpOk(data) =>
          r := Respond(200, data);
        case UpErr(message) =>
          r := Respond(502, ErrorBody(if message != "" then message else UpstreamFailed));
      }
      log := log + [ClearTimer];
      armed := false;
      assert log == before + [ArmTimer(timeoutMs), CallUpstream(QuestionPayload(question.value)), ClearTimer];
      RoundKeepsDiscipline(before, timeoutMs, QuestionPayload(question.value));
    }
  }
}
