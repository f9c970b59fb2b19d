/**
 * The conversation behind the question form: an ordered list of messages.
 * A submission appends the user's question and a pending answer; when the
 * request ends, the pending answer is replaced by id on success, while a
 * failure settles every answer that is still loading.
 */
module AgentForm {
  import opened Wrappers
  import opened JsonValues
  import opened Text
  import opened Numbers
  import opened MetricsChart
  import opened AgentSchema
  import opened AgentMetrics
  import AgentRoute

  const PendingText := "Consultando\U{2026}"
  const AnswerText := "Here is your answer:"
  const FailedText := "Erro ao obter resposta."
  const UnexpectedError := "Erro inesperado"
  const SchemaViolation := "Invalid agent response (schema)."

  /** The reporting window of an answer, as shown under its chart. */
  datatype Meta = Meta(start: Option<string>, end: Option<string>)

  datatype Msg =
    | UserMsg(id: string, text: string)
    | AgentMsg(id: string, text: string, chartData: Option<seq<PeriodRow>>, meta: Option<Meta>,
               loading: bool, deltas: Option<Deltas>)

  /** The placeholder appended together with the question. */
  function Pending(id: string): (m: Msg)
    ensures m.AgentMsg? && m.id == id && m.loading && m.text == PendingText
    ensures m.chartData.None? && m.meta.None? && m.deltas.None?
    ensures Settled(m) == AgentMsg(id, FailedText, None, None, false, None)
  {
    AgentMsg(id, PendingText, None, None, true, None)
  }

  /** The completed answer for a validated response. */
  function Answered(id: string, d: AgentResponse, parse: string -> Num): (m: Msg)
    ensures m.AgentMsg? && m.id == id && !m.loading && m.text == AnswerText
    ensures m.chartData == Some(PeriodData(d, parse)) && m.deltas == Some(DeltasOf(d, parse))
    ensures m.meta.Some? && (m.meta.value.start.Some? <==> d.window.Some?) && (m.meta.value.end.Some? <==> d.window.Some?)
    ensures d.window.Some? ==> m.meta == Some(Meta(Some(d.window.value.start), Some(d.window.value.end)))
  {
    var start := if d.window.Some? then Some(d.window.value.start) else None;
    var end := if d.window.Some? then Some(d.window.value.end) else None;
    AgentMsg(id, AnswerText, Some(PeriodData(d, parse)), Some(Meta(start, end)), false, Some(DeltasOf(d, parse)))
  }

  /** What a failure does to one message: a loading answer stops loading and shows the failure text. */
  function Settled(m: Msg): (r: Msg)
    ensures r.id == m.id
    ensures !(m.AgentMsg? && m.loading) ==> r == m
    ensures m.AgentMsg? && m.loading ==>
              r == AgentMsg(m.id, FailedText, m.chartData, m.meta, false, m.deltas)
  {
    if m.AgentMsg? && m.loading then m.(loading := false, text := FailedText) else m
  }

  /** The error line: the thrown message, or a generic text when it is empty. */
  function ErrorText(message: string): (r: string)
    ensures r != ""
    ensures message != "" ==> r == message
    ensures message == "" ==> r == UnexpectedError
  {
    if message != "" then message else UnexpectedError
  }

  /** How the request to the agent endpoint can end, as seen from the browser. */
  datatype AgentReply =
    | NetworkFailure(message: string)            // fetch itself rejected
    | HttpFailure(status: nat, body: string)     // a response that is not ok, with its text
    | UnreadableBody(message: string)            // an ok response whose JSON could not be read
    | Delivered(json: Json)                      // an ok response and its JSON

  /** The message of the Error the request ends with, or the validated answer. */
  function ReplyOutcome(reply: AgentReply): (r: Result<AgentResponse>)
    ensures r.Ok? <==> reply.Delivered? && Conforms(reply.json)
    ensures r.Ok? ==> Validate(reply.json) == Some(r.value)
    ensures reply.Delivered? && !Conforms(reply.json) ==> r == Err(SchemaViolation)
    ensures reply.NetworkFailure? || reply.UnreadableBody? ==> r == Err(reply.message)
    ensures reply.HttpFailure? ==>
              r == Err(if reply.body != "" then reply.body else "HTTP " + DecimalString(reply.status))
  {
    match reply
    case NetworkFailure(message) => Err(message)
    case HttpFailure(status, body) => Err(if body != "" then body else "HTTP " + DecimalString(status))
    case UnreadableBody(message) => Err(message)
    case Delivered(json) =>
      match Validate(json)
      case None => Err(SchemaViolation)
      case Some(d) => Ok(d)
  }

  ghost predicate UniqueIds(ms: seq<Msg>)
  {
    forall i, j :: 0 <= i < j < |ms| ==> ms[i].id != ms[j].id
  }

  ghost predicate FreshId(ms: seq<Msg>, id: string)
  {
    forall i :: 0 <= i < |ms| ==> ms[i].id != id
  }

  /** Appending two messages with new, distinct ids keeps the ids distinct. */
  lemma AppendKeepsUnique(ms: seq<Msg>, x: Msg, y: Msg)
    requires UniqueIds(ms) && FreshId(ms, x.id) && FreshId(ms, y.id) && x.id != y.id
    ensures UniqueIds(ms + [x, y])
  {
    var ms' := ms + [x, y];
    forall i, j | 0 <= i < j < |ms'| ensures ms'[i].id != ms'[j].id {
      if j < |ms| {
        assert ms'[i] == ms[i] && ms'[j] == ms[j];
      } else if i < |ms| {
        assert ms'[i] == ms[i];
      }
    }
  }

  class Conversation {
    var msgs: seq<Msg>
    var loading: bool
    var error: Option<string>
    var prompt: string

    /** Message ids are distinct, so resolving by id touches at most one message. */
    ghost predicate Valid()
      reads this
    {
      UniqueIds(msgs)
    }

    constructor ()
      ensures Valid()
      ensures msgs == [] && !loading && error == None && prompt == ""
    {
      msgs := [];
      loading := false;
      error := None;
      prompt := "";
    }

    /** Typing in the input. */
    method SetPrompt(p: string)
      requires Valid()
      modifies this`prompt
      ensures Valid()
      ensures prompt == p
    {
      prompt := p;
    }

    /**
     * Submitting the form. The error line is cleared first. A prompt that
     * trims to nothing changes nothing else and sends nothing; otherwise the
     * trimmed text is sent, the question and a pending answer (with the two
     * fresh ids) are appended, the input is cleared and loading starts.
     */
    method Submit(idUser: string, idBot: string) returns (sent: Option<string>)
      requires Valid()
      requires Trim(prompt) != "" ==> idUser != idBot && FreshId(msgs, idUser) && FreshId(msgs, idBot)
      modifies this
      ensures Valid()
      ensures error == None
      ensures sent == if Trim(old(prompt)) == "" then None else Some(Trim(old(prompt)))
      ensures sent.None? ==> msgs == old(msgs) && loading == old(loading) && prompt == old(prompt)
      ensures sent.Some? ==>
                msgs == old(msgs) + [UserMsg(idUser, sent.value), Pending(idBot)] && loading && prompt == ""
    {
      var text := Trim(prompt);
      if text == "" {
        error := None;
        return None;
      }
      AppendKeepsUnique(msgs, UserMsg(idUser, text), Pending(idBot));
      msgs := msgs + [UserMsg(idUser, text), Pending(idBot)];
      sent := Some(text);
      prompt := "";
      loading := true;
      error := None;
    }

    /**
     * The request for answer `id` succeeded with a valid response: the message
     * with that id, and no other, becomes the completed answer; loading ends.
     */
    method ResolveSuccess(id: string, d: AgentResponse, parse: string -> Num)
      requires Valid()
      modifies this`msgs, this`loading
      ensures Valid()
      ensures |msgs| == |old(msgs)|
      ensures forall i :: 0 <= i < |msgs| ==>
                msgs[i] == if old(msgs)[i].id == id then Answered(id, d, parse) else old(msgs)[i]
      ensures !loading
    {
      var done := [];
      var i := 0;
      while i < |msgs|
        invariant 0 <= i <= |msgs| && |done| == i
        invariant forall k :: 0 <= k < i ==>
                    done[k] == if msgs[k].id == id then Answered(id, d, parse) else msgs[k]
      {
        done := done + [if msgs[i].id == id then Answered(id, d, parse) else msgs[i]];
        i := i + 1;
      }
      msgs := done;
      loading := false;
    }

    /**
     * A request failed with `message`: every agent message that is still
     * loading, whichever request it belongs to, settles to the failure text;
     * the error line shows the message; loading ends.
     */
    method ResolveFailure(message: string)
      requires Valid()
      modifies this`msgs, this`loading, this`error
      ensures Valid()
      ensures |msgs| == |old(msgs)|
      ensures forall i :: 0 <= i < |msgs| ==> msgs[i] == Settled(old(msgs)[i])
      ensures !loading && error == Some(ErrorText(message))
    {
      var done := [];
      var i := 0;
      while i < |msgs|
        invariant 0 <= i <= |msgs| && |done| == i
        invariant forall k :: 0 <= k < i ==> done[k] == Settled(msgs[k])
      {
        done := done + [Settled(msgs[i])];
        i := i + 1;
      }
      msgs := done;
      loading := false;
      error := Some(ErrorText(message));
    }

    /** The request for answer `id` ended with `reply`. */
    method Settle(id: string, reply: AgentReply, parse: string -> Num)
      requires Valid()
      modifies this`msgs, this`loading, this`error
      ensures Valid()
      ensures |msgs| == |old(msgs)| && !loading
      ensures match ReplyOutcome(reply)
              case Ok(d) =>
                error == old(error) &&
                forall i :: 0 <= i < |msgs| ==>
                  msgs[i] == if old(msgs)[i].id == id then Answered(id, d, parse) else old(msgs)[i]
              case Err(e) =>
                error == Some(ErrorText(e)) &&
                forall i :: 0 <= i < |msgs| ==> msgs[i] == Settled(old(msgs)[i])
    {
      match ReplyOutcome(reply)
      case Ok(d) => ResolveSuccess(id, d, parse);
      case Err(e) => ResolveFailure(e);
    }
  }

  /** Nothing is left loading after a failure, and user messages are never touched by one. */
  lemma FailureSettlesAll(ms: seq<Msg>, i: nat)
    requires i < |ms|
    ensures !(Settled(ms[i]).AgentMsg? && Settled(ms[i]).loading)
    ensures ms[i].UserMsg? ==> Settled(ms[i]) == ms[i]
    ensures ms[i].AgentMsg? && !ms[i].loading ==> Settled(ms[i]) == ms[i]
  {
  }

  /** Typing a question that is not blank and submitting it, with two new ids. */
  method Ask(c: Conversation, q: string, u: string, b: string)
    requires c.Valid() && Trim(q) != ""
    requires u != b && FreshId(c.msgs, u) && FreshId(c.msgs, b)
    modifies c
    ensures c.Valid() && c.loading && c.prompt == "" && c.error == None
    ensures c.msgs == old(c.msgs) + [UserMsg(u, Trim(q)), Pending(b)]
  {
    c.SetPrompt(q);
    var sent := c.Submit(u, b);
  }

  /** A fresh conversation with two questions submitted and both answers pending. */
  method TwoInFlight(q1: string, q2: string, u1: string, b1: string, u2: string, b2: string)
    returns (c: Conversation)
    requires Trim(q1) != "" && Trim(q2) != ""
    requires u1 != b1 && u1 != u2 && u1 != b2 && b1 != u2 && b1 != b2 && u2 != b2
    ensures fresh(c) && c.Valid()
    ensures c.msgs == [UserMsg(u1, Trim(q1)), Pending(b1), UserMsg(u2, Trim(q2)), Pending(b2)]
  {
    c := new Conversation();
    Ask(c, q1, u1, b1);
    assert c.msgs[0].id == u1 && c.msgs[1].id == b1 && |c.msgs| == 2;
    Ask(c, q2, u2, b2);
  }

  /** The answer with id `id` sits at index `k`; its success replaces exactly that message. */
  method AnswerAt(c: Conversation, k: nat, id: string, d: AgentResponse, parse: string -> Num)
    requires c.Valid() && k < |c.msgs| && c.msgs[k].id == id
    modifies c
    ensures c.Valid() && !c.loading
    ensures c.msgs == old(c.msgs)[k := Answered(id, d, parse)]
  {
    ghost var before := c.msgs;
    c.ResolveSuccess(id, d, parse);
    forall i | 0 <= i < |c.msgs| ensures c.msgs[i] == before[k := Answered(id, d, parse)][i] {
      if i != k {
        assert before[i].id != before[k].id by { assert UniqueIds(before); }
      }
    }
  }

  /**
   * Two questions in flight whose answers arrive in the opposite order: each
   * answer lands on the message of its own submission.
   */
  method OutOfOrderAnswers(q1: string, q2: string, u1: string, b1: string, u2: string, b2: string,
                           d1: AgentResponse, d2: AgentResponse, parse: string -> Num)
    returns (final: seq<Msg>)
    requires Trim(q1) != "" && Trim(q2) != ""
    requires u1 != b1 && u1 != u2 && u1 != b2 && b1 != u2 && b1 != b2 && u2 != b2
    ensures final == [UserMsg(u1, Trim(q1)), Answered(b1, d1, parse), UserMsg(u2, Trim(q2)), Answered(b2, d2, parse)]
  {
    var c := TwoInFlight(q1, q2, u1, b1, u2, b2);
    AnswerAt(c, 3, b2, d2, parse);
    AnswerAt(c, 1, b1, d1, parse);
    final := c.msgs;
  }

  /**
   * Two questions in flight and the first fails: the second answer, still in
   * flight, shows the failure text too; when its success arrives later it
   * overwrites that already settled message.
   */
  method FailureSettlesOtherRequest(q1: string, q2: string, u1: string, b1: string, u2: string, b2: string,
                                    message: string, d2: AgentResponse, parse: string -> Num)
    returns (afterFailure: seq<Msg>, final: seq<Msg>)
    requires Trim(q1) != "" && Trim(q2) != ""
    requires u1 != b1 && u1 != u2 && u1 != b2 && b1 != u2 && b1 != b2 && u2 != b2
    ensures afterFailure == [UserMsg(u1, Trim(q1)), AgentMsg(b1, FailedText, None, None, false, None),
                             UserMsg(u2, Trim(q2)), AgentMsg(b2, FailedText, None, None, false, None)]
    ensures final == afterFailure[3 := Answered(b2, d2, parse)]
  {
    var c := TwoInFlight(q1, q2, u1, b1, u2, b2);
    ghost var t1, t2 := Trim(q1), Trim(q2);
    c.ResolveFailure(message);
    afterFailure := c.msgs;
    assert afterFailure[0] == Settled(UserMsg(u1, t1)) == UserMsg(u1, t1);
    assert afterFailure[1] == Settled(Pending(b1)) == AgentMsg(b1, FailedText, None, None, false, None);
    assert afterFailure[2] == Settled(UserMsg(u2, t2)) == UserMsg(u2, t2);
    assert afterFailure[3] == Settled(Pending(b2)) == AgentMsg(b2, FailedText, None, None, false, None);
    AnswerAt(c, 3, b2, d2, parse);
    final := c.msgs;
  }

  /**
   * Submitting a prompt of white space, on any conversation: nothing is sent,
   * no message is added and loading is unchanged; only the error line clears.
   */
  method BlankPromptSendsNothing(c: Conversation, p: string, idUser: string, idBot: string)
    returns (sent: Option<string>)
    requires c.Valid() && AllSpace(p)
    modifies c
    ensures c.Valid() && sent == None
    ensures c.msgs == old(c.msgs) && c.loading == old(c.loading) && c.prompt == p && c.error == None
  {
    c.SetPrompt(p);
    sent := c.Submit(idUser, idBot);
  }

  /** What the form sends, `{question: text}` with the trimmed text, is always accepted by the agent endpoint. */
  lemma SentQuestionAccepted(p: string)
    requires Trim(p) != ""
    ensures AgentRoute.AcceptedQuestion(Some(AgentRoute.QuestionPayload(Trim(p)))) == Some(Trim(p))
  {
  }
}
