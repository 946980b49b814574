/** A bare decision at the CLI and the verdict it becomes in the plugin: both programs agree on what was decided. */
module Decisions {
  import opened Wrappers
  import opened JsonValue
  import opened RequestIds
  import opened Normalize
  import opened Protocol
  import opened ProtocolRuns
  import ClientWire
  import Machine = Session

  // ---- what a payload is sent as ----

  /** A structured answer is sent as it is, whatever the request. */
  lemma ResultsAreSentUnchanged(b: Backend, name: string, value: Value)
    ensures Machine.BodyOf(b, name, Machine.ResultJson(value)) == Some(value)
  {
  }

  /** The one member a body has, and its text. */
  predicate SaysOnly(body: Value, key: string, text: string) {
    body == Obj(map[key := Str(text)])
  }

  /** Which Codex requests a bare decision answers, and how it is spelled. */
  lemma CodexDecisionsExactly(name: string, d: Decision)
    ensures var body := Machine.BodyOf(Codex, name, Machine.Decided(d));
      var approval := name in ["item/commandExecution/requestApproval", "item/fileChange/requestApproval"];
      var elicitation := name == "mcpServer/elicitation/request";
      && (body.Some? <==> approval || (elicitation && d != AcceptForSession))
      && (body.Some? && d == Accept ==> SaysOnly(body.value, if approval then "decision" else "action", "accept"))
      && (body.Some? && d == Decline ==> SaysOnly(body.value, if approval then "decision" else "action", "decline"))
      && (body.Some? && d == AcceptForSession ==> SaysOnly(body.value, "decision", "acceptForSession"))
  {
  }

  // ---- dsh: from the decision to the verdict ----

  /** The body the CLI answers a request frame with when it is given decision `d`. */
  function DecidedBody(frame: Frame, detail: ClientWire.Detail, d: Decision): Option<Value>
    requires frame.RequestFrame?
  {
    Machine.BodyOf(Dsh, ClientWire.EventOfFrame(frame, detail).name, Machine.Decided(d))
  }

  /** Approvals take accept and decline, questions take neither. */
  lemma DshDecisionsExactly(frame: Frame, detail: ClientWire.Detail, d: Decision)
    requires frame.RequestFrame?
    ensures DecidedBody(frame, detail, d).Some? <==> frame.kind == Approval && d != AcceptForSession
    ensures frame.kind == Approval && d == Accept ==>
      ApprovalVerdict(Given(DecidedBody(frame, detail, d).value)) == "allowed-once"
    ensures frame.kind == Approval && d == Decline ==>
      ApprovalVerdict(Given(DecidedBody(frame, detail, d).value)) == "rejected"
  {
  }

  /**
   * In every plugin run: when the winner of an approval answered with the body of the CLI's decision about it, dsh is
   * told exactly that decision.
   */
  lemma DecisionIsObeyed(ms: seq<Move>, r: ReqId, detail: ClientWire.Detail, d: Decision)
    requires Legal(ms) && r in Run(ms).outcomes && r in Run(ms).requests && Run(ms).requests[r].kind == Approval
    requires d == Accept || d == Decline
    requires WonWith(ms, r, DecidedBody(RequestFrameOf(Run(ms), r), detail, d).value)
    ensures ApprovalVerdict(Run(ms).outcomes[r]) == if d == Accept then "allowed-once" else "rejected"
  {
    var frame := RequestFrameOf(Run(ms), r);
    DshDecisionsExactly(frame, detail, d);
    GivenExactlyByWinner(ms, r, DecidedBody(frame, detail, d).value, "");
  }

  /** And when the winner of a question answered with the CLI's structured result, the tool gets its answers. */
  lemma AnswersAreObeyed(ms: seq<Move>, r: ReqId, name: string, answers: seq<Value>)
    requires Legal(ms) && r in Run(ms).outcomes
    requires var result := Obj(map["answers" := Arr(answers)]);
      WonWith(ms, r, Machine.BodyOf(Dsh, name, Machine.ResultJson(result)).value)
    ensures QuestionAnswers(Run(ms).outcomes[r]) == Ok(answers)
  {
    var result := Obj(map["answers" := Arr(answers)]);
    ResultsAreSentUnchanged(Dsh, name, result);
    assert result.Get("answers") == Some(Arr(answers));
    AnsweredExactlyByClient(ms, r, answers);
  }
}
