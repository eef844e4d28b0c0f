/**
 * The conversation driver: send the prompt with the tools, and while the
 * service stops with "tool_use", run the first requested tool, rebuild the
 * three-message list and ask again without tools; finally report the first
 * text block of the last response.
 *
 * The model service is an oracle `Service`: call number k with its request
 * yields a response or a transport failure. `fuel` bounds the number of
 * follow-up requests, since termination depends on the service.
 */
module Conversation {
  import opened Wrappers
  import opened Tools
  import opened Messages

  /** The model service: the k-th call (from 0) with its request gives a response, or fails with a message. */
  type Service = (nat, Request) -> Result<Response>

  /** Why a run ended without an answer. */
  datatype Failure =
    | Transport(message: string)  // the service call threw; nothing catches it but the top level
    | MissingToolUse              // stop reason "tool_use" but no tool_use block: reading `toolUse.name` throws

  datatype Outcome =
    | Answered(finalResponse: Option<string>)
    | Failed(failure: Failure)
    | OutOfFuel

  /** A whole run: how it ended, the requests sent and the responses received, in order. */
  datatype Run = Run(outcome: Outcome, sent: seq<Request>, received: seq<Response>)

  /** The driver loop from the state reached after `sent` and `received`, with `fuel` follow-ups left. */
  function Loop(service: Service, sent: seq<Request>, received: seq<Response>, fuel: nat): Run
    requires |received| > 0
    decreases fuel
  {
    var response := received[|received| - 1];
    if response.stopReason != ToolUseStop then Run(Answered(FinalText(response.content)), sent, received)
    else if fuel == 0 then Run(OutOfFuel, sent, received)
    else match FollowUpTo(response)
      case None => Run(Failed(MissingToolUse), sent, received)
      case Some(request) =>
        match service(|sent|, request)
        case Err(m) => Run(Failed(Transport(m)), sent + [request], received)
        case Ok(next) => Loop(service, sent + [request], received + [next], fuel - 1)
  }

  /** The whole run of `main` against `service`. */
  function Drive(service: Service, fuel: nat): Run {
    match service(0, InitialRequest)
    case Err(m) => Run(Failed(Transport(m)), [InitialRequest], [])
    case Ok(first) => Loop(service, [InitialRequest], [first], fuel)
  }

  /** One turn of the loop: send the follow-up and continue from the reply with `left` follow-ups to go. */
  lemma LoopStep(service: Service, sent: seq<Request>, received: seq<Response>, fuel: nat, left: nat, request: Request)
    requires |received| > 0 && fuel == left + 1
    requires received[|received| - 1].stopReason == ToolUseStop
    requires FollowUpTo(received[|received| - 1]) == Some(request)
    ensures service(|sent|, request).Err? ==>
      Loop(service, sent, received, fuel) == Run(Failed(Transport(service(|sent|, request).message)), sent + [request], received)
    ensures service(|sent|, request).Ok? ==>
      Loop(service, sent, received, fuel) == Loop(service, sent + [request], received + [service(|sent|, request).value], left)
  {
  }

  /** A response that does not stop for a tool ends the loop with its first text. */
  lemma LoopAnswers(service: Service, sent: seq<Request>, received: seq<Response>, fuel: nat)
    requires |received| > 0 && received[|received| - 1].stopReason != ToolUseStop
    ensures Loop(service, sent, received, fuel) == Run(Answered(FinalText(received[|received| - 1].content)), sent, received)
  {
  }

  /**
   * The try/catch around the tool call: the handler's value, or the thrown
   * error's message with the error flag set; a failure never escapes.
   */
  method RunTool(toolUse: ContentBlock) returns (toolResult: string, isError: bool)
    requires toolUse.ToolUse?
    ensures ToolResult(toolUse.id, toolResult, isError) == ToolResultFor(toolUse.id, toolUse.name, toolUse.input)
  {
    isError := false;
    var call := ProcessToolCall(toolUse.name, toolUse.input);
    match call {
      case Ok(v) =>
        toolResult := v;
      case Err(m) =>
        toolResult := m;
        isError := true;
    }
  }

  /**
   * The body of one tool round: take the first tool_use block, run the tool,
   * and rebuild the message list as the prompt, the response's content and
   * the tool result; None when the response holds no tool_use block.
   */
  method BuildFollowUp(response: Response) returns (request: Option<Request>)
    requires response.stopReason == ToolUseStop
    ensures request == FollowUpTo(response)
  {
    var found := Find(response.content, ToolUseType);
    if found.None? {
      return None;
    }
    var toolUse := response.content[found.value];
    var toolResult, isError := RunTool(toolUse);
    var messages := [
      Message(User, PlainText(UserMessage)),
      Message(Assistant, Blocks(response.content)),
      Message(User, Blocks([ToolResult(toolUse.id, toolResult, isError)]))
    ];
    request := Some(Request(ModelName, MaxTokens, None, messages));
  }

  /** `main`: send the prompt with the tools, then run the tool loop on the reply. */
  method Converse(service: Service, fuel: nat) returns (outcome: Outcome, sent: seq<Request>, received: seq<Response>)
    ensures Run(outcome, sent, received) == Drive(service, fuel)
  {
    var messages := [Message(User, PlainText(UserMessage))];
    var request := Request(ModelName, MaxTokens, Some(AgentTools), messages);
    sent := [request];
    received := [];
    var reply := service(0, request);
    if reply.Err? {
      outcome := Failed(Transport(reply.message));
      return;
    }
    received := [reply.value];
    outcome, sent, received := ToolLoop(service, sent, received, fuel);
  }

  /**
   * One pass through the body of the `while (response.stop_reason === "tool_use")`
   * loop: with no fuel left or no tool_use block the run stops here; otherwise
   * the follow-up is sent, and a transport failure stops the run too.
   */
  method ToolRound(service: Service, sent0: seq<Request>, received0: seq<Response>, fuel: nat, ghost run: Run)
    returns (stop: Option<Outcome>, sent: seq<Request>, received: seq<Response>, left: nat)
    requires |received0| > 0 && received0[|received0| - 1].stopReason == ToolUseStop
    requires Loop(service, sent0, received0, fuel) == run
    ensures stop.Some? ==> Run(stop.value, sent, received) == run
    ensures stop.None? ==> left + 1 == fuel && |received| > 0 && Loop(service, sent, received, left) == run
  {
    sent, received, left := sent0, received0, fuel;
    if fuel == 0 {
      return Some(OutOfFuel), sent, received, left;
    }
    var followUp := BuildFollowUp(received[|received| - 1]);
    if followUp.None? {
      return Some(Failed(MissingToolUse)), sent, received, left;
    }
    var request := followUp.value;
    var reply := service(|sent|, request);
    left := fuel - 1;
    LoopStep(service, sent, received, fuel, left, request);
    sent := sent + [request];
    if reply.Err? {
      return Some(Failed(Transport(reply.message))), sent, received, fuel;
    }
    received := received + [reply.value];
    stop := None;
  }

  /**
   * The `while (response.stop_reason === "tool_use")` loop of `main`, from the
   * transcript so far; `fuel` bounds the follow-up requests it may send.
   */
  method ToolLoop(service: Service, sent0: seq<Request>, received0: seq<Response>, fuel: nat)
    returns (outcome: Outcome, sent: seq<Request>, received: seq<Response>)
    requires |received0| > 0
    ensures Run(outcome, sent, received) == Loop(service, sent0, received0, fuel)
  {
    sent, received := sent0, received0;
    var response := received[|received| - 1];
    var left := fuel;
    ghost var run := Loop(service, sent0, received0, fuel);
    while response.stopReason == ToolUseStop
      invariant |received| > 0 && response == received[|received| - 1]
      invariant Loop(service, sent, received, left) == run
      decreases left
    {
      var stop;
      stop, sent, received, left := ToolRound(service, sent, received, left, run);
      if stop.Some? {
        return stop.value, sent, received;
      }
      response := received[|received| - 1];
    }
    LoopAnswers(service, sent, received, left);
    outcome := Answered(FinalText(response.content));
  }

  /** Call number k: the service answered the k-th request with the k-th response. */
  ghost predicate AnsweredAt(service: Service, sent: seq<Request>, received: seq<Response>, k: int) {
    0 <= k < |received| && k < |sent| && service(k, sent[k]) == Ok(received[k])
  }

  /** The k-th request is the follow-up to the response before it. */
  ghost predicate FollowsUpAt(sent: seq<Request>, received: seq<Response>, k: int) {
    1 <= k < |sent| && k - 1 < |received| && IsFollowUp(received[k - 1], sent[k])
  }

  /**
   * A transcript the driver could have produced: it starts with the initial
   * request, each response is the service's answer to the request of the same
   * call number, and each later request is the follow-up to the response before it.
   */
  ghost predicate Consistent(service: Service, sent: seq<Request>, received: seq<Response>) {
    && |sent| >= 1 && sent[0] == InitialRequest
    && |received| <= |sent| <= |received| + 1
    && (forall k :: 0 <= k < |received| ==> AnsweredAt(service, sent, received, k))
    && (forall k :: 1 <= k < |sent| ==> FollowsUpAt(sent, received, k))
  }

  /** How a run may end, read off its transcript. */
  ghost predicate EndsProperly(service: Service, run: Run) {
    match run.outcome
    case Answered(answer) =>
      && |run.received| == |run.sent| > 0
      && run.received[|run.received| - 1].stopReason != ToolUseStop
      && answer == FinalText(run.received[|run.received| - 1].content)
    case OutOfFuel =>
      && |run.received| == |run.sent| > 0
      && run.received[|run.received| - 1].stopReason == ToolUseStop
    case Failed(MissingToolUse) =>
      && |run.received| == |run.sent| > 0
      && run.received[|run.received| - 1].stopReason == ToolUseStop
      && var content := run.received[|run.received| - 1].content;
         forall j :: 0 <= j < |content| ==> content[j].Type() != ToolUseType
    case Failed(Transport(m)) =>
      && |run.sent| == |run.received| + 1
      && service(|run.received|, run.sent[|run.received|]) == Err(m)
  }

  /** Sending the follow-up to the last response keeps a transcript consistent. */
  lemma ConsistentAfterSend(service: Service, sent: seq<Request>, received: seq<Response>, request: Request)
    requires |received| > 0 && |sent| == |received|
    requires Consistent(service, sent, received)
    requires received[|received| - 1].stopReason == ToolUseStop
    requires FollowUpTo(received[|received| - 1]) == Some(request)
    ensures Consistent(service, sent + [request], received)
  {
    FollowUpToIsFollowUp(received[|received| - 1]);
    var sent' := sent + [request];
    forall k | 0 <= k < |received| ensures AnsweredAt(service, sent', received, k) {
      assert AnsweredAt(service, sent, received, k);
      assert sent'[k] == sent[k];
    }
    forall k | 1 <= k < |sent'| ensures FollowsUpAt(sent', received, k) {
      if k < |sent| {
        assert FollowsUpAt(sent, received, k);
        assert sent'[k] == sent[k];
      }
    }
  }

  /** Receiving the service's answer to the pending request keeps a transcript consistent. */
  lemma ConsistentAfterReceive(service: Service, sent: seq<Request>, received: seq<Response>, next: Response)
    requires |sent| == |received| + 1
    requires Consistent(service, sent, received)
    requires service(|received|, sent[|received|]) == Ok(next)
    ensures Consistent(service, sent, received + [next])
  {
    var received' := received + [next];
    forall k | 0 <= k < |received'| ensures AnsweredAt(service, sent, received', k) {
      if k < |received| {
        assert AnsweredAt(service, sent, received, k);
        assert received'[k] == received[k];
      }
    }
    forall k | 1 <= k < |sent| ensures FollowsUpAt(sent, received', k) {
      assert FollowsUpAt(sent, received, k);
      assert received'[k - 1] == received[k - 1];
    }
  }

  /** The loop, started from a consistent transcript, ends properly with a consistent transcript. */
  lemma {:induction false} LoopKeepsConsistent(service: Service, sent: seq<Request>, received: seq<Response>, fuel: nat)
    requires |received| > 0 && |sent| == |received|
    requires Consistent(service, sent, received)
    ensures var run := Loop(service, sent, received, fuel);
      && Consistent(service, run.sent, run.received)
      && EndsProperly(service, run)
      && |run.sent| <= |sent| + fuel
      && (run.outcome == OutOfFuel ==> |run.sent| == |sent| + fuel)
    decreases fuel
  {
    var response := received[|received| - 1];
    if response.stopReason != ToolUseStop || fuel == 0 {
    } else {
      match FollowUpTo(response)
      case None =>
      case Some(request) =>
        ConsistentAfterSend(service, sent, received, request);
        match service(|sent|, request)
        case Err(m) =>
        case Ok(next) =>
          ConsistentAfterReceive(service, sent + [request], received, next);
          LoopKeepsConsistent(service, sent + [request], received + [next], fuel - 1);
    }
  }

  /**
   * Every run of the driver yields a consistent transcript, ends in one of the
   * four ways `EndsProperly` lists, and sends at most `fuel` follow-ups.
   */
  lemma DriveIsConsistent(service: Service, fuel: nat)
    ensures var run := Drive(service, fuel);
      && Consistent(service, run.sent, run.received)
      && EndsProperly(service, run)
      && |run.sent| <= fuel + 1
      && (run.outcome == OutOfFuel ==> |run.sent| == fuel + 1)
  {
    match service(0, InitialRequest)
    case Err(m) =>
    case Ok(first) =>
      LoopKeepsConsistent(service, [InitialRequest], [first], fuel);
  }

  /**
   * The loop runs exactly while the stop reason is "tool_use": every response
   * but the last asked for a tool, and the run ends with an answer exactly when
   * the last response did not; that answer is the last response's first text.
   */
  lemma ContinuesExactlyWhileToolUse(service: Service, fuel: nat)
    ensures var run := Drive(service, fuel);
      && (forall k :: 0 <= k < |run.received| - 1 ==> run.received[k].stopReason == ToolUseStop)
      && (run.outcome.Answered? <==> |run.received| > 0 && run.received[|run.received| - 1].stopReason != ToolUseStop)
      && (run.outcome.Answered? ==> run.outcome.finalResponse == FinalText(run.received[|run.received| - 1].content))
  {
    var run := Drive(service, fuel);
    DriveIsConsistent(service, fuel);
    forall k | 0 <= k < |run.received| - 1 ensures run.received[k].stopReason == ToolUseStop {
      assert FollowsUpAt(run.sent, run.received, k + 1);
    }
    if run.outcome.Failed? && run.outcome.failure.Transport? && |run.received| > 0 {
      assert FollowsUpAt(run.sent, run.received, |run.received|);
    }
  }

  /**
   * A failing tool never ends the run: whenever a response asks for a tool and
   * holds a tool_use block, and fuel remains, the driver sends the next request.
   */
  lemma ToolUseIsAlwaysAnswered(service: Service, fuel: nat, k: nat)
    requires var run := Drive(service, fuel);
      && k < |run.received| && k < fuel
      && run.received[k].stopReason == ToolUseStop
      && exists i :: FirstOfType(run.received[k].content, ToolUseType, i)
    ensures k + 1 < |Drive(service, fuel).sent|
  {
    DriveIsConsistent(service, fuel);
  }

  /** Only the first request advertises the tools; every follow-up is sent without them. */
  lemma OnlyFirstRequestHasTools(service: Service, fuel: nat)
    ensures var run := Drive(service, fuel);
      forall k :: 0 <= k < |run.sent| ==> (run.sent[k].tools.Some? <==> k == 0)
  {
    var run := Drive(service, fuel);
    DriveIsConsistent(service, fuel);
    forall k | 1 <= k < |run.sent| ensures run.sent[k].tools.None? {
      assert FollowsUpAt(run.sent, run.received, k);
    }
  }

  /** Every request sent is well formed: each tool_result answers a tool_use of an earlier message. */
  lemma EveryRequestIsPaired(service: Service, fuel: nat)
    ensures var run := Drive(service, fuel);
      forall k :: 0 <= k < |run.sent| ==> ToolResultsPaired(run.sent[k].messages)
  {
    var run := Drive(service, fuel);
    DriveIsConsistent(service, fuel);
    forall k | 0 <= k < |run.sent| ensures ToolResultsPaired(run.sent[k].messages) {
      if k == 0 {
        InitialRequestIsPaired();
      } else {
        assert FollowsUpAt(run.sent, run.received, k);
        FollowUpIsPaired(run.received[k - 1], run.sent[k]);
      }
    }
  }

  /**
   * No history survives a round: in any two runs, the k-th request is the same
   * whenever the response before it is the same, whatever came earlier.
   */
  lemma FollowUpForgetsHistory(service1: Service, fuel1: nat, service2: Service, fuel2: nat, k: nat)
    requires 1 <= k < |Drive(service1, fuel1).sent| && 1 <= k < |Drive(service2, fuel2).sent|
    requires k <= |Drive(service1, fuel1).received| && k <= |Drive(service2, fuel2).received|
    requires Drive(service1, fuel1).received[k - 1] == Drive(service2, fuel2).received[k - 1]
    ensures Drive(service1, fuel1).sent[k] == Drive(service2, fuel2).sent[k]
  {
    var run1 := Drive(service1, fuel1);
    var run2 := Drive(service2, fuel2);
    DriveIsConsistent(service1, fuel1);
    DriveIsConsistent(service2, fuel2);
    assert FollowsUpAt(run1.sent, run1.received, k);
    assert FollowsUpAt(run2.sent, run2.received, k);
    FollowUpUnique(run1.received[k - 1], run1.sent[k], run2.sent[k]);
  }
}
