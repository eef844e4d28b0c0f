/**
 * End-to-end runs of the driver against small scripted services: a tool call
 * that succeeds, a service that answers at once, a tool call whose input lacks
 * the symbol, and a call to an unknown tool followed by a transport failure.
 */
module Scenarios {
  import opened Wrappers
  import opened Tools
  import opened Messages
  import opened Conversation

  const AppleToolUse: ContentBlock := ToolUse("toolu_01", GetStockPriceName, map[SymbolField := "AAPL"])
  const NoSymbolToolUse: ContentBlock := ToolUse("toolu_02", GetStockPriceName, map[])
  const UnknownToolUse: ContentBlock := ToolUse("toolu_03", "get_weather", map["city" := "Paris"])
  const Answer: string := "Apple (AAPL) is trading at $198.53 USD."

  /** First call: ask for the stock price of AAPL; any later call: answer in text. */
  function AppleService(k: nat, request: Request): Result<Response> {
    if k == 0 then Ok(Response(ToolUseStop, [Text("Let me look that up."), AppleToolUse]))
    else Ok(Response("end_turn", [Text(Answer)]))
  }

  /** Answers at once, without asking for a tool. */
  function DirectService(k: nat, request: Request): Result<Response> {
    Ok(Response("end_turn", [Text(Answer)]))
  }

  /** First call: ask for a stock price with no symbol; any later call: answer in text. */
  function NoSymbolService(k: nat, request: Request): Result<Response> {
    if k == 0 then Ok(Response(ToolUseStop, [NoSymbolToolUse]))
    else Ok(Response("end_turn", [Text("I need a ticker symbol.")]))
  }

  /** First call: ask for a tool that is not registered; then fail the transport. */
  function UnknownToolService(k: nat, request: Request): Result<Response> {
    if k == 0 then Ok(Response(ToolUseStop, [UnknownToolUse]))
    else Err("Connection error.")
  }

  /** A tool call with a valid symbol: the placeholder goes back to the service, whose text is the answer. */
  lemma SuccessfulToolCall()
    ensures var run := Drive(AppleService, 5);
      && run.outcome == Answered(Some(Answer))
      && |run.sent| == 2
      && run.sent[1].messages[2] == Message(User, Blocks([ToolResult("toolu_01", PlaceholderPrice, false)]))
  {
    var first := Response(ToolUseStop, [Text("Let me look that up."), AppleToolUse]);
    assert HasSymbol(AppleToolUse.input) by {
      assert !JsString.IsWhitespace(AppleToolUse.input[SymbolField][0]);
    }
    assert FirstOfType(first.content, ToolUseType, 1);
    FirstOfTypeUnique(first.content, ToolUseType, 1, Find(first.content, ToolUseType).value);
  }

  /** A service that never asks for a tool: one request, and its text is the answer. */
  lemma NoToolRequested()
    ensures var run := Drive(DirectService, 5);
      run.outcome == Answered(Some(Answer)) && |run.sent| == 1
  {
  }

  /** A tool call without a symbol: the error message goes back flagged as an error, and the run goes on. */
  lemma MissingSymbolIsReported()
    ensures var run := Drive(NoSymbolService, 5);
      && run.outcome == Answered(Some("I need a ticker symbol."))
      && |run.sent| == 2
      && run.sent[1].messages[2] == Message(User, Blocks([ToolResult("toolu_02", SymbolRequired, true)]))
  {
    assert Find([NoSymbolToolUse], ToolUseType) == Some(0);
  }

  /**
   * An unknown tool is reported back to the service as an error result rather
   * than ending the run; the run then ends only because the transport fails.
   */
  lemma UnknownToolIsReported()
    ensures var run := Drive(UnknownToolService, 5);
      && run.outcome == Failed(Transport("Connection error."))
      && |run.sent| == 2 && |run.received| == 1
      && run.sent[1].messages[2]
         == Message(User, Blocks([ToolResult("toolu_03", UnknownToolPrefix + "get_weather", true)]))
  {
    assert Find([UnknownToolUse], ToolUseType) == Some(0);
  }
}
