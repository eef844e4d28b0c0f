# Tool-calling conversation with a mock stock-price tool

This project models the core of `responses-tool-calling/conversation.js`. The
program is a tool-use client for a hosted language model. It sends one user
prompt ("What's the current stock price for Apple?") together with a single
advertised tool, `get_stock_price`. While the service's response stops with
`stop_reason === "tool_use"`, it does four things:

- it takes the first `tool_use` block of the response;
- it runs the tool, turning any thrown error into a `tool_result` flagged
  `is_error`;
- it rebuilds the message list as exactly three messages: the prompt, the
  response's content as the assistant's message, and that one tool result;
- it asks again without tools.

When the stop reason is anything else, the answer is the text of the first
`text` block, or null.

Modules:

- `Wrappers`: `Option` and `Result`.
- `JsString`: the ECMAScript white-space set and `String.prototype.trim`.
- `Tools`: the tool descriptor, the mock handler `GetStockPrice` and the
  dispatcher `ProcessToolCall`.
- `Messages`: content blocks, messages, requests and responses.
  - The first-block search (`Array.prototype.find` on the block type).
  - The tool result a tool call produces, and the follow-up request built
    from a response.
  - The final-text extraction.
  - A declarative description of a well-formed follow-up (`IsFollowUp`) and of
    tool-use/tool-result pairing (`ToolResultsPaired`).
- `Conversation`: the driver.
  - The service is an oracle: call number k with its request yields a
    response or a transport error.
  - `Loop` and `Drive` define the whole run as a function.
  - The methods `Converse`, `ToolLoop`, `ToolRound`, `BuildFollowUp` and
    `RunTool` are the imperative `main`, with its `while` loop and its
    try/catch. Each method is proved against one function:
    - `Converse` computes exactly the run `Drive` defines;
    - `ToolLoop` and `ToolRound` follow `Loop`;
    - `BuildFollowUp` builds exactly the request `FollowUpTo` defines;
    - `RunTool` yields exactly the block `ToolResultFor` defines.
  - Lemmas state what every run satisfies.
- `Scenarios`: four concrete conversations on scripted services:
  - the successful tool call;
  - no tool requested;
  - a missing symbol;
  - an unknown tool followed by a transport failure.

Two details of the code that the model keeps:

- `getStockPrice` throws a plain `Error` whose message is
  "stock symbol is required". There is no separate error kind.
- The final answer is null both when there is no text block and when the first
  text block's text is empty (`|| null`).

## Model

| member | source | states |
|---|---|---|
| JsString.Trim | responses-tool-calling/conversation.js:35 | `symbol.trim()`: the result is never longer than the symbol, and neither starts nor ends with white space. |
| JsString.TrimIsCoreSlice | responses-tool-calling/conversation.js:35 | `trim()` returns a contiguous slice of its input. Everything cut away is white space, and the result neither starts nor ends with white space. |
| JsString.TrimEmptyIff | responses-tool-calling/conversation.js:35 | `symbol.trim() === ""` holds exactly when every character of the symbol is white space. |
| Tools.HasSymbol | responses-tool-calling/conversation.js:32-35 | The negation of the guard `!symbol \|\| symbol.trim() === ""`: the symbol is present, non-empty and does not trim to the empty string. |
| Tools.GetStockPrice | responses-tool-calling/conversation.js:31-41 | Fails with "stock symbol is required" exactly when the symbol is missing, empty or only white space. Otherwise returns "$198.53 USD". |
| Tools.GetStockPriceIgnoresSymbol | responses-tool-calling/conversation.js:39-40 | Any two valid symbols give the same result, the fixed placeholder: the handler is deterministic and does not depend on the symbol. |
| Tools.ProcessToolCall | responses-tool-calling/conversation.js:44-51 | "get_stock_price" succeeds exactly when its input has a valid symbol, and returns the placeholder. Any other name fails with "Unknown tool: " followed by the name. |
| Tools.ErrorMessagesDistinct | responses-tool-calling/conversation.js:36-49 | An unknown-tool message never equals the missing-symbol message. |
| Tools.AdvertisedToolsAreDispatched | responses-tool-calling/conversation.js:11-28 | Every tool in `agentTools` is dispatched to `getStockPrice`, never to the unknown-tool branch. An input that lacks a field the schema marks as required is rejected. |
| Messages.FindFrom | responses-tool-calling/conversation.js:72 | Finds the first block of a type at or after a position, and returns None exactly when there is none there. |
| Messages.Find | responses-tool-calling/conversation.js:72 | `content.find(block => block.type === t)`: the index found holds the first block of that type. The result is None exactly when no block has that type. |
| Messages.FirstOfTypeUnique | responses-tool-calling/conversation.js:72 | There is only one first block of a type, so later `tool_use` blocks are never chosen. |
| Messages.ToolResultFor | responses-tool-calling/conversation.js:80-88 | The tool result carries the `tool_use` id. It is an error exactly when the tool call throws; the content is then the error's message, and otherwise the handler's value. |
| Messages.FollowUpRequest | responses-tool-calling/conversation.js:94-115 | The follow-up request literal: the prompt, the response content as the assistant's message, and one user message holding the tool result, sent without tools. Its properties are stated by `FollowUpToIsFollowUp` and `FollowUpUnique`. |
| Messages.IsFollowUp | responses-tool-calling/conversation.js:72-115 | A declarative definition of the follow-up to a response, independent of the search code: three messages whose tool result answers the first `tool_use` block. `FollowUpToIsFollowUp` and `IsFollowUpIsFollowUpTo` prove it equivalent to `FollowUpTo`. |
| Messages.FollowUpTo | responses-tool-calling/conversation.js:72-74 | A response that stops for a tool yields no follow-up exactly when it holds no `tool_use` block. |
| Messages.FollowUpToIsFollowUp | responses-tool-calling/conversation.js:94-115 | The request built has three messages: the original prompt, the response's content unchanged as the assistant's message, and a single tool result answering the first `tool_use` block. It is sent without tools, with the same model and token limit. |
| Messages.IsFollowUpIsFollowUpTo | responses-tool-calling/conversation.js:72-115 | Conversely, any request that is a follow-up to a response is exactly the one `FollowUpTo` builds from that response, which stops for a tool. |
| Messages.FollowUpUnique | responses-tool-calling/conversation.js:94-108 | The follow-up depends on the latest response alone: two follow-ups to the same response are equal. |
| Messages.ThreeMessagesPaired | responses-tool-calling/conversation.js:94-108 | A three-message list shaped like the rebuilt one has every tool result answered by a `tool_use` of an earlier message. |
| Messages.FollowUpIsPaired | responses-tool-calling/conversation.js:94-108 | In every follow-up, the tool result's `tool_use_id` is the id of a `tool_use` block in the assistant's message before it. |
| Messages.InitialRequestIsPaired | responses-tool-calling/conversation.js:57-64 | The first request holds no tool result that could be unpaired. |
| Messages.FinalText | responses-tool-calling/conversation.js:123 | The answer exists exactly when the first `text` block exists and its text is non-empty, and it is that block's text (`?.text \|\| null`). |
| Conversation.Loop | responses-tool-calling/conversation.js:71-123 | The `while` loop as a function of the transcript so far and the fuel left. It answers with the final text once a response does not stop for a tool, fails on a missing `tool_use` block or a transport error, and otherwise sends the follow-up and recurses. Its properties are stated by `LoopKeepsConsistent` and `ContinuesExactlyWhileToolUse`. |
| Conversation.Drive | responses-tool-calling/conversation.js:53-123 | `main` as a function of the service: the initial request with the tools, then `Loop`. Its properties are stated by `DriveIsConsistent` and the lemmas after it. |
| Conversation.RunTool | responses-tool-calling/conversation.js:80-88 | The try/catch yields exactly the tool result `ToolResultFor` describes. A thrown error is caught and never ends the loop. |
| Conversation.BuildFollowUp | responses-tool-calling/conversation.js:72-108 | Computes exactly the follow-up request `FollowUpTo` defines, and None when no `tool_use` block exists. |
| Conversation.LoopStep | responses-tool-calling/conversation.js:111-115 | One round sends the follow-up. A transport error ends the run with that request sent, and a reply continues the loop from it with one follow-up less to go. |
| Conversation.LoopAnswers | responses-tool-calling/conversation.js:120-123 | A response that does not stop for a tool ends the loop, with its final text as the answer. |
| Conversation.ToolRound | responses-tool-calling/conversation.js:71-115 | One pass through the loop body stops the run exactly as `Loop` does (no fuel, no `tool_use` block, transport error). Otherwise it leaves a transcript and one unit of fuel less, from which `Loop` reaches the same run. |
| Conversation.ToolLoop | responses-tool-calling/conversation.js:71-120 | The `while` loop produces exactly the outcome, requests and responses `Loop` defines. |
| Conversation.Converse | responses-tool-calling/conversation.js:53-123 | `main` produces exactly the run `Drive` defines: the initial request with the tools, then the tool loop. |
| Conversation.ConsistentAfterSend | responses-tool-calling/conversation.js:94-115 | Sending the follow-up to the last response keeps the transcript consistent. |
| Conversation.ConsistentAfterReceive | responses-tool-calling/conversation.js:111-115 | Recording the service's answer to the pending request keeps the transcript consistent. |
| Conversation.LoopKeepsConsistent | responses-tool-calling/conversation.js:71-120 | From a consistent transcript, the loop ends with a consistent transcript, in one of the four ways listed, after at most `fuel` follow-ups. |
| Conversation.DriveIsConsistent | responses-tool-calling/conversation.js:53-123 | Every run has four properties. (1) It starts with the initial request. (2) Each response is the service's answer to the request of the same call number. (3) Each later request is the follow-up to the response before it. (4) It ends with an answer, a missing `tool_use` block, a transport error or exhausted fuel, each with the transcript that causes it. |
| Conversation.ContinuesExactlyWhileToolUse | responses-tool-calling/conversation.js:71-123 | Every response but the last stops for a tool. The run is answered exactly when the last response does not, and the answer is that response's final text. |
| Conversation.ToolUseIsAlwaysAnswered | responses-tool-calling/conversation.js:80-115 | A response that asks for a tool and holds a `tool_use` block is always followed by another request (given fuel), whatever the tool does. |
| Conversation.OnlyFirstRequestHasTools | responses-tool-calling/conversation.js:59-115 | The tools list is sent with the first request and with no other. |
| Conversation.EveryRequestIsPaired | responses-tool-calling/conversation.js:94-108 | In every request sent, each tool result answers a `tool_use` of an earlier message. |
| Conversation.FollowUpForgetsHistory | responses-tool-calling/conversation.js:94-108 | No history survives a round: across any two runs, the k-th request is the same whenever the response before it is. |
| Scenarios.SuccessfulToolCall | responses-tool-calling/conversation.js:53-123 | Apple symbol: two requests; the tool result is "$198.53 USD" without the error flag; the answer is the last text. |
| Scenarios.NoToolRequested | responses-tool-calling/conversation.js:71-123 | A response that does not stop for a tool is answered at once, after a single request. |
| Scenarios.MissingSymbolIsReported | responses-tool-calling/conversation.js:35-87 | A missing symbol is sent back as an error tool result "stock symbol is required". |
| Scenarios.UnknownToolIsReported | responses-tool-calling/conversation.js:44-130 | An unknown tool is reported as "Unknown tool: get_weather" with the error flag. The service's later failure ends the run. |

## Left out

- The model service client and the network are represented by the `Service` oracle. It takes a call number and a request and returns a response or an error. Authentication and configuration from the environment are not modelled.
- Console output and JSON pretty-printing are not modelled.
- The outer catch, its error printing and `process.exit(1)` are not modelled as such. The two ways `main` can throw become `Failed` outcomes instead:
  - `Transport(message)` when the service call fails;
  - `MissingToolUse` when the stop reason is "tool_use" but no `tool_use` block exists, so reading `toolUse.name` throws a TypeError. The exact TypeError text is not modelled.
- async/await is not modelled: execution is sequential.
- Conversation.Converse: termination depends on the service, so `fuel` bounds the follow-up requests. Runs that would need more rounds end in `OutOfFuel`, which the program itself never produces.
- Tool inputs are string-to-string maps, so a non-string `symbol` is not modelled. In the program, a falsy non-string (`0`, `false`, `null`) is rejected by `!symbol` with "stock symbol is required". A truthy non-string reaches `symbol.trim()`, which throws a TypeError. The try/catch sends that error back as an `is_error` tool result. Such a symbol is never accepted.
- JsString.Trim works on whole code points. JavaScript strings are UTF-16 code units, so lone surrogates are not represented. No surrogate is white space, so `trim()` removes the same characters.
- The tool descriptor is modelled as constant data. The service's use of it is not modelled.
- Other fields of the service's responses (ids, usage, model echo) and other block types are not modelled.
