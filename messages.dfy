/**
 * The values exchanged with the model service: content blocks, messages,
 * requests and responses, and the pure pieces of the driver's loop body
 * (turning a tool call into a tool_result block, rebuilding the message
 * list, extracting the final text).
 */
module Messages {
  import opened Wrappers
  import opened Tools

  datatype Role = User | Assistant

  /** The three content-block shapes: `text`, `tool_use` and `tool_result`. */
  datatype ContentBlock =
    | Text(text: string)
    | ToolUse(id: string, name: string, input: ToolInput)
    | ToolResult(toolUseId: string, content: string, isError: bool)
  {
    /** The block's `type` tag. */
    function Type(): BlockType {
      match this
      case Text(_) => TextType
      case ToolUse(_, _, _) => ToolUseType
      case ToolResult(_, _, _) => ToolResultType
    }
  }

  /** The values of a content block's `type` field: "text", "tool_use", "tool_result". */
  datatype BlockType = TextType | ToolUseType | ToolResultType

  /** A message's content: a plain string or an ordered list of blocks. */
  datatype MessageContent = PlainText(text: string) | Blocks(blocks: seq<ContentBlock>)

  datatype Message = Message(role: Role, content: MessageContent)

  /** A `messages.create` request; `tools` is None when the tool list is not sent. */
  datatype Request = Request(model: string, maxTokens: nat, tools: Option<seq<ToolDescriptor>>, messages: seq<Message>)

  /** A service response: its stop reason and its content blocks in order. */
  datatype Response = Response(stopReason: string, content: seq<ContentBlock>)

  const ModelName: string := "claude-sonnet-4-20250514"
  const MaxTokens: nat := 4096
  const UserMessage: string := "What's the current stock price for Apple?"
  const ToolUseStop: string := "tool_use"

  /** The fixed user prompt every request starts with. */
  const UserPrompt: Message := Message(User, PlainText(UserMessage))

  /** The first request: the prompt alone, with the tool list advertised. */
  const InitialRequest: Request := Request(ModelName, MaxTokens, Some(AgentTools), [UserPrompt])

  /** `i` is where `content.find((block) => block.type === t)` stops: the first block of type `t`. */
  predicate FirstOfType(content: seq<ContentBlock>, t: BlockType, i: int) {
    0 <= i < |content| && content[i].Type() == t && forall j :: 0 <= j < i ==> content[j].Type() != t
  }

  /** The index of the first block of type `t` at or after `from`, or None. */
  function FindFrom(content: seq<ContentBlock>, t: BlockType, from: nat): (r: Option<nat>)
    requires from <= |content|
    ensures r.Some? ==> from <= r.value < |content| && content[r.value].Type() == t
                        && forall j :: from <= j < r.value ==> content[j].Type() != t
    ensures r.None? <==> forall j :: from <= j < |content| ==> content[j].Type() != t
    decreases |content| - from
  {
    if from == |content| then None
    else if content[from].Type() == t then Some(from)
    else FindFrom(content, t, from + 1)
  }

  /** The index of the block `content.find((block) => block.type === t)` returns, or None for `undefined`. */
  function Find(content: seq<ContentBlock>, t: BlockType): (r: Option<nat>)
    ensures r.Some? ==> FirstOfType(content, t, r.value)
    ensures r.None? <==> forall j :: 0 <= j < |content| ==> content[j].Type() != t
  {
    FindFrom(content, t, 0)
  }

  /** There is at most one first block of a type. */
  lemma FirstOfTypeUnique(content: seq<ContentBlock>, t: BlockType, i: int, j: int)
    requires FirstOfType(content, t, i) && FirstOfType(content, t, j)
    ensures i == j
  {
  }

  /** The blocks of a message; a plain-text message has none. */
  function BlocksOf(m: Message): seq<ContentBlock> {
    if m.content.Blocks? then m.content.blocks else []
  }

  /**
   * The tool_result block answering a tool_use block with this id, name and
   * input: the handler's value, or the thrown error's message flagged as an error.
   */
  function ToolResultFor(id: string, name: string, input: ToolInput): (b: ContentBlock)
    ensures b.ToolResult? && b.toolUseId == id
    ensures !b.isError <==> name == GetStockPriceName && HasSymbol(input)
    ensures !b.isError ==> b.content == PlaceholderPrice
    ensures b.isError ==> b.content == if name == GetStockPriceName then SymbolRequired
                                       else UnknownToolPrefix + name
  {
    match ProcessToolCall(name, input)
    case Ok(v) => ToolResult(id, v, false)
    case Err(m) => ToolResult(id, m, true)
  }

  /** The request sent after a tool round: the prompt, the latest response content, and one tool result, without tools. */
  function FollowUpRequest(content: seq<ContentBlock>, result: ContentBlock): Request {
    Request(ModelName, MaxTokens, None,
            [UserPrompt, Message(Assistant, Blocks(content)), Message(User, Blocks([result]))])
  }

  /** `result` is the tool_result block for running the tool_use block `toolUse`. */
  ghost predicate Answers(result: ContentBlock, toolUse: ContentBlock) {
    toolUse.ToolUse? && result == ToolResultFor(toolUse.id, toolUse.name, toolUse.input)
  }

  /**
   * `req` is the follow-up to `prev`: `prev` asked for a tool; `req` holds exactly
   * the prompt, `prev`'s content unchanged, and a user message with a single
   * tool_result answering the FIRST tool_use block of `prev`; no tools are sent.
   */
  ghost predicate IsFollowUp(prev: Response, req: Request) {
    && prev.stopReason == ToolUseStop
    && req.model == ModelName && req.maxTokens == MaxTokens && req.tools == None
    && |req.messages| == 3
    && req.messages[0] == UserPrompt
    && req.messages[1] == Message(Assistant, Blocks(prev.content))
    && req.messages[2].role == User
    && req.messages[2].content.Blocks?
    && |req.messages[2].content.blocks| == 1
    && exists i :: FirstOfType(prev.content, ToolUseType, i)
                   && Answers(req.messages[2].content.blocks[0], prev.content[i])
  }

  /**
   * The request the driver sends after a response that asked for a tool: the
   * follow-up built from its first tool_use block, or None when it holds none.
   */
  function FollowUpTo(prev: Response): (r: Option<Request>)
    requires prev.stopReason == ToolUseStop
    ensures r.None? <==> forall j :: 0 <= j < |prev.content| ==> prev.content[j].Type() != ToolUseType
  {
    match Find(prev.content, ToolUseType)
    case None => None
    case Some(i) =>
      var toolUse := prev.content[i];
      Some(FollowUpRequest(prev.content, ToolResultFor(toolUse.id, toolUse.name, toolUse.input)))
  }

  /** What `FollowUpTo` builds is the follow-up its response calls for. */
  lemma FollowUpToIsFollowUp(prev: Response)
    requires prev.stopReason == ToolUseStop && FollowUpTo(prev).Some?
    ensures IsFollowUp(prev, FollowUpTo(prev).value)
  {
  }

  /** Conversely, the only follow-up to a response is the one `FollowUpTo` builds. */
  lemma IsFollowUpIsFollowUpTo(prev: Response, req: Request)
    requires IsFollowUp(prev, req)
    ensures prev.stopReason == ToolUseStop && FollowUpTo(prev) == Some(req)
  {
    var i :| FirstOfType(prev.content, ToolUseType, i) && Answers(req.messages[2].content.blocks[0], prev.content[i]);
    FollowUpToIsFollowUp(prev);
    FollowUpUnique(prev, FollowUpTo(prev).value, req);
  }

  /** The follow-up to a response is unique: it depends on that response alone, not on earlier rounds. */
  lemma FollowUpUnique(prev: Response, a: Request, b: Request)
    requires IsFollowUp(prev, a) && IsFollowUp(prev, b)
    ensures a == b
  {
    var i :| FirstOfType(prev.content, ToolUseType, i)
             && a.messages[2].content.blocks[0]
                == ToolResultFor(prev.content[i].id, prev.content[i].name, prev.content[i].input);
    var j :| FirstOfType(prev.content, ToolUseType, j)
             && b.messages[2].content.blocks[0]
                == ToolResultFor(prev.content[j].id, prev.content[j].name, prev.content[j].input);
    FirstOfTypeUnique(prev.content, ToolUseType, i, j);
    var result := a.messages[2].content.blocks[0];
    assert a.messages[2] == Message(User, Blocks([result])) == b.messages[2];
    assert a.messages == [UserPrompt, Message(Assistant, Blocks(prev.content)), Message(User, Blocks([result]))] == b.messages;
  }

  /** `msg` holds a tool_use block whose id is `id`. */
  ghost predicate UsesToolId(msg: Message, id: string) {
    exists b :: 0 <= b < |BlocksOf(msg)| && BlocksOf(msg)[b].ToolUse? && BlocksOf(msg)[b].id == id
  }

  /** Every tool_result block in a user message answers a tool_use block of an earlier message. */
  ghost predicate ToolResultsPaired(msgs: seq<Message>) {
    forall m, b :: 0 <= m < |msgs| && msgs[m].role == User && 0 <= b < |BlocksOf(msgs[m])|
                   && BlocksOf(msgs[m])[b].ToolResult? ==>
      exists e :: 0 <= e < m && UsesToolId(msgs[e], BlocksOf(msgs[m])[b].toolUseId)
  }

  /** A prompt, an assistant message using `id`, then one tool_result for `id`: every tool_result is answered. */
  lemma ThreeMessagesPaired(msgs: seq<Message>, id: string)
    requires |msgs| == 3 && BlocksOf(msgs[0]) == [] && msgs[1].role == Assistant && UsesToolId(msgs[1], id)
    requires msgs[2].content.Blocks? && |msgs[2].content.blocks| == 1
    requires msgs[2].content.blocks[0].ToolResult? ==> msgs[2].content.blocks[0].toolUseId == id
    ensures ToolResultsPaired(msgs)
  {
    forall m, b | 0 <= m < |msgs| && msgs[m].role == User && 0 <= b < |BlocksOf(msgs[m])| && BlocksOf(msgs[m])[b].ToolResult?
      ensures exists e :: 0 <= e < m && UsesToolId(msgs[e], BlocksOf(msgs[m])[b].toolUseId)
    {
      assert m == 2 && b == 0;
      assert UsesToolId(msgs[1], BlocksOf(msgs[m])[b].toolUseId);
    }
  }

  /** A follow-up request is well formed: its tool_result's id is that of the assistant message's tool_use. */
  lemma FollowUpIsPaired(prev: Response, req: Request)
    requires IsFollowUp(prev, req)
    ensures ToolResultsPaired(req.messages)
  {
    var i :| FirstOfType(prev.content, ToolUseType, i) && Answers(req.messages[2].content.blocks[0], prev.content[i]);
    var msgs := req.messages;
    assert BlocksOf(msgs[1]) == prev.content;
    assert UsesToolId(msgs[1], prev.content[i].id);
    ThreeMessagesPaired(msgs, prev.content[i].id);
  }

  /** The first request carries no tool_result at all. */
  lemma InitialRequestIsPaired()
    ensures ToolResultsPaired(InitialRequest.messages)
  {
  }

  /**
   * The final answer: the text of the first `text` block, or None when there is
   * no text block or that text is empty (`?.text || null`).
   */
  function FinalText(content: seq<ContentBlock>): (r: Option<string>)
    ensures r.Some? <==> exists i :: FirstOfType(content, TextType, i) && content[i].text != ""
    ensures r.Some? ==> exists i :: FirstOfType(content, TextType, i) && content[i].text == r.value
  {
    match Find(content, TextType)
    case None => None
    case Some(i) =>
      if content[i].text == "" then None else Some(content[i].text)
  }
}
