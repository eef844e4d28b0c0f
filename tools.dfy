/**
 * The tool registry: the descriptor of the one advertised tool, its mock
 * handler `getStockPrice`, and the dispatcher `processToolCall`.
 */
module Tools {
  import opened Wrappers
  import opened JsString

  /** A tool_use input object; only its string-valued fields are modelled. */
  type ToolInput = map<string, string>

  /** One entry of a JSON-schema `properties` object. */
  datatype PropertySchema = PropertySchema(name: string, jsonType: string, description: string)

  /** The `input_schema` advertised for a tool. */
  datatype InputSchema = InputSchema(jsonType: string, properties: seq<PropertySchema>, required: seq<string>)

  /** A tool as advertised to the model service. */
  datatype ToolDescriptor = ToolDescriptor(name: string, description: string, inputSchema: InputSchema)

  const GetStockPriceName: string := "get_stock_price"
  const SymbolField: string := "symbol"
  const PlaceholderPrice: string := "$198.53 USD"
  const SymbolRequired: string := "stock symbol is required"
  const UnknownToolPrefix: string := "Unknown tool: "

  const GetStockTool: ToolDescriptor := ToolDescriptor(
    GetStockPriceName,
    "The get_stock_price tool retrieves the current price of a single stock by its ticker symbol",
    InputSchema("object",
                [PropertySchema(SymbolField, "string", "The ticker symbol of the stock to retrieve")],
                [SymbolField]))

  /** The list of all tools available to the agent. */
  const AgentTools: seq<ToolDescriptor> := [GetStockTool]

  /** The input names a symbol that is present, non-empty and not only white space. */
  predicate HasSymbol(input: ToolInput)
    ensures HasSymbol(input) <==> SymbolField in input && input[SymbolField] != "" && Trim(input[SymbolField]) != ""
  {
    TrimEmptyIff(if SymbolField in input then input[SymbolField] else "");
    SymbolField in input && !AllWhitespace(input[SymbolField])
  }

  /** The mock stock-price handler: validates the symbol, then returns a fixed placeholder. */
  function GetStockPrice(input: ToolInput): (r: Result<string>)
    ensures r.Ok? <==> HasSymbol(input)
    ensures r.Ok? ==> r.value == PlaceholderPrice
    ensures r.Err? ==> r.message == SymbolRequired
  {
    if SymbolField !in input then Err(SymbolRequired)
    else
      var symbol := input[SymbolField];
      TrimEmptyIff(symbol);
      if symbol == "" || Trim(symbol) == "" then Err(SymbolRequired)
      else Ok(PlaceholderPrice)
  }

  /** Dispatches a tool call by name; every name but the registered one is an unknown tool. */
  function ProcessToolCall(toolName: string, toolInput: ToolInput): (r: Result<string>)
    ensures r.Ok? <==> toolName == GetStockPriceName && HasSymbol(toolInput)
    ensures r.Ok? ==> r.value == PlaceholderPrice
    ensures r.Err? ==> r.message == if toolName == GetStockPriceName then SymbolRequired
                                    else UnknownToolPrefix + toolName
  {
    if toolName == GetStockPriceName then GetStockPrice(toolInput)
    else Err(UnknownToolPrefix + toolName)
  }

  /** The handler's result does not depend on which valid symbol it is given. */
  lemma GetStockPriceIgnoresSymbol(a: ToolInput, b: ToolInput)
    requires HasSymbol(a) && HasSymbol(b)
    ensures GetStockPrice(a) == GetStockPrice(b) == Ok(PlaceholderPrice)
  {
  }

  /** The two failure messages never coincide, so a tool result tells the two errors apart. */
  lemma ErrorMessagesDistinct(toolName: string)
    ensures UnknownToolPrefix + toolName != SymbolRequired
  {
    assert (UnknownToolPrefix + toolName)[0] == 'U';
  }

  /**
   * Registry and descriptors agree: every advertised tool is dispatched to its
   * handler (never "Unknown tool"), and an input lacking a field its schema
   * marks as required is rejected.
   */
  lemma AdvertisedToolsAreDispatched(t: ToolDescriptor, input: ToolInput)
    requires t in AgentTools
    ensures ProcessToolCall(t.name, input) == GetStockPrice(input)
    ensures (exists f :: f in t.inputSchema.required && f !in input) ==> ProcessToolCall(t.name, input).Err?
  {
  }
}
