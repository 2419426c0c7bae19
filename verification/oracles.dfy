/** Everything the pipeline consults that this model does not look inside:
    the data service reached over MCP, the two language-model calls, JSON
    decoding, Python's `str()` of numbers and containers, `float()` of a
    string, and the rule-based summary text. Each is a plain function value,
    so a run is deterministic given its `Env`. */
module Oracles {
  import opened Values

  /** The data service: a tool name and its arguments in; the decoded reply,
      or the exception the transport raised, out. */
  type Client = (string, Object) -> Attempt<Value>

  /** Which system instruction the reasoning call is given. */
  datatype ReasoningPrompt = BillWeightReasoningPrompt | GeneralReasoningPrompt

  /** What the reasoning call is shown: the instruction choice and the data
      blocks of the user message, before JSON serialisation. */
  datatype ReasonRequest = ReasonRequest(
    prompt: ReasoningPrompt,
    auditType: Value,
    ratedData: Object,
    parcelCharacteristics: Object,
    agreements: Value,
    referenceData: Value,
    enrichedData: Value)

  /** Which system instruction the summary call is given. */
  datatype SummaryPrompt = BillWeightSummaryPrompt | GeneralSummaryPrompt

  /** What the summary call is shown, before formatting. */
  datatype SummaryRequest = SummaryRequest(
    prompt: SummaryPrompt,
    auditType: Value,
    errorCase: Value,
    auditCause: Value,
    reasoningResult: Value,
    ratedData: Object,
    parcelCharacteristics: Value)

  datatype Env = Env(
    /** The MCP tool caller. */
    client: Client,
    /** `USE_MOCK_DATA`: whether the graph's fetchers run in mock mode. */
    useMockData: bool,
    /** Python's `str()` of a number, list or dictionary. */
    render: Value -> string,
    /** Python's `float(s)` of a string; `None` when it raises. */
    parseFloat: string -> Option<real>,
    /** `json.loads`; `None` when it raises `JSONDecodeError`. */
    decodeJson: string -> Option<Value>,
    /** The exception building the reasoning agent's chat client raises,
        if any: the agent's constructor builds it outside any `try`, from
        the configured model name and API key. */
    reasoningClientInit: Option<string>,
    /** The reasoning language model: the reply text or the raised exception. */
    reasoningModel: ReasonRequest -> Attempt<string>,
    /** The exception building the summary agent's chat client raises, if
        any, likewise. */
    summaryClientInit: Option<string>,
    /** The summary language model. */
    summaryModel: SummaryRequest -> Attempt<string>,
    /** The text of the rule-based fallback summary of a state, for the
        states on which building it raises nothing. */
    ruleBasedSummary: Object -> string,
    /** Invoice details of a tracking number. */
    invoiceDetails: Value -> Value,
    /** Tracking-number details of a tracking number. */
    trackingNumberDetails: Value -> Value)
}
