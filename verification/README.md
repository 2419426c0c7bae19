# Rate audit analyser, modelled in Dafny

RateAuditAnalyserAgent audits the rating of one parcel shipment. A
LangGraph state graph runs six nodes over a shared state:

1. `fetch_initial_data` reads the rated data, its additional services, the
   parcel characteristics, the client agreements and the default
   dimensional divisors through an MCP data fetcher.
2. `classify_audit` settles the audit type. It takes the category the rated
   data carries, or infers one by comparing carrier and calculated amounts.
3. `fetch_reference_data` reads the full tracking analysis.
4. `reason_audit` checks that the fields the audit type requires are
   present. When they are, it asks a language model for the cause.
5. The router after reasoning goes to summarizing on a sufficient status.
   Otherwise it goes to `enrich_data` while rounds of enrichment remain,
   and ends the run when none do.
6. `enrich_data` fetches more data and loops back to reasoning.
   `summarize_audit` writes the final summary and its bullet points.

The orchestrator builds the initial state and runs the graph, either to the
end or as a stream of node updates. It then projects the final state onto
the audit result.

The model has one module per part of the program:

- `Values`: Python values, `dict.get`, truthiness and `or`.
- `Text`: the `str` methods used (`strip`, `lstrip`, `split`, `in`, `upper`).
- `Oracles`: everything the program calls but does not define. This
  covers the MCP transport, the two language models, `json.loads`,
  `float()` of a string, `str()` of numbers and containers, and the text
  of the rule-based summary.
- `Fetcher`: the MCP data fetcher.
- `Classifier`, `Reasoning`, `Enrichment` and `Summary`: the four agents.
- `AuditGraph` and `AuditRun`: the state channels, the router, the edges
  and a run of the graph.
- `Workflow`: the two fetch nodes and the graph assembled from all six
  nodes.
- `Orchestrator`: the orchestrator.

Every node is a pure function from the state to `Result<update>`.
`Raised(kind)` is the exception that escapes the node. The graph runtime is
modelled as follows:

- An update is merged key by key into the state's channels.
- A run follows the edges until the end, a raise, or the runtime's bound of
  25 steps.

The enrichment agent calls two detail getters that `MCPDataFetcher` does
not define (see "## Findings"). The graph, the orchestrator's entry points
and the results about them therefore take the getters as a parameter,
`Enrichment.DetailGetters`:

- `NoDetailGetters` is the program as written. Asking for either detail
  raises `AttributeError`.
- `Enrichment.Supplied(env)` is the program as evidently intended. The
  getters are oracles like the rest of the fetcher.

The main results hold for both, and for every behaviour of the language
models and the MCP server:

- Every run ends within 11 steps. It reasons at most 4 times and enriches
  at most 3 times (`Workflow.WorkflowTerminates`).
- A run summarizes only straight after a sufficient status
  (`Workflow.WorkflowSummarizesOnlyWhenSufficient`).
- A run whose first reasoning is not sufficient never summarizes. When it
  completes, it has used every round of enrichment
  (`Workflow.WorkflowInsufficientLoop`, `Orchestrator.AuditInsufficientResult`).
- The `error` field of the audit result is always `None`
  (`Orchestrator.AuditResultErrorNone`).
- Streaming and invoking agree (`Orchestrator.AuditStreamAgrees`).

As written, no run completes after a first reasoning that is not
sufficient. Such a run stops at its first enrichment with
`AttributeError`, and so do `run_audit`, `run_audit_stream` and
`run_audit_analysis` (`Workflow.WorkflowAsWrittenFails`,
`Orchestrator.AuditAsWrittenRaises`). Only the corrected program can
reach the completed, exhausted end that the loop results describe.

Apart from that finding, the model keeps these behaviours of the code:

- The router's docstring promises to "end with error" once the
  enrichment rounds are exhausted (graph/workflow.py:151). The "end"
  route writes nothing, and no node writes `error`, so the result reports
  `None` for it (`Workflow.WorkflowWritesNoError`,
  `Orchestrator.AuditResultErrorNone`).
- The state declares `default_dim_divisors` and `error_case` as channels
  (graph/state.py:22 and 34). The initial state of the orchestrator sets
  neither (orchestrator/audit_orchestrator.py:36-57,
  `Orchestrator.StartFieldsAreChannels`).
- `classify` returns an `audit_group` key
  (agents/audit_classifier_agent.py:119). The state declares no such
  channel (graph/state.py), so the key is dropped when the update is
  merged (`Workflow.ClassifyWrites`).

## Model

| member | source | states |
|---|---|---|
| Values.Increment | agents/data_enrichment_agent.py:125-129 | `v + 1` succeeds exactly on numbers and booleans, and adds one to an int |
| Values.AtLeast | graph/workflow.py:159 | `v >= n` succeeds exactly on numbers and booleans, and compares an int |
| Values.StrList | agents/audit_summary_agent.py:50-53 | a list of strings becomes a list value of the same length holding each string in order |
| Text.SpanLen | agents/audit_classifier_agent.py:128 | the leading run of characters satisfying a predicate is maximal: all in it satisfy it, the next does not |
| Text.TailSpanLen | agents/audit_classifier_agent.py:128 | the trailing run of characters satisfying a predicate is maximal |
| Text.DropWhile | agents/audit_summary_agent.py:180 | the rest after a dropped prefix: everything dropped satisfies the predicate, and the rest does not start with such a character |
| Text.DropWhileEnd | agents/audit_classifier_agent.py:128 | the rest after a dropped suffix: everything dropped satisfies the predicate, and the rest does not end with such a character |
| Text.DropWhileSpan | agents/audit_summary_agent.py:180 | dropping a prefix is slicing off the maximal leading run |
| Text.DropWhileEndSpan | agents/audit_classifier_agent.py:128 | dropping a suffix is slicing off the maximal trailing run |
| Text.TrimPiece | agents/audit_classifier_agent.py:128 | trimming both ends by any predicate leaves a contiguous piece of the input |
| Text.TrimSuffix | agents/audit_classifier_agent.py:128 | every character after that piece satisfies the predicate |
| Text.StripSpec | agents/audit_classifier_agent.py:128 | `strip()` returns a contiguous piece of the input. The piece neither starts nor ends with whitespace, and only whitespace lies outside it |
| Text.StripIdempotent | agents/audit_classifier_agent.py:128 | stripping twice is stripping once |
| Text.StripKeepsTrimmed | agents/audit_classifier_agent.py:128 | a non-empty string without leading or trailing whitespace is its own strip |
| Text.StripEmptyIff | agents/audit_classifier_agent.py:125-128 | the strip is empty exactly when every character is whitespace |
| Text.FindFrom | agents/audit_reasoning_agent.py:320-323 | the first occurrence of the separator at or after a position, with none before it, or -1 when there is none |
| Text.ContainsIff | agents/audit_reasoning_agent.py:320-322 | `sep in s` holds exactly when the separator occurs somewhere |
| Text.ContainsExtended | agents/audit_reasoning_agent.py:320-322 | a string containing `p + q` contains `p` |
| Text.BeforeHasNoSeparator | agents/audit_reasoning_agent.py:321-323 | `split(sep)[0]` is a prefix of the input that does not contain the separator |
| Text.Split | agents/audit_summary_agent.py:176 | `split` returns at least one piece |
| Text.SplitPiecesLackSeparator | agents/audit_summary_agent.py:176 | no piece of a split contains the separator |
| Text.SplitJoin | agents/audit_summary_agent.py:176 | joining the pieces of a split with the separator gives back the input |
| Text.SplitConcat | agents/audit_summary_agent.py:176 | splitting `a + sep + b` gives the pieces of `a` followed by those of `b` |
| Text.Upper | agents/audit_classifier_agent.py:135-137 | `upper()` keeps the length and maps each character by its ASCII case |
| Fetcher.DictReply | mcp_tools/mcp_data_fetcher.py:52-58 | a dictionary reply passes through; any other reply becomes an invalid-format error dictionary |
| Fetcher.GetRatedData | mcp_tools/mcp_data_fetcher.py:33-63 | always a dictionary: the mock record in mock mode, otherwise the reply or an error dictionary naming the exception |
| Fetcher.GetParcelCharacteristics | mcp_tools/mcp_data_fetcher.py:65-85 | always a dictionary: the mock record, the reply, or an error dictionary |
| Fetcher.ListTool | mcp_tools/mcp_data_fetcher.py:87-105 | the list-valued tools (additional services here, and default divisors at lines 150-168 of the same file): an empty list in mock mode, on a falsy reply and on an exception; otherwise exactly the truthy reply |
| Fetcher.GetAgreements | mcp_tools/mcp_data_fetcher.py:107-128 | always a dictionary: the mock agreements, the reply, or an error dictionary |
| Fetcher.GetFullTrackingAnalysis | mcp_tools/mcp_data_fetcher.py:130-148 | the mock analysis; an empty dictionary for a falsy reply; an error dictionary on an exception; otherwise the reply |
| Fetcher.MockModeIgnoresClient | mcp_tools/mcp_data_fetcher.py:45-46 | in mock mode no getter depends on the MCP client |
| Fetcher.ReferenceDataTable | mcp_tools/mcp_data_fetcher.py:170-200 | the reference data per audit type group. It is non-empty exactly for the bill weight, list rate, surcharge and discount types |
| Fetcher.FetchMissingData | mcp_tools/mcp_data_fetcher.py:202-227 | fetches the tracking analysis exactly when a tracking field is missing and a tracking number is known. It fetches services exactly when they are missing and a rated-data id is known |
| Classifier.KnownCategoryOrderListsTheKeys | agents/audit_classifier_agent.py:15-43 | the lookup order lists exactly the known category codes |
| Classifier.GroupIn | agents/audit_classifier_agent.py:142-147 | the group found is one of the listed group names, or `UNKNOWN` |
| Classifier.CategoryGroupsPartitionKnownCategories | agents/audit_classifier_agent.py:46-75 | the groups list every known category exactly once and nothing else |
| Classifier.GroupInFirstListing | agents/audit_classifier_agent.py:144-146 | the group of a category is the first group listing it |
| Classifier.GroupInUnlisted | agents/audit_classifier_agent.py:147 | a category no group lists has group `UNKNOWN` |
| Classifier.GroupOfSpec | agents/audit_classifier_agent.py:142-147 | a known category gets the group listing it. The group is `UNKNOWN` exactly for an unknown category |
| Classifier.FirstUpperMatch | agents/audit_classifier_agent.py:135-138 | a match found is a key equal to the target ignoring case. No match means no key is equal to it ignoring case |
| Classifier.NormalizeCategory | agents/audit_classifier_agent.py:123-128 | a falsy category is `UNKNOWN`; a truthy non-string raises `AttributeError`; a string always normalizes |
| Classifier.NormalizeSpec | agents/audit_classifier_agent.py:128-140 | the stripped category is returned when known. Otherwise the result is a known code equal to it ignoring case, or the stripped text when no code is |
| Classifier.NormalizeFalsyFixed | agents/audit_classifier_agent.py:125-126 | the `UNKNOWN` of a falsy category normalizes to itself |
| Classifier.NormalizeKnownFixed | agents/audit_classifier_agent.py:131-132 | every known code normalizes to itself |
| Classifier.NormalizeIdempotent | agents/audit_classifier_agent.py:123-140 | normalizing a normalized category changes nothing, except that the empty result of a whitespace-only category then becomes `UNKNOWN` |
| Classifier.NormalizeUnmatchedFixed | agents/audit_classifier_agent.py:140 | an unmatched category is returned stripped and is then fixed |
| Classifier.NormalizeWhitespaceOnly | agents/audit_classifier_agent.py:125-140 | a whitespace-only category passes the falsy test and normalizes to the empty string |
| Classifier.ToFloat | agents/audit_classifier_agent.py:159 | `float(v)` converts ints and booleans. It raises exactly on None, containers and unparsable strings, with `ValueError` only for strings |
| Classifier.Amount | agents/audit_classifier_agent.py:158-159 | `d.get(k, 0) or 0` is truthy exactly when the stored value is, and 0 when the key is absent or None |
| Classifier.AmountsDiffer | agents/audit_classifier_agent.py:158-161 | a comparison succeeds exactly when both amounts convert, the carrier's error winning, and says whether they differ |
| Classifier.CodesAreKnown | agents/audit_classifier_agent.py:149-216 | every code inference returns is known, except `UNKNOWN` |
| Classifier.Infer | agents/audit_classifier_agent.py:149-156 | falsy rated data is undetermined; truthy non-dictionary data raises `AttributeError` |
| Classifier.InferCategory | agents/audit_classifier_agent.py:149-216 | the inferred code is known or `UNKNOWN` |
| Classifier.DecideWeightAndListRate | agents/audit_classifier_agent.py:157-170 | bill weight when the weights differ. List rate when the weights agree and both rates are set and differ. List rate null when only the carrier rate is set |
| Classifier.DecideDiscount | agents/audit_classifier_agent.py:172-187 | on a total discount difference: base when the base differs, earned when only the earned one differs, general discount otherwise |
| Classifier.DecideSurcharge | agents/audit_classifier_agent.py:189-204 | on a surcharge difference: fuel or general surcharge. Otherwise net transportation when that differs |
| Classifier.DecideNetCharge | agents/audit_classifier_agent.py:206-216 | Matched when all agree. A net difference is an exception when over-rated and undetermined otherwise |
| Classifier.DecideRaisesOnlyFromComparisons | agents/audit_classifier_agent.py:149-216 | inference raises only what a comparison raised, and never when all comparisons succeed |
| Classifier.Classify | agents/audit_classifier_agent.py:80-121 | the update holds exactly the type, label, group and confidence |
| Classifier.ClassifySpec | agents/audit_classifier_agent.py:90-121 | the type is the normalized chosen category. The confidence is 1.0 exactly for a known type and 0.5 otherwise. The label is the known one or `Unknown: <category>`, and the group is `UNKNOWN` exactly for an unknown type |
| Classifier.ClassifyUpdateSpec | agents/audit_classifier_agent.py:102-121 | for a string or truthy category that normalizes, the update's type is the code, confidence and group tell known codes from unknown ones, and an unknown code is labelled with the category's text |
| Classifier.CategorySource | agents/audit_classifier_agent.py:90-99 | a truthy category in the rated data wins; otherwise the inferred code is used |
| Classifier.ClassifyReadsOnlyRatedData | agents/audit_classifier_agent.py:90-121 | classification depends on nothing but the rated data |
| Reasoning.MissingFields | agents/audit_reasoning_agent.py:167-171 | a field is reported missing exactly when it is required and its value is None or absent |
| Reasoning.MissingFieldsConcat | agents/audit_reasoning_agent.py:168-171 | checking two lists of requirements is checking each, in order |
| Reasoning.MissingFieldsAntitone | agents/audit_reasoning_agent.py:165-171 | more data never adds missing fields |
| Reasoning.CheckRequiredFields | agents/audit_reasoning_agent.py:157-173 | raises `TypeError` exactly for an unhashable audit type or non-dictionary data. A field is missing exactly when the rated data holds None for it, or lacks it and the parcel data lacks it too |
| Reasoning.RatedNoneHidesParcel | agents/audit_reasoning_agent.py:165 | a None in the rated data shadows a parcel value, so the field is still missing |
| Reasoning.NoRequirementsNothingMissing | agents/audit_reasoning_agent.py:164 | an audit type without requirements has nothing missing |
| Reasoning.ExtractFields | agents/audit_reasoning_agent.py:288-314 | a listed field present in either source is extracted, with the rated data winning |
| Reasoning.ParseResponse | agents/audit_reasoning_agent.py:317-333 | the decoded fenced or stripped reply; when it is not JSON, a sufficient result holding the stripped reply as cause and reasoning |
| Reasoning.NoJsonFenceIn | agents/audit_reasoning_agent.py:320 | text without back-quotes followed by a fence holds no JSON fence |
| Reasoning.FirstFenceAfter | agents/audit_reasoning_agent.py:321-323 | the first fence after such text is the closing one |
| Reasoning.ParseFencedJson | agents/audit_reasoning_agent.py:320-321 | a JSON-fenced block yields its stripped body |
| Reasoning.ParseUnfenced | agents/audit_reasoning_agent.py:324-325 | an unfenced reply is parsed stripped |
| Reasoning.ReasoningUpdate | agents/audit_reasoning_agent.py:148-154 | the update holds exactly the five reasoning keys with the given values |
| Reasoning.ReasonRequestFor | agents/audit_reasoning_agent.py:233-268 | the bill-weight instruction is used exactly for bill weight audits. The rated data shown is limited to the common and required fields |
| Reasoning.AnalyzeWithCase | agents/audit_reasoning_agent.py:218-286 | a raising model raises. Otherwise the cause is the reply's `cause`, else its `reasoning`, else the raw reply, and the case is its `error_case` |
| Reasoning.ReasonOn | agents/audit_reasoning_agent.py:95-154 | the update holds exactly the reasoning keys |
| Reasoning.ReasonChecked | agents/audit_reasoning_agent.py:131-154 | the update after the requirement check holds exactly the reasoning keys |
| Reasoning.Reason | agents/audit_reasoning_agent.py:95-154 | the update of `reason` holds exactly the reasoning keys |
| Reasoning.SufficientConsistent | agents/audit_reasoning_agent.py:110-128 | a sufficient update with nothing missing is consistent |
| Reasoning.InsufficientConsistent | agents/audit_reasoning_agent.py:133-140 | an insufficient update names its missing fields |
| Reasoning.ReasonStatus | agents/audit_reasoning_agent.py:95-154 | every answer is consistent: sufficient with nothing missing, or insufficient with fields missing |
| Reasoning.CheckedStatus | agents/audit_reasoning_agent.py:131-154 | every answer after the check is consistent |
| Reasoning.InsufficientIffMissing | agents/audit_reasoning_agent.py:131-140 | the status is insufficient exactly when fields are missing, and the update lists them |
| Reasoning.InsufficientNamesRequired | agents/audit_reasoning_agent.py:131-140 | an answer other than sufficient lists a non-empty set of fields the audit type requires, read from dictionary rated and parcel data |
| Reasoning.FixedAnswersIgnoreModel | agents/audit_reasoning_agent.py:110-140 | matched, exception and insufficient answers do not depend on the language model or the JSON decoder |
| Reasoning.MatchedAnswer | agents/audit_reasoning_agent.py:110-117 | a matched audit gets the fixed sufficient Case 4 answer |
| Reasoning.ExceptionAnswer | agents/audit_reasoning_agent.py:120-128 | an exception audit reports the rated data's message or the default one, and raises on non-dictionary data |
| Reasoning.AnalysedAnswer | agents/audit_reasoning_agent.py:143-154 | with nothing missing the answer is sufficient. The result and the cause are the model's cause, and the case is its case or the completed case |
| Reasoning.InsufficientDependsOnDataOnly | agents/audit_reasoning_agent.py:105-140 | an insufficient answer depends only on the audit type, the rated data and the parcel data |
| Reasoning.ReasonNode | agents/audit_reasoning_agent.py:336-366 | the node raises what building the agent's chat client raises (constructor at lines 88-93). Otherwise it passes on what the agent raises and returns its update, except that a truthy cause the log cannot slice raises, `KeyError` for a dictionary and `TypeError` otherwise |
| Enrichment.Elements | agents/data_enrichment_agent.py:139 | iteration visits something exactly when the value is truthy |
| Enrichment.TableNamesDataSources | agents/data_enrichment_agent.py:21-58 | every table entry names one of six sources |
| Enrichment.DetermineDataSources | agents/data_enrichment_agent.py:133-145 | raises exactly on an unhashable field. The sources are among the six and empty exactly when nothing is missing. They cover each field's source or the invoice fallback, and each is the source or fallback of some missing field |
| Enrichment.UnknownFieldNeedsInvoiceDetails | agents/data_enrichment_agent.py:141-143 | a field the table does not know calls for invoice details |
| Enrichment.RequiredNamesListed | agents/audit_reasoning_agent.py:27-86 | every field reasoning requires, for any audit type, is one of 22 camel-case names |
| Enrichment.WeightAndDiscountNamesUnknown | agents/data_enrichment_agent.py:21-58 | the table knows none of the bill weight and base and total discount names |
| Enrichment.EarnedAndListRateNamesUnknown | agents/data_enrichment_agent.py:21-58 | nor the earned discount and list rate names |
| Enrichment.ChargeNamesUnknown | agents/data_enrichment_agent.py:21-58 | nor the transportation charge, surcharge and fuel names |
| Enrichment.RequiredFieldsUnknown | agents/data_enrichment_agent.py:21-58 | no field reasoning requires, for any audit type, is in the table, which is spelled in snake case |
| Enrichment.FetchContext | agents/data_enrichment_agent.py:82-91 | the context carries the state's tracking number and never a rated-data id |
| Enrichment.DetailData | agents/data_enrichment_agent.py:98-107 | raises exactly when detail getters are absent and details are needed; otherwise fetches the invoice details when asked |
| Enrichment.NewData | agents/data_enrichment_agent.py:96-119 | the fetched keys lie within the five data keys. It raises exactly when detail getters are missing and needed |
| Enrichment.NewDataEntries | agents/data_enrichment_agent.py:98-119 | services are fetched only with a rated-data id, and invoice details whenever asked for |
| Enrichment.FetchRound | agents/data_enrichment_agent.py:81-119 | a round never fetches additional services, since its context has no rated-data id |
| Enrichment.MergeRound | agents/data_enrichment_agent.py:121-130 | succeeds exactly when the old data is dictionary-like and the count increments. New data wins over old, old keys are kept, the count goes up by one and the missing fields are cleared |
| Enrichment.MergeKeeps | agents/data_enrichment_agent.py:121-130 | a fetched key lands in the enriched data and an int count goes up by one |
| Enrichment.EnrichWith | agents/data_enrichment_agent.py:63-131 | with nothing missing the stored data and count are written back; otherwise the fetch round is merged |
| Enrichment.PassthroughIsNoOp | agents/data_enrichment_agent.py:73-79 | with nothing missing, merging the update leaves the state unchanged |
| Enrichment.EnrichRound | agents/data_enrichment_agent.py:81-131 | a round keeps every old entry, adds only data keys, increments the count and clears the missing fields |
| Enrichment.AdditionalServicesNeverFetched | agents/data_enrichment_agent.py:82-91 | services in the enriched data were already there before the round |
| Enrichment.FetchRoundWithoutGetters | agents/data_enrichment_agent.py:98-107 | without detail getters a round gives the same result or raises `AttributeError` |
| Enrichment.AsWrittenDiffersOnlyOnDetails | agents/data_enrichment_agent.py:98-107 | the code as written agrees with the corrected round, or raises `AttributeError` |
| Enrichment.RoundNeedingInvoice | agents/data_enrichment_agent.py:98-102 | a round needing invoice details raises without the getter and fetches them with it |
| Enrichment.UnknownFieldAfterReasoning | agents/data_enrichment_agent.py:73-94 | after reasoning names a field the table does not know, the round needs invoice details |
| Enrichment.AsWrittenFailsOnUnknownField | agents/data_enrichment_agent.py:98-102 | as written, that round raises `AttributeError` |
| Enrichment.AsWrittenFailsAfterReasoning | agents/data_enrichment_agent.py:94-102 | as written, every round after reasoning reported required fields missing needs invoice details and raises `AttributeError` |
| Enrichment.CorrectedSucceedsOnUnknownField | agents/data_enrichment_agent.py:98-130 | with the getters, that round succeeds, fetches the invoice details and increments the count |
| Enrichment.EnrichNode | agents/data_enrichment_agent.py:148-168 | the node returns the update of the agent enriching with the given getters (none, as written). It succeeds exactly when the agent does with a numeric count and dictionary enriched data, since the log reads both, and passes on what the agent raises |
| Summary.Bullet | agents/audit_summary_agent.py:180 | a bullet never starts with a stripped character |
| Summary.FilterMap | agents/audit_summary_agent.py:175-181 | no more outputs than inputs |
| Summary.Shifted | agents/audit_summary_agent.py:177 | each position moves up by one |
| Summary.KeptIndices | agents/audit_summary_agent.py:177-179 | every position recorded is in range and holds a kept element |
| Summary.FilterMapIndexed | agents/audit_summary_agent.py:177-180 | the j-th output is the image of the element at the j-th kept position |
| Summary.KeptIndicesIncrease | agents/audit_summary_agent.py:177 | kept positions increase strictly |
| Summary.KeptIndicesComplete | agents/audit_summary_agent.py:179 | no kept element is skipped |
| Summary.FilterMapConcat | agents/audit_summary_agent.py:177-180 | filtering two runs is filtering each, in order |
| Summary.ExtractBullets | agents/audit_summary_agent.py:173-181 | no more bullets than lines |
| Summary.FilterMapExactly | agents/audit_summary_agent.py:175-181 | the outputs are exactly the images of the kept elements, in order |
| Summary.ExtractBulletsExactly | agents/audit_summary_agent.py:173-181 | the bullets are exactly those of the bullet lines, in line order, none skipped |
| Summary.FilterMapAll | agents/audit_summary_agent.py:180 | every output has each property every image has |
| Summary.BulletsStartClean | agents/audit_summary_agent.py:180 | no bullet starts with a glyph, dash, asterisk or space character |
| Summary.ExtractBulletsConcat | agents/audit_summary_agent.py:176-180 | the bullets of two texts joined by a newline are those of each, in order |
| Summary.BoldHeadingIsBullet | agents/audit_summary_agent.py:179-180 | a `**heading` line counts as a bullet and keeps its closing asterisks |
| Summary.SummaryData | agents/audit_summary_agent.py:88-100 | keeps exactly the listed fields whose value is not None, unchanged |
| Summary.SummaryDataIdempotent | agents/audit_summary_agent.py:100 | projecting twice is projecting once, and a projection only drops keys |
| Summary.SummaryRequestFor | agents/audit_summary_agent.py:62-78 | the bill-weight instruction is used exactly for bill weight audits, and the data shown is the projection |
| Summary.LlmSummary | agents/audit_summary_agent.py:55-86 | non-dictionary rated data raises `AttributeError`; otherwise the model's reply or what it raised |
| Summary.RuleBasedSummary | agents/audit_summary_agent.py:102-171 | the fallback succeeds exactly when the rated data is a dictionary, both net charges convert, and zone audits have dictionary parcel data |
| Summary.ChosenSummary | agents/audit_summary_agent.py:43-46 | the model's summary when it returns, the fallback when it raised; a summary exists when either path gives one |
| Summary.SummaryUpdate | agents/audit_summary_agent.py:50-53 | the update holds exactly the summary text and its bullets, in order |
| Summary.Summarize | agents/audit_summary_agent.py:29-53 | succeeds exactly when a summary was chosen, and returns it with its bullets |
| Summary.WellTypedStateGetsSummary | agents/audit_summary_agent.py:39-53 | well-typed data always yields a summary, whatever the model does |
| Summary.NonDictRatedDataFails | agents/audit_summary_agent.py:39-46 | non-dictionary rated data yields no summary |
| Summary.SummarizeNode | agents/audit_summary_agent.py:184-205 | the node raises what building the agent's chat client raises (constructor at lines 22-27). Otherwise it is the agent's `summarize`, writing exactly the summary and its bullets |
| AuditGraph.MergeAt | graph/state.py:9-48 | after a merge a state key named by the update takes its value, and every other key keeps its old one |
| AuditGraph.MergeIdempotent | graph/state.py:9-48 | merging the same update twice is merging it once |
| AuditGraph.ShouldContinueReasoning | graph/workflow.py:144-162 | summarize on a sufficient status. Otherwise end at or past the maximum count, else enrich. A non-numeric count raises |
| AuditGraph.RouterDefaults | graph/workflow.py:153-162 | an empty state routes to enriching, and a sufficient status ignores the count |
| AuditGraph.Successor | graph/workflow.py:191-213 | only the router can raise |
| AuditGraph.SuccessorFollowsEdges | graph/workflow.py:191-213 | every successor is an edge; summarizing only on sufficient, enriching only otherwise |
| AuditGraph.MergeIntoEmpty | graph/state.py:9-48 | an update within the channels merged into an empty state is itself |
| AuditGraph.SummarizeKeys | agents/audit_summary_agent.py:50-53 | the summary update is within its node's keys |
| AuditGraph.NoNodeWritesError | graph/workflow.py:183-188 | no node's keys include `error` |
| AuditGraph.OnlySummarizingWritesSummary | agents/audit_summary_agent.py:50-53 | only summarizing writes the summary and bullets |
| AuditGraph.OwnKeys | graph/workflow.py:183-188 | each node writes only its own keys |
| AuditGraph.SuperstepsMergeAlongEdges | graph/workflow.py:191-213 | every superstep merges its update and follows an edge |
| AuditGraph.SuperstepsWriteWithin | graph/workflow.py:183-188 | every superstep stays within its node's keys |
| AuditGraph.CountKept | graph/state.py:37 | an update without the count keeps it |
| AuditGraph.CountSet | graph/state.py:37 | an update with the count sets it |
| AuditGraph.AuditDataKept | graph/state.py:18-25 | an update without the audit data keeps it |
| AuditGraph.ReasoningSet | graph/state.py:30-32 | a reasoning update sets the status and the missing fields |
| AuditGraph.SuperstepsPrefix | graph/workflow.py:194-196 | the first three steps go straight on; the first resets the count and the next two keep it |
| AuditGraph.ReasonSuperstep | graph/workflow.py:199-207 | reasoning keeps the count, names missing fields on any other status, and routes by status and count |
| AuditGraph.SuperstepsLoop | graph/workflow.py:199-213 | the reasoning and enrichment steps have the loop's shape |
| AuditGraph.SuperstepsKeepData | graph/workflow.py:199-210 | reasoning and enriching keep the audit data |
| AuditGraph.SuperstepsInsufficient | graph/workflow.py:199-210 | an insufficient answer stays insufficient on the same audit data |
| AuditGraph.SuperstepsRaiseAfterInsufficient | graph/workflow.py:199-210 | when enriching raises after a first answer other than sufficient, so does the enrich superstep |
| AuditRun.Run | graph/workflow.py:218-221 | a run takes no more steps than the bound allows |
| AuditRun.RunUnfolds | graph/workflow.py:191-213 | a run that moves on is its first step followed by the rest |
| AuditRun.RunShifts | graph/workflow.py:191-213 | step k of a run is step k - 1 of the run from the next node |
| AuditRun.RunStops | graph/workflow.py:191-213 | a run that does not move on takes at most one step, and completes only at the end |
| AuditRun.RunChains | graph/state.py:9-48 | the steps of a run are chained by merges, and the run leaves the last state |
| AuditRun.ChainedAt | graph/state.py:9-48 | each chained step merges its update into the previous state |
| AuditRun.KeptThroughChain | graph/state.py:9-48 | a key no step writes keeps its value through a chain |
| AuditRun.KeptThroughRun | graph/state.py:9-48 | a key no step writes keeps its value through a run |
| AuditRun.RunFollowsEdges | graph/workflow.py:191-213 | consecutive steps follow the edges, with status conditions on summarizing and enriching |
| AuditRun.FirstStepRunsAt | graph/workflow.py:191 | the first step runs the start node |
| AuditRun.MovesOnWhenLonger | graph/workflow.py:191-213 | a run of more than one step moved on |
| AuditRun.CountCons | graph/workflow.py:183-188 | a leading step adds one to its node's count |
| AuditRun.CountZero | graph/workflow.py:183-188 | a node with count zero runs at no step |
| AuditRun.CountAtMostLength | graph/workflow.py:183-188 | no node runs more often than there are steps |
| AuditRun.RunWritesOnly | graph/workflow.py:183-188 | every update of a run stays within its node's keys |
| AuditRun.NoErrorWritten | graph/state.py:45 | a run leaves `error` as it found it |
| AuditRun.SummaryOnlyBySummarizing | graph/state.py:41-42 | a run that never summarizes leaves the summary and bullets as it found them |
| AuditRun.RunFromSummarize | graph/workflow.py:213 | summarizing is the last step |
| AuditRun.ReasonMovesOn | graph/workflow.py:199-207 | reasoning moves on to summarizing, or to enriching with a round left and fields missing |
| AuditRun.EnrichMovesOn | graph/workflow.py:210 | enriching goes back to reasoning with the count up by one |
| AuditRun.RunPrepends | graph/workflow.py:191-213 | a step in front of a bounded run adds one to the bounds |
| AuditRun.RunStopsWithin | graph/workflow.py:191-213 | a run that stops takes at most one step |
| AuditRun.RunFromReason | graph/workflow.py:199-210 | from reasoning, the run length and the node counts are bounded by the rounds left |
| AuditRun.RunFromEnrich | graph/workflow.py:199-210 | from enriching, likewise |
| AuditRun.RunFromFetchReference | graph/workflow.py:196-213 | from fetching reference data: at most 9 steps, 4 reasonings and 3 enrichments |
| AuditRun.RunFromClassify | graph/workflow.py:195-213 | from classifying: at most 10 steps |
| AuditRun.RunTerminates | graph/workflow.py:191-213 | every run ends before the step bound, in at most 11 steps, with at most 4 reasonings and 3 enrichments |
| AuditRun.RunPrependsInsufficient | graph/workflow.py:191-213 | a step other than summarizing in front of an insufficient run keeps it insufficient |
| AuditRun.RunStopsInsufficient | graph/workflow.py:199-207 | a run ending at an exhausted insufficient step ends insufficient |
| AuditRun.StillInsufficient | graph/workflow.py:199-210 | reasoning on unchanged data stays insufficient |
| AuditRun.ReasonFinishes | graph/workflow.py:156-160 | reasoning ends the run only at the maximum count with a status other than sufficient |
| AuditRun.InsufficientFromReason | graph/workflow.py:199-210 | a loop that starts insufficient never summarizes, and completes only exhausted |
| AuditRun.InsufficientFromEnrich | graph/workflow.py:199-210 | likewise from enriching |
| AuditRun.InsufficientFromFetchReference | graph/workflow.py:196-210 | likewise from fetching reference data |
| AuditRun.InsufficientFromClassify | graph/workflow.py:195-210 | likewise from classifying |
| AuditRun.InitialMovesOn | graph/workflow.py:194 | the initial fetch goes on to classifying with the count at zero |
| AuditRun.InsufficientFromStart | graph/workflow.py:191-210 | a run whose first reasoning is insufficient ends insufficient |
| AuditRun.InsufficientRun | graph/workflow.py:191-210 | such a run never summarizes, and completes at the maximum count with a status other than sufficient |
| AuditRun.SummarizesOnlyWhenSufficient | graph/workflow.py:199-207 | summarizing only follows a sufficient status, and enriching only another one |
| AuditRun.FailsAtFirstEnrich | graph/workflow.py:191-210 | a run whose first reasoning is not sufficient, with an enrichment that then raises, stops after four steps with that error at enriching |
| Workflow.WithServices | graph/workflow.py:62-72 | services are attached to truthy dictionary rated data, fetched by id or empty without one. Logging an unsized reply raises |
| Workflow.ShipDate | graph/workflow.py:84-91 | the parcel's ship date, else the rated data's, else none |
| Workflow.DimDivisors | graph/workflow.py:93-98 | divisors are fetched only for a truthy ship date. Logging an unsized reply raises |
| Workflow.FetchInitialData | graph/workflow.py:20-109 | writes exactly the five initial keys with the count at zero |
| Workflow.InitialDataFetches | graph/workflow.py:62-106 | divisors are fetched only with a ship date. Services are attached only to truthy rated data, and are empty without an id |
| Workflow.FetchReferenceData | graph/workflow.py:112-140 | writes only the full tracking analysis of the tracking number |
| Workflow.ReasoningKeysAreNodeKeys | agents/audit_reasoning_agent.py:148-154 | the reasoning keys are the node's keys |
| Workflow.FetchInitialWrites | graph/workflow.py:100-106 | the initial fetch writes its own keys and resets the count |
| Workflow.ClassifyWrites | agents/audit_classifier_agent.py:116-121 | classifying writes its four keys |
| Workflow.FetchReferenceWrites | graph/workflow.py:138-140 | fetching reference data writes only the reference data |
| Workflow.ReasonWrites | agents/audit_reasoning_agent.py:95-154 | reasoning writes its keys, names missing fields when not sufficient, and answers insufficient on the data alone |
| Workflow.EnrichWrites | agents/data_enrichment_agent.py:125-130 | enriching writes its keys and increments the count when fields are missing |
| Workflow.SummarizeWrites | agents/audit_summary_agent.py:50-53 | summarizing writes the summary and its bullets |
| Workflow.WorkflowWellBehaved | graph/workflow.py:183-188 | the six registered nodes behave as a run relies on |
| Workflow.StepsOfWellBehaved | graph/workflow.py:191-213 | their supersteps have every property the run lemmas use |
| Workflow.WorkflowTerminates | graph/workflow.py:165-215 | every workflow run ends within 11 steps, with at most 4 reasonings and 3 enrichments |
| Workflow.WorkflowSummarizesOnlyWhenSufficient | graph/workflow.py:199-207 | the workflow summarizes only after a sufficient status and enriches only after another one |
| Workflow.WorkflowWritesNoError | graph/workflow.py:159-160 | the workflow leaves `error` as it found it, so exhaustion records no error |
| Workflow.WorkflowInsufficientLoop | graph/workflow.py:199-210 | for either getters, an insufficient first answer means no summary, and a completed run at the maximum count. As written no such run completes (`Workflow.WorkflowAsWrittenFails`) |
| Workflow.MergeNamingMissing | graph/state.py:18-37 | merging reasoning's update keeps the audit data and the count and hands enrichment the missing names |
| Workflow.StateAfterInsufficientAnswer | agents/audit_reasoning_agent.py:131-140 | after an answer other than sufficient, enrichment receives required fields of the audit type, with the count unchanged |
| Workflow.EnrichAsWrittenRaises | agents/data_enrichment_agent.py:94-102 | as written, enriching right after a first answer other than sufficient raises `AttributeError` |
| Workflow.WorkflowAsWrittenFails | graph/workflow.py:191-210 | as written, a run whose first reasoning is not sufficient stops at its first enrichment, after four steps, with `AttributeError` |
| Orchestrator.InitialStateKeys | orchestrator/audit_orchestrator.py:36-57 | the initial state sets exactly the listed fields |
| Orchestrator.StartFieldsAreChannels | orchestrator/audit_orchestrator.py:36-57 | those are every channel but the divisors and the error case |
| Orchestrator.InitialStateTakenIn | orchestrator/audit_orchestrator.py:60 | taking the initial state in changes nothing |
| Orchestrator.InitialStateValues | orchestrator/audit_orchestrator.py:36-57 | the identifiers are the arguments, the count is zero, the messages empty and the rest None |
| Orchestrator.InitialOutputsNone | orchestrator/audit_orchestrator.py:53-55 | the summary, bullets and error start as None |
| Orchestrator.Invoke | orchestrator/audit_orchestrator.py:60 | invoke returns the final state of a completed run; otherwise it raises what the run raised, or a recursion error at the bound |
| Orchestrator.Chunks | orchestrator/audit_orchestrator.py:99-100 | one item per step, naming its node and update |
| Orchestrator.ReplayChain | orchestrator/audit_orchestrator.py:99-100 | replaying the items of chained steps reaches the last state |
| Orchestrator.StreamAgreesWithInvoke | orchestrator/audit_orchestrator.py:60-100 | the stream raises exactly when invoke does, with the same error. Otherwise it names the nodes in order, and its updates replay to invoke's final state |
| Orchestrator.GetAuditResult | orchestrator/audit_orchestrator.py:112-121 | the result has exactly the eight keys |
| Orchestrator.ResultReadsSources | orchestrator/audit_orchestrator.py:112-121 | each key holds its source field when present, even None. It takes its default, an empty list, zero or None, only when the field is absent |
| Orchestrator.ResultOnlyReadsSources | orchestrator/audit_orchestrator.py:112-121 | the result depends only on the eight source fields |
| Orchestrator.RunAuditAnalysis | orchestrator/audit_orchestrator.py:124-142 | the analysis succeeds exactly when the run does, and projects its final state |
| Orchestrator.ResultErrorNone | orchestrator/audit_orchestrator.py:55 | a well-behaved graph reports no error |
| Orchestrator.InsufficientResult | orchestrator/audit_orchestrator.py:112-121 | an insufficient run reports no summary, no bullets and the maximum count |
| Orchestrator.AuditResultErrorNone | orchestrator/audit_orchestrator.py:120 | the audit result's error is always None |
| Orchestrator.AuditStreamAgrees | orchestrator/audit_orchestrator.py:60-100 | `run_audit_stream` raises exactly when `run_audit` does, and otherwise replays to its final state |
| Orchestrator.AuditInsufficientResult | orchestrator/audit_orchestrator.py:116-119 | an audit whose first reasoning is insufficient reports, when it completes, no summary, no bullets and every round used. As written it never completes (next row) |
| Orchestrator.AuditAsWrittenRaises | orchestrator/audit_orchestrator.py:60-142 | as written, an audit whose first reasoning is insufficient raises `AttributeError` when run, streamed or analysed |

## Left out

- Logging, `log_*` helpers, the `utils/logger.py` module, `app.py` and `run.py`: logging is left out. The model keeps only the places where a log line could raise: the `len()` of fetched services and divisors, the `[:100]` slice of the cause, and formatting the count and the enriched data.
- Prompt texts in `prompts/prompts.py`: only which instruction is chosen is modelled. The text itself is not part of this model.
- Language models, `json.loads` and `float()` of a string: these are oracles in `Oracles.Env`. A model call may return any reply or raise any exception. Building either agent's chat client may raise any exception, given as `Env.reasoningClientInit` and `Env.summaryClientInit`.
- Reasoning.ReasonNode: slicing a dictionary cause raises `KeyError`, as from Python 3.12. Python 3.11 and earlier raise `TypeError` there instead.
- `mcp_tools/client.py` and the SSE transport: the tool caller is an oracle that returns a reply or an exception.
- `_analyze_discrepancy` of the reasoning agent: it is never called, since `reason` uses `_analyze_discrepancy_with_case`.
- `Summary.RuleBasedSummary`: only when the fallback raises is modelled. Its text, including float formatting, is given by an oracle.
- `Text.Upper`: maps only ASCII letters; Python's full Unicode case mapping is not modelled.
- `messages` and its `add_messages` reducer: no node writes messages, so the channel only carries the initial empty list.
- `USE_MOCK_DATA` and the MCP address come from the environment. The model treats them as `Env.useMockData`, and the address is not modelled.
- `AuditOrchestrator.__init__` compiles the graph; the model uses the graph value `Workflow.AuditWorkflow` directly, with the detail getters as a parameter.
- `Orchestrator.Stream`: a chunk is the node's raw update, before channel filtering, as the updates stream mode yields it. Values, debug and checkpoint stream modes are not modelled.
- `Enrichment.FetchRound`: the reference data for an audit type is the fixed table of `get_reference_data`. Its keyword arguments for the postal codes are ignored, as in the source.
- `Fetcher.GetRatedData`: the client and carrier identifiers it accepts are not sent to the tool, as in the source, and so do not appear.
- Concurrency, timeouts and retries of the graph runtime: not modelled. A run is sequential, one node per superstep.
- Classifier.ToFloat: a Python float is modelled as an exact real. There is no NaN or infinity, an int converts exactly rather than rounding beyond 2^53, and an int too large for a float does not raise `OverflowError`.
- Classifier.AmountsDiffer: compares those exact reals, so two large ints that round to the same float count as different, and no amount is NaN and thus unequal to itself.
- `Enrichment.Supplied`: `get_invoice_details` and `get_tracking_number_details` exist nowhere in the source. The corrected program takes them as oracles of `Oracles.Env`, so nothing is promised about what they return.

## Findings

| source | as written | input that shows it | evidently intended | confidence | as-written member | corrected member |
|---|---|---|---|---|---|---|
| agents/data_enrichment_agent.py:98-107 | `enrich` calls `get_invoice_details` and `get_tracking_number_details` on `MCPDataFetcher`, which defines neither (mcp_tools/mcp_data_fetcher.py:27-231). Any round whose sources include invoice or tracking details raises `AttributeError`. Every field reasoning reports is spelled in camel case (`carrierBillWeight`), while the table uses snake case (`carrier_bill_weight`). So every real round falls back to invoice details and raises (`Enrichment.AsWrittenFailsAfterReasoning`). Every audit whose first reasoning is not sufficient therefore raises at its first enrichment (`Workflow.WorkflowAsWrittenFails`, `Orchestrator.AuditAsWrittenRaises`) | a state after a bill weight audit with `missing_fields == ["carrierBillWeight"]` and dictionary rated and parcel data | fetch the invoice and tracking details, merge them into the enriched data and count the round | not executed | Enrichment.AsWrittenFailsOnUnknownField | Enrichment.CorrectedSucceedsOnUnknownField |
