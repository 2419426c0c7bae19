/** The orchestrator: the state a run starts from, the two ways of running
    the compiled workflow (to the end, or streaming each node's update), and
    the projection of a final state onto the audit result. */
module Orchestrator {
  import opened Values
  import opened AuditGraph
  import opened AuditRun
  import opened Oracles
  import opened Workflow
  import Enrichment

  /** The fields the initial state sets to `None`. */
  const NoneAtStart: set<string> := {
    "rated_data", "parcel_characteristics", "agreements", "reference_data",
    "audit_type", "audit_category", "classification_confidence",
    "reasoning_status", "reasoning_result", "missing_fields", "audit_cause",
    "enriched_data", "audit_summary", "summary_bullets", "error"}

  /** The fields the initial state sets to something else. */
  const SetAtStart: set<string> := {
    "tracking_number", "client_id", "carrier_id", "enrichment_iterations", "messages"}

  /** The state `run_audit` and `run_audit_stream` both start from: the
      three identifiers, a zero count, no messages and the fields of
      `NoneAtStart` set to `None`. */
  function InitialState(trackingNumber: string, clientId: string, carrierId: string): Object {
    (map k | k in NoneAtStart :: Null)[
      "tracking_number" := Str(trackingNumber)][
      "client_id" := Str(clientId)][
      "carrier_id" := Str(carrierId)][
      "enrichment_iterations" := Int(0)][
      "messages" := List([])]
  }

  /** The initial state sets exactly the fields of `NoneAtStart` and
      `SetAtStart`. */
  lemma InitialStateKeys(trackingNumber: string, clientId: string, carrierId: string)
    ensures InitialState(trackingNumber, clientId, carrierId).Keys == NoneAtStart + SetAtStart
  {
  }

  /** Those are every channel of the state but the default dimensional
      divisors and the error case. */
  lemma StartFieldsAreChannels()
    ensures NoneAtStart + SetAtStart == StateKeys - {"default_dim_divisors", "error_case"}
  {
  }

  /** Taking the initial state in as input changes nothing. */
  lemma InitialStateTakenIn(trackingNumber: string, clientId: string, carrierId: string)
    ensures Merge(map[], InitialState(trackingNumber, clientId, carrierId)) == InitialState(trackingNumber, clientId, carrierId)
  {
    InitialStateKeys(trackingNumber, clientId, carrierId);
    StartFieldsAreChannels();
    MergeIntoEmpty(InitialState(trackingNumber, clientId, carrierId));
  }

  /** In the initial state the identifiers are the arguments, the count is
      zero, the messages empty and every other field `None`. */
  lemma InitialStateValues(trackingNumber: string, clientId: string, carrierId: string)
    ensures var s := InitialState(trackingNumber, clientId, carrierId);
      && s["tracking_number"] == Str(trackingNumber)
      && s["client_id"] == Str(clientId)
      && s["carrier_id"] == Str(carrierId)
      && CountOf(s) == Int(0)
      && s["messages"] == List([])
      && (forall k :: k in NoneAtStart ==> k in s && s[k] == Null)
  {
    assert NoneAtStart !! SetAtStart;
  }

  /** The initial state holds no summary, no bullets and no error. */
  lemma InitialOutputsNone(trackingNumber: string, clientId: string, carrierId: string)
    ensures var s := InitialState(trackingNumber, clientId, carrierId);
      && "audit_summary" in s && s["audit_summary"] == Null
      && "summary_bullets" in s && s["summary_bullets"] == Null
      && "error" in s && s["error"] == Null
  {
    InitialStateValues(trackingNumber, clientId, carrierId);
    assert "audit_summary" in NoneAtStart && "summary_bullets" in NoneAtStart && "error" in NoneAtStart;
  }

  /** `invoke`: the run from the entry point on the input, taken in through
      the state's channels; it returns the final state, or raises what a
      node or the router raised, or the recursion error when the step bound
      is hit. */
  function Invoke(g: Graph, input: Object): (r: Result<Object>)
    ensures var t := Run(Supersteps(g), FetchInitialNode, Merge(map[], input), 0);
      && (r.Ok? <==> t.outcome == Completed)
      && (r.Ok? ==> r.value == t.final)
      && (t.outcome.Failed? ==> r == Raised(t.outcome.kind))
      && (t.outcome == RecursionLimitHit ==> r == Raised("GraphRecursionError"))
  {
    var t := Run(Supersteps(g), FetchInitialNode, Merge(map[], input), 0);
    match t.outcome
    case Completed => Ok(t.final)
    case Failed(_, kind) => Raised(kind)
    case RecursionLimitHit => Raised("GraphRecursionError")
  }

  /** The name each node is registered under. */
  function NodeName(n: Node): string {
    match n
    case FetchInitialNode => "fetch_initial_data"
    case ClassifyNode => "classify_audit"
    case FetchReferenceNode => "fetch_reference_data"
    case ReasonNode => "reason_audit"
    case EnrichNode => "enrich_data"
    case SummarizeNode => "summarize_audit"
  }

  /** One item of an update stream: the node's name and the update it
      returned. */
  datatype Chunk = Chunk(node: string, update: Object)

  /** What a stream produces: its items, and what it raised at the end, if
      anything. */
  datatype Streamed = Streamed(chunks: seq<Chunk>, raised: Option<string>)

  /** The items of a sequence of steps. */
  function Chunks(steps: seq<Step>): (cs: seq<Chunk>)
    ensures |cs| == |steps|
    ensures forall j :: 0 <= j < |steps| ==> cs[j] == Chunk(NodeName(steps[j].node), steps[j].update)
  {
    if steps == [] then [] else [Chunk(NodeName(steps[0].node), steps[0].update)] + Chunks(steps[1..])
  }

  /** `stream` in update mode: one item per superstep, in order. A step
      whose router raised yields nothing, since the router runs with the
      node; the stream then raises as `invoke` does. */
  function Stream(g: Graph, input: Object): (r: Streamed) {
    var t := Run(Supersteps(g), FetchInitialNode, Merge(map[], input), 0);
    match t.outcome
    case Completed => Streamed(Chunks(t.steps), None)
    case Failed(n, kind) =>
      if t.steps != [] && t.steps[|t.steps| - 1].node == n
      then Streamed(Chunks(t.steps[..|t.steps| - 1]), Some(kind))
      else Streamed(Chunks(t.steps), Some(kind))
    case RecursionLimitHit => Streamed(Chunks(t.steps), Some("GraphRecursionError"))
  }

  /** The state a stream's updates build when merged, in order, onto a
      start state. */
  function Replay(state: Object, chunks: seq<Chunk>): Object
    decreases |chunks|
  {
    if chunks == [] then state else Replay(Merge(state, chunks[0].update), chunks[1..])
  }

  /** Replaying the items of chained steps reaches the last step's state. */
  lemma {:induction false} ReplayChain(state: Object, steps: seq<Step>)
    requires Chained(state, steps)
    ensures Replay(state, Chunks(steps)) == Last(state, steps)
    decreases |steps|
  {
    if steps != [] {
      var cs := Chunks(steps);
      assert cs == [Chunk(NodeName(steps[0].node), steps[0].update)] + Chunks(steps[1..]);
      assert Replay(state, cs) == Replay(steps[0].after, Chunks(steps[1..]));
      ReplayChain(steps[0].after, steps[1..]);
      assert Last(state, steps) == Last(steps[0].after, steps[1..]);
    }
  }

  /** Streaming and invoking agree: the stream raises exactly when `invoke`
      does, with the same error, and a stream that ends without raising
      names the nodes in the order they ran and its updates, merged in
      order onto the input, give the state `invoke` returns. */
  lemma StreamAgreesWithInvoke(g: Graph, input: Object)
    ensures Stream(g, input).raised.None? <==> Invoke(g, input).Ok?
    ensures Invoke(g, input).Raised? ==> Stream(g, input).raised == Some(Invoke(g, input).kind)
    ensures Invoke(g, input).Ok? ==>
      Replay(Merge(map[], input), Stream(g, input).chunks) == Invoke(g, input).value
    ensures var t := Run(Supersteps(g), FetchInitialNode, Merge(map[], input), 0);
      Invoke(g, input).Ok? ==>
        && |Stream(g, input).chunks| == |t.steps|
        && forall j :: 0 <= j < |t.steps| ==> Stream(g, input).chunks[j].node == NodeName(t.steps[j].node)
  {
    var state := Merge(map[], input);
    SuperstepsMergeAlongEdges(g);
    RunChains(Supersteps(g), FetchInitialNode, state, 0);
    var t := Run(Supersteps(g), FetchInitialNode, state, 0);
    if t.outcome == Completed {
      ReplayChain(state, t.steps);
    }
  }

  /** `run_audit`: the workflow, enriching with the given detail getters,
      invoked on the initial state. */
  function RunAudit(env: Env, getters: Enrichment.DetailGetters, trackingNumber: string, clientId: string, carrierId: string): Result<Object> {
    Invoke(AuditWorkflow(env, getters), InitialState(trackingNumber, clientId, carrierId))
  }

  /** `run_audit_stream`: the workflow streamed from the same initial
      state. */
  function RunAuditStream(env: Env, getters: Enrichment.DetailGetters, trackingNumber: string, clientId: string, carrierId: string): Streamed {
    Stream(AuditWorkflow(env, getters), InitialState(trackingNumber, clientId, carrierId))
  }

  /** The keys of the audit result. */
  const ResultKeys: set<string> := {
    "tracking_number", "audit_type", "audit_cause", "summary", "bullets", "confidence",
    "enrichment_iterations", "error"}

  /** `get_audit_result`: eight fields of the final state, three of them
      renamed; bullets default to an empty list and the count to zero, and
      every other field to `None`. */
  function GetAuditResult(final: Object): (r: Object)
    ensures r.Keys == ResultKeys
  {
    map[
      "tracking_number" := GetOr(final, "tracking_number", Null),
      "audit_type" := GetOr(final, "audit_type", Null),
      "audit_cause" := GetOr(final, "audit_cause", Null),
      "summary" := GetOr(final, "audit_summary", Null),
      "bullets" := GetOr(final, "summary_bullets", List([])),
      "confidence" := GetOr(final, "classification_confidence", Null),
      "enrichment_iterations" := GetOr(final, "enrichment_iterations", Int(0)),
      "error" := GetOr(final, "error", Null)]
  }

  /** The field of the final state each result key is read from. */
  function SourceKey(k: string): string
    requires k in ResultKeys
  {
    if k == "summary" then "audit_summary"
    else if k == "bullets" then "summary_bullets"
    else if k == "confidence" then "classification_confidence"
    else k
  }

  /** Each result key holds its source field whenever the final state has
      it, even when it holds `None`; only an absent field takes a default,
      which is an empty list for bullets, zero for the count and `None`
      otherwise. */
  lemma ResultReadsSources(final: Object)
    ensures var r := GetAuditResult(final);
      && r["tracking_number"] == (if "tracking_number" in final then final["tracking_number"] else Null)
      && r["audit_type"] == (if "audit_type" in final then final["audit_type"] else Null)
      && r["audit_cause"] == (if "audit_cause" in final then final["audit_cause"] else Null)
      && r["summary"] == (if "audit_summary" in final then final["audit_summary"] else Null)
      && r["bullets"] == (if "summary_bullets" in final then final["summary_bullets"] else List([]))
      && r["confidence"] == (if "classification_confidence" in final then final["classification_confidence"] else Null)
      && r["enrichment_iterations"] == (if "enrichment_iterations" in final then final["enrichment_iterations"] else Int(0))
      && r["error"] == (if "error" in final then final["error"] else Null)
  {
  }

  /** The result depends on nothing but the eight source fields. */
  lemma ResultOnlyReadsSources(a: Object, b: Object)
    requires forall k :: k in ResultKeys ==> Agree(a, b, SourceKey(k))
    ensures GetAuditResult(a) == GetAuditResult(b)
  {
    assert Agree(a, b, SourceKey("summary"));
    assert Agree(a, b, SourceKey("bullets"));
    assert Agree(a, b, SourceKey("confidence"));
    assert Agree(a, b, SourceKey("tracking_number"));
    assert Agree(a, b, SourceKey("audit_type"));
    assert Agree(a, b, SourceKey("audit_cause"));
    assert Agree(a, b, SourceKey("enrichment_iterations"));
    assert Agree(a, b, SourceKey("error"));
  }

  /** `run_audit_analysis`: run the audit, then project the result. */
  function RunAuditAnalysis(env: Env, getters: Enrichment.DetailGetters, trackingNumber: string, clientId: string, carrierId: string): (r: Result<Object>)
    ensures r.Ok? <==> RunAudit(env, getters, trackingNumber, clientId, carrierId).Ok?
    ensures r.Ok? ==> r.value == GetAuditResult(RunAudit(env, getters, trackingNumber, clientId, carrierId).value)
  {
    var final :- RunAudit(env, getters, trackingNumber, clientId, carrierId);
    Ok(GetAuditResult(final))
  }

  /** A well-behaved graph invoked on the initial state never writes the
      error: the result reports `None` for it, however the run went. */
  lemma ResultErrorNone(g: Graph, trackingNumber: string, clientId: string, carrierId: string)
    requires WellBehaved(g)
    requires Invoke(g, InitialState(trackingNumber, clientId, carrierId)).Ok?
    ensures GetAuditResult(Invoke(g, InitialState(trackingNumber, clientId, carrierId)).value)["error"] == Null
  {
    var s := InitialState(trackingNumber, clientId, carrierId);
    InitialStateTakenIn(trackingNumber, clientId, carrierId);
    InitialOutputsNone(trackingNumber, clientId, carrierId);
    SuperstepsMergeAlongEdges(g);
    SuperstepsWriteWithin(g);
    var t := Run(Supersteps(g), FetchInitialNode, s, 0);
    assert Invoke(g, s).value == t.final;
    NoErrorWritten(Supersteps(g), FetchInitialNode, s, 0);
    ResultReadsSources(t.final);
  }

  /** A well-behaved graph whose first reasoning on the initial state
      answers anything but sufficient ends, when it ends normally, with no
      summary and no bullets (both `None`, not the default) and every round
      of enrichment used. */
  lemma InsufficientResult(g: Graph, trackingNumber: string, clientId: string, carrierId: string)
    requires WellBehaved(g) && InsufficientStable(g)
    requires var t := Run(Supersteps(g), FetchInitialNode, InitialState(trackingNumber, clientId, carrierId), 0);
      |t.steps| > 3 && StatusOf(t.steps[3].after) != Str("sufficient")
    requires Invoke(g, InitialState(trackingNumber, clientId, carrierId)).Ok?
    ensures var r := GetAuditResult(Invoke(g, InitialState(trackingNumber, clientId, carrierId)).value);
      r["summary"] == Null && r["bullets"] == Null && r["enrichment_iterations"] == Int(MaxEnrichmentIterations)
  {
    var s := InitialState(trackingNumber, clientId, carrierId);
    InitialStateTakenIn(trackingNumber, clientId, carrierId);
    InitialOutputsNone(trackingNumber, clientId, carrierId);
    InitialStateValues(trackingNumber, clientId, carrierId);
    var step := Supersteps(g);
    StepsOfWellBehaved(g);
    var t := Run(step, FetchInitialNode, s, 0);
    assert Invoke(g, s).value == t.final;
    InsufficientRun(step, s);
    SummaryOnlyBySummarizing(step, FetchInitialNode, s, 0);
    ResultReadsSources(t.final);
  }

  /** The audit result of the workflow always reports `None` for the
      error. */
  lemma AuditResultErrorNone(env: Env, getters: Enrichment.DetailGetters, trackingNumber: string, clientId: string, carrierId: string)
    requires RunAuditAnalysis(env, getters, trackingNumber, clientId, carrierId).Ok?
    ensures RunAuditAnalysis(env, getters, trackingNumber, clientId, carrierId).value["error"] == Null
  {
    WorkflowWellBehaved(env, getters);
    ResultErrorNone(AuditWorkflow(env, getters), trackingNumber, clientId, carrierId);
  }

  /** `run_audit_stream` and `run_audit` start from the same state and
      agree: the stream raises exactly when the audit does, and otherwise
      its updates, merged in order onto the initial state, give the state
      the audit returns. */
  lemma AuditStreamAgrees(env: Env, getters: Enrichment.DetailGetters, trackingNumber: string, clientId: string, carrierId: string)
    ensures var a, st := RunAudit(env, getters, trackingNumber, clientId, carrierId), RunAuditStream(env, getters, trackingNumber, clientId, carrierId);
      && (st.raised.None? <==> a.Ok?)
      && (a.Raised? ==> st.raised == Some(a.kind))
      && (a.Ok? ==> Replay(InitialState(trackingNumber, clientId, carrierId), st.chunks) == a.value)
  {
    InitialStateTakenIn(trackingNumber, clientId, carrierId);
    StreamAgreesWithInvoke(AuditWorkflow(env, getters), InitialState(trackingNumber, clientId, carrierId));
  }

  /** An audit whose first reasoning answers anything but sufficient
      reports, when it ends normally, no summary, no bullets (both `None`)
      and every round of enrichment used. As written it never ends normally
      (`AuditAsWrittenRaises`); corrected, it can. */
  lemma AuditInsufficientResult(env: Env, getters: Enrichment.DetailGetters, trackingNumber: string, clientId: string, carrierId: string)
    requires var t := AuditRunOf(env, getters, InitialState(trackingNumber, clientId, carrierId));
      |t.steps| > 3 && StatusOf(t.steps[3].after) != Str("sufficient")
    requires RunAuditAnalysis(env, getters, trackingNumber, clientId, carrierId).Ok?
    ensures var r := RunAuditAnalysis(env, getters, trackingNumber, clientId, carrierId).value;
      r["summary"] == Null && r["bullets"] == Null && r["enrichment_iterations"] == Int(MaxEnrichmentIterations)
  {
    WorkflowWellBehaved(env, getters);
    InsufficientResult(AuditWorkflow(env, getters), trackingNumber, clientId, carrierId);
  }

  /** As written, an audit whose first reasoning answers anything but
      sufficient raises `AttributeError`, whether run to the end, streamed
      or analysed. */
  lemma AuditAsWrittenRaises(env: Env, trackingNumber: string, clientId: string, carrierId: string)
    requires var t := AuditRunOf(env, Enrichment.NoDetailGetters, InitialState(trackingNumber, clientId, carrierId));
      |t.steps| > 3 && StatusOf(t.steps[3].after) != Str("sufficient")
    ensures RunAudit(env, Enrichment.NoDetailGetters, trackingNumber, clientId, carrierId) == Raised("AttributeError")
    ensures RunAuditStream(env, Enrichment.NoDetailGetters, trackingNumber, clientId, carrierId).raised == Some("AttributeError")
    ensures RunAuditAnalysis(env, Enrichment.NoDetailGetters, trackingNumber, clientId, carrierId) == Raised("AttributeError")
  {
    InitialStateTakenIn(trackingNumber, clientId, carrierId);
    WorkflowAsWrittenFails(env, InitialState(trackingNumber, clientId, carrierId));
    AuditStreamAgrees(env, Enrichment.NoDetailGetters, trackingNumber, clientId, carrierId);
  }
}
