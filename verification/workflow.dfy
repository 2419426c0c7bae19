/** The two fetch nodes the workflow defines itself, the graph the workflow
    builds from all six node functions, and what a run of that graph
    guarantees. */
module Workflow {
  import opened Values
  import opened Oracles
  import opened Fetcher
  import opened AuditGraph
  import opened AuditRun
  import Classifier
  import Reasoning
  import Enrichment
  import Summary


  /** The fetcher every node builds: mock mode as configured. */
  function FetcherOf(env: Env): DataFetcher {
    DataFetcher(env.client, env.render, env.useMockData)
  }

  /** The rated data with its additional services attached: fetched by the
      rated-data id when that is truthy, `[]` otherwise. Logging the number
      of services fetched raises when the reply has no length. */
  function WithServices(f: DataFetcher, rated: Value): (r: Result<Value>)
    ensures !(Truthy(rated) && rated.Dict?) ==> r == Ok(rated)
    ensures Truthy(rated) && rated.Dict? && !Truthy(Get(rated.entries, "id")) ==>
      r == Ok(Dict(rated.entries["additional_services" := List([])]))
    ensures Truthy(rated) && rated.Dict? && Truthy(Get(rated.entries, "id")) ==>
      var services := GetAdditionalServices(f, Str(PyStr(f.render, Get(rated.entries, "id"))));
      && (HasLen(services) ==> r == Ok(Dict(rated.entries["additional_services" := services])))
      && (!HasLen(services) ==> r == Raised("TypeError"))
  {
    if Truthy(rated) && rated.Dict? then
      var id := Get(rated.entries, "id");
      if Truthy(id) then
        var services := GetAdditionalServices(f, Str(PyStr(f.render, id)));
        if !HasLen(services) then Raised("TypeError")
        else Ok(Dict(rated.entries["additional_services" := services]))
      else Ok(Dict(rated.entries["additional_services" := List([])]))
    else Ok(rated)
  }

  /** The ship date the divisors are looked up by: the parcel's, else the
      rated data's, else none. */
  function ShipDate(rated: Value, parcel: Value): (d: Value)
    ensures !(Truthy(parcel) && parcel.Dict?) ==> d == Str("")
    ensures Truthy(parcel) && parcel.Dict? && Truthy(GetOr(parcel.entries, "shipDate", Str(""))) ==>
      d == GetOr(parcel.entries, "shipDate", Str(""))
    ensures Truthy(d) ==>
      d == GetOr(parcel.entries, "shipDate", Str(""))
      || (rated.Dict? && d == GetOr(rated.entries, "shipDate", Str("")))
  {
    if Truthy(parcel) && parcel.Dict? then
      var d := GetOr(parcel.entries, "shipDate", Str(""));
      if !Truthy(d) && Truthy(rated) && rated.Dict? then GetOr(rated.entries, "shipDate", Str("")) else d
    else Str("")
  }

  /** The default divisors: fetched only for a truthy ship date; logging
      their count raises when the reply has no length. */
  function DimDivisors(f: DataFetcher, shipDate: Value): (r: Result<Value>)
    ensures !Truthy(shipDate) ==> r == Ok(List([]))
    ensures Truthy(shipDate) && HasLen(GetDefaultDimDivisors(f, shipDate)) ==>
      r == Ok(GetDefaultDimDivisors(f, shipDate))
    ensures Truthy(shipDate) && !HasLen(GetDefaultDimDivisors(f, shipDate)) ==> r == Raised("TypeError")
  {
    if !Truthy(shipDate) then Ok(List([]))
    else
      var divisors := GetDefaultDimDivisors(f, shipDate);
      if !HasLen(divisors) then Raised("TypeError") else Ok(divisors)
  }

  /** `fetch_initial_data`: rated data with its services, parcel
      characteristics, agreements and default divisors, and the count reset
      to zero. */
  function FetchInitialData(env: Env, state: Object): (r: Result<Object>)
    ensures r.Ok? ==> r.value.Keys == InitialDataKeys && r.value["enrichment_iterations"] == Int(0)
  {
    var trackingNumber := GetOr(state, "tracking_number", Str(""));
    var f := FetcherOf(env);
    var rated :- WithServices(f, GetRatedData(f, trackingNumber));
    var parcel := GetParcelCharacteristics(f, trackingNumber);
    var agreements := GetAgreements(f, GetOr(state, "client_id", Str("")), GetOr(state, "carrier_id", Str("")));
    var divisors :- DimDivisors(f, ShipDate(rated, parcel));
    Ok(map[
      "rated_data" := rated,
      "parcel_characteristics" := parcel,
      "agreements" := agreements,
      "default_dim_divisors" := divisors,
      "enrichment_iterations" := Int(0)])
  }

  /** The initial fetch asks for divisors only with a ship date, and attaches
      additional services only to non-empty rated data. */
  lemma InitialDataFetches(env: Env, state: Object)
    requires FetchInitialData(env, state).Ok?
    ensures var u, f := FetchInitialData(env, state).value, FetcherOf(env);
      var rated0 := GetRatedData(f, GetOr(state, "tracking_number", Str("")));
      var ship := ShipDate(u["rated_data"], u["parcel_characteristics"]);
      && (!Truthy(ship) ==> u["default_dim_divisors"] == List([]))
      && (Truthy(ship) ==> u["default_dim_divisors"] == GetDefaultDimDivisors(f, ship))
      && (Truthy(rated0) ==> u["rated_data"].Dict? && "additional_services" in u["rated_data"].entries)
      && (Truthy(rated0) && !Truthy(Get(rated0.entries, "id")) ==>
            u["rated_data"].entries["additional_services"] == List([]))
      && (!Truthy(rated0) ==> u["rated_data"] == rated0)
  {
    var u, f := FetchInitialData(env, state).value, FetcherOf(env);
    var rated0 := GetRatedData(f, GetOr(state, "tracking_number", Str("")));
    var rated := WithServices(f, rated0).value;
    var parcel := GetParcelCharacteristics(f, GetOr(state, "tracking_number", Str("")));
    assert u["rated_data"] == rated && u["parcel_characteristics"] == parcel;
    assert u["default_dim_divisors"] == DimDivisors(f, ShipDate(rated, parcel)).value;
  }

  /** `fetch_reference_data`: the full tracking analysis of the tracking
      number, the only key it writes; it never raises. */
  function FetchReferenceData(env: Env, state: Object): (u: Object)
    ensures u.Keys == {"reference_data"}
    ensures u["reference_data"] == GetFullTrackingAnalysis(FetcherOf(env), GetOr(state, "tracking_number", Str("")))
  {
    map["reference_data" := GetFullTrackingAnalysis(FetcherOf(env), GetOr(state, "tracking_number", Str("")))]
  }

  /** The node functions `create_audit_workflow` registers. */
  function FetchInitialAction(env: Env): Object -> Result<Object> {
    s => FetchInitialData(env, s)
  }

  function ClassifyAction(env: Env): Object -> Result<Object> {
    s => Classifier.Classify(env, s)
  }

  function FetchReferenceAction(env: Env): Object -> Result<Object> {
    s => Ok(FetchReferenceData(env, s))
  }

  function ReasonAction(env: Env): Object -> Result<Object> {
    s => Reasoning.ReasonNode(env, s)
  }

  function EnrichAction(env: Env, getters: Enrichment.DetailGetters): Object -> Result<Object> {
    s => Enrichment.EnrichNode(env, getters, s)
  }

  function SummarizeAction(env: Env): Object -> Result<Object> {
    s => Summary.SummarizeNode(env, s)
  }

  /** The graph `create_audit_workflow` builds: the six node functions,
      enrichment calling the given detail getters. With `NoDetailGetters`
      this is the program as written; with `Enrichment.Supplied(env)` it is
      the program as evidently intended. */
  function AuditWorkflow(env: Env, getters: Enrichment.DetailGetters): Graph {
    Graph(FetchInitialAction(env), ClassifyAction(env), FetchReferenceAction(env),
      ReasonAction(env), EnrichAction(env, getters), SummarizeAction(env))
  }

  /** A run of the workflow on a state, from its entry point. */
  function AuditRunOf(env: Env, getters: Enrichment.DetailGetters, state: Object): Trace {
    Run(Supersteps(AuditWorkflow(env, getters)), FetchInitialNode, state, 0)
  }

  /** The keys reasoning writes are its node's keys. */
  lemma ReasoningKeysAreNodeKeys()
    ensures Reasoning.ReasoningKeys == NodeKeys(ReasonNode)
  {
  }

  /** The initial fetch writes its own keys and resets the count. */
  lemma FetchInitialWrites(env: Env)
    ensures WritesWithinKeys(FetchInitialAction(env), NodeKeys(FetchInitialNode))
    ensures StartsCount(FetchInitialAction(env))
  {
  }

  /** Classifying writes the four classification keys. */
  lemma ClassifyWrites(env: Env)
    ensures WritesWithinKeys(ClassifyAction(env), NodeKeys(ClassifyNode))
  {
  }

  /** Fetching the reference data writes only the reference data. */
  lemma FetchReferenceWrites(env: Env)
    ensures WritesWithinKeys(FetchReferenceAction(env), NodeKeys(FetchReferenceNode))
  {
  }

  /** Reasoning writes all of its keys and names missing fields on any
      status but sufficient; an answer other than sufficient depends only
      on the audit data. */
  lemma ReasonWrites(env: Env)
    ensures WritesWithinKeys(ReasonAction(env), NodeKeys(ReasonNode))
    ensures NamesMissing(ReasonAction(env))
    ensures InsufficientOnData(ReasonAction(env))
  {
    ReasoningKeysAreNodeKeys();
    forall s | ReasonAction(env)(s).Ok?
      ensures ReasonAction(env)(s).value.Keys == NodeKeys(ReasonNode)
      ensures ReasonAction(env)(s).value["reasoning_status"] != Str("sufficient") ==>
        Truthy(ReasonAction(env)(s).value["missing_fields"])
    {
      Reasoning.ReasonStatus(env, Reasoning.AuditTypeOf(s), Reasoning.RatedOf(s), Reasoning.ParcelOf(s), s);
    }
    forall s, t | ReasonAction(env)(s).Ok? && SameAuditData(s, t)
      && "reasoning_status" in ReasonAction(env)(s).value
      && ReasonAction(env)(s).value["reasoning_status"] != Str("sufficient")
      ensures ReasonAction(env)(t) == ReasonAction(env)(s)
    {
      Reasoning.ReasonStatus(env, Reasoning.AuditTypeOf(s), Reasoning.RatedOf(s), Reasoning.ParcelOf(s), s);
      Reasoning.InsufficientDependsOnDataOnly(env, s, t);
    }
  }

  /** Enriching writes its own keys, and with fields missing adds one to
      the count. */
  lemma EnrichWrites(env: Env, getters: Enrichment.DetailGetters)
    ensures WritesWithinKeys(EnrichAction(env, getters), NodeKeys(EnrichNode))
    ensures CountsRounds(EnrichAction(env, getters))
  {
    forall s | EnrichAction(env, getters)(s).Ok?
      ensures EnrichAction(env, getters)(s).value.Keys <= NodeKeys(EnrichNode)
    {
      if Truthy(Enrichment.MissingValue(s)) {
        Enrichment.EnrichRound(env, getters, s);
      }
    }
    forall s | EnrichAction(env, getters)(s).Ok? && Truthy(MissingOf(s))
      ensures "enrichment_iterations" in EnrichAction(env, getters)(s).value
      ensures Ok(EnrichAction(env, getters)(s).value["enrichment_iterations"]) == Increment(CountOf(s))
    {
      assert Enrichment.MissingValue(s) == MissingOf(s);
      Enrichment.EnrichRound(env, getters, s);
    }
  }

  /** Summarizing writes the summary and its bullets. */
  lemma SummarizeWrites(env: Env)
    ensures WritesWithinKeys(SummarizeAction(env), NodeKeys(SummarizeNode))
  {
    forall s | SummarizeAction(env)(s).Ok?
      ensures SummarizeAction(env)(s).value.Keys <= NodeKeys(SummarizeNode)
    {
      SummarizeKeys(Summary.SummarizeNode(env, s).value);
    }
  }

  /** The nodes of the workflow behave as a run relies on, and its
      insufficient answers depend only on the audit data. */
  lemma WorkflowWellBehaved(env: Env, getters: Enrichment.DetailGetters)
    ensures WellBehaved(AuditWorkflow(env, getters)) && InsufficientStable(AuditWorkflow(env, getters))
  {
    FetchInitialWrites(env);
    ClassifyWrites(env);
    FetchReferenceWrites(env);
    ReasonWrites(env);
    EnrichWrites(env, getters);
    SummarizeWrites(env);
  }

  /** The supersteps of a well-behaved graph have every property the run
      lemmas rely on. */
  lemma StepsOfWellBehaved(g: Graph)
    requires WellBehaved(g) && InsufficientStable(g)
    ensures MergesUpdates(Supersteps(g)) && KeepsToEdges(Supersteps(g)) && WritesWithin(Supersteps(g))
    ensures PrefixSteps(Supersteps(g)) && LoopSteps(Supersteps(g))
    ensures LoopKeepsData(Supersteps(g)) && InsufficientStep(Supersteps(g))
  {
    SuperstepsMergeAlongEdges(g);
    SuperstepsWriteWithin(g);
    SuperstepsPrefix(g);
    SuperstepsLoop(g);
    SuperstepsKeepData(g);
    SuperstepsInsufficient(g);
  }

  /** Every run of the workflow, as written or corrected, ends before the
      runtime's step bound, in at most eleven steps, reasoning at most
      `MAX_ENRICHMENT_ITERATIONS + 1` times and enriching at most
      `MAX_ENRICHMENT_ITERATIONS` times. */
  lemma WorkflowTerminates(env: Env, getters: Enrichment.DetailGetters, state: Object)
    ensures AuditRunOf(env, getters, state).outcome != RecursionLimitHit
    ensures |AuditRunOf(env, getters, state).steps| <= 11
    ensures Count(AuditRunOf(env, getters, state).steps, ReasonNode) <= MaxEnrichmentIterations + 1
    ensures Count(AuditRunOf(env, getters, state).steps, EnrichNode) <= MaxEnrichmentIterations
  {
    WorkflowWellBehaved(env, getters);
    StepsOfWellBehaved(AuditWorkflow(env, getters));
    RunTerminates(Supersteps(AuditWorkflow(env, getters)), state);
  }

  /** A run of the workflow summarizes only right after a step that left
      the status sufficient, and enriches only right after one that left
      another status. */
  lemma WorkflowSummarizesOnlyWhenSufficient(env: Env, getters: Enrichment.DetailGetters, state: Object)
    ensures var steps := AuditRunOf(env, getters, state).steps;
      forall j :: 0 <= j < |steps| && steps[j].node == SummarizeNode ==>
        0 < j && StatusOf(steps[j - 1].after) == Str("sufficient")
    ensures var steps := AuditRunOf(env, getters, state).steps;
      forall j :: 0 <= j < |steps| && steps[j].node == EnrichNode ==>
        0 < j && StatusOf(steps[j - 1].after) != Str("sufficient")
  {
    var step := Supersteps(AuditWorkflow(env, getters));
    SuperstepsMergeAlongEdges(AuditWorkflow(env, getters));
    SummarizesOnlyWhenSufficient(step, state, 0);
    assert AuditRunOf(env, getters, state) == Run(step, FetchInitialNode, state, 0);
  }

  /** No node of the workflow writes `error`: a run leaves it as it found
      it, however it ends. */
  lemma WorkflowWritesNoError(env: Env, getters: Enrichment.DetailGetters, state: Object)
    ensures "error" in AuditRunOf(env, getters, state).final <==> "error" in state
    ensures "error" in state ==> AuditRunOf(env, getters, state).final["error"] == state["error"]
  {
    WorkflowWellBehaved(env, getters);
    StepsOfWellBehaved(AuditWorkflow(env, getters));
    NoErrorWritten(Supersteps(AuditWorkflow(env, getters)), FetchInitialNode, state, 0);
  }

  /** A run whose first reasoning answers anything but sufficient never
      summarizes and leaves the summary as it found it; when it completes it
      has used every round of enrichment and still holds a status other than
      sufficient. As written such a run never completes
      (`WorkflowAsWrittenFails`); corrected, it can. */
  lemma WorkflowInsufficientLoop(env: Env, getters: Enrichment.DetailGetters, state: Object)
    requires |AuditRunOf(env, getters, state).steps| > 3
    requires StatusOf(AuditRunOf(env, getters, state).steps[3].after) != Str("sufficient")
    ensures Count(AuditRunOf(env, getters, state).steps, SummarizeNode) == 0
    ensures "audit_summary" in AuditRunOf(env, getters, state).final <==> "audit_summary" in state
    ensures AuditRunOf(env, getters, state).outcome == Completed ==>
      && CountOf(AuditRunOf(env, getters, state).final) == Int(MaxEnrichmentIterations)
      && StatusOf(AuditRunOf(env, getters, state).final) != Str("sufficient")
  {
    WorkflowWellBehaved(env, getters);
    StepsOfWellBehaved(AuditWorkflow(env, getters));
    InsufficientRun(Supersteps(AuditWorkflow(env, getters)), state);
    SummaryOnlyBySummarizing(Supersteps(AuditWorkflow(env, getters)), FetchInitialNode, state, 0);
  }

  /** Merging an update of reasoning that names fields missing keeps the
      audit data and the count and hands the names on to enrichment. */
  lemma MergeNamingMissing(s: Object, u: Object, xs: seq<string>)
    requires u.Keys == Reasoning.ReasoningKeys && u["missing_fields"] == StrList(xs)
    requires Reasoning.RatedOf(s).Dict? && Reasoning.ParcelOf(s).Dict?
    ensures Enrichment.AfterReasoning(Merge(s, u), xs)
    ensures Enrichment.IterationsValue(Merge(s, u)) == CountOf(s)
  {
    ReasoningKeysAreNodeKeys();
    ReasoningSet(s, u);
    AuditDataKept(s, u);
    CountKept(s, u);
    assert Reasoning.RatedOf(Merge(s, u)) == Reasoning.RatedOf(s);
    assert Reasoning.ParcelOf(Merge(s, u)) == Reasoning.ParcelOf(s);
  }

  /** After an answer of reasoning other than sufficient, the state
      enrichment receives names the missing required fields of its audit
      type, with the count reasoning found. */
  lemma StateAfterInsufficientAnswer(env: Env, s: Object) returns (xs: seq<string>)
    requires Reasoning.Reason(env, s).Ok?
    requires StatusOf(Merge(s, Reasoning.Reason(env, s).value)) != Str("sufficient")
    ensures Enrichment.AfterReasoning(Merge(s, Reasoning.Reason(env, s).value), xs) && xs != []
    ensures forall f :: f in xs ==> f in Reasoning.Required(Reasoning.AuditTypeOf(s))
    ensures Enrichment.IterationsValue(Merge(s, Reasoning.Reason(env, s).value)) == CountOf(s)
  {
    var u := Reasoning.Reason(env, s).value;
    ReasoningKeysAreNodeKeys();
    ReasoningSet(s, u);
    Reasoning.InsufficientNamesRequired(env, s);
    xs := Reasoning.CheckRequiredFields(Reasoning.AuditTypeOf(s), Reasoning.RatedOf(s), Reasoning.ParcelOf(s)).value;
    MergeNamingMissing(s, u, xs);
  }

  /** As written, enrichment raises `AttributeError` right after any answer
      of reasoning other than sufficient: the answer names required fields,
      none of which the field table knows, so the invoice details are
      asked of a fetcher that has no getter for them. */
  lemma EnrichAsWrittenRaises(env: Env)
    ensures RaisesAfterInsufficient(ReasonAction(env), EnrichAction(env, Enrichment.NoDetailGetters), "AttributeError")
  {
    forall s | ReasonAction(env)(s).Ok? && CountOf(s) == Int(0)
      && StatusOf(Merge(s, ReasonAction(env)(s).value)) != Str("sufficient")
      ensures EnrichAction(env, Enrichment.NoDetailGetters)(Merge(s, ReasonAction(env)(s).value)) == Raised("AttributeError")
    {
      var after := Merge(s, Reasoning.Reason(env, s).value);
      var xs := StateAfterInsufficientAnswer(env, s);
      Enrichment.AsWrittenFailsAfterReasoning(env, after, xs, Reasoning.AuditTypeOf(s));
    }
  }

  /** As written, a run whose first reasoning answers anything but
      sufficient stops at its first enrichment: four steps, then
      `AttributeError`. */
  lemma WorkflowAsWrittenFails(env: Env, state: Object)
    requires |AuditRunOf(env, Enrichment.NoDetailGetters, state).steps| > 3
    requires StatusOf(AuditRunOf(env, Enrichment.NoDetailGetters, state).steps[3].after) != Str("sufficient")
    ensures |AuditRunOf(env, Enrichment.NoDetailGetters, state).steps| == 4
    ensures AuditRunOf(env, Enrichment.NoDetailGetters, state).outcome == Failed(EnrichNode, "AttributeError")
  {
    var g := AuditWorkflow(env, Enrichment.NoDetailGetters);
    WorkflowWellBehaved(env, Enrichment.NoDetailGetters);
    StepsOfWellBehaved(g);
    EnrichAsWrittenRaises(env);
    SuperstepsRaiseAfterInsufficient(g, "AttributeError");
    FailsAtFirstEnrich(Supersteps(g), state, "AttributeError");
  }
}
