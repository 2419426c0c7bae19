/** The graph runtime of the audit: the shared state and how node updates
    merge into it, the router after reasoning, the fixed edges, and a run of
    the graph as a sequence of node steps, with what a run guarantees given
    what each node guarantees. */
module AuditGraph {
  import opened Values

  /** `MAX_ENRICHMENT_ITERATIONS`. */
  const MaxEnrichmentIterations: int := 3

  /** The graph runtime's default bound on the number of steps of a run. */
  const RecursionLimit: nat := 25

  /** The keys of the shared state. */
  const StateKeys: set<string> := {
    "tracking_number", "client_id", "carrier_id",
    "rated_data", "parcel_characteristics", "agreements", "reference_data", "default_dim_divisors",
    "audit_type", "audit_category", "classification_confidence",
    "reasoning_status", "reasoning_result", "missing_fields", "audit_cause", "error_case",
    "enrichment_iterations", "enriched_data",
    "audit_summary", "summary_bullets",
    "error", "messages"}

  /** A node's update applied to the state: each state key the update names
      takes its new value; keys outside the state are dropped. */
  function Merge(state: Object, update: Object): Object {
    state + map k | k in update && k in StateKeys :: update[k]
  }

  /** After a merge a key is present when the state had it or the update
      names it as a state key; such an update wins, every other key keeps
      its old value. */
  lemma MergeAt(state: Object, update: Object, k: string)
    ensures k in Merge(state, update) <==> k in state || (k in update && k in StateKeys)
    ensures k in update && k in StateKeys ==> Merge(state, update)[k] == update[k]
    ensures k in state && (k !in update || k !in StateKeys) ==> Merge(state, update)[k] == state[k]
  {
  }

  /** Applying the same update twice is applying it once. */
  lemma MergeIdempotent(state: Object, update: Object)
    ensures Merge(Merge(state, update), update) == Merge(state, update)
  {
  }
  /** The keys `fetch_initial_data` writes. */
  const InitialDataKeys: set<string> := {
    "rated_data", "parcel_characteristics", "agreements", "default_dim_divisors", "enrichment_iterations"}

  /** Where the router sends a run after reasoning. */
  datatype Route = ToSummarize | ToEnrich | ToEnd

  /** The status the router reads: `"insufficient"` when absent. */
  function StatusOf(state: Object): Value {
    GetOr(state, "reasoning_status", Str("insufficient"))
  }

  /** The count the router reads: `0` when absent. */
  function CountOf(state: Object): Value {
    GetOr(state, "enrichment_iterations", Int(0))
  }

  /** `should_continue_reasoning`: summarize on a sufficient status, else
      end once the count has reached the maximum, else enrich. Comparing a
      count that is not a number raises. */
  function ShouldContinueReasoning(state: Object): (r: Result<Route>)
    ensures StatusOf(state) == Str("sufficient") ==> r == Ok(ToSummarize)
    ensures StatusOf(state) != Str("sufficient") ==>
      (r.Raised? <==> !(CountOf(state).Int? || CountOf(state).Bool? || CountOf(state).Float?))
    ensures StatusOf(state) != Str("sufficient") && CountOf(state).Int? ==>
      r == Ok(if CountOf(state).i >= MaxEnrichmentIterations then ToEnd else ToEnrich)
  {
    if StatusOf(state) == Str("sufficient") then Ok(ToSummarize)
    else
      var exhausted :- AtLeast(CountOf(state), MaxEnrichmentIterations);
      if exhausted then Ok(ToEnd) else Ok(ToEnrich)
  }

  /** A state with neither a status nor a count goes to enrichment, and the
      route never depends on the count once the status is sufficient. */
  lemma RouterDefaults(state: Object, n: Value)
    ensures "reasoning_status" !in state && "enrichment_iterations" !in state ==>
      ShouldContinueReasoning(state) == Ok(ToEnrich)
    ensures StatusOf(state) == Str("sufficient") ==>
      ShouldContinueReasoning(state) == ShouldContinueReasoning(state["enrichment_iterations" := n])
  {
    assert Str("sufficient") != Str("insufficient") by {
      assert |"sufficient"| != |"insufficient"|;
    }
  }

  /** The nodes of the graph. */
  datatype Node = FetchInitialNode | ClassifyNode | FetchReferenceNode | ReasonNode | EnrichNode | SummarizeNode

  /** What follows a node: another node, or the end of the run. */
  datatype Target = Goto(node: Node) | Finish

  /** The edges: fixed after every node but reasoning, where the router
      decides. */
  function Successor(n: Node, state: Object): (r: Result<Target>)
    ensures n != ReasonNode ==> r.Ok?
    ensures n == ReasonNode ==> (r.Ok? <==> ShouldContinueReasoning(state).Ok?)
  {
    match n
    case FetchInitialNode => Ok(Goto(ClassifyNode))
    case ClassifyNode => Ok(Goto(FetchReferenceNode))
    case FetchReferenceNode => Ok(Goto(ReasonNode))
    case EnrichNode => Ok(Goto(ReasonNode))
    case SummarizeNode => Ok(Finish)
    case ReasonNode =>
      var route :- ShouldContinueReasoning(state);
      match route
      case ToSummarize => Ok(Goto(SummarizeNode))
      case ToEnrich => Ok(Goto(EnrichNode))
      case ToEnd => Ok(Finish)
  }

  /** The static edge relation of the graph. */
  predicate Edge(a: Node, b: Node) {
    match a
    case FetchInitialNode => b == ClassifyNode
    case ClassifyNode => b == FetchReferenceNode
    case FetchReferenceNode => b == ReasonNode
    case ReasonNode => b == SummarizeNode || b == EnrichNode
    case EnrichNode => b == ReasonNode
    case SummarizeNode => false
  }

  /** The router and the fixed edges agree with the edge relation, and the
      router reaches summarizing only on a sufficient status and enriching
      only on another one. */
  lemma SuccessorFollowsEdges(n: Node, state: Object)
    requires Successor(n, state).Ok? && Successor(n, state).value.Goto?
    ensures Edge(n, Successor(n, state).value.node)
    ensures Successor(n, state).value.node == SummarizeNode ==> StatusOf(state) == Str("sufficient")
    ensures Successor(n, state).value.node == EnrichNode ==> StatusOf(state) != Str("sufficient")
  {
  }

  /** The node functions of a graph with this shape. */
  datatype Graph = Graph(
    fetchInitial: Object -> Result<Object>,
    classify: Object -> Result<Object>,
    fetchReference: Object -> Result<Object>,
    reason: Object -> Result<Object>,
    enrich: Object -> Result<Object>,
    summarize: Object -> Result<Object>)

  /** The update node `n` of `g` returns on the state, or what it raises. */
  function NodeUpdate(g: Graph, n: Node, state: Object): Result<Object> {
    match n
    case FetchInitialNode => g.fetchInitial(state)
    case ClassifyNode => g.classify(state)
    case FetchReferenceNode => g.fetchReference(state)
    case ReasonNode => g.reason(state)
    case EnrichNode => g.enrich(state)
    case SummarizeNode => g.summarize(state)
  }

  /** The keys each node may write. */
  function NodeKeys(n: Node): set<string> {
    match n
    case FetchInitialNode => InitialDataKeys
    case ClassifyNode => {"audit_type", "audit_category", "audit_group", "classification_confidence"}
    case FetchReferenceNode => {"reference_data"}
    case ReasonNode => {"reasoning_status", "reasoning_result", "missing_fields", "audit_cause", "error_case"}
    case EnrichNode => {"enriched_data", "enrichment_iterations", "missing_fields"}
    case SummarizeNode => {"audit_summary", "summary_bullets"}
  }

  /** Merging an update within the channels into the empty state gives
      the update. */
  lemma MergeIntoEmpty(u: Object)
    requires u.Keys <= StateKeys
    ensures Merge(map[], u) == u
  {
  }

  /** The keys summarizing may write, as a fact of their own. */
  lemma SummarizeKeys(u: Object)
    requires u.Keys == {"audit_summary", "summary_bullets"}
    ensures u.Keys <= NodeKeys(SummarizeNode)
  {
  }

  /** No node may write `error`. */
  lemma NoNodeWritesError(n: Node)
    ensures "error" !in NodeKeys(n)
  {
  }

  /** Only summarizing may write the summary or its bullets. */
  lemma OnlySummarizingWritesSummary(n: Node)
    ensures "audit_summary" in NodeKeys(n) <==> n == SummarizeNode
    ensures "summary_bullets" in NodeKeys(n) <==> n == SummarizeNode
  {
  }

  /** Node function `f` writes only keys among `keys`. */
  ghost predicate WritesWithinKeys(f: Object -> Result<Object>, keys: set<string>) {
    forall s :: f(s).Ok? ==> f(s).value.Keys <= keys
  }

  /** Each node writes only its own keys. */
  ghost predicate WritesOwnKeys(g: Graph) {
    && WritesWithinKeys(g.fetchInitial, NodeKeys(FetchInitialNode))
    && WritesWithinKeys(g.classify, NodeKeys(ClassifyNode))
    && WritesWithinKeys(g.fetchReference, NodeKeys(FetchReferenceNode))
    && WritesWithinKeys(g.reason, NodeKeys(ReasonNode))
    && WritesWithinKeys(g.enrich, NodeKeys(EnrichNode))
    && WritesWithinKeys(g.summarize, NodeKeys(SummarizeNode))
  }

  /** Node `n` of a graph whose nodes write only their own keys writes only
      its own keys. */
  lemma OwnKeys(g: Graph, n: Node, s: Object)
    requires WritesOwnKeys(g) && NodeUpdate(g, n, s).Ok?
    ensures NodeUpdate(g, n, s).value.Keys <= NodeKeys(n)
  {
  }

  /** Node function `f` sets the count to zero. */
  ghost predicate StartsCount(f: Object -> Result<Object>) {
    forall s :: f(s).Ok? ==> "enrichment_iterations" in f(s).value && f(s).value["enrichment_iterations"] == Int(0)
  }

  /** The initial fetch resets the count to zero. */
  ghost predicate ResetsCount(g: Graph) {
    StartsCount(g.fetchInitial)
  }

  /** The missing fields as the state holds them. */
  function MissingOf(state: Object): Value {
    GetOr(state, "missing_fields", List([]))
  }

  /** Node function `f` writes all of the reasoning keys, and names missing
      fields whenever its status is not sufficient. */
  ghost predicate NamesMissing(f: Object -> Result<Object>) {
    forall s :: f(s).Ok? ==>
      && f(s).value.Keys == NodeKeys(ReasonNode)
      && (f(s).value["reasoning_status"] != Str("sufficient") ==> Truthy(f(s).value["missing_fields"]))
  }

  /** Reasoning writes all of its keys, and names missing fields whenever
      its status is not sufficient. */
  ghost predicate ReasonsConsistently(g: Graph) {
    NamesMissing(g.reason)
  }

  /** Node function `f`, with fields missing, adds one to the count. */
  ghost predicate CountsRounds(f: Object -> Result<Object>) {
    forall s :: f(s).Ok? && Truthy(MissingOf(s)) ==>
      && "enrichment_iterations" in f(s).value
      && Ok(f(s).value["enrichment_iterations"]) == Increment(CountOf(s))
  }

  /** Enriching with fields missing adds one to the count. */
  ghost predicate EnrichingCounts(g: Graph) {
    CountsRounds(g.enrich)
  }

  /** What a run relies on of its nodes. */
  ghost predicate WellBehaved(g: Graph) {
    WritesOwnKeys(g) && ResetsCount(g) && ReasonsConsistently(g) && EnrichingCounts(g)
  }

  /** The data reasoning reads: the audit type, the rated data and the
      parcel characteristics. */
  predicate SameAuditData(s: Object, t: Object) {
    && Agree(s, t, "audit_type")
    && Agree(s, t, "rated_data")
    && Agree(s, t, "parcel_characteristics")
  }

  /** Two states hold the same value under `k`, or both lack it. */
  predicate Agree(s: Object, t: Object, k: string) {
    (k in s <==> k in t) && (k in s ==> s[k] == t[k])
  }

  /** An answer of node function `f` that is not sufficient depends only
      on the data reasoning reads. */
  ghost predicate InsufficientOnData(f: Object -> Result<Object>) {
    forall s, t :: f(s).Ok? && SameAuditData(s, t)
      && "reasoning_status" in f(s).value && f(s).value["reasoning_status"] != Str("sufficient")
      ==> f(t) == f(s)
  }

  /** An answer of reasoning that is not sufficient depends only on the
      data reasoning reads. */
  ghost predicate InsufficientStable(g: Graph) {
    InsufficientOnData(g.reason)
  }

  /** Node function `e`, run on the state that an answer of reasoning `r`
      other than sufficient leaves at count zero, raises `kind`. */
  ghost predicate RaisesAfterInsufficient(r: Object -> Result<Object>, e: Object -> Result<Object>, kind: string) {
    forall s :: r(s).Ok? && CountOf(s) == Int(0) && StatusOf(Merge(s, r(s).value)) != Str("sufficient") ==>
      e(Merge(s, r(s).value)) == Raised(kind)
  }

  /** What one superstep of a run does at a node: the node raises, or its
      update is merged and the edges out of the node are followed, which
      may raise in turn. */
  datatype Move = NodeRaised(kind: string) | Moved(update: Object, after: Object, next: Result<Target>)

  /** One superstep of graph `g` at node `at`: run the node on the state,
      merge its update, then follow the edge or ask the router. */
  function Superstep(g: Graph, at: Node, state: Object): Move {
    match NodeUpdate(g, at, state)
    case Raised(kind) => NodeRaised(kind)
    case Ok(u) => Moved(u, Merge(state, u), Successor(at, Merge(state, u)))
  }

  /** The supersteps of `g` as a step function a run iterates. */
  function Supersteps(g: Graph): (Node, Object) -> Move {
    (at, state) => Superstep(g, at, state)
  }

  /** Every superstep merges its update into the state. */
  ghost predicate MergesUpdates(step: (Node, Object) -> Move) {
    forall at, s :: step(at, s).Moved? ==> step(at, s).after == Merge(s, step(at, s).update)
  }

  /** Every superstep goes along an edge, into summarizing only from a
      sufficient status and into enriching only from another one. */
  ghost predicate KeepsToEdges(step: (Node, Object) -> Move) {
    forall at, s :: step(at, s).Moved? && step(at, s).next.Ok? && step(at, s).next.value.Goto? ==>
      && Edge(at, step(at, s).next.value.node)
      && (step(at, s).next.value.node == SummarizeNode ==> StatusOf(step(at, s).after) == Str("sufficient"))
      && (step(at, s).next.value.node == EnrichNode ==> StatusOf(step(at, s).after) != Str("sufficient"))
  }

  /** Every superstep's update stays within the keys of its node. */
  ghost predicate WritesWithin(step: (Node, Object) -> Move) {
    forall at, s :: step(at, s).Moved? ==> step(at, s).update.Keys <= NodeKeys(at)
  }

  /** Where a run goes after reasoning, from the status reasoning left and
      the count it found. */
  function ReasoningTarget(status: Value, i: int): Target {
    if status == Str("sufficient") then Goto(SummarizeNode)
    else if i >= MaxEnrichmentIterations then Finish
    else Goto(EnrichNode)
  }

  /** The three supersteps in front of reasoning go straight on, the first
      one resetting the count to zero and the other two keeping it. */
  ghost predicate PrefixSteps(step: (Node, Object) -> Move) {
    && (forall s :: step(FetchInitialNode, s).Moved? ==>
          step(FetchInitialNode, s).next == Ok(Goto(ClassifyNode)) && CountOf(step(FetchInitialNode, s).after) == Int(0))
    && (forall s :: step(ClassifyNode, s).Moved? ==>
          step(ClassifyNode, s).next == Ok(Goto(FetchReferenceNode)) && CountOf(step(ClassifyNode, s).after) == CountOf(s))
    && (forall s :: step(FetchReferenceNode, s).Moved? ==>
          step(FetchReferenceNode, s).next == Ok(Goto(ReasonNode)) && CountOf(step(FetchReferenceNode, s).after) == CountOf(s))
  }

  /** A reasoning superstep keeps the count, leaves fields missing on any
      status but sufficient, and on a numeric count goes where
      `ReasoningTarget` says. */
  ghost predicate ReasonStepRoutes(step: (Node, Object) -> Move) {
    forall s :: step(ReasonNode, s).Moved? ==>
      && CountOf(step(ReasonNode, s).after) == CountOf(s)
      && (StatusOf(step(ReasonNode, s).after) != Str("sufficient") ==> Truthy(MissingOf(step(ReasonNode, s).after)))
      && (CountOf(s).Int? ==> step(ReasonNode, s).next == Ok(ReasoningTarget(StatusOf(step(ReasonNode, s).after), CountOf(s).i)))
  }

  /** An enriching superstep with fields missing and a numeric count adds
      one to the count and goes back to reasoning. */
  ghost predicate EnrichStepCounts(step: (Node, Object) -> Move) {
    forall s :: step(EnrichNode, s).Moved? && Truthy(MissingOf(s)) && CountOf(s).Int? ==>
      && step(EnrichNode, s).next == Ok(Goto(ReasonNode))
      && CountOf(step(EnrichNode, s).after) == Int(CountOf(s).i + 1)
  }

  /** Neither reasoning nor enriching changes the audit data. */
  ghost predicate LoopKeepsData(step: (Node, Object) -> Move) {
    && (forall s :: step(ReasonNode, s).Moved? ==> SameAuditData(step(ReasonNode, s).after, s))
    && (forall s :: step(EnrichNode, s).Moved? ==> SameAuditData(step(EnrichNode, s).after, s))
  }

  /** A summarizing superstep ends the run. */
  ghost predicate SummarizeStepEnds(step: (Node, Object) -> Move) {
    forall s :: step(SummarizeNode, s).Moved? ==> step(SummarizeNode, s).next == Ok(Finish)
  }

  /** The shape of the reasoning loop. */
  ghost predicate LoopSteps(step: (Node, Object) -> Move) {
    ReasonStepRoutes(step) && EnrichStepCounts(step) && SummarizeStepEnds(step)
  }

  /** Reasoning that answers anything but sufficient answers the same on
      any state with the same audit data. */
  ghost predicate InsufficientStep(step: (Node, Object) -> Move) {
    forall s, t :: step(ReasonNode, s).Moved? && step(ReasonNode, t).Moved? && SameAuditData(s, t)
      && StatusOf(step(ReasonNode, s).after) != Str("sufficient")
      ==> StatusOf(step(ReasonNode, t).after) != Str("sufficient")
  }

  /** Enriching raises `kind` right after a reasoning superstep at count
      zero that answered anything but sufficient. */
  ghost predicate EnrichRaisesAfterInsufficient(step: (Node, Object) -> Move, kind: string) {
    forall s :: step(ReasonNode, s).Moved? && CountOf(s) == Int(0) && StatusOf(step(ReasonNode, s).after) != Str("sufficient") ==>
      step(EnrichNode, step(ReasonNode, s).after) == NodeRaised(kind)
  }

  /** An enriching node that raises after such an answer makes supersteps
      that do. */
  lemma SuperstepsRaiseAfterInsufficient(g: Graph, kind: string)
    requires RaisesAfterInsufficient(g.reason, g.enrich, kind)
    ensures EnrichRaisesAfterInsufficient(Supersteps(g), kind)
  {
    forall s | Supersteps(g)(ReasonNode, s).Moved? && CountOf(s) == Int(0)
      && StatusOf(Supersteps(g)(ReasonNode, s).after) != Str("sufficient")
      ensures Supersteps(g)(EnrichNode, Supersteps(g)(ReasonNode, s).after) == NodeRaised(kind)
    {
      assert Supersteps(g)(ReasonNode, s).after == Merge(s, g.reason(s).value);
    }
  }

  /** The supersteps of any graph merge updates and keep to the edges. */
  lemma SuperstepsMergeAlongEdges(g: Graph)
    ensures MergesUpdates(Supersteps(g)) && KeepsToEdges(Supersteps(g))
  {
    forall at, s | Supersteps(g)(at, s).Moved? && Supersteps(g)(at, s).next.Ok? && Supersteps(g)(at, s).next.value.Goto?
      ensures Edge(at, Supersteps(g)(at, s).next.value.node)
      ensures Supersteps(g)(at, s).next.value.node == SummarizeNode ==> StatusOf(Supersteps(g)(at, s).after) == Str("sufficient")
      ensures Supersteps(g)(at, s).next.value.node == EnrichNode ==> StatusOf(Supersteps(g)(at, s).after) != Str("sufficient")
    {
      SuccessorFollowsEdges(at, Supersteps(g)(at, s).after);
    }
  }

  /** Nodes that write only their own keys make supersteps that do. */
  lemma SuperstepsWriteWithin(g: Graph)
    requires WritesOwnKeys(g)
    ensures WritesWithin(Supersteps(g))
  {
    forall at, s | Supersteps(g)(at, s).Moved?
      ensures Supersteps(g)(at, s).update.Keys <= NodeKeys(at)
    {
      OwnKeys(g, at, s);
    }
  }

  /** Merging an update that leaves out the count keeps the count. */
  lemma CountKept(s: Object, u: Object)
    requires "enrichment_iterations" !in u
    ensures CountOf(Merge(s, u)) == CountOf(s)
  {
    MergeAt(s, u, "enrichment_iterations");
  }

  /** Merging an update that names the count sets it. */
  lemma CountSet(s: Object, u: Object)
    requires "enrichment_iterations" in u
    ensures CountOf(Merge(s, u)) == u["enrichment_iterations"]
  {
    MergeAt(s, u, "enrichment_iterations");
  }

  /** Merging an update that leaves out the audit data keeps it. */
  lemma AuditDataKept(s: Object, u: Object)
    requires "audit_type" !in u && "rated_data" !in u && "parcel_characteristics" !in u
    ensures SameAuditData(Merge(s, u), s)
  {
    MergeAt(s, u, "audit_type");
    MergeAt(s, u, "rated_data");
    MergeAt(s, u, "parcel_characteristics");
  }

  /** Merging a reasoning update sets the status and the missing fields. */
  lemma ReasoningSet(s: Object, u: Object)
    requires "reasoning_status" in u && "missing_fields" in u
    ensures StatusOf(Merge(s, u)) == u["reasoning_status"]
    ensures MissingOf(Merge(s, u)) == u["missing_fields"]
  {
    MergeAt(s, u, "reasoning_status");
    MergeAt(s, u, "missing_fields");
  }

  /** The three supersteps in front of reasoning go straight on; the
      initial fetch resets the count and the other two keep it. */
  lemma SuperstepsPrefix(g: Graph)
    requires WritesOwnKeys(g) && ResetsCount(g)
    ensures PrefixSteps(Supersteps(g))
  {
    forall s | Supersteps(g)(FetchInitialNode, s).Moved?
      ensures CountOf(Supersteps(g)(FetchInitialNode, s).after) == Int(0)
    {
      CountSet(s, NodeUpdate(g, FetchInitialNode, s).value);
    }
    forall s | Supersteps(g)(ClassifyNode, s).Moved?
      ensures CountOf(Supersteps(g)(ClassifyNode, s).after) == CountOf(s)
    {
      CountKept(s, NodeUpdate(g, ClassifyNode, s).value);
    }
    forall s | Supersteps(g)(FetchReferenceNode, s).Moved?
      ensures CountOf(Supersteps(g)(FetchReferenceNode, s).after) == CountOf(s)
    {
      CountKept(s, NodeUpdate(g, FetchReferenceNode, s).value);
    }
  }

  /** Reasoning keeps the count, names missing fields on any status but
      sufficient, and goes where the router sends it. */
  lemma ReasonSuperstep(g: Graph, s: Object)
    requires WritesOwnKeys(g) && ReasonsConsistently(g)
    requires Superstep(g, ReasonNode, s).Moved?
    ensures CountOf(Superstep(g, ReasonNode, s).after) == CountOf(s)
    ensures StatusOf(Superstep(g, ReasonNode, s).after) != Str("sufficient") ==>
      Truthy(MissingOf(Superstep(g, ReasonNode, s).after))
    ensures CountOf(s).Int? ==>
      Superstep(g, ReasonNode, s).next == Ok(ReasoningTarget(StatusOf(Superstep(g, ReasonNode, s).after), CountOf(s).i))
  {
    var u := NodeUpdate(g, ReasonNode, s).value;
    CountKept(s, u);
    ReasoningSet(s, u);
  }

  /** Well-behaved nodes make supersteps with the shape of the reasoning
      loop. */
  lemma SuperstepsLoop(g: Graph)
    requires WellBehaved(g)
    ensures LoopSteps(Supersteps(g))
  {
    forall s | Supersteps(g)(ReasonNode, s).Moved?
      ensures CountOf(Supersteps(g)(ReasonNode, s).after) == CountOf(s)
      ensures StatusOf(Supersteps(g)(ReasonNode, s).after) != Str("sufficient") ==>
        Truthy(MissingOf(Supersteps(g)(ReasonNode, s).after))
      ensures CountOf(s).Int? ==>
        Supersteps(g)(ReasonNode, s).next == Ok(ReasoningTarget(StatusOf(Supersteps(g)(ReasonNode, s).after), CountOf(s).i))
    {
      ReasonSuperstep(g, s);
    }
    forall s | Supersteps(g)(EnrichNode, s).Moved? && Truthy(MissingOf(s)) && CountOf(s).Int?
      ensures CountOf(Supersteps(g)(EnrichNode, s).after) == Int(CountOf(s).i + 1)
    {
      CountSet(s, NodeUpdate(g, EnrichNode, s).value);
    }
  }

  /** Nodes that write only their own keys make reasoning and enriching
      supersteps that keep the audit data. */
  lemma SuperstepsKeepData(g: Graph)
    requires WritesOwnKeys(g)
    ensures LoopKeepsData(Supersteps(g))
  {
    forall s | Supersteps(g)(ReasonNode, s).Moved?
      ensures SameAuditData(Supersteps(g)(ReasonNode, s).after, s)
    {
      AuditDataKept(s, NodeUpdate(g, ReasonNode, s).value);
    }
    forall s | Supersteps(g)(EnrichNode, s).Moved?
      ensures SameAuditData(Supersteps(g)(EnrichNode, s).after, s)
    {
      AuditDataKept(s, NodeUpdate(g, EnrichNode, s).value);
    }
  }

  /** A graph whose insufficient answers depend only on the audit data
      makes supersteps whose insufficient answers do too. */
  lemma SuperstepsInsufficient(g: Graph)
    requires ReasonsConsistently(g) && InsufficientStable(g)
    ensures InsufficientStep(Supersteps(g))
  {
    forall s, t | Supersteps(g)(ReasonNode, s).Moved? && Supersteps(g)(ReasonNode, t).Moved? && SameAuditData(s, t)
      && StatusOf(Supersteps(g)(ReasonNode, s).after) != Str("sufficient")
      ensures StatusOf(Supersteps(g)(ReasonNode, t).after) != Str("sufficient")
    {
      ReasoningSet(s, NodeUpdate(g, ReasonNode, s).value);
      ReasoningSet(t, NodeUpdate(g, ReasonNode, t).value);
    }
  }
}
