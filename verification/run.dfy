/** The graph runtime: a run iterates supersteps from a node until the end
    node, a raise or the step bound, and what a run guarantees follows
    from what each superstep guarantees. */
module AuditRun {
  import opened Values
  import opened AuditGraph

  /** One node execution: the node, the update it returned and the state
      after merging it. */
  datatype Step = Step(node: Node, update: Object, after: Object)

  /** How a run ends: at the end node, with a node or router raising, or
      stopped by the step bound. */
  datatype Outcome = Completed | Failed(node: Node, kind: string) | RecursionLimitHit

  /** The steps of a run, the state it leaves and how it ended. */
  datatype Trace = Trace(steps: seq<Step>, final: Object, outcome: Outcome)

  /** A run from node `at` after `taken` supersteps: take the superstep,
      record it, and go on to the node it names, until the end, a raise or
      the step bound. */
  function Run(step: (Node, Object) -> Move, at: Node, state: Object, taken: nat): (t: Trace)
    ensures taken <= RecursionLimit ==> |t.steps| <= RecursionLimit - taken
    decreases RecursionLimit - taken
  {
    if taken >= RecursionLimit then Trace([], state, RecursionLimitHit)
    else
      match step(at, state)
      case NodeRaised(kind) => Trace([], state, Failed(at, kind))
      case Moved(u, after, next) =>
        match next
        case Raised(kind) => Trace([Step(at, u, after)], after, Failed(at, kind))
        case Ok(Finish) => Trace([Step(at, u, after)], after, Completed)
        case Ok(Goto(n)) =>
          var rest := Run(step, n, after, taken + 1);
          Trace([Step(at, u, after)] + rest.steps, rest.final, rest.outcome)
  }

  /** Whether the superstep at `at` moves on to another node within the
      step bound. */
  predicate MovesOn(step: (Node, Object) -> Move, at: Node, state: Object, taken: nat) {
    taken < RecursionLimit && step(at, state).Moved? && step(at, state).next.Ok? && step(at, state).next.value.Goto?
  }

  /** A run that moves on is its first step followed by the run from the
      next node. */
  lemma RunUnfolds(step: (Node, Object) -> Move, at: Node, state: Object, taken: nat)
    requires MovesOn(step, at, state, taken)
    ensures var m := step(at, state);
      var rest := Run(step, m.next.value.node, m.after, taken + 1);
      && Run(step, at, state, taken).steps == [Step(at, m.update, m.after)] + rest.steps
      && Run(step, at, state, taken).final == rest.final
      && Run(step, at, state, taken).outcome == rest.outcome
  {
  }

  /** Step `k` of a run that moves on is step `k - 1` of the run from the
      next node. */
  lemma RunShifts(step: (Node, Object) -> Move, at: Node, state: Object, taken: nat, k: nat)
    requires MovesOn(step, at, state, taken)
    requires 0 < k < |Run(step, at, state, taken).steps|
    ensures var rest := Run(step, step(at, state).next.value.node, step(at, state).after, taken + 1);
      k - 1 < |rest.steps| && Run(step, at, state, taken).steps[k] == rest.steps[k - 1]
  {
    RunUnfolds(step, at, state, taken);
  }

  /** A run that does not move on takes at most the one step at `at`, ends
      within the step bound when it starts within it, and leaves the state
      of its step or the state it started from. */
  lemma RunStops(step: (Node, Object) -> Move, at: Node, state: Object, taken: nat)
    requires !MovesOn(step, at, state, taken)
    ensures taken < RecursionLimit ==> Run(step, at, state, taken).outcome != RecursionLimitHit
    ensures Run(step, at, state, taken).steps == [] ==> Run(step, at, state, taken).final == state
    ensures Run(step, at, state, taken).steps != [] ==>
      && step(at, state).Moved?
      && Run(step, at, state, taken).steps == [Step(at, step(at, state).update, step(at, state).after)]
      && Run(step, at, state, taken).final == step(at, state).after
    ensures Run(step, at, state, taken).outcome == Completed ==>
      && Run(step, at, state, taken).steps != []
      && step(at, state).Moved? && step(at, state).next == Ok(Finish)
  {
  }

  /** Each step's state is the one before it with the step's update merged
      in. */
  predicate Chained(state: Object, steps: seq<Step>)
    decreases |steps|
  {
    steps == [] || (steps[0].after == Merge(state, steps[0].update) && Chained(steps[0].after, steps[1..]))
  }

  /** The state a sequence of steps leaves: the last step's, or the start
      state when there is none. */
  function Last(state: Object, steps: seq<Step>): Object {
    if steps == [] then state else steps[|steps| - 1].after
  }

  /** The state before step `j`: the start state, or the previous step's. */
  function Before(state: Object, steps: seq<Step>, j: nat): Object
    requires j < |steps|
  {
    if j == 0 then state else steps[j - 1].after
  }

  /** The steps of a run are chained from its start state, the first one
      runs node `at`, and the run leaves the last step's state. */
  lemma {:induction false} RunChains(step: (Node, Object) -> Move, at: Node, state: Object, taken: nat)
    requires MergesUpdates(step)
    ensures Run(step, at, state, taken).steps != [] ==> Run(step, at, state, taken).steps[0].node == at
    ensures Chained(state, Run(step, at, state, taken).steps)
    ensures Run(step, at, state, taken).final == Last(state, Run(step, at, state, taken).steps)
    decreases RecursionLimit - taken
  {
    if MovesOn(step, at, state, taken) {
      var m := step(at, state);
      RunUnfolds(step, at, state, taken);
      RunChains(step, m.next.value.node, m.after, taken + 1);
      var steps := Run(step, at, state, taken).steps;
      assert steps[1..] == Run(step, m.next.value.node, m.after, taken + 1).steps;
    } else {
      RunStops(step, at, state, taken);
    }
  }

  /** A chain, step by step: each step's state is the state before it with
      its update merged in. */
  lemma {:induction false} ChainedAt(state: Object, steps: seq<Step>)
    requires Chained(state, steps)
    ensures forall j :: 0 <= j < |steps| ==> steps[j].after == Merge(Before(state, steps, j), steps[j].update)
    decreases |steps|
  {
    if steps != [] {
      ChainedAt(steps[0].after, steps[1..]);
      forall j | 0 < j < |steps|
        ensures steps[j].after == Merge(Before(state, steps, j), steps[j].update)
      {
        assert steps[j] == steps[1..][j - 1];
        assert Before(state, steps, j) == Before(steps[0].after, steps[1..], j - 1);
      }
    }
  }

  /** A key no step's update names keeps its start value to the end of a
      chain. */
  lemma {:induction false} KeptThroughChain(state: Object, steps: seq<Step>, k: string)
    requires Chained(state, steps)
    requires forall j :: 0 <= j < |steps| ==> k !in steps[j].update
    ensures k in Last(state, steps) <==> k in state
    ensures k in state ==> Last(state, steps)[k] == state[k]
    decreases |steps|
  {
    if steps != [] {
      assert Last(state, steps) == Last(steps[0].after, steps[1..]);
      forall j | 0 <= j < |steps[1..]| ensures k !in steps[1..][j].update {
        assert steps[1..][j] == steps[j + 1];
      }
      KeptThroughChain(steps[0].after, steps[1..], k);
      MergeAt(state, steps[0].update, k);
    }
  }

  /** A key no step's update names keeps its start value to the end of the
      run. */
  lemma KeptThroughRun(step: (Node, Object) -> Move, at: Node, state: Object, taken: nat, k: string)
    requires MergesUpdates(step)
    requires forall j :: 0 <= j < |Run(step, at, state, taken).steps| ==> k !in Run(step, at, state, taken).steps[j].update
    ensures k in Run(step, at, state, taken).final <==> k in state
    ensures k in state ==> Run(step, at, state, taken).final[k] == state[k]
  {
    RunChains(step, at, state, taken);
    KeptThroughChain(state, Run(step, at, state, taken).steps, k);
  }

  /** Step `b` may follow step `a`: along an edge, into summarizing only
      from a sufficient status and into enriching only from another one. */
  predicate FollowsEdge(a: Step, b: Step) {
    && Edge(a.node, b.node)
    && (b.node == SummarizeNode ==> StatusOf(a.after) == Str("sufficient"))
    && (b.node == EnrichNode ==> StatusOf(a.after) != Str("sufficient"))
  }

  /** Consecutive steps of a run follow the edges, into summarizing only
      after a sufficient status and into enriching only after another one. */
  lemma {:induction false} RunFollowsEdges(step: (Node, Object) -> Move, at: Node, state: Object, taken: nat)
    requires KeepsToEdges(step)
    ensures forall j :: 0 < j < |Run(step, at, state, taken).steps| ==>
      FollowsEdge(Run(step, at, state, taken).steps[j - 1], Run(step, at, state, taken).steps[j])
    decreases RecursionLimit - taken
  {
    if MovesOn(step, at, state, taken) {
      var m := step(at, state);
      var n := m.next.value.node;
      RunUnfolds(step, at, state, taken);
      RunFollowsEdges(step, n, m.after, taken + 1);
      var rest := Run(step, n, m.after, taken + 1).steps;
      var steps := Run(step, at, state, taken).steps;
      if rest != [] {
        FirstStepRunsAt(step, n, m.after, taken + 1);
      }
      forall j | 0 < j < |steps| ensures FollowsEdge(steps[j - 1], steps[j]) {
        if j > 1 {
          assert steps[j - 1] == rest[j - 2] && steps[j] == rest[j - 1];
        }
      }
    } else {
      RunStops(step, at, state, taken);
    }
  }

  /** The first step of a run is the superstep at the node the run starts
      from. */
  lemma FirstStepRunsAt(step: (Node, Object) -> Move, at: Node, state: Object, taken: nat)
    requires Run(step, at, state, taken).steps != []
    ensures step(at, state).Moved?
    ensures Run(step, at, state, taken).steps[0] == Step(at, step(at, state).update, step(at, state).after)
  {
  }

  /** A run of more than one step moved on from its first node. */
  lemma MovesOnWhenLonger(step: (Node, Object) -> Move, at: Node, state: Object, taken: nat)
    requires |Run(step, at, state, taken).steps| > 1
    ensures MovesOn(step, at, state, taken)
  {
    if !MovesOn(step, at, state, taken) {
      RunStops(step, at, state, taken);
    }
  }

  /** How many steps executed node `n`. */
  function Count(steps: seq<Step>, n: Node): nat {
    if steps == [] then 0 else (if steps[0].node == n then 1 else 0) + Count(steps[1..], n)
  }

  /** A step in front of a sequence adds one to its node's count. */
  lemma CountCons(x: Step, rest: seq<Step>, n: Node)
    ensures Count([x] + rest, n) == (if x.node == n then 1 else 0) + Count(rest, n)
  {
    assert ([x] + rest)[1..] == rest;
  }

  /** No step runs a node its count is zero for. */
  lemma {:induction false} CountZero(steps: seq<Step>, n: Node)
    requires Count(steps, n) == 0
    ensures forall j :: 0 <= j < |steps| ==> steps[j].node != n
  {
    if steps != [] {
      CountZero(steps[1..], n);
      assert forall j :: 0 < j < |steps| ==> steps[j] == steps[1..][j - 1];
    }
  }

  /** No node runs more often than there are steps. */
  lemma {:induction false} CountAtMostLength(steps: seq<Step>, n: Node)
    ensures Count(steps, n) <= |steps|
  {
    if steps != [] {
      CountAtMostLength(steps[1..], n);
    }
  }

  /** Every update of a run stays within the keys of its node. */
  lemma {:induction false} RunWritesOnly(step: (Node, Object) -> Move, at: Node, state: Object, taken: nat)
    requires WritesWithin(step)
    ensures forall j :: 0 <= j < |Run(step, at, state, taken).steps| ==>
      Run(step, at, state, taken).steps[j].update.Keys <= NodeKeys(Run(step, at, state, taken).steps[j].node)
    decreases RecursionLimit - taken
  {
    if MovesOn(step, at, state, taken) {
      var m := step(at, state);
      RunUnfolds(step, at, state, taken);
      RunWritesOnly(step, m.next.value.node, m.after, taken + 1);
      var rest := Run(step, m.next.value.node, m.after, taken + 1).steps;
      assert forall j :: 0 < j < |Run(step, at, state, taken).steps| ==>
        Run(step, at, state, taken).steps[j] == rest[j - 1];
    } else {
      RunStops(step, at, state, taken);
    }
  }

  /** No node writes `error`, so a run leaves it as it found it. */
  lemma NoErrorWritten(step: (Node, Object) -> Move, at: Node, state: Object, taken: nat)
    requires MergesUpdates(step) && WritesWithin(step)
    ensures "error" in Run(step, at, state, taken).final <==> "error" in state
    ensures "error" in state ==> Run(step, at, state, taken).final["error"] == state["error"]
  {
    RunWritesOnly(step, at, state, taken);
    var steps := Run(step, at, state, taken).steps;
    forall j | 0 <= j < |steps| ensures "error" !in steps[j].update {
      NoNodeWritesError(steps[j].node);
    }
    KeptThroughRun(step, at, state, taken, "error");
  }

  /** Only summarizing writes the summary and its bullets: a run that
      never summarizes leaves both as it found them. */
  lemma SummaryOnlyBySummarizing(step: (Node, Object) -> Move, at: Node, state: Object, taken: nat)
    requires MergesUpdates(step) && WritesWithin(step)
    requires Count(Run(step, at, state, taken).steps, SummarizeNode) == 0
    ensures "audit_summary" in Run(step, at, state, taken).final <==> "audit_summary" in state
    ensures "audit_summary" in state ==>
      Run(step, at, state, taken).final["audit_summary"] == state["audit_summary"]
    ensures "summary_bullets" in Run(step, at, state, taken).final <==> "summary_bullets" in state
    ensures "summary_bullets" in state ==>
      Run(step, at, state, taken).final["summary_bullets"] == state["summary_bullets"]
  {
    RunWritesOnly(step, at, state, taken);
    var steps := Run(step, at, state, taken).steps;
    CountZero(steps, SummarizeNode);
    forall j | 0 <= j < |steps| ensures "audit_summary" !in steps[j].update && "summary_bullets" !in steps[j].update {
      OnlySummarizingWritesSummary(steps[j].node);
    }
    KeptThroughRun(step, at, state, taken, "audit_summary");
    KeptThroughRun(step, at, state, taken, "summary_bullets");
  }

  /** The rounds of enrichment still allowed at count `i`: the measure the
      reasoning loop decreases. */
  function RoundsLeft(i: int): nat {
    if i >= MaxEnrichmentIterations then 0 else MaxEnrichmentIterations - i
  }

  /** A trace that ended before the step bound, in at most `len` steps,
      reasoning at most `reasons` times and enriching at most `enrichments`
      times. */
  predicate WithinBounds(t: Trace, len: nat, reasons: nat, enrichments: nat) {
    && t.outcome != RecursionLimitHit
    && |t.steps| <= len
    && Count(t.steps, ReasonNode) <= reasons
    && Count(t.steps, EnrichNode) <= enrichments
  }

  /** Summarizing is the last step: a run from it takes at most that step. */
  lemma RunFromSummarize(step: (Node, Object) -> Move, state: Object, taken: nat)
    requires SummarizeStepEnds(step) && taken < RecursionLimit
    ensures WithinBounds(Run(step, SummarizeNode, state, taken), 1, 0, 0)
  {
    RunStops(step, SummarizeNode, state, taken);
  }

  /** Reasoning at count `i` that moves on goes to summarizing, or to
      enriching with a round left, the count kept and fields missing. */
  lemma ReasonMovesOn(step: (Node, Object) -> Move, state: Object, taken: nat, i: int)
    requires ReasonStepRoutes(step) && CountOf(state) == Int(i)
    requires MovesOn(step, ReasonNode, state, taken)
    ensures var m := step(ReasonNode, state);
      || m.next.value.node == SummarizeNode
      || (&& m.next.value.node == EnrichNode && i < MaxEnrichmentIterations
          && CountOf(m.after) == Int(i) && Truthy(MissingOf(m.after)))
  {
  }

  /** Enriching at count `i` with fields missing that moves on goes back to
      reasoning at count `i + 1`. */
  lemma EnrichMovesOn(step: (Node, Object) -> Move, state: Object, taken: nat, i: int)
    requires EnrichStepCounts(step) && CountOf(state) == Int(i) && Truthy(MissingOf(state))
    requires MovesOn(step, EnrichNode, state, taken)
    ensures step(EnrichNode, state).next.value.node == ReasonNode
    ensures CountOf(step(EnrichNode, state).after) == Int(i + 1)
  {
  }

  /** Bounds on a run carry over to the run one step earlier: one more
      step, and one more execution of the node that step runs. */
  lemma RunPrepends(step: (Node, Object) -> Move, at: Node, state: Object, taken: nat, len: nat, reasons: nat, enrichments: nat)
    requires MovesOn(step, at, state, taken)
    requires WithinBounds(Run(step, step(at, state).next.value.node, step(at, state).after, taken + 1), len, reasons, enrichments)
    ensures WithinBounds(Run(step, at, state, taken), len + 1,
      reasons + (if at == ReasonNode then 1 else 0), enrichments + (if at == EnrichNode then 1 else 0))
  {
    var m := step(at, state);
    var rest := Run(step, m.next.value.node, m.after, taken + 1).steps;
    RunUnfolds(step, at, state, taken);
    CountCons(Step(at, m.update, m.after), rest, ReasonNode);
    CountCons(Step(at, m.update, m.after), rest, EnrichNode);
  }

  /** A run that stops at once stays within any bounds of one step. */
  lemma RunStopsWithin(step: (Node, Object) -> Move, at: Node, state: Object, taken: nat, reasons: nat, enrichments: nat)
    requires !MovesOn(step, at, state, taken) && taken < RecursionLimit
    requires at == ReasonNode ==> reasons >= 1
    requires at == EnrichNode ==> enrichments >= 1
    ensures WithinBounds(Run(step, at, state, taken), 1, reasons, enrichments)
  {
    RunStops(step, at, state, taken);
    var steps := Run(step, at, state, taken).steps;
    if steps != [] {
      CountCons(steps[0], [], ReasonNode);
      CountCons(steps[0], [], EnrichNode);
      assert steps == [steps[0]] + [];
    }
  }

  /** From reasoning at count `i`, a run reasons at most once more than it
      has rounds left, enriches at most once per round left, and ends
      before the step bound when that many steps fit under it. */
  lemma {:induction false} RunFromReason(step: (Node, Object) -> Move, state: Object, taken: nat, i: int)
    requires LoopSteps(step)
    requires 0 <= i && CountOf(state) == Int(i)
    requires taken + 2 * RoundsLeft(i) + 2 <= RecursionLimit
    ensures WithinBounds(Run(step, ReasonNode, state, taken), 2 * RoundsLeft(i) + 2, RoundsLeft(i) + 1, RoundsLeft(i))
    decreases RoundsLeft(i), 1
  {
    if MovesOn(step, ReasonNode, state, taken) {
      var m := step(ReasonNode, state);
      ReasonMovesOn(step, state, taken, i);
      if m.next.value.node == SummarizeNode {
        RunFromSummarize(step, m.after, taken + 1);
        RunPrepends(step, ReasonNode, state, taken, 1, 0, 0);
      } else {
        RunFromEnrich(step, m.after, taken + 1, i);
        RunPrepends(step, ReasonNode, state, taken, 2 * RoundsLeft(i) + 1, RoundsLeft(i), RoundsLeft(i));
      }
    } else {
      RunStopsWithin(step, ReasonNode, state, taken, RoundsLeft(i) + 1, RoundsLeft(i));
    }
  }

  /** From enriching at count `i` with fields missing: one step, then the
      run from reasoning at count `i + 1`. */
  lemma {:induction false} RunFromEnrich(step: (Node, Object) -> Move, state: Object, taken: nat, i: int)
    requires LoopSteps(step)
    requires 0 <= i < MaxEnrichmentIterations && CountOf(state) == Int(i)
    requires Truthy(MissingOf(state))
    requires taken + 2 * RoundsLeft(i) + 1 <= RecursionLimit
    ensures WithinBounds(Run(step, EnrichNode, state, taken), 2 * RoundsLeft(i) + 1, RoundsLeft(i), RoundsLeft(i))
    decreases RoundsLeft(i), 0
  {
    if MovesOn(step, EnrichNode, state, taken) {
      EnrichMovesOn(step, state, taken, i);
      RunFromReason(step, step(EnrichNode, state).after, taken + 1, i + 1);
      RunPrepends(step, EnrichNode, state, taken, 2 * RoundsLeft(i + 1) + 2, RoundsLeft(i + 1) + 1, RoundsLeft(i + 1));
    } else {
      RunStopsWithin(step, EnrichNode, state, taken, RoundsLeft(i), RoundsLeft(i));
    }
  }

  /** From fetching the reference data at count zero: one step, then the
      reasoning loop from count zero. */
  lemma RunFromFetchReference(step: (Node, Object) -> Move, state: Object, taken: nat)
    requires PrefixSteps(step) && LoopSteps(step)
    requires CountOf(state) == Int(0) && taken + 9 <= RecursionLimit
    ensures WithinBounds(Run(step, FetchReferenceNode, state, taken), 9, 4, 3)
  {
    if MovesOn(step, FetchReferenceNode, state, taken) {
      RunFromReason(step, step(FetchReferenceNode, state).after, taken + 1, 0);
      RunPrepends(step, FetchReferenceNode, state, taken, 8, 4, 3);
    } else {
      RunStopsWithin(step, FetchReferenceNode, state, taken, 4, 3);
    }
  }

  /** From classifying at count zero: one step, then fetching the reference
      data. */
  lemma RunFromClassify(step: (Node, Object) -> Move, state: Object, taken: nat)
    requires PrefixSteps(step) && LoopSteps(step)
    requires CountOf(state) == Int(0) && taken + 10 <= RecursionLimit
    ensures WithinBounds(Run(step, ClassifyNode, state, taken), 10, 4, 3)
  {
    if MovesOn(step, ClassifyNode, state, taken) {
      RunFromFetchReference(step, step(ClassifyNode, state).after, taken + 1);
      RunPrepends(step, ClassifyNode, state, taken, 9, 4, 3);
    } else {
      RunStopsWithin(step, ClassifyNode, state, taken, 4, 3);
    }
  }

  /** A whole run, from the initial fetch on any state, ends before the
      step bound in at most eleven steps, reasoning at most
      `MaxEnrichmentIterations + 1` times and enriching at most
      `MaxEnrichmentIterations` times. */
  lemma RunTerminates(step: (Node, Object) -> Move, state: Object)
    requires PrefixSteps(step) && LoopSteps(step)
    ensures Run(step, FetchInitialNode, state, 0).outcome != RecursionLimitHit
    ensures |Run(step, FetchInitialNode, state, 0).steps| <= 11
    ensures Count(Run(step, FetchInitialNode, state, 0).steps, ReasonNode) <= MaxEnrichmentIterations + 1
    ensures Count(Run(step, FetchInitialNode, state, 0).steps, EnrichNode) <= MaxEnrichmentIterations
  {
    if MovesOn(step, FetchInitialNode, state, 0) {
      RunFromClassify(step, step(FetchInitialNode, state).after, 1);
      RunPrepends(step, FetchInitialNode, state, 0, 10, 4, 3);
    } else {
      RunStopsWithin(step, FetchInitialNode, state, 0, 4, 3);
    }
  }

  /** Reasoning on state `s0` answered something other than sufficient. */
  ghost predicate AnsweredInsufficient(step: (Node, Object) -> Move, s0: Object) {
    step(ReasonNode, s0).Moved? && StatusOf(step(ReasonNode, s0).after) != Str("sufficient")
  }

  /** A trace that never summarized and, if it completed, used every round
      of enrichment and still holds a status other than sufficient. */
  predicate EndsInsufficient(t: Trace) {
    && Count(t.steps, SummarizeNode) == 0
    && (t.outcome == Completed ==>
          CountOf(t.final) == Int(MaxEnrichmentIterations) && StatusOf(t.final) != Str("sufficient"))
  }

  /** A step other than summarizing in front of a run that ends
      insufficient gives a run that does. */
  lemma RunPrependsInsufficient(step: (Node, Object) -> Move, at: Node, state: Object, taken: nat)
    requires MovesOn(step, at, state, taken) && at != SummarizeNode
    requires EndsInsufficient(Run(step, step(at, state).next.value.node, step(at, state).after, taken + 1))
    ensures EndsInsufficient(Run(step, at, state, taken))
  {
    var m := step(at, state);
    RunUnfolds(step, at, state, taken);
    CountCons(Step(at, m.update, m.after), Run(step, m.next.value.node, m.after, taken + 1).steps, SummarizeNode);
  }

  /** A run that stops at once at a node other than summarizing, completing
      only with the count at its maximum and an insufficient status, ends
      insufficient. */
  lemma RunStopsInsufficient(step: (Node, Object) -> Move, at: Node, state: Object, taken: nat)
    requires !MovesOn(step, at, state, taken) && at != SummarizeNode
    requires step(at, state).Moved? && step(at, state).next == Ok(Finish) ==>
      CountOf(step(at, state).after) == Int(MaxEnrichmentIterations)
      && StatusOf(step(at, state).after) != Str("sufficient")
    ensures EndsInsufficient(Run(step, at, state, taken))
  {
    RunStops(step, at, state, taken);
    var steps := Run(step, at, state, taken).steps;
    if steps != [] {
      CountCons(steps[0], [], SummarizeNode);
      assert steps == [steps[0]] + [];
    }
  }

  /** Reasoning on the same audit data as an insufficient answer answers
      insufficient again. */
  lemma StillInsufficient(step: (Node, Object) -> Move, s0: Object, state: Object)
    requires InsufficientStep(step) && AnsweredInsufficient(step, s0) && SameAuditData(s0, state)
    requires step(ReasonNode, state).Moved?
    ensures AnsweredInsufficient(step, state)
  {
  }

  /** Reasoning at count `i`, at most the maximum, that ends the run has
      answered insufficient with the count at its maximum. */
  lemma ReasonFinishes(step: (Node, Object) -> Move, state: Object, i: int)
    requires ReasonStepRoutes(step) && CountOf(state) == Int(i) && i <= MaxEnrichmentIterations
    requires step(ReasonNode, state).Moved? && step(ReasonNode, state).next == Ok(Finish)
    ensures CountOf(step(ReasonNode, state).after) == Int(MaxEnrichmentIterations)
    ensures StatusOf(step(ReasonNode, state).after) != Str("sufficient")
  {
  }

  /** Once reasoning has answered insufficient on some audit data, a run
      from reasoning on the same data never summarizes, and when it
      completes it has used every round of enrichment and still holds a
      status other than sufficient. */
  lemma {:induction false} InsufficientFromReason(step: (Node, Object) -> Move, s0: Object, state: Object, taken: nat, i: int)
    requires LoopSteps(step) && LoopKeepsData(step) && InsufficientStep(step)
    requires AnsweredInsufficient(step, s0) && SameAuditData(s0, state)
    requires 0 <= i <= MaxEnrichmentIterations && CountOf(state) == Int(i)
    ensures EndsInsufficient(Run(step, ReasonNode, state, taken))
    decreases RoundsLeft(i), 1
  {
    if MovesOn(step, ReasonNode, state, taken) {
      StillInsufficient(step, s0, state);
      ReasonMovesOn(step, state, taken, i);
      InsufficientFromEnrich(step, s0, step(ReasonNode, state).after, taken + 1, i);
      RunPrependsInsufficient(step, ReasonNode, state, taken);
    } else {
      if step(ReasonNode, state).Moved? && step(ReasonNode, state).next == Ok(Finish) {
        StillInsufficient(step, s0, state);
        ReasonFinishes(step, state, i);
      }
      RunStopsInsufficient(step, ReasonNode, state, taken);
    }
  }

  /** The enriching half of the insufficient loop: enrichment keeps the
      audit data, so the next reasoning answers insufficient again. */
  lemma {:induction false} InsufficientFromEnrich(step: (Node, Object) -> Move, s0: Object, state: Object, taken: nat, i: int)
    requires LoopSteps(step) && LoopKeepsData(step) && InsufficientStep(step)
    requires AnsweredInsufficient(step, s0) && SameAuditData(s0, state)
    requires 0 <= i < MaxEnrichmentIterations && CountOf(state) == Int(i) && Truthy(MissingOf(state))
    ensures EndsInsufficient(Run(step, EnrichNode, state, taken))
    decreases RoundsLeft(i), 0
  {
    if MovesOn(step, EnrichNode, state, taken) {
      var m := step(EnrichNode, state);
      EnrichMovesOn(step, state, taken, i);
      assert SameAuditData(m.after, state);
      InsufficientFromReason(step, s0, m.after, taken + 1, i + 1);
      RunPrependsInsufficient(step, EnrichNode, state, taken);
    } else {
      RunStopsInsufficient(step, EnrichNode, state, taken);
    }
  }

  /** From fetching the reference data at count zero, when the reasoning
      that follows answers anything but sufficient, the run ends
      insufficient. */
  lemma InsufficientFromFetchReference(step: (Node, Object) -> Move, state: Object, taken: nat)
    requires PrefixSteps(step) && LoopSteps(step) && LoopKeepsData(step) && InsufficientStep(step)
    requires CountOf(state) == Int(0)
    requires |Run(step, FetchReferenceNode, state, taken).steps| > 1
    requires StatusOf(Run(step, FetchReferenceNode, state, taken).steps[1].after) != Str("sufficient")
    ensures EndsInsufficient(Run(step, FetchReferenceNode, state, taken))
  {
    MovesOnWhenLonger(step, FetchReferenceNode, state, taken);
    var next := step(FetchReferenceNode, state).after;
    RunShifts(step, FetchReferenceNode, state, taken, 1);
    FirstStepRunsAt(step, ReasonNode, next, taken + 1);
    InsufficientFromReason(step, next, next, taken + 1, 0);
    RunPrependsInsufficient(step, FetchReferenceNode, state, taken);
  }

  /** From classifying at count zero, when the reasoning two steps on
      answers anything but sufficient, the run ends insufficient. */
  lemma InsufficientFromClassify(step: (Node, Object) -> Move, state: Object, taken: nat)
    requires PrefixSteps(step) && LoopSteps(step) && LoopKeepsData(step) && InsufficientStep(step)
    requires CountOf(state) == Int(0)
    requires |Run(step, ClassifyNode, state, taken).steps| > 2
    requires StatusOf(Run(step, ClassifyNode, state, taken).steps[2].after) != Str("sufficient")
    ensures EndsInsufficient(Run(step, ClassifyNode, state, taken))
  {
    MovesOnWhenLonger(step, ClassifyNode, state, taken);
    var next := step(ClassifyNode, state).after;
    RunShifts(step, ClassifyNode, state, taken, 2);
    InsufficientFromFetchReference(step, next, taken + 1);
    RunPrependsInsufficient(step, ClassifyNode, state, taken);
  }

  /** The initial fetch, when it succeeds, goes on to classifying with the
      count at zero. */
  lemma InitialMovesOn(step: (Node, Object) -> Move, state: Object)
    requires PrefixSteps(step) && step(FetchInitialNode, state).Moved?
    ensures step(FetchInitialNode, state).next == Ok(Goto(ClassifyNode))
    ensures CountOf(step(FetchInitialNode, state).after) == Int(0)
  {
  }

  /** From the initial fetch, when the reasoning three steps on answers
      anything but sufficient, the run ends insufficient. */
  lemma InsufficientFromStart(step: (Node, Object) -> Move, state: Object, taken: nat)
    requires PrefixSteps(step) && LoopSteps(step) && LoopKeepsData(step) && InsufficientStep(step)
    requires |Run(step, FetchInitialNode, state, taken).steps| > 3
    requires StatusOf(Run(step, FetchInitialNode, state, taken).steps[3].after) != Str("sufficient")
    ensures EndsInsufficient(Run(step, FetchInitialNode, state, taken))
  {
    MovesOnWhenLonger(step, FetchInitialNode, state, taken);
    InitialMovesOn(step, state);
    RunShifts(step, FetchInitialNode, state, taken, 3);
    InsufficientFromClassify(step, step(FetchInitialNode, state).after, taken + 1);
    RunPrependsInsufficient(step, FetchInitialNode, state, taken);
  }

  /** A whole run whose first reasoning, the fourth step, answers anything
      but sufficient never summarizes, and when it completes it has used
      every round of enrichment and still holds a status other than
      sufficient. */
  lemma InsufficientRun(step: (Node, Object) -> Move, state: Object)
    requires PrefixSteps(step) && LoopSteps(step) && LoopKeepsData(step) && InsufficientStep(step)
    requires |Run(step, FetchInitialNode, state, 0).steps| > 3
    requires StatusOf(Run(step, FetchInitialNode, state, 0).steps[3].after) != Str("sufficient")
    ensures Count(Run(step, FetchInitialNode, state, 0).steps, SummarizeNode) == 0
    ensures Run(step, FetchInitialNode, state, 0).outcome == Completed ==>
      && CountOf(Run(step, FetchInitialNode, state, 0).final) == Int(MaxEnrichmentIterations)
      && StatusOf(Run(step, FetchInitialNode, state, 0).final) != Str("sufficient")
  {
    InsufficientFromStart(step, state, 0);
  }

  /** A run whose first reasoning, the fourth step, answers anything but
      sufficient, on supersteps whose enriching raises right after such an
      answer, ends there: after four steps, with enriching raising. */
  lemma FailsAtFirstEnrich(step: (Node, Object) -> Move, state: Object, kind: string)
    requires PrefixSteps(step) && ReasonStepRoutes(step) && EnrichRaisesAfterInsufficient(step, kind)
    requires |Run(step, FetchInitialNode, state, 0).steps| > 3
    requires StatusOf(Run(step, FetchInitialNode, state, 0).steps[3].after) != Str("sufficient")
    ensures |Run(step, FetchInitialNode, state, 0).steps| == 4
    ensures Run(step, FetchInitialNode, state, 0).outcome == Failed(EnrichNode, kind)
  {
    var t0 := Run(step, FetchInitialNode, state, 0);
    MovesOnWhenLonger(step, FetchInitialNode, state, 0);
    RunUnfolds(step, FetchInitialNode, state, 0);
    var s1 := step(FetchInitialNode, state).after;
    var t1 := Run(step, ClassifyNode, s1, 1);
    assert t0.steps[1..] == t1.steps;
    MovesOnWhenLonger(step, ClassifyNode, s1, 1);
    RunUnfolds(step, ClassifyNode, s1, 1);
    var s2 := step(ClassifyNode, s1).after;
    var t2 := Run(step, FetchReferenceNode, s2, 2);
    assert t1.steps[1..] == t2.steps;
    MovesOnWhenLonger(step, FetchReferenceNode, s2, 2);
    RunUnfolds(step, FetchReferenceNode, s2, 2);
    var s3 := step(FetchReferenceNode, s2).after;
    var t3 := Run(step, ReasonNode, s3, 3);
    assert t2.steps[1..] == t3.steps;
    assert t0.steps[3] == t3.steps[0];
    FirstStepRunsAt(step, ReasonNode, s3, 3);
    var m := step(ReasonNode, s3);
    assert CountOf(s3) == Int(0);
    assert m.next == Ok(Goto(EnrichNode));
    RunUnfolds(step, ReasonNode, s3, 3);
    assert step(EnrichNode, m.after) == NodeRaised(kind);
    assert Run(step, EnrichNode, m.after, 4) == Trace([], m.after, Failed(EnrichNode, kind));
  }

  /** A run from the initial fetch summarizes only right after a step that
      left the status sufficient, and enriches only right after one that
      left another status. */
  lemma SummarizesOnlyWhenSufficient(step: (Node, Object) -> Move, state: Object, taken: nat)
    requires KeepsToEdges(step)
    ensures var steps := Run(step, FetchInitialNode, state, taken).steps;
      forall j :: 0 <= j < |steps| && steps[j].node == SummarizeNode ==>
        0 < j && StatusOf(steps[j - 1].after) == Str("sufficient")
    ensures var steps := Run(step, FetchInitialNode, state, taken).steps;
      forall j :: 0 <= j < |steps| && steps[j].node == EnrichNode ==>
        0 < j && StatusOf(steps[j - 1].after) != Str("sufficient")
  {
    RunFollowsEdges(step, FetchInitialNode, state, taken);
    if Run(step, FetchInitialNode, state, taken).steps != [] {
      FirstStepRunsAt(step, FetchInitialNode, state, taken);
    }
  }
}
