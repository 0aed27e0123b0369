/**
  The static state-key wiring of the loop and nested demos. An agent tree is
  configuration data here: each model-backed agent declares the state keys its
  instruction references through `{key}` placeholders and the key its output
  is stored under. How the runner schedules the tree is not modelled; only the
  agreement between the seeded state and the keys the tree reads and writes is.
 */
module Wiring {
  import opened Values

  datatype AgentNode =
    | Leaf(name: string, placeholders: set<string>, outputKey: Option<string>, tools: seq<string>)
    | Sequential(name: string, subAgents: seq<AgentNode>)
    | Parallel(name: string, subAgents: seq<AgentNode>)
    | Loop(name: string, subAgents: seq<AgentNode>, maxIterations: nat)

  /** Every state key referenced by a placeholder in some instruction of the tree. */
  function ReferencedKeys(a: AgentNode): set<string>
    decreases a, 1
  {
    match a
    case Leaf(_, placeholders, _, _) => placeholders
    case Sequential(_, cs) => ReferencedKeysOf(cs)
    case Parallel(_, cs) => ReferencedKeysOf(cs)
    case Loop(_, cs, _) => ReferencedKeysOf(cs)
  }

  function ReferencedKeysOf(cs: seq<AgentNode>): (keys: set<string>)
    decreases cs, 0
  {
    if |cs| == 0 then {} else ReferencedKeys(cs[0]) + ReferencedKeysOf(cs[1..])
  }

  /** Every `output_key` in the tree. */
  function WrittenKeys(a: AgentNode): set<string>
    decreases a, 1
  {
    match a
    case Leaf(_, _, out, _) => if out.Some? then {out.value} else {}
    case Sequential(_, cs) => WrittenKeysOf(cs)
    case Parallel(_, cs) => WrittenKeysOf(cs)
    case Loop(_, cs, _) => WrittenKeysOf(cs)
  }

  function WrittenKeysOf(cs: seq<AgentNode>): (keys: set<string>)
    decreases cs, 0
  {
    if |cs| == 0 then {} else WrittenKeys(cs[0]) + WrittenKeysOf(cs[1..])
  }

  /** The seeded state holds a value for every key the tree references or writes. */
  predicate SeedCovers(seed: Dict, a: AgentNode) {
    ReferencedKeys(a) <= seed.Keys && WrittenKeys(a) <= seed.Keys
  }

  /** The branches of a parallel node write pairwise-disjoint keys. */
  predicate BranchesWriteDistinct(a: AgentNode) {
    a.Parallel? ==>
      forall i, j | 0 <= i < j < |a.subAgents| :: WrittenKeys(a.subAgents[i]) !! WrittenKeys(a.subAgents[j])
  }

  /** A seed that covers every agent of a list covers everything the list references or writes. */
  lemma {:induction false} CoverAll(seed: Dict, cs: seq<AgentNode>)
    requires forall c | c in cs :: SeedCovers(seed, c)
    ensures ReferencedKeysOf(cs) <= seed.Keys && WrittenKeysOf(cs) <= seed.Keys
  {
    if |cs| > 0 {
      assert SeedCovers(seed, cs[0]);
      CoverAll(seed, cs[1..]);
    }
  }

  /** A seed that covers every child of a composite covers the composite. */
  lemma CoverComposite(seed: Dict, a: AgentNode)
    requires !a.Leaf?
    requires forall c | c in a.subAgents :: SeedCovers(seed, c)
    ensures SeedCovers(seed, a)
  {
    CoverAll(seed, a.subAgents);
  }

  // ----- loop_agent_01: initial generator, then a critic/refiner loop -----

  const SqlTask := "sql_task"
  const CurrentSql := "current_sql"
  const Criticism := "criticism"
  const ExitLoopTool := "exit_loop"

  const LoopInitialGenerator := Leaf("InitialSQLGenerator", {SqlTask}, Some(CurrentSql), [])
  const LoopCritic := Leaf("SQLCritic", {SqlTask, CurrentSql}, Some(Criticism), [])
  const LoopRefiner := Leaf("SQLRefiner", {SqlTask, CurrentSql, Criticism}, Some(CurrentSql), [ExitLoopTool])
  const LoopValidation := Loop("SQLValidationLoop", [LoopCritic, LoopRefiner], 6)
  const LoopPipeline := Sequential("SQLIterativePipeline", [LoopInitialGenerator, LoopValidation])

  /** The state the loop demo seeds, for a given task text. */
  function LoopSeed(task: string): Dict {
    map[SqlTask := Str(task), CurrentSql := Str(""), Criticism := Str("")]
  }

  /** The loop demo's seed covers every placeholder and every output key of its pipeline. */
  lemma LoopSeedCoversPipeline(task: string)
    ensures SeedCovers(LoopSeed(task), LoopPipeline)
  {
    var seed := LoopSeed(task);
    assert SeedCovers(seed, LoopInitialGenerator);
    assert SeedCovers(seed, LoopCritic);
    assert SeedCovers(seed, LoopRefiner);
    CoverComposite(seed, LoopValidation);
    CoverComposite(seed, LoopPipeline);
  }

  // ----- nested_agent: parallel analysis, generator, critic/refiner loop, final responder -----

  const UserTask := "user_sql_task"
  const SchemaAssumptions := "schema_assumptions"
  const EdgeCases := "edge_cases"
  const QueryPlanNotes := "query_plan_notes"
  const FinalResponse := "final_response"

  const SchemaAssessor := Leaf("SchemaAssessor", {UserTask}, Some(SchemaAssumptions), [])
  const EdgeCaseFinder := Leaf("EdgeCaseFinder", {UserTask}, Some(EdgeCases), [])
  const PerformanceAnalyst := Leaf("PerformanceAnalyst", {UserTask}, Some(QueryPlanNotes), [])
  const AnalysisSwarm := Parallel("AnalysisSwarm", [SchemaAssessor, EdgeCaseFinder, PerformanceAnalyst])

  const NestedGenerator := Leaf("InitialSQLGenerator",
    {UserTask, SchemaAssumptions, EdgeCases, QueryPlanNotes}, Some(CurrentSql), [])
  const NestedCritic := Leaf("SQLCritic",
    {UserTask, SchemaAssumptions, EdgeCases, QueryPlanNotes, CurrentSql}, Some(Criticism), [])
  const NestedRefiner := Leaf("SQLRefiner", {UserTask, CurrentSql, Criticism}, Some(CurrentSql), [ExitLoopTool])
  const NestedValidation := Loop("SQLValidationLoop", [NestedCritic, NestedRefiner], 6)
  const FinalResponder := Leaf("FinalResponder", {CurrentSql}, Some(FinalResponse), [])
  const NestedPipeline := Sequential("NestedOrchestrationSQLPipeline",
    [AnalysisSwarm, NestedGenerator, NestedValidation, FinalResponder])

  /** The state the nested demo seeds, for a given task text. */
  function NestedSeed(task: string): Dict {
    map[UserTask := Str(task), SchemaAssumptions := Str(""), EdgeCases := Str(""), QueryPlanNotes := Str(""),
        CurrentSql := Str(""), Criticism := Str(""), FinalResponse := Str("")]
  }

  /** The nested demo's seed covers every placeholder and every output key of its pipeline. */
  lemma NestedSeedCoversPipeline(task: string)
    ensures SeedCovers(NestedSeed(task), NestedPipeline)
  {
    var seed := NestedSeed(task);
    assert SeedCovers(seed, SchemaAssessor);
    assert SeedCovers(seed, EdgeCaseFinder);
    assert SeedCovers(seed, PerformanceAnalyst);
    CoverComposite(seed, AnalysisSwarm);
    assert SeedCovers(seed, NestedGenerator);
    assert SeedCovers(seed, NestedCritic);
    assert SeedCovers(seed, NestedRefiner);
    CoverComposite(seed, NestedValidation);
    assert SeedCovers(seed, FinalResponder);
    CoverComposite(seed, NestedPipeline);
  }

  /** The keys the analysis branches write, one per branch. */
  lemma AnalysisWrites()
    ensures WrittenKeys(SchemaAssessor) == {SchemaAssumptions}
    ensures WrittenKeys(EdgeCaseFinder) == {EdgeCases}
    ensures WrittenKeys(PerformanceAnalyst) == {QueryPlanNotes}
    ensures WrittenKeys(AnalysisSwarm) == {SchemaAssumptions, EdgeCases, QueryPlanNotes}
  {
    var cs := AnalysisSwarm.subAgents;
    assert cs[1..][1..][1..] == [];
    assert WrittenKeysOf(cs[1..][1..]) == {QueryPlanNotes};
    assert WrittenKeysOf(cs[1..]) == {EdgeCases, QueryPlanNotes};
    assert WrittenKeysOf(cs) == {SchemaAssumptions, EdgeCases, QueryPlanNotes};
  }

  /** The three analysis branches write pairwise-distinct keys. */
  lemma AnalysisBranchesDistinct()
    ensures BranchesWriteDistinct(AnalysisSwarm)
  {
  }

  /** Every key the analysis branches write is read by both the generator and the critic downstream. */
  lemma AnalysisFeedsGeneratorAndCritic()
    ensures WrittenKeys(AnalysisSwarm) <= ReferencedKeys(NestedGenerator)
    ensures WrittenKeys(AnalysisSwarm) <= ReferencedKeys(NestedCritic)
  {
    AnalysisWrites();
  }
}
