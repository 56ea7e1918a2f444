/**
 * The application layer around the engine: the `assess_loop` node that
 * decides whether the code-review run goes round again, the engine with the
 * five code-review nodes registered, and the graph definition that the
 * "create graph" endpoint builds from a request.
 */
module App {
  import opened Data
  import opened Tools
  import opened CodeReview
  import opened Engine

  /** The quality score below which `assess_loop` sends the run back to "complexity". */
  const Threshold: int := 80

  /** `state.get("quality_score", 0)` as the `<` comparison sees it; None when the comparison raises. */
  function Quality(state: State): Option<int>
  {
    AsInt(Get(state, "quality_score", VInt(0)))
  }

  /** `state.get("issues_count", 0)` as the subtraction sees it; None when it raises. */
  function IssuesCount(state: State): Option<int>
  {
    AsInt(Get(state, "issues_count", VInt(0)))
  }

  /** The envelope `assess_loop` returns to go round again with `count` issues left. */
  function LoopBack(count: int): Value
  {
    VMap(map["state" := VMap(map["issues_count" := VInt(count)]), "next" := VStr("complexity")])
  }

  /**
   * `assess_loop`: below the threshold it pretends one issue was fixed and
   * sends the run back to "complexity"; otherwise it returns an empty update,
   * so the run follows the (missing) edge out of "assess_loop" and ends.
   */
  function AssessLoop(state: State): (r: Outcome)
    ensures r.Raised? <==> Quality(state).None? || (Quality(state).value < Threshold && IssuesCount(state).None?)
    ensures r.Returned? && Quality(state).value >= Threshold ==> r.value == VMap(map[])
    ensures r.Returned? && Quality(state).value < Threshold ==>
      r.value == LoopBack(Max(0, IssuesCount(state).value - 1))
  {
    var quality := Get(state, "quality_score", VInt(0));
    match AsInt(quality)
    case None => Raised("'<' not supported between instances of '" + TypeName(quality) + "' and 'int'")
    case Some(q) =>
      if q < Threshold then
        var count := Get(state, "issues_count", VInt(0));
        match AsInt(count)
        case None => Raised("unsupported operand type(s) for -: '" + TypeName(count) + "' and 'int'")
        case Some(c) => Returned(LoopBack(Max(0, c - 1)))
      else Returned(VMap(map[]))
  }

  /**
   * What the engine makes of `assess_loop`'s answer: below the threshold the
   * issue count drops by one (never below zero), every other entry of the
   * state stays, and "complexity" is the explicit next node; at or above the
   * threshold the state is untouched and no next node is named.
   */
  lemma AssessLoopMerged(state: State)
    requires AssessLoop(state).Returned?
    ensures var m := Absorb(state, AssessLoop(state).value);
      && m.1.Proceed?
      && (Quality(state).value < Threshold ==>
            && m.0 == state["issues_count" := VInt(Max(0, IssuesCount(state).value - 1))]
            && m.1.next == VStr("complexity"))
      && (Quality(state).value >= Threshold ==> m.0 == state && m.1.next == VNone)
  {
    var out := AssessLoop(state).value;
    AbsorbCases(state, out);
    if Quality(state).value < Threshold {
      var c := VInt(Max(0, IssuesCount(state).value - 1));
      assert out.entries["state"] == VMap(map["issues_count" := c]);
      assert Update(state, map["issues_count" := c]) == state["issues_count" := c];
    } else {
      assert Update(state, map[]) == state;
    }
  }

  /** A state without a quality score counts as scoring 0, so `assess_loop` sends the run round again. */
  lemma MissingScoreLoops(state: State)
    requires "quality_score" !in state && IssuesCount(state).Some?
    ensures AssessLoop(state) == Returned(LoopBack(Max(0, IssuesCount(state).value - 1)))
  {
  }

  /** Going round again never raises the issue count, and lowers a positive one. */
  lemma AssessLoopCountDrops(state: State)
    requires AssessLoop(state).Returned? && Quality(state).value < Threshold
    ensures var c := IssuesCount(state).value;
      var next := AssessLoop(state).value.entries["state"].entries["issues_count"].i;
      && 0 <= next
      && (c > 0 ==> next == c - 1)
      && (c <= 0 ==> next == 0)
  {
  }

  /** The node registry `main.py` builds: the four tools and `assess_loop`. */
  function AppRegistry(): map<string, Node>
  {
    map["extract" := ExtractFunctions, "complexity" := CheckComplexity, "detect" := DetectIssues,
        "suggest" := SuggestImprovements, "assess_loop" := AssessLoop]
  }

  /**
   * The application's engine: a new engine with the code-review nodes
   * registered under the names the preset graph uses.
   */
  method SetUpEngine() returns (engine: GraphEngine)
    ensures fresh(engine)
    ensures engine.nodeRegistry == AppRegistry() && engine.graphs == map[] && engine.runs == map[]
    ensures forall n :: n in Pipeline ==> n in engine.nodeRegistry
  {
    engine := new GraphEngine();
    engine.RegisterNode("extract", ExtractFunctions);
    engine.RegisterNode("complexity", CheckComplexity);
    engine.RegisterNode("detect", DetectIssues);
    engine.RegisterNode("suggest", SuggestImprovements);
    engine.RegisterNode("assess_loop", AssessLoop);
  }

  /**
   * The body of a "create graph" request: an optional preset name, the keys
   * of the optional "nodes" dictionary in insertion order, and the optional
   * "edges" dictionary.
   */
  datatype CreateGraphRequest = CreateGraphRequest(
    preset: Option<string>,
    nodes: Option<seq<string>>,
    edges: Option<map<string, string>>)

  /** The detail of the 400 answer to a request that names neither a preset nor a graph. */
  const MissingGraph: string := "Provide 'preset' or both 'nodes' and 'edges'"

  /**
   * The definition the endpoint stores: the code-review preset (built with
   * its default threshold) when asked for, otherwise the given nodes and edges
   * starting at the first node; an error when nodes or edges are missing or
   * empty.
   */
  function GraphDefinition(req: CreateGraphRequest): Result<GraphDef>
  {
    if req.preset == Some("code_review") then Ok(BuildCodeReviewGraph())
    else if req.nodes.None? || req.nodes.value == [] || req.edges.None? || req.edges.value == map[] then Err(MissingGraph)
    else Ok(GraphDef(None, Some(req.nodes.value[0]), req.nodes.value, req.edges.value, None))
  }

  /**
   * The preset wins over anything else in the request, and its recorded
   * threshold is the one `assess_loop` has built in; without it a request
   * is refused exactly when its nodes or edges are missing or empty; and an
   * accepted definition always has a start node that is one of its nodes,
   * the first one.
   */
  lemma GraphDefinitionFacts(req: CreateGraphRequest)
    ensures var r := GraphDefinition(req);
      && (req.preset == Some("code_review") ==>
            r == Ok(BuildCodeReviewGraph()) && r.value.meta == Some(map["threshold" := VInt(Threshold)]))
      && (r.Err? <==>
            req.preset != Some("code_review")
            && (req.nodes.None? || req.nodes.value == [] || req.edges.None? || req.edges.value == map[]))
      && (r.Err? ==> r.error == MissingGraph)
      && (r.Ok? ==> r.value.start.Some? && r.value.nodes != [] && r.value.start.value == r.value.nodes[0])
      && (r.Ok? && req.preset != Some("code_review") ==>
            r.value.nodes == req.nodes.value && r.value.edges == req.edges.value && r.value.meta.None?)
  {
    CodeReviewGraphShape(80);
  }

  /**
   * The "create graph" endpoint: stores the definition under a new id and
   * answers with that id, or answers with the 400 detail and stores nothing.
   * `freshId` stands for the generated uuid.
   */
  method CreateGraphEndpoint(engine: GraphEngine, req: CreateGraphRequest, freshId: string) returns (r: Result<string>)
    requires freshId !in engine.graphs
    modifies engine
    ensures GraphDefinition(req).Err? ==> r == Err(GraphDefinition(req).error) && engine.graphs == old(engine.graphs)
    ensures GraphDefinition(req).Ok? ==>
      r == Ok(freshId) && engine.graphs == old(engine.graphs)[freshId := GraphDefinition(req).value]
    ensures engine.runs == old(engine.runs) && engine.nodeRegistry == old(engine.nodeRegistry)
  {
    match GraphDefinition(req)
    case Err(detail) =>
      r := Err(detail);
    case Ok(def) =>
      var graphId := engine.CreateGraph(def, freshId);
      r := Ok(graphId);
  }
}
