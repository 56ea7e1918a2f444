/**
 * The code-review workflow preset: five named nodes run one after another,
 * from extracting function names to the check that decides whether to loop.
 */
module CodeReview {
  import opened Data

  /** The preset's node names, in the order the pipeline visits them. */
  const Pipeline: seq<string> := ["extract", "complexity", "detect", "suggest", "assess_loop"]

  /** Edges that send each name of `ns` to the name after it; the last name has none. */
  function Chain(ns: seq<string>): map<string, string>
    decreases |ns|
  {
    if |ns| < 2 then map[] else Chain(ns[1..])[ns[0] := ns[1]]
  }

  /**
   * The names reached from `node` by following `edges`, `node` first, for at
   * most `fuel` hops or until a name has no outgoing edge.
   */
  function Follow(edges: map<string, string>, node: string, fuel: nat): (path: seq<string>)
    ensures |path| >= 1 && path[0] == node
    decreases fuel
  {
    if fuel > 0 && node in edges then [node] + Follow(edges, edges[node], fuel - 1) else [node]
  }

  /**
   * `build_code_review_graph(threshold)`: the graph definition named
   * "code_review" that starts at "extract" and records the threshold (80
   * unless given) in its "meta".
   */
  function BuildCodeReviewGraph(threshold: int := 80): GraphDef
  {
    GraphDef(
      Some("code_review"),
      Some("extract"),
      ["extract", "complexity", "detect", "suggest", "assess_loop"],
      map["extract" := "complexity", "complexity" := "detect", "detect" := "suggest", "suggest" := "assess_loop"],
      Some(map["threshold" := VInt(threshold)]))
  }

  /**
   * The preset is a straight chain over its node list: it starts at the
   * first node, each node's edge leads to the next one, every edge stays
   * inside the node list, and the last node, "assess_loop", has no edge (so
   * only its returned "next" can continue the run). The threshold is kept in
   * "meta".
   */
  lemma CodeReviewGraphShape(threshold: int)
    ensures var g := BuildCodeReviewGraph(threshold);
      && g.name == Some("code_review")
      && g.nodes == Pipeline
      && g.start == Some(g.nodes[0])
      && g.edges == Chain(g.nodes)
      && (forall n :: n in g.edges ==> n in g.nodes && g.edges[n] in g.nodes)
      && "assess_loop" !in g.edges
      && g.meta == Some(map["threshold" := VInt(threshold)])
  {
    var g := BuildCodeReviewGraph(threshold);
    assert Chain(Pipeline[4..]) == map[];
    assert Chain(Pipeline[3..]) == map["suggest" := "assess_loop"] by {
      assert Pipeline[3..][1..] == Pipeline[4..];
    }
    assert Chain(Pipeline[2..]) == map["suggest" := "assess_loop", "detect" := "suggest"] by {
      assert Pipeline[2..][1..] == Pipeline[3..];
    }
    assert Chain(Pipeline[1..]) == map["suggest" := "assess_loop", "detect" := "suggest", "complexity" := "detect"] by {
      assert Pipeline[1..][1..] == Pipeline[2..];
    }
    assert Chain(Pipeline) == Chain(Pipeline[1..])["extract" := "complexity"];
  }

  /** The preset's node names are distinct, so each node is visited by name exactly once per pass. */
  lemma PipelineDistinct()
    ensures forall i, j :: 0 <= i < j < |Pipeline| ==> Pipeline[i] != Pipeline[j]
  {
  }

  /** Following the preset's edges from its start visits every node once, in list order, and stops. */
  lemma CodeReviewPath(threshold: int, fuel: nat)
    requires fuel >= 4
    ensures var g := BuildCodeReviewGraph(threshold);
      Follow(g.edges, g.start.value, fuel) == g.nodes
  {
    var edges := BuildCodeReviewGraph(threshold).edges;
    assert Follow(edges, "assess_loop", fuel - 4) == ["assess_loop"];
    assert Follow(edges, "suggest", fuel - 3) == ["suggest", "assess_loop"];
    assert Follow(edges, "detect", fuel - 2) == ["detect", "suggest", "assess_loop"];
    assert Follow(edges, "complexity", fuel - 1) == ["complexity", "detect", "suggest", "assess_loop"];
  }
}
