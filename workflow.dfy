/**
 * The code-review preset run end to end on the application's engine: with at
 * most two issues in the code the run completes after one pass through the
 * five nodes; with three or more it goes round the "complexity" to
 * "assess_loop" cycle for ever, because "detect" recounts the unchanged code
 * after every pretended fix.
 */
module Workflow {
  import opened Data
  import opened Tools
  import opened CodeReview
  import opened Engine
  import opened App

  /** The edges of the code-review preset. */
  function PresetEdges(): map<string, string>
  {
    BuildCodeReviewGraph().edges
  }

  /** The state holds text `code` and a "functions" entry that can be iterated for dictionary keys. */
  predicate Ready(s: State, code: string)
  {
    CodeText(s) == Some(code) && FunctionKeys(Get(s, "functions", VList([]))).Some?
  }

  /** `r` is `c` after a call of `name` that went through and moved on to `next`. */
  predicate Advanced(c: Config, r: Config, name: string, next: Value)
  {
    && r.status == Running && r.current == next
    && r.log == c.log + [RunningLine(name)] && r.pushed == c.pushed + [RunningLine(name)]
    && r.lastNode == Some(VStr(name)) && r.steps == c.steps + 1
  }

  /** A merge that writes neither "code" nor "functions" keeps the state ready. */
  lemma ReadyKept(s: State, u: State, code: string)
    requires Ready(s, code) && "code" !in u && "functions" !in u
    ensures Ready(Update(s, u), code)
  {
    assert Get(Update(s, u), "functions", VList([])) == Get(s, "functions", VList([]));
    assert Get(Update(s, u), "code", VStr("")) == Get(s, "code", VStr(""));
  }

  /** A state holding text `code` is ready once "extract" has recorded a list of names. */
  lemma ReadyWithFunctions(s: State, code: string, names: seq<string>)
    requires CodeText(s) == Some(code)
    ensures Ready(Update(s, map["functions" := StrList(names)]), code)
  {
    var t := Update(s, map["functions" := StrList(names)]);
    assert Get(t, "functions", VList([])) == StrList(names);
    assert Get(t, "code", VStr("")) == Get(s, "code", VStr(""));
  }

  /** "extract" on text code returns the names it finds as a flat update, which leaves the state ready. */
  lemma ExtractState(s: State, code: string) returns (u: State)
    requires CodeText(s) == Some(code)
    ensures ExtractFunctions(s) == Returned(VMap(u)) && "state" !in u && "next" !in u
    ensures Ready(Update(s, u), code)
  {
    u := map["functions" := StrList(FunctionNames(code))];
    ReadyWithFunctions(s, code, FunctionNames(code));
  }

  /** "complexity" on a ready state goes through, writes only "complexities", and leaves the state ready. */
  lemma ComplexityState(s: State, code: string) returns (u: State)
    requires Ready(s, code)
    ensures CheckComplexity(s) == Returned(VMap(u)) && "state" !in u && "next" !in u
    ensures Ready(Update(s, u), code)
  {
    assert NewlineCount(Get(s, "code", VStr(""))).Some?;
    u := CheckComplexity(s).value.entries;
    assert u.Keys == {"complexities"};
    ReadyKept(s, u, code);
  }

  /** "detect" on a ready state records the issues of the code and their count. */
  lemma DetectState(s: State, code: string) returns (u: State)
    requires Ready(s, code)
    ensures DetectIssues(s) == Returned(VMap(u)) && "state" !in u && "next" !in u
    ensures var t := Update(s, u);
      && Ready(t, code)
      && Get(t, "issues", VNone) == IssueList(CodeIssues(code))
      && Get(t, "issues_count", VNone) == VInt(|CodeIssues(code)|)
  {
    u := map["issues" := IssueList(CodeIssues(code)), "issues_count" := VInt(|CodeIssues(code)|)];
    ReadyKept(s, u, code);
  }

  /**
   * "suggest" on the issues "detect" recorded goes through and writes only
   * "suggestions", one per issue in order, and the score.
   */
  lemma SuggestOut(s: State, code: string)
    requires Get(s, "issues", VNone) == IssueList(CodeIssues(code))
    requires Get(s, "issues_count", VNone) == VInt(|CodeIssues(code)|)
    ensures SuggestImprovements(s) == Returned(VMap(SuggestWrites(CodeIssues(code))))
  {
    SuggestOnIssues(s, CodeIssues(code));
  }

  /** What "suggest" writes for the issues `issues`: their suggestions in order and their score. */
  function SuggestWrites(issues: seq<Issue>): (u: State)
    ensures u.Keys == {"suggestions", "quality_score"}
    ensures u["suggestions"] == VList(seq(|issues|, k requires 0 <= k < |issues| => IssueSuggestion(issues[k])))
    ensures u["quality_score"] == VInt(QualityScore(|issues|))
  {
    map["suggestions" := VList(seq(|issues|, k requires 0 <= k < |issues| => IssueSuggestion(issues[k]))),
        "quality_score" := VInt(QualityScore(|issues|))]
  }

  /** "suggest" on the issues "detect" recorded records the quality score and keeps the rest. */
  lemma SuggestState(s: State, code: string) returns (u: State)
    requires Ready(s, code)
    requires Get(s, "issues", VNone) == IssueList(CodeIssues(code))
    requires Get(s, "issues_count", VNone) == VInt(|CodeIssues(code)|)
    ensures SuggestImprovements(s) == Returned(VMap(u)) && "state" !in u && "next" !in u
    ensures var t := Update(s, u);
      && Ready(t, code)
      && Get(t, "issues", VNone) == IssueList(CodeIssues(code))
      && Get(t, "issues_count", VNone) == VInt(|CodeIssues(code)|)
      && Get(t, "quality_score", VNone) == VInt(QualityScore(|CodeIssues(code)|))
  {
    SuggestOut(s, code);
    u := SuggestWrites(CodeIssues(code));
    SuggestKeeps(s, code, CodeIssues(code));
  }

  /** Merging what "suggest" writes for `issues` keeps the text, the names and the issues. */
  lemma SuggestKeeps(s: State, code: string, issues: seq<Issue>)
    requires Ready(s, code)
    requires Get(s, "issues", VNone) == IssueList(issues)
    requires Get(s, "issues_count", VNone) == VInt(|issues|)
    ensures var t := Update(s, SuggestWrites(issues));
      && Ready(t, code)
      && Get(t, "issues", VNone) == IssueList(issues)
      && Get(t, "issues_count", VNone) == VInt(|issues|)
      && Get(t, "quality_score", VNone) == VInt(QualityScore(|issues|))
  {
    var u := SuggestWrites(issues);
    ReadyKept(s, u, code);
    var t := Update(s, u);
    assert Get(t, "issues", VNone) == Get(s, "issues", VNone);
    assert Get(t, "issues_count", VNone) == Get(s, "issues_count", VNone);
  }

  /**
   * "assess_loop" on a scored state: below the threshold the merge lowers
   * the count and names "complexity"; otherwise the state stays and no node
   * is named.
   */
  lemma AssessState(s: State, code: string, n: nat) returns (out: Value, t: State, next: Value)
    requires Ready(s, code)
    requires Get(s, "issues_count", VNone) == VInt(n)
    requires Get(s, "quality_score", VNone) == VInt(QualityScore(n))
    ensures AssessLoop(s) == Returned(out) && Absorb(s, out) == (t, Proceed(next))
    ensures n > 2 ==> next == VStr("complexity") && Ready(t, code)
    ensures n <= 2 ==> next == VNone && t == s
  {
    assert Quality(s) == Some(QualityScore(n));
    assert IssuesCount(s) == Some(n);
    out := AssessLoop(s).value;
    AssessLoopMerged(s);
    t := Absorb(s, out).0;
    next := Absorb(s, out).1.next;
    if n > 2 {
      ReadyKept(s, map["issues_count" := VInt(Max(0, n - 1))], code);
      assert t == Update(s, map["issues_count" := VInt(Max(0, n - 1))]);
    }
  }

  /** "extract" records the function names, keeps the code, and hands over to "complexity". */
  lemma ExtractRun(c: Config, code: string, fuel: nat) returns (r: Config)
    requires c.status == Running && c.current == VStr("extract") && CodeText(c.state) == Some(code) && fuel > 0
    ensures Exec(AppRegistry(), PresetEdges(), c, fuel) == Exec(AppRegistry(), PresetEdges(), r, fuel - 1)
    ensures Advanced(c, r, "extract", VStr("complexity")) && Ready(r.state, code)
  {
    var u := ExtractState(c.state, code);
    r := FlatRun(AppRegistry(), PresetEdges(), c, fuel, "extract", u);
  }

  /** "complexity" goes through on a ready state and hands over to "detect". */
  lemma ComplexityRun(c: Config, code: string, fuel: nat) returns (r: Config)
    requires c.status == Running && c.current == VStr("complexity") && Ready(c.state, code) && fuel > 0
    ensures Exec(AppRegistry(), PresetEdges(), c, fuel) == Exec(AppRegistry(), PresetEdges(), r, fuel - 1)
    ensures Advanced(c, r, "complexity", VStr("detect")) && Ready(r.state, code)
  {
    var u := ComplexityState(c.state, code);
    r := FlatRun(AppRegistry(), PresetEdges(), c, fuel, "complexity", u);
  }

  /** "detect" records the issues of the code and their count, and hands over to "suggest". */
  lemma DetectRun(c: Config, code: string, fuel: nat) returns (r: Config)
    requires c.status == Running && c.current == VStr("detect") && Ready(c.state, code) && fuel > 0
    ensures Exec(AppRegistry(), PresetEdges(), c, fuel) == Exec(AppRegistry(), PresetEdges(), r, fuel - 1)
    ensures Advanced(c, r, "detect", VStr("suggest")) && Ready(r.state, code)
    ensures Get(r.state, "issues", VNone) == IssueList(CodeIssues(code))
    ensures Get(r.state, "issues_count", VNone) == VInt(|CodeIssues(code)|)
  {
    var u := DetectState(c.state, code);
    r := FlatRun(AppRegistry(), PresetEdges(), c, fuel, "detect", u);
  }

  /** "suggest" scores the recorded issues and hands over to "assess_loop". */
  lemma SuggestRun(c: Config, code: string, fuel: nat) returns (r: Config)
    requires c.status == Running && c.current == VStr("suggest") && Ready(c.state, code) && fuel > 0
    requires Get(c.state, "issues", VNone) == IssueList(CodeIssues(code))
    requires Get(c.state, "issues_count", VNone) == VInt(|CodeIssues(code)|)
    ensures Exec(AppRegistry(), PresetEdges(), c, fuel) == Exec(AppRegistry(), PresetEdges(), r, fuel - 1)
    ensures Advanced(c, r, "suggest", VStr("assess_loop")) && Ready(r.state, code)
    ensures Get(r.state, "issues", VNone) == IssueList(CodeIssues(code))
    ensures Get(r.state, "issues_count", VNone) == VInt(|CodeIssues(code)|)
    ensures Get(r.state, "quality_score", VNone) == VInt(QualityScore(|CodeIssues(code)|))
  {
    var u := SuggestState(c.state, code);
    r := FlatRun(AppRegistry(), PresetEdges(), c, fuel, "suggest", u);
  }

  /**
   * "assess_loop" below the threshold sends the run back to "complexity";
   * otherwise the run has no next node and the state is left as it is.
   */
  lemma AssessRun(c: Config, code: string, n: nat, fuel: nat) returns (r: Config)
    requires c.status == Running && c.current == VStr("assess_loop") && Ready(c.state, code) && fuel > 0
    requires Get(c.state, "issues_count", VNone) == VInt(n)
    requires Get(c.state, "quality_score", VNone) == VInt(QualityScore(n))
    ensures Exec(AppRegistry(), PresetEdges(), c, fuel) == Exec(AppRegistry(), PresetEdges(), r, fuel - 1)
    ensures n > 2 ==> Advanced(c, r, "assess_loop", VStr("complexity")) && Ready(r.state, code)
    ensures n <= 2 ==> Advanced(c, r, "assess_loop", VNone) && r.state == c.state
  {
    var out, t, next := AssessState(c.state, code, n);
    r := ProceedRun(AppRegistry(), PresetEdges(), c, fuel, "assess_loop", out, t, next);
  }

  /** The log of one pass through the preset: a "[RUNNING]" line per node, in pipeline order. */
  function PassLog(): seq<string>
  {
    [RunningLine("extract"), RunningLine("complexity"), RunningLine("detect"), RunningLine("suggest"),
     RunningLine("assess_loop")]
  }

  /**
   * On code with at most two issues, the preset run on the application's
   * engine completes after exactly one pass through the five nodes: the log
   * is one "[RUNNING]" line per node, every line is streamed, "assess_loop"
   * was the last node entered, and the state records the issues, their count
   * and a quality score of at least 80.
   */
  lemma FewIssuesComplete(initial: State, code: string, fuel: nat)
    requires CodeText(initial) == Some(code) && |CodeIssues(code)| <= 2 && fuel >= 5
    ensures var r := Launch(AppRegistry(), BuildCodeReviewGraph(), initial, fuel);
      && r.status == Completed
      && r.log == PassLog() && r.pushed == r.log && r.steps == 5
      && r.lastNode == Some(VStr("assess_loop"))
      && CodeText(r.state) == Some(code)
      && Get(r.state, "issues", VNone) == IssueList(CodeIssues(code))
      && Get(r.state, "issues_count", VNone) == VInt(|CodeIssues(code)|)
      && Get(r.state, "quality_score", VNone) == VInt(QualityScore(|CodeIssues(code)|))
      && QualityScore(|CodeIssues(code)|) >= Threshold
  {
    var n := |CodeIssues(code)|;
    var c0 := Initial(initial, "extract");
    var c1 := ExtractRun(c0, code, fuel);
    var c2 := ComplexityRun(c1, code, fuel - 1);
    var c3 := DetectRun(c2, code, fuel - 2);
    var c4 := SuggestRun(c3, code, fuel - 3);
    var c5 := AssessRun(c4, code, n, fuel - 4);
    assert Exec(AppRegistry(), PresetEdges(), c5, fuel - 5) == c5.(status := Completed);
    assert [] + [RunningLine("extract")] + [RunningLine("complexity")] + [RunningLine("detect")]
      + [RunningLine("suggest")] + [RunningLine("assess_loop")] == PassLog();
  }

  /** A run at "complexity" on ready code, as the loop reaches it after every pass with too many issues. */
  predicate AtComplexity(c: Config, code: string)
  {
    c.status == Running && c.current == VStr("complexity") && Ready(c.state, code)
  }

  /** With three or more issues, one pass from "complexity" through "assess_loop" comes back to "complexity". */
  lemma CycleOnce(c: Config, code: string, fuel: nat) returns (r: Config)
    requires AtComplexity(c, code) && |CodeIssues(code)| >= 3 && fuel >= 4
    ensures AtComplexity(r, code)
    ensures Exec(AppRegistry(), PresetEdges(), c, fuel) == Exec(AppRegistry(), PresetEdges(), r, fuel - 4)
  {
    var c1 := ComplexityRun(c, code, fuel);
    var c2 := DetectRun(c1, code, fuel - 1);
    var c3 := SuggestRun(c2, code, fuel - 2);
    r := AssessRun(c3, code, |CodeIssues(code)|, fuel - 3);
  }

  /** Fuel that runs out inside a pass from "complexity" leaves the run running. */
  lemma CycleCut(c: Config, code: string, fuel: nat)
    requires AtComplexity(c, code) && |CodeIssues(code)| >= 3 && fuel < 4
    ensures Exec(AppRegistry(), PresetEdges(), c, fuel).status == Running
  {
    if fuel > 0 {
      var c1 := ComplexityRun(c, code, fuel);
      if fuel > 1 {
        var c2 := DetectRun(c1, code, fuel - 1);
        if fuel > 2 {
          var c3 := SuggestRun(c2, code, fuel - 2);
          Paused(AppRegistry(), PresetEdges(), c3);
        } else {
          Paused(AppRegistry(), PresetEdges(), c2);
        }
      } else {
        Paused(AppRegistry(), PresetEdges(), c1);
      }
    } else {
      Paused(AppRegistry(), PresetEdges(), c);
    }
  }

  /**
   * From "complexity" on ready code with three or more issues the run never
   * ends: "detect" recounts the same issues, the score stays below the
   * threshold, and "assess_loop" sends the run back to "complexity" every
   * time, however much fuel the loop is given.
   */
  lemma {:induction false} CycleRuns(c: Config, code: string, fuel: nat)
    requires AtComplexity(c, code) && |CodeIssues(code)| >= 3
    ensures Exec(AppRegistry(), PresetEdges(), c, fuel).status == Running
    decreases fuel
  {
    if fuel < 4 {
      CycleCut(c, code, fuel);
    } else {
      var r := CycleOnce(c, code, fuel);
      CycleRuns(r, code, fuel - 4);
    }
  }

  /**
   * On code with three or more issues the preset run never completes or
   * fails: it is still running whatever the fuel, so `run_graph` never
   * returns.
   */
  lemma ManyIssuesNeverEnd(initial: State, code: string, fuel: nat)
    requires CodeText(initial) == Some(code) && |CodeIssues(code)| >= 3
    ensures Launch(AppRegistry(), BuildCodeReviewGraph(), initial, fuel).status == Running
  {
    var c0 := Initial(initial, "extract");
    if fuel > 0 {
      var c1 := ExtractRun(c0, code, fuel);
      CycleRuns(c1, code, fuel - 1);
    } else {
      Paused(AppRegistry(), PresetEdges(), c0);
    }
  }

  /**
   * The threshold recorded in the preset's "meta" plays no part in a run:
   * presets built with any two thresholds run identically, because the loop
   * reads only the start node and the edges and `assess_loop` compares with
   * its own constant.
   */
  lemma MetaThresholdUnused(reg: map<string, Node>, t1: int, t2: int, initial: State, fuel: nat)
    ensures Launch(reg, BuildCodeReviewGraph(t1), initial, fuel) == Launch(reg, BuildCodeReviewGraph(t2), initial, fuel)
  {
  }
}
