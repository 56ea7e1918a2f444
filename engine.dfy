/**
 * The workflow engine: a registry of node functions, stored graph
 * definitions and runs. Running a graph walks from the start node, calls each
 * node on the run's state, merges what it returns into the state, and follows
 * either the node's explicit "next" or the graph's edges until there is no
 * current node (completed) or something raises (failed).
 *
 * The meaning of a run is given by pure functions (Invoke, Step, Exec,
 * Launch); the GraphEngine methods that change runs in place are proved to
 * follow them.
 */
module Engine {
  import opened Data

  /** A node function: it returns a value or raises. */
  type Node = State -> Outcome

  datatype Status = Running | Completed | Failed

  /** How one call of a node ended for the loop: go on (with the node's "next", falsy when absent) or abort the run. */
  datatype StepOutcome = Proceed(next: Value) | Abort

  /** The log lines one node call appends, the state after it, and how it ended. */
  datatype NodeEffect = NodeEffect(lines: seq<string>, state: State, outcome: StepOutcome)

  function RunningLine(name: string): string { "[RUNNING] " + name }

  function NotFoundLine(node: Value): string { "[ERROR] Node '" + Show(node) + "' not found" }

  function ExceptionLine(name: string, error: string): string { "[EXCEPTION] " + name + ": " + error }

  const NoStartLine := "no start node configured"

  /**
   * One item of an iterable handed to `dict.update`, read as a key/value
   * pair: a two-item list whose first item is a string, or a two-character
   * string. Any other item raises.
   */
  function PairOf(item: Value): Option<(string, Value)>
  {
    match item
    case VList(p) => if |p| == 2 && p[0].VStr? then Some((p[0].s, p[1])) else None
    case VStr(t) => if |t| == 2 then Some(([t[0]], VStr([t[1]]))) else None
    case _ => None
  }

  /**
   * `state.update(items)` for a list: pairs are written one at a time, so an
   * item that is not a pair raises with the pairs before it already written.
   * The flag says whether every item was a pair.
   */
  function UpdatePairs(s: State, items: seq<Value>): (State, bool)
    decreases |items|
  {
    if items == [] then (s, true)
    else match PairOf(items[0])
      case None => (s, false)
      case Some(kv) => UpdatePairs(s[kv.0 := kv.1], items[1..])
  }

  /** The mapping a list of pairs stands for: a later pair for the same key wins. */
  function PairsMap(items: seq<Value>): map<string, Value>
    decreases |items|
  {
    if items == [] then map[]
    else match PairOf(items[0])
      case None => map[]
      case Some(kv) => map[kv.0 := kv.1] + PairsMap(items[1..])
  }

  /** Every item of `items` reads as a pair. */
  predicate AllPairs(items: seq<Value>)
  {
    forall k :: 0 <= k < |items| ==> PairOf(items[k]).Some?
  }

  /** Updating with a list of pairs is updating with the mapping those pairs stand for. */
  lemma {:induction false} UpdatePairsIsUpdate(s: State, items: seq<Value>)
    ensures UpdatePairs(s, items).1 <==> AllPairs(items)
    ensures AllPairs(items) ==> UpdatePairs(s, items).0 == Update(s, PairsMap(items))
    decreases |items|
  {
    if items != [] {
      match PairOf(items[0])
      case None =>
      case Some(kv) =>
        var rest := items[1..];
        UpdatePairsIsUpdate(s[kv.0 := kv.1], rest);
        assert AllPairs(items) <==> AllPairs(rest) by {
          if AllPairs(rest) {
            forall k | 0 <= k < |items| ensures PairOf(items[k]).Some? {
              if k > 0 { assert items[k] == rest[k - 1]; }
            }
          }
          if AllPairs(items) {
            forall k | 0 <= k < |rest| ensures PairOf(rest[k]).Some? {
              assert rest[k] == items[k + 1];
            }
          }
        }
        assert s[kv.0 := kv.1] + PairsMap(rest) == s + (map[kv.0 := kv.1] + PairsMap(rest));
    }
  }

  /**
   * `state.update(x)`: a mapping is merged, a list is merged pair by pair,
   * an empty string is an empty iterable and changes nothing; anything else
   * raises (a non-empty string yields one-character items, which are not
   * pairs; None, booleans and ints are not iterable).
   */
  function UpdateWith(s: State, x: Value): (State, bool)
  {
    match x
    case VMap(u) => (Update(s, u), true)
    case VList(items) => UpdatePairs(s, items)
    case VStr(t) => (s, t == "")
    case _ => (s, false)
  }

  /**
   * What `_run_node` does with the value `out` a node returned: a dict with a
   * "state" key merges that entry, any other dict merges itself whole; the
   * dict's "next" is the explicit next node. A value that is not a dict
   * changes nothing and names no next node.
   */
  function Absorb(s: State, out: Value): (State, StepOutcome)
  {
    match out
    case VMap(m) =>
      var merged := if "state" in m then UpdateWith(s, m["state"]) else (Update(s, m), true);
      (merged.0, if merged.1 then Proceed(Get(m, "next", VNone)) else Abort)
    case _ => (s, Proceed(VNone))
  }

  /** The cases of `state.update(x)`: a mapping always merges; None, booleans and ints always raise. */
  lemma UpdateWithCases(s: State, x: Value)
    ensures var r := UpdateWith(s, x);
      && (x.VMap? ==> r == (Update(s, x.entries), true))
      && (x.VList? ==> r == UpdatePairs(s, x.items))
      && (x.VStr? ==> r == (s, x.s == ""))
      && ((x.VNone? || x.VBool? || x.VInt?) ==> r == (s, false))
  {
  }

  /**
   * The cases of the merge: a value that is not a dict changes nothing and
   * names no next node; a dict without "state" is merged whole; a dict whose
   * "state" is a dict merges that; only a "state" entry `update` rejects
   * aborts, and the "next" entry is the explicit next node otherwise.
   */
  lemma AbsorbCases(s: State, out: Value)
    ensures var r := Absorb(s, out);
      && (!out.VMap? ==> r == (s, Proceed(VNone)))
      && (out.VMap? && "state" !in out.entries ==>
            r == (Update(s, out.entries), Proceed(Get(out.entries, "next", VNone))))
      && (out.VMap? && "state" in out.entries && out.entries["state"].VMap? ==>
            r == (Update(s, out.entries["state"].entries), Proceed(Get(out.entries, "next", VNone))))
      && (r.1.Abort? <==> out.VMap? && "state" in out.entries && !UpdateWith(s, out.entries["state"]).1)
      && (out.VMap? && r.1.Proceed? ==> r.1.next == Get(out.entries, "next", VNone))
  {
  }

  /** Merging the same returned value twice leaves the state as one merge does. */
  lemma AbsorbIdempotent(s: State, out: Value)
    requires Absorb(s, out).1.Proceed?
    ensures Absorb(Absorb(s, out).0, out) == Absorb(s, out)
  {
    if out.VMap? {
      var m := out.entries;
      if "state" !in m {
        UpdateIdempotent(s, m);
      } else if m["state"].VMap? {
        UpdateIdempotent(s, m["state"].entries);
      } else if m["state"].VList? {
        var items := m["state"].items;
        UpdatePairsIsUpdate(s, items);
        UpdatePairsIsUpdate(Update(s, PairsMap(items)), items);
        UpdateIdempotent(s, PairsMap(items));
      }
    }
  }

  /**
   * `_run_node(node, state, run)` against the registry `reg`. A list or dict
   * cannot be looked up (unhashable) and raises before anything is logged; a
   * name that is not registered logs an error and names no next node; a node
   * that raises logs its exception and aborts with the state untouched;
   * otherwise the returned value is merged.
   */
  function Invoke(reg: map<string, Node>, node: Value, s: State): (e: NodeEffect)
    ensures e.outcome.Proceed? ==> |e.lines| == 1
  {
    if node.VList? || node.VMap? then NodeEffect([], s, Abort)
    else if !(node.VStr? && node.s in reg) then NodeEffect([NotFoundLine(node)], s, Proceed(VNone))
    else
      var name := node.s;
      match reg[name](s)
      case Raised(err) => NodeEffect([RunningLine(name), ExceptionLine(name, err)], s, Abort)
      case Returned(out) =>
        var merged := Absorb(s, out);
        NodeEffect([RunningLine(name)], merged.0, merged.1)
  }

  /** The cases of `_run_node`, one per branch of the source. */
  lemma InvokeCases(reg: map<string, Node>, node: Value, s: State)
    ensures var e := Invoke(reg, node, s);
      && (e.outcome.Abort? ==> |e.lines| <= 2)
      && ((node.VList? || node.VMap?) ==> e == NodeEffect([], s, Abort))
      && (!(node.VList? || node.VMap?) && !(node.VStr? && node.s in reg) ==>
            e == NodeEffect([NotFoundLine(node)], s, Proceed(VNone)))
      && (node.VStr? && node.s in reg ==> |e.lines| >= 1 && e.lines[0] == RunningLine(node.s))
      && (node.VStr? && node.s in reg && reg[node.s](s).Raised? ==>
            e == NodeEffect([RunningLine(node.s), ExceptionLine(node.s, reg[node.s](s).error)], s, Abort))
      && (node.VStr? && node.s in reg && reg[node.s](s).Returned? ==>
            e == NodeEffect([RunningLine(node.s)], Absorb(s, reg[node.s](s).value).0, Absorb(s, reg[node.s](s).value).1))
  {
  }

  /** `graph.get("edges", {}).get(node)`: the edge target, or None. */
  function EdgeTarget(edges: map<string, string>, node: Value): (v: Value)
    ensures v.VNone? <==> !(node.VStr? && node.s in edges)
  {
    if node.VStr? && node.s in edges then VStr(edges[node.s]) else VNone
  }

  /**
   * Where a run stands between loop iterations: its state, log and status,
   * the current node, the node last entered (`current_node`), the log lines
   * streamed so far and the number of node calls made.
   */
  datatype Config = Config(
    state: State,
    log: seq<string>,
    status: Status,
    current: Value,
    lastNode: Option<Value>,
    pushed: seq<string>,
    steps: nat)

  /** The run as it is when the loop is first entered. */
  function Initial(s: State, start: string): Config
  {
    Config(s, [], Running, VStr(start), None, [], 0)
  }

  /**
   * One iteration of the `while current:` loop: enter the current node, call
   * it, and on success stream the last log line and move to the explicit next
   * node if it is truthy, else along the edges. An abort fails the run with
   * nothing more streamed.
   */
  function Step(reg: map<string, Node>, edges: map<string, string>, c: Config): Config
  {
    var e := Invoke(reg, c.current, c.state);
    var log := c.log + e.lines;
    match e.outcome
    case Abort => Config(e.state, log, Failed, c.current, Some(c.current), c.pushed, c.steps + 1)
    case Proceed(next) =>
      var current := if Truthy(next) then next else EdgeTarget(edges, c.current);
      Config(e.state, log, Running, current, Some(c.current), c.pushed + [log[|log| - 1]], c.steps + 1)
  }

  /**
   * A step makes one node call; the log grows by that call's lines; a step
   * that goes on streams exactly the one line it logged and moves to the
   * node's truthy "next" or else along the edges; a step that aborts fails
   * the run and streams nothing.
   */
  lemma StepFacts(reg: map<string, Node>, edges: map<string, string>, c: Config)
    ensures var r := Step(reg, edges, c);
      var e := Invoke(reg, c.current, c.state);
      && r.steps == c.steps + 1 && r.lastNode == Some(c.current)
      && r.log == c.log + e.lines && r.state == e.state
      && (r.status == Running || r.status == Failed)
      && (r.status == Running <==> e.outcome.Proceed?)
      && (r.status == Running ==> |r.log| == |c.log| + 1 && r.pushed == c.pushed + [r.log[|c.log|]])
      && (r.status == Failed ==> r.pushed == c.pushed && r.current == c.current)
      && (e.outcome.Proceed? && Truthy(e.outcome.next) ==> r.current == e.outcome.next)
      && (e.outcome.Proceed? && !Truthy(e.outcome.next) ==> r.current == EdgeTarget(edges, c.current))
  {
  }

  /**
   * The loop run to its end, with at most `fuel` node calls: a run that is no
   * longer running stays as it is, a falsy current node completes it, and a
   * run out of fuel is left running.
   */
  function Exec(reg: map<string, Node>, edges: map<string, string>, c: Config, fuel: nat): Config
    decreases fuel, 0
  {
    if c.status != Running then c
    else if !Truthy(c.current) then c.(status := Completed)
    else if fuel == 0 then c
    else Continue(reg, edges, c, fuel - 1)
  }

  /**
   * The body of the loop for a running configuration: `Resume` makes the
   * node call and goes on with the fuel that is left. The two are separate
   * layers of the recursion so that unfolding the loop a level or two does
   * not yet expose the node call.
   */
  function Continue(reg: map<string, Node>, edges: map<string, string>, c: Config, fuel: nat): Config
    decreases fuel, 2
  {
    Resume(reg, edges, c, fuel)
  }

  /** A node call, then the rest of the loop with the fuel that is left. */
  function Resume(reg: map<string, Node>, edges: map<string, string>, c: Config, fuel: nat): Config
    decreases fuel, 1
  {
    Exec(reg, edges, Step(reg, edges, c), fuel)
  }

  /**
   * A run that has ended stays as it is; a run that completes has a falsy
   * current node; a run still running used all its fuel and has a truthy
   * current node; no run makes more node calls than its fuel.
   */
  lemma {:induction false} ExecFacts(reg: map<string, Node>, edges: map<string, string>, c: Config, fuel: nat)
    ensures var r := Exec(reg, edges, c, fuel);
      && (c.status != Running ==> r == c)
      && (c.status == Running && r.status == Completed ==> !Truthy(r.current))
      && (c.status == Running && r.status == Running ==> Truthy(r.current) && r.steps == c.steps + fuel)
      && c.steps <= r.steps <= c.steps + fuel
    decreases fuel
  {
    if c.status == Running && Truthy(c.current) && fuel > 0 {
      var c1 := Step(reg, edges, c);
      StepFacts(reg, edges, c);
      ExecStep(reg, edges, c, fuel);
      ExecFacts(reg, edges, c1, fuel - 1);
    }
  }

  /** `run_graph` on a stored graph: no start node fails at once, otherwise the loop runs from the start. */
  function Launch(reg: map<string, Node>, g: GraphDef, initial: State, fuel: nat): (r: Config)
    ensures g.start.None? ==> r == Config(initial, [NoStartLine], Failed, VNone, None, [], 0)
    ensures g.start.Some? ==> r == Exec(reg, g.edges, Initial(initial, g.start.value), fuel)
  {
    match g.start
    case None => Config(initial, [NoStartLine], Failed, VNone, None, [], 0)
    case Some(start) => Exec(reg, g.edges, Initial(initial, start), fuel)
  }

  /**
   * The log and the streamed lines only grow, and the newly streamed lines
   * are the first of the new log lines, in order: every one of them for a run
   * that did not fail (one per node call), all but the last call's for a run
   * that failed.
   */
  lemma {:induction false} StreamMirrorsLog(reg: map<string, Node>, edges: map<string, string>, c: Config, fuel: nat)
    requires c.status == Running
    ensures var r := Exec(reg, edges, c, fuel);
      && c.log <= r.log && c.pushed <= r.pushed
      && r.pushed[|c.pushed|..] <= r.log[|c.log|..]
      && (r.status != Failed ==>
            r.pushed[|c.pushed|..] == r.log[|c.log|..] && |r.log| - |c.log| == r.steps - c.steps)
      && (r.status == Failed ==> |r.pushed| - |c.pushed| == r.steps - c.steps - 1)
    decreases fuel
  {
    if Truthy(c.current) && fuel > 0 {
      var c1 := Step(reg, edges, c);
      StepStream(reg, edges, c);
      ExecStep(reg, edges, c, fuel);
      if c1.status == Running {
        StreamMirrorsLog(reg, edges, c1, fuel - 1);
        var r := Exec(reg, edges, c1, fuel - 1);
        assert Exec(reg, edges, c, fuel) == r;
        ExtendBoth(c.log, c.pushed, c1.log[|c.log|], r.log, r.pushed);
      }
    }
  }

  /** What a step does to the log and the streamed lines. */
  lemma StepStream(reg: map<string, Node>, edges: map<string, string>, c: Config)
    ensures var r := Step(reg, edges, c);
      && r.steps == c.steps + 1 && (r.status == Running || r.status == Failed)
      && (r.status == Running ==>
            |r.log| == |c.log| + 1 && r.log == c.log + [r.log[|c.log|]] && r.pushed == c.pushed + [r.log[|c.log|]])
      && (r.status == Failed ==> c.log <= r.log && r.pushed == c.pushed)
  {
  }

  /**
   * Putting the same line in front of both the new log lines and the new
   * streamed lines keeps the streamed lines a prefix of the logged ones.
   */
  lemma ExtendBoth(log: seq<string>, pushed: seq<string>, x: string, rlog: seq<string>, rpushed: seq<string>)
    requires log + [x] <= rlog && pushed + [x] <= rpushed
    ensures log <= rlog && pushed <= rpushed
    ensures rpushed[|pushed + [x]|..] <= rlog[|log + [x]|..] ==> rpushed[|pushed|..] <= rlog[|log|..]
    ensures rpushed[|pushed + [x]|..] == rlog[|log + [x]|..] ==> rpushed[|pushed|..] == rlog[|log|..]
  {
    assert rpushed[|pushed|..] == [x] + rpushed[|pushed + [x]|..];
    assert rlog[|log|..] == [x] + rlog[|log + [x]|..];
  }

  /** A running run with a truthy current node and fuel left takes one step. */
  lemma ExecStep(reg: map<string, Node>, edges: map<string, string>, c: Config, fuel: nat)
    requires c.status == Running && Truthy(c.current) && fuel > 0
    ensures Exec(reg, edges, c, fuel) == Exec(reg, edges, Step(reg, edges, c), fuel - 1)
  {
    assert Exec(reg, edges, c, fuel) == Continue(reg, edges, c, fuel - 1);
    assert Continue(reg, edges, c, fuel - 1) == Resume(reg, edges, c, fuel - 1);
  }

  /** Once a run has ended, more fuel changes nothing: the result does not depend on the bound. */
  lemma {:induction false} ExecFuelIrrelevant(reg: map<string, Node>, edges: map<string, string>, c: Config, f1: nat, f2: nat)
    requires f1 <= f2
    requires Exec(reg, edges, c, f1).status != Running
    ensures Exec(reg, edges, c, f2) == Exec(reg, edges, c, f1)
    decreases f1
  {
    if c.status == Running && Truthy(c.current) {
      assert f1 > 0;
      ExecStep(reg, edges, c, f1);
      ExecStep(reg, edges, c, f2);
      ExecFuelIrrelevant(reg, edges, Step(reg, edges, c), f1 - 1, f2 - 1);
    }
  }

  /** Exec with fuel `a + b` is Exec for `a` calls, then for `b` more. */
  lemma {:induction false} ExecSplit(reg: map<string, Node>, edges: map<string, string>, c: Config, a: nat, b: nat)
    ensures Exec(reg, edges, c, a + b) == Exec(reg, edges, Exec(reg, edges, c, a), b)
    decreases a
  {
    if c.status == Running && Truthy(c.current) && a > 0 {
      ExecStep(reg, edges, c, a);
      ExecStep(reg, edges, c, a + b);
      ExecSplit(reg, edges, Step(reg, edges, c), a - 1, b);
    }
  }

  /**
   * A registered node whose returned value merges without error logs one
   * line, streams it, and hands over to the node it named, or along its edge
   * when it named none.
   */
  lemma ProceedStep(reg: map<string, Node>, edges: map<string, string>, c: Config, name: string,
                    out: Value, s: State, next: Value)
    requires c.current == VStr(name) && name != "" && name in reg
    requires reg[name](c.state) == Returned(out) && Absorb(c.state, out) == (s, Proceed(next))
    ensures Step(reg, edges, c)
      == Config(s, c.log + [RunningLine(name)], Running, if Truthy(next) then next else EdgeTarget(edges, VStr(name)),
                Some(VStr(name)), c.pushed + [RunningLine(name)], c.steps + 1)
  {
    assert Invoke(reg, VStr(name), c.state) == NodeEffect([RunningLine(name)], s, Proceed(next));
  }

  /**
   * A registered node that returns a flat state update with no "next" merges
   * the update, logs one line, streams it, and hands over along its edge.
   */
  lemma FlatStep(reg: map<string, Node>, edges: map<string, string>, c: Config, name: string, u: State)
    requires c.current == VStr(name) && name != "" && name in reg
    requires reg[name](c.state) == Returned(VMap(u)) && "state" !in u && "next" !in u
    ensures Step(reg, edges, c)
      == Config(Update(c.state, u), c.log + [RunningLine(name)], Running, EdgeTarget(edges, VStr(name)),
                Some(VStr(name)), c.pushed + [RunningLine(name)], c.steps + 1)
  {
    AbsorbCases(c.state, VMap(u));
    ProceedStep(reg, edges, c, name, VMap(u), Update(c.state, u), VNone);
  }

  /** A running loop that has no fuel left stays where it is. */
  lemma Paused(reg: map<string, Node>, edges: map<string, string>, c: Config)
    requires c.status == Running && Truthy(c.current)
    ensures Exec(reg, edges, c, 0) == c
  {
  }

  /**
   * The loop over a call that goes through, as `ProceedStep` states it: the
   * run from `c` has the outcome of the run from the configuration `r` after
   * the call, with one call fewer to go.
   */
  lemma ProceedRun(reg: map<string, Node>, edges: map<string, string>, c: Config, fuel: nat, name: string,
                   out: Value, s: State, next: Value) returns (r: Config)
    requires c.status == Running && c.current == VStr(name) && name != "" && name in reg && fuel > 0
    requires reg[name](c.state) == Returned(out) && Absorb(c.state, out) == (s, Proceed(next))
    ensures r == Config(s, c.log + [RunningLine(name)], Running,
                        if Truthy(next) then next else EdgeTarget(edges, VStr(name)),
                        Some(VStr(name)), c.pushed + [RunningLine(name)], c.steps + 1)
    ensures Exec(reg, edges, c, fuel) == Exec(reg, edges, r, fuel - 1)
  {
    ProceedStep(reg, edges, c, name, out, s, next);
    ExecStep(reg, edges, c, fuel);
    r := Step(reg, edges, c);
  }

  /** The loop over a call that returns a flat state update with no "next", as `FlatStep` states it. */
  lemma FlatRun(reg: map<string, Node>, edges: map<string, string>, c: Config, fuel: nat, name: string,
                u: State) returns (r: Config)
    requires c.status == Running && c.current == VStr(name) && name != "" && name in reg && fuel > 0
    requires reg[name](c.state) == Returned(VMap(u)) && "state" !in u && "next" !in u
    ensures r == Config(Update(c.state, u), c.log + [RunningLine(name)], Running, EdgeTarget(edges, VStr(name)),
                        Some(VStr(name)), c.pushed + [RunningLine(name)], c.steps + 1)
    ensures Exec(reg, edges, c, fuel) == Exec(reg, edges, r, fuel - 1)
  {
    FlatStep(reg, edges, c, name, u);
    ExecStep(reg, edges, c, fuel);
    r := Step(reg, edges, c);
  }

  /**
   * A two-node chain `a -> b` whose nodes both return flat state updates
   * with no "next" completes after calling a then b, with both updates merged
   * in order.
   */
  lemma LinearPairCompletes(a: string, b: string, fa: Node, fb: Node, initial: State, ua: State, ub: State, fuel: nat)
    requires a != b && a != "" && b != "" && fuel >= 2
    requires fa(initial) == Returned(VMap(ua)) && "state" !in ua && "next" !in ua
    requires fb(Update(initial, ua)) == Returned(VMap(ub)) && "state" !in ub && "next" !in ub
    ensures var r := Launch(map[a := fa, b := fb], GraphDef(None, Some(a), [a, b], map[a := b], None), initial, fuel);
      && r.status == Completed
      && r.state == Update(Update(initial, ua), ub)
      && r.log == [RunningLine(a), RunningLine(b)]
      && r.pushed == r.log
      && r.lastNode == Some(VStr(b))
  {
    var reg := map[a := fa, b := fb];
    var edges := map[a := b];
    var c0 := Initial(initial, a);
    FlatStep(reg, edges, c0, a, ua);
    var c1 := Step(reg, edges, c0);
    assert c1.current == VStr(b) && c1.log == [RunningLine(a)];
    FlatStep(reg, edges, c1, b, ub);
    var c2 := Step(reg, edges, c1);
    assert c2.current == VNone;
    ExecStep(reg, edges, c0, fuel);
    ExecStep(reg, edges, c1, fuel - 1);
    assert Exec(reg, edges, c2, fuel - 2) == c2.(status := Completed);
  }

  /** `m` copies of the line `x`. */
  function Repeat(x: string, m: nat): (r: seq<string>)
    ensures |r| == m && forall k :: 0 <= k < m ==> r[k] == x
  {
    if m == 0 then [] else [x] + Repeat(x, m - 1)
  }

  /**
   * A node that sends the run back to itself while the counter "n" is above
   * 1, lowering it by one, and otherwise sets the counter to 0 and names no
   * next node.
   */
  function CountDown(a: string): Node
  {
    (s: State) =>
      var n := AsInt(Get(s, "n", VInt(0)));
      if n.Some? && n.value > 1 then Returned(VMap(map["state" := VMap(map["n" := VInt(n.value - 1)]), "next" := VStr(a)]))
      else Returned(VMap(map["n" := VInt(0)]))
  }

  /**
   * A run at the counting node with counter `m` goes round `m` times through
   * its explicit "next" and then completes, with one "[RUNNING]" line per
   * call, every one streamed, and the counter at 0.
   */
  lemma {:induction false} CountDownRuns(a: string, edges: map<string, string>, c: Config, m: nat, fuel: nat)
    requires a != "" && a !in edges && m >= 1 && fuel >= m
    requires c.status == Running && c.current == VStr(a) && Get(c.state, "n", VNone) == VInt(m)
    ensures Exec(map[a := CountDown(a)], edges, c, fuel)
      == Config(c.state["n" := VInt(0)], c.log + Repeat(RunningLine(a), m), Completed, VNone, Some(VStr(a)),
                c.pushed + Repeat(RunningLine(a), m), c.steps + m)
    decreases m
  {
    var reg := map[a := CountDown(a)];
    var line := RunningLine(a);
    if m > 1 {
      var out := VMap(map["state" := VMap(map["n" := VInt(m - 1)]), "next" := VStr(a)]);
      assert reg[a](c.state) == Returned(out);
      var s := c.state["n" := VInt(m - 1)];
      assert Absorb(c.state, out) == (s, Proceed(VStr(a))) by {
        AbsorbCases(c.state, out);
        assert Update(c.state, map["n" := VInt(m - 1)]) == s;
      }
      var r := ProceedRun(reg, edges, c, fuel, a, out, s, VStr(a));
      CountDownRuns(a, edges, r, m - 1, fuel - 1);
      assert s["n" := VInt(0)] == c.state["n" := VInt(0)];
      assert (c.log + [line]) + Repeat(line, m - 1) == c.log + Repeat(line, m);
      assert (c.pushed + [line]) + Repeat(line, m - 1) == c.pushed + Repeat(line, m);
    } else {
      var u := map["n" := VInt(0)];
      assert reg[a](c.state) == Returned(VMap(u));
      var r := FlatRun(reg, edges, c, fuel, a, u);
      assert Update(c.state, u) == c.state["n" := VInt(0)];
      assert Exec(reg, edges, r, fuel - 1) == r.(status := Completed);
      assert Repeat(line, 1) == [line];
    }
  }

  /**
   * A single node that loops on itself through its explicit "next" while a
   * counter is above 1 completes after exactly `n` calls: the log is `n`
   * "[RUNNING]" lines, all streamed, and the counter ends at 0.
   */
  lemma CountDownCompletes(a: string, initial: State, n: nat, fuel: nat)
    requires a != "" && n >= 1 && fuel >= n && Get(initial, "n", VNone) == VInt(n)
    ensures var r := Launch(map[a := CountDown(a)], GraphDef(None, Some(a), [a], map[], None), initial, fuel);
      && r.status == Completed
      && r.log == Repeat(RunningLine(a), n) && r.pushed == r.log && r.steps == n
      && r.state == initial["n" := VInt(0)]
  {
    CountDownRuns(a, map[], Initial(initial, a), n, fuel);
    assert [] + Repeat(RunningLine(a), n) == Repeat(RunningLine(a), n);
  }

  /**
   * A start node that is not registered and has no edge: its call logs that
   * it was not found, streams that line, and the run completes with the
   * state untouched.
   */
  lemma MissingNodeCompletes(reg: map<string, Node>, g: GraphDef, initial: State, start: string, fuel: nat)
    requires g.start == Some(start) && start != "" && start !in reg && start !in g.edges && fuel >= 1
    ensures Launch(reg, g, initial, fuel)
      == Config(initial, [NotFoundLine(VStr(start))], Completed, VNone, Some(VStr(start)), [NotFoundLine(VStr(start))], 1)
  {
    var c0 := Initial(initial, start);
    ExecStep(reg, g.edges, c0, fuel);
    InvokeCases(reg, VStr(start), initial);
    var c1 := Step(reg, g.edges, c0);
    assert c1 == Config(initial, [NotFoundLine(VStr(start))], Running, VNone, Some(VStr(start)), [NotFoundLine(VStr(start))], 1);
  }

  /** The run record `run_graph` keeps in the engine and hands back. */
  class Run {
    const id: string
    const graphId: string
    var state: State
    var status: Status
    var log: seq<string>
    /** `run["current_node"]`: absent until the loop first enters a node. */
    var currentNode: Option<Value>

    constructor (id: string, graphId: string, state: State)
      ensures this.id == id && this.graphId == graphId && this.state == state
      ensures status == Running && log == [] && currentNode == None
    {
      this.id := id;
      this.graphId := graphId;
      this.state := state;
      status := Running;
      log := [];
      currentNode := None;
    }
  }

  /**
   * A streamed event: the run id, the run's state and the last log line. The
   * state entry is the run's own state dictionary, not a copy, so the event
   * refers to the run record and sees its later changes.
   */
  datatype Event = Event(runId: string, run: Run, log: string)

  /** The events an id, a run and the streamed lines make, in order: one per line. */
  function Events(id: string, run: Run, lines: seq<string>): (es: seq<Event>)
  {
    seq(|lines|, k requires 0 <= k < |lines| => Event(id, run, lines[k]))
  }

  /** An unbounded queue that a run streams its events into. */
  class EventQueue {
    var events: seq<Event>

    constructor ()
      ensures events == []
    {
      events := [];
    }

    method Put(e: Event)
      modifies this
      ensures events == old(events) + [e]
    {
      events := events + [e];
    }
  }

  class GraphEngine {
    var graphs: map<string, GraphDef>
    var runs: map<string, Run>
    var nodeRegistry: map<string, Node>

    constructor ()
      ensures graphs == map[] && runs == map[] && nodeRegistry == map[]
    {
      graphs := map[];
      runs := map[];
      nodeRegistry := map[];
    }

    /** `register_node`: binds `name` to `fn`, replacing an earlier binding. */
    method RegisterNode(name: string, fn: Node)
      modifies this
      ensures nodeRegistry == old(nodeRegistry)[name := fn]
      ensures graphs == old(graphs) && runs == old(runs)
    {
      nodeRegistry := nodeRegistry[name := fn];
    }

    /** `create_graph`: stores the definition under a new id (`freshId` stands for the generated uuid). */
    method CreateGraph(def: GraphDef, freshId: string) returns (graphId: string)
      requires freshId !in graphs
      modifies this
      ensures graphId == freshId && graphId !in old(graphs)
      ensures graphs == old(graphs)[graphId := def]
      ensures runs == old(runs) && nodeRegistry == old(nodeRegistry)
    {
      graphId := freshId;
      graphs := graphs[graphId := def];
    }

    /** `get_graph`: the stored definition; an unknown id raises (here: None). */
    method GetGraph(graphId: string) returns (r: Option<GraphDef>)
      ensures r.Some? <==> graphId in graphs
      ensures r.Some? ==> r.value == graphs[graphId]
    {
      if graphId in graphs {
        r := Some(graphs[graphId]);
      } else {
        r := None;
      }
    }

    /** `get_run`: the run record, or None for an unknown id. */
    method GetRun(runId: string) returns (r: Option<Run>)
      ensures r.Some? <==> runId in runs
      ensures r.Some? ==> r.value == runs[runId]
    {
      if runId in runs {
        r := Some(runs[runId]);
      } else {
        r := None;
      }
    }

    /** `_run_node`: calls the node on the run's state in place, appending to the run's log. */
    method RunNode(node: Value, run: Run) returns (outcome: StepOutcome)
      modifies run
      ensures var e := Invoke(nodeRegistry, node, old(run.state));
        run.log == old(run.log) + e.lines && run.state == e.state && outcome == e.outcome
      ensures run.status == old(run.status) && run.currentNode == old(run.currentNode)
    {
      if node.VList? || node.VMap? {
        return Abort;
      }
      if !(node.VStr? && node.s in nodeRegistry) {
        run.log := run.log + [NotFoundLine(node)];
        return Proceed(VNone);
      }
      var name := node.s;
      var fn := nodeRegistry[name];
      run.log := run.log + [RunningLine(name)];
      var out := fn(run.state);
      if out.Raised? {
        run.log := run.log + [ExceptionLine(name, out.error)];
        return Abort;
      }
      var merged := Absorb(run.state, out.value);
      run.state := merged.0;
      outcome := merged.1;
    }

    /**
     * `run_graph`: creates the run record under `runId` (or `freshId`, the
     * generated uuid), stores it, and runs the loop for at most `fuel` node
     * calls, streaming an event per successful call when a queue is given. An
     * unknown graph raises (here: None) and creates nothing.
     */
    method RunGraph(graphId: string, initialState: State, runId: Option<string>, freshId: string,
                    queue: EventQueue?, fuel: nat) returns (r: Option<Run>)
      modifies this, queue
      ensures nodeRegistry == old(nodeRegistry) && graphs == old(graphs)
      ensures r.None? <==> graphId !in graphs
      ensures r.None? ==> runs == old(runs) && (queue != null ==> queue.events == old(queue.events))
      ensures r.Some? ==>
        var id := if runId.Some? then runId.value else freshId;
        var c := Launch(nodeRegistry, graphs[graphId], initialState, fuel);
        && fresh(r.value)
        && runs == old(runs)[id := r.value]
        && r.value.id == id && r.value.graphId == graphId
        && r.value.state == c.state && r.value.status == c.status && r.value.log == c.log
        && r.value.currentNode == c.lastNode
        && (queue != null ==> queue.events == old(queue.events) + Events(id, r.value, c.pushed))
    {
      if graphId !in graphs {
        return None;
      }
      var graph := graphs[graphId];
      var id := if runId.Some? then runId.value else freshId;
      var run := new Run(id, graphId, initialState);
      runs := runs[id := run];
      if graph.start.None? {
        run.status := Failed;
        run.log := run.log + [NoStartLine];
        return Some(run);
      }
      Drive(run, graph.edges, graph.start.value, queue, fuel);
      return Some(run);
    }

    /**
     * One iteration of the `while current:` loop on the run record, which
     * stands where `c` does with `left` node calls to go: enter `c.current`,
     * call it, and unless that aborts, stream the last log line and pick the
     * next node. `c1` is where the run then stands: the end of the run if the
     * call aborted, otherwise a configuration with the same outcome and one
     * call fewer to go.
     */
    method Iterate(run: Run, edges: map<string, string>, current: Value, queue: EventQueue?,
                   ghost c: Config, ghost left: nat) returns (next: Value, failed: bool, ghost c1: Config)
      requires c.status == Running && c.current == current && Truthy(current) && left > 0
      requires run.state == c.state && run.log == c.log && run.currentNode == c.lastNode && run.status == Running
      modifies run, queue
      ensures run.state == c1.state && run.log == c1.log && run.currentNode == c1.lastNode
      ensures failed ==> c1 == Exec(nodeRegistry, edges, c, left) && run.status == Failed && c1.status == Failed && c1.pushed == c.pushed
      ensures failed ==> queue != null ==> queue.events == old(queue.events)
      ensures !failed ==> Exec(nodeRegistry, edges, c1, left - 1) == Exec(nodeRegistry, edges, c, left)
      ensures !failed ==> run.status == Running && c1.status == Running && c1.current == next
      ensures !failed ==> |c1.pushed| == |c.pushed| + 1 && c1.pushed == c.pushed + [c1.pushed[|c.pushed|]]
      ensures !failed ==> queue != null ==> queue.events == old(queue.events) + [Event(run.id, run, c1.pushed[|c.pushed|])]
    {
      c1 := Step(nodeRegistry, edges, c);
      assert Exec(nodeRegistry, edges, c, left) == Exec(nodeRegistry, edges, c1, left - 1) by {
        ExecStep(nodeRegistry, edges, c, left);
      }
      StepFacts(nodeRegistry, edges, c);
      run.currentNode := Some(current);
      var outcome := RunNode(current, run);
      if outcome.Abort? {
        run.status := Failed;
        assert c1.status == Failed;
        assert Exec(nodeRegistry, edges, c1, left - 1) == c1 by {
          ExecFacts(nodeRegistry, edges, c1, left - 1);
        }
        return VNone, true, c1;
      }
      var line := run.log[|run.log| - 1];
      if queue != null {
        queue.Put(Event(run.id, run, line));
      }
      if Truthy(outcome.next) {
        next := outcome.next;
      } else {
        next := EdgeTarget(edges, current);
      }
      failed := false;
    }

    /**
     * The `while current:` loop of `run_graph` on a new run record, for at
     * most `fuel` node calls: it ends completed when the current node is
     * falsy, failed when a node call aborts, and still running when the fuel
     * is used up.
     */
    method Drive(run: Run, edges: map<string, string>, start: string, queue: EventQueue?, fuel: nat)
      requires run.status == Running && run.log == [] && run.currentNode == None
      modifies run, queue
      ensures var c := Exec(nodeRegistry, edges, Initial(old(run.state), start), fuel);
        && run.state == c.state && run.status == c.status && run.log == c.log
        && run.currentNode == c.lastNode
        && (queue != null ==> queue.events == old(queue.events) + Events(run.id, run, c.pushed))
    {
      var current: Value := VStr(start);
      var k: nat := 0;
      ghost var c := Initial(run.state, start);
      ghost var goal := Exec(nodeRegistry, edges, c, fuel);
      while Truthy(current) && k < fuel
        invariant k <= fuel && c.status == Running && c.current == current
        invariant run.state == c.state && run.log == c.log && run.currentNode == c.lastNode && run.status == Running
        invariant Exec(nodeRegistry, edges, c, fuel - k) == goal
        invariant queue != null ==> queue.events == old(queue.events) + Events(run.id, run, c.pushed)
      {
        var next, failed, c1 := Iterate(run, edges, current, queue, c, fuel - k);
        if failed {
          return;
        }
        assert queue != null ==> queue.events == old(queue.events) + Events(run.id, run, c1.pushed) by {
          var line := c1.pushed[|c.pushed|];
          assert Events(run.id, run, c.pushed + [line]) == Events(run.id, run, c.pushed) + [Event(run.id, run, line)];
        }
        c := c1;
        current := next;
        k := k + 1;
      }
      if !Truthy(current) {
        run.status := Completed;
      }
    }
  }
}
