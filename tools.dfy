/**
 * The code-review node functions: each reads the run state and returns a
 * fresh update dictionary (the input state is a value and is never changed),
 * or raises the error Python would raise on a state of the wrong shape.
 */
module Tools {
  import opened Data
  import opened Strings

  function Max(a: int, b: int): int
  {
    if a >= b then a else b
  }

  /** `state.get("code", "")` when it is text; None when `code` holds something else. */
  function CodeText(state: State): (r: Option<string>)
    ensures "code" !in state ==> r == Some("")
    ensures "code" in state ==> (r.Some? <==> state["code"].VStr?)
    ensures r.Some? && "code" in state ==> state["code"] == VStr(r.value)
  {
    match Get(state, "code", VStr(""))
    case VStr(s) => Some(s)
    case _ => None
  }

  /** A list value holding the given strings, in order. */
  function StrList(xs: seq<string>): (v: Value)
    ensures v.VList? && |v.items| == |xs|
    ensures forall k :: 0 <= k < |xs| ==> v.items[k] == VStr(xs[k])
  {
    VList(seq(|xs|, k requires 0 <= k < |xs| => VStr(xs[k])))
  }

  // ---------------------------------------------------------------------
  // extract_functions

  /** The name in one `def ` segment: the text before its first '(', stripped. */
  function NameOf(part: string): (name: string)
    ensures '(' !in name && Stripped(name)
  {
    var head := Split(part, "(")[0];
    SplitPieces(part, "(");
    ContainsChar(head, '(');
    StripChars(head);
    StripFacts(head);
    Strip(head)
  }

  /** The names of the non-blank segments, in segment order. */
  function NamesOf(parts: seq<string>): (names: seq<string>)
    ensures |names| <= |parts|
    ensures forall k :: 0 <= k < |names| ==> '(' !in names[k] && Stripped(names[k])
  {
    if parts == [] then []
    else
      var last := parts[|parts| - 1];
      var init := NamesOf(parts[..|parts| - 1]);
      if Strip(last) == "" then init else init + [NameOf(last)]
  }

  /** The function names `extract_functions` finds in `code`. */
  function FunctionNames(code: string): seq<string>
  {
    NamesOf(Split(code, "def "))
  }

  /** Names are collected segment by segment: the names of a concatenation concatenate. */
  lemma {:induction false} NamesOfAppend(a: seq<string>, b: seq<string>)
    ensures NamesOf(a + b) == NamesOf(a) + NamesOf(b)
    decreases |b|
  {
    if b != [] {
      var b' := b[..|b| - 1];
      assert (a + b)[..|a + b| - 1] == a + b';
      assert (a + b)[|a + b| - 1] == b[|b| - 1];
      NamesOfAppend(a, b');
    } else {
      assert a + b == a;
    }
  }

  /** A blank segment contributes no name; any other contributes exactly its own. */
  lemma NamesOfOne(p: string)
    ensures NamesOf([p]) == if AllSpace(p) then [] else [NameOf(p)]
  {
    assert [p][..0] == [];
    StripFacts(p);
  }

  /** Empty code holds no functions. */
  lemma NoCodeNoFunctions()
    ensures FunctionNames("") == []
  {
    assert Split("", "def ") == [""];
    NamesOfOne("");
  }

  /** The `for part in code.split("def ")` loop of `extract_functions`. */
  method CollectFunctionNames(code: string) returns (funcs: seq<string>)
    ensures funcs == FunctionNames(code)
  {
    var parts := Split(code, "def ");
    funcs := [];
    for i := 0 to |parts|
      invariant funcs == NamesOf(parts[..i])
    {
      assert parts[..i + 1][..i] == parts[..i];
      if Strip(parts[i]) != "" {
        var name := Strip(Split(parts[i], "(")[0]);
        funcs := funcs + [name];
      }
    }
    assert parts[..|parts|] == parts;
  }

  /** `extract_functions`: `{"functions": [...]}`, or raises when `code` is not text. */
  function ExtractFunctions(state: State): (r: Outcome)
    ensures r.Raised? <==> CodeText(state).None?
    ensures r.Returned? ==> r.value.VMap? && r.value.entries.Keys == {"functions"}
    ensures r.Returned? ==> r.value.entries["functions"] == StrList(FunctionNames(CodeText(state).value))
  {
    match CodeText(state)
    case None => Raised("'" + TypeName(state["code"]) + "' object has no attribute 'split'")
    case Some(code) => Returned(VMap(map["functions" := StrList(FunctionNames(code))]))
  }

  // ---------------------------------------------------------------------
  // check_complexity

  /**
   * Iterating `funcs` for dictionary keys: the keys it yields and `len(funcs)`.
   * A list yields its items, a string its characters, a dict its keys.
   * None when iterating raises.
   */
  function FunctionKeys(funcs: Value): (r: Option<(set<string>, nat)>)
    ensures r.Some? ==> (r.value.1 == 0 <==> r.value.0 == {})
    ensures r.None? <==>
      !(funcs.VList? || funcs.VStr? || funcs.VMap?)
      || (funcs.VList? && exists k :: 0 <= k < |funcs.items| && !funcs.items[k].VStr?)
    ensures funcs.VList? && r.Some? ==>
      r.value.1 == |funcs.items| && forall f :: f in r.value.0 <==> VStr(f) in funcs.items
    ensures funcs.VStr? ==>
      r.Some? && r.value.1 == |funcs.s| && forall f :: f in r.value.0 <==> |f| == 1 && f[0] in funcs.s
    ensures funcs.VMap? ==> r == Some((funcs.entries.Keys, |funcs.entries|))
  {
    match funcs
    case VList(xs) =>
      if forall k :: 0 <= k < |xs| ==> xs[k].VStr? then
        var keys := set k | 0 <= k < |xs| :: xs[k].s;
        assert xs != [] ==> xs[0].s in keys;
        ListKeys(xs);
        Some((keys, |xs|))
      else None
    case VStr(s) =>
      var keys := set k | 0 <= k < |s| :: [s[k]];
      assert s != [] ==> [s[0]] in keys;
      TextKeys(s);
      Some((keys, |s|))
    case VMap(m) =>
      assert m != map[] ==> exists k :: k in m.Keys;
      Some((m.Keys, |m|))
    case _ => None
  }

  /** A list of strings yields exactly the strings it holds. */
  lemma ListKeys(xs: seq<Value>)
    requires forall k :: 0 <= k < |xs| ==> xs[k].VStr?
    ensures forall f :: f in (set k | 0 <= k < |xs| :: xs[k].s) <==> VStr(f) in xs
  {
    forall f
      ensures f in (set k | 0 <= k < |xs| :: xs[k].s) <==> VStr(f) in xs
    {
      if VStr(f) in xs {
        var k :| 0 <= k < |xs| && xs[k] == VStr(f);
        assert xs[k].s == f;
      }
    }
  }

  /** A string yields exactly its one-character strings. */
  lemma TextKeys(s: string)
    ensures forall f :: f in (set k | 0 <= k < |s| :: [s[k]]) <==> |f| == 1 && f[0] in s
  {
    forall f
      ensures f in (set k | 0 <= k < |s| :: [s[k]]) <==> |f| == 1 && f[0] in s
    {
      if |f| == 1 && f[0] in s {
        var k :| 0 <= k < |s| && s[k] == f[0];
        assert [s[k]] == f;
      }
    }
  }

  /** How many items of `xs` equal `x` (`list.count`). */
  function CountItems(xs: seq<Value>, x: Value): (n: nat)
    ensures n == multiset(xs)[x]
    ensures n <= |xs|
  {
    if xs == [] then 0
    else
      assert xs == [xs[0]] + xs[1..];
      CountItems(xs[1..], x) + (if xs[0] == x then 1 else 0)
  }

  /** `code.count('\n')`: newlines of a string, or "\n" items of a list; None when it raises. */
  function NewlineCount(code: Value): Option<nat>
  {
    match code
    case VStr(s) => Some(Count(s, '\n'))
    case VList(xs) => Some(CountItems(xs, VStr("\n")))
    case _ => None
  }

  /** `{f: 1 + newlines // max(1, n) for f in funcs}`. */
  function ComplexityMap(keys: set<string>, n: nat, newlines: nat): (r: map<string, Value>)
    ensures r.Keys == keys
    ensures forall f :: f in r ==> r[f] == VInt(1 + newlines / Max(1, n))
  {
    map f | f in keys :: VInt(1 + newlines / Max(1, n))
  }

  /** Every function gets the same complexity, and it is at least 1. */
  lemma ComplexityUniform(keys: set<string>, n: nat, newlines: nat, f: string, g: string)
    requires f in keys && g in keys
    ensures ComplexityMap(keys, n, newlines)[f] == ComplexityMap(keys, n, newlines)[g]
    ensures ComplexityMap(keys, n, newlines)[f].i >= 1
  {
  }

  /**
   * `check_complexity`: `{"complexities": {...}}`. The per-function value is
   * only computed when there is a function, so an empty `functions` never
   * touches `code`.
   */
  function CheckComplexity(state: State): (r: Outcome)
    ensures r.Returned? ==> r.value.VMap? && r.value.entries.Keys == {"complexities"}
    ensures r.Raised? <==>
      (FunctionKeys(Get(state, "functions", VList([]))).None?
       || (FunctionKeys(Get(state, "functions", VList([]))).value.1 > 0
           && NewlineCount(Get(state, "code", VStr(""))).None?))
    ensures r.Returned? ==>
      var keys := FunctionKeys(Get(state, "functions", VList([]))).value;
      var c := r.value.entries["complexities"];
      c.VMap? && c.entries.Keys == keys.0
      && forall f :: f in c.entries ==>
           c.entries[f] == VInt(1 + NewlineCount(Get(state, "code", VStr(""))).value / Max(1, keys.1))
  {
    var code := Get(state, "code", VStr(""));
    var funcs := Get(state, "functions", VList([]));
    match FunctionKeys(funcs)
    case None => Raised("'" + TypeName(funcs) + "' object is not iterable")
    case Some((keys, n)) =>
      if n == 0 then Returned(VMap(map["complexities" := VMap(map[])]))
      else
        match NewlineCount(code)
        case None => Raised("'" + TypeName(code) + "' object has no attribute 'count'")
        case Some(lines) => Returned(VMap(map["complexities" := VMap(ComplexityMap(keys, n, lines))]))
  }

  // ---------------------------------------------------------------------
  // detect_issues

  datatype IssueKind = TodoFixme | LongLine

  /** One entry of the `issues` list: 1-based line number, type and the stripped line. */
  datatype Issue = Issue(line: nat, kind: IssueKind, text: string)

  function KindName(k: IssueKind): string
  {
    match k
    case TodoFixme => "todo/fixme"
    case LongLine => "long-line"
  }

  /** The issue as the dictionary `detect_issues` appends. */
  function IssueValue(i: Issue): Value
  {
    VMap(map["line" := VInt(i.line), "type" := VStr(KindName(i.kind)), "text" := VStr(i.text)])
  }

  function IssueList(issues: seq<Issue>): (v: Value)
    ensures v.VList? && |v.items| == |issues|
    ensures forall k :: 0 <= k < |issues| ==> v.items[k] == IssueValue(issues[k])
  {
    VList(seq(|issues|, k requires 0 <= k < |issues| => IssueValue(issues[k])))
  }

  /** The line mentions TODO or FIXME. */
  predicate Flagged(line: string)
  {
    Contains(line, "TODO") || Contains(line, "FIXME")
  }

  /** A line longer than the 120-character limit. */
  predicate TooLong(line: string)
  {
    |line| > 120
  }

  /** The issues one line yields: todo/fixme first, then long-line. */
  function LineIssues(n: nat, line: string): seq<Issue>
  {
    IssuesFor(n, Flagged(line), TooLong(line), Strip(line))
  }

  /** The issues for line `n` given which checks it fails and its stripped text. */
  function IssuesFor(n: nat, flagged: bool, long: bool, text: string): seq<Issue>
  {
    (if flagged then [Issue(n, TodoFixme, text)] else [])
    + (if long then [Issue(n, LongLine, text)] else [])
  }

  /**
   * One line gives at most one issue of each kind, todo/fixme first, each
   * carrying the line's number and text, and exactly for the checks it fails.
   */
  lemma IssuesForFacts(n: nat, flagged: bool, long: bool, text: string)
    ensures var r := IssuesFor(n, flagged, long, text);
      && (forall k :: 0 <= k < |r| ==> r[k].line == n && r[k].text == text)
      && (forall k :: 0 <= k < |r| ==> 2 * n <= Rank(r[k]) <= 2 * n + 1)
      && (forall j, k :: 0 <= j < k < |r| ==> Rank(r[j]) < Rank(r[k]))
      && (forall k :: 0 <= k < |r| ==> (r[k].kind == TodoFixme ==> flagged) && (r[k].kind == LongLine ==> long))
      && (flagged ==> Issue(n, TodoFixme, text) in r)
      && (long ==> Issue(n, LongLine, text) in r)
      && |r| == (if flagged then 1 else 0) + (if long then 1 else 0)
  {
  }

  /** Issues sort by line, and within a line todo/fixme comes first. */
  function Rank(i: Issue): int
  {
    2 * i.line + (if i.kind == TodoFixme then 0 else 1)
  }

  /** The issues of `lines`, numbered from 1, line by line. */
  function IssuesOf(lines: seq<string>): seq<Issue>
  {
    if lines == [] then []
    else IssuesOf(lines[..|lines| - 1]) + LineIssues(|lines|, lines[|lines| - 1])
  }

  /**
   * Every line number is in range, and the list is strictly ordered by
   * (line, kind): lines never decrease, and one line gives at most one issue
   * of each kind, todo/fixme first.
   */
  lemma {:induction false} IssuesOrdered(lines: seq<string>)
    ensures forall k :: 0 <= k < |IssuesOf(lines)| ==> 1 <= IssuesOf(lines)[k].line <= |lines|
    ensures forall j, k :: 0 <= j < k < |IssuesOf(lines)| ==> Rank(IssuesOf(lines)[j]) < Rank(IssuesOf(lines)[k])
  {
    if lines != [] {
      var n := |lines|;
      IssuesOrdered(lines[..n - 1]);
      IssuesForFacts(n, Flagged(lines[n - 1]), TooLong(lines[n - 1]), Strip(lines[n - 1]));
      var prev := IssuesOf(lines[..n - 1]);
      var here := LineIssues(n, lines[n - 1]);
      assert IssuesOf(lines) == prev + here;
      forall k | 0 <= k < |prev| ensures Rank(prev[k]) < 2 * n { }
    }
  }

  /** `i` reports line `i.line` of `lines`, stripped, for the reason its kind names. */
  predicate Reports(lines: seq<string>, i: Issue)
  {
    1 <= i.line <= |lines| && i.text == Strip(lines[i.line - 1])
    && (i.kind == TodoFixme ==> Flagged(lines[i.line - 1]))
    && (i.kind == LongLine ==> TooLong(lines[i.line - 1]))
  }

  /** Each issue reports a real finding, and each flagged or overlong line is reported. */
  lemma IssuesExact(lines: seq<string>)
    ensures forall k :: 0 <= k < |IssuesOf(lines)| ==> Reports(lines, IssuesOf(lines)[k])
    ensures forall j :: 0 <= j < |lines| && Flagged(lines[j]) ==>
      Issue(j + 1, TodoFixme, Strip(lines[j])) in IssuesOf(lines)
    ensures forall j :: 0 <= j < |lines| && TooLong(lines[j]) ==>
      Issue(j + 1, LongLine, Strip(lines[j])) in IssuesOf(lines)
  {
    IssuesSound(lines);
    IssuesComplete(lines);
  }

  /** Each issue reports a real finding. */
  lemma {:induction false} IssuesSound(lines: seq<string>)
    ensures forall k :: 0 <= k < |IssuesOf(lines)| ==> Reports(lines, IssuesOf(lines)[k])
  {
    if lines != [] {
      var n := |lines|;
      var init := lines[..n - 1];
      var last := lines[n - 1];
      IssuesSound(init);
      IssuesForFacts(n, Flagged(last), TooLong(last), Strip(last));
      var prev := IssuesOf(init);
      var here := LineIssues(n, last);
      var all := IssuesOf(lines);
      assert all == prev + here;
      forall k | 0 <= k < |all| ensures Reports(lines, all[k]) {
        if k < |prev| {
          assert all[k] == prev[k] && Reports(init, prev[k]);
          assert lines[prev[k].line - 1] == init[prev[k].line - 1];
        } else {
          assert all[k] == here[k - |prev|];
        }
      }
    }
  }

  /** Each flagged or overlong line is reported. */
  lemma {:induction false} IssuesComplete(lines: seq<string>)
    ensures forall j :: 0 <= j < |lines| && Flagged(lines[j]) ==>
      Issue(j + 1, TodoFixme, Strip(lines[j])) in IssuesOf(lines)
    ensures forall j :: 0 <= j < |lines| && TooLong(lines[j]) ==>
      Issue(j + 1, LongLine, Strip(lines[j])) in IssuesOf(lines)
  {
    if lines != [] {
      var n := |lines|;
      var init := lines[..n - 1];
      var last := lines[n - 1];
      IssuesComplete(init);
      IssuesForFacts(n, Flagged(last), TooLong(last), Strip(last));
      var all := IssuesOf(lines);
      assert all == IssuesOf(init) + LineIssues(n, last);
      forall j | 0 <= j < n && Flagged(lines[j]) ensures Issue(j + 1, TodoFixme, Strip(lines[j])) in all {
        if j < n - 1 { assert lines[j] == init[j]; }
      }
      forall j | 0 <= j < n && TooLong(lines[j]) ensures Issue(j + 1, LongLine, Strip(lines[j])) in all {
        if j < n - 1 { assert lines[j] == init[j]; }
      }
    }
  }

  /** The issue count is the number of flagged lines plus the number of overlong lines. */
  function FlagCount(lines: seq<string>): nat
  {
    if lines == [] then 0
    else
      var last := lines[|lines| - 1];
      FlagCount(lines[..|lines| - 1]) + (if Flagged(last) then 1 else 0) + (if TooLong(last) then 1 else 0)
  }

  lemma {:induction false} IssueCount(lines: seq<string>)
    ensures |IssuesOf(lines)| == FlagCount(lines)
  {
    if lines != [] {
      IssueCount(lines[..|lines| - 1]);
    }
  }

  /** The `for i, line in enumerate(code.splitlines(), start=1)` loop of `detect_issues`. */
  method CollectIssues(code: string) returns (issues: seq<Issue>)
    ensures issues == IssuesOf(SplitLines(code))
  {
    var lines := SplitLines(code);
    issues := [];
    for i := 0 to |lines|
      invariant issues == IssuesOf(lines[..i])
    {
      var line := lines[i];
      ghost var before := issues;
      var text := Strip(line);
      assert lines[..i + 1][..i] == lines[..i];
      assert IssuesOf(lines[..i + 1]) == IssuesOf(lines[..i]) + LineIssues(i + 1, line);
      if Contains(line, "TODO") || Contains(line, "FIXME") {
        issues := issues + [Issue(i + 1, TodoFixme, text)];
      }
      if |line| > 120 {
        issues := issues + [Issue(i + 1, LongLine, text)];
      }
      assert issues == before + LineIssues(i + 1, line);
    }
    assert lines[..|lines|] == lines;
  }

  /** The issues `detect_issues` reports for `code`. */
  function CodeIssues(code: string): seq<Issue>
  {
    IssuesOf(SplitLines(code))
  }

  /**
   * `detect_issues`: `{"issues": [...], "issues_count": n}` with `n` the
   * length of the list, or raises when `code` is not text.
   */
  function DetectIssues(state: State): (r: Outcome)
    ensures r.Raised? <==> CodeText(state).None?
    ensures r.Returned? ==>
      r.value.VMap? && r.value.entries.Keys == {"issues", "issues_count"}
      && r.value.entries["issues"] == IssueList(CodeIssues(CodeText(state).value))
      && r.value.entries["issues_count"] == VInt(|r.value.entries["issues"].items|)
  {
    match CodeText(state)
    case None => Raised("'" + TypeName(state["code"]) + "' object has no attribute 'splitlines'")
    case Some(code) =>
      var issues := CodeIssues(code);
      Returned(VMap(map["issues" := IssueList(issues), "issues_count" := VInt(|issues|)]))
  }

  // ---------------------------------------------------------------------
  // suggest_improvements

  /** What one issue item contributes: a suggestion, nothing (unknown type), or an error. */
  datatype ItemOutcome = Yields(suggestion: Value) | Skips | Fails

  function SuggestionValue(line: Value, text: string): Value
  {
    VMap(map["line" := line, "suggestion" := VStr(text)])
  }

  /** `it["type"]` decides; a known type also reads `it["line"]`; a non-dict item raises. */
  function SuggestionFor(it: Value): (r: ItemOutcome)
    ensures r.Yields? ==>
      && it.VMap? && "line" in it.entries && r.suggestion.VMap?
      && r.suggestion.entries.Keys == {"line", "suggestion"}
      && r.suggestion.entries["line"] == it.entries["line"]
    ensures r.Skips? <==>
      it.VMap? && "type" in it.entries
      && it.entries["type"] != VStr("todo/fixme") && it.entries["type"] != VStr("long-line")
    ensures r.Fails? <==>
      !it.VMap? || "type" !in it.entries
      || ((it.entries["type"] == VStr("todo/fixme") || it.entries["type"] == VStr("long-line")) && "line" !in it.entries)
    ensures r.Yields? ==>
      r.suggestion.entries["suggestion"]
        == VStr(if it.entries["type"] == VStr("todo/fixme") then "Resolve or remove TODO/FIXME" else "Wrap or shorten the line")
  {
    match it
    case VMap(m) =>
      if "type" !in m then Fails
      else if m["type"] == VStr("todo/fixme") then
        if "line" in m then Yields(SuggestionValue(m["line"], "Resolve or remove TODO/FIXME")) else Fails
      else if m["type"] == VStr("long-line") then
        if "line" in m then Yields(SuggestionValue(m["line"], "Wrap or shorten the line")) else Fails
      else Skips
    case _ => Fails
  }

  /** The suggestions for a list of items, in item order; None when an item raises. */
  function SuggestionsOf(items: seq<Value>): (r: Option<seq<Value>>)
    ensures r.Some? ==> |r.value| <= |items|
  {
    if items == [] then Some([])
    else
      match SuggestionsOf(items[..|items| - 1])
      case None => None
      case Some(prev) =>
        match SuggestionFor(items[|items| - 1])
        case Fails => None
        case Skips => Some(prev)
        case Yields(v) => Some(prev + [v])
  }

  /** The loop raises exactly when one of the items raises. */
  lemma {:induction false} SuggestionsRaise(items: seq<Value>)
    ensures SuggestionsOf(items).Some? <==> forall k :: 0 <= k < |items| ==> !SuggestionFor(items[k]).Fails?
    decreases |items|
  {
    if items != [] {
      var n := |items|;
      var init := items[..n - 1];
      SuggestionsRaise(init);
      assert forall k :: 0 <= k < n - 1 ==> init[k] == items[k];
    }
  }

  /** One item: nothing when it raises, no suggestion when it is skipped, and its own suggestion when it yields one. */
  lemma SuggestionsOfOne(it: Value)
    ensures SuggestionFor(it).Fails? ==> SuggestionsOf([it]) == None
    ensures SuggestionFor(it).Skips? ==> SuggestionsOf([it]) == Some([])
    ensures SuggestionFor(it).Yields? ==> SuggestionsOf([it]) == Some([SuggestionFor(it).suggestion])
  {
    var one := [it];
    assert one[..|one| - 1] == [] && one[|one| - 1] == it;
    assert SuggestionsOf(one[..|one| - 1]) == Some([]);
    match SuggestionFor(it)
    case Fails => assert SuggestionsOf(one) == None;
    case Skips => assert SuggestionsOf(one) == Some([]);
    case Yields(v) => assert SuggestionsOf(one) == Some([] + [v]) && [] + [v] == [v];
  }

  /** The suggestions of two item lists in a row are those of the first followed by those of the second. */
  lemma {:induction false} SuggestionsOfAppend(a: seq<Value>, b: seq<Value>)
    ensures SuggestionsOf(a + b)
      == if SuggestionsOf(a).Some? && SuggestionsOf(b).Some? then Some(SuggestionsOf(a).value + SuggestionsOf(b).value) else None
    decreases |b|
  {
    if b == [] {
      assert a + b == a;
      assert SuggestionsOf(b) == Some([]);
      if SuggestionsOf(a).Some? {
        assert SuggestionsOf(a).value + [] == SuggestionsOf(a).value;
      }
    } else {
      var init, x := b[..|b| - 1], b[|b| - 1];
      SuggestionsOfAppend(a, init);
      assert (a + b)[..|a + b| - 1] == a + init;
      assert (a + b)[|a + b| - 1] == x;
      var sa, si := SuggestionsOf(a), SuggestionsOf(init);
      if sa.Some? && si.Some? {
        match SuggestionFor(x)
        case Fails =>
        case Skips =>
        case Yields(v) =>
          assert sa.value + si.value + [v] == sa.value + (si.value + [v]);
      }
    }
  }

  /** The `for it in issues` loop of `suggest_improvements`. */
  method CollectSuggestions(items: seq<Value>) returns (r: Option<seq<Value>>)
    ensures r == SuggestionsOf(items)
  {
    var suggestions := [];
    for i := 0 to |items|
      invariant SuggestionsOf(items[..i]) == Some(suggestions)
    {
      assert items[..i + 1][..i] == items[..i];
      var it := items[i];
      var step := SuggestionFor(it);
      if step.Fails? {
        r := None;
        SuggestionsFailStays(items, i + 1);
        return;
      } else if step.Yields? {
        suggestions := suggestions + [step.suggestion];
      }
    }
    assert items[..|items|] == items;
    r := Some(suggestions);
  }

  /** Once a prefix raises, the whole loop raises. */
  lemma {:induction false} SuggestionsFailStays(items: seq<Value>, i: nat)
    requires i <= |items| && SuggestionsOf(items[..i]).None?
    ensures SuggestionsOf(items).None?
    decreases |items| - i
  {
    if i < |items| {
      assert items[..i + 1][..i] == items[..i];
      SuggestionsFailStays(items, i + 1);
    } else {
      assert items[..i] == items;
    }
  }

  /** The suggestion for a detected issue. */
  function IssueSuggestion(i: Issue): Value
  {
    SuggestionValue(VInt(i.line), if i.kind == TodoFixme then "Resolve or remove TODO/FIXME" else "Wrap or shorten the line")
  }

  /**
   * On what `detect_issues` produced, suggestions match issues one to one, in
   * order, each on its issue's line.
   */
  lemma {:induction false} SuggestionsForIssues(issues: seq<Issue>)
    ensures SuggestionsOf(IssueList(issues).items)
      == Some(seq(|issues|, k requires 0 <= k < |issues| => IssueSuggestion(issues[k])))
  {
    var items := IssueList(issues).items;
    if issues != [] {
      var n := |issues|;
      var prev := issues[..n - 1];
      SuggestionsForIssues(prev);
      assert IssueList(prev).items == items[..n - 1];
      assert items[n - 1] == IssueValue(issues[n - 1]);
      IssueSuggestionFor(issues[n - 1]);
      IssueSuggestionsSnoc(issues);
      assert SuggestionsOf(items) == Some(SuggestionsOf(items[..n - 1]).value + [IssueSuggestion(issues[n - 1])]);
    } else {
      assert items == [];
      assert seq(|issues|, k requires 0 <= k < |issues| => IssueSuggestion(issues[k])) == [];
    }
  }

  /** Each issue dictionary yields the suggestion for its kind. */
  lemma IssueSuggestionFor(i: Issue)
    ensures SuggestionFor(IssueValue(i)) == Yields(IssueSuggestion(i))
  {
  }

  lemma IssueSuggestionsSnoc(issues: seq<Issue>)
    requires issues != []
    ensures var n := |issues|;
      seq(n, k requires 0 <= k < n => IssueSuggestion(issues[k]))
      == seq(n - 1, k requires 0 <= k < n - 1 => IssueSuggestion(issues[..n - 1][k])) + [IssueSuggestion(issues[n - 1])]
  {
  }

  /**
   * `for it in issues` over a state value: a list yields its items, a string
   * its characters (each fails `it["type"]`). A dict yields its string keys,
   * which fail the same way, so only an empty dict gets through; other values
   * are not iterable. None when iterating raises.
   */
  function IssueItems(v: Value): Option<seq<Value>>
  {
    match v
    case VList(xs) => Some(xs)
    case VStr(s) => Some(seq(|s|, k requires 0 <= k < |s| => VStr([s[k]])))
    case VMap(m) => if m == map[] then Some([]) else None
    case _ => None
  }

  /**
   * `max(0, 100 - issues_count * 10)`: never negative, at most 100 for a
   * count that is not negative, and below the threshold 80 exactly when
   * there are more than two issues.
   */
  function QualityScore(count: int): (q: int)
    ensures q >= 0
    ensures count >= 0 ==> q <= 100
    ensures q < 80 <==> count > 2
    ensures count <= 10 ==> q == 100 - 10 * count
  {
    Max(0, 100 - count * 10)
  }

  /**
   * `suggest_improvements` on a state holding the issue list `detect_issues`
   * builds and its length: one suggestion per issue, in order, and the score.
   */
  lemma SuggestOnIssues(state: State, issues: seq<Issue>)
    requires Get(state, "issues", VNone) == IssueList(issues)
    requires Get(state, "issues_count", VNone) == VInt(|issues|)
    ensures SuggestImprovements(state)
      == Returned(VMap(map["suggestions" := VList(seq(|issues|, k requires 0 <= k < |issues| => IssueSuggestion(issues[k]))),
                           "quality_score" := VInt(QualityScore(|issues|))]))
  {
    assert IssueItems(Get(state, "issues", VList([]))) == Some(IssueList(issues).items);
    SuggestionsForIssues(issues);
  }

  /**
   * `suggest_improvements`: `{"suggestions": [...], "quality_score": q}`, or
   * raises when an issue is malformed or `issues_count` is not a number.
   */
  function SuggestImprovements(state: State): (r: Outcome)
    ensures r.Returned? ==> r.value.VMap? && r.value.entries.Keys == {"suggestions", "quality_score"}
    ensures r.Returned? <==>
      IssueItems(Get(state, "issues", VList([]))).Some?
      && SuggestionsOf(IssueItems(Get(state, "issues", VList([]))).value).Some?
      && AsInt(Get(state, "issues_count", VInt(0))).Some?
    ensures r.Returned? ==>
      r.value.entries["quality_score"] == VInt(QualityScore(AsInt(Get(state, "issues_count", VInt(0))).value))
    ensures r.Returned? ==>
      r.value.entries["suggestions"] == VList(SuggestionsOf(IssueItems(Get(state, "issues", VList([]))).value).value)
  {
    match IssueItems(Get(state, "issues", VList([])))
    case None => Raised("string indices must be integers")
    case Some(items) =>
      match SuggestionsOf(items)
      case None => Raised("'type'")
      case Some(suggestions) =>
        match AsInt(Get(state, "issues_count", VInt(0)))
        case None => Raised("unsupported operand type(s) for -: 'int' and '" + TypeName(Get(state, "issues_count", VInt(0))) + "'")
        case Some(count) =>
          Returned(VMap(map["suggestions" := VList(suggestions), "quality_score" := VInt(QualityScore(count))]))
  }
}
