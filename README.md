# Minimal workflow engine: a Dafny model

This project models the core of a small workflow engine. The engine keeps three things:

- a registry of node functions;
- the stored graph definitions: a start node, the node names, an edge map and an optional "meta";
- the run records.

Running a graph makes a run record. The engine then walks from the start node with the `while current:` loop. Each iteration:

1. calls the current node on the run's state;
2. merges what the node returned into that state (a dict with a "state" entry merges that entry, any other dict merges whole);
3. streams the last log line to an optional queue;
4. moves to the node's truthy "next", or else along the edges.

A run ends "completed" when the current node is falsy. It ends "failed" when the graph has no start node ("no start node configured"), when a node raises, when the merge raises, or when the current node is a list or a dict, whose registry lookup raises `TypeError`.

The model also covers:

- the four code-analysis tools: function extraction, per-function complexity, TODO/FIXME and long-line detection, suggestions with a quality score;
- the code-review preset graph that chains those tools;
- the application's `assess_loop` node, which sends the run back to "complexity" while the score is below 80;
- the "create graph" endpoint's construction of a definition from a request.

Modules follow the repository's files:

- `Data`: Python values, the state dictionary, node outcomes, graph definitions;
- `Strings`: the `str` methods the tools use;
- `Tools`: `app/tools.py`;
- `CodeReview`: `app/workflows/code_review.py`;
- `Engine`: `app/engine.py`;
- `App`: the parts of `app/main.py` named above;
- `Workflow`: end-to-end theorems about the code-review run on the application's engine.

`GraphEngine`, the run record `Run` and the event queue are classes whose methods update their fields in place. Each method is proved against pure functions:

- `Invoke` is what one node call does;
- `Step` is one loop iteration;
- `Exec` is the loop to its end;
- `Launch` is `run_graph` on a stored graph.

The tools and `assess_loop` are pure functions from a state to a returned value or a raised error, as the engine sees them. They are proved against independent characterisations: split/join round trips, exact issue reporting, ordering, counts and score bounds.

The two main theorems about the preset run:

- With at most two issues in the code, a run completes after exactly one pass through the five nodes, with a quality score of at least 80.
- With three or more issues it never ends: "detect" recounts the unchanged code after every pretended fix, so the score stays below the threshold and "assess_loop" keeps sending the run back. This is proved for every fuel bound.

Three details of `app/engine.py` the model keeps:

- An event is `{run_id, state, log}`. Its state is the run's live dictionary, so `Engine.Event` holds a reference to the `Run`.
- `put` runs inside the loop's `try`.
- A node named by a value that is not a string is looked up like any other.

## Model

| member | source | states |
|---|---|---|
| Data.Get | app/tools.py:9 | `d.get(key, default)`: the stored value when the key is present, the default otherwise |
| Data.AsInt | app/main.py:35-38 | the number a `<` or `-` sees: an int as itself, `True` as 1 and `False` as 0, anything else raises |
| Data.UpdateFacts | app/engine.py:48-51 | after `state.update(u)` the keys are the union, `u`'s values win, other entries keep theirs |
| Data.UpdateIdempotent | app/engine.py:48-51 | merging the same mapping twice equals merging it once |
| Data.NatText | app/engine.py:32 | the decimal text of a number is non-empty and all digits |
| Data.NatTextValue | app/engine.py:32 | `str(n)` spells `n` in decimal, with no leading zero unless `n` is 0 |
| Strings.Split | app/tools.py:11 | `str.split` never returns an empty list |
| Strings.JoinSplit | app/tools.py:11 | joining the pieces of a split with the separator gives back the text |
| Strings.SplitPieces | app/tools.py:11 | no piece of `s.split(sep)` contains `sep`, and the first piece is a prefix of `s` |
| Strings.ContainsChar | app/tools.py:14 | a one-character text is contained exactly when that character occurs |
| Strings.LeadingSpaceFacts | app/tools.py:12 | the leading run counted is all whitespace and is followed by a non-space |
| Strings.TrailingSpaceFacts | app/tools.py:12 | the trailing run counted is all whitespace and is preceded by a non-space |
| Strings.TrailingSpaceShort | app/tools.py:12 | text starting with a non-space is not all trailing whitespace |
| Strings.StripFacts | app/tools.py:12 | `strip()` has no whitespace at either end and occurs in the text right after its leading whitespace; everything before and after it is whitespace; it is empty exactly for blank text |
| Strings.StripTail | app/tools.py:12 | what follows `strip()` in the text is all whitespace |
| Strings.StripEnds | app/tools.py:14 | `strip()` has no whitespace at either end |
| Strings.StripBlank | app/tools.py:12 | `part.strip()` is falsy exactly when `part` is all whitespace |
| Strings.StripChars | app/tools.py:37 | every character of `line.strip()` is a character of `line` |
| Strings.ContainsAt | app/tools.py:36 | `"TODO" in line` holds exactly when the text occurs at some index |
| Strings.Count | app/tools.py:25 | `code.count('\n')` is the number of newlines in the text (its multiplicity in the text's multiset), so at most the length and zero exactly when there is none |
| Strings.SplitLines | app/tools.py:35 | `splitlines()` is empty exactly for empty text and no line holds a newline |
| Strings.SplitLinesJoin | app/tools.py:35 | joining the lines with newlines gives back the text, less a final newline |
| Strings.JoinSnoc | app/tools.py:35 | joining one more part appends the separator and that part |
| Tools.CodeText | app/tools.py:9 | missing code reads as ""; code that is not text is an error; otherwise it is the stored text |
| Tools.StrList | app/tools.py:16 | the `funcs` list holds the names in order |
| Tools.NameOf | app/tools.py:14 | an extracted name has no '(' and no surrounding whitespace |
| Tools.NamesOf | app/tools.py:11-15 | at most one name per segment, each without '(' and stripped |
| Tools.NamesOfAppend | app/tools.py:11-15 | the names of concatenated segment lists concatenate |
| Tools.NamesOfOne | app/tools.py:12-15 | a blank segment gives no name, any other gives exactly its own name |
| Tools.NoCodeNoFunctions | app/tools.py:9-15 | empty code has no functions |
| Tools.CollectFunctionNames | app/tools.py:10-15 | the loop collects exactly the names of the non-blank `def ` segments, in order |
| Tools.ExtractFunctions | app/tools.py:7-18 | `{"functions": names}` with exactly the extracted names; it raises exactly when `code` is not text |
| Tools.FunctionKeys | app/tools.py:24-25 | `len(funcs)` and the keys `for f in funcs` yields: a list of strings gives exactly the strings it holds, a string its one-character strings, a dict its keys; it raises exactly for a value that is not iterable or a list holding a non-string (only string keys are modelled); no key exactly when `len` is 0 |
| Tools.TextKeys | app/tools.py:25 | a string yields exactly its one-character strings as keys |
| Tools.CountItems | app/tools.py:25 | a list's `count` of an item is the number of items equal to it (its multiplicity), at most the length |
| Tools.ComplexityMap | app/tools.py:25 | one entry per function, each `1 + newlines // max(1, n)` |
| Tools.ComplexityUniform | app/tools.py:25 | every function gets the same complexity, at least 1 |
| Tools.CheckComplexity | app/tools.py:21-28 | `{"complexities": ...}` keyed by the functions; it raises exactly when `functions` is not a list of strings, a string or a dict, or is non-empty while `code` has no `count` |
| Tools.IssueList | app/tools.py:34-40 | the issues list holds one dict per issue, in order |
| Tools.IssuesForFacts | app/tools.py:36-39 | one line gives a todo/fixme issue exactly when flagged and a long-line issue exactly when over 120 characters, todo/fixme first, with the line number and stripped text |
| Tools.IssuesOrdered | app/tools.py:35-39 | line numbers are in range from 1, and issues are strictly ordered by line and then by kind |
| Tools.IssuesExact | app/tools.py:35-39 | every issue reports a real finding on its line, and every flagged or overlong line is reported |
| Tools.IssuesSound | app/tools.py:35-39 | every issue reports a real finding: its line is in range, its text is that line stripped, and the line fails the check its kind names |
| Tools.IssuesComplete | app/tools.py:35-39 | every flagged line and every overlong line is reported with its number and stripped text |
| Tools.IssueCount | app/tools.py:35-40 | the issue count is the number of flagged lines plus the number of overlong lines |
| Tools.CollectIssues | app/tools.py:34-39 | the loop over `enumerate(code.splitlines(), start=1)` collects exactly the issues of the lines |
| Tools.DetectIssues | app/tools.py:31-42 | `{"issues": ..., "issues_count": n}` with the code's issues and `n` their number; it raises exactly when `code` is not text |
| Tools.SuggestionFor | app/tools.py:49-52 | an item raises exactly when it is not a dict, has no "type", or has a known type but no "line"; it is skipped exactly when its type is neither known kind; otherwise the suggestion carries its line and the fixed text of its kind |
| Tools.SuggestionsRaise | app/tools.py:48-52 | the loop raises exactly when one of the items raises |
| Tools.SuggestionsOf | app/tools.py:47-52 | at most one suggestion per item; with SuggestionsOfOne and SuggestionsOfAppend, the suggestions of the items in item order, one per yielding item |
| Tools.SuggestionsOfOne | app/tools.py:48-52 | one item gives nothing when it raises, no suggestion when it is skipped and its own suggestion when it yields one |
| Tools.SuggestionsOfAppend | app/tools.py:47-52 | the suggestions of two item lists in a row are those of the first followed by those of the second, and the loop raises when either part raises |
| Tools.CollectSuggestions | app/tools.py:47-52 | the loop collects exactly the suggestions of the items, or raises as the items do |
| Tools.SuggestionsFailStays | app/tools.py:48-52 | once an item raises, the whole loop raises |
| Tools.IssueSuggestionFor | app/tools.py:49-52 | each detected issue yields the suggestion for its kind |
| Tools.SuggestionsForIssues | app/tools.py:48-52 | on detected issues, suggestions match issues one to one, in order, on the same lines |
| Tools.SuggestOnIssues | app/tools.py:45-57 | on a state holding the issue list `detect_issues` builds and its length, the node returns one suggestion per issue in order and the score of their count |
| Tools.QualityScore | app/tools.py:55 | the score is never negative, is at most 100, equals `100 - 10n` up to ten issues, and is below 80 exactly when there are more than two issues |
| Tools.SuggestImprovements | app/tools.py:45-57 | `{"suggestions", "quality_score"}` with the suggestions of the issue items, in order, and the score of `issues_count`; it raises exactly when the issues cannot be iterated, an item raises, or the count is not a number |
| Engine.UpdatePairsIsUpdate | app/engine.py:48 | `update` with a list succeeds exactly when every item is a pair the model can read (a two-item list starting with a string, or a two-character string), and then equals the update with the mapping of those pairs |
| Engine.UpdateWithCases | app/engine.py:48 | `update` merges a dict, reads a list as pairs, accepts only the empty string, and raises on None, bool and int |
| Engine.AbsorbCases | app/engine.py:44-55 | a non-dict changes nothing and names no next node; a dict without "state" merges whole; a dict "state" merges; the merge aborts exactly when `update` rejects the "state" entry; "next" names the next node |
| Engine.AbsorbIdempotent | app/engine.py:44-53 | merging the same returned value twice equals merging it once |
| Engine.Invoke | app/engine.py:29-55 | a call that goes on logs exactly one line |
| Engine.InvokeCases | app/engine.py:29-55 | an unhashable name fails with no line; an unknown name logs "not found" and names no next node; a registered node logs "[RUNNING]", then its exception with the state untouched, or its merged result |
| Engine.EdgeTarget | app/engine.py:94-95 | the edge lookup gives None exactly when the node has no edge |
| Engine.StepFacts | app/engine.py:82-95 | a step makes one call and appends that call's lines; it goes on exactly when the call did, streaming the one line logged, then moves to a truthy "next" or else along the edge; an abort fails the run and streams nothing |
| Engine.StepStream | app/engine.py:86-88 | a step that goes on logs one line and streams that line; a failing step streams nothing |
| Engine.ExecFacts | app/engine.py:82-100 | an ended run stays ended; a completed run has a falsy current node; a run still running used all its fuel; no run exceeds its fuel |
| Engine.ExecStep | app/engine.py:82-95 | a running loop with a truthy node and fuel left takes one step |
| Engine.ExecFuelIrrelevant | app/engine.py:82-100 | once a run has ended, more fuel gives the same result |
| Engine.ExecSplit | app/engine.py:82-95 | running for `a + b` calls is running for `a` calls and then `b` more |
| Engine.Launch | app/engine.py:74-100 | without a start node the run fails at once with "no start node configured"; otherwise the loop runs from the start |
| Engine.StreamMirrorsLog | app/engine.py:86-88 | the streamed lines are the new log lines in order: all of them, one per call, when the run did not fail, and all but the failing call's when it failed |
| Engine.ExtendBoth | app/engine.py:86-88 | a line added to both the log and the stream keeps the stream a prefix of the log |
| Engine.ProceedStep | app/engine.py:34-53 | a registered node whose result merges logs and streams "[RUNNING]", then moves to its truthy "next" or along its edge |
| Engine.FlatStep | app/engine.py:44-51 | a flat update with no "next" is merged, and the run moves along the edge |
| Engine.Paused | app/engine.py:82 | a running loop with no fuel left stays where it is |
| Engine.ProceedRun | app/engine.py:80-95 | the run from a configuration whose call goes through is the run after that call, with one call fewer |
| Engine.FlatRun | app/engine.py:80-95 | the same, for a flat state update |
| Engine.LinearPairCompletes | app/engine.py:80-101 | two registered nodes joined by one edge complete in two calls, logging and streaming both "[RUNNING]" lines and merging both updates |
| Engine.Repeat | app/engine.py:34 | `m` copies of one log line |
| Engine.CountDownRuns | app/engine.py:82-92 | a node that names itself as "next" while its counter is above 1 goes round once per count and then completes, logging and streaming one "[RUNNING]" line per call, with the counter at 0 |
| Engine.CountDownCompletes | app/engine.py:57-101 | such a self-looping run completes after exactly `n` calls, with `n` "[RUNNING]" lines all streamed |
| Engine.MissingNodeCompletes | app/engine.py:29-33 | a start node that is not registered and has no edge logs "not found", streams that line and completes with the state untouched |
| Engine.Run.constructor | app/engine.py:65-71 | a new run record holds its ids and a copy of the initial state, is running, with an empty log and no current node |
| Engine.EventQueue.constructor | app/engine.py:57 | a new queue is empty |
| Engine.EventQueue.Put | app/engine.py:88 | `put` appends the event |
| Engine.GraphEngine.constructor | app/engine.py:7-13 | a new engine has no graphs, runs or nodes |
| Engine.GraphEngine.RegisterNode | app/engine.py:15-16 | binds the name and replaces an earlier binding; nothing else changes |
| Engine.GraphEngine.CreateGraph | app/engine.py:18-21 | stores the definition under a new id and returns it; nothing else changes |
| Engine.GraphEngine.GetGraph | app/engine.py:23-24 | gives the stored definition exactly when the id is known |
| Engine.GraphEngine.GetRun | app/engine.py:26-27 | gives the run record exactly when the id is known, otherwise None |
| Engine.GraphEngine.RunNode | app/engine.py:29-55 | updates the run's log and state in place as `Invoke` says and returns its outcome |
| Engine.GraphEngine.RunGraph | app/engine.py:57-101 | an unknown graph raises and stores nothing; otherwise a new run record is stored under the given or fresh id, ends as `Launch` says, and one event per streamed line is queued in order |
| Engine.GraphEngine.Iterate | app/engine.py:82-95 | one loop iteration on the run record follows `Step`: an abort fails the run and queues nothing; otherwise it queues one event and the rest of the run is unchanged |
| Engine.GraphEngine.Drive | app/engine.py:80-101 | the loop leaves the run record as `Exec` says and queues one event per streamed line |
| CodeReview.Follow | app/workflows/code_review.py:14-20 | a path followed along the edges starts at the node it starts from |
| CodeReview.CodeReviewGraphShape | app/workflows/code_review.py:4-30 | named "code_review"; the nodes are the five pipeline names; it starts at the first node; each edge leads to the next node; every edge stays inside the nodes; "assess_loop" has no edge; "meta" records the threshold |
| CodeReview.PipelineDistinct | app/workflows/code_review.py:6-12 | the five node names are distinct |
| CodeReview.CodeReviewPath | app/workflows/code_review.py:14-25 | following the edges from the start visits every node once, in list order, and stops |
| App.AssessLoop | app/main.py:32-41 | raises exactly when the score is not a number, or is below 80 while the count is not; at or above 80 it returns `{}`; below 80 it returns the count lowered by one (not below 0) and "next" = "complexity" |
| App.AssessLoopMerged | app/main.py:36-41 | merged into the state: below 80 only "issues_count" changes and the run goes to "complexity"; otherwise the state is unchanged and no next node is named |
| App.MissingScoreLoops | app/main.py:35-40 | a state with no quality score loops back |
| App.AssessLoopCountDrops | app/main.py:38 | going round lowers a positive count by one and never gives a negative one |
| App.SetUpEngine | app/main.py:23-43 | the application's engine has exactly the five pipeline nodes registered, and no graphs or runs |
| App.GraphDefinitionFacts | app/main.py:59-71 | the preset wins and records threshold 80, the same as `assess_loop`'s; otherwise the request is refused exactly when its nodes or edges are missing or empty; an accepted definition starts at its first node, with the request's nodes and edges |
| App.CreateGraphEndpoint | app/main.py:59-71 | a refused request answers with the 400 detail and stores nothing; otherwise the definition is stored under the new id that is returned |
| Workflow.ReadyKept | app/engine.py:51 | a merge that writes neither "code" nor "functions" leaves both as they were |
| Workflow.ReadyWithFunctions | app/tools.py:16 | after extraction the functions can be iterated for dict keys |
| Workflow.ExtractState | app/tools.py:7-18 | "extract" on text code returns a flat update of the function names and keeps the code |
| Workflow.ComplexityState | app/tools.py:21-28 | "complexity" goes through on extracted functions and writes neither code nor functions |
| Workflow.DetectState | app/tools.py:31-42 | "detect" records the code's issues and their count |
| Workflow.SuggestOut | app/tools.py:45-57 | "suggest" on detected issues goes through, returns one suggestion per issue in order, and scores their count |
| Workflow.SuggestState | app/tools.py:45-57 | after "suggest" the state holds the issues, their count and their score |
| Workflow.SuggestKeeps | app/engine.py:51 | merging what "suggest" writes keeps the text, the function names, the issues and their count, and adds the score |
| Workflow.AssessState | app/main.py:32-41 | on a scored state, with more than two issues "assess_loop" names "complexity" and keeps the code; otherwise it names nothing and leaves the state as it is |
| Workflow.ExtractRun | app/engine.py:82-95 | the run at "extract" logs it, streams it and moves to "complexity" |
| Workflow.ComplexityRun | app/engine.py:82-95 | the run at "complexity" moves to "detect" |
| Workflow.DetectRun | app/engine.py:82-95 | the run at "detect" records the issues and moves to "suggest" |
| Workflow.SuggestRun | app/engine.py:82-95 | the run at "suggest" records the score and moves to "assess_loop" |
| Workflow.AssessRun | app/engine.py:82-95 | the run at "assess_loop" goes back to "complexity" below the threshold, and otherwise has no next node |
| Workflow.FewIssuesComplete | app/engine.py:57-101 | with at most two issues the preset run completes in exactly five calls; the log is one "[RUNNING]" line per node, all streamed; "assess_loop" was entered last; the state holds the issues, their count and a score of at least 80 |
| Workflow.CycleOnce | app/main.py:36-40 | with three or more issues, one pass from "complexity" returns to "complexity" with the code unchanged |
| Workflow.CycleCut | app/engine.py:82 | fuel that runs out inside such a pass leaves the run running |
| Workflow.CycleRuns | app/main.py:36-40 | from "complexity" with three or more issues the run is still running whatever the fuel |
| Workflow.ManyIssuesNeverEnd | app/engine.py:82-95 | with three or more issues the preset run never completes or fails, so `run_graph` never returns |
| Workflow.MetaThresholdUnused | app/workflows/code_review.py:28 | the threshold in "meta" plays no part in a run: presets built with any two thresholds run the same |

## Left out

- Concurrency: `asyncio`, `await`, and the choice between calling a node and awaiting it. Nodes are modelled as pure functions from a state to a returned value or a raised error. Suspension at `await run_queue.put` is not modelled, and the queue is an unbounded sequence.
- Engine.GraphEngine.RunGraph: the `while current:` loop is bounded by a `fuel` parameter. A run still running when the fuel is used up is returned with status running. It stands for a loop that has not returned yet. `ExecFuelIrrelevant` shows that extra fuel changes no ended run.
- Engine.Invoke: nodes cannot change the state in place. A node sees the state as a value, and its effect comes only from what it returns.
- Engine.Event: an event holds the `Run` itself, standing for the live state dictionary the source puts in it. The event's state is therefore the run's current state, not a copy.
- Engine.GraphEngine.CreateGraph and Engine.GraphEngine.RunGraph: `uuid.uuid4()` is a `freshId` parameter; `CreateGraph` requires it to be unused.
- Engine.GraphEngine.GetGraph: the `KeyError` on an unknown id is `None`. Engine.GraphEngine.RunGraph's "graph not found" `KeyError` is `None` too.
- App.CreateGraphEndpoint: the HTTP layer is not modelled. That covers FastAPI routing, pydantic validation, status codes and response bodies other than the id or the detail. The request's `nodes` dictionary is given as its keys in insertion order.
- The `/graph/run`, `/graph/state` and WebSocket endpoints are not part of this model. Nor is the background task that consumes the queue.
- Logging through `logging` in the tools and the application is left out: it has no effect on results.
- Engine.InvokeCases and App.AssessLoop: the texts of raised exceptions follow Python's messages only approximately. Only whether a call raises is proved to match.
- Data.Value: floats, tuples, sets and other Python types are not modelled. A state value is None, a bool, an int, a string, a list or a dict with string keys.
- Strings.IsSpace: whitespace is the ASCII set `str.strip()` uses. Unicode whitespace is not modelled, and neither are the line boundaries other than '\n' that `splitlines()` recognises.
- Tools.FunctionKeys: dictionary keys are strings in the model. A `functions` list holding ints, booleans or None, such as `[1, 2]`, yields those keys in Python, but the model raises because its dicts cannot hold them. Other iterables (tuples, sets, generators) are not modelled.
- Tools.CheckComplexity: with `functions = [1, 2]` Python builds `{1: .., 2: ..}`, while the model raises, because its dicts cannot hold keys that are not strings.
- Engine.UpdatePairsIsUpdate: `state.update([[1, "x"]])` writes the key 1 in Python, but the model aborts the run because its state cannot hold that key. `state.update([{"a": 1, "b": 2}])` writes `state["a"] = "b"` in Python, but the model aborts here too: a dict item read as a pair depends on key order, which the model's maps do not keep.
