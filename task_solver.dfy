/**
 * The task executor node (src/workflow/node/task_solver.py): it pops the next task,
 * runs the tool calls the language model asked for and gathers search hits.
 * The model's answer (`respond`), the tools themselves (`invoke`) and the decoding of
 * a search result (`parse`) are inputs.
 */
module Solver {
  import opened State
  import opened Strings

  const WebSearch := "web_search"

  /** `{tool.name.lower(): tool for tool in tools}`: of two tools with the same lowered name, the later wins. */
  function ToolDict(tools: seq<Tool>): map<string, Tool>
    decreases |tools|
  {
    if |tools| == 0 then map[]
    else ToolDict(tools[..|tools| - 1])[Lower(tools[|tools| - 1].name) := tools[|tools| - 1]]
  }

  /**
   * Lookup ignores ASCII case and finds the last tool registered under the name: a name
   * equal up to case to tool i's, and to no later tool's, finds tool i.
   */
  lemma {:induction false} LookupFindsLast(tools: seq<Tool>, name: string, i: nat)
    requires i < |tools| && Lower(tools[i].name) == Lower(name)
    requires forall j :: i < j < |tools| ==> Lower(tools[j].name) != Lower(name)
    ensures Lower(name) in ToolDict(tools) && ToolDict(tools)[Lower(name)] == tools[i]
    decreases |tools|
  {
    var n := |tools|;
    if i < n - 1 {
      var init := tools[..n - 1];
      forall j | i < j < |init|
        ensures Lower(init[j].name) != Lower(name)
      {
        assert init[j] == tools[j];
      }
      LookupFindsLast(init, name, i);
    }
  }

  /** A name that equals no tool's name up to case is not found. */
  lemma {:induction false} LookupMisses(tools: seq<Tool>, name: string)
    requires forall i :: 0 <= i < |tools| ==> Lower(tools[i].name) != Lower(name)
    ensures Lower(name) !in ToolDict(tools)
    decreases |tools|
  {
    if |tools| > 0 {
      var init := tools[..|tools| - 1];
      forall i | 0 <= i < |init|
        ensures Lower(init[i].name) != Lower(name)
      {
        assert init[i] == tools[i];
      }
      LookupMisses(init, name);
    }
  }

  /** The executions of the calls: a call whose lowered name is not registered is skipped. */
  function Executed(dict: map<string, Tool>, calls: seq<ToolCall>, invoke: (Tool, ToolCall) -> string): seq<ToolExecution>
    decreases |calls|
  {
    if |calls| == 0 then []
    else
      var prev := Executed(dict, calls[..|calls| - 1], invoke);
      var c := calls[|calls| - 1];
      var name := Lower(c.name);
      if name in dict then prev + [ToolExecution(|calls|, name, c.args, invoke(dict[name], c))] else prev
  }

  /** What one execution adds to `sources`: the decoded hits of a web search, nothing otherwise. */
  function HitsOfOne(e: ToolExecution, parse: string -> Option<seq<Source>>): seq<Source> {
    if e.name == WebSearch then parse(e.result).GetOr([]) else []
  }

  function HitsOf(execs: seq<ToolExecution>, parse: string -> Option<seq<Source>>): seq<Source>
    decreases |execs|
  {
    if |execs| == 0 then [] else HitsOf(execs[..|execs| - 1], parse) + HitsOfOne(execs[|execs| - 1], parse)
  }

  /** `task_results` after the loop: the last executed call's content under the task's title. */
  function ResultsFor(title: string, execs: seq<ToolExecution>): (m: map<string, string>)
    ensures m.Keys <= {title}
    ensures title in m <==> |execs| > 0
    ensures |execs| > 0 ==> m[title] == execs[|execs| - 1].result
  {
    if |execs| == 0 then map[] else map[title := execs[|execs| - 1].result]
  }

  /** `tool_executions[-1] if tool_executions else None`. */
  function LastOf(execs: seq<ToolExecution>): (r: Option<ToolExecution>)
    ensures r.None? <==> |execs| == 0
    ensures r.Some? ==> r.value == execs[|execs| - 1]
  {
    if |execs| == 0 then None else Some(execs[|execs| - 1])
  }

  /**
   * The state after one solver call: the first task is popped, the rest kept in order;
   * the last execution, the extended sources and the task result are recorded; every
   * other key is kept.
   */
  function Solved(s: ResearchState, tools: seq<Tool>, respond: Task -> seq<ToolCall>,
                  invoke: (Tool, ToolCall) -> string, parse: string -> Option<seq<Source>>): (r: ResearchState)
    requires s.remainingTasks.Some? && |s.remainingTasks.value| > 0
    ensures r.remainingTasks == Some(s.remainingTasks.value[1..])
    ensures r.sources.Some? && s.sources.GetOr([]) <= r.sources.value
    ensures r.toolExecution.Some? && r.taskResults.Some?
    ensures r.taskResults.value.Keys <= {s.remainingTasks.value[0].title}
    ensures r.sources == Some(s.sources.GetOr([]) + HitsOf(Executed(ToolDict(tools), respond(s.remainingTasks.value[0]), invoke), parse))
    ensures r.toolExecution == Some(LastOf(Executed(ToolDict(tools), respond(s.remainingTasks.value[0]), invoke)))
    ensures r.taskResults == Some(ResultsFor(s.remainingTasks.value[0].title, Executed(ToolDict(tools), respond(s.remainingTasks.value[0]), invoke)))
    ensures r.(remainingTasks := s.remainingTasks, toolExecution := s.toolExecution,
               sources := s.sources, taskResults := s.taskResults) == s
  {
    var task := s.remainingTasks.value[0];
    var execs := Executed(ToolDict(tools), respond(task), invoke);
    s.(remainingTasks := Some(s.remainingTasks.value[1..]),
       toolExecution := Some(LastOf(execs)),
       sources := Some(s.sources.GetOr([]) + HitsOf(execs, parse)),
       taskResults := Some(ResultsFor(task.title, execs)))
  }

  /** One more call: it adds its execution when its tool is registered, nothing otherwise. */
  lemma ExecutedStep(dict: map<string, Tool>, calls: seq<ToolCall>, i: nat, invoke: (Tool, ToolCall) -> string,
                     parse: string -> Option<seq<Source>>, title: string)
    requires i < |calls|
    ensures var prev := Executed(dict, calls[..i], invoke); var name := Lower(calls[i].name);
      && (name !in dict ==> Executed(dict, calls[..i + 1], invoke) == prev)
      && (name in dict ==>
            var x := ToolExecution(i + 1, name, calls[i].args, invoke(dict[name], calls[i]));
            && Executed(dict, calls[..i + 1], invoke) == prev + [x]
            && HitsOf(prev + [x], parse) == HitsOf(prev, parse) + HitsOfOne(x, parse)
            && ResultsFor(title, prev + [x]) == ResultsFor(title, prev)[title := x.result])
  {
    assert calls[..i + 1][..i] == calls[..i];
    var prev := Executed(dict, calls[..i], invoke);
    var name := Lower(calls[i].name);
    if name in dict {
      var x := ToolExecution(i + 1, name, calls[i].args, invoke(dict[name], calls[i]));
      assert (prev + [x])[..|prev|] == prev;
    }
  }

  /** `TaskSolver.__call__`: pop the task, then walk the model's tool calls in order. */
  method Solve(s: ResearchState, tools: seq<Tool>, respond: Task -> seq<ToolCall>,
               invoke: (Tool, ToolCall) -> string, parse: string -> Option<seq<Source>>) returns (next: ResearchState)
    requires s.remainingTasks.Some? && |s.remainingTasks.value| > 0
    ensures next == Solved(s, tools, respond, invoke, parse)
  {
    var queue := s.remainingTasks.value;
    var task := queue[0];
    queue := queue[1..];
    var calls := respond(task);
    var dict := ToolDict(tools);
    var executions: seq<ToolExecution> := [];
    var sources: seq<Source> := [];
    var results: map<string, string> := map[];
    for i := 0 to |calls|
      invariant executions == Executed(dict, calls[..i], invoke)
      invariant sources == HitsOf(executions, parse)
      invariant results == ResultsFor(task.title, executions)
    {
      ExecutedStep(dict, calls, i, invoke, parse, task.title);
      var name := Lower(calls[i].name);
      if name !in dict {
        continue;
      }
      var content := invoke(dict[name], calls[i]);
      results := results[task.title := content];
      executions := executions + [ToolExecution(i + 1, name, calls[i].args, content)];
      if name == WebSearch {
        var parsed := parse(content);
        if parsed.Some? {
          sources := sources + parsed.value;
        }
      }
    }
    assert calls[..|calls|] == calls;
    next := s.(remainingTasks := Some(queue),
               toolExecution := Some(if |executions| > 0 then Some(executions[|executions| - 1]) else None),
               sources := Some(s.sources.GetOr([]) + sources),
               taskResults := Some(results));
  }

  /** Each execution records the registered call at position `id` (1-based), with its result. */
  predicate RecordsCalls(dict: map<string, Tool>, calls: seq<ToolCall>, invoke: (Tool, ToolCall) -> string,
                         execs: seq<ToolExecution>)
  {
    forall k :: 0 <= k < |execs| ==>
      && 1 <= execs[k].id <= |calls|
      && Lower(calls[execs[k].id - 1].name) in dict
      && execs[k] == ToolExecution(execs[k].id, Lower(calls[execs[k].id - 1].name), calls[execs[k].id - 1].args,
                                   invoke(dict[Lower(calls[execs[k].id - 1].name)], calls[execs[k].id - 1]))
  }

  predicate IdsIncreasing(execs: seq<ToolExecution>) {
    forall k, l :: 0 <= k < l < |execs| ==> execs[k].id < execs[l].id
  }

  predicate CoversRegistered(dict: map<string, Tool>, calls: seq<ToolCall>, execs: seq<ToolExecution>) {
    forall i :: 0 <= i < |calls| && Lower(calls[i].name) in dict ==>
      exists k :: 0 <= k < |execs| && execs[k].id == i + 1
  }

  /**
   * The executions are exactly the registered calls, in call order, each numbered by its
   * 1-based position among all calls (skipped ones included).
   */
  lemma ExecutedCharacterisation(dict: map<string, Tool>, calls: seq<ToolCall>, invoke: (Tool, ToolCall) -> string)
    ensures RecordsCalls(dict, calls, invoke, Executed(dict, calls, invoke))
    ensures IdsIncreasing(Executed(dict, calls, invoke))
    ensures CoversRegistered(dict, calls, Executed(dict, calls, invoke))
  {
    ExecutedRecordsCalls(dict, calls, invoke);
    ExecutedCoversRegistered(dict, calls, invoke);
  }

  lemma {:induction false} ExecutedRecordsCalls(dict: map<string, Tool>, calls: seq<ToolCall>, invoke: (Tool, ToolCall) -> string)
    ensures RecordsCalls(dict, calls, invoke, Executed(dict, calls, invoke))
    ensures IdsIncreasing(Executed(dict, calls, invoke))
    decreases |calls|
  {
    if |calls| > 0 {
      var n := |calls|;
      var init := calls[..n - 1];
      ExecutedRecordsCalls(dict, init, invoke);
      var prev := Executed(dict, init, invoke);
      var execs := Executed(dict, calls, invoke);
      assert forall k :: 0 <= k < |prev| ==> execs[k] == prev[k];
      forall k | 0 <= k < |prev|
        ensures prev[k].id <= n - 1 && calls[prev[k].id - 1] == init[prev[k].id - 1]
      {
      }
    }
  }

  lemma {:induction false} ExecutedCoversRegistered(dict: map<string, Tool>, calls: seq<ToolCall>, invoke: (Tool, ToolCall) -> string)
    ensures CoversRegistered(dict, calls, Executed(dict, calls, invoke))
    decreases |calls|
  {
    if |calls| > 0 {
      var n := |calls|;
      var init := calls[..n - 1];
      ExecutedCoversRegistered(dict, init, invoke);
      var prev := Executed(dict, init, invoke);
      var execs := Executed(dict, calls, invoke);
      forall i | 0 <= i < n && Lower(calls[i].name) in dict
        ensures exists k :: 0 <= k < |execs| && execs[k].id == i + 1
      {
        if i < n - 1 {
          assert calls[i] == init[i];
          var k :| 0 <= k < |prev| && prev[k].id == i + 1;
          assert execs[k] == prev[k];
        } else {
          assert execs[|execs| - 1].id == n;
        }
      }
    }
  }

  /** Calls whose tools are not registered change neither the executions, the results nor the sources. */
  lemma {:induction false} SkippedCallsAddNothing(dict: map<string, Tool>, calls: seq<ToolCall>, more: seq<ToolCall>,
                                                  invoke: (Tool, ToolCall) -> string)
    requires forall j :: 0 <= j < |more| ==> Lower(more[j].name) !in dict
    ensures Executed(dict, calls + more, invoke) == Executed(dict, calls, invoke)
    decreases |more|
  {
    if |more| == 0 {
      assert calls + more == calls;
    } else {
      var init := more[..|more| - 1];
      SkippedCallsAddNothing(dict, calls, init, invoke);
      assert (calls + more)[..|calls + more| - 1] == calls + init;
    }
  }

  /** Hits accumulate in execution order: those of a concatenation are the concatenation of the hits. */
  lemma {:induction false} HitsAppend(a: seq<ToolExecution>, b: seq<ToolExecution>, parse: string -> Option<seq<Source>>)
    ensures HitsOf(a + b, parse) == HitsOf(a, parse) + HitsOf(b, parse)
    decreases |b|
  {
    if |b| == 0 {
      assert a + b == a;
    } else {
      var init := b[..|b| - 1];
      HitsAppend(a, init, parse);
      assert (a + b)[..|a + b| - 1] == a + init;
    }
  }

  /** Only web searches whose result decodes add sources. */
  lemma {:induction false} HitsOnlyFromWebSearch(execs: seq<ToolExecution>, parse: string -> Option<seq<Source>>)
    requires forall k :: 0 <= k < |execs| ==> execs[k].name != WebSearch || parse(execs[k].result).None?
    ensures HitsOf(execs, parse) == []
    decreases |execs|
  {
    if |execs| > 0 {
      HitsOnlyFromWebSearch(execs[..|execs| - 1], parse);
    }
  }

  /** Call j is registered and no later call is. */
  predicate LastRegistered(dict: map<string, Tool>, calls: seq<ToolCall>, j: int) {
    && 0 <= j < |calls|
    && Lower(calls[j].name) in dict
    && forall l :: j < l < |calls| ==> Lower(calls[l].name) !in dict
  }

  /** No call names a registered tool. */
  predicate NoneRegistered(dict: map<string, Tool>, calls: seq<ToolCall>) {
    forall j :: 0 <= j < |calls| ==> Lower(calls[j].name) !in dict
  }

  /** The execution call j produces. */
  function ExecutionOf(dict: map<string, Tool>, calls: seq<ToolCall>, j: nat, invoke: (Tool, ToolCall) -> string): ToolExecution
    requires j < |calls| && Lower(calls[j].name) in dict
  {
    ToolExecution(j + 1, Lower(calls[j].name), calls[j].args, invoke(dict[Lower(calls[j].name)], calls[j]))
  }

  /**
   * `tool_execution` is None exactly when no call names a registered tool; otherwise it
   * is the last registered call, numbered by its 1-based position.
   */
  lemma {:induction false} LastExecutedCall(dict: map<string, Tool>, calls: seq<ToolCall>, invoke: (Tool, ToolCall) -> string)
    ensures LastOf(Executed(dict, calls, invoke)).None? <==> NoneRegistered(dict, calls)
    ensures forall j :: LastRegistered(dict, calls, j) ==>
      LastOf(Executed(dict, calls, invoke)) == Some(ExecutionOf(dict, calls, j, invoke))
    decreases |calls|
  {
    if |calls| > 0 {
      var n := |calls|;
      var init := calls[..n - 1];
      LastExecutedCall(dict, init, invoke);
      if Lower(calls[n - 1].name) in dict {
        LastCallRegistered(dict, calls, invoke);
      } else {
        LastCallSkipped(dict, calls, invoke);
      }
    }
  }

  lemma LastCallRegistered(dict: map<string, Tool>, calls: seq<ToolCall>, invoke: (Tool, ToolCall) -> string)
    requires |calls| > 0 && Lower(calls[|calls| - 1].name) in dict
    ensures LastOf(Executed(dict, calls, invoke)) == Some(ExecutionOf(dict, calls, |calls| - 1, invoke))
    ensures !NoneRegistered(dict, calls)
    ensures forall j :: LastRegistered(dict, calls, j) ==> j == |calls| - 1
  {
  }

  lemma LastCallSkipped(dict: map<string, Tool>, calls: seq<ToolCall>, invoke: (Tool, ToolCall) -> string)
    requires |calls| > 0 && Lower(calls[|calls| - 1].name) !in dict
    ensures var init := calls[..|calls| - 1];
      && Executed(dict, calls, invoke) == Executed(dict, init, invoke)
      && (NoneRegistered(dict, calls) <==> NoneRegistered(dict, init))
      && (forall j :: LastRegistered(dict, calls, j) ==> LastRegistered(dict, init, j))
      && (forall j :: LastRegistered(dict, calls, j) ==> ExecutionOf(dict, calls, j, invoke) == ExecutionOf(dict, init, j, invoke))
  {
    var init := calls[..|calls| - 1];
    assert forall l :: 0 <= l < |init| ==> init[l] == calls[l];
  }
}
