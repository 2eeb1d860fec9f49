/**
 * The research flow (src/workflow/graph.py): a state machine over the three nodes,
 * entered at the router. The driver is modelled as an explicit loop; the language
 * model's answers are the `Backends` inputs.
 */
module Graph {
  import opened State
  import Router
  import Planner
  import Solver

  datatype Node = SemanticRouter | StructuredPlanner | TaskSolver | End

  /** One streamed update: the node that ran and the state it returned. */
  datatype Event = Event(node: Node, state: ResearchState)

  /**
   * What the language model and the tools answer: the classification of an input, the
   * plan for an input, the tool calls for the k-th solver step's task (0-based), the
   * tools' results and the decoding of a search result.
   */
  datatype Backends = Backends(
    classify: (string, seq<Message>) -> Router.Category,
    plan: (string, seq<Message>) -> Plan,
    toolCalls: (nat, Task) -> seq<ToolCall>,
    invoke: (Tool, ToolCall) -> string,
    parse: string -> Option<seq<Source>>)

  const NonCompliant := "NonCompliant"

  /** `_pre_guardrail`: the key must be present; only the exact label is refused. */
  predicate PreGuardrail(s: ResearchState)
    requires s.category.Some?
  {
    s.category.value != NonCompliant
  }

  /** `_has_tasks`: the plan (not the queue) has tasks. */
  predicate HasTasks(s: ResearchState)
    requires s.plan.Some?
  {
    |s.plan.value.tasks| > 0
  }

  /** `_has_remaining_tasks`: `bool(state["remaining_tasks"])`. */
  predicate HasRemainingTasks(s: ResearchState)
    requires s.remainingTasks.Some?
  {
    |s.remainingTasks.value| > 0
  }

  /** The state a node may be entered with: the solver needs a non-empty queue to pop from. */
  predicate Ready(n: Node, s: ResearchState) {
    n == TaskSolver ==> s.remainingTasks.Some? && |s.remainingTasks.value| > 0
  }

  /** The conditional edges, each reading the state its node returned. */
  function Successor(n: Node, s: ResearchState): (m: Node)
    requires n == SemanticRouter ==> s.category.Some?
    requires n == StructuredPlanner ==> s.plan.Some? && s.remainingTasks == Some(s.plan.value.tasks)
    requires n == TaskSolver ==> s.remainingTasks.Some?
    ensures Ready(m, s)
    ensures n == SemanticRouter ==> (m == StructuredPlanner <==> PreGuardrail(s)) && m in {StructuredPlanner, End}
    ensures n == StructuredPlanner ==> (m == TaskSolver <==> HasTasks(s)) && m in {TaskSolver, End}
    ensures n == TaskSolver ==> (m == TaskSolver <==> HasRemainingTasks(s)) && m in {TaskSolver, End}
    ensures n == End ==> m == End
  {
    match n
    case SemanticRouter => if PreGuardrail(s) then StructuredPlanner else End
    case StructuredPlanner => if HasTasks(s) then TaskSolver else End
    case TaskSolver => if HasRemainingTasks(s) then TaskSolver else End
    case End => End
  }

  /** The tool-call answers the k-th solver step sees. */
  function StepCalls(b: Backends, k: nat): Task -> seq<ToolCall> {
    t => b.toolCalls(k, t)
  }

  /** Running node `n` on `s` as the k-th solver step (k counts only solver steps). */
  function Apply(n: Node, s: ResearchState, k: nat, tools: seq<Tool>, b: Backends): ResearchState
    requires n != End && Ready(n, s)
  {
    match n
    case SemanticRouter => Router.Route(s, b.classify(s.userInput, s.messages))
    case StructuredPlanner => Planner.PlanStep(s, b.plan(s.userInput, s.messages))
    case TaskSolver => Solver.Solved(s, tools, StepCalls(b, k), b.invoke, b.parse)
  }

  function Rank(n: Node): nat {
    match n
    case SemanticRouter => 3
    case StructuredPlanner => 2
    case TaskSolver => 1
    case End => 0
  }

  function Pending(s: ResearchState): nat {
    if s.remainingTasks.Some? then |s.remainingTasks.value| else 0
  }

  /** The updates streamed from node `n` on: the run ends when the edge leads to `End`. */
  function From(n: Node, s: ResearchState, k: nat, tools: seq<Tool>, b: Backends): seq<Event>
    requires Ready(n, s)
    decreases Rank(n), Pending(s)
  {
    if n == End then []
    else
      var next := Apply(n, s, k, tools, b);
      [Event(n, next)] + From(Successor(n, next), next, if n == TaskSolver then k + 1 else k, tools, b)
  }

  /** All updates of one run; every run starts at the router. */
  function Trace(init: ResearchState, tools: seq<Tool>, b: Backends): seq<Event> {
    From(SemanticRouter, init, 0, tools, b)
  }

  /** The compiled graph's streaming loop: run the current node, emit its update, follow the edge. */
  method Run(init: ResearchState, tools: seq<Tool>, b: Backends) returns (events: seq<Event>)
    ensures events == Trace(init, tools, b)
  {
    var node := SemanticRouter;
    var state := init;
    var solved := 0;
    events := [];
    while node != End
      invariant Ready(node, state)
      invariant events + From(node, state, solved, tools, b) == Trace(init, tools, b)
      decreases Rank(node), Pending(state)
    {
      ghost var before := events;
      FromStep(node, state, solved, tools, b);
      ghost var next := Apply(node, state, solved, tools, b);
      match node {
        case SemanticRouter =>
          state := Router.Route(state, b.classify(state.userInput, state.messages));
        case StructuredPlanner =>
          state := Planner.PlanStep(state, b.plan(state.userInput, state.messages));
        case TaskSolver =>
          state := Solver.Solve(state, tools, StepCalls(b, solved), b.invoke, b.parse);
      }
      assert state == next;
      var from := node;
      events := events + [Event(from, state)];
      node := Successor(from, state);
      if from == TaskSolver {
        solved := solved + 1;
      }
      AppendAssoc(before, Event(from, next), From(node, next, solved, tools, b));
    }
  }

  /** One step of a run: the node's update, then the updates from where its edge leads. */
  lemma FromStep(n: Node, s: ResearchState, k: nat, tools: seq<Tool>, b: Backends)
    requires n != End && Ready(n, s)
    ensures var next := Apply(n, s, k, tools, b);
      && Ready(Successor(n, next), next)
      && (Rank(Successor(n, next)) < Rank(n) || (Rank(Successor(n, next)) == Rank(n) && Pending(next) < Pending(s)))
      && From(n, s, k, tools, b) == [Event(n, next)] + From(Successor(n, next), next, if n == TaskSolver then k + 1 else k, tools, b)
  {
  }

  lemma AppendAssoc(a: seq<Event>, e: Event, c: seq<Event>)
    ensures a + ([e] + c) == (a + [e]) + c
  {
  }

  /** The state the router produces. */
  function Routed(init: ResearchState, b: Backends): ResearchState {
    Router.Route(init, b.classify(init.userInput, init.messages))
  }

  /** The plan the model returns for the routed input. */
  function PlanOf(init: ResearchState, b: Backends): Plan {
    var r := Routed(init, b);
    b.plan(r.userInput, r.messages)
  }

  /** The fields a solver step leaves alone. */
  predicate KeepsTurn(s: ResearchState, t: ResearchState) {
    t.messages == s.messages && t.userInput == s.userInput && t.category == s.category && t.plan == s.plan
  }

  /** The solver updates drain the queue `q` one task per step, leaving the rest of the turn alone. */
  predicate DrainsQueue(q: seq<Task>, s: ResearchState, ev: seq<Event>) {
    && |ev| == |q|
    && forall i :: 0 <= i < |ev| ==>
         ev[i].node == TaskSolver && ev[i].state.remainingTasks == Some(q[i + 1..]) && KeepsTurn(s, ev[i].state)
  }

  lemma {:induction false} SolverPhase(s: ResearchState, k: nat, tools: seq<Tool>, b: Backends)
    requires s.remainingTasks.Some? && |s.remainingTasks.value| > 0
    ensures DrainsQueue(s.remainingTasks.value, s, From(TaskSolver, s, k, tools, b))
    decreases |s.remainingTasks.value|
  {
    var q := s.remainingTasks.value;
    var next := Apply(TaskSolver, s, k, tools, b);
    var ev := From(TaskSolver, s, k, tools, b);
    assert ev == [Event(TaskSolver, next)] + From(Successor(TaskSolver, next), next, k + 1, tools, b);
    if |q| > 1 {
      var rest := From(TaskSolver, next, k + 1, tools, b);
      SolverPhase(next, k + 1, tools, b);
      forall i | 1 <= i < |ev|
        ensures ev[i].state.remainingTasks == Some(q[i + 1..])
      {
        assert ev[i] == rest[i - 1];
        assert q[1..][i..] == q[i + 1..];
      }
    }
  }

  /** What the k-th solver step on task t stores as `tool_execution`: its last execution, or None. */
  function StepExecution(tools: seq<Tool>, b: Backends, k: nat, t: Task): Option<ToolExecution> {
    Solver.LastOf(Solver.Executed(Solver.ToolDict(tools), b.toolCalls(k, t), b.invoke))
  }

  /** Solver update i runs step k + i on task q[i] and stores that step's execution. */
  predicate ExecutesQueue(q: seq<Task>, k: nat, tools: seq<Tool>, b: Backends, ev: seq<Event>) {
    && |ev| == |q|
    && forall i :: 0 <= i < |ev| ==> ev[i].state.toolExecution == Some(StepExecution(tools, b, k + i, q[i]))
  }

  /** One solver step pops the first task and stores the execution of that task's step. */
  lemma SolverStepRecords(s: ResearchState, k: nat, tools: seq<Tool>, b: Backends)
    requires s.remainingTasks.Some? && |s.remainingTasks.value| > 0
    ensures Apply(TaskSolver, s, k, tools, b).remainingTasks == Some(s.remainingTasks.value[1..])
    ensures Apply(TaskSolver, s, k, tools, b).toolExecution == Some(StepExecution(tools, b, k, s.remainingTasks.value[0]))
  {
  }

  lemma {:induction false} SolverPhaseExecutions(s: ResearchState, k: nat, tools: seq<Tool>, b: Backends)
    requires s.remainingTasks.Some? && |s.remainingTasks.value| > 0
    ensures ExecutesQueue(s.remainingTasks.value, k, tools, b, From(TaskSolver, s, k, tools, b))
    decreases |s.remainingTasks.value|
  {
    var q := s.remainingTasks.value;
    var next := Apply(TaskSolver, s, k, tools, b);
    FromStep(TaskSolver, s, k, tools, b);
    SolverStepRecords(s, k, tools, b);
    var rest := From(Successor(TaskSolver, next), next, k + 1, tools, b);
    if |q| > 1 {
      SolverPhaseExecutions(next, k + 1, tools, b);
    }
    ExecutesCons(q, k, tools, b, Event(TaskSolver, next), rest);
  }

  lemma ExecutesCons(q: seq<Task>, k: nat, tools: seq<Tool>, b: Backends, e: Event, rest: seq<Event>)
    requires |q| > 0 && e.state.toolExecution == Some(StepExecution(tools, b, k, q[0]))
    requires |q| == 1 ==> rest == []
    requires |q| > 1 ==> ExecutesQueue(q[1..], k + 1, tools, b, rest)
    ensures ExecutesQueue(q, k, tools, b, [e] + rest)
  {
    var ev := [e] + rest;
    forall i | 1 <= i < |ev|
      ensures ev[i].state.toolExecution == Some(StepExecution(tools, b, k + i, q[i]))
    {
      assert ev[i] == rest[i - 1];
      assert q[1..][i - 1] == q[i];
    }
  }

  /** The search hits of the k-th solver step, on task t. */
  function StepHits(tools: seq<Tool>, b: Backends, k: nat, t: Task): seq<Source> {
    Solver.HitsOf(Solver.Executed(Solver.ToolDict(tools), b.toolCalls(k, t), b.invoke), b.parse)
  }

  /** The hits of the solver steps k, k + 1, ... on the tasks in order. */
  function Gathered(tools: seq<Tool>, b: Backends, tasks: seq<Task>, k: nat): seq<Source>
    decreases |tasks|
  {
    if |tasks| == 0 then [] else StepHits(tools, b, k, tasks[0]) + Gathered(tools, b, tasks[1..], k + 1)
  }

  /** At the end of the solver phase the sources are the old ones followed by every step's hits. */
  lemma {:induction false} SolverPhaseSources(s: ResearchState, k: nat, tools: seq<Tool>, b: Backends)
    requires s.remainingTasks.Some? && |s.remainingTasks.value| > 0
    ensures |From(TaskSolver, s, k, tools, b)| > 0
    ensures var ev := From(TaskSolver, s, k, tools, b);
      ev[|ev| - 1].state.sources == Some(s.sources.GetOr([]) + Gathered(tools, b, s.remainingTasks.value, k))
    decreases |s.remainingTasks.value|
  {
    var q := s.remainingTasks.value;
    var next := Apply(TaskSolver, s, k, tools, b);
    FromStep(TaskSolver, s, k, tools, b);
    var hits := StepHits(tools, b, k, q[0]);
    assert next.sources == Some(s.sources.GetOr([]) + hits) && next.remainingTasks == Some(q[1..]);
    var rest := From(Successor(TaskSolver, next), next, k + 1, tools, b);
    if |q| > 1 {
      SolverPhaseSources(next, k + 1, tools, b);
      assert Successor(TaskSolver, next) == TaskSolver;
      SourcesChain(s.sources.GetOr([]), hits, Gathered(tools, b, q[1..], k + 1));
    } else {
      assert Successor(TaskSolver, next) == End;
      assert rest == [];
      assert hits + [] == hits;
    }
    LastOfCons(Event(TaskSolver, next), rest);
  }

  lemma SourcesChain(prior: seq<Source>, hits: seq<Source>, more: seq<Source>)
    ensures prior + (hits + more) == (prior + hits) + more
  {
  }

  /** The last update after the first one is the last of the rest, if there is a rest. */
  lemma LastOfCons(e: Event, rest: seq<Event>)
    ensures var ev := [e] + rest; ev[|ev| - 1] == if |rest| == 0 then e else rest[|rest| - 1]
  {
  }

  /** The first two updates of a run, unfolded. */
  lemma TraceShape(init: ResearchState, tools: seq<Tool>, b: Backends)
    ensures Trace(init, tools, b)
      == [Event(SemanticRouter, Routed(init, b))] + From(Successor(SemanticRouter, Routed(init, b)), Routed(init, b), 0, tools, b)
    ensures var planned := Planner.PlanStep(Routed(init, b), PlanOf(init, b));
      From(StructuredPlanner, Routed(init, b), 0, tools, b)
      == [Event(StructuredPlanner, planned)] + From(Successor(StructuredPlanner, planned), planned, 0, tools, b)
  {
    assert Apply(SemanticRouter, init, 0, tools, b) == Routed(init, b);
    assert Apply(StructuredPlanner, Routed(init, b), 0, tools, b) == Planner.PlanStep(Routed(init, b), PlanOf(init, b));
  }

  /** Non-compliant input: only the router runs, so the plan and the queue are never set. */
  lemma NonCompliantStopsAtRouter(init: ResearchState, tools: seq<Tool>, b: Backends)
    requires b.classify(init.userInput, init.messages).name == NonCompliant
    ensures Trace(init, tools, b) == [Event(SemanticRouter, Routed(init, b))]
    ensures Routed(init, b).plan == init.plan && Routed(init, b).remainingTasks == init.remainingTasks
  {
    TraceShape(init, tools, b);
  }

  /**
   * Compliant input: the router, then the planner, then one solver step per planned task;
   * step i (counting from 1) leaves the tasks after the i-th in the queue and the plan as it was.
   */
  lemma CompliantRun(init: ResearchState, tools: seq<Tool>, b: Backends)
    requires b.classify(init.userInput, init.messages).name != NonCompliant
    ensures var p := PlanOf(init, b); var ev := Trace(init, tools, b);
      && |ev| == 2 + |p.tasks|
      && ev[0] == Event(SemanticRouter, Routed(init, b))
      && ev[1] == Event(StructuredPlanner, Planner.PlanStep(Routed(init, b), p))
      && forall i :: 2 <= i < |ev| ==>
           ev[i].node == TaskSolver && ev[i].state.plan == Some(p) && ev[i].state.remainingTasks == Some(p.tasks[i - 1..])
  {
    var routed := Routed(init, b);
    var p := PlanOf(init, b);
    var planned := Planner.PlanStep(routed, p);
    var ev := Trace(init, tools, b);
    var solver := From(Successor(StructuredPlanner, planned), planned, 0, tools, b);
    TraceShape(init, tools, b);
    assert ev == [Event(SemanticRouter, routed)] + ([Event(StructuredPlanner, planned)] + solver);
    if |p.tasks| > 0 {
      SolverPhase(planned, 0, tools, b);
      forall i | 2 <= i < |ev|
        ensures ev[i].node == TaskSolver && ev[i].state.plan == Some(p) && ev[i].state.remainingTasks == Some(p.tasks[i - 1..])
      {
        assert ev[i] == solver[i - 2];
      }
    }
  }

  /** The number of updates a node emitted. */
  function Count(ev: seq<Event>, n: Node): nat
    decreases |ev|
  {
    if |ev| == 0 then 0 else Count(ev[..|ev| - 1], n) + (if ev[|ev| - 1].node == n then 1 else 0)
  }

  lemma {:induction false} CountAppend(a: seq<Event>, c: seq<Event>, n: Node)
    ensures Count(a + c, n) == Count(a, n) + Count(c, n)
    decreases |c|
  {
    if |c| == 0 {
      assert a + c == a;
    } else {
      CountAppend(a, c[..|c| - 1], n);
      assert (a + c)[..|a + c| - 1] == a + c[..|c| - 1];
    }
  }

  lemma {:induction false} CountAll(ev: seq<Event>, n: Node)
    requires forall i :: 0 <= i < |ev| ==> ev[i].node == n
    ensures Count(ev, n) == |ev|
    decreases |ev|
  {
    if |ev| > 0 {
      CountAll(ev[..|ev| - 1], n);
    }
  }

  /**
   * The planner runs once iff the category is not `NonCompliant`, never otherwise; the solver
   * runs exactly once per planned task, so never for an empty plan.
   */
  lemma NodeCounts(init: ResearchState, tools: seq<Tool>, b: Backends)
    ensures var compliant := b.classify(init.userInput, init.messages).name != NonCompliant;
      && Count(Trace(init, tools, b), SemanticRouter) == 1
      && Count(Trace(init, tools, b), StructuredPlanner) == (if compliant then 1 else 0)
      && Count(Trace(init, tools, b), TaskSolver) == (if compliant then |PlanOf(init, b).tasks| else 0)
  {
    var ev := Trace(init, tools, b);
    if b.classify(init.userInput, init.messages).name == NonCompliant {
      NonCompliantStopsAtRouter(init, tools, b);
      assert ev[..0] == [];
    } else {
      CompliantRun(init, tools, b);
      var head, solver := [ev[0], ev[1]], ev[2..];
      assert ev == head + solver;
      CountPair(ev[0], ev[1], SemanticRouter);
      CountPair(ev[0], ev[1], StructuredPlanner);
      CountPair(ev[0], ev[1], TaskSolver);
      CountAppend(head, solver, SemanticRouter);
      CountAppend(head, solver, StructuredPlanner);
      CountAppend(head, solver, TaskSolver);
      CountAll(solver, TaskSolver);
      assert ev[0].node == SemanticRouter && ev[1].node == StructuredPlanner;
      forall n | n != TaskSolver
        ensures Count(solver, n) == 0
      {
        CountNone(solver, n);
      }
    }
  }

  lemma CountPair(e0: Event, e1: Event, n: Node)
    ensures Count([e0, e1], n) == (if e0.node == n then 1 else 0) + (if e1.node == n then 1 else 0)
  {
    assert [e0, e1][..1] == [e0];
    assert [e0][..0] == [];
    assert Count([e0], n) == Count([], n) + (if e0.node == n then 1 else 0);
    assert Count([e0, e1], n) == Count([e0], n) + (if e1.node == n then 1 else 0);
  }

  lemma {:induction false} CountNone(ev: seq<Event>, n: Node)
    requires forall i :: 0 <= i < |ev| ==> ev[i].node != n
    ensures Count(ev, n) == 0
    decreases |ev|
  {
    if |ev| > 0 {
      CountNone(ev[..|ev| - 1], n);
    }
  }

  /**
   * After a compliant run the last update comes from the solver (the planner if there are
   * no tasks), the queue is empty, the input is the router's, the plan is the model's, and
   * the sources are the initial ones followed by the hits of every task in order.
   */
  lemma CompliantFinalState(init: ResearchState, tools: seq<Tool>, b: Backends)
    requires b.classify(init.userInput, init.messages).name != NonCompliant
    ensures var ev := Trace(init, tools, b); var p := PlanOf(init, b);
      && |ev| >= 2
      && ev[|ev| - 1].node == (if |p.tasks| > 0 then TaskSolver else StructuredPlanner)
      && ev[|ev| - 1].state.userInput == Routed(init, b).userInput
      && ev[|ev| - 1].state.messages == init.messages
      && ev[|ev| - 1].state.plan == Some(p)
      && ev[|ev| - 1].state.remainingTasks == Some([])
      && ev[|ev| - 1].state.sources ==
           (if |p.tasks| > 0 then Some(init.sources.GetOr([]) + Gathered(tools, b, p.tasks, 0)) else init.sources)
  {
    var routed := Routed(init, b);
    var p := PlanOf(init, b);
    var planned := Planner.PlanStep(routed, p);
    var ev := Trace(init, tools, b);
    var solver := From(Successor(StructuredPlanner, planned), planned, 0, tools, b);
    TraceShape(init, tools, b);
    assert ev == [Event(SemanticRouter, routed)] + ([Event(StructuredPlanner, planned)] + solver);
    if |p.tasks| > 0 {
      SolverPhase(planned, 0, tools, b);
      SolverPhaseSources(planned, 0, tools, b);
      assert Successor(StructuredPlanner, planned) == TaskSolver;
      assert ev[|ev| - 1] == solver[|solver| - 1];
      assert p.tasks[|p.tasks|..] == [];
      assert KeepsTurn(planned, solver[|solver| - 1].state);
    }
  }

  /** In a compliant run, update i + 2 comes from the solver step on task i and stores that step's execution. */
  lemma CompliantExecutions(init: ResearchState, tools: seq<Tool>, b: Backends)
    requires b.classify(init.userInput, init.messages).name != NonCompliant
    ensures var p := PlanOf(init, b); var ev := Trace(init, tools, b);
      && |ev| == 2 + |p.tasks|
      && forall i :: 0 <= i < |p.tasks| ==> ev[i + 2].state.toolExecution == Some(StepExecution(tools, b, i, p.tasks[i]))
  {
    var routed := Routed(init, b);
    var p := PlanOf(init, b);
    var planned := Planner.PlanStep(routed, p);
    var ev := Trace(init, tools, b);
    var solver := From(Successor(StructuredPlanner, planned), planned, 0, tools, b);
    TraceShape(init, tools, b);
    assert ev == [Event(SemanticRouter, routed)] + ([Event(StructuredPlanner, planned)] + solver);
    if |p.tasks| > 0 {
      assert Successor(StructuredPlanner, planned) == TaskSolver;
      SolverPhaseExecutions(planned, 0, tools, b);
      forall i | 0 <= i < |p.tasks|
        ensures ev[i + 2].state.toolExecution == Some(StepExecution(tools, b, i, p.tasks[i]))
      {
        assert ev[i + 2] == solver[i];
      }
    } else {
      assert Successor(StructuredPlanner, planned) == End;
    }
  }
}
