/**
 * The chat handler (app.py): deduplicating and reranking the gathered sources, choosing
 * the responder, and the conversation history kept across turns. The rerank backend, the
 * summarizer's stream and the quick responder's answer are inputs.
 */
module App {
  import opened State
  import opened Strings
  import Json
  import Reranker
  import Graph
  import Summarizer
  import Router
  import Planner
  import Solver

  /** The number of sources kept after reranking (`k=5`). */
  const TopK := 5

  // ---------------------------------------------------------------- deduplication

  /** An insertion-ordered dictionary keyed by url: its key order and its entries. */
  datatype UrlIndex = UrlIndex(order: seq<string>, entries: map<string, Source>)

  /** `D[source["url"]] = source`: a new key goes last, a known key keeps its place and takes the new value. */
  function Put(d: UrlIndex, s: Source): UrlIndex {
    if s.url in d.entries then d.(entries := d.entries[s.url := s])
    else UrlIndex(d.order + [s.url], d.entries[s.url := s])
  }

  /** `{source["url"]: source for source in sources}`. */
  function ByUrl(sources: seq<Source>): (d: UrlIndex)
    ensures forall j, l :: 0 <= j < l < |d.order| ==> d.order[j] != d.order[l]
    ensures forall u :: u in d.entries <==> u in d.order
    ensures forall u :: u in d.entries ==> d.entries[u].url == u
    decreases |sources|
  {
    if |sources| == 0 then UrlIndex([], map[]) else Put(ByUrl(sources[..|sources| - 1]), sources[|sources| - 1])
  }

  /** `D.values()`, in key order. */
  function DedupedSources(sources: seq<Source>): seq<Source> {
    var d := ByUrl(sources);
    seq(|d.order|, j requires 0 <= j < |d.order| => d.entries[d.order[j]])
  }

  /** `_deduplicate_source`: one JSON document of title, url and content per distinct url. */
  function Deduplicate(sources: seq<Source>): seq<string> {
    var d := DedupedSources(sources);
    seq(|d|, j requires 0 <= j < |d| => Json.Encode(d[j]))
  }

  /** The urls that occur in the sources. */
  function Urls(sources: seq<Source>): set<string> {
    set i | 0 <= i < |sources| :: sources[i].url
  }

  /** The position where a url first occurs. */
  function FirstIndex(sources: seq<Source>, u: string): (i: nat)
    requires u in Urls(sources)
    ensures i < |sources| && sources[i].url == u
    ensures forall j :: 0 <= j < i ==> sources[j].url != u
    decreases |sources|
  {
    var init := sources[..|sources| - 1];
    assert forall j :: 0 <= j < |init| ==> init[j] == sources[j];
    if u in Urls(init) then FirstIndex(init, u) else |sources| - 1
  }

  /** The position where a url last occurs. */
  function LastIndex(sources: seq<Source>, u: string): (i: nat)
    requires u in Urls(sources)
    ensures i < |sources| && sources[i].url == u
    ensures forall j :: i < j < |sources| ==> sources[j].url != u
    decreases |sources|
  {
    var init := sources[..|sources| - 1];
    if sources[|sources| - 1].url == u then |sources| - 1
    else
      assert u in Urls(init) by {
        var i :| 0 <= i < |sources| && sources[i].url == u;
        assert init[i] == sources[i];
      }
      LastIndex(init, u)
  }

  /** Url u first occurs before url v. */
  predicate FirstBefore(sources: seq<Source>, u: string, v: string) {
    u in Urls(sources) && v in Urls(sources) && FirstIndex(sources, u) < FirstIndex(sources, v)
  }

  lemma UrlsSnoc(sources: seq<Source>)
    requires |sources| > 0
    ensures Urls(sources) == Urls(sources[..|sources| - 1]) + {sources[|sources| - 1].url}
  {
    var init := sources[..|sources| - 1];
    assert forall i :: 0 <= i < |init| ==> init[i] == sources[i];
    forall u | u in Urls(sources)
      ensures u in Urls(init) + {sources[|sources| - 1].url}
    {
      var i :| 0 <= i < |sources| && sources[i].url == u;
      if i < |init| {
        assert init[i].url == u;
      }
    }
  }

  /** The dictionary holds exactly the urls of the sources. */
  lemma {:induction false} ByUrlKeys(sources: seq<Source>)
    ensures forall u :: u in ByUrl(sources).order <==> u in Urls(sources)
    decreases |sources|
  {
    if |sources| > 0 {
      ByUrlKeys(sources[..|sources| - 1]);
      UrlsSnoc(sources);
    }
  }

  /** Each url maps to the source seen last for it. */
  lemma {:induction false} ByUrlLastWins(sources: seq<Source>)
    ensures forall u :: u in ByUrl(sources).entries ==> u in Urls(sources) && ByUrl(sources).entries[u] == sources[LastIndex(sources, u)]
    decreases |sources|
  {
    if |sources| > 0 {
      var n := |sources|;
      var init := sources[..n - 1];
      var s := sources[n - 1];
      ByUrlLastWins(init);
      UrlsSnoc(sources);
      var d, d' := ByUrl(init), ByUrl(sources);
      forall u | u in d'.entries
        ensures u in Urls(sources) && d'.entries[u] == sources[LastIndex(sources, u)]
      {
        if u != s.url {
          assert u in d.entries && d'.entries[u] == d.entries[u];
          assert LastIndex(sources, u) == LastIndex(init, u);
          assert init[LastIndex(init, u)] == sources[LastIndex(init, u)];
        }
      }
    }
  }

  /** A url of the prefix first occurs where it first occurs in the prefix. */
  lemma FirstIndexSnoc(sources: seq<Source>, u: string)
    requires |sources| > 0 && u in Urls(sources[..|sources| - 1])
    ensures u in Urls(sources) && FirstIndex(sources, u) == FirstIndex(sources[..|sources| - 1], u)
  {
    UrlsSnoc(sources);
  }

  /** The key order is the order of first occurrence. */
  lemma {:induction false} ByUrlFirstOrder(sources: seq<Source>)
    ensures forall j, l :: 0 <= j < l < |ByUrl(sources).order| ==>
      FirstBefore(sources, ByUrl(sources).order[j], ByUrl(sources).order[l])
    decreases |sources|
  {
    if |sources| > 0 {
      var init := sources[..|sources| - 1];
      var s := sources[|sources| - 1];
      ByUrlFirstOrder(init);
      ByUrlKeys(init);
      var o, o' := ByUrl(init).order, ByUrl(sources).order;
      if s.url in ByUrl(init).entries {
        assert o' == o;
      } else {
        assert o' == o + [s.url];
      }
      OrderExtend(sources, o, o');
    }
  }

  /** One more source: the keys seen so far keep their order, and a new url goes after them. */
  lemma OrderExtend(sources: seq<Source>, o: seq<string>, o': seq<string>)
    requires |sources| > 0
    requires forall j, l :: 0 <= j < l < |o| ==> FirstBefore(sources[..|sources| - 1], o[j], o[l])
    requires forall u :: u in o <==> u in Urls(sources[..|sources| - 1])
    requires o' == o || o' == o + [sources[|sources| - 1].url]
    requires o' != o ==> sources[|sources| - 1].url !in Urls(sources[..|sources| - 1])
    ensures forall j, l :: 0 <= j < l < |o'| ==> FirstBefore(sources, o'[j], o'[l])
  {
    var n := |sources|;
    var init := sources[..n - 1];
    UrlsSnoc(sources);
    forall j | 0 <= j < |o|
      ensures o[j] in Urls(init) && o[j] in Urls(sources)
      ensures FirstIndex(sources, o[j]) == FirstIndex(init, o[j]) < n - 1
    {
      assert o[j] in o;
      FirstIndexSnoc(sources, o[j]);
    }
    forall j, l | 0 <= j < l < |o'|
      ensures FirstBefore(sources, o'[j], o'[l])
    {
      assert o'[j] == o[j];
      if l < |o| {
        assert o'[l] == o[l] && FirstBefore(init, o[j], o[l]);
      } else {
        assert FirstIndex(sources, o'[l]) == n - 1;
      }
    }
  }

  /** The values of the dictionary, by key position. */
  lemma DedupedAt(sources: seq<Source>)
    ensures |DedupedSources(sources)| == |ByUrl(sources).order|
    ensures forall j :: 0 <= j < |DedupedSources(sources)| ==>
      DedupedSources(sources)[j] == ByUrl(sources).entries[ByUrl(sources).order[j]]
      && DedupedSources(sources)[j].url == ByUrl(sources).order[j]
  {
  }

  /** `_deduplicate_source`'s entries, as sources: one per distinct url, the last seen, in first-occurrence order. */
  lemma DedupSpec(sources: seq<Source>)
    ensures var r := DedupedSources(sources);
      && (forall j, l :: 0 <= j < l < |r| ==> r[j].url != r[l].url)
      && (forall u :: u in Urls(sources) <==> exists j :: 0 <= j < |r| && r[j].url == u)
      && (forall j :: 0 <= j < |r| ==> r[j].url in Urls(sources) && r[j] == sources[LastIndex(sources, r[j].url)])
      && (forall j, l :: 0 <= j < l < |r| ==> FirstBefore(sources, r[j].url, r[l].url))
  {
    var d := ByUrl(sources);
    var r := DedupedSources(sources);
    DedupedAt(sources);
    DedupDistinct(sources);
    DedupCovers(sources);
    DedupLastWins(sources);
    DedupFirstOrder(sources);
  }

  lemma DedupDistinct(sources: seq<Source>)
    ensures var r := DedupedSources(sources); forall j, l :: 0 <= j < l < |r| ==> r[j].url != r[l].url
  {
    DedupedAt(sources);
  }

  lemma DedupCovers(sources: seq<Source>)
    ensures var r := DedupedSources(sources); forall u :: u in Urls(sources) <==> exists j :: 0 <= j < |r| && r[j].url == u
  {
    ByUrlKeys(sources);
    DedupedAt(sources);
    var d := ByUrl(sources);
    var r := DedupedSources(sources);
    forall u | u in Urls(sources)
      ensures exists j :: 0 <= j < |r| && r[j].url == u
    {
      var j :| 0 <= j < |d.order| && d.order[j] == u;
      assert r[j].url == u;
    }
  }

  lemma DedupLastWins(sources: seq<Source>)
    ensures var r := DedupedSources(sources);
      forall j :: 0 <= j < |r| ==> r[j].url in Urls(sources) && r[j] == sources[LastIndex(sources, r[j].url)]
  {
    ByUrlLastWins(sources);
    DedupedAt(sources);
  }

  lemma DedupFirstOrder(sources: seq<Source>)
    ensures var r := DedupedSources(sources); forall j, l :: 0 <= j < l < |r| ==> FirstBefore(sources, r[j].url, r[l].url)
  {
    ByUrlFirstOrder(sources);
    DedupedAt(sources);
  }

  /** There are exactly as many entries as distinct urls. */
  lemma DedupCount(sources: seq<Source>)
    ensures |DedupedSources(sources)| == |Urls(sources)|
  {
    ByUrlKeys(sources);
    var o := ByUrl(sources).order;
    DistinctCard(o);
    assert (set u | u in o) == Urls(sources);
  }

  lemma {:induction false} DistinctCard(o: seq<string>)
    requires forall j, l :: 0 <= j < l < |o| ==> o[j] != o[l]
    ensures |set u | u in o| == |o|
    decreases |o|
  {
    if |o| > 0 {
      var init := o[..|o| - 1];
      DistinctCard(init);
      assert (set u | u in o) == (set u | u in init) + {o[|o| - 1]};
      assert o[|o| - 1] !in init;
    }
  }

  /** Each document loads back as the projection of its entry. */
  lemma DeduplicateRoundTrip(sources: seq<Source>)
    ensures |Deduplicate(sources)| == |DedupedSources(sources)|
    ensures forall j :: 0 <= j < |Deduplicate(sources)| ==>
      Json.Decode(Deduplicate(sources)[j]) == Some(Json.Project(DedupedSources(sources)[j]))
  {
    var d := DedupedSources(sources);
    forall j | 0 <= j < |d|
      ensures Json.Decode(Deduplicate(sources)[j]) == Some(Json.Project(d[j]))
    {
      Json.RoundTrip(d[j]);
    }
  }

  // ---------------------------------------------------------------- rerank

  /** `json.loads` of one kept document. */
  function Load(doc: string): Source {
    Json.Decode(doc).GetOr(Source("", "", "", map[]))
  }

  /** `rerank(user_input, sources)`: rerank the deduplicated documents with `k=5` and load the kept ones back. */
  function Consolidate(query: string, sources: seq<Source>, backend: Reranker.Request -> seq<int>): seq<Source> {
    var kept := Reranker.Rerank(Deduplicate(sources), query, TopK, backend).docs;
    seq(|kept|, j requires 0 <= j < |kept| => Load(kept[j]))
  }

  /** The positions, among the deduplicated entries, of the documents the reranker keeps. */
  function KeptPositions(query: string, sources: seq<Source>, backend: Reranker.Request -> seq<int>): seq<nat> {
    var docs := Deduplicate(sources);
    if docs == [] then [] else Reranker.Positions(|docs|, backend(Reranker.Request(query, docs, Reranker.Min(TopK, |docs|))))
  }

  /** The reranked sources are the entries at ascending positions, loaded back as their projections. */
  lemma ConsolidateAt(query: string, sources: seq<Source>, backend: Reranker.Request -> seq<int>)
    ensures var r := Consolidate(query, sources, backend); var d := DedupedSources(sources);
      var pos := KeptPositions(query, sources, backend);
      && |pos| == |r|
      && (forall j :: 0 <= j < |pos| ==> pos[j] < |d| && r[j] == Json.Project(d[pos[j]]))
      && (forall j, l :: 0 <= j < l < |pos| ==> pos[j] < pos[l])
  {
    var r := Consolidate(query, sources, backend);
    var d := DedupedSources(sources);
    var docs := Deduplicate(sources);
    DeduplicateRoundTrip(sources);
    if docs != [] {
      var indices := backend(Reranker.Request(query, docs, Reranker.Min(TopK, |docs|)));
      Reranker.SelectAtPositions(docs, indices);
      Reranker.PositionsSpec(|docs|, indices);
      var pos := Reranker.Positions(|docs|, indices);
      forall j | 0 <= j < |pos|
        ensures r[j] == Json.Project(d[pos[j]])
      {
        assert r[j] == Load(docs[pos[j]]);
      }
    }
  }

  /**
   * After `rerank` the sources have distinct urls; each is the title, url and content of
   * the source last seen for its url, they keep the order of first occurrence, and there
   * are no more of them than distinct urls.
   */
  lemma ConsolidateSpec(query: string, sources: seq<Source>, backend: Reranker.Request -> seq<int>)
    ensures var r := Consolidate(query, sources, backend);
      && |r| <= |Urls(sources)|
      && (forall j :: 0 <= j < |r| ==> r[j].url in Urls(sources) && r[j] == Json.Project(sources[LastIndex(sources, r[j].url)]))
      && (forall j, l :: 0 <= j < l < |r| ==> r[j].url != r[l].url)
      && (forall j, l :: 0 <= j < l < |r| ==> FirstBefore(sources, r[j].url, r[l].url))
  {
    ConsolidateCount(query, sources, backend);
    ConsolidateLastWins(query, sources, backend);
    ConsolidateOrder(query, sources, backend);
  }

  lemma ConsolidateCount(query: string, sources: seq<Source>, backend: Reranker.Request -> seq<int>)
    ensures |Consolidate(query, sources, backend)| <= |Urls(sources)|
  {
    ConsolidateAt(query, sources, backend);
    DedupCount(sources);
    StrictlyIncreasingBound(KeptPositions(query, sources, backend), |DedupedSources(sources)|);
  }

  lemma ConsolidateLastWins(query: string, sources: seq<Source>, backend: Reranker.Request -> seq<int>)
    ensures var r := Consolidate(query, sources, backend);
      forall j :: 0 <= j < |r| ==> r[j].url in Urls(sources) && r[j] == Json.Project(sources[LastIndex(sources, r[j].url)])
  {
    ConsolidateAt(query, sources, backend);
    DedupLastWins(sources);
    var d := DedupedSources(sources);
    var pos := KeptPositions(query, sources, backend);
    var r := Consolidate(query, sources, backend);
    forall j | 0 <= j < |r|
      ensures r[j].url in Urls(sources) && r[j] == Json.Project(sources[LastIndex(sources, r[j].url)])
    {
      assert r[j].url == d[pos[j]].url;
    }
  }

  lemma ConsolidateOrder(query: string, sources: seq<Source>, backend: Reranker.Request -> seq<int>)
    ensures var r := Consolidate(query, sources, backend);
      && (forall j, l :: 0 <= j < l < |r| ==> r[j].url != r[l].url)
      && (forall j, l :: 0 <= j < l < |r| ==> FirstBefore(sources, r[j].url, r[l].url))
  {
    ConsolidateAt(query, sources, backend);
    DedupFirstOrder(sources);
    DedupDistinct(sources);
    var d := DedupedSources(sources);
    var pos := KeptPositions(query, sources, backend);
    var r := Consolidate(query, sources, backend);
    forall j, l | 0 <= j < l < |r|
      ensures r[j].url != r[l].url
    {
      assert r[j].url == d[pos[j]].url && r[l].url == d[pos[l]].url;
      assert pos[j] < pos[l] < |d|;
    }
    forall j, l | 0 <= j < l < |r|
      ensures FirstBefore(sources, r[j].url, r[l].url)
    {
      OrderAt(sources, d, pos[j], pos[l]);
      assert r[j].url == d[pos[j]].url && r[l].url == d[pos[l]].url;
    }
  }

  lemma OrderAt(sources: seq<Source>, d: seq<Source>, a: nat, b: nat)
    requires d == DedupedSources(sources) && a < b < |d|
    ensures FirstBefore(sources, d[a].url, d[b].url)
  {
    DedupFirstOrder(sources);
  }

  lemma {:induction false} StrictlyIncreasingBound(pos: seq<nat>, n: nat)
    requires forall j :: 0 <= j < |pos| ==> pos[j] < n
    requires forall j, l :: 0 <= j < l < |pos| ==> pos[j] < pos[l]
    ensures |pos| <= n
    decreases |pos|
  {
    if |pos| > 0 {
      var init := pos[..|pos| - 1];
      assert forall j :: 0 <= j < |init| ==> init[j] < pos[|pos| - 1];
      StrictlyIncreasingBound(init, pos[|pos| - 1]);
    }
  }

  /** A rerank backend that returns at most `top_n` indices leaves at most five sources. */
  lemma ConsolidateBound(query: string, sources: seq<Source>, backend: Reranker.Request -> seq<int>)
    requires forall q :: |backend(q)| <= q.topN
    ensures |Consolidate(query, sources, backend)| <= TopK
  {
    Reranker.RerankBound(Deduplicate(sources), query, TopK, backend);
  }

  // ---------------------------------------------------------------- steps shown during a turn

  /** What a "Task Solver" step shows: the call's arguments as input and its result as output. */
  datatype StepDisplay = StepDisplay(input: Args, output: string)

  /** One step of the "Reasoning" panel. */
  datatype StepView = PlannerStep(output: string) | SolverStep(call: Option<StepDisplay>) | SourcesStep(output: string)

  /** The "Task Solver" step as written: reading `args` of a missing execution fails. */
  datatype Shown = Shown(display: StepDisplay) | Crashed

  function SolverStepAsWritten(s: ResearchState): (r: Shown)
    ensures r.Crashed? <==> !(s.toolExecution.Some? && s.toolExecution.value.Some?)
    ensures r.Shown? ==> r.display == StepDisplay(s.toolExecution.value.value.args, s.toolExecution.value.value.result)
  {
    match s.toolExecution
    case Some(Some(x)) => Shown(StepDisplay(x.args, x.result))
    case _ => Crashed
  }

  /** The "Task Solver" step shown safely: no call when the solver executed none. */
  function SolverStepView(s: ResearchState): Option<StepDisplay> {
    match s.toolExecution
    case Some(Some(x)) => Some(StepDisplay(x.args, x.result))
    case _ => None
  }

  /**
   * On every solver update the safe view shows nothing exactly when no tool call named a
   * registered tool, and otherwise the arguments and result of the last registered call.
   */
  lemma SolverStepViewSpec(s: ResearchState, tools: seq<Tool>, respond: Task -> seq<ToolCall>,
                           invoke: (Tool, ToolCall) -> string, parse: string -> Option<seq<Source>>)
    requires s.remainingTasks.Some? && |s.remainingTasks.value| > 0
    ensures var v := SolverStepView(Solver.Solved(s, tools, respond, invoke, parse));
      var calls := respond(s.remainingTasks.value[0]); var dict := Solver.ToolDict(tools);
      && (v.None? <==> forall j :: 0 <= j < |calls| ==> Lower(calls[j].name) !in dict)
      && forall j :: Solver.LastRegistered(dict, calls, j) ==>
           v == Some(StepDisplay(calls[j].args, invoke(dict[Lower(calls[j].name)], calls[j])))
  {
    var calls := respond(s.remainingTasks.value[0]);
    var dict := Solver.ToolDict(tools);
    Solver.LastExecutedCall(dict, calls, invoke);
  }

  /** The tool list of the research flow: the search tool alone. */
  function SearchTools(): seq<Tool> {
    [Tool(Solver.WebSearch, "search the web")]
  }

  /** An answer from the language model that plans one task and then asks for no tool call. */
  function SilentBackends(): Graph.Backends {
    Graph.Backends(
      (u: string, m: seq<Message>) => Router.Category("Research", u, "", ""),
      (u: string, m: seq<Message>) => Plan(u, "Research", "", [Task("t", "d", Solver.WebSearch, map[])]),
      (k: nat, t: Task) => [],
      (tool: Tool, c: ToolCall) => "",
      (r: string) => None)
  }

  /** With that answer the only solver update has `tool_execution` set to None, and the step as written fails. */
  lemma SilentSolverCrashesStep()
    ensures var ev := Graph.Trace(InitialState("q", [Human("q")]), SearchTools(), SilentBackends());
      && |ev| == 3 && ev[2].node == Graph.TaskSolver
      && ev[2].state.toolExecution == Some(None)
      && SolverStepAsWritten(ev[2].state) == Crashed
      && SolverStepView(ev[2].state) == None
  {
    var init := InitialState("q", [Human("q")]);
    var b := SilentBackends();
    var tools := SearchTools();
    var ev := Graph.Trace(init, tools, b);
    Graph.CompliantRun(init, tools, b);
    var routed := Graph.Routed(init, b);
    var planned := Planner.PlanStep(routed, Graph.PlanOf(init, b));
    Graph.TraceShape(init, tools, b);
    assert Graph.Successor(Graph.StructuredPlanner, planned) == Graph.TaskSolver;
    var solved := Solver.Solved(planned, tools, Graph.StepCalls(b, 0), b.invoke, b.parse);
    assert Graph.Apply(Graph.TaskSolver, planned, 0, tools, b) == solved;
    assert Solver.Executed(Solver.ToolDict(tools), Graph.StepCalls(b, 0)(planned.remainingTasks.value[0]), b.invoke) == [];
    assert ev[2] == Graph.Event(Graph.TaskSolver, solved);
  }

  /** `- {task.title}({task.description})`. */
  function Bullet(t: Task): string {
    "- " + t.title + "(" + t.description + ")"
  }

  function Bullets(tasks: seq<Task>): seq<string> {
    seq(|tasks|, i requires 0 <= i < |tasks| => Bullet(tasks[i]))
  }

  /** The "Planner" step: the revised input and category, then the task list when there is one. */
  function PlannerStepText(p: Plan): string {
    var head := "**Revised User Input:** " + p.revisedUserInput + "\n**Category:** " + p.category;
    if |p.tasks| > 0 then head + "\n**Tasks:**\n" + Join("\n", Bullets(p.tasks)) else head
  }

  /** The header lines of the "Planner" step. */
  function PlannerHeader(p: Plan): seq<string> {
    ["**Revised User Input:** " + p.revisedUserInput, "**Category:** " + p.category]
  }

  /**
   * Without newlines in the fields, the "Planner" step splits into the two header lines,
   * followed, when the plan has tasks, by a "Tasks" line and one bullet per task in order.
   */
  lemma PlannerStepLines(p: Plan)
    requires NoNewline(p.revisedUserInput) && NoNewline(p.category)
    requires forall i :: 0 <= i < |p.tasks| ==> NoNewline(p.tasks[i].title) && NoNewline(p.tasks[i].description)
    ensures Lines(PlannerStepText(p)) == PlannerHeader(p) + (if |p.tasks| > 0 then ["**Tasks:**"] + Bullets(p.tasks) else [])
  {
    var all := PlannerHeader(p) + (if |p.tasks| > 0 then ["**Tasks:**"] + Bullets(p.tasks) else []);
    PlannerStepJoin(p);
    forall i | 0 <= i < |all|
      ensures NoNewline(all[i])
    {
      if i >= 3 {
        assert all[i] == Bullet(p.tasks[i - 3]);
      }
    }
    LinesOfJoin(all);
  }

  lemma PlannerStepJoin(p: Plan)
    ensures PlannerStepText(p) == Join("\n", PlannerHeader(p) + (if |p.tasks| > 0 then ["**Tasks:**"] + Bullets(p.tasks) else []))
  {
    var head := PlannerHeader(p);
    HeaderText(p.revisedUserInput, p.category);
    HeaderJoin(head[0], head[1]);
    if |p.tasks| > 0 {
      HeaderTasksJoin(head[0], head[1], Bullets(p.tasks));
    } else {
      assert head + [] == head;
    }
  }

  lemma HeaderText(r: string, c: string)
    ensures "**Revised User Input:** " + r + "\n**Category:** " + c == ("**Revised User Input:** " + r) + "\n" + ("**Category:** " + c)
  {
    assert "\n**Category:** " == "\n" + "**Category:** ";
  }

  lemma HeaderJoin(a: string, b: string)
    ensures Join("\n", [a, b]) == a + "\n" + b
  {
    assert [a, b][1..] == [b];
  }

  lemma HeaderTasksJoin(a: string, b: string, bl: seq<string>)
    requires |bl| > 0
    ensures Join("\n", [a, b] + (["**Tasks:**"] + bl)) == a + "\n" + b + "\n**Tasks:**\n" + Join("\n", bl)
  {
    HeaderJoin(a, b);
    JoinConcat("\n", [a, b], ["**Tasks:**"] + bl);
    JoinConcat("\n", ["**Tasks:**"], bl);
    assert Join("\n", ["**Tasks:**"]) == "**Tasks:**";
    TasksLine(a + "\n" + b, Join("\n", bl));
  }

  lemma TasksLine(h: string, bullets: string)
    ensures h + "\n" + ("**Tasks:**" + "\n" + bullets) == h + "\n**Tasks:**\n" + bullets
  {
    assert "\n" + "**Tasks:**" + "\n" == "\n**Tasks:**\n";
  }

  /** `[{i+1}] {url}`. */
  function Citation(i: nat, s: Source): string {
    "[" + NatToString(i + 1) + "] " + s.url
  }

  function Citations(sources: seq<Source>): seq<string> {
    seq(|sources|, i requires 0 <= i < |sources| => Citation(i, sources[i]))
  }

  /** The "Web Search Results" step: one numbered url per kept source. */
  function SourcesStepText(sources: seq<Source>): string {
    Join("\n", Citations(sources))
  }

  /**
   * The listing is empty exactly when no source is kept; without newlines in the urls it
   * has one line per source, the i-th (0-based) numbered i + 1.
   */
  lemma SourcesStepLines(sources: seq<Source>)
    requires forall i :: 0 <= i < |sources| ==> NoNewline(sources[i].url)
    ensures SourcesStepText(sources) == "" <==> sources == []
    ensures sources != [] ==> Lines(SourcesStepText(sources)) == Citations(sources)
    ensures forall i :: 0 <= i < |sources| ==> LeadingNumber(Citations(sources)[i][1..]) == i + 1
  {
    var lines := Citations(sources);
    if sources != [] {
      JoinStartsWith(lines);
      forall i | 0 <= i < |lines|
        ensures NoNewline(lines[i])
      {
        NatToStringNoNewline(i + 1);
      }
      LinesOfJoin(lines);
    }
    forall i | 0 <= i < |sources|
      ensures LeadingNumber(lines[i][1..]) == i + 1
    {
      CitationNumber(i, sources[i]);
    }
  }

  lemma CitationNumber(i: nat, s: Source)
    ensures LeadingNumber(Citation(i, s)[1..]) == i + 1
  {
    var rest := "] " + s.url;
    assert Citation(i, s)[1..] == NatToString(i + 1) + rest;
    LeadingNumberOf(i + 1, rest);
  }

  lemma JoinStartsWith(parts: seq<string>)
    requires |parts| > 0
    ensures |Join("\n", parts)| >= |parts[0]|
  {
  }

  // ---------------------------------------------------------------- the turn

  /** The updates `on_message` keeps: the planner's and the solver's. */
  predicate Captures(e: Graph.Event) {
    e.node == Graph.StructuredPlanner || e.node == Graph.TaskSolver
  }

  /** Every kept update carries a plan. */
  predicate PlansRecorded(events: seq<Graph.Event>) {
    forall i :: 0 <= i < |events| && Captures(events[i]) ==> events[i].state.plan.Some?
  }

  lemma PlansRecordedPrefix(events: seq<Graph.Event>, n: nat)
    requires PlansRecorded(events) && n <= |events|
    ensures PlansRecorded(events[..n])
  {
    assert forall i :: 0 <= i < n ==> events[..n][i] == events[i];
  }

  /** `state` after the update loop: the state of the last planner or solver update, if any. */
  function Captured(events: seq<Graph.Event>): (c: Option<ResearchState>)
    ensures c.None? <==> forall i :: 0 <= i < |events| ==> !Captures(events[i])
    ensures c.Some? && PlansRecorded(events) ==> c.value.plan.Some?
    decreases |events|
  {
    if |events| == 0 then None
    else if Captures(events[|events| - 1]) then Some(events[|events| - 1].state)
    else
      var init := events[..|events| - 1];
      assert forall i :: 0 <= i < |init| ==> init[i] == events[i];
      Captured(init)
  }

  datatype Responder = UseSummarizer | UseQuickResponder | LogError

  /** The summarizer when the plan has tasks, the quick responder when it has none, an error log without a state. */
  function ChooseResponder(c: Option<ResearchState>): Responder
    requires c.Some? ==> c.value.plan.Some?
  {
    if c.None? then LogError
    else if |c.value.plan.value.tasks| > 0 then UseSummarizer
    else UseQuickResponder
  }

  /** Whether the router lets the input through. */
  predicate Compliant(init: ResearchState, b: Graph.Backends) {
    b.classify(init.userInput, init.messages).name != Graph.NonCompliant
  }

  /** Every planner and solver update of a run carries the plan. */
  lemma TracePlans(init: ResearchState, tools: seq<Tool>, b: Graph.Backends)
    ensures PlansRecorded(Graph.Trace(init, tools, b))
  {
    if Compliant(init, b) {
      Graph.CompliantRun(init, tools, b);
    } else {
      Graph.NonCompliantStopsAtRouter(init, tools, b);
    }
  }

  /**
   * A refused input leaves no state to answer from; otherwise the state kept is the last
   * update's, which holds the router's input, the turn's messages, the model's plan, an
   * empty queue and (when there were tasks) every task's search hits in order.
   */
  lemma RunCaptured(init: ResearchState, tools: seq<Tool>, b: Graph.Backends)
    ensures !Compliant(init, b) ==> Captured(Graph.Trace(init, tools, b)) == None
    ensures Compliant(init, b) ==> var c := Captured(Graph.Trace(init, tools, b)); var p := Graph.PlanOf(init, b);
      && c.Some?
      && c.value.userInput == Graph.Routed(init, b).userInput
      && c.value.messages == init.messages
      && c.value.plan == Some(p)
      && c.value.remainingTasks == Some([])
      && c.value.sources == (if |p.tasks| > 0 then Some(init.sources.GetOr([]) + Graph.Gathered(tools, b, p.tasks, 0)) else init.sources)
  {
    var ev := Graph.Trace(init, tools, b);
    if Compliant(init, b) {
      Graph.CompliantFinalState(init, tools, b);
      assert Captures(ev[|ev| - 1]);
    } else {
      Graph.NonCompliantStopsAtRouter(init, tools, b);
    }
  }

  /** The responder `on_message` picks for a run. */
  lemma ResponderForRun(init: ResearchState, tools: seq<Tool>, b: Graph.Backends)
    ensures PlansRecorded(Graph.Trace(init, tools, b))
    ensures ChooseResponder(Captured(Graph.Trace(init, tools, b))) == LogError <==> !Compliant(init, b)
    ensures ChooseResponder(Captured(Graph.Trace(init, tools, b))) == UseSummarizer
      <==> Compliant(init, b) && |Graph.PlanOf(init, b).tasks| > 0
    ensures ChooseResponder(Captured(Graph.Trace(init, tools, b))) == UseQuickResponder
      <==> Compliant(init, b) && Graph.PlanOf(init, b).tasks == []
  {
    TracePlans(init, tools, b);
    RunCaptured(init, tools, b);
  }

  /** How an update shows in the "Reasoning" panel. */
  function View(e: Graph.Event): StepView
    requires Captures(e) && e.state.plan.Some?
  {
    if e.node == Graph.StructuredPlanner then PlannerStep(PlannerStepText(e.state.plan.value))
    else SolverStep(SolverStepView(e.state))
  }

  /** The steps the update loop shows: one per planner or solver update. */
  function Displays(events: seq<Graph.Event>): seq<StepView>
    requires PlansRecorded(events)
    decreases |events|
  {
    if |events| == 0 then []
    else
      var init := events[..|events| - 1];
      PlansRecordedPrefix(events, |events| - 1);
      var last := events[|events| - 1];
      Displays(init) + (if Captures(last) then [View(last)] else [])
  }

  lemma {:induction false} DisplaysAll(events: seq<Graph.Event>)
    requires PlansRecorded(events)
    requires forall i :: 0 <= i < |events| ==> Captures(events[i])
    ensures |Displays(events)| == |events|
    ensures forall i :: 0 <= i < |events| ==> Displays(events)[i] == View(events[i])
    decreases |events|
  {
    if |events| > 0 {
      var init := events[..|events| - 1];
      PlansRecordedPrefix(events, |events| - 1);
      assert forall i :: 0 <= i < |init| ==> init[i] == events[i];
      DisplaysAll(init);
    }
  }

  lemma {:induction false} DisplaysSkipFirst(events: seq<Graph.Event>)
    requires |events| > 0 && !Captures(events[0]) && PlansRecorded(events)
    ensures PlansRecorded(events[1..])
    ensures Displays(events) == Displays(events[1..])
    decreases |events|
  {
    var tail := events[1..];
    assert forall i :: 0 <= i < |tail| ==> tail[i] == events[i + 1];
    if |events| > 1 {
      var init := events[..|events| - 1];
      PlansRecordedPrefix(events, |events| - 1);
      assert init[0] == events[0];
      DisplaysSkipFirst(init);
      assert tail[..|tail| - 1] == init[1..];
      assert tail[|tail| - 1] == events[|events| - 1];
    }
  }

  /** A refused input shows no step; otherwise the plan, then one step per task. */
  lemma RunDisplays(init: ResearchState, tools: seq<Tool>, b: Graph.Backends)
    ensures PlansRecorded(Graph.Trace(init, tools, b))
    ensures !Compliant(init, b) ==> Displays(Graph.Trace(init, tools, b)) == []
    ensures Compliant(init, b) ==> var ev := Graph.Trace(init, tools, b); var d := Displays(ev); var p := Graph.PlanOf(init, b);
      && |d| == 1 + |p.tasks| && |ev| == 2 + |p.tasks|
      && d[0] == PlannerStep(PlannerStepText(p))
      && forall i :: 1 <= i < |d| ==> d[i] == SolverStep(SolverStepView(ev[i + 1].state))
  {
    TracePlans(init, tools, b);
    var ev := Graph.Trace(init, tools, b);
    if Compliant(init, b) {
      Graph.CompliantRun(init, tools, b);
      DisplaysSkipFirst(ev);
      var tail := ev[1..];
      assert forall i :: 0 <= i < |tail| ==> tail[i] == ev[i + 1];
      DisplaysAll(tail);
    } else {
      Graph.NonCompliantStopsAtRouter(init, tools, b);
      assert ev[..0] == [];
    }
  }

  // ---------------------------------------------------------------- the failing "Task Solver" step

  /** A solver update on which the step as written fails. */
  predicate Crashes(e: Graph.Event) {
    e.node == Graph.TaskSolver && SolverStepAsWritten(e.state).Crashed?
  }

  /** The position of the first update on which the step as written fails, if any. */
  function FirstCrash(events: seq<Graph.Event>): (r: Option<nat>)
    ensures r.None? <==> forall i :: 0 <= i < |events| ==> !Crashes(events[i])
    ensures r.Some? ==> r.value < |events| && Crashes(events[r.value])
    ensures r.Some? ==> forall i :: 0 <= i < r.value ==> !Crashes(events[i])
    decreases |events|
  {
    if |events| == 0 then None
    else
      var init := events[..|events| - 1];
      assert forall i :: 0 <= i < |init| ==> init[i] == events[i];
      var f := FirstCrash(init);
      if f.Some? then f
      else if Crashes(events[|events| - 1]) then Some(|events| - 1)
      else None
  }

  lemma FirstCrashAt(events: seq<Graph.Event>, i: nat)
    requires i < |events| && Crashes(events[i])
    requires forall j :: 0 <= j < i ==> !Crashes(events[j])
    ensures FirstCrash(events) == Some(i)
  {
  }

  /** The k-th solver step, on task t, asks for no registered tool. */
  predicate Silent(tools: seq<Tool>, b: Graph.Backends, k: nat, t: Task) {
    Solver.NoneRegistered(Solver.ToolDict(tools), b.toolCalls(k, t))
  }

  /** Some task's step asks for no registered tool. */
  predicate AnySilent(tools: seq<Tool>, b: Graph.Backends, tasks: seq<Task>) {
    exists j :: 0 <= j < |tasks| && Silent(tools, b, j, tasks[j])
  }

  /** Task j is the first whose step asks for no registered tool. */
  predicate FirstSilent(tools: seq<Tool>, b: Graph.Backends, tasks: seq<Task>, j: int) {
    && 0 <= j < |tasks| && Silent(tools, b, j, tasks[j])
    && forall l :: 0 <= l < j ==> !Silent(tools, b, l, tasks[l])
  }

  /**
   * In a compliant run neither the router's nor the planner's update fails, and the update
   * of task i fails exactly when that task's step asks for no registered tool.
   */
  lemma CrashFacts(init: ResearchState, tools: seq<Tool>, b: Graph.Backends)
    requires Compliant(init, b)
    ensures var ev := Graph.Trace(init, tools, b); var p := Graph.PlanOf(init, b);
      && |ev| == 2 + |p.tasks| && !Crashes(ev[0]) && !Crashes(ev[1])
      && forall i :: 0 <= i < |p.tasks| ==> (Crashes(ev[i + 2]) <==> Silent(tools, b, i, p.tasks[i]))
  {
    var p := Graph.PlanOf(init, b);
    Graph.CompliantRun(init, tools, b);
    Graph.CompliantExecutions(init, tools, b);
    forall i | 0 <= i < |p.tasks| {
      Solver.LastExecutedCall(Solver.ToolDict(tools), b.toolCalls(i, p.tasks[i]), b.invoke);
    }
  }

  /** Updates laid out as router, planner, one per task: the first failure sits at the first silent task. */
  lemma FirstCrashOfTasks(ev: seq<Graph.Event>, tools: seq<Tool>, b: Graph.Backends, tasks: seq<Task>)
    requires |ev| == 2 + |tasks| && !Crashes(ev[0]) && !Crashes(ev[1])
    requires forall i :: 0 <= i < |tasks| ==> (Crashes(ev[i + 2]) <==> Silent(tools, b, i, tasks[i]))
    ensures FirstCrash(ev).Some? <==> AnySilent(tools, b, tasks)
    ensures forall j :: FirstSilent(tools, b, tasks, j) ==> FirstCrash(ev) == Some(j + 2)
  {
    if AnySilent(tools, b, tasks) {
      var j :| 0 <= j < |tasks| && Silent(tools, b, j, tasks[j]);
      assert Crashes(ev[j + 2]);
    }
    if FirstCrash(ev).Some? {
      var c := FirstCrash(ev).value;
      assert c >= 2 && ev[c] == ev[(c - 2) + 2];
      assert Silent(tools, b, c - 2, tasks[c - 2]);
    }
    forall j | FirstSilent(tools, b, tasks, j)
      ensures FirstCrash(ev) == Some(j + 2)
    {
      forall l | 2 <= l < j + 2
        ensures !Crashes(ev[l])
      {
        assert !Silent(tools, b, l - 2, tasks[l - 2]);
        assert ev[l] == ev[(l - 2) + 2];
      }
      assert Crashes(ev[j + 2]);
      FirstCrashAt(ev, j + 2);
    }
  }

  /**
   * The step as written never fails in a refused run; in a compliant run it fails exactly
   * when some task's step asks for no registered tool, first on the first such task's update.
   */
  lemma RunCrash(init: ResearchState, tools: seq<Tool>, b: Graph.Backends)
    ensures !Compliant(init, b) ==> FirstCrash(Graph.Trace(init, tools, b)).None?
    ensures Compliant(init, b) ==>
      (FirstCrash(Graph.Trace(init, tools, b)).Some? <==> AnySilent(tools, b, Graph.PlanOf(init, b).tasks))
    ensures Compliant(init, b) ==> forall j :: FirstSilent(tools, b, Graph.PlanOf(init, b).tasks, j) ==>
      FirstCrash(Graph.Trace(init, tools, b)) == Some(j + 2)
  {
    var ev := Graph.Trace(init, tools, b);
    if Compliant(init, b) {
      CrashFacts(init, tools, b);
      FirstCrashOfTasks(ev, tools, b, Graph.PlanOf(init, b).tasks);
    } else {
      Graph.NonCompliantStopsAtRouter(init, tools, b);
      assert !Crashes(ev[0]);
    }
  }

  // ---------------------------------------------------------------- the chat session

  /** What the turn ends with: the streamed answer, the quick answer, a failed step, or only the error log. */
  datatype Reply =
    | Summarized(text: string, sources: seq<Source>)
    | StreamAborted(partial: string, sources: seq<Source>)
    | QuickAnswer(text: string)
    | StepFailed
    | LoggedError

  /**
   * The answers the handler relies on: the rerank backend, the summarizer model's chunks
   * for (conversation, input, rendered sources), and the quick responder's text for a state.
   */
  datatype Services = Services(
    rerank: Reranker.Request -> seq<int>,
    summarize: (seq<Message>, string, string) -> seq<Summarizer.Chunk>,
    quick: ResearchState -> string)

  datatype Outcome = Outcome(reply: Reply, steps: seq<StepView>, history: seq<Message>)

  /** What the handler does after the update loop, from the history, the state kept and the steps shown. */
  function Respond(h: seq<Message>, c: Option<ResearchState>, steps: seq<StepView>, r: Services): Outcome
    requires c.Some? ==> c.value.plan.Some?
  {
    match ChooseResponder(c)
    case LogError => Outcome(LoggedError, steps, h)
    case UseQuickResponder =>
      var text := r.quick(c.value);
      Outcome(QuickAnswer(text), steps, h + [Ai(text)])
    case UseSummarizer =>
      var s := c.value;
      var ranked := Consolidate(s.userInput, s.sources.GetOr([]), r.rerank);
      var listing := SourcesStepText(ranked);
      var shown := steps + (if listing != "" then [SourcesStep(listing)] else []);
      var streamed := Summarizer.Stream(Summarizer.Flatten(r.summarize(s.messages, s.userInput, Summarizer.RenderSources(ranked))));
      var text := Summarizer.Concat(streamed.tokens);
      if streamed.completed then Outcome(Summarized(text, ranked), shown, h + [Ai(text)])
      else Outcome(StreamAborted(text, ranked), shown, h)
  }

  /**
   * One call of `on_message` as written, on the history cache: the update loop stops at
   * the first solver update whose step fails, and the turn ends there.
   */
  function Turn(history: seq<Message>, content: string, tools: seq<Tool>, b: Graph.Backends, r: Services): Outcome {
    var h := history + [Human(content)];
    var init := InitialState(content, h);
    var trace := Graph.Trace(init, tools, b);
    TracePlans(init, tools, b);
    match FirstCrash(trace)
    case Some(i) =>
      PlansRecordedPrefix(trace, i);
      Outcome(StepFailed, Displays(trace[..i]), h)
    case None => Respond(h, Captured(trace), Displays(trace), r)
  }

  /** The turn with the step shown safely: a solver update without an execution shows no call. */
  function CorrectedTurn(history: seq<Message>, content: string, tools: seq<Tool>, b: Graph.Backends, r: Services): Outcome {
    var h := history + [Human(content)];
    var init := InitialState(content, h);
    var trace := Graph.Trace(init, tools, b);
    TracePlans(init, tools, b);
    Respond(h, Captured(trace), Displays(trace), r)
  }

  /**
   * The history cache gets the human message first; the AI message is appended only when
   * a responder ran to the end, never when the router refused, a step failed or the stream broke off.
   */
  lemma TurnHistory(history: seq<Message>, content: string, tools: seq<Tool>, b: Graph.Backends, r: Services)
    ensures var o := Turn(history, content, tools, b, r);
      && (o.reply.Summarized? || o.reply.QuickAnswer? ==> o.history == history + [Human(content), Ai(o.reply.text)])
      && (o.reply.StreamAborted? || o.reply.StepFailed? || o.reply.LoggedError? ==> o.history == history + [Human(content)])
  {
  }

  /**
   * The reply as written: refused input only logs, an empty plan gets the quick answer, a
   * task whose step asks for no registered tool fails the turn, and otherwise the summarizer answers.
   */
  lemma TurnResponder(history: seq<Message>, content: string, tools: seq<Tool>, b: Graph.Backends, r: Services)
    ensures var init := InitialState(content, history + [Human(content)]); var o := Turn(history, content, tools, b, r);
      var p := Graph.PlanOf(init, b);
      && (o.reply.LoggedError? <==> !Compliant(init, b))
      && (o.reply.QuickAnswer? <==> Compliant(init, b) && p.tasks == [])
      && (o.reply.StepFailed? <==> Compliant(init, b) && AnySilent(tools, b, p.tasks))
      && (o.reply.Summarized? || o.reply.StreamAborted? <==> Compliant(init, b) && |p.tasks| > 0 && !AnySilent(tools, b, p.tasks))
  {
    var init := InitialState(content, history + [Human(content)]);
    ResponderForRun(init, tools, b);
    RunCrash(init, tools, b);
  }

  /**
   * When task j is the first whose step asks for no registered tool, the turn fails with the
   * human message recorded, after showing the plan and the calls of the j tasks before it.
   */
  lemma TurnFailedSteps(history: seq<Message>, content: string, tools: seq<Tool>, b: Graph.Backends, r: Services, j: nat)
    requires Compliant(InitialState(content, history + [Human(content)]), b)
    requires FirstSilent(tools, b, Graph.PlanOf(InitialState(content, history + [Human(content)]), b).tasks, j)
    ensures var init := InitialState(content, history + [Human(content)]); var o := Turn(history, content, tools, b, r);
      var ev := Graph.Trace(init, tools, b);
      && o.reply == StepFailed && o.history == history + [Human(content)]
      && |o.steps| == 1 + j && |ev| > j + 1
      && o.steps[0] == PlannerStep(PlannerStepText(Graph.PlanOf(init, b)))
      && forall i :: 1 <= i < |o.steps| ==>
           SolverStepAsWritten(ev[i + 1].state).Shown? && o.steps[i] == SolverStep(Some(SolverStepAsWritten(ev[i + 1].state).display))
  {
    var init := InitialState(content, history + [Human(content)]);
    TracePlans(init, tools, b);
    SilentRunSteps(init, tools, b, j);
  }

  /** The run behind `TurnFailedSteps`: where the first failure is, and what is shown before it. */
  lemma SilentRunSteps(init: ResearchState, tools: seq<Tool>, b: Graph.Backends, j: nat)
    requires Compliant(init, b) && FirstSilent(tools, b, Graph.PlanOf(init, b).tasks, j)
    ensures var ev := Graph.Trace(init, tools, b);
      && |ev| > j + 1 && FirstCrash(ev) == Some(j + 2) && PlansRecorded(ev[..j + 2])
      && var d := Displays(ev[..j + 2]);
      && |d| == 1 + j
      && d[0] == PlannerStep(PlannerStepText(Graph.PlanOf(init, b)))
      && forall i :: 1 <= i < |d| ==>
           SolverStepAsWritten(ev[i + 1].state).Shown? && d[i] == SolverStep(Some(SolverStepAsWritten(ev[i + 1].state).display))
  {
    var ev := Graph.Trace(init, tools, b);
    RunCrash(init, tools, b);
    TracePlans(init, tools, b);
    Graph.CompliantRun(init, tools, b);
    CrashFacts(init, tools, b);
    forall l | 2 <= l < j + 2
      ensures SolverStepAsWritten(ev[l].state).Shown?
    {
      assert !Silent(tools, b, l - 2, Graph.PlanOf(init, b).tasks[l - 2]);
      assert ev[l] == ev[(l - 2) + 2];
    }
    PrefixDisplays(ev, j + 2);
  }

  /** The steps shown for a prefix whose first update is not kept and whose others all are. */
  lemma PrefixDisplays(ev: seq<Graph.Event>, n: nat)
    requires PlansRecorded(ev) && 1 <= n <= |ev| && !Captures(ev[0])
    requires forall i :: 1 <= i < n ==> Captures(ev[i])
    ensures PlansRecorded(ev[..n])
    ensures |Displays(ev[..n])| == n - 1
    ensures forall i :: 1 <= i < n ==> Displays(ev[..n])[i - 1] == View(ev[i])
  {
    var pre := ev[..n];
    PlansRecordedPrefix(ev, n);
    assert pre[0] == ev[0];
    DisplaysSkipFirst(pre);
    var tail := pre[1..];
    assert forall i :: 0 <= i < |tail| ==> tail[i] == ev[i + 1];
    DisplaysAll(tail);
  }

  /** With the step shown safely, the reply follows the responder choice alone. */
  lemma CorrectedTurnResponder(history: seq<Message>, content: string, tools: seq<Tool>, b: Graph.Backends, r: Services)
    ensures var init := InitialState(content, history + [Human(content)]); var o := CorrectedTurn(history, content, tools, b, r);
      && !o.reply.StepFailed?
      && (o.reply.LoggedError? <==> !Compliant(init, b))
      && (o.reply.QuickAnswer? <==> Compliant(init, b) && Graph.PlanOf(init, b).tasks == [])
      && (o.reply.Summarized? || o.reply.StreamAborted? <==> Compliant(init, b) && |Graph.PlanOf(init, b).tasks| > 0)
  {
    ResponderForRun(InitialState(content, history + [Human(content)]), tools, b);
  }

  /** The two turns differ only when a compliant run has a task whose step asks for no registered tool. */
  lemma TurnsAgree(history: seq<Message>, content: string, tools: seq<Tool>, b: Graph.Backends, r: Services)
    ensures var init := InitialState(content, history + [Human(content)]);
      !(Compliant(init, b) && AnySilent(tools, b, Graph.PlanOf(init, b).tasks)) ==>
        Turn(history, content, tools, b, r) == CorrectedTurn(history, content, tools, b, r)
  {
    RunCrash(InitialState(content, history + [Human(content)]), tools, b);
  }

  /**
   * With a model that plans one task and then asks for no tool, the turn as written fails
   * after the planner step and records only the human message; the corrected turn summarizes.
   */
  lemma SilentTurnFails(r: Services)
    ensures var o := Turn([], "q", SearchTools(), SilentBackends(), r);
      o.reply == StepFailed && o.history == [Human("q")] && |o.steps| == 1
    ensures var o := CorrectedTurn([], "q", SearchTools(), SilentBackends(), r);
      o.reply.Summarized? || o.reply.StreamAborted?
  {
    var b := SilentBackends();
    var tools := SearchTools();
    var init := InitialState("q", [] + [Human("q")]);
    var p := Graph.PlanOf(init, b);
    assert p.tasks == [Task("t", "d", Solver.WebSearch, map[])];
    assert Silent(tools, b, 0, p.tasks[0]);
    assert FirstSilent(tools, b, p.tasks, 0);
    TurnFailedSteps([], "q", tools, b, r, 0);
    CorrectedTurnResponder([], "q", tools, b, r);
  }

  /**
   * The summarizer answers from the reranked hits of every task: at most one source per
   * url, each the last one found for it, in order of first discovery.
   */
  lemma TurnSources(history: seq<Message>, content: string, tools: seq<Tool>, b: Graph.Backends, r: Services)
    ensures var init := InitialState(content, history + [Human(content)]); var o := Turn(history, content, tools, b, r);
      o.reply.Summarized? || o.reply.StreamAborted? ==>
        o.reply.sources == Consolidate(Graph.Routed(init, b).userInput, Graph.Gathered(tools, b, Graph.PlanOf(init, b).tasks, 0), r.rerank)
  {
    var init := InitialState(content, history + [Human(content)]);
    ResponderForRun(init, tools, b);
    RunCaptured(init, tools, b);
    var g := Graph.Gathered(tools, b, Graph.PlanOf(init, b).tasks, 0);
    assert [] + g == g;
  }

  /**
   * The answer is the text pieces of the summarizer's stream for the turn's messages, the
   * router's input and the rendered reranked sources; a text piece without text breaks it off.
   */
  lemma TurnText(history: seq<Message>, content: string, tools: seq<Tool>, b: Graph.Backends, r: Services)
    ensures var init := InitialState(content, history + [Human(content)]); var o := Turn(history, content, tools, b, r);
      o.reply.Summarized? || o.reply.StreamAborted? ==>
        var pieces := Summarizer.Flatten(r.summarize(history + [Human(content)], Graph.Routed(init, b).userInput,
                                                     Summarizer.RenderSources(o.reply.sources)));
        && (o.reply.Summarized? <==> Summarizer.WellFormed(pieces))
        && (o.reply.Summarized? ==> o.reply.text == Summarizer.Concat(Summarizer.Texts(pieces)))
  {
    var init := InitialState(content, history + [Human(content)]);
    ResponderForRun(init, tools, b);
    RunCaptured(init, tools, b);
    var o := Turn(history, content, tools, b, r);
    if o.reply.Summarized? || o.reply.StreamAborted? {
      var pieces := Summarizer.Flatten(r.summarize(history + [Human(content)], Graph.Routed(init, b).userInput,
                                                   Summarizer.RenderSources(o.reply.sources)));
      Summarizer.StreamForwardsText(pieces);
    }
  }

  /** The chat session: the history cache kept across turns and the flow's tools. */
  class Session {
    var history: seq<Message>
    const tools: seq<Tool>

    /** `on_chat_start`: an empty history cache. */
    constructor(tools: seq<Tool>)
      ensures history == [] && this.tools == tools
    {
      history := [];
      this.tools := tools;
    }

    /**
     * `on_message`: run the flow on the new message, show its steps until one fails, then
     * answer and update the history.
     */
    method OnMessage(content: string, b: Graph.Backends, r: Services) returns (reply: Reply, steps: seq<StepView>)
      modifies this
      ensures Outcome(reply, steps, history) == Turn(old(history), content, tools, b, r)
    {
      history := history + [Human(content)];
      var init := InitialState(content, history);
      var events := Graph.Run(init, tools, b);
      TracePlans(init, tools, b);
      var state, stop;
      state, steps, stop := ShowUpdates(events);
      if stop.Some? {
        reply := StepFailed;
        return;
      }
      if state.Some? && |state.value.plan.value.tasks| > 0 {
        var s := state.value;
        var ranked := Consolidate(s.userInput, s.sources.GetOr([]), r.rerank);
        s := s.(sources := Some(ranked));
        var listing := SourcesStepText(ranked);
        if listing != "" {
          steps := steps + [SourcesStep(listing)];
        }
        var chunks := r.summarize(s.messages, s.userInput, Summarizer.RenderSources(s.sources.value));
        var tokens, completed := Summarizer.StreamText(chunks);
        var text := Summarizer.Concat(tokens);
        if completed {
          history := history + [Ai(text)];
          reply := Summarized(text, ranked);
        } else {
          reply := StreamAborted(text, ranked);
        }
      } else if state.Some? {
        var text := r.quick(state.value);
        history := history + [Ai(text)];
        reply := QuickAnswer(text);
      } else {
        reply := LoggedError;
      }
    }
  }

  /**
   * The update loop of `on_message`: each planner or solver update is shown and its state
   * kept, until a solver update whose step fails, whose position is returned.
   */
  method ShowUpdates(events: seq<Graph.Event>) returns (state: Option<ResearchState>, steps: seq<StepView>, stop: Option<nat>)
    requires PlansRecorded(events)
    ensures stop == FirstCrash(events)
    ensures stop.None? ==> state == Captured(events) && steps == Displays(events)
    ensures stop.Some? ==> stop.value <= |events| && PlansRecorded(events[..stop.value]) && steps == Displays(events[..stop.value])
  {
    state := None;
    steps := [];
    var i := 0;
    var failed := false;
    while i < |events| && !failed
      invariant 0 <= i <= |events|
      invariant PlansRecorded(events[..i])
      invariant forall j :: 0 <= j < i ==> !Crashes(events[j])
      invariant state == Captured(events[..i])
      invariant steps == Displays(events[..i])
      invariant failed ==> i < |events| && Crashes(events[i])
      decreases |events| - i, if failed then 0 else 1
    {
      NextEvent(events, i);
      var e := events[i];
      if e.node == Graph.StructuredPlanner {
        steps := steps + [PlannerStep(PlannerStepText(e.state.plan.value))];
        state := Some(e.state);
        i := i + 1;
      } else if e.node == Graph.TaskSolver {
        match SolverStepAsWritten(e.state)
        case Crashed =>
          failed := true;
        case Shown(d) =>
          steps := steps + [SolverStep(Some(d))];
          state := Some(e.state);
          i := i + 1;
      } else {
        i := i + 1;
      }
    }
    if failed {
      FirstCrashAt(events, i);
      stop := Some(i);
    } else {
      assert events[..|events|] == events;
      stop := None;
    }
  }

  /** One more update: the prefix grows by it, and it carries a plan if it is kept. */
  lemma NextEvent(events: seq<Graph.Event>, i: nat)
    requires i < |events| && PlansRecorded(events)
    ensures events[..i + 1] == events[..i] + [events[i]]
    ensures events[..i + 1][..i] == events[..i]
    ensures PlansRecorded(events[..i + 1])
    ensures Captures(events[i]) ==> events[i].state.plan.Some?
  {
    PlansRecordedPrefix(events, i + 1);
  }
}
