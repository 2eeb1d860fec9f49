/**
 * The planner node (src/workflow/node/structured_planner.py) and the tool description
 * block it shares with the solver.
 */
module Planner {
  import opened State
  import Strings

  /**
   * The four lines describing one tool. The closing tag of the description is written
   * `</<description>`, exactly as the prompt builder writes it.
   */
  function ToolLines(t: Tool): seq<string> {
    ["<tool>", " <name>" + t.name + "</name>", " <description>" + t.description + "</<description>", "</tool>"]
  }

  /** All lines `_generate_tool_desc` collects, tool by tool. */
  function ToolDescLines(tools: seq<Tool>): seq<string>
    decreases |tools|
  {
    if |tools| == 0 then [] else ToolDescLines(tools[..|tools| - 1]) + ToolLines(tools[|tools| - 1])
  }

  /** `_generate_tool_desc` (identical in the planner and the solver): the loop, then the join. */
  method GenerateToolDesc(tools: seq<Tool>) returns (text: string)
    ensures text == Strings.Join("\n", ToolDescLines(tools))
  {
    var descs: seq<string> := [];
    for i := 0 to |tools|
      invariant descs == ToolDescLines(tools[..i])
    {
      var tool := tools[i];
      descs := descs + ["<tool>"];
      descs := descs + [" <name>" + tool.name + "</name>"];
      descs := descs + [" <description>" + tool.description + "</<description>"];
      descs := descs + ["</tool>"];
      assert tools[..i + 1][..i] == tools[..i];
    }
    assert tools[..|tools|] == tools;
    text := Strings.Join("\n", descs);
  }

  /** Exactly four lines per tool, in tool order: line 4i + r is line r of tool i. */
  lemma {:induction false} ToolDescShape(tools: seq<Tool>)
    ensures |ToolDescLines(tools)| == 4 * |tools|
    ensures forall i, r :: 0 <= i < |tools| && 0 <= r < 4 ==> ToolDescLines(tools)[4 * i + r] == ToolLines(tools[i])[r]
    decreases |tools|
  {
    if |tools| > 0 {
      var init := tools[..|tools| - 1];
      ToolDescShape(init);
      forall i, r | 0 <= i < |tools| && 0 <= r < 4
        ensures ToolDescLines(tools)[4 * i + r] == ToolLines(tools[i])[r]
      {
        if i < |tools| - 1 {
          assert tools[i] == init[i];
        }
      }
    }
  }

  /** With newline-free names and descriptions, the text splits back into 4 lines per tool. */
  lemma ToolDescLineCount(tools: seq<Tool>)
    requires |tools| > 0
    requires forall i :: 0 <= i < |tools| ==> Strings.NoNewline(tools[i].name) && Strings.NoNewline(tools[i].description)
    ensures Strings.Lines(Strings.Join("\n", ToolDescLines(tools))) == ToolDescLines(tools)
    ensures |Strings.Lines(Strings.Join("\n", ToolDescLines(tools)))| == 4 * |tools|
  {
    var lines := ToolDescLines(tools);
    ToolDescShape(tools);
    forall k | 0 <= k < |lines|
      ensures Strings.NoNewline(lines[k])
    {
      var i, r := k / 4, k % 4;
      assert k == 4 * i + r;
      assert lines[k] == ToolLines(tools[i])[r];
    }
    Strings.LinesOfJoin(lines);
  }

  /**
   * `StructuredPlanner.__call__`: the plan is the model's result and the task queue is
   * a separate copy of its tasks; every other key is kept.
   */
  function PlanStep(s: ResearchState, p: Plan): (r: ResearchState)
    ensures r.plan == Some(p) && r.remainingTasks == Some(p.tasks)
    ensures r.(plan := s.plan, remainingTasks := s.remainingTasks) == s
  {
    s.(plan := Some(p), remainingTasks := Some(p.tasks))
  }
}
