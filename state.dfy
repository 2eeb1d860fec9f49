/**
 * The records threaded through one research turn (src/workflow/state.py) and the
 * values the nodes exchange: tasks, plans, tools, tool calls, search hits.
 */
module State {
  import opened Strings

  datatype Option<+T> = None | Some(value: T) {
    function GetOr(default: T): T {
      match this
      case Some(v) => v
      case None => default
    }
  }

  /** Tool and task arguments; argument values are kept as text. */
  type Args = map<string, string>

  datatype Message = Human(content: string) | Ai(content: string)

  /** One unit of work produced by the planner. */
  datatype Task = Task(title: string, description: string, toolName: string, toolArgs: Args)

  /** The planner's structured result. */
  datatype Plan = Plan(revisedUserInput: string, category: string, overview: string, tasks: seq<Task>)

  /** A search hit; `extra` holds the fields besides title, url and content (score, ...). */
  datatype Source = Source(title: string, url: string, content: string, extra: map<string, string>)

  /** A registered capability: the planner and the solver only read its name and description. */
  datatype Tool = Tool(name: string, description: string)

  /** A tool call requested by the language model. */
  datatype ToolCall = ToolCall(name: string, args: Args)

  /** The record the solver keeps of an executed call; `id` is the 1-based call position. */
  datatype ToolExecution = ToolExecution(id: nat, name: string, args: Args, result: string)

  /**
   * The state dictionary of one turn. An absent key is `None`; `toolExecution` is
   * `Some(None)` when the solver ran and executed nothing (Python's `None` value).
   */
  datatype ResearchState = ResearchState(
    messages: seq<Message>,
    userInput: string,
    category: Option<string>,
    plan: Option<Plan>,
    remainingTasks: Option<seq<Task>>,
    toolExecution: Option<Option<ToolExecution>>,
    sources: Option<seq<Source>>,
    taskResults: Option<map<string, string>>)

  /** The state a turn starts from: only the user input and the history are set. */
  function InitialState(userInput: string, messages: seq<Message>): (s: ResearchState)
    ensures s.userInput == userInput && s.messages == messages
    ensures s.category == None && s.plan == None && s.remainingTasks == None
    ensures s.toolExecution == None && s.sources == None && s.taskResults == None
  {
    ResearchState(messages, userInput, None, None, None, None, None, None)
  }

  /** Builds a task the way pydantic does: missing `tool_args` default to an empty mapping. */
  function MakeTask(title: string, description: string, toolName: string, toolArgs: Option<Args>): (t: Task)
    ensures t.title == title && t.description == description && t.toolName == toolName
    ensures toolArgs == None ==> t.toolArgs == map[]
    ensures toolArgs != None ==> t.toolArgs == toolArgs.value
  {
    Task(title, description, toolName, toolArgs.GetOr(map[]))
  }

  /** One line of `Plan.__str__`: `"{n}. {title}: {description}"`. */
  function TaskLine(n: nat, t: Task): string {
    NatToString(n) + ". " + t.title + ": " + t.description
  }

  function TaskLines(tasks: seq<Task>): seq<string> {
    seq(|tasks|, i requires 0 <= i < |tasks| => TaskLine(i + 1, tasks[i]))
  }

  /** `Plan.__str__`: the tasks numbered from 1, one per line. */
  function PlanText(p: Plan): string {
    Strings.Join("\n", TaskLines(p.tasks))
  }

  /** A plan without tasks renders as the empty string. */
  lemma PlanTextEmpty(p: Plan)
    requires p.tasks == []
    ensures PlanText(p) == ""
  {
  }

  /**
   * When no title or description holds a newline, the text splits back into one line
   * per task, and line i (0-based) starts with the number i + 1 followed by the task.
   */
  lemma PlanTextLines(p: Plan)
    requires |p.tasks| > 0
    requires forall i :: 0 <= i < |p.tasks| ==> NoNewline(p.tasks[i].title) && NoNewline(p.tasks[i].description)
    ensures |Lines(PlanText(p))| == |p.tasks|
    ensures forall i :: 0 <= i < |p.tasks| ==> Lines(PlanText(p))[i] == TaskLine(i + 1, p.tasks[i])
    ensures forall i :: 0 <= i < |p.tasks| ==> LeadingNumber(Lines(PlanText(p))[i]) == i + 1
  {
    var lines := TaskLines(p.tasks);
    forall i | 0 <= i < |lines|
      ensures NoNewline(lines[i])
    {
      NatToStringNoNewline(i + 1);
    }
    LinesOfJoin(lines);
    forall i | 0 <= i < |p.tasks|
      ensures LeadingNumber(lines[i]) == i + 1
    {
      var t := p.tasks[i];
      var rest := ". " + t.title + ": " + t.description;
      assert lines[i] == NatToString(i + 1) + rest;
      LeadingNumberOf(i + 1, rest);
    }
  }

  lemma NatToStringNoNewline(n: nat)
    ensures NoNewline(NatToString(n))
  {
  }
}
