/**
 * The agent: it asks a planner for a plan, seeds a conversation with it, and
 * then, reply by reply, runs the tools the chat model calls for and records
 * every step, until a reply calls no tool.
 *
 * The chat service is an oracle: the planner is a function of the messages
 * it is sent, and the replies of the conversation are a script, one reply
 * per request. The tools are the `Toolbox` of the configuration.
 */
module Agent {
  import opened Wrappers
  import opened Text
  import opened Tools

  // ---------------------------------------------------------------- values

  /** A value `json.loads` can produce. A float keeps the text Python prints for it. */
  datatype Json =
    | JNull
    | JBool(b: bool)
    | JInt(i: int)
    | JFloat(text: string)
    | JString(s: string)
    | JArray(items: seq<Json>)
    | JObject(fields: map<string, Json>)

  /** The four tools, each as the function its `run` computes. */
  datatype Toolbox = Toolbox(
    calculator: Json -> ToolResult,
    googleSearch: Json -> ToolResult,
    datetime: string -> ToolResult,
    wikipedia: string -> ToolResult)

  /**
   * What the agent holds after construction and never changes: its tools,
   * its two prompts, and the library functions it calls (`json.loads`,
   * `json.dumps(indent=2)`, and `str` of a list or dict).
   */
  datatype Config = Config(
    tools: Toolbox,
    systemPrompt: string,
    planningPrompt: string,
    loads: string -> Result<Json>,
    dumps: Json -> string,
    pyStr: Json -> string)

  datatype ToolCall = ToolCall(id: string, name: string, arguments: string)

  datatype Message =
    | SystemMessage(content: string)
    | UserMessage(content: string)
    | AssistantMessage(reply: Option<string>, toolCalls: seq<ToolCall>)
    | ToolMessage(toolCallId: string, content: string)

  /** What the planner answers: a message whose content may be null, or an exception. */
  datatype PlanReply = Planned(content: Option<string>) | PlanFailure(message: string)

  /** What the chat service answers: a message (no tool calls is `[]`), or an exception. */
  datatype Reply = Reply(content: Option<string>, toolCalls: seq<ToolCall>) | ServiceFailure(message: string)

  /** The steps and messages recorded so far. */
  datatype Turn = Turn(steps: seq<string>, messages: seq<Message>)

  /** How a run ends: an answer, an exception, or a script that ran out of replies. */
  datatype Outcome = Answered(turn: Turn) | Raised(message: string) | Unfinished(turn: Turn)

  // ---------------------------------------------------------------- tool dispatch

  const ToolNames: set<string> := {"calculator", "google_search", "datetime", "wikipedia"}

  /**
   * Python's f-string rendering of a JSON value: a string is itself, an
   * integer is printed so that `int()` reads it back, null is `None`.
   */
  function Show(v: Json, pyStr: Json -> string): (r: string)
    ensures v.JString? ==> r == v.s
    ensures v.JInt? ==> ParseInt(r) == Some(v.i)
    ensures v.JNull? ==> r == "None"
  {
    match v
    case JNull => "None"
    case JBool(b) => if b then "True" else "False"
    case JInt(i) => ParseIntOfIntToString(i); IntToString(i)
    case JFloat(text) => text
    case JString(s) => s
    case JArray(_) => pyStr(v)
    case JObject(_) => pyStr(v)
  }

  /** `v[key]`; a failure carries the text of the KeyError or TypeError raised. */
  function Subscript(v: Json, key: string): (r: Result<Json>)
    ensures r.Success? <==> v.JObject? && key in v.fields
    ensures r.Success? ==> r.value == v.fields[key]
    ensures v.JObject? && key !in v.fields ==> r == Failure(Repr(key))
  {
    match v
    case JObject(fields) => if key in fields then Success(fields[key]) else Failure(Repr(key))
    case JArray(_) => Failure("list indices must be integers or slices, not str")
    case JString(_) => Failure("string indices must be integers, not 'str'")
    case JInt(_) => Failure("'int' object is not subscriptable")
    case JFloat(_) => Failure("'float' object is not subscriptable")
    case JBool(_) => Failure("'bool' object is not subscriptable")
    case JNull => Failure("'NoneType' object is not subscriptable")
  }

  /** What subscripting a value that is not an object raises: Python's TypeError text for its type. */
  lemma SubscriptTypeErrors(v: Json, key: string)
    ensures v.JArray? ==> Subscript(v, key) == Failure("list indices must be integers or slices, not str")
    ensures v.JString? ==> Subscript(v, key) == Failure("string indices must be integers, not 'str'")
    ensures v.JInt? ==> Subscript(v, key) == Failure("'int' object is not subscriptable")
    ensures v.JFloat? ==> Subscript(v, key) == Failure("'float' object is not subscriptable")
    ensures v.JBool? ==> Subscript(v, key) == Failure("'bool' object is not subscriptable")
    ensures v.JNull? ==> Subscript(v, key) == Failure("'NoneType' object is not subscriptable")
  {
  }

  /** The query the datetime tool is given for the arguments `args`. */
  function DatetimeQuery(args: Json, pyStr: Json -> string): (r: Result<string>)
    ensures r.Success? <==> args.JObject? && "operation" in args.fields && "days" in args.fields
  {
    var operation :- Subscript(args, "operation");
    var days :- Subscript(args, "days");
    Success(if operation == JString("today") then "today" else Show(operation, pyStr) + ":" + Show(days, pyStr))
  }

  /** The query the Wikipedia tool is given for the arguments `args`. */
  function WikipediaQuery(args: Json, pyStr: Json -> string): (r: Result<string>)
    ensures r.Success? <==> args.JObject? && "action" in args.fields && "query" in args.fields
  {
    var action :- Subscript(args, "action");
    var query :- Subscript(args, "query");
    Success(Show(action, pyStr) + ":" + Show(query, pyStr))
  }

  /** The argument names each tool reads. */
  function RequiredKeys(name: string): set<string> {
    if name == "datetime" then {"operation", "days"}
    else if name == "calculator" then {"expression"}
    else if name == "google_search" then {"query"}
    else if name == "wikipedia" then {"action", "query"}
    else {}
  }

  predicate Accepts(name: string, args: Json) {
    args.JObject? && RequiredKeys(name) <= args.fields.Keys
  }

  function UnknownTool(name: string): string {
    "Error: Tool '" + name + "' not found"
  }

  /**
   * `_execute_tool`: adapt the arguments to the named tool and run it. A
   * failure is an exception that escapes (a missing argument, or arguments
   * that are not an object); an unknown name is an ordinary, unsuccessful
   * result that calls no tool.
   */
  function ExecuteTool(cfg: Config, name: string, args: Json): (r: Result<ToolResult>)
    ensures name !in ToolNames ==> r == Success(ToolResult(false, UnknownTool(name)))
    ensures r.Failure? <==> name in ToolNames && !Accepts(name, args)
  {
    if name !in ToolNames then
      Success(ToolResult(false, UnknownTool(name)))
    else if name == "datetime" then
      var query :- DatetimeQuery(args, cfg.pyStr);
      Success(cfg.tools.datetime(query))
    else if name == "calculator" then
      var expression :- Subscript(args, "expression");
      Success(cfg.tools.calculator(expression))
    else if name == "google_search" then
      var query :- Subscript(args, "query");
      Success(cfg.tools.googleSearch(query))
    else if name == "wikipedia" then
      var query :- WikipediaQuery(args, cfg.pyStr);
      Success(cfg.tools.wikipedia(query))
    else
      // "Invalid tool configuration": every registered name has a branch above
      assert false;
      Success(ToolResult(false, "Error: Invalid tool configuration"))
  }

  // ---------------------------------------------------------------- planning

  /** The two messages the planner is sent. */
  function PlanRequest(cfg: Config, question: string): seq<Message> {
    [SystemMessage(cfg.planningPrompt), UserMessage("Create a plan to answer: " + question)]
  }

  /** `_create_plan`: the planner's content, `None` when it is null, or the text of its failure. */
  function CreatePlan(cfg: Config, planner: seq<Message> -> PlanReply, question: string): (plan: string)
    ensures planner(PlanRequest(cfg, question)).Planned? && planner(PlanRequest(cfg, question)).content.Some? ==>
      plan == planner(PlanRequest(cfg, question)).content.value
    ensures planner(PlanRequest(cfg, question)) == Planned(None) ==> plan == "None"
    ensures planner(PlanRequest(cfg, question)).PlanFailure? ==>
      plan == "Error creating plan: " + planner(PlanRequest(cfg, question)).message
  {
    match planner(PlanRequest(cfg, question))
    case Planned(Some(text)) => text
    case Planned(None) => "None"
    case PlanFailure(message) => "Error creating plan: " + message
  }

  // ---------------------------------------------------------------- steps and messages

  /** Python's truth of an optional string: present and non-empty. */
  predicate Truthy(content: Option<string>) {
    content.Some? && content.value != []
  }

  function QuestionStep(question: string, plan: string): string {
    "\U{1F914} **Question:** " + question + "\n\n\U{1F4CB} **Planning Phase:**\n" + plan
  }

  function ExecuteRequest(question: string, plan: string): string {
    "Execute this plan to answer the question: " + question + "\n\nPlan:\n" + plan
  }

  function ParseErrorStep(error: string): string {
    "Error parsing tool arguments: " + error
  }

  function NarrationStep(content: Option<string>): string {
    "\U{1F4AD} **Executing Plan Step:** " + (if Truthy(content) then content.value else "Using tool to find information")
  }

  function ToolStep(name: string): string {
    "\U{1F527} **Tool:** " + name
  }

  function InputStep(input: string): string {
    "\U{1F4E5} **Input:** " + input
  }

  function ResultStep(result: string): string {
    "\U{1F4DD} **Result:** " + result
  }

  function FinalStep(answer: string): string {
    "\U{2728} **Final Answer:** " + answer
  }

  /** The first step and the first two messages of a run. */
  function Seed(cfg: Config, question: string, plan: string): (s: Turn)
    ensures |s.steps| == 1 && |s.messages| == 2
    ensures s.messages[0].SystemMessage? && s.messages[1].UserMessage?
  {
    Turn([QuestionStep(question, plan)],
         [SystemMessage(cfg.systemPrompt), UserMessage(ExecuteRequest(question, plan))])
  }

  /**
   * One tool call of a reply with content `content`: arguments that do not
   * parse leave one step and no message; otherwise five steps, and the
   * assistant message carrying the call followed by the tool's answer to it.
   */
  function ProcessCall(cfg: Config, s: Turn, content: Option<string>, call: ToolCall): (r: Result<Turn>)
    ensures r.Failure? <==> cfg.loads(call.arguments).Success? && ExecuteTool(cfg, call.name, cfg.loads(call.arguments).value).Failure?
    ensures r.Success? ==> s.steps <= r.value.steps && s.messages <= r.value.messages
  {
    match cfg.loads(call.arguments)
    case Failure(error) =>
      Success(Turn(s.steps + [ParseErrorStep(error)], s.messages))
    case Success(args) =>
      var result :- ExecuteTool(cfg, call.name, args);
      Success(Turn(
        s.steps + ["---", NarrationStep(content), ToolStep(call.name), InputStep(cfg.dumps(args)), ResultStep(result.result)],
        s.messages + [AssistantMessage(content, [call]), ToolMessage(call.id, result.result)]))
  }

  /** The tool calls of one reply, in order; the first exception ends them. */
  function ProcessCalls(cfg: Config, s: Turn, content: Option<string>, calls: seq<ToolCall>): (r: Result<Turn>)
    ensures r.Success? ==> s.steps <= r.value.steps && s.messages <= r.value.messages
    decreases |calls|
  {
    if calls == [] then
      Success(s)
    else
      var next :- ProcessCall(cfg, s, content, calls[0]);
      ProcessCalls(cfg, next, content, calls[1..])
  }

  /** A reply without tool calls: its content, when there is any, closes the steps as the answer. */
  function Conclude(s: Turn, content: Option<string>): (t: Turn)
    ensures t.messages == s.messages && s.steps <= t.steps
    ensures Truthy(content) <==> |t.steps| == |s.steps| + 2
    ensures Truthy(content) ==> t.steps[|s.steps|..] == ["---", FinalStep(content.value)]
  {
    if Truthy(content) then Turn(s.steps + ["---", FinalStep(content.value)], s.messages) else s
  }

  /** The rest of a run from the recorded turn `s`, given the replies still to come. */
  function Loop(cfg: Config, s: Turn, replies: seq<Reply>): (r: Outcome)
    ensures r.Unfinished? ==> forall k :: 0 <= k < |replies| ==> replies[k].Reply? && replies[k].toolCalls != []
    decreases |replies|
  {
    if replies == [] then
      Unfinished(s)
    else
      match replies[0]
      case ServiceFailure(message) => Raised(message)
      case Reply(content, calls) =>
        if calls == [] then
          Answered(Conclude(s, content))
        else
          match ProcessCalls(cfg, s, content, calls)
          case Failure(message) => Raised(message)
          case Success(next) => Loop(cfg, next, replies[1..])
  }

  /** A whole run of `question`. */
  function RunSpec(cfg: Config, planner: seq<Message> -> PlanReply, question: string, replies: seq<Reply>): Outcome {
    Loop(cfg, Seed(cfg, question, CreatePlan(cfg, planner, question)), replies)
  }

  /** What `run` returns; nothing when the script ends before the run does. */
  function Output(outcome: Outcome): (r: Option<string>)
    ensures r.None? <==> outcome.Unfinished?
    ensures outcome.Raised? ==> r == Some("Error: " + outcome.message)
    ensures outcome.Answered? ==> r == Some(Join(outcome.turn.steps, "\n\n"))
  {
    match outcome
    case Answered(turn) => Some(Join(turn.steps, "\n\n"))
    case Raised(message) => Some("Error: " + message)
    case Unfinished(_) => None
  }

  // ---------------------------------------------------------------- the loop, in place

  /** The two lists a run appends to. */
  class Transcript {
    var steps: seq<string>
    var messages: seq<Message>

    function State(): Turn
      reads this
    {
      Turn(steps, messages)
    }

    constructor (cfg: Config, question: string, plan: string)
      ensures State() == Seed(cfg, question, plan)
    {
      steps := [QuestionStep(question, plan)];
      messages := [SystemMessage(cfg.systemPrompt), UserMessage(ExecuteRequest(question, plan))];
    }

    method Log(entry: string)
      modifies this
      ensures steps == old(steps) + [entry]
      ensures messages == old(messages)
    {
      steps := steps + [entry];
    }

    /** The final-answer steps, when the closing reply has content. */
    method Close(content: Option<string>)
      modifies this
      ensures State() == Conclude(old(State()), content)
    {
      if Truthy(content) {
        Log("---");
        Log(FinalStep(content.value));
        assert steps == old(steps) + ["---", FinalStep(content.value)];
      }
    }

    /**
     * A tool call whose arguments parsed to `args`: four steps, then the
     * dispatch; if the lookup of an argument raises, its message and no
     * more, otherwise the result step and the assistant and tool messages.
     */
    method Invoke(cfg: Config, content: Option<string>, call: ToolCall, args: Json) returns (error: Option<string>)
      requires cfg.loads(call.arguments) == Success(args)
      modifies this
      ensures match ProcessCall(cfg, old(State()), content, call)
        case Failure(message) =>
          && error == Some(message)
          && steps == old(steps) + ["---", NarrationStep(content), ToolStep(call.name), InputStep(cfg.dumps(args))]
          && messages == old(messages)
        case Success(next) => error == None && State() == next
    {
      Announce(content, call.name, cfg.dumps(args));
      var result := ExecuteTool(cfg, call.name, args);
      if result.Failure? {
        return Some(result.error);
      }
      Record(content, call, result.value.result);
      return None;
    }

    /** The separator, the narration, the tool and its input. */
    method Announce(content: Option<string>, name: string, input: string)
      modifies this
      ensures steps == old(steps) + ["---", NarrationStep(content), ToolStep(name), InputStep(input)]
      ensures messages == old(messages)
    {
      Log("---");
      Log(NarrationStep(content));
      Log(ToolStep(name));
      Log(InputStep(input));
    }

    /** The result step, and the assistant message with the call followed by the tool's answer. */
    method Record(content: Option<string>, call: ToolCall, result: string)
      modifies this
      ensures steps == old(steps) + [ResultStep(result)]
      ensures messages == old(messages) + [AssistantMessage(content, [call]), ToolMessage(call.id, result)]
    {
      Log(ResultStep(result));
      Send(AssistantMessage(content, [call]));
      Send(ToolMessage(call.id, result));
    }

    method Send(message: Message)
      modifies this
      ensures messages == old(messages) + [message]
      ensures steps == old(steps)
    {
      messages := messages + [message];
    }
  }

  /** `Agent.run(question)`, with the chat service's replies in order. */
  method Run(cfg: Config, planner: seq<Message> -> PlanReply, question: string, replies: seq<Reply>)
    returns (output: Option<string>)
    ensures output == Output(RunSpec(cfg, planner, question, replies))
  {
    var plan := CreatePlan(cfg, planner, question);
    var conv := new Transcript(cfg, question, plan);
    var i := 0;
    while i < |replies|
      invariant 0 <= i <= |replies|
      invariant Loop(cfg, conv.State(), replies[i..]) == RunSpec(cfg, planner, question, replies)
      decreases |replies| - i
    {
      var reply := replies[i];
      if reply.ServiceFailure? {
        return Some("Error: " + reply.message);
      }
      var content, calls := reply.content, reply.toolCalls;
      ghost var start := conv.State();
      if calls == [] {
        assert Loop(cfg, start, replies[i..]) == Answered(Conclude(start, content));
        conv.Close(content);
        return Some(Join(conv.steps, "\n\n"));
      }
      assert Loop(cfg, start, replies[i..]) == match ProcessCalls(cfg, start, content, calls)
        case Failure(message) => Raised(message)
        case Success(next) => Loop(cfg, next, replies[i + 1..]);
      for j := 0 to |calls|
        invariant ProcessCalls(cfg, conv.State(), content, calls[j..]) == ProcessCalls(cfg, start, content, calls)
      {
        var call := calls[j];
        assert calls[j..][1..] == calls[j + 1..];
        var parsed := cfg.loads(call.arguments);
        if parsed.Failure? {
          conv.Log(ParseErrorStep(parsed.error));
          continue;
        }
        var error := conv.Invoke(cfg, content, call, parsed.value);
        if error.Some? {
          return Some("Error: " + error.value);
        }
      }
      assert calls[|calls|..] == [];
      i := i + 1;
    }
    assert replies[i..] == [];
    return None;
  }
}
