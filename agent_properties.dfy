/**
 * What the agent promises about its tool dispatch and its transcript: how
 * each tool's arguments become its input, what a reply's tool calls add to
 * the steps and messages, that parse failures never end a run, and that the
 * message list stays a well-formed chat history.
 */
module AgentProperties {
  import opened Wrappers
  import opened Text
  import opened Tools
  import opened Agent

  // ---------------------------------------------------------------- tool dispatch

  /** `operation == "today"` asks for today, whatever `days` holds. */
  lemma TodayIgnoresDays(cfg: Config, fields: map<string, Json>)
    requires "operation" in fields && "days" in fields
    requires fields["operation"] == JString("today")
    ensures ExecuteTool(cfg, "datetime", JObject(fields)) == Success(cfg.tools.datetime("today"))
  {
  }

  /** Any other operation is written `<operation>:<days>`. */
  lemma ShiftQueryFormat(cfg: Config, fields: map<string, Json>)
    requires "operation" in fields && "days" in fields
    requires fields["operation"] != JString("today")
    ensures ExecuteTool(cfg, "datetime", JObject(fields))
         == Success(cfg.tools.datetime(Show(fields["operation"], cfg.pyStr) + ":" + Show(fields["days"], cfg.pyStr)))
  {
  }

  /** `days` is read even for `today`: without it the call raises a KeyError. */
  lemma TodayStillNeedsDays(cfg: Config, fields: map<string, Json>)
    requires "operation" in fields && "days" !in fields
    ensures ExecuteTool(cfg, "datetime", JObject(fields)) == Failure(Repr("days"))
  {
  }

  /** The Wikipedia tool is given `<action>:<query>`. */
  lemma WikipediaQueryFormat(cfg: Config, fields: map<string, Json>)
    requires "action" in fields && "query" in fields
    ensures ExecuteTool(cfg, "wikipedia", JObject(fields))
         == Success(cfg.tools.wikipedia(Show(fields["action"], cfg.pyStr) + ":" + Show(fields["query"], cfg.pyStr)))
  {
  }

  /** The calculator and the search tool are given their one argument unchanged. */
  lemma SingleArgumentForwarded(cfg: Config, fields: map<string, Json>)
    ensures "expression" in fields ==>
      ExecuteTool(cfg, "calculator", JObject(fields)) == Success(cfg.tools.calculator(fields["expression"]))
    ensures "query" in fields ==>
      ExecuteTool(cfg, "google_search", JObject(fields)) == Success(cfg.tools.googleSearch(fields["query"]))
  {
  }

  /** An unknown name gives the same answer whatever the tools are: no tool is run. */
  lemma UnknownToolRunsNoTool(cfg: Config, other: Toolbox, name: string, args: Json)
    requires name !in ToolNames
    ensures ExecuteTool(cfg, name, args) == ExecuteTool(cfg.(tools := other), name, args)
    ensures ExecuteTool(cfg, name, args) == Success(ToolResult(false, "Error: Tool '" + name + "' not found"))
  {
  }

  // ---------------------------------------------------------------- one reply's tool calls

  /** The calls of a reply whose arguments parse, in order. */
  function Parsed(cfg: Config, calls: seq<ToolCall>): (r: seq<ToolCall>)
    ensures |r| <= |calls|
    ensures forall k :: 0 <= k < |r| ==> r[k] in calls && cfg.loads(r[k].arguments).Success?
    decreases |calls|
  {
    if calls == [] then []
    else if cfg.loads(calls[0].arguments).Success? then [calls[0]] + Parsed(cfg, calls[1..])
    else Parsed(cfg, calls[1..])
  }

  /**
   * `msgs` is, for each call in turn, the assistant message carrying just
   * that call followed by a tool message that answers it by its id.
   */
  predicate Exchanges(msgs: seq<Message>, content: Option<string>, calls: seq<ToolCall>)
    decreases |calls|
  {
    if calls == [] then msgs == []
    else
      && |msgs| >= 2
      && msgs[0] == AssistantMessage(content, [calls[0]])
      && msgs[1].ToolMessage? && msgs[1].toolCallId == calls[0].id
      && Exchanges(msgs[2..], content, calls[1..])
  }

  /**
   * `steps` is, for each call in turn, its parse error, or the separator,
   * the narration, the tool, its input and its result.
   */
  predicate Traced(cfg: Config, steps: seq<string>, content: Option<string>, calls: seq<ToolCall>)
    decreases |calls|
  {
    if calls == [] then steps == []
    else match cfg.loads(calls[0].arguments)
      case Failure(error) =>
        && |steps| >= 1
        && steps[0] == ParseErrorStep(error)
        && Traced(cfg, steps[1..], content, calls[1..])
      case Success(args) =>
        && |steps| >= 5
        && steps[0] == "---"
        && steps[1] == NarrationStep(content)
        && steps[2] == ToolStep(calls[0].name)
        && steps[3] == InputStep(cfg.dumps(args))
        && ExecuteTool(cfg, calls[0].name, args).Success?
        && steps[4] == ResultStep(ExecuteTool(cfg, calls[0].name, args).value.result)
        && Traced(cfg, steps[5..], content, calls[1..])
  }

  /**
   * The calls of a reply only append: five steps and two messages (an
   * exchange) per call whose arguments parse, one step per call whose
   * arguments do not.
   */
  lemma CallsBookkeeping(cfg: Config, s: Turn, content: Option<string>, calls: seq<ToolCall>)
    requires ProcessCalls(cfg, s, content, calls).Success?
    ensures var t := ProcessCalls(cfg, s, content, calls).value;
      && s.steps <= t.steps && s.messages <= t.messages
      && |t.steps| == |s.steps| + 5 * |Parsed(cfg, calls)| + (|calls| - |Parsed(cfg, calls)|)
      && Traced(cfg, t.steps[|s.steps|..], content, calls)
      && Exchanges(t.messages[|s.messages|..], content, Parsed(cfg, calls))
  {
    CallsAppendSteps(cfg, s, content, calls);
    CallsAppendMessages(cfg, s, content, calls);
  }

  /** A trace has five steps per call whose arguments parse and one per call whose arguments do not. */
  lemma {:induction false} TracedLength(cfg: Config, steps: seq<string>, content: Option<string>, calls: seq<ToolCall>)
    requires Traced(cfg, steps, content, calls)
    ensures |steps| == 5 * |Parsed(cfg, calls)| + (|calls| - |Parsed(cfg, calls)|)
    decreases |calls|
  {
    if calls != [] {
      if cfg.loads(calls[0].arguments).Success? {
        TracedLength(cfg, steps[5..], content, calls[1..]);
      } else {
        TracedLength(cfg, steps[1..], content, calls[1..]);
      }
    }
  }

  lemma CallsAppendSteps(cfg: Config, s: Turn, content: Option<string>, calls: seq<ToolCall>)
    requires ProcessCalls(cfg, s, content, calls).Success?
    ensures var t := ProcessCalls(cfg, s, content, calls).value;
      && s.steps <= t.steps
      && |t.steps| == |s.steps| + 5 * |Parsed(cfg, calls)| + (|calls| - |Parsed(cfg, calls)|)
      && Traced(cfg, t.steps[|s.steps|..], content, calls)
  {
    var t := ProcessCalls(cfg, s, content, calls).value;
    CallsTraced(cfg, s, content, calls);
    TracedLength(cfg, t.steps[|s.steps|..], content, calls);
  }

  lemma {:induction false} CallsTraced(cfg: Config, s: Turn, content: Option<string>, calls: seq<ToolCall>)
    requires ProcessCalls(cfg, s, content, calls).Success?
    ensures var t := ProcessCalls(cfg, s, content, calls).value;
      s.steps <= t.steps && Traced(cfg, t.steps[|s.steps|..], content, calls)
    decreases |calls|
  {
    if calls != [] {
      var next := ProcessCall(cfg, s, content, calls[0]).value;
      assert ProcessCalls(cfg, s, content, calls) == ProcessCalls(cfg, next, content, calls[1..]);
      var t := ProcessCalls(cfg, s, content, calls).value;
      CallsTraced(cfg, next, content, calls[1..]);
      OneCallTraced(cfg, s, content, calls[0]);
      PrefixSplit(s.steps, next.steps, t.steps);
      TracedAppend(cfg, next.steps[|s.steps|..], t.steps[|next.steps|..], content, calls[0], calls[1..]);
      assert [calls[0]] + calls[1..] == calls;
    }
  }

  /** One call's own steps trace it. */
  lemma OneCallTraced(cfg: Config, s: Turn, content: Option<string>, call: ToolCall)
    requires ProcessCall(cfg, s, content, call).Success?
    ensures var next := ProcessCall(cfg, s, content, call).value;
      s.steps <= next.steps && Traced(cfg, next.steps[|s.steps|..], content, [call])
  {
    var next := ProcessCall(cfg, s, content, call).value;
    var added := next.steps[|s.steps|..];
    assert [call][1..] == [];
    match cfg.loads(call.arguments)
    case Failure(error) =>
      assert added == [ParseErrorStep(error)];
    case Success(args) =>
      var result := ExecuteTool(cfg, call.name, args).value;
      assert added == ["---", NarrationStep(content), ToolStep(call.name), InputStep(cfg.dumps(args)), ResultStep(result.result)];
  }

  /** The part of `c` after `a` is the part of `b` after `a`, then the part of `c` after `b`. */
  lemma PrefixSplit<T>(a: seq<T>, b: seq<T>, c: seq<T>)
    requires a <= b && b <= c
    ensures a <= c && c[|a|..] == b[|a|..] + c[|b|..]
  {
  }

  /** A trace of one call followed by a trace of more calls traces them all. */
  lemma TracedAppend(cfg: Config, first: seq<string>, rest: seq<string>, content: Option<string>, call: ToolCall, calls: seq<ToolCall>)
    requires Traced(cfg, first, content, [call]) && Traced(cfg, rest, content, calls)
    ensures Traced(cfg, first + rest, content, [call] + calls)
  {
    assert ([call] + calls)[1..] == calls;
    assert [call][1..] == [];
    if cfg.loads(call.arguments).Success? {
      assert (first + rest)[5..] == rest;
    } else {
      assert (first + rest)[1..] == rest;
    }
  }

  /** The messages one call adds: none for a parse failure, else the call and the tool's answer to it. */
  lemma OneCallMessages(cfg: Config, s: Turn, content: Option<string>, call: ToolCall)
    requires ProcessCall(cfg, s, content, call).Success?
    ensures var n := ProcessCall(cfg, s, content, call).value;
      if cfg.loads(call.arguments).Success? then
        && n.messages[..|s.messages|] == s.messages
        && |n.messages| == |s.messages| + 2
        && n.messages[|s.messages|] == AssistantMessage(content, [call])
        && n.messages[|s.messages| + 1].ToolMessage?
        && n.messages[|s.messages| + 1].toolCallId == call.id
      else
        n.messages == s.messages
  {
  }

  lemma {:induction false} CallsAppendMessages(cfg: Config, s: Turn, content: Option<string>, calls: seq<ToolCall>)
    requires ProcessCalls(cfg, s, content, calls).Success?
    ensures var t := ProcessCalls(cfg, s, content, calls).value;
      && s.messages <= t.messages
      && Exchanges(t.messages[|s.messages|..], content, Parsed(cfg, calls))
    decreases |calls|
  {
    if calls != [] {
      var next := ProcessCall(cfg, s, content, calls[0]).value;
      var t := ProcessCalls(cfg, s, content, calls).value;
      assert t == ProcessCalls(cfg, next, content, calls[1..]).value;
      OneCallMessages(cfg, s, content, calls[0]);
      CallsAppendMessages(cfg, next, content, calls[1..]);
      if cfg.loads(calls[0].arguments).Success? {
        var parsed := Parsed(cfg, calls);
        assert parsed[0] == calls[0] && parsed[1..] == Parsed(cfg, calls[1..]);
        var tail := t.messages[|s.messages|..];
        assert tail[0] == next.messages[|s.messages|];
        assert tail[1] == next.messages[|s.messages| + 1];
        assert tail[2..] == t.messages[|next.messages|..];
      } else {
        assert t.messages[|s.messages|..] == t.messages[|next.messages|..];
      }
    }
  }

  /**
   * A call ends the run when its arguments parse and `_execute_tool` raises
   * on them: an argument it looks up is missing, or the arguments are not an
   * object. The tools themselves never raise; each catches its own errors.
   */
  predicate LookupRaises(cfg: Config, call: ToolCall) {
    cfg.loads(call.arguments).Success? && ExecuteTool(cfg, call.name, cfg.loads(call.arguments).value).Failure?
  }

  /**
   * The calls of a reply end in an exception exactly when the argument
   * lookup of one of them raises: arguments that do not parse never end them.
   */
  lemma {:induction false} CallsFailOnlyWhenALookupRaises(cfg: Config, s: Turn, content: Option<string>, calls: seq<ToolCall>)
    ensures ProcessCalls(cfg, s, content, calls).Failure? <==> exists k :: 0 <= k < |calls| && LookupRaises(cfg, calls[k])
    decreases |calls|
  {
    if calls != [] {
      var first := ProcessCall(cfg, s, content, calls[0]);
      assert first.Failure? <==> LookupRaises(cfg, calls[0]);
      if first.Success? {
        CallsFailOnlyWhenALookupRaises(cfg, first.value, content, calls[1..]);
        if exists k :: 0 <= k < |calls| && LookupRaises(cfg, calls[k]) {
          var k :| 0 <= k < |calls| && LookupRaises(cfg, calls[k]);
          assert calls[1..][k - 1] == calls[k];
        }
        if exists k :: 0 <= k < |calls[1..]| && LookupRaises(cfg, calls[1..][k]) {
          var k :| 0 <= k < |calls[1..]| && LookupRaises(cfg, calls[1..][k]);
          assert calls[k + 1] == calls[1..][k];
        }
      }
    }
  }

  // ---------------------------------------------------------------- the chat history

  /** A history of exchanges: each assistant message carries one call, answered next by its id. */
  predicate Exchanged(msgs: seq<Message>)
    decreases |msgs|
  {
    msgs == [] ||
      (&& |msgs| >= 2
       && msgs[0].AssistantMessage? && |msgs[0].toolCalls| == 1
       && msgs[1].ToolMessage? && msgs[1].toolCallId == msgs[0].toolCalls[0].id
       && Exchanged(msgs[2..]))
  }

  /** The question step first; the system and user messages, then exchanges. */
  predicate WellFormed(t: Turn) {
    && |t.steps| >= 1
    && |t.messages| >= 2
    && t.messages[0].SystemMessage? && t.messages[1].UserMessage?
    && Exchanged(t.messages[2..])
  }

  lemma {:induction false} ExchangesAreExchanged(msgs: seq<Message>, content: Option<string>, calls: seq<ToolCall>)
    requires Exchanges(msgs, content, calls)
    ensures Exchanged(msgs)
    decreases |calls|
  {
    if calls != [] {
      ExchangesAreExchanged(msgs[2..], content, calls[1..]);
    }
  }

  lemma {:induction false} ExchangedAppend(a: seq<Message>, b: seq<Message>)
    requires Exchanged(a) && Exchanged(b)
    ensures Exchanged(a + b)
    decreases |a|
  {
    if a == [] {
      assert a + b == b;
    } else {
      ExchangedAppend(a[2..], b);
      assert (a + b)[2..] == a[2..] + b;
    }
  }

  lemma CallsKeepWellFormed(cfg: Config, s: Turn, content: Option<string>, calls: seq<ToolCall>)
    requires WellFormed(s) && ProcessCalls(cfg, s, content, calls).Success?
    ensures WellFormed(ProcessCalls(cfg, s, content, calls).value)
  {
    var t := ProcessCalls(cfg, s, content, calls).value;
    CallsBookkeeping(cfg, s, content, calls);
    ExchangesAreExchanged(t.messages[|s.messages|..], content, Parsed(cfg, calls));
    ExtendedByExchanges(s, t);
  }

  /** Exchanges appended to a well-formed turn leave it well formed. */
  lemma ExtendedByExchanges(s: Turn, t: Turn)
    requires WellFormed(s) && s.steps <= t.steps && s.messages <= t.messages
    requires Exchanged(t.messages[|s.messages|..])
    ensures WellFormed(t)
  {
    var tail := t.messages[|s.messages|..];
    assert t.messages == s.messages + tail;
    assert t.messages[2..] == s.messages[2..] + tail;
    ExchangedAppend(s.messages[2..], tail);
  }

  // ---------------------------------------------------------------- the conversation loop

  /**
   * Unless it raises, the rest of a run only appends to the steps and the
   * messages, and keeps the history well formed.
   */
  lemma {:induction false} LoopAppendsOnly(cfg: Config, s: Turn, replies: seq<Reply>)
    requires WellFormed(s)
    ensures var o := Loop(cfg, s, replies);
      o.Raised? || (s.steps <= o.turn.steps && s.messages <= o.turn.messages && WellFormed(o.turn))
    decreases |replies|
  {
    if replies != [] && replies[0].Reply? && replies[0].toolCalls != [] {
      var r := ProcessCalls(cfg, s, replies[0].content, replies[0].toolCalls);
      if r.Success? {
        CallsBookkeeping(cfg, s, replies[0].content, replies[0].toolCalls);
        CallsKeepWellFormed(cfg, s, replies[0].content, replies[0].toolCalls);
        LoopAppendsOnly(cfg, r.value, replies[1..]);
      }
    }
  }

  /**
   * The calls of a reply end in the exception of the first call whose
   * argument lookup raises: its KeyError or TypeError text is the error.
   */
  lemma {:induction false} FirstLookupRaiseEndsCalls(cfg: Config, s: Turn, content: Option<string>, calls: seq<ToolCall>, j: nat)
    requires j < |calls| && LookupRaises(cfg, calls[j])
    requires forall i :: 0 <= i < j ==> !LookupRaises(cfg, calls[i])
    ensures ProcessCalls(cfg, s, content, calls)
         == Failure(ExecuteTool(cfg, calls[j].name, cfg.loads(calls[j].arguments).value).error)
    decreases j
  {
    if j > 0 {
      assert !LookupRaises(cfg, calls[0]);
      var next := ProcessCall(cfg, s, content, calls[0]).value;
      assert ProcessCalls(cfg, s, content, calls) == ProcessCalls(cfg, next, content, calls[1..]);
      assert forall i :: 0 <= i < j - 1 ==> calls[1..][i] == calls[i + 1];
      FirstLookupRaiseEndsCalls(cfg, next, content, calls[1..], j - 1);
      assert calls[1..][j - 1] == calls[j];
    }
  }

  /** A reply that ends the run in an exception: the service fails, or the argument lookup of one of its calls raises. */
  predicate Aborts(cfg: Config, reply: Reply) {
    reply.ServiceFailure? || exists k :: 0 <= k < |reply.toolCalls| && LookupRaises(cfg, reply.toolCalls[k])
  }

  /** A run raises only at a reply that aborts it; a bad plan or unparsable arguments never do. */
  lemma {:induction false} RaisesOnlyOnAbort(cfg: Config, s: Turn, replies: seq<Reply>)
    ensures Loop(cfg, s, replies).Raised? ==> exists k :: 0 <= k < |replies| && Aborts(cfg, replies[k])
    decreases |replies|
  {
    if replies != [] && replies[0].Reply? && replies[0].toolCalls != [] {
      var r := ProcessCalls(cfg, s, replies[0].content, replies[0].toolCalls);
      CallsFailOnlyWhenALookupRaises(cfg, s, replies[0].content, replies[0].toolCalls);
      if r.Failure? {
        assert Aborts(cfg, replies[0]);
      } else {
        RaisesOnlyOnAbort(cfg, r.value, replies[1..]);
        if Loop(cfg, r.value, replies[1..]).Raised? {
          var k :| 0 <= k < |replies[1..]| && Aborts(cfg, replies[1..][k]);
          assert replies[k + 1] == replies[1..][k];
        }
      }
    } else if replies != [] && replies[0].ServiceFailure? {
      assert Aborts(cfg, replies[0]);
    }
  }

  /** A reply at which the loop ends: it aborts the run, or it calls no tool. */
  predicate Stops(cfg: Config, reply: Reply) {
    Aborts(cfg, reply) || (reply.Reply? && reply.toolCalls == [])
  }

  /**
   * The loop ends at the first reply that stops it: in an exception exactly
   * when that reply aborts, and otherwise with an answer, which is the turn
   * the replies before it recorded, concluded with its content.
   */
  lemma {:induction false} LoopEndsAtFirstStop(cfg: Config, s: Turn, replies: seq<Reply>, k: nat)
    requires k < |replies| && Stops(cfg, replies[k])
    requires forall j :: 0 <= j < k ==> !Stops(cfg, replies[j])
    ensures Loop(cfg, s, replies[..k]).Unfinished?
    ensures Loop(cfg, s, replies).Raised? <==> Aborts(cfg, replies[k])
    ensures Loop(cfg, s, replies).Answered? <==> !Aborts(cfg, replies[k])
    ensures Loop(cfg, s, replies).Answered? ==>
      && replies[k].Reply?
      && Loop(cfg, s, replies).turn == Conclude(Loop(cfg, s, replies[..k]).turn, replies[k].content)
    decreases k
  {
    var reply := replies[0];
    if k == 0 {
      assert replies[..0] == [];
      if reply.Reply? {
        if reply.toolCalls == [] {
          assert !Aborts(cfg, reply);
          assert Loop(cfg, s, replies).turn == Conclude(s, reply.content);
        } else {
          CallsFailOnlyWhenALookupRaises(cfg, s, reply.content, reply.toolCalls);
        }
      }
    } else {
      assert !Stops(cfg, reply);
      CallsFailOnlyWhenALookupRaises(cfg, s, reply.content, reply.toolCalls);
      var next := ProcessCalls(cfg, s, reply.content, reply.toolCalls).value;
      assert Loop(cfg, s, replies) == Loop(cfg, next, replies[1..]);
      assert replies[..k][0] == reply && replies[..k][1..] == replies[1..][..k - 1];
      assert Loop(cfg, s, replies[..k]) == Loop(cfg, next, replies[1..][..k - 1]);
      assert forall j :: 0 <= j < k - 1 ==> replies[1..][j] == replies[j + 1];
      LoopEndsAtFirstStop(cfg, next, replies[1..], k - 1);
      assert replies[1..][k - 1] == replies[k];
    }
  }

  /**
   * The exception the loop ends in is that of the reply it stops at: the
   * service's own failure, or the failure of that reply's calls on the turn
   * the replies before it recorded.
   */
  lemma {:induction false} LoopRaisesAtFirstStop(cfg: Config, s: Turn, replies: seq<Reply>, k: nat)
    requires k < |replies| && Stops(cfg, replies[k])
    requires forall j :: 0 <= j < k ==> !Stops(cfg, replies[j])
    ensures Loop(cfg, s, replies[..k]).Unfinished?
    ensures replies[k].ServiceFailure? ==> Loop(cfg, s, replies) == Raised(replies[k].message)
    ensures replies[k].Reply? && Loop(cfg, s, replies).Raised? ==>
      var before := Loop(cfg, s, replies[..k]).turn;
      && ProcessCalls(cfg, before, replies[k].content, replies[k].toolCalls).Failure?
      && Loop(cfg, s, replies) == Raised(ProcessCalls(cfg, before, replies[k].content, replies[k].toolCalls).error)
    decreases k
  {
    LoopEndsAtFirstStop(cfg, s, replies, k);
    var reply := replies[0];
    if k == 0 {
      assert replies[..0] == [];
      assert Loop(cfg, s, replies[..0]).turn == s;
      RaisedAtHead(cfg, s, replies);
    } else {
      assert !Stops(cfg, reply);
      CallsFailOnlyWhenALookupRaises(cfg, s, reply.content, reply.toolCalls);
      var next := ProcessCalls(cfg, s, reply.content, reply.toolCalls).value;
      assert Loop(cfg, s, replies) == Loop(cfg, next, replies[1..]);
      assert replies[..k][0] == reply && replies[..k][1..] == replies[1..][..k - 1];
      assert Loop(cfg, s, replies[..k]) == Loop(cfg, next, replies[1..][..k - 1]);
      assert forall j :: 0 <= j < k - 1 ==> replies[1..][j] == replies[j + 1];
      LoopRaisesAtFirstStop(cfg, next, replies[1..], k - 1);
      assert replies[1..][k - 1] == replies[k];
    }
  }

  /** The exception the loop raises when its first reply stops it. */
  lemma RaisedAtHead(cfg: Config, s: Turn, replies: seq<Reply>)
    requires replies != [] && Stops(cfg, replies[0])
    ensures replies[0].ServiceFailure? ==> Loop(cfg, s, replies) == Raised(replies[0].message)
    ensures replies[0].Reply? && Loop(cfg, s, replies).Raised? ==>
      && ProcessCalls(cfg, s, replies[0].content, replies[0].toolCalls).Failure?
      && Loop(cfg, s, replies) == Raised(ProcessCalls(cfg, s, replies[0].content, replies[0].toolCalls).error)
  {
    var reply := replies[0];
    if reply.Reply? && reply.toolCalls != [] {
      CallsFailOnlyWhenALookupRaises(cfg, s, reply.content, reply.toolCalls);
      var calls := ProcessCalls(cfg, s, reply.content, reply.toolCalls);
      if calls.Failure? {
        assert Loop(cfg, s, replies) == Raised(calls.error);
      }
    }
  }

  /** A script in which no reply stops the loop runs out before the run ends. */
  lemma {:induction false} LoopRunsOutWithoutStop(cfg: Config, s: Turn, replies: seq<Reply>)
    requires forall j :: 0 <= j < |replies| ==> !Stops(cfg, replies[j])
    ensures Loop(cfg, s, replies).Unfinished?
    decreases |replies|
  {
    if replies != [] {
      var reply := replies[0];
      assert !Stops(cfg, reply);
      CallsFailOnlyWhenALookupRaises(cfg, s, reply.content, reply.toolCalls);
      var next := ProcessCalls(cfg, s, reply.content, reply.toolCalls).value;
      assert forall j :: 0 <= j < |replies| - 1 ==> replies[1..][j] == replies[j + 1];
      LoopRunsOutWithoutStop(cfg, next, replies[1..]);
    }
  }

  /** Once the run has ended, later replies are never asked for. */
  lemma {:induction false} LaterRepliesUnread(cfg: Config, s: Turn, replies: seq<Reply>, more: seq<Reply>)
    requires !Loop(cfg, s, replies).Unfinished?
    ensures Loop(cfg, s, replies + more) == Loop(cfg, s, replies)
    decreases |replies|
  {
    assert replies != [];
    assert (replies + more)[0] == replies[0];
    assert (replies + more)[1..] == replies[1..] + more;
    if replies[0].Reply? && replies[0].toolCalls != [] {
      var r := ProcessCalls(cfg, s, replies[0].content, replies[0].toolCalls);
      if r.Success? {
        LaterRepliesUnread(cfg, r.value, replies[1..], more);
      }
    }
  }

  /**
   * The transcript of a whole run, unless it raises: the question and plan
   * as its first step, the system prompt and the request to execute the
   * plan as its first messages, then well-formed exchanges. A failed plan
   * is recorded as its error text and the run goes on.
   */
  lemma RunTranscript(cfg: Config, planner: seq<Message> -> PlanReply, question: string, replies: seq<Reply>)
    ensures var plan, o := CreatePlan(cfg, planner, question), RunSpec(cfg, planner, question, replies);
      o.Raised? ||
        (&& WellFormed(o.turn)
         && o.turn.steps[0] == QuestionStep(question, plan)
         && o.turn.messages[..2] == [SystemMessage(cfg.systemPrompt), UserMessage(ExecuteRequest(question, plan))])
  {
    var seed := Seed(cfg, question, CreatePlan(cfg, planner, question));
    assert Exchanged(seed.messages[2..]);
    LoopAppendsOnly(cfg, seed, replies);
  }
}
