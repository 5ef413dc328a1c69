/**
  What the OpenAI translator does with the arguments of native tool calls, whose name may arrive late and in
  pieces: what is sent for a tool is a function of the fragments received for it.
 */
module OpenAIToolArgs {
  import opened Prelude
  import opened Strings
  import opened StreamContract
  import opened SseBuilder
  import opened OpenAICompat
  import opened OpenAIContract

  /** The fragments processed for tool `t`, in order; the last may have raised. */
  function CallsTo(b: Builder, inputs: seq<Input>, cfg: Config, t: int): seq<ToolCallDelta> {
    if inputs == [] then []
    else
      var front, x := inputs[..|inputs| - 1], inputs[|inputs| - 1];
      var (b1, raised) := Run(b, front, cfg);
      CallsTo(b, front, cfg, t) + if !raised && x.ToolCall? && Target(b1, x.call) == t then [x.call] else []
  }

  /** The name that the fragments make up. */
  function NameAfter(calls: seq<ToolCallDelta>): string {
    if calls == [] then ""
    else
      var prev, name := NameAfter(calls[..|calls| - 1]), calls[|calls| - 1].name;
      if name.Some? then MergeName(prev, name.value) else prev
  }

  /** The arguments of the fragments, one after another. */
  function Received(calls: seq<ToolCallDelta>): string {
    if calls == [] then "" else Received(calls[..|calls| - 1]) + calls[|calls| - 1].arguments
  }

  /** What the text of Task arguments turned out to be the first time it was JSON. */
  datatype Spelling = Unspelled | Spelled(text: string) | Refused

  function SpellingOf(args: TaskArgs): Spelling {
    match args
    case Invalid => Unspelled
    case NotAnObject => Refused
    case Object(text) => Spelled(text)
  }

  /**
    The arguments of one tool: those that came while the name was blank, before it was Task, while it was
    Task, and after it had grown beyond.
   */
  datatype Story = Story(unnamed: string, before: seq<string>, task: string, spelling: Spelling, after: seq<string>)

  const UNTOLD: Story := Story("", [], "", Unspelled, [])

  function Hear(story: Story, name: string, args: string, cfg: Config): Story {
    if args == "" || story.spelling.Refused? then story
    else if name == "Task" then
      var task := story.task + args;
      story.(task := task, spelling := if story.spelling.Unspelled? then SpellingOf(cfg.parse(task)) else story.spelling)
    else if "Task" < name then story.(after := story.after + [args])
    else story.(before := story.before + [args])
  }

  /** With the first name that is not blank, what came before it is heard in one piece. */
  function HearName(story: Story, name: string, cfg: Config): Story {
    if Strip(name) == "" then story else Hear(story.(unnamed := ""), name, story.unnamed, cfg)
  }

  function HearArguments(story: Story, name: string, args: string, cfg: Config): Story {
    if Strip(name) == "" then story.(unnamed := story.unnamed + args) else Hear(story, name, args, cfg)
  }

  function StoryOf(calls: seq<ToolCallDelta>, cfg: Config): Story {
    if calls == [] then UNTOLD
    else
      var name := NameAfter(calls);
      HearArguments(HearName(StoryOf(calls[..|calls| - 1], cfg), name, cfg), name, calls[|calls| - 1].arguments, cfg)
  }

  function Printed(spelling: Spelling): seq<string> {
    if spelling.Spelled? then [spelling.text] else []
  }

  /** What is sent: Task arguments as one object; at a normal end the empty one if they never spelled any. */
  function Told(story: Story, complete: bool): seq<string> {
    story.before + Printed(story.spelling) + story.after
    + if complete && story.spelling.Unspelled? && story.task != "" then ["{}"] else []
  }

  // ---------------------------------------------------------------------------------------------
  // Names only grow, so the parts of a story follow one another.

  lemma CallSnoc(calls: seq<ToolCallDelta>, call: ToolCallDelta, cfg: Config)
    ensures NameAfter(calls + [call]) ==
            if call.name.Some? then MergeName(NameAfter(calls), call.name.value) else NameAfter(calls)
    ensures Received(calls + [call]) == Received(calls) + call.arguments
    ensures var name := NameAfter(calls + [call]);
            StoryOf(calls + [call], cfg) ==
            HearArguments(HearName(StoryOf(calls, cfg), name, cfg), name, call.arguments, cfg)
  {
    hide MergeName, Strip, Hear;
    assert (calls + [call])[..|calls|] == calls;
  }

  lemma MergeGrows(prev: string, name: string)
    ensures prev <= MergeName(prev, name)
    ensures prev != "" ==> (MergeName(prev, name) == prev <==> name <= prev)
  {
  }

  lemma BlankPrefix(prev: string, name: string)
    requires prev <= name && IsBlank(name)
    ensures IsBlank(prev)
  {
    hide IsSpace;
    assert forall i :: 0 <= i < |prev| ==> prev[i] == name[i];
  }

  lemma NamedStaysNamed(prev: string, name: string)
    requires prev <= name && Strip(prev) != ""
    ensures Strip(name) != ""
  {
    StripBlank(prev);
    StripBlank(name);
    hide Strip, IsBlank;
    if IsBlank(name) { BlankPrefix(prev, name); }
  }

  ghost predicate Ordered(story: Story, name: string) {
    && (Strip(name) == "" ==> story.before == [] && story.task == "" && story.after == [])
    && (story.task != "" ==> "Task" <= name)
    && (story.after != [] ==> "Task" < name)
    && (story.task == "" ==> story.spelling.Unspelled?)
    && (story.spelling.Refused? ==> story.after == [])
  }

  lemma OrderedGrows(story: Story, prev: string, name: string)
    requires Ordered(story, prev) && prev <= name
    ensures Ordered(story, name)
  {
    hide Strip;
    if Strip(prev) != "" { NamedStaysNamed(prev, name); }
  }

  lemma HearKeepsOrder(story: Story, name: string, args: string, cfg: Config)
    requires Ordered(story, name) && Strip(name) != ""
    ensures Ordered(Hear(story, name, args, cfg), name) && Hear(story, name, args, cfg).unnamed == story.unnamed
  {
    hide Strip;
  }

  lemma HearNameKeepsOrder(story: Story, name: string, cfg: Config)
    requires Ordered(story, name)
    ensures Ordered(HearName(story, name, cfg), name)
    ensures Strip(name) != "" ==> HearName(story, name, cfg).unnamed == ""
  {
    hide Strip, Hear;
    if Strip(name) != "" { HearKeepsOrder(story.(unnamed := ""), name, story.unnamed, cfg); }
  }

  lemma {:induction false} StoryOrdered(calls: seq<ToolCallDelta>, cfg: Config)
    ensures Ordered(StoryOf(calls, cfg), NameAfter(calls))
    ensures Strip(NameAfter(calls)) != "" ==> StoryOf(calls, cfg).unnamed == ""
  {
    if calls != [] {
      var front, call := calls[..|calls| - 1], calls[|calls| - 1];
      hide Strip, Ordered, Hear, HearName, MergeName;
      StoryOrdered(front, cfg);
      var name, story := NameAfter(calls), StoryOf(front, cfg);
      if call.name.Some? { MergeGrows(NameAfter(front), call.name.value); }
      OrderedGrows(story, NameAfter(front), name);
      HearNameKeepsOrder(story, name, cfg);
      var heard := HearName(story, name, cfg);
      if Strip(name) != "" {
        HearKeepsOrder(heard, name, call.arguments, cfg);
      } else {
        UnnamedKeepsOrder(heard, name, heard.unnamed + call.arguments);
      }
    } else {
      hide Strip;
      StripEmpty();
    }
  }

  lemma UnnamedKeepsOrder(story: Story, name: string, unnamed: string)
    requires Ordered(story, name)
    ensures Ordered(story.(unnamed := unnamed), name)
  {
    hide Strip;
  }

  lemma StripEmpty()
    ensures Strip("") == ""
  {
  }

  // ---------------------------------------------------------------------------------------------
  // A fragment concerns its own tool only.

  predicate SameTool(b: Builder, b': Builder, t: int) {
    (t in b.tools <==> t in b'.tools) && (t in b.tools ==> b.tools[t] == b'.tools[t])
  }

  lemma OtherToolUntouched(b: Builder, call: ToolCallDelta, cfg: Config, t: int)
    requires Target(b, call) != t
    ensures SameTool(b, ProcessToolCall(b, call, cfg).0, t)
  {
    hide Strip, ResolvedId, MergeName;
    var u := Target(b, call);
    var b1 := Identified(b, u, call);
    assert SameTool(b, b1, t);
    var (b2, raised) := StartIfNamed(b1, u, call, cfg);
    EmitArgsUntouched(b1, u, call, cfg, t);
    if !raised { TakeArgumentsUntouched(b2, u, call.arguments, cfg, t); }
  }

  lemma EmitToolArgsUntouched(b: Builder, u: int, args: string, cfg: Config, t: int)
    requires u in b.tools && u != t
    ensures SameTool(b, EmitToolArgs(b, u, args, cfg).0, t)
  {
  }

  lemma EmitArgsUntouched(b: Builder, u: int, call: ToolCallDelta, cfg: Config, t: int)
    requires u != t
    ensures SameTool(b, StartIfNamed(b, u, call, cfg).0, t)
  {
    hide Strip, ResolvedId, EmitToolArgs;
    var b1 := StartTool(b, u, ResolvedId(b, u, call), Strip(NameOf(b, u)));
    EmitToolArgsUntouched(PutTool(b1, u, b1.tools[u].(preStartArgs := "")), u, b1.tools[u].preStartArgs, cfg, t);
  }

  lemma TakeArgumentsUntouched(b: Builder, u: int, args: string, cfg: Config, t: int)
    requires u != t
    ensures SameTool(b, TakeArguments(b, u, args, cfg).0, t)
  {
    hide Strip, EmitToolArgs;
    EmitToolArgsUntouched(EnsureTool(b, u), u, args, cfg, t);
    if u in b.tools { EmitToolArgsUntouched(b, u, args, cfg, t); }
  }

  lemma OtherStepUntouched(b: Builder, x: Input, cfg: Config, t: int)
    requires x.ToolCall? ==> Target(b, x.call) != t
    ensures SameTool(b, Step(b, x, cfg).0, t)
  {
    hide ProcessToolCall, Think, Say, HeuristicTools;
    match x {
      case Reasoning(content) => SayQuiet(b, content);
      case ThinkingPart(content) => SayQuiet(b, content);
      case TextPart(filtered, tools) =>
        SayQuiet(b, filtered);
        HeuristicToolsQuiet(if filtered != "" then Say(b, filtered) else b, tools);
      case ToolCall(call) => OtherToolUntouched(b, call, cfg, t);
      case _ =>
    }
  }

  // ---------------------------------------------------------------------------------------------
  // The state of a tool is what its fragments tell.

  /** A tool nothing was received for is as good as new. */
  function StateOf(b: Builder, t: int): ToolCallState {
    if t in b.tools then b.tools[t] else NewToolState("")
  }

  ghost predicate Holds(s: ToolCallState, story: Story) {
    && s.preStartArgs == story.unnamed
    && s.contents == story.before + Printed(story.spelling) + story.after
    && (story.spelling.Unspelled? ==> !s.taskArgsEmitted && s.taskArgBuffer == story.task)
    && (story.spelling.Spelled? ==> s.taskArgsEmitted && s.taskArgBuffer == "")
  }

  ghost predicate Follows(b: Builder, t: int, calls: seq<ToolCallDelta>, cfg: Config) {
    && NameOf(b, t) == NameAfter(calls)
    && (Started(b, t) <==> Strip(NameAfter(calls)) != "")
    && Holds(StateOf(b, t), StoryOf(calls, cfg))
  }

  lemma BufferHolds(b: Builder, t: int, args: string, cfg: Config, story: Story)
    requires t in b.tools && Holds(b.tools[t], story) && !story.spelling.Refused?
    requires args != "" && b.tools[t].name == "Task" && story.after == []
    ensures var (b', raised) := BufferTaskArgs(b, t, args, cfg.parse);
            var story' := Hear(story, "Task", args, cfg);
            && t in b'.tools && Holds(b'.tools[t], story') && (raised <==> story'.spelling.Refused?)
            && b'.tools[t].name == b.tools[t].name && b'.tools[t].started == b.tools[t].started
  {
    if story.spelling.Unspelled? { assert b.tools[t].contents == story.before; }
  }

  lemma DeltaHolds(b: Builder, t: int, args: string, cfg: Config, story: Story)
    requires t in b.tools && Holds(b.tools[t], story) && !story.spelling.Refused?
    requires args != "" && b.tools[t].name != "Task" && Ordered(story, b.tools[t].name)
    ensures var b' := ToolDelta(b, t, args);
            var story' := Hear(story, b.tools[t].name, args, cfg);
            && t in b'.tools && Holds(b'.tools[t], story') && !story'.spelling.Refused?
            && b'.tools[t].name == b.tools[t].name && b'.tools[t].started == b.tools[t].started
  {
    var s, s' := b.tools[t], ToolDelta(b, t, args).tools[t];
    hide Strip;
    assert s' == s.(contents := s.contents + [args]);
    hide ToolDelta;
    if !("Task" < s.name) {
      assert story.after == [] && story.spelling.Unspelled?;
      assert s.contents == story.before;
    } else {
      Associative(story.before + Printed(story.spelling), story.after, [args]);
    }
  }

  /** Passing arguments on is hearing them; it raises when they turn out not to be an object. */
  lemma EmitHolds(b: Builder, t: int, args: string, cfg: Config, story: Story)
    requires t in b.tools && Holds(b.tools[t], story) && !story.spelling.Refused?
    requires Ordered(story, b.tools[t].name)
    ensures var (b', raised) := EmitToolArgs(b, t, args, cfg);
            var story' := Hear(story, b.tools[t].name, args, cfg);
            && t in b'.tools && Holds(b'.tools[t], story') && (raised <==> story'.spelling.Refused?)
            && b'.tools[t].name == b.tools[t].name && b'.tools[t].started == b.tools[t].started
  {
    hide Strip, Holds, BufferTaskArgs, ToolDelta;
    if args != "" {
      if b.tools[t].name == "Task" {
        assert story.after == [];
        BufferHolds(b, t, args, cfg, story);
      } else {
        DeltaHolds(b, t, args, cfg, story);
      }
    }
  }

  lemma IdentifiedState(b: Builder, t: int, call: ToolCallDelta)
    ensures var s, s' := StateOf(b, t), StateOf(Identified(b, t, call), t);
            && s' == s.(toolId := s'.toolId, name := s'.name)
            && s'.name == (if call.name.Some? then MergeName(s.name, call.name.value) else s.name)
            && s'.toolId == (if call.id.Some? && call.id.value != "" then call.id.value else s.toolId)
  {
    hide StartsWith;
    var s := StateOf(b, t);
    var b1 := if call.id.Some? then SetToolId(b, t, call.id.value) else b;
    assert StateOf(b1, t) == s.(toolId := if call.id.Some? && call.id.value != "" then call.id.value else s.toolId);
    hide SetToolId;
  }

  lemma IdentifiedHolds(b: Builder, t: int, call: ToolCallDelta, story: Story)
    requires Holds(StateOf(b, t), story)
    ensures var b' := Identified(b, t, call);
            && Holds(StateOf(b', t), story) && (Started(b', t) <==> Started(b, t))
            && NameOf(b', t) == if call.name.Some? then MergeName(NameOf(b, t), call.name.value) else NameOf(b, t)
  {
    IdentifiedState(b, t, call);
    var b' := Identified(b, t, call);
    assert NameOf(b, t) == StateOf(b, t).name && NameOf(b', t) == StateOf(b', t).name;
    assert Started(b, t) == StateOf(b, t).started && Started(b', t) == StateOf(b', t).started;
    hide Identified, StateOf, MergeName;
  }

  lemma StartHolds(b: Builder, t: int, call: ToolCallDelta, cfg: Config, story: Story)
    requires Holds(StateOf(b, t), story) && Ordered(story, NameOf(b, t)) && !story.spelling.Refused?
    requires Started(b, t) ==> Strip(NameOf(b, t)) != "" && story.unnamed == ""
    ensures var (b', raised) := StartIfNamed(b, t, call, cfg);
            var story' := HearName(story, NameOf(b, t), cfg);
            && Holds(StateOf(b', t), story') && (raised <==> story'.spelling.Refused?)
            && NameOf(b', t) == NameOf(b, t) && (Started(b', t) <==> Strip(NameOf(b, t)) != "")
  {
    StripEmpty();
    hide Strip, ResolvedId;
    var name := NameOf(b, t);
    if Started(b, t) {
      assert story.(unnamed := "") == story;
    } else if Strip(name) != "" {
      var b1 := StartTool(b, t, ResolvedId(b, t, call), Strip(name));
      var b2 := PutTool(b1, t, b1.tools[t].(preStartArgs := ""));
      hide EmitToolArgs, Hear;
      UnnamedKeepsOrder(story, name, "");
      EmitHolds(b2, t, story.unnamed, cfg, story.(unnamed := ""));
    }
  }

  lemma TakeHolds(b: Builder, t: int, args: string, cfg: Config, story: Story)
    requires Holds(StateOf(b, t), story) && Ordered(story, NameOf(b, t)) && !story.spelling.Refused?
    requires Started(b, t) <==> Strip(NameOf(b, t)) != ""
    ensures var (b', raised) := TakeArguments(b, t, args, cfg);
            var story' := HearArguments(story, NameOf(b, t), args, cfg);
            && Holds(StateOf(b', t), story') && (raised <==> story'.spelling.Refused?)
            && NameOf(b', t) == NameOf(b, t) && (Started(b', t) <==> Started(b, t))
  {
    hide Strip;
    if Started(b, t) {
      EmitHolds(b, t, args, cfg, story);
    } else if args == "" {
      assert story.unnamed + args == story.unnamed;
    }
  }

  lemma OwnFragmentFollows(b: Builder, call: ToolCallDelta, cfg: Config, calls: seq<ToolCallDelta>)
    requires Follows(b, Target(b, call), calls, cfg) && !StoryOf(calls, cfg).spelling.Refused?
    ensures var (b', raised) := ProcessToolCall(b, call, cfg);
            && Follows(b', Target(b, call), calls + [call], cfg)
            && (raised <==> StoryOf(calls + [call], cfg).spelling.Refused?)
  {
    var t, calls' := Target(b, call), calls + [call];
    var story, name := StoryOf(calls, cfg), NameAfter(calls');
    var b1 := Identified(b, t, call);
    var (b2, raised) := StartIfNamed(b1, t, call, cfg);
    hide Strip, Ordered, Holds, HearName, HearArguments, Identified, StartIfNamed, TakeArguments, MergeName, StateOf,
         NameOf, Started, NameAfter, StoryOf;
    CallSnoc(calls, call, cfg);
    StoryOrdered(calls, cfg);
    IdentifiedHolds(b, t, call, story);
    if call.name.Some? { MergeGrows(NameAfter(calls), call.name.value); }
    OrderedGrows(story, NameAfter(calls), name);
    if Strip(NameAfter(calls)) != "" { NamedStaysNamed(NameAfter(calls), name); }
    StartHolds(b1, t, call, cfg, story);
    HearNameKeepsOrder(story, name, cfg);
    if !raised { TakeHolds(b2, t, call.arguments, cfg, HearName(story, name, cfg)); }
    else { RefusedHearsNothing(HearName(story, name, cfg), name, call.arguments, cfg); }
  }

  lemma RefusedHearsNothing(story: Story, name: string, args: string, cfg: Config)
    requires story.spelling.Refused? && Ordered(story, name)
    ensures HearArguments(story, name, args, cfg) == story
  {
    hide Strip;
  }

  lemma UntouchedFollows(b: Builder, b': Builder, t: int, calls: seq<ToolCallDelta>, cfg: Config)
    requires Follows(b, t, calls, cfg) && SameTool(b, b', t)
    ensures Follows(b', t, calls, cfg)
  {
    hide Strip, NameAfter, StoryOf;
  }

  lemma ToolStep(b: Builder, call: ToolCallDelta, cfg: Config)
    ensures Step(b, ToolCall(call), cfg) == ProcessToolCall(b, call, cfg)
  {
  }

  lemma {:induction false} RunFollows(b: Builder, inputs: seq<Input>, cfg: Config, t: int)
    requires Follows(b, t, [], cfg)
    ensures var calls := CallsTo(b, inputs, cfg, t);
            && Follows(Run(b, inputs, cfg).0, t, calls, cfg)
            && (StoryOf(calls, cfg).spelling.Refused? ==> Run(b, inputs, cfg).1)
  {
    if inputs != [] {
      var front, x := inputs[..|inputs| - 1], inputs[|inputs| - 1];
      hide Step, Follows, ProcessToolCall, StoryOf;
      RunFollows(b, front, cfg, t);
      var (b1, raised) := Run(b, front, cfg);
      var calls := CallsTo(b, front, cfg, t);
      NothingMore(calls);
      if !raised {
        if x.ToolCall? && Target(b1, x.call) == t {
          ToolStep(b1, x.call, cfg);
          OwnFragmentFollows(b1, x.call, cfg, calls);
        } else {
          OtherStepUntouched(b1, x, cfg, t);
          UntouchedFollows(b1, Step(b1, x, cfg).0, t, calls, cfg);
        }
      }
    } else {
      assert !UNTOLD.spelling.Refused?;
    }
  }

  // ---------------------------------------------------------------------------------------------
  // To the end of the stream.

  lemma {:induction false} FlushSpares(b: Builder, order: seq<int>, cfg: Config, t: int)
    requires t in b.tools && FlushTaskArgs(b, order, cfg.parse).Some?
    requires !NeedsFlush(b.tools[t]) || t !in order
    ensures SameTool(b, FlushTaskArgs(b, order, cfg.parse).value, t)
  {
    if order != [] {
      var front := order[..|order| - 1];
      assert forall u :: u in front ==> u in order;
      FlushSpares(b, front, cfg, t);
      assert order[|order| - 1] in order;
    }
  }

  lemma {:induction false} FlushReaches(b: Builder, order: seq<int>, cfg: Config, t: int)
    requires t in b.tools && NeedsFlush(b.tools[t]) && cfg.parse(b.tools[t].taskArgBuffer) == Invalid
    requires Distinct(order) && t in order && FlushTaskArgs(b, order, cfg.parse).Some?
    ensures var b' := FlushTaskArgs(b, order, cfg.parse).value;
            t in b'.tools && b'.tools[t].contents == b.tools[t].contents + ["{}"]
            && b'.tools[t].blockIndex == b.tools[t].blockIndex && b'.tools[t].started == b.tools[t].started
            && !NeedsFlush(b'.tools[t])
  {
    var n := |order| - 1;
    var front, last := order[..n], order[n];
    assert order == front + [last];
    if last == t {
      FlushSpares(b, front, cfg, t);
    } else {
      FlushReaches(b, front, cfg, t);
    }
  }

  lemma {:induction false} StopToolsRecorded(b: Builder, order: seq<int>)
    requires Recorded(b)
    ensures Recorded(StopTools(b, order)) && StopTools(b, order).tools == b.tools
  {
    if order != [] {
      var front, t := order[..|order| - 1], order[|order| - 1];
      StopToolsRecorded(b, front);
      var b1 := StopTools(b, front);
      if Started(b, t) {
        EmitRecorded(b1, BlockStop(b1.tools[t].blockIndex), StopTool(b1, t));
      }
    }
  }

  lemma EndRecorded(b: Builder, stopReason: string, tokens: int)
    requires Recorded(b)
    ensures Recorded(Close(b, stopReason, tokens)) && Close(b, stopReason, tokens).tools == b.tools
  {
    var a := MessageDelta(stopReason, tokens);
    EmitRecorded(b, a, Emit(b, a));
    EmitRecorded(Emit(b, a), MessageStop, Close(b, stopReason, tokens));
  }

  lemma CloseAllRecorded(b: Builder)
    requires Good(b)
    ensures Recorded(CloseAll(b)) && CloseAll(b).tools == b.tools
  {
    CloseContentGood(b);
    StopToolsRecorded(CloseContent(b), b.order);
  }

  lemma FailRecorded(b: Builder, message: string)
    requires Good(b)
    ensures Recorded(Fail(b, message)) && Fail(b, message).tools == b.tools
  {
    CloseAllRecorded(b);
    var b1 := CloseAll(b);
    assert b1.nextIndex == b.nextIndex by { CloseAllCloses(b); }
    forall t | Started(b1, t) ensures b1.tools[t].blockIndex != b1.nextIndex {
      assert Started(b, t);
    }
    hide Good, Recorded, CloseAll, Close;
    if HasStartedTool(b1) {
      EmitRecorded(b1, Error(message), Emit(b1, Error(message)));
      EndRecorded(Emit(b1, Error(message)), "end_turn", 1);
    } else {
      var i := b1.nextIndex;
      var b2 := OneShotBlock(b1, PlainBlock(TextType), TextDelta, message);
      var start, delta, stop := BlockStart(i, PlainBlock(TextType)), BlockDelta(i, TextDelta, message), BlockStop(i);
      assert b2.emitted == b1.emitted + [start] + [delta] + [stop];
      OneShotRecorded(b1, b2, start, delta, stop);
      EndRecorded(b2, "end_turn", 1);
    }
  }

  lemma FinishRecorded(b: Builder, ending: Ending, finishReason: string, cfg: Config)
    requires Good(b) && Unparsed(b, cfg) && ending.Ends?
    ensures var b1 := Complete(b, ending, cfg);
            var r := Finish(b, ending, finishReason, cfg);
            && b1.tools == b.tools && Good(b1) && Unparsed(b1, cfg)
            && FlushTaskArgs(b1, b1.order, cfg.parse).Some?
            && r.Some? && Recorded(r.value) && r.value.tools == FlushTaskArgs(b1, b1.order, cfg.parse).value.tools
  {
    hide Good, Unparsed, Recorded, CloseAll, Close;
    CompleteGood(b, ending, cfg);
    CompleteUnparsed(b, ending, cfg);
    CompleteQuiet(b, ending, cfg);
    var b1 := Complete(b, ending, cfg);
    hide Complete;
    FlushGood(b1, b1.order, cfg);
    var b2 := FlushTaskArgs(b1, b1.order, cfg.parse).value;
    CloseAllRecorded(b2);
    EndRecorded(CloseAll(b2), MapStopReason(finishReason), ending.outputTokens);
  }

  lemma CompleteQuiet(b: Builder, ending: Ending, cfg: Config)
    requires ending.Ends?
    ensures Complete(b, ending, cfg).tools == b.tools
  {
    hide Say, Think, HeuristicTools, HasContent, OnlyReasoned;
    match ending.remaining {
      case Some(ThinkingPart(content)) => SayQuiet(b, content);
      case Some(TextPart(content, _)) => SayQuiet(b, content);
      case _ =>
    }
    var b1 := SayRemaining(b, ending, cfg);
    HeuristicToolsQuiet(b1, ending.tools);
    SayQuiet(HeuristicTools(b1, ending.tools), " ");
  }

  lemma BeginKnowsNothing(id: string, model: string, t: int, cfg: Config)
    ensures Good(Begin(id, model)) && Unparsed(Begin(id, model), cfg)
    ensures Follows(Begin(id, model), t, [], cfg)
  {
    hide Good, Unparsed;
    BeginGood(id, model);
    BeginUnparsed(id, model, cfg);
    StripEmpty();
  }

  lemma StartedHolds(b: Builder, t: int, calls: seq<ToolCallDelta>, cfg: Config)
    requires Follows(b, t, calls, cfg)
    ensures Started(b, t) <==> Strip(NameAfter(calls)) != ""
    ensures Started(b, t) ==> Holds(b.tools[t], StoryOf(calls, cfg))
  {
    StripEmpty();
    hide Strip, StoryOf;
  }

  lemma RecordedPayloads(r: Builder, t: int, contents: seq<string>)
    requires Recorded(r) && Started(r, t) && r.tools[t].contents == contents
    ensures PayloadsAt(r.emitted, r.tools[t].blockIndex) == contents
  {
  }

  lemma FlushedStory(b: Builder, b1: Builder, t: int, story: Story, cfg: Config)
    requires Started(b, t) && Holds(b.tools[t], story) && !story.spelling.Refused?
    requires b1.tools == b.tools && Good(b1) && Unparsed(b1, cfg)
    requires FlushTaskArgs(b1, b1.order, cfg.parse).Some?
    ensures var b2 := FlushTaskArgs(b1, b1.order, cfg.parse).value;
            && Started(b2, t) && b2.tools[t].blockIndex == b.tools[t].blockIndex
            && b2.tools[t].contents == Told(story, true)
  {
    assert OrderOk(b1);
    hide Good;
    if NeedsFlush(b.tools[t]) {
      FlushReaches(b1, b1.order, cfg, t);
    } else {
      FlushSpares(b1, b1.order, cfg, t);
      NothingMore(story.before + Printed(story.spelling) + story.after);
    }
  }

  /**
    In the finished stream of every run, however it ends, each tool whose name became known has a block, and
    its payloads are what the fragments received for the tool tell.
   */
  lemma PayloadsTellTheStory(id: string, model: string, inputs: seq<Input>, ending: Ending, finishReason: string,
                             message: string, cfg: Config, t: int)
    ensures var (b, raised) := Run(Begin(id, model), inputs, cfg);
            var calls := CallsTo(Begin(id, model), inputs, cfg, t);
            var r := Transcript(id, model, inputs, ending, finishReason, message, cfg);
            && r.Some?
            && (Started(b, t) <==> Strip(NameAfter(calls)) != "")
            && (Started(b, t) ==> PayloadsAt(r.value.emitted, b.tools[t].blockIndex)
                                  == Told(StoryOf(calls, cfg), !raised && ending.Ends?))
  {
    var start := Begin(id, model);
    hide Good, Unparsed, Strip, Run, Finish, Fail, Follows, Complete, Holds, Recorded, StoryOf;
    BeginKnowsNothing(id, model, t, cfg);
    TranscriptMeetsContract(id, model, inputs, ending, finishReason, message, cfg);
    hide Begin, Contract;
    RunGood(start, inputs, cfg);
    RunFollows(start, inputs, cfg, t);
    var (b, raised) := Run(start, inputs, cfg);
    var calls := CallsTo(start, inputs, cfg, t);
    StartedHolds(b, t, calls, cfg);
    if Started(b, t) {
      if raised || ending.Fails? {
        FailRecorded(b, message);
        FailedStory(b.tools[t], StoryOf(calls, cfg));
        RecordedPayloads(Fail(b, message), t, Told(StoryOf(calls, cfg), false));
      } else {
        RunUnparsed(start, inputs, cfg);
        FinishRecorded(b, ending, finishReason, cfg);
        FlushedStory(b, Complete(b, ending, cfg), t, StoryOf(calls, cfg), cfg);
        RecordedPayloads(Finish(b, ending, finishReason, cfg).value, t, Told(StoryOf(calls, cfg), true));
      }
    }
  }

  lemma FailedStory(s: ToolCallState, story: Story)
    requires Holds(s, story)
    ensures s.contents == Told(story, false)
  {
    NothingMore(s.contents);
  }

}
