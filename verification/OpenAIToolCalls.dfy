/**
  What the client gets of a native tool call: which arguments arrive, and under which name and identifier.
 */
module OpenAIToolCalls {
  import opened Prelude
  import opened Strings
  import opened StreamContract
  import opened SseBuilder
  import opened OpenAICompat
  import opened OpenAIContract
  import opened OpenAIText
  import opened OpenAIToolArgs

  // ---------------------------------------------------------------------------------------------
  // A story and the fragments it is made of.

  /** All arguments of a story, in order. */
  function AllOf(story: Story): string {
    story.unnamed + Flatten(story.before) + story.task + Flatten(story.after)
  }

  lemma FourParts(a: string, b: string, c: string, d: string, x: string)
    ensures a + b + c + (d + x) == a + b + c + d + x
    ensures d == "" ==> a + b + (c + x) + d == a + b + c + d + x
    ensures c == "" && d == "" ==> a + (b + x) + c + d == a + b + c + d + x
    ensures b == "" && c == "" && d == "" ==> (a + x) + b + c + d == a + b + c + d + x
  {
  }

  lemma FlattenNothing<T>()
    ensures Flatten<T>([]) == []
  {
  }

  lemma HearAdds(story: Story, name: string, args: string, cfg: Config)
    requires Ordered(story, name) && !story.spelling.Refused?
    ensures AllOf(Hear(story, name, args, cfg)) == AllOf(story) + args
  {
    hide Strip, Flatten;
    FlattenNothing<char>();
    FourParts(story.unnamed, Flatten(story.before), story.task, Flatten(story.after), args);
    if args == "" {
      NothingMore(AllOf(story));
    } else if name != "Task" {
      if "Task" < name { FlattenSnoc(story.after, args); } else { FlattenSnoc(story.before, args); }
    }
  }

  lemma HearNameAdds(story: Story, name: string, cfg: Config)
    requires Ordered(story, name) && !story.spelling.Refused?
    requires Strip(name) == "" || story.unnamed == "" || (story.before == [] && story.task == "" && story.after == [])
    ensures AllOf(HearName(story, name, cfg)) == AllOf(story)
  {
    hide Strip, Flatten;
    FlattenNothing<char>();
    if Strip(name) != "" {
      var rest := story.(unnamed := "");
      UnnamedKeepsOrder(story, name, "");
      HearAdds(rest, name, story.unnamed, cfg);
      hide Hear;
      if story.unnamed == "" {
        NothingMore(AllOf(story));
      } else {
        assert AllOf(rest) == "" && AllOf(story) == story.unnamed;
      }
    }
  }

  lemma HearArgumentsAdds(story: Story, name: string, args: string, cfg: Config)
    requires Ordered(story, name) && !story.spelling.Refused?
    ensures AllOf(HearArguments(story, name, args, cfg)) == AllOf(story) + args
  {
    hide Strip, Flatten;
    HearAdds(story, name, args, cfg);
    hide Hear;
    FlattenNothing<char>();
    FourParts(story.unnamed, Flatten(story.before), story.task, Flatten(story.after), args);
  }

  lemma RefusedStays(story: Story, name: string, args: string, cfg: Config)
    requires Ordered(story, name) && story.spelling.Refused? && (Strip(name) != "" ==> story.unnamed == "")
    ensures HearArguments(HearName(story, name, cfg), name, args, cfg) == story
  {
    hide Strip;
    assert story.(unnamed := "") == story;
  }

  /** One fragment: what is heard is what was received, up to the first text that is no object. */
  lemma FragmentAdds(story: Story, prev: string, name: string, args: string, cfg: Config, received: string)
    requires Ordered(story, prev) && (Strip(prev) != "" ==> story.unnamed == "") && prev <= name
    requires AllOf(story) <= received && (!story.spelling.Refused? ==> AllOf(story) == received)
    ensures var story' := HearArguments(HearName(story, name, cfg), name, args, cfg);
            && AllOf(story') <= received + args
            && (!story'.spelling.Refused? ==> AllOf(story') == received + args)
  {
    hide Strip, AllOf, HearName, HearArguments;
    OrderedGrows(story, prev, name);
    if story.spelling.Refused? {
      RefusedStays(story, name, args, cfg);
    } else {
      HearNameAdds(story, name, cfg);
      HearNameKeepsOrder(story, name, cfg);
      var heard := HearName(story, name, cfg);
      if heard.spelling.Refused? {
        RefusedHearsNothing(heard, name, args, cfg);
      } else {
        HearArgumentsAdds(heard, name, args, cfg);
      }
    }
  }

  /** A story leaves nothing out and adds nothing, up to the first text that is no object. */
  lemma {:induction false} StoryIsReceived(calls: seq<ToolCallDelta>, cfg: Config)
    ensures AllOf(StoryOf(calls, cfg)) <= Received(calls)
    ensures !StoryOf(calls, cfg).spelling.Refused? ==> AllOf(StoryOf(calls, cfg)) == Received(calls)
  {
    if calls == [] {
      FlattenNothing<char>();
    } else {
      var n := |calls| - 1;
      var front, call := calls[..n], calls[n];
      assert calls == front + [call];
      hide Strip, StoryOf, NameAfter, Received, AllOf, MergeName, HearArguments, HearName, Ordered;
      CallSnoc(front, call, cfg);
      StoryOrdered(front, cfg);
      StoryIsReceived(front, cfg);
      if call.name.Some? { MergeGrows(NameAfter(front), call.name.value); }
      FragmentAdds(StoryOf(front, cfg), NameAfter(front), NameAfter(calls), call.arguments, cfg, Received(front));
    }
  }

  /** The text of Task arguments was tried whenever it grew; the object sent is the first that it spelled. */
  ghost predicate FirstSpelled(story: Story, cfg: Config) {
    match story.spelling
    case Unspelled => story.task != "" ==> cfg.parse(story.task).Invalid?
    case Refused => cfg.parse(story.task).NotAnObject?
    case Spelled(text) => exists n :: 0 < n <= |story.task| && cfg.parse(story.task[..n]) == Object(text)
  }

  lemma HearSpells(story: Story, name: string, args: string, cfg: Config)
    requires FirstSpelled(story, cfg)
    ensures FirstSpelled(Hear(story, name, args, cfg), cfg)
  {
    var story' := Hear(story, name, args, cfg);
    if args != "" && name == "Task" && !story.spelling.Refused? {
      var task := story'.task;
      assert task[..|task|] == task;
      if story.spelling.Spelled? {
        var n :| 0 < n <= |story.task| && cfg.parse(story.task[..n]) == Object(story.spelling.text);
        assert task[..n] == story.task[..n];
      }
    }
  }

  lemma {:induction false} StorySpells(calls: seq<ToolCallDelta>, cfg: Config)
    ensures FirstSpelled(StoryOf(calls, cfg), cfg)
  {
    if calls != [] {
      var front, call, name := calls[..|calls| - 1], calls[|calls| - 1], NameAfter(calls);
      hide Strip, NameAfter, Hear;
      StorySpells(front, cfg);
      var story := StoryOf(front, cfg);
      var heard := HearName(story, name, cfg);
      HearSpells(story.(unnamed := ""), name, story.unnamed, cfg);
      HearSpells(heard, name, call.arguments, cfg);
    }
  }

  // ---------------------------------------------------------------------------------------------
  // When the arguments arrive as they were received.

  /**
    Task arguments arrive as received if they are sent at all in the form in which they came. Arguments that
    were buffered and never spelled an object are replaced by the empty one, behind all that came later.
   */
  predicate Intact(story: Story, complete: bool) {
    match story.spelling
    case Refused => false
    case Spelled(text) => text == story.task
    case Unspelled =>
      story.task == "" || (complete && story.task + Flatten(story.after) == Flatten(story.after) + "{}")
  }

  lemma CancelBoth(a: string, x: string, y: string, c: string)
    ensures a + x + c == a + y + c <==> x == y
  {
    if a + x + c == a + y + c {
      assert |x| == |y|;
      assert x == (a + x + c)[|a|..|a| + |x|] == (a + y + c)[|a|..|a| + |y|] == y;
    }
  }

  lemma CancelFront(a: string, x: string, y: string)
    ensures a + x == a + y <==> x == y
  {
    CancelBoth(a, x, y, "");
    NothingMore(a + x);
    NothingMore(a + y);
  }

  lemma FlattenTold(story: Story, complete: bool)
    ensures var last := if complete && story.spelling.Unspelled? && story.task != "" then "{}" else "";
            Flatten(Told(story, complete)) ==
            Flatten(story.before) + (if story.spelling.Spelled? then story.spelling.text else "") + Flatten(story.after) + last
  {
    var middle := Printed(story.spelling);
    var last := if complete && story.spelling.Unspelled? && story.task != "" then ["{}"] else [];
    FlattenConcat(story.before + middle + story.after, last);
    FlattenConcat(story.before + middle, story.after);
    FlattenConcat(story.before, middle);
    FlattenOne("{}");
    FlattenNothing<char>();
    if story.spelling.Spelled? { FlattenOne(story.spelling.text); }
    hide Flatten;
  }

  lemma FlattenOne(x: string)
    ensures Flatten([x]) == x
  {
    assert [x] == [] + [x];
    FlattenSnoc([], x);
  }

  lemma IntactMeans(story: Story, name: string, complete: bool, received: string)
    requires story.unnamed == "" && Ordered(story, name) && AllOf(story) <= received
    requires story.spelling.Refused? || AllOf(story) == received
    ensures Flatten(Told(story, complete)) == received <==> Intact(story, complete)
  {
    var a, x, c := Flatten(story.before), story.task, Flatten(story.after);
    FlattenTold(story, complete);
    FlattenNothing<char>();
    hide Flatten, Told, Strip;
    assert AllOf(story) == a + x + c;
    match story.spelling
    case Refused =>
    case Spelled(text) =>
      NothingMore(a + text + c);
      CancelBoth(a, text, x, c);
    case Unspelled =>
      if complete && x != "" {
        Associative(a, x, c);
        Associative(a, c, "{}");
        CancelFront(a, x + c, c + "{}");
      }
  }

  /**
    In the finished stream of every run, the payloads of a named tool concatenate to the argument fragments
    received for it exactly when its story is intact.
   */
  lemma ArgumentsArriveIffIntact(id: string, model: string, inputs: seq<Input>, ending: Ending, finishReason: string,
                                 message: string, cfg: Config, t: int)
    requires Strip(NameAfter(CallsTo(Begin(id, model), inputs, cfg, t))) != ""
    ensures var (b, raised) := Run(Begin(id, model), inputs, cfg);
            var calls := CallsTo(Begin(id, model), inputs, cfg, t);
            var r := Transcript(id, model, inputs, ending, finishReason, message, cfg);
            && r.Some? && Started(b, t)
            && (Flatten(PayloadsAt(r.value.emitted, b.tools[t].blockIndex)) == Received(calls)
                <==> Intact(StoryOf(calls, cfg), !raised && ending.Ends?))
  {
    hide Run, Begin, CallsTo, Transcript, Strip, NameAfter, StoryOf, Told, Flatten, Ordered, AllOf, Received, Intact,
         PayloadsAt;
    var calls := CallsTo(Begin(id, model), inputs, cfg, t);
    PayloadsTellTheStory(id, model, inputs, ending, finishReason, message, cfg, t);
    StoryOrdered(calls, cfg);
    StoryIsReceived(calls, cfg);
    var complete := !Run(Begin(id, model), inputs, cfg).1 && ending.Ends?;
    IntactMeans(StoryOf(calls, cfg), NameAfter(calls), complete, Received(calls));
  }

  // ---------------------------------------------------------------------------------------------
  // The two usual cases: the name never is Task, or it is Task as soon as it is known.

  predicate NeverTask(calls: seq<ToolCallDelta>) {
    NameAfter(calls) != "Task" && (calls != [] ==> NeverTask(calls[..|calls| - 1]))
  }

  lemma {:induction false} NeverTaskStory(calls: seq<ToolCallDelta>, cfg: Config)
    requires NeverTask(calls)
    ensures StoryOf(calls, cfg).task == "" && StoryOf(calls, cfg).spelling.Unspelled?
  {
    hide Strip, NameAfter;
    if calls != [] { NeverTaskStory(calls[..|calls| - 1], cfg); }
  }

  /** A tool whose name never is exactly Task: however the stream ends, its arguments arrive complete and in order. */
  lemma ToolArgumentsArriveComplete(id: string, model: string, inputs: seq<Input>, ending: Ending, finishReason: string,
                                    message: string, cfg: Config, t: int)
    requires NeverTask(CallsTo(Begin(id, model), inputs, cfg, t))
    requires Strip(NameAfter(CallsTo(Begin(id, model), inputs, cfg, t))) != ""
    ensures var b := Run(Begin(id, model), inputs, cfg).0;
            var r := Transcript(id, model, inputs, ending, finishReason, message, cfg);
            && r.Some? && Started(b, t)
            && Flatten(PayloadsAt(r.value.emitted, b.tools[t].blockIndex)) ==
               Received(CallsTo(Begin(id, model), inputs, cfg, t))
  {
    hide Run, Begin, CallsTo, Transcript, Strip, NameAfter, StoryOf, NeverTask, Received, Flatten, PayloadsAt;
    NeverTaskStory(CallsTo(Begin(id, model), inputs, cfg, t), cfg);
    ArgumentsArriveIffIntact(id, model, inputs, ending, finishReason, message, cfg, t);
  }

  predicate WholeNameTask(calls: seq<ToolCallDelta>) {
    NameAfter(calls) in {"", "Task"} && (calls != [] ==> WholeNameTask(calls[..|calls| - 1]))
  }

  lemma {:induction false} WholeNameStory(calls: seq<ToolCallDelta>, cfg: Config)
    requires WholeNameTask(calls)
    ensures StoryOf(calls, cfg).before == [] && StoryOf(calls, cfg).after == []
  {
    StripEmpty();
    hide Strip, NameAfter;
    if calls != [] { WholeNameStory(calls[..|calls| - 1], cfg); }
  }

  function SpelledOrEmpty(spelling: Spelling): string {
    if spelling.Spelled? then spelling.text else "{}"
  }

  lemma TaskAlone(story: Story, received: string)
    requires story.before == [] && story.after == [] && story.unnamed == "" && AllOf(story) == received
    requires !story.spelling.Refused? && (story.task == "" ==> story.spelling.Unspelled?)
    ensures story.task == received
    ensures Told(story, true) == if received == "" then [] else [SpelledOrEmpty(story.spelling)]
  {
    FlattenNothing<char>();
    hide Flatten;
    assert "" + "" + story.task + "" == story.task;
  }

  lemma WholeNameTold(calls: seq<ToolCallDelta>, cfg: Config)
    requires WholeNameTask(calls) && NameAfter(calls) == "Task" && !StoryOf(calls, cfg).spelling.Refused?
    ensures Told(StoryOf(calls, cfg), true) ==
            if Received(calls) == "" then [] else [SpelledOrEmpty(StoryOf(calls, cfg).spelling)]
    ensures StoryOf(calls, cfg).task == Received(calls)
  {
    hide Strip, StoryOf, NameAfter, AllOf, Told, Received, WholeNameTask;
    PiecesOfTaskOutput();
    WholeNameStory(calls, cfg);
    StoryIsReceived(calls, cfg);
    StoryOrdered(calls, cfg);
    TaskAlone(StoryOf(calls, cfg), Received(calls));
  }

  lemma CompletedIsNotRefused(id: string, model: string, inputs: seq<Input>, cfg: Config, t: int)
    requires !Run(Begin(id, model), inputs, cfg).1
    ensures !StoryOf(CallsTo(Begin(id, model), inputs, cfg, t), cfg).spelling.Refused?
  {
    hide Run, Begin, CallsTo, StoryOf, Follows, Good, Unparsed;
    BeginKnowsNothing(id, model, t, cfg);
    RunFollows(Begin(id, model), inputs, cfg, t);
  }

  /**
    A tool whose name is Task as soon as it is known: a stream that ends normally carries one argument delta
    on its block if any argument text arrived, and none otherwise. The delta is the foreground form of the
    first object that the text spells, or the empty object when it never spells one.
   */
  lemma TaskArgumentsArriveOnce(id: string, model: string, inputs: seq<Input>, ending: Ending, finishReason: string,
                                message: string, cfg: Config, t: int)
    requires ending.Ends? && !Run(Begin(id, model), inputs, cfg).1
    requires WholeNameTask(CallsTo(Begin(id, model), inputs, cfg, t))
    requires NameAfter(CallsTo(Begin(id, model), inputs, cfg, t)) == "Task"
    ensures var b := Run(Begin(id, model), inputs, cfg).0;
            var calls := CallsTo(Begin(id, model), inputs, cfg, t);
            var r := Transcript(id, model, inputs, ending, finishReason, message, cfg);
            var story := StoryOf(calls, cfg);
            && r.Some? && Started(b, t)
            && PayloadsAt(r.value.emitted, b.tools[t].blockIndex) ==
               (if Received(calls) == "" then [] else [SpelledOrEmpty(story.spelling)])
            && story.task == Received(calls) && FirstSpelled(story, cfg) && !story.spelling.Refused?
  {
    StripTrimmed("Task");
    hide Run, Begin, CallsTo, Transcript, Strip, NameAfter, StoryOf, Told, WholeNameTask, Received, PayloadsAt,
         FirstSpelled;
    var calls := CallsTo(Begin(id, model), inputs, cfg, t);
    CompletedIsNotRefused(id, model, inputs, cfg, t);
    WholeNameTold(calls, cfg);
    StorySpells(calls, cfg);
    PayloadsTellTheStory(id, model, inputs, ending, finishReason, message, cfg, t);
  }

  // ---------------------------------------------------------------------------------------------
  // Name and identifier.

  /** The last identifier that is not empty. */
  function IdAfter(calls: seq<ToolCallDelta>): string {
    if calls == [] then ""
    else
      var id := calls[|calls| - 1].id;
      if id.Some? && id.value != "" then id.value else IdAfter(calls[..|calls| - 1])
  }

  /** The fragments up to the first after which the name is not blank. */
  function Opening(calls: seq<ToolCallDelta>): (first: seq<ToolCallDelta>)
    ensures first <= calls
    ensures Strip(NameAfter(calls)) != "" ==> first != []
  {
    if calls == [] then StripEmpty(); []
    else
      var front := calls[..|calls| - 1];
      if Strip(NameAfter(front)) != "" then Opening(front) else calls
  }

  /** The block that is started: everything that arrives later comes too late for it. */
  function BlockOf(calls: seq<ToolCallDelta>): Block
    requires Strip(NameAfter(calls)) != ""
  {
    var first := Opening(calls);
    var id := IdAfter(first);
    ToolBlock(if id != "" then id else first[|first| - 1].freshId, Strip(NameAfter(first)))
  }

  lemma OpeningNamed(calls: seq<ToolCallDelta>)
    ensures var first := Opening(calls);
            Strip(NameAfter(calls)) != "" ==>
              Strip(NameAfter(first)) != "" && Strip(NameAfter(first[..|first| - 1])) == ""
  {
    StripEmpty();
    hide Strip;
    if calls != [] && Strip(NameAfter(calls[..|calls| - 1])) != "" { OpeningNamed(calls[..|calls| - 1]); }
  }

  /** The start of the tool's block was sent, with this content. */
  predicate Sent(b: Builder, t: int, block: Block) {
    Started(b, t) && BlockStart(b.tools[t].blockIndex, block) in b.emitted
  }

  /** The identifier waits until the block is started; then the start has been sent. */
  ghost predicate Introduced(b: Builder, t: int, calls: seq<ToolCallDelta>) {
    if Strip(NameAfter(calls)) != "" then Sent(b, t, BlockOf(calls))
    else !Started(b, t) && StateOf(b, t).toolId == IdAfter(calls)
  }

  lemma EmitKeepsBlock(b: Builder, t: int, args: string, cfg: Config)
    requires t in b.tools
    ensures var b' := EmitToolArgs(b, t, args, cfg).0;
            && b.emitted <= b'.emitted && t in b'.tools && (Started(b', t) <==> Started(b, t))
            && b'.tools[t].blockIndex == b.tools[t].blockIndex && b'.tools[t].toolId == b.tools[t].toolId
  {
    EmitToolArgsSilent(b, t, args, cfg);
    assert b.emitted <= EmitToolArgs(b, t, args, cfg).0.emitted;
    hide Spoken, Numbered, Says;
  }

  lemma TakeKeepsBlock(b: Builder, t: int, args: string, cfg: Config)
    ensures var b' := TakeArguments(b, t, args, cfg).0;
            && b.emitted <= b'.emitted && (Started(b', t) <==> Started(b, t))
            && StateOf(b', t).blockIndex == StateOf(b, t).blockIndex && StateOf(b', t).toolId == StateOf(b, t).toolId
  {
    TakeArgumentsSilent(b, t, args, cfg);
    hide Says, Strip, EmitToolArgs;
    EmitKeepsBlock(EnsureTool(b, t), t, args, cfg);
    if t in b.tools { EmitKeepsBlock(b, t, args, cfg); }
  }

  lemma IdentifiedView(b: Builder, t: int, call: ToolCallDelta)
    ensures var b' := Identified(b, t, call);
            && b'.emitted == b.emitted && (Started(b', t) <==> Started(b, t))
            && NameOf(b', t) == (if call.name.Some? then MergeName(NameOf(b, t), call.name.value) else NameOf(b, t))
            && StateOf(b', t).blockIndex == StateOf(b, t).blockIndex
            && StateOf(b', t).toolId == (if call.id.Some? && call.id.value != "" then call.id.value else StateOf(b, t).toolId)
  {
    IdentifiedState(b, t, call);
    IdentifiedSilent(b, t, call);
    var b' := Identified(b, t, call);
    hide Identified, MergeName;
    assert NameOf(b, t) == StateOf(b, t).name && NameOf(b', t) == StateOf(b', t).name;
    assert Started(b, t) == StateOf(b, t).started && Started(b', t) == StateOf(b', t).started;
  }

  /** The start carries the resolved identifier and the name as it is then. */
  lemma StartIntroduces(b: Builder, t: int, call: ToolCallDelta, cfg: Config)
    requires !Started(b, t) && Strip(NameOf(b, t)) != ""
    ensures Sent(StartIfNamed(b, t, call, cfg).0, t, ToolBlock(ResolvedId(b, t, call), Strip(NameOf(b, t))))
  {
    hide Strip, ResolvedId;
    var start := BlockStart(b.nextIndex, ToolBlock(ResolvedId(b, t, call), Strip(NameOf(b, t))));
    var b1 := StartTool(b, t, ResolvedId(b, t, call), Strip(NameOf(b, t)));
    var b2 := PutTool(b1, t, b1.tools[t].(preStartArgs := ""));
    assert b2.emitted == b.emitted + [start] && start in b2.emitted;
    assert Started(b2, t) && b2.tools[t].blockIndex == b.nextIndex;
    EmitKeepsBlock(b2, t, b1.tools[t].preStartArgs, cfg);
    hide EmitToolArgs, Started;
  }

  lemma StillSent(b: Builder, b': Builder, t: int, block: Block)
    requires Sent(b, t, block) && b.emitted <= b'.emitted && Started(b', t)
    requires StateOf(b', t).blockIndex == StateOf(b, t).blockIndex
    ensures Sent(b', t, block)
  {
  }

  /** One fragment for a tool that is started, stays blank, or is started by it. */
  lemma OwnFragmentSends(b: Builder, call: ToolCallDelta, cfg: Config, block: Block)
    ensures var t, b' := Target(b, call), ProcessToolCall(b, call, cfg).0;
            var b1 := Identified(b, t, call);
            if Started(b, t) then Sent(b, t, block) ==> Sent(b', t, block)
            else if Strip(NameOf(b1, t)) == "" then !Started(b', t) && StateOf(b', t).toolId == StateOf(b1, t).toolId
            else Sent(b', t, ToolBlock(ResolvedId(b1, t, call), Strip(NameOf(b1, t))))
  {
    var t := Target(b, call);
    var b1 := Identified(b, t, call);
    var (b2, raised) := StartIfNamed(b1, t, call, cfg);
    var b' := ProcessToolCall(b, call, cfg).0;
    IdentifiedView(b, t, call);
    if !raised { TakeKeepsBlock(b2, t, call.arguments, cfg); }
    hide Strip, Identified, TakeArguments, NameOf, ResolvedId, EmitToolArgs;
    assert Started(b1, t) || Strip(NameOf(b1, t)) == "" ==> b2 == b1 && !raised;
    hide StartIfNamed, Sent, StateOf, Started;
    if Started(b, t) {
      if Sent(b, t, block) { StillSent(b, b', t, block); }
    } else if Strip(NameOf(b1, t)) != "" {
      StartIntroduces(b1, t, call, cfg);
      var sent := ToolBlock(ResolvedId(b1, t, call), Strip(NameOf(b1, t)));
      SentMeansStarted(b2, t, sent);
      if !raised { StillSent(b2, b', t, sent); }
    }
  }

  lemma SentMeansStarted(b: Builder, t: int, block: Block)
    requires Sent(b, t, block)
    ensures Started(b, t)
  {
  }

  lemma OpeningNext(calls: seq<ToolCallDelta>, call: ToolCallDelta)
    ensures Opening(calls + [call]) == if Strip(NameAfter(calls)) != "" then Opening(calls) else calls + [call]
    ensures IdAfter(calls + [call]) == if call.id.Some? && call.id.value != "" then call.id.value else IdAfter(calls)
  {
    hide Strip, NameAfter;
    assert (calls + [call])[..|calls|] == calls;
  }

  lemma ResolvedIs(b: Builder, t: int, call: ToolCallDelta, id: string)
    requires StateOf(b, t).toolId == id && (call.id.Some? && call.id.value != "" ==> id == call.id.value)
    ensures ResolvedId(b, t, call) == if id != "" then id else call.freshId
  {
  }

  lemma OwnFragmentIntroduces(b: Builder, call: ToolCallDelta, cfg: Config, calls: seq<ToolCallDelta>)
    requires Introduced(b, Target(b, call), calls) && NameOf(b, Target(b, call)) == NameAfter(calls)
    ensures Introduced(ProcessToolCall(b, call, cfg).0, Target(b, call), calls + [call])
  {
    var t, calls' := Target(b, call), calls + [call];
    var b1, b' := Identified(b, t, call), ProcessToolCall(b, call, cfg).0;
    var name, name' := NameAfter(calls), NameAfter(calls');
    hide Strip, Identified, ProcessToolCall, NameAfter, StoryOf, IdAfter, Opening, StateOf, ResolvedId, Sent, NameOf,
         Started, MergeName, HearArguments, HearName;
    IdentifiedView(b, t, call);
    CallSnoc(calls, call, cfg);
    OpeningNext(calls, call);
    if Strip(name) != "" {
      if call.name.Some? { MergeGrows(name, call.name.value); }
      NamedStaysNamed(name, name');
      SentMeansStarted(b, t, BlockOf(calls));
      OwnFragmentSends(b, call, cfg, BlockOf(calls));
    } else {
      OwnFragmentSends(b, call, cfg, PlainBlock(TextType));
      ResolvedIs(b1, t, call, IdAfter(calls'));
    }
  }

  lemma UntouchedIntroduced(b: Builder, b': Builder, t: int, calls: seq<ToolCallDelta>)
    requires Introduced(b, t, calls) && SameTool(b, b', t) && b.emitted <= b'.emitted
    ensures Introduced(b', t, calls)
  {
    hide Strip, NameAfter, IdAfter, BlockOf;
  }

  lemma FollowsName(b: Builder, t: int, calls: seq<ToolCallDelta>, cfg: Config)
    requires Follows(b, t, calls, cfg)
    ensures NameOf(b, t) == NameAfter(calls)
  {
  }

  lemma {:induction false} RunIntroduces(b: Builder, inputs: seq<Input>, cfg: Config, t: int)
    requires Follows(b, t, [], cfg) && Introduced(b, t, [])
    ensures Introduced(Run(b, inputs, cfg).0, t, CallsTo(b, inputs, cfg, t))
  {
    if inputs != [] {
      var front, x := inputs[..|inputs| - 1], inputs[|inputs| - 1];
      hide Step, Follows, ProcessToolCall, StoryOf, Introduced, NameAfter, NameOf, Says;
      RunIntroduces(b, front, cfg, t);
      RunFollows(b, front, cfg, t);
      var (b1, raised) := Run(b, front, cfg);
      var calls := CallsTo(b, front, cfg, t);
      FollowsName(b1, t, calls, cfg);
      NothingMore(calls);
      if !raised {
        if x.ToolCall? && Target(b1, x.call) == t {
          ToolStep(b1, x.call, cfg);
          OwnFragmentIntroduces(b1, x.call, cfg, calls);
        } else {
          OtherStepUntouched(b1, x, cfg, t);
          StepGrows(b1, x, cfg);
          UntouchedIntroduced(b1, Step(b1, x, cfg).0, t, calls);
        }
      }
    }
  }

  lemma StepGrows(b: Builder, x: Input, cfg: Config)
    ensures b.emitted <= Step(b, x, cfg).0.emitted
  {
    StepSays(b, x, cfg);
    hide Step, Spoken, Numbered;
  }

  lemma BeginIntroduces(id: string, model: string, t: int)
    ensures Introduced(Begin(id, model), t, [])
  {
    StripEmpty();
    hide Strip;
  }

  /**
    In the finished stream of every run, however it ends, each tool whose name became known is announced with
    the last identifier received by then, or a fresh one, and with the name as it was then.
   */
  lemma ToolsAreIntroduced(id: string, model: string, inputs: seq<Input>, ending: Ending, finishReason: string,
                           message: string, cfg: Config, t: int)
    requires Strip(NameAfter(CallsTo(Begin(id, model), inputs, cfg, t))) != ""
    ensures var b := Run(Begin(id, model), inputs, cfg).0;
            var calls := CallsTo(Begin(id, model), inputs, cfg, t);
            var r := Transcript(id, model, inputs, ending, finishReason, message, cfg);
            && r.Some? && Started(b, t)
            && BlockStart(b.tools[t].blockIndex, BlockOf(calls)) in r.value.emitted
  {
    var b, calls := Run(Begin(id, model), inputs, cfg).0, CallsTo(Begin(id, model), inputs, cfg, t);
    TranscriptGrows(id, model, inputs, ending, finishReason, message, cfg);
    hide Run, Begin, CallsTo, Transcript, Strip, NameAfter, Follows, BlockOf, Good, Unparsed;
    BeginKnowsNothing(id, model, t, cfg);
    BeginIntroduces(id, model, t);
    RunIntroduces(Begin(id, model), inputs, cfg, t);
  }

  lemma TranscriptGrows(id: string, model: string, inputs: seq<Input>, ending: Ending, finishReason: string,
                        message: string, cfg: Config)
    ensures var r := Transcript(id, model, inputs, ending, finishReason, message, cfg);
            r.Some? && Run(Begin(id, model), inputs, cfg).0.emitted <= r.value.emitted
  {
    hide Run, Begin, Transcript, Spoken, Numbered, Closing, Contract;
    TranscriptMeetsContract(id, model, inputs, ending, finishReason, message, cfg);
    EndingSays(id, model, inputs, ending, finishReason, message, cfg);
  }

  // ---------------------------------------------------------------------------------------------
  // Whether the name shown is the whole name.

  /** The fragments from the `n`-th on only repeat beginnings of the name. */
  predicate NothingNew(calls: seq<ToolCallDelta>, n: nat, name: string) {
    forall j :: n <= j < |calls| && calls[j].name.Some? ==> calls[j].name.value <= name
  }

  lemma {:induction false} NameKept(calls: seq<ToolCallDelta>, n: nat)
    requires n <= |calls| && NameAfter(calls[..n]) != ""
    ensures NameAfter(calls[..n]) <= NameAfter(calls)
    ensures NameAfter(calls) == NameAfter(calls[..n]) <==> NothingNew(calls, n, NameAfter(calls[..n]))
  {
    if n == |calls| {
      assert calls[..n] == calls;
    } else {
      var front, call := calls[..|calls| - 1], calls[|calls| - 1];
      assert front[..n] == calls[..n];
      assert calls == front + [call];
      NameKept(front, n);
      var shown, name := NameAfter(calls[..n]), NameAfter(front);
      assert NameAfter(calls) == if call.name.Some? then MergeName(name, call.name.value) else name;
      assert NothingNew(calls, n, shown) <==>
             NothingNew(front, n, shown) && (call.name.Some? ==> call.name.value <= shown);
      hide NameAfter, NothingNew, MergeName;
      if call.name.Some? { MergeGrows(name, call.name.value); }
      assert shown <= name <= NameAfter(calls);
    }
  }

  lemma BlockShows(calls: seq<ToolCallDelta>)
    requires Strip(NameAfter(calls)) != ""
    ensures var shown := NameAfter(Opening(calls));
            BlockOf(calls).name == Some(Strip(shown)) && Strip(shown) != "" && shown != ""
  {
    StripEmpty();
    hide Strip, NameAfter, Opening, IdAfter;
    OpeningNamed(calls);
  }

  lemma OpeningIsTake(calls: seq<ToolCallDelta>)
    ensures |Opening(calls)| <= |calls| && Opening(calls) == calls[..|Opening(calls)|]
  {
    hide Strip, NameAfter, Opening;
  }

  lemma RestOf(shown: string, name: string)
    requires shown <= name
    ensures name == shown + name[|shown|..]
  {
  }

  /**
    The block is announced under the whole name exactly when the fragments after its start add nothing but
    white space; they add nothing at all exactly when each repeats a beginning of the name.
   */
  lemma ShownNameIsWhole(calls: seq<ToolCallDelta>)
    requires Strip(NameAfter(calls)) != ""
    ensures var shown, name := NameAfter(Opening(calls)), NameAfter(calls);
            && shown <= name
            && (BlockOf(calls).name == Some(Strip(name)) <==> IsBlank(name[|shown|..]))
            && (name == shown <==> NothingNew(calls, |Opening(calls)|, shown))
  {
    hide Strip, Opening, NothingNew, NameAfter, BlockOf, IsBlank;
    var shown, name := NameAfter(Opening(calls)), NameAfter(calls);
    BlockShows(calls);
    OpeningIsTake(calls);
    NameKept(calls, |Opening(calls)|);
    RestOf(shown, name);
    StripBlank(shown);
    StripExtended(shown, name[|shown|..]);
  }

  // ---------------------------------------------------------------------------------------------
  // Where the code falls short.

  lemma OneCall(call: ToolCallDelta, cfg: Config)
    ensures var name := if call.name.Some? then call.name.value else "";
            && NameAfter([call]) == name && Received([call]) == call.arguments
            && StoryOf([call], cfg) == HearArguments(HearName(UNTOLD, name, cfg), name, call.arguments, cfg)
  {
    assert NameAfter([]) == "" && Received([]) == "" && StoryOf([], cfg) == UNTOLD;
    assert [] + [call] == [call] && "" + call.arguments == call.arguments;
    hide HearName, HearArguments, NameAfter, Received, StoryOf;
    CallSnoc([], call, cfg);
  }

  lemma TwoCalls(first: ToolCallDelta, second: ToolCallDelta, cfg: Config)
    ensures var name := if first.name.Some? then first.name.value else "";
            var name' := if second.name.Some? then MergeName(name, second.name.value) else name;
            && NameAfter([first]) == name && NameAfter([first, second]) == name'
            && Received([first, second]) == first.arguments + second.arguments
            && StoryOf([first], cfg) == HearArguments(HearName(UNTOLD, name, cfg), name, first.arguments, cfg)
            && StoryOf([first, second], cfg) ==
               HearArguments(HearName(StoryOf([first], cfg), name', cfg), name', second.arguments, cfg)
  {
    hide HearName, HearArguments, NameAfter, Received, StoryOf, MergeName;
    assert [first] + [second] == [first, second];
    OneCall(first, cfg);
    CallSnoc([first], second, cfg);
  }

  lemma CallsNext(b: Builder, inputs: seq<Input>, call: ToolCallDelta, cfg: Config, t: int)
    requires call.index == t >= 0 && !Run(b, inputs, cfg).1
    ensures CallsTo(b, inputs + [ToolCall(call)], cfg, t) == CallsTo(b, inputs, cfg, t) + [call]
  {
    assert (inputs + [ToolCall(call)])[..|inputs|] == inputs;
    hide Run;
  }

  /** Both fragments are processed for the tool they name, unless the first raises. */
  lemma TwoFragments(id: string, model: string, first: ToolCallDelta, second: ToolCallDelta, cfg: Config)
    requires first.index == 0 && second.index == 0 && !StoryOf([first], cfg).spelling.Refused?
    ensures CallsTo(Begin(id, model), ToolCallInputs([first, second]), cfg, 0) == [first, second]
  {
    var b := Begin(id, model);
    var x, y := ToolCall(first), ToolCall(second);
    assert ToolCallInputs([first, second]) == [x, y];
    assert [] + [first] == [first] && [first] + [second] == [first, second];
    assert [] + [x] == [x] && [x] + [y] == [x, y];
    assert !UNTOLD.spelling.Refused? && StoryOf([], cfg) == UNTOLD && Target(b, first) == 0;
    RunNothing(b, cfg);
    ToolStep(b, first, cfg);
    RunSnoc(b, [], x, cfg);
    assert CallsTo(b, [], cfg, 0) == [];
    BeginKnowsNothing(id, model, 0, cfg);
    hide Begin, Follows, StoryOf, ProcessToolCall, Good, Unparsed, Run, Step, CallsTo, ToolCallInputs;
    OwnFragmentFollows(b, first, cfg, []);
    CallsNext(b, [], first, cfg, 0);
    CallsNext(b, [x], second, cfg, 0);
  }

  lemma OpenedAtOnce(first: ToolCallDelta, second: ToolCallDelta, cfg: Config)
    requires first.name.Some? && Strip(first.name.value) != "" && first.id.Some? && first.id.value != ""
    requires Strip(NameAfter([first, second])) != ""
    ensures BlockOf([first, second]) == ToolBlock(first.id.value, Strip(first.name.value))
  {
    TwoCalls(first, second, cfg);
    OpeningNext([], first);
    OpeningNext([first], second);
    StripEmpty();
    assert [] + [first] == [first] && [first] + [second] == [first, second];
    assert NameAfter([]) == "";
    hide Strip, NameAfter, StoryOf, Opening, IdAfter, MergeName;
  }

  lemma PiecesOfBash()
    ensures MergeName("Ba", "sh") == "Bash" && Strip("Ba") == "Ba" && Strip("Bash") == "Bash"
  {
    StripTrimmed("Ba");
    StripTrimmed("Bash");
    hide Strip;
  }

  /** A name that arrives in two pieces: the block is announced under the first. */
  lemma NameInPiecesIsCut(id: string, model: string, cfg: Config)
    ensures var calls := [ToolCallDelta(0, Some("a"), Some("Ba"), "", "f"),
                          ToolCallDelta(0, None, Some("sh"), "", "f")];
            && CallsTo(Begin(id, model), ToolCallInputs(calls), cfg, 0) == calls
            && NameAfter(calls) == "Bash" && Strip("Bash") == "Bash"
            && BlockOf(calls) == ToolBlock("a", "Ba")
  {
    var first, second := ToolCallDelta(0, Some("a"), Some("Ba"), "", "f"), ToolCallDelta(0, None, Some("sh"), "", "f");
    hide Strip, NameAfter, StoryOf, CallsTo, Begin, BlockOf, MergeName, ToolCallInputs;
    PiecesOfBash();
    TwoCalls(first, second, cfg);
    OpenedAtOnce(first, second, cfg);
    TwoFragments(id, model, first, second, cfg);
  }

  lemma PiecesOfTaskOutput()
    ensures MergeName("Task", "Output") == "TaskOutput" && Strip("Task") == "Task" && Strip("TaskOutput") == "TaskOutput"
  {
    StripTrimmed("Task");
    StripTrimmed("TaskOutput");
    hide Strip;
  }

  lemma GrownTaskStory(cfg: Config)
    requires cfg.parse("{").Invalid?
    ensures HearArguments(HearName(UNTOLD, "Task", cfg), "Task", "{", cfg) == Story("", [], "{", Unspelled, [])
    ensures var story := Story("", [], "{", Unspelled, []);
            HearArguments(HearName(story, "TaskOutput", cfg), "TaskOutput", "}", cfg) == Story("", [], "{", Unspelled, ["}"])
    ensures var story := Story("", [], "{", Unspelled, ["}"]);
            Told(story, true) == ["}", "{}"] && !Intact(story, true)
  {
    hide Strip;
    PiecesOfTaskOutput();
    assert "" + "{" == "{";
    FlattenOne("}");
    hide Flatten;
  }

  /** A name that passes through Task: of the arguments "{" and "}" the client gets "}" and "{}". */
  lemma GrownTaskLosesArguments(id: string, model: string, cfg: Config)
    requires cfg.parse("{").Invalid?
    ensures var calls := [ToolCallDelta(0, Some("a"), Some("Task"), "{", "f"),
                          ToolCallDelta(0, None, Some("Output"), "}", "f")];
            && CallsTo(Begin(id, model), ToolCallInputs(calls), cfg, 0) == calls
            && NameAfter(calls) == "TaskOutput"
            && Received(calls) == "{}" && Told(StoryOf(calls, cfg), true) == ["}", "{}"]
            && !Intact(StoryOf(calls, cfg), true)
  {
    var first, second := ToolCallDelta(0, Some("a"), Some("Task"), "{", "f"),
                         ToolCallDelta(0, None, Some("Output"), "}", "f");
    hide Strip, NameAfter, StoryOf, CallsTo, Begin, MergeName, ToolCallInputs;
    assert "{" + "}" == "{}";
    hide HearName, HearArguments, Hear, Told, Intact;
    PiecesOfTaskOutput();
    GrownTaskStory(cfg);
    TwoCalls(first, second, cfg);
    TwoFragments(id, model, first, second, cfg);
  }
}
