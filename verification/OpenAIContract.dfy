/**
  Every run of the OpenAI translator, however it ends, satisfies the stream contract.
 */
module OpenAIContract {
  import opened Prelude
  import opened Strings
  import opened StreamContract
  import opened SseBuilder
  import opened OpenAICompat

  ghost predicate OrderOk(b: Builder) {
    Distinct(b.order) && forall t :: t in b.order <==> t in b.tools
  }

  /** The blocks the builder believes open are open, each of its kind. */
  ghost predicate Mirrors(b: Builder, d: Judge) {
    && (b.thinkingStarted ==> b.thinkingIndex in d.open && d.open[b.thinkingIndex] == Plain(ThinkingType))
    && (b.textStarted ==> b.textIndex in d.open && d.open[b.textIndex] == Plain(TextType))
    && (forall t :: Started(b, t) ==>
          b.tools[t].blockIndex in d.open && d.open[b.tools[t].blockIndex] == Plain(ToolUseType))
    && (forall t, u :: Started(b, t) && Started(b, u) && b.tools[t].blockIndex == b.tools[u].blockIndex ==> t == u)
  }

  ghost predicate ToolBlockOpen(b: Builder, i: int) {
    exists t :: Started(b, t) && b.tools[t].blockIndex == i
  }

  /** No other block is open, and the indices used are 0, 1, ..., nextIndex - 1. */
  ghost predicate Covers(b: Builder, d: Judge) {
    && (forall i :: i in d.open ==>
          || (b.thinkingStarted && i == b.thinkingIndex)
          || (b.textStarted && i == b.textIndex)
          || ToolBlockOpen(b, i))
    && (forall i :: i in d.seen <==> 0 <= i < b.nextIndex)
    && (forall i :: i in d.open ==> i in d.seen)
    && (b.thinkingIndex != -1 || b.textIndex != -1 ==> b.nextIndex > 0)
  }

  ghost predicate Sane(b: Builder, d: Judge) {
    OrderOk(b) && Mirrors(b, d) && Covers(b, d)
  }

  /** The delta payloads emitted on one index, in order. */
  function PayloadsAt(es: seq<Event>, i: int): seq<string> {
    if es == [] then []
    else
      var front, e := PayloadsAt(es[..|es| - 1], i), es[|es| - 1];
      if e.BlockDelta? && e.index == i then front + [e.payload] else front
  }

  lemma PayloadsSnoc(es: seq<Event>, e: Event, i: int)
    ensures PayloadsAt(es + [e], i) ==
            if e.BlockDelta? && e.index == i then PayloadsAt(es, i) + [e.payload] else PayloadsAt(es, i)
  {
    assert (es + [e])[..|es|] == es;
  }

  /** The contents recorded for a tool are the payloads emitted on its block. */
  ghost predicate Recorded(b: Builder) {
    && (forall t :: Started(b, t) ==> PayloadsAt(b.emitted, b.tools[t].blockIndex) == b.tools[t].contents)
    && (forall t :: t in b.tools && !b.tools[t].started ==> b.tools[t].contents == [])
  }

  /** The invariant of the builder: what it has emitted obeys the block rules and matches its own state. */
  ghost predicate Good(b: Builder) {
    && Scan(b.emitted).Some? && Sane(b, Scan(b.emitted).value)
    && HasMessageStart(b.emitted) && !HasError(b.emitted)
    && Recorded(b)
  }

  /** Events other than deltas of a tool block change no tool's payloads. */
  lemma EmitRecorded(b: Builder, e: Event, b': Builder)
    requires Recorded(b) && b'.emitted == b.emitted + [e] && b'.tools == b.tools
    requires forall t :: Started(b, t) && e.BlockDelta? ==> e.index != b.tools[t].blockIndex
    ensures Recorded(b')
  {
    forall t | Started(b', t) ensures PayloadsAt(b'.emitted, b'.tools[t].blockIndex) == b'.tools[t].contents {
      assert Started(b, t);
      PayloadsSnoc(b.emitted, e, b.tools[t].blockIndex);
    }
  }

  /** No payload was emitted on an index never used. */
  lemma {:induction false} PayloadsUnseen(es: seq<Event>, i: int)
    requires Scan(es).Some? && i !in Scan(es).value.seen
    ensures PayloadsAt(es, i) == [] && i !in Scan(es).value.open
  {
    if es != [] {
      PayloadsUnseen(es[..|es| - 1], i);
    }
  }

  lemma EmitGood(b: Builder, e: Event, b': Builder, d': Judge)
    requires Good(b) && !e.Error? && b'.emitted == b.emitted + [e]
    requires JudgeStep(Scan(b.emitted).value, e) == Some(d')
    requires Sane(b', d') && Recorded(b')
    ensures Good(b')
  {
    hide Sane, Scan, JudgeStep, Recorded;
    ScanSnoc(b.emitted, e);
    HasMessageStartConcat(b.emitted, [e]);
    HasErrorConcat(b.emitted, [e]);
  }

  lemma StartThinkingGood(b: Builder)
    requires Good(b) && !b.thinkingStarted
    ensures Good(StartThinking(b))
  {
    var d, b' := Scan(b.emitted).value, StartThinking(b);
    var d' := Judge(d.open[b.nextIndex := Plain(ThinkingType)], d.seen + {b.nextIndex});
    assert forall t :: Started(b', t) <==> Started(b, t);
    forall i | ToolBlockOpen(b, i) ensures ToolBlockOpen(b', i) {
      var t :| Started(b, t) && b.tools[t].blockIndex == i;
      assert Started(b', t) && b'.tools[t].blockIndex == i;
    }
    hide Scan, HasMessageStart, HasError;
    EmitRecorded(b, BlockStart(b.nextIndex, PlainBlock(ThinkingType)), b');
    hide Recorded;
    EmitGood(b, BlockStart(b.nextIndex, PlainBlock(ThinkingType)), b', d');
  }

  lemma StartTextGood(b: Builder)
    requires Good(b) && !b.textStarted
    ensures Good(StartText(b))
  {
    var d, b' := Scan(b.emitted).value, StartText(b);
    var d' := Judge(d.open[b.nextIndex := Plain(TextType)], d.seen + {b.nextIndex});
    assert forall t :: Started(b', t) <==> Started(b, t);
    forall i | ToolBlockOpen(b, i) ensures ToolBlockOpen(b', i) {
      var t :| Started(b, t) && b.tools[t].blockIndex == i;
      assert Started(b', t) && b'.tools[t].blockIndex == i;
    }
    hide Scan, HasMessageStart, HasError;
    EmitRecorded(b, BlockStart(b.nextIndex, PlainBlock(TextType)), b');
    hide Recorded;
    EmitGood(b, BlockStart(b.nextIndex, PlainBlock(TextType)), b', d');
  }

  lemma StopThinkingGood(b: Builder)
    requires Good(b) && b.thinkingStarted
    ensures Good(StopThinking(b))
  {
    var d, b' := Scan(b.emitted).value, StopThinking(b);
    var d' := Judge(d.open - {b.thinkingIndex}, d.seen);
    assert forall t :: Started(b', t) <==> Started(b, t);
    forall i | ToolBlockOpen(b, i) ensures ToolBlockOpen(b', i) {
      var t :| Started(b, t) && b.tools[t].blockIndex == i;
      assert Started(b', t) && b'.tools[t].blockIndex == i;
    }
    hide Scan, HasMessageStart, HasError;
    EmitRecorded(b, BlockStop(b.thinkingIndex), b');
    hide Recorded;
    EmitGood(b, BlockStop(b.thinkingIndex), b', d');
  }

  lemma StopTextGood(b: Builder)
    requires Good(b) && b.textStarted
    ensures Good(StopText(b))
  {
    var d, b' := Scan(b.emitted).value, StopText(b);
    var d' := Judge(d.open - {b.textIndex}, d.seen);
    assert forall t :: Started(b', t) <==> Started(b, t);
    forall i | ToolBlockOpen(b, i) ensures ToolBlockOpen(b', i) {
      var t :| Started(b, t) && b.tools[t].blockIndex == i;
      assert Started(b', t) && b'.tools[t].blockIndex == i;
    }
    hide Scan, HasMessageStart, HasError;
    EmitRecorded(b, BlockStop(b.textIndex), b');
    hide Recorded;
    EmitGood(b, BlockStop(b.textIndex), b', d');
  }

  /** A change that touches neither the blocks nor their bookkeeping keeps the invariant, as does an accepted delta. */
  ghost predicate SameBlocks(b: Builder, b': Builder) {
    && b'.nextIndex == b.nextIndex
    && b'.thinkingIndex == b.thinkingIndex && b'.thinkingStarted == b.thinkingStarted
    && b'.textIndex == b.textIndex && b'.textStarted == b.textStarted
    && (forall t :: Started(b', t) <==> Started(b, t))
    && (forall t :: Started(b, t) ==> b'.tools[t].blockIndex == b.tools[t].blockIndex)
  }

  lemma SameBlocksSane(b: Builder, b': Builder, d: Judge)
    requires Sane(b, d) && SameBlocks(b, b') && OrderOk(b')
    ensures Sane(b', d)
  {
    forall i | ToolBlockOpen(b, i) ensures ToolBlockOpen(b', i) {
      var t :| Started(b, t) && b.tools[t].blockIndex == i;
      assert Started(b', t) && b'.tools[t].blockIndex == i;
    }
  }

  lemma QuietGood(b: Builder, b': Builder)
    requires Good(b) && SameBlocks(b, b') && OrderOk(b') && b'.emitted == b.emitted && Recorded(b')
    ensures Good(b')
  {
    hide Recorded;
    SameBlocksSane(b, b', Scan(b.emitted).value);
  }

  lemma DeltaGood(b: Builder, b': Builder, i: int, t: DeltaType, payload: string)
    requires Good(b) && SameBlocks(b, b') && OrderOk(b')
    requires b'.emitted == b.emitted + [BlockDelta(i, t, payload)]
    requires var d := Scan(b.emitted).value; i in d.open && Accepts(d.open[i], t)
    requires Recorded(b')
    ensures Good(b')
  {
    var d := Scan(b.emitted).value;
    SameBlocksSane(b, b', d);
    hide Sane, Scan, SameBlocks, OrderOk, Recorded;
    EmitGood(b, BlockDelta(i, t, payload), b', d);
  }

  lemma PutToolOrder(b: Builder, t: int, s: ToolCallState)
    requires OrderOk(b)
    ensures OrderOk(PutTool(b, t, s))
  {
    if t !in b.tools { DistinctSnoc(b.order, t); }
  }

  /** Bookkeeping on a tool that leaves its block alone. */
  lemma PutToolGood(b: Builder, t: int, s: ToolCallState)
    requires Good(b)
    requires if t in b.tools
             then s.started == b.tools[t].started && s.blockIndex == b.tools[t].blockIndex && s.contents == b.tools[t].contents
             else !s.started && s.contents == []
    ensures Good(PutTool(b, t, s))
  {
    PutToolOrder(b, t, s);
    PutToolRecorded(b, t, s);
    hide Good, Recorded;
    QuietGood(b, PutTool(b, t, s));
  }

  lemma PutToolRecorded(b: Builder, t: int, s: ToolCallState)
    requires Recorded(b)
    requires if t in b.tools
             then s.started == b.tools[t].started && s.blockIndex == b.tools[t].blockIndex && s.contents == b.tools[t].contents
             else !s.started && s.contents == []
    ensures Recorded(PutTool(b, t, s))
  {
    var b' := PutTool(b, t, s);
    assert forall u :: Started(b', u) <==> Started(b, u);
  }

  lemma ToolDeltaRecorded(b: Builder, t: int, payload: string)
    requires Recorded(b) && Started(b, t)
    requires forall u :: Started(b, u) && b.tools[u].blockIndex == b.tools[t].blockIndex ==> u == t
    ensures Recorded(ToolDelta(b, t, payload))
  {
    var b' := ToolDelta(b, t, payload);
    var e := BlockDelta(b.tools[t].blockIndex, InputJsonDelta, payload);
    forall u | Started(b', u) ensures PayloadsAt(b'.emitted, b'.tools[u].blockIndex) == b'.tools[u].contents {
      assert Started(b, u);
      PayloadsSnoc(b.emitted, e, b.tools[u].blockIndex);
    }
  }

  lemma ToolDeltaGood(b: Builder, t: int, payload: string)
    requires Good(b) && Started(b, t)
    ensures Good(ToolDelta(b, t, payload)) && Started(ToolDelta(b, t, payload), t)
  {
    var s := b.tools[t];
    PutToolOrder(b, t, s.(contents := s.contents + [payload]));
    assert s.blockIndex in Scan(b.emitted).value.open;
    ToolDeltaRecorded(b, t, payload);
    hide Good, Scan, Recorded;
    DeltaGood(b, ToolDelta(b, t, payload), s.blockIndex, InputJsonDelta, payload);
  }

  lemma StartToolRecorded(b: Builder, t: int, id: string, name: string)
    requires Recorded(b) && !Started(b, t) && PayloadsAt(b.emitted, b.nextIndex) == []
    ensures Recorded(StartTool(b, t, id, name))
  {
    var b' := StartTool(b, t, id, name);
    var e := BlockStart(b.nextIndex, ToolBlock(id, name));
    forall u | Started(b', u) ensures PayloadsAt(b'.emitted, b'.tools[u].blockIndex) == b'.tools[u].contents {
      PayloadsSnoc(b.emitted, e, b'.tools[u].blockIndex);
      if u != t { assert Started(b, u); }
    }
  }

  lemma StartToolGood(b: Builder, t: int, id: string, name: string)
    requires Good(b) && !Started(b, t)
    ensures Good(StartTool(b, t, id, name)) && Started(StartTool(b, t, id, name), t)
  {
    var d, b' := Scan(b.emitted).value, StartTool(b, t, id, name);
    var d' := Judge(d.open[b.nextIndex := Plain(ToolUseType)], d.seen + {b.nextIndex});
    PutToolOrder(b, t, b'.tools[t]);
    PayloadsUnseen(b.emitted, b.nextIndex);
    StartToolRecorded(b, t, id, name);
    StartToolSane(b, t, id, name, d);
    hide Scan, HasMessageStart, HasError, Recorded, Sane;
    EmitGood(b, BlockStart(b.nextIndex, ToolBlock(id, name)), b', d');
  }

  lemma StartToolMirrors(b: Builder, t: int, id: string, name: string, d: Judge)
    requires Mirrors(b, d) && Covers(b, d) && !Started(b, t)
    ensures Mirrors(StartTool(b, t, id, name),
                    Judge(d.open[b.nextIndex := Plain(ToolUseType)], d.seen + {b.nextIndex}))
  {
    var b' := StartTool(b, t, id, name);
    assert forall u :: Started(b', u) <==> Started(b, u) || u == t;
    assert forall u :: Started(b, u) ==> b'.tools[u].blockIndex == b.tools[u].blockIndex;
  }

  lemma StartToolCovers(b: Builder, t: int, id: string, name: string, d: Judge)
    requires Mirrors(b, d) && Covers(b, d) && !Started(b, t)
    ensures Covers(StartTool(b, t, id, name),
                   Judge(d.open[b.nextIndex := Plain(ToolUseType)], d.seen + {b.nextIndex}))
  {
    var b' := StartTool(b, t, id, name);
    assert Started(b', t) && b'.tools[t].blockIndex == b.nextIndex;
    assert ToolBlockOpen(b', b.nextIndex);
    forall i | ToolBlockOpen(b, i) ensures ToolBlockOpen(b', i) {
      var u :| Started(b, u) && b.tools[u].blockIndex == i;
      assert Started(b', u) && b'.tools[u].blockIndex == i;
    }
    hide ToolBlockOpen, Started;
  }

  lemma StartToolSane(b: Builder, t: int, id: string, name: string, d: Judge)
    requires Sane(b, d) && !Started(b, t) && OrderOk(StartTool(b, t, id, name))
    ensures Sane(StartTool(b, t, id, name), Judge(d.open[b.nextIndex := Plain(ToolUseType)], d.seen + {b.nextIndex}))
  {
    hide Mirrors, Covers;
    StartToolMirrors(b, t, id, name, d);
    StartToolCovers(b, t, id, name, d);
  }

  lemma OneShotGood(b: Builder, block: Block, t: DeltaType, content: string)
    requires Good(b) && AllowedStart(block.kind) && Accepts(StorageOf(block), t)
    ensures Good(OneShotBlock(b, block, t, content))
  {
    var d, i, b' := Scan(b.emitted).value, b.nextIndex, OneShotBlock(b, block, t, content);
    var shot := OneShot(i, block, t, content);
    ScanFromConcat(FreshJudge, b.emitted, shot);
    OneShotScan(d, i, block, t, content);
    HasMessageStartConcat(b.emitted, shot);
    HasErrorConcat(b.emitted, shot);
    OneShotSane(b, b', d, i);
    assert b'.emitted == b.emitted + [shot[0]] + [shot[1]] + [shot[2]];
    OneShotRecorded(b, b', shot[0], shot[1], shot[2]);
  }

  lemma OneShotRecorded(b: Builder, b': Builder, start: Event, delta: Event, stop: Event)
    requires Recorded(b) && b'.tools == b.tools && b'.emitted == b.emitted + [start] + [delta] + [stop]
    requires start.BlockStart? && delta.BlockDelta? && stop.BlockStop?
    requires forall t :: Started(b, t) ==> b.tools[t].blockIndex != delta.index
    ensures Recorded(b')
  {
    forall t | Started(b', t) ensures PayloadsAt(b'.emitted, b'.tools[t].blockIndex) == b'.tools[t].contents {
      var i := b.tools[t].blockIndex;
      assert Started(b, t);
      PayloadsSnoc(b.emitted, start, i);
      PayloadsSnoc(b.emitted + [start], delta, i);
      PayloadsSnoc(b.emitted + [start] + [delta], stop, i);
    }
  }

  lemma OneShotSane(b: Builder, b': Builder, d: Judge, i: int)
    requires Sane(b, d) && i == b.nextIndex && b' == b.(nextIndex := i + 1, emitted := b'.emitted)
    ensures Sane(b', Judge(d.open, d.seen + {i}))
  {
    assert forall t :: Started(b', t) <==> Started(b, t);
    forall j | ToolBlockOpen(b, j) ensures ToolBlockOpen(b', j) {
      var t :| Started(b, t) && b.tools[t].blockIndex == j;
      assert Started(b', t) && b'.tools[t].blockIndex == j;
    }
  }

  // ---------------------------------------------------------------------------------------------
  // Each step keeps the invariant.

  lemma CloseContentGood(b: Builder)
    requires Good(b)
    ensures Good(CloseContent(b))
  {
    hide Good;
    var b1 := if b.thinkingStarted then StopThinking(b) else b;
    if b.thinkingStarted { StopThinkingGood(b); }
    if b1.textStarted { StopTextGood(b1); }
  }

  lemma ThinkGood(b: Builder, content: string)
    requires Good(b)
    ensures Good(Think(b, content)) && Think(b, content).nextIndex > 0
  {
    if b.textStarted { StopTextGood(b); }
    var b1 := if b.textStarted then StopText(b) else b;
    if !b1.thinkingStarted { StartThinkingGood(b1); }
    var b2 := EnsureThinking(b);
    assert b2.thinkingIndex in Scan(b2.emitted).value.open;
    EmitRecorded(b2, BlockDelta(b2.thinkingIndex, ThinkingDelta, content), Think(b, content));
    hide Scan, Recorded;
    DeltaGood(b2, Think(b, content), b2.thinkingIndex, ThinkingDelta, content);
  }

  lemma SayGood(b: Builder, content: string)
    requires Good(b)
    ensures Good(Say(b, content)) && Say(b, content).nextIndex > 0
  {
    if b.thinkingStarted { StopThinkingGood(b); }
    var b1 := if b.thinkingStarted then StopThinking(b) else b;
    if !b1.textStarted { StartTextGood(b1); }
    var b2 := EnsureText(b);
    assert b2.textIndex in Scan(b2.emitted).value.open;
    EmitRecorded(b2, BlockDelta(b2.textIndex, TextDelta, content), Say(b, content));
    hide Scan, Recorded;
    DeltaGood(b2, Say(b, content), b2.textIndex, TextDelta, content);
  }

  lemma {:induction false} HeuristicToolsGood(b: Builder, tools: seq<HeuristicTool>)
    requires Good(b)
    ensures Good(HeuristicTools(b, tools)) && HeuristicTools(b, tools).nextIndex >= b.nextIndex
  {
    if tools != [] {
      var front, tool := tools[..|tools| - 1], tools[|tools| - 1];
      HeuristicToolsGood(b, front);
      hide Good;
      CloseContentGood(HeuristicTools(b, front));
      OneShotGood(CloseContent(HeuristicTools(b, front)), ToolBlock(tool.id, tool.name), InputJsonDelta, tool.input);
    }
  }

  lemma EmitToolArgsGood(b: Builder, t: int, args: string, cfg: Config)
    requires Good(b) && Started(b, t)
    ensures Good(EmitToolArgs(b, t, args, cfg).0)
  {
    hide Good;
    var s := b.tools[t];
    if args == "" {
    } else if s.name == "Task" {
      var buffer := s.taskArgBuffer + args;
      PutToolGood(b, t, s.(taskArgBuffer := buffer));
      var s1 := s.(taskArgBuffer := "", taskArgsEmitted := true);
      PutToolGood(b, t, s1);
      if cfg.parse(buffer).Object? {
        ToolDeltaGood(PutTool(b, t, s1), t, cfg.parse(buffer).foreground);
      }
    } else {
      ToolDeltaGood(b, t, args);
    }
  }

  lemma IdentifiedGood(b: Builder, t: int, call: ToolCallDelta)
    requires Good(b)
    ensures Good(Identified(b, t, call))
  {
    hide Good;
    var b1 := if call.id.Some? then SetToolId(b, t, call.id.value) else b;
    if call.id.Some? && call.id.value != "" {
      if t !in b.tools { PutToolGood(b, t, NewToolState("")); }
      PutToolGood(EnsureTool(b, t), t, EnsureTool(b, t).tools[t].(toolId := call.id.value));
    }
    if call.name.Some? {
      PutToolGood(b1, t, if t in b1.tools then b1.tools[t].(name := MergeName(b1.tools[t].name, call.name.value))
                         else NewToolState(call.name.value));
    }
  }

  lemma StartIfNamedGood(b: Builder, t: int, call: ToolCallDelta, cfg: Config)
    requires Good(b)
    ensures Good(StartIfNamed(b, t, call, cfg).0)
    ensures !StartIfNamed(b, t, call, cfg).1 ==>
              Started(StartIfNamed(b, t, call, cfg).0, t) || Strip(NameOf(StartIfNamed(b, t, call, cfg).0, t)) == ""
  {
    hide Good;
    var displayName := Strip(NameOf(b, t));
    if !Started(b, t) && displayName != "" {
      var id := ResolvedId(b, t, call);
      StartToolGood(b, t, id, displayName);
      var b1 := StartTool(b, t, id, displayName);
      PutToolGood(b1, t, b1.tools[t].(preStartArgs := ""));
      EmitToolArgsGood(PutTool(b1, t, b1.tools[t].(preStartArgs := "")), t, b1.tools[t].preStartArgs, cfg);
      hide ResolvedId, Strip, StartTool;
      EmitToolArgsStarted(PutTool(b1, t, b1.tools[t].(preStartArgs := "")), t, b1.tools[t].preStartArgs, cfg);
    }
  }

  lemma EmitToolArgsStarted(b: Builder, t: int, args: string, cfg: Config)
    requires Started(b, t)
    ensures Started(EmitToolArgs(b, t, args, cfg).0, t)
  {
  }

  lemma TakeArgumentsGood(b: Builder, t: int, args: string, cfg: Config)
    requires Good(b) && (Started(b, t) || Strip(NameOf(b, t)) == "")
    ensures Good(TakeArguments(b, t, args, cfg).0)
  {
    hide Good;
    if args == "" {
    } else if Started(b, t) {
      EmitToolArgsGood(b, t, args, cfg);
    } else {
      if t !in b.tools { PutToolGood(b, t, NewToolState("")); }
      var b1 := EnsureTool(b, t);
      PutToolGood(b1, t, b1.tools[t].(preStartArgs := b1.tools[t].preStartArgs + args));
    }
  }

  lemma ProcessToolCallGood(b: Builder, call: ToolCallDelta, cfg: Config)
    requires Good(b)
    ensures Good(ProcessToolCall(b, call, cfg).0)
  {
    hide Good, Identified, StartIfNamed, TakeArguments, Strip;
    var t := Target(b, call);
    IdentifiedGood(b, t, call);
    StartIfNamedGood(Identified(b, t, call), t, call, cfg);
    var (b1, raised) := StartIfNamed(Identified(b, t, call), t, call, cfg);
    if !raised { TakeArgumentsGood(b1, t, call.arguments, cfg); }
  }

  lemma StepGood(b: Builder, x: Input, cfg: Config)
    requires Good(b)
    ensures Good(Step(b, x, cfg).0)
  {
    hide Good, Think, Say, HeuristicTools, ProcessToolCall, CloseContent;
    match x {
      case Reasoning(content) => ThinkGood(b, content);
      case ThinkingPart(content) => ThinkGood(b, content);
      case TextPart(filtered, tools) =>
        if filtered != "" { SayGood(b, filtered); }
        HeuristicToolsGood(if filtered != "" then Say(b, filtered) else b, tools);
      case ToolCallsBegin => CloseContentGood(b);
      case ToolCall(call) => ProcessToolCallGood(b, call, cfg);
      case Unusable =>
    }
  }

  /** The invariant holds after any inputs in any order, also where an exception stopped them. */
  lemma {:induction false} RunGood(b: Builder, inputs: seq<Input>, cfg: Config)
    requires Good(b)
    ensures Good(Run(b, inputs, cfg).0)
  {
    hide Good, Step;
    if inputs != [] {
      var front := inputs[..|inputs| - 1];
      RunGood(b, front, cfg);
      StepGood(Run(b, front, cfg).0, inputs[|inputs| - 1], cfg);
    }
  }

  lemma BeginScan(start: Event)
    requires start.MessageStart?
    ensures Scan([start]) == Some(FreshJudge) && HasMessageStart([start]) && !HasError([start])
  {
    ScanOne(FreshJudge, start);
    assert [start][0] == start;
  }

  lemma BeginSane(id: string, model: string)
    ensures Sane(Begin(id, model), FreshJudge) && Recorded(Begin(id, model))
  {
    hide PayloadsAt;
    var b := Begin(id, model);
    assert b.tools == map[] && b.order == [] && b.nextIndex == 0;
    assert !b.thinkingStarted && !b.textStarted && b.thinkingIndex == -1 && b.textIndex == -1;
    assert OrderOk(b) && Mirrors(b, FreshJudge) && Covers(b, FreshJudge);
  }

  lemma BeginGood(id: string, model: string)
    ensures Good(Begin(id, model))
  {
    var start := MessageStart(id, model);
    assert Begin(id, model).emitted == [] + [start] == [start];
    hide Begin, Scan, HasMessageStart, HasError, Sane, Recorded;
    BeginScan(start);
    BeginSane(id, model);
  }

  // ---------------------------------------------------------------------------------------------
  // The ends.

  ghost predicate StoppedAmong(b: Builder, order: seq<int>, i: int) {
    exists t :: t in order && Started(b, t) && b.tools[t].blockIndex == i
  }

  /** The blocks still open after the tool blocks of `order` were stopped. */
  ghost function StillOpen(b: Builder, d: Judge, order: seq<int>): map<int, Storage> {
    map i | i in d.open && !StoppedAmong(b, order, i) :: d.open[i]
  }

  lemma {:induction false} StopToolsScan(b: Builder, order: seq<int>)
    requires Good(b) && Distinct(order)
    ensures var b' := StopTools(b, order);
            && b' == b.(emitted := b'.emitted)
            && Scan(b'.emitted) == Some(Judge(StillOpen(b, Scan(b.emitted).value, order), Scan(b.emitted).value.seen))
            && HasMessageStart(b'.emitted) && !HasError(b'.emitted)
  {
    var d := Scan(b.emitted).value;
    if order == [] {
      assert StillOpen(b, d, order) == d.open;
    } else {
      var n := |order| - 1;
      var front, t := order[..n], order[n];
      assert order == front + [t];
      StopToolsScan(b, front);
      var b1 := StopTools(b, front);
      StillOpenSnoc(b, d, front, t);
      hide Good, StillOpen, Scan, HasMessageStart, HasError;
      if Started(b, t) {
        assert StopTools(b, order) == StopTool(b1, t);
        StopOneScan(b1.emitted, StillOpen(b, d, front), d.seen, b.tools[t].blockIndex);
      } else {
        assert StopTools(b, order) == b1;
      }
    }
  }

  lemma StopOneScan(es: seq<Event>, open: map<int, Storage>, seen: set<int>, i: int)
    requires Scan(es) == Some(Judge(open, seen)) && i in open
    requires HasMessageStart(es) && !HasError(es)
    ensures var es' := es + [BlockStop(i)];
            Scan(es') == Some(Judge(open - {i}, seen)) && HasMessageStart(es') && !HasError(es')
  {
    ScanSnoc(es, BlockStop(i));
    HasMessageStartConcat(es, [BlockStop(i)]);
    HasErrorConcat(es, [BlockStop(i)]);
  }

  lemma StillOpenSnoc(b: Builder, d: Judge, front: seq<int>, t: int)
    requires Mirrors(b, d) && t !in front
    ensures var rest, after := StillOpen(b, d, front), StillOpen(b, d, front + [t]);
            if Started(b, t) then b.tools[t].blockIndex in rest && after == rest - {b.tools[t].blockIndex} else after == rest
  {
    assert forall u :: u in front + [t] <==> u in front || u == t;
    var rest, after := StillOpen(b, d, front), StillOpen(b, d, front + [t]);
    if Started(b, t) {
      assert t in front + [t];
      assert after == rest - {b.tools[t].blockIndex};
    } else {
      assert after == rest;
    }
  }

  /** The indices 0, 1, ..., n - 1. */
  function IndicesBelow(n: nat): (s: set<int>)
    ensures forall i :: i in s <==> 0 <= i < n
  {
    if n == 0 then {} else IndicesBelow(n - 1) + {n - 1}
  }

  lemma AllStopped(b: Builder, d: Judge)
    requires Sane(b, d) && !b.thinkingStarted && !b.textStarted
    ensures StillOpen(b, d, b.order) == map[]
  {
    forall i | i in d.open ensures StoppedAmong(b, b.order, i) {
      assert ToolBlockOpen(b, i);
      var t :| Started(b, t) && b.tools[t].blockIndex == i;
      assert t in b.order;
    }
  }

  /** Closing all blocks leaves none open. */
  lemma CloseAllCloses(b: Builder)
    requires Good(b)
    ensures var b' := CloseAll(b);
            && b'.tools == b.tools && b'.nextIndex == b.nextIndex
            && Scan(b'.emitted) == Some(Judge(map[], IndicesBelow(b.nextIndex)))
            && HasMessageStart(b'.emitted) && !HasError(b'.emitted)
  {
    CloseContentGood(b);
    var b1 := CloseContent(b);
    assert b1.order == b.order && b1.tools == b.tools && b1.nextIndex == b.nextIndex;
    var d := Scan(b1.emitted).value;
    StopToolsScan(b1, b.order);
    AllStopped(b1, d);
    assert d.seen == IndicesBelow(b.nextIndex);
  }

  lemma CloseMeets(b: Builder, seen: set<int>, stopReason: string, tokens: int)
    requires Scan(b.emitted) == Some(Judge(map[], seen)) && seen != {}
    requires HasMessageStart(b.emitted)
    ensures Contract(Close(b, stopReason, tokens).emitted, true)
    ensures HasError(Close(b, stopReason, tokens).emitted) <==> HasError(b.emitted)
  {
    var a, z := MessageDelta(stopReason, tokens), MessageStop;
    ScanSnoc(b.emitted, a);
    ScanSnoc(b.emitted + [a], z);
    HasMessageStartConcat(b.emitted, [a]);
    HasMessageStartConcat(b.emitted + [a], [z]);
    HasErrorConcat(b.emitted, [a]);
    HasErrorConcat(b.emitted + [a], [z]);
  }

  lemma StrictWithoutErrors(es: seq<Event>)
    requires Contract(es, true)
    ensures Contract(es, false) <==> !HasError(es)
  {
  }

  lemma IndicesNonEmpty(n: nat)
    ensures n > 0 ==> IndicesBelow(n) != {}
  {
    if n > 0 { assert 0 in IndicesBelow(n); }
  }

  lemma StartedMeansBlock(b: Builder)
    requires Good(b) && HasStartedTool(b)
    ensures b.nextIndex > 0
  {
    var t :| t in b.tools && b.tools[t].started;
    assert Started(b, t);
    assert b.tools[t].blockIndex in Scan(b.emitted).value.open;
  }

  /** After an exception the contract holds; an error event is sent exactly when a native tool block was started. */
  lemma FailMeetsContract(b: Builder, message: string)
    requires Good(b)
    ensures Contract(Fail(b, message).emitted, true)
    ensures Contract(Fail(b, message).emitted, false) <==> !HasStartedTool(b)
  {
    CloseAllCloses(b);
    var b1 := CloseAll(b);
    var seen := IndicesBelow(b.nextIndex);
    if HasStartedTool(b1) {
      StartedMeansBlock(b);
      IndicesNonEmpty(b.nextIndex);
      hide Good, Scan, CloseAll;
      var b2 := Emit(b1, Error(message));
      ScanSnoc(b1.emitted, Error(message));
      HasMessageStartConcat(b1.emitted, [Error(message)]);
      HasErrorConcat(b1.emitted, [Error(message)]);
      assert [Error(message)][0].Error?;
      CloseMeets(b2, seen, "end_turn", 1);
      StrictWithoutErrors(Close(b2, "end_turn", 1).emitted);
    } else {
      hide Good, Scan, CloseAll;
      ErrorBlockScan(b1, seen, message);
      var b2 := OneShotBlock(b1, PlainBlock(TextType), TextDelta, message);
      assert b1.nextIndex in seen + {b1.nextIndex};
      CloseMeets(b2, seen + {b1.nextIndex}, "end_turn", 1);
      StrictWithoutErrors(Close(b2, "end_turn", 1).emitted);
    }
  }

  lemma ErrorBlockScan(b: Builder, seen: set<int>, content: string)
    requires Scan(b.emitted) == Some(Judge(map[], seen)) && b.nextIndex !in seen
    requires HasMessageStart(b.emitted) && !HasError(b.emitted)
    ensures var b' := OneShotBlock(b, PlainBlock(TextType), TextDelta, content);
            && Scan(b'.emitted) == Some(Judge(map[], seen + {b.nextIndex}))
            && HasMessageStart(b'.emitted) && !HasError(b'.emitted)
  {
    var shot := OneShot(b.nextIndex, PlainBlock(TextType), TextDelta, content);
    OneShotScan(Judge(map[], seen), b.nextIndex, PlainBlock(TextType), TextDelta, content);
    ScanFromConcat(FreshJudge, b.emitted, shot);
    HasMessageStartConcat(b.emitted, shot);
    HasErrorConcat(b.emitted, shot);
  }

  lemma CompleteGood(b: Builder, ending: Ending, cfg: Config)
    requires Good(b) && ending.Ends?
    ensures Good(Complete(b, ending, cfg)) && Complete(b, ending, cfg).nextIndex > 0
  {
    hide Good, Think, Say, HeuristicTools, OnlyReasoned;
    match ending.remaining {
      case Some(ThinkingPart(content)) => ThinkGood(b, content);
      case Some(TextPart(content, _)) => SayGood(b, content);
      case _ =>
    }
    var b1 := SayRemaining(b, ending, cfg);
    HeuristicToolsGood(b1, ending.tools);
    var b2 := HeuristicTools(b1, ending.tools);
    SayGood(b2, " ");
    if HasContent(b2) { ContentMeansBlock(b2); }
  }

  lemma ContentMeansBlock(b: Builder)
    requires Good(b) && HasContent(b)
    ensures b.nextIndex > 0
  {
    if HasStartedTool(b) { StartedMeansBlock(b); }
  }

  // Task arguments left in a buffer never parse: parsing was tried whenever the buffer grew.

  ghost predicate Unparsed(b: Builder, cfg: Config) {
    && (forall t :: t in b.tools && NeedsFlush(b.tools[t]) ==> cfg.parse(b.tools[t].taskArgBuffer) == Invalid)
    && (forall t :: t in b.tools && !b.tools[t].started ==> b.tools[t].taskArgBuffer == "")
  }

  lemma {:induction false} HeuristicToolsQuiet(b: Builder, tools: seq<HeuristicTool>)
    ensures HeuristicTools(b, tools).tools == b.tools && HeuristicTools(b, tools).order == b.order
  {
    if tools != [] {
      HeuristicToolsQuiet(b, tools[..|tools| - 1]);
    }
  }

  lemma EmitToolArgsUnparsed(b: Builder, t: int, args: string, cfg: Config)
    requires Unparsed(b, cfg) && Started(b, t) && !EmitToolArgs(b, t, args, cfg).1
    ensures Unparsed(EmitToolArgs(b, t, args, cfg).0, cfg)
  {
  }

  lemma PutToolUnparsed(b: Builder, t: int, s: ToolCallState, cfg: Config)
    requires Unparsed(b, cfg)
    requires var was := if t in b.tools then b.tools[t] else NewToolState("");
             s.taskArgBuffer == was.taskArgBuffer && s.taskArgsEmitted == was.taskArgsEmitted && s.started == was.started
    ensures Unparsed(PutTool(b, t, s), cfg)
  {
  }

  lemma IdentifiedUnparsed(b: Builder, t: int, call: ToolCallDelta, cfg: Config)
    requires Unparsed(b, cfg)
    ensures Unparsed(Identified(b, t, call), cfg)
  {
    hide Unparsed, MergeName;
    var b1 := if call.id.Some? then SetToolId(b, t, call.id.value) else b;
    if call.id.Some? && call.id.value != "" {
      if t !in b.tools { PutToolUnparsed(b, t, NewToolState(""), cfg); }
      var b0 := EnsureTool(b, t);
      PutToolUnparsed(b0, t, b0.tools[t].(toolId := call.id.value), cfg);
    }
    if call.name.Some? {
      var name := call.name.value;
      PutToolUnparsed(b1, t, if t in b1.tools then b1.tools[t].(name := MergeName(b1.tools[t].name, name))
                             else NewToolState(name), cfg);
    }
  }

  lemma StartIfNamedUnparsed(b: Builder, t: int, call: ToolCallDelta, cfg: Config)
    requires Unparsed(b, cfg) && !StartIfNamed(b, t, call, cfg).1
    ensures Unparsed(StartIfNamed(b, t, call, cfg).0, cfg)
    ensures Started(StartIfNamed(b, t, call, cfg).0, t) || Strip(NameOf(StartIfNamed(b, t, call, cfg).0, t)) == ""
  {
    hide Strip;
    var displayName := Strip(NameOf(b, t));
    if !Started(b, t) && displayName != "" {
      var b1 := StartTool(b, t, ResolvedId(b, t, call), displayName);
      assert Unparsed(b1, cfg);
      var b2 := PutTool(b1, t, b1.tools[t].(preStartArgs := ""));
      assert Unparsed(b2, cfg) && Started(b2, t);
      EmitToolArgsUnparsed(b2, t, b1.tools[t].preStartArgs, cfg);
      EmitToolArgsStarted(b2, t, b1.tools[t].preStartArgs, cfg);
    }
  }

  lemma TakeArgumentsUnparsed(b: Builder, t: int, args: string, cfg: Config)
    requires Unparsed(b, cfg) && !TakeArguments(b, t, args, cfg).1
    requires Started(b, t) || Strip(NameOf(b, t)) == ""
    ensures Unparsed(TakeArguments(b, t, args, cfg).0, cfg)
  {
    if args != "" && Started(b, t) { EmitToolArgsUnparsed(b, t, args, cfg); }
  }

  lemma StepUnparsed(b: Builder, x: Input, cfg: Config)
    requires Unparsed(b, cfg) && !Step(b, x, cfg).1
    ensures Unparsed(Step(b, x, cfg).0, cfg)
  {
    hide Strip, StartIfNamed, TakeArguments, Identified;
    match x {
      case TextPart(filtered, tools) =>
        HeuristicToolsQuiet(if filtered != "" then Say(b, filtered) else b, tools);
      case ToolCall(call) =>
        var t := Target(b, call);
        IdentifiedUnparsed(b, t, call, cfg);
        StartIfNamedUnparsed(Identified(b, t, call), t, call, cfg);
        TakeArgumentsUnparsed(StartIfNamed(Identified(b, t, call), t, call, cfg).0, t, call.arguments, cfg);
      case _ =>
    }
  }

  lemma {:induction false} RunUnparsed(b: Builder, inputs: seq<Input>, cfg: Config)
    requires Unparsed(b, cfg) && !Run(b, inputs, cfg).1
    ensures Unparsed(Run(b, inputs, cfg).0, cfg)
  {
    hide Step, Unparsed;
    if inputs != [] {
      var front := inputs[..|inputs| - 1];
      RunUnparsed(b, front, cfg);
      StepUnparsed(Run(b, front, cfg).0, inputs[|inputs| - 1], cfg);
    }
  }

  /** Left-over Task arguments do not parse, so the empty object goes out for them. */
  lemma FlushOneGood(b: Builder, t: int, cfg: Config)
    requires Good(b) && Unparsed(b, cfg)
    ensures var r := FlushOne(b, t, cfg.parse);
            r.Some? && Good(r.value) && Unparsed(r.value, cfg)
            && r.value.nextIndex == b.nextIndex && r.value.order == b.order
  {
    hide Good;
    if t in b.tools && NeedsFlush(b.tools[t]) {
      assert b.tools[t].started;
      var s := b.tools[t].(taskArgBuffer := "", taskArgsEmitted := true);
      PutToolGood(b, t, s);
      ToolDeltaGood(PutTool(b, t, s), t, "{}");
    }
  }

  /** Flushing never raises. */
  lemma {:induction false} FlushGood(b: Builder, order: seq<int>, cfg: Config)
    requires Good(b) && Unparsed(b, cfg)
    ensures var r := FlushTaskArgs(b, order, cfg.parse);
            r.Some? && Good(r.value) && Unparsed(r.value, cfg)
            && r.value.nextIndex == b.nextIndex && r.value.order == b.order
  {
    hide Good, Unparsed, FlushOne;
    if order != [] {
      var front, t := order[..|order| - 1], order[|order| - 1];
      FlushGood(b, front, cfg);
      FlushOneGood(FlushTaskArgs(b, front, cfg.parse).value, t, cfg);
    }
  }

  lemma SayQuiet(b: Builder, content: string)
    ensures Say(b, content).tools == b.tools && Think(b, content).tools == b.tools
  {
  }

  lemma CompleteUnparsed(b: Builder, ending: Ending, cfg: Config)
    requires Unparsed(b, cfg) && ending.Ends?
    ensures Unparsed(Complete(b, ending, cfg), cfg)
  {
    hide Unparsed, Say, Think, HeuristicTools, HasContent, OnlyReasoned;
    match ending.remaining {
      case Some(ThinkingPart(content)) => SayQuiet(b, content);
      case Some(TextPart(content, _)) => SayQuiet(b, content);
      case _ =>
    }
    var b1 := SayRemaining(b, ending, cfg);
    HeuristicToolsQuiet(b1, ending.tools);
    SayQuiet(HeuristicTools(b1, ending.tools), " ");
    UnparsedTools(b, Complete(b, ending, cfg), cfg);
  }

  lemma UnparsedTools(b: Builder, b': Builder, cfg: Config)
    requires Unparsed(b, cfg) && b'.tools == b.tools
    ensures Unparsed(b', cfg)
  {
  }

  lemma BeginUnparsed(id: string, model: string, cfg: Config)
    ensures Unparsed(Begin(id, model), cfg)
  {
  }

  lemma FinishMeetsContract(b: Builder, ending: Ending, finishReason: string, cfg: Config)
    requires Good(b) && Unparsed(b, cfg) && ending.Ends?
    ensures var r := Finish(b, ending, finishReason, cfg);
            r.Some? && Contract(r.value.emitted, false) && Contract(r.value.emitted, true)
  {
    CompleteGood(b, ending, cfg);
    CompleteUnparsed(b, ending, cfg);
    hide Complete, Scan, Unparsed, Good;
    var b1 := Complete(b, ending, cfg);
    FlushGood(b1, b1.order, cfg);
    var b2 := FlushTaskArgs(b1, b1.order, cfg.parse).value;
    CloseAllCloses(b2);
    var b3 := CloseAll(b2);
    var seen := IndicesBelow(b2.nextIndex);
    IndicesNonEmpty(b2.nextIndex);
    hide CloseAll, HasError, HasMessageStart;
    CloseMeets(b3, seen, MapStopReason(finishReason), ending.outputTokens);
    StrictWithoutErrors(Close(b3, MapStopReason(finishReason), ending.outputTokens).emitted);
  }

  /**
    Whatever the upstream delivers, in whatever order, and whether it ends or raises at any step: no
    exception escapes and the client receives a stream obeying the contract. It contains an error event
    exactly when the upstream failed after a native tool block was started.
   */
  lemma TranscriptMeetsContract(id: string, model: string, inputs: seq<Input>, ending: Ending, finishReason: string,
                                message: string, cfg: Config)
    ensures var r := Transcript(id, model, inputs, ending, finishReason, message, cfg);
            var (b, raised) := Run(Begin(id, model), inputs, cfg);
            && r.Some?
            && Contract(r.value.emitted, true)
            && (Contract(r.value.emitted, false) <==> !((raised || ending.Fails?) && HasStartedTool(b)))
  {
    hide Good, Unparsed, Run, Begin, Fail, Finish, Contract;
    BeginGood(id, model);
    BeginUnparsed(id, model, cfg);
    RunGood(Begin(id, model), inputs, cfg);
    var (b, raised) := Run(Begin(id, model), inputs, cfg);
    if raised || ending.Fails? {
      FailMeetsContract(b, message);
    } else {
      RunUnparsed(Begin(id, model), inputs, cfg);
      FinishMeetsContract(b, ending, finishReason, cfg);
    }
  }
}
