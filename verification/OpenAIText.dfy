/**
  What a reader of the translated stream is told: text and thinking arrive complete and in order, in blocks
  numbered 0, 1, 2, ...
 */
module OpenAIText {
  import opened Prelude
  import opened Strings
  import opened StreamContract
  import opened SseBuilder
  import opened OpenAICompat
  import opened OpenAIContract

  datatype Utterance = Thought(content: string) | Said(content: string)

  function SpokenBy(e: Event): seq<Utterance> {
    if e.BlockDelta? && e.delta == ThinkingDelta then [Thought(e.payload)]
    else if e.BlockDelta? && e.delta == TextDelta then [Said(e.payload)]
    else []
  }

  /** The text and thinking deltas of a stream, in order. */
  function Spoken(es: seq<Event>): seq<Utterance> {
    if es == [] then [] else Spoken(es[..|es| - 1]) + SpokenBy(es[|es| - 1])
  }

  /** What one input says: thinking only counts when it is enabled. */
  function Heard(x: Input, cfg: Config): seq<Utterance> {
    match x
    case Reasoning(content) => if cfg.thinkingEnabled then [Thought(content)] else []
    case ThinkingPart(content) => if cfg.thinkingEnabled then [Thought(content)] else []
    case TextPart(filtered, _) => if filtered != "" then [Said(filtered)] else []
    case _ => []
  }

  /** What the inputs say up to the first that raises. */
  function HeardIn(b: Builder, inputs: seq<Input>, cfg: Config): seq<Utterance> {
    if inputs == [] then []
    else
      var front := inputs[..|inputs| - 1];
      HeardIn(b, front, cfg) + if Run(b, front, cfg).1 then [] else Heard(inputs[|inputs| - 1], cfg)
  }

  lemma SpokenSnoc(es: seq<Event>, e: Event)
    ensures Spoken(es + [e]) == Spoken(es) + SpokenBy(e)
  {
    assert (es + [e])[..|es|] == es;
  }

  lemma SpokenSilent(es: seq<Event>, e: Event)
    requires SpokenBy(e) == []
    ensures Spoken(es + [e]) == Spoken(es)
  {
    SpokenSnoc(es, e);
    assert Spoken(es) + [] == Spoken(es);
  }

  /** The blocks emitted so far bear the indices given out so far, in order. */
  ghost predicate Numbered(b: Builder) {
    StartsNumbered(b.emitted) && StartCount(b.emitted) == b.nextIndex
  }

  /** From the first state to the second, events were only added, `said` was said and blocks were numbered on. */
  ghost predicate Says(b: Builder, b': Builder, said: seq<Utterance>) {
    && Spoken(b'.emitted) == Spoken(b.emitted) + said
    && b.emitted <= b'.emitted
    && (Numbered(b) ==> Numbered(b'))
  }

  lemma SaysNothing(b: Builder)
    ensures Says(b, b, [])
  {
  }

  lemma SaysThen(b: Builder, b1: Builder, b2: Builder, first: seq<Utterance>, then_: seq<Utterance>)
    requires Says(b, b1, first) && Says(b1, b2, then_)
    ensures Says(b, b2, first + then_)
  {
    hide Numbered;
  }

  lemma SilentThen(b: Builder, b1: Builder, b2: Builder, said: seq<Utterance>)
    requires Says(b, b1, []) && Says(b1, b2, said)
    ensures Says(b, b2, said)
  {
    SaysThen(b, b1, b2, [], said);
    assert [] + said == said;
  }

  lemma EmitSays(b: Builder, b': Builder, e: Event)
    requires b'.emitted == b.emitted + [e]
    requires e.BlockStart? ==> e.index == b.nextIndex
    requires b'.nextIndex == b.nextIndex + if e.BlockStart? then 1 else 0
    ensures Says(b, b', SpokenBy(e))
  {
    SpokenSnoc(b.emitted, e);
    NumberedSnoc(b.emitted, e);
  }

  // Steps of the builder.

  lemma CloseContentSilent(b: Builder)
    ensures Says(b, CloseContent(b), [])
  {
    var b1 := if b.thinkingStarted then StopThinking(b) else b;
    SaysNothing(b);
    if b.thinkingStarted { EmitSays(b, b1, BlockStop(b.thinkingIndex)); }
    if b1.textStarted { EmitSays(b1, CloseContent(b), BlockStop(b1.textIndex)); } else { SaysNothing(b1); }
    SilentThen(b, b1, CloseContent(b), []);
  }

  lemma EnsureSilent(b: Builder)
    ensures Says(b, EnsureThinking(b), []) && Says(b, EnsureText(b), [])
  {
    hide Says, Spoken;
    SaysNothing(b);
    var b1 := if b.textStarted then StopText(b) else b;
    if b.textStarted { EmitSays(b, b1, BlockStop(b.textIndex)); }
    if b1.thinkingStarted { SaysNothing(b1); }
    else { EmitSays(b1, StartThinking(b1), BlockStart(b1.nextIndex, PlainBlock(ThinkingType))); }
    SilentThen(b, b1, EnsureThinking(b), []);
    var b2 := if b.thinkingStarted then StopThinking(b) else b;
    if b.thinkingStarted { EmitSays(b, b2, BlockStop(b.thinkingIndex)); }
    if b2.textStarted { SaysNothing(b2); }
    else { EmitSays(b2, StartText(b2), BlockStart(b2.nextIndex, PlainBlock(TextType))); }
    SilentThen(b, b2, EnsureText(b), []);
  }

  lemma ThinkSays(b: Builder, content: string)
    ensures Says(b, Think(b, content), [Thought(content)])
  {
    EnsureSilent(b);
    var b1 := EnsureThinking(b);
    EmitSays(b1, Think(b, content), BlockDelta(b1.thinkingIndex, ThinkingDelta, content));
    hide Says;
    SilentThen(b, b1, Think(b, content), [Thought(content)]);
  }

  lemma SaySays(b: Builder, content: string)
    ensures Says(b, Say(b, content), [Said(content)])
  {
    EnsureSilent(b);
    var b1 := EnsureText(b);
    EmitSays(b1, Say(b, content), BlockDelta(b1.textIndex, TextDelta, content));
    hide Says;
    SilentThen(b, b1, Say(b, content), [Said(content)]);
  }

  lemma OneShotSays(b: Builder, block: Block, delta: DeltaType, content: string)
    ensures Says(b, OneShotBlock(b, block, delta, content), SpokenBy(BlockDelta(b.nextIndex, delta, content)))
  {
    var b3 := OneShotBlock(b, block, delta, content);
    var e1, e2, e3 := BlockStart(b.nextIndex, block), BlockDelta(b.nextIndex, delta, content), BlockStop(b.nextIndex);
    var es := b.emitted;
    assert b3.emitted == es + [e1] + [e2] + [e3] && b3.nextIndex == b.nextIndex + 1;
    hide Says, Spoken, OneShotBlock;
    var b1 := b.(emitted := es + [e1], nextIndex := b.nextIndex + 1);
    var b2 := b1.(emitted := es + [e1] + [e2]);
    EmitSays(b, b1, e1);
    EmitSays(b1, b2, e2);
    EmitSays(b2, b3, e3);
    SilentThen(b, b1, b2, SpokenBy(e2));
    SaysThen(b, b2, b3, SpokenBy(e2), []);
    assert SpokenBy(e2) + [] == SpokenBy(e2);
  }

  lemma {:induction false} HeuristicToolsSilent(b: Builder, tools: seq<HeuristicTool>)
    ensures Says(b, HeuristicTools(b, tools), [])
  {
    if tools == [] {
      SaysNothing(b);
    } else {
      var front, tool := tools[..|tools| - 1], tools[|tools| - 1];
      HeuristicToolsSilent(b, front);
      var b1 := HeuristicTools(b, front);
      CloseContentSilent(b1);
      OneShotSays(CloseContent(b1), ToolBlock(tool.id, tool.name), InputJsonDelta, tool.input);
      hide Says;
      SilentThen(b, b1, CloseContent(b1), []);
      SilentThen(b, CloseContent(b1), HeuristicTools(b, tools), []);
    }
  }

  // Native tool calls say nothing.

  lemma SameEventsSilent(b: Builder, b': Builder)
    requires b'.emitted == b.emitted && b'.nextIndex == b.nextIndex
    ensures Says(b, b', [])
  {
  }

  lemma EmitToolArgsSilent(b: Builder, t: int, args: string, cfg: Config)
    requires t in b.tools
    ensures Says(b, EmitToolArgs(b, t, args, cfg).0, [])
  {
    hide Says;
    var b' := EmitToolArgs(b, t, args, cfg).0;
    if b'.emitted == b.emitted {
      SameEventsSilent(b, b');
    } else {
      var e := b'.emitted[|b.emitted|];
      assert b'.emitted == b.emitted + [e] && SpokenBy(e) == [];
      EmitSays(b, b', e);
    }
  }

  lemma StartIfNamedSilent(b: Builder, t: int, call: ToolCallDelta, cfg: Config)
    ensures Says(b, StartIfNamed(b, t, call, cfg).0, [])
  {
    hide Strip, ResolvedId, Says, EmitToolArgs, NameOf;
    var displayName := Strip(NameOf(b, t));
    if Started(b, t) || displayName == "" {
      SaysNothing(b);
    } else {
      var b1 := StartTool(b, t, ResolvedId(b, t, call), displayName);
      var b2 := PutTool(b1, t, b1.tools[t].(preStartArgs := ""));
      EmitSays(b, b1, BlockStart(b.nextIndex, ToolBlock(ResolvedId(b, t, call), displayName)));
      SameEventsSilent(b1, b2);
      SilentThen(b, b1, b2, []);
      EmitToolArgsSilent(b2, t, b1.tools[t].preStartArgs, cfg);
      SilentThen(b, b2, StartIfNamed(b, t, call, cfg).0, []);
    }
  }

  lemma TakeArgumentsSilent(b: Builder, t: int, args: string, cfg: Config)
    ensures Says(b, TakeArguments(b, t, args, cfg).0, [])
  {
    hide Strip, Says, EmitToolArgs, NameOf;
    var b1 := if Started(b, t) then b else EnsureTool(b, t);
    SameEventsSilent(b, b1);
    var b' := TakeArguments(b, t, args, cfg).0;
    if args != "" && (Started(b, t) || Strip(NameOf(b, t)) != "") {
      EmitToolArgsSilent(b1, t, args, cfg);
      SilentThen(b, b1, b', []);
    } else {
      SameEventsSilent(b, b');
    }
  }

  lemma IdentifiedSilent(b: Builder, t: int, call: ToolCallDelta)
    ensures Identified(b, t, call).emitted == b.emitted && Identified(b, t, call).nextIndex == b.nextIndex
  {
  }

  lemma ProcessToolCallSilent(b: Builder, call: ToolCallDelta, cfg: Config)
    ensures Says(b, ProcessToolCall(b, call, cfg).0, [])
  {
    hide Says, Identified, StartIfNamed, TakeArguments;
    var t := Target(b, call);
    var b1 := Identified(b, t, call);
    var b2 := StartIfNamed(b1, t, call, cfg).0;
    IdentifiedSilent(b, t, call);
    SameEventsSilent(b, b1);
    StartIfNamedSilent(b1, t, call, cfg);
    SilentThen(b, b1, b2, []);
    TakeArgumentsSilent(b2, t, call.arguments, cfg);
    SilentThen(b, b2, TakeArguments(b2, t, call.arguments, cfg).0, []);
  }

  // Runs.

  lemma StepSays(b: Builder, x: Input, cfg: Config)
    ensures Says(b, Step(b, x, cfg).0, Heard(x, cfg))
  {
    hide Says, Think, Say, HeuristicTools, CloseContent, ProcessToolCall;
    SaysNothing(b);
    match x
    case Reasoning(content) => ThinkSays(b, content);
    case ThinkingPart(content) => ThinkSays(b, content);
    case TextPart(filtered, tools) =>
      var b1 := if filtered != "" then Say(b, filtered) else b;
      SaySays(b, filtered);
      HeuristicToolsSilent(b1, tools);
      SaysThen(b, b1, HeuristicTools(b1, tools), Heard(x, cfg), []);
      assert Heard(x, cfg) + [] == Heard(x, cfg);
    case ToolCallsBegin => CloseContentSilent(b);
    case ToolCall(call) => ProcessToolCallSilent(b, call, cfg);
    case Unusable =>
  }

  /** No text or thinking is lost, doubled, reordered or relabelled on the way. */
  lemma {:induction false} RunSays(b: Builder, inputs: seq<Input>, cfg: Config)
    ensures Says(b, Run(b, inputs, cfg).0, HeardIn(b, inputs, cfg))
  {
    if inputs == [] {
      SaysNothing(b);
    } else {
      var front, x := inputs[..|inputs| - 1], inputs[|inputs| - 1];
      hide Says, Step, Heard;
      RunSays(b, front, cfg);
      var (b1, raised) := Run(b, front, cfg);
      if raised {
        assert HeardIn(b, front, cfg) + [] == HeardIn(b, front, cfg);
      } else {
        StepSays(b1, x, cfg);
        SaysThen(b, b1, Step(b1, x, cfg).0, HeardIn(b, front, cfg), Heard(x, cfg));
      }
    }
  }

  // Endings.

  /** What the text parsers held at the end. */
  function HeardLast(ending: Ending, cfg: Config): seq<Utterance>
    requires ending.Ends?
  {
    match ending.remaining
    case Some(ThinkingPart(content)) => if cfg.thinkingEnabled then [Thought(content)] else []
    case Some(TextPart(content, _)) => [Said(content)]
    case _ => []
  }

  /** A message without content, or with thinking alone, is given a blank text. */
  function Padding(b: Builder, ending: Ending, cfg: Config): seq<Utterance>
    requires ending.Ends?
  {
    var b1 := HeuristicTools(SayRemaining(b, ending, cfg), ending.tools);
    if !HasContent(b1) || OnlyReasoned(b1) then [Said(" ")] else []
  }

  lemma SayRemainingSays(b: Builder, ending: Ending, cfg: Config)
    requires ending.Ends?
    ensures Says(b, SayRemaining(b, ending, cfg), HeardLast(ending, cfg))
  {
    hide Says, Think, Say;
    SaysNothing(b);
    match ending.remaining
    case Some(ThinkingPart(content)) => ThinkSays(b, content);
    case Some(TextPart(content, _)) => SaySays(b, content);
    case _ =>
  }

  lemma PaddingSays(b: Builder, ending: Ending, cfg: Config)
    requires ending.Ends?
    ensures Says(HeuristicTools(SayRemaining(b, ending, cfg), ending.tools), Complete(b, ending, cfg),
                 Padding(b, ending, cfg))
  {
    hide Says, Say, SayRemaining, HeuristicTools, HasContent, OnlyReasoned;
    var b2 := HeuristicTools(SayRemaining(b, ending, cfg), ending.tools);
    SaySays(b2, " ");
    SaysNothing(b2);
  }

  lemma CompleteSays(b: Builder, ending: Ending, cfg: Config)
    requires ending.Ends?
    ensures Says(b, Complete(b, ending, cfg), HeardLast(ending, cfg) + Padding(b, ending, cfg))
  {
    hide Says, Complete, SayRemaining, HeuristicTools, HeardLast, Padding;
    var b1 := SayRemaining(b, ending, cfg);
    var b2 := HeuristicTools(b1, ending.tools);
    SayRemainingSays(b, ending, cfg);
    HeuristicToolsSilent(b1, ending.tools);
    SaysThen(b, b1, b2, HeardLast(ending, cfg), []);
    assert HeardLast(ending, cfg) + [] == HeardLast(ending, cfg);
    PaddingSays(b, ending, cfg);
    SaysThen(b, b2, Complete(b, ending, cfg), HeardLast(ending, cfg), Padding(b, ending, cfg));
  }

  lemma FlushOneSilent(b: Builder, t: int, cfg: Config)
    ensures var r := FlushOne(b, t, cfg.parse);
            r.Some? ==> Says(b, r.value, [])
  {
    hide Says;
    var r := FlushOne(b, t, cfg.parse);
    if r.Some? {
      if r.value.emitted == b.emitted {
        SameEventsSilent(b, r.value);
      } else {
        var e := r.value.emitted[|b.emitted|];
        assert r.value.emitted == b.emitted + [e] && SpokenBy(e) == [];
        EmitSays(b, r.value, e);
      }
    }
  }

  lemma {:induction false} FlushSilent(b: Builder, order: seq<int>, cfg: Config)
    ensures var r := FlushTaskArgs(b, order, cfg.parse);
            r.Some? ==> Says(b, r.value, [])
  {
    hide Says, FlushOne;
    if order == [] {
      SaysNothing(b);
    } else {
      var front, t := order[..|order| - 1], order[|order| - 1];
      FlushSilent(b, front, cfg);
      var r := FlushTaskArgs(b, front, cfg.parse);
      if r.Some? {
        FlushOneSilent(r.value, t, cfg);
        var r' := FlushOne(r.value, t, cfg.parse);
        if r'.Some? { SilentThen(b, r.value, r'.value, []); }
      }
    }
  }

  lemma {:induction false} StopToolsSilent(b: Builder, order: seq<int>)
    ensures Says(b, StopTools(b, order), [])
  {
    hide Says;
    if order == [] {
      SaysNothing(b);
    } else {
      var b1, t := StopTools(b, order[..|order| - 1]), order[|order| - 1];
      StopToolsSilent(b, order[..|order| - 1]);
      if t in b1.tools && b1.tools[t].started {
        EmitSays(b1, StopTool(b1, t), BlockStop(b1.tools[t].blockIndex));
        SilentThen(b, b1, StopTool(b1, t), []);
      }
    }
  }

  lemma CloseAllSilent(b: Builder)
    ensures Says(b, CloseAll(b), [])
  {
    hide Says, CloseContent, StopTools;
    CloseContentSilent(b);
    StopToolsSilent(CloseContent(b), b.order);
    SilentThen(b, CloseContent(b), CloseAll(b), []);
  }

  lemma CloseSilent(b: Builder, stopReason: string, tokens: int)
    ensures Says(b, Close(b, stopReason, tokens), [])
  {
    var b1 := Emit(b, MessageDelta(stopReason, tokens));
    EmitSays(b, b1, MessageDelta(stopReason, tokens));
    EmitSays(b1, Emit(b1, MessageStop), MessageStop);
    hide Says;
    SilentThen(b, b1, Close(b, stopReason, tokens), []);
  }

  lemma ClosingSilent(b: Builder, ending: Ending, finishReason: string, cfg: Config)
    requires ending.Ends? && Finish(b, ending, finishReason, cfg).Some?
    ensures Says(Complete(b, ending, cfg), Finish(b, ending, finishReason, cfg).value, [])
  {
    hide Says, Complete, FlushTaskArgs, CloseAll, Close;
    var b1 := Complete(b, ending, cfg);
    FlushSilent(b1, b1.order, cfg);
    var b2 := FlushTaskArgs(b1, b1.order, cfg.parse).value;
    CloseAllSilent(b2);
    SilentThen(b1, b2, CloseAll(b2), []);
    CloseSilent(CloseAll(b2), MapStopReason(finishReason), ending.outputTokens);
    SilentThen(b1, CloseAll(b2), Finish(b, ending, finishReason, cfg).value, []);
  }

  lemma FinishSays(b: Builder, ending: Ending, finishReason: string, cfg: Config)
    requires ending.Ends? && Finish(b, ending, finishReason, cfg).Some?
    ensures Says(b, Finish(b, ending, finishReason, cfg).value, HeardLast(ending, cfg) + Padding(b, ending, cfg))
  {
    hide Says, Complete, Finish, HeardLast, Padding;
    var said := HeardLast(ending, cfg) + Padding(b, ending, cfg);
    CompleteSays(b, ending, cfg);
    ClosingSilent(b, ending, finishReason, cfg);
    SaysThen(b, Complete(b, ending, cfg), Finish(b, ending, finishReason, cfg).value, said, []);
    assert said + [] == said;
  }

  lemma FailSays(b: Builder, message: string)
    ensures Says(b, Fail(b, message), if HasStartedTool(CloseAll(b)) then [] else [Said(message)])
  {
    hide Says, CloseAll, Close, OneShotBlock;
    var b1 := CloseAll(b);
    CloseAllSilent(b);
    var b2 := if HasStartedTool(b1) then Emit(b1, Error(message)) else OneShotBlock(b1, PlainBlock(TextType), TextDelta, message);
    var said := if HasStartedTool(b1) then [] else [Said(message)];
    if HasStartedTool(b1) { EmitSays(b1, b2, Error(message)); } else { OneShotSays(b1, PlainBlock(TextType), TextDelta, message); }
    SilentThen(b, b1, b2, said);
    CloseSilent(b2, "end_turn", 1);
    SaysThen(b, b2, Fail(b, message), said, []);
    assert said + [] == said;
  }

  /** What the ending adds: the held text and padding, or the error message unless a native tool block was started. */
  function Closing(b: Builder, raised: bool, ending: Ending, message: string, cfg: Config): seq<Utterance> {
    if raised || ending.Fails? then (if HasStartedTool(CloseAll(b)) then [] else [Said(message)])
    else HeardLast(ending, cfg) + Padding(b, ending, cfg)
  }

  lemma BeginSilent(id: string, model: string)
    ensures var b := Begin(id, model);
            Spoken(b.emitted) == [] && Numbered(b) && b.emitted != [] && b.emitted[0] == MessageStart(id, model)
  {
    assert Begin(id, model).emitted == [] + [MessageStart(id, model)];
    SpokenSilent([], MessageStart(id, model));
    NumberedSnoc([], MessageStart(id, model));
  }

  lemma FromSilence(b0: Builder, b: Builder, said: seq<Utterance>)
    requires Says(b0, b, said) && Spoken(b0.emitted) == []
    ensures Spoken(b.emitted) == said
  {
    assert [] + said == said;
  }

  lemma EndingSays(id: string, model: string, inputs: seq<Input>, ending: Ending, finishReason: string,
                   message: string, cfg: Config)
    requires Transcript(id, model, inputs, ending, finishReason, message, cfg).Some?
    ensures var (b, raised) := Run(Begin(id, model), inputs, cfg);
            Says(b, Transcript(id, model, inputs, ending, finishReason, message, cfg).value,
                 Closing(b, raised, ending, message, cfg))
  {
    hide Says, Begin, Run, Finish, Fail, HeardLast, Padding, CloseAll, HasStartedTool;
    var (b, raised) := Run(Begin(id, model), inputs, cfg);
    if raised || ending.Fails? { FailSays(b, message); } else { FinishSays(b, ending, finishReason, cfg); }
  }

  lemma TranscriptTold(id: string, model: string, inputs: seq<Input>, ending: Ending, finishReason: string,
                       message: string, cfg: Config)
    requires Transcript(id, model, inputs, ending, finishReason, message, cfg).Some?
    ensures var b0 := Begin(id, model);
            var (b, raised) := Run(b0, inputs, cfg);
            Says(b0, Transcript(id, model, inputs, ending, finishReason, message, cfg).value,
                 HeardIn(b0, inputs, cfg) + Closing(b, raised, ending, message, cfg))
  {
    hide Says, Run, Closing, HeardIn, Transcript, Begin;
    var b0 := Begin(id, model);
    var (b, raised) := Run(b0, inputs, cfg);
    RunSays(b0, inputs, cfg);
    EndingSays(id, model, inputs, ending, finishReason, message, cfg);
    SaysThen(b0, b, Transcript(id, model, inputs, ending, finishReason, message, cfg).value,
             HeardIn(b0, inputs, cfg), Closing(b, raised, ending, message, cfg));
  }

  /** The whole stream says what the inputs said until the end or the first exception, then what the ending adds. */
  lemma TranscriptSays(id: string, model: string, inputs: seq<Input>, ending: Ending, finishReason: string,
                       message: string, cfg: Config)
    requires Transcript(id, model, inputs, ending, finishReason, message, cfg).Some?
    ensures var b0 := Begin(id, model);
            var (b, raised) := Run(b0, inputs, cfg);
            Spoken(Transcript(id, model, inputs, ending, finishReason, message, cfg).value.emitted)
            == HeardIn(b0, inputs, cfg) + Closing(b, raised, ending, message, cfg)
  {
    var b0 := Begin(id, model);
    var (b, raised) := Run(b0, inputs, cfg);
    BeginSilent(id, model);
    TranscriptTold(id, model, inputs, ending, finishReason, message, cfg);
    hide Says, Spoken, Run, Closing, HeardIn, Transcript, Begin;
    FromSilence(b0, Transcript(id, model, inputs, ending, finishReason, message, cfg).value,
                HeardIn(b0, inputs, cfg) + Closing(b, raised, ending, message, cfg));
  }

  /** The stream opens with its message start, and its blocks are started with the indices 0, 1, 2, ... */
  lemma TranscriptIsNumbered(id: string, model: string, inputs: seq<Input>, ending: Ending, finishReason: string,
                             message: string, cfg: Config)
    requires Transcript(id, model, inputs, ending, finishReason, message, cfg).Some?
    ensures var es := Transcript(id, model, inputs, ending, finishReason, message, cfg).value.emitted;
            es != [] && es[0] == MessageStart(id, model) && StartsNumbered(es)
  {
    BeginSilent(id, model);
    TranscriptTold(id, model, inputs, ending, finishReason, message, cfg);
    hide Run, Closing, HeardIn, Transcript, Begin;
  }
}
