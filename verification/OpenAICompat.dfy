/**
  The translator from OpenAI chat completion chunks to Anthropic events (providers/openai_compat.py).
 */
module OpenAICompat {
  import opened Prelude
  import opened Strings
  import opened StreamContract
  import opened SseBuilder

  /** A tool call found in plain text; `input` is its printed arguments. */
  datatype HeuristicTool = HeuristicTool(id: string, name: string, input: string)

  /** One fragment of a native tool call; `freshId` is the identifier to use should none ever arrive. */
  datatype ToolCallDelta = ToolCallDelta(index: int, id: Option<string>, name: Option<string>, arguments: string,
                                         freshId: string)

  /**
    The smallest steps of the stream loop. Text parts carry what the heuristic parser made of them.
    Unusable stands for any piece of a chunk whose handling raises.
   */
  datatype Input =
    | Reasoning(content: string)
    | ThinkingPart(content: string)
    | TextPart(filtered: string, tools: seq<HeuristicTool>)
    | ToolCallsBegin
    | ToolCall(call: ToolCallDelta)
    | Unusable

  /** The delta of one chunk; empty strings stand for absent fields. */
  datatype Chunk = Chunk(finishReason: string, reasoning: string, parts: seq<Input>, toolCalls: seq<ToolCallDelta>)

  datatype Config = Config(thinkingEnabled: bool, parse: string -> TaskArgs)

  /** How the upstream ends: normally, with what the two text parsers still held, or with an exception. */
  datatype Ending =
    | Ends(remaining: Option<Input>, tools: seq<HeuristicTool>, outputTokens: int)
    | Fails

  function ToolCallInputs(calls: seq<ToolCallDelta>): seq<Input> {
    seq(|calls|, k requires 0 <= k < |calls| => ToolCall(calls[k]))
  }

  /** The steps of one chunk, in the order in which the loop takes them. */
  function InputsOf(c: Chunk): seq<Input> {
    (if c.reasoning != "" then [Reasoning(c.reasoning)] else [])
    + c.parts
    + (if c.toolCalls != [] then [ToolCallsBegin] + ToolCallInputs(c.toolCalls) else [])
  }

  function AllInputs(chunks: seq<Chunk>): seq<Input> {
    if chunks == [] then [] else AllInputs(chunks[..|chunks| - 1]) + InputsOf(chunks[|chunks| - 1])
  }

  function FinishReason(chunks: seq<Chunk>): string {
    if chunks == [] then ""
    else if chunks[|chunks| - 1].finishReason != "" then chunks[|chunks| - 1].finishReason
    else FinishReason(chunks[..|chunks| - 1])
  }

  function Think(b: Builder, content: string): Builder {
    ThinkingDeltaOf(EnsureThinking(b), content)
  }

  function Say(b: Builder, content: string): Builder {
    TextDeltaOf(EnsureText(b), content)
  }

  function HeuristicTools(b: Builder, tools: seq<HeuristicTool>): Builder {
    if tools == [] then b
    else
      var tool := tools[|tools| - 1];
      OneShotBlock(CloseContent(HeuristicTools(b, tools[..|tools| - 1])),
                   ToolBlock(tool.id, tool.name), InputJsonDelta, tool.input)
  }

  /** Arguments of a started tool: Task arguments are buffered, all others passed on. Second result: raised. */
  function EmitToolArgs(b: Builder, t: int, args: string, cfg: Config): (Builder, bool)
    requires t in b.tools
  {
    if args == "" then (b, false)
    else if b.tools[t].name == "Task" then BufferTaskArgs(b, t, args, cfg.parse)
    else (ToolDelta(b, t, args), false)
  }

  /** The tool a fragment belongs to; a negative index means a new one. */
  function Target(b: Builder, call: ToolCallDelta): int {
    if call.index < 0 then |b.tools| else call.index
  }

  function Identified(b: Builder, t: int, call: ToolCallDelta): Builder {
    var b1 := if call.id.Some? then SetToolId(b, t, call.id.value) else b;
    if call.name.Some? then RegisterName(b1, t, call.name.value) else b1
  }

  function NameOf(b: Builder, t: int): string {
    if t in b.tools then b.tools[t].name else ""
  }

  predicate Started(b: Builder, t: int) {
    t in b.tools && b.tools[t].started
  }

  function ResolvedId(b: Builder, t: int, call: ToolCallDelta): string {
    if t in b.tools && b.tools[t].toolId != "" then b.tools[t].toolId
    else if call.id.Some? && call.id.value != "" then call.id.value
    else call.freshId
  }

  /** Once the name is known the block is started and the arguments received before are passed on. */
  function StartIfNamed(b: Builder, t: int, call: ToolCallDelta, cfg: Config): (Builder, bool) {
    var displayName := Strip(NameOf(b, t));
    if Started(b, t) || displayName == "" then (b, false)
    else
      var b1 := StartTool(b, t, ResolvedId(b, t, call), displayName);
      var pre := b1.tools[t].preStartArgs;
      EmitToolArgs(PutTool(b1, t, b1.tools[t].(preStartArgs := "")), t, pre, cfg)
  }

  function TakeArguments(b: Builder, t: int, args: string, cfg: Config): (Builder, bool) {
    if args == "" then (b, false)
    else
      var b1 := if Started(b, t) then b else EnsureTool(b, t);
      if !Started(b, t) && Strip(NameOf(b, t)) == "" then
        (PutTool(b1, t, b1.tools[t].(preStartArgs := b1.tools[t].preStartArgs + args)), false)
      else
        EmitToolArgs(b1, t, args, cfg)
  }

  function ProcessToolCall(b: Builder, call: ToolCallDelta, cfg: Config): (Builder, bool) {
    var t := Target(b, call);
    var (b1, raised) := StartIfNamed(Identified(b, t, call), t, call, cfg);
    if raised then (b1, true) else TakeArguments(b1, t, call.arguments, cfg)
  }

  /** One step. Second result: an exception was raised. */
  function Step(b: Builder, x: Input, cfg: Config): (Builder, bool) {
    match x
    case Reasoning(content) => (if cfg.thinkingEnabled then Think(b, content) else b, false)
    case ThinkingPart(content) => (if cfg.thinkingEnabled then Think(b, content) else b, false)
    case TextPart(filtered, tools) =>
      (HeuristicTools(if filtered != "" then Say(b, filtered) else b, tools), false)
    case ToolCallsBegin => (CloseContent(b), false)
    case ToolCall(call) => ProcessToolCall(b, call, cfg)
    case Unusable => (b, true)
  }

  /** Steps until the first exception. */
  function Run(b: Builder, inputs: seq<Input>, cfg: Config): (Builder, bool) {
    if inputs == [] then (b, false)
    else
      var (b1, raised) := Run(b, inputs[..|inputs| - 1], cfg);
      if raised then (b1, true) else Step(b1, inputs[|inputs| - 1], cfg)
  }

  predicate HasContent(b: Builder) {
    b.textIndex != -1 || b.thinkingIndex != -1 || HasStartedTool(b)
  }

  predicate OnlyReasoned(b: Builder) {
    !HasStartedTool(b) && Strip(Flatten(b.text)) == "" && Strip(Flatten(b.reasoning)) != ""
  }

  function SayRemaining(b: Builder, ending: Ending, cfg: Config): Builder
    requires ending.Ends?
  {
    match ending.remaining
    case Some(ThinkingPart(content)) => if cfg.thinkingEnabled then Think(b, content) else b
    case Some(TextPart(content, _)) => Say(b, content)
    case _ => b
  }

  /** What the text parsers still held goes out; a message without content or text gets a minimal text block. */
  function Complete(b: Builder, ending: Ending, cfg: Config): Builder
    requires ending.Ends?
  {
    var b1 := HeuristicTools(SayRemaining(b, ending, cfg), ending.tools);
    if !HasContent(b1) || OnlyReasoned(b1) then Say(b1, " ") else b1
  }

  function Close(b: Builder, stopReason: string, outputTokens: int): Builder {
    Emit(Emit(b, MessageDelta(stopReason, outputTokens)), MessageStop)
  }

  /** The normal end. None: an exception escapes while Task arguments are flushed. */
  function Finish(b: Builder, ending: Ending, finishReason: string, cfg: Config): Option<Builder>
    requires ending.Ends?
  {
    var b1 := Complete(b, ending, cfg);
    match FlushTaskArgs(b1, b1.order, cfg.parse)
    case None => None
    case Some(b2) => Some(Close(CloseAll(b2), MapStopReason(finishReason), ending.outputTokens))
  }

  /** The end after an exception: after a native tool block the error is not assistant text. */
  function Fail(b: Builder, message: string): Builder {
    var b1 := CloseAll(b);
    Close(if HasStartedTool(b1) then Emit(b1, Error(message))
          else OneShotBlock(b1, PlainBlock(TextType), TextDelta, message),
          "end_turn", 1)
  }

  function Begin(id: string, model: string): Builder {
    Emit(FreshBuilder, MessageStart(id, model))
  }

  /** Everything sent for a run of inputs and an ending; None if an exception escapes. */
  function Transcript(id: string, model: string, inputs: seq<Input>, ending: Ending, finishReason: string,
                      message: string, cfg: Config): Option<Builder> {
    var (b, raised) := Run(Begin(id, model), inputs, cfg);
    if raised || ending.Fails? then Some(Fail(b, message)) else Finish(b, ending, finishReason, cfg)
  }

  // ---------------------------------------------------------------------------------------------
  // The code itself.

  method DoThink(sse: SSEBuilder, content: string)
    modifies sse
    ensures sse.State() == Think(old(sse.State()), content)
  {
    sse.EnsureThinkingBlock();
    sse.EmitThinkingDelta(content);
  }

  method DoSay(sse: SSEBuilder, content: string)
    modifies sse
    ensures sse.State() == Say(old(sse.State()), content)
  {
    sse.EnsureTextBlock();
    sse.EmitTextDelta(content);
  }

  method DoHeuristicTools(sse: SSEBuilder, tools: seq<HeuristicTool>)
    modifies sse
    ensures sse.State() == HeuristicTools(old(sse.State()), tools)
  {
    assert tools[..|tools|] == tools && HeuristicTools(sse.State(), tools[..0]) == sse.State();
    hide HeuristicTools, CloseContent, OneShotBlock;
    for k := 0 to |tools|
      invariant sse.State() == HeuristicTools(old(sse.State()), tools[..k])
    {
      HeuristicNext(old(sse.State()), tools, k);
      sse.CloseContentBlocks();
      sse.EmitOneShotBlock(ToolBlock(tools[k].id, tools[k].name), InputJsonDelta, tools[k].input);
    }
  }

  lemma HeuristicNext(b: Builder, tools: seq<HeuristicTool>, k: nat)
    requires k < |tools|
    ensures HeuristicTools(b, tools[..k + 1]) ==
            OneShotBlock(CloseContent(HeuristicTools(b, tools[..k])),
                         ToolBlock(tools[k].id, tools[k].name), InputJsonDelta, tools[k].input)
  {
    hide CloseContent, OneShotBlock;
    assert tools[..k + 1][..k] == tools[..k];
  }

  method DoEmitToolArgs(sse: SSEBuilder, t: int, args: string, cfg: Config) returns (raised: bool)
    requires t in sse.tools
    modifies sse
    ensures (sse.State(), raised) == EmitToolArgs(old(sse.State()), t, args, cfg)
  {
    raised := false;
    if args == "" { return; }
    if sse.tools[t].name == "Task" {
      raised := sse.EmitTaskArgs(t, args, cfg.parse);
    } else {
      sse.EmitToolDelta(t, args);
    }
  }

  method DoIdentify(sse: SSEBuilder, t: int, call: ToolCallDelta)
    modifies sse
    ensures sse.State() == Identified(old(sse.State()), t, call)
  {
    if call.id.Some? { sse.SetStreamToolId(t, call.id.value); }
    if call.name.Some? { sse.RegisterToolName(t, call.name.value); }
  }

  method DoStartIfNamed(sse: SSEBuilder, t: int, call: ToolCallDelta, cfg: Config) returns (raised: bool)
    modifies sse
    ensures (sse.State(), raised) == StartIfNamed(old(sse.State()), t, call, cfg)
  {
    hide BufferTaskArgs, ToolDelta;
    raised := false;
    var resolvedId := if t in sse.tools && sse.tools[t].toolId != "" then sse.tools[t].toolId
                      else if call.id.Some? then call.id.value else "";
    var resolvedName := if t in sse.tools then sse.tools[t].name else "";
    if !(t in sse.tools && sse.tools[t].started) && Strip(resolvedName) != "" {
      sse.StartToolBlock(t, if resolvedId != "" then resolvedId else call.freshId, Strip(resolvedName));
      var pre := sse.tools[t].preStartArgs;
      sse.PutToolState(t, sse.tools[t].(preStartArgs := ""));
      raised := DoEmitToolArgs(sse, t, pre, cfg);
    }
  }

  method DoProcessToolCall(sse: SSEBuilder, call: ToolCallDelta, cfg: Config) returns (raised: bool)
    modifies sse
    ensures (sse.State(), raised) == ProcessToolCall(old(sse.State()), call, cfg)
  {
    hide Identified, StartIfNamed, TakeArguments;
    var t := if call.index < 0 then |sse.tools| else call.index;
    DoIdentify(sse, t, call);
    raised := DoStartIfNamed(sse, t, call, cfg);
    if raised { return; }
    raised := DoTakeArguments(sse, t, call.arguments, cfg);
  }

  method DoTakeArguments(sse: SSEBuilder, t: int, args: string, cfg: Config) returns (raised: bool)
    modifies sse
    ensures (sse.State(), raised) == TakeArguments(old(sse.State()), t, args, cfg)
  {
    raised := false;
    if args == "" { return; }
    if !(t in sse.tools && sse.tools[t].started) {
      var name := if t in sse.tools then sse.tools[t].name else "";
      sse.EnsureToolState(t);
      if Strip(name) == "" {
        sse.PutToolState(t, sse.tools[t].(preStartArgs := sse.tools[t].preStartArgs + args));
        return;
      }
    }
    raised := DoEmitToolArgs(sse, t, args, cfg);
  }

  method DoStep(sse: SSEBuilder, x: Input, cfg: Config) returns (raised: bool)
    modifies sse
    ensures (sse.State(), raised) == Step(old(sse.State()), x, cfg)
  {
    raised := false;
    match x {
      case Reasoning(content) => if cfg.thinkingEnabled { DoThink(sse, content); }
      case ThinkingPart(content) => if cfg.thinkingEnabled { DoThink(sse, content); }
      case TextPart(filtered, tools) =>
        if filtered != "" { DoSay(sse, filtered); }
        DoHeuristicTools(sse, tools);
      case ToolCallsBegin => sse.CloseContentBlocks();
      case ToolCall(call) => raised := DoProcessToolCall(sse, call, cfg);
      case Unusable => raised := true;
    }
  }

  lemma RunSnoc(b: Builder, inputs: seq<Input>, x: Input, cfg: Config)
    ensures Run(b, inputs + [x], cfg) ==
            var (b1, raised) := Run(b, inputs, cfg);
            if raised then (b1, true) else Step(b1, x, cfg)
  {
    assert (inputs + [x])[..|inputs|] == inputs;
  }

  lemma {:induction false} RunConcat(b: Builder, xs: seq<Input>, ys: seq<Input>, cfg: Config)
    ensures Run(b, xs + ys, cfg) ==
            var (b1, raised) := Run(b, xs, cfg);
            if raised then (b1, true) else Run(b1, ys, cfg)
    decreases |ys|
  {
    hide Step;
    if ys == [] {
      assert xs + ys == xs;
    } else {
      var y := ys[|ys| - 1];
      RunConcat(b, xs, ys[..|ys| - 1], cfg);
      assert xs + ys == (xs + ys[..|ys| - 1]) + [y];
      RunSnoc(b, xs + ys[..|ys| - 1], y, cfg);
    }
  }

  method DoInputs(sse: SSEBuilder, inputs: seq<Input>, cfg: Config) returns (raised: bool)
    modifies sse
    ensures (sse.State(), raised) == Run(old(sse.State()), inputs, cfg)
  {
    raised := false;
    for k := 0 to |inputs|
      invariant (sse.State(), false) == Run(old(sse.State()), inputs[..k], cfg)
    {
      hide Step;
      assert inputs[..k + 1] == inputs[..k] + [inputs[k]];
      RunSnoc(old(sse.State()), inputs[..k], inputs[k], cfg);
      raised := DoStep(sse, inputs[k], cfg);
      if raised {
        assert inputs == inputs[..k + 1] + inputs[k + 1..];
        RunConcat(old(sse.State()), inputs[..k + 1], inputs[k + 1..], cfg);
        return;
      }
    }
    assert inputs[..|inputs|] == inputs;
  }

  method DoRemaining(sse: SSEBuilder, ending: Ending, cfg: Config)
    requires ending.Ends?
    modifies sse
    ensures sse.State() == HeuristicTools(SayRemaining(old(sse.State()), ending, cfg), ending.tools)
  {
    hide HeuristicTools;
    match ending.remaining {
      case Some(ThinkingPart(content)) => if cfg.thinkingEnabled { DoThink(sse, content); }
      case Some(TextPart(content, _)) => DoSay(sse, content);
      case _ =>
    }
    DoHeuristicTools(sse, ending.tools);
  }

  method DoComplete(sse: SSEBuilder, ending: Ending, cfg: Config)
    requires ending.Ends?
    modifies sse
    ensures sse.State() == Complete(old(sse.State()), ending, cfg)
  {
    hide HeuristicTools, SayRemaining, Say;
    DoRemaining(sse, ending, cfg);
    var hasStartedTool := exists t :: t in sse.tools && sse.tools[t].started;
    var hasContentBlocks := sse.textIndex != -1 || sse.thinkingIndex != -1 || hasStartedTool;
    if !hasContentBlocks
       || (!hasStartedTool && Strip(Flatten(sse.text)) == "" && Strip(Flatten(sse.reasoning)) != "") {
      DoSay(sse, " ");
    }
  }

  /** The stream loop. `escaped` reports an exception that leaves the generator. */
  method StreamResponse(id: string, model: string, chunks: seq<Chunk>, ending: Ending, errorMessage: string,
                        cfg: Config)
    returns (out: seq<Event>, escaped: bool)
    ensures var r := Transcript(id, model, AllInputs(chunks), ending, FinishReason(chunks), errorMessage, cfg);
            (escaped <==> r.None?) && (!escaped ==> out == r.value.emitted)
  {
    var sse := new SSEBuilder();
    sse.Yield(MessageStart(id, model));
    escaped := false;
    var raised, finishReason := false, "";
    var k := 0;
    assert AllInputs(chunks[..0]) == [] && FinishReason(chunks[..0]) == "";
    hide Run, Step, Finish, Fail, Begin, AllInputs, FinishReason, InputsOf;
    ghost var begun := Begin(id, model);
    assert sse.State() == begun by { BeginIs(id, model); }
    RunNothing(begun, cfg);
    while k < |chunks| && !raised
      invariant 0 <= k <= |chunks|
      invariant (sse.State(), raised) == Run(begun, AllInputs(chunks[..k]), cfg)
      invariant !raised ==> finishReason == FinishReason(chunks[..k])
      decreases |chunks| - k, !raised
    {
      ChunkSnoc(chunks, k);
      if chunks[k].finishReason != "" { finishReason := chunks[k].finishReason; }
      RunConcat(begun, AllInputs(chunks[..k]), InputsOf(chunks[k]), cfg);
      raised := DoInputs(sse, InputsOf(chunks[k]), cfg);
      k := k + 1;
    }
    if raised { RaisedForGood(begun, chunks, k, cfg); }
    assert !raised ==> chunks[..k] == chunks;
    if raised || ending.Fails? {
      DoFail(sse, errorMessage);
    } else {
      escaped := DoFinish(sse, ending, finishReason, cfg);
    }
    out := sse.emitted;
  }

  lemma ChunkSnoc(chunks: seq<Chunk>, k: nat)
    requires k < |chunks|
    ensures AllInputs(chunks[..k + 1]) == AllInputs(chunks[..k]) + InputsOf(chunks[k])
    ensures FinishReason(chunks[..k + 1]) ==
            if chunks[k].finishReason != "" then chunks[k].finishReason else FinishReason(chunks[..k])
  {
    assert chunks[..k + 1][..k] == chunks[..k];
  }

  lemma BeginIs(id: string, model: string)
    ensures Begin(id, model) == Emit(FreshBuilder, MessageStart(id, model))
  {
  }

  lemma RunNothing(b: Builder, cfg: Config)
    ensures Run(b, [], cfg) == (b, false)
  {
  }

  lemma RaisedForGood(b: Builder, chunks: seq<Chunk>, k: nat, cfg: Config)
    requires k <= |chunks| && Run(b, AllInputs(chunks[..k]), cfg).1
    ensures Run(b, AllInputs(chunks), cfg) == Run(b, AllInputs(chunks[..k]), cfg)
    decreases |chunks| - k
  {
    hide Run;
    if k < |chunks| {
      ChunkSnoc(chunks, k);
      RunConcat(b, AllInputs(chunks[..k]), InputsOf(chunks[k]), cfg);
      RaisedForGood(b, chunks, k + 1, cfg);
    } else {
      assert chunks[..k] == chunks;
    }
  }

  method DoFail(sse: SSEBuilder, errorMessage: string)
    modifies sse
    ensures sse.State() == Fail(old(sse.State()), errorMessage)
  {
    sse.CloseAllBlocks();
    if exists t :: t in sse.tools && sse.tools[t].started {
      sse.Yield(Error(errorMessage));
    } else {
      sse.EmitOneShotBlock(PlainBlock(TextType), TextDelta, errorMessage);
    }
    sse.Yield(MessageDelta("end_turn", 1));
    sse.Yield(MessageStop);
  }

  method DoFinish(sse: SSEBuilder, ending: Ending, finishReason: string, cfg: Config) returns (escaped: bool)
    requires ending.Ends?
    modifies sse
    ensures escaped <==> Finish(old(sse.State()), ending, finishReason, cfg).None?
    ensures !escaped ==> Some(sse.State()) == Finish(old(sse.State()), ending, finishReason, cfg)
  {
    DoComplete(sse, ending, cfg);
    hide Complete;
    var ok := sse.FlushTaskArgBuffers(cfg.parse);
    if !ok { return true; }
    sse.CloseAllBlocks();
    sse.Yield(MessageDelta(MapStopReason(finishReason), ending.outputTokens));
    sse.Yield(MessageStop);
    escaped := false;
  }
}
