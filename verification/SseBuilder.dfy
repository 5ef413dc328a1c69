/**
  The builder of Anthropic events (core/anthropic/sse.py): block indices, open blocks, streamed tool calls
  and the buffering of Task arguments. `emitted` is everything yielded so far.
 */
module SseBuilder {
  import opened Prelude
  import opened Strings
  import opened StreamContract

  /** What JSON decoding makes of a text of Task arguments; an object is printed again in the foreground form. */
  datatype TaskArgs = Invalid | NotAnObject | Object(foreground: string)

  datatype ToolCallState = ToolCallState(
    blockIndex: int,
    toolId: string,
    name: string,
    contents: seq<string>,
    started: bool,
    taskArgBuffer: string,
    taskArgsEmitted: bool,
    preStartArgs: string)

  function NewToolState(name: string): ToolCallState {
    ToolCallState(-1, "", name, [], false, "", false, "")
  }

  /** `order` is the insertion order of the dictionary `tools`. */
  datatype Builder = Builder(
    nextIndex: nat,
    thinkingIndex: int,
    textIndex: int,
    thinkingStarted: bool,
    textStarted: bool,
    order: seq<int>,
    tools: map<int, ToolCallState>,
    text: seq<string>,
    reasoning: seq<string>,
    emitted: seq<Event>)

  const FreshBuilder: Builder := Builder(0, -1, -1, false, false, [], map[], [], [], [])

  function ToolBlock(id: string, name: string): Block {
    Block(ToolUseType, "", Some(id), Some(name), Some("{}"))
  }

  function MapStopReason(openaiReason: string): string {
    if openaiReason == "length" then "max_tokens"
    else if openaiReason == "tool_calls" then "tool_use"
    else "end_turn"
  }

  function Emit(b: Builder, e: Event): Builder {
    b.(emitted := b.emitted + [e])
  }

  function StartThinking(b: Builder): Builder {
    Emit(b.(thinkingIndex := b.nextIndex, thinkingStarted := true, nextIndex := b.nextIndex + 1),
         BlockStart(b.nextIndex, PlainBlock(ThinkingType)))
  }

  function StopThinking(b: Builder): Builder {
    Emit(b.(thinkingStarted := false), BlockStop(b.thinkingIndex))
  }

  function StartText(b: Builder): Builder {
    Emit(b.(textIndex := b.nextIndex, textStarted := true, nextIndex := b.nextIndex + 1),
         BlockStart(b.nextIndex, PlainBlock(TextType)))
  }

  function StopText(b: Builder): Builder {
    Emit(b.(textStarted := false), BlockStop(b.textIndex))
  }

  function EnsureThinking(b: Builder): Builder {
    var b1 := if b.textStarted then StopText(b) else b;
    if b1.thinkingStarted then b1 else StartThinking(b1)
  }

  function EnsureText(b: Builder): Builder {
    var b1 := if b.thinkingStarted then StopThinking(b) else b;
    if b1.textStarted then b1 else StartText(b1)
  }

  function ThinkingDeltaOf(b: Builder, content: string): Builder {
    Emit(b.(reasoning := b.reasoning + [content]), BlockDelta(b.thinkingIndex, ThinkingDelta, content))
  }

  function TextDeltaOf(b: Builder, content: string): Builder {
    Emit(b.(text := b.text + [content]), BlockDelta(b.textIndex, TextDelta, content))
  }

  function CloseContent(b: Builder): Builder {
    var b1 := if b.thinkingStarted then StopThinking(b) else b;
    if b1.textStarted then StopText(b1) else b1
  }

  /** A block that is started, filled by one delta and stopped at once, on a fresh index. */
  function OneShotBlock(b: Builder, block: Block, delta: DeltaType, content: string): Builder {
    b.(nextIndex := b.nextIndex + 1,
       emitted := b.emitted + OneShot(b.nextIndex, block, delta, content))
  }

  /** Set a dictionary entry; a new key goes to the end. */
  function PutTool(b: Builder, t: int, s: ToolCallState): Builder {
    b.(order := if t in b.tools then b.order else b.order + [t], tools := b.tools[t := s])
  }

  function EnsureTool(b: Builder, t: int): Builder {
    if t in b.tools then b else PutTool(b, t, NewToolState(""))
  }

  function SetToolId(b: Builder, t: int, id: string): Builder {
    if id == "" then b
    else
      var b1 := EnsureTool(b, t);
      PutTool(b1, t, b1.tools[t].(toolId := id))
  }

  /** Name fragments extend the name, repeat it, or are already part of it. */
  function MergeName(prev: string, name: string): string {
    if prev == "" || StartsWith(name, prev) then name
    else if StartsWith(prev, name) then prev
    else prev + name
  }

  function RegisterName(b: Builder, t: int, name: string): Builder {
    if t in b.tools
    then PutTool(b, t, b.tools[t].(name := MergeName(b.tools[t].name, name)))
    else PutTool(b, t, NewToolState(name))
  }

  function StartTool(b: Builder, t: int, id: string, displayName: string): Builder {
    var s := if t in b.tools then b.tools[t].(blockIndex := b.nextIndex, toolId := id, started := true)
             else NewToolState(displayName).(blockIndex := b.nextIndex, toolId := id, started := true);
    Emit(PutTool(b, t, s).(nextIndex := b.nextIndex + 1), BlockStart(b.nextIndex, ToolBlock(id, displayName)))
  }

  function ToolDelta(b: Builder, t: int, partialJson: string): Builder
    requires t in b.tools
  {
    var s := b.tools[t];
    Emit(PutTool(b, t, s.(contents := s.contents + [partialJson])),
         BlockDelta(s.blockIndex, InputJsonDelta, partialJson))
  }

  function StopTool(b: Builder, t: int): Builder
    requires t in b.tools
  {
    Emit(b, BlockStop(b.tools[t].blockIndex))
  }

  /** Stop the started tool blocks among `order`. */
  function StopTools(b: Builder, order: seq<int>): Builder {
    if order == [] then b
    else
      var b1 := StopTools(b, order[..|order| - 1]);
      var t := order[|order| - 1];
      if t in b1.tools && b1.tools[t].started then StopTool(b1, t) else b1
  }

  lemma StopNext(b: Builder, order: seq<int>, k: nat)
    requires k < |order|
    ensures StopTools(b, order[..k + 1]) ==
            var b1 := StopTools(b, order[..k]);
            if order[k] in b1.tools && b1.tools[order[k]].started then StopTool(b1, order[k]) else b1
  {
    assert order[..k + 1][..k] == order[..k];
  }

  function CloseAll(b: Builder): Builder {
    StopTools(CloseContent(b), b.order)
  }

  predicate HasStartedTool(b: Builder) {
    exists t :: t in b.tools && b.tools[t].started
  }

  /**
    The text at which Task arguments become complete is emitted once, the rest is dropped. Second result:
    whether the text turned out to be JSON but not an object, which raises in the host language.
   */
  function BufferTaskArgs(b: Builder, t: int, args: string, parse: string -> TaskArgs): (Builder, bool)
    requires t in b.tools
  {
    var s := b.tools[t];
    if s.taskArgsEmitted then (b, false)
    else
      var buffer := s.taskArgBuffer + args;
      match parse(buffer)
      case Invalid => (PutTool(b, t, s.(taskArgBuffer := buffer)), false)
      case NotAnObject => (PutTool(b, t, s.(taskArgBuffer := buffer)), true)
      case Object(text) => (ToolDelta(PutTool(b, t, s.(taskArgBuffer := "", taskArgsEmitted := true)), t, text), false)
  }

  predicate NeedsFlush(s: ToolCallState) {
    s.taskArgBuffer != "" && !s.taskArgsEmitted
  }

  /** At the end of the stream, what is left of a tool's Task arguments goes out as one delta. None: not an object. */
  function FlushOne(b: Builder, t: int, parse: string -> TaskArgs): Option<Builder> {
    if t !in b.tools || !NeedsFlush(b.tools[t]) then Some(b)
    else
      var s := b.tools[t].(taskArgBuffer := "", taskArgsEmitted := true);
      match parse(b.tools[t].taskArgBuffer)
      case Invalid => Some(ToolDelta(PutTool(b, t, s), t, "{}"))
      case NotAnObject => None
      case Object(text) => Some(ToolDelta(PutTool(b, t, s), t, text))
  }

  /** The same for the tools of `order`, one after another. */
  function FlushTaskArgs(b: Builder, order: seq<int>, parse: string -> TaskArgs): Option<Builder> {
    if order == [] then Some(b)
    else
      match FlushTaskArgs(b, order[..|order| - 1], parse)
      case None => None
      case Some(b1) => FlushOne(b1, order[|order| - 1], parse)
  }

  lemma FlushNext(b: Builder, order: seq<int>, k: nat, parse: string -> TaskArgs)
    requires k < |order|
    ensures FlushTaskArgs(b, order[..k + 1], parse) ==
            match FlushTaskArgs(b, order[..k], parse)
            case None => None
            case Some(b1) => FlushOne(b1, order[k], parse)
  {
    assert order[..k + 1][..k] == order[..k];
  }

  class SSEBuilder {
    var nextIndex: nat
    var thinkingIndex: int
    var textIndex: int
    var thinkingStarted: bool
    var textStarted: bool
    var order: seq<int>
    var tools: map<int, ToolCallState>
    var text: seq<string>
    var reasoning: seq<string>
    var emitted: seq<Event>

    function State(): Builder
      reads this
    {
      Builder(nextIndex, thinkingIndex, textIndex, thinkingStarted, textStarted, order, tools, text, reasoning, emitted)
    }

    constructor ()
      ensures State() == FreshBuilder
    {
      nextIndex, thinkingIndex, textIndex, thinkingStarted, textStarted := 0, -1, -1, false, false;
      order, tools, text, reasoning, emitted := [], map[], [], [], [];
    }

    method Yield(e: Event)
      modifies this
      ensures State() == Emit(old(State()), e)
    {
      emitted := emitted + [e];
    }

    method AllocateIndex() returns (idx: int)
      modifies this
      ensures idx == old(nextIndex) && State() == old(State()).(nextIndex := old(nextIndex) + 1)
    {
      idx := nextIndex;
      nextIndex := nextIndex + 1;
    }

    method EnsureThinkingBlock()
      modifies this
      ensures State() == EnsureThinking(old(State()))
    {
      if textStarted {
        textStarted := false;
        Yield(BlockStop(textIndex));
      }
      if !thinkingStarted {
        thinkingIndex := AllocateIndex();
        thinkingStarted := true;
        Yield(BlockStart(thinkingIndex, PlainBlock(ThinkingType)));
      }
    }

    method EnsureTextBlock()
      modifies this
      ensures State() == EnsureText(old(State()))
    {
      if thinkingStarted {
        thinkingStarted := false;
        Yield(BlockStop(thinkingIndex));
      }
      if !textStarted {
        textIndex := AllocateIndex();
        textStarted := true;
        Yield(BlockStart(textIndex, PlainBlock(TextType)));
      }
    }

    method EmitThinkingDelta(content: string)
      modifies this
      ensures State() == ThinkingDeltaOf(old(State()), content)
    {
      reasoning := reasoning + [content];
      Yield(BlockDelta(thinkingIndex, ThinkingDelta, content));
    }

    method EmitTextDelta(content: string)
      modifies this
      ensures State() == TextDeltaOf(old(State()), content)
    {
      text := text + [content];
      Yield(BlockDelta(textIndex, TextDelta, content));
    }

    method CloseContentBlocks()
      modifies this
      ensures State() == CloseContent(old(State()))
    {
      if thinkingStarted {
        thinkingStarted := false;
        Yield(BlockStop(thinkingIndex));
      }
      if textStarted {
        textStarted := false;
        Yield(BlockStop(textIndex));
      }
    }

    method EmitOneShotBlock(block: Block, delta: DeltaType, content: string)
      modifies this
      ensures State() == OneShotBlock(old(State()), block, delta, content)
    {
      var blockIdx := AllocateIndex();
      Yield(BlockStart(blockIdx, block));
      Yield(BlockDelta(blockIdx, delta, content));
      Yield(BlockStop(blockIdx));
    }

    method PutToolState(t: int, s: ToolCallState)
      modifies this
      ensures State() == PutTool(old(State()), t, s)
    {
      if t !in tools { order := order + [t]; }
      tools := tools[t := s];
    }

    method EnsureToolState(t: int)
      modifies this
      ensures State() == EnsureTool(old(State()), t)
    {
      if t !in tools { PutToolState(t, NewToolState("")); }
    }

    method SetStreamToolId(t: int, id: string)
      modifies this
      ensures State() == SetToolId(old(State()), t, id)
    {
      if id == "" { return; }
      EnsureToolState(t);
      PutToolState(t, tools[t].(toolId := id));
    }

    method RegisterToolName(t: int, name: string)
      modifies this
      ensures State() == RegisterName(old(State()), t, name)
    {
      if t !in tools {
        PutToolState(t, NewToolState(name));
        return;
      }
      var prev := tools[t].name;
      if prev == "" || StartsWith(name, prev) {
        PutToolState(t, tools[t].(name := name));
      } else if !StartsWith(prev, name) {
        PutToolState(t, tools[t].(name := prev + name));
      } else {
        assert tools[t := tools[t].(name := prev)] == tools;
      }
    }

    method StartToolBlock(t: int, toolId: string, name: string)
      modifies this
      ensures State() == StartTool(old(State()), t, toolId, name)
    {
      var blockIdx := AllocateIndex();
      if t in tools {
        PutToolState(t, tools[t].(blockIndex := blockIdx, toolId := toolId, started := true));
      } else {
        PutToolState(t, NewToolState(name).(blockIndex := blockIdx, toolId := toolId, started := true));
      }
      Yield(BlockStart(blockIdx, ToolBlock(toolId, name)));
    }

    method EmitToolDelta(t: int, partialJson: string)
      requires t in tools
      modifies this
      ensures State() == ToolDelta(old(State()), t, partialJson)
    {
      PutToolState(t, tools[t].(contents := tools[t].contents + [partialJson]));
      Yield(BlockDelta(tools[t].blockIndex, InputJsonDelta, partialJson));
    }

    method EmitTaskArgs(t: int, args: string, parse: string -> TaskArgs) returns (raised: bool)
      requires t in tools
      modifies this
      ensures (State(), raised) == BufferTaskArgs(old(State()), t, args, parse)
    {
      raised := false;
      if tools[t].taskArgsEmitted { return; }
      var buffer := tools[t].taskArgBuffer + args;
      match parse(buffer) {
        case Invalid =>
          PutToolState(t, tools[t].(taskArgBuffer := buffer));
        case NotAnObject =>
          PutToolState(t, tools[t].(taskArgBuffer := buffer));
          raised := true;
        case Object(text) =>
          PutToolState(t, tools[t].(taskArgBuffer := "", taskArgsEmitted := true));
          EmitToolDelta(t, text);
      }
    }

    method CloseAllBlocks()
      modifies this
      ensures State() == CloseAll(old(State()))
    {
      CloseContentBlocks();
      ghost var closed := State();
      var items := order;
      assert items[..|items|] == items && StopTools(closed, items[..0]) == closed;
      hide StopTools, CloseContent;
      for k := 0 to |items|
        invariant State() == StopTools(closed, items[..k])
        invariant tools == old(tools)
      {
        StopNext(closed, items, k);
        var t := items[k];
        if t in tools && tools[t].started {
          Yield(BlockStop(tools[t].blockIndex));
        }
      }
    }

    method FlushTaskArgBuffer(t: int, parse: string -> TaskArgs) returns (ok: bool)
      modifies this
      ensures ok <==> FlushOne(old(State()), t, parse).Some?
      ensures ok ==> Some(State()) == FlushOne(old(State()), t, parse)
    {
      ok := true;
      if t !in tools || !NeedsFlush(tools[t]) { return; }
      var args := parse(tools[t].taskArgBuffer);
      if args.NotAnObject? { return false; }
      PutToolState(t, tools[t].(taskArgBuffer := "", taskArgsEmitted := true));
      EmitToolDelta(t, if args.Object? then args.foreground else "{}");
    }

    method FlushTaskArgBuffers(parse: string -> TaskArgs) returns (ok: bool)
      modifies this
      ensures ok <==> FlushTaskArgs(old(State()), old(order), parse).Some?
      ensures ok ==> Some(State()) == FlushTaskArgs(old(State()), old(order), parse)
    {
      var items := order;
      assert items[..|items|] == items;
      assert FlushTaskArgs(State(), items[..0], parse) == Some(State());
      hide FlushTaskArgs, FlushOne;
      for k := 0 to |items|
        invariant Some(State()) == FlushTaskArgs(old(State()), items[..k], parse)
      {
        FlushNext(old(State()), items, k, parse);
        ok := FlushTaskArgBuffer(items[k], parse);
        if !ok {
          FlushStaysNone(old(State()), items, k + 1, parse);
          return;
        }
      }
      ok := true;
    }
  }

  lemma FlushStaysNone(b: Builder, order: seq<int>, k: nat, parse: string -> TaskArgs)
    requires k <= |order| && FlushTaskArgs(b, order[..k], parse).None?
    ensures FlushTaskArgs(b, order, parse).None?
    decreases |order| - k
  {
    hide FlushTaskArgs, FlushOne;
    if k < |order| {
      FlushNext(b, order, k, parse);
      FlushStaysNone(b, order, k + 1, parse);
    } else {
      assert order[..k] == order;
    }
  }
}
