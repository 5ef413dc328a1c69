/**
  Conversion of an Anthropic conversation to OpenAI chat messages (core/anthropic/conversion.py).
  Assistant content that follows a tool use cannot stay in its message; it is deferred until the tool
  results have been replayed.
 */
module Conversion {
  import opened Prelude
  import opened Strings

  /** Content blocks; arguments and tool result contents are already serialised text. */
  datatype Block =
    | TextBlock(text: string)
    | ThinkingBlock(thinking: string)
    | RedactedThinkingBlock
    | ToolUse(id: Option<string>, name: string, arguments: string)
    | ToolResult(toolUseId: Option<string>, content: string)
    | Image
    | ServerToolBlock
    | OtherBlock(kind: string)

  datatype Content = Str(text: string) | Blocks(blocks: seq<Block>) | OtherContent(printed: string)

  datatype Role = User | Assistant | OtherRole(name: string)

  /** `reasoning` is empty when the message carries none. */
  datatype Message = Message(role: Role, content: Content, reasoning: string)

  datatype Replay = Disabled | ThinkTags | ReasoningContent

  datatype ToolCall = ToolCall(id: Option<string>, name: string, arguments: string)

  /** An absent reasoning or list of calls is empty. */
  datatype OutMessage =
    | RoleMessage(role: Role, content: string, toolCalls: seq<ToolCall>, reasoning: string)
    | ToolMessage(toolCallId: Option<string>, content: string)

  datatype ConversionError = UserImage | ForbiddenAssistantBlock

  /** Deferred content and the tool ids still to be answered before it may be replayed. */
  datatype Pending = Pending(remainingToolIds: set<string>, deferredBlocks: seq<Block>, topLevelReasoning: string)

  function ThinkTagContent(reasoning: string): string {
    "<think>\n" + reasoning + "\n</think>"
  }

  predicate Forbidden(b: Block) {
    b.Image? || b.ServerToolBlock?
  }

  predicate HasForbidden(bs: seq<Block>) {
    exists k :: 0 <= k < |bs| && Forbidden(bs[k])
  }

  predicate HasImage(bs: seq<Block>) {
    exists k :: 0 <= k < |bs| && bs[k].Image?
  }

  // ---------------------------------------------------------------------------------------------
  // Assistant messages.

  function ToolUses(bs: seq<Block>): seq<ToolCall> {
    if bs == [] then []
    else
      var front, b := ToolUses(bs[..|bs| - 1]), bs[|bs| - 1];
      if b.ToolUse? then front + [ToolCall(b.id, b.name, b.arguments)] else front
  }

  function WithoutToolUses(bs: seq<Block>): seq<Block> {
    if bs == [] then []
    else
      var front, b := WithoutToolUses(bs[..|bs| - 1]), bs[|bs| - 1];
      if b.ToolUse? then front else front + [b]
  }

  function FirstToolUse(bs: seq<Block>): (r: int)
    ensures r == -1 ==> forall k :: 0 <= k < |bs| ==> !bs[k].ToolUse?
    ensures r != -1 ==> 0 <= r < |bs| && bs[r].ToolUse? && forall k :: 0 <= k < r ==> !bs[k].ToolUse?
  {
    if bs == [] then -1
    else
      var front := FirstToolUse(bs[..|bs| - 1]);
      if front != -1 then front else if bs[|bs| - 1].ToolUse? then |bs| - 1 else -1
  }

  function ContentParts(bs: seq<Block>, replay: Replay): seq<string> {
    if bs == [] then []
    else
      var front, b := ContentParts(bs[..|bs| - 1], replay), bs[|bs| - 1];
      match b
      case TextBlock(text) => front + [text]
      case ThinkingBlock(thinking) => if replay == ThinkTags then front + [ThinkTagContent(thinking)] else front
      case _ => front
  }

  function ThinkingParts(bs: seq<Block>, reasoning: string, replay: Replay): seq<string> {
    if bs == [] then []
    else
      var front, b := ThinkingParts(bs[..|bs| - 1], reasoning, replay), bs[|bs| - 1];
      if b.ThinkingBlock? && replay == ReasoningContent && reasoning == "" then front + [b.thinking] else front
  }

  function ReplayedReasoning(bs: seq<Block>, reasoning: string, replay: Replay): string {
    if replay != ReasoningContent then ""
    else if reasoning != "" then reasoning
    else Join("\n", ThinkingParts(bs, reasoning, replay))
  }

  function AssistantMessage(bs: seq<Block>, reasoning: string, replay: Replay): OutMessage {
    var content := Join("\n\n", ContentParts(bs, replay));
    RoleMessage(Assistant, if content == "" && ToolUses(bs) == [] then " " else content, ToolUses(bs),
                ReplayedReasoning(bs, reasoning, replay))
  }

  /** The message up to the first tool use, with all tool uses as its calls. */
  function PreToolMessage(bs: seq<Block>, first: nat, reasoning: string, replay: Replay): OutMessage
    requires first <= |bs|
  {
    var pre := bs[..first];
    var msg := if pre == [] then RoleMessage(Assistant, "", [], if replay == ReasoningContent then reasoning else "")
               else AssistantMessage(pre, reasoning, replay);
    RoleMessage(Assistant, if msg.content == " " then "" else msg.content, ToolUses(bs), msg.reasoning)
  }

  /** The ids worth waiting for. */
  function AwaitedIds(calls: seq<ToolCall>): set<string> {
    set k | 0 <= k < |calls| && calls[k].id.Some? && Strip(calls[k].id.value) != "" :: calls[k].id.value
  }

  function DeferredBlocks(bs: seq<Block>, first: nat): seq<Block>
    requires first < |bs|
  {
    WithoutToolUses(bs[first + 1..])
  }

  /** The content a message defers, if any. */
  function PendingOf(bs: seq<Block>, first: nat, reasoning: string): Option<Pending>
    requires first < |bs|
  {
    var deferred := DeferredBlocks(bs, first);
    if deferred == [] then None else Some(Pending(AwaitedIds(ToolUses(bs)), deferred, reasoning))
  }

  function DeferredMessage(p: Pending, replay: Replay): OutMessage {
    AssistantMessage(p.deferredBlocks, p.topLevelReasoning, replay)
  }

  // ---------------------------------------------------------------------------------------------
  // User messages.

  datatype UserState = UserState(out: seq<OutMessage>, texts: seq<string>)

  function FlushText(s: UserState): UserState {
    if s.texts == [] then s else UserState(s.out + [RoleMessage(User, Join("\n", s.texts), [], "")], [])
  }

  function UserStep(s: UserState, b: Block): UserState {
    match b
    case TextBlock(text) => s.(texts := s.texts + [text])
    case ToolResult(id, content) =>
      var f := FlushText(s);
      f.(out := f.out + [ToolMessage(id, content)])
    case _ => s
  }

  function UserBlocks(bs: seq<Block>): UserState {
    if bs == [] then UserState([], []) else UserStep(UserBlocks(bs[..|bs| - 1]), bs[|bs| - 1])
  }

  /** A user message on its own. */
  function PlainUser(bs: seq<Block>): seq<OutMessage> {
    FlushText(UserBlocks(bs)).out
  }

  /** Where an output message comes from: input message `k`, or the deferred content of input message `k`. */
  datatype Origin = Own(k: nat) | DeferredOf(k: nat)

  datatype Tagged = Tagged(msg: OutMessage, origin: Origin)

  function TagAll(msgs: seq<OutMessage>, origin: Origin): seq<Tagged> {
    seq(|msgs|, k requires 0 <= k < |msgs| => Tagged(msgs[k], origin))
  }

  function Untag(ts: seq<Tagged>): seq<OutMessage> {
    seq(|ts|, k requires 0 <= k < |ts| => ts[k].msg)
  }

  function IdText(id: Option<string>): string {
    if id.Some? then id.value else ""
  }

  datatype InjectState = InjectState(out: seq<Tagged>, texts: seq<string>, remaining: set<string>, cleared: bool)

  function InjectFlush(s: InjectState, k: nat): InjectState {
    if s.texts == [] then s
    else s.(out := s.out + [Tagged(RoleMessage(User, Join("\n", s.texts), [], ""), Own(k))], texts := [])
  }

  /** A block of a user message that may answer awaited tool ids: after each result the deferred content follows
      if nothing is awaited any more. */
  function InjectStep(s: InjectState, b: Block, k: nat, deferred: Tagged): InjectState {
    match b
    case TextBlock(text) => s.(texts := s.texts + [text])
    case ToolResult(id, content) =>
      var f := InjectFlush(s, k);
      var out := f.out + [Tagged(ToolMessage(id, content), Own(k))];
      var remaining := s.remaining - {IdText(id)};
      if remaining == {} then InjectState(out + [deferred], [], remaining, true)
      else InjectState(out, [], remaining, s.cleared)
    case _ => s
  }

  function InjectBlocks(bs: seq<Block>, awaited: set<string>, k: nat, deferred: Tagged): InjectState {
    if bs == [] then InjectState([], [], awaited, false)
    else InjectStep(InjectBlocks(bs[..|bs| - 1], awaited, k, deferred), bs[|bs| - 1], k, deferred)
  }

  function InjectedUser(bs: seq<Block>, awaited: set<string>, k: nat, deferred: Tagged): InjectState {
    InjectFlush(InjectBlocks(bs, awaited, k, deferred), k)
  }

  // ---------------------------------------------------------------------------------------------
  // Conversations.

  /** The converter's state after some messages; `source` is the message that deferred `pending`. */
  datatype Conv = Conv(result: seq<Tagged>, pending: Option<Pending>, source: nat)

  function EmitDeferred(c: Conv, replay: Replay): Conv {
    if c.pending.None? then c
    else Conv(c.result + [Tagged(DeferredMessage(c.pending.value, replay), DeferredOf(c.source))], None, c.source)
  }

  function Append(c: Conv, msgs: seq<OutMessage>, k: nat): Conv {
    c.(result := c.result + TagAll(msgs, Own(k)))
  }

  /** An assistant or other message whose content is a string. */
  function StringMessage(m: Message, replay: Replay): OutMessage
    requires m.content.Str?
  {
    var content := m.content.text;
    if m.role != Assistant || m.reasoning == "" then RoleMessage(m.role, content, [], "")
    else
      match replay
      case ReasoningContent => RoleMessage(m.role, content, [], m.reasoning)
      case ThinkTags =>
        RoleMessage(m.role, Join("\n\n", [ThinkTagContent(m.reasoning)] + if content != "" then [content] else []), [], "")
      case Disabled => RoleMessage(m.role, content, [], "")
  }

  function AssistantBlocksStep(c: Conv, bs: seq<Block>, reasoning: string, k: nat, replay: Replay): Conv {
    var c1 := EmitDeferred(c, replay);
    var first := FirstToolUse(bs);
    if first == -1 then Append(c1, [AssistantMessage(bs, reasoning, replay)], k)
    else
      var p := PendingOf(bs, first, reasoning);
      var c2 := Append(c1, [PreToolMessage(bs, first, reasoning, replay)], k);
      if p.Some? then Conv(c2.result, p, k) else c2
  }

  function UserBlocksStep(c: Conv, bs: seq<Block>, k: nat, replay: Replay): Conv {
    if c.pending.None? || c.pending.value.remainingToolIds == {} then
      Append(EmitDeferred(c, replay), PlainUser(bs), k)
    else
      var p := c.pending.value;
      var s := InjectedUser(bs, p.remainingToolIds, k, Tagged(DeferredMessage(p, replay), DeferredOf(c.source)));
      Conv(c.result + s.out, if s.cleared then None else Some(p.(remainingToolIds := s.remaining)), c.source)
  }

  /** The error a message raises, if any. */
  function ErrorIn(m: Message): Option<ConversionError> {
    if !m.content.Blocks? then None
    else if m.role == Assistant && HasForbidden(m.content.blocks) then Some(ForbiddenAssistantBlock)
    else if m.role == User && HasImage(m.content.blocks) then Some(UserImage)
    else None
  }

  function ConvStep(c: Conv, m: Message, k: nat, replay: Replay): Conv {
    match m.content
    case Blocks(bs) =>
      if m.role == Assistant then AssistantBlocksStep(c, bs, m.reasoning, k, replay)
      else if m.role == User then UserBlocksStep(c, bs, k, replay)
      else c
    case Str(_) => Append(if m.role == User then EmitDeferred(c, replay) else c, [StringMessage(m, replay)], k)
    case OtherContent(printed) =>
      Append(if m.role == User then EmitDeferred(c, replay) else c, [RoleMessage(m.role, printed, [], "")], k)
  }

  function ConvAll(ms: seq<Message>, replay: Replay): Conv {
    if ms == [] then Conv([], None, 0)
    else ConvStep(ConvAll(ms[..|ms| - 1], replay), ms[|ms| - 1], |ms| - 1, replay)
  }

  predicate Convertible(ms: seq<Message>) {
    forall k :: 0 <= k < |ms| ==> ErrorIn(ms[k]).None?
  }

  /** The whole conversion, with the origin of each output message. */
  function Converted(ms: seq<Message>, replay: Replay): seq<Tagged> {
    EmitDeferred(ConvAll(ms, replay), replay).result
  }

  // ---------------------------------------------------------------------------------------------
  // The code itself.

  method ConvertAssistantMessage(content: seq<Block>, reasoning: string,
                                 replay: Replay) returns (r: Result<OutMessage, ConversionError>)
    ensures r == if HasForbidden(content) then Err(ForbiddenAssistantBlock) else Ok(AssistantMessage(content, reasoning, replay))
  {
    var contentParts: seq<string>, thinkingParts: seq<string>, toolCalls: seq<ToolCall> := [], [], [];
    for k := 0 to |content|
      invariant contentParts == ContentParts(content[..k], replay)
      invariant thinkingParts == ThinkingParts(content[..k], reasoning, replay)
      invariant toolCalls == ToolUses(content[..k])
      invariant forall j :: 0 <= j < k ==> !Forbidden(content[j])
    {
      assert content[..k + 1][..k] == content[..k];
      match content[k] {
        case TextBlock(text) => contentParts := contentParts + [text];
        case ThinkingBlock(thinking) =>
          if replay == ThinkTags {
            contentParts := contentParts + [ThinkTagContent(thinking)];
          } else if replay == ReasoningContent && reasoning == "" {
            thinkingParts := thinkingParts + [thinking];
          }
        case ToolUse(id, name, arguments) => toolCalls := toolCalls + [ToolCall(id, name, arguments)];
        case Image => return Err(ForbiddenAssistantBlock);
        case ServerToolBlock => return Err(ForbiddenAssistantBlock);
        case _ =>
      }
    }
    assert content[..|content|] == content;
    var contentStr := Join("\n\n", contentParts);
    if contentStr == "" && toolCalls == [] { contentStr := " "; }
    var replayReasoning := if replay != ReasoningContent then ""
                           else if reasoning != "" then reasoning else Join("\n", thinkingParts);
    r := Ok(RoleMessage(Assistant, contentStr, toolCalls, replayReasoning));
  }

  method ConvertUserMessage(content: seq<Block>) returns (r: Result<seq<OutMessage>, ConversionError>)
    ensures r == if HasImage(content) then Err(UserImage) else Ok(PlainUser(content))
  {
    var result: seq<OutMessage>, textParts: seq<string> := [], [];
    for k := 0 to |content|
      invariant UserBlocks(content[..k]) == UserState(result, textParts)
      invariant forall j :: 0 <= j < k ==> !content[j].Image?
    {
      assert content[..k + 1][..k] == content[..k];
      match content[k] {
        case TextBlock(text) => textParts := textParts + [text];
        case Image => return Err(UserImage);
        case ToolResult(id, toolContent) =>
          if textParts != [] {
            result := result + [RoleMessage(User, Join("\n", textParts), [], "")];
            textParts := [];
          }
          result := result + [ToolMessage(id, toolContent)];
        case _ =>
      }
    }
    assert content[..|content|] == content;
    if textParts != [] {
      result := result + [RoleMessage(User, Join("\n", textParts), [], "")];
    }
    r := Ok(result);
  }

  /**
    Result: the messages, the ids still awaited, and whether the deferred content has been placed. With no id
    awaited the message is converted as on its own.
   */
  method ConvertUserMessageWithInjection(content: seq<Block>, pending: Pending, replay: Replay, ghost k: nat,
                                         ghost source: nat)
    returns (r: Result<seq<OutMessage>, ConversionError>, remaining: set<string>, cleared: bool)
    ensures r.Err? <==> HasImage(content)
    ensures r.Err? ==> r.error == UserImage
    ensures var s := InjectedUser(content, pending.remainingToolIds, k, Tagged(DeferredMessage(pending, replay), DeferredOf(source)));
            r.Ok? && pending.remainingToolIds != {} ==>
              r.value == Untag(s.out) && remaining == s.remaining && cleared == s.cleared
    ensures r.Ok? && pending.remainingToolIds == {} ==> r.value == PlainUser(content) && remaining == {} && !cleared
  {
    if pending.remainingToolIds == {} {
      r := ConvertUserMessage(content);
      return r, {}, false;
    }
    var deferred := DeferredMessage(pending, replay);
    ghost var tagged := Tagged(deferred, DeferredOf(source));
    var result: seq<OutMessage>, textParts: seq<string> := [], [];
    remaining, cleared := pending.remainingToolIds, false;
    ghost var s := InjectBlocks([], remaining, k, tagged);
    assert content[..0] == [] && Untag([]) == [];
    hide DeferredMessage, InjectStep, Untag, Join;
    for j := 0 to |content|
      invariant s == InjectBlocks(content[..j], pending.remainingToolIds, k, tagged)
      invariant result == Untag(s.out) && textParts == s.texts && remaining == s.remaining && cleared == s.cleared
      invariant forall i :: 0 <= i < j ==> !content[i].Image?
    {
      assert content[..j + 1][..j] == content[..j];
      InjectStepUntagged(s, content[j], k, tagged);
      s := InjectStep(s, content[j], k, tagged);
      match content[j] {
        case TextBlock(text) => textParts := textParts + [text];
        case Image => r := Err(UserImage); return;
        case ToolResult(id, toolContent) =>
          if textParts != [] {
            result := result + [RoleMessage(User, Join("\n", textParts), [], "")];
            textParts := [];
          }
          result := result + [ToolMessage(id, toolContent)];
          remaining := remaining - {IdText(id)};
          if remaining == {} {
            result := result + [deferred];
            cleared := true;
          }
        case _ =>
      }
    }
    assert content[..|content|] == content;
    InjectFlushUntagged(s, k);
    if textParts != [] {
      result := result + [RoleMessage(User, Join("\n", textParts), [], "")];
    }
    r := Ok(result);
  }

  function FlushedTexts(texts: seq<string>): seq<OutMessage> {
    if texts == [] then [] else [RoleMessage(User, Join("\n", texts), [], "")]
  }

  lemma InjectFlushUntagged(s: InjectState, k: nat)
    ensures Untag(InjectFlush(s, k).out) == if s.texts == [] then Untag(s.out) else Untag(s.out) + FlushedTexts(s.texts)
    ensures InjectFlush(s, k).texts == [] && InjectFlush(s, k).remaining == s.remaining && InjectFlush(s, k).cleared == s.cleared
  {
    hide Join;
  }

  lemma UntagSnoc(ts: seq<Tagged>, t: Tagged)
    ensures Untag(ts + [t]) == Untag(ts) + [t.msg]
  {
  }

  /** A block's effect on the untagged output. */
  lemma InjectStepUntagged(s: InjectState, b: Block, k: nat, deferred: Tagged)
    ensures var s' := InjectStep(s, b, k, deferred);
            match b
            case TextBlock(text) => s' == s.(texts := s.texts + [text])
            case ToolResult(id, content) =>
              var flushed := if s.texts == [] then Untag(s.out) else Untag(s.out) + FlushedTexts(s.texts);
              var answered := flushed + [ToolMessage(id, content)];
              && s'.texts == [] && s'.remaining == s.remaining - {IdText(id)}
              && s'.cleared == (s.cleared || s'.remaining == {})
              && Untag(s'.out) == if s'.remaining == {} then answered + [deferred.msg] else answered
            case _ => s' == s
  {
    if b.ToolResult? {
      InjectFlushUntagged(s, k);
      var f := InjectFlush(s, k);
      hide InjectFlush, Untag, Join, FlushedTexts;
      var t := Tagged(ToolMessage(b.toolUseId, b.content), Own(k));
      UntagSnoc(f.out, t);
      UntagSnoc(f.out + [t], deferred);
    }
  }

  lemma UntagConcat(a: seq<Tagged>, b: seq<Tagged>)
    ensures Untag(a + b) == Untag(a) + Untag(b)
  {
  }

  lemma UntagTagAll(msgs: seq<OutMessage>, origin: Origin)
    ensures Untag(TagAll(msgs, origin)) == msgs
  {
  }

  lemma {:induction false} NoForbiddenBelow(bs: seq<Block>)
    requires !HasForbidden(bs)
    ensures forall n :: 0 <= n <= |bs| ==> !HasForbidden(bs[..n])
    ensures !HasForbidden(WithoutToolUses(bs))
  {
    if bs != [] {
      var front := bs[..|bs| - 1];
      assert forall k :: 0 <= k < |front| ==> front[k] == bs[k];
      NoForbiddenBelow(front);
      assert !Forbidden(bs[|bs| - 1]);
    }
  }

  /** The pending deferral holds nothing that conversion refuses. */
  ghost predicate CleanPending(c: Conv) {
    c.pending.Some? ==> !HasForbidden(c.pending.value.deferredBlocks)
  }

  method EmitPending(c: Option<Pending>, replay: Replay, ghost conv: Conv) returns (msgs: seq<OutMessage>)
    requires conv.pending == c && CleanPending(conv)
    ensures Untag(EmitDeferred(conv, replay).result) == Untag(conv.result) + msgs
  {
    if c.None? { return []; }
    var p := c.value;
    var r := ConvertAssistantMessage(p.deferredBlocks, p.topLevelReasoning, replay);
    UntagConcat(conv.result, [Tagged(r.value, DeferredOf(conv.source))]);
    msgs := [r.value];
  }

  method ConvertAssistantMessageWithSplit(content: seq<Block>, firstToolIndex: nat, reasoning: string, replay: Replay)
    returns (msg: OutMessage, pending: Option<Pending>)
    requires firstToolIndex < |content| && firstToolIndex == FirstToolUse(content) && !HasForbidden(content)
    ensures msg == PreToolMessage(content, firstToolIndex, reasoning, replay)
    ensures pending == PendingOf(content, firstToolIndex, reasoning)
  {
    var pre := content[..firstToolIndex];
    var toolCalls := ToolUses(content);
    var deferredBlocks := DeferredBlocks(content, firstToolIndex);
    if pre == [] {
      msg := RoleMessage(Assistant, "", toolCalls, if replay == ReasoningContent then reasoning else "");
    } else {
      NoForbiddenBelow(content);
      var r := ConvertAssistantMessage(pre, reasoning, replay);
      msg := r.value.(toolCalls := toolCalls, content := if r.value.content == " " then "" else r.value.content);
    }
    pending := if deferredBlocks == [] then None
               else Some(Pending(AwaitedIds(toolCalls), deferredBlocks, reasoning));
  }

  lemma DeferredClean(bs: seq<Block>, first: nat)
    requires first < |bs| && !HasForbidden(bs)
    ensures !HasForbidden(DeferredBlocks(bs, first))
  {
    var rest := bs[first + 1..];
    forall k | 0 <= k < |rest| ensures !Forbidden(rest[k]) {
      assert rest[k] == bs[first + 1 + k];
    }
    NoForbiddenBelow(rest);
  }

  method ConvertAssistantBlocks(bs: seq<Block>, reasoning: string, replay: Replay, pending: Option<Pending>,
                                ghost c: Conv, ghost k: nat)
    returns (r: Result<seq<OutMessage>, ConversionError>, pending': Option<Pending>)
    requires c.pending == pending && CleanPending(c)
    ensures r.Err? <==> HasForbidden(bs)
    ensures r.Err? ==> r.error == ForbiddenAssistantBlock
    ensures var c' := AssistantBlocksStep(c, bs, reasoning, k, replay);
            r.Ok? ==> Untag(c'.result) == Untag(c.result) + r.value && pending' == c'.pending && CleanPending(c')
  {
    hide HasForbidden, FirstToolUse, PreToolMessage, AssistantMessage, DeferredMessage, TagAll, Untag;
    var emitted := EmitPending(pending, replay, c);
    ghost var c1 := EmitDeferred(c, replay);
    pending' := None;
    var firstI := FirstToolUse(bs);
    if firstI != -1 {
      if HasForbidden(bs) { r := Err(ForbiddenAssistantBlock); return; }
      var msg, newPending := ConvertAssistantMessageWithSplit(bs, firstI, reasoning, replay);
      UntagTagAll([msg], Own(k));
      UntagConcat(c1.result, TagAll([msg], Own(k)));
      DeferredClean(bs, firstI);
      if newPending.Some? { pending' := newPending; }
      r := Ok(emitted + [msg]);
    } else {
      var converted := ConvertAssistantMessage(bs, reasoning, replay);
      if converted.Err? { r := Err(converted.error); return; }
      UntagTagAll([converted.value], Own(k));
      UntagConcat(c1.result, TagAll([converted.value], Own(k)));
      r := Ok(emitted + [converted.value]);
    }
  }

  method ConvertUserBlocks(bs: seq<Block>, replay: Replay, pending: Option<Pending>, ghost c: Conv, ghost k: nat)
    returns (r: Result<seq<OutMessage>, ConversionError>, pending': Option<Pending>)
    requires c.pending == pending && CleanPending(c)
    ensures r.Err? <==> HasImage(bs)
    ensures r.Err? ==> r.error == UserImage
    ensures var c' := UserBlocksStep(c, bs, k, replay);
            r.Ok? ==> Untag(c'.result) == Untag(c.result) + r.value && pending' == c'.pending && CleanPending(c')
  {
    pending' := None;
    if pending.Some? && pending.value.remainingToolIds != {} {
      var remaining, cleared;
      r, remaining, cleared := ConvertUserMessageWithInjection(bs, pending.value, replay, k, c.source);
      if r.Err? { return; }
      UntagConcat(c.result, InjectedUser(bs, pending.value.remainingToolIds, k,
                                         Tagged(DeferredMessage(pending.value, replay), DeferredOf(c.source))).out);
      if !cleared { pending' := Some(pending.value.(remainingToolIds := remaining)); }
    } else {
      var emitted := EmitPending(pending, replay, c);
      ghost var c1 := EmitDeferred(c, replay);
      r := ConvertUserMessage(bs);
      if r.Err? { return; }
      UntagTagAll(r.value, Own(k));
      UntagConcat(c1.result, TagAll(r.value, Own(k)));
      r := Ok(emitted + r.value);
    }
  }

  method ConvertOther(m: Message, replay: Replay, pending: Option<Pending>, ghost c: Conv, ghost k: nat)
    returns (msgs: seq<OutMessage>, pending': Option<Pending>)
    requires c.pending == pending && CleanPending(c)
    requires m.content.Blocks? ==> m.role != Assistant && m.role != User
    ensures var c' := ConvStep(c, m, k, replay);
            Untag(c'.result) == Untag(c.result) + msgs && pending' == c'.pending && CleanPending(c')
  {
    pending' := pending;
    if m.content.Blocks? {
      assert Untag(c.result) + [] == Untag(c.result);
      return [], pending';
    }
    msgs := [];
    ghost var c1 := c;
    if m.role == User {
      msgs := EmitPending(pending, replay, c);
      pending' := None;
      c1 := EmitDeferred(c, replay);
    }
    var msg := if m.content.Str? then StringMessage(m, replay) else RoleMessage(m.role, m.content.printed, [], "");
    UntagTagAll([msg], Own(k));
    UntagConcat(c1.result, TagAll([msg], Own(k)));
    msgs := msgs + [msg];
  }

  /** One turn of the conversion loop: what the message adds and what stays pending. */
  method ConvertMessage(m: Message, replay: Replay, pending: Option<Pending>, ghost c: Conv, ghost k: nat)
    returns (r: Result<seq<OutMessage>, ConversionError>, pending': Option<Pending>)
    requires c.pending == pending && CleanPending(c)
    ensures r.Err? <==> ErrorIn(m).Some?
    ensures r.Err? ==> ErrorIn(m) == Some(r.error)
    ensures var c' := ConvStep(c, m, k, replay);
            r.Ok? ==> Untag(c'.result) == Untag(c.result) + r.value && pending' == c'.pending && CleanPending(c')
  {
    hide AssistantBlocksStep, UserBlocksStep, HasForbidden, HasImage, StringMessage, Untag, CleanPending;
    if m.content.Blocks? && m.role == Assistant {
      r, pending' := ConvertAssistantBlocks(m.content.blocks, m.reasoning, replay, pending, c, k);
    } else if m.content.Blocks? && m.role == User {
      r, pending' := ConvertUserBlocks(m.content.blocks, replay, pending, c, k);
    } else {
      var msgs;
      msgs, pending' := ConvertOther(m, replay, pending, c, k);
      r := Ok(msgs);
    }
  }

  lemma ConvAllNext(ms: seq<Message>, k: nat, replay: Replay)
    requires k < |ms|
    ensures ConvAll(ms[..k + 1], replay) == ConvStep(ConvAll(ms[..k], replay), ms[k], k, replay)
  {
    hide ConvStep;
    assert ms[..k + 1][..k] == ms[..k];
  }

  /** The first message refused makes the whole conversion fail with its error. */
  lemma FirstRefused(ms: seq<Message>, k: nat, error: ConversionError)
    requires k < |ms| && (forall j :: 0 <= j < k ==> ErrorIn(ms[j]).None?) && ErrorIn(ms[k]) == Some(error)
    ensures !Convertible(ms)
    ensures exists n :: 0 <= n < |ms| && Convertible(ms[..n]) && ErrorIn(ms[n]) == Some(error)
  {
    hide ErrorIn;
    assert Convertible(ms[..k]);
  }

  /** What the loop knows after `k` messages. */
  ghost predicate Converting(ms: seq<Message>, k: nat, replay: Replay, c: Conv, result: seq<OutMessage>,
                             pending: Option<Pending>)
    requires k <= |ms|
  {
    && c == ConvAll(ms[..k], replay) && CleanPending(c) && pending == c.pending
    && result == Untag(c.result)
    && (forall j :: 0 <= j < k ==> ErrorIn(ms[j]).None?)
  }

  lemma ConvertingMeans(ms: seq<Message>, k: nat, replay: Replay, c: Conv, result: seq<OutMessage>,
                        pending: Option<Pending>)
    requires k < |ms| && Converting(ms, k, replay, c, result, pending)
    ensures c.pending == pending && CleanPending(c) && result == Untag(c.result)
  {
  }

  lemma ConvertingFails(ms: seq<Message>, k: nat, replay: Replay, c: Conv, result: seq<OutMessage>,
                        pending: Option<Pending>, error: ConversionError)
    requires k < |ms| && Converting(ms, k, replay, c, result, pending) && ErrorIn(ms[k]) == Some(error)
    ensures !Convertible(ms)
    ensures exists n :: 0 <= n < |ms| && Convertible(ms[..n]) && ErrorIn(ms[n]) == Some(error)
  {
    hide ConvAll, Untag, CleanPending, ErrorIn, Convertible;
    FirstRefused(ms, k, error);
  }

  lemma ConvertingNext(ms: seq<Message>, k: nat, replay: Replay, c: Conv, result: seq<OutMessage>,
                       pending: Option<Pending>, more: seq<OutMessage>)
    requires k < |ms| && Converting(ms, k, replay, c, result, pending) && ErrorIn(ms[k]).None?
    requires var c' := ConvStep(c, ms[k], k, replay); Untag(c'.result) == result + more && CleanPending(c')
    ensures var c' := ConvStep(c, ms[k], k, replay); Converting(ms, k + 1, replay, c', result + more, c'.pending)
  {
    hide ConvAll, ConvStep, Untag, CleanPending, ErrorIn;
    ConvAllNext(ms, k, replay);
  }

  lemma ConvertingAll(ms: seq<Message>, replay: Replay, c: Conv, result: seq<OutMessage>, pending: Option<Pending>)
    requires Converting(ms, |ms|, replay, c, result, pending)
    ensures Convertible(ms) && CleanPending(c) && pending == c.pending && result == Untag(c.result)
    ensures Converted(ms, replay) == EmitDeferred(c, replay).result
  {
    assert ms[..|ms|] == ms;
    hide ErrorIn, ConvAll, CleanPending;
  }

  lemma ConvertingNone(ms: seq<Message>, replay: Replay)
    ensures Converting(ms, 0, replay, Conv([], None, 0), [], None)
  {
  }

  /** The conversion raises exactly when some message holds a block it refuses, with the first such error. */
  method ConvertMessages(messages: seq<Message>, replay: Replay) returns (r: Result<seq<OutMessage>, ConversionError>)
    ensures r.Ok? <==> Convertible(messages)
    ensures r.Ok? ==> r.value == Untag(Converted(messages, replay))
    ensures r.Err? ==> exists k ::
              0 <= k < |messages| && Convertible(messages[..k]) && ErrorIn(messages[k]) == Some(r.error)
  {
    hide Converting, ConvStep, Untag, CleanPending, ErrorIn, EmitDeferred, Convertible, Converted;
    var result: seq<OutMessage> := [];
    var pending: Option<Pending> := None;
    ghost var c := Conv([], None, 0);
    ConvertingNone(messages, replay);
    for k := 0 to |messages|
      invariant Converting(messages, k, replay, c, result, pending)
    {
      ConvertingMeans(messages, k, replay, c, result, pending);
      ghost var before := pending;
      var converted;
      converted, pending := ConvertMessage(messages[k], replay, pending, c, k);
      if converted.Err? {
        ConvertingFails(messages, k, replay, c, result, before, converted.error);
        return Err(converted.error);
      }
      ConvertingNext(messages, k, replay, c, result, before, converted.value);
      c := ConvStep(c, messages[k], k, replay);
      result := result + converted.value;
    }
    ConvertingAll(messages, replay, c, result, pending);
    var last := EmitPending(pending, replay, c);
    r := Ok(result + last);
  }
}
