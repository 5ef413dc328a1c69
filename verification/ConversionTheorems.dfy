/**
  The converted conversation is the plain conversation with the deferred messages put in: nothing else is
  moved, tool calls and results stay as they were, and each deferred message appears once, in its place.
 */
module ConversionTheorems {
  import opened Prelude
  import opened Strings
  import opened Conversion

  // ---------------------------------------------------------------------------------------------
  // Without its deferred messages, the output is each message converted on its own.

  /** A message converted on its own. */
  function Alone(m: Message, replay: Replay): seq<OutMessage> {
    match m.content
    case Blocks(bs) =>
      if m.role == Assistant then
        (if FirstToolUse(bs) == -1 then [AssistantMessage(bs, m.reasoning, replay)]
         else [PreToolMessage(bs, FirstToolUse(bs), m.reasoning, replay)])
      else if m.role == User then PlainUser(bs)
      else []
    case Str(_) => [StringMessage(m, replay)]
    case OtherContent(printed) => [RoleMessage(m.role, printed, [], "")]
  }

  function AllAlone(ms: seq<Message>, replay: Replay): seq<Tagged> {
    if ms == [] then []
    else AllAlone(ms[..|ms| - 1], replay) + TagAll(Alone(ms[|ms| - 1], replay), Own(|ms| - 1))
  }

  function OwnOnly(ts: seq<Tagged>): seq<Tagged> {
    if ts == [] then []
    else
      var front, t := OwnOnly(ts[..|ts| - 1]), ts[|ts| - 1];
      if t.origin.Own? then front + [t] else front
  }

  /** The messages whose deferred content was emitted, in the order of emission. */
  function Emissions(ts: seq<Tagged>): seq<nat> {
    if ts == [] then []
    else
      var front, t := Emissions(ts[..|ts| - 1]), ts[|ts| - 1];
      if t.origin.DeferredOf? then front + [t.origin.k] else front
  }

  lemma {:induction false} SplitConcat(a: seq<Tagged>, b: seq<Tagged>)
    ensures OwnOnly(a + b) == OwnOnly(a) + OwnOnly(b)
    ensures Emissions(a + b) == Emissions(a) + Emissions(b)
    decreases |b|
  {
    if b == [] {
      assert a + b == a;
    } else {
      SplitConcat(a, b[..|b| - 1]);
      assert (a + b)[..|a + b| - 1] == a + b[..|b| - 1];
    }
  }

  lemma {:induction false} SplitOwn(msgs: seq<OutMessage>, k: nat)
    ensures OwnOnly(TagAll(msgs, Own(k))) == TagAll(msgs, Own(k)) && Emissions(TagAll(msgs, Own(k))) == []
  {
    if msgs != [] {
      SplitOwn(msgs[..|msgs| - 1], k);
      assert TagAll(msgs, Own(k))[..|msgs| - 1] == TagAll(msgs[..|msgs| - 1], Own(k));
    }
  }

  lemma SplitOne(t: Tagged)
    ensures OwnOnly([t]) == if t.origin.Own? then [t] else []
    ensures Emissions([t]) == if t.origin.DeferredOf? then [t.origin.k] else []
  {
    assert [t][..0] == [];
  }

  // What a user message does while tool ids are awaited.

  function AnsweredIds(bs: seq<Block>): set<string> {
    if bs == [] then {}
    else
      var front, b := AnsweredIds(bs[..|bs| - 1]), bs[|bs| - 1];
      if b.ToolResult? then front + {IdText(b.toolUseId)} else front
  }

  /** The number of tool results that follow the one by which the last awaited id is answered. */
  function ResultsAfterAnswer(bs: seq<Block>, awaited: set<string>): nat {
    if bs == [] then 0
    else
      var front := bs[..|bs| - 1];
      ResultsAfterAnswer(front, awaited)
      + if bs[|bs| - 1].ToolResult? && awaited - AnsweredIds(front) == {} then 1 else 0
  }

  function Repeated(k: nat, n: nat): seq<nat> {
    seq(n, _ => k)
  }

  function DeferredCount(bs: seq<Block>, awaited: set<string>): nat {
    if awaited - AnsweredIds(bs) == {} then 1 + ResultsAfterAnswer(bs, awaited) else 0
  }

  ghost predicate InjectionFacts(s: InjectState, bs: seq<Block>, awaited: set<string>, k: nat, source: nat) {
    && s.remaining == awaited - AnsweredIds(bs)
    && (s.cleared <==> s.remaining == {})
    && s.texts == UserBlocks(bs).texts
    && OwnOnly(s.out) == TagAll(UserBlocks(bs).out, Own(k))
    && Emissions(s.out) == Repeated(source, DeferredCount(bs, awaited))
  }

  lemma TagAllConcat(a: seq<OutMessage>, b: seq<OutMessage>, o: Origin)
    ensures TagAll(a + b, o) == TagAll(a, o) + TagAll(b, o)
  {
  }

  lemma OwnAppended(out: seq<Tagged>, msg: OutMessage, k: nat)
    ensures OwnOnly(out + [Tagged(msg, Own(k))]) == OwnOnly(out) + [Tagged(msg, Own(k))]
    ensures Emissions(out + [Tagged(msg, Own(k))]) == Emissions(out)
  {
    SplitConcat(out, [Tagged(msg, Own(k))]);
    SplitOne(Tagged(msg, Own(k)));
  }

  lemma FlushFacts(s: InjectState, u: UserState, k: nat)
    requires s.texts == u.texts && OwnOnly(s.out) == TagAll(u.out, Own(k))
    ensures OwnOnly(InjectFlush(s, k).out) == TagAll(FlushText(u).out, Own(k))
    ensures Emissions(InjectFlush(s, k).out) == Emissions(s.out)
    ensures InjectFlush(s, k).remaining == s.remaining && InjectFlush(s, k).cleared == s.cleared
    ensures InjectFlush(s, k).texts == [] == FlushText(u).texts
  {
    if s.texts != [] {
      var msg := RoleMessage(User, Join("\n", s.texts), [], "");
      OwnAppended(s.out, msg, k);
      TagAllConcat(u.out, [msg], Own(k));
    }
  }

  lemma {:induction false} InjectBlocksFacts(bs: seq<Block>, awaited: set<string>, k: nat, msg: OutMessage, source: nat)
    requires awaited != {}
    ensures InjectionFacts(InjectBlocks(bs, awaited, k, Tagged(msg, DeferredOf(source))), bs, awaited, k, source)
  {
    var deferred := Tagged(msg, DeferredOf(source));
    if bs != [] {
      var front, b := bs[..|bs| - 1], bs[|bs| - 1];
      InjectBlocksFacts(front, awaited, k, msg, source);
      var s, u := InjectBlocks(front, awaited, k, deferred), UserBlocks(front);
      if b.ToolResult? {
        ResultFacts(s, front, b, awaited, k, msg, source);
      } else {
        hide OwnOnly, Emissions, TagAll, Repeated;
      }
    }
  }

  lemma ResultFacts(s: InjectState, front: seq<Block>, b: Block, awaited: set<string>, k: nat, msg: OutMessage,
                    source: nat)
    requires b.ToolResult? && InjectionFacts(s, front, awaited, k, source)
    ensures InjectionFacts(InjectStep(s, b, k, Tagged(msg, DeferredOf(source))), front + [b], awaited, k, source)
  {
    hide OwnOnly, Emissions, UserBlocks, AnsweredIds, FlushText, InjectFlush, ResultsAfterAnswer, Repeated, TagAll;
    var deferred := Tagged(msg, DeferredOf(source));
    var u, f := UserBlocks(front), InjectFlush(s, k);
    var bs := front + [b];
    var result := ToolMessage(b.toolUseId, b.content);
    var out := f.out + [Tagged(result, Own(k))];
    var n := DeferredCount(front, awaited);
    FlushFacts(s, u, k);
    OwnAppended(f.out, result, k);
    DeferredAppended(out, msg, source);
    TagAllConcat(FlushText(u).out, [result], Own(k));
    TagOne(result, k);
    UserSnoc(front, b);
    AnswerOne(front, b, awaited);
    ResultsAfterSnoc(front, b, awaited);
    RepeatedMore(source, n);
    var before, after := awaited - AnsweredIds(front), awaited - AnsweredIds(bs);
    if before != {} { NoneAfter(front, awaited); }
    assert OwnOnly(out) == TagAll(UserBlocks(bs).out, Own(k)) && Emissions(out) == Repeated(source, n);
    if after == {} {
      assert DeferredCount(bs, awaited) == n + 1;
      assert InjectStep(s, b, k, deferred) == InjectState(out + [deferred], [], after, true);
    } else {
      assert n == 0 && DeferredCount(bs, awaited) == 0;
      assert InjectStep(s, b, k, deferred) == InjectState(out, [], after, s.cleared);
    }
  }

  lemma DeferredAppended(out: seq<Tagged>, msg: OutMessage, source: nat)
    ensures OwnOnly(out + [Tagged(msg, DeferredOf(source))]) == OwnOnly(out)
    ensures Emissions(out + [Tagged(msg, DeferredOf(source))]) == Emissions(out) + [source]
  {
    SplitConcat(out, [Tagged(msg, DeferredOf(source))]);
    SplitOne(Tagged(msg, DeferredOf(source)));
    assert OwnOnly(out) + [] == OwnOnly(out);
  }

  lemma TagOne(m: OutMessage, k: nat)
    ensures TagAll([m], Own(k)) == [Tagged(m, Own(k))]
  {
  }

  lemma RepeatedMore(k: nat, n: nat)
    ensures Repeated(k, n) + [k] == Repeated(k, n + 1)
  {
  }

  lemma AnswerOne(front: seq<Block>, b: Block, awaited: set<string>)
    requires b.ToolResult?
    ensures awaited - AnsweredIds(front + [b]) == awaited - AnsweredIds(front) - {IdText(b.toolUseId)}
    ensures awaited - AnsweredIds(front) == {} ==> awaited - AnsweredIds(front + [b]) == {}
  {
    assert (front + [b])[..|front|] == front;
  }

  lemma ResultsAfterSnoc(front: seq<Block>, b: Block, awaited: set<string>)
    ensures ResultsAfterAnswer(front + [b], awaited) ==
            ResultsAfterAnswer(front, awaited) + if b.ToolResult? && awaited - AnsweredIds(front) == {} then 1 else 0
  {
    assert (front + [b])[..|front|] == front;
  }

  lemma UserSnoc(front: seq<Block>, b: Block)
    ensures UserBlocks(front + [b]) == UserStep(UserBlocks(front), b)
  {
    assert (front + [b])[..|front|] == front;
  }

  lemma {:induction false} NoneAfter(bs: seq<Block>, awaited: set<string>)
    requires awaited - AnsweredIds(bs) != {}
    ensures ResultsAfterAnswer(bs, awaited) == 0
  {
    if bs != [] {
      var front := bs[..|bs| - 1];
      assert awaited - AnsweredIds(bs) <= awaited - AnsweredIds(front);
      NoneAfter(front, awaited);
    }
  }

  lemma InjectedUserFacts(bs: seq<Block>, awaited: set<string>, k: nat, msg: OutMessage, source: nat)
    requires awaited != {}
    ensures var s := InjectedUser(bs, awaited, k, Tagged(msg, DeferredOf(source)));
            && s.remaining == awaited - AnsweredIds(bs)
            && (s.cleared <==> s.remaining == {})
            && OwnOnly(s.out) == TagAll(PlainUser(bs), Own(k))
            && Emissions(s.out) == Repeated(source, DeferredCount(bs, awaited))
  {
    InjectBlocksFacts(bs, awaited, k, msg, source);
    FlushFacts(InjectBlocks(bs, awaited, k, Tagged(msg, DeferredOf(source))), UserBlocks(bs), k);
  }

  // ---------------------------------------------------------------------------------------------
  // Which deferrals are outstanding, read off the input alone.

  /** What a message defers. */
  function Defers(m: Message): Option<Pending> {
    if m.role == Assistant && m.content.Blocks? && FirstToolUse(m.content.blocks) != -1
    then PendingOf(m.content.blocks, FirstToolUse(m.content.blocks), m.reasoning)
    else None
  }

  /** The messages with content after a tool use, in order. */
  function PostTool(ms: seq<Message>): seq<nat> {
    if ms == [] then []
    else
      var front, n := PostTool(ms[..|ms| - 1]), |ms| - 1;
      if Defers(ms[n]).Some? then front + [n] else front
  }

  /** The ids still awaited on behalf of an outstanding deferral. */
  function Awaiting(ms: seq<Message>): Option<set<string>> {
    if ms == [] then None
    else
      var before, m := Awaiting(ms[..|ms| - 1]), ms[|ms| - 1];
      if m.role == Assistant && m.content.Blocks? then
        (if Defers(m).Some? then Some(Defers(m).value.remainingToolIds) else None)
      else if m.role == User then
        (if !m.content.Blocks? || before.None? || before.value - AnsweredIds(m.content.blocks) == {} then None
         else Some(before.value - AnsweredIds(m.content.blocks)))
      else before
  }

  /** The tool results, over all user messages, that follow within their message the one answering the last awaited id. */
  function LateResults(ms: seq<Message>): nat {
    if ms == [] then 0
    else
      var before, m := Awaiting(ms[..|ms| - 1]), ms[|ms| - 1];
      LateResults(ms[..|ms| - 1])
      + if m.role == User && m.content.Blocks? && before.Some? && before.value != {}
        then ResultsAfterAnswer(m.content.blocks, before.value) else 0
  }

  // ---------------------------------------------------------------------------------------------
  // The invariant of the conversion loop.

  function Outstanding(c: Conv): seq<nat> {
    if c.pending.Some? then [c.source] else []
  }

  ghost predicate ConvFacts(c: Conv, ms: seq<Message>, replay: Replay) {
    && OwnOnly(c.result) == AllAlone(ms, replay)
    && (c.pending.Some? <==> Awaiting(ms).Some?)
    && (c.pending.Some? ==> c.pending.value.remainingToolIds == Awaiting(ms).value)
    && |Emissions(c.result)| + |Outstanding(c)| == |PostTool(ms)| + LateResults(ms)
    && (LateResults(ms) == 0 ==> Emissions(c.result) + Outstanding(c) == PostTool(ms))
  }

  lemma EmitDeferredFacts(c: Conv, replay: Replay)
    ensures var c' := EmitDeferred(c, replay);
            && OwnOnly(c'.result) == OwnOnly(c.result)
            && Emissions(c'.result) == Emissions(c.result) + Outstanding(c)
            && c'.pending == None && Outstanding(c') == []
  {
    if c.pending.Some? {
      var t := Tagged(DeferredMessage(c.pending.value, replay), DeferredOf(c.source));
      SplitConcat(c.result, [t]);
      SplitOne(t);
    } else {
      assert Emissions(c.result) + [] == Emissions(c.result);
    }
  }

  lemma AppendFacts(c: Conv, msgs: seq<OutMessage>, k: nat)
    ensures var c' := Append(c, msgs, k);
            && OwnOnly(c'.result) == OwnOnly(c.result) + TagAll(msgs, Own(k))
            && Emissions(c'.result) == Emissions(c.result)
            && c'.pending == c.pending && Outstanding(c') == Outstanding(c)
  {
    SplitConcat(c.result, TagAll(msgs, Own(k)));
    SplitOwn(msgs, k);
    assert Emissions(c.result) + [] == Emissions(c.result);
  }

  /** What one message contributes to the two sequences. */
  ghost predicate StepFacts(c: Conv, c': Conv, m: Message, k: nat, late: nat, replay: Replay) {
    && OwnOnly(c'.result) == OwnOnly(c.result) + TagAll(Alone(m, replay), Own(k))
    && |Emissions(c'.result)| + |Outstanding(c')| ==
       |Emissions(c.result)| + |Outstanding(c)| + (if Defers(m).Some? then 1 else 0) + late
    && (late == 0 ==> Emissions(c'.result) + Outstanding(c') ==
                      Emissions(c.result) + Outstanding(c) + (if Defers(m).Some? then [k] else []))
  }

  lemma AssistantStepFacts(c: Conv, m: Message, k: nat, replay: Replay)
    requires m.role == Assistant && m.content.Blocks?
    ensures StepFacts(c, ConvStep(c, m, k, replay), m, k, 0, replay)
    ensures ConvStep(c, m, k, replay).pending == Defers(m)
  {
    hide OwnOnly, Emissions, AssistantMessage, PreToolMessage, TagAll, PendingOf;
    EmitDeferredFacts(c, replay);
    AppendFacts(EmitDeferred(c, replay), Alone(m, replay), k);
  }

  lemma UserStepFacts(c: Conv, m: Message, k: nat, replay: Replay)
    requires m.role == User && m.content.Blocks?
    ensures var bs := m.content.blocks;
            var awaited := if c.pending.Some? then c.pending.value.remainingToolIds else {};
            var late := if awaited != {} then ResultsAfterAnswer(bs, awaited) else 0;
            var c' := ConvStep(c, m, k, replay);
            && StepFacts(c, c', m, k, late, replay)
            && (if awaited - AnsweredIds(bs) == {} then c'.pending == None
                else c'.pending == Some(c.pending.value.(remainingToolIds := awaited - AnsweredIds(bs))))
  {
    var bs := m.content.blocks;
    hide OwnOnly, Emissions, PlainUser, TagAll, InjectedUser, AnsweredIds, ResultsAfterAnswer;
    var c' := UserBlocksStep(c, bs, k, replay);
    if c.pending.None? || c.pending.value.remainingToolIds == {} {
      EmitDeferredFacts(c, replay);
      AppendFacts(EmitDeferred(c, replay), PlainUser(bs), k);
      hide EmitDeferred;
      var nothing: set<string> := {};
      assert nothing - AnsweredIds(bs) == {};
      assert StepFacts(c, c', m, k, 0, replay);
    } else {
      InjectedStepFacts(c, bs, k, replay);
      hide UserBlocksStep;
      assert StepFacts(c, c', m, k, ResultsAfterAnswer(bs, c.pending.value.remainingToolIds), replay);
    }
  }

  lemma InjectedStepFacts(c: Conv, bs: seq<Block>, k: nat, replay: Replay)
    requires c.pending.Some? && c.pending.value.remainingToolIds != {}
    ensures var awaited := c.pending.value.remainingToolIds;
            var late := ResultsAfterAnswer(bs, awaited);
            var c' := UserBlocksStep(c, bs, k, replay);
            && OwnOnly(c'.result) == OwnOnly(c.result) + TagAll(PlainUser(bs), Own(k))
            && |Emissions(c'.result)| + |Outstanding(c')| == |Emissions(c.result)| + 1 + late
            && (late == 0 ==> Emissions(c'.result) + Outstanding(c') == Emissions(c.result) + [c.source])
            && (if awaited - AnsweredIds(bs) == {} then c'.pending == None
                else c'.pending == Some(c.pending.value.(remainingToolIds := awaited - AnsweredIds(bs))))
  {
    var p := c.pending.value;
    var awaited := p.remainingToolIds;
    var s := InjectedUser(bs, awaited, k, Tagged(DeferredMessage(p, replay), DeferredOf(c.source)));
    InjectedUserFacts(bs, awaited, k, DeferredMessage(p, replay), c.source);
    SplitConcat(c.result, s.out);
    if s.remaining != {} { NoneAfter(bs, awaited); }
    var late, e := ResultsAfterAnswer(bs, awaited), Emissions(c.result);
    var c' := UserBlocksStep(c, bs, k, replay);
    assert c'.result == c.result + s.out;
    assert Emissions(c'.result) == e + Repeated(c.source, DeferredCount(bs, awaited));
    RepeatedFew(c.source, 1 + late);
    NothingMore(Emissions(c'.result));
    NothingMore(e);
    hide OwnOnly, Emissions, PlainUser, TagAll, InjectedUser, AnsweredIds, ResultsAfterAnswer, DeferredMessage,
         Repeated;
    if s.remaining == {} {
      assert c'.pending == None && Outstanding(c') == [];
    } else {
      assert late == 0;
    }
  }

  lemma RepeatedFew(k: nat, n: nat)
    ensures |Repeated(k, n)| == n && Repeated(k, 0) == [] && Repeated(k, 1) == [k]
  {
  }

  lemma OtherStepFacts(c: Conv, m: Message, k: nat, replay: Replay)
    requires m.content.Blocks? ==> m.role != Assistant && m.role != User
    ensures StepFacts(c, ConvStep(c, m, k, replay), m, k, 0, replay)
    ensures ConvStep(c, m, k, replay).pending == if m.role == User then None else c.pending
  {
    hide OwnOnly, Emissions, StringMessage, TagAll;
    if m.content.Blocks? {
      assert TagAll([], Own(k)) == [] by { TagNothing(Own(k)); }
      assert OwnOnly(c.result) + [] == OwnOnly(c.result);
    } else {
      EmitDeferredFacts(c, replay);
      AppendFacts(EmitDeferred(c, replay), Alone(m, replay), k);
      AppendFacts(c, Alone(m, replay), k);
    }
  }

  lemma TagNothing(o: Origin)
    ensures TagAll([], o) == []
  {
  }

  lemma SequencesSnoc(front: seq<Message>, m: Message, replay: Replay)
    ensures AllAlone(front + [m], replay) == AllAlone(front, replay) + TagAll(Alone(m, replay), Own(|front|))
    ensures PostTool(front + [m]) == PostTool(front) + if Defers(m).Some? then [|front|] else []
  {
    hide Alone, TagAll, Defers;
    assert (front + [m])[..|front|] == front;
  }

  lemma Combine(c: Conv, front: seq<Message>, m: Message, c': Conv, late: nat, replay: Replay)
    requires ConvFacts(c, front, replay) && StepFacts(c, c', m, |front|, late, replay)
    requires LateResults(front + [m]) == LateResults(front) + late
    requires c'.pending.Some? <==> Awaiting(front + [m]).Some?
    requires c'.pending.Some? ==> c'.pending.value.remainingToolIds == Awaiting(front + [m]).value
    ensures ConvFacts(c', front + [m], replay)
  {
    hide OwnOnly, Emissions, Alone, TagAll, Defers, AllAlone, PostTool, Awaiting, LateResults, Outstanding;
    SequencesSnoc(front, m, replay);
  }

  lemma AwaitingSnoc(front: seq<Message>, m: Message)
    ensures var before := Awaiting(front);
            && Awaiting(front + [m]) ==
               (if m.role == Assistant && m.content.Blocks? then
                  (if Defers(m).Some? then Some(Defers(m).value.remainingToolIds) else None)
                else if m.role == User then
                  (if !m.content.Blocks? || before.None? || before.value - AnsweredIds(m.content.blocks) == {} then None
                   else Some(before.value - AnsweredIds(m.content.blocks)))
                else before)
            && LateResults(front + [m]) ==
               LateResults(front)
               + (if m.role == User && m.content.Blocks? && before.Some? && before.value != {}
                  then ResultsAfterAnswer(m.content.blocks, before.value) else 0)
  {
    hide Defers, AnsweredIds, ResultsAfterAnswer;
    assert (front + [m])[..|front|] == front;
  }

  lemma FactsAwait(c: Conv, ms: seq<Message>, replay: Replay)
    requires ConvFacts(c, ms, replay)
    ensures c.pending.Some? <==> Awaiting(ms).Some?
    ensures c.pending.Some? ==> c.pending.value.remainingToolIds == Awaiting(ms).value
  {
    hide OwnOnly, Emissions, AllAlone, PostTool, Awaiting, LateResults, Outstanding;
  }

  lemma StepKeepsFacts(c: Conv, front: seq<Message>, m: Message, replay: Replay)
    requires ConvFacts(c, front, replay)
    ensures ConvFacts(ConvStep(c, m, |front|, replay), front + [m], replay)
  {
    hide ConvFacts, StepFacts, ConvStep, Defers, AnsweredIds, ResultsAfterAnswer, Awaiting, LateResults;
    var k := |front|;
    var c' := ConvStep(c, m, k, replay);
    FactsAwait(c, front, replay);
    AwaitingSnoc(front, m);
    if m.role == Assistant && m.content.Blocks? {
      AssistantStepFacts(c, m, k, replay);
      Combine(c, front, m, c', 0, replay);
    } else if m.role == User && m.content.Blocks? {
      UserStepFacts(c, m, k, replay);
      var awaited := if c.pending.Some? then c.pending.value.remainingToolIds else {};
      Combine(c, front, m, c', if awaited != {} then ResultsAfterAnswer(m.content.blocks, awaited) else 0, replay);
    } else {
      OtherStepFacts(c, m, k, replay);
      Combine(c, front, m, c', 0, replay);
    }
  }

  lemma NoFacts(replay: Replay)
    ensures ConvFacts(ConvAll([], replay), [], replay)
  {
  }

  lemma {:induction false} ConvKeepsFacts(ms: seq<Message>, replay: Replay)
    ensures ConvFacts(ConvAll(ms, replay), ms, replay)
  {
    hide ConvStep, ConvFacts, ConvAll;
    if ms == [] {
      NoFacts(replay);
    } else {
      var front, m := ms[..|ms| - 1], ms[|ms| - 1];
      assert ms == front + [m];
      ConvAllSnoc(front, m, replay);
      ConvKeepsFacts(front, replay);
      StepKeepsFacts(ConvAll(front, replay), front, m, replay);
    }
  }

  /** The output without its deferred messages is each input message converted on its own, in order. */
  lemma OnlyDeferredIsInserted(ms: seq<Message>, replay: Replay)
    ensures OwnOnly(Converted(ms, replay)) == AllAlone(ms, replay)
  {
    ConvKeepsFacts(ms, replay);
    EmitDeferredFacts(ConvAll(ms, replay), replay);
  }

  /**
    The content after a tool use is emitted in exactly one deferred message per assistant message that has
    some, in order, exactly when no tool result follows, within a user message, the one answering the last
    awaited id; each such result causes one more copy.
   */
  lemma DeferredExactlyOnce(ms: seq<Message>, replay: Replay)
    ensures Emissions(Converted(ms, replay)) == PostTool(ms) <==> LateResults(ms) == 0
    ensures |Emissions(Converted(ms, replay))| == |PostTool(ms)| + LateResults(ms)
  {
    ConvKeepsFacts(ms, replay);
    EmitDeferredFacts(ConvAll(ms, replay), replay);
  }

  // ---------------------------------------------------------------------------------------------
  // What a deferred message holds.

  ghost predicate DeferredFaithful(ts: seq<Tagged>, ms: seq<Message>, replay: Replay) {
    forall n :: 0 <= n < |ts| && ts[n].origin.DeferredOf? ==>
      && ts[n].origin.k < |ms| && Defers(ms[ts[n].origin.k]).Some?
      && ts[n].msg == DeferredMessage(Defers(ms[ts[n].origin.k]).value, replay)
  }

  ghost predicate PendingFaithful(c: Conv, ms: seq<Message>) {
    c.pending.Some? ==>
      && c.source < |ms| && Defers(ms[c.source]).Some?
      && c.pending.value.deferredBlocks == Defers(ms[c.source]).value.deferredBlocks
      && c.pending.value.topLevelReasoning == Defers(ms[c.source]).value.topLevelReasoning
  }

  lemma FaithfulConcat(a: seq<Tagged>, b: seq<Tagged>, ms: seq<Message>, ms': seq<Message>, replay: Replay)
    requires DeferredFaithful(a, ms, replay) && DeferredFaithful(b, ms', replay) && ms <= ms'
    ensures DeferredFaithful(a + b, ms', replay)
  {
    hide Defers, DeferredMessage;
  }

  /** Injection adds own messages and copies of the one deferred message. */
  ghost predicate OwnOr(ts: seq<Tagged>, deferred: Tagged) {
    forall n :: 0 <= n < |ts| ==> ts[n].origin.Own? || ts[n] == deferred
  }

  lemma InjectStepOwnOr(s: InjectState, b: Block, k: nat, deferred: Tagged)
    requires OwnOr(s.out, deferred)
    ensures OwnOr(InjectStep(s, b, k, deferred).out, deferred) && OwnOr(InjectFlush(s, k).out, deferred)
  {
    hide Join;
  }

  lemma {:induction false} InjectOwnOr(bs: seq<Block>, awaited: set<string>, k: nat, deferred: Tagged)
    ensures OwnOr(InjectBlocks(bs, awaited, k, deferred).out, deferred)
    ensures OwnOr(InjectedUser(bs, awaited, k, deferred).out, deferred)
  {
    hide InjectStep, InjectFlush, OwnOr;
    if bs != [] {
      InjectOwnOr(bs[..|bs| - 1], awaited, k, deferred);
      InjectStepOwnOr(InjectBlocks(bs[..|bs| - 1], awaited, k, deferred), bs[|bs| - 1], k, deferred);
    } else {
      NothingOwnOr(deferred);
    }
    InjectStepOwnOr(InjectBlocks(bs, awaited, k, deferred), RedactedThinkingBlock, k, deferred);
  }

  lemma NothingOwnOr(deferred: Tagged)
    ensures OwnOr([], deferred)
  {
  }

  lemma InjectFaithful(c: Conv, bs: seq<Block>, k: nat, ms: seq<Message>, ms': seq<Message>, replay: Replay)
    requires DeferredFaithful(c.result, ms, replay) && PendingFaithful(c, ms) && ms <= ms'
    requires c.pending.Some? && c.pending.value.remainingToolIds != {}
    ensures var c' := UserBlocksStep(c, bs, k, replay);
            DeferredFaithful(c'.result, ms', replay) && PendingFaithful(c', ms')
  {
    var p := c.pending.value;
    var deferred := Tagged(DeferredMessage(p, replay), DeferredOf(c.source));
    var s := InjectedUser(bs, p.remainingToolIds, k, deferred);
    InjectOwnOr(bs, p.remainingToolIds, k, deferred);
    assert DeferredMessage(p, replay) == DeferredMessage(Defers(ms[c.source]).value, replay);
    hide InjectedUser, Defers, DeferredMessage;
    assert DeferredFaithful(s.out, ms', replay);
    FaithfulConcat(c.result, s.out, ms, ms', replay);
  }

  lemma {:induction false} ConvFaithful(ms: seq<Message>, replay: Replay)
    ensures var c := ConvAll(ms, replay); DeferredFaithful(c.result, ms, replay) && PendingFaithful(c, ms)
  {
    if ms != [] {
      var k, m := |ms| - 1, ms[|ms| - 1];
      var front := ms[..k];
      ConvFaithful(front, replay);
      var c := ConvAll(front, replay);
      assert ConvAll(ms, replay) == ConvStep(c, m, k, replay);
      assert m.role == User && m.content.Blocks? ==>
               ConvStep(c, m, k, replay) == UserBlocksStep(c, m.content.blocks, k, replay);
      hide DeferredFaithful, PendingFaithful, UserBlocksStep, ConvAll, ConvStep;
      if m.role == User && m.content.Blocks? && c.pending.Some? && c.pending.value.remainingToolIds != {} {
        InjectFaithful(c, m.content.blocks, k, front, ms, replay);
      } else {
        AppendFaithful(c, k, ms, replay);
      }
    }
  }

  lemma AppendFaithful(c: Conv, k: nat, ms: seq<Message>, replay: Replay)
    requires k < |ms| && DeferredFaithful(c.result, ms[..k], replay) && PendingFaithful(c, ms[..k])
    requires var m := ms[k];
             !(m.role == User && m.content.Blocks? && c.pending.Some? && c.pending.value.remainingToolIds != {})
    ensures var c' := ConvStep(c, ms[k], k, replay);
            DeferredFaithful(c'.result, ms, replay) && PendingFaithful(c', ms)
  {
    var m, front := ms[k], ms[..k];
    EmitFaithful(c, front, replay);
    var c1 := if m.role == User || (m.role == Assistant && m.content.Blocks?) then EmitDeferred(c, replay) else c;
    OwnFaithful(Alone(m, replay), k, ms, replay);
    StepAppends(c, m, k, replay);
    assert DeferredFaithful(c1.result, front, replay) && PendingFaithful(c1, front);
    hide Alone, ConvStep, TagAll, DeferredMessage, EmitDeferred, Defers, DeferredFaithful;
    FaithfulConcat(c1.result, TagAll(Alone(m, replay), Own(k)), front, ms, replay);
  }

  lemma OwnFaithful(msgs: seq<OutMessage>, k: nat, ms: seq<Message>, replay: Replay)
    ensures DeferredFaithful(TagAll(msgs, Own(k)), ms, replay)
  {
  }

  lemma EmitFaithful(c: Conv, ms: seq<Message>, replay: Replay)
    requires DeferredFaithful(c.result, ms, replay) && PendingFaithful(c, ms)
    ensures DeferredFaithful(EmitDeferred(c, replay).result, ms, replay)
  {
  }

  /** Apart from injection, a step appends the message converted alone, perhaps after the pending deferral. */
  lemma StepAppends(c: Conv, m: Message, k: nat, replay: Replay)
    requires !(m.role == User && m.content.Blocks? && c.pending.Some? && c.pending.value.remainingToolIds != {})
    ensures var c1 := if m.role == User || (m.role == Assistant && m.content.Blocks?) then EmitDeferred(c, replay) else c;
            var c' := ConvStep(c, m, k, replay);
            && c'.result == c1.result + TagAll(Alone(m, replay), Own(k))
            && ((c'.pending == c1.pending && c'.source == c1.source)
                || (c'.source == k && c'.pending == Defers(m) && Defers(m).Some?))
  {
    hide AssistantMessage, PreToolMessage, StringMessage, PlainUser, DeferredMessage;
    TagNothing(Own(k));
  }

  lemma ConvertedFaithful(ms: seq<Message>, replay: Replay)
    ensures DeferredFaithful(Converted(ms, replay), ms, replay)
  {
    ConvFaithful(ms, replay);
    EmitFaithful(ConvAll(ms, replay), ms, replay);
  }

  /** Every deferred message is the conversion of all the content that follows the first tool use of its source. */
  lemma DeferredHoldsPostToolContent(ms: seq<Message>, replay: Replay, n: nat)
    requires n < |Converted(ms, replay)| && Converted(ms, replay)[n].origin.DeferredOf?
    ensures var t := Converted(ms, replay)[n];
            && t.origin.k < |ms| && Defers(ms[t.origin.k]).Some?
            && var bs := ms[t.origin.k].content.blocks;
               t.msg == AssistantMessage(WithoutToolUses(bs[FirstToolUse(bs) + 1..]), ms[t.origin.k].reasoning, replay)
  {
    ConvertedFaithful(ms, replay);
    hide Converted, AssistantMessage, Defers, DeferredMessage, WithoutToolUses, FirstToolUse;
    DefersMeans(ms[Converted(ms, replay)[n].origin.k], replay);
  }

  lemma DefersMeans(m: Message, replay: Replay)
    requires Defers(m).Some?
    ensures m.content.Blocks? && FirstToolUse(m.content.blocks) != -1
    ensures var bs := m.content.blocks;
            DeferredMessage(Defers(m).value, replay) ==
            AssistantMessage(WithoutToolUses(bs[FirstToolUse(bs) + 1..]), m.reasoning, replay)
  {
    hide AssistantMessage, FirstToolUse;
  }

  // ---------------------------------------------------------------------------------------------
  // Where the deferred message is placed.

  /** While awaited ids remain, a user message is converted as on its own. */
  lemma {:induction false} InjectUnanswered(bs: seq<Block>, awaited: set<string>, k: nat, deferred: Tagged)
    requires awaited - AnsweredIds(bs) != {}
    ensures InjectBlocks(bs, awaited, k, deferred) ==
            InjectState(TagAll(UserBlocks(bs).out, Own(k)), UserBlocks(bs).texts, awaited - AnsweredIds(bs), false)
  {
    if bs != [] {
      var front, b := bs[..|bs| - 1], bs[|bs| - 1];
      assert awaited - AnsweredIds(bs) <= awaited - AnsweredIds(front);
      InjectUnanswered(front, awaited, k, deferred);
      if b.ToolResult? {
        assert awaited - AnsweredIds(bs) == awaited - AnsweredIds(front) - {IdText(b.toolUseId)};
      }
    }
  }

  /** Once the deferred message is placed, blocks that are no tool results only add text. */
  lemma {:induction false} InjectText(a: seq<Block>, b: seq<Block>, awaited: set<string>, k: nat, deferred: Tagged)
    requires forall j :: 0 <= j < |b| ==> !b[j].ToolResult?
    requires InjectBlocks(a, awaited, k, deferred).texts == []
    ensures InjectBlocks(a + b, awaited, k, deferred) == InjectBlocks(a, awaited, k, deferred).(texts := UserBlocks(b).texts)
    ensures UserBlocks(b).out == []
    decreases |b|
  {
    if b == [] {
      assert a + b == a;
    } else {
      var rest := b[..|b| - 1];
      assert forall j :: 0 <= j < |rest| ==> rest[j] == b[j];
      InjectText(a, rest, awaited, k, deferred);
      assert (a + b)[..|a + b| - 1] == a + rest;
      assert (a + b)[|a + b| - 1] == b[|b| - 1];
      TextStep(InjectBlocks(a + rest, awaited, k, deferred), UserBlocks(rest), b[|b| - 1], k, deferred);
      hide InjectStep, UserStep;
    }
  }

  lemma TextStep(s: InjectState, u: UserState, b: Block, k: nat, deferred: Tagged)
    requires !b.ToolResult? && s.texts == u.texts
    ensures InjectStep(s, b, k, deferred) == s.(texts := UserStep(u, b).texts) && UserStep(u, b).out == u.out
  {
  }

  /**
    When a user message answers the last awaited id with its tool result `p`, and no result follows, the
    deferred message comes directly after that result and before any later user text.
   */
  lemma InjectedAfterAnswer(bs: seq<Block>, awaited: set<string>, k: nat, deferred: Tagged, p: nat)
    requires p < |bs| && bs[p].ToolResult?
    requires awaited - AnsweredIds(bs[..p]) != {} && awaited - AnsweredIds(bs[..p + 1]) == {}
    requires forall j :: p < j < |bs| ==> !bs[j].ToolResult?
    ensures var answered := PlainUser(bs[..p + 1]);
            && answered != [] && answered[|answered| - 1] == ToolMessage(bs[p].toolUseId, bs[p].content)
            && InjectedUser(bs, awaited, k, deferred).out ==
               TagAll(answered, Own(k)) + [deferred] + TagAll(PlainUser(bs[p + 1..]), Own(k))
  {
    var a, b, rest := bs[..p], bs[p], bs[p + 1..];
    assert bs[..p + 1] == a + [b] && bs == (a + [b]) + rest;
    forall j | 0 <= j < |rest| ensures !rest[j].ToolResult? {
      assert rest[j] == bs[p + 1 + j];
    }
    hide InjectBlocks, FlushText, UserBlocks, TagAll, AnsweredIds;
    AnsweredPart(a, b, awaited, k, deferred);
    InjectText(a + [b], rest, awaited, k, deferred);
    var s1 := InjectBlocks(a + [b], awaited, k, deferred);
    LastText(s1, UserBlocks(rest), k);
  }

  lemma AnsweredPart(a: seq<Block>, b: Block, awaited: set<string>, k: nat, deferred: Tagged)
    requires b.ToolResult?
    requires awaited - AnsweredIds(a) != {} && awaited - AnsweredIds(a + [b]) == {}
    ensures var s := InjectBlocks(a + [b], awaited, k, deferred);
            s.texts == [] && s.out == TagAll(PlainUser(a + [b]), Own(k)) + [deferred]
    ensures PlainUser(a + [b]) == FlushText(UserBlocks(a)).out + [ToolMessage(b.toolUseId, b.content)]
  {
    InjectUnanswered(a, awaited, k, deferred);
    assert (a + [b])[..|a|] == a;
    UserSnoc(a, b);
    var u := UserBlocks(a);
    var s := InjectState(TagAll(u.out, Own(k)), u.texts, awaited - AnsweredIds(a), false);
    assert awaited - AnsweredIds(a + [b]) == s.remaining - {IdText(b.toolUseId)};
    hide InjectBlocks, UserBlocks, AnsweredIds, Join;
    TagAllConcat(u.out, [RoleMessage(User, Join("\n", u.texts), [], "")], Own(k));
    assert InjectFlush(s, k).out == TagAll(FlushText(u).out, Own(k));
    TagAllConcat(FlushText(u).out, [ToolMessage(b.toolUseId, b.content)], Own(k));
  }

  lemma LastText(s: InjectState, u: UserState, k: nat)
    requires s.texts == [] && u.out == []
    ensures InjectFlush(s.(texts := u.texts), k).out == s.out + TagAll(FlushText(u).out, Own(k))
  {
  }

  lemma {:induction false} InjectGrows(bs: seq<Block>, n: nat, awaited: set<string>, k: nat, deferred: Tagged)
    requires n <= |bs|
    ensures InjectBlocks(bs[..n], awaited, k, deferred).out <= InjectBlocks(bs, awaited, k, deferred).out
    decreases |bs|
  {
    if n < |bs| {
      var front := bs[..|bs| - 1];
      assert front[..n] == bs[..n];
      InjectGrows(front, n, awaited, k, deferred);
      InjectStepGrows(InjectBlocks(front, awaited, k, deferred), bs[|bs| - 1], k, deferred);
      hide InjectStep;
    } else {
      assert bs[..n] == bs;
    }
  }

  lemma InjectStepGrows(s: InjectState, b: Block, k: nat, deferred: Tagged)
    ensures s.out <= InjectFlush(s, k).out <= InjectStep(s, b, k, deferred).out || !b.ToolResult?
    ensures s.out <= InjectStep(s, b, k, deferred).out && s.out <= InjectFlush(s, k).out
  {
    hide Join;
  }

  /** The answering result is followed by the deferred message, whatever the rest of the message holds. */
  lemma InjectedOnAnswer(bs: seq<Block>, awaited: set<string>, k: nat, deferred: Tagged, p: nat)
    requires p < |bs| && bs[p].ToolResult?
    requires awaited - AnsweredIds(bs[..p]) != {} && awaited - AnsweredIds(bs[..p + 1]) == {}
    ensures var answered := PlainUser(bs[..p + 1]);
            && answered != [] && answered[|answered| - 1] == ToolMessage(bs[p].toolUseId, bs[p].content)
            && TagAll(answered, Own(k)) + [deferred] <= InjectedUser(bs, awaited, k, deferred).out
  {
    assert bs[..p + 1] == bs[..p] + [bs[p]];
    AnsweredPart(bs[..p], bs[p], awaited, k, deferred);
    InjectGrows(bs, p + 1, awaited, k, deferred);
    InjectStepGrows(InjectBlocks(bs, awaited, k, deferred), bs[p], k, deferred);
    hide InjectBlocks, InjectFlush, InjectStep, TagAll, PlainUser;
  }

  lemma StepGrows(c: Conv, m: Message, k: nat, replay: Replay)
    ensures c.result <= ConvStep(c, m, k, replay).result
  {
    hide AssistantMessage, PreToolMessage, StringMessage, PlainUser, DeferredMessage, InjectedUser, FirstToolUse,
         PendingOf;
  }

  lemma PrefixTransitive(a: seq<Tagged>, b: seq<Tagged>, c: seq<Tagged>)
    requires a <= b <= c
    ensures a <= c
  {
  }

  /** What was converted stays converted. */
  lemma ConvertedGrows(ms: seq<Message>, n: nat, replay: Replay)
    requires n <= |ms|
    ensures ConvAll(ms[..n], replay).result <= Converted(ms, replay)
  {
    ConvAllGrows(ms, n, replay);
    hide ConvAll;
    assert ConvAll(ms, replay).result <= Converted(ms, replay);
    PrefixTransitive(ConvAll(ms[..n], replay).result, ConvAll(ms, replay).result, Converted(ms, replay));
  }

  lemma {:induction false} ConvAllGrows(ms: seq<Message>, n: nat, replay: Replay)
    requires n <= |ms|
    ensures ConvAll(ms[..n], replay).result <= ConvAll(ms, replay).result
    decreases |ms|
  {
    hide ConvStep;
    if n < |ms| {
      var front := ms[..|ms| - 1];
      assert front[..n] == ms[..n];
      ConvAllGrows(front, n, replay);
      var a, b, c := ConvAll(ms[..n], replay).result, ConvAll(front, replay).result, ConvAll(ms, replay).result;
      StepGrows(ConvAll(front, replay), ms[|ms| - 1], |ms| - 1, replay);
      assert c == ConvStep(ConvAll(front, replay), ms[|ms| - 1], |ms| - 1, replay).result;
      hide ConvAll;
      PrefixTransitive(a, b, c);
    } else {
      assert ms[..n] == ms;
    }
  }

  ghost predicate FromLatest(c: Conv, ms: seq<Message>) {
    c.pending.Some? ==> PostTool(ms) != [] && PostTool(ms)[|PostTool(ms)| - 1] == c.source
  }

  lemma StepFromLatest(c: Conv, front: seq<Message>, m: Message, replay: Replay)
    requires FromLatest(c, front)
    ensures FromLatest(ConvStep(c, m, |front|, replay), front + [m])
  {
    assert (front + [m])[..|front|] == front;
    assert PostTool(front + [m]) == if Defers(m).Some? then PostTool(front) + [|front|] else PostTool(front);
    hide ConvStep, Defers, PostTool;
    DefersInStep(c, m, |front|, replay);
  }

  /** The outstanding deferral is that of the last message with content after a tool use. */
  lemma {:induction false} PendingIsLatest(ms: seq<Message>, replay: Replay)
    ensures FromLatest(ConvAll(ms, replay), ms)
  {
    if ms == [] {
      assert ConvAll([], replay).pending.None?;
    } else {
      hide ConvAll, FromLatest, ConvStep;
      var front, m := ms[..|ms| - 1], ms[|ms| - 1];
      assert ms == front + [m];
      ConvAllSnoc(front, m, replay);
      PendingIsLatest(front, replay);
      StepFromLatest(ConvAll(front, replay), front, m, replay);
    }
  }

  lemma ConvAllSnoc(front: seq<Message>, m: Message, replay: Replay)
    ensures ConvAll(front + [m], replay) == ConvStep(ConvAll(front, replay), m, |front|, replay)
  {
    hide ConvStep;
    assert (front + [m])[..|front|] == front;
  }

  lemma DefersInStep(c: Conv, m: Message, k: nat, replay: Replay)
    ensures Defers(m).Some? ==> ConvStep(c, m, k, replay).source == k
    ensures Defers(m).None? && ConvStep(c, m, k, replay).pending.Some? ==>
              c.pending.Some? && ConvStep(c, m, k, replay).source == c.source
  {
    hide AssistantMessage, PreToolMessage, StringMessage, PlainUser, DeferredMessage, InjectedUser, FirstToolUse,
         PendingOf;
  }

  /** The deferred message of message `k`. */
  function DeferredFrom(ms: seq<Message>, k: nat, replay: Replay): Tagged
    requires k < |ms| && Defers(ms[k]).Some?
  {
    Tagged(DeferredMessage(Defers(ms[k]).value, replay), DeferredOf(k))
  }

  /** What is outstanding before message `n`, and on behalf of which message. */
  lemma Outstands(ms: seq<Message>, replay: Replay)
    requires Awaiting(ms).Some?
    ensures var c := ConvAll(ms, replay);
            && c.pending.Some? && c.pending.value.remainingToolIds == Awaiting(ms).value
            && c.source < |ms| && Defers(ms[c.source]).Some?
            && DeferredMessage(c.pending.value, replay) == DeferredMessage(Defers(ms[c.source]).value, replay)
            && PostTool(ms) != [] && c.source == PostTool(ms)[|PostTool(ms)| - 1]
  {
    hide ConvAll, ConvFacts, Awaiting, PostTool, DeferredFaithful, Defers, AssistantMessage;
    ConvKeepsFacts(ms, replay);
    FactsAwait(ConvAll(ms, replay), ms, replay);
    ConvFaithful(ms, replay);
    PendingIsLatest(ms, replay);
  }

  lemma InjectStepIs(c: Conv, m: Message, k: nat, replay: Replay, deferred: Tagged)
    requires m.role == User && m.content.Blocks? && c.pending.Some? && c.pending.value.remainingToolIds != {}
    requires deferred == Tagged(DeferredMessage(c.pending.value, replay), DeferredOf(c.source))
    ensures ConvStep(c, m, k, replay).result ==
            c.result + InjectedUser(m.content.blocks, c.pending.value.remainingToolIds, k, deferred).out
  {
    hide InjectedUser, DeferredMessage;
  }

  /** How a user message that may answer awaited ids is converted within its conversation. */
  lemma InjectedInConversation(ms: seq<Message>, replay: Replay, n: nat)
    requires n < |ms| && ms[n].role == User && ms[n].content.Blocks?
    requires Awaiting(ms[..n]).Some? && Awaiting(ms[..n]).value != {}
    ensures var c := ConvAll(ms[..n], replay);
            && c.source < n && Defers(ms[c.source]).Some?
            && PostTool(ms[..n]) != [] && c.source == PostTool(ms[..n])[|PostTool(ms[..n])| - 1]
            && ConvAll(ms[..n + 1], replay).result ==
               c.result
               + InjectedUser(ms[n].content.blocks, Awaiting(ms[..n]).value, n, DeferredFrom(ms, c.source, replay)).out
  {
    hide ConvAll, ConvStep, InjectedUser, Defers, DeferredMessage, Awaiting, PostTool;
    var c := ConvAll(ms[..n], replay);
    Outstands(ms[..n], replay);
    assert ms[..n][c.source] == ms[c.source];
    ConvAllNext(ms, n, replay);
    InjectStepIs(c, ms[n], n, replay, DeferredFrom(ms, c.source, replay));
  }

  /** Block `p` of user message `n` answers the last awaited id. */
  ghost predicate AnswersLast(ms: seq<Message>, n: nat, p: nat) {
    && n < |ms| && ms[n].role == User && ms[n].content.Blocks?
    && Awaiting(ms[..n]).Some? && p < |ms[n].content.blocks| && ms[n].content.blocks[p].ToolResult?
    && var bs, awaited := ms[n].content.blocks, Awaiting(ms[..n]).value;
       awaited - AnsweredIds(bs[..p]) != {} && awaited - AnsweredIds(bs[..p + 1]) == {}
  }

  lemma AnswersLastMeans(ms: seq<Message>, n: nat, p: nat)
    requires AnswersLast(ms, n, p)
    ensures n < |ms| && ms[n].role == User && ms[n].content.Blocks?
    ensures Awaiting(ms[..n]).Some? && Awaiting(ms[..n]).value != {}
    ensures var bs, awaited := ms[n].content.blocks, Awaiting(ms[..n]).value;
            && p < |bs| && bs[p].ToolResult?
            && awaited - AnsweredIds(bs[..p]) != {} && awaited - AnsweredIds(bs[..p + 1]) == {}
  {
    hide Awaiting, AnsweredIds;
  }

  /**
    In the converted conversation, when a user message `n` answers the last awaited id with its block `p`, the
    deferred message of the last message that deferred content comes directly after that result.
   */
  lemma DeferredFollowsAnswer(ms: seq<Message>, replay: Replay, n: nat, p: nat)
    requires AnswersLast(ms, n, p)
    ensures var bs, c := ms[n].content.blocks, ConvAll(ms[..n], replay);
            var answered := PlainUser(bs[..p + 1]);
            && c.source < n && Defers(ms[c.source]).Some?
            && PostTool(ms[..n]) != [] && c.source == PostTool(ms[..n])[|PostTool(ms[..n])| - 1]
            && answered != [] && answered[|answered| - 1] == ToolMessage(bs[p].toolUseId, bs[p].content)
            && c.result + (TagAll(answered, Own(n)) + [DeferredFrom(ms, c.source, replay)]) <= Converted(ms, replay)
  {
    hide AnswersLast, Converted, ConvAll, InjectedUser, PlainUser, TagAll, Defers, PostTool, Awaiting, AnsweredIds,
         DeferredFrom;
    AnswersLastMeans(ms, n, p);
    var bs, awaited, c := ms[n].content.blocks, Awaiting(ms[..n]).value, ConvAll(ms[..n], replay);
    InjectedInConversation(ms, replay, n);
    ConvertedGrows(ms, n + 1, replay);
    var deferred := DeferredFrom(ms, c.source, replay);
    InjectedOnAnswer(bs, awaited, n, deferred, p);
    var answered, injected := TagAll(PlainUser(bs[..p + 1]), Own(n)), InjectedUser(bs, awaited, n, deferred).out;
    PrefixWithin(c.result, answered + [deferred], injected, ConvAll(ms[..n + 1], replay).result, Converted(ms, replay));
  }

  /** If no tool result follows in that message, its remaining text comes directly after the deferred message. */
  lemma TextFollowsDeferred(ms: seq<Message>, replay: Replay, n: nat, p: nat)
    requires AnswersLast(ms, n, p)
    requires forall j :: p < j < |ms[n].content.blocks| ==> !ms[n].content.blocks[j].ToolResult?
    ensures var bs, c := ms[n].content.blocks, ConvAll(ms[..n], replay);
            && c.source < n && Defers(ms[c.source]).Some?
            && c.result + (TagAll(PlainUser(bs[..p + 1]), Own(n)) + [DeferredFrom(ms, c.source, replay)]
                           + TagAll(PlainUser(bs[p + 1..]), Own(n)))
               == ConvAll(ms[..n + 1], replay).result <= Converted(ms, replay)
  {
    hide AnswersLast, Converted, ConvAll, InjectedUser, PlainUser, TagAll, Defers, PostTool, Awaiting, AnsweredIds,
         DeferredFrom;
    AnswersLastMeans(ms, n, p);
    var bs, awaited, c := ms[n].content.blocks, Awaiting(ms[..n]).value, ConvAll(ms[..n], replay);
    InjectedInConversation(ms, replay, n);
    ConvertedGrows(ms, n + 1, replay);
    InjectedAfterAnswer(bs, awaited, n, DeferredFrom(ms, c.source, replay), p);
  }

  lemma PrefixWithin(a: seq<Tagged>, b: seq<Tagged>, c: seq<Tagged>, d: seq<Tagged>, all: seq<Tagged>)
    requires b <= c && d == a + c && d <= all
    ensures a + b <= all
  {
    assert (a + b) + c[|b|..] == d;
  }

  /** Two results for one tool use, after which there is text to defer. */
  const AnsweredTwice: seq<Message> := [
    Message(Assistant, Blocks([ToolUse(Some("call"), "tool", "{}"), TextBlock("after")]), ""),
    Message(User, Blocks([ToolResult(Some("call"), "one"), ToolResult(Some("call"), "two")]), "")]

  lemma FirstDefers(m: Message)
    requires m.role == Assistant && m.content.Blocks? && Defers(m).Some?
    ensures PostTool([m]) == [0] && LateResults([m]) == 0
    ensures Awaiting([m]) == Some(Defers(m).value.remainingToolIds)
  {
    hide Defers;
    assert [m][..0] == [];
    assert PostTool([]) == [] && LateResults([]) == 0;
  }

  lemma SecondIsLate(one: Block, two: Block, call: string)
    requires one.ToolResult? && two.ToolResult? && one.toolUseId == two.toolUseId == Some(call)
    ensures ResultsAfterAnswer([one, two], {call}) == 1
  {
    assert [one][..0] == [] && [one, two][..1] == [one];
    assert AnsweredIds([]) == {} && AnsweredIds([one]) == {call};
    assert ResultsAfterAnswer([], {call}) == 0;
    assert ResultsAfterAnswer([one], {call}) == 0;
  }

  /** A late result does repeat the deferral: one message defers, two deferred messages are emitted. */
  lemma LateResultRepeats(replay: Replay)
    ensures PostTool(AnsweredTwice) == [0]
    ensures |Emissions(Converted(AnsweredTwice, replay))| == 2
  {
    var ms, m, user := AnsweredTwice, AnsweredTwice[0], AnsweredTwice[1];
    var results := user.content.blocks;
    assert ms[..1] == [m] && results == [results[0], results[1]];
    CallDefers(m.content.blocks, m);
    assert Defers(user).None?;
    hide Defers, ResultsAfterAnswer, AnsweredIds, Emissions, Converted;
    FirstDefers(m);
    SecondIsLate(results[0], results[1], "call");
    assert LateResults(ms) == LateResults([m]) + ResultsAfterAnswer(results, {"call"});
    DeferredExactlyOnce(ms, replay);
  }

  lemma CallDefers(bs: seq<Block>, m: Message)
    requires bs == [ToolUse(Some("call"), "tool", "{}"), TextBlock("after")]
    requires m == Message(Assistant, Blocks(bs), "")
    ensures Defers(m).Some? && Defers(m).value.remainingToolIds == {"call"}
  {
    StripTrimmed("call");
    assert bs[..1] == [bs[0]] && bs[..1][..0] == [];
    assert FirstToolUse(bs[..1]) == 0 && FirstToolUse(bs) == 0;
    assert bs[1..] == [TextBlock("after")] && bs[1..][..0] == [];
    assert WithoutToolUses(bs[1..]) == [TextBlock("after")];
    assert ToolUses(bs[..1]) == [ToolCall(Some("call"), "tool", "{}")];
    var calls := ToolUses(bs);
    assert calls == [ToolCall(Some("call"), "tool", "{}")];
    assert AwaitedIds(calls) == {"call"} by {
      assert calls[0].id.value in AwaitedIds(calls);
    }
  }

  // ---------------------------------------------------------------------------------------------
  // Tool calls and tool results.

  datatype ToolEvent = Called(call: ToolCall) | Answered(id: Option<string>, content: string)

  function CallEvents(calls: seq<ToolCall>): seq<ToolEvent> {
    seq(|calls|, k requires 0 <= k < |calls| => Called(calls[k]))
  }

  function EventsOfMessage(m: OutMessage): seq<ToolEvent> {
    match m
    case RoleMessage(_, _, calls, _) => CallEvents(calls)
    case ToolMessage(id, content) => [Answered(id, content)]
  }

  /** The calls and results of the output, in order. */
  function OutputTools(ts: seq<Tagged>): seq<ToolEvent> {
    if ts == [] then [] else OutputTools(ts[..|ts| - 1]) + EventsOfMessage(ts[|ts| - 1].msg)
  }

  function ResultEvents(bs: seq<Block>): seq<ToolEvent> {
    if bs == [] then []
    else
      var front, b := ResultEvents(bs[..|bs| - 1]), bs[|bs| - 1];
      if b.ToolResult? then front + [Answered(b.toolUseId, b.content)] else front
  }

  /** The tool uses of assistant messages and the tool results of user messages, in order. */
  function InputTools(ms: seq<Message>): seq<ToolEvent> {
    if ms == [] then []
    else
      var front, m := InputTools(ms[..|ms| - 1]), ms[|ms| - 1];
      if !m.content.Blocks? then front
      else if m.role == Assistant then front + CallEvents(ToolUses(m.content.blocks))
      else if m.role == User then front + ResultEvents(m.content.blocks)
      else front
  }

  lemma {:induction false} OutputToolsConcat(a: seq<Tagged>, b: seq<Tagged>)
    ensures OutputTools(a + b) == OutputTools(a) + OutputTools(b)
    decreases |b|
  {
    hide EventsOfMessage;
    if b == [] {
      assert a + b == a;
    } else {
      var front, last := b[..|b| - 1], b[|b| - 1];
      OutputToolsConcat(a, front);
      ConcatLast(a, b);
      Associative(OutputTools(a), OutputTools(front), EventsOfMessage(last.msg));
    }
  }

  lemma {:induction false} NoToolUses(bs: seq<Block>)
    ensures ToolUses(WithoutToolUses(bs)) == []
  {
    if bs != [] {
      NoToolUses(bs[..|bs| - 1]);
      var rest := WithoutToolUses(bs[..|bs| - 1]);
      assert (rest + [bs[|bs| - 1]])[..|rest|] == rest;
    }
  }

  lemma AssistantEvents(bs: seq<Block>, reasoning: string, replay: Replay)
    ensures EventsOfMessage(AssistantMessage(bs, reasoning, replay)) == CallEvents(ToolUses(bs))
  {
    hide Join, ContentParts, ReplayedReasoning, ToolUses;
  }

  lemma DeferredEvents(m: Message, replay: Replay)
    requires Defers(m).Some?
    ensures EventsOfMessage(DeferredMessage(Defers(m).value, replay)) == []
  {
    DefersMeans(m, replay);
    hide Defers, DeferredMessage, FirstToolUse, AssistantMessage, WithoutToolUses, ToolUses, EventsOfMessage;
    var rest := m.content.blocks[FirstToolUse(m.content.blocks) + 1..];
    NoToolUses(rest);
    AssistantEvents(WithoutToolUses(rest), m.reasoning, replay);
    assert CallEvents([]) == [];
  }

  /** Deferred messages carry neither calls nor results. */
  lemma {:induction false} DeferredHasNoTools(ts: seq<Tagged>, ms: seq<Message>, replay: Replay)
    requires DeferredFaithful(ts, ms, replay)
    ensures OutputTools(ts) == OutputTools(OwnOnly(ts))
  {
    if ts != [] {
      var front, t := ts[..|ts| - 1], ts[|ts| - 1];
      assert forall n :: 0 <= n < |front| ==> front[n] == ts[n];
      DeferredHasNoTools(front, ms, replay);
      hide Defers, DeferredMessage, EventsOfMessage;
      if t.origin.Own? {
        assert OwnOnly(ts)[..|OwnOnly(front)|] == OwnOnly(front);
      } else {
        assert t == ts[|ts| - 1];
        DeferredEvents(ms[t.origin.k], replay);
        assert OutputTools(front) + [] == OutputTools(front);
      }
    }
  }

  lemma {:induction false} UserBlocksTools(bs: seq<Block>, k: nat)
    ensures OutputTools(TagAll(UserBlocks(bs).out, Own(k))) == ResultEvents(bs)
  {
    if bs != [] {
      var front, b := bs[..|bs| - 1], bs[|bs| - 1];
      UserBlocksTools(front, k);
      FlushTools(UserBlocks(front), k);
      hide OutputTools, TagAll, FlushText;
      if b.ToolResult? {
        ToolsSnoc(FlushText(UserBlocks(front)).out, ToolMessage(b.toolUseId, b.content), k);
      }
    }
  }

  lemma PlainUserTools(bs: seq<Block>, k: nat)
    ensures OutputTools(TagAll(PlainUser(bs), Own(k))) == ResultEvents(bs)
  {
    UserBlocksTools(bs, k);
    FlushTools(UserBlocks(bs), k);
  }

  lemma ToolsSnoc(msgs: seq<OutMessage>, m: OutMessage, k: nat)
    ensures OutputTools(TagAll(msgs + [m], Own(k))) == OutputTools(TagAll(msgs, Own(k))) + EventsOfMessage(m)
  {
    assert TagAll(msgs + [m], Own(k))[..|msgs|] == TagAll(msgs, Own(k));
  }

  lemma FlushTools(u: UserState, k: nat)
    ensures OutputTools(TagAll(FlushText(u).out, Own(k))) == OutputTools(TagAll(u.out, Own(k)))
  {
    if u.texts != [] {
      ToolsSnoc(u.out, RoleMessage(User, Join("\n", u.texts), [], ""), k);
      assert CallEvents([]) == [];
    }
  }

  lemma OneTools(m: OutMessage, k: nat)
    ensures OutputTools(TagAll([m], Own(k))) == EventsOfMessage(m)
  {
    assert [m] == [] + [m];
    ToolsSnoc([], m, k);
    TagNothing(Own(k));
  }

  lemma AloneOneTools(m: Message, k: nat, replay: Replay)
    requires !m.content.Blocks? || m.role == Assistant
    ensures OutputTools(TagAll(Alone(m, replay), Own(k))) ==
            if m.content.Blocks? then CallEvents(ToolUses(m.content.blocks)) else []
  {
    assert |Alone(m, replay)| == 1;
    assert EventsOfMessage(Alone(m, replay)[0]) ==
           if m.content.Blocks? then CallEvents(ToolUses(m.content.blocks)) else [] by {
      hide Join, ToolUses, ContentParts, ReplayedReasoning;
      assert CallEvents([]) == [];
    }
    hide Alone, OutputTools, TagAll, CallEvents, EventsOfMessage;
    OneTools(Alone(m, replay)[0], k);
    assert Alone(m, replay) == [Alone(m, replay)[0]];
  }

  lemma AloneTools(m: Message, k: nat, replay: Replay)
    ensures OutputTools(TagAll(Alone(m, replay), Own(k))) ==
            (if !m.content.Blocks? then []
             else if m.role == Assistant then CallEvents(ToolUses(m.content.blocks))
             else if m.role == User then ResultEvents(m.content.blocks)
             else [])
  {
    hide StringMessage, AssistantMessage, PlainUser, ToolUses, ResultEvents, CallEvents;
    if m.content.Blocks? && m.role == User {
      PlainUserTools(m.content.blocks, k);
    } else if m.content.Blocks? && m.role != Assistant {
      TagNothing(Own(k));
    } else {
      AloneOneTools(m, k, replay);
    }
  }

  lemma {:induction false} AllAloneTools(ms: seq<Message>, replay: Replay)
    ensures OutputTools(AllAlone(ms, replay)) == InputTools(ms)
  {
    if ms != [] {
      var k, m := |ms| - 1, ms[|ms| - 1];
      AllAloneTools(ms[..k], replay);
      OutputToolsConcat(AllAlone(ms[..k], replay), TagAll(Alone(m, replay), Own(k)));
      AloneTools(m, k, replay);
      hide OutputTools, Alone, TagAll, CallEvents, ResultEvents;
      assert InputTools(ms[..k]) + [] == InputTools(ms[..k]);
    }
  }

  /**
    The output's sequence of tool calls and tool results is exactly the input's sequence of assistant tool
    uses and user tool results: deferral never moves, drops or copies one.
   */
  lemma ToolsAreKept(ms: seq<Message>, replay: Replay)
    ensures OutputTools(Converted(ms, replay)) == InputTools(ms)
  {
    ConvertedFaithful(ms, replay);
    DeferredHasNoTools(Converted(ms, replay), ms, replay);
    OnlyDeferredIsInserted(ms, replay);
    AllAloneTools(ms, replay);
  }
}
