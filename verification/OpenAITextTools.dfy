/**
  The tool calls that the translator finds in plain text: each reaches the client as a block of its own.
 */
module OpenAITextTools {
  import opened Prelude
  import opened StreamContract
  import opened SseBuilder
  import opened OpenAICompat
  import opened OpenAIContract
  import opened OpenAIText

  /** The tools found in the text parts that were handled, in order. */
  function FoundIn(b: Builder, inputs: seq<Input>, cfg: Config): seq<HeuristicTool> {
    if inputs == [] then []
    else
      var front, x := inputs[..|inputs| - 1], inputs[|inputs| - 1];
      FoundIn(b, front, cfg) + if x.TextPart? && !Run(b, front, cfg).1 then x.tools else []
  }

  /** Block `i` was started and stopped. */
  predicate Closed(es: seq<Event>, i: int) {
    Scan(es).Some? && i in Scan(es).value.seen && i !in Scan(es).value.open
  }

  /** Block `i` is a tool block with the tool's id and name, its one delta is the tool's input, and it is stopped. */
  ghost predicate CarriesTool(es: seq<Event>, i: int, tool: HeuristicTool) {
    && BlockStart(i, ToolBlock(tool.id, tool.name)) in es
    && PayloadsAt(es, i) == [tool.input]
    && Closed(es, i)
  }

  /** The tools are carried by the blocks `at`, each by one of its own, in order. */
  ghost predicate Placed(es: seq<Event>, tools: seq<HeuristicTool>, at: seq<int>) {
    && |at| == |tools|
    && (forall j, k :: 0 <= j < k < |at| ==> at[j] < at[k])
    && (forall k :: 0 <= k < |at| ==> CarriesTool(es, at[k], tools[k]))
  }

  ghost predicate Arrived(es: seq<Event>, tools: seq<HeuristicTool>) {
    exists at :: Placed(es, tools, at)
  }

  // ---------------------------------------------------------------------------------------------
  // What has arrived stays: a stopped block is never touched again.

  lemma {:induction false} ClosedStays(es: seq<Event>, es': seq<Event>, i: int)
    requires Closed(es, i) && es <= es' && Scan(es').Some?
    ensures Closed(es', i) && PayloadsAt(es', i) == PayloadsAt(es, i)
    decreases |es'|
  {
    if es' != es {
      var front, last := es'[..|es'| - 1], es'[|es'| - 1];
      assert es <= front && es' == front + [last];
      ScanSnoc(front, last);
      ClosedStays(es, front, i);
      PayloadsSnoc(front, last, i);
      hide Scan, PayloadsAt;
    }
  }

  lemma CarriedStays(es: seq<Event>, es': seq<Event>, i: int, tool: HeuristicTool)
    requires CarriesTool(es, i, tool) && es <= es' && Scan(es').Some?
    ensures CarriesTool(es', i, tool)
  {
    ClosedStays(es, es', i);
  }

  lemma ArrivedStays(es: seq<Event>, es': seq<Event>, tools: seq<HeuristicTool>)
    requires Arrived(es, tools) && es <= es' && Scan(es').Some?
    ensures Arrived(es', tools)
  {
    var at :| Placed(es, tools, at);
    forall k | 0 <= k < |at|
      ensures CarriesTool(es', at[k], tools[k])
    {
      CarriedStays(es, es', at[k], tools[k]);
    }
    assert Placed(es', tools, at);
  }

  lemma ArrivedNext(es: seq<Event>, es': seq<Event>, tools: seq<HeuristicTool>, tool: HeuristicTool, i: int)
    requires Arrived(es, tools) && es <= es' && CarriesTool(es', i, tool)
    requires Scan(es).Some? && forall j :: j in Scan(es).value.seen ==> j < i
    ensures Arrived(es', tools + [tool])
  {
    var at :| Placed(es, tools, at);
    var at' := at + [i];
    forall k | 0 <= k < |at|
      ensures CarriesTool(es', at[k], tools[k]) && at[k] < i
    {
      assert CarriesTool(es, at[k], tools[k]);
      CarriedStays(es, es', at[k], tools[k]);
    }
    assert forall j, k :: 0 <= j < k < |at| ==> at[j] < at[k];
    hide CarriesTool, Scan;
    assert Placed(es', tools + [tool], at');
  }

  lemma NothingArrived(es: seq<Event>)
    ensures Arrived(es, [])
  {
    assert Placed(es, [], []);
  }

  // ---------------------------------------------------------------------------------------------
  // The steps.

  /** A tool block is started on an unused index, filled by the input and stopped. */
  lemma OneShotCarries(b: Builder, tool: HeuristicTool)
    requires Good(b)
    ensures CarriesTool(OneShotBlock(b, ToolBlock(tool.id, tool.name), InputJsonDelta, tool.input).emitted,
                        b.nextIndex, tool)
  {
    var es, i, block := b.emitted, b.nextIndex, ToolBlock(tool.id, tool.name);
    var shot := OneShot(i, block, InputJsonDelta, tool.input);
    PayloadsUnseen(es, i);
    ScanFromConcat(FreshJudge, es, shot);
    OneShotScan(Scan(es).value, i, block, InputJsonDelta, tool.input);
    PayloadsSnoc(es, shot[0], i);
    PayloadsSnoc(es + [shot[0]], shot[1], i);
    PayloadsSnoc(es + [shot[0]] + [shot[1]], shot[2], i);
    hide Good, Scan, PayloadsAt;
    assert es + shot == es + [shot[0]] + [shot[1]] + [shot[2]];
    assert (es + shot)[|es|] == BlockStart(i, block);
  }

  lemma SeenIsBelow(b: Builder)
    requires Good(b)
    ensures Scan(b.emitted).Some? && forall i :: i in Scan(b.emitted).value.seen ==> i < b.nextIndex
  {
  }

  lemma ToolArrives(b: Builder, tools: seq<HeuristicTool>, tool: HeuristicTool)
    requires Good(b) && Arrived(b.emitted, tools)
    ensures var b' := OneShotBlock(CloseContent(b), ToolBlock(tool.id, tool.name), InputJsonDelta, tool.input);
            Arrived(b'.emitted, tools + [tool])
  {
    var b1 := CloseContent(b);
    var b2 := OneShotBlock(b1, ToolBlock(tool.id, tool.name), InputJsonDelta, tool.input);
    CloseContentGood(b);
    CloseContentSilent(b);
    OneShotCarries(b1, tool);
    SeenIsBelow(b);
    assert b1.nextIndex == b.nextIndex && b1.emitted <= b2.emitted;
    assert b.emitted <= b2.emitted;
    hide Good, Arrived, CarriesTool, Scan, CloseContent, OneShotBlock;
    ArrivedNext(b.emitted, b2.emitted, tools, tool, b.nextIndex);
  }

  lemma {:induction false} ToolsArrive(b: Builder, before: seq<HeuristicTool>, tools: seq<HeuristicTool>)
    requires Good(b) && Arrived(b.emitted, before)
    ensures Arrived(HeuristicTools(b, tools).emitted, before + tools)
  {
    hide Good, Arrived;
    if tools == [] {
      assert before + tools == before;
    } else {
      var front, tool := tools[..|tools| - 1], tools[|tools| - 1];
      ToolsArrive(b, before, front);
      HeuristicToolsGood(b, front);
      ToolArrives(HeuristicTools(b, front), before + front, tool);
      assert before + front + [tool] == before + tools;
    }
  }

  lemma GrownArrived(b: Builder, b': Builder, tools: seq<HeuristicTool>)
    requires Arrived(b.emitted, tools) && b.emitted <= b'.emitted && Good(b')
    ensures Arrived(b'.emitted, tools)
  {
    hide Arrived, Scan, Sane, Recorded;
    ArrivedStays(b.emitted, b'.emitted, tools);
  }

  lemma StepArrives(b: Builder, x: Input, cfg: Config, before: seq<HeuristicTool>)
    requires Good(b) && Arrived(b.emitted, before)
    ensures Arrived(Step(b, x, cfg).0.emitted, before + if x.TextPart? then x.tools else [])
  {
    if x.TextPart? {
      var b1 := if x.filtered != "" then Say(b, x.filtered) else b;
      SayGood(b, x.filtered);
      SaySays(b, x.filtered);
      assert b.emitted <= b1.emitted;
      hide Good, Arrived, Say;
      GrownArrived(b, b1, before);
      ToolsArrive(b1, before, x.tools);
    } else {
      StepSays(b, x, cfg);
      StepGood(b, x, cfg);
      hide Good, Arrived, Step;
      GrownArrived(b, Step(b, x, cfg).0, before);
      NothingMore(before);
    }
  }

  lemma {:induction false} RunArrives(b: Builder, inputs: seq<Input>, cfg: Config)
    requires Good(b)
    ensures Arrived(Run(b, inputs, cfg).0.emitted, FoundIn(b, inputs, cfg))
  {
    if inputs == [] {
      NothingArrived(b.emitted);
    } else {
      var front, x := inputs[..|inputs| - 1], inputs[|inputs| - 1];
      hide Good, Arrived, Step;
      RunArrives(b, front, cfg);
      RunGood(b, front, cfg);
      var (b1, raised) := Run(b, front, cfg);
      if raised {
        NothingMore(FoundIn(b, front, cfg));
      } else {
        StepArrives(b1, x, cfg, FoundIn(b, front, cfg));
      }
    }
  }

  // ---------------------------------------------------------------------------------------------
  // The finished stream.

  /** The tools that the parser still held come after the others. */
  lemma HeldToolsArrive(b: Builder, ending: Ending, cfg: Config, before: seq<HeuristicTool>)
    requires Good(b) && Arrived(b.emitted, before) && ending.Ends?
    ensures Arrived(HeuristicTools(SayRemaining(b, ending, cfg), ending.tools).emitted, before + ending.tools)
  {
    var b1 := SayRemaining(b, ending, cfg);
    SayRemainingSays(b, ending, cfg);
    assert b.emitted <= b1.emitted;
    hide Good, Arrived, HeuristicTools;
    match ending.remaining {
      case Some(ThinkingPart(content)) => ThinkGood(b, content);
      case Some(TextPart(content, _)) => SayGood(b, content);
      case _ =>
    }
    GrownArrived(b, b1, before);
    ToolsArrive(b1, before, ending.tools);
  }

  lemma FinishedToolsArrive(b: Builder, ending: Ending, finishReason: string, cfg: Config, before: seq<HeuristicTool>)
    requires Good(b) && Arrived(b.emitted, before) && ending.Ends?
    requires var r := Finish(b, ending, finishReason, cfg); r.Some? && Scan(r.value.emitted).Some?
    ensures Arrived(Finish(b, ending, finishReason, cfg).value.emitted, before + ending.tools)
  {
    var b1 := HeuristicTools(SayRemaining(b, ending, cfg), ending.tools);
    var b2 := Finish(b, ending, finishReason, cfg).value;
    PaddingSays(b, ending, cfg);
    ClosingSilent(b, ending, finishReason, cfg);
    assert b1.emitted <= Complete(b, ending, cfg).emitted <= b2.emitted;
    hide Good, Arrived, Scan, HeuristicTools, SayRemaining, Complete, Finish;
    HeldToolsArrive(b, ending, cfg, before);
    ArrivedStays(b1.emitted, b2.emitted, before + ending.tools);
  }

  /**
    In the finished stream of every run, however it ends, each tool found in the text that was handled and
    each that the parser still held at a normal end has a block of its own, in order of its finding, with its
    id, its name and exactly its input.
   */
  lemma TextToolsArrive(id: string, model: string, inputs: seq<Input>, ending: Ending, finishReason: string,
                        message: string, cfg: Config)
    ensures var b0 := Begin(id, model);
            var (b, raised) := Run(b0, inputs, cfg);
            var r := Transcript(id, model, inputs, ending, finishReason, message, cfg);
            r.Some? && Arrived(r.value.emitted,
                               FoundIn(b0, inputs, cfg) + if raised || ending.Fails? then [] else ending.tools)
  {
    var b0 := Begin(id, model);
    TranscriptMeetsContract(id, model, inputs, ending, finishReason, message, cfg);
    BeginGood(id, model);
    hide Begin, Good, Arrived, Run, Scan, Finish, Fail, FoundIn, HasMessageStart, HasError;
    RunGood(b0, inputs, cfg);
    RunArrives(b0, inputs, cfg);
    var (b, raised) := Run(b0, inputs, cfg);
    var found, final := FoundIn(b0, inputs, cfg), Transcript(id, model, inputs, ending, finishReason, message, cfg).value;
    if raised || ending.Fails? {
      FailSays(b, message);
      ArrivedStays(b.emitted, final.emitted, found);
      NothingMore(found);
    } else {
      FinishedToolsArrive(b, ending, finishReason, cfg, found);
    }
  }
}
