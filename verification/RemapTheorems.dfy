/**
  The remapper against the whole contract, against the identity of its blocks, and against the plain
  "drop the hidden blocks, number the rest 0, 1, 2, ..." it amounts to when blocks do not overlap.
 */
module RemapTheorems {
  import opened Prelude
  import opened StreamContract
  import opened NativeSseBlockPolicy
  import opened RemapSafety
  import opened RemapPayload

  predicate KeptStart(e: Event, thinkingEnabled: bool) {
    e.BlockStart? && !ShouldDropBlockType(e.block.kind, thinkingEnabled)
  }

  predicate HasKeptStart(es: seq<Event>, thinkingEnabled: bool) {
    exists k :: 0 <= k < |es| && KeptStart(es[k], thinkingEnabled)
  }

  lemma HasKeptStartSnoc(es: seq<Event>, e: Event, thinkingEnabled: bool)
    ensures HasKeptStart(es + [e], thinkingEnabled) <==> HasKeptStart(es, thinkingEnabled) || KeptStart(e, thinkingEnabled)
  {
    var es' := es + [e];
    assert es'[|es|] == e;
    if HasKeptStart(es, thinkingEnabled) {
      var k :| 0 <= k < |es| && KeptStart(es[k], thinkingEnabled);
      assert es'[k] == es[k];
    }
  }

  lemma {:induction false} MessageEventsTell(es: seq<Event>)
    ensures HasMessageStart(es) <==> HasMessageStart(MessageEvents(es))
    ensures HasError(es) <==> HasError(MessageEvents(es))
  {
    if es != [] {
      var front, e := es[..|es| - 1], es[|es| - 1];
      MessageEventsTell(front);
      assert es == front + [e];
      HasMessageStartConcat(front, [e]);
      HasErrorConcat(front, [e]);
      HasMessageStartConcat(MessageEvents(front), [e]);
      HasErrorConcat(MessageEvents(front), [e]);
      assert e.MessageStart? ==> HasMessageStart([e]) by { assert [e][0] == e; }
      assert e.Error? ==> HasError([e]) by { assert [e][0] == e; }
    }
  }

  /** For a lawful upstream, a downstream index is allocated as soon as a block is kept, and only then. */
  lemma {:induction false} AllocatesWhenKept(up: seq<Event>, thinkingEnabled: bool)
    requires Scan(up).Some?
    ensures Remap(up, thinkingEnabled).policy.nextIndex > 0 <==> HasKeptStart(up, thinkingEnabled)
  {
    if up != [] {
      var front, e := up[..|up| - 1], up[|up| - 1];
      assert up == front + [e];
      AllocatesWhenKept(front, thinkingEnabled);
      LawfulIsLenient(front, thinkingEnabled);
      RemapLinked(front, thinkingEnabled);
      HasKeptStartSnoc(front, e, thinkingEnabled);
      RemapSnoc(front, e, thinkingEnabled);
      var r := Remap(front, thinkingEnabled);
      AllocatesOne(Scan(front).value, r.policy, r.owners, e, thinkingEnabled);
    }
  }

  lemma AllocatesOne(j: Judge, p: Policy, owners: seq<int>, e: Event, thinkingEnabled: bool)
    requires Known(j, p, owners) && JudgeStep(j, e).Some?
    ensures Transform(p, e, thinkingEnabled).0.nextIndex > 0 <==> p.nextIndex > 0 || KeptStart(e, thinkingEnabled)
  {
    if e.BlockStart? { CloseOthersMeaning(p, p.order, e.index); }
  }

  /**
    A contract-obeying upstream comes out obeying the contract exactly when the thinking policy leaves it
    at least one block; its blocks may overlap in any way.
   */
  lemma RemapMeetsContract(up: seq<Event>, thinkingEnabled: bool, allowError: bool)
    requires Contract(up, allowError)
    ensures Contract(Remap(up, thinkingEnabled).out, allowError) <==> HasKeptStart(up, thinkingEnabled)
  {
    var r := Remap(up, thinkingEnabled);
    LawfulIsLenient(up, thinkingEnabled);
    RemapCloses(up, thinkingEnabled);
    RemapConserves(up, thinkingEnabled);
    MessageEventsTell(up);
    MessageEventsTell(r.out);
    AllocatesWhenKept(up, thinkingEnabled);
    RemapLinked(up, thinkingEnabled);
    var d := Scan(r.out).value;
    EmptyJudge(d);
    assert d.seen != {} <==> r.policy.nextIndex > 0 by {
      if r.policy.nextIndex > 0 { assert 0 in d.seen; }
    }
    var front := up[..|up| - 1];
    assert r.out == Remap(front, thinkingEnabled).out + [MessageStop];
  }

  // ---------------------------------------------------------------------------------------------
  // Identity of blocks.

  /** The content block with which each upstream index was started. */
  function StartBlocks(es: seq<Event>): map<int, Block> {
    if es == [] then map[]
    else
      var front, e := StartBlocks(es[..|es| - 1]), es[|es| - 1];
      if e.BlockStart? then front[e.index := e.block] else front
  }

  /** A start sent downstream for upstream block `u`: the original block, or a stand-in of the same kind. */
  ghost predicate StandsFor(b: Block, u: int, original: Block) {
    || b == original
    || (b == SyntheticStartBlock(original.kind, u, Some(original))
        && (original.kind == TextType || original.kind == ThinkingType || original.kind == ToolUseType))
  }

  ghost predicate StartsFaithful(es: seq<Event>, owners: seq<int>, blocks: map<int, Block>) {
    forall k :: 0 <= k < |es| && es[k].BlockStart? ==>
      && 0 <= es[k].index < |owners|
      && owners[es[k].index] in blocks
      && StandsFor(es[k].block, owners[es[k].index], blocks[owners[es[k].index]])
  }

  ghost predicate Remembers(j: Judge, p: Policy, blocks: map<int, Block>) {
    && (forall u :: u in j.seen <==> u in blocks)
    && (forall u :: u in j.open ==> u in blocks && j.open[u] == StorageOf(blocks[u]))
    && (forall u :: u in p.byUpstream ==> u in blocks && p.byUpstream[u].lastStartBlock == blocks[u])
  }

  lemma {:induction false} StopsAreStops(p: Policy, order: seq<int>, current: int)
    ensures forall k :: 0 <= k < |StopsFor(p, order, current)| ==> StopsFor(p, order, current)[k].BlockStop?
  {
    if order != [] {
      StopsAreStops(p, order[..|order| - 1], current);
    }
  }

  /** What a start that the policy keeps does: the other blocks are closed and a segment is allocated. */
  lemma KeptStartShape(p: Policy, e: Event, thinkingEnabled: bool)
    requires KeptStart(e, thinkingEnabled)
    ensures Transform(p, e, thinkingEnabled) ==
            (AllocateSegment(CloseOthers(p, p.order, e.index), e.index, e.block.kind, e.block),
             StopsFor(p, p.order, e.index) + [BlockStart(p.nextIndex, e.block)])
    ensures CloseOthers(p, p.order, e.index).nextIndex == p.nextIndex
  {
    hide ShouldDropBlockType, StopsFor, AllocateSegment;
    CloseOthersMeaning(p, p.order, e.index);
  }

  /** Apart from a start, an event makes nothing, one event that starts no block, or a start and its delta. */
  lemma OtherShape(p: Policy, e: Event, thinkingEnabled: bool)
    requires !e.BlockStart?
    ensures var (p', out) := Transform(p, e, thinkingEnabled);
            || (out == [] && p'.nextIndex == p.nextIndex)
            || (|out| == 1 && !out[0].BlockStart? && p'.nextIndex == p.nextIndex)
            || (|out| == 2 && out[0].BlockStart? && out[0].index == p.nextIndex && out[1].BlockDelta?
                && p'.nextIndex == p.nextIndex + 1)
  {
    hide SyntheticStartBlock, ShouldDropDeltaType;
  }

  lemma StartShape(p: Policy, e: Event, thinkingEnabled: bool)
    requires e.BlockStart?
    ensures var (p', out) := Transform(p, e, thinkingEnabled);
            || (out == [] && p'.nextIndex == p.nextIndex)
            || (out == StopsFor(p, p.order, e.index) + [BlockStart(p.nextIndex, e.block)] && p'.nextIndex == p.nextIndex + 1)
  {
    hide ShouldDropBlockType, StopsFor;
    CloseOthersMeaning(p, p.order, e.index);
  }

  lemma StartRemembers(j: Judge, p: Policy, owners: seq<int>, blocks: map<int, Block>, e: Event, thinkingEnabled: bool)
    requires Known(j, p, owners) && Remembers(j, p, blocks) && JudgeStep(j, e).Some? && KeptStart(e, thinkingEnabled)
    ensures var (p', out) := Transform(p, e, thinkingEnabled);
            var blocks' := blocks[e.index := e.block];
            && p'.nextIndex > p.nextIndex
            && Remembers(JudgeStep(j, e).value, p', blocks') && StartsFaithful(out, owners + [e.index], blocks')
  {
    var blocks', owners' := blocks[e.index := e.block], owners + [e.index];
    var start := BlockStart(p.nextIndex, e.block);
    KeptStartShape(p, e, thinkingEnabled);
    CloseOthersMeaning(p, p.order, e.index);
    StopsAreStops(p, p.order, e.index);
    assert Known(j, p, owners) && |owners| == p.nextIndex;
    hide Transform, CloseOthers, StopsFor, ShouldDropBlockType, Known;
    StartFaithful(start, owners', blocks');
    RemembersStart(j, p, CloseOthers(p, p.order, e.index), blocks, e);
    hide StandsFor, StartsFaithful, Remembers;
    StopsFaithful(StopsFor(p, p.order, e.index), owners', blocks');
    StartsFaithfulConcat(StopsFor(p, p.order, e.index), [start], owners', owners', blocks', blocks');
  }

  lemma StartFaithful(start: Event, owners: seq<int>, blocks: map<int, Block>)
    requires start.BlockStart? && 0 <= start.index < |owners|
    requires owners[start.index] in blocks && blocks[owners[start.index]] == start.block
    ensures StartsFaithful([start], owners, blocks)
  {
  }

  lemma StopsFaithful(stops: seq<Event>, owners: seq<int>, blocks: map<int, Block>)
    requires forall k :: 0 <= k < |stops| ==> stops[k].BlockStop?
    ensures StartsFaithful(stops, owners, blocks)
  {
  }

  lemma RemembersStart(j: Judge, p: Policy, q: Policy, blocks: map<int, Block>, e: Event)
    requires Remembers(j, p, blocks) && e.BlockStart? && JudgeStep(j, e).Some?
    requires q.byUpstream.Keys == p.byUpstream.Keys
    requires forall u :: u in p.byUpstream ==> q.byUpstream[u].lastStartBlock == p.byUpstream[u].lastStartBlock
    ensures Remembers(JudgeStep(j, e).value, AllocateSegment(q, e.index, e.block.kind, e.block), blocks[e.index := e.block])
  {
  }

  lemma DeltaRemembers(j: Judge, p: Policy, owners: seq<int>, blocks: map<int, Block>, e: Event, thinkingEnabled: bool)
    requires Known(j, p, owners) && Remembers(j, p, blocks) && JudgeStep(j, e).Some? && e.BlockDelta?
    ensures var (p', out) := Transform(p, e, thinkingEnabled);
            var owners' := if p'.nextIndex > p.nextIndex then owners + [e.index] else owners;
            Remembers(j, p', blocks) && StartsFaithful(out, owners', blocks)
  {
    hide ShouldDropDeltaType, SyntheticStartBlock;
  }

  lemma StepRemembers(j: Judge, p: Policy, owners: seq<int>, blocks: map<int, Block>, e: Event, thinkingEnabled: bool)
    requires Known(j, p, owners) && Remembers(j, p, blocks) && JudgeStep(j, e).Some?
    ensures var (p', out) := Transform(p, e, thinkingEnabled);
            var owners' := if p'.nextIndex > p.nextIndex then owners + [UpstreamIndex(e)] else owners;
            var blocks' := if e.BlockStart? then blocks[e.index := e.block] else blocks;
            Remembers(JudgeStep(j, e).value, p', blocks') && StartsFaithful(out, owners', blocks')
  {
    if KeptStart(e, thinkingEnabled) {
      StartRemembers(j, p, owners, blocks, e, thinkingEnabled);
      hide Transform, Remembers, Known;
    } else if e.BlockDelta? {
      DeltaRemembers(j, p, owners, blocks, e, thinkingEnabled);
      hide Transform, Remembers, Known;
    }
  }

  /**
    Every block start sent downstream is the upstream start of the block that owns the index, or, for a
    reopened segment, a stand-in of the same kind that repeats the tool's identity.
   */
  lemma {:induction false} RemapKeepsIdentity(up: seq<Event>, thinkingEnabled: bool)
    requires Scan(up).Some?
    ensures var r := Remap(up, thinkingEnabled);
            StartsFaithful(r.out, r.owners, StartBlocks(up)) && Remembers(Scan(up).value, r.policy, StartBlocks(up))
  {
    if up != [] {
      var front, e := up[..|up| - 1], up[|up| - 1];
      assert up == front + [e];
      RemapKeepsIdentity(front, thinkingEnabled);
      LawfulIsLenient(front, thinkingEnabled);
      RemapLinked(front, thinkingEnabled);
      RemapSnoc(front, e, thinkingEnabled);
      var r := Remap(front, thinkingEnabled);
      var j := Scan(front).value;
      assert Known(j, r.policy, r.owners);
      assert e.BlockStart? ==> e.index !in StartBlocks(front);
      StepRemembers(j, r.policy, r.owners, StartBlocks(front), e, thinkingEnabled);
      var (p', out) := Transform(r.policy, e, thinkingEnabled);
      var owners' := if p'.nextIndex > r.policy.nextIndex then r.owners + [UpstreamIndex(e)] else r.owners;
      assert r.owners <= owners';
      hide Linked, Known, Transform, Remap, JudgeStep, StandsFor, Remembers;
      StartsFaithfulConcat(r.out, out, r.owners, owners', StartBlocks(front), StartBlocks(up));
    }
  }

  lemma StartsFaithfulConcat(a: seq<Event>, b: seq<Event>, owners: seq<int>, owners': seq<int>,
                             blocks: map<int, Block>, blocks': map<int, Block>)
    requires StartsFaithful(a, owners, blocks) && StartsFaithful(b, owners', blocks')
    requires owners <= owners' && forall u :: u in blocks ==> u in blocks' && blocks'[u] == blocks[u]
    ensures StartsFaithful(a + b, owners', blocks')
  {
    hide StandsFor;
  }

  /** The stand-in of a tool block carries the tool's own id, name and input. */
  lemma ReopenedToolIsSameTool(b: Block, u: int, original: Block)
    requires StandsFor(b, u, original) && original.kind == ToolUseType
    requires original.id.Some? && original.id.value != "" && original.name.Some? && original.input.Some?
    ensures b.kind == ToolUseType && b.id == original.id && b.name == original.name && b.input == original.input
  {
  }

  // ---------------------------------------------------------------------------------------------
  // Streams whose kept blocks do not overlap.

  /** The blocks hidden by the thinking policy. */
  function DroppedBlocks(es: seq<Event>, thinkingEnabled: bool): set<int> {
    if es == [] then {}
    else
      var front, e := DroppedBlocks(es[..|es| - 1], thinkingEnabled), es[|es| - 1];
      if e.BlockStart? && ShouldDropBlockType(e.block.kind, thinkingEnabled) then front + {e.index} else front
  }

  predicate OfBlock(e: Event, blocks: set<int>) {
    (e.BlockStart? || e.BlockDelta? || e.BlockStop?) && e.index in blocks
  }

  /** The stream without the events of some blocks. */
  function WithoutBlocks(es: seq<Event>, blocks: set<int>): seq<Event> {
    if es == [] then []
    else
      var front, e := WithoutBlocks(es[..|es| - 1], blocks), es[|es| - 1];
      if OfBlock(e, blocks) then front else front + [e]
  }

  /** The blocks of a stream numbered 0, 1, 2, ... in the order of their starts. */
  function Numbering(es: seq<Event>): map<int, int> {
    if es == [] then map[]
    else
      var front, e := Numbering(es[..|es| - 1]), es[|es| - 1];
      if e.BlockStart? then front[e.index := |front|] else front
  }

  function WithNumber(e: Event, numbers: map<int, int>): Event {
    match e
    case BlockStart(i, b) => if i in numbers then BlockStart(numbers[i], b) else e
    case BlockDelta(i, d, t) => if i in numbers then BlockDelta(numbers[i], d, t) else e
    case BlockStop(i) => if i in numbers then BlockStop(numbers[i]) else e
    case _ => e
  }

  function Renumber(es: seq<Event>): seq<Event> {
    if es == [] then [] else Renumber(es[..|es| - 1]) + [WithNumber(es[|es| - 1], Numbering(es))]
  }

  /** Drop what the thinking policy hides, then renumber. */
  function DropAndRenumber(up: seq<Event>, thinkingEnabled: bool): seq<Event> {
    Renumber(WithoutBlocks(up, DroppedBlocks(up, thinkingEnabled)))
  }

  /** No block that the policy keeps is started while another kept block is open. */
  ghost predicate KeptBlocksApart(up: seq<Event>, thinkingEnabled: bool) {
    up == []
    || (var front, e := up[..|up| - 1], up[|up| - 1];
        && KeptBlocksApart(front, thinkingEnabled)
        && (KeptStart(e, thinkingEnabled) && Scan(front).Some? ==>
              forall i :: i in Scan(front).value.open ==> i in DroppedBlocks(front, thinkingEnabled)))
  }

  lemma {:induction false} WithoutUntouched(es: seq<Event>, blocks: set<int>, u: int)
    requires Scan(es).Some? && u !in Scan(es).value.seen
    ensures WithoutBlocks(es, blocks + {u}) == WithoutBlocks(es, blocks)
  {
    if es != [] {
      var front := es[..|es| - 1];
      SeenContainsOpen(front);
      WithoutUntouched(front, blocks, u);
    }
  }

  lemma {:induction false} SeenContainsOpen(es: seq<Event>)
    requires Scan(es).Some?
    ensures forall i :: i in Scan(es).value.open ==> i in Scan(es).value.seen
  {
    if es != [] {
      SeenContainsOpen(es[..|es| - 1]);
    }
  }

  /** How the reference grows by one event. */
  lemma ReferenceSnoc(front: seq<Event>, e: Event, thinkingEnabled: bool)
    requires Scan(front + [e]).Some?
    ensures var dropped := DroppedBlocks(front + [e], thinkingEnabled);
            var kept := WithoutBlocks(front, DroppedBlocks(front, thinkingEnabled));
            && dropped == (if e.BlockStart? && !KeptStart(e, thinkingEnabled)
                           then DroppedBlocks(front, thinkingEnabled) + {e.index}
                           else DroppedBlocks(front, thinkingEnabled))
            && WithoutBlocks(front + [e], dropped) == (if OfBlock(e, dropped) then kept else kept + [e])
  {
    var up := front + [e];
    assert up[..|front|] == front;
    ScanSnoc(front, e);
    if e.BlockStart? && !KeptStart(e, thinkingEnabled) {
      WithoutUntouched(front, DroppedBlocks(front, thinkingEnabled), e.index);
    }
  }

  lemma RenumberSnoc(es: seq<Event>, e: Event)
    ensures Numbering(es + [e]) == if e.BlockStart? then Numbering(es)[e.index := |Numbering(es)|] else Numbering(es)
    ensures Renumber(es + [e]) == Renumber(es) + [WithNumber(e, Numbering(es + [e]))]
  {
    assert (es + [e])[..|es|] == es;
  }

  /** The remapper numbers the kept blocks like the reference and owes no stops. */
  ghost predicate InStep(p: Policy, dropped: set<int>, numbers: map<int, int>) {
    && p.droppedIndexes == dropped
    && p.nextIndex == |numbers|
    && p.pendingSuppressedStops == {}
    && (forall u :: u in p.byUpstream <==> u in numbers)
    && (forall u :: u in p.byUpstream ==> p.byUpstream[u].downIndex == numbers[u])
  }

  /** The two streams have already parted. */
  ghost predicate Parted(a: seq<Event>, b: seq<Event>) {
    exists n :: 0 <= n < |a| && n < |b| && a[n] != b[n]
  }

  lemma PartedForGood(a: seq<Event>, b: seq<Event>, a': seq<Event>, b': seq<Event>)
    requires Parted(a, b)
    ensures Parted(a + a', b + b') && a + a' != b + b'
  {
    var n :| 0 <= n < |a| && n < |b| && a[n] != b[n];
    assert (a + a')[n] == a[n] && (b + b')[n] == b[n];
  }

  lemma {:induction false} NothingInterrupted(p: Policy, order: seq<int>, current: int)
    requires forall u :: u in order ==> !Interrupts(p, u, current)
    ensures CloseOthers(p, order, current) == p && StopsFor(p, order, current) == []
  {
    if order != [] {
      var n := |order| - 1;
      assert forall u :: u in order[..n] ==> u in order;
      NothingInterrupted(p, order[..n], current);
      assert order[n] in order;
    }
  }

  lemma {:induction false} SomethingInterrupted(p: Policy, order: seq<int>, current: int, u: int)
    requires Distinct(order) && u in order && Interrupts(p, u, current)
    ensures StopsFor(p, order, current) != []
  {
    var n := |order| - 1;
    var front := order[..n];
    assert order == front + [order[n]];
    if u == order[n] {
      CloseOthersMeaning(p, front, current);
      assert u !in front;
    } else {
      SomethingInterrupted(p, front, current, u);
    }
  }

  /** One event other than a kept start, in step with the reference. */
  lemma StepInStep(j: Judge, p: Policy, owners: seq<int>, e: Event, numbers: map<int, int>, thinkingEnabled: bool)
    requires Known(j, p, owners) && Owed(j, p) && JudgeStep(j, e).Some? && !KeptStart(e, thinkingEnabled)
    requires InStep(p, p.droppedIndexes, numbers)
    requires e.BlockDelta? && ShouldDropDeltaType(e.delta, thinkingEnabled) ==> e.index in p.droppedIndexes
    ensures var (p', out) := Transform(p, e, thinkingEnabled);
            var dropped := if e.BlockStart? then p.droppedIndexes + {e.index} else p.droppedIndexes;
            InStep(p', dropped, numbers) && out == if OfBlock(e, dropped) then [] else [WithNumber(e, numbers)]
  {
  }

  lemma AllocateInStep(p: Policy, u: int, block: Block, numbers: map<int, int>)
    requires InStep(p, p.droppedIndexes, numbers) && u !in p.byUpstream
    ensures InStep(AllocateSegment(p, u, block.kind, block), p.droppedIndexes, numbers[u := |numbers|])
  {
  }

  lemma KeptStartInStep(j: Judge, p: Policy, owners: seq<int>, e: Event, numbers: map<int, int>, thinkingEnabled: bool)
    requires Known(j, p, owners) && Owed(j, p) && JudgeStep(j, e).Some? && KeptStart(e, thinkingEnabled)
    requires InStep(p, p.droppedIndexes, numbers)
    requires forall u :: u in p.byUpstream && p.byUpstream[u].open ==> u in j.open
    ensures var (p', out) := Transform(p, e, thinkingEnabled);
            if forall i :: i in j.open ==> i in p.droppedIndexes
            then InStep(p', p.droppedIndexes, numbers[e.index := |numbers|])
                 && out == [BlockStart(|numbers|, e.block)]
            else out != [] && out[0].BlockStop?
  {
    KeptStartShape(p, e, thinkingEnabled);
    hide Transform, CloseOthers, StopsFor, AllocateSegment;
    if forall i :: i in j.open ==> i in p.droppedIndexes {
      NothingInterrupted(p, p.order, e.index);
      AllocateInStep(p, e.index, e.block, numbers);
    } else {
      var i :| i in j.open && i !in p.droppedIndexes;
      assert i in p.byUpstream && i !in p.pendingSuppressedStops;
      assert Interrupts(p, i, e.index);
      SomethingInterrupted(p, p.order, e.index, i);
      StopsAreStops(p, p.order, e.index);
    }
  }

  /** A thinking delta in a lawful stream belongs to a thinking block, which the policy has dropped. */
  lemma HiddenDeltaOfDroppedBlock(j: Judge, p: Policy, blocks: map<int, Block>, e: Event, dropped: set<int>,
                                  thinkingEnabled: bool)
    requires e.BlockDelta? && JudgeStep(j, e).Some? && ShouldDropDeltaType(e.delta, thinkingEnabled)
    requires Remembers(j, p, blocks)
    requires forall u :: u in blocks && ShouldDropBlockType(blocks[u].kind, thinkingEnabled) ==> u in dropped
    ensures e.index in dropped
  {
  }

  lemma {:induction false} DroppedAreDropped(up: seq<Event>, thinkingEnabled: bool)
    requires Scan(up).Some?
    ensures forall u :: u in StartBlocks(up) && ShouldDropBlockType(StartBlocks(up)[u].kind, thinkingEnabled) ==>
              u in DroppedBlocks(up, thinkingEnabled)
  {
    if up != [] {
      DroppedAreDropped(up[..|up| - 1], thinkingEnabled);
    }
  }

  ghost predicate Agreement(up: seq<Event>, thinkingEnabled: bool) {
    var r := Remap(up, thinkingEnabled);
    var dropped := DroppedBlocks(up, thinkingEnabled);
    if KeptBlocksApart(up, thinkingEnabled)
    then r.out == DropAndRenumber(up, thinkingEnabled) && InStep(r.policy, dropped, Numbering(WithoutBlocks(up, dropped)))
    else Parted(r.out, DropAndRenumber(up, thinkingEnabled))
  }

  lemma ApartSnoc(front: seq<Event>, e: Event, thinkingEnabled: bool)
    requires Scan(front).Some?
    ensures KeptBlocksApart(front + [e], thinkingEnabled) <==>
            && KeptBlocksApart(front, thinkingEnabled)
            && (KeptStart(e, thinkingEnabled) ==>
                  forall i :: i in Scan(front).value.open ==> i in DroppedBlocks(front, thinkingEnabled))
  {
    hide Scan, DroppedBlocks;
    assert (front + [e])[..|front|] == front;
  }

  /** How the reference stream and its numbering grow by one event. */
  lemma DropAndRenumberSnoc(front: seq<Event>, e: Event, thinkingEnabled: bool)
    requires Scan(front + [e]).Some?
    ensures var dropped, dropped' := DroppedBlocks(front, thinkingEnabled), DroppedBlocks(front + [e], thinkingEnabled);
            var numbers := Numbering(WithoutBlocks(front, dropped));
            var numbers' := if OfBlock(e, dropped') || !e.BlockStart? then numbers else numbers[e.index := |numbers|];
            && dropped' == (if e.BlockStart? && !KeptStart(e, thinkingEnabled) then dropped + {e.index} else dropped)
            && Numbering(WithoutBlocks(front + [e], dropped')) == numbers'
            && DropAndRenumber(front + [e], thinkingEnabled) ==
               DropAndRenumber(front, thinkingEnabled) + if OfBlock(e, dropped') then [] else [WithNumber(e, numbers')]
  {
    var dropped, dropped' := DroppedBlocks(front, thinkingEnabled), DroppedBlocks(front + [e], thinkingEnabled);
    ReferenceSnoc(front, e, thinkingEnabled);
    var kept := WithoutBlocks(front, dropped);
    hide WithoutBlocks, DroppedBlocks, Numbering, Renumber, Scan;
    RenumberSnoc(kept, e);
    assert Renumber(kept) + [] == Renumber(kept);
  }

  lemma StepParts(a: seq<Event>, out: seq<Event>, b: Event)
    requires out != [] && out[0].BlockStop? && b.BlockStart?
    ensures Parted(a + out, a + [b])
  {
    assert (a + out)[|a|] == out[0] && (a + [b])[|a|] == b;
  }

  lemma AgreementSnoc(front: seq<Event>, e: Event, thinkingEnabled: bool)
    requires Scan(front + [e]).Some? && Scan(front).Some? && Agreement(front, thinkingEnabled)
    ensures Agreement(front + [e], thinkingEnabled)
  {
    if KeptBlocksApart(front, thinkingEnabled) {
      ApartAgrees(front, e, thinkingEnabled);
    } else {
      var r := Remap(front, thinkingEnabled);
      var out := Transform(r.policy, e, thinkingEnabled).1;
      RemapSnoc(front, e, thinkingEnabled);
      ApartSnoc(front, e, thinkingEnabled);
      DropAndRenumberSnoc(front, e, thinkingEnabled);
      hide Transform, DropAndRenumber, Numbering, WithoutBlocks, DroppedBlocks, Remap, Scan, KeptBlocksApart,
           WithNumber, InStep;
      var before, after := DropAndRenumber(front, thinkingEnabled), DropAndRenumber(front + [e], thinkingEnabled);
      assert after[..|before|] == before;
      PartedForGood(r.out, before, out, after[|before|..]);
    }
  }

  /** Where remapper and reference stand, still in step, before one more event. */
  lemma ApartFacts(front: seq<Event>, e: Event, thinkingEnabled: bool)
    requires Scan(front + [e]).Some? && Scan(front).Some?
    requires KeptBlocksApart(front, thinkingEnabled) && Agreement(front, thinkingEnabled)
    ensures var r, j, dropped := Remap(front, thinkingEnabled), Scan(front).value, DroppedBlocks(front, thinkingEnabled);
            && JudgeStep(j, e).Some? && Known(j, r.policy, r.owners) && Owed(j, r.policy)
            && r.policy.droppedIndexes == dropped
            && r.out == DropAndRenumber(front, thinkingEnabled)
            && InStep(r.policy, dropped, Numbering(WithoutBlocks(front, dropped)))
            && (forall u :: u in r.policy.byUpstream && r.policy.byUpstream[u].open ==> u in j.open)
  {
    var r, j := Remap(front, thinkingEnabled), Scan(front).value;
    ScanSnoc(front, e);
    LawfulIsLenient(front, thinkingEnabled);
    assert r.policy.droppedIndexes == DroppedBlocks(front, thinkingEnabled);
    hide Numbering, WithoutBlocks, DropAndRenumber, DroppedBlocks, Remap, Scan, KeptBlocksApart, Known, Owed, Lenient,
         JudgeStep;
    RemapLinked(front, thinkingEnabled);
    LinkedFacts(j, r.policy, r.owners, Scan(r.out).value);
  }

  lemma ApartStart(front: seq<Event>, e: Event, thinkingEnabled: bool)
    requires Scan(front + [e]).Some? && Scan(front).Some? && KeptStart(e, thinkingEnabled)
    requires KeptBlocksApart(front, thinkingEnabled) && Agreement(front, thinkingEnabled)
    ensures Agreement(front + [e], thinkingEnabled)
  {
    var r, j := Remap(front, thinkingEnabled), Scan(front).value;
    var numbers := Numbering(WithoutBlocks(front, DroppedBlocks(front, thinkingEnabled)));
    var out := Transform(r.policy, e, thinkingEnabled).1;
    ApartFacts(front, e, thinkingEnabled);
    hide Transform, Numbering, WithoutBlocks, DropAndRenumber, DroppedBlocks, Remap, Scan, KeptBlocksApart, Linked,
         Known, Owed, Lenient, JudgeStep;
    RemapSnoc(front, e, thinkingEnabled);
    ApartSnoc(front, e, thinkingEnabled);
    DropAndRenumberSnoc(front, e, thinkingEnabled);
    FreshNotDropped(j, r.policy, r.owners, e);
    KeptStartInStep(j, r.policy, r.owners, e, numbers, thinkingEnabled);
    if !(forall i :: i in j.open ==> i in r.policy.droppedIndexes) {
      StepParts(r.out, out, WithNumber(e, numbers[e.index := |numbers|]));
    }
  }

  lemma ApartOther(front: seq<Event>, e: Event, thinkingEnabled: bool)
    requires Scan(front + [e]).Some? && Scan(front).Some? && !KeptStart(e, thinkingEnabled)
    requires KeptBlocksApart(front, thinkingEnabled) && Agreement(front, thinkingEnabled)
    ensures Agreement(front + [e], thinkingEnabled)
  {
    var r, j := Remap(front, thinkingEnabled), Scan(front).value;
    var numbers := Numbering(WithoutBlocks(front, DroppedBlocks(front, thinkingEnabled)));
    ApartFacts(front, e, thinkingEnabled);
    RemapKeepsIdentity(front, thinkingEnabled);
    DroppedAreDropped(front, thinkingEnabled);
    hide Transform, Numbering, WithoutBlocks, DropAndRenumber, DroppedBlocks, Remap, Scan, KeptBlocksApart, Linked,
         Known, Owed, Lenient, JudgeStep;
    if e.BlockDelta? && ShouldDropDeltaType(e.delta, thinkingEnabled) {
      HiddenDeltaOfDroppedBlock(j, r.policy, StartBlocks(front), e, r.policy.droppedIndexes, thinkingEnabled);
    }
    RemapSnoc(front, e, thinkingEnabled);
    ApartSnoc(front, e, thinkingEnabled);
    DropAndRenumberSnoc(front, e, thinkingEnabled);
    StepInStep(j, r.policy, r.owners, e, numbers, thinkingEnabled);
    NothingMore(r.out);
  }

  lemma ApartAgrees(front: seq<Event>, e: Event, thinkingEnabled: bool)
    requires Scan(front + [e]).Some? && Scan(front).Some?
    requires KeptBlocksApart(front, thinkingEnabled) && Agreement(front, thinkingEnabled)
    ensures Agreement(front + [e], thinkingEnabled)
  {
    hide Agreement, Scan, KeptBlocksApart;
    if KeptStart(e, thinkingEnabled) {
      ApartStart(front, e, thinkingEnabled);
    } else {
      ApartOther(front, e, thinkingEnabled);
    }
  }

  lemma LinkedFacts(j: Judge, p: Policy, owners: seq<int>, d: Judge)
    requires Linked(j, p, owners, d)
    ensures Known(j, p, owners) && Owed(j, p)
    ensures forall u :: u in p.byUpstream && p.byUpstream[u].open ==> u in j.open
  {
  }

  lemma FreshNotDropped(j: Judge, p: Policy, owners: seq<int>, e: Event)
    requires Known(j, p, owners) && e.BlockStart? && JudgeStep(j, e).Some?
    ensures e.index !in p.droppedIndexes && e.index !in p.byUpstream
  {
  }

  /**
    The remapper equals "drop the hidden blocks, then number the rest 0, 1, 2, ..." exactly when no kept
    block is started while another kept block is open.
   */
  lemma {:induction false} RemapIsDropAndRenumber(up: seq<Event>, thinkingEnabled: bool)
    requires Scan(up).Some?
    ensures Remap(up, thinkingEnabled).out == DropAndRenumber(up, thinkingEnabled) <==> KeptBlocksApart(up, thinkingEnabled)
    ensures Agreement(up, thinkingEnabled)
  {
    if up != [] {
      var front, e := up[..|up| - 1], up[|up| - 1];
      assert up == front + [e];
      ScanPrefix(up, |front|);
      RemapIsDropAndRenumber(front, thinkingEnabled);
      AgreementSnoc(front, e, thinkingEnabled);
    }
  }

  /** A message of two text blocks, the second inside the first. */
  function NestedBlocks(id: string, model: string): seq<Event> {
    [MessageStart(id, model), BlockStart(0, PlainBlock(TextType)), BlockStart(1, PlainBlock(TextType)),
     BlockStop(1), BlockStop(0), MessageStop]
  }

  lemma {:induction false} ApartPrefix(up: seq<Event>, n: nat, thinkingEnabled: bool)
    requires n <= |up| && KeptBlocksApart(up, thinkingEnabled)
    ensures KeptBlocksApart(up[..n], thinkingEnabled)
    decreases |up|
  {
    if n < |up| {
      assert up[..|up| - 1][..n] == up[..n];
      ApartPrefix(up[..|up| - 1], n, thinkingEnabled);
    } else {
      assert up[..n] == up;
    }
  }

  lemma {:induction false} NoThinkingNoneDropped(es: seq<Event>, thinkingEnabled: bool)
    requires forall k :: 0 <= k < |es| && es[k].BlockStart? ==> es[k].block.kind == TextType
    ensures DroppedBlocks(es, thinkingEnabled) == {}
  {
    if es != [] { NoThinkingNoneDropped(es[..|es| - 1], thinkingEnabled); }
  }

  /** Starting an unused plain block, and stopping an open one. */
  lemma JudgedSteps(es: seq<Event>, j: Judge, i: int, kind: BlockType)
    requires Scan(es) == Some(j)
    ensures AllowedStart(kind) && i !in j.open && i !in j.seen ==>
              Scan(es + [BlockStart(i, PlainBlock(kind))]) == Some(Judge(j.open[i := Plain(kind)], j.seen + {i}))
    ensures i in j.open ==> Scan(es + [BlockStop(i)]) == Some(Judge(j.open - {i}, j.seen))
  {
    PlainStorage(kind);
    ScanSnoc(es, BlockStart(i, PlainBlock(kind)));
    ScanSnoc(es, BlockStop(i));
  }

  lemma NestedBlocksAreLawful(id: string, model: string)
    ensures Contract(NestedBlocks(id, model), false)
    ensures Scan(NestedBlocks(id, model)[..2]).Some? && 0 in Scan(NestedBlocks(id, model)[..2]).value.open
  {
    var es := NestedBlocks(id, model);
    var s1, s2, s3, s4, s5 := [es[0]], es[..2], es[..3], es[..4], es[..5];
    assert s2 == s1 + [es[1]] && s3 == s2 + [es[2]] && s4 == s3 + [es[3]] && s5 == s4 + [es[4]] && es == s5 + [es[5]];
    ScanOne(FreshJudge, es[0]);
    assert Scan(s1) == Some(FreshJudge);
    hide Scan;
    var j2 := Judge(map[][0 := Plain(TextType)], {} + {0});
    var j3 := Judge(j2.open[1 := Plain(TextType)], j2.seen + {1});
    var j4 := Judge(j3.open - {1}, j3.seen);
    JudgedSteps(s1, FreshJudge, 0, TextType);
    JudgedSteps(s2, j2, 1, TextType);
    JudgedSteps(s3, j3, 1, TextType);
    JudgedSteps(s4, j4, 0, TextType);
    ScanSnoc(s5, MessageStop);
    assert j4.open - {0} == map[];
    assert es[0].MessageStart? && 0 in j4.seen;
  }

  /** Blocks that overlap do make the difference, in a stream that meets the contract. */
  lemma NestedBlocksDiffer(id: string, model: string, thinkingEnabled: bool)
    ensures Contract(NestedBlocks(id, model), false)
    ensures Remap(NestedBlocks(id, model), thinkingEnabled).out != DropAndRenumber(NestedBlocks(id, model), thinkingEnabled)
  {
    var es := NestedBlocks(id, model);
    NestedBlocksAreLawful(id, model);
    hide Scan, Remap, DropAndRenumber;
    assert es[..3] == es[..2] + [es[2]];
    ApartSnoc(es[..2], es[2], thinkingEnabled);
    NoThinkingNoneDropped(es[..2], thinkingEnabled);
    if KeptBlocksApart(es, thinkingEnabled) { ApartPrefix(es, 3, thinkingEnabled); }
    RemapIsDropAndRenumber(es, thinkingEnabled);
  }

  /** A message that only thinks. */
  function OnlyThinking(id: string, model: string): seq<Event> {
    [MessageStart(id, model), BlockStart(0, PlainBlock(ThinkingType)), BlockStop(0), MessageStop]
  }

  /** With thinking off, a message that only thinks meets the contract and leaves a stream that does not. */
  lemma OnlyThinkingIsLost(id: string, model: string, allowError: bool)
    ensures Contract(OnlyThinking(id, model), false)
    ensures !Contract(Remap(OnlyThinking(id, model), false).out, allowError)
  {
    var es := OnlyThinking(id, model);
    var s1, s2, s3 := [es[0]], es[..2], es[..3];
    assert s2 == s1 + [es[1]] && s3 == s2 + [es[2]] && es == s3 + [es[3]];
    ScanOne(FreshJudge, es[0]);
    assert Scan(s1) == Some(FreshJudge);
    hide Scan;
    var j2 := Judge(map[][0 := Plain(ThinkingType)], {} + {0});
    JudgedSteps(s1, FreshJudge, 0, ThinkingType);
    JudgedSteps(s2, j2, 0, ThinkingType);
    ScanSnoc(s3, MessageStop);
    assert j2.open - {0} == map[];
    assert es[0].MessageStart? && 0 in j2.seen;
    hide Remap, ShouldDropBlockType;
    assert !HasKeptStart(es, false) by { assert ShouldDropBlockType(ThinkingType, false); }
    RemapMeetsContract(es, false, true);
    RemapMeetsContract(es, false, false);
  }

  /** Blocks are started with the indices 0, 1, 2, ... and none is hidden by the policy. */
  ghost predicate AlreadyNumbered(es: seq<Event>, thinkingEnabled: bool) {
    es == []
    || (var front, e := es[..|es| - 1], es[|es| - 1];
        && AlreadyNumbered(front, thinkingEnabled)
        && (e.BlockStart? ==> KeptStart(e, thinkingEnabled) && e.index == StartCount(front)))
  }

  lemma {:induction false} NothingDropped(es: seq<Event>, thinkingEnabled: bool)
    requires AlreadyNumbered(es, thinkingEnabled)
    ensures DroppedBlocks(es, thinkingEnabled) == {} && WithoutBlocks(es, {}) == es
  {
    if es != [] {
      NothingDropped(es[..|es| - 1], thinkingEnabled);
      assert es == es[..|es| - 1] + [es[|es| - 1]];
    }
  }

  lemma {:induction false} NumberedAlready(es: seq<Event>, thinkingEnabled: bool)
    requires AlreadyNumbered(es, thinkingEnabled)
    ensures forall i :: i in Numbering(es) ==> Numbering(es)[i] == i
    ensures |Numbering(es)| == StartCount(es) && forall i :: i in Numbering(es) ==> i < StartCount(es)
    ensures Renumber(es) == es
  {
    if es != [] {
      var front, e := es[..|es| - 1], es[|es| - 1];
      assert es == front + [e];
      NumberedAlready(front, thinkingEnabled);
      RenumberSnoc(front, e);
      assert e.BlockStart? ==> e.index == StartCount(front);
      assert StartCount(es) == StartCount(front) + if e.BlockStart? then 1 else 0;
      hide Numbering, Renumber, AlreadyNumbered, StartCount;
      assert WithNumber(e, Numbering(es)) == e;
    }
  }

  /** A well-numbered stream whose blocks neither overlap nor are hidden passes through unchanged. */
  lemma RemapIsIdentity(up: seq<Event>, thinkingEnabled: bool)
    requires Scan(up).Some? && KeptBlocksApart(up, thinkingEnabled) && AlreadyNumbered(up, thinkingEnabled)
    ensures Remap(up, thinkingEnabled).out == up
  {
    RemapIsDropAndRenumber(up, thinkingEnabled);
    NothingDropped(up, thinkingEnabled);
    NumberedAlready(up, thinkingEnabled);
  }

  // ---------------------------------------------------------------------------------------------
  // Numbering downstream.

  lemma {:induction false} StopsKeepNumbering(es: seq<Event>, stops: seq<Event>)
    requires forall k :: 0 <= k < |stops| ==> stops[k].BlockStop?
    ensures StartCount(es + stops) == StartCount(es) && (StartsNumbered(es + stops) <==> StartsNumbered(es))
    decreases |stops|
  {
    if stops == [] {
      assert es + stops == es;
    } else {
      var front, e := stops[..|stops| - 1], stops[|stops| - 1];
      StopsKeepNumbering(es, front);
      assert es + stops == (es + front) + [e];
      NumberedSnoc(es + front, e);
    }
  }

  lemma StartNumbers(es: seq<Event>, stops: seq<Event>, start: Event)
    requires StartsNumbered(es) && start.BlockStart? && start.index == StartCount(es)
    requires forall k :: 0 <= k < |stops| ==> stops[k].BlockStop?
    ensures StartsNumbered(es + (stops + [start])) && StartCount(es + (stops + [start])) == StartCount(es) + 1
  {
    hide StartsNumbered, StartCount;
    StopsKeepNumbering(es, stops);
    NumberedSnoc(es + stops, start);
    Associative(es, stops, [start]);
  }

  lemma PairNumbers(es: seq<Event>, a: Event, b: Event)
    requires StartsNumbered(es) && (a.BlockStart? ==> a.index == StartCount(es)) && !b.BlockStart?
    ensures StartsNumbered(es + [a, b])
    ensures StartCount(es + [a, b]) == StartCount(es) + if a.BlockStart? then 1 else 0
  {
    hide StartsNumbered, StartCount;
    NumberedSnoc(es, a);
    NumberedSnoc(es + [a], b);
    assert [a] + [b] == [a, b];
    Associative(es, [a], [b]);
  }

  lemma StepNumbers(p: Policy, es: seq<Event>, e: Event, thinkingEnabled: bool)
    requires StartsNumbered(es) && StartCount(es) == p.nextIndex
    ensures var (p', out) := Transform(p, e, thinkingEnabled);
            StartsNumbered(es + out) && StartCount(es + out) == p'.nextIndex
  {
    var (p', out) := Transform(p, e, thinkingEnabled);
    hide Transform, StopsFor, StartsNumbered, StartCount, CloseOthers, AllocateSegment;
    NothingMore(es);
    if e.BlockStart? {
      StartShape(p, e, thinkingEnabled);
      StopsAreStops(p, p.order, e.index);
      if out != [] { StartNumbers(es, StopsFor(p, p.order, e.index), BlockStart(p.nextIndex, e.block)); }
    } else {
      OtherShape(p, e, thinkingEnabled);
      if |out| == 1 {
        assert out == [out[0]];
        NumberedSnoc(es, out[0]);
      } else if |out| == 2 {
        assert out == [out[0], out[1]];
        PairNumbers(es, out[0], out[1]);
      }
    }
  }

  /** Whatever the upstream sends, blocks start downstream with the indices 0, 1, 2, ... */
  lemma {:induction false} RemapNumbersStarts(up: seq<Event>, thinkingEnabled: bool)
    ensures var r := Remap(up, thinkingEnabled);
            StartsNumbered(r.out) && StartCount(r.out) == r.policy.nextIndex
  {
    if up != [] {
      var r := Remap(up[..|up| - 1], thinkingEnabled);
      RemapNumbersStarts(up[..|up| - 1], thinkingEnabled);
      hide Transform;
      StepNumbers(r.policy, r.out, up[|up| - 1], thinkingEnabled);
    }
  }
}
