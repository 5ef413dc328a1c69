/**
  Remapping of native Anthropic streams (core/anthropic/native_sse_block_policy.py): thinking policy,
  fresh downstream block indices, and repair of overlapping blocks.
 */
module NativeSseBlockPolicy {
  import opened Prelude
  import opened Strings
  import opened StreamContract

  /** One upstream block: the downstream index of its latest segment and whether that segment is open. */
  datatype Segment = Segment(blockType: BlockType, downIndex: int, open: bool, lastStartBlock: Block)

  /** `order` is the insertion order of the dictionary `byUpstream`. */
  datatype Policy = Policy(
    nextIndex: nat,
    order: seq<int>,
    byUpstream: map<int, Segment>,
    droppedIndexes: set<int>,
    pendingSuppressedStops: set<int>)

  const FreshPolicy: Policy := Policy(0, [], map[], {}, {})

  predicate ShouldDropBlockType(t: BlockType, thinkingEnabled: bool) {
    match t
    case RedactedThinkingType => !thinkingEnabled
    case ThinkingType => !thinkingEnabled
    case OtherType(name) => !thinkingEnabled && Contains(name, "thinking")
    case _ => false
  }

  predicate ShouldDropDeltaType(d: DeltaType, thinkingEnabled: bool) {
    match d
    case ThinkingDelta => !thinkingEnabled
    case OtherDelta(name) => !thinkingEnabled && Contains(name, "thinking")
    case _ => false
  }

  function DeltaKind(d: DeltaType): Option<BlockType> {
    match d
    case ThinkingDelta => Some(ThinkingType)
    case SignatureDelta => Some(ThinkingType)
    case TextDelta => Some(TextType)
    case InputJsonDelta => Some(ToolUseType)
    case OtherDelta(_) => None
    case UntypedDelta => None
  }

  function SyntheticToolId(upstream: int): string {
    "toolu_or_" + Decimal(upstream)
  }

  /** The block of a synthetic start; a reopened tool block repeats the identity of the original one. */
  function SyntheticStartBlock(kind: BlockType, upstream: int, carry: Option<Block>): Block {
    match kind
    case ToolUseType =>
      if carry.Some? && carry.value.kind == ToolUseType then
        Block(ToolUseType, "",
              Some(if carry.value.id.Some? && carry.value.id.value != "" then carry.value.id.value
                   else SyntheticToolId(upstream)),
              Some(if carry.value.name.Some? then carry.value.name.value else ""),
              Some(if carry.value.input.Some? then carry.value.input.value else "{}"))
      else
        Block(ToolUseType, "", Some(SyntheticToolId(upstream)), Some(""), Some("{}"))
    case ThinkingType => Block(ThinkingType, "", None, None, None)
    case _ => Block(TextType, "", None, None, None)
  }

  function AllocateSegment(p: Policy, upstream: int, blockType: BlockType, block: Block): Policy {
    p.(nextIndex := p.nextIndex + 1,
       order := if upstream in p.byUpstream then p.order else p.order + [upstream],
       byUpstream := p.byUpstream[upstream := Segment(blockType, p.nextIndex, true, block)])
  }

  function Close(s: Segment): Segment {
    s.(open := false)
  }

  predicate Interrupts(p: Policy, u: int, current: int) {
    u != current && u in p.byUpstream && p.byUpstream[u].open
  }

  /** Every open block among `order`, except `current`, is closed and its upstream stop will be suppressed. */
  function CloseOthers(p: Policy, order: seq<int>, current: int): Policy {
    if order == [] then p
    else
      var u := order[|order| - 1];
      var q := CloseOthers(p, order[..|order| - 1], current);
      if Interrupts(q, u, current) then
        q.(byUpstream := q.byUpstream[u := Close(q.byUpstream[u])],
           pendingSuppressedStops := q.pendingSuppressedStops + {u})
      else q
  }

  /** The stops announcing that, in dictionary order. */
  function StopsFor(p: Policy, order: seq<int>, current: int): seq<Event> {
    if order == [] then []
    else
      var u := order[|order| - 1];
      var front := order[..|order| - 1];
      var q := CloseOthers(p, front, current);
      StopsFor(p, front, current) + if Interrupts(q, u, current) then [BlockStop(q.byUpstream[u].downIndex)] else []
  }

  lemma CloseOthersSnoc(p: Policy, order: seq<int>, u: int, current: int)
    ensures var q := CloseOthers(p, order, current);
            && CloseOthers(p, order + [u], current) ==
               (if Interrupts(q, u, current)
                then q.(byUpstream := q.byUpstream[u := Close(q.byUpstream[u])],
                        pendingSuppressedStops := q.pendingSuppressedStops + {u})
                else q)
            && StopsFor(p, order + [u], current) ==
               StopsFor(p, order, current) + (if Interrupts(q, u, current) then [BlockStop(q.byUpstream[u].downIndex)] else [])
  {
    assert (order + [u])[..|order|] == order;
  }

  /** Closing in place, block by block, changes exactly the interrupted blocks. */
  lemma {:induction false} CloseOthersMeaning(p: Policy, order: seq<int>, current: int)
    ensures var q := CloseOthers(p, order, current);
            && q.nextIndex == p.nextIndex && q.order == p.order && q.droppedIndexes == p.droppedIndexes
            && q.byUpstream.Keys == p.byUpstream.Keys
            && (forall u :: u in p.byUpstream ==>
                  q.byUpstream[u] == (if u != current && u in order then Close(p.byUpstream[u]) else p.byUpstream[u]))
            && (forall u :: u in q.pendingSuppressedStops <==>
                  u in p.pendingSuppressedStops || (u in order && Interrupts(p, u, current)))
  {
    if order != [] {
      var n := |order| - 1;
      CloseOthersMeaning(p, order[..n], current);
      assert order == order[..n] + [order[n]];
    }
  }

  lemma CloseOthersKeys(p: Policy, order: seq<int>, current: int)
    ensures CloseOthers(p, order, current).byUpstream.Keys == p.byUpstream.Keys
  {
    CloseOthersMeaning(p, order, current);
  }

  lemma CloseNone(p: Policy, current: int)
    ensures CloseOthers(p, [], current) == p && StopsFor(p, [], current) == []
  {
  }

  function TransformStart(p: Policy, e: Event, thinkingEnabled: bool): (Policy, seq<Event>)
    requires e.BlockStart?
  {
    var u := e.index;
    if ShouldDropBlockType(e.block.kind, thinkingEnabled) then
      (p.(droppedIndexes := p.droppedIndexes + {u}), [])
    else
      (AllocateSegment(CloseOthers(p, p.order, u), u, e.block.kind, e.block),
       StopsFor(p, p.order, u) + [BlockStart(p.nextIndex, e.block)])
  }

  function TransformDelta(p: Policy, e: Event, thinkingEnabled: bool): (Policy, seq<Event>)
    requires e.BlockDelta?
  {
    var u := e.index;
    if u in p.droppedIndexes || ShouldDropDeltaType(e.delta, thinkingEnabled) then (p, [])
    else if DeltaKind(e.delta).None? then (p, [e])
    else
      var kind := DeltaKind(e.delta).value;
      if u in p.byUpstream && p.byUpstream[u].open then
        (p, [BlockDelta(p.byUpstream[u].downIndex, e.delta, e.payload)])
      else if u in p.byUpstream then
        var carry := p.byUpstream[u].lastStartBlock;
        (AllocateSegment(p.(pendingSuppressedStops := p.pendingSuppressedStops - {u}), u, kind, carry),
         [BlockStart(p.nextIndex, SyntheticStartBlock(kind, u, Some(carry))),
          BlockDelta(p.nextIndex, e.delta, e.payload)])
      else if kind == TextType || kind == ToolUseType then
        var block := SyntheticStartBlock(kind, u, None);
        (AllocateSegment(p, u, kind, block),
         [BlockStart(p.nextIndex, block), BlockDelta(p.nextIndex, e.delta, e.payload)])
      else (p, [e])
  }

  function TransformStop(p: Policy, e: Event, thinkingEnabled: bool): (Policy, seq<Event>)
    requires e.BlockStop?
  {
    var u := e.index;
    if u in p.droppedIndexes then (p, [])
    else if u in p.pendingSuppressedStops then
      (p.(pendingSuppressedStops := p.pendingSuppressedStops - {u}), [])
    else if u in p.byUpstream && p.byUpstream[u].open then
      (p.(byUpstream := p.byUpstream[u := Close(p.byUpstream[u])]), [BlockStop(p.byUpstream[u].downIndex)])
    else if u in p.byUpstream || !thinkingEnabled then (p, [])
    else (p, [e])
  }

  /** One upstream event: the new state and the events sent downstream for it. */
  function Transform(p: Policy, e: Event, thinkingEnabled: bool): (Policy, seq<Event>) {
    match e
    case BlockStart(_, _) => TransformStart(p, e, thinkingEnabled)
    case BlockDelta(_, _, _) => TransformDelta(p, e, thinkingEnabled)
    case BlockStop(_) => TransformStop(p, e, thinkingEnabled)
    case _ => (p, [e])
  }

  /** The order list enumerates the dictionary keys once each. */
  ghost predicate Ordered(p: Policy) {
    && Distinct(p.order)
    && (forall u :: u in p.order <==> u in p.byUpstream)
  }

  lemma OrderedKeys(p: Policy)
    requires Ordered(p)
    ensures forall n :: 0 <= n < |p.order| ==> p.order[n] in p.byUpstream
  {
    forall n | 0 <= n < |p.order|
      ensures p.order[n] in p.byUpstream
    {
      var u := p.order[n];
      assert u in p.order;
    }
  }

  lemma TransformKeepsOrdered(p: Policy, e: Event, thinkingEnabled: bool)
    requires Ordered(p)
    ensures Ordered(Transform(p, e, thinkingEnabled).0)
  {
    if e.BlockStart? { CloseOthersMeaning(p, p.order, e.index); }
  }

  class NativeSseBlockPolicyState {
    var nextIndex: nat
    var order: seq<int>
    var byUpstream: map<int, Segment>
    var droppedIndexes: set<int>
    var pendingSuppressedStops: set<int>

    function State(): Policy
      reads this
    {
      Policy(nextIndex, order, byUpstream, droppedIndexes, pendingSuppressedStops)
    }

    constructor ()
      ensures State() == FreshPolicy
    {
      nextIndex, order, byUpstream, droppedIndexes, pendingSuppressedStops := 0, [], map[], {}, {};
    }

    method SyntheticCloseOtherOpenBlocks(currentUpstream: int) returns (out: seq<Event>)
      requires Ordered(State())
      modifies this
      ensures State() == CloseOthers(old(State()), old(order), currentUpstream)
      ensures out == StopsFor(old(State()), old(order), currentUpstream)
    {
      out := [];
      ghost var before := State();
      var items := order;
      var k := 0;
      OrderedKeys(before);
      hide CloseOthers, StopsFor, Ordered;
      CloseNone(before, currentUpstream);
      assert items[..0] == [];
      while k < |items|
        invariant 0 <= k <= |items|
        invariant State() == CloseOthers(before, items[..k], currentUpstream)
        invariant out == StopsFor(before, items[..k], currentUpstream)
      {
        var upstream := items[k];
        assert items[..k + 1] == items[..k] + [upstream];
        CloseOthersSnoc(before, items[..k], upstream, currentUpstream);
        CloseOthersKeys(before, items[..k], currentUpstream);
        var seg := byUpstream[upstream];
        if upstream != currentUpstream && seg.open {
          out := out + [BlockStop(seg.downIndex)];
          byUpstream := byUpstream[upstream := seg.(open := false)];
          pendingSuppressedStops := pendingSuppressedStops + {upstream};
        }
        k := k + 1;
      }
      assert items[..k] == items;
    }

    method AllocateNewSegment(upstreamIndex: int, blockType: BlockType, lastStartBlock: Block) returns (newIdx: int)
      modifies this
      ensures State() == AllocateSegment(old(State()), upstreamIndex, blockType, lastStartBlock)
      ensures newIdx == old(nextIndex)
    {
      newIdx := nextIndex;
      nextIndex := nextIndex + 1;
      if upstreamIndex !in byUpstream {
        order := order + [upstreamIndex];
      }
      byUpstream := byUpstream[upstreamIndex := Segment(blockType, newIdx, true, lastStartBlock)];
    }

    /** No result event stands for a dropped one; several stand for a synthetic prefix and the event itself. */
    method TransformNativeSseBlockEvent(event: Event, thinkingEnabled: bool) returns (out: seq<Event>)
      requires Ordered(State())
      modifies this
      ensures Ordered(State())
      ensures (State(), out) == Transform(old(State()), event, thinkingEnabled)
    {
      TransformKeepsOrdered(State(), event, thinkingEnabled);
      match event {
        case BlockStart(upstreamIndex, block) =>
          if ShouldDropBlockType(block.kind, thinkingEnabled) {
            droppedIndexes := droppedIndexes + {upstreamIndex};
            return [];
          }
          CloseOthersMeaning(State(), order, upstreamIndex);
          var prefix := SyntheticCloseOtherOpenBlocks(upstreamIndex);
          var newIdx := AllocateNewSegment(upstreamIndex, block.kind, block);
          out := prefix + [BlockStart(newIdx, block)];

        case BlockDelta(upstreamIndex, delta, payload) =>
          if upstreamIndex in droppedIndexes { return []; }
          if ShouldDropDeltaType(delta, thinkingEnabled) { return []; }
          var blockKind := DeltaKind(delta);
          if blockKind.None? { return [event]; }
          if upstreamIndex in byUpstream && byUpstream[upstreamIndex].open {
            return [BlockDelta(byUpstream[upstreamIndex].downIndex, delta, payload)];
          }
          if upstreamIndex in byUpstream {
            pendingSuppressedStops := pendingSuppressedStops - {upstreamIndex};
            var carry := byUpstream[upstreamIndex].lastStartBlock;
            var newIdx := AllocateNewSegment(upstreamIndex, blockKind.value, carry);
            return [BlockStart(newIdx, SyntheticStartBlock(blockKind.value, upstreamIndex, Some(carry))),
                    BlockDelta(newIdx, delta, payload)];
          }
          if blockKind.value == TextType || blockKind.value == ToolUseType {
            var syntheticBlock := SyntheticStartBlock(blockKind.value, upstreamIndex, None);
            var newIdx := AllocateNewSegment(upstreamIndex, blockKind.value, syntheticBlock);
            return [BlockStart(newIdx, syntheticBlock), BlockDelta(newIdx, delta, payload)];
          }
          out := [event];

        case BlockStop(upstreamIndex) =>
          if upstreamIndex in droppedIndexes { return []; }
          if upstreamIndex in pendingSuppressedStops {
            pendingSuppressedStops := pendingSuppressedStops - {upstreamIndex};
            return [];
          }
          if upstreamIndex in byUpstream {
            var seg := byUpstream[upstreamIndex];
            if seg.open {
              byUpstream := byUpstream[upstreamIndex := seg.(open := false)];
              return [BlockStop(seg.downIndex)];
            }
            return [];
          }
          if !thinkingEnabled { return []; }
          out := [event];

        case _ =>
          out := [event];
      }
    }
  }
}
