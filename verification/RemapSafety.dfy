/**
  Whole runs of the native block remapper: every upstream run that respects the block rules, however
  its blocks overlap, is turned into a downstream run that respects them too.
 */
module RemapSafety {
  import opened Prelude
  import opened StreamContract
  import opened NativeSseBlockPolicy

  /** `owners[d]` is the upstream block for which downstream index `d` was allocated. */
  datatype Run = Run(policy: Policy, out: seq<Event>, owners: seq<int>)

  function UpstreamIndex(e: Event): int {
    match e
    case BlockStart(i, _) => i
    case BlockDelta(i, _, _) => i
    case BlockStop(i) => i
    case _ => -1
  }

  function RunStep(r: Run, e: Event, thinkingEnabled: bool): Run {
    var (p, out) := Transform(r.policy, e, thinkingEnabled);
    Run(p, r.out + out,
        if p.nextIndex > r.policy.nextIndex then r.owners + [UpstreamIndex(e)] else r.owners)
  }

  /** The remapper on a whole upstream run. */
  function Remap(up: seq<Event>, thinkingEnabled: bool): Run {
    if up == [] then Run(FreshPolicy, [], [])
    else RunStep(Remap(up[..|up| - 1], thinkingEnabled), up[|up| - 1], thinkingEnabled)
  }

  lemma RemapSnoc(up: seq<Event>, e: Event, thinkingEnabled: bool)
    ensures Remap(up + [e], thinkingEnabled) == RunStep(Remap(up, thinkingEnabled), e, thinkingEnabled)
  {
    assert (up + [e])[..|up|] == up;
  }

  /**
    What the remapper asks of its upstream. Each index is started at most once, with a known type, and the
    deltas of an open block suit it. Beyond the contract's block rules it puts up with text and tool deltas
    that no start preceded, with deltas after a stop, with repeated stops and, when thinking is off, with
    thinking deltas and stops of blocks never started.
   */
  function LenientStep(j: Judge, e: Event, thinkingEnabled: bool): Option<Judge> {
    match e
    case BlockDelta(i, d, _) =>
      if i in j.open then (if Accepts(j.open[i], d) then Some(j) else None)
      else if ShouldDropDeltaType(d, thinkingEnabled) then Some(j)
      else if DeltaKind(d).Some? && (i in j.seen || DeltaKind(d).value != ThinkingType) then
        Some(Judge(j.open[i := Plain(DeltaKind(d).value)], j.seen + {i}))
      else None
    case BlockStop(i) =>
      if i in j.open || i in j.seen || !thinkingEnabled then Some(Judge(j.open - {i}, j.seen)) else None
    case _ => JudgeStep(j, e)
  }

  function Lenient(up: seq<Event>, thinkingEnabled: bool): Option<Judge> {
    if up == [] then Some(FreshJudge)
    else
      match Lenient(up[..|up| - 1], thinkingEnabled)
      case None => None
      case Some(j) => LenientStep(j, up[|up| - 1], thinkingEnabled)
  }

  /** A run obeying the contract's block rules asks for no leniency. */
  lemma {:induction false} LawfulIsLenient(up: seq<Event>, thinkingEnabled: bool)
    requires Scan(up).Some?
    ensures Lenient(up, thinkingEnabled) == Scan(up)
  {
    if up != [] {
      LawfulIsLenient(up[..|up| - 1], thinkingEnabled);
    }
  }

  // The invariant between the upstream blocks, the remapper's state and the downstream blocks.

  /** The remapper knows each upstream block, as kept or as dropped, and who owns each downstream index. */
  ghost predicate Known(j: Judge, p: Policy, owners: seq<int>) {
    && Ordered(p)
    && (forall u :: u in j.open ==> u in j.seen)
    && (forall u :: u in j.seen <==> u in p.byUpstream || u in p.droppedIndexes)
    && (forall u :: u in p.byUpstream ==> u !in p.droppedIndexes)
    && |owners| == p.nextIndex
    && (forall u :: u in p.byUpstream ==>
          0 <= p.byUpstream[u].downIndex < p.nextIndex && owners[p.byUpstream[u].downIndex] == u)
  }

  /** An open segment is an open block on both sides, of the same kind. */
  ghost predicate Mirrored(j: Judge, p: Policy, d: Judge) {
    forall u :: u in p.byUpstream && p.byUpstream[u].open ==>
      u in j.open && p.byUpstream[u].downIndex in d.open && d.open[p.byUpstream[u].downIndex] == j.open[u]
  }

  ghost predicate LatestSegment(p: Policy, owners: seq<int>, i: int) {
    && 0 <= i < |owners| && owners[i] in p.byUpstream
    && p.byUpstream[owners[i]].open && p.byUpstream[owners[i]].downIndex == i
  }

  /** Every open downstream block is the latest segment of its owner; every allocated index was started. */
  ghost predicate Accounted(p: Policy, owners: seq<int>, d: Judge) {
    && (forall i :: i in d.open ==> LatestSegment(p, owners, i))
    && (forall i :: i in d.seen <==> 0 <= i < p.nextIndex)
  }

  /** The stops still to be swallowed are those of the blocks closed behind the upstream's back. */
  ghost predicate Owed(j: Judge, p: Policy) {
    forall u :: u in p.pendingSuppressedStops <==> u in p.byUpstream && u in j.open && !p.byUpstream[u].open
  }

  ghost predicate Linked(j: Judge, p: Policy, owners: seq<int>, d: Judge) {
    Known(j, p, owners) && Mirrored(j, p, d) && Accounted(p, owners, d) && Owed(j, p)
  }

  /** A fresh segment for a block without an open one. */
  lemma AllocateKeeps(j: Judge, p: Policy, owners: seq<int>, d: Judge, u: int, kind: BlockType, block: Block,
                      s: Storage)
    requires Linked(j, p, owners, d)
    requires u !in p.droppedIndexes
    requires u in p.byUpstream ==> !p.byUpstream[u].open
    ensures Linked(Judge(j.open[u := s], j.seen + {u}),
                   AllocateSegment(p.(pendingSuppressedStops := p.pendingSuppressedStops - {u}), u, kind, block),
                   owners + [u],
                   Judge(d.open[p.nextIndex := s], d.seen + {p.nextIndex}))
  {
    var p' := AllocateSegment(p.(pendingSuppressedStops := p.pendingSuppressedStops - {u}), u, kind, block);
    var d' := Judge(d.open[p.nextIndex := s], d.seen + {p.nextIndex});
    var owners' := owners + [u];
    assert Accounted(p', owners', d') by {
      forall i | i in d'.open ensures LatestSegment(p', owners', i) {
        if i != p.nextIndex {
          assert LatestSegment(p, owners, i);
        }
      }
    }
  }

  /** The open blocks whose owner is not among `order`. */
  function Surviving(d: Judge, owners: seq<int>, order: seq<int>): map<int, Storage> {
    map i | i in d.open && !(0 <= i < |owners| && owners[i] in order) :: d.open[i]
  }

  /** The stops of an interruption close exactly the downstream blocks of the interrupted ones. */
  lemma {:induction false} StopsClose(p: Policy, owners: seq<int>, d: Judge, order: seq<int>, current: int)
    requires Distinct(order)
    requires forall u :: u in order ==> u in p.byUpstream && u != current
    requires forall u :: u in order && p.byUpstream[u].open ==> p.byUpstream[u].downIndex in d.open
    requires forall i :: i in d.open ==> LatestSegment(p, owners, i)
    requires forall u :: u in p.byUpstream ==>
      0 <= p.byUpstream[u].downIndex < |owners| && owners[p.byUpstream[u].downIndex] == u
    ensures ScanFrom(d, StopsFor(p, order, current)) == Some(Judge(Surviving(d, owners, order), d.seen))
  {
    if order == [] {
      assert d.open == Surviving(d, owners, order);
    } else {
      var n := |order| - 1;
      var u, front := order[n], order[..n];
      assert order == front + [u];
      assert forall v :: v in front ==> v in order;
      StopsClose(p, owners, d, front, current);
      CloseOthersMeaning(p, front, current);
      CloseOthersSnoc(p, front, u, current);
      assert CloseOthers(p, front, current).byUpstream[u] == p.byUpstream[u];
      SurvivingSnoc(p, owners, d, front, u);
      hide CloseOthers, StopsFor, ScanFrom, Surviving, LatestSegment;
      if p.byUpstream[u].open {
        var stop := BlockStop(p.byUpstream[u].downIndex);
        ScanFromConcat(d, StopsFor(p, front, current), [stop]);
        ScanOne(Judge(Surviving(d, owners, front), d.seen), stop);
      } else {
        assert StopsFor(p, order, current) == StopsFor(p, front, current);
      }
    }
  }

  lemma SurvivingSnoc(p: Policy, owners: seq<int>, d: Judge, front: seq<int>, u: int)
    requires u in p.byUpstream && u !in front
    requires p.byUpstream[u].open ==> p.byUpstream[u].downIndex in d.open
    requires forall i :: i in d.open ==> LatestSegment(p, owners, i)
    requires 0 <= p.byUpstream[u].downIndex < |owners| && owners[p.byUpstream[u].downIndex] == u
    ensures var rest := Surviving(d, owners, front);
            var after := Surviving(d, owners, front + [u]);
            if p.byUpstream[u].open
            then p.byUpstream[u].downIndex in rest && after == rest - {p.byUpstream[u].downIndex}
            else after == rest
  {
  }

  /** An interruption closes every block downstream and leaves the stops owed. */
  lemma InterruptKeeps(j: Judge, p: Policy, owners: seq<int>, d: Judge, current: int)
    requires Linked(j, p, owners, d) && current !in p.byUpstream
    ensures ScanFrom(d, StopsFor(p, p.order, current)) == Some(Judge(map[], d.seen))
    ensures Linked(j, CloseOthers(p, p.order, current), owners, Judge(map[], d.seen))
  {
    InterruptStops(j, p, owners, d, current);
    CloseOthersMeaning(p, p.order, current);
    var q := CloseOthers(p, p.order, current);
    hide CloseOthers, StopsFor, ScanFrom;
    AllClosed(j, p, q, owners, d, current);
  }

  /** All segments closed, their stops owed. */
  lemma AllClosed(j: Judge, p: Policy, q: Policy, owners: seq<int>, d: Judge, current: int)
    requires Linked(j, p, owners, d) && current !in p.byUpstream
    requires q.nextIndex == p.nextIndex && q.order == p.order && q.droppedIndexes == p.droppedIndexes
    requires q.byUpstream.Keys == p.byUpstream.Keys
    requires forall u :: u in p.byUpstream ==>
               q.byUpstream[u] == if u != current && u in p.order then Close(p.byUpstream[u]) else p.byUpstream[u]
    requires forall u :: u in q.pendingSuppressedStops <==>
               u in p.pendingSuppressedStops || (u in p.order && Interrupts(p, u, current))
    ensures Linked(j, q, owners, Judge(map[], d.seen))
  {
    assert forall u :: u in q.byUpstream ==> q.byUpstream[u] == Close(p.byUpstream[u]);
    assert Known(j, q, owners);
    OwedAll(j, p, q, owners, d, current);
    hide Known, Owed;
    assert forall i :: i in d.seen <==> 0 <= i < q.nextIndex;
  }

  lemma OwedAll(j: Judge, p: Policy, q: Policy, owners: seq<int>, d: Judge, current: int)
    requires Known(j, p, owners) && Mirrored(j, p, d) && Owed(j, p) && current !in p.byUpstream
    requires q.byUpstream.Keys == p.byUpstream.Keys
    requires forall u :: u in p.byUpstream ==> q.byUpstream[u] == Close(p.byUpstream[u])
    requires forall u :: u in q.pendingSuppressedStops <==>
               u in p.pendingSuppressedStops || (u in p.order && Interrupts(p, u, current))
    ensures Owed(j, q)
  {
  }

  lemma InterruptStops(j: Judge, p: Policy, owners: seq<int>, d: Judge, current: int)
    requires Linked(j, p, owners, d) && current !in p.byUpstream
    ensures ScanFrom(d, StopsFor(p, p.order, current)) == Some(Judge(map[], d.seen))
  {
    hide StopsFor, ScanFrom;
    StopsClose(p, owners, d, p.order, current);
    assert forall i :: i in d.open ==> LatestSegment(p, owners, i);
    assert Surviving(d, owners, p.order) == map[];
  }

  /** What one event must keep: the lenient upstream step is matched by an accepted downstream step. */
  ghost predicate StepKeeps(j: Judge, p: Policy, owners: seq<int>, d: Judge, e: Event, thinkingEnabled: bool) {
    var j' := LenientStep(j, e, thinkingEnabled);
    var r' := RunStep(Run(p, [], owners), e, thinkingEnabled);
    var d' := ScanFrom(d, r'.out);
    j'.Some? ==> d'.Some? && Linked(j'.value, r'.policy, r'.owners, d'.value)
  }

  lemma Conclude(j: Judge, p: Policy, owners: seq<int>, d: Judge, e: Event, thinkingEnabled: bool,
                 j': Judge, p': Policy, out: seq<Event>, d': Judge)
    requires LenientStep(j, e, thinkingEnabled) == Some(j')
    requires Transform(p, e, thinkingEnabled) == (p', out)
    requires ScanFrom(d, out) == Some(d')
    requires Linked(j', p', if p'.nextIndex > p.nextIndex then owners + [UpstreamIndex(e)] else owners, d')
    ensures StepKeeps(j, p, owners, d, e, thinkingEnabled)
  {
    hide Linked, Transform, LenientStep, ScanFrom;
    assert [] + out == out;
  }

  lemma StartKeeps(j: Judge, p: Policy, owners: seq<int>, d: Judge, u: int, block: Block, thinkingEnabled: bool)
    requires Linked(j, p, owners, d)
    requires LenientStep(j, BlockStart(u, block), thinkingEnabled).Some?
    ensures StepKeeps(j, p, owners, d, BlockStart(u, block), thinkingEnabled)
  {
    var e := BlockStart(u, block);
    var j' := Judge(j.open[u := StorageOf(block)], j.seen + {u});
    if ShouldDropBlockType(block.kind, thinkingEnabled) {
      var p' := p.(droppedIndexes := p.droppedIndexes + {u});
      assert Linked(j', p', owners, d);
      Conclude(j, p, owners, d, e, thinkingEnabled, j', p', [], d);
    } else {
      KeptStartKeeps(j, p, owners, d, u, block, thinkingEnabled);
    }
  }

  lemma KeptStartKeeps(j: Judge, p: Policy, owners: seq<int>, d: Judge, u: int, block: Block, thinkingEnabled: bool)
    requires Linked(j, p, owners, d)
    requires u !in j.seen && AllowedStart(block.kind)
    requires !ShouldDropBlockType(block.kind, thinkingEnabled)
    ensures StepKeeps(j, p, owners, d, BlockStart(u, block), thinkingEnabled)
  {
    InterruptKeeps(j, p, owners, d, u);
    CloseOthersMeaning(p, p.order, u);
    var p1, d1 := CloseOthers(p, p.order, u), Judge(map[], d.seen);
    assert p1.pendingSuppressedStops - {u} == p1.pendingSuppressedStops;
    assert u !in p1.byUpstream && u !in p1.droppedIndexes && p.nextIndex !in d.seen;
    AllocateKeeps(j, p1, owners, d1, u, block.kind, block, StorageOf(block));
    hide Linked, ScanFrom, StopsFor, CloseOthers;
    var start := BlockStart(p.nextIndex, block);
    ScanFromConcat(d, StopsFor(p, p.order, u), [start]);
    ScanOne(d1, start);
    Conclude(j, p, owners, d, BlockStart(u, block), thinkingEnabled,
             Judge(j.open[u := StorageOf(block)], j.seen + {u}),
             AllocateSegment(p1, u, block.kind, block),
             StopsFor(p, p.order, u) + [start],
             Judge(d1.open[p.nextIndex := StorageOf(block)], d1.seen + {p.nextIndex}));
  }

  lemma DeltaKeeps(j: Judge, p: Policy, owners: seq<int>, d: Judge, u: int, t: DeltaType, payload: string,
                   thinkingEnabled: bool)
    requires Linked(j, p, owners, d)
    requires LenientStep(j, BlockDelta(u, t, payload), thinkingEnabled).Some?
    ensures StepKeeps(j, p, owners, d, BlockDelta(u, t, payload), thinkingEnabled)
  {
    var e := BlockDelta(u, t, payload);
    var j' := LenientStep(j, e, thinkingEnabled).value;
    if u in p.droppedIndexes || ShouldDropDeltaType(t, thinkingEnabled) {
      assert Linked(j', p, owners, d);
      Conclude(j, p, owners, d, e, thinkingEnabled, j', p, [], d);
    } else if u in p.byUpstream && p.byUpstream[u].open {
      var forwarded := BlockDelta(p.byUpstream[u].downIndex, t, payload);
      ScanOne(d, forwarded);
      Conclude(j, p, owners, d, e, thinkingEnabled, j', p, [forwarded], d);
    } else {
      ReopenKeeps(j, p, owners, d, u, t, payload, thinkingEnabled);
    }
  }

  /** A delta of a block without an open segment starts one: the first, or a further one. */
  /** A delta without an open segment starts a stand-in first. */
  lemma ReopenTransform(p: Policy, u: int, t: DeltaType, payload: string, thinkingEnabled: bool)
    requires u !in p.droppedIndexes && !ShouldDropDeltaType(t, thinkingEnabled) && DeltaKind(t).Some?
    requires u in p.byUpstream ==> !p.byUpstream[u].open
    requires u !in p.byUpstream ==> u !in p.pendingSuppressedStops && !DeltaKind(t).value.ThinkingType?
    ensures var kind := DeltaKind(t).value;
            var carry := if u in p.byUpstream then Some(p.byUpstream[u].lastStartBlock) else None;
            var block := SyntheticStartBlock(kind, u, carry);
            Transform(p, BlockDelta(u, t, payload), thinkingEnabled) ==
            (AllocateSegment(p.(pendingSuppressedStops := p.pendingSuppressedStops - {u}), u, kind,
                             if carry.Some? then carry.value else block),
             [BlockStart(p.nextIndex, block), BlockDelta(p.nextIndex, t, payload)])
  {
    hide SyntheticStartBlock;
    if u !in p.byUpstream { assert p.pendingSuppressedStops - {u} == p.pendingSuppressedStops; }
  }

  lemma StandInAccepts(kind: BlockType, u: int, carry: Option<Block>, t: DeltaType)
    requires DeltaKind(t) == Some(kind)
    ensures var block := SyntheticStartBlock(kind, u, carry);
            AllowedStart(block.kind) && StorageOf(block) == Plain(kind) && Accepts(Plain(kind), t)
  {
  }

  /** The stand-in and the delta obey the block rules. */
  lemma ReopenScan(d: Judge, i: int, block: Block, kind: BlockType, t: DeltaType, payload: string)
    requires i !in d.seen && i !in d.open
    requires AllowedStart(block.kind) && StorageOf(block) == Plain(kind) && Accepts(Plain(kind), t)
    ensures ScanFrom(d, [BlockStart(i, block), BlockDelta(i, t, payload)]) ==
            Some(Judge(d.open[i := Plain(kind)], d.seen + {i}))
  {
    hide StorageOf, AllowedStart, Accepts;
    ScanTwo(d, BlockStart(i, block), BlockDelta(i, t, payload));
  }

  lemma ReopenFacts(j: Judge, p: Policy, owners: seq<int>, d: Judge, u: int)
    requires Linked(j, p, owners, d) && u !in p.droppedIndexes
    ensures p.nextIndex !in d.seen && p.nextIndex !in d.open
    ensures u in j.open ==> u in j.seen && u in p.byUpstream
    ensures u !in p.byUpstream ==> u !in p.pendingSuppressedStops && u !in j.seen
  {
  }

  lemma ReopenKeeps(j: Judge, p: Policy, owners: seq<int>, d: Judge, u: int, t: DeltaType, payload: string,
                    thinkingEnabled: bool)
    requires Linked(j, p, owners, d)
    requires LenientStep(j, BlockDelta(u, t, payload), thinkingEnabled).Some?
    requires u !in p.droppedIndexes && !ShouldDropDeltaType(t, thinkingEnabled)
    requires u in p.byUpstream ==> !p.byUpstream[u].open
    ensures StepKeeps(j, p, owners, d, BlockDelta(u, t, payload), thinkingEnabled)
  {
    ReopenFacts(j, p, owners, d, u);
    ReopenedUpstream(j, p, u, t, payload, thinkingEnabled);
    hide Linked, Transform, StorageOf, ShouldDropDeltaType, DeltaKind, SyntheticStartBlock, Accepts, StepKeeps,
         ScanFrom;
    var kind := DeltaKind(t).value;
    var carry := if u in p.byUpstream then Some(p.byUpstream[u].lastStartBlock) else None;
    var block := SyntheticStartBlock(kind, u, carry);
    var remembered := if carry.Some? then carry.value else block;
    var start, forwarded := BlockStart(p.nextIndex, block), BlockDelta(p.nextIndex, t, payload);
    AllocateKeeps(j, p, owners, d, u, kind, remembered, Plain(kind));
    StandInAccepts(kind, u, carry, t);
    ReopenScan(d, p.nextIndex, block, kind, t, payload);
    ReopenTransform(p, u, t, payload, thinkingEnabled);
    hide LenientStep;
    Conclude(j, p, owners, d, BlockDelta(u, t, payload), thinkingEnabled,
             Judge(j.open[u := Plain(kind)], j.seen + {u}),
             AllocateSegment(p.(pendingSuppressedStops := p.pendingSuppressedStops - {u}), u, kind, remembered),
             [start, forwarded],
             Judge(d.open[p.nextIndex := Plain(kind)], d.seen + {p.nextIndex}));
  }

  lemma ReopenedUpstream(j: Judge, p: Policy, u: int, t: DeltaType, payload: string, thinkingEnabled: bool)
    requires LenientStep(j, BlockDelta(u, t, payload), thinkingEnabled).Some?
    requires !ShouldDropDeltaType(t, thinkingEnabled)
    requires u in j.open ==> u in j.seen
    ensures DeltaKind(t).Some? && (u !in j.seen ==> !DeltaKind(t).value.ThinkingType?)
    ensures LenientStep(j, BlockDelta(u, t, payload), thinkingEnabled) ==
            Some(Judge(j.open[u := Plain(DeltaKind(t).value)], j.seen + {u}))
  {
    if u in j.open {
      assert j.open[u := Plain(DeltaKind(t).value)] == j.open;
      assert j.seen + {u} == j.seen;
    }
  }

  lemma StopKeeps(j: Judge, p: Policy, owners: seq<int>, d: Judge, u: int, thinkingEnabled: bool)
    requires Linked(j, p, owners, d)
    requires LenientStep(j, BlockStop(u), thinkingEnabled).Some?
    ensures StepKeeps(j, p, owners, d, BlockStop(u), thinkingEnabled)
  {
    var e := BlockStop(u);
    var j' := Judge(j.open - {u}, j.seen);
    if u in p.droppedIndexes {
      assert Linked(j', p, owners, d);
      Conclude(j, p, owners, d, e, thinkingEnabled, j', p, [], d);
    } else if u in p.pendingSuppressedStops {
      var p' := p.(pendingSuppressedStops := p.pendingSuppressedStops - {u});
      assert Linked(j', p', owners, d);
      Conclude(j, p, owners, d, e, thinkingEnabled, j', p', [], d);
    } else if u in p.byUpstream && p.byUpstream[u].open {
      var stop := BlockStop(p.byUpstream[u].downIndex);
      var p' := p.(byUpstream := p.byUpstream[u := Close(p.byUpstream[u])]);
      var d' := Judge(d.open - {stop.index}, d.seen);
      CloseOneKeeps(j, p, owners, d, u);
      ScanOne(d, stop);
      Conclude(j, p, owners, d, e, thinkingEnabled, j', p', [stop], d');
    } else {
      assert Linked(j', p, owners, d);
      Conclude(j, p, owners, d, e, thinkingEnabled, j', p, [], d);
    }
  }

  lemma CloseOneKeeps(j: Judge, p: Policy, owners: seq<int>, d: Judge, u: int)
    requires Linked(j, p, owners, d)
    requires u in p.byUpstream && p.byUpstream[u].open
    ensures Linked(Judge(j.open - {u}, j.seen), p.(byUpstream := p.byUpstream[u := Close(p.byUpstream[u])]), owners,
                   Judge(d.open - {p.byUpstream[u].downIndex}, d.seen))
  {
    var p' := p.(byUpstream := p.byUpstream[u := Close(p.byUpstream[u])]);
    var d' := Judge(d.open - {p.byUpstream[u].downIndex}, d.seen);
    forall i | i in d'.open ensures LatestSegment(p', owners, i) {
      assert LatestSegment(p, owners, i);
    }
  }

  lemma StepLinked(j: Judge, p: Policy, owners: seq<int>, d: Judge, e: Event, thinkingEnabled: bool)
    requires Linked(j, p, owners, d)
    ensures StepKeeps(j, p, owners, d, e, thinkingEnabled)
  {
    hide Linked;
    if LenientStep(j, e, thinkingEnabled).Some? {
      match e {
        case BlockStart(u, block) => StartKeeps(j, p, owners, d, u, block, thinkingEnabled);
        case BlockDelta(u, t, payload) => DeltaKeeps(j, p, owners, d, u, t, payload, thinkingEnabled);
        case BlockStop(u) => StopKeeps(j, p, owners, d, u, thinkingEnabled);
        case _ => ScanOne(d, e); Conclude(j, p, owners, d, e, thinkingEnabled, j, p, [e], d);
      }
    }
  }

  lemma LenientSnoc(up: seq<Event>, e: Event, thinkingEnabled: bool)
    ensures Lenient(up + [e], thinkingEnabled) ==
            match Lenient(up, thinkingEnabled) case None => None case Some(j) => LenientStep(j, e, thinkingEnabled)
  {
    assert (up + [e])[..|up|] == up;
  }

  /** Every prefix of the remapped output obeys the block rules, whatever the overlap upstream. */
  lemma {:induction false} RemapLinked(up: seq<Event>, thinkingEnabled: bool)
    requires Lenient(up, thinkingEnabled).Some?
    ensures var r := Remap(up, thinkingEnabled);
            Scan(r.out).Some? && Linked(Lenient(up, thinkingEnabled).value, r.policy, r.owners, Scan(r.out).value)
  {
    if up != [] {
      var front, e := up[..|up| - 1], up[|up| - 1];
      assert up == front + [e];
      LenientSnoc(front, e, thinkingEnabled);
      RemapSnoc(front, e, thinkingEnabled);
      RemapLinked(front, thinkingEnabled);
      var r := Remap(front, thinkingEnabled);
      var j, d := Lenient(front, thinkingEnabled).value, Scan(r.out).value;
      StepLinked(j, r.policy, r.owners, d, e, thinkingEnabled);
      hide Linked, Transform, LenientStep, Lenient, Remap, ScanFrom;
      var out := Transform(r.policy, e, thinkingEnabled).1;
      assert [] + out == out;
      ScanFromConcat(FreshJudge, r.out, out);
    }
  }

  /** Once every upstream block has been stopped, nothing is left open downstream. */
  lemma RemapCloses(up: seq<Event>, thinkingEnabled: bool)
    requires Lenient(up, thinkingEnabled).Some?
    requires Lenient(up, thinkingEnabled).value.open == map[]
    ensures Scan(Remap(up, thinkingEnabled).out).Some?
    ensures Scan(Remap(up, thinkingEnabled).out).value.open == map[]
    ensures Remap(up, thinkingEnabled).policy.pendingSuppressedStops == {}
  {
    RemapLinked(up, thinkingEnabled);
    var r := Remap(up, thinkingEnabled);
    var d := Scan(r.out).value;
    assert forall u :: u in r.policy.byUpstream ==> !r.policy.byUpstream[u].open;
    assert forall i :: i in d.open ==> LatestSegment(r.policy, r.owners, i);
    assert forall i :: i !in d.open;
    EmptyJudge(d);
    assert d.open == map[];
    assert forall u :: u !in r.policy.pendingSuppressedStops;
    assert r.policy.pendingSuppressedStops == {};
  }
}
