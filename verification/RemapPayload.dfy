/**
  What the native block remapper does to the content of a run: message events and delta payloads of kept
  blocks come out unchanged and in order, and every segment repeats the identity of its upstream block.
 */
module RemapPayload {
  import opened Prelude
  import opened StreamContract
  import opened NativeSseBlockPolicy
  import opened RemapSafety

  /** One delta, without its place in the stream. */
  datatype Piece = Piece(index: int, delta: DeltaType, payload: string)

  /** The deltas of a stream, in order. */
  function Deltas(es: seq<Event>): seq<Piece> {
    if es == [] then []
    else
      var front, e := Deltas(es[..|es| - 1]), es[|es| - 1];
      if e.BlockDelta? then front + [Piece(e.index, e.delta, e.payload)] else front
  }

  /** The events that are about the message and not about a block, in order. */
  function MessageEvents(es: seq<Event>): seq<Event> {
    if es == [] then []
    else
      var front, e := MessageEvents(es[..|es| - 1]), es[|es| - 1];
      if e.BlockDelta? || e.BlockStart? || e.BlockStop? then front else front + [e]
  }

  lemma {:induction false} DeltasConcat(a: seq<Event>, b: seq<Event>)
    ensures Deltas(a + b) == Deltas(a) + Deltas(b)
    ensures MessageEvents(a + b) == MessageEvents(a) + MessageEvents(b)
    decreases |b|
  {
    if b == [] {
      assert a + b == a;
    } else {
      DeltasConcat(a, b[..|b| - 1]);
      assert (a + b)[..|a + b| - 1] == a + b[..|b| - 1];
    }
  }

  lemma DeltasOne(e: Event)
    ensures Deltas([e]) == if e.BlockDelta? then [Piece(e.index, e.delta, e.payload)] else []
    ensures MessageEvents([e]) == if e.BlockDelta? || e.BlockStart? || e.BlockStop? then [] else [e]
  {
    assert [e][..0] == [];
  }

  /** Downstream pieces with each downstream index mapped back to the upstream block that owns it. */
  function Upstreamed(ps: seq<Piece>, owners: seq<int>): seq<Piece> {
    if ps == [] then []
    else
      var p := ps[|ps| - 1];
      Upstreamed(ps[..|ps| - 1], owners)
      + [p.(index := if 0 <= p.index < |owners| then owners[p.index] else p.index)]
  }

  /** Upstream pieces without those of dropped blocks and without hidden thinking. */
  function Kept(ps: seq<Piece>, dropped: set<int>, thinkingEnabled: bool): seq<Piece> {
    if ps == [] then []
    else
      var p := ps[|ps| - 1];
      var front := Kept(ps[..|ps| - 1], dropped, thinkingEnabled);
      if p.index in dropped || ShouldDropDeltaType(p.delta, thinkingEnabled) then front else front + [p]
  }

  lemma {:induction false} UpstreamedGrows(ps: seq<Piece>, owners: seq<int>, u: int)
    requires forall k :: 0 <= k < |ps| ==> 0 <= ps[k].index < |owners|
    ensures Upstreamed(ps, owners + [u]) == Upstreamed(ps, owners)
  {
    if ps != [] {
      UpstreamedGrows(ps[..|ps| - 1], owners, u);
    }
  }

  lemma {:induction false} KeptGrows(ps: seq<Piece>, dropped: set<int>, u: int, thinkingEnabled: bool)
    requires forall k :: 0 <= k < |ps| ==> ps[k].index != u || ShouldDropDeltaType(ps[k].delta, thinkingEnabled)
    ensures Kept(ps, dropped + {u}, thinkingEnabled) == Kept(ps, dropped, thinkingEnabled)
  {
    if ps != [] {
      KeptGrows(ps[..|ps| - 1], dropped, u, thinkingEnabled);
    }
  }

  lemma PiecesSnoc(ps: seq<Piece>, p: Piece, owners: seq<int>, dropped: set<int>, thinkingEnabled: bool)
    ensures Upstreamed(ps + [p], owners) ==
            Upstreamed(ps, owners) + [p.(index := if 0 <= p.index < |owners| then owners[p.index] else p.index)]
    ensures Kept(ps + [p], dropped, thinkingEnabled) ==
            if p.index in dropped || ShouldDropDeltaType(p.delta, thinkingEnabled)
            then Kept(ps, dropped, thinkingEnabled) else Kept(ps, dropped, thinkingEnabled) + [p]
  {
    assert (ps + [p])[..|ps|] == ps;
  }

  lemma {:induction false} StopsHaveNoContent(p: Policy, order: seq<int>, current: int)
    ensures Deltas(StopsFor(p, order, current)) == [] && MessageEvents(StopsFor(p, order, current)) == []
  {
    if order != [] {
      var n := |order| - 1;
      StopsHaveNoContent(p, order[..n], current);
      assert order == order[..n] + [order[n]];
      CloseOthersSnoc(p, order[..n], order[n], current);
      var q := CloseOthers(p, order[..n], current);
      var last := if Interrupts(q, order[n], current) then [BlockStop(q.byUpstream[order[n]].downIndex)] else [];
      DeltasConcat(StopsFor(p, order[..n], current), last);
      if last != [] { DeltasOne(last[0]); }
    }
  }

  predicate Hidden(p: Policy, e: Event, thinkingEnabled: bool)
    requires e.BlockDelta?
  {
    e.index in p.droppedIndexes || ShouldDropDeltaType(e.delta, thinkingEnabled)
  }

  /** The downstream index on which a delta of block `u` lands: its open segment, or the next fresh index. */
  function Landing(p: Policy, u: int): int {
    if u in p.byUpstream && p.byUpstream[u].open then p.byUpstream[u].downIndex else p.nextIndex
  }

  /** The content one event other than a delta adds downstream. */
  lemma OtherContent(p: Policy, e: Event, thinkingEnabled: bool)
    requires !e.BlockDelta?
    ensures var (p', out) := Transform(p, e, thinkingEnabled);
            MessageEvents(out) == MessageEvents([e]) && Deltas(out) == []
  {
    var (p', out) := Transform(p, e, thinkingEnabled);
    DeltasOne(e);
    match e {
      case BlockStart(u, block) =>
        StopsHaveNoContent(p, p.order, u);
        var start := BlockStart(p.nextIndex, block);
        DeltasConcat(StopsFor(p, p.order, u), [start]);
        DeltasOne(start);
      case BlockStop(_) =>
        if out != [] { DeltasOne(out[0]); }
      case _ =>
    }
  }

  /** A delta is admitted when its block is known or can be started by it. */
  predicate Admitted(p: Policy, e: Event)
    requires e.BlockDelta?
  {
    DeltaKind(e.delta).Some? && (e.index in p.byUpstream || DeltaKind(e.delta).value != ThinkingType)
  }

  /** The content a delta adds downstream: itself on the landing index, or nothing when it is hidden. */
  lemma DeltaContent(p: Policy, e: Event, thinkingEnabled: bool)
    requires e.BlockDelta?
    ensures var (p', out) := Transform(p, e, thinkingEnabled);
            && MessageEvents(out) == []
            && p'.droppedIndexes == p.droppedIndexes
            && (Hidden(p, e, thinkingEnabled) ==> p' == p && Deltas(out) == [])
            && (!Hidden(p, e, thinkingEnabled) && Admitted(p, e) ==>
                  && Deltas(out) == [Piece(Landing(p, e.index), e.delta, e.payload)]
                  && p'.nextIndex == (if e.index in p.byUpstream && p.byUpstream[e.index].open then p.nextIndex
                                      else p.nextIndex + 1))
  {
    hide Deltas, MessageEvents, SyntheticStartBlock, ShouldDropDeltaType;
    var out := TransformDelta(p, e, thinkingEnabled).1;
    DeltasNone();
    if |out| == 1 {
      DeltasOne(out[0]);
      assert out == [out[0]];
    } else if |out| == 2 {
      DeltasTwo(out[0], out[1]);
      assert out == [out[0], out[1]];
    }
  }

  lemma DeltasNone()
    ensures Deltas([]) == [] && MessageEvents([]) == []
  {
  }

  lemma DeltasTwo(a: Event, b: Event)
    requires a.BlockStart? && b.BlockDelta?
    ensures Deltas([a, b]) == [Piece(b.index, b.delta, b.payload)] && MessageEvents([a, b]) == []
  {
    assert [a, b] == [a] + [b];
    DeltasConcat([a], [b]);
    DeltasOne(a);
    DeltasOne(b);
  }

  ghost predicate PiecesBelow(ps: seq<Piece>, n: int) {
    forall k :: 0 <= k < |ps| ==> 0 <= ps[k].index < n
  }

  ghost predicate PiecesSeen(ps: seq<Piece>, seen: set<int>, thinkingEnabled: bool) {
    forall k :: 0 <= k < |ps| ==> ps[k].index in seen || ShouldDropDeltaType(ps[k].delta, thinkingEnabled)
  }

  /** A delta that the leniency admits and the policy does not hide belongs to a block that can take it. */
  lemma DeltaAdmitted(j: Judge, p: Policy, owners: seq<int>, e: Event, thinkingEnabled: bool)
    requires Known(j, p, owners) && e.BlockDelta?
    requires LenientStep(j, e, thinkingEnabled).Some? && !Hidden(p, e, thinkingEnabled)
    ensures Admitted(p, e)
  {
  }

  lemma LandPiece(up: seq<Piece>, down: seq<Piece>, owners: seq<int>, owners': seq<int>, dropped: set<int>,
                  piece: Piece, i: int, thinkingEnabled: bool)
    requires Upstreamed(down, owners) == Kept(up, dropped, thinkingEnabled)
    requires PiecesBelow(down, |owners|)
    requires owners' == owners || owners' == owners + [piece.index]
    requires 0 <= i < |owners'| && owners'[i] == piece.index
    requires !(piece.index in dropped || ShouldDropDeltaType(piece.delta, thinkingEnabled))
    ensures Upstreamed(down + [piece.(index := i)], owners') == Kept(up + [piece], dropped, thinkingEnabled)
    ensures PiecesBelow(down + [piece.(index := i)], |owners'|)
  {
    UpstreamedGrows(down, owners, piece.index);
    PiecesSnoc(down, piece.(index := i), owners', dropped, thinkingEnabled);
    PiecesSnoc(up, piece, owners', dropped, thinkingEnabled);
    hide Upstreamed, Kept, ShouldDropDeltaType;
    assert piece.(index := i).(index := owners'[i]) == piece;
    PiecesBelowSnoc(down, piece.(index := i), |owners|, |owners'|);
    hide PiecesBelow;
  }

  lemma PiecesBelowSnoc(ps: seq<Piece>, p: Piece, n: nat, n': nat)
    requires PiecesBelow(ps, n) && n <= n' && 0 <= p.index < n'
    ensures PiecesBelow(ps + [p], n')
  {
  }

  lemma DeltaConserved(j: Judge, p: Policy, owners: seq<int>, up: seq<Piece>, down: seq<Piece>,
                       e: Event, thinkingEnabled: bool)
    requires Known(j, p, owners) && e.BlockDelta?
    requires LenientStep(j, e, thinkingEnabled).Some?
    requires Upstreamed(down, owners) == Kept(up, p.droppedIndexes, thinkingEnabled)
    requires PiecesBelow(down, |owners|)
    ensures var (p', out) := Transform(p, e, thinkingEnabled);
            var owners' := if p'.nextIndex > p.nextIndex then owners + [UpstreamIndex(e)] else owners;
            && Upstreamed(down + Deltas(out), owners') ==
               Kept(up + [Piece(e.index, e.delta, e.payload)], p'.droppedIndexes, thinkingEnabled)
            && PiecesBelow(down + Deltas(out), |owners'|)
  {
    hide Upstreamed, Kept, Deltas, PiecesBelow;
    var piece := Piece(e.index, e.delta, e.payload);
    DeltaContent(p, e, thinkingEnabled);
    if Hidden(p, e, thinkingEnabled) {
      hide Transform;
      PiecesSnoc(up, piece, owners, p.droppedIndexes, thinkingEnabled);
      assert down + [] == down;
    } else {
      DeltaAdmitted(j, p, owners, e, thinkingEnabled);
      hide Transform, LenientStep;
      var p' := Transform(p, e, thinkingEnabled).0;
      var owners' := if p'.nextIndex > p.nextIndex then owners + [e.index] else owners;
      LandPiece(up, down, owners, owners', p.droppedIndexes, piece, Landing(p, e.index), thinkingEnabled);
    }
  }

  lemma OtherConserved(j: Judge, p: Policy, owners: seq<int>, up: seq<Piece>, down: seq<Piece>,
                       e: Event, thinkingEnabled: bool)
    requires Known(j, p, owners) && !e.BlockDelta?
    requires LenientStep(j, e, thinkingEnabled).Some?
    requires Upstreamed(down, owners) == Kept(up, p.droppedIndexes, thinkingEnabled)
    requires PiecesBelow(down, |owners|) && PiecesSeen(up, j.seen, thinkingEnabled)
    ensures var p' := Transform(p, e, thinkingEnabled).0;
            var owners' := if p'.nextIndex > p.nextIndex then owners + [UpstreamIndex(e)] else owners;
            && Upstreamed(down, owners') == Kept(up, p'.droppedIndexes, thinkingEnabled)
            && PiecesBelow(down, |owners'|)
  {
    UpstreamedGrows(down, owners, UpstreamIndex(e));
    if e.BlockStart? {
      CloseOthersMeaning(p, p.order, e.index);
      KeptGrows(up, p.droppedIndexes, e.index, thinkingEnabled);
    }
    hide Upstreamed, Kept, Deltas;
  }

  /**
    Nothing is lost, duplicated or reordered: mapped back to upstream blocks, the downstream deltas are
    exactly the upstream deltas of the kept blocks, in their overall order, however often a block was
    reopened; and the message events pass unchanged.
   */
  lemma {:induction false} RemapConserves(up: seq<Event>, thinkingEnabled: bool)
    requires Lenient(up, thinkingEnabled).Some?
    ensures var r := Remap(up, thinkingEnabled);
            && Upstreamed(Deltas(r.out), r.owners) == Kept(Deltas(up), r.policy.droppedIndexes, thinkingEnabled)
            && MessageEvents(r.out) == MessageEvents(up)
            && PiecesBelow(Deltas(r.out), |r.owners|)
            && PiecesSeen(Deltas(up), Lenient(up, thinkingEnabled).value.seen, thinkingEnabled)
  {
    if up != [] {
      var front, e := up[..|up| - 1], up[|up| - 1];
      assert up == front + [e];
      LenientSnoc(front, e, thinkingEnabled);
      RemapSnoc(front, e, thinkingEnabled);
      RemapConserves(front, thinkingEnabled);
      RemapLinked(front, thinkingEnabled);
      var r, j := Remap(front, thinkingEnabled), Lenient(front, thinkingEnabled).value;
      var out := Transform(r.policy, e, thinkingEnabled).1;
      DeltasConcat(front, [e]);
      DeltasConcat(r.out, out);
      DeltasOne(e);
      SeenGrows(j, e, Deltas(front), thinkingEnabled);
      assert Known(j, r.policy, r.owners);
      if e.BlockDelta? {
        DeltaConserved(j, r.policy, r.owners, Deltas(front), Deltas(r.out), e, thinkingEnabled);
        DeltaContent(r.policy, e, thinkingEnabled);
      } else {
        OtherConserved(j, r.policy, r.owners, Deltas(front), Deltas(r.out), e, thinkingEnabled);
        OtherContent(r.policy, e, thinkingEnabled);
        assert Deltas(r.out) + [] == Deltas(r.out);
      }
      hide Linked, Transform, Upstreamed, Kept, Deltas, MessageEvents, Remap, Lenient, LenientStep, PiecesBelow,
           PiecesSeen;
    }
  }

  lemma SeenGrows(j: Judge, e: Event, ps: seq<Piece>, thinkingEnabled: bool)
    requires LenientStep(j, e, thinkingEnabled).Some? && PiecesSeen(ps, j.seen, thinkingEnabled)
    requires forall i :: i in j.open ==> i in j.seen
    ensures PiecesSeen(if e.BlockDelta? then ps + [Piece(e.index, e.delta, e.payload)] else ps,
                       LenientStep(j, e, thinkingEnabled).value.seen, thinkingEnabled)
  {
  }
}
