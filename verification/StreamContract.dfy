/**
  Anthropic streaming events and the executable stream contract
  (core/anthropic/stream_contracts.py). Every streaming translator of the proxy is judged by it.
 */
module StreamContract {
  import opened Prelude
  import opened Strings

  /** The `type` of a content block; OtherType is any name but the seven known ones. */
  datatype BlockType =
    | TextType
    | ThinkingType
    | ToolUseType
    | RedactedThinkingType
    | ServerToolUseType
    | WebSearchResultType
    | WebFetchResultType
    | OtherType(name: string)

  /**
    The `type` of a content block delta; OtherDelta is any name but the four known ones, UntypedDelta a delta
    object whose type is no string.
   */
  datatype DeltaType =
    | TextDelta
    | ThinkingDelta
    | SignatureDelta
    | InputJsonDelta
    | OtherDelta(name: string)
    | UntypedDelta

  /** The `content_block` of a start event. Fields a block does not carry are None; JSON values are opaque text. */
  datatype Block = Block(kind: BlockType, text: string, id: Option<string>, name: Option<string>, input: Option<string>)

  datatype Event =
    | MessageStart(id: string, model: string)
    | BlockStart(index: int, block: Block)
    | BlockDelta(index: int, delta: DeltaType, payload: string)
    | BlockStop(index: int)
    | MessageDelta(stopReason: string, outputTokens: int)
    | MessageStop
    | Error(message: string)
    | Malformed(phase: Phase, indexIfAny: Option<int>)  // no integer index, no body object, or a start without a type
    | OtherEvent(name: string)

  datatype Phase = StartPhase | DeltaPhase | StopPhase

  /** How the checker files an open block: eager text admits no deltas. */
  datatype Storage = EagerText | Plain(kind: BlockType)

  /** A block with empty streaming fields. */
  function PlainBlock(kind: BlockType): Block {
    Block(kind, "", None, None, None)
  }

  /** A block that is started, filled by one delta and stopped at once. */
  function OneShot(i: int, block: Block, delta: DeltaType, payload: string): seq<Event> {
    [BlockStart(i, block), BlockDelta(i, delta, payload), BlockStop(i)]
  }

  function StorageOf(b: Block): Storage {
    if b.kind == TextType && !IsBlank(b.text) then EagerText else Plain(b.kind)
  }

  lemma PlainStorage(kind: BlockType)
    ensures StorageOf(PlainBlock(kind)) == Plain(kind)
  {
  }

  predicate AllowedStart(t: BlockType) {
    !t.OtherType?
  }

  /** Which deltas an open block admits; the start/stop-only kinds admit none. */
  predicate Accepts(s: Storage, d: DeltaType) {
    match s
    case EagerText => false
    case Plain(ThinkingType) => d == ThinkingDelta || d == SignatureDelta
    case Plain(TextType) => d == TextDelta
    case Plain(ToolUseType) => d == InputJsonDelta
    case Plain(_) => false
  }

  /** The checker's two local variables. */
  datatype Judge = Judge(open: map<int, Storage>, seen: set<int>)

  const FreshJudge: Judge := Judge(map[], {})

  /** One event; None is a failed assertion. */
  function JudgeStep(j: Judge, e: Event): Option<Judge> {
    match e
    case BlockStart(i, b) =>
      if AllowedStart(b.kind) && i !in j.open && i !in j.seen
      then Some(Judge(j.open[i := StorageOf(b)], j.seen + {i}))
      else None
    case BlockDelta(i, d, _) => if i in j.open && Accepts(j.open[i], d) then Some(j) else None
    case BlockStop(i) => if i in j.open then Some(Judge(j.open - {i}, j.seen)) else None
    case Malformed(_, _) => None
    case _ => Some(j)
  }

  /** The block rules over further events, read left to right. */
  function ScanFrom(j: Judge, es: seq<Event>): Option<Judge> {
    if es == [] then Some(j)
    else
      match ScanFrom(j, es[..|es| - 1])
      case None => None
      case Some(j') => JudgeStep(j', es[|es| - 1])
  }

  /** The block rules over a whole stream. */
  function Scan(es: seq<Event>): Option<Judge> {
    ScanFrom(FreshJudge, es)
  }

  predicate HasMessageStart(es: seq<Event>) {
    exists i :: 0 <= i < |es| && es[i].MessageStart?
  }

  predicate HasError(es: seq<Event>) {
    exists i :: 0 <= i < |es| && es[i].Error?
  }

  /** The whole contract. */
  predicate Contract(es: seq<Event>, allowError: bool) {
    && HasMessageStart(es)
    && es[|es| - 1] == MessageStop
    && (allowError || !HasError(es))
    && var j := Scan(es);
    j.Some? && j.value.open == map[] && j.value.seen != {}
  }

  lemma ScanSnoc(es: seq<Event>, e: Event)
    ensures Scan(es + [e]) == match Scan(es) case None => None case Some(j) => JudgeStep(j, e)
  {
    assert (es + [e])[..|es|] == es;
  }

  lemma ScanOne(j: Judge, e: Event)
    ensures ScanFrom(j, [e]) == JudgeStep(j, e)
  {
    assert [e][..0] == [];
  }

  lemma {:induction false} ScanFromConcat(j: Judge, a: seq<Event>, b: seq<Event>)
    ensures ScanFrom(j, a + b) == match ScanFrom(j, a) case None => None case Some(j') => ScanFrom(j', b)
    decreases |b|
  {
    if b == [] {
      assert a + b == a;
    } else {
      ScanFromConcat(j, a, b[..|b| - 1]);
      assert (a + b)[..|a + b| - 1] == a + b[..|b| - 1];
    }
  }

  lemma ScanTwo(j: Judge, a: Event, b: Event)
    ensures ScanFrom(j, [a, b]) == match JudgeStep(j, a) case None => None case Some(j1) => JudgeStep(j1, b)
  {
    assert [a] + [b] == [a, b];
    ScanFromConcat(j, [a], [b]);
    ScanOne(j, a);
    if JudgeStep(j, a).Some? { ScanOne(JudgeStep(j, a).value, b); }
  }

  /** A one-shot block on an unused index leaves the open blocks as they were. */
  lemma OneShotScan(j: Judge, i: int, block: Block, delta: DeltaType, payload: string)
    requires i !in j.open && i !in j.seen && AllowedStart(block.kind) && Accepts(StorageOf(block), delta)
    ensures ScanFrom(j, OneShot(i, block, delta, payload)) == Some(Judge(j.open, j.seen + {i}))
  {
    var start, fill, stop := BlockStart(i, block), BlockDelta(i, delta, payload), BlockStop(i);
    var j1 := Judge(j.open[i := StorageOf(block)], j.seen + {i});
    ScanOne(j, start);
    ScanTwo(j1, fill, stop);
    assert j1.open - {i} == j.open;
    assert [start] + [fill, stop] == OneShot(i, block, delta, payload);
    ScanFromConcat(j, [start], [fill, stop]);
  }

  /** A violated rule is never forgiven by later events. */
  lemma {:induction false} ScanPrefix(es: seq<Event>, n: nat)
    requires n <= |es| && Scan(es).Some?
    ensures Scan(es[..n]).Some?
    decreases |es|
  {
    if n < |es| {
      ScanPrefix(es[..|es| - 1], n);
      assert es[..|es| - 1][..n] == es[..n];
    } else {
      assert es[..n] == es;
    }
  }

  /** The checker as it runs: one pass with two local collections. */
  method AssertAnthropicStreamContract(events: seq<Event>, allowError: bool) returns (ok: bool)
    ensures ok <==> Contract(events, allowError)
  {
    if events == [] { return false; }
    var started := false;
    var k := 0;
    while k < |events|
      invariant 0 <= k <= |events|
      invariant started <==> exists i :: 0 <= i < k && events[i].MessageStart?
    {
      if events[k].MessageStart? { started := true; }
      k := k + 1;
    }
    if !started || events[|events| - 1] != MessageStop { return false; }

    var openBlocks: map<int, Storage> := map[];
    var seenBlocks: set<int> := {};
    k := 0;
    while k < |events|
      invariant 0 <= k <= |events|
      invariant Scan(events[..k]) == Some(Judge(openBlocks, seenBlocks))
      invariant allowError || forall i :: 0 <= i < k ==> !events[i].Error?
    {
      var event := events[k];
      ghost var before := events[..k];
      assert events[..k + 1] == before + [event];
      ScanSnoc(before, event);
      if event.Error? && !allowError { return false; }
      if !JudgeStep(Judge(openBlocks, seenBlocks), event).Some? {
        if Scan(events).Some? { ScanPrefix(events, k + 1); }
        return false;
      }
      match event {
        case BlockStart(index, block) =>
          openBlocks := openBlocks[index := StorageOf(block)];
          seenBlocks := seenBlocks + {index};
        case BlockStop(index) =>
          openBlocks := openBlocks - {index};
        case _ =>
      }
      k := k + 1;
    }
    assert events[..k] == events;
    ok := openBlocks == map[] && seenBlocks != {};
  }

  // ---------------------------------------------------------------------------------------------
  // The same contract said without a checker: what each event owes to the history before it.

  /** Block `i` was started at position `k` and has not been stopped since. */
  ghost predicate OpenSince(es: seq<Event>, i: int, k: int) {
    && 0 <= k < |es|
    && es[k].BlockStart? && es[k].index == i
    && forall m :: k < m < |es| ==> es[m] != BlockStop(i)
  }

  ghost predicate StartedIn(es: seq<Event>, i: int) {
    exists k :: 0 <= k < |es| && es[k].BlockStart? && es[k].index == i
  }

  ghost predicate IsOpen(es: seq<Event>, i: int) {
    exists k :: OpenSince(es, i, k)
  }

  /** Starts use fresh indices; deltas and stops name open blocks; deltas suit the block. */
  ghost predicate Lawful(history: seq<Event>, e: Event) {
    match e
    case BlockStart(i, b) => AllowedStart(b.kind) && !StartedIn(history, i)
    case BlockDelta(i, d, _) => exists k :: OpenSince(history, i, k) && Accepts(StorageOf(history[k].block), d)
    case BlockStop(i) => IsOpen(history, i)
    case Malformed(_, _) => false
    case _ => true
  }

  ghost predicate AllLawful(es: seq<Event>) {
    forall n :: 0 <= n < |es| ==> Lawful(es[..n], es[n])
  }

  /** What the checker's variables mean in terms of history. */
  ghost predicate Reads(es: seq<Event>, j: Judge) {
    && (forall i :: i in j.seen <==> StartedIn(es, i))
    && (forall i :: i in j.open <==> IsOpen(es, i))
    && (forall i, k :: OpenSince(es, i, k) ==> i in j.open && j.open[i] == StorageOf(es[k].block))
    && j.open.Keys <= j.seen
  }

  lemma StartedSnoc(es: seq<Event>, e: Event, i: int)
    ensures StartedIn(es + [e], i) <==> StartedIn(es, i) || (e.BlockStart? && e.index == i)
  {
    var es' := es + [e];
    if StartedIn(es, i) {
      var k :| 0 <= k < |es| && es[k].BlockStart? && es[k].index == i;
      assert es'[k] == es[k];
    }
    if e.BlockStart? && e.index == i { assert es'[|es|] == e; }
  }

  lemma OpenSinceSnoc(es: seq<Event>, e: Event, i: int, k: int)
    ensures OpenSince(es + [e], i, k) <==>
            (OpenSince(es, i, k) && e != BlockStop(i)) || (k == |es| && e.BlockStart? && e.index == i)
  {
    var es' := es + [e];
    assert es'[|es|] == e;
    assert forall m :: 0 <= m < |es| ==> es'[m] == es[m];
    if OpenSince(es', i, k) && k < |es| {
      assert forall m :: k < m < |es| ==> es[m] == es'[m];
      assert es'[|es|] != BlockStop(i);
    }
  }

  lemma ReadsSnoc(es: seq<Event>, j: Judge, e: Event)
    requires Reads(es, j)
    ensures JudgeStep(j, e).Some? <==> Lawful(es, e)
    ensures JudgeStep(j, e).Some? ==> Reads(es + [e], JudgeStep(j, e).value)
  {
    if JudgeStep(j, e).Some? {
      var j' := JudgeStep(j, e).value;
      forall i
        ensures i in j'.seen <==> StartedIn(es + [e], i)
      {
        StartedSnoc(es, e, i);
      }
      forall i, k | OpenSince(es + [e], i, k)
        ensures i in j'.open && j'.open[i] == StorageOf((es + [e])[k].block)
      {
        OpenSinceSnoc(es, e, i, k);
        if k < |es| { assert OpenSince(es, i, k); assert i in j.open; }
      }
      forall i | i in j'.open
        ensures IsOpen(es + [e], i)
      {
        if e.BlockStart? && e.index == i {
          OpenSinceSnoc(es, e, i, |es|);
        } else {
          var k :| OpenSince(es, i, k);
          OpenSinceSnoc(es, e, i, k);
        }
      }
    }
  }

  /** The checker accepts the block events exactly when each is lawful after its history. */
  lemma {:induction false} ScanIsLawful(es: seq<Event>)
    ensures Scan(es).Some? <==> AllLawful(es)
    ensures Scan(es).Some? ==> Reads(es, Scan(es).value)
  {
    if es != [] {
      var n := |es| - 1;
      var front, e := es[..n], es[n];
      ScanIsLawful(front);
      assert es == front + [e];
      assert forall m :: 0 <= m < n ==> front[..m] == es[..m];
      if Scan(front).Some? {
        ReadsSnoc(front, Scan(front).value, e);
        assert AllLawful(es) <==> Lawful(front, e);
      } else {
        var m :| 0 <= m < n && !Lawful(front[..m], front[m]);
        assert !Lawful(es[..m], es[m]);
      }
    }
  }

  lemma EmptyJudge(j: Judge)
    ensures (forall i :: i !in j.open) ==> j.open == map[]
    ensures (forall i :: i !in j.seen) ==> j.seen == {}
  {
    if forall i :: i !in j.open { assert j.open == map[]; }
    if forall i :: i !in j.seen { assert j.seen == {}; }
  }

  /**
    The contract as the documentation words it: indices are never reused, deltas and stops go only to
    open blocks of the right kind, every block is closed, and the stream is framed by its message events.
   */
  lemma ContractMeaning(es: seq<Event>, allowError: bool)
    ensures Contract(es, allowError) <==>
            && HasMessageStart(es)
            && es[|es| - 1] == MessageStop
            && (allowError || !HasError(es))
            && AllLawful(es)
            && (forall i :: !IsOpen(es, i))
            && (exists i :: StartedIn(es, i))
  {
    ScanIsLawful(es);
    if Scan(es).Some? {
      var j := Scan(es).value;
      EmptyJudge(j);
    }
  }

  lemma StartsDiffer(es: seq<Event>, m: nat, n: nat)
    requires AllLawful(es) && m < n < |es| && es[m].BlockStart? && es[n].BlockStart?
    ensures es[m].index != es[n].index
  {
    var history := es[..n];
    assert Lawful(history, es[n]);
    assert history[m] == es[m];
  }

  /** In a stream obeying the contract no block index is started twice and none is stopped twice. */
  lemma ContractNeverReuses(es: seq<Event>, allowError: bool, m: nat, n: nat)
    requires Contract(es, allowError) && m < n < |es|
    ensures es[m].BlockStart? && es[n].BlockStart? ==> es[m].index != es[n].index
    ensures es[m].BlockStop? && es[n].BlockStop? ==> es[m].index != es[n].index
  {
    ScanIsLawful(es);
    if es[m].BlockStart? && es[n].BlockStart? {
      StartsDiffer(es, m, n);
    }
    if es[m].BlockStop? && es[n].BlockStop? {
      assert Lawful(es[..m], es[m]) && Lawful(es[..n], es[n]);
      var k0 :| OpenSince(es[..m], es[m].index, k0);
      var k :| OpenSince(es[..n], es[n].index, k);
      if k0 < k {
        StartsDiffer(es, k0, k);
      } else {
        assert es[..n][m] == es[m];
      }
    }
  }

  lemma HasMessageStartConcat(a: seq<Event>, b: seq<Event>)
    ensures HasMessageStart(a + b) <==> HasMessageStart(a) || HasMessageStart(b)
  {
    var c := a + b;
    if HasMessageStart(a) { var i :| 0 <= i < |a| && a[i].MessageStart?; assert c[i] == a[i]; }
    if HasMessageStart(b) { var i :| 0 <= i < |b| && b[i].MessageStart?; assert c[|a| + i] == b[i]; }
    if HasMessageStart(c) {
      var i :| 0 <= i < |c| && c[i].MessageStart?;
      if i < |a| { assert a[i] == c[i]; } else { assert b[i - |a|] == c[i]; }
    }
  }

  lemma HasErrorConcat(a: seq<Event>, b: seq<Event>)
    ensures HasError(a + b) <==> HasError(a) || HasError(b)
  {
    var c := a + b;
    if HasError(a) { var i :| 0 <= i < |a| && a[i].Error?; assert c[i] == a[i]; }
    if HasError(b) { var i :| 0 <= i < |b| && b[i].Error?; assert c[|a| + i] == b[i]; }
    if HasError(c) {
      var i :| 0 <= i < |c| && c[i].Error?;
      if i < |a| { assert a[i] == c[i]; } else { assert b[i - |a|] == c[i]; }
    }
  }

  // ---------------------------------------------------------------------------------------------
  // Block numbering, which the contract leaves open and the translators promise.

  function StartCount(es: seq<Event>): nat {
    if es == [] then 0 else StartCount(es[..|es| - 1]) + if es[|es| - 1].BlockStart? then 1 else 0
  }

  /** Blocks are started with the indices 0, 1, 2, ... */
  ghost predicate StartsNumbered(es: seq<Event>) {
    es == []
    || (StartsNumbered(es[..|es| - 1]) && (es[|es| - 1].BlockStart? ==> es[|es| - 1].index == StartCount(es[..|es| - 1])))
  }

  lemma NumberedSnoc(es: seq<Event>, e: Event)
    ensures StartCount(es + [e]) == StartCount(es) + if e.BlockStart? then 1 else 0
    ensures StartsNumbered(es + [e]) <==> StartsNumbered(es) && (e.BlockStart? ==> e.index == StartCount(es))
  {
    assert (es + [e])[..|es|] == es;
  }
}
