/**
  The tracker of emitted events and the repair of a stream that breaks off
  (core/anthropic/emitted_sse_tracker.py, with the error block of core/anthropic/sse.py).
 */
module EmittedSseTracker {
  import opened Prelude
  import opened Strings
  import opened StreamContract
  import opened SseFraming

  /** What the tracker knows; an empty id or model means none was seen. */
  datatype Tracker = Tracker(openStack: seq<int>, maxIndex: int, messageId: string, model: string)

  const FreshTracker: Tracker := Tracker([], -1, "", "")

  /** list.remove: the first occurrence goes, a missing value is ignored. */
  function RemoveFirst(s: seq<int>, x: int): seq<int> {
    if s == [] then [] else if s[0] == x then s[1..] else [s[0]] + RemoveFirst(s[1..], x)
  }

  function StopTracked(stack: seq<int>, i: int): seq<int> {
    if stack != [] && stack[|stack| - 1] == i then stack[..|stack| - 1] else RemoveFirst(stack, i)
  }

  function StartTracked(t: Tracker, i: int): Tracker {
    t.(maxIndex := if i > t.maxIndex then i else t.maxIndex, openStack := t.openStack + [i])
  }

  /** One observed event; None is the assertion failure on a start or stop without an integer index. */
  function Observed(t: Tracker, e: Event): Option<Tracker> {
    match e
    case MessageStart(id, model) =>
      Some(t.(messageId := if id != "" then id else t.messageId, model := if model != "" then model else t.model))
    case BlockStart(i, _) => Some(StartTracked(t, i))
    case BlockStop(i) => Some(t.(openStack := StopTracked(t.openStack, i)))
    case Malformed(StartPhase, i) => if i.Some? then Some(StartTracked(t, i.value)) else None
    case Malformed(StopPhase, i) => if i.Some? then Some(t.(openStack := StopTracked(t.openStack, i.value))) else None
    case _ => Some(t)
  }

  function ObserveAll(t: Tracker, es: seq<Event>): Option<Tracker> {
    if es == [] then Some(t)
    else
      match ObserveAll(t, es[..|es| - 1])
      case None => None
      case Some(t') => Observed(t', es[|es| - 1])
  }

  lemma {:induction false} ObserveAllConcat(t: Tracker, a: seq<Event>, b: seq<Event>)
    ensures ObserveAll(t, a + b) == match ObserveAll(t, a) case None => None case Some(t') => ObserveAll(t', b)
    decreases |b|
  {
    if b == [] {
      assert a + b == a;
    } else {
      ObserveAllConcat(t, a, b[..|b| - 1]);
      assert (a + b)[..|a + b| - 1] == a + b[..|b| - 1];
    }
  }

  /** The tracker after the events before the first that cannot be observed. */
  function AsFarAs(t: Tracker, es: seq<Event>): Tracker {
    match ObserveAll(t, es)
    case Some(t') => t'
    case None => if es == [] then t else AsFarAs(t, es[..|es| - 1])
  }

  /** What comes after an unobservable event does not matter. */
  lemma {:induction false} AsFarAsBroken(t: Tracker, a: seq<Event>, b: seq<Event>)
    requires ObserveAll(t, a).None?
    ensures ObserveAll(t, a + b).None? && AsFarAs(t, a + b) == AsFarAs(t, a)
    decreases |b|
  {
    hide ObserveAll;
    ObserveAllConcat(t, a, b);
    if b == [] {
      assert a + b == a;
    } else {
      var front := b[..|b| - 1];
      AsFarAsBroken(t, a, front);
      assert (a + b)[..|a + b| - 1] == a + front;
    }
  }

  lemma AsFarAsNext(t: Tracker, a: seq<Event>, e: Event)
    requires ObserveAll(t, a).Some? && Observed(ObserveAll(t, a).value, e).None?
    ensures AsFarAs(t, a + [e]) == ObserveAll(t, a).value
  {
    hide Observed;
    assert (a + [e])[..|a|] == a;
  }

  lemma AsFarAsConcat(t: Tracker, a: seq<Event>, b: seq<Event>)
    requires ObserveAll(t, a).Some?
    ensures AsFarAs(t, a + b) == AsFarAs(ObserveAll(t, a).value, b)
    decreases |b|
  {
    hide Observed;
    ObserveAllConcat(t, a, b);
    if b == [] {
      assert a + b == a;
    } else {
      var front := b[..|b| - 1];
      AsFarAsConcat(t, a, front);
      assert (a + b)[..|a + b| - 1] == a + front;
    }
  }

  lemma ObserveOne(t: Tracker, e: Event)
    ensures ObserveAll(t, [e]) == Observed(t, e)
  {
    assert [e][..0] == [];
  }

  /** The stops for a stack, innermost block first. */
  function ClosingStops(stack: seq<int>): seq<Event> {
    if stack == [] then [] else [BlockStop(stack[|stack| - 1])] + ClosingStops(stack[..|stack| - 1])
  }

  /** Error block, message delta, message stop. */
  function ErrorTail(i: int, message: string): seq<Event> {
    OneShot(i, PlainBlock(TextType), TextDelta, message) + [MessageDelta("end_turn", 1), MessageStop]
  }

  /** What is sent after a transport failure once events have gone out. */
  function Repair(t: Tracker, message: string): seq<Event> {
    ClosingStops(t.openStack) + ErrorTail(t.maxIndex + 1, message)
  }

  class EmittedNativeSseTracker {
    const decode: SseEvent -> Event
    var buf: string
    var openStack: seq<int>
    var maxIndex: int
    var messageId: string
    var model: string

    function State(): Tracker
      reads this
    {
      Tracker(openStack, maxIndex, messageId, model)
    }

    constructor (decode: SseEvent -> Event)
      ensures State() == FreshTracker && buf == "" && this.decode == decode
    {
      this.decode := decode;
      buf, openStack, maxIndex, messageId, model := "", [], -1, "", "";
    }

    method Observe(event: Event) returns (ok: bool)
      modifies this
      ensures buf == old(buf)
      ensures ok <==> Observed(old(State()), event).Some?
      ensures if ok then Some(State()) == Observed(old(State()), event) else State() == old(State())
    {
      ok := true;
      match event {
        case MessageStart(id, m) =>
          if id != "" { messageId := id; }
          if m != "" { model := m; }
        case BlockStart(idx, _) =>
          maxIndex := if idx > maxIndex then idx else maxIndex;
          openStack := openStack + [idx];
        case BlockStop(idx) =>
          if openStack != [] && openStack[|openStack| - 1] == idx {
            openStack := openStack[..|openStack| - 1];
          } else {
            openStack := RemoveFirst(openStack, idx);
          }
        case Malformed(StartPhase, idx) =>
          if idx.None? { return false; }
          maxIndex := if idx.value > maxIndex then idx.value else maxIndex;
          openStack := openStack + [idx.value];
        case Malformed(StopPhase, idx) =>
          if idx.None? { return false; }
          openStack := StopTracked(openStack, idx.value);
        case _ =>
      }
    }

    /** Take in a chunk of emitted text, cut anywhere, and observe the frames it completes. */
    method Feed(chunk: string) returns (ok: bool)
      modifies this
      ensures var seen := Decoded(EventsOfFrames(Frames(old(buf) + chunk)), decode);
              && (ok <==> ObserveAll(old(State()), seen).Some?)
              && State() == AsFarAs(old(State()), seen)
              && (ok ==> buf == Residue(old(buf) + chunk))
    {
      ghost var before := State();
      ghost var text := buf + chunk;
      ghost var done: seq<string> := [];
      buf := buf + chunk;
      while true
        invariant Frames(text) == done + Frames(buf) && Residue(text) == Residue(buf)
        invariant Some(State()) == ObserveAll(before, Decoded(EventsOfFrames(done), decode))
        decreases |buf|
      {
        hide EventsOfFrame, Find, ObserveAll, AsFarAs, Decoded, EventsOfFrames;
        var sep := Find(buf, FRAME_END);
        if sep < 0 { break; }
        var frame := buf[..sep];
        ghost var later := Frames(buf[sep + 2..]);
        FrameStep(done, frame, later);
        ghost var sofar := EventsOfFrames(done);
        buf := buf[sep + 2..];
        done := done + [frame];
        FrameEvents(frame, sofar);
        if Strip(frame) == "" { continue; }
        var events := ParseSseLines(SplitLines(frame));
        ok := ObserveFrame(events, before, sofar, EventsOfFrames(later));
        if !ok { return false; }
      }
      assert done + [] == done;
      ok := true;
    }

    method ObserveFrame(events: seq<SseEvent>, ghost start: Tracker, ghost sofar: seq<SseEvent>,
                        ghost later: seq<SseEvent>)
      returns (ok: bool)
      requires Some(State()) == ObserveAll(start, Decoded(sofar, decode))
      modifies this
      ensures buf == old(buf)
      ensures ok ==> Some(State()) == ObserveAll(start, Decoded(sofar + events, decode))
      ensures !ok ==> ObserveAll(start, Decoded(sofar + events + later, decode)).None?
                      && State() == AsFarAs(start, Decoded(sofar + events + later, decode))
    {
      SplitAt(sofar, events, [], 0);
      for k := 0 to |events|
        invariant buf == old(buf)
        invariant Some(State()) == ObserveAll(start, Decoded(sofar + events[..k], decode))
      {
        hide ObserveAll, Decoded, Observed, AsFarAs;
        ghost var now, rest := sofar + events[..k], events[k + 1..] + later;
        SplitAt(sofar, events, later, k);
        DecodedSnoc(now, events[k], decode);
        ObserveAllConcat(start, Decoded(now, decode), [decode(events[k])]);
        ObserveOne(State(), decode(events[k]));
        ok := Observe(decode(events[k]));
        if !ok {
          DecodedConcat(now + [events[k]], rest, decode);
          AsFarAsNext(start, Decoded(now, decode), decode(events[k]));
          AsFarAsBroken(start, Decoded(now + [events[k]], decode), Decoded(rest, decode));
          return false;
        }
      }
      assert events[..|events|] == events;
      ok := true;
    }

    method NextContentIndex() returns (i: int)
      ensures i == State().maxIndex + 1
    {
      i := maxIndex + 1;
    }

    method CloseUnclosedBlocks() returns (out: seq<Event>)
      modifies this
      ensures out == ClosingStops(old(openStack))
      ensures State() == old(State()).(openStack := [])
    {
      out := [];
      while openStack != []
        invariant out + ClosingStops(openStack) == ClosingStops(old(openStack))
        invariant State() == old(State()).(openStack := openStack)
        decreases |openStack|
      {
        ClosingStopsStep(out, openStack);
        hide ClosingStops;
        var idx := openStack[|openStack| - 1];
        openStack := openStack[..|openStack| - 1];
        out := out + [BlockStop(idx)];
      }
    }

    method MidstreamErrorTail(errorMessage: string) returns (out: seq<Event>)
      ensures out == ErrorTail(State().maxIndex + 1, errorMessage)
    {
      var errorIndex := NextContentIndex();
      out := OneShot(errorIndex, PlainBlock(TextType), TextDelta, errorMessage);
      out := out + [MessageDelta("end_turn", 1), MessageStop];
    }
  }

  lemma ClosingStopsStep(out: seq<Event>, stack: seq<int>)
    requires stack != []
    ensures out + ClosingStops(stack) == out + [BlockStop(stack[|stack| - 1])] + ClosingStops(stack[..|stack| - 1])
  {
    var stop, rest := [BlockStop(stack[|stack| - 1])], ClosingStops(stack[..|stack| - 1]);
    assert ClosingStops(stack) == stop + rest;
    hide ClosingStops;
    Associative(out, stop, rest);
  }

  /** The events before, at and after position k. */
  lemma SplitAt(sofar: seq<SseEvent>, events: seq<SseEvent>, later: seq<SseEvent>, k: nat)
    requires k <= |events|
    ensures sofar + events[..0] == sofar
    ensures k < |events| ==> sofar + events[..k + 1] == sofar + events[..k] + [events[k]]
    ensures k < |events| ==> sofar + events + later == (sofar + events[..k] + [events[k]]) + (events[k + 1..] + later)
  {
    if k < |events| {
      assert events == events[..k] + [events[k]] + events[k + 1..];
    }
  }

  lemma FrameStep(done: seq<string>, frame: string, later: seq<string>)
    ensures EventsOfFrames(done + [frame]) == EventsOfFrames(done) + EventsOfFrame(frame)
    ensures done + ([frame] + later) == (done + [frame]) + later
    ensures EventsOfFrames(done + ([frame] + later)) ==
            EventsOfFrames(done) + EventsOfFrame(frame) + EventsOfFrames(later)
  {
    hide EventsOfFrame;
    assert done + ([frame] + later) == (done + [frame]) + later;
    EventsOfFramesConcat(done + [frame], later);
    assert (done + [frame])[..|done|] == done;
  }

  lemma FrameEvents(frame: string, sofar: seq<SseEvent>)
    ensures Strip(frame) == "" ==> sofar + EventsOfFrame(frame) == sofar
    ensures Strip(frame) != "" ==> EventsOfFrame(frame) == EventsOfLines(SplitLines(frame))
  {
  }

  /** JSON decoding, event by event. */
  function Decoded(es: seq<SseEvent>, decode: SseEvent -> Event): seq<Event> {
    seq(|es|, k requires 0 <= k < |es| => decode(es[k]))
  }

  lemma DecodedConcat(a: seq<SseEvent>, b: seq<SseEvent>, decode: SseEvent -> Event)
    ensures Decoded(a + b, decode) == Decoded(a, decode) + Decoded(b, decode)
  {
  }

  lemma DecodedSnoc(a: seq<SseEvent>, e: SseEvent, decode: SseEvent -> Event)
    ensures Decoded(a + [e], decode) == Decoded(a, decode) + [decode(e)]
  {
  }

  // ---------------------------------------------------------------------------------------------
  // Chunking does not matter.

  function TextEvents(text: string, decode: SseEvent -> Event): seq<Event> {
    Decoded(EventsOfFrames(Frames(text)), decode)
  }

  lemma TextEventsConcat(a: string, b: string, decode: SseEvent -> Event)
    ensures TextEvents(a + b, decode) == TextEvents(a, decode) + TextEvents(Residue(a) + b, decode)
    ensures Residue(a + b) == Residue(Residue(a) + b)
  {
    hide Frames, Residue, EventsOfFrames, Decoded;
    FramesConcat(a, b);
    var more := Frames(Residue(a) + b);
    EventsOfFramesConcat(Frames(a), more);
    DecodedConcat(EventsOfFrames(Frames(a)), EventsOfFrames(more), decode);
  }

  lemma BrokenForGood(t: Tracker, chunks: seq<string>, k: nat, decode: SseEvent -> Event)
    requires k <= |chunks| && ObserveAll(t, TextEvents(Flatten(chunks[..k]), decode)).None?
    ensures ObserveAll(t, TextEvents(Flatten(chunks), decode)).None?
    ensures AsFarAs(t, TextEvents(Flatten(chunks), decode)) == AsFarAs(t, TextEvents(Flatten(chunks[..k]), decode))
  {
    hide ObserveAll, AsFarAs, TextEvents, Flatten;
    var a, b := Flatten(chunks[..k]), Flatten(chunks[k..]);
    assert chunks == chunks[..k] + chunks[k..];
    FlattenConcat(chunks[..k], chunks[k..]);
    TextEventsConcat(a, b, decode);
    AsFarAsBroken(t, TextEvents(a, decode), TextEvents(Residue(a) + b, decode));
  }

  /** After `fed` chunks, all events observed so far. */
  ghost predicate FedSoFar(start: Tracker, decode: SseEvent -> Event, chunks: seq<string>, fed: nat, t: Tracker,
                           buf: string)
    requires fed <= |chunks|
  {
    var text := Flatten(chunks[..fed]);
    buf == Residue(text) && Some(t) == ObserveAll(start, TextEvents(text, decode))
  }

  lemma FedNothing(start: Tracker, decode: SseEvent -> Event, chunks: seq<string>)
    ensures FedSoFar(start, decode, chunks, 0, start, "")
  {
    assert chunks[..0] == [] && Flatten<char>([]) == "" && TextEvents("", decode) == [];
  }

  lemma FedNext(start: Tracker, decode: SseEvent -> Event, chunks: seq<string>, fed: nat, t: Tracker, buf: string)
    requires fed < |chunks| && FedSoFar(start, decode, chunks, fed, t, buf)
    ensures var more := TextEvents(buf + chunks[fed], decode);
            if ObserveAll(t, more).Some?
            then FedSoFar(start, decode, chunks, fed + 1, AsFarAs(t, more), Residue(buf + chunks[fed]))
            else var all := TextEvents(Flatten(chunks), decode);
                 ObserveAll(start, all).None? && AsFarAs(start, all) == AsFarAs(t, more)
  {
    hide ObserveAll, AsFarAs, TextEvents, Residue, Flatten;
    var text := Flatten(chunks[..fed]);
    var before, more := TextEvents(text, decode), TextEvents(buf + chunks[fed], decode);
    TakeFlatten(chunks, fed);
    TextEventsConcat(text, chunks[fed], decode);
    ObserveAllConcat(start, before, more);
    AsFarAsConcat(start, before, more);
    if ObserveAll(t, more).Some? {
      AsFarAsWhole(t, more);
    } else {
      BrokenForGood(start, chunks, fed + 1, decode);
    }
  }

  lemma FedAll(start: Tracker, decode: SseEvent -> Event, chunks: seq<string>, t: Tracker, buf: string)
    requires FedSoFar(start, decode, chunks, |chunks|, t, buf)
    ensures var all := TextEvents(Flatten(chunks), decode);
            ObserveAll(start, all).Some? && t == AsFarAs(start, all) && buf == Residue(Flatten(chunks))
  {
    hide ObserveAll, AsFarAs, TextEvents, Residue, Flatten;
    assert chunks[..|chunks|] == chunks;
    AsFarAsWhole(start, TextEvents(Flatten(chunks), decode));
  }

  lemma AsFarAsWhole(t: Tracker, es: seq<Event>)
    requires ObserveAll(t, es).Some?
    ensures Some(AsFarAs(t, es)) == ObserveAll(t, es)
  {
  }

  ghost predicate AllPrintable(es: seq<SseEvent>) {
    forall k :: 0 <= k < |es| ==> Printable(es[k])
  }

  /**
    A tracker fed the chunks one after another observes the events of the whole text, however it is cut; it
    stops at the chunk completing an event that cannot be observed. Printed events are all observed, in order,
    and leave an empty buffer.
   */
  method FeedChunks(tracker: EmittedNativeSseTracker, chunks: seq<string>) returns (ok: bool, fed: nat)
    requires tracker.buf == ""
    modifies tracker
    ensures var seen := TextEvents(Flatten(chunks), tracker.decode);
            && (ok <==> ObserveAll(old(tracker.State()), seen).Some?)
            && tracker.State() == AsFarAs(old(tracker.State()), seen)
            && (ok ==> tracker.buf == Residue(Flatten(chunks)))
    ensures if ok then fed == |chunks| else fed < |chunks|
    ensures forall es :: AllPrintable(es) && FormatAll(es) == Flatten(chunks) ==>
              && (ok <==> ObserveAll(old(tracker.State()), Decoded(es, tracker.decode)).Some?)
              && tracker.State() == AsFarAs(old(tracker.State()), Decoded(es, tracker.decode))
              && (ok ==> tracker.buf == "")
  {
    ghost var start, decode := tracker.State(), tracker.decode;
    forall es | AllPrintable(es) && FormatAll(es) == Flatten(chunks)
      ensures TextEvents(Flatten(chunks), decode) == Decoded(es, decode) && Residue(Flatten(chunks)) == ""
    {
      PrintedRoundTrip(es);
    }
    assert forall text :: TextEvents(text, decode) == Decoded(EventsOfFrames(Frames(text)), decode);
    hide ObserveAll, AsFarAs, Frames, Residue, EventsOfFrames, Decoded, Flatten, FormatAll, AllPrintable, TextEvents,
         FedSoFar;
    fed, ok := 0, true;
    FedNothing(start, decode, chunks);
    while fed < |chunks|
      invariant fed <= |chunks| && tracker.decode == decode
      invariant FedSoFar(start, decode, chunks, fed, tracker.State(), tracker.buf)
    {
      FedNext(start, decode, chunks, fed, tracker.State(), tracker.buf);
      ok := tracker.Feed(chunks[fed]);
      if !ok { return; }
      fed := fed + 1;
    }
    FedAll(start, decode, chunks, tracker.State(), tracker.buf);
    ok := true;
  }

  // ---------------------------------------------------------------------------------------------
  // The repair completes the contract.

  /** The stack lists the open blocks once each and no index above `maxIndex` was used. */
  ghost predicate Tracks(t: Tracker, j: Judge) {
    && Distinct(t.openStack)
    && (forall i :: i in t.openStack <==> i in j.open)
    && (forall i :: i in j.open ==> i in j.seen)
    && (forall i :: i in j.seen ==> i <= t.maxIndex)
  }

  lemma {:induction false} RemoveFirstMeans(s: seq<int>, x: int)
    requires Distinct(s)
    ensures Distinct(RemoveFirst(s, x))
    ensures forall i :: i in RemoveFirst(s, x) <==> i in s && i != x
  {
    if s != [] && s[0] != x {
      assert s == [s[0]] + s[1..];
      RemoveFirstMeans(s[1..], x);
      assert s[0] !in s[1..];
    }
  }

  lemma StopTrackedMeans(s: seq<int>, x: int)
    requires Distinct(s)
    ensures Distinct(StopTracked(s, x))
    ensures forall i :: i in StopTracked(s, x) <==> i in s && i != x
  {
    RemoveFirstMeans(s, x);
    if s != [] { assert s == s[..|s| - 1] + [s[|s| - 1]]; }
  }

  /** A tracker that has seen events obeying the block rules knows exactly the open blocks. */
  lemma {:induction false} TracksOpenBlocks(es: seq<Event>)
    requires Scan(es).Some?
    ensures ObserveAll(FreshTracker, es).Some? && Tracks(ObserveAll(FreshTracker, es).value, Scan(es).value)
  {
    if es != [] {
      var front, e := es[..|es| - 1], es[|es| - 1];
      TracksOpenBlocks(front);
      var t := ObserveAll(FreshTracker, front).value;
      if e.BlockStop? { StopTrackedMeans(t.openStack, e.index); }
      if e.BlockStart? { DistinctSnoc(t.openStack, e.index); }
    }
  }

  lemma {:induction false} ClosingStopsScan(j: Judge, stack: seq<int>)
    requires Distinct(stack) && forall i :: i in stack <==> i in j.open
    ensures ScanFrom(j, ClosingStops(stack)) == Some(Judge(map[], j.seen))
    decreases |stack|
  {
    if stack == [] {
      assert forall i :: i !in j.open;
      EmptyJudge(j);
    } else {
      var i, rest := stack[|stack| - 1], stack[..|stack| - 1];
      assert stack == rest + [i];
      var j' := Judge(j.open - {i}, j.seen);
      ClosingStopsScan(j', rest);
      ScanFromConcat(j, [BlockStop(i)], ClosingStops(rest));
      ScanOne(j, BlockStop(i));
    }
  }

  lemma ErrorTailScan(seen: set<int>, i: int, message: string)
    requires i !in seen
    ensures ScanFrom(Judge(map[], seen), ErrorTail(i, message)) == Some(Judge(map[], seen + {i}))
  {
    var j := Judge(map[], seen);
    OneShotScan(j, i, PlainBlock(TextType), TextDelta, message);
    ScanTwo(Judge(map[], seen + {i}), MessageDelta("end_turn", 1), MessageStop);
    ScanFromConcat(j, OneShot(i, PlainBlock(TextType), TextDelta, message), [MessageDelta("end_turn", 1), MessageStop]);
  }

  /** The repair closes each open block exactly once and uses an index no block had. */
  lemma {:induction false} ClosesExactlyOpen(stack: seq<int>)
    requires Distinct(stack)
    ensures |ClosingStops(stack)| == |stack|
    ensures forall k :: 0 <= k < |stack| ==> ClosingStops(stack)[k] == BlockStop(stack[|stack| - 1 - k])
  {
    if stack != [] {
      ClosesExactlyOpen(stack[..|stack| - 1]);
    }
  }

  lemma RepairPlain(t: Tracker, message: string)
    ensures !HasMessageStart(Repair(t, message)) && !HasError(Repair(t, message))
  {
    ClosingStopsPlain(t.openStack);
  }

  lemma {:induction false} ClosingStopsPlain(stack: seq<int>)
    ensures forall k :: 0 <= k < |ClosingStops(stack)| ==> ClosingStops(stack)[k].BlockStop?
  {
    if stack != [] {
      ClosingStopsPlain(stack[..|stack| - 1]);
    }
  }

  /**
    A stream obeying the block rules that breaks off anywhere is completed by the repair to one obeying the
    whole contract, exactly when its message start had gone out.
   */
  lemma RepairMeetsContract(es: seq<Event>, message: string, allowError: bool)
    requires Scan(es).Some? && (allowError || !HasError(es))
    ensures var t := ObserveAll(FreshTracker, es);
            && t.Some?
            && (forall i :: i in t.value.openStack <==> IsOpen(es, i))
            && Distinct(t.value.openStack)
            && !StartedIn(es, t.value.maxIndex + 1)
            && (Contract(es + Repair(t.value, message), allowError) <==> HasMessageStart(es))
  {
    TracksOpenBlocks(es);
    ScanIsLawful(es);
    var t, j := ObserveAll(FreshTracker, es).value, Scan(es).value;
    var closes, tail := ClosingStops(t.openStack), ErrorTail(t.maxIndex + 1, message);
    var all := es + Repair(t, message);
    ClosingStopsScan(j, t.openStack);
    ErrorTailScan(j.seen, t.maxIndex + 1, message);
    ScanFromConcat(j, closes, tail);
    ScanFromConcat(FreshJudge, es, Repair(t, message));
    RepairPlain(t, message);
    HasMessageStartConcat(es, Repair(t, message));
    HasErrorConcat(es, Repair(t, message));
    assert all[|all| - 1] == MessageStop;
    assert t.maxIndex + 1 in j.seen + {t.maxIndex + 1};
  }
}
