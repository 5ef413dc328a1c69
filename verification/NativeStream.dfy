/**
  A native provider's response stream end to end (providers/anthropic_messages.py): every upstream event is
  remapped, printed, fed to the tracker and sent piece by piece; a transport failure is repaired.
 */
module NativeStream {
  import opened Prelude
  import opened StreamContract
  import opened NativeSseBlockPolicy
  import opened RemapSafety
  import opened RemapPayload
  import opened RemapTheorems
  import opened SseFraming
  import opened EmittedSseTracker

  // ---------------------------------------------------------------------------------------------
  // The wire.

  /** JSON coding of events, which is opaque. */
  datatype Codec = Codec(encode: Event -> SseEvent, decode: SseEvent -> Event)

  /** Encoding gives trimmed single lines, and decoding undoes it. */
  ghost predicate Faithful(c: Codec) {
    forall e :: Printable(c.encode(e)) && c.decode(c.encode(e)) == e
  }

  /** Cutting an event's text into the pieces in which it is sent: lines, or the whole. */
  ghost predicate Cuts(cut: string -> seq<string>) {
    forall s :: Flatten(cut(s)) == s
  }

  function Encoded(es: seq<Event>, c: Codec): seq<SseEvent> {
    seq(|es|, k requires 0 <= k < |es| => c.encode(es[k]))
  }

  function TextOf(es: seq<Event>, c: Codec): string {
    FormatAll(Encoded(es, c))
  }

  lemma {:induction false} FormatConcat(a: seq<SseEvent>, b: seq<SseEvent>)
    ensures FormatAll(a + b) == FormatAll(a) + FormatAll(b)
  {
    hide FormatSseEvent;
    if a == [] {
      assert a + b == b;
    } else {
      var first, rest := FormatSseEvent(a[0]), a[1..];
      FormatConcat(rest, b);
      assert (a + b)[1..] == rest + b && (a + b)[0] == a[0];
      Associative(first, FormatAll(rest), FormatAll(b));
    }
  }

  lemma FormatOne(e: SseEvent)
    ensures FormatAll([e]) == FormatSseEvent(e)
  {
    hide FormatSseEvent;
    assert [e][1..] == [];
    assert FormatAll([e]) == FormatSseEvent(e) + "";
  }

  lemma TextConcat(a: seq<Event>, b: seq<Event>, c: Codec)
    ensures TextOf(a + b, c) == TextOf(a, c) + TextOf(b, c)
  {
    FormatConcat(Encoded(a, c), Encoded(b, c));
    assert Encoded(a + b, c) == Encoded(a, c) + Encoded(b, c);
  }

  lemma EncodedFaithfully(es: seq<Event>, c: Codec)
    requires Faithful(c)
    ensures AllPrintable(Encoded(es, c)) && Decoded(Encoded(es, c), c.decode) == es
  {
    hide Printable;
    forall k | 0 <= k < |es|
      ensures Printable(Encoded(es, c)[k]) && c.decode(Encoded(es, c)[k]) == es[k]
    {
    }
  }

  /** A reader of the printed text gets back exactly the events. */
  lemma TextCarriesEvents(es: seq<Event>, c: Codec)
    requires Faithful(c)
    ensures TextEvents(TextOf(es, c), c.decode) == es && Residue(TextOf(es, c)) == ""
  {
    EncodedFaithfully(es, c);
    PrintedRoundTrip(Encoded(es, c));
  }

  // ---------------------------------------------------------------------------------------------
  // The response.

  /** The complete message sent when nothing had gone out before the failure. */
  function FreshErrorMessage(id: string, model: string, message: string): seq<Event> {
    [MessageStart(id, model)] + ErrorTail(0, message)
  }

  /** No event that the tracker cannot observe is sent. */
  predicate Trackable(up: seq<Event>, thinkingEnabled: bool) {
    ObserveAll(FreshTracker, Remap(up, thinkingEnabled).out).Some?
  }

  /** The response to an upstream that delivers `up` and then ends, or fails. */
  function Response(up: seq<Event>, thinkingEnabled: bool, fails: bool, id: string, model: string,
                    message: string): seq<Event> {
    var sent := Remap(up, thinkingEnabled).out;
    if !fails then sent
    else if sent == [] then FreshErrorMessage(id, model, message)
    else sent + Repair(AsFarAs(FreshTracker, sent), message)
  }

  /** The response when the tracker raises at upstream event `n`, after `fed` pieces of that event were sent. */
  function BrokenResponse(c: Codec, cut: string -> seq<string>, up: seq<Event>, thinkingEnabled: bool, n: nat, fed: nat,
                          message: string): string
    requires n < |up|
    requires fed <= |cut(TextOf(Transform(Remap(up[..n], thinkingEnabled).policy, up[n], thinkingEnabled).1, c))|
  {
    var r := Remap(up[..n], thinkingEnabled);
    TextOf(r.out, c)
    + Flatten(cut(TextOf(Transform(r.policy, up[n], thinkingEnabled).1, c))[..fed])
    + TextOf(Repair(AsFarAs(FreshTracker, Remap(up[..n + 1], thinkingEnabled).out), message), c)
  }

  ghost predicate BreaksAt(c: Codec, cut: string -> seq<string>, up: seq<Event>, thinkingEnabled: bool, n: nat,
                           fed: nat,
                           message: string, text: string) {
    && n < |up| && Trackable(up[..n], thinkingEnabled) && !Trackable(up[..n + 1], thinkingEnabled)
    && fed < |cut(TextOf(Transform(Remap(up[..n], thinkingEnabled).policy, up[n], thinkingEnabled).1, c))|
    && text == BrokenResponse(c, cut, up, thinkingEnabled, n, fed, message)
  }

  /** The error tail, printed. */
  method ErrorTailAfter(c: Codec, tracker: EmittedNativeSseTracker, sentAny: bool, id: string, model: string,
                        errorMessage: string)
    returns (out: seq<string>)
    modifies tracker
    ensures Flatten(out) ==
            TextOf(if sentAny then Repair(old(tracker.State()), errorMessage) else FreshErrorMessage(id, model, errorMessage), c)
  {
    var events;
    if sentAny {
      var closes := tracker.CloseUnclosedBlocks();
      var tail := tracker.MidstreamErrorTail(errorMessage);
      events := closes + tail;
    } else {
      events := [MessageStart(id, model)]
                + (OneShot(0, PlainBlock(TextType), TextDelta, errorMessage) + [MessageDelta("end_turn", 1), MessageStop]);
    }
    out := Printed(c, events);
  }

  /** One printed event after another. */
  method Printed(c: Codec, events: seq<Event>) returns (out: seq<string>)
    ensures Flatten(out) == TextOf(events, c)
  {
    out := [];
    for k := 0 to |events|
      invariant Flatten(out) == TextOf(events[..k], c)
    {
      FlattenSnoc(out, FormatSseEvent(c.encode(events[k])));
      TextSnoc(events, k, c);
      out := out + [FormatSseEvent(c.encode(events[k]))];
    }
    assert events[..|events|] == events;
  }

  lemma TextSnoc(es: seq<Event>, k: nat, c: Codec)
    requires k < |es|
    ensures TextOf(es[..k + 1], c) == TextOf(es[..k], c) + FormatSseEvent(c.encode(es[k]))
  {
    hide FormatSseEvent;
    assert es[..k + 1] == es[..k] + [es[k]];
    TextConcat(es[..k], [es[k]], c);
    assert Encoded([es[k]], c) == [c.encode(es[k])];
    FormatOne(c.encode(es[k]));
  }

  // What the stream loop keeps.

  /** After `up`, undisturbed: what went out, what the tracker and the remapper know. */
  ghost predicate Sending(up: seq<Event>, thinkingEnabled: bool, c: Codec, text: string, t: Tracker, p: Policy,
                          sentAny: bool) {
    var r := Remap(up, thinkingEnabled);
    && p == r.policy && Ordered(p) && text == TextOf(r.out, c)
    && ObserveAll(FreshTracker, r.out) == Some(t)
    && (sentAny <==> r.out != [])
  }

  ghost predicate Interrupted(c: Codec, cut: string -> seq<string>, up: seq<Event>, thinkingEnabled: bool, n: nat,
                              fed: nat,
                              text: string, t: Tracker) {
    && n < |up| && Trackable(up[..n], thinkingEnabled) && !Trackable(up[..n + 1], thinkingEnabled)
    && var r := Remap(up[..n], thinkingEnabled);
       var pieces := cut(TextOf(Transform(r.policy, up[n], thinkingEnabled).1, c));
    && fed < |pieces| && text == TextOf(r.out, c) + Flatten(pieces[..fed])
    && t == AsFarAs(FreshTracker, Remap(up[..n + 1], thinkingEnabled).out)
  }

  lemma NextEvent(up: seq<Event>, k: nat, thinkingEnabled: bool)
    requires k < |up|
    ensures var r, r' := Remap(up[..k], thinkingEnabled), Remap(up[..k + 1], thinkingEnabled);
            var (p', chunk) := Transform(r.policy, up[k], thinkingEnabled);
            r'.policy == p' && r'.out == r.out + chunk
  {
    hide Transform;
    assert up[..k + 1] == up[..k] + [up[k]];
    RemapSnoc(up[..k], up[k], thinkingEnabled);
  }

  lemma StartsEmpty(thinkingEnabled: bool, c: Codec)
    ensures Sending([], thinkingEnabled, c, Flatten([]), FreshTracker, FreshPolicy, false)
  {
  }

  lemma GoesOn(up: seq<Event>, k: nat, thinkingEnabled: bool, c: Codec, text: string, t: Tracker, p: Policy,
               sentAny: bool, t': Tracker)
    requires k < |up| && Sending(up[..k], thinkingEnabled, c, text, t, p, sentAny)
    requires ObserveAll(t, Transform(p, up[k], thinkingEnabled).1) == Some(t')
    ensures var (p', chunk) := Transform(p, up[k], thinkingEnabled);
            Ordered(p') ==>
              Sending(up[..k + 1], thinkingEnabled, c, text + TextOf(chunk, c), t', p', sentAny || chunk != [])
  {
    var r, chunk := Remap(up[..k], thinkingEnabled), Transform(p, up[k], thinkingEnabled).1;
    hide Transform, Remap, ObserveAll, TextOf, Ordered;
    NextEvent(up, k, thinkingEnabled);
    TextConcat(r.out, chunk, c);
    ObserveAllConcat(FreshTracker, r.out, chunk);
  }

  lemma BreaksOff(up: seq<Event>, k: nat, thinkingEnabled: bool, c: Codec, text: string, t: Tracker, p: Policy,
                  sentAny: bool)
    requires k < |up| && Sending(up[..k], thinkingEnabled, c, text, t, p, sentAny)
    requires ObserveAll(t, Transform(p, up[k], thinkingEnabled).1).None?
    ensures Trackable(up[..k], thinkingEnabled) && !Trackable(up[..k + 1], thinkingEnabled)
    ensures AsFarAs(FreshTracker, Remap(up[..k + 1], thinkingEnabled).out) == AsFarAs(t, Transform(p, up[k], thinkingEnabled).1)
  {
    var r, chunk := Remap(up[..k], thinkingEnabled), Transform(p, up[k], thinkingEnabled).1;
    hide Transform, Remap, ObserveAll, AsFarAs, TextOf, Ordered;
    NextEvent(up, k, thinkingEnabled);
    ObserveAllConcat(FreshTracker, r.out, chunk);
    AsFarAsConcat(FreshTracker, r.out, chunk);
  }

  /** An event that cannot be observed is not made up for later. */
  lemma {:induction false} UntrackableForGood(up: seq<Event>, n: nat, thinkingEnabled: bool)
    requires n <= |up| && !Trackable(up[..n], thinkingEnabled)
    ensures !Trackable(up, thinkingEnabled)
    decreases |up|
  {
    if n < |up| {
      var k := |up| - 1;
      assert up[..k][..n] == up[..n] && up[..k + 1] == up;
      UntrackableForGood(up[..k], n, thinkingEnabled);
      hide Transform, Remap, ObserveAll;
      NextEvent(up, k, thinkingEnabled);
      var r := Remap(up[..k], thinkingEnabled);
      ObserveAllConcat(FreshTracker, r.out, Transform(r.policy, up[k], thinkingEnabled).1);
    } else {
      assert up[..n] == up;
    }
  }

  lemma NothingOrAll(t: Tracker, chunk: seq<Event>, c: Codec, text: string)
    ensures ObserveAll(t, chunk).Some? ==> Some(AsFarAs(t, chunk)) == ObserveAll(t, chunk)
    ensures chunk == [] ==> ObserveAll(t, chunk) == Some(t) && text + TextOf(chunk, c) == text
  {
  }

  lemma InterruptedHere(c: Codec, cut: string -> seq<string>, up: seq<Event>, thinkingEnabled: bool, k: nat,
                        pieces: seq<string>,
                        text: string, t: Tracker, p: Policy, sentAny: bool)
    requires k < |up| && Sending(up[..k], thinkingEnabled, c, text, t, p, sentAny)
    requires Trackable(up[..k], thinkingEnabled) && !Trackable(up[..k + 1], thinkingEnabled)
    requires var chunk := Transform(p, up[k], thinkingEnabled).1;
             && |pieces| < |cut(TextOf(chunk, c))| && pieces == cut(TextOf(chunk, c))[..|pieces|]
             && AsFarAs(FreshTracker, Remap(up[..k + 1], thinkingEnabled).out) == AsFarAs(t, chunk)
    ensures Interrupted(c, cut, up, thinkingEnabled, k, |pieces|, text + Flatten(pieces),
                        AsFarAs(t, Transform(p, up[k], thinkingEnabled).1))
  {
    hide Transform, Remap, Trackable, AsFarAs, TextOf, Flatten, ObserveAll;
  }

  lemma BrokenIsTold(c: Codec, cut: string -> seq<string>, up: seq<Event>, thinkingEnabled: bool, n: nat, fed: nat,
                     text: string, t: Tracker, message: string)
    requires Interrupted(c, cut, up, thinkingEnabled, n, fed, text, t)
    ensures BreaksAt(c, cut, up, thinkingEnabled, n, fed, message, text + TextOf(Repair(t, message), c))
    ensures !Trackable(up, thinkingEnabled)
  {
    UntrackableForGood(up, n + 1, thinkingEnabled);
    hide Transform, Remap, Trackable, AsFarAs, TextOf, Flatten, ObserveAll, Repair;
  }

  lemma WholeIsTold(up: seq<Event>, thinkingEnabled: bool, fails: bool, c: Codec, text: string, t: Tracker, p: Policy,
                    sentAny: bool,
                    id: string, model: string, message: string)
    requires Sending(up, thinkingEnabled, c, text, t, p, sentAny)
    ensures Trackable(up, thinkingEnabled)
    ensures !fails ==> text == TextOf(Response(up, thinkingEnabled, fails, id, model, message), c)
    ensures fails ==> text + TextOf(if sentAny then Repair(t, message) else FreshErrorMessage(id, model, message), c)
                      == TextOf(Response(up, thinkingEnabled, fails, id, model, message), c)
  {
    var sent := Remap(up, thinkingEnabled).out;
    NothingOrAll(FreshTracker, sent, c, "");
    TextConcat(sent, Repair(t, message), c);
    var tail := TextOf(FreshErrorMessage(id, model, message), c);
    assert "" + tail == tail;
    hide Remap, ObserveAll, AsFarAs, Repair, FreshErrorMessage, Ordered;
  }

  lemma CutText(cut: string -> seq<string>, es: seq<Event>, c: Codec)
    requires Faithful(c) && Cuts(cut)
    ensures Flatten(cut(TextOf(es, c))) == FormatAll(Encoded(es, c)) == TextOf(es, c)
    ensures AllPrintable(Encoded(es, c)) && Decoded(Encoded(es, c), c.decode) == es
  {
    EncodedFaithfully(es, c);
  }

  /** One event on its way out: printed, cut, fed and sent, up to the piece at which the tracker raises. */
  method SendEvent(c: Codec, cut: string -> seq<string>, tracker: EmittedNativeSseTracker, chunk: seq<Event>)
    returns (ok: bool, pieces: seq<string>)
    requires Faithful(c) && Cuts(cut) && tracker.buf == "" && tracker.decode == c.decode
    modifies tracker
    ensures ok <==> ObserveAll(old(tracker.State()), chunk).Some?
    ensures tracker.State() == AsFarAs(old(tracker.State()), chunk)
    ensures ok ==> tracker.buf == "" && Flatten(pieces) == TextOf(chunk, c)
    ensures !ok ==> |pieces| < |cut(TextOf(chunk, c))| && pieces == cut(TextOf(chunk, c))[..|pieces|]
  {
    CutText(cut, chunk, c);
    hide ObserveAll, AsFarAs, TextOf, Flatten, FormatAll, Encoded, Decoded, TextEvents, AllPrintable, Faithful, Cuts,
         Residue;
    pieces := cut(TextOf(chunk, c));
    ghost var es := Encoded(chunk, c);
    assert AllPrintable(es) && FormatAll(es) == Flatten(pieces);
    var fed;
    ok, fed := FeedChunks(tracker, pieces);
    if !ok { pieces := pieces[..fed]; }
  }

  /**
    The stream loop: events are remapped, printed, cut, fed to the tracker and sent; an exception switches to
    the error tail. The text sent is the printed response, or, when the tracker raises, breaks off inside the
    event it could not observe.
   */
  method StreamResponse(c: Codec, cut: string -> seq<string>, up: seq<Event>, thinkingEnabled: bool, fails: bool,
                        id: string, model: string, errorMessage: string)
    returns (out: seq<string>)
    requires Faithful(c) && Cuts(cut)
    ensures Trackable(up, thinkingEnabled) ==>
              Flatten(out) == TextOf(Response(up, thinkingEnabled, fails, id, model, errorMessage), c)
    ensures !Trackable(up, thinkingEnabled) ==>
              exists n: nat, fed: nat :: BreaksAt(c, cut, up, thinkingEnabled, n, fed, errorMessage, Flatten(out))
  {
    var state := new NativeSseBlockPolicyState();
    var tracker := new EmittedNativeSseTracker(c.decode);
    var sentAny, broken := false, false;
    var k: nat, sent: nat := 0, 0;
    out := [];
    assert up[..0] == [] && Ordered(FreshPolicy);
    StartsEmpty(thinkingEnabled, c);
    hide Sending, Interrupted, Transform, ObserveAll, AsFarAs, Ordered, Remap, TextOf, Flatten, Faithful, Cuts,
         Trackable;
    while k < |up| && !broken
      invariant k <= |up| && Ordered(state.State()) && tracker.decode == c.decode
      invariant !broken ==> tracker.buf == ""
      invariant !broken ==> Sending(up[..k], thinkingEnabled, c, Flatten(out), tracker.State(), state.State(), sentAny)
      invariant broken ==> sentAny && Interrupted(c, cut, up, thinkingEnabled, k, sent, Flatten(out), tracker.State())
      decreases |up| - k, !broken
    {
      ghost var text, t, p, any := Flatten(out), tracker.State(), state.State(), sentAny;
      var chunk := state.TransformNativeSseBlockEvent(up[k], thinkingEnabled);
      var ok, pieces := true, [];
      if chunk != [] {
        sentAny := true;
        ok, pieces := SendEvent(c, cut, tracker, chunk);
        FlattenConcat(out, pieces);
        out := out + pieces;
      }
      if ok {
        NothingOrAll(t, chunk, c, text);
        GoesOn(up, k, thinkingEnabled, c, text, t, p, any, tracker.State());
        k := k + 1;
      } else {
        BreaksOff(up, k, thinkingEnabled, c, text, t, p, any);
        InterruptedHere(c, cut, up, thinkingEnabled, k, pieces, text, t, p, any);
        sent := |pieces|;
        broken := true;
      }
    }
    ghost var text, t, p := Flatten(out), tracker.State(), state.State();
    assert !broken ==> up[..k] == up;
    if fails || broken {
      var tail := ErrorTailAfter(c, tracker, sentAny, id, model, errorMessage);
      FlattenConcat(out, tail);
      out := out + tail;
    }
    if broken {
      BrokenIsTold(c, cut, up, thinkingEnabled, k, sent, text, t, errorMessage);
    } else {
      WholeIsTold(up, thinkingEnabled, fails, c, text, t, p, sentAny, id, model, errorMessage);
    }
  }

  // ---------------------------------------------------------------------------------------------
  // Which upstreams the tracker follows.

  /** An event that passes the remapper as it is and that the tracker cannot observe: a start or stop without an index. */
  predicate Unobservable(e: Event) {
    e.Malformed? && e.phase != DeltaPhase && e.indexIfAny.None?
  }

  lemma {:induction false} ObservesAll(t: Tracker, es: seq<Event>)
    ensures ObserveAll(t, es).Some? <==> forall k :: 0 <= k < |es| ==> !Unobservable(es[k])
  {
    if es != [] { ObservesAll(t, es[..|es| - 1]); }
  }

  lemma TransformObservable(p: Policy, e: Event, thinkingEnabled: bool)
    ensures (forall k :: 0 <= k < |Transform(p, e, thinkingEnabled).1| ==> !Unobservable(Transform(p, e, thinkingEnabled).1[k]))
            <==> !Unobservable(e)
  {
    if e.BlockStart? {
      StopsAreStops(p, p.order, e.index);
    } else if Unobservable(e) {
      assert Transform(p, e, thinkingEnabled).1[0] == e;
    }
  }

  /** The tracker follows exactly the upstreams in which every start and stop has an index. */
  lemma {:induction false} TrackableMeans(up: seq<Event>, thinkingEnabled: bool)
    ensures Trackable(up, thinkingEnabled) <==> forall k :: 0 <= k < |up| ==> !Unobservable(up[k])
  {
    if up != [] {
      var k := |up| - 1;
      var front := up[..k];
      assert up[..k + 1] == up;
      assert forall m :: 0 <= m < k ==> front[m] == up[m];
      hide Unobservable, Trackable;
      TrackableMeans(front, thinkingEnabled);
      TrackableNext(up, k, thinkingEnabled);
    }
  }

  lemma TrackableNext(up: seq<Event>, k: nat, thinkingEnabled: bool)
    requires k < |up|
    ensures Trackable(up[..k + 1], thinkingEnabled) <==> Trackable(up[..k], thinkingEnabled) && !Unobservable(up[k])
  {
    var r := Remap(up[..k], thinkingEnabled);
    var out := Transform(r.policy, up[k], thinkingEnabled).1;
    hide Transform, Remap, ObserveAll, Unobservable;
    NextEvent(up, k, thinkingEnabled);
    TransformObservable(r.policy, up[k], thinkingEnabled);
    ObserveAllConcat(FreshTracker, r.out, out);
    if ObserveAll(FreshTracker, r.out).Some? { ObservesAll(ObserveAll(FreshTracker, r.out).value, out); }
  }

  lemma {:induction false} LenientIsTrackable(up: seq<Event>, thinkingEnabled: bool)
    requires Lenient(up, thinkingEnabled).Some?
    ensures Trackable(up, thinkingEnabled)
  {
    RemapLinked(up, thinkingEnabled);
    TracksOpenBlocks(Remap(up, thinkingEnabled).out);
  }

  // ---------------------------------------------------------------------------------------------
  // The contract at the client.

  lemma FreshErrorMeetsContract(id: string, model: string, message: string)
    ensures Contract(FreshErrorMessage(id, model, message), false)
  {
    var es := FreshErrorMessage(id, model, message);
    assert es[0].MessageStart?;
    ScanFromConcat(FreshJudge, [MessageStart(id, model)], ErrorTail(0, message));
    ScanOne(FreshJudge, MessageStart(id, model));
    ErrorTailScan({}, 0, message);
    assert 0 in {} + {0};
  }

  /** The upstream gave nothing to pass on: no message event, no kept block, no delta of one. */
  predicate NothingToSay(up: seq<Event>, thinkingEnabled: bool) {
    && MessageEvents(up) == [] && !HasKeptStart(up, thinkingEnabled)
    && Kept(Deltas(up), DroppedBlocks(up, thinkingEnabled), thinkingEnabled) == []
  }

  lemma {:induction false} DroppedByPolicy(up: seq<Event>, thinkingEnabled: bool)
    ensures Remap(up, thinkingEnabled).policy.droppedIndexes == DroppedBlocks(up, thinkingEnabled)
  {
    if up != [] {
      var k := |up| - 1;
      DroppedByPolicy(up[..k], thinkingEnabled);
      var p := Remap(up[..k], thinkingEnabled).policy;
      if up[k].BlockStart? { CloseOthersMeaning(p, p.order, up[k].index); }
    }
  }

  lemma {:induction false} UpstreamedLength(ps: seq<Piece>, owners: seq<int>)
    ensures |Upstreamed(ps, owners)| == |ps|
  {
    if ps != [] { UpstreamedLength(ps[..|ps| - 1], owners); }
  }

  lemma {:induction false} StartsWhenKept(up: seq<Event>, thinkingEnabled: bool)
    ensures HasKeptStart(up, thinkingEnabled) ==> Remap(up, thinkingEnabled).policy.nextIndex > 0
  {
    if up != [] {
      var front, e := up[..|up| - 1], up[|up| - 1];
      assert up == front + [e];
      StartsWhenKept(front, thinkingEnabled);
      HasKeptStartSnoc(front, e, thinkingEnabled);
      var p := Remap(front, thinkingEnabled).policy;
      if e.BlockStart? { CloseOthersMeaning(p, p.order, e.index); }
    }
  }

  lemma {:induction false} NothingStarted(up: seq<Event>, thinkingEnabled: bool)
    requires !HasKeptStart(up, thinkingEnabled) && Deltas(Remap(up, thinkingEnabled).out) == []
    ensures Remap(up, thinkingEnabled).policy.nextIndex == 0
  {
    if up != [] {
      var front, e := up[..|up| - 1], up[|up| - 1];
      assert up == front + [e];
      HasKeptStartSnoc(front, e, thinkingEnabled);
      var r := Remap(front, thinkingEnabled);
      var out := Transform(r.policy, e, thinkingEnabled).1;
      DeltasConcat(r.out, out);
      NothingStarted(front, thinkingEnabled);
      StartsOnlyWith(r.policy, e, thinkingEnabled);
    }
  }

  lemma StartsOnlyWith(p: Policy, e: Event, thinkingEnabled: bool)
    requires !KeptStart(e, thinkingEnabled) && Deltas(Transform(p, e, thinkingEnabled).1) == []
    ensures Transform(p, e, thinkingEnabled).0.nextIndex == p.nextIndex
  {
    if !e.BlockStart? {
      OtherShape(p, e, thinkingEnabled);
      var (p', out) := Transform(p, e, thinkingEnabled);
      hide Transform;
      if |out| == 2 { DeltaShows(out); }
    }
  }

  lemma DeltaShows(es: seq<Event>)
    requires es != [] && es[|es| - 1].BlockDelta?
    ensures Deltas(es) != []
  {
  }

  /** Without a block started, only message events obey the block rules. */
  lemma {:induction false} OnlyMessageEvents(es: seq<Event>)
    requires Scan(es).Some? && StartCount(es) == 0
    ensures MessageEvents(es) == es && Scan(es).value.open == map[]
  {
    if es != [] {
      OnlyMessageEvents(es[..|es| - 1]);
      assert es == es[..|es| - 1] + [es[|es| - 1]];
    }
  }

  /** Nothing goes out exactly when there was nothing to say. */
  lemma SilentMeans(up: seq<Event>, thinkingEnabled: bool)
    requires Lenient(up, thinkingEnabled).Some?
    ensures Remap(up, thinkingEnabled).out == [] <==> NothingToSay(up, thinkingEnabled)
  {
    var r := Remap(up, thinkingEnabled);
    RemapConserves(up, thinkingEnabled);
    RemapNumbersStarts(up, thinkingEnabled);
    DroppedByPolicy(up, thinkingEnabled);
    UpstreamedLength(Deltas(r.out), r.owners);
    StartsWhenKept(up, thinkingEnabled);
    if NothingToSay(up, thinkingEnabled) {
      RemapLinked(up, thinkingEnabled);
      NothingStarted(up, thinkingEnabled);
      OnlyMessageEvents(r.out);
    }
  }

  /**
    Whatever the point of failure and however the upstream's blocks overlapped until then, the client
    receives a stream obeying the whole contract, exactly when the upstream had begun its message or had
    given nothing to pass on.
   */
  lemma FailedResponseMeetsContract(up: seq<Event>, thinkingEnabled: bool, id: string, model: string, message: string,
                                    allowError: bool)
    requires Lenient(up, thinkingEnabled).Some? && (allowError || !HasError(up))
    ensures Contract(Response(up, thinkingEnabled, true, id, model, message), allowError)
            <==> HasMessageStart(up) || NothingToSay(up, thinkingEnabled)
  {
    var sent := Remap(up, thinkingEnabled).out;
    RemapLinked(up, thinkingEnabled);
    RemapConserves(up, thinkingEnabled);
    SilentMeans(up, thinkingEnabled);
    MessageEventsTell(up);
    MessageEventsTell(sent);
    hide Remap, Lenient, NothingToSay, MessageEvents, Linked;
    if sent == [] {
      FreshErrorMeetsContract(id, model, message);
    } else {
      RepairMeetsContract(sent, message, allowError);
      AsFarAsWhole(FreshTracker, sent);
    }
  }

  /** An upstream that ends normally and obeys the contract yields a response obeying it, if any block is kept. */
  lemma CompleteResponseMeetsContract(up: seq<Event>, thinkingEnabled: bool, id: string, model: string, message: string,
                                      allowError: bool)
    requires Contract(up, allowError)
    ensures Contract(Response(up, thinkingEnabled, false, id, model, message), allowError)
            <==> HasKeptStart(up, thinkingEnabled)
  {
    RemapMeetsContract(up, thinkingEnabled, allowError);
  }

  /** A transport that fails after a block but before any message start leaves a stream that misses the contract. */
  lemma BlockBeforeMessageIsLost(id: string, model: string, message: string, allowError: bool)
    ensures var up := [BlockStart(0, PlainBlock(TextType))];
            Scan(up).Some? && !Contract(Response(up, true, true, id, model, message), allowError)
  {
    var e := BlockStart(0, PlainBlock(TextType));
    ScanOne(FreshJudge, e);
    LawfulIsLenient([e], true);
    assert [e][0] == e && KeptStart([e][0], true);
    assert HasKeptStart([e], true) && !HasMessageStart([e]) && !HasError([e]);
    assert !NothingToSay([e], true);
    hide Scan, Lenient, NothingToSay, Response, HasKeptStart, HasMessageStart, HasError;
    FailedResponseMeetsContract([e], true, id, model, message, true);
    FailedResponseMeetsContract([e], true, id, model, message, false);
  }
}
