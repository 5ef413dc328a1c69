/**
  Server-sent event framing: printing one event (core/anthropic/sse.py), the line parser
  (core/anthropic/stream_contracts.py) and the frame buffer of the tracker
  (core/anthropic/emitted_sse_tracker.py). JSON text is opaque here.
 */
module SseFraming {
  import opened Prelude
  import opened Strings

  /** The name and the JSON text of one event. */
  datatype SseEvent = SseEvent(event: string, dataText: string)

  function FrameOf(e: SseEvent): string {
    "event: " + e.event + "\ndata: " + e.dataText
  }

  function FormatSseEvent(e: SseEvent): string {
    FrameOf(e) + "\n\n"
  }

  function FormatAll(es: seq<SseEvent>): string {
    if es == [] then "" else FormatSseEvent(es[0]) + FormatAll(es[1..])
  }

  /** The characters at which splitlines() breaks. */
  predicate IsLineBreak(c: char) {
    || '\n' <= c <= '\r'
    || '\U{1c}' <= c <= '\U{1e}'
    || c == '\U{85}' || c == '\U{2028}' || c == '\U{2029}'
  }

  /** The position of the first line break, or the length. */
  function LineLength(s: string): (n: nat)
    ensures n <= |s|
    ensures forall i :: 0 <= i < n ==> !IsLineBreak(s[i])
    ensures n < |s| ==> IsLineBreak(s[n])
  {
    if s == "" || IsLineBreak(s[0]) then 0 else 1 + LineLength(s[1..])
  }

  /** splitlines(): a carriage return directly followed by a line feed is one break. */
  function SplitLines(s: string): seq<string>
    decreases |s|
  {
    if s == "" then []
    else
      var n := LineLength(s);
      if n == |s| then [s]
      else if s[n] == '\r' && n + 1 < |s| && s[n + 1] == '\n' then [s[..n]] + SplitLines(s[n + 2..])
      else [s[..n]] + SplitLines(s[n + 1..])
  }

  /** rstrip("\r\n") */
  function DropNewlines(s: string): string {
    if s != "" && (s[|s| - 1] == '\r' || s[|s| - 1] == '\n') then DropNewlines(s[..|s| - 1]) else s
  }

  /** The parser's local variables. */
  datatype Parse = Parse(events: seq<SseEvent>, currentEvent: string, dataParts: seq<string>)

  function AppendEvent(p: Parse): Parse {
    if p.currentEvent == "" && p.dataParts == [] then Parse(p.events, "", [])
    else Parse(p.events + [SseEvent(p.currentEvent, Join("\n", p.dataParts))], "", [])
  }

  function ParseLine(p: Parse, line: string): Parse {
    var stripped := DropNewlines(line);
    if stripped == "" then AppendEvent(p)
    else if StartsWith(stripped, "event:") then p.(currentEvent := Strip(stripped[6..]))
    else if StartsWith(stripped, "data:") then p.(dataParts := p.dataParts + [Strip(stripped[5..])])
    else p
  }

  function ParseLines(lines: seq<string>): Parse {
    if lines == [] then Parse([], "", []) else ParseLine(ParseLines(lines[..|lines| - 1]), lines[|lines| - 1])
  }

  /** The events of a block of lines; what is pending at the end counts as one event. */
  function EventsOfLines(lines: seq<string>): seq<SseEvent> {
    AppendEvent(ParseLines(lines)).events
  }

  method ParseSseLines(lines: seq<string>) returns (events: seq<SseEvent>)
    ensures events == EventsOfLines(lines)
  {
    events := [];
    var currentEvent, dataParts := "", [];
    for k := 0 to |lines|
      invariant ParseLines(lines[..k]) == Parse(events, currentEvent, dataParts)
    {
      assert lines[..k + 1] == lines[..k] + [lines[k]];
      assert lines[..k + 1][..k] == lines[..k];
      var stripped := DropNewlines(lines[k]);
      if stripped == "" {
        if currentEvent != "" || dataParts != [] {
          events := events + [SseEvent(currentEvent, Join("\n", dataParts))];
        }
        currentEvent, dataParts := "", [];
        continue;
      }
      if StartsWith(stripped, "event:") {
        currentEvent := Strip(stripped[6..]);
      } else if StartsWith(stripped, "data:") {
        dataParts := dataParts + [Strip(stripped[5..])];
      }
    }
    assert lines[..|lines|] == lines;
    if currentEvent != "" || dataParts != [] {
      events := events + [SseEvent(currentEvent, Join("\n", dataParts))];
    }
  }

  // ---------------------------------------------------------------------------------------------
  // Frames: the stretches of text ended by an empty line, and the unfinished rest.

  const FRAME_END: string := "\n\n"

  function Frames(s: string): seq<string>
    decreases |s|
  {
    var sep := Find(s, FRAME_END);
    if sep < 0 then [] else [s[..sep]] + Frames(s[sep + 2..])
  }

  function Residue(s: string): string
    decreases |s|
  {
    var sep := Find(s, FRAME_END);
    if sep < 0 then s else Residue(s[sep + 2..])
  }

  /** The events of one complete frame; a blank frame carries none. */
  function EventsOfFrame(frame: string): seq<SseEvent> {
    if Strip(frame) == "" then [] else EventsOfLines(SplitLines(frame))
  }

  function EventsOfFrames(frames: seq<string>): seq<SseEvent> {
    if frames == [] then [] else EventsOfFrames(frames[..|frames| - 1]) + EventsOfFrame(frames[|frames| - 1])
  }

  lemma FindExtends(a: string, b: string, t: string)
    requires Find(a, t) >= 0
    ensures Find(a + b, t) == Find(a, t)
  {
    var r := Find(a, t);
    assert (a + b)[r..r + |t|] == a[r..r + |t|];
    assert OccursAt(a + b, t, r);
    assert forall i :: 0 <= i < r ==> !OccursAt(a + b, t, i) by {
      forall i | 0 <= i < r ensures !OccursAt(a + b, t, i) {
        assert (a + b)[i..i + |t|] == a[i..i + |t|];
        assert !OccursAt(a, t, i);
      }
    }
  }

  /** Cutting a text in two changes neither its frames nor what is left over. */
  lemma {:induction false} FramesConcat(a: string, b: string)
    ensures Frames(a + b) == Frames(a) + Frames(Residue(a) + b)
    ensures Residue(a + b) == Residue(Residue(a) + b)
    decreases |a|
  {
    hide Find;
    var sep := Find(a, FRAME_END);
    if sep >= 0 {
      FindExtends(a, b, FRAME_END);
      assert (a + b)[..sep] == a[..sep];
      assert (a + b)[sep + 2..] == a[sep + 2..] + b;
      FramesConcat(a[sep + 2..], b);
    }
  }

  lemma {:induction false} EventsOfFramesConcat(a: seq<string>, b: seq<string>)
    ensures EventsOfFrames(a + b) == EventsOfFrames(a) + EventsOfFrames(b)
    decreases |b|
  {
    hide EventsOfFrame;
    if b == [] {
      assert a + b == a;
    } else {
      var front, last := b[..|b| - 1], b[|b| - 1];
      EventsOfFramesConcat(a, front);
      ConcatLast(a, b);
      Associative(EventsOfFrames(a), EventsOfFrames(front), EventsOfFrame(last));
    }
  }

  // ---------------------------------------------------------------------------------------------
  // Printing and reading back.

  /** One line without white space at either end: event names and JSON text as the proxy prints them. */
  ghost predicate OneTrimmedLine(s: string) {
    && (forall i :: 0 <= i < |s| ==> !IsLineBreak(s[i]))
    && (s == "" || (!IsSpace(s[0]) && !IsSpace(s[|s| - 1])))
  }

  ghost predicate Printable(e: SseEvent) {
    OneTrimmedLine(e.event) && OneTrimmedLine(e.dataText)
  }

  lemma StripAfterSpace(s: string)
    requires OneTrimmedLine(s)
    ensures Strip(" " + s) == s
  {
    assert (" " + s)[1..] == s;
    StripTrimmed(s);
    if s == "" { assert StripLeft(" ") == StripLeft(" "[1..]); }
  }

  lemma LineLengthIs(s: string, n: nat)
    requires n <= |s|
    requires forall i :: 0 <= i < n ==> !IsLineBreak(s[i])
    requires n < |s| ==> IsLineBreak(s[n])
    ensures LineLength(s) == n
  {
  }

  lemma SplitPrinted(e: SseEvent)
    requires Printable(e)
    ensures SplitLines(FrameOf(e)) == ["event: " + e.event, "data: " + e.dataText]
  {
    var f := FrameOf(e);
    var first, second := "event: " + e.event, "data: " + e.dataText;
    assert f == first + "\n" + second;
    LineLengthIs(f, |first|);
    assert f[..|first|] == first && f[|first| + 1..] == second;
    LineLengthIs(second, |second|);
    assert SplitLines(second) == [second];
  }

  lemma NoNewlinesDropped(s: string)
    requires s != "" && !IsLineBreak(s[|s| - 1])
    ensures DropNewlines(s) == s
  {
  }

  lemma ParseEventLine(p: Parse, name: string)
    requires OneTrimmedLine(name)
    ensures ParseLine(p, "event: " + name) == p.(currentEvent := name)
  {
    var line := "event: " + name;
    NoNewlinesDropped(line);
    assert line[..6] == "event:" && line[6..] == " " + name;
    StripAfterSpace(name);
  }

  lemma ParseDataLine(p: Parse, text: string)
    requires OneTrimmedLine(text)
    ensures ParseLine(p, "data: " + text) == p.(dataParts := p.dataParts + [text])
  {
    var line := "data: " + text;
    NoNewlinesDropped(line);
    assert line[..5] == "data:" && line[5..] == " " + text;
    assert line[..6][0] == 'd';
    StripAfterSpace(text);
  }

  lemma ParseTwoLines(a: string, b: string)
    ensures ParseLines([a, b]) == ParseLine(ParseLine(Parse([], "", []), a), b)
  {
    hide ParseLine;
    assert [a][..0] == [];
    assert ParseLines([a]) == ParseLine(Parse([], "", []), a);
    assert [a, b][..1] == [a];
  }

  lemma ParseTwoPrinted(e: SseEvent, lines: seq<string>)
    requires Printable(e) && lines == ["event: " + e.event, "data: " + e.dataText]
    ensures EventsOfLines(lines) == [e]
  {
    var p := Parse([], "", []);
    ParseTwoLines("event: " + e.event, "data: " + e.dataText);
    ParseEventLine(p, e.event);
    ParseDataLine(p.(currentEvent := e.event), e.dataText);
    assert [] + [e.dataText] == [e.dataText];
    assert ParseLines(lines) == Parse([], e.event, [e.dataText]);
    AppendOne(e);
  }

  /** The lines of a printed frame read back as that one event. */
  lemma ParsePrinted(e: SseEvent)
    requires Printable(e)
    ensures EventsOfLines(SplitLines(FrameOf(e))) == [e]
  {
    SplitPrinted(e);
    ParseTwoPrinted(e, SplitLines(FrameOf(e)));
  }

  lemma AppendOne(e: SseEvent)
    ensures AppendEvent(Parse([], e.event, [e.dataText])).events == [e]
  {
    assert Join("\n", [e.dataText]) == e.dataText;
  }

  lemma FrameEndMeans(s: string, i: int)
    ensures OccursAt(s, FRAME_END, i) <==> 0 <= i && i + 2 <= |s| && s[i] == '\n' && s[i + 1] == '\n'
  {
    if 0 <= i && i + 2 <= |s| {
      assert s[i..i + 2] == [s[i], s[i + 1]];
    }
  }

  /** The only line feed of a printed frame is the one before its data line. */
  lemma PrintedNewlines(e: SseEvent)
    requires Printable(e)
    ensures forall i :: 0 <= i < |FrameOf(e)| && i != 7 + |e.event| ==> FrameOf(e)[i] != '\n'
    ensures FrameOf(e)[8 + |e.event|] == 'd'
  {
    var f := FrameOf(e);
    assert f == "event: " + e.event + "\ndata: " + e.dataText;
    forall i | 0 <= i < |f| && i != 7 + |e.event| ensures f[i] != '\n' {
      if 7 <= i < 7 + |e.event| { assert f[i] == e.event[i - 7]; }
      if 14 + |e.event| <= i { assert f[i] == e.dataText[i - 14 - |e.event|]; }
    }
  }

  /** The first empty line of printed text ends its first frame. */
  lemma FirstFrame(e: SseEvent, rest: string)
    requires Printable(e)
    ensures Find(FormatSseEvent(e) + rest, FRAME_END) == |FrameOf(e)|
  {
    var f := FrameOf(e);
    var s := FormatSseEvent(e) + rest;
    assert s == f + "\n\n" + rest;
    PrintedNewlines(e);
    assert forall i :: 0 <= i < |f| ==> s[i] == f[i];
    hide FrameOf, FormatSseEvent;
    forall i | 0 <= i < |f| ensures !OccursAt(s, FRAME_END, i) {
      FrameEndMeans(s, i);
    }
    FrameEndMeans(s, |f|);
  }

  lemma PrintedNotBlank(e: SseEvent)
    ensures Strip(FrameOf(e)) != ""
  {
    StripBlank(FrameOf(e));
    assert FrameOf(e)[0] == 'e';
  }

  /**
    Printing any events and cutting the text into frames recovers exactly those events in order and
    leaves nothing over.
   */
  lemma {:induction false} PrintedRoundTrip(es: seq<SseEvent>)
    requires forall k :: 0 <= k < |es| ==> Printable(es[k])
    ensures EventsOfFrames(Frames(FormatAll(es))) == es && Residue(FormatAll(es)) == ""
  {
    if es != [] {
      var e, rest := es[0], FormatAll(es[1..]);
      var s := FormatSseEvent(e) + rest;
      PrintedRoundTrip(es[1..]);
      FirstFrame(e, rest);
      hide FrameOf, Find, EventsOfFrame;
      assert s[..|FrameOf(e)|] == FrameOf(e);
      assert s[|FrameOf(e)| + 2..] == rest;
      EventsOfFramesConcat([FrameOf(e)], Frames(rest));
      OneFrame(e);
      assert [e] + es[1..] == es;
    }
  }

  lemma OneFrame(e: SseEvent)
    requires Printable(e)
    ensures EventsOfFrames([FrameOf(e)]) == [e]
  {
    PrintedNotBlank(e);
    ParsePrinted(e);
    hide FrameOf, EventsOfLines, SplitLines;
    assert [FrameOf(e)][..0] == [];
  }
}
