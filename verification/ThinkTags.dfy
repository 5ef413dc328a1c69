/**
  The streaming parser for <think> tags (core/anthropic/thinking.py). It receives text in chunks cut
  anywhere and holds back what may be the beginning of a tag.
 */
module ThinkTags {
  import opened Prelude
  import opened Strings

  datatype ContentType = Text | Thinking

  datatype ContentChunk = ContentChunk(kind: ContentType, content: string)

  const OPEN_TAG: string := "<think>"
  const CLOSE_TAG: string := "</think>"

  // ---------------------------------------------------------------------------------------------
  // The reference: one pass over the whole text, character by character.

  /** What a text consists of: characters inside or outside of thinking, and recognised tags. */
  datatype Item = Char(kind: ContentType, c: char) | Tag(text: string)

  function Kind(inside: bool): ContentType {
    if inside then Thinking else Text
  }

  /** Outside both tags are recognised (a closing one is an orphan); inside only the closing one. */
  function Items(s: string, inside: bool): seq<Item>
    decreases |s|
  {
    if s == "" then []
    else if !inside && StartsWith(s, OPEN_TAG) then [Tag(OPEN_TAG)] + Items(s[|OPEN_TAG|..], true)
    else if StartsWith(s, CLOSE_TAG) then [Tag(CLOSE_TAG)] + Items(s[|CLOSE_TAG|..], false)
    else [Char(Kind(inside), s[0])] + Items(s[1..], inside)
  }

  function Visible(items: seq<Item>): seq<Item> {
    if items == [] then []
    else (if items[0].Char? then [items[0]] else []) + Visible(items[1..])
  }

  /** The labelled characters a whole text yields. */
  function Reference(s: string, inside: bool): seq<Item> {
    Visible(Items(s, inside))
  }

  function TextOf(item: Item): string {
    match item case Char(_, c) => [c] case Tag(t) => t
  }

  function SourceText(items: seq<Item>): string {
    if items == [] then "" else TextOf(items[0]) + SourceText(items[1..])
  }

  /** The reference accounts for every input character, as output or as part of a recognised tag. */
  lemma {:induction false} ReferenceAccountsForAll(s: string, inside: bool)
    ensures SourceText(Items(s, inside)) == s
    decreases |s|
  {
    if s == "" {
    } else if !inside && StartsWith(s, OPEN_TAG) {
      ReferenceAccountsForAll(s[|OPEN_TAG|..], true);
      assert s == OPEN_TAG + s[|OPEN_TAG|..];
    } else if StartsWith(s, CLOSE_TAG) {
      ReferenceAccountsForAll(s[|CLOSE_TAG|..], false);
      assert s == CLOSE_TAG + s[|CLOSE_TAG|..];
    } else {
      ReferenceAccountsForAll(s[1..], inside);
    }
  }

  // ---------------------------------------------------------------------------------------------
  // The parser.

  function Labelled(s: string, kind: ContentType): seq<Item> {
    seq(|s|, k requires 0 <= k < |s| => Char(kind, s[k]))
  }

  /** The labelled characters of emitted chunks; how they are grouped into chunks does not matter. */
  function Emitted(chunks: seq<ContentChunk>): seq<Item> {
    if chunks == [] then []
    else Emitted(chunks[..|chunks| - 1]) + Labelled(chunks[|chunks| - 1].content, chunks[|chunks| - 1].kind)
  }

  function EmittedOne(chunk: Option<ContentChunk>): seq<Item> {
    if chunk.Some? then Labelled(chunk.value.content, chunk.value.kind) else []
  }

  /** Whatever text follows, what was there shows `shown` and then what is left shows the rest. */
  ghost predicate Continues(before: string, insideBefore: bool, shown: seq<Item>, after: string, insideAfter: bool) {
    forall rest: string :: Reference(before + rest, insideBefore) == shown + Reference(after + rest, insideAfter)
  }

  predicate ProperPrefix(s: string, tag: string) {
    |s| < |tag| && tag[..|s|] == s
  }

  /** Text that may be held back: nothing, or the beginning of a tag that would be recognised. */
  predicate MayHold(s: string, inside: bool) {
    s == "" || ProperPrefix(s, CLOSE_TAG) || (!inside && ProperPrefix(s, OPEN_TAG))
  }

  class ThinkTagParser {
    var buffer: string
    var inThinkTag: bool

    ghost predicate Valid()
      reads this
    {
      MayHold(buffer, inThinkTag)
    }

    constructor ()
      ensures Valid() && buffer == "" && !inThinkTag
    {
      buffer, inThinkTag := "", false;
    }

    method Feed(content: string) returns (chunks: seq<ContentChunk>)
      modifies this
      ensures Valid()
      ensures Continues(old(buffer) + content, old(inThinkTag), Emitted(chunks), buffer, inThinkTag)
      ensures forall k :: 0 <= k < |chunks| ==> chunks[k].content != ""
    {
      chunks := [];
      buffer := buffer + content;
      NothingYet(buffer, inThinkTag);
      while buffer != ""
        invariant Continues(old(buffer) + content, old(inThinkTag), Emitted(chunks), buffer, inThinkTag)
        invariant forall k :: 0 <= k < |chunks| ==> chunks[k].content != ""
        decreases |buffer|
      {
        var prevLen := |buffer|;
        ghost var before, insideBefore := buffer, inThinkTag;
        var chunk;
        if !inThinkTag {
          chunk := ParseOutsideThink();
        } else {
          chunk := ParseInsideThink();
        }
        ContinuesOn(old(buffer) + content, old(inThinkTag), Emitted(chunks), before, insideBefore,
                    EmittedOne(chunk), buffer, inThinkTag);
        if chunk.Some? {
          EmittedSnoc(chunks, chunk.value);
          chunks := chunks + [chunk.value];
        } else {
          assert Emitted(chunks) + [] == Emitted(chunks);
          if |buffer| == prevLen { break; }
        }
      }
    }

    method ParseOutsideThink() returns (chunk: Option<ContentChunk>)
      requires buffer != "" && !inThinkTag
      modifies this
      ensures Continues(old(buffer), false, EmittedOne(chunk), buffer, inThinkTag)
      ensures chunk.Some? ==> chunk.value.content != "" && |buffer| < |old(buffer)|
      ensures |buffer| < |old(buffer)| || (buffer == old(buffer) && Valid())
    {
      hide Continues, EmittedOne, FindLast;
      ghost var b := buffer;
      var thinkStart := Find(buffer, OPEN_TAG);
      var orphanClose := Find(buffer, CLOSE_TAG);

      if orphanClose != -1 && (thinkStart == -1 || orphanClose < thinkStart) {
        assert forall i :: 0 <= i < orphanClose ==> !TagAt(b, i, false);
        TagFound(b, orphanClose, false, CLOSE_TAG);
        var preOrphan := buffer[..orphanClose];
        buffer := buffer[orphanClose + |CLOSE_TAG|..];
        if preOrphan != "" { return Some(ContentChunk(Text, preOrphan)); }
        return None;
      }

      if thinkStart == -1 {
        assert forall i :: 0 <= i ==> !TagAt(b, i, false);
        var lastBracket := FindLast(buffer, '<');
        if lastBracket != -1 {
          var potentialTag := buffer[lastBracket..];
          var tagLen := |potentialTag|;
          if (tagLen < |OPEN_TAG| && StartsWith(OPEN_TAG, potentialTag))
             || (tagLen < |CLOSE_TAG| && StartsWith(CLOSE_TAG, potentialTag)) {
            NoTagFound(b, lastBracket, false);
            var emit := buffer[..lastBracket];
            buffer := buffer[lastBracket..];
            if emit != "" { return Some(ContentChunk(Text, emit)); }
            return None;
          }
        }
        NoTagFound(b, |b|, false);
        assert b[|b|..] == "" && b[..|b|] == b;
        chunk := Some(ContentChunk(Text, buffer));
        buffer := "";
        return;
      }

      assert forall i :: 0 <= i < thinkStart ==> !TagAt(b, i, false);
      TagFound(b, thinkStart, false, OPEN_TAG);
      var preThink := buffer[..thinkStart];
      buffer := buffer[thinkStart + |OPEN_TAG|..];
      inThinkTag := true;
      if preThink != "" { return Some(ContentChunk(Text, preThink)); }
      return None;
    }

    method ParseInsideThink() returns (chunk: Option<ContentChunk>)
      requires buffer != "" && inThinkTag
      modifies this
      ensures Continues(old(buffer), true, EmittedOne(chunk), buffer, inThinkTag)
      ensures chunk.Some? ==> chunk.value.content != "" && |buffer| < |old(buffer)|
      ensures |buffer| < |old(buffer)| || (buffer == old(buffer) && Valid())
    {
      hide Continues, EmittedOne, FindLast;
      ghost var b := buffer;
      var thinkEnd := Find(buffer, CLOSE_TAG);

      if thinkEnd == -1 {
        assert forall i :: 0 <= i ==> !TagAt(b, i, true);
        var lastBracket := FindLast(buffer, '<');
        if lastBracket != -1 && |buffer| - lastBracket < |CLOSE_TAG| {
          var potentialTag := buffer[lastBracket..];
          if StartsWith(CLOSE_TAG, potentialTag) {
            NoTagFound(b, lastBracket, true);
            var emit := buffer[..lastBracket];
            buffer := buffer[lastBracket..];
            if emit != "" { return Some(ContentChunk(Thinking, emit)); }
            return None;
          }
        }
        NoTagFound(b, |b|, true);
        assert b[|b|..] == "" && b[..|b|] == b;
        chunk := Some(ContentChunk(Thinking, buffer));
        buffer := "";
        return;
      }

      assert forall i :: 0 <= i < thinkEnd ==> !TagAt(b, i, true);
      TagFound(b, thinkEnd, true, CLOSE_TAG);
      var thinkingContent := buffer[..thinkEnd];
      buffer := buffer[thinkEnd + |CLOSE_TAG|..];
      inThinkTag := false;
      if thinkingContent != "" { return Some(ContentChunk(Thinking, thinkingContent)); }
      return None;
    }

    /** At the end of the text what was held back turns out not to be a tag. */
    method Flush() returns (chunk: Option<ContentChunk>)
      requires Valid()
      modifies this
      ensures buffer == "" && inThinkTag == old(inThinkTag)
      ensures EmittedOne(chunk) == Reference(old(buffer), old(inThinkTag))
      ensures chunk.Some? ==> chunk.value.content != ""
    {
      HeldIsPlain(buffer, inThinkTag);
      if buffer != "" {
        var content := buffer;
        buffer := "";
        return Some(ContentChunk(if inThinkTag then Thinking else Text, content));
      }
      return None;
    }
  }

  /** The whole life of a parser over a chunked text. */
  method ParseChunks(parts: seq<string>) returns (chunks: seq<ContentChunk>)
    ensures Emitted(chunks) == Reference(Flatten(parts), false)
    ensures forall k :: 0 <= k < |chunks| ==> chunks[k].content != ""
  {
    var parser := new ThinkTagParser();
    chunks := [];
    NothingYet("", false);
    assert parts[..0] == [] && Flatten([]) == "" && parts[..|parts|] == parts;
    hide Continues, MayHold, Flatten, Reference, Emitted, EmittedOne, Labelled;
    for k := 0 to |parts|
      invariant parser.Valid()
      invariant Continues(Flatten(parts[..k]), false, Emitted(chunks), parser.buffer, parser.inThinkTag)
      invariant forall k :: 0 <= k < |chunks| ==> chunks[k].content != ""
    {
      TakeFlatten(parts, k);
      ghost var held, inside, before := parser.buffer, parser.inThinkTag, Flatten(parts[..k]);
      var more := parser.Feed(parts[k]);
      ContinuesWith(before, Emitted(chunks), held, inside, parts[k],
                    Emitted(more), parser.buffer, parser.inThinkTag);
      EmittedConcat(chunks, more);
      chunks := chunks + more;
    }
    ContinuesToEnd(Flatten(parts), Emitted(chunks), parser.buffer, parser.inThinkTag);
    var last := parser.Flush();
    LastEmitted(chunks, last);
    if last.Some? {
      chunks := chunks + [last.value];
    }
  }

  lemma ContinuesToEnd(s: string, shown: seq<Item>, held: string, inside: bool)
    requires Continues(s, false, shown, held, inside)
    ensures Reference(s, false) == shown + Reference(held, inside)
  {
    assert Reference(s + "", false) == shown + Reference(held + "", inside);
    assert s + "" == s && held + "" == held;
  }

  lemma LastEmitted(chunks: seq<ContentChunk>, last: Option<ContentChunk>)
    ensures Emitted(if last.Some? then chunks + [last.value] else chunks) == Emitted(chunks) + EmittedOne(last)
  {
    if last.Some? { EmittedSnoc(chunks, last.value); }
  }

  lemma NothingYet(s: string, inside: bool)
    ensures Continues(s, inside, Emitted([]), s, inside)
  {
    forall rest: string
      ensures Reference(s + rest, inside) == [] + Reference(s + rest, inside)
    {
    }
  }

  lemma EmittedSnoc(chunks: seq<ContentChunk>, c: ContentChunk)
    ensures Emitted(chunks + [c]) == Emitted(chunks) + Labelled(c.content, c.kind)
  {
    assert (chunks + [c])[..|chunks|] == chunks;
  }

  lemma {:induction false} EmittedConcat(a: seq<ContentChunk>, b: seq<ContentChunk>)
    ensures Emitted(a + b) == Emitted(a) + Emitted(b)
    decreases |b|
  {
    hide Labelled;
    if b == [] {
      assert a + b == a;
    } else {
      var front, last := b[..|b| - 1], b[|b| - 1];
      EmittedConcat(a, front);
      ConcatLast(a, b);
      Associative(Emitted(a), Emitted(front), Labelled(last.content, last.kind));
    }
  }

  lemma ContinuesOn(s0: string, in0: bool, shown0: seq<Item>, s1: string, in1: bool, shown1: seq<Item>, s2: string,
                    in2: bool)
    requires Continues(s0, in0, shown0, s1, in1) && Continues(s1, in1, shown1, s2, in2)
    ensures Continues(s0, in0, shown0 + shown1, s2, in2)
  {
    forall rest: string
      ensures Reference(s0 + rest, in0) == shown0 + shown1 + Reference(s2 + rest, in2)
    {
      assert Reference(s0 + rest, in0) == shown0 + Reference(s1 + rest, in1);
      assert Reference(s1 + rest, in1) == shown1 + Reference(s2 + rest, in2);
    }
  }

  lemma ContinuesWith(s0: string, shown0: seq<Item>, held: string, inside: bool, more: string,
                      shown1: seq<Item>, s2: string, in2: bool)
    requires Continues(s0, false, shown0, held, inside) && Continues(held + more, inside, shown1, s2, in2)
    ensures Continues(s0 + more, false, shown0 + shown1, s2, in2)
  {
    hide Reference;
    forall rest: string
      ensures Reference(s0 + more + rest, false) == shown0 + shown1 + Reference(s2 + rest, in2)
    {
      assert s0 + more + rest == s0 + (more + rest);
      assert held + more + rest == held + (more + rest);
      assert Reference(s0 + (more + rest), false) == shown0 + Reference(held + (more + rest), inside);
      assert Reference(held + more + rest, inside) == shown1 + Reference(s2 + rest, in2);
    }
  }

  // ---------------------------------------------------------------------------------------------
  // Why cutting and holding back is sound.

  /** A tag that the reference would recognise in this mode starts at `i`. */
  predicate TagAt(s: string, i: int, inside: bool) {
    OccursAt(s, CLOSE_TAG, i) || (!inside && OccursAt(s, OPEN_TAG, i))
  }

  lemma {:induction false} VisibleConcat(a: seq<Item>, b: seq<Item>)
    ensures Visible(a + b) == Visible(a) + Visible(b)
  {
    if a == [] {
      assert a + b == b;
    } else {
      VisibleConcat(a[1..], b);
      assert (a + b)[1..] == a[1..] + b;
      Associative(if a[0].Char? then [a[0]] else [], Visible(a[1..]), Visible(b));
    }
  }

  lemma {:induction false} VisibleLabelled(s: string, kind: ContentType)
    ensures Visible(Labelled(s, kind)) == Labelled(s, kind)
  {
    if s != "" {
      VisibleLabelled(s[1..], kind);
      assert Labelled(s, kind)[1..] == Labelled(s[1..], kind);
      assert Labelled(s, kind) == [Char(kind, s[0])] + Labelled(s[1..], kind);
    }
  }

  lemma PlainStep(s: string, inside: bool)
    requires s != "" && !TagAt(s, 0, inside)
    ensures Items(s, inside) == [Char(Kind(inside), s[0])] + Items(s[1..], inside)
  {
    assert |s| >= |OPEN_TAG| ==> s[0..|OPEN_TAG|] == s[..|OPEN_TAG|];
    assert |s| >= |CLOSE_TAG| ==> s[0..|CLOSE_TAG|] == s[..|CLOSE_TAG|];
  }

  lemma OccursInTail(s: string, t: string, i: nat)
    requires s != ""
    ensures OccursAt(s[1..], t, i) <==> OccursAt(s, t, i + 1)
  {
    if i + 1 + |t| <= |s| {
      assert s[1..][i..i + |t|] == s[i + 1..i + 1 + |t|];
    }
  }

  lemma LabelledStep(s: string, kind: ContentType)
    requires s != ""
    ensures Labelled(s, kind) == [Char(kind, s[0])] + Labelled(s[1..], kind)
  {
  }

  /** Text before the first tag is taken over character by character. */
  lemma {:induction false} PlainPrefix(s: string, k: nat, inside: bool)
    requires k <= |s|
    requires forall i :: 0 <= i < k ==> !TagAt(s, i, inside)
    ensures Items(s, inside) == Labelled(s[..k], Kind(inside)) + Items(s[k..], inside)
    decreases |s|
  {
    if k > 0 {
      var t := s[1..];
      assert !TagAt(s, 0, inside);
      PlainStep(s, inside);
      hide Items, OccursAt, Labelled;
      NoTagInTail(s, k, inside);
      PlainPrefix(t, k - 1, inside);
      assert t[k - 1..] == s[k..];
      assert s[..k][1..] == t[..k - 1] && s[..k][0] == s[0];
      LabelledStep(s[..k], Kind(inside));
      Associative([Char(Kind(inside), s[0])], Labelled(t[..k - 1], Kind(inside)), Items(s[k..], inside));
    } else {
      assert s[0..] == s;
    }
  }

  lemma NoTagInTail(s: string, k: nat, inside: bool)
    requires s != "" && forall i :: 0 <= i < k ==> !TagAt(s, i, inside)
    ensures forall i :: 0 <= i < k - 1 ==> !TagAt(s[1..], i, inside)
  {
    hide OccursAt;
    forall i | 0 <= i < k - 1 ensures !TagAt(s[1..], i, inside) {
      assert !TagAt(s, i + 1, inside);
      OccursInTail(s, CLOSE_TAG, i);
      OccursInTail(s, OPEN_TAG, i);
    }
  }

  /** A tag only opens with its first character. */
  lemma BracketFirst(tag: string, j: int)
    requires tag == OPEN_TAG || tag == CLOSE_TAG
    requires 0 <= j < |tag|
    ensures tag[j] == '<' <==> j == 0
  {
    assert OPEN_TAG == ['<', 't', 'h', 'i', 'n', 'k', '>'];
    assert CLOSE_TAG == ['<', '/', 't', 'h', 'i', 'n', 'k', '>'];
  }

  lemma OccursPointwise(s: string, t: string, i: int)
    requires 0 <= i && i + |t| <= |s|
    ensures OccursAt(s, t, i) <==> forall j :: 0 <= j < |t| ==> s[i + j] == t[j]
  {
    if OccursAt(s, t, i) {
      forall j | 0 <= j < |t| ensures s[i + j] == t[j] {
        assert s[i..i + |t|][j] == t[j];
      }
    }
  }

  /** An occurrence that lies within `b`, whatever follows, is one of `b`. */
  lemma OccursWithin(b: string, rest: string, t: string, i: int)
    requires 0 <= i && i + |t| <= |b|
    ensures OccursAt(b + rest, t, i) <==> OccursAt(b, t, i)
  {
    assert (b + rest)[i..i + |t|] == b[i..i + |t|];
  }

  lemma LastBracketIs(b: string, i: int)
    requires 0 <= i < |b| && b[i] == '<' && forall j :: i < j < |b| ==> b[j] != '<'
    ensures FindLast(b, '<') == i
  {
  }

  /** A tag that straddles the end of `b` begins at the last bracket of `b`, which begins a proper prefix of it. */
  lemma Straddling(b: string, rest: string, tag: string, i: int)
    requires tag == OPEN_TAG || tag == CLOSE_TAG
    requires 0 <= i < |b| < i + |tag| && OccursAt(b + rest, tag, i)
    ensures i == FindLast(b, '<') && ProperPrefix(b[i..], tag)
  {
    StraddlingChars(b, rest, tag, i);
    hide OccursAt, FindLast;
    assert b[i..] == tag[..|b| - i];
    forall j | i <= j < |b| ensures b[j] == '<' <==> j == i {
      BracketFirst(tag, j - i);
    }
    LastBracketIs(b, i);
  }

  lemma StraddlingChars(b: string, rest: string, tag: string, i: int)
    requires 0 <= i < |b| < i + |tag| && OccursAt(b + rest, tag, i)
    ensures forall j :: i <= j < |b| ==> b[j] == tag[j - i]
  {
    OccursPointwise(b + rest, tag, i);
    hide OccursAt;
    forall j | i <= j < |b|
      ensures b[j] == tag[j - i]
    {
      assert (b + rest)[i + (j - i)] == b[j];
    }
  }

  lemma TagsDiffer(s: string)
    requires StartsWith(s, CLOSE_TAG)
    ensures !StartsWith(s, OPEN_TAG)
  {
    assert s[..8][1] == CLOSE_TAG[1];
    assert s[..7][1] == s[1];
  }

  lemma TagConsumed(s: string, inside: bool, tag: string)
    requires tag == CLOSE_TAG || (!inside && tag == OPEN_TAG)
    requires StartsWith(s, tag)
    ensures Items(s, inside) == [Tag(tag)] + Items(s[|tag|..], tag == OPEN_TAG)
  {
    if tag == CLOSE_TAG { TagsDiffer(s); }
  }

  lemma TagSkipped(s: string, inside: bool, tag: string)
    requires tag == CLOSE_TAG || (!inside && tag == OPEN_TAG)
    requires StartsWith(s, tag)
    ensures Reference(s, inside) == Reference(s[|tag|..], tag == OPEN_TAG)
  {
    TagConsumed(s, inside, tag);
    hide Items;
    var next := Items(s[|tag|..], tag == OPEN_TAG);
    assert ([Tag(tag)] + next)[1..] == next;
  }

  /** What one plain stretch and one tag contribute. */
  lemma PlainThenTag(s: string, k: nat, inside: bool, tag: string)
    requires tag == CLOSE_TAG || (!inside && tag == OPEN_TAG)
    requires k + |tag| <= |s| && OccursAt(s, tag, k)
    requires forall i :: 0 <= i < k ==> !TagAt(s, i, inside)
    ensures Reference(s, inside) == Labelled(s[..k], Kind(inside)) + Reference(s[k + |tag|..], tag == OPEN_TAG)
  {
    hide Reference, Labelled, TagAt;
    PlainOnly(s, k, inside);
    var t := s[k..];
    assert t[..|tag|] == s[k..k + |tag|];
    assert t[|tag|..] == s[k + |tag|..];
    TagSkipped(t, inside, tag);
  }

  lemma PlainOnly(s: string, k: nat, inside: bool)
    requires k <= |s| && forall i :: 0 <= i < k ==> !TagAt(s, i, inside)
    ensures Reference(s, inside) == Labelled(s[..k], Kind(inside)) + Reference(s[k..], inside)
  {
    PlainPrefix(s, k, inside);
    VisibleConcat(Labelled(s[..k], Kind(inside)), Items(s[k..], inside));
    VisibleLabelled(s[..k], Kind(inside));
  }

  function PlainChunk(s: string, kind: ContentType): Option<ContentChunk> {
    if s == "" then None else Some(ContentChunk(kind, s))
  }

  lemma PlainChunkEmits(s: string, kind: ContentType)
    ensures EmittedOne(PlainChunk(s, kind)) == Labelled(s, kind)
  {
  }

  /** The first tag of `b` stays the first tag whatever follows, and what precedes it is plain text. */
  lemma TagFound(b: string, k: nat, inside: bool, tag: string)
    requires tag == CLOSE_TAG || (!inside && tag == OPEN_TAG)
    requires OccursAt(b, tag, k)
    requires forall i :: 0 <= i < k ==> !TagAt(b, i, inside)
    ensures Continues(b, inside, EmittedOne(PlainChunk(b[..k], Kind(inside))), b[k + |tag|..], tag == OPEN_TAG)
  {
    var shown := EmittedOne(PlainChunk(b[..k], Kind(inside)));
    PlainChunkEmits(b[..k], Kind(inside));
    forall rest: string
      ensures Reference(b + rest, inside) == shown + Reference(b[k + |tag|..] + rest, tag == OPEN_TAG)
    {
      TagFoundBefore(b, rest, k, inside, tag);
    }
  }

  lemma TagFoundBefore(b: string, rest: string, k: nat, inside: bool, tag: string)
    requires tag == CLOSE_TAG || (!inside && tag == OPEN_TAG)
    requires OccursAt(b, tag, k)
    requires forall i :: 0 <= i < k ==> !TagAt(b, i, inside)
    ensures Reference(b + rest, inside) ==
            Labelled(b[..k], Kind(inside)) + Reference(b[k + |tag|..] + rest, tag == OPEN_TAG)
  {
    var s := b + rest;
    OccursWithin(b, rest, tag, k);
    assert k + |tag| <= |b| && |OPEN_TAG| == 7 && |CLOSE_TAG| == 8;
    hide OccursAt, Reference, Labelled;
    forall i | 0 <= i < k ensures !TagAt(s, i, inside) {
      assert !TagAt(b, i, inside);
      OccursWithin(b, rest, OPEN_TAG, i);
      OccursWithin(b, rest, CLOSE_TAG, i);
    }
    PlainThenTag(s, k, inside, tag);
    assert s[..k] == b[..k];
    assert s[k + |tag|..] == b[k + |tag|..] + rest;
  }

  /** How much may go out when `b` holds no tag: all of it, or all up to the last bracket. */
  predicate MayCut(b: string, k: int, inside: bool) {
    var last := FindLast(b, '<');
    0 <= k <= |b| && (k == last || (k == |b| && (last == -1 || !MayHold(b[last..], inside))))
  }

  /** Without a tag in `b`, everything up to a possible beginning of one may go out whatever follows. */
  lemma NoTagFound(b: string, k: nat, inside: bool)
    requires MayCut(b, k, inside) && forall i :: 0 <= i ==> !TagAt(b, i, inside)
    ensures Continues(b, inside, EmittedOne(PlainChunk(b[..k], Kind(inside))), b[k..], inside)
  {
    var shown := EmittedOne(PlainChunk(b[..k], Kind(inside)));
    PlainChunkEmits(b[..k], Kind(inside));
    forall rest: string
      ensures Reference(b + rest, inside) == shown + Reference(b[k..] + rest, inside)
    {
      NoTagFoundBefore(b, rest, k, inside);
    }
  }

  lemma NoTagFoundBefore(b: string, rest: string, k: nat, inside: bool)
    requires MayCut(b, k, inside) && forall i :: 0 <= i ==> !TagAt(b, i, inside)
    ensures Reference(b + rest, inside) == Labelled(b[..k], Kind(inside)) + Reference(b[k..] + rest, inside)
  {
    var s := b + rest;
    assert k <= |b|;
    hide OccursAt, Reference, Labelled, MayCut;
    forall i | 0 <= i < k ensures !TagAt(s, i, inside) {
      assert !TagAt(b, i, inside);
      NotStraddling(b, rest, CLOSE_TAG, i, k, inside);
      if !inside { NotStraddling(b, rest, OPEN_TAG, i, k, inside); }
    }
    PlainOnly(s, k, inside);
    assert s[..k] == b[..k] && s[k..] == b[k..] + rest;
  }

  lemma NotStraddling(b: string, rest: string, tag: string, i: nat, k: nat, inside: bool)
    requires tag == CLOSE_TAG || (!inside && tag == OPEN_TAG)
    requires i < k && MayCut(b, k, inside) && !OccursAt(b, tag, i)
    ensures !OccursAt(b + rest, tag, i)
  {
    if i + |tag| <= |b| {
      OccursWithin(b, rest, tag, i);
    } else if OccursAt(b + rest, tag, i) {
      Straddling(b, rest, tag, i);
    }
  }

  lemma HeldHasNoTag(s: string, inside: bool, i: nat)
    requires MayHold(s, inside)
    ensures !TagAt(s, i, inside)
  {
    if |s| == 7 {
      assert s == CLOSE_TAG[..7];
      assert s[1] == '/';
      assert s[0..7] == s;
    }
  }

  /** Held-back text contains no whole tag. */
  lemma HeldIsPlain(s: string, inside: bool)
    requires MayHold(s, inside)
    ensures Reference(s, inside) == Labelled(s, Kind(inside))
  {
    forall i | 0 <= i < |s| ensures !TagAt(s, i, inside) {
      HeldHasNoTag(s, inside, i);
    }
    PlainOnly(s, |s|, inside);
    assert s[..|s|] == s && s[|s|..] == "";
    assert Reference("", inside) == [];
  }
}
