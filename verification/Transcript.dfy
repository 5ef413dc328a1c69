/** Rendering a transcript within a character limit (messaging/transcript.py). */
module Transcript {
  import opened Prelude
  import opened Strings

  const FILL: string := "..."

  /** What the segments give, in order: a text, or nothing when rendering one fails; empty texts are left out. */
  function Rendered(outcomes: seq<Option<string>>): (r: seq<string>)
    ensures forall i :: 0 <= i < |r| ==> r[i] != ""
  {
    if outcomes == [] then []
    else
      var last := outcomes[|outcomes| - 1];
      Rendered(outcomes[..|outcomes| - 1]) + if last.Some? && last.value != "" then [last.value] else []
  }

  function StatusText(status: string): string {
    if status != "" then "\n\n" + status else ""
  }

  function StripNewlines(s: string): string {
    if s != "" && s[0] == '\n' then StripNewlines(s[1..]) else s
  }

  /** The last parts, behind the marker, with the status below. */
  function Marked(marker: string, parts: seq<string>, status: string): string {
    (if Join("\n", parts) != "" then marker + Join("\n", parts) else "") + StatusText(status)
  }

  function Whole(parts: seq<string>, status: string): string {
    Join("\n", parts) + StatusText(status)
  }

  function Minimal(marker: string, status: string): string {
    marker + StripNewlines(StatusText(status))
  }

  ghost predicate SuffixFits(marker: string, parts: seq<string>, status: string, limit: int, k: int) {
    0 <= k < |parts| && |Marked(marker, parts[k..], status)| <= limit
  }

  /** Dropping k parts is enough and dropping fewer is not. */
  ghost predicate LongestFitting(marker: string, parts: seq<string>, status: string, limit: int, k: int) {
    && SuffixFits(marker, parts, status, limit, k)
    && forall j :: 0 <= j < k ==> !SuffixFits(marker, parts, status, limit, j)
  }

  ghost predicate NoSuffixFits(marker: string, parts: seq<string>, status: string, limit: int) {
    forall k :: !SuffixFits(marker, parts, status, limit, k)
  }

  function Budget(marker: string, status: string, limit: int): int {
    limit - |marker| - |StatusText(status)|
  }

  /** The end of the last part, cut to fill the limit exactly. */
  function CutTail(marker: string, last: string, status: string, limit: int): (r: string)
    requires Budget(marker, status, limit) > 20 && |last| > Budget(marker, status, limit)
    ensures |r| == limit
  {
    marker + FILL + last[|last| - (Budget(marker, status, limit) - 3)..] + StatusText(status)
  }

  lemma LastAlone(marker: string, parts: seq<string>, status: string)
    requires parts != [] && parts[|parts| - 1] != ""
    ensures Marked(marker, parts[|parts| - 1..], status) == marker + parts[|parts| - 1] + StatusText(status)
  {
    assert parts[|parts| - 1..] == [parts[|parts| - 1]];
  }

  // The rendering, in the order in which it tries.

  method RenderSegments(outcomes: seq<Option<string>>) returns (rendered: seq<string>)
    ensures rendered == Rendered(outcomes)
  {
    rendered := [];
    for i := 0 to |outcomes|
      invariant rendered == Rendered(outcomes[..i])
    {
      assert outcomes[..i + 1][..i] == outcomes[..i];
      if outcomes[i].Some? && outcomes[i].value != "" { rendered := rendered + [outcomes[i].value]; }
    }
    assert outcomes[..|outcomes|] == outcomes;
  }

  /** Drops the oldest parts one by one until the rest fits. */
  method DropOldest(marker: string, rendered: seq<string>, status: string, limit: int) returns (r: Option<string>)
    ensures r.None? <==> NoSuffixFits(marker, rendered, status, limit)
    ensures forall k :: LongestFitting(marker, rendered, status, limit, k) ==>
                          r == Some(Marked(marker, rendered[k..], status))
    ensures r.Some? ==> |r.value| <= limit
  {
    hide Marked;
    var parts := rendered;
    while parts != []
      invariant |parts| <= |rendered| && parts == rendered[|rendered| - |parts|..]
      invariant forall j :: 0 <= j < |rendered| - |parts| ==> !SuffixFits(marker, rendered, status, limit, j)
      decreases |parts|
    {
      var candidate := Marked(marker, parts, status);
      if |candidate| <= limit {
        assert SuffixFits(marker, rendered, status, limit, |rendered| - |parts|);
        return Some(candidate);
      }
      parts := parts[1..];
    }
    return None;
  }

  /** What is shown when not even the last part fits. */
  method Fallback(marker: string, last: Option<string>, status: string, limit: int) returns (r: string)
    requires last.Some? ==> |last.value| > Budget(marker, status, limit)
    ensures last.Some? && Budget(marker, status, limit) > 20 ==> r == CutTail(marker, last.value, status, limit)
    ensures last.Some? && Budget(marker, status, limit) <= 20 ==>
              r == if |Minimal(marker, status)| <= limit then Minimal(marker, status) else status
    ensures last.None? ==> r == status
  {
    if last.Some? {
      var lastPart := last.value;
      var budget := limit - |marker| - |StatusText(status)|;
      if budget > 20 {
        var tail := if |lastPart| > budget then FILL + lastPart[|lastPart| - (budget - 3)..] else lastPart;
        var candidate := marker + tail + StatusText(status);
        if |candidate| <= limit { return candidate; }
      }
      var minimal := Minimal(marker, status);
      if |minimal| <= limit { return minimal; }
    }
    return status;
  }

  lemma LastDoesNotFit(marker: string, parts: seq<string>, status: string, limit: int)
    requires NoSuffixFits(marker, parts, status, limit) && parts != [] && parts[|parts| - 1] != ""
    ensures |parts[|parts| - 1]| > Budget(marker, status, limit)
  {
    assert !SuffixFits(marker, parts, status, limit, |parts| - 1);
    LastAlone(marker, parts, status);
  }

  method Render(outcomes: seq<Option<string>>, marker: string, limit: int, status: string) returns (r: string)
    ensures |Whole(Rendered(outcomes), status)| <= limit ==> r == Whole(Rendered(outcomes), status)
    ensures |Whole(Rendered(outcomes), status)| > limit ==>
              forall k :: LongestFitting(marker, Rendered(outcomes), status, limit, k) ==>
                            r == Marked(marker, Rendered(outcomes)[k..], status)
    ensures |Whole(Rendered(outcomes), status)| > limit && Rendered(outcomes) != []
            && NoSuffixFits(marker, Rendered(outcomes), status, limit) ==>
              var last := Rendered(outcomes)[|Rendered(outcomes)| - 1];
              if Budget(marker, status, limit) > 20 then
                |last| > Budget(marker, status, limit) && r == CutTail(marker, last, status, limit)
              else
                r == if |Minimal(marker, status)| <= limit then Minimal(marker, status) else status
    ensures |Whole(Rendered(outcomes), status)| > limit && Rendered(outcomes) == [] ==> r == status
    ensures |r| <= limit <==>
              |status| <= limit || (Rendered(outcomes) != [] && |Minimal(marker, status)| <= limit)
  {
    var rendered := RenderSegments(outcomes);
    BoundedBy(marker, rendered, status, limit);
    hide Marked, Minimal, CutTail, Rendered, Join, StripNewlines;
    var candidate := Whole(rendered, status);
    if |candidate| <= limit { return candidate; }
    var kept := DropOldest(marker, rendered, status, limit);
    if kept.Some? { return kept.value; }
    if rendered != [] { LastDoesNotFit(marker, rendered, status, limit); }
    r := Fallback(marker, if rendered == [] then None else Some(rendered[|rendered| - 1]), status, limit);
  }

  /** Whatever carries the status is at least as long as the status. */
  lemma BoundedBy(marker: string, parts: seq<string>, status: string, limit: int)
    ensures |Whole(parts, status)| <= limit ==> |status| <= limit
    ensures (exists k :: SuffixFits(marker, parts, status, limit, k)) ==> |status| <= limit
    ensures Budget(marker, status, limit) > 20 ==> |status| <= limit
  {
  }

  /** When some suffix fits there is a longest one. */
  lemma {:induction false} LongestExists(marker: string, parts: seq<string>, status: string, limit: int, k: int)
    requires SuffixFits(marker, parts, status, limit, k)
    ensures exists m :: m <= k && LongestFitting(marker, parts, status, limit, m)
    decreases k
  {
    if LongestFitting(marker, parts, status, limit, k) {
    } else {
      var j :| 0 <= j < k && SuffixFits(marker, parts, status, limit, j);
      LongestExists(marker, parts, status, limit, j);
    }
  }

  // The drop order is right: a shorter suffix never needs more room.

  lemma {:induction false} JoinCons(first: string, rest: seq<string>)
    requires rest != []
    ensures Join("\n", [first] + rest) == first + "\n" + Join("\n", rest)
    decreases |rest|
  {
    var all := [first] + rest;
    if |rest| > 1 {
      JoinCons(first, rest[..|rest| - 1]);
      assert all[..|all| - 1] == [first] + rest[..|rest| - 1];
    } else {
      assert all[..1] == [first];
    }
  }

  /** When dropping k parts fits, so does dropping more: the parts kept are as many as possible. */
  lemma {:induction false} FewerPartsFit(marker: string, parts: seq<string>, status: string, limit: int, k: int, j: int)
    requires forall i :: 0 <= i < |parts| ==> parts[i] != ""
    requires SuffixFits(marker, parts, status, limit, k) && k <= j < |parts|
    ensures SuffixFits(marker, parts, status, limit, j)
    decreases j
  {
    if k < j {
      FewerPartsFit(marker, parts, status, limit, k, j - 1);
      JoinCons(parts[j - 1], parts[j..]);
      assert parts[j - 1..] == [parts[j - 1]] + parts[j..];
    }
  }
}
