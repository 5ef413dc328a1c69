/** The string operations of the host language that the components rely on. */
module Strings {

  /** The characters removed by a bare strip(): the Unicode white space of the host language. */
  predicate IsSpace(c: char) {
    || '\t' <= c <= '\r'
    || '\U{1c}' <= c <= ' '
    || c == '\U{85}' || c == '\U{a0}' || c == '\U{1680}'
    || '\U{2000}' <= c <= '\U{200a}'
    || c == '\U{2028}' || c == '\U{2029}' || c == '\U{202f}' || c == '\U{205f}' || c == '\U{3000}'
  }

  function StripLeft(s: string): string {
    if s != "" && IsSpace(s[0]) then StripLeft(s[1..]) else s
  }

  function StripRight(s: string): string {
    if s != "" && IsSpace(s[|s| - 1]) then StripRight(s[..|s| - 1]) else s
  }

  function Strip(s: string): string {
    StripRight(StripLeft(s))
  }

  /** Nothing is left after stripping. */
  predicate IsBlank(s: string) {
    forall i :: 0 <= i < |s| ==> IsSpace(s[i])
  }

  /** `t` occurs in `s` at position `i`. */
  predicate OccursAt(s: string, t: string, i: int) {
    0 <= i && i + |t| <= |s| && s[i..i + |t|] == t
  }

  /** The leftmost occurrence at or after `from`, or -1. */
  function FindFrom(s: string, t: string, from: nat): (r: int)
    requires from <= |s|
    ensures r == -1 || from <= r
    ensures r == -1 ==> forall i :: from <= i ==> !OccursAt(s, t, i)
    ensures r != -1 ==> OccursAt(s, t, r) && forall i :: from <= i < r ==> !OccursAt(s, t, i)
    decreases |s| - from
  {
    if OccursAt(s, t, from) then from
    else if from == |s| then -1
    else FindFrom(s, t, from + 1)
  }

  function Find(s: string, t: string): (r: int)
    ensures r == -1 || 0 <= r
    ensures r == -1 ==> forall i :: !OccursAt(s, t, i)
    ensures r != -1 ==> OccursAt(s, t, r) && forall i :: i < r ==> !OccursAt(s, t, i)
  {
    FindFrom(s, t, 0)
  }

  /** The rightmost position of a character, or -1. */
  function FindLast(s: string, c: char): (r: int)
    ensures -1 <= r < |s|
    ensures r >= 0 ==> s[r] == c
    ensures forall i :: r < i < |s| ==> s[i] != c
  {
    if s == "" then -1
    else if s[|s| - 1] == c then |s| - 1
    else FindLast(s[..|s| - 1], c)
  }

  predicate Contains(s: string, t: string) {
    Find(s, t) != -1
  }

  predicate StartsWith(s: string, t: string) {
    |t| <= |s| && s[..|t|] == t
  }

  /** The parts with a separator between each two. */
  function Join(sep: string, parts: seq<string>): string {
    if parts == [] then ""
    else if |parts| == 1 then parts[0]
    else Join(sep, parts[..|parts| - 1]) + sep + parts[|parts| - 1]
  }

  const DIGITS: string := "0123456789"

  /** Decimal notation, as formatting an integer into a string writes it. */
  function Decimal(n: int): string
    decreases n < 0, if n < 0 then -n else n
  {
    if n < 0 then "-" + Decimal(-n)
    else if n < 10 then [DIGITS[n]]
    else Decimal(n / 10) + [DIGITS[n % 10]]
  }

  lemma {:induction false} StripLeftIsSuffix(s: string)
    ensures |StripLeft(s)| <= |s|
    ensures StripLeft(s) == s[|s| - |StripLeft(s)|..]
    ensures StripLeft(s) != "" ==> !IsSpace(StripLeft(s)[0])
    ensures IsBlank(s[..|s| - |StripLeft(s)|])
  {
    if s != "" && IsSpace(s[0]) {
      var rest := s[1..];
      StripLeftIsSuffix(rest);
      hide IsSpace, StripLeft;
      var k := |rest| - |StripLeft(rest)|;
      assert s[..k + 1] == [s[0]] + rest[..k];
    }
  }

  lemma {:induction false} StripRightIsPrefix(s: string)
    ensures |StripRight(s)| <= |s|
    ensures StripRight(s) == s[..|StripRight(s)|]
    ensures StripRight(s) != "" ==> !IsSpace(StripRight(s)[|StripRight(s)| - 1])
    ensures IsBlank(s[|StripRight(s)|..])
  {
    if s != "" && IsSpace(s[|s| - 1]) {
      var rest := s[..|s| - 1];
      StripRightIsPrefix(rest);
      hide IsSpace, StripRight;
      var k := |StripRight(rest)|;
      assert s[k..] == rest[k..] + [s[|s| - 1]];
    }
  }

  /** Stripping leaves nothing exactly of the blank strings. */
  lemma StripBlank(s: string)
    ensures Strip(s) == "" <==> IsBlank(s)
  {
    hide IsSpace;
    StripLeftIsSuffix(s);
    var t := StripLeft(s);
    StripRightIsPrefix(t);
    if t == "" {
      assert s[..|s|] == s;
    } else {
      assert t[0] == s[|s| - |t|];
      assert t[0..] == t;
    }
  }

  /** A string that neither starts nor ends with white space is left alone. */
  lemma StripTrimmed(s: string)
    requires s == "" || (!IsSpace(s[0]) && !IsSpace(s[|s| - 1]))
    ensures Strip(s) == s
  {
  }

  lemma {:induction false} StripLeftExtended(s: string, more: string)
    requires !IsBlank(s)
    ensures StripLeft(s + more) == StripLeft(s) + more
  {
    hide IsSpace;
    if s != "" && IsSpace(s[0]) {
      assert s == [s[0]] + s[1..] && (s + more)[1..] == s[1..] + more;
      StripLeftExtended(s[1..], more);
    }
  }

  lemma {:induction false} StripRightExtended(s: string, more: string)
    requires IsBlank(more)
    ensures StripRight(s + more) == StripRight(s)
    decreases |more|
  {
    hide IsSpace;
    if more == "" {
      assert s + more == s;
    } else {
      var front := more[..|more| - 1];
      assert (s + more)[..|s + more| - 1] == s + front;
      StripRightExtended(s, front);
    }
  }

  /** More text shows after stripping unless it is blank. */
  lemma StripExtended(s: string, more: string)
    requires !IsBlank(s)
    ensures Strip(s + more) == Strip(s) <==> IsBlank(more)
  {
    var t := StripLeft(s);
    StripLeftExtended(s, more);
    StripRightIsPrefix(t);
    StripRightIsPrefix(t + more);
    hide IsSpace, StripLeft, StripRight;
    if IsBlank(more) {
      StripRightExtended(t, more);
    } else if StripRight(t + more) == StripRight(t) {
      var k := |StripRight(t)|;
      forall i | 0 <= i < |more|
        ensures IsSpace(more[i])
      {
        assert (t + more)[k..][|t| - k + i] == more[i];
      }
      assert false;
    }
  }
}
