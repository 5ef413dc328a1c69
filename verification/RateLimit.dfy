/**
  The strict sliding-window limiter (core/rate_limit.py). Time is real; one pass through the locked region
  is one step, so any number of callers may interleave.
 */
module RateLimit {
  import opened Prelude

  /** Forget the grants at or before the cutoff. */
  function DropExpired(times: seq<real>, cutoff: real): seq<real> {
    if times != [] && times[0] <= cutoff then DropExpired(times[1..], cutoff) else times
  }

  datatype Limits = Limits(rateLimit: int, rateWindow: real)

  predicate ValidLimits(l: Limits) {
    l.rateLimit > 0 && l.rateWindow > 0.0
  }

  /** One locked region: the remembered grants and, when there is no room, the time to wait. */
  function Attempt(times: seq<real>, now: real, l: Limits): (seq<real>, Option<real>)
    requires ValidLimits(l)
  {
    var kept := DropExpired(times, now - l.rateWindow);
    if |kept| < l.rateLimit then (kept + [now], None)
    else
      var wait := kept[0] + l.rateWindow - now;
      (kept, Some(if wait > 0.0 then wait else 0.0))
  }

  class StrictSlidingWindowLimiter {
    const limits: Limits
    var times: seq<real>

    constructor (rateLimit: int, rateWindow: real)
      requires rateLimit > 0 && rateWindow > 0.0
      ensures limits == Limits(rateLimit, rateWindow) && times == []
    {
      limits := Limits(rateLimit, rateWindow);
      times := [];
    }

    method TryAcquire(now: real) returns (wait: Option<real>)
      requires ValidLimits(limits)
      modifies this
      ensures (times, wait) == Attempt(old(times), now, limits)
    {
      var cutoff := now - limits.rateWindow;
      while times != [] && times[0] <= cutoff
        invariant DropExpired(times, cutoff) == DropExpired(old(times), cutoff)
        decreases |times|
      {
        times := times[1..];
      }
      if |times| < limits.rateLimit {
        times := times + [now];
        return None;
      }
      var waitTime := times[0] + limits.rateWindow - now;
      wait := Some(if waitTime > 0.0 then waitTime else 0.0);
    }

    /** The retry loop over the readings of the clock; false if they run out while still waiting. */
    method Acquire(clock: seq<real>) returns (granted: bool, used: nat)
      requires ValidLimits(limits)
      modifies this
      ensures used <= |clock| && times == AfterAttempts(old(times), clock[..used], limits)
      ensures granted ==> used > 0 && Attempt(AfterAttempts(old(times), clock[..used - 1], limits), clock[used - 1], limits).1 == None
      ensures forall n :: 0 <= n < (if granted then used - 1 else used) ==>
                Attempt(AfterAttempts(old(times), clock[..n], limits), clock[n], limits).1 != None
    {
      hide Attempt;
      used := 0;
      while used < |clock|
        invariant 0 <= used <= |clock|
        invariant times == AfterAttempts(old(times), clock[..used], limits)
        invariant forall n :: 0 <= n < used ==>
                    Attempt(AfterAttempts(old(times), clock[..n], limits), clock[n], limits).1 != None
      {
        assert clock[..used + 1][..used] == clock[..used];
        var wait := TryAcquire(clock[used]);
        used := used + 1;
        if wait == None { return true, used; }
      }
      granted := false;
    }
  }

  /** None stands for the ValueError of a limit or window that is not positive. */
  method NewLimiter(rateLimit: int, rateWindow: real) returns (r: Option<StrictSlidingWindowLimiter>)
    ensures r.Some? <==> ValidLimits(Limits(rateLimit, rateWindow))
    ensures r.Some? ==> fresh(r.value) && r.value.limits == Limits(rateLimit, rateWindow) && r.value.times == []
  {
    if rateLimit <= 0 || rateWindow <= 0.0 { return None; }
    var limiter := new StrictSlidingWindowLimiter(rateLimit, rateWindow);
    r := Some(limiter);
  }

  /** The remembered grants after attempts at the given times. */
  function AfterAttempts(times: seq<real>, nows: seq<real>, l: Limits): seq<real>
    requires ValidLimits(l)
  {
    if nows == [] then times else Attempt(AfterAttempts(times, nows[..|nows| - 1], l), nows[|nows| - 1], l).0
  }

  /** The times at which attempts were granted. */
  function Grants(nows: seq<real>, l: Limits): seq<real>
    requires ValidLimits(l)
  {
    if nows == [] then []
    else
      var front, now := nows[..|nows| - 1], nows[|nows| - 1];
      if Attempt(AfterAttempts([], front, l), now, l).1 == None then Grants(front, l) + [now] else Grants(front, l)
  }

  ghost predicate Sorted(s: seq<real>) {
    forall i, j :: 0 <= i < j < |s| ==> s[i] <= s[j]
  }

  lemma {:induction false} DropExpiredMeans(times: seq<real>, cutoff: real)
    ensures var kept := DropExpired(times, cutoff);
            && |kept| <= |times| && kept == times[|times| - |kept|..]
            && (forall i :: 0 <= i < |times| - |kept| ==> times[i] <= cutoff)
            && (kept != [] ==> kept[0] > cutoff)
  {
    if times != [] && times[0] <= cutoff {
      DropExpiredMeans(times[1..], cutoff);
    }
  }

  /** A grant and any grant at least `rateLimit` places later are at least a window apart. */
  ghost predicate Spaced(grants: seq<real>, l: Limits) {
    forall i, j :: 0 <= i < j < |grants| && i + l.rateLimit <= j ==> grants[j] >= grants[i] + l.rateWindow
  }

  /** All grants lie at or before `bound`. */
  ghost predicate UpTo(grants: seq<real>, bound: real) {
    forall i :: 0 <= i < |grants| ==> grants[i] <= bound
  }

  /** The remembered grants are the latest ones; those forgotten are more than a window old. */
  ghost predicate Remembers(times: seq<real>, grants: seq<real>, last: real, l: Limits) {
    && Sorted(grants) && UpTo(grants, last) && Spaced(grants, l)
    && |times| <= |grants| && |times| <= l.rateLimit
    && times == grants[|grants| - |times|..]
    && UpTo(grants[..|grants| - |times|], last - l.rateWindow)
  }

  /** Dropping expired grants forgets only grants more than a window old. */
  lemma DropKeeps(times: seq<real>, grants: seq<real>, last: real, now: real, l: Limits)
    requires ValidLimits(l) && Remembers(times, grants, last, l) && last <= now
    ensures Remembers(DropExpired(times, now - l.rateWindow), grants, now, l)
  {
    var cutoff := now - l.rateWindow;
    DropExpiredMeans(times, cutoff);
    var kept := DropExpired(times, cutoff);
    hide DropExpired, Spaced;
    var d, m := |grants| - |times|, |grants| - |kept|;
    assert kept == grants[m..];
    forall i | 0 <= i < m ensures grants[..m][i] <= cutoff {
      if i >= d {
        assert grants[i] == times[i - d];
      } else {
        assert grants[..d][i] == grants[i];
      }
    }
  }

  lemma GrantKeeps(kept: seq<real>, grants: seq<real>, now: real, l: Limits)
    requires ValidLimits(l) && Remembers(kept, grants, now, l) && |kept| < l.rateLimit
    ensures Remembers(kept + [now], grants + [now], now, l)
  {
    var n, m := |grants|, |grants| - |kept|;
    var grants' := grants + [now];
    assert grants'[m..] == kept + [now];
    assert grants'[..m] == grants[..m];
    forall i | 0 <= i && i + l.rateLimit <= n ensures now >= grants[i] + l.rateWindow {
      assert grants[..m][i] <= now - l.rateWindow;
    }
  }

  lemma AttemptKeeps(times: seq<real>, grants: seq<real>, last: real, now: real, l: Limits)
    requires ValidLimits(l) && Remembers(times, grants, last, l) && last <= now
    ensures var (times', wait) := Attempt(times, now, l);
            Remembers(times', if wait == None then grants + [now] else grants, now, l)
  {
    hide Remembers;
    DropKeeps(times, grants, last, now, l);
    var kept := DropExpired(times, now - l.rateWindow);
    if |kept| < l.rateLimit { GrantKeeps(kept, grants, now, l); }
  }

  lemma {:induction false} RunKeeps(nows: seq<real>, last: real, l: Limits)
    requires ValidLimits(l) && Sorted(nows) && UpTo(nows, last)
    ensures Remembers(AfterAttempts([], nows, l), Grants(nows, l), last, l)
  {
    if nows != [] {
      var front, now := nows[..|nows| - 1], nows[|nows| - 1];
      RunKeeps(front, now, l);
      hide Attempt, Remembers;
      AttemptKeeps(AfterAttempts([], front, l), Grants(front, l), now, now, l);
      Later(AfterAttempts([], nows, l), Grants(nows, l), now, last, l);
    }
  }

  lemma Later(times: seq<real>, grants: seq<real>, last: real, last': real, l: Limits)
    requires Remembers(times, grants, last, l) && last <= last'
    ensures Remembers(times, grants, last', l)
  {
    hide Spaced;
    var old_ := grants[..|grants| - |times|];
    assert forall i :: 0 <= i < |old_| ==> old_[i] <= last - l.rateWindow;
  }

  /** The grants that fall into the half-open interval of one window from `t` on. */
  function GrantsWithin(grants: seq<real>, t: real, l: Limits): set<int> {
    set i | 0 <= i < |grants| && t <= grants[i] < t + l.rateWindow
  }

  lemma {:induction false} RangeSize(lo: int, n: nat, s: set<int>)
    requires forall i :: i in s ==> lo <= i < lo + n
    ensures |s| <= n
  {
    if n == 0 {
      assert forall i :: i !in s;
      assert s == {};
    } else {
      var rest := s - {lo + n - 1};
      RangeSize(lo, n - 1, rest);
      if lo + n - 1 in s { assert s == rest + {lo + n - 1}; } else { assert s == rest; }
    }
  }

  lemma {:induction false} EarliestIn(grants: seq<real>, t: real, l: Limits, upTo: nat) returns (first: nat)
    requires upTo <= |grants|
    ensures first <= upTo
    ensures forall i :: 0 <= i < first ==> i !in GrantsWithin(grants, t, l)
    ensures first < upTo ==> first in GrantsWithin(grants, t, l)
  {
    if upTo == 0 { return 0; }
    first := EarliestIn(grants, t, l, upTo - 1);
    if first == upTo - 1 && first !in GrantsWithin(grants, t, l) { first := upTo; }
  }

  /**
    With a clock that never runs backwards, any half-open interval of one window holds at most `rateLimit`
    grants, whoever made the attempts and however they interleaved.
   */
  lemma AtMostLimitPerWindow(nows: seq<real>, l: Limits, t: real)
    requires ValidLimits(l) && Sorted(nows)
    ensures |GrantsWithin(Grants(nows, l), t, l)| <= l.rateLimit
    ensures Spaced(Grants(nows, l), l)
  {
    var grants := Grants(nows, l);
    var inside := GrantsWithin(grants, t, l);
    RunKeeps(nows, if nows == [] then 0.0 else nows[|nows| - 1], l);
    hide Grants;
    var first := EarliestIn(grants, t, l, |grants|);
    forall i | i in inside ensures first <= i < first + l.rateLimit {
    }
    RangeSize(first, l.rateLimit, inside);
  }

  /** A caller is made to wait only when `rateLimit` grants really lie within the last window. */
  lemma WaitsOnlyWhenFull(nows: seq<real>, now: real, l: Limits)
    requires ValidLimits(l) && Sorted(nows) && UpTo(nows, now)
    requires Attempt(AfterAttempts([], nows, l), now, l).1 != None
    ensures var grants := Grants(nows, l);
            && |grants| >= l.rateLimit
            && forall i :: |grants| - l.rateLimit <= i < |grants| ==> now - l.rateWindow < grants[i] <= now
  {
    hide Remembers, Spaced, Sorted, UpTo, Grants, AfterAttempts, DropExpired;
    var times, grants := AfterAttempts([], nows, l), Grants(nows, l);
    RunKeeps(nows, now, l);
    DropKeeps(times, grants, now, now, l);
    DropExpiredMeans(times, now - l.rateWindow);
    var kept := DropExpired(times, now - l.rateWindow);
    FullMeans(kept, grants, now, l);
  }

  lemma FullMeans(kept: seq<real>, grants: seq<real>, now: real, l: Limits)
    requires ValidLimits(l) && Remembers(kept, grants, now, l)
    requires |kept| >= l.rateLimit && kept[0] > now - l.rateWindow
    ensures |grants| >= l.rateLimit
    ensures forall i :: |grants| - l.rateLimit <= i < |grants| ==> now - l.rateWindow < grants[i] <= now
  {
    hide Spaced;
    var m := |grants| - l.rateLimit;
    assert kept[0] == grants[m];
    forall i | m <= i < |grants| ensures now - l.rateWindow < grants[i] <= now {
      if i > m { assert grants[m] <= grants[i]; }
    }
  }

  /** A caller that returns after the time it was told, without another grant in between, is let through. */
  lemma WaitIsEnough(times: seq<real>, now: real, later: real, l: Limits)
    requires ValidLimits(l) && |times| <= l.rateLimit
    requires Attempt(times, now, l).1 != None && later >= now + Attempt(times, now, l).1.value
    ensures Attempt(times, now, l).1.value > 0.0
    ensures Attempt(Attempt(times, now, l).0, later, l).1 == None
  {
    DropExpiredMeans(times, now - l.rateWindow);
    var kept := DropExpired(times, now - l.rateWindow);
    DropExpiredMeans(kept, later - l.rateWindow);
  }
}
