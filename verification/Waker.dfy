/** Waking the CI runner: debounce and the cap on starts in a rolling hour (internal/ciwake/ciwake.go). */
module Waker {
  import opened Option

  // Nanoseconds.
  const HOUR := 3600000000000

  // What DescribeInstances says of the instance.
  datatype Instance = DescribeFails | NotFound | Running | Pending | Stopping | Stopped | OtherState

  datatype Outcome = Debounced | Error | Unusable | Already | IsStopping | RateLimited | Started

  // The times after `cut`, in order.
  function After(times: seq<int>, cut: int): (r: seq<int>)
    ensures |r| <= |times|
  {
    if times == [] then []
    else
      var before, t := After(times[..|times| - 1], cut), times[|times| - 1];
      if t > cut then before + [t] else before
  }

  predicate Ordered(times: seq<int>) {
    forall i, j :: 0 <= i < j < |times| ==> times[i] <= times[j]
  }

  // No more than max starts in any hour: the start `max` places later is at least an hour later.
  predicate Spaced(times: seq<int>, max: nat) {
    forall i :: 0 <= i && i + max < |times| ==> times[i] + HOUR <= times[i + max]
  }

  predicate Apart(times: seq<int>, gap: int) {
    forall i :: 0 < i < |times| ==> times[i - 1] + gap <= times[i]
  }

  lemma {:induction false} AfterConcat(a: seq<int>, b: seq<int>, cut: int)
    ensures After(a + b, cut) == After(a, cut) + After(b, cut)
  {
    if b == [] {
      assert a + b == a;
    } else {
      assert (a + b)[..|a + b| - 1] == a + b[..|b| - 1];
      AfterConcat(a, b[..|b| - 1], cut);
    }
  }

  lemma {:induction false} AllBefore(a: seq<int>, cut: int)
    requires forall i :: 0 <= i < |a| ==> a[i] <= cut
    ensures After(a, cut) == []
  {
    if a != [] {
      AllBefore(a[..|a| - 1], cut);
    }
  }

  // In an ordered list the times after the cut are the last ones.
  lemma {:induction false} AfterIsSuffix(times: seq<int>, cut: int)
    requires Ordered(times)
    ensures var m := |times| - |After(times, cut)|;
            && 0 <= m <= |times| && After(times, cut) == times[m..]
            && (forall i :: 0 <= i < m ==> times[i] <= cut) && forall i :: m <= i < |times| ==> cut < times[i]
  {
    if times != [] {
      var init, t := times[..|times| - 1], times[|times| - 1];
      AfterIsSuffix(init, cut);
      assert times == init + [t];
      if t <= cut {
        AllBefore(times, cut);
      }
    }
  }

  // As many times are kept as lie after the cut.
  lemma {:induction false} AfterCounts(times: seq<int>, cut: int)
    ensures |After(times, cut)| == |set i: nat | i < |times| && times[i] > cut|
  {
    var late := set i: nat | i < |times| && times[i] > cut;
    if times == [] {
      assert late == {};
    } else {
      var init, last := times[..|times| - 1], |times| - 1;
      AfterCounts(init, cut);
      assert late == (set i: nat | i < |init| && init[i] > cut) + if times[last] > cut then {last} else {};
    }
  }

  lemma {:induction false} Dropped(hist: seq<int>, m: nat, cut: int)
    requires m <= |hist| && forall i :: 0 <= i < m ==> hist[i] <= cut
    ensures After(hist[m..], cut) == After(hist, cut)
  {
    AfterConcat(hist[..m], hist[m..], cut);
    AllBefore(hist[..m], cut);
    assert hist[..m] + hist[m..] == hist;
  }

  // A start is allowed when fewer than max starts lie in the last hour: the one max places back is older.
  lemma {:induction false} StaysSpaced(hist: seq<int>, now: int, max: nat)
    requires max > 0 && Ordered(hist) && Spaced(hist, max) && |After(hist, now - HOUR)| < max
    ensures Spaced(hist + [now], max)
  {
    AfterIsSuffix(hist, now - HOUR);
    hide After;
  }

  lemma {:induction false} StaysApart(hist: seq<int>, now: int, gap: int)
    requires Ordered(hist) && Apart(hist, gap) && gap > 0 && (hist != [] ==> hist[|hist| - 1] + gap <= now)
    ensures Ordered(hist + [now]) && Apart(hist + [now], gap)
  {
  }

  lemma {:induction false} OneMoreAfter(hist: seq<int>, now: int)
    ensures After(hist + [now], now - HOUR) == After(hist, now - HOUR) + [now]
  {
    assert (hist + [now])[..|hist|] == hist;
  }

  // The starts ever made, up to the clock: in order, at least `gap` apart, at most `max` in an hour.
  ghost predicate Sound(hist: seq<int>, clock: Option<int>, lastCheck: Option<int>, max: nat, gap: int) {
    && Ordered(hist) && Spaced(hist, max) && Apart(hist, gap)
    && (hist != [] ==> lastCheck.Some? && hist[|hist| - 1] <= lastCheck.value)
    && (lastCheck.Some? ==> clock.Some? && lastCheck.value <= clock.value)
  }

  // What the slice holds: the latest starts, with none of the last hour missing.
  ghost predicate Kept(kept: seq<int>, hist: seq<int>, clock: Option<int>) {
    && |kept| <= |hist| && kept == hist[|hist| - |kept|..]
    && forall i :: 0 <= i < |hist| - |kept| ==> clock.Some? && hist[i] + HOUR <= clock.value
  }

  lemma {:induction false} TimeGoesOn(hist: seq<int>, kept: seq<int>, clock: Option<int>, lastCheck: Option<int>, max: nat,
          gap: int, now: int)
    requires Sound(hist, clock, lastCheck, max, gap) && Kept(kept, hist, clock) && (clock.Some? ==> clock.value <= now)
    ensures Sound(hist, Some(now), lastCheck, max, gap) && Sound(hist, Some(now), Some(now), max, gap)
    ensures Kept(kept, hist, Some(now))
  {
    hide Ordered, Spaced, Apart;
  }

  lemma {:induction false} LastHourIsKept(hist: seq<int>, kept: seq<int>, now: int)
    requires Ordered(hist) && Kept(kept, hist, Some(now))
    ensures After(kept, now - HOUR) == After(hist, now - HOUR) && Kept(After(hist, now - HOUR), hist, Some(now))
  {
    hide Ordered, After;
    Dropped(hist, |hist| - |kept|, now - HOUR);
    AfterIsSuffix(hist, now - HOUR);
  }

  lemma {:induction false} StartIsSound(hist: seq<int>, lastCheck: Option<int>, max: nat, gap: int, now: int)
    requires Sound(hist, Some(now), lastCheck, max, gap) && max > 0 && gap > 0 && |After(hist, now - HOUR)| < max
    requires lastCheck.Some? ==> now - lastCheck.value >= gap
    requires Kept(After(hist, now - HOUR), hist, Some(now))
    ensures Sound(hist + [now], Some(now), Some(now), max, gap)
    ensures Kept(After(hist, now - HOUR) + [now], hist + [now], Some(now))
    ensures After(hist + [now], now - HOUR) == After(hist, now - HOUR) + [now]
  {
    hide Ordered, Spaced, Apart, After;
    StaysSpaced(hist, now, max);
    StaysApart(hist, now, gap);
    OneMoreAfter(hist, now);
  }

  class Runner {
    const maxPerHour: nat
    const debounce: int
    // The slice of recent starts: the first n places of its array.
    const starts: array<int>
    var n: nat
    var lastCheck: Option<int>
    // Every successful start ever, and the latest time the clock has shown.
    ghost var hist: seq<int>
    ghost var clock: Option<int>

    ghost predicate Valid()
      reads this, starts
    {
      && maxPerHour > 0 && debounce > 0 && starts.Length == maxPerHour && n <= maxPerHour
      && Sound(hist, clock, lastCheck, maxPerHour, debounce) && Kept(starts[..n], hist, clock)
    }

    constructor (max: int, gap: int)
      ensures Valid() && hist == [] && clock == None && fresh(starts)
      ensures maxPerHour == (if max <= 0 then 6 else max) && debounce == if gap <= 0 then 60000000000 else gap
    {
      maxPerHour := if max <= 0 then 6 else max;
      debounce := if gap <= 0 then 60000000000 else gap;
      starts := new int[if max <= 0 then 6 else max];
      n, lastCheck := 0, None;
      hist, clock := [], None;
    }

    // Keeps the starts after the cut, in place and in order.
    method DropOld(cut: int)
      requires n <= starts.Length
      modifies starts, this`n
      ensures n <= old(n) && starts[..n] == After(old(starts[..n]), cut)
    {
      var kept := 0;
      var i := 0;
      while i < n
        invariant 0 <= kept <= i <= n == old(n)
        invariant starts[..kept] == After(old(starts[..n])[..i], cut)
        invariant forall k :: i <= k < n ==> starts[k] == old(starts[k])
      {
        ghost var was := old(starts[..n]);
        assert was[..i + 1][..i] == was[..i] && was[..i + 1][i] == starts[i];
        if starts[i] > cut {
          starts[kept] := starts[i];
          kept := kept + 1;
        }
        i := i + 1;
      }
      assert old(starts[..n])[..n] == old(starts[..n]);
      n := kept;
    }

    /**
     One event. The instance is started exactly when it is stopped, the last check is at least the
     debounce ago and fewer than maxPerHour starts lie in the last hour. Whatever happens, all starts
     ever made stay sound, and after a start or a refusal the slice is the last hour of them.
     */
    method Wake(now: int, instance: Instance, startFails: bool) returns (r: Outcome)
      requires Valid() && (clock.Some? ==> clock.value <= now)
      modifies this, starts
      ensures Valid() && clock == Some(now)
      ensures hist == if r == Started then old(hist) + [now] else old(hist)
      ensures r == Debounced <==> old(lastCheck).Some? && now - old(lastCheck).value < debounce
      ensures r != Debounced ==>
                && (r == Unusable <==> instance == NotFound || instance == OtherState)
                && (r == Already <==> instance == Running || instance == Pending)
                && (r == IsStopping <==> instance == Stopping)
                && var recent := set i: nat | i < |old(hist)| && old(hist)[i] > now - 3_600_000_000_000;
                   && (r == RateLimited <==> instance == Stopped && |recent| >= maxPerHour)
                   && (r == Started <==> instance == Stopped && |recent| < maxPerHour && !startFails)
      ensures lastCheck == if r == Already || r == RateLimited || r == Started then Some(now) else old(lastCheck)
      ensures r == Started || r == RateLimited ==> starts[..n] == After(hist, now - HOUR)
    {
      hide After, Sound, Kept;
      TimeGoesOn(hist, starts[..n], clock, lastCheck, maxPerHour, debounce, now);
      clock := Some(now);
      if lastCheck.Some? && now - lastCheck.value < debounce {
        return Debounced;
      }
      match instance
      case DescribeFails => return Error;
      case NotFound => return Unusable;
      case OtherState => return Unusable;
      case Stopping => return IsStopping;
      case Running =>
        lastCheck := Some(now);
        return Already;
      case Pending =>
        lastCheck := Some(now);
        return Already;
      case Stopped =>
        SoundIsOrdered(hist, clock, lastCheck, maxPerHour, debounce);
        LastHourIsKept(hist, starts[..n], now);
        AfterCounts(hist, now - HOUR);
        DropOld(now - HOUR);
        if n >= maxPerHour {
          lastCheck := Some(now);
          return RateLimited;
        }
        if startFails {
          return Error;
        }
        StartIsSound(hist, lastCheck, maxPerHour, debounce, now);
        lastCheck := Some(now);
        Append(now);
        hist := hist + [now];
        return Started;
    }

    method Append(now: int)
      requires n < starts.Length
      modifies starts, this`n
      ensures n == old(n) + 1 && starts[..n] == old(starts[..n]) + [now]
    {
      starts[n] := now;
      n := n + 1;
    }
  }

  lemma {:induction false} SoundIsOrdered(hist: seq<int>, clock: Option<int>, lastCheck: Option<int>, max: nat, gap: int)
    requires Sound(hist, clock, lastCheck, max, gap)
    ensures Ordered(hist) && Spaced(hist, max) && Apart(hist, gap)
  {
  }

  // The starts in the hour that ends at x + HOUR, the start of the hour excluded.
  function InHour(hist: seq<int>, x: int): set<nat> {
    set i: nat | i < |hist| && x < hist[i] <= x + 3_600_000_000_000
  }

  lemma {:induction false} RangeSize(a: nat, n: nat, s: set<nat>)
    requires forall i :: i in s ==> a <= i < a + n
    ensures |s| <= n
  {
    if s != {} {
      var i :| i in s;
      RangeSize(a, n - 1, s - {a + n - 1});
    }
  }

  lemma {:induction false} FirstOf(s: set<nat>) returns (a: nat)
    requires s != {}
    ensures a in s && forall i :: i in s ==> a <= i
  {
    a :| a in s;
    var rest := s - {a};
    if rest != {} {
      var first := a;
      var b := FirstOf(rest);
      a := if b < a then b else a;
      forall k | k in s ensures a <= k {
        assert k == first || k in rest;
      }
    } else {
      assert forall k :: k in s ==> k == a || k in rest;
    }
  }

  lemma {:induction false} FarApart(hist: seq<int>, max: nat, a: nat, i: nat)
    requires max > 0 && Ordered(hist) && Spaced(hist, max) && a < |hist| && i < |hist|
    ensures i >= a + max ==> hist[a] + HOUR <= hist[i]
  {
    if i >= a + max {
      assert hist[a] + HOUR <= hist[a + max];
    }
  }

  /** No hour, wherever it begins, holds more starts than the limit. */
  lemma {:induction false} StartsInAnHour(hist: seq<int>, max: nat, x: int)
    requires max > 0 && Ordered(hist) && Spaced(hist, max)
    ensures |InHour(hist, x)| <= max
  {
    var s := InHour(hist, x);
    if s != {} {
      var a := FirstOf(s);
      hide Ordered, Spaced;
      forall i | i in s ensures a <= i < a + max {
        FarApart(hist, max, a, i);
      }
      RangeSize(a, max, s);
    }
  }
}
