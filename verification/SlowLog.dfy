/** The rate limiter of the slow-message warning: at most one per window, the rest counted. */
module SlowLog {
  import opened Options

  const WINDOW: real := 1.0
  const MAX_PER_WINDOW: int := 1

  datatype Limiter = Limiter(windowStart: real, emitted: int, suppressed: nat)

  const FRESH: Limiter := Limiter(0.0, 0, 0)

  // A slow call at the given clock reading: what it reports if a warning is emitted.
  function Slow(l: Limiter, now: real): (Limiter, Option<nat>) {
    var reset := l.windowStart == 0.0 || now - l.windowStart >= WINDOW;
    var l1 := if reset then Limiter(now, 0, 0) else l;
    if l1.emitted >= MAX_PER_WINDOW then (l1.(suppressed := l1.suppressed + 1), None)
    else (l1.(emitted := l1.emitted + 1), Some(if reset then l.suppressed else 0))
  }

  /** The module's three globals. */
  class SlowMessageLog {
    var windowStart: real
    var emitted: int
    var suppressed: nat

    constructor ()
      ensures Contents() == FRESH
    {
      windowStart, emitted, suppressed := 0.0, 0, 0;
    }

    function Contents(): Limiter
      reads this
    {
      Limiter(windowStart, emitted, suppressed)
    }

    method MaybeLog(thresholdMs: real, totalMs: real, now: real) returns (report: Option<nat>)
      modifies this
      ensures if thresholdMs <= 0.0 || totalMs < thresholdMs
        then report == None && Contents() == old(Contents())
        else (Contents(), report) == Slow(old(Contents()), now)
    {
      if thresholdMs <= 0.0 {
        return None;
      }
      if totalMs < thresholdMs {
        return None;
      }
      var suppressedSinceLastEmit := 0;
      if windowStart == 0.0 || now - windowStart >= WINDOW {
        suppressedSinceLastEmit := suppressed;
        windowStart, emitted, suppressed := now, 0, 0;
      }
      if emitted >= MAX_PER_WINDOW {
        suppressed := suppressed + 1;
        return None;
      }
      emitted := emitted + 1;
      return Some(suppressedSinceLastEmit);
    }
  }

  // ----- streams of slow calls -----

  function After(l: Limiter, nows: seq<real>): Limiter
    decreases nows
  {
    if nows == [] then l else After(Slow(l, nows[0]).0, nows[1..])
  }

  // The clock readings at which a warning is emitted.
  function Emissions(l: Limiter, nows: seq<real>): seq<real>
    decreases nows
  {
    if nows == [] then []
    else (if Slow(l, nows[0]).1.Some? then [nows[0]] else []) + Emissions(Slow(l, nows[0]).0, nows[1..])
  }

  function Reported(l: Limiter, nows: seq<real>): nat
    decreases nows
  {
    if nows == [] then 0
    else (match Slow(l, nows[0]).1 case Some(n) => n case None => 0) + Reported(Slow(l, nows[0]).0, nows[1..])
  }

  ghost predicate Consistent(l: Limiter) {
    0 <= l.emitted <= MAX_PER_WINDOW && (l.emitted == 0 ==> l.windowStart == 0.0 && l.suppressed == 0)
  }

  lemma {:induction false} CallsConserved(l: Limiter, nows: seq<real>)
    requires Consistent(l)
    ensures Consistent(After(l, nows))
    ensures |nows| + l.suppressed == |Emissions(l, nows)| + Reported(l, nows) + After(l, nows).suppressed
    decreases nows
  {
    if nows != [] {
      CallsConserved(Slow(l, nows[0]).0, nows[1..]);
    }
  }

  /** No slow call is lost: each is emitted, reported as suppressed, or still held. */
  lemma EveryCallAccounted(nows: seq<real>)
    ensures |nows| == |Emissions(FRESH, nows)| + Reported(FRESH, nows) + After(FRESH, nows).suppressed
  {
    CallsConserved(FRESH, nows);
  }

  ghost predicate Nondecreasing(nows: seq<real>) {
    forall i, j | 0 <= i < j < |nows| :: nows[i] <= nows[j]
  }

  ghost predicate Spaced(times: seq<real>) {
    forall i, j | 0 <= i < j < |times| :: times[j] - times[i] >= WINDOW
  }

  // A call finds a window that started at reading 0, takes it for an unset one and opens the
  // next window before this one is over.
  predicate OpensEarly(l: Limiter, nows: seq<real>)
    decreases nows
  {
    nows != [] &&
    ((l.windowStart == 0.0 && nows[0] < WINDOW) || OpensEarly(Slow(l, nows[0]).0, nows[1..]))
  }

  lemma {:induction false} SpacedFromWarning(l: Limiter, nows: seq<real>)
    requires l.emitted == 1
    ensures Spaced([l.windowStart] + Emissions(l, nows)) <==> !OpensEarly(l, nows)
    decreases nows
  {
    if nows != [] {
      var (l1, report) := Slow(l, nows[0]);
      var later := Emissions(l1, nows[1..]);
      SpacedFromWarning(l1, nows[1..]);
      if report.Some? {
        assert Emissions(l, nows) == [nows[0]] + later && l1.windowStart == nows[0];
        SpacedCons(l.windowStart, nows[0], later);
      } else {
        assert Emissions(l, nows) == later && l1.windowStart == l.windowStart;
      }
    }
  }

  lemma SpacedCons(t: real, u: real, times: seq<real>)
    ensures Spaced([t] + ([u] + times)) <==> u - t >= WINDOW && Spaced([u] + times)
  {
    var all, rest := [t] + ([u] + times), [u] + times;
    assert all[0] == t && forall i | 0 <= i < |rest| :: all[i + 1] == rest[i];
    if Spaced(all) {
      assert all[1] - all[0] >= WINDOW;
      forall i, j | 0 <= i < j < |rest| ensures rest[j] - rest[i] >= WINDOW {
        assert all[j + 1] - all[i + 1] >= WINDOW;
      }
    }
    if u - t >= WINDOW && Spaced(rest) {
      forall i, j | 0 <= i < j < |all| ensures all[j] - all[i] >= WINDOW {
        assert all[j] == rest[j - 1] && (j > 1 ==> rest[j - 1] - rest[0] >= WINDOW);
        assert i > 0 ==> all[i] == rest[i - 1] && rest[j - 1] - rest[i - 1] >= WINDOW;
      }
    }
  }

  /**
   For every stream of readings: any two warnings are at least one window apart exactly
   when no call after the first opens a window early, because the last one started at reading
   0, the value that marks an unset window.
   */
  lemma SpacedIff(nows: seq<real>)
    ensures Spaced(Emissions(FRESH, nows)) <==> nows == [] || !OpensEarly(Limiter(nows[0], 1, 0), nows[1..])
  {
    if nows != [] {
      SpacedFromWarning(Limiter(nows[0], 1, 0), nows[1..]);
    }
  }

  lemma {:induction false} PositiveNeverOpensEarly(l: Limiter, nows: seq<real>)
    requires Nondecreasing(nows) && (nows != [] ==> 0.0 < nows[0])
    requires nows != [] && l.windowStart == 0.0 ==> nows[0] >= WINDOW
    ensures !OpensEarly(l, nows)
    decreases nows
  {
    if nows != [] {
      PositiveNeverOpensEarly(Slow(l, nows[0]).0, nows[1..]);
    }
  }

  /**
   On a clock that does not run below zero: they are, unless it starts at reading 0 with
   another slow call inside the first window.
   */
  lemma SpacedFromZeroOn(nows: seq<real>)
    requires Nondecreasing(nows) && (nows != [] ==> 0.0 <= nows[0])
    ensures Spaced(Emissions(FRESH, nows)) <==> !(|nows| >= 2 && nows[0] == 0.0 && nows[1] < WINDOW)
  {
    SpacedIff(nows);
    if |nows| >= 2 && !(nows[0] == 0.0 && nows[1] < WINDOW) {
      PositiveNeverOpensEarly(Limiter(nows[0], 1, 0), nows[1..]);
    }
  }

  // ----- every single call -----

  // What the i-th call of a stream reports; None if it is suppressed.
  function ReportOf(nows: seq<real>, i: nat): Option<nat>
    requires i < |nows|
  {
    Slow(After(FRESH, nows[..i]), nows[i]).1
  }

  lemma {:induction false} AfterSnoc(l: Limiter, nows: seq<real>, now: real)
    ensures After(l, nows + [now]) == Slow(After(l, nows), now).0
    decreases nows
  {
    if nows == [] {
      assert nows + [now] == [now] && [now][1..] == [];
    } else {
      assert (nows + [now])[1..] == nows[1..] + [now];
      AfterSnoc(Slow(l, nows[0]).0, nows[1..], now);
    }
  }

  // Call j emits a warning, and none of the calls after it up to call i does.
  ghost predicate LastWarning(nows: seq<real>, j: nat, i: nat)
    requires i <= |nows|
  {
    j < i && ReportOf(nows, j).Some? && forall k | j < k < i :: ReportOf(nows, k).None?
  }

  lemma {:induction false} Suppressing(nows: seq<real>, j: nat, i: nat)
    requires i <= |nows| && LastWarning(nows, j, i)
    ensures After(FRESH, nows[..i]) == Limiter(nows[j], 1, i - j - 1)
    decreases i
  {
    assert nows[..i] == nows[..i - 1] + [nows[i - 1]];
    AfterSnoc(FRESH, nows[..i - 1], nows[i - 1]);
    if j < i - 1 {
      assert LastWarning(nows, j, i - 1);
      Suppressing(nows, j, i - 1);
      assert ReportOf(nows, i - 1).None?;
    } else {
      AlwaysOneWarning(nows, j);
    }
  }

  // At every call the limiter is unset, or its window has had its one warning.
  lemma {:induction false} AlwaysOneWarning(nows: seq<real>, i: nat)
    requires i <= |nows|
    ensures var l := After(FRESH, nows[..i]); if i == 0 then l == FRESH else l.emitted == 1
  {
    if i > 0 {
      assert nows[..i] == nows[..i - 1] + [nows[i - 1]];
      AlwaysOneWarning(nows, i - 1);
      AfterSnoc(FRESH, nows[..i - 1], nows[i - 1]);
    }
  }

  /** The first slow call is always reported. */
  lemma FirstIsReported(nows: seq<real>)
    requires nows != []
    ensures ReportOf(nows, 0) == Some(0)
  {}

  /**
   Every later one is suppressed if it comes less than a window after the last warning, and is
   reported otherwise, together with exactly the calls suppressed since. A warning at reading
   0 suppresses nothing.
   */
  lemma ReportedIff(nows: seq<real>, j: nat, i: nat)
    requires i < |nows| && LastWarning(nows, j, i)
    ensures ReportOf(nows, i) ==
      if nows[j] != 0.0 && nows[i] - nows[j] < WINDOW then None else Some(i - j - 1)
  {
    Suppressing(nows, j, i);
  }

  /** There is always such a last warning. */
  lemma {:induction false} SomeLastWarning(nows: seq<real>, i: nat) returns (j: nat)
    requires 0 < i <= |nows|
    ensures LastWarning(nows, j, i)
  {
    if ReportOf(nows, i - 1).Some? {
      j := i - 1;
    } else {
      assert i > 1;
      j := SomeLastWarning(nows, i - 1);
    }
  }
}
