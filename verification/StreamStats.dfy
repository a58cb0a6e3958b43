/**
 The periodic statistics of a client stream: frame counters that are 64-bit and wrap, a rate that
 is computed in 64 bits and stored in 32, and emissions that happen at most once a second. Instants
 are nanoseconds; an instant of 0 is the unset time point.
 */
module StreamStats {

  const SECOND: int := 1_000_000_000
  const U64: int := 0x1_0000_0000_0000_0000
  const U32: int := 0x1_0000_0000
  const I64_END: int := 0x8000_0000_0000_0000

  /** One call of on_stream_stats. */
  datatype Emission = Emission(at: int, delta: int, elapsed: int, fps: int)

  datatype Stats = Stats(
    hasCb: bool, clock: int, lastEmit: int, received: int, lastReceived: int,
    frames: nat,            // frames since the last reset, unbounded
    log: seq<Emission>)     // emissions since the last reset

  datatype Step = Reset(delay: nat) | Frame(delay: nat, allocOk: bool)

  function ToMs(ns: int): int {
    if ns >= 0 then ns / 1_000_000 else -(-ns / 1_000_000)
  }

  /** Unsigned 64-bit subtraction. */
  function Minus64(a: int, b: int): int { (a - b) % U64 }

  /** Integer division of an unsigned number by a positive one. */
  function Rate(n: int, e: int): int
    requires e != 0
  {
    n / e
  }

  function Fps(delta: int, elapsed: int): int
    requires elapsed != 0
  {
    Rate((delta * 1000) % U64, elapsed) % U32
  }

  function Elapsed(s: Stats): int {
    if s.lastEmit == 0 then 1000
    else if ToMs(s.clock - s.lastEmit) < 1 then 1 else ToMs(s.clock - s.lastEmit)
  }

  function MaybeEmit(s: Stats, allocOk: bool): Stats {
    if !s.hasCb then s
    else if s.lastEmit != 0 && s.clock - s.lastEmit < SECOND then s
    else if !allocOk then s
    else
      var delta := Minus64(s.received, s.lastReceived);
      s.(lastReceived := s.received, lastEmit := s.clock,
         log := s.log + [Emission(s.clock, delta, Elapsed(s), Fps(delta, Elapsed(s)))])
  }

  function Apply(s: Stats, step: Step): Stats {
    var now := s.clock + step.delay;
    match step
    case Reset(_) => s.(clock := now, lastEmit := now, received := 0, lastReceived := 0, frames := 0, log := [])
    case Frame(_, allocOk) =>
      MaybeEmit(s.(clock := now, received := (s.received + 1) % U64, frames := s.frames + 1), allocOk)
  }

  function Run(s: Stats, steps: seq<Step>): Stats
    decreases |steps|
  {
    if steps == [] then s else Run(Apply(s, steps[0]), steps[1..])
  }

  function Sum(log: seq<Emission>): int {
    if log == [] then 0 else Sum(log[..|log| - 1]) + log[|log| - 1].delta
  }

  /** At least a second from `from` to the first emission and between consecutive ones. */
  predicate Spaced(log: seq<Emission>, from: int) {
    forall k {:trigger Previous(log, from, k)} :: 0 <= k < |log| ==>
      SECOND <= log[k].at - Previous(log, from, k) && log[k].elapsed == ToMs(log[k].at - Previous(log, from, k))
  }

  /** The instant the interval ending at emission `k` started. */
  function Previous(log: seq<Emission>, from: int, k: nat): int
    requires k < |log|
  {
    if k == 0 then from else log[k - 1].at
  }

  /** What every state since a reset at instant `from` satisfies. */
  predicate Inv(s: Stats, from: int) {
    && 0 < from <= s.clock
    && s.lastEmit == (if s.log == [] then from else s.log[|s.log| - 1].at) && from <= s.lastEmit <= s.clock
    && s.received == s.frames % U64
    && 0 <= s.frames - Sum(s.log) < U64
    && s.lastReceived == Sum(s.log) % U64
    && Spaced(s.log, from)
    && forall k :: 0 <= k < |s.log| ==>
         s.log[k].delta >= 0 && s.log[k].elapsed >= 1000 && s.log[k].fps == Fps(s.log[k].delta, s.log[k].elapsed)
  }

  /** Fewer than 2^64 frames arrive in any stretch without an emission. */
  predicate Bounded(s: Stats, steps: seq<Step>)
    decreases |steps|
  {
    steps != [] ==>
      s.frames + 1 - Sum(s.log) < U64 && Bounded(Apply(s, steps[0]), steps[1..])
  }

  lemma ModDifference(a: nat, b: nat)
    requires b <= a < b + U64
    ensures Minus64(a % U64, b % U64) == a - b
  {
    var k := a / U64 - b / U64;
    assert a % U64 - b % U64 == a - b - k * U64;
    assert k == 0 || k == 1;
  }

  lemma WrapStep(n: nat)
    ensures (n % U64 + 1) % U64 == (n + 1) % U64
  {
  }

  lemma SecondInMs(ns: int)
    requires SECOND <= ns
    ensures 1000 <= ToMs(ns)
  {
  }

  lemma CountKeeps(s: Stats, from: int, delay: nat)
    requires Inv(s, from) && s.frames + 1 - Sum(s.log) < U64
    ensures Inv(s.(clock := s.clock + delay, received := (s.received + 1) % U64, frames := s.frames + 1), from)
    ensures s.lastEmit != 0
  {
    hide Fps, ToMs, Minus64;
    WrapStep(s.frames);
  }

  lemma FrameKeeps(s: Stats, from: int, delay: nat, allocOk: bool)
    requires Inv(s, from) && s.frames + 1 - Sum(s.log) < U64
    ensures Inv(Apply(s, Frame(delay, allocOk)), from)
  {
    hide Inv, MaybeEmit;
    CountKeeps(s, from, delay);
    EmitKeeps(s.(clock := s.clock + delay, received := (s.received + 1) % U64, frames := s.frames + 1), from, allocOk);
  }

  lemma EmitKeeps(s: Stats, from: int, allocOk: bool)
    requires Inv(s, from)
    ensures Inv(MaybeEmit(s, allocOk), from)
    ensures MaybeEmit(s, allocOk) != s ==> Sum(MaybeEmit(s, allocOk).log) == s.frames
  {
    hide Minus64, Fps, ToMs;
    var r := MaybeEmit(s, allocOk);
    if r != s {
      SumNonNegative(s.log);
      ModDifference(s.frames, Sum(s.log));
      SecondInMs(s.clock - s.lastEmit);
      assert r.log[..|r.log| - 1] == s.log;
      assert Previous(r.log, from, |s.log|) == s.lastEmit;
      assert forall k :: 0 <= k < |s.log| ==> Previous(r.log, from, k) == Previous(s.log, from, k);
      assert Sum(r.log) == s.frames;
    }
  }

  lemma {:induction false} SumNonNegative(log: seq<Emission>)
    requires forall k :: 0 <= k < |log| ==> log[k].delta >= 0
    ensures 0 <= Sum(log)
  {
    if log != [] {
      SumNonNegative(log[..|log| - 1]);
    }
  }

  lemma {:induction false} FramesKeep(s: Stats, from: int, steps: seq<Step>)
    requires Inv(s, from) && Bounded(s, steps) && forall k :: 0 <= k < |steps| ==> steps[k].Frame?
    ensures Inv(Run(s, steps), from)
    decreases |steps|
  {
    hide Inv;
    if steps != [] {
      FrameKeeps(s, from, steps[0].delay, steps[0].allocOk);
      FramesKeep(Apply(s, steps[0]), from, steps[1..]);
    }
  }

  /**
   After any reset, however frames arrive and allocations fail: the frame deltas of all emissions add
   up to the frames received by the last of them, emissions are at least a second apart, so the clamp
   of the elapsed time to 1 never applies, and each rate is the true one rounded down.
   */
  lemma DeltasAddUp(s: Stats, delay: nat, steps: seq<Step>)
    requires 0 < s.clock && forall k :: 0 <= k < |steps| ==> steps[k].Frame?
    requires Bounded(Apply(s, Reset(delay)), steps)
    ensures var from := s.clock + delay;
            var r := Run(Apply(s, Reset(delay)), steps);
            && Spaced(r.log, from)
            && (forall k :: 0 <= k < |r.log| ==> 1000 <= r.log[k].elapsed)
            && Sum(r.log) <= r.frames == |steps|
            && r.lastReceived == Sum(r.log) % U64
            && (forall k :: 0 <= k < |r.log| && r.log[k].delta < U32 && r.log[k].elapsed < I64_END ==>
                  IsQuotient(r.log[k].delta * 1000, r.log[k].elapsed, r.log[k].fps))
  {
    var s0 := Apply(s, Reset(delay));
    assert Inv(s0, s.clock + delay);
    hide Apply, IsQuotient, Fps;
    FramesKeep(s0, s.clock + delay, steps);
    FramesCounted(s0, steps);
    var r := Run(s0, steps);
    forall k | 0 <= k < |r.log| && r.log[k].delta < U32 && r.log[k].elapsed < I64_END
      ensures IsQuotient(r.log[k].delta * 1000, r.log[k].elapsed, r.log[k].fps)
    {
      RateIsTrue(r.log[k].delta, r.log[k].elapsed);
    }
  }

  /** Over a second or more, fewer than 2^32 frames overflow nothing. */
  lemma RateIsTrue(delta: nat, elapsed: int)
    requires delta < U32 && 1000 <= elapsed < I64_END
    ensures IsQuotient(delta * 1000, elapsed, Fps(delta, elapsed))
  {
    RateBounds(delta * 1000, elapsed);
    var q := Rate(delta * 1000, elapsed);
    hide Rate, Fps;
    FpsExact(delta, elapsed);
    if U32 <= q {
      Scale(1000, elapsed, q);
    }
  }

  lemma {:induction false} FramesCounted(s: Stats, steps: seq<Step>)
    requires forall k :: 0 <= k < |steps| ==> steps[k].Frame?
    ensures Run(s, steps).frames == s.frames + |steps|
    decreases |steps|
  {
    if steps != [] {
      FramesCounted(Apply(s, steps[0]), steps[1..]);
    }
  }

  /** An emission accounts for every frame up to and including the one that caused it. */
  lemma EmissionCatchesUp(s: Stats, from: int, delay: nat, allocOk: bool)
    requires Inv(s, from) && s.frames + 1 - Sum(s.log) < U64
    ensures var r := Apply(s, Frame(delay, allocOk));
            && (r.log != s.log <==> s.hasCb && allocOk && SECOND <= r.clock - s.lastEmit)
            && (r.log != s.log ==> |r.log| == |s.log| + 1 && Sum(r.log) == r.frames)
  {
    hide Minus64, Fps, ToMs, Inv;
    WrapStep(s.frames);
    var s1 := s.(clock := s.clock + delay, received := (s.received + 1) % U64, frames := s.frames + 1);
    assert Inv(s1, from) && s.lastEmit != 0 by { CountKeeps(s, from, delay); }
    EmitKeeps(s1, from, allocOk);
  }

  /**
   The reported rate is the true one, rounded down, exactly when neither the 64-bit product nor the
   32-bit result overflows.
   */
  lemma FpsExact(delta: nat, elapsed: int)
    requires 0 < elapsed < I64_END
    ensures IsQuotient(delta * 1000, elapsed, Fps(delta, elapsed)) <==>
            delta * 1000 < U64 && Rate(delta * 1000, elapsed) < U32
  {
    var n := delta * 1000;
    var m := n % U64;
    hide Rate;
    var q := Rate(m, elapsed);
    assert Fps(delta, elapsed) == q % U32;
    hide Fps, Wraps, IsQuotient;
    Wrapped(n, U64);
    RateBounds(m, elapsed);
    Wrapped(q, U32);
    TwoOverflows(n, elapsed, m, q, q % U32);
  }

  /** 2^32 frames in a second are reported as none. */
  lemma FpsOverflows()
    ensures Fps(U32, 1000) == 0 && !IsQuotient(U32 * 1000, 1000, Fps(U32, 1000))
  {
    FpsExact(U32, 1000);
  }

  /** q is n/e rounded down. */
  predicate IsQuotient(n: int, e: int, q: int) {
    q * e <= n < (q + 1) * e
  }

  predicate Wraps(n: int, size: int, m: int) {
    0 <= m < size && (n < size ==> m == n) && (size <= n ==> m <= n - size)
  }

  lemma Wrapped(n: nat, size: int)
    requires 0 < size
    ensures Wraps(n, size, n % size)
  {
    if size <= n {
      assert n == n / size * size + n % size;
      DivBounds(n, size);
      assert 1 <= n / size;
      Scale(1, n / size, size);
    }
  }

  lemma RateBounds(n: nat, e: int)
    requires 0 < e
    ensures Rate(n, e) >= 0 && IsQuotient(n, e, Rate(n, e))
  {
    DivBounds(n, e);
  }

  lemma TwoOverflows(n: nat, e: int, m: int, q: int, fps: int)
    requires 0 < e < I64_END
    requires Wraps(n, U64, m) && IsQuotient(m, e, q) && Wraps(q, U32, fps)
    ensures IsQuotient(n, e, fps) <==> n < U64 && Rate(n, e) < U32
  {
    if IsQuotient(n, e, fps) {
      Quotient(n, e, fps);
      if fps <= q { Scale(fps, q, e); }
    }
    if n < U64 {
      Quotient(n, e, q);
    }
  }

  lemma Scale(a: int, b: int, e: int)
    requires a <= b && 0 < e
    ensures a * e <= b * e
  {
  }

  lemma DivBounds(n: nat, e: int)
    requires 0 < e
    ensures IsQuotient(n, e, n / e)
  {
  }

  lemma Quotient(n: nat, e: int, q: int)
    requires 0 < e && IsQuotient(n, e, q)
    ensures n / e == q
  {
    DivBounds(n, e);
    if q < n / e {
      Scale(q + 1, n / e, e);
    } else if n / e < q {
      Scale(n / e + 1, q, e);
    }
  }

  // ---- The stream object ----

  class StreamHandle {
    const hasCb: bool
    var clock: int
    var lastStatsEmitAt: int
    var videoFramesReceived: int
    var lastStatsFramesReceived: int
    ghost var frames: nat
    ghost var log: seq<Emission>

    ghost function View(): Stats
      reads this
    {
      Stats(hasCb, clock, lastStatsEmitAt, videoFramesReceived, lastStatsFramesReceived, frames, log)
    }

    constructor (hasCb: bool, clock: int)
      ensures View() == Stats(hasCb, clock, 0, 0, 0, 0, [])
    {
      this.hasCb, this.clock := hasCb, clock;
      lastStatsEmitAt, videoFramesReceived, lastStatsFramesReceived := 0, 0, 0;
      frames, log := 0, [];
    }

    /** On OPENED. */
    method ResetOpenedStats(delay: nat)
      modifies this
      ensures View() == Apply(old(View()), Reset(delay))
    {
      clock := clock + delay;
      lastStatsEmitAt := clock;
      videoFramesReceived := 0;
      lastStatsFramesReceived := 0;
      frames, log := 0, [];
    }

    method MaybeEmitPeriodicStats(allocOk: bool)
      modifies this
      ensures View() == MaybeEmit(old(View()), allocOk)
    {
      if !hasCb { return; }
      if lastStatsEmitAt != 0 && clock - lastStatsEmitAt < SECOND { return; }
      if !allocOk { return; }
      var current := videoFramesReceived;
      var previous := lastStatsFramesReceived;
      lastStatsFramesReceived := current;
      var elapsed := 1000;
      if lastStatsEmitAt != 0 {
        elapsed := ToMs(clock - lastStatsEmitAt);
        if elapsed < 1 { elapsed := 1; }
      }
      var fps := (Minus64(current, previous) * 1000 % U64 / elapsed) % U32;
      lastStatsEmitAt := clock;
      log := log + [Emission(clock, Minus64(current, previous), elapsed, fps)];
    }

    /** The frame sink: one decoded frame, at a clock reading `delay` after the last one. */
    method OnFrame(delay: nat, allocOk: bool)
      modifies this
      ensures View() == Apply(old(View()), Frame(delay, allocOk))
    {
      clock := clock + delay;
      videoFramesReceived := (videoFramesReceived + 1) % U64;
      frames := frames + 1;
      MaybeEmitPeriodicStats(allocOk);
    }
  }
}
