/**
 * One stream and its vesting arithmetic: the floor division every entry point of the
 * contract relies on, and the schedule edits (pause, resume, cancel) applied to it.
 */
module Vesting {
  import opened Base

  datatype Stream = Stream(
    sender: Address,
    recipient: Address,
    token: Address,
    totalAmount: nat,
    claimedAmount: nat,
    startTime: U64,
    endTime: U64,
    cliffSeconds: U64,
    minClaimInterval: U64,
    lastClaimTime: U64,
    canceled: bool,
    paused: bool,
    pauseStartedAt: Option<U64>)

  // ------------------------------------------------------------------
  // The formula
  // ------------------------------------------------------------------

  /** Integer division of non-negative operands: rounds down. */
  function Prorate(total: nat, elapsed: nat, duration: nat): nat
    requires duration > 0
  {
    total * elapsed / duration
  }

  /** The instant vesting is evaluated at: the pause time while paused. */
  function EffectiveNow(s: Stream, at: U64): U64 {
    if s.paused && s.pauseStartedAt.Some? then s.pauseStartedAt.value else at
  }

  function Duration(s: Stream): U64 {
    SatSub(s.endTime, s.startTime)
  }

  function Elapsed(s: Stream, at: U64): U64 {
    var now := EffectiveNow(s, at);
    SatSub(if now >= s.endTime then s.endTime else now, s.startTime)
  }

  predicate BeforeCliff(s: Stream, at: U64) {
    EffectiveNow(s, at) < SatAdd(s.startTime, s.cliffSeconds)
  }

  function VestedAmount(s: Stream, at: U64): nat {
    if BeforeCliff(s, at) then 0
    else if Duration(s) == 0 then 0
    else Prorate(s.totalAmount, Elapsed(s, at), Duration(s))
  }

  /** The product in `VestedAmount` is computed in i128 and traps when it does not fit. */
  predicate VestingTraps(s: Stream, at: U64) {
    && !BeforeCliff(s, at)
    && Duration(s) != 0
    && s.totalAmount * Elapsed(s, at) > I128_MAX
  }

  function ClaimableAmount(s: Stream, at: U64): nat {
    var claimable := VestedAmount(s, at) - s.claimedAmount;
    if claimable < 0 then 0 else claimable
  }

  // ------------------------------------------------------------------
  // Schedule edits
  // ------------------------------------------------------------------

  function Paused(s: Stream, now: U64): Stream {
    s.(paused := true, pauseStartedAt := Some(now))
  }

  function Resumed(s: Stream, now: U64): Stream
    requires s.pauseStartedAt.Some?
  {
    var pausedDuration := SatSub(now, s.pauseStartedAt.value);
    s.(startTime := SatAdd(s.startTime, pausedDuration),
    endTime := SatAdd(s.endTime, pausedDuration),
    paused := false,
    pauseStartedAt := None)
  }

  function Refund(s: Stream, now: U64): int {
    s.totalAmount - VestedAmount(s, now)
  }

  function CutOff(s: Stream, now: U64): U64 {
    if now > s.startTime then now else s.startTime
  }

  function Canceled(s: Stream, now: U64): Stream {
    var vested := VestedAmount(s, now);
    var t := s.(canceled := true);
    if CutOff(s, now) < s.endTime
    then t.(endTime := CutOff(s, now), totalAmount := vested)
    else t
  }

  // ------------------------------------------------------------------
  // Arithmetic of the floor
  // ------------------------------------------------------------------

  lemma MulMonotone(a: int, b: int, c: int)
    requires a <= b && 0 <= c
    ensures a * c <= b * c
  {
  }

  lemma QuotientBounds(x: int, d: int)
    requires d > 0
    ensures (x / d) * d <= x < (x / d + 1) * d
  {
    assert x == d * (x / d) + x % d;
  }

  lemma QuotientAtLeast(q: int, x: int, d: int)
    requires d > 0 && q * d <= x
    ensures q <= x / d
  {
    QuotientBounds(x, d);
    if x / d < q {
      MulMonotone(x / d + 1, q, d);
    }
  }

  lemma QuotientAtMost(q: int, x: int, d: int)
    requires d > 0 && x < (q + 1) * d
    ensures x / d <= q
  {
    QuotientBounds(x, d);
    if q < x / d {
      MulMonotone(q + 1, x / d, d);
    }
  }

  lemma FloorBounds(total: nat, elapsed: nat, duration: nat)
    requires duration > 0
    ensures Prorate(total, elapsed, duration) * duration <= total * elapsed
    ensures total * elapsed < (Prorate(total, elapsed, duration) + 1) * duration
  {
    QuotientBounds(total * elapsed, duration);
  }

  lemma ProrateMonotone(total: nat, e1: nat, e2: nat, duration: nat)
    requires duration > 0 && e1 <= e2
    ensures Prorate(total, e1, duration) <= Prorate(total, e2, duration)
  {
    MulMonotone(e1, e2, total);
    QuotientBounds(total * e1, duration);
    QuotientAtLeast(total * e1 / duration, total * e2, duration);
  }

  lemma ProrateWhole(total: nat, duration: nat)
    requires duration > 0
    ensures Prorate(total, duration, duration) == total
  {
    QuotientAtLeast(total, total * duration, duration);
    QuotientAtMost(total, total * duration, duration);
  }

  lemma ProrateZero(total: nat, duration: nat)
    requires duration > 0
    ensures Prorate(total, 0, duration) == 0
  {
    assert total * 0 == 0;
  }

  /** Part of the way never rounds up to a positive whole. */
  lemma ProratePartial(total: nat, elapsed: nat, duration: nat)
    requires elapsed < duration && total > 0
    ensures Prorate(total, elapsed, duration) < total
  {
    assert total * elapsed < total * duration;
    QuotientAtMost(total - 1, total * elapsed, duration);
  }

  /** A shorter window vests no less at the same elapsed time. */
  lemma ProrateShorter(total: nat, elapsed: nat, d1: nat, d2: nat)
    requires 0 < d1 <= d2
    ensures Prorate(total, elapsed, d2) <= Prorate(total, elapsed, d1)
  {
    var p := Prorate(total, elapsed, d2);
    FloorBounds(total, elapsed, d2);
    MulMonotone(d1, d2, p);
    QuotientAtLeast(p, total * elapsed, d1);
  }

  /** Rounding two parts down loses at most one unit against rounding their sum down. */
  lemma FloorOfSum(x: int, y: int, d: int)
    requires d > 0
    ensures x / d + y / d <= (x + y) / d <= x / d + y / d + 1
  {
    QuotientBounds(x, d);
    QuotientBounds(y, d);
    SumBounds(x / d, y / d, x, y, d);
    QuotientAtLeast(x / d + y / d, x + y, d);
    QuotientAtMost(x / d + y / d + 1, x + y, d);
  }

  lemma SumBounds(p: int, q: int, x: int, y: int, d: int)
    requires p * d <= x < (p + 1) * d && q * d <= y < (q + 1) * d
    ensures (p + q) * d <= x + y < (p + q + 2) * d
  {
  }

  lemma ProrateSum(a: nat, b: nat, elapsed: nat, duration: nat)
    requires duration > 0
    ensures Prorate(a, elapsed, duration) + Prorate(b, elapsed, duration)
            <= Prorate(a + b, elapsed, duration)
            <= Prorate(a, elapsed, duration) + Prorate(b, elapsed, duration) + 1
  {
    FloorOfSum(a * elapsed, b * elapsed, duration);
    assert (a + b) * elapsed == a * elapsed + b * elapsed;
  }
}
