/**
 * What the vesting formula and the schedule edits guarantee for a single stream.
 */
module VestingLaws {
  import opened Base
  import opened Vesting

  /**
   * What every stored stream satisfies at ledger time `now`. (The contract's runs keep it:
   * see module `StreamRuns`.) A stream that can still be canceled has not been paid more
   * than has vested, and its cliff ends no later than its schedule.
   */
  ghost predicate Sound(s: Stream, now: U64) {
    && s.startTime <= s.endTime
    && (SatAdd(s.startTime, s.cliffSeconds) <= s.endTime || s.totalAmount == 0)
    && (s.startTime == s.endTime ==> s.totalAmount == 0 || s.endTime == U64_MAX)
    && (s.paused <==> s.pauseStartedAt.Some?)
    && (s.paused ==> s.pauseStartedAt.value <= now)
    && s.claimedAmount <= s.totalAmount
    && (!s.canceled ==> 0 < s.totalAmount && s.claimedAmount <= VestedAmount(s, now))
  }

  // ------------------------------------------------------------------
  // Bounds, monotonicity, rounding
  // ------------------------------------------------------------------

  /** Past the cliff the result is the exact floor; it never exceeds the stream's total. */
  lemma VestedIsFloor(s: Stream, at: U64)
    ensures VestedAmount(s, at) <= s.totalAmount
    ensures !BeforeCliff(s, at) && Duration(s) > 0 ==>
              VestedAmount(s, at) * Duration(s) <= s.totalAmount * Elapsed(s, at)
              < (VestedAmount(s, at) + 1) * Duration(s)
  {
    if !BeforeCliff(s, at) && Duration(s) > 0 {
      FloorBounds(s.totalAmount, Elapsed(s, at), Duration(s));
      ProrateMonotone(s.totalAmount, Elapsed(s, at), Duration(s), Duration(s));
      ProrateWhole(s.totalAmount, Duration(s));
    }
  }

  /** The moment a stream is looked at: when it was paused, or else the time asked about. */
  function Clock(s: Stream, at: U64): U64 {
    match s.pauseStartedAt
    case Some(pausedAt) => if s.paused then pausedAt else at
    case None => at
  }

  /**
   * What vests, in plain figures: nothing before the cliff (or on a schedule without length),
   * everything from the end on, and in between the total's share of the time gone by, rounded
   * down. The one exception is the last timestamp of all, which no cliff reaches past.
   */
  lemma VestedMeans(s: Stream, at: U64)
    ensures var clock, v := Clock(s, at), VestedAmount(s, at);
      var cliffIsAhead := clock < s.startTime + s.cliffSeconds && clock < U64_MAX;
      && (cliffIsAhead || s.endTime <= s.startTime ==> v == 0)
      && (!cliffIsAhead && s.startTime < s.endTime <= clock ==> v == s.totalAmount)
      && (!cliffIsAhead && s.startTime <= clock < s.endTime ==>
            v * (s.endTime - s.startTime) <= s.totalAmount * (clock - s.startTime)
            < (v + 1) * (s.endTime - s.startTime))
  {
    var clock := Clock(s, at);
    if s.startTime < s.endTime && s.startTime <= clock {
      if clock < s.endTime {
        FloorBounds(s.totalAmount, clock - s.startTime, s.endTime - s.startTime);
      } else {
        ProrateWhole(s.totalAmount, s.endTime - s.startTime);
      }
    }
  }

  /** When the product overflows: past the cliff, with a length, the total times the time gone by is out of range. */
  lemma TrapMeans(s: Stream, at: U64)
    ensures var clock := Clock(s, at);
      VestingTraps(s, at) <==>
        && (s.startTime + s.cliffSeconds <= clock || clock == U64_MAX) && s.startTime < s.endTime
        && s.totalAmount * (Min(clock, s.endTime) - s.startTime) > I128_MAX
  {
    var clock := Clock(s, at);
    if (s.startTime + s.cliffSeconds <= clock || clock == U64_MAX) && s.startTime < s.endTime {
      assert Elapsed(s, at) == Min(clock, s.endTime) - s.startTime;
    }
  }

  /** Vesting never runs backwards. */
  lemma VestedMonotone(s: Stream, t1: U64, t2: U64)
    requires t1 <= t2
    ensures VestedAmount(s, t1) <= VestedAmount(s, t2)
  {
    if !BeforeCliff(s, t1) && Duration(s) > 0 {
      ProrateMonotone(s.totalAmount, Elapsed(s, t1), Elapsed(s, t2), Duration(s));
    }
  }

  /** No dust: at or after its end an unpaused, uncanceled stream has vested exactly its total. */
  lemma VestedAtEnd(s: Stream, now: U64, at: U64)
    requires Sound(s, now) && !s.canceled && !s.paused && s.startTime < s.endTime <= at
    ensures VestedAmount(s, at) == s.totalAmount
  {
    ProrateWhole(s.totalAmount, Duration(s));
  }

  // ------------------------------------------------------------------
  // i128 range
  // ------------------------------------------------------------------

  ghost predicate FitsI128(s: Stream) {
    s.totalAmount * Duration(s) <= I128_MAX
  }

  /** If the full product fits, no evaluation of the formula traps, at any time. */
  lemma FitsNeverTraps(s: Stream, at: U64)
    requires FitsI128(s)
    ensures !VestingTraps(s, at)
  {
    MulMonotone(Elapsed(s, at), Duration(s), s.totalAmount);
  }

  /** A smaller total over a shorter schedule has the smaller product. */
  lemma ProductsShrink(total: nat, duration: nat, newTotal: nat, newDuration: nat)
    requires newTotal <= total && newDuration <= duration
    ensures newTotal * newDuration <= total * duration
  {
    MulMonotone(newTotal, total, newDuration);
    MulMonotone(newDuration, duration, total);
    assert newDuration * total == total * newDuration && duration * total == total * duration;
  }

  lemma ResumeKeepsFit(s: Stream, now: U64)
    requires FitsI128(s) && s.startTime <= s.endTime && s.pauseStartedAt.Some?
    ensures FitsI128(Resumed(s, now))
  {
    assert Duration(Resumed(s, now)) <= Duration(s);
    ProductsShrink(s.totalAmount, Duration(s), s.totalAmount, Duration(Resumed(s, now)));
  }

  lemma CancelKeepsFit(s: Stream, now: U64)
    requires FitsI128(s) && s.startTime <= s.endTime
    ensures FitsI128(Canceled(s, now))
  {
    var c := Canceled(s, now);
    VestedIsFloor(s, now);
    assert c.totalAmount <= s.totalAmount && Duration(c) <= Duration(s);
    ProductsShrink(s.totalAmount, Duration(s), c.totalAmount, Duration(c));
  }

  /** Every schedule edit keeps the product in range. */
  lemma EditsKeepFit(s: Stream, now: U64)
    requires FitsI128(s) && s.startTime <= s.endTime
    ensures FitsI128(Paused(s, now))
    ensures s.pauseStartedAt.Some? ==> FitsI128(Resumed(s, now))
    ensures FitsI128(Canceled(s, now))
  {
    assert Duration(Paused(s, now)) == Duration(s);
    if s.pauseStartedAt.Some? {
      ResumeKeepsFit(s, now);
    }
    CancelKeepsFit(s, now);
  }

  // ------------------------------------------------------------------
  // Pause and resume
  // ------------------------------------------------------------------

  /** While paused the vested amount is the amount vested at the pause, at every time. */
  lemma PauseStopsTheClock(s: Stream, now: U64, at: U64)
    requires !s.paused
    ensures VestedAmount(Paused(s, now), at) == VestedAmount(s, now)
  {
  }

  /** The stream with its whole schedule moved `d` seconds later. */
  function Shifted(s: Stream, d: U64): Stream
    requires s.endTime + d <= U64_MAX && s.startTime <= s.endTime
  {
    s.(startTime := s.startTime + d, endTime := s.endTime + d)
  }

  /** A moved schedule at time `at` has vested what the original had `d` seconds earlier. */
  lemma ShiftLaw(s: Stream, d: U64, at: U64)
    requires s.startTime <= s.endTime && s.endTime + d <= U64_MAX
    requires !s.paused && SatAdd(s.startTime, s.cliffSeconds) <= s.endTime
    ensures VestedAmount(Shifted(s, d), at) == if at < d then 0 else VestedAmount(s, at - d)
  {
    var m := Shifted(s, d);
    if at >= d {
      assert BeforeCliff(m, at) <==> BeforeCliff(s, at - d);
      assert Duration(m) == Duration(s);
      assert Elapsed(m, at) == Elapsed(s, at - d);
    }
  }

  /** Resuming never takes back what had vested, even where the time arithmetic saturates. */
  lemma ResumeKeepsVested(s: Stream, now: U64)
    requires s.startTime <= s.endTime && s.paused && s.pauseStartedAt.Some? && s.pauseStartedAt.value <= now
    ensures VestedAmount(s, now) <= VestedAmount(Resumed(s, now), now)
  {
    var r := Resumed(s, now);
    var p := s.pauseStartedAt.value;
    var d := now - p;
    if !BeforeCliff(s, now) && Duration(s) > 0 {
      assert s.startTime <= p && r.startTime == s.startTime + d;
      assert !BeforeCliff(r, now);
      assert Elapsed(r, now) == Elapsed(s, now);
      if Duration(r) == 0 {
        assert Elapsed(s, now) == 0;
        assert s.totalAmount * 0 == 0;
      } else {
        ProrateShorter(s.totalAmount, Elapsed(s, now), Duration(r), Duration(s));
      }
    }
  }

  // ------------------------------------------------------------------
  // Cancel
  // ------------------------------------------------------------------

  /**
   * The guard that fails: the schedule is already over on the ledger clock, but the
   * stream's own clock stopped before its end (or the schedule has no length left).
   */
  ghost predicate CancelLeaks(s: Stream, now: U64) {
    || s.startTime == s.endTime
    || (s.paused && s.pauseStartedAt.Some? && s.pauseStartedAt.value < s.endTime <= now)
  }

  /**
   * Cancel divides the deposit into a refund and what stays owed. It does so exactly
   * unless `CancelLeaks`; then the refund is paid although the total is not reduced.
   */
  lemma CancelDividesTotal(s: Stream, now: U64)
    requires Sound(s, now) && !s.canceled
    ensures 0 <= Refund(s, now) <= s.totalAmount
    ensures Refund(s, now) + Canceled(s, now).totalAmount == s.totalAmount <==> !CancelLeaks(s, now)
    ensures CancelLeaks(s, now) ==>
              Refund(s, now) > 0 && Canceled(s, now).totalAmount == s.totalAmount
  {
    VestedIsFloor(s, now);
    if s.startTime < s.endTime <= CutOff(s, now) {
      ProrateWhole(s.totalAmount, Duration(s));
      if CancelLeaks(s, now) && !BeforeCliff(s, now) {
        ProratePartial(s.totalAmount, Elapsed(s, now), Duration(s));
      }
    }
  }

  /** A stream canceled while paused mid-schedule: its own clock lags the cut-off. */
  ghost predicate CancelShrinks(s: Stream, now: U64) {
    && s.paused && s.pauseStartedAt.Some?
    && s.pauseStartedAt.value < now < s.endTime
    && VestedAmount(s, now) > 0
  }

  lemma CanceledVested(s: Stream, now: U64, at: U64)
    requires Sound(s, now) && !s.canceled && now <= at
    ensures !CancelShrinks(s, now) ==> VestedAmount(Canceled(s, now), at) == VestedAmount(s, now)
    ensures CancelShrinks(s, now) ==> VestedAmount(Canceled(s, now), at) < VestedAmount(s, now)
  {
    var c := Canceled(s, now);
    var v := VestedAmount(s, now);
    if CutOff(s, now) < s.endTime {
      if v == 0 {
        assert 0 * Elapsed(c, at) == 0;
      } else if CancelShrinks(s, now) {
        ProratePartial(v, Elapsed(c, at), Duration(c));
      } else {
        assert Duration(c) > 0 by {
          if now == s.startTime { assert s.totalAmount * 0 == 0; }
        }
        assert Elapsed(c, at) == Duration(c);
        ProrateWhole(v, Duration(c));
      }
    }
  }

  /**
   * Cancel freezes the entitlement: at every later time the canceled stream has vested
   * what had vested at the cancel, if and only if the stream's clock did not lag.
   */
  lemma CancelFreezes(s: Stream, now: U64)
    requires Sound(s, now) && !s.canceled
    ensures (forall at: U64 | now <= at :: VestedAmount(Canceled(s, now), at) == VestedAmount(s, now))
            <==> !CancelShrinks(s, now)
  {
    forall at: U64 | now <= at
      ensures VestedAmount(Canceled(s, now), at) == VestedAmount(s, now) <==> !CancelShrinks(s, now)
    {
      CanceledVested(s, now, at);
    }
    var instance := VestedAmount(Canceled(s, now), now);
  }

  /**
   * The lag is not final: once the canceled stream is resumed and the pause is made up
   * for, exactly the amount vested at the cancel is vested again.
   */
  lemma ResumeAfterCancelRestores(s: Stream, now: U64, resumedAt: U64, at: U64)
    requires Sound(s, now) && !s.canceled && CancelShrinks(s, now)
    requires now <= resumedAt && now + (resumedAt - s.pauseStartedAt.value) <= at
    ensures VestedAmount(Resumed(Canceled(s, now), resumedAt), at) == VestedAmount(s, now)
  {
    var r := Resumed(Canceled(s, now), resumedAt);
    assert Elapsed(r, at) == Duration(r) > 0;
    ProrateWhole(r.totalAmount, Duration(r));
  }

  // ------------------------------------------------------------------
  // Split streams
  // ------------------------------------------------------------------

  function Sum(xs: seq<nat>): nat {
    if xs == [] then 0 else xs[0] + Sum(xs[1..])
  }

  /** What the children of a split, all on the schedule of `s`, have vested together. */
  function ChildrenVested(s: Stream, totals: seq<nat>, at: U64): nat {
    if totals == [] then 0
    else VestedAmount(s.(totalAmount := totals[0]), at) + ChildrenVested(s, totals[1..], at)
  }

  /**
   * The children never vest more than one stream of the summed total; rounding holds
   * back at most one unit per child after the first.
   */
  lemma {:induction false} SplitDust(s: Stream, totals: seq<nat>, at: U64)
    requires |totals| > 0
    ensures ChildrenVested(s, totals, at)
            <= VestedAmount(s.(totalAmount := Sum(totals)), at)
            <= ChildrenVested(s, totals, at) + |totals| - 1
  {
    if |totals| == 1 {
      assert totals[1..] == [];
      assert s.(totalAmount := Sum(totals)) == s.(totalAmount := totals[0]);
    } else {
      var rest := totals[1..];
      SplitDust(s, rest, at);
      if !BeforeCliff(s, at) && Duration(s) > 0 {
        ProrateSum(totals[0], Sum(rest), Elapsed(s, at), Duration(s));
      }
    }
  }

  /** From the end on the children have vested exactly the summed total. */
  lemma {:induction false} SplitExactAtEnd(s: Stream, totals: seq<nat>, at: U64)
    requires !s.paused && s.startTime < s.endTime <= at
    requires SatAdd(s.startTime, s.cliffSeconds) <= s.endTime
    ensures ChildrenVested(s, totals, at) == Sum(totals)
  {
    if totals != [] {
      ProrateWhole(totals[0], Duration(s));
      SplitExactAtEnd(s, totals[1..], at);
    }
  }
}
