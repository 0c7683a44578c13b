/**
 * The backend's own vesting formula, on records converted from the chain, against the
 * contract's. Amounts are exact rationals: what JavaScript rounds is not part of this model.
 */
module OffChain {
  import opened Base
  import opened Vesting
  import opened VestingLaws
  import opened StreamState
  import opened StreamHistory

  datatype StreamRecord = StreamRecord(
    totalAmount: int,
    durationSeconds: int,
    startAt: int,
    canceledAt: Option<int>,
    completedAt: Option<int>,
    pausedAt: Option<int>,
    pausedDuration: int,
    cliffSeconds: int)

  datatype Status = IsScheduled | IsActive | IsPaused | IsCompleted | IsCanceled

  /**
   * The record `fetchOnChainStreamRecord` builds. It asks the chain for a pause time and a
   * paused duration under names the contract's record does not have, so both come out empty.
   */
  function FromChain(s: Stream, nowInSeconds: int): StreamRecord {
    StreamRecord(s.totalAmount, s.endTime - s.startTime, s.startTime,
                 if s.canceled then Some(nowInSeconds) else None, None, None, 0, s.cliffSeconds)
  }

  function ElapsedOff(r: StreamRecord, at: int): int {
    var effectiveAt := if r.pausedAt.Some? then Min(at, r.pausedAt.value) else at;
    Max(0, Max(0, effectiveAt - r.startAt) - r.pausedDuration)
  }

  function Ratio(r: StreamRecord, at: int): real {
    if r.durationSeconds <= 0 then 1.0
    else
      var q := ElapsedOff(r, at) as real / r.durationSeconds as real;
      if q < 1.0 then q else 1.0
  }

  /** `vestedAmount` of `calculateProgress`, before rounding. */
  function VestedOff(r: StreamRecord, at: int): real {
    r.totalAmount as real * Ratio(r, at)
  }

  function ComputeStatus(r: StreamRecord, at: int): Status {
    if r.canceledAt.Some? then IsCanceled
    else if r.completedAt.Some? then IsCompleted
    else if r.pausedAt.Some? then IsPaused
    else if at < r.startAt then IsScheduled
    else if at >= r.startAt + r.durationSeconds + r.pausedDuration then IsCompleted
    else IsActive
  }

  // ------------------------------------------------------------------
  // Agreement
  // ------------------------------------------------------------------

  lemma FloorOfQuotient(x: int, d: int)
    requires d > 0
    ensures (x as real / d as real).Floor == x / d
  {
    var q := x / d;
    QuotientBounds(x, d);
    var r := x as real / d as real;
    assert r * d as real == x as real;
    assert (q * d) as real == q as real * d as real;
    assert ((q + 1) * d) as real == (q + 1) as real * d as real;
    assert q as real <= r < (q + 1) as real;
  }

  lemma ScaledQuotient(total: int, e: int, d: int)
    requires d > 0
    ensures (total as real * (e as real / d as real)).Floor == total * e / d
  {
    FloorOfQuotient(total * e, d);
    assert (total * e) as real == total as real * e as real;
    assert total as real * (e as real / d as real) == (total * e) as real / d as real;
  }

  /** The stream with its pause and its cliff disregarded. */
  function Plain(s: Stream): Stream {
    s.(paused := false, pauseStartedAt := None, cliffSeconds := 0)
  }

  /**
   * What the backend computes for a stream read from the chain, rounded down, is the
   * contract's formula with pause and cliff disregarded, at every time.
   */
  lemma OffChainIsPlain(s: Stream, nowInSeconds: int, at: U64)
    requires s.startTime <= s.endTime && (s.startTime == s.endTime ==> s.totalAmount == 0)
    ensures VestedOff(FromChain(s, nowInSeconds), at).Floor == VestedAmount(Plain(s), at)
  {
    var r := FromChain(s, nowInSeconds);
    var d, e := r.durationSeconds, ElapsedOff(r, at);
    if d > 0 {
      QuotientBelowOne(e, d);
      if e < d {
        ScaledQuotient(s.totalAmount, e, d);
        assert VestedOff(r, at).Floor == Prorate(s.totalAmount, e, d);
        ProrateZero(s.totalAmount, d);
      } else {
        assert VestedOff(r, at) == s.totalAmount as real;
        ProrateWhole(s.totalAmount, d);
      }
    } else {
      assert VestedOff(r, at) == 0.0;
    }
  }

  lemma QuotientBelowOne(e: int, d: int)
    requires d > 0
    ensures e as real / d as real < 1.0 <==> e < d
  {
    var q := e as real / d as real;
    assert q * d as real == e as real;
    assert q < 1.0 ==> q * d as real < d as real;
    assert q >= 1.0 ==> q * d as real >= d as real;
  }

  /** Before the start, or once the cliff is over. */
  predicate OutsideCliffWindow(s: Stream, at: U64) {
    at < s.startTime || SatAdd(s.startTime, s.cliffSeconds) <= at
  }

  /**
   * A schedule with no length left and something still to pay. Only saturated timestamps
   * lead here: the backend calls such a stream fully vested, the contract not vested at all.
   */
  predicate Collapsed(s: Stream) {
    s.startTime == s.endTime && s.totalAmount > 0
  }

  /**
   * In every reachable state, for every stream that is not paused (canceled ones, and ones
   * paused and resumed before, included), backend and contract agree outside the cliff
   * window if and only if the schedule has not collapsed; inside the window the contract
   * withholds what the backend shows.
   */
  lemma OffChainAgrees(s0: State, ops: seq<Op>, id: nat, nowInSeconds: int, at: U64)
    requires Deployed(s0) && id in Run(s0, ops).streams && !Run(s0, ops).streams[id].paused
    ensures var s := Run(s0, ops).streams[id];
      var off := VestedOff(FromChain(s, nowInSeconds), at).Floor;
      && (OutsideCliffWindow(s, at) ==> (off == VestedAmount(s, at) <==> !Collapsed(s)))
      && (!OutsideCliffWindow(s, at) ==> VestedAmount(s, at) == 0 <= off)
      && (Collapsed(s) ==> s.endTime == U64_MAX)
  {
    ReachedAccount(s0, ops, id);
    var s := Run(s0, ops).streams[id];
    if Collapsed(s) {
      CollapsedIsShownWhole(s, nowInSeconds, at);
    } else {
      OffChainIsPlain(s, nowInSeconds, at);
    }
  }

  lemma CollapsedIsShownWhole(s: Stream, nowInSeconds: int, at: U64)
    requires Collapsed(s)
    ensures VestedOff(FromChain(s, nowInSeconds), at).Floor == s.totalAmount && VestedAmount(s, at) == 0
  {
    assert VestedOff(FromChain(s, nowInSeconds), at) == s.totalAmount as real * 1.0;
  }

  // ------------------------------------------------------------------
  // The ignored cliff and the unread pause
  // ------------------------------------------------------------------

  /** What the backend shows for a stream at a time, in whole units. */
  function ShownOff(s: Stream, nowInSeconds: int, at: U64): int {
    VestedOff(FromChain(s, nowInSeconds), at).Floor
  }

  /** In the last second before its cliff not one whole unit has accrued. */
  predicate CliffHidesNothing(s: Stream) {
    var cliffEnd := SatAdd(s.startTime, s.cliffSeconds);
    cliffEnd == s.startTime || s.totalAmount * (cliffEnd - 1 - s.startTime) < s.endTime - s.startTime
  }

  lemma ZeroIffSmall(x: nat, d: nat)
    requires d > 0
    ensures x / d == 0 <==> x < d
  {
  }

  /** What a stream without pause has accrued the moment before the cliff ends. */
  lemma BeforeTheCliffEnds(s: Stream, at: U64)
    requires s.startTime < s.endTime && s.startTime <= at < SatAdd(s.startTime, s.cliffSeconds) <= s.endTime
    ensures VestedAmount(Plain(s), at) == Prorate(s.totalAmount, at - s.startTime, s.endTime - s.startTime)
    ensures CliffHidesNothing(s) ==> VestedAmount(Plain(s), at) == 0
    ensures at + 1 == SatAdd(s.startTime, s.cliffSeconds) && !CliffHidesNothing(s) ==> VestedAmount(Plain(s), at) > 0
  {
    var last := SatAdd(s.startTime, s.cliffSeconds) - 1;
    var d := s.endTime - s.startTime;
    assert Elapsed(Plain(s), at) == at - s.startTime && Duration(Plain(s)) == d;
    ProrateMonotone(s.totalAmount, at - s.startTime, last - s.startTime, d);
    ZeroIffSmall(s.totalAmount * (last - s.startTime), d);
  }

  lemma CliffAgrees(s: Stream, now: U64, nowInSeconds: int, at: U64)
    requires Sound(s, now) && !s.paused && !Collapsed(s) && s.totalAmount > 0 && CliffHidesNothing(s)
    ensures ShownOff(s, nowInSeconds, at) == VestedAmount(s, at)
  {
    OffChainIsPlain(s, nowInSeconds, at);
    if !OutsideCliffWindow(s, at) {
      BeforeTheCliffEnds(s, at);
    }
  }

  /**
   * The ignored cliff, exactly: backend and contract agree at all times about a stream that
   * is not paused if and only if its schedule has not collapsed and, if it has anything to
   * pay, what it accrues before the cliff ends stays below one unit.
   */
  lemma {:induction false} CliffIsIgnored(s0: State, ops: seq<Op>, id: nat, nowInSeconds: int)
    requires Deployed(s0) && id in Run(s0, ops).streams && !Run(s0, ops).streams[id].paused
    ensures var s := Run(s0, ops).streams[id];
      (forall at: U64 :: ShownOff(s, nowInSeconds, at) == VestedAmount(s, at))
      <==> s.totalAmount == 0 || (s.startTime < s.endTime && CliffHidesNothing(s))
  {
    ReachedAccount(s0, ops, id);
    var now := Run(s0, ops).now;
    var s := Run(s0, ops).streams[id];
    if s.totalAmount == 0 {
      forall at: U64 ensures ShownOff(s, nowInSeconds, at) == VestedAmount(s, at) {
        NothingToShow(s, nowInSeconds, at);
      }
    } else if Collapsed(s) {
      CollapsedIsShownWhole(s, nowInSeconds, 0);
    } else if CliffHidesNothing(s) {
      forall at: U64 ensures ShownOff(s, nowInSeconds, at) == VestedAmount(s, at) {
        CliffAgrees(s, now, nowInSeconds, at);
      }
    } else {
      var last: U64 := SatAdd(s.startTime, s.cliffSeconds) - 1;
      BeforeTheCliffEnds(s, last);
      OffChainIsPlain(s, nowInSeconds, last);
      assert VestedAmount(s, last) == 0;
    }
  }

  lemma NothingToShow(s: Stream, nowInSeconds: int, at: U64)
    requires s.totalAmount == 0
    ensures ShownOff(s, nowInSeconds, at) == 0 == VestedAmount(s, at)
  {
    VestedIsFloor(s, at);
    assert VestedOff(FromChain(s, nowInSeconds), at) == 0.0;
  }

  /** Without its pause a stream past its end has vested everything, cliff or no cliff. */
  lemma ShownWholeAtEnd(s: Stream, now: U64, nowInSeconds: int, at: U64)
    requires Sound(s, now) && s.startTime < s.endTime <= at
    ensures ShownOff(s, nowInSeconds, at) == s.totalAmount
  {
    OffChainIsPlain(s, nowInSeconds, at);
    ProrateWhole(s.totalAmount, s.endTime - s.startTime);
  }

  /**
   * The unread pause, exactly: backend and contract agree about a paused stream from now on,
   * however long the pause lasts, if and only if the stream has nothing to pay or was paused
   * when its schedule (not collapsed) was over.
   */
  lemma {:induction false} PauseIsNotShown(s0: State, ops: seq<Op>, id: nat, nowInSeconds: int)
    requires Deployed(s0) && id in Run(s0, ops).streams && Run(s0, ops).streams[id].paused
    ensures var s := Run(s0, ops).streams[id];
      && s.pauseStartedAt.Some?
      && ((forall at: U64 | Run(s0, ops).now <= at :: ShownOff(s, nowInSeconds, at) == VestedAmount(s, at))
          <==> s.totalAmount == 0 || (s.startTime < s.endTime <= s.pauseStartedAt.value))
  {
    ReachedAccount(s0, ops, id);
    var now := Run(s0, ops).now;
    var s := Run(s0, ops).streams[id];
    var p := s.pauseStartedAt.value;
    if s.totalAmount == 0 {
      forall at: U64 | now <= at ensures ShownOff(s, nowInSeconds, at) == VestedAmount(s, at) {
        NothingToShow(s, nowInSeconds, at);
      }
    } else if Collapsed(s) {
      CollapsedIsShownWhole(s, nowInSeconds, now);
    } else if s.endTime <= p {
      forall at: U64 | now <= at ensures ShownOff(s, nowInSeconds, at) == VestedAmount(s, at) {
        ShownWholeAtEnd(s, now, nowInSeconds, at);
        ProrateWhole(s.totalAmount, Duration(s));
      }
    } else {
      var late: U64 := U64_MAX;
      ShownWholeAtEnd(s, now, nowInSeconds, late);
      if !BeforeCliff(s, late) {
        ProratePartial(s.totalAmount, Elapsed(s, late), Duration(s));
      }
    }
  }

  /** What is shown of a stream is never less than what it has vested. */
  lemma ShownAtLeastVested(s0: State, ops: seq<Op>, id: nat, nowInSeconds: int)
    requires Deployed(s0) && id in Run(s0, ops).streams
    ensures var s := Run(s0, ops);
      VestedAmount(s.streams[id], s.now) <= ShownOff(s.streams[id], nowInSeconds, s.now)
  {
    ReachedAccount(s0, ops, id);
    var now := Run(s0, ops).now;
    var s := Run(s0, ops).streams[id];
    if Collapsed(s) {
      CollapsedIsShownWhole(s, nowInSeconds, now);
    } else {
      OffChainIsPlain(s, nowInSeconds, now);
      VestedMonotone(Plain(s), EffectiveNow(s, now), now);
    }
  }

  /** The status shown for a stream on the chain tells where its clock stands. */
  lemma StatusIsRight(s0: State, ops: seq<Op>, id: nat, nowInSeconds: int, at: U64)
    requires Deployed(s0) && id in Run(s0, ops).streams && !Run(s0, ops).streams[id].paused
    ensures var s := Run(s0, ops).streams[id];
      var status := ComputeStatus(FromChain(s, nowInSeconds), at);
      && (status == IsCanceled <==> s.canceled)
      && status != IsPaused
      && (status == IsScheduled <==> !s.canceled && at < s.startTime)
      && (status == IsScheduled ==> VestedAmount(s, at) == 0)
      && (status == IsCompleted <==> !s.canceled && s.endTime <= at)
      && (!Collapsed(s) ==> (status == IsCompleted <==> !s.canceled && VestedAmount(s, at) == s.totalAmount))
  {
    ReachedAccount(s0, ops, id);
    var s := Run(s0, ops).streams[id];
    if !s.canceled && s.startTime < s.endTime {
      if s.endTime <= at {
        VestedAtEnd(s, Run(s0, ops).now, at);
      } else if !BeforeCliff(s, at) && Duration(s) > 0 {
        ProratePartial(s.totalAmount, Elapsed(s, at), Duration(s));
      }
    }
  }
}
