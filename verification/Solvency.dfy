/**
 * Escrow solvency: what the contract holds of a token against what it owes in it, over
 * every run and any number of streams.
 */
module Solvency {
  import opened Base
  import opened Vesting
  import opened VestingLaws
  import opened StreamState
  import opened StreamRuns
  import opened StreamIds

  // ------------------------------------------------------------------
  // Books
  // ------------------------------------------------------------------

  function Unpaid(stream: Stream): int {
    stream.totalAmount - stream.claimedAmount
  }

  /** What stream `id` is owed in `token`. */
  function OwedBy(streams: map<nat, Stream>, native: Option<Address>, token: Address, id: nat): int {
    if id in streams && ActualToken(native, streams[id].token) == Some(token)
    then Unpaid(streams[id]) else 0
  }

  function OwedUpTo(streams: map<nat, Stream>, native: Option<Address>, token: Address, n: nat): int {
    if n == 0 then 0 else OwedUpTo(streams, native, token, n - 1) + OwedBy(streams, native, token, n)
  }

  function TotalOwed(s: State, token: Address): int {
    OwedUpTo(s.streams, s.nativeToken, token, s.nextStreamId)
  }

  /** What streams paid in the native sentinel are owed, whatever address it stands for. */
  function SentinelOwed(s: State): int {
    OwedUpTo(s.streams, Some(NATIVE_SENTINEL), NATIVE_SENTINEL, s.nextStreamId)
  }

  function Surplus(s: State, token: Address): int {
    BalanceOf(s.balances, token, s.self) - TotalOwed(s, token)
  }

  lemma {:induction false} OwedUpdate(
    streams: map<nat, Stream>, native: Option<Address>, token: Address, n: nat, id: nat, after: Stream)
    ensures var updated := streams[id := after];
      OwedUpTo(updated, native, token, n) == OwedUpTo(streams, native, token, n)
        + if 1 <= id <= n then OwedBy(updated, native, token, id) - OwedBy(streams, native, token, id) else 0
  {
    if n > 0 {
      OwedUpdate(streams, native, token, n - 1, id, after);
    }
  }

  /** Numbers that name no stream owe nothing. */
  lemma {:induction false} OwedExtend(
    streams: map<nat, Stream>, native: Option<Address>, token: Address, n: nat, m: nat)
    requires n <= m && forall id | n < id <= m :: id !in streams
    ensures OwedUpTo(streams, native, token, m) == OwedUpTo(streams, native, token, n)
  {
    if n < m {
      OwedExtend(streams, native, token, n, m - 1);
    }
  }

  // ------------------------------------------------------------------
  // One edit
  // ------------------------------------------------------------------

  /** Escrow has `amount` of the token, and the payee's balance can take it. */
  predicate EscrowCovers(s: State, token: Address, payee: Address, amount: int) {
    match ActualToken(s.nativeToken, token)
    case None => false
    case Some(actual) =>
      amount <= BalanceOf(s.balances, actual, s.self) && BalanceOf(s.balances, actual, payee) + amount <= I128_MAX
  }

  /**
   * The one kind of call that pays out without writing it off: a cancel by its sender, on a
   * stream not canceled before whose clock stopped short, that nothing prevents.
   */
  ghost predicate Leaks(s: State, op: Op) {
    && op.Cancel? && op.id in s.streams && Signs(s, op.sender)
    && var stream := s.streams[op.id];
    && stream.sender == op.sender && !stream.canceled && !VestingTraps(stream, s.now)
    && CancelLeaks(stream, s.now)
    && EscrowCovers(s, stream.token, op.sender, Refund(stream, s.now))
  }

  /** Such a cancel, and no other cancel of such a stream, takes effect. */
  lemma LeakHappens(s: State, op: Op)
    requires StreamsSound(s) && op.Cancel?
    ensures Leaks(s, op) <==> op.id in s.streams && CancelLeaks(s.streams[op.id], s.now) && Step(s, op) != s
  {
    if op.id in s.streams && s.streams[op.id].sender == op.sender && Signs(s, op.sender) {
      var stream := s.streams[op.id];
      assert Exec(s, op) == Carry(s, op.id, PlanCancel(stream, op.id, op.sender, s.now));
      if CancelLeaks(stream, s.now) && !stream.canceled && !VestingTraps(stream, s.now) {
        CancelDividesTotal(stream, s.now);
        assert Pay(s, stream.token, s.self, op.sender, Refund(stream, s.now)).Some?
          <==> EscrowCovers(s, stream.token, op.sender, Refund(stream, s.now));
        if Leaks(s, op) {
          assert Step(s, op).streams[op.id].canceled;
        }
      }
    }
  }

  /** A plan pays out of escrow exactly what it writes off the stream, save for a leaking cancel. */
  lemma PlanBooks(stream: Stream, op: Op, admin: Option<Address>, now: U64)
    requires EditsOne(op) && Sound(stream, now) && PlanFor(stream, op, admin, now).Replace?
    ensures var plan := PlanFor(stream, op, admin, now);
      && plan.after.token == stream.token
      && plan.payment >= 0
      && (plan.payment > 0 ==> plan.payee == Signer(stream, op))
      && (op.Cancel? && CancelLeaks(stream, now) ==>
            Unpaid(plan.after) == Unpaid(stream) && plan.payment == Refund(stream, now) > 0)
      && (!(op.Cancel? && CancelLeaks(stream, now)) ==> Unpaid(plan.after) + plan.payment == Unpaid(stream))
  {
    match op
    case Cancel(_, _) => CancelDividesTotal(stream, now);
    case _ =>
  }

  lemma PayMoves(s: State, token: Address, payer: Address, payee: Address, amount: nat, t: Address)
    requires payer != payee && Pay(s, token, payer, payee, amount).Some?
    ensures var paid := Pay(s, token, payer, payee, amount).value;
      var here := if ActualToken(s.nativeToken, token) == Some(t) then amount else 0;
      && ActualToken(s.nativeToken, token).Some?
      && BalanceOf(paid, t, payer) == BalanceOf(s.balances, t, payer) - here
      && BalanceOf(paid, t, payee) == BalanceOf(s.balances, t, payee) + here
  {
  }

  /** A successful edit moves the surplus of no token, save that a leaking cancel loses its refund. */
  lemma EditSurplus(s: State, op: Op, t: Address)
    requires StreamsSound(s) && IdsSound(s) && EditsOne(op)
    ensures Surplus(Step(s, op), t) == Surplus(s, t)
            - if Leaks(s, op) && ActualToken(s.nativeToken, s.streams[op.id].token) == Some(t)
              then Refund(s.streams[op.id], s.now) else 0
  {
    if op.Cancel? {
      LeakHappens(s, op);
    }
    if Step(s, op) != s {
      EditShape(s, op);
      var stream := s.streams[op.id];
      var plan := PlanFor(stream, op, s.admin, s.now);
      PlanBooks(stream, op, s.admin, s.now);
      OwedUpdate(s.streams, s.nativeToken, t, s.nextStreamId, op.id, plan.after);
      assert Signs(s, Signer(stream, op));
      if plan.payment > 0 {
        PayMoves(s, stream.token, s.self, plan.payee, plan.payment, t);
      }
    }
  }

  // ------------------------------------------------------------------
  // Creation, and everything else
  // ------------------------------------------------------------------

  lemma {:induction false} ChildrenOwed(
    streams: map<nat, Stream>, first: nat, sender: Address, token: Address, startTime: U64, endTime: U64,
    recipients: seq<(Address, I128)>, native: Option<Address>, t: Address, n: nat)
    requires AllPositive(recipients) && 1 <= first && first + |recipients| <= n + 1
    requires forall id | first <= id :: id !in streams
    ensures OwedUpTo(WithChildren(streams, first, sender, token, startTime, endTime, recipients), native, t, n)
            == OwedUpTo(streams, native, t, n)
               + if ActualToken(native, token) == Some(t) then Allocated(recipients) else 0
    decreases |recipients|
  {
    if recipients != [] {
      var child := Child(sender, token, startTime, endTime, recipients[0]);
      OwedUpdate(streams, native, t, n, first, child);
      ChildrenOwed(streams[first := child], first + 1, sender, token, startTime, endTime, recipients[1..],
                   native, t, n);
    }
  }

  lemma CreateSurplus(s: State, op: Op, t: Address)
    requires IdsSound(s) && (op.CreateStream? || op.CreateStreamFromTemplate?)
    ensures Surplus(Step(s, op), t) == Surplus(s, t)
  {
    if Exec(s, op).Done? {
      CreateShape(s, op);
      var id := s.nextStreamId + 1;
      var stream := Step(s, op).streams[id];
      OwedUpdate(s.streams, s.nativeToken, t, id, id, stream);
      OwedExtend(s.streams, s.nativeToken, t, s.nextStreamId, id);
      PayMoves(s, stream.token, stream.sender, s.self, stream.totalAmount, t);
    }
  }

  lemma SplitSurplus(s: State, op: Op, t: Address)
    requires IdsSound(s) && op.CreateSplitStream?
    ensures Surplus(Step(s, op), t) == Surplus(s, t)
  {
    if Exec(s, op).Done? {
      SplitShape(s, op);
      var next := Step(s, op).nextStreamId;
      OwedExtend(s.streams, s.nativeToken, t, s.nextStreamId, next);
      ChildrenOwed(s.streams, s.nextStreamId + 2, op.sender, op.token, op.startTime, op.endTime, op.recipients,
                   s.nativeToken, t, next);
      PayMoves(s, op.token, op.sender, s.self, op.total, t);
    }
  }

  /** Streams in the native token exist only once its address is known. */
  ghost predicate NativeKnown(s: State) {
    && (s.admin.None? ==> s.nativeToken.None?)
    && forall id | id in s.streams && s.streams[id].token == NATIVE_SENTINEL :: s.nativeToken.Some?
  }

  lemma SplitKeepsNativeKnown(s: State, op: Op)
    requires NativeKnown(s) && op.CreateSplitStream? && Exec(s, op).Done?
    ensures NativeKnown(Step(s, op))
  {
    SplitShape(s, op);
    forall id | id in Step(s, op).streams && Step(s, op).streams[id].token == NATIVE_SENTINEL
      ensures s.nativeToken.Some?
    {
      WithChildrenAt(s.streams, s.nextStreamId + 2, op.sender, op.token, op.startTime, op.endTime, op.recipients, id);
    }
  }

  lemma StepKeepsNativeKnown(s: State, op: Op)
    requires NativeKnown(s)
    ensures NativeKnown(Step(s, op))
  {
    if EditsOne(op) {
      if Step(s, op) != s { EditShape(s, op); }
    } else if op.CreateSplitStream? {
      if Exec(s, op).Done? { SplitKeepsNativeKnown(s, op); }
    } else if Creates(op) {
      if Exec(s, op).Done? { CreateShape(s, op); }
    } else if AdminOnly(op) {
      AdminShape(s, op);
      assert Exec(s, op) == ExecAdmin(s, op);
    } else {
      OtherShape(s, op);
      if op.Initialize? { assert Exec(s, op) == ExecOther(s, op); }
    }
  }

  /** Re-pointing the native sentinel moves the debt of native streams to another address. */
  ghost predicate MovesNative(s: State, op: Op) {
    && op.SetNativeToken? && IsAdmin(s, op.admin)
    && s.nativeToken != Some(op.native) && SentinelOwed(s) != 0
  }

  lemma {:induction false} OwedRepoint(
    streams: map<nat, Stream>, before: Option<Address>, newNative: Address, t: Address, n: nat)
    requires forall id | id in streams && streams[id].token == NATIVE_SENTINEL :: before.Some?
    ensures OwedUpTo(streams, Some(newNative), t, n) == OwedUpTo(streams, before, t, n)
            + (if newNative == t then OwedUpTo(streams, Some(NATIVE_SENTINEL), NATIVE_SENTINEL, n) else 0)
            - (if before == Some(t) then OwedUpTo(streams, Some(NATIVE_SENTINEL), NATIVE_SENTINEL, n) else 0)
  {
    if n > 0 {
      OwedRepoint(streams, before, newNative, t, n - 1);
    }
  }

  lemma {:induction false} NoSentinelOwed(streams: map<nat, Stream>, n: nat)
    requires forall id | id in streams :: streams[id].token != NATIVE_SENTINEL
    ensures OwedUpTo(streams, Some(NATIVE_SENTINEL), NATIVE_SENTINEL, n) == 0
  {
    if n > 0 {
      NoSentinelOwed(streams, n - 1);
    }
  }

  // ------------------------------------------------------------------
  // Any step, any run
  // ------------------------------------------------------------------

  /** By how much a step changes the surplus in token `t`. */
  ghost function Inflow(s: State, op: Op, t: Address): int {
    if op.Donate? && op.token == t then op.gift
    else if Leaks(s, op) && ActualToken(s.nativeToken, s.streams[op.id].token) == Some(t)
    then -Refund(s.streams[op.id], s.now)
    else if MovesNative(s, op)
    then (if s.nativeToken == Some(t) then SentinelOwed(s) else 0) - (if op.native == t then SentinelOwed(s) else 0)
    else 0
  }

  ghost predicate Books(s: State) {
    StreamsSound(s) && TemplatesSound(s) && IdsSound(s) && NativeKnown(s)
  }

  lemma AdminSurplus(s: State, op: Op, t: Address)
    requires Books(s) && AdminOnly(op)
    ensures Surplus(Step(s, op), t) == Surplus(s, t) + Inflow(s, op, t)
  {
    AdminShape(s, op);
    assert Exec(s, op) == ExecAdmin(s, op);
    if op.SetNativeToken? {
      OwedRepoint(s.streams, s.nativeToken, op.native, t, s.nextStreamId);
    }
  }

  lemma OtherSurplus(s: State, op: Op, t: Address)
    requires Books(s) && !EditsOne(op) && !AdminOnly(op) && !Creates(op)
    ensures Surplus(Step(s, op), t) == Surplus(s, t) + Inflow(s, op, t)
  {
    OtherShape(s, op);
    if op.OutsideBalance? || op.Donate? {
      assert Exec(s, op) == ExecOther(s, op);
    } else if op.Initialize? && s.admin.None? {
      assert Exec(s, op) == ExecOther(s, op);
      OwedRepoint(s.streams, None, op.native, t, s.nextStreamId);
      NoSentinelOwed(s.streams, s.nextStreamId);
    }
  }

  lemma StepSurplus(s: State, op: Op, t: Address)
    requires Books(s)
    ensures Surplus(Step(s, op), t) == Surplus(s, t) + Inflow(s, op, t)
  {
    if EditsOne(op) {
      EditSurplus(s, op, t);
    } else if op.CreateSplitStream? {
      SplitSurplus(s, op, t);
    } else if Creates(op) {
      CreateSurplus(s, op, t);
    } else if AdminOnly(op) {
      AdminSurplus(s, op, t);
    } else {
      OtherSurplus(s, op, t);
    }
  }

  lemma StepKeepsBooks(s: State, op: Op)
    requires Books(s)
    ensures Books(Step(s, op))
  {
    StepKeepsStreams(s, op);
    StepKeepsIds(s, op);
    StepKeepsNativeKnown(s, op);
  }

  lemma {:induction false} RunKeepsBooks(s: State, ops: seq<Op>)
    requires Books(s)
    ensures Books(Run(s, ops))
    decreases |ops|
  {
    if ops != [] {
      StepKeepsBooks(s, ops[0]);
      RunKeepsBooks(Step(s, ops[0]), ops[1..]);
    }
  }

  ghost function NetInflow(s: State, ops: seq<Op>, t: Address): int
    decreases |ops|
  {
    if ops == [] then 0 else Inflow(s, ops[0], t) + NetInflow(Step(s, ops[0]), ops[1..], t)
  }

  /**
   * The books balance exactly, over every run: in each token the contract holds what it
   * owes, plus what it was given, minus the refunds of leaking cancels, adjusted when the
   * native sentinel was re-pointed.
   */
  lemma {:induction false} SurplusIsNetInflow(s: State, ops: seq<Op>, t: Address)
    requires Books(s)
    ensures Surplus(Run(s, ops), t) == Surplus(s, t) + NetInflow(s, ops, t)
    decreases |ops|
  {
    if ops != [] {
      StepSurplus(s, ops[0], t);
      StepKeepsBooks(s, ops[0]);
      SurplusIsNetInflow(Step(s, ops[0]), ops[1..], t);
    }
  }

  /** Neither a leaking cancel nor a re-pointed native token occurs in the run. */
  ghost predicate Guarded(s: State, ops: seq<Op>)
    decreases |ops|
  {
    ops == [] || (!Leaks(s, ops[0]) && !MovesNative(s, ops[0]) && Guarded(Step(s, ops[0]), ops[1..]))
  }

  lemma {:induction false} GuardedInflow(s: State, ops: seq<Op>, t: Address)
    requires Guarded(s, ops)
    ensures NetInflow(s, ops, t) >= 0
    decreases |ops|
  {
    if ops != [] {
      GuardedInflow(Step(s, ops[0]), ops[1..], t);
    }
  }

  /**
   * Solvency over every run there is: a token's balance covers all streams in it if and only
   * if what the contract held of it at first and has been given since makes up for the
   * refunds of leaking cancels and for the debt that re-pointing brought it.
   */
  lemma SolventIff(s0: State, ops: seq<Op>, t: Address)
    requires Deployed(s0)
    ensures var s := Run(s0, ops);
      TotalOwed(s, t) <= BalanceOf(s.balances, t, s.self)
      <==> 0 <= BalanceOf(s0.balances, t, s0.self) + NetInflow(s0, ops, t)
  {
    SurplusIsNetInflow(s0, ops, t);
  }

  /** Solvency: in every state a guarded run reaches, each token balance covers all its streams. */
  lemma Solvent(s0: State, ops: seq<Op>, t: Address)
    requires Deployed(s0) && Guarded(s0, ops)
    ensures var s := Run(s0, ops); TotalOwed(s, t) <= BalanceOf(s.balances, t, s.self)
  {
    SolventIff(s0, ops, t);
    GuardedInflow(s0, ops, t);
  }

  /** One step leaves every token's surplus alone if and only if it is none of the three kinds above. */
  lemma SurplusKeptIff(s: State, op: Op)
    requires Books(s) && !op.Donate?
    ensures (forall t :: Surplus(Step(s, op), t) == Surplus(s, t)) <==> !Leaks(s, op) && !MovesNative(s, op)
  {
    forall t ensures Surplus(Step(s, op), t) == Surplus(s, t) + Inflow(s, op, t) {
      StepSurplus(s, op, t);
    }
    if Leaks(s, op) {
      var stream := s.streams[op.id];
      LeakHappens(s, op);
      EditShape(s, op);
      PlanBooks(stream, op, s.admin, s.now);
      var t := ActualToken(s.nativeToken, stream.token).value;
      assert Inflow(s, op, t) < 0;
    } else if MovesNative(s, op) {
      assert Inflow(s, op, op.native) != 0;
    }
  }
}
