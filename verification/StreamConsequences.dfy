/**
 * Consequences for callers: funded claims, splits against single streams, and which
 * creations the token allow-list binds.
 */
module StreamConsequences {
  import opened Base
  import opened Vesting
  import opened VestingLaws
  import opened StreamState
  import opened StreamRuns
  import opened StreamIds
  import opened Solvency

  // ------------------------------------------------------------------
  // Solvency seen by a recipient
  // ------------------------------------------------------------------

  lemma {:induction false} OwedCoversOne(
    streams: map<nat, Stream>, native: Option<Address>, token: Address, n: nat, id: nat)
    requires 1 <= id <= n && forall i | i in streams :: 0 <= Unpaid(streams[i])
    ensures OwedBy(streams, native, token, id) <= OwedUpTo(streams, native, token, n)
    ensures 0 <= OwedUpTo(streams, native, token, n - 1)
  {
    if n > 1 {
      OwedCoversOne(streams, native, token, n - 1, if id < n then id else n - 1);
    }
  }

  /** With the funds in escrow, nothing but throttling, a trap or the payee's own limit stops a claim. */
  lemma FundedClaimGoesThrough(s: State, id: nat, amount: I128, t: Address)
    requires id in s.streams && 0 < amount <= ClaimableAmount(s.streams[id], s.now)
    requires Signs(s, s.streams[id].recipient)
    requires !ThrottledNow(s.streams[id], s.now) && !VestingTraps(s.streams[id], s.now)
    requires ActualToken(s.nativeToken, s.streams[id].token) == Some(t)
    requires amount <= BalanceOf(s.balances, t, s.self)
    requires BalanceOf(s.balances, t, s.streams[id].recipient) + amount <= I128_MAX
    ensures Exec(s, Claim(id, s.streams[id].recipient, amount)).Done?
  {
    var stream := s.streams[id];
    var op := Claim(id, stream.recipient, amount);
    assert PlanFor(stream, op, s.admin, s.now) == PlanClaim(stream, id, stream.recipient, amount, s.now);
    assert Exec(s, op) == Carry(s, id, PlanClaim(stream, id, stream.recipient, amount, s.now));
  }

  /** In a state a guarded run reaches, escrow holds at least what any one stream can claim. */
  lemma ClaimableIsCovered(s0: State, ops: seq<Op>, id: nat) returns (t: Address)
    requires Deployed(s0) && Guarded(s0, ops) && id in Run(s0, ops).streams
    ensures var s := Run(s0, ops);
      && ActualToken(s.nativeToken, s.streams[id].token) == Some(t)
      && ClaimableAmount(s.streams[id], s.now) <= BalanceOf(s.balances, t, s.self)
  {
    var s := Run(s0, ops);
    var stream := s.streams[id];
    RunKeepsBooks(s0, ops);
    VestedIsFloor(stream, s.now);
    t := ActualToken(s.nativeToken, stream.token).value;
    Solvent(s0, ops, t);
    OwedCoversOne(s.streams, s.nativeToken, t, s.nextStreamId, id);
    assert OwedBy(s.streams, s.nativeToken, t, id) == Unpaid(stream);
  }

  /**
   * After a guarded run no claim is ever refused for lack of funds: an authorized claim of
   * at most the claimable amount goes through unless it is throttled, the arithmetic traps
   * or the recipient's own balance cannot take it.
   */
  lemma ClaimsAreFunded(s0: State, ops: seq<Op>, id: nat, amount: I128)
    requires Deployed(s0) && Guarded(s0, ops) && id in Run(s0, ops).streams
    requires var s := Run(s0, ops);
      var stream := s.streams[id];
      && 0 < amount <= ClaimableAmount(stream, s.now)
      && Signs(s, stream.recipient) && !ThrottledNow(stream, s.now) && !VestingTraps(stream, s.now)
      && forall t | ActualToken(s.nativeToken, stream.token) == Some(t) ::
           BalanceOf(s.balances, t, stream.recipient) + amount <= I128_MAX
    ensures var s := Run(s0, ops); Exec(s, Claim(id, s.streams[id].recipient, amount)).Done?
  {
    var t := ClaimableIsCovered(s0, ops, id);
    FundedClaimGoesThrough(Run(s0, ops), id, amount, t);
  }

  // ------------------------------------------------------------------
  // A split against one stream
  // ------------------------------------------------------------------

  /** What the streams `first` .. `first + n - 1` have vested together. */
  function BlockVested(streams: map<nat, Stream>, first: nat, n: nat, at: U64): nat
    decreases n
  {
    if n == 0 then 0
    else (if first in streams then VestedAmount(streams[first], at) else 0) + BlockVested(streams, first + 1, n - 1, at)
  }

  function Totals(recipients: seq<(Address, I128)>): seq<nat>
    requires AllPositive(recipients)
  {
    if recipients == [] then [] else [recipients[0].1] + Totals(recipients[1..])
  }

  lemma {:induction false} TotalsSum(recipients: seq<(Address, I128)>)
    requires AllPositive(recipients)
    ensures |Totals(recipients)| == |recipients| && Sum(Totals(recipients)) == Allocated(recipients)
  {
    if recipients != [] {
      TotalsSum(recipients[1..]);
      assert Totals(recipients)[1..] == Totals(recipients[1..]);
    }
  }

  /** A child vests like the single stream with the child's share as its total. */
  lemma ChildVests(single: Stream, recipient: (Address, I128), at: U64)
    requires recipient.1 > 0 && single.cliffSeconds == 0 && !single.paused
    ensures VestedAmount(Child(single.sender, single.token, single.startTime, single.endTime, recipient), at)
            == VestedAmount(single.(totalAmount := recipient.1), at)
  {
  }

  /** The streams from `first` on are the children of a split, in the recipients' order. */
  ghost predicate Block(streams: map<nat, Stream>, first: nat, single: Stream, recipients: seq<(Address, I128)>)
    requires AllPositive(recipients)
  {
    forall id | first <= id < first + |recipients| ::
      id in streams
      && streams[id] == Child(single.sender, single.token, single.startTime, single.endTime, recipients[id - first])
  }

  lemma BlockTail(streams: map<nat, Stream>, first: nat, single: Stream, recipients: seq<(Address, I128)>)
    requires AllPositive(recipients) && recipients != [] && Block(streams, first, single, recipients)
    ensures Block(streams, first + 1, single, recipients[1..])
  {
  }

  lemma {:induction false} BlockIsChildren(
    streams: map<nat, Stream>, first: nat, single: Stream, recipients: seq<(Address, I128)>, at: U64)
    requires AllPositive(recipients) && single.cliffSeconds == 0 && !single.paused
    requires Block(streams, first, single, recipients)
    ensures BlockVested(streams, first, |recipients|, at) == ChildrenVested(single, Totals(recipients), at)
    decreases |recipients|
  {
    if recipients != [] {
      var rest := recipients[1..];
      ChildVests(single, recipients[0], at);
      BlockTail(streams, first, single, recipients);
      BlockIsChildren(streams, first + 1, single, rest, at);
      assert Totals(recipients)[0] == recipients[0].1 && Totals(recipients)[1..] == Totals(rest);
    }
  }

  lemma ChildrenAreBlock(streams: map<nat, Stream>, first: nat, single: Stream, recipients: seq<(Address, I128)>)
    requires AllPositive(recipients)
    ensures var after :=
        WithChildren(streams, first, single.sender, single.token, single.startTime, single.endTime, recipients);
      Block(after, first, single, recipients)
  {
    forall id | first <= id < first + |recipients| {
      WithChildrenAt(streams, first, single.sender, single.token, single.startTime, single.endTime, recipients, id);
    }
  }

  /**
   * Splitting a deposit costs its recipients at most rounding: at any time the children of
   * a new family have vested together no more than one stream of the whole deposit, less by
   * at most one unit per child after the first, and exactly as much from the end on.
   */
  lemma SplitMatchesSingle(s: State, op: Op, at: U64)
    requires op.CreateSplitStream? && Exec(s, op).Done?
    ensures var t := Step(s, op);
      var n := |op.recipients|;
      var children := BlockVested(t.streams, s.nextStreamId + 2, n, at);
      && op.total > 0
      && var single := NewStream(op.sender, op.sender, op.token, op.total, op.startTime, op.endTime, 0, 0);
      && children <= VestedAmount(single, at) <= children + n - 1
      && (op.endTime <= at ==> children == op.total)
  {
    var total: nat := if op.total > 0 then op.total else 0;
    var single := NewStream(op.sender, op.sender, op.token, total, op.startTime, op.endTime, 0, 0);
    SplitShape(s, op);
    ChildrenAreBlock(s.streams, s.nextStreamId + 2, single, op.recipients);
    BlockIsChildren(Step(s, op).streams, s.nextStreamId + 2, single, op.recipients, at);
    TotalsSum(op.recipients);
    SplitDust(single, Totals(op.recipients), at);
    assert single.(totalAmount := Sum(Totals(op.recipients))) == single;
    if op.endTime <= at {
      SplitExactAtEnd(single, Totals(op.recipients), at);
    }
  }

  // ------------------------------------------------------------------
  // The token allow-list
  // ------------------------------------------------------------------

  /** The call stores a new stream in a token that is neither listed nor the native sentinel. */
  ghost predicate StoresUnlisted(s: State, op: Op) {
    var t := Step(s, op);
    exists id :: id in t.streams && id !in s.streams
                 && t.streams[id].token != NATIVE_SENTINEL && t.streams[id].token !in s.allowedTokens
  }

  lemma CreationIsListed(s: State, op: Op)
    requires (op.CreateStream? || op.CreateStreamFromTemplate?) && Exec(s, op).Done?
    ensures !StoresUnlisted(s, op)
  {
    CreateShape(s, op);
    var stream := Step(s, op).streams[s.nextStreamId + 1];
    assert stream.token == NATIVE_SENTINEL || stream.token in s.allowedTokens by {
      assert Exec(s, op) == ExecCreation(s, op);
    }
  }

  /**
   * The allow-list binds every creation but a split: a successful creation stores a stream in
   * an unlisted token if and only if it is a split given such a token.
   */
  lemma UnlistedIffSplit(s: State, op: Op)
    requires IdsSound(s) && Creates(op) && Exec(s, op).Done?
    ensures StoresUnlisted(s, op)
      <==> op.CreateSplitStream? && op.token != NATIVE_SENTINEL && op.token !in s.allowedTokens
  {
    if op.CreateSplitStream? {
      var first := s.nextStreamId + 2;
      SplitShape(s, op);
      forall id | id in Step(s, op).streams && id !in s.streams ensures Step(s, op).streams[id].token == op.token {
        WithChildrenAt(s.streams, first, op.sender, op.token, op.startTime, op.endTime, op.recipients, id);
      }
      WithChildrenAt(s.streams, first, op.sender, op.token, op.startTime, op.endTime, op.recipients, first);
      assert first in Step(s, op).streams && first !in s.streams;
    } else {
      CreationIsListed(s, op);
    }
  }
}
