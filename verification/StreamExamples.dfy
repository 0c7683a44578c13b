/**
 * Concrete runs, from deployment, in which a promise of the contract or of the backend about
 * it fails. The exact conditions stand beside the laws they limit.
 */
module StreamExamples {
  import opened Base
  import opened Vesting
  import opened VestingLaws
  import opened StreamState
  import opened StreamRuns
  import opened Solvency
  import opened StreamHistory
  import opened StreamConsequences
  import opened OffChain

  // ------------------------------------------------------------------
  // Running the runs
  // ------------------------------------------------------------------

  function Fresh(): State {
    State("contract", 0, None, None, [], map[], 0, map[], map[], map[], 0, map[], map[], [])
  }

  lemma {:induction false} RunConcat(s: State, a: seq<Op>, b: seq<Op>)
    ensures Run(s, a + b) == Run(Run(s, a), b)
    decreases |a|
  {
    if a == [] {
      assert a + b == b;
    } else {
      assert (a + b)[1..] == a[1..] + b;
      RunConcat(Step(s, a[0]), a[1..], b);
    }
  }

  lemma RunOne(s: State, a: Op)
    ensures Run(s, [a]) == Step(s, a)
  {
    assert [a][1..] == [];
    assert Run(s, [a]) == Run(Step(s, a), []);
  }

  lemma RunThree(s: State, a: Op, b: Op, c: Op)
    ensures Run(s, [a, b, c]) == Step(Step(Step(s, a), b), c)
  {
    assert [a, b, c][1..] == [b, c] && [b, c][1..] == [c];
    assert Run(Step(s, a), [b, c]) == Run(Step(Step(s, a), b), [c]);
    RunOne(Step(Step(s, a), b), c);
  }

  /** The contract is set up, and the sender holds 100 of `token`, before `last`. */
  function Opening(token: Address, last: Op): seq<Op> {
    [Initialize("admin", "native", ["token"]), OutsideBalance(token, "sender", 100), last]
  }

  function SetUp(token: Address): State {
    Fresh().(admin := Some("admin"), nativeToken := Some("native"), allowedTokens := ["token"],
             balances := map[(token, "sender") := 100])
  }

  lemma AfterOpening(token: Address, last: Op)
    ensures Run(Fresh(), Opening(token, last)) == Step(SetUp(token), last)
  {
    var ops := Opening(token, last);
    RunThree(Fresh(), ops[0], ops[1], ops[2]);
    var s1 := Step(Fresh(), ops[0]);
    assert s1 == Fresh().(admin := Some("admin"), nativeToken := Some("native"), allowedTokens := ["token"]);
    assert Step(s1, ops[1]) == s1.(balances := map[(token, "sender") := 100]);
  }

  /** A deposit of 100, vesting until `end`. */
  function Deposited(end: U64): Op {
    CreateStream("sender", "recipient", "token", 100, 0, end, 0)
  }

  function Example(end: U64): Stream {
    NewStream("sender", "recipient", "token", 100, 0, end, 0, 0)
  }

  lemma AfterDeposit(end: U64) returns (s: State)
    requires end > 0
    ensures s == Run(Fresh(), Opening("token", Deposited(end)))
    ensures s.self == "contract" && s.now == 0 && s.nativeToken == Some("native") && s.nextStreamId == 1
    ensures s.streams == map[1 := Example(end)] && s.events == [StreamCreated(1, 100, 0, end, 0)]
    ensures BalanceOf(s.balances, "token", "contract") == 100 && BalanceOf(s.balances, "token", "sender") == 0
  {
    AfterOpening("token", Deposited(end));
    var ready := SetUp("token");
    s := Step(ready, Deposited(end));
    assert "token" in ready.allowedTokens;
    assert Exec(ready, Deposited(end)) == ExecCreate(ready, "sender", "recipient", "token", 100, 0, end, 0, 0);
    assert Pay(ready, "token", "sender", "contract", 100).Some?;
  }

  /** The stream is paused at `p`; the ledger goes on to `at`. */
  function PausedUntil(p: U64, at: U64): seq<Op> {
    [LedgerClose(p), PauseStream(1, "sender"), LedgerClose(at)]
  }

  lemma AfterPause(s: State, end: U64, p: U64, at: U64) returns (t: State)
    requires s.self == "contract" && s.now == 0 && s.streams == map[1 := Example(end)] && p <= at
    ensures t == Run(s, PausedUntil(p, at))
    ensures t == s.(now := at, streams := map[1 := Paused(Example(end), p)], events := s.events + [StreamPaused(1, p)])
  {
    var ops := PausedUntil(p, at);
    RunThree(s, ops[0], ops[1], ops[2]);
    var s1 := Step(s, ops[0]);
    assert s1 == s.(now := p);
    var s2 := Step(s1, ops[1]);
    assert Exec(s1, ops[1]) == Carry(s1, 1, PlanPause(Example(end), 1, "sender", p));
    assert s2.streams == map[1 := Paused(Example(end), p)];
    t := Step(s2, ops[2]);
  }

  /** 100 over ten seconds, paused half way; the ledger goes on to `at`. */
  function HalfWay(at: U64): seq<Op> {
    Opening("token", Deposited(10)) + PausedUntil(5, at)
  }

  lemma AfterHalfWay(at: U64) returns (s: State)
    requires 5 <= at
    ensures s == Run(Fresh(), HalfWay(at))
    ensures s.self == "contract" && s.now == at && s.nativeToken == Some("native") && s.nextStreamId == 1
    ensures s.streams == map[1 := Paused(Example(10), 5)]
    ensures BalanceOf(s.balances, "token", "contract") == 100 && BalanceOf(s.balances, "token", "sender") == 0
  {
    var begun := AfterDeposit(10);
    s := AfterPause(begun, 10, 5, at);
    RunConcat(Fresh(), Opening("token", Deposited(10)), PausedUntil(5, at));
  }

  // ------------------------------------------------------------------
  // Cancel
  // ------------------------------------------------------------------

  /** A run of ordinary calls after which the contract owes twice what it holds. */
  lemma LeakBreaksSolvency()
    ensures Deployed(Fresh())
    ensures var s := Run(Fresh(), HalfWay(10) + [Cancel(1, "sender")]);
      BalanceOf(s.balances, "token", "contract") == 50 && TotalOwed(s, "token") == 100
  {
    var waited := AfterHalfWay(10);
    var op := Cancel(1, "sender");
    var stream := Paused(Example(10), 5);
    RunConcat(Fresh(), HalfWay(10), [op]);
    RunOne(waited, op);
    assert VestedAmount(stream, 10) == 50;
    assert Exec(waited, op) == Carry(waited, 1, PlanCancel(stream, 1, "sender", 10));
    PayMoves(waited, "token", "contract", "sender", 50, "token");
    var s := Step(waited, op);
    assert s.streams[1] == stream.(canceled := true);
    assert OwedUpTo(s.streams, s.nativeToken, "token", 1) == OwedUpTo(s.streams, s.nativeToken, "token", 0) + 100;
  }

  /** A cancel that is not final: of the 50 vested at the pause 35 are left after a cancel at 7. */
  lemma CancelShrinksVested()
    ensures var s := Run(Fresh(), HalfWay(7));
      var t := Run(Fresh(), HalfWay(7) + [Cancel(1, "sender")]);
      && 1 in s.streams && CancelShrinks(s.streams[1], s.now) && VestedAmount(s.streams[1], s.now) == 50
      && 1 in t.streams && t.streams[1].canceled && VestedAmount(t.streams[1], t.now) == 35
  {
    var s := AfterHalfWay(7);
    var op := Cancel(1, "sender");
    var stream := Paused(Example(10), 5);
    RunConcat(Fresh(), HalfWay(7), [op]);
    RunOne(s, op);
    assert VestedAmount(stream, 7) == 50;
    assert Exec(s, op) == Carry(s, 1, PlanCancel(stream, 1, "sender", 7));
    PayMoves(s, "token", "contract", "sender", 50, "token");
    assert Canceled(stream, 7) == stream.(canceled := true, endTime := 7, totalAmount := 50);
  }

  // ------------------------------------------------------------------
  // The 64-bit range
  // ------------------------------------------------------------------

  lemma CutOffAmounts()
    ensures VestedAmount(Example(U64_MAX).(startTime := 1), U64_MAX) == 100
    ensures VestedOnStoppedClock(Example(U64_MAX), U64_MAX, 1) == 99
  {
    ProrateWhole(100, U64_MAX - 1);
  }

  lemma AfterResume(s: State) returns (t: State)
    requires s.self == "contract" && s.now == 1 && s.streams == map[1 := Paused(Example(U64_MAX), 0)]
    ensures t == Step(s, ResumeStream(1, "sender")) && t.streams == map[1 := Example(U64_MAX).(startTime := 1)]
  {
    var stream := Paused(Example(U64_MAX), 0);
    t := Step(s, ResumeStream(1, "sender"));
    assert Exec(s, ResumeStream(1, "sender")) == Carry(s, 1, PlanResume(stream, 1, "sender", 1));
    assert Resumed(stream, 1) == Example(U64_MAX).(startTime := 1);
  }

  /** One second of pause pushes an end at the last timestamp out of range: the stream vests faster than it should. */
  lemma LastSecondIsCutOff()
    ensures var ops := Opening("token", Deposited(U64_MAX)) + PausedUntil(0, 1) + [ResumeStream(1, "sender")];
      var s := Run(Fresh(), ops);
      && 1 in s.streams && !s.streams[1].paused
      && VestedAmount(s.streams[1], U64_MAX) == 100
      && VestedOnStoppedClock(Example(U64_MAX), U64_MAX, 1) == 99
  {
    var begun := AfterDeposit(U64_MAX);
    var waited := AfterPause(begun, U64_MAX, 0, 1);
    var resumed := AfterResume(waited);
    RunConcat(Fresh(), Opening("token", Deposited(U64_MAX)), PausedUntil(0, 1));
    RunConcat(Fresh(), Opening("token", Deposited(U64_MAX)) + PausedUntil(0, 1), [ResumeStream(1, "sender")]);
    RunOne(waited, ResumeStream(1, "sender"));
    CutOffAmounts();
  }

  // ------------------------------------------------------------------
  // What the backend shows
  // ------------------------------------------------------------------

  /** Two seconds into the pause the backend shows 70 where 50 have vested. */
  lemma PauseIsShownAsRunning(nowInSeconds: int)
    ensures var s := Run(Fresh(), HalfWay(7));
      && 1 in s.streams && s.streams[1].paused
      && ShownOff(s.streams[1], nowInSeconds, s.now) == 70 && VestedAmount(s.streams[1], s.now) == 50
  {
    var s := AfterHalfWay(7);
    OffChainIsPlain(s.streams[1], nowInSeconds, 7);
  }

  /** 100 over ten seconds with a cliff of five, from a template. */
  function WithCliff(): seq<Op> {
    Opening("token", CreateTemplate("sender", "token", 10, 5)) + [CreateStreamFromTemplate(1, "recipient", 100)]
  }

  lemma AfterTemplate() returns (s: State)
    ensures s == Step(SetUp("token"), CreateTemplate("sender", "token", 10, 5))
    ensures s == SetUp("token").(nextTemplateId := 1, templates := map[1 := Template(1, "sender", "token", 10, 5)],
              senderTemplates := s.senderTemplates, events := s.events)
  {
    var ready := SetUp("token");
    s := Step(ready, CreateTemplate("sender", "token", 10, 5));
    assert Exec(ready, CreateTemplate("sender", "token", 10, 5)) == ExecCreateTemplate(ready, "sender", "token", 10, 5);
  }

  lemma AfterTemplateStream(s: State) returns (t: State)
    requires s == SetUp("token").(nextTemplateId := 1, templates := map[1 := Template(1, "sender", "token", 10, 5)],
               senderTemplates := s.senderTemplates, events := s.events)
    ensures t == Step(s, CreateStreamFromTemplate(1, "recipient", 100))
    ensures t.streams == map[1 := Example(10).(cliffSeconds := 5)]
  {
    t := Step(s, CreateStreamFromTemplate(1, "recipient", 100));
    assert "token" in s.allowedTokens && Pay(s, "token", "sender", "contract", 100).Some?;
    assert Exec(s, CreateStreamFromTemplate(1, "recipient", 100))
      == ExecCreate(s, "sender", "recipient", "token", 100, 0, 10, 5, 0);
  }

  /** A second before the cliff the backend shows 40 where nothing has vested. */
  lemma CliffIsShownAsRunning(nowInSeconds: int)
    ensures var s := Run(Fresh(), WithCliff());
      && 1 in s.streams && !s.streams[1].paused
      && ShownOff(s.streams[1], nowInSeconds, 4) == 40 && VestedAmount(s.streams[1], 4) == 0
  {
    var first, second := CreateTemplate("sender", "token", 10, 5), CreateStreamFromTemplate(1, "recipient", 100);
    AfterOpening("token", first);
    RunConcat(Fresh(), Opening("token", first), [second]);
    var s := AfterTemplate();
    RunOne(s, second);
    var t := AfterTemplateStream(s);
    OffChainIsPlain(t.streams[1], nowInSeconds, 4);
  }

  // ------------------------------------------------------------------
  // The allow-list
  // ------------------------------------------------------------------

  function UnlistedSplit(): Op {
    CreateSplitStream("sender", "other", 100, 0, 10, [("recipient", 100)])
  }

  lemma SplitGoesThrough()
    ensures Exec(SetUp("other"), UnlistedSplit()).Done?
  {
    var ready, op := SetUp("other"), UnlistedSplit();
    assert op.recipients[1..] == [];
    assert Allocated(op.recipients) == 100 + Allocated([]);
    assert Pay(ready, "other", "sender", "contract", 100).Some?;
    assert Exec(ready, op) == ExecSplit(ready, "sender", "other", 100, 0, 10, op.recipients);
  }

  lemma PlainIsRefused()
    ensures Exec(SetUp("other"), CreateStream("sender", "recipient", "other", 100, 0, 10, 0)).Panic?
  {
    var ready, op := SetUp("other"), CreateStream("sender", "recipient", "other", 100, 0, 10, 0);
    assert |"other"| != |NATIVE_SENTINEL|;
    assert Exec(ready, op) == ExecCreate(ready, "sender", "recipient", "other", 100, 0, 10, 0, 0);
  }

  /** A split in a token nobody listed goes through, where a plain stream in it is refused. */
  lemma SplitIsNotListed()
    ensures var s := Run(Fresh(), Opening("other", UnlistedSplit()));
      2 in s.streams && s.streams[2].token == "other" && "other" !in s.allowedTokens
    ensures Exec(SetUp("other"), CreateStream("sender", "recipient", "other", 100, 0, 10, 0)).Panic?
  {
    var ready, op := SetUp("other"), UnlistedSplit();
    AfterOpening("other", op);
    SplitGoesThrough();
    SplitShape(ready, op);
    WithChildrenAt(ready.streams, 2, "sender", "other", 0, 10, op.recipients, 2);
    PlainIsRefused();
  }
}
