/**
 * What governance promises over whole runs: outcomes freeze when voting ends, a passed
 * proposal applies at most once, and tallies, parameters and admin can be read off the
 * event log.
 */
module DaoLaws {
  import opened Base
  import opened DaoModel

  // ------------------------------------------------------------------
  // Reading the log
  // ------------------------------------------------------------------

  /** Weight cast on `id` for one side. */
  function Tally(log: seq<Event>, id: nat, support: bool): nat {
    if log == [] then 0
    else
      var e := log[|log| - 1];
      Tally(log[..|log| - 1], id, support) + if e.VoteCast? && e.id == id && e.support == support then e.weight else 0
  }

  /** How many times `voter` voted on `id`. */
  function Ballots(log: seq<Event>, id: nat, voter: Address): nat {
    if log == [] then 0
    else
      var e := log[|log| - 1];
      Ballots(log[..|log| - 1], id, voter) + if e.VoteCast? && e.id == id && e.voter == voter then 1 else 0
  }

  function Executions(log: seq<Event>, id: nat): nat {
    if log == [] then 0
    else
      var e := log[|log| - 1];
      Executions(log[..|log| - 1], id) + if e.ProposalExecuted? && e.id == id then 1 else 0
  }

  /** The parameters after every executed target of the log, in order. */
  function ParamsAfter(first: Params, log: seq<Event>): Params {
    if log == [] then first
    else
      var e, before := log[|log| - 1], ParamsAfter(first, log[..|log| - 1]);
      if e.ProposalExecuted? then ChangedParams(before, e.target) else before
  }

  function AdminAfter(first: Address, log: seq<Event>): Address {
    if log == [] then first
    else
      var e, before := log[|log| - 1], AdminAfter(first, log[..|log| - 1]);
      if e.ProposalExecuted? then ChangedAdmin(before, e.target) else before
  }

  // ------------------------------------------------------------------
  // The invariant
  // ------------------------------------------------------------------

  ghost predicate SetUpTogether(s: State) {
    && (s.admin.Some? <==> s.govToken.Some?) && (s.admin.Some? <==> s.totalSupply.Some?)
    && (s.admin.Some? <==> s.params.Some?) && (s.activated ==> s.admin.Some?)
  }

  ghost predicate ProposalsSound(s: State) {
    && (forall id: nat :: id in s.proposals <==> 1 <= id <= s.nextProposalId)
    && (!s.activated ==> s.nextProposalId == 0 && s.events == [])
    && (forall id | id in s.proposals :: s.proposals[id].createdAt <= s.now)
    && (forall id | id in s.votes :: id in s.proposals)
  }

  /** Only a passed proposal whose window is over has been executed. */
  ghost predicate ExecutedRightly(s: State) {
    forall id | id in s.proposals && s.proposals[id].executed ::
      s.totalSupply.Some? && s.now > VotingEnd(s.proposals[id])
      && VerdictOf(s.proposals[id], s.totalSupply.value) == Passed
  }

  ghost predicate TalliesTold(s: State) {
    && (forall id | id in s.proposals ::
          s.proposals[id].votesFor == Tally(s.events, id, true)
          && s.proposals[id].votesAgainst == Tally(s.events, id, false))
    && (forall id: nat, support | id !in s.proposals :: Tally(s.events, id, support) == 0)
  }

  ghost predicate BallotsTold(s: State) {
    forall id: nat, voter :: Ballots(s.events, id, voter) == if voter in VotesOn(s, id) then 1 else 0
  }

  ghost predicate ExecutionsTold(s: State) {
    forall id: nat :: Executions(s.events, id) == if id in s.proposals && s.proposals[id].executed then 1 else 0
  }

  ghost predicate Shaped(s: State) {
    SetUpTogether(s) && ProposalsSound(s) && ExecutedRightly(s)
  }

  ghost predicate Sound(s: State) {
    Shaped(s) && TalliesTold(s) && BallotsTold(s) && ExecutionsTold(s)
  }

  lemma StepKeepsProposals(s: State, op: Op)
    requires Shaped(s)
    ensures SetUpTogether(Step(s, op)) && ProposalsSound(Step(s, op))
  {
  }

  lemma StepExecutesRightly(s: State, op: Op)
    requires Shaped(s)
    ensures ExecutedRightly(Step(s, op))
  {
  }

  /** A step adds nothing to the log, or one event that says what changed. */
  ghost predicate StepTells(s: State, t: State) {
    || (t.events == s.events && t.proposals == s.proposals && t.votes == s.votes)
    || (|t.events| == |s.events| + 1 && t.events[..|s.events|] == s.events
        && match t.events[|s.events|]
           case ProposalCreated(id, _) =>
             && id !in s.proposals && t.votes == s.votes
             && exists p: Proposal :: p.votesFor == 0 && p.votesAgainst == 0 && !p.executed
                                      && t.proposals == s.proposals[id := p]
           case VoteCast(id, voter, support, weight) =>
             && id in s.proposals && voter !in VotesOn(s, id)
             && t.votes == s.votes[id := VotesOn(s, id)[voter := support]]
             && var p := s.proposals[id];
             t.proposals == s.proposals[id := if support then p.(votesFor := p.votesFor + weight)
                                              else p.(votesAgainst := p.votesAgainst + weight)]
           case ProposalExecuted(id, target) =>
             && id in s.proposals && !s.proposals[id].executed && t.votes == s.votes
             && t.proposals == s.proposals[id := s.proposals[id].(executed := true)])
  }

  lemma StepsTell(s: State, op: Op)
    requires Shaped(s)
    ensures StepTells(s, Step(s, op))
  {
    if op.CreateProposal? && Exec(s, op).Done? {
      var p := Proposal(op.target, op.proposer, s.now, 0, 0, false);
      assert Step(s, op).proposals == s.proposals[s.nextProposalId + 1 := p];
    }
  }

  /** What the new event, if there is one, adds to a tally. */
  ghost function AddedWeight(s: State, t: State, id: nat, support: bool): nat
    requires StepTells(s, t)
  {
    if |t.events| == |s.events| then 0
    else
      var e := t.events[|s.events|];
      if e.VoteCast? && e.id == id && e.support == support then e.weight else 0
  }

  lemma StepKeepsTallies(s: State, t: State)
    requires TalliesTold(s) && StepTells(s, t)
    ensures TalliesTold(t)
  {
    forall id: nat, support ensures Tally(t.events, id, support) ==
      Tally(s.events, id, support) + AddedWeight(s, t, id, support)
    {
    }
  }

  lemma StepKeepsBallots(s: State, t: State)
    requires BallotsTold(s) && StepTells(s, t)
    ensures BallotsTold(t)
  {
  }

  lemma StepKeepsExecutions(s: State, t: State)
    requires ExecutionsTold(s) && StepTells(s, t)
    ensures ExecutionsTold(t)
  {
  }

  lemma StepKeepsSound(s: State, op: Op)
    requires Sound(s)
    ensures Sound(Step(s, op))
  {
    var t := Step(s, op);
    StepKeepsProposals(s, op);
    StepExecutesRightly(s, op);
    StepsTell(s, op);
    StepKeepsTallies(s, t);
    StepKeepsBallots(s, t);
    StepKeepsExecutions(s, t);
  }

  lemma {:induction false} RunKeepsSound(s: State, ops: seq<Op>)
    requires Sound(s)
    ensures Sound(Run(s, ops))
    decreases |ops|
  {
    if ops != [] {
      StepKeepsSound(s, ops[0]);
      RunKeepsSound(Step(s, ops[0]), ops[1..]);
    }
  }

  lemma DeployedIsSound(s: State)
    requires Deployed(s)
    ensures Sound(s)
  {
  }

  // ------------------------------------------------------------------
  // Outcomes
  // ------------------------------------------------------------------

  /** The window of `q` is over and nothing about `p` but the executed flag has changed since. */
  ghost predicate SameOutcome(p: Proposal, q: Proposal) {
    q == p.(executed := q.executed) && (p.executed ==> q.executed)
  }

  lemma StepFreezes(s: State, op: Op, id: nat)
    requires Sound(s) && id in s.proposals && s.now > VotingEnd(s.proposals[id])
    ensures var t := Step(s, op);
      id in t.proposals && SameOutcome(s.proposals[id], t.proposals[id])
      && t.totalSupply == s.totalSupply && s.now <= t.now
  {
  }

  /**
   * Once a proposal's window is over no later call, whatever it is, changes its tallies,
   * its target or its verdict; it can only become executed.
   */
  lemma {:induction false} OutcomesFreeze(s: State, ops: seq<Op>, id: nat)
    requires Sound(s) && id in s.proposals && s.now > VotingEnd(s.proposals[id])
    ensures var t := Run(s, ops);
      && id in t.proposals && SameOutcome(s.proposals[id], t.proposals[id])
      && t.totalSupply == s.totalSupply && s.totalSupply.Some?
      && VerdictOf(t.proposals[id], t.totalSupply.value) == VerdictOf(s.proposals[id], s.totalSupply.value)
    decreases |ops|
  {
    if ops != [] {
      StepFreezes(s, ops[0], id);
      StepKeepsSound(s, ops[0]);
      OutcomesFreeze(Step(s, ops[0]), ops[1..], id);
    }
  }

  /**
   * No vote lands once execution was possible: after a call of `execute` that did not fail,
   * whatever it returned, every later vote on that proposal fails.
   */
  lemma ExecutionEndsVoting(before: State, ops: seq<Op>, id: nat, later: seq<Op>, voter: Address, support: bool)
    requires Deployed(before) && ExecExecute(Run(before, ops), id).Done?
    ensures ExecVote(Run(Step(Run(before, ops), Execute(id)), later), voter, id, support).Panic?
  {
    var s := Run(before, ops);
    var t := Step(s, Execute(id));
    DeployedIsSound(before);
    RunKeepsSound(before, ops);
    StepKeepsSound(s, Execute(id));
    OutcomesFreeze(t, later, id);
    RunKeepsClock(t, later);
  }

  /**
   * What `execute` can ever achieve is settled when the window closes: a proposal that has
   * not passed by then is never executed, and one that has is executed by the first later
   * call that asks for it, at most once.
   */
  lemma VerdictDecides(before: State, ops: seq<Op>, later: seq<Op>, id: nat)
    requires Deployed(before)
    requires var s := Run(before, ops);
             id in s.proposals && s.now > VotingEnd(s.proposals[id])
    ensures var s, t := Run(before, ops), Run(Run(before, ops), later);
      && s.totalSupply.Some?
      && var passed := VerdictOf(s.proposals[id], s.totalSupply.value) == Passed;
      && Executions(t.events, id) <= 1
      && (!passed ==> Executions(t.events, id) == 0 && Step(t, Execute(id)) == t)
      && (passed ==> Executions(Step(t, Execute(id)).events, id) == 1)
  {
    var s := Run(before, ops);
    DeployedIsSound(before);
    RunKeepsSound(before, ops);
    RunKeepsSound(s, later);
    OutcomesFreeze(s, later, id);
    var t := Run(s, later);
    StepKeepsSound(t, Execute(id));
    assert t.activated && t.params.Some? && t.now > VotingEnd(t.proposals[id]) by {
      RunKeepsClock(s, later);
    }
  }

  lemma {:induction false} RunKeepsClock(s: State, ops: seq<Op>)
    ensures s.now <= Run(s, ops).now
    decreases |ops|
  {
    if ops != [] {
      RunKeepsClock(Step(s, ops[0]), ops[1..]);
    }
  }

  /** Tallies are the weights of the log's votes, one vote for each account and proposal. */
  lemma TalliesAreDistinctVotes(before: State, ops: seq<Op>, id: nat, voter: Address)
    requires Deployed(before) && id in Run(before, ops).proposals
    ensures var s := Run(before, ops);
      && s.proposals[id].votesFor == Tally(s.events, id, true)
      && s.proposals[id].votesAgainst == Tally(s.events, id, false)
      && Ballots(s.events, id, voter) == if voter in VotesOn(s, id) then 1 else 0
  {
    DeployedIsSound(before);
    RunKeepsSound(before, ops);
  }

  // ------------------------------------------------------------------
  // What a vote weighs
  // ------------------------------------------------------------------

  /** What a call, made in state `s`, casts on one side of a proposal: the caller's tokens at that moment. */
  function Cast(s: State, op: Op, id: nat, support: bool): nat {
    if op.Vote? && op.proposalId == id && op.support == support && Exec(s, op).Done? && s.govToken.Some?
    then Holding(s, s.govToken.value, op.voter) else 0
  }

  /** The weights at voting time of all votes of a run, each read off the balances of that moment. */
  function WeightAtVoting(s: State, ops: seq<Op>, id: nat, support: bool): nat
    decreases |ops|
  {
    if ops == [] then 0 else Cast(s, ops[0], id, support) + WeightAtVoting(Step(s, ops[0]), ops[1..], id, support)
  }

  function TallyOf(s: State, id: nat, support: bool): nat {
    if id !in s.proposals then 0
    else if support then s.proposals[id].votesFor else s.proposals[id].votesAgainst
  }

  lemma StepCasts(s: State, op: Op, id: nat, support: bool)
    requires ProposalsSound(s)
    ensures TallyOf(Step(s, op), id, support) == TallyOf(s, id, support) + Cast(s, op, id, support)
  {
    match op
    case Vote(_, _, _) =>
    case Execute(_) =>
    case CreateProposal(_, _) =>
    case _ =>
  }

  lemma {:induction false} RunCasts(s: State, ops: seq<Op>, id: nat, support: bool)
    requires Sound(s)
    ensures TallyOf(Run(s, ops), id, support) == TallyOf(s, id, support) + WeightAtVoting(s, ops, id, support)
    decreases |ops|
  {
    if ops != [] {
      StepCasts(s, ops[0], id, support);
      StepKeepsSound(s, ops[0]);
      RunCasts(Step(s, ops[0]), ops[1..], id, support);
    }
  }

  /**
   * Tallies weigh holdings: however tokens move in the meantime, a proposal's two tallies are
   * the sums of what each of its voters held at the moment of voting.
   */
  lemma TalliesWeighHoldings(before: State, ops: seq<Op>, id: nat)
    requires Deployed(before) && id in Run(before, ops).proposals
    ensures var p := Run(before, ops).proposals[id];
      && p.votesFor == WeightAtVoting(before, ops, id, true)
      && p.votesAgainst == WeightAtVoting(before, ops, id, false)
  {
    DeployedIsSound(before);
    RunCasts(before, ops, id, true);
    RunCasts(before, ops, id, false);
  }

  /** `e` records the call `op`, made in state `s`, with the weight the voter held then. */
  ghost predicate Records(e: Event, s: State, op: Op) {
    && e.VoteCast? && op == Vote(e.voter, e.id, e.support)
    && s.govToken.Some? && e.weight == Holding(s, s.govToken.value, e.voter)
  }

  lemma StepRecords(s: State, op: Op, k: nat)
    requires |s.events| <= k < |Step(s, op).events| && Step(s, op).events[k].VoteCast?
    ensures Records(Step(s, op).events[k], s, op)
  {
    match op
    case Vote(_, _, _) =>
    case Execute(_) =>
    case CreateProposal(_, _) =>
    case _ =>
  }

  lemma {:induction false} RunSplitsLast(s: State, ops: seq<Op>)
    requires ops != []
    ensures Run(s, ops) == Step(Run(s, ops[..|ops| - 1]), ops[|ops| - 1])
    decreases |ops|
  {
    if |ops| == 1 {
      assert ops[1..] == [] && ops[..0] == [];
    } else {
      RunSplitsLast(Step(s, ops[0]), ops[1..]);
      assert ops[1..][..|ops| - 2] == ops[..|ops| - 1][1..];
    }
  }

  /**
   * Every vote of the log is a call somebody made, and weighs what that voter's balance was
   * just before it.
   */
  lemma {:induction false} VotesWeighHoldings(before: State, ops: seq<Op>, k: nat) returns (i: nat)
    requires Deployed(before) && k < |Run(before, ops).events| && Run(before, ops).events[k].VoteCast?
    ensures i < |ops| && Records(Run(before, ops).events[k], Run(before, ops[..i]), ops[i])
    decreases |ops|
  {
    var init, last := ops[..|ops| - 1], ops[|ops| - 1];
    var s := Run(before, init);
    RunSplitsLast(before, ops);
    DeployedIsSound(before);
    RunKeepsSound(before, init);
    StepsTell(s, last);
    if k < |s.events| {
      assert Step(s, last).events[..|s.events|] == s.events;
      i := VotesWeighHoldings(before, init, k);
      assert init[..i] == ops[..i];
    } else {
      i := |ops| - 1;
      StepRecords(s, last, k);
    }
  }

  // ------------------------------------------------------------------
  // Parameters and admin as folds
  // ------------------------------------------------------------------

  /** The parameters and the admin of `t` are those of `s`, changed as the one new event says. */
  ghost predicate ToldByEvent(s: State, t: State) {
    && |t.events| == |s.events| + 1 && t.events[..|s.events|] == s.events
    && var e := t.events[|s.events|];
    if e.ProposalExecuted? then
      && t.params == (if s.params.Some? then Some(ChangedParams(s.params.value, e.target)) else None)
      && t.admin == (if e.target.Admin? then Some(e.target.admin) else s.admin)
    else t.params == s.params && t.admin == s.admin
  }

  /** After set-up only an execution changes parameters; after activation only an execution changes the admin. */
  lemma StepIsTold(s: State, op: Op)
    requires s.admin.Some?
    ensures var t := Step(s, op);
      && t.admin.Some? && (s.activated ==> t.activated)
      && ((t.events == s.events && t.params == s.params && (s.activated ==> t.admin == s.admin)) || ToldByEvent(s, t))
  {
    match op
    case Execute(id) => assert Exec(s, op) == ExecExecute(s, id);
    case Vote(voter, id, support) => assert Exec(s, op) == ExecVote(s, voter, id, support);
    case CreateProposal(proposer, target) => assert Exec(s, op) == ExecCreate(s, proposer, target);
    case _ =>
  }

  lemma StepFoldsParams(s: State, op: Op, first: Params)
    requires s.admin.Some? && s.params == Some(ParamsAfter(first, s.events))
    ensures var t := Step(s, op);
      t.admin.Some? && t.params == Some(ParamsAfter(first, t.events))
  {
    StepIsTold(s, op);
  }

  lemma {:induction false} RunFoldsParams(s: State, ops: seq<Op>, first: Params)
    requires s.admin.Some? && s.params == Some(ParamsAfter(first, s.events))
    ensures var t := Run(s, ops);
      t.params == Some(ParamsAfter(first, t.events))
    decreases |ops|
  {
    if ops != [] {
      StepFoldsParams(s, ops[0], first);
      RunFoldsParams(Step(s, ops[0]), ops[1..], first);
    }
  }

  lemma StepFoldsAdmin(s: State, op: Op, first: Address)
    requires s.activated && s.admin == Some(AdminAfter(first, s.events))
    ensures var t := Step(s, op);
      t.activated && t.admin == Some(AdminAfter(first, t.events))
  {
    StepIsTold(s, op);
  }

  lemma {:induction false} RunFoldsAdmin(s: State, ops: seq<Op>, first: Address)
    requires s.activated && s.admin == Some(AdminAfter(first, s.events))
    ensures var t := Run(s, ops);
      t.admin == Some(AdminAfter(first, t.events))
    decreases |ops|
  {
    if ops != [] {
      StepFoldsAdmin(s, ops[0], first);
      RunFoldsAdmin(Step(s, ops[0]), ops[1..], first);
    }
  }

  /**
   * From initialization on the parameters, and from activation on the admin, are the
   * initial ones changed by the executed targets of the log in order, and by nothing else.
   */
  lemma GovernedByExecutedTargets(before: State, ops: seq<Op>, init: Op, setup: seq<Op>, activate: Op, later: seq<Op>)
    requires Deployed(before) && init.InitializeDao? && Run(before, ops).admin.None?
    requires activate.Activate? && Exec(Run(Step(Run(before, ops), init), setup), activate).Done?
    ensures var atActivation := Run(Step(Run(before, ops), init), setup);
      var s := Run(Step(atActivation, activate), later);
      && s.params == Some(ParamsAfter(init.params, s.events))
      && s.admin == Some(AdminAfter(activate.caller, s.events))
  {
    DeployedIsSound(before);
    RunKeepsSound(before, ops);
    var initialized := Step(Run(before, ops), init);
    RunKeepsSound(initialized, setup);
    RunFoldsParams(initialized, setup, init.params);
    var atActivation := Run(initialized, setup);
    RunFoldsParams(Step(atActivation, activate), later, init.params);
    RunFoldsAdmin(Step(atActivation, activate), later, activate.caller);
  }

  // ------------------------------------------------------------------
  // The quorum
  // ------------------------------------------------------------------

  /**
   * The quorum is a tenth of the supply rounded down, so up to nine units short of a tenth
   * still meet it; past the multiplication's saturation it stays at a fixed figure, below a tenth.
   */
  lemma QuorumRoundsDown(totalSupply: I128, votes: int)
    ensures 0 <= totalSupply && totalSupply * QUORUM_BPS <= I128_MAX ==>
      (votes >= Quorum(totalSupply) <==> 10 * votes + 9 >= totalSupply)
    ensures totalSupply * QUORUM_BPS > I128_MAX ==>
              Quorum(totalSupply) == I128_MAX / 10000 && 10 * Quorum(totalSupply) < totalSupply
    ensures totalSupply <= 0 && votes >= 0 ==> votes >= Quorum(totalSupply)
  {
  }
}
