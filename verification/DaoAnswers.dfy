/**
 * What the DAO's calls answer, in plain figures: exactly when a vote counts, exactly which
 * proposals pass, and what an execution changes.
 */
module DaoAnswers {
  import opened Base
  import opened DaoModel
  import opened DaoLaws

  // ------------------------------------------------------------------
  // Setting up, proposing, voting
  // ------------------------------------------------------------------

  /** Setting up works once; activation and handing over the role need the admin, before activation. */
  lemma SetUpAnswers(s: State, op: Op)
    requires op.InitializeDao? || op.Activate? || op.SetDaoAdmin?
    ensures var o := Exec(s, op);
      match op
      case InitializeDao(admin, govToken, supply, params) =>
        && (o.Done? <==> s.admin.None?)
        && (o.Done? ==> o.state == s.(admin := Some(admin), govToken := Some(govToken), totalSupply := Some(supply),
                                      params := Some(params), activated := false))
      case Activate(caller) =>
        && (o.Done? <==> s.admin == Some(caller) && !s.activated)
        && (o.Done? ==> o.state == s.(activated := true))
      case SetDaoAdmin(caller, newAdmin) =>
        && (o.Done? <==> s.admin == Some(caller) && !s.activated)
        && (o.Done? ==> o.state == s.(admin := Some(newAdmin)))
  {
  }

  /** Anyone proposes once the DAO is active: the next number names target, proposer and time, with no votes yet. */
  lemma ProposalAnswers(s: State, proposer: Address, target: Target)
    ensures var o := Exec(s, CreateProposal(proposer, target));
      && (o.Done? <==> s.activated)
      && (o.Done? ==>
            && var t, id := o.state, s.nextProposalId + 1;
            && o.reply == ProposalId(id) && id in t.proposals
            && t == s.(nextProposalId := id, proposals := s.proposals[id := t.proposals[id]], events := t.events)
            && var p := t.proposals[id];
            && p.target == target && p.proposer == proposer && p.createdAt == s.now
            && p.votesFor == 0 && p.votesAgainst == 0 && !p.executed
            && t.events == s.events + [ProposalCreated(id, Min(U64_MAX, s.now + 604800))])
  {
    assert Exec(s, CreateProposal(proposer, target)) == ExecCreate(s, proposer, target);
  }

  /** What the governance token's contract answers for an account. */
  function Held(s: State, holder: Address): nat
    requires s.govToken.Some?
  {
    if (s.govToken.value, holder) in s.holdings then s.holdings[(s.govToken.value, holder)] else 0
  }

  /**
   * A vote counts exactly when the DAO is active, the proposal is there and not executed, no
   * more than a week old, the voter has not voted on it, and the tally has room; it then adds
   * what the voter holds to the side chosen, and to nothing else.
   */
  lemma VoteAnswers(s: State, voter: Address, id: nat, support: bool)
    ensures var o := Exec(s, Vote(voter, id, support));
      && (o.Done? <==>
            && s.activated && s.govToken.Some? && id in s.proposals
            && var p := s.proposals[id];
            && !p.executed && s.now <= p.createdAt + 604800
            && !(id in s.votes && voter in s.votes[id])
            && (if support then p.votesFor else p.votesAgainst) + Held(s, voter) <= I128_MAX)
      && (o.Done? ==>
            && var p, held := s.proposals[id], Held(s, voter);
            && o.state.proposals == s.proposals[id := Proposal(p.target, p.proposer, p.createdAt,
                 p.votesFor + (if support then held else 0), p.votesAgainst + (if support then 0 else held), false)]
            && id in o.state.votes && voter in o.state.votes[id] && o.state.votes[id][voter] == support
            && o.state == s.(proposals := o.state.proposals, votes := s.votes[id := o.state.votes[id]],
                             events := s.events + [VoteCast(id, voter, support, held)]))
  {
    assert Exec(s, Vote(voter, id, support)) == ExecVote(s, voter, id, support);
  }

  // ------------------------------------------------------------------
  // Proposals are what was proposed
  // ------------------------------------------------------------------

  /** What every later state still says of a proposal. */
  ghost predicate SameProposal(p: Proposal, q: Proposal) {
    q.target == p.target && q.proposer == p.proposer && q.createdAt == p.createdAt
  }

  lemma StepKeepsProposal(s: State, op: Op, id: nat)
    requires ProposalsSound(s) && id in s.proposals
    ensures id in Step(s, op).proposals && SameProposal(s.proposals[id], Step(s, op).proposals[id])
  {
    match op
    case Vote(voter, i, support) => VoteAnswers(s, voter, i, support);
    case CreateProposal(proposer, target) => ProposalAnswers(s, proposer, target);
    case Execute(i) => assert Exec(s, op) == ExecExecute(s, i);
    case _ => SetUpOrOutside(s, op);
  }

  lemma SetUpOrOutside(s: State, op: Op)
    requires !op.Vote? && !op.CreateProposal? && !op.Execute?
    ensures Step(s, op).proposals == s.proposals && Step(s, op).events == s.events
  {
    if op.InitializeDao? || op.Activate? || op.SetDaoAdmin? {
      SetUpAnswers(s, op);
    }
  }

  lemma NewProposal(s: State, op: Op, id: nat)
    requires ProposalsSound(s) && id !in s.proposals && id in Step(s, op).proposals
    ensures op.CreateProposal? && Exec(s, op).Done? && id == s.nextProposalId + 1
  {
    match op
    case Vote(voter, i, support) => VoteAnswers(s, voter, i, support);
    case CreateProposal(proposer, target) => ProposalAnswers(s, proposer, target);
    case Execute(_) =>
    case _ => SetUpOrOutside(s, op);
  }

  /**
   * Over every run a proposal is what somebody proposed: `i` is the call that made it, with
   * the target, the proposer and the time the record still has.
   */
  lemma {:induction false} ProposalsAreAsProposed(before: State, ops: seq<Op>, id: nat) returns (i: nat)
    requires Deployed(before) && id in Run(before, ops).proposals
    ensures var p := Run(before, ops).proposals[id];
      && i < |ops| && ops[i] == CreateProposal(p.proposer, p.target)
      && var s := Run(before, ops[..i]);
      && Exec(s, ops[i]).Done? && Exec(s, ops[i]).reply == ProposalId(id) && s.now == p.createdAt
    decreases |ops|
  {
    assert ops != [];
    var init, last := ops[..|ops| - 1], ops[|ops| - 1];
    var s := Run(before, init);
    RunSplitsLast(before, ops);
    DeployedIsSound(before);
    RunKeepsSound(before, init);
    if id in s.proposals {
      StepKeepsProposal(s, last, id);
      i := ProposalsAreAsProposed(before, init, id);
      assert init[..i] == ops[..i];
    } else {
      NewProposal(s, last, id);
      ProposalAnswers(s, last.proposer, last.target);
      i := |ops| - 1;
    }
  }

  // ------------------------------------------------------------------
  // Which proposals pass
  // ------------------------------------------------------------------

  /**
   * Enough votes: a tenth of the supply, the last nine units forgiven; or, where a thousand
   * times the supply does not fit in 128 bits, a fixed number.
   */
  predicate EnoughVotes(supply: int, votes: int) {
    if supply * 1000 > I128_MAX then votes >= I128_MAX / 10000 else 10 * votes + 9 >= supply
  }

  lemma EnoughIsQuorum(supply: I128, votes: nat)
    ensures EnoughVotes(supply, votes) <==> Clamped(votes) >= Quorum(supply)
  {
    QuorumRoundsDown(supply, Clamped(votes));
  }

  /**
   * The majority decides, and only with enough votes: over every run, a proposal not executed
   * whose week is over is executed when asked if and only if what its supporters held when
   * they voted is more than what its opponents held and both together are enough. With enough
   * votes but no majority the answer is no, and nothing changes; without enough the call fails.
   */
  lemma {:induction false} MajorityDecides(before: State, ops: seq<Op>, id: nat)
    requires Deployed(before) && id in Run(before, ops).proposals
    requires !Run(before, ops).proposals[id].executed
    requires Run(before, ops).now > Run(before, ops).proposals[id].createdAt + 604800
    ensures var s, o := Run(before, ops), Exec(Run(before, ops), Execute(id));
      var pro, contra := WeightAtVoting(before, ops, id, true), WeightAtVoting(before, ops, id, false);
      && s.totalSupply.Some?
      && var enough := EnoughVotes(s.totalSupply.value, pro + contra);
      && (o.Done? && o.reply == Ran(true) <==> pro > contra && enough)
      && (o.Done? && o.reply == Ran(false) <==> pro <= contra && enough)
      && (o.Panic? <==> !enough)
      && (pro <= contra ==> Step(s, Execute(id)) == s)
  {
    var s := Run(before, ops);
    DeployedIsSound(before);
    RunKeepsSound(before, ops);
    TalliesWeighHoldings(before, ops, id);
    var p := s.proposals[id];
    EnoughIsQuorum(s.totalSupply.value, p.votesFor + p.votesAgainst);
    assert Exec(s, Execute(id)) == ExecExecute(s, id);
  }

  /** Before the week is over a proposal cannot be executed; once executed, asking again answers no. */
  lemma {:induction false} ExecutionWaits(before: State, ops: seq<Op>, id: nat)
    requires Deployed(before) && id in Run(before, ops).proposals
    ensures var s := Run(before, ops);
      var p := s.proposals[id];
      && (!p.executed && s.now <= p.createdAt + 604800 ==> Exec(s, Execute(id)).Panic?)
      && (p.executed ==> Exec(s, Execute(id)) == Done(s, Ran(false)))
  {
    DeployedIsSound(before);
    RunKeepsSound(before, ops);
    assert Exec(Run(before, ops), Execute(id)) == ExecExecute(Run(before, ops), id);
  }

  // ------------------------------------------------------------------
  // What an execution changes
  // ------------------------------------------------------------------

  /** The fee the log last executed, or the one at first. */
  function LastFee(first: int, log: seq<Event>): int {
    if log == [] then first
    else
      match log[|log| - 1]
      case ProposalExecuted(_, FeeBps(bps)) => bps
      case _ => LastFee(first, log[..|log| - 1])
  }

  function LastMinDuration(first: int, log: seq<Event>): int {
    if log == [] then first
    else
      match log[|log| - 1]
      case ProposalExecuted(_, MinStreamDuration(seconds)) => seconds
      case _ => LastMinDuration(first, log[..|log| - 1])
  }

  function LastAdmin(first: Address, log: seq<Event>): Address {
    if log == [] then first
    else
      match log[|log| - 1]
      case ProposalExecuted(_, Admin(admin)) => admin
      case _ => LastAdmin(first, log[..|log| - 1])
  }

  lemma {:induction false} FoldsAreLast(first: Params, admin: Address, log: seq<Event>)
    ensures ParamsAfter(first, log).feeBps == LastFee(first.feeBps, log)
    ensures ParamsAfter(first, log).minStreamDuration == LastMinDuration(first.minStreamDuration, log)
    ensures AdminAfter(admin, log) == LastAdmin(admin, log)
    decreases |log|
  {
    if log != [] {
      FoldsAreLast(first, admin, log[..|log| - 1]);
    }
  }

  /**
   * Each setting is the one last voted in: after activation the fee, the minimum duration and
   * the admin are each what the last executed proposal about it asked for, or as set up.
   */
  lemma {:induction false} SettingsAreLastVotedIn(
    before: State, ops: seq<Op>, init: Op, setup: seq<Op>, activate: Op, later: seq<Op>)
    requires Deployed(before) && init.InitializeDao? && Run(before, ops).admin.None?
    requires activate.Activate? && Exec(Run(Step(Run(before, ops), init), setup), activate).Done?
    ensures var s := Run(Step(Run(Step(Run(before, ops), init), setup), activate), later);
      && s.params.Some? && s.admin.Some?
      && s.params.value.feeBps == LastFee(init.params.feeBps, s.events)
      && s.params.value.minStreamDuration == LastMinDuration(init.params.minStreamDuration, s.events)
      && s.admin.value == LastAdmin(activate.caller, s.events)
  {
    GovernedByExecutedTargets(before, ops, init, setup, activate, later);
    var s := Run(Step(Run(Step(Run(before, ops), init), setup), activate), later);
    FoldsAreLast(init.params, activate.caller, s.events);
  }

  /** The one event of an execution names the proposal and what was proposed. */
  lemma ExecutionIsLogged(s: State, id: nat)
    requires Exec(s, Execute(id)).Done? && Exec(s, Execute(id)).reply == Ran(true)
    ensures id in s.proposals
    ensures Step(s, Execute(id)).events == s.events + [ProposalExecuted(id, s.proposals[id].target)]
    ensures var t := Step(s, Execute(id)); id in t.proposals && t.proposals[id].executed
  {
    assert Exec(s, Execute(id)) == ExecExecute(s, id);
  }
}
