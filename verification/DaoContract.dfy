/**
 * The DAO's entry points as they run, each proved to do what `DaoModel.Exec` says: which
 * calls panic, what they return, and that a call that panics changes nothing.
 */
module DaoContract {
  import opened Base
  import opened DaoModel

  datatype CallResult = Panicked | Returned(reply: Reply)

  function ResultOf(o: Outcome): CallResult {
    if o.Panic? then Panicked else Returned(o.reply)
  }

  class Contract {
    var now: U64
    var admin: Option<Address>
    var govToken: Option<Address>
    var totalSupply: Option<I128>
    var daoParams: Option<Params>
    var activated: bool
    var nextProposalId: nat
    var proposals: map<nat, Proposal>
    var votes: map<nat, map<Address, bool>>
    var holdings: map<(Address, Address), nat>
    var events: seq<Event>

    ghost function View(): State
      reads this
    {
      State(now, admin, govToken, totalSupply, daoParams, activated, nextProposalId, proposals, votes, holdings, events)
    }

    constructor (now: U64, holdings: map<(Address, Address), nat>)
      ensures Deployed(View()) && View().now == now && View().holdings == holdings
    {
      this.now, this.holdings := now, holdings;
      admin, govToken, totalSupply, daoParams, activated := None, None, None, None, false;
      nextProposalId, proposals, votes, events := 0, map[], map[], [];
    }

    method InitializeDao(admin: Address, govToken: Address, totalSupply: I128, feeBps: U64, minStreamDuration: U64)
      returns (r: CallResult)
      modifies this
      ensures var op := Op.InitializeDao(admin, govToken, totalSupply, Params(feeBps, minStreamDuration));
        View() == Step(old(View()), op) && r == ResultOf(Exec(old(View()), op))
    {
      if this.admin.Some? {
        return Panicked;
      }
      this.admin := Some(admin);
      this.govToken := Some(govToken);
      this.totalSupply := Some(totalSupply);
      daoParams := Some(Params(feeBps, minStreamDuration));
      activated := false;
      return Returned(Nothing);
    }

    method Activate(caller: Address) returns (r: CallResult)
      modifies this
      ensures View() == Step(old(View()), Op.Activate(caller)) && r == ResultOf(Exec(old(View()), Op.Activate(caller)))
    {
      if admin != Some(caller) || activated {
        return Panicked;
      }
      activated := true;
      return Returned(Nothing);
    }

    method SetDaoAdmin(caller: Address, newAdmin: Address) returns (r: CallResult)
      modifies this
      ensures View() == Step(old(View()), Op.SetDaoAdmin(caller, newAdmin))
      ensures r == ResultOf(Exec(old(View()), Op.SetDaoAdmin(caller, newAdmin)))
    {
      if admin != Some(caller) || activated {
        return Panicked;
      }
      admin := Some(newAdmin);
      return Returned(Nothing);
    }

    method CreateProposal(proposer: Address, target: Target) returns (r: CallResult)
      modifies this
      ensures View() == After(old(View()), ExecCreate(old(View()), proposer, target))
      ensures r == ResultOf(ExecCreate(old(View()), proposer, target))
    {
      if !activated {
        return Panicked;
      }
      var nextId := nextProposalId + 1;
      var proposal := Proposal(target, proposer, now, 0, 0, false);
      nextProposalId := nextId;
      proposals := proposals[nextId := proposal];
      events := events + [ProposalCreated(nextId, SatAdd(now, VOTING_PERIOD_SECONDS))];
      return Returned(ProposalId(nextId));
    }

    method Vote(voter: Address, proposalId: nat, support: bool) returns (r: CallResult)
      modifies this
      ensures View() == After(old(View()), ExecVote(old(View()), voter, proposalId, support))
      ensures r == ResultOf(ExecVote(old(View()), voter, proposalId, support))
    {
      if !activated || proposalId !in proposals {
        return Panicked;
      }
      var proposal := proposals[proposalId];
      if proposal.executed || now > SatAdd(proposal.createdAt, VOTING_PERIOD_SECONDS) {
        return Panicked;
      }
      var cast := if proposalId in votes then votes[proposalId] else map[];
      if voter in cast || govToken.None? {
        return Panicked;
      }
      var weight := if (govToken.value, voter) in holdings then holdings[(govToken.value, voter)] else 0;
      if support {
        if proposal.votesFor + weight > I128_MAX {
          return Panicked;
        }
        proposal := proposal.(votesFor := proposal.votesFor + weight);
      } else {
        if proposal.votesAgainst + weight > I128_MAX {
          return Panicked;
        }
        proposal := proposal.(votesAgainst := proposal.votesAgainst + weight);
      }
      votes := votes[proposalId := cast[voter := support]];
      proposals := proposals[proposalId := proposal];
      events := events + [VoteCast(proposalId, voter, support, weight)];
      return Returned(Nothing);
    }

    /** Stores what a passed proposal asks for. */
    method Apply(target: Target) returns (ok: bool)
      modifies this`admin, this`daoParams
      ensures ok == Applied(old(View()), target).Some?
      ensures ok ==> Applied(old(View()), target) == Some(View())
      ensures !ok ==> View() == old(View())
    {
      ok := true;
      match target
      case FeeBps(newFee) =>
        if daoParams.None? {
          return false;
        }
        daoParams := Some(daoParams.value.(feeBps := newFee));
      case MinStreamDuration(newMin) =>
        if daoParams.None? {
          return false;
        }
        daoParams := Some(daoParams.value.(minStreamDuration := newMin));
      case Admin(newAdmin) =>
        admin := Some(newAdmin);
    }

    method Execute(proposalId: nat) returns (r: CallResult)
      modifies this
      ensures View() == After(old(View()), ExecExecute(old(View()), proposalId))
      ensures r == ResultOf(ExecExecute(old(View()), proposalId))
    {
      if !activated || proposalId !in proposals {
        return Panicked;
      }
      var proposal := proposals[proposalId];
      if proposal.executed {
        return Returned(Ran(false));
      }
      if now <= SatAdd(proposal.createdAt, VOTING_PERIOD_SECONDS) || totalSupply.None? {
        return Panicked;
      }
      var quorum := Quorum(totalSupply.value);
      var totalVotes := Clamped(proposal.votesFor + proposal.votesAgainst);
      if totalVotes < quorum {
        return Panicked;
      }
      if proposal.votesFor <= proposal.votesAgainst {
        return Returned(Ran(false));
      }
      var ok := Apply(proposal.target);
      if !ok {
        return Panicked;
      }
      proposals := proposals[proposalId := proposal.(executed := true)];
      events := events + [ProposalExecuted(proposalId, proposal.target)];
      return Returned(Ran(true));
    }
  }
}
