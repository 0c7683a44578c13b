/**
 * DAO governance: proposals, token-weighted votes and their execution, as a state machine
 * over calls and ledger closes.
 */
module DaoModel {
  import opened Base

  const VOTING_PERIOD_SECONDS: U64 := 604800
  const QUORUM_BPS: int := 1000

  datatype Target = FeeBps(bps: U64) | Admin(admin: Address) | MinStreamDuration(seconds: U64)

  datatype Proposal = Proposal(
    target: Target, proposer: Address, createdAt: U64, votesFor: nat, votesAgainst: nat, executed: bool)

  datatype Params = Params(feeBps: U64, minStreamDuration: U64)

  datatype Event =
    | ProposalCreated(id: nat, votingEnd: U64)
    | VoteCast(id: nat, voter: Address, support: bool, weight: nat)
    | ProposalExecuted(id: nat, target: Target)

  /** `holdings` is what the token contracts answer to `balance`. */
  datatype State = State(
    now: U64, admin: Option<Address>, govToken: Option<Address>, totalSupply: Option<I128>, params: Option<Params>,
    activated: bool, nextProposalId: nat, proposals: map<nat, Proposal>, votes: map<nat, map<Address, bool>>,
    holdings: map<(Address, Address), nat>, events: seq<Event>)

  datatype Reply = Nothing | ProposalId(id: nat) | Ran(executed: bool)

  datatype Outcome = Panic | Done(state: State, reply: Reply)

  datatype Op =
    | InitializeDao(admin: Address, govToken: Address, totalSupply: I128, params: Params)
    | Activate(caller: Address)
    | SetDaoAdmin(caller: Address, newAdmin: Address)
    | CreateProposal(proposer: Address, target: Target)
    | Vote(voter: Address, proposalId: nat, support: bool)
    | Execute(proposalId: nat)
    | LedgerClose(timestamp: U64)
    | Hold(token: Address, holder: Address, balance: nat)   // token balances move as they like

  // ------------------------------------------------------------------
  // Decisions
  // ------------------------------------------------------------------

  function VotingEnd(p: Proposal): U64 {
    SatAdd(p.createdAt, VOTING_PERIOD_SECONDS)
  }

  function Clamped(x: int): I128 {
    if x > I128_MAX then I128_MAX else if x < -I128_MAX - 1 then -I128_MAX - 1 else x
  }

  /** `saturating_mul(QUORUM_BPS) / 10_000`, the division truncating towards zero. */
  function Quorum(totalSupply: I128): int {
    var scaled: int := Clamped(totalSupply * QUORUM_BPS);
    if scaled >= 0 then scaled / 10000 else -(-scaled / 10000)
  }

  datatype Verdict = QuorumMissed | Rejected | Passed

  function VerdictOf(p: Proposal, totalSupply: I128): Verdict {
    if Clamped(p.votesFor + p.votesAgainst) < Quorum(totalSupply) then QuorumMissed
    else if p.votesFor <= p.votesAgainst then Rejected
    else Passed
  }

  function Holding(s: State, token: Address, holder: Address): nat {
    if (token, holder) in s.holdings then s.holdings[(token, holder)] else 0
  }

  function VotesOn(s: State, id: nat): map<Address, bool> {
    if id in s.votes then s.votes[id] else map[]
  }

  function ChangedParams(params: Params, target: Target): Params {
    match target
    case FeeBps(bps) => params.(feeBps := bps)
    case MinStreamDuration(seconds) => params.(minStreamDuration := seconds)
    case Admin(_) => params
  }

  function ChangedAdmin(admin: Address, target: Target): Address {
    if target.Admin? then target.admin else admin
  }

  // ------------------------------------------------------------------
  // Calls
  // ------------------------------------------------------------------

  function ExecVote(s: State, voter: Address, id: nat, support: bool): Outcome {
    if !s.activated || id !in s.proposals then Panic
    else
      var p := s.proposals[id];
      if p.executed || s.now > VotingEnd(p) || voter in VotesOn(s, id) || s.govToken.None? then Panic
      else
        var weight := Holding(s, s.govToken.value, voter);
        var tally := if support then p.votesFor else p.votesAgainst;
        if tally + weight > I128_MAX then Panic
        else
          var q := if support then p.(votesFor := tally + weight) else p.(votesAgainst := tally + weight);
          Done(s.(proposals := s.proposals[id := q],
                  votes := s.votes[id := VotesOn(s, id)[voter := support]],
                  events := s.events + [VoteCast(id, voter, support, weight)]), Nothing)
  }

  /** Stores what the target asks for; none when the DAO was never initialized. */
  function Applied(s: State, target: Target): Option<State> {
    if target.Admin? then Some(s.(admin := Some(target.admin)))
    else if s.params.None? then None
    else Some(s.(params := Some(ChangedParams(s.params.value, target))))
  }

  function ExecExecute(s: State, id: nat): Outcome {
    if !s.activated || id !in s.proposals then Panic
    else
      var p := s.proposals[id];
      if p.executed then Done(s, Ran(false))
      else if s.now <= VotingEnd(p) || s.totalSupply.None? then Panic
      else
        match VerdictOf(p, s.totalSupply.value)
        case QuorumMissed => Panic
        case Rejected => Done(s, Ran(false))
        case Passed =>
          var applied := Applied(s, p.target);
          if applied.None? then Panic
          else
            var t := applied.value;
            Done(t.(proposals := t.proposals[id := p.(executed := true)],
                    events := t.events + [ProposalExecuted(id, p.target)]), Ran(true))
  }

  function ExecCreate(s: State, proposer: Address, target: Target): Outcome {
    if !s.activated then Panic
    else
      var id := s.nextProposalId + 1;
      var p := Proposal(target, proposer, s.now, 0, 0, false);
      Done(s.(nextProposalId := id, proposals := s.proposals[id := p],
              events := s.events + [ProposalCreated(id, VotingEnd(p))]), ProposalId(id))
  }

  function Exec(s: State, op: Op): Outcome {
    match op
    case InitializeDao(admin, govToken, totalSupply, params) =>
      if s.admin.Some? then Panic
      else Done(s.(admin := Some(admin), govToken := Some(govToken), totalSupply := Some(totalSupply),
                   params := Some(params), activated := false), Nothing)
    case Activate(caller) =>
      if s.admin != Some(caller) || s.activated then Panic else Done(s.(activated := true), Nothing)
    case SetDaoAdmin(caller, newAdmin) =>
      if s.admin != Some(caller) || s.activated then Panic else Done(s.(admin := Some(newAdmin)), Nothing)
    case CreateProposal(proposer, target) => ExecCreate(s, proposer, target)
    case Vote(voter, id, support) => ExecVote(s, voter, id, support)
    case Execute(id) => ExecExecute(s, id)
    case LedgerClose(timestamp) => if timestamp < s.now then Panic else Done(s.(now := timestamp), Nothing)
    case Hold(token, holder, balance) => Done(s.(holdings := s.holdings[(token, holder) := balance]), Nothing)
  }

  function After(s: State, o: Outcome): State {
    if o.Done? then o.state else s
  }

  function Step(s: State, op: Op): State {
    After(s, Exec(s, op))
  }

  function Run(s: State, ops: seq<Op>): State
    decreases |ops|
  {
    if ops == [] then s else Run(Step(s, ops[0]), ops[1..])
  }

  predicate Deployed(s: State) {
    && s.admin == None && s.govToken == None && s.totalSupply == None && s.params == None && !s.activated
    && s.nextProposalId == 0 && s.proposals == map[] && s.votes == map[] && s.events == []
  }
}
