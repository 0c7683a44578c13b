/**
 * Governance in one instance with the streaming contract. The two are built into one binary,
 * and both keep their admin in instance storage under a unit key named `Admin`, so deployed
 * as one instance they share that cell. Nothing else they store has a key in common.
 */
module DaoShared {
  import opened Base
  import opened DaoModel
  import opened DaoLaws

  /** A call on the instance: of the DAO, or of one of the two streaming entry points that write the cell. */
  datatype Call =
    | Governance(op: Op)
    | StreamInitialize(admin: Address)
    | StreamSetAdmin(caller: Address, newAdmin: Address)

  function SharedStep(s: State, call: Call): State {
    match call
    case Governance(op) => Step(s, op)
    case StreamInitialize(admin) => if s.admin.Some? then s else s.(admin := Some(admin))
    case StreamSetAdmin(caller, newAdmin) => if s.admin != Some(caller) then s else s.(admin := Some(newAdmin))
  }

  function SharedRun(s: State, calls: seq<Call>): State
    decreases |calls|
  {
    if calls == [] then s else SharedRun(SharedStep(s, calls[0]), calls[1..])
  }

  /** A `set_admin` that goes through and names somebody else. */
  predicate Overrides(s: State, call: Call) {
    call.StreamSetAdmin? && s.admin == Some(call.caller) && call.newAdmin != call.caller
  }

  ghost predicate NoneOverrides(s: State, calls: seq<Call>)
    decreases |calls|
  {
    calls == [] || (!Overrides(s, calls[0]) && NoneOverrides(SharedStep(s, calls[0]), calls[1..]))
  }

  /** The admin is what the executed targets made of `first`. */
  ghost predicate AdminGoverned(s: State, first: Address) {
    s.admin == Some(AdminAfter(first, s.events))
  }

  /** ... and so it is after every call of the run. */
  ghost predicate StaysGoverned(s: State, calls: seq<Call>, first: Address)
    decreases |calls|
  {
    AdminGoverned(s, first) && (calls == [] || StaysGoverned(SharedStep(s, calls[0]), calls[1..], first))
  }

  lemma SharedStepGoverned(s: State, call: Call, first: Address)
    requires s.activated && AdminGoverned(s, first)
    ensures var t := SharedStep(s, call);
      t.activated && (AdminGoverned(t, first) <==> !Overrides(s, call))
  {
    if call.Governance? {
      StepFoldsAdmin(s, call.op, first);
    }
  }

  /**
   * In a shared instance, from activation on, the admin stays the one the executed targets
   * prescribe if and only if the streaming contract's `set_admin` never hands the role on.
   */
  lemma {:induction false} GovernedIffNotOverridden(s: State, calls: seq<Call>, first: Address)
    requires s.activated && AdminGoverned(s, first)
    ensures StaysGoverned(s, calls, first) <==> NoneOverrides(s, calls)
    decreases |calls|
  {
    if calls != [] {
      var t := SharedStep(s, calls[0]);
      SharedStepGoverned(s, calls[0], first);
      if !Overrides(s, calls[0]) {
        GovernedIffNotOverridden(t, calls[1..], first);
      }
    }
  }

  /** The parameters are not affected: sharing or not, they are changed by executed targets alone. */
  lemma {:induction false} ParamsStayGoverned(s: State, calls: seq<Call>, first: Params)
    requires s.admin.Some? && s.params == Some(ParamsAfter(first, s.events))
    ensures var t := SharedRun(s, calls); t.params == Some(ParamsAfter(first, t.events))
    decreases |calls|
  {
    if calls != [] {
      if calls[0].Governance? {
        StepFoldsParams(s, calls[0].op, first);
      }
      ParamsStayGoverned(SharedStep(s, calls[0]), calls[1..], first);
    }
  }

  /** Somebody is admin, but the DAO was never set up. */
  ghost predicate Blocked(s: State) {
    && s.admin.Some? && s.govToken.None? && s.totalSupply.None? && s.params.None?
    && forall id | id in s.proposals :: !s.proposals[id].executed
  }

  lemma BlockedStays(s: State, call: Call)
    requires Blocked(s)
    ensures Blocked(SharedStep(s, call))
  {
    if call.Governance? {
      match call.op
      case Execute(id) => assert ExecExecute(s, id).Panic?;
      case Vote(voter, id, support) => assert ExecVote(s, voter, id, support).Panic?;
      case _ =>
    }
  }

  /**
   * Whoever initializes first decides: once the streaming contract has been initialized in an
   * instance whose DAO was not, setting up the DAO, voting and executing fail for ever.
   */
  lemma {:induction false} InitializeBlocksDao(s: State, calls: seq<Call>, op: Op)
    requires Blocked(s) && (op.InitializeDao? || op.Vote? || op.Execute?)
    ensures Exec(SharedRun(s, calls), op).Panic?
    decreases |calls|
  {
    if calls != [] {
      BlockedStays(s, calls[0]);
      InitializeBlocksDao(SharedStep(s, calls[0]), calls[1..], op);
    }
  }

  function Undeployed(): State {
    State(0, None, None, None, None, false, 0, map[], map[], map[], [])
  }

  /** Both happen: the role changes hands after activation with an empty log, and `initialize` alone blocks the DAO. */
  lemma SharingMatters()
    ensures Deployed(Undeployed())
    ensures Blocked(SharedStep(Undeployed(), StreamInitialize("admin")))
    ensures var s := Step(Step(Undeployed(), InitializeDao("admin", "token", 100, Params(5, 60))), Activate("admin"));
      && s.activated && AdminGoverned(s, "admin")
      && Overrides(s, StreamSetAdmin("admin", "other"))
      && SharedStep(s, StreamSetAdmin("admin", "other")).admin == Some("other")
  {
  }
}
