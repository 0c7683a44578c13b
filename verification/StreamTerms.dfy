/**
 * Whom a stream pays, whose it is, and what was deposited, over whole runs: what the record
 * says is what was agreed on when the stream was created or last handed on.
 */
module StreamTerms {
  import opened Base
  import opened Vesting
  import opened VestingLaws
  import opened StreamState
  import opened StreamRuns
  import opened StreamIds
  import opened Solvency
  import opened StreamHistory
  import opened StreamAnswers

  // ------------------------------------------------------------------
  // What the calls of a run agree on
  // ------------------------------------------------------------------

  /** The terms of stream `id`, if the call, made in state `s`, creates it. */
  function NewTerms(s: State, op: Op, id: nat): Option<Terms> {
    if !Exec(s, op).Done? then None
    else if op.CreateSplitStream? then
      if s.nextStreamId + 2 <= id < s.nextStreamId + 2 + |op.recipients|
      then Some(ChildTerms(op, id - s.nextStreamId - 2)) else None
    else if id == s.nextStreamId + 1 then SingleTerms(s, op)
    else None
  }

  /** The terms after the call: new ones, or those so far with a new recipient if the stream was handed on. */
  function Agreed(s: State, op: Op, id: nat, terms: Option<Terms>): Option<Terms> {
    if NewTerms(s, op, id).Some? then NewTerms(s, op, id)
    else if terms.Some? && op.TransferStream? && op.id == id && Exec(s, op).Done?
    then Some(terms.value.(recipient := op.newRecipient))
    else terms
  }

  function TermsAfter(s: State, ops: seq<Op>, id: nat, terms: Option<Terms>): Option<Terms>
    decreases |ops|
  {
    if ops == [] then terms
    else TermsAfter(Step(s, ops[0]), ops[1..], id, Agreed(s, ops[0], id, terms))
  }

  /** The record and the log agree with the terms; a number that names no stream has none. */
  ghost predicate Kept(s: State, id: nat, terms: Option<Terms>) {
    if id !in s.streams then terms.None?
    else
      && terms.Some?
      && var stream, a := s.streams[id], terms.value;
      && stream.sender == a.sender && stream.recipient == a.recipient && stream.token == a.token
      && stream.cliffSeconds == a.cliff && stream.minClaimInterval == a.minInterval
      && Announced(s.events, id, a)
  }

  /** The stream's creation event says what was agreed. */
  ghost predicate Announced(events: seq<Event>, id: nat, a: Terms) {
    && Creation(events, id).Some?
    && var e := Creation(events, id).value;
    && e.StreamCreated? && e.total == a.total && e.startTime == a.startTime && e.endTime == a.endTime
    && e.cliff == a.cliff
  }

  lemma StillAnnounced(events: seq<Event>, more: seq<Event>, id: nat, a: Terms)
    requires Announced(events, id, a)
    ensures Announced(events + more, id, a)
  {
    CreationConcat(events, more, id);
  }

  lemma PlanKeepsTerms(stream: Stream, op: Op, admin: Option<Address>, now: U64)
    requires EditsOne(op) && PlanFor(stream, op, admin, now).Replace?
    ensures var after := PlanFor(stream, op, admin, now).after;
      && after.recipient == (if op.TransferStream? then op.newRecipient else stream.recipient)
      && after.sender == stream.sender && after.token == stream.token
      && after.cliffSeconds == stream.cliffSeconds && after.minClaimInterval == stream.minClaimInterval
  {
  }

  lemma EditKeepsTerms(s: State, op: Op, id: nat, terms: Option<Terms>)
    requires EditsOne(op) && Kept(s, id, terms)
    ensures Kept(Step(s, op), id, Agreed(s, op, id, terms))
  {
    assert NewTerms(s, op, id).None?;
    if op.TransferStream? {
      TransferAnswers(s, op.id, op.newRecipient);
    }
    if Step(s, op) != s {
      EditShape(s, op);
      var plan := PlanFor(s.streams[op.id], op, s.admin, s.now);
      PlanKeepsTerms(s.streams[op.id], op, s.admin, s.now);
      if id in s.streams {
        StillAnnounced(s.events, plan.events, id, terms.value);
      }
    }
  }

  lemma CreateKeepsTerms(s: State, op: Op, id: nat, terms: Option<Terms>)
    requires IdsSound(s) && Kept(s, id, terms) && (op.CreateStream? || op.CreateStreamFromTemplate?)
    requires id !in s.streams ==> Unmentioned(s.events, id)
    ensures Kept(Step(s, op), id, Agreed(s, op, id, terms))
  {
    if Exec(s, op).Done? {
      CreateShape(s, op);
      CreateAnswers(s, op);
      var t := Step(s, op);
      var e := t.events[|s.events|];
      assert t.events == s.events + [e];
      if id == s.nextStreamId + 1 {
        FirstMention(s.events, e, id);
      } else if id in s.streams {
        StillAnnounced(s.events, [e], id, terms.value);
      }
    }
  }

  lemma SplitKeepsTerms(s: State, op: Op, id: nat, terms: Option<Terms>)
    requires IdsSound(s) && Kept(s, id, terms) && op.CreateSplitStream?
    requires id !in s.streams ==> Unmentioned(s.events, id)
    ensures Kept(Step(s, op), id, Agreed(s, op, id, terms))
  {
    if Exec(s, op).Done? {
      var first := s.nextStreamId + 2;
      SplitShape(s, op);
      WithChildrenAt(s.streams, first, op.sender, op.token, op.startTime, op.endTime, op.recipients, id);
      ChildEventsAt(first, op.startTime, op.endTime, op.recipients, id);
      var events := ChildEvents(first, op.startTime, op.endTime, op.recipients);
      CreationConcat(s.events, events, id);
      if first <= id < first + |op.recipients| {
        ChildrenAsAgreed(s, op, id - first);
      } else if id in s.streams {
        StillAnnounced(s.events, events, id, terms.value);
      }
    }
  }

  lemma OtherKeepsTerms(s: State, op: Op, id: nat, terms: Option<Terms>)
    requires Kept(s, id, terms) && !EditsOne(op) && !Creates(op) && TemplatesSound(s)
    ensures Kept(Step(s, op), id, Agreed(s, op, id, terms))
  {
    assert NewTerms(s, op, id).None?;
    if AdminOnly(op) {
      AdminShape(s, op);
    } else {
      OtherShape(s, op);
      if op.CreateTemplate? {
        TemplateKeepsTemplates(s, op);
        if Step(s, op).events != s.events && id in s.streams {
          StillAnnounced(s.events, [TemplateCreated(s.nextTemplateId + 1)], id, terms.value);
        }
      }
    }
  }

  lemma StepKeepsTerms(s: State, op: Op, id: nat, terms: Option<Terms>)
    requires IdsSound(s) && TemplatesSound(s) && Kept(s, id, terms)
    requires id !in s.streams ==> Unmentioned(s.events, id)
    ensures Kept(Step(s, op), id, Agreed(s, op, id, terms))
  {
    if EditsOne(op) {
      EditKeepsTerms(s, op, id, terms);
    } else if op.CreateSplitStream? {
      SplitKeepsTerms(s, op, id, terms);
    } else if Creates(op) {
      CreateKeepsTerms(s, op, id, terms);
    } else {
      OtherKeepsTerms(s, op, id, terms);
    }
  }

  lemma {:induction false} RunKeepsTerms(s: State, ops: seq<Op>, id: nat, terms: Option<Terms>, leaked: set<nat>)
    requires Books(s) && HistorySound(s, leaked) && Kept(s, id, terms)
    ensures Kept(Run(s, ops), id, TermsAfter(s, ops, id, terms))
    decreases |ops|
  {
    if ops != [] {
      StepKeepsTerms(s, ops[0], id, terms);
      StepKeepsBooks(s, ops[0]);
      StepKeepsHistory(s, ops[0], leaked);
      RunKeepsTerms(Step(s, ops[0]), ops[1..], id, Agreed(s, ops[0], id, terms), leaked + LeakOf(s, ops[0]));
    }
  }

  // ------------------------------------------------------------------
  // Main results
  // ------------------------------------------------------------------

  /**
   * Over every run a stream is what was agreed on: its sender, token, cliff and interval and
   * its announced deposit and window are those of the call that created it, and its recipient
   * the one that call named or the last transfer that went through.
   */
  lemma {:induction false} TermsAreKept(s0: State, ops: seq<Op>, id: nat)
    requires Deployed(s0)
    ensures Kept(Run(s0, ops), id, TermsAfter(s0, ops, id, None))
  {
    assert HistorySound(s0, {});
    RunKeepsTerms(s0, ops, id, None, {});
  }

  /**
   * Nobody but the named recipient is ever paid by a claim: over every run, a claim goes
   * through only if it is made by the recipient named when the stream was created or last
   * transferred, and then exactly the amount asked for moves, in the token agreed on, from
   * escrow to that account.
   */
  lemma {:induction false} ClaimsPayTheNamed(s0: State, ops: seq<Op>, id: nat, recipient: Address, amount: I128)
    requires Deployed(s0) && Exec(Run(s0, ops), Claim(id, recipient, amount)).Done?
    ensures var s := Run(s0, ops);
      && TermsAfter(s0, ops, id, None).Some?
      && var terms := TermsAfter(s0, ops, id, None).value;
      && recipient == terms.recipient
      && Moved(s, Step(s, Claim(id, recipient, amount)), terms.token, s.self, terms.recipient, amount)
  {
    TermsAreKept(s0, ops, id);
    ClaimAnswers(Run(s0, ops), id, recipient, amount);
  }

  /**
   * Only the account that created a stream ever cancels, pauses or resumes it, and a first
   * cancel sends exactly what has not vested back to it.
   */
  lemma {:induction false} OnlyTheCreatorStops(s0: State, ops: seq<Op>, op: Op)
    requires Deployed(s0) && (op.Cancel? || op.PauseStream? || op.ResumeStream?) && Exec(Run(s0, ops), op).Done?
    ensures var s, id := Run(s0, ops), op.id;
      && id in s.streams && TermsAfter(s0, ops, id, None).Some?
      && var terms := TermsAfter(s0, ops, id, None).value;
      && op.sender == terms.sender
      && (if op.Cancel? && !s.streams[id].canceled
          then Moved(s, Step(s, op), terms.token, s.self, terms.sender,
                     s.streams[id].totalAmount - VestedAmount(s.streams[id], s.now))
          else Step(s, op).balances == s.balances)
  {
    var s := Run(s0, ops);
    TermsAreKept(s0, ops, op.id);
    match op
    case Cancel(id, sender) => CancelAnswers(s, id, sender);
    case PauseStream(id, sender) => PauseAnswers(s, id, sender);
    case ResumeStream(id, sender) => ResumeAnswers(s, id, sender);
  }

  /** What a stream was created for is what its announced deposit says, in every law that speaks of it. */
  lemma {:induction false} DepositIsAgreed(s0: State, ops: seq<Op>, id: nat)
    requires Deployed(s0) && id in Run(s0, ops).streams
    ensures TermsAfter(s0, ops, id, None).Some?
    ensures Deposit(Run(s0, ops).events, id) == TermsAfter(s0, ops, id, None).value.total
  {
    TermsAreKept(s0, ops, id);
  }
}
