/**
 * The contract's event log as its account book: where every unit of a stream's deposit
 * went, how long the stream was paused, and what that means for its vesting.
 */
module StreamHistory {
  import opened Base
  import opened Vesting
  import opened VestingLaws
  import opened StreamState
  import opened StreamRuns
  import opened StreamIds
  import opened Solvency

  datatype Entry = Claims | Clawbacks | Refunds | PauseTime

  /**
   * What one event adds to an entry of stream `id`. A pause counts minus its start and a
   * resume plus its end, so the entry adds up the completed pauses.
   */
  function Amount(e: Event, id: nat, k: Entry): int {
    match e
    case StreamClaimed(i, claimed) => if i == id && k == Claims then claimed else 0
    case ClawbackExecuted(i, clawed) => if i == id && k == Clawbacks then clawed else 0
    case StreamCanceled(i, refunded) => if i == id && k == Refunds then refunded else 0
    case StreamPaused(i, pausedAt) => if i == id && k == PauseTime then -(pausedAt as int) else 0
    case StreamResumed(i, resumedAt) => if i == id && k == PauseTime then resumedAt else 0
    case _ => 0
  }

  function Tally(events: seq<Event>, id: nat, k: Entry): int {
    if events == [] then 0 else Amount(events[0], id, k) + Tally(events[1..], id, k)
  }

  /** The event that announced stream `id`. */
  function Creation(events: seq<Event>, id: nat): Option<Event> {
    if events == [] then None
    else if events[0].StreamCreated? && events[0].id == id then Some(events[0])
    else Creation(events[1..], id)
  }

  lemma {:induction false} CreationIsCreated(events: seq<Event>, id: nat)
    ensures Creation(events, id).Some? ==> Creation(events, id).value.StreamCreated?
  {
    if events != [] {
      CreationIsCreated(events[1..], id);
    }
  }

  lemma {:induction false} TallyConcat(a: seq<Event>, b: seq<Event>, id: nat, k: Entry)
    ensures Tally(a + b, id, k) == Tally(a, id, k) + Tally(b, id, k)
  {
    if a == [] {
      assert a + b == b;
    } else {
      assert (a + b)[1..] == a[1..] + b;
      TallyConcat(a[1..], b, id, k);
    }
  }

  lemma {:induction false} CreationConcat(a: seq<Event>, b: seq<Event>, id: nat)
    ensures Creation(a + b, id) == if Creation(a, id).Some? then Creation(a, id) else Creation(b, id)
  {
    if a == [] {
      assert a + b == b;
    } else {
      assert (a + b)[1..] == a[1..] + b;
      CreationConcat(a[1..], b, id);
    }
  }

  lemma OneEvent(e: Event, id: nat)
    ensures Creation([e], id) == if e.StreamCreated? && e.id == id then Some(e) else None
    ensures forall k :: Tally([e], id, k) == Amount(e, id, k)
  {
    assert [e][1..] == [];
  }

  lemma TwoEvents(e: Event, f: Event, id: nat)
    requires !f.StreamCreated?
    ensures Creation([e, f], id) == if e.StreamCreated? && e.id == id then Some(e) else None
    ensures forall k :: Tally([e, f], id, k) == Amount(e, id, k) + Amount(f, id, k)
  {
    assert [e, f][1..] == [f];
    OneEvent(f, id);
  }

  // ------------------------------------------------------------------
  // The account of one stream
  // ------------------------------------------------------------------

  function CompletedPauses(stream: Stream, events: seq<Event>, id: nat): int {
    Tally(events, id, PauseTime)
    + if stream.paused && stream.pauseStartedAt.Some? then stream.pauseStartedAt.value else 0
  }

  function Capped(x: nat): U64 {
    if x > U64_MAX then U64_MAX else x
  }

  /** `leaked`: whether the stream's cancel paid a refund it did not write off. */
  ghost predicate Accounted(stream: Stream, events: seq<Event>, id: nat, leaked: bool) {
    && Creation(events, id).Some?
    && var c := Creation(events, id).value;
    && c.StreamCreated?
    && SatAdd(c.startTime, c.cliff) <= c.endTime && c.startTime < c.endTime
    && c.cliff == stream.cliffSeconds
    && Tally(events, id, Claims) + Tally(events, id, Clawbacks) == stream.claimedAmount
    && Tally(events, id, Refunds) >= 0
    && (if leaked then c.total == stream.totalAmount && Tally(events, id, Refunds) > 0
        else c.total == stream.totalAmount + Tally(events, id, Refunds))
    && (!stream.canceled ==>
          && !leaked && Tally(events, id, Refunds) == 0
          && var d := CompletedPauses(stream, events, id);
          && d >= 0
          && stream.startTime == Capped(c.startTime + d)
          && stream.endTime == Capped(c.endTime + d))
  }

  /** No event mentions `id`. */
  ghost predicate Unmentioned(events: seq<Event>, id: nat) {
    Creation(events, id).None? && forall k :: Tally(events, id, k) == 0
  }

  ghost predicate HistorySound(s: State, leaked: set<nat>) {
    && (forall id | id in s.streams :: Accounted(s.streams[id], s.events, id, id in leaked))
    && (forall id: nat | id !in s.streams :: id !in leaked && Unmentioned(s.events, id))
  }

  lemma UnmentionedConcat(a: seq<Event>, b: seq<Event>, id: nat)
    requires Unmentioned(a, id) && Unmentioned(b, id)
    ensures Unmentioned(a + b, id)
  {
    CreationConcat(a, b, id);
    forall k ensures Tally(a + b, id, k) == 0 {
      TallyConcat(a, b, id, k);
    }
  }

  /** Events about other streams leave an account as it was. */
  lemma AccountedConcat(stream: Stream, a: seq<Event>, b: seq<Event>, id: nat, leaked: bool)
    requires Accounted(stream, a, id, leaked) && Unmentioned(b, id)
    ensures Accounted(stream, a + b, id, leaked)
  {
    CreationConcat(a, b, id);
    TallyConcat(a, b, id, Claims);
    TallyConcat(a, b, id, Clawbacks);
    TallyConcat(a, b, id, Refunds);
    TallyConcat(a, b, id, PauseTime);
  }

  // ------------------------------------------------------------------
  // Edits
  // ------------------------------------------------------------------

  /** The events a successful edit publishes, by operation. */
  ghost predicate EventsOf(op: Op, events: seq<Event>, payment: int, now: U64)
    requires EditsOne(op)
  {
    match op
    case Claim(id, _, amount) =>
      && amount > 0
      && (events == [StreamClaimed(id, amount)] || events == [StreamClaimed(id, amount), StreamCompleted(id)])
    case Clawback(id, _, _) => payment > 0 && events == [ClawbackExecuted(id, payment)]
    case Cancel(id, _) => events == [StreamCanceled(id, payment)]
    case PauseStream(id, _) => events == [StreamPaused(id, now)]
    case ResumeStream(id, _) => events == [StreamResumed(id, now)]
    case TransferStream(id, _) => |events| == 1 && events[0].StreamTransferred? && events[0].id == id
  }

  lemma PlanEvents(stream: Stream, op: Op, admin: Option<Address>, now: U64)
    requires EditsOne(op) && PlanFor(stream, op, admin, now).Replace?
    ensures var plan := PlanFor(stream, op, admin, now); EventsOf(op, plan.events, plan.payment, now)
  {
  }

  lemma EventsMentionOne(op: Op, events: seq<Event>, payment: int, now: U64, other: nat)
    requires EditsOne(op) && EventsOf(op, events, payment, now) && other != op.id
    ensures Unmentioned(events, other)
  {
    OneEvent(events[0], other);
    if |events| == 1 {
      assert events == [events[0]];
    } else {
      TwoEvents(events[0], events[1], other);
    }
  }

  /** What the events of a plan add to the entries of its own stream. */
  lemma EventTallies(op: Op, events: seq<Event>, payment: int, now: U64)
    requires EditsOne(op) && EventsOf(op, events, payment, now)
    ensures Creation(events, op.id).None?
    ensures Tally(events, op.id, Claims) == if op.Claim? then op.amount else 0
    ensures Tally(events, op.id, Clawbacks) == if op.Clawback? then payment else 0
    ensures Tally(events, op.id, Refunds) == if op.Cancel? then payment else 0
    ensures Tally(events, op.id, PauseTime)
            == if op.PauseStream? then -(now as int) else if op.ResumeStream? then now else 0
  {
    OneEvent(events[0], op.id);
    if |events| == 1 {
      assert events == [events[0]];
    } else {
      TwoEvents(events[0], events[1], op.id);
    }
  }

  /** What the log says of the stream once those events are appended. */
  lemma EventsAppended(op: Op, log: seq<Event>, events: seq<Event>, payment: int, now: U64)
    requires EditsOne(op) && EventsOf(op, events, payment, now) && Creation(log, op.id).Some?
    ensures var after := log + events;
      && Creation(after, op.id) == Creation(log, op.id)
      && Tally(after, op.id, Claims) == Tally(log, op.id, Claims) + (if op.Claim? then op.amount else 0)
      && Tally(after, op.id, Clawbacks) == Tally(log, op.id, Clawbacks) + (if op.Clawback? then payment else 0)
      && Tally(after, op.id, Refunds) == Tally(log, op.id, Refunds) + (if op.Cancel? then payment else 0)
      && Tally(after, op.id, PauseTime) == Tally(log, op.id, PauseTime)
           + (if op.PauseStream? then -(now as int) else if op.ResumeStream? then now else 0)
  {
    EventTallies(op, events, payment, now);
    TallyConcat(log, events, op.id, Claims);
    TallyConcat(log, events, op.id, Clawbacks);
    TallyConcat(log, events, op.id, Refunds);
    TallyConcat(log, events, op.id, PauseTime);
    CreationConcat(log, events, op.id);
  }

  lemma CancelKeepsAccount(stream: Stream, op: Op, admin: Option<Address>, now: U64, events: seq<Event>, leaked: bool)
    requires op.Cancel? && Sound(stream, now) && PlanFor(stream, op, admin, now).Replace?
    requires Accounted(stream, events, op.id, leaked)
    ensures var plan := PlanFor(stream, op, admin, now);
      Accounted(plan.after, events + plan.events, op.id, leaked || CancelLeaks(stream, now))
  {
    var plan := PlanFor(stream, op, admin, now);
    PlanEvents(stream, op, admin, now);
    EventsAppended(op, events, plan.events, plan.payment, now);
    CancelDividesTotal(stream, now);
  }

  lemma ClockKeepsAccount(stream: Stream, op: Op, admin: Option<Address>, now: U64, events: seq<Event>, leaked: bool)
    requires (op.PauseStream? || op.ResumeStream?) && Sound(stream, now) && PlanFor(stream, op, admin, now).Replace?
    requires Accounted(stream, events, op.id, leaked)
    ensures var plan := PlanFor(stream, op, admin, now);
      Accounted(plan.after, events + plan.events, op.id, leaked)
  {
    var plan := PlanFor(stream, op, admin, now);
    PlanEvents(stream, op, admin, now);
    EventsAppended(op, events, plan.events, plan.payment, now);
  }

  lemma PaymentKeepsAccount(stream: Stream, op: Op, admin: Option<Address>, now: U64, events: seq<Event>, leaked: bool)
    requires op.Claim? || op.Clawback? || op.TransferStream?
    requires Sound(stream, now) && PlanFor(stream, op, admin, now).Replace?
    requires Accounted(stream, events, op.id, leaked)
    ensures var plan := PlanFor(stream, op, admin, now);
      Accounted(plan.after, events + plan.events, op.id, leaked)
  {
    var plan := PlanFor(stream, op, admin, now);
    PlanEvents(stream, op, admin, now);
    EventsAppended(op, events, plan.events, plan.payment, now);
  }

  lemma PlanKeepsAccount(stream: Stream, op: Op, admin: Option<Address>, now: U64, events: seq<Event>, leaked: bool)
    requires EditsOne(op) && Sound(stream, now) && PlanFor(stream, op, admin, now).Replace?
    requires Accounted(stream, events, op.id, leaked)
    ensures var plan := PlanFor(stream, op, admin, now);
      Accounted(plan.after, events + plan.events, op.id, leaked || (op.Cancel? && CancelLeaks(stream, now)))
  {
    if op.Cancel? {
      CancelKeepsAccount(stream, op, admin, now, events, leaked);
    } else if op.PauseStream? || op.ResumeStream? {
      ClockKeepsAccount(stream, op, admin, now, events, leaked);
    } else {
      PaymentKeepsAccount(stream, op, admin, now, events, leaked);
    }
  }

  ghost function LeakOf(s: State, op: Op): set<nat> {
    if Leaks(s, op) then {op.id} else {}
  }

  /** Storing one stream whose account is right, with events about it alone, keeps every account right. */
  lemma StoredKeepsHistory(s: State, t: State, id: nat, events: seq<Event>, leaked: set<nat>, leakedAfter: set<nat>)
    requires HistorySound(s, leaked)
    requires id in t.streams && t.streams == s.streams[id := t.streams[id]] && t.events == s.events + events
    requires Accounted(t.streams[id], t.events, id, id in leakedAfter)
    requires forall other: nat | other != id :: Unmentioned(events, other)
    requires leaked <= leakedAfter <= leaked + {id}
    ensures HistorySound(t, leakedAfter)
  {
    forall other | other in t.streams
      ensures Accounted(t.streams[other], t.events, other, other in leakedAfter)
    {
      if other != id {
        AccountedConcat(s.streams[other], s.events, events, other, other in leaked);
      }
    }
    forall other: nat | other !in t.streams
      ensures other !in leakedAfter && Unmentioned(t.events, other)
    {
      UnmentionedConcat(s.events, events, other);
    }
  }

  lemma EditKeepsHistory(s: State, op: Op, leaked: set<nat>)
    requires StreamsSound(s) && HistorySound(s, leaked) && EditsOne(op)
    ensures HistorySound(Step(s, op), leaked + LeakOf(s, op))
  {
    if op.Cancel? {
      LeakHappens(s, op);
    }
    if Step(s, op) == s {
      assert leaked + LeakOf(s, op) == leaked;
    } else {
      EditShape(s, op);
      var stream := s.streams[op.id];
      var plan := PlanFor(stream, op, s.admin, s.now);
      PlanEvents(stream, op, s.admin, s.now);
      PlanKeepsAccount(stream, op, s.admin, s.now, s.events, op.id in leaked);
      forall other: nat | other != op.id ensures Unmentioned(plan.events, other) {
        EventsMentionOne(op, plan.events, plan.payment, s.now, other);
      }
      StoredKeepsHistory(s, Step(s, op), op.id, plan.events, leaked, leaked + LeakOf(s, op));
    }
  }

  // ------------------------------------------------------------------
  // Creation, and everything else
  // ------------------------------------------------------------------

  lemma FreshAccount(stream: Stream, events: seq<Event>, id: nat)
    requires FreshStream(stream) && SatAdd(stream.startTime, stream.cliffSeconds) <= stream.endTime
    requires Creation(events, id)
             == Some(StreamCreated(id, stream.totalAmount, stream.startTime, stream.endTime, stream.cliffSeconds))
    requires forall k :: Tally(events, id, k) == 0
    ensures Accounted(stream, events, id, false)
  {
  }

  /** A log that has not mentioned a stream, and its creation. */
  lemma FirstMention(events: seq<Event>, e: Event, id: nat)
    requires Unmentioned(events, id) && e.StreamCreated? && e.id == id
    ensures Creation(events + [e], id) == Some(e) && forall k :: Tally(events + [e], id, k) == 0
  {
    CreationConcat(events, [e], id);
    OneEvent(e, id);
    forall k ensures Tally(events + [e], id, k) == 0 {
      TallyConcat(events, [e], id, k);
    }
  }

  lemma CreateKeepsHistory(s: State, op: Op, leaked: set<nat>)
    requires TemplatesSound(s) && IdsSound(s) && HistorySound(s, leaked)
    requires op.CreateStream? || op.CreateStreamFromTemplate?
    ensures HistorySound(Step(s, op), leaked)
  {
    if Exec(s, op).Done? {
      CreateShape(s, op);
      var id := s.nextStreamId + 1;
      var stream := Step(s, op).streams[id];
      var e := StreamCreated(id, stream.totalAmount, stream.startTime, stream.endTime, stream.cliffSeconds);
      FirstMention(s.events, e, id);
      FreshAccount(stream, s.events + [e], id);
      forall other: nat | other != id ensures Unmentioned([e], other) {
        OneEvent(e, other);
      }
      StoredKeepsHistory(s, Step(s, op), id, [e], leaked, leaked);
    }
  }

  lemma {:induction false} ChildEventsAt(
    first: nat, startTime: U64, endTime: U64, recipients: seq<(Address, I128)>, id: nat)
    requires AllPositive(recipients)
    ensures var events := ChildEvents(first, startTime, endTime, recipients);
      && (forall k :: Tally(events, id, k) == 0)
      && Creation(events, id) == if first <= id < first + |recipients|
                                 then Some(StreamCreated(id, recipients[id - first].1, startTime, endTime, 0)) else None
    decreases |recipients|
  {
    if recipients != [] {
      ChildEventsAt(first + 1, startTime, endTime, recipients[1..], id);
      var e := StreamCreated(first, recipients[0].1, startTime, endTime, 0);
      var rest := ChildEvents(first + 1, startTime, endTime, recipients[1..]);
      OneEvent(e, id);
      CreationConcat([e], rest, id);
      forall k ensures Tally([e] + rest, id, k) == 0 {
        TallyConcat([e], rest, id, k);
      }
    }
  }

  lemma SplitKeepsHistory(s: State, op: Op, leaked: set<nat>)
    requires IdsSound(s) && HistorySound(s, leaked) && op.CreateSplitStream? && Exec(s, op).Done?
    ensures HistorySound(Step(s, op), leaked)
  {
    SplitShape(s, op);
    var t := Step(s, op);
    var first := s.nextStreamId + 2;
    var events := ChildEvents(first, op.startTime, op.endTime, op.recipients);
    forall id: nat
      ensures id in t.streams ==> Accounted(t.streams[id], t.events, id, id in leaked)
      ensures id !in t.streams ==> id !in leaked && Unmentioned(t.events, id)
    {
      WithChildrenAt(s.streams, first, op.sender, op.token, op.startTime, op.endTime, op.recipients, id);
      ChildEventsAt(first, op.startTime, op.endTime, op.recipients, id);
      if first <= id < first + |op.recipients| {
        assert Unmentioned(s.events, id);
        CreationConcat(s.events, events, id);
        forall k ensures Tally(t.events, id, k) == 0 {
          TallyConcat(s.events, events, id, k);
        }
        FreshAccount(t.streams[id], t.events, id);
      } else if id in s.streams {
        AccountedConcat(s.streams[id], s.events, events, id, id in leaked);
      } else {
        UnmentionedConcat(s.events, events, id);
      }
    }
  }

  lemma OtherKeepsHistory(s: State, op: Op, leaked: set<nat>)
    requires HistorySound(s, leaked) && !EditsOne(op) && !Creates(op)
    ensures HistorySound(Step(s, op), leaked)
  {
    if AdminOnly(op) {
      AdminShape(s, op);
    } else {
      OtherShape(s, op);
      if op.CreateTemplate? && Step(s, op).events != s.events {
        assert Exec(s, op) == ExecOther(s, op);
        var e := TemplateCreated(s.nextTemplateId + 1);
        assert Step(s, op).events == s.events + [e];
        forall id: nat
          ensures id in s.streams ==> Accounted(s.streams[id], s.events + [e], id, id in leaked)
          ensures id !in s.streams ==> Unmentioned(s.events + [e], id)
        {
          OneEvent(e, id);
          if id in s.streams {
            AccountedConcat(s.streams[id], s.events, [e], id, id in leaked);
          } else {
            UnmentionedConcat(s.events, [e], id);
          }
        }
      }
    }
  }

  lemma StepKeepsHistory(s: State, op: Op, leaked: set<nat>)
    requires Books(s) && HistorySound(s, leaked)
    ensures HistorySound(Step(s, op), leaked + LeakOf(s, op))
  {
    if EditsOne(op) {
      EditKeepsHistory(s, op, leaked);
    } else {
      assert leaked + LeakOf(s, op) == leaked;
      if op.CreateSplitStream? {
        if Exec(s, op).Done? { SplitKeepsHistory(s, op, leaked); }
      } else if Creates(op) {
        CreateKeepsHistory(s, op, leaked);
      } else {
        OtherKeepsHistory(s, op, leaked);
      }
    }
  }

  /** The streams whose cancel leaked, in a run. */
  ghost function Leaked(s: State, ops: seq<Op>): set<nat>
    decreases |ops|
  {
    if ops == [] then {} else LeakOf(s, ops[0]) + Leaked(Step(s, ops[0]), ops[1..])
  }

  lemma {:induction false} RunKeepsHistory(s: State, ops: seq<Op>, leaked: set<nat>)
    requires Books(s) && HistorySound(s, leaked)
    ensures HistorySound(Run(s, ops), leaked + Leaked(s, ops))
    decreases |ops|
  {
    if ops == [] {
      assert leaked + {} == leaked;
    } else {
      StepKeepsHistory(s, ops[0], leaked);
      StepKeepsBooks(s, ops[0]);
      RunKeepsHistory(Step(s, ops[0]), ops[1..], leaked + LeakOf(s, ops[0]));
      assert leaked + LeakOf(s, ops[0]) + Leaked(Step(s, ops[0]), ops[1..]) == leaked + Leaked(s, ops);
    }
  }

  lemma ReachedAccount(s0: State, ops: seq<Op>, id: nat)
    requires Deployed(s0) && id in Run(s0, ops).streams
    ensures var s := Run(s0, ops);
      Sound(s.streams[id], s.now) && Accounted(s.streams[id], s.events, id, id in Leaked(s0, ops))
  {
    RunKeepsBooks(s0, ops);
    assert HistorySound(s0, {});
    RunKeepsHistory(s0, ops, {});
    assert {} + Leaked(s0, ops) == Leaked(s0, ops);
  }

  // ------------------------------------------------------------------
  // Main results
  // ------------------------------------------------------------------

  /** What was deposited for stream `id`, as its creation event says. */
  function Deposit(events: seq<Event>, id: nat): nat {
    match Creation(events, id)
    case Some(StreamCreated(_, total, _, _, _)) => total
    case _ => 0
  }

  /** What has left escrow on behalf of stream `id`, as the event log says. */
  function PaidOut(events: seq<Event>, id: nat): int {
    Tally(events, id, Claims) + Tally(events, id, Clawbacks)
  }

  /**
   * Conservation, over any run of calls on any number of streams: a stream's deposit is
   * its claims, clawbacks and refunds together with what it is still owed. It holds of a
   * stream if and only if that stream's cancel did not leak.
   */
  lemma DepositConserved(s0: State, ops: seq<Op>, id: nat)
    requires Deployed(s0) && id in Run(s0, ops).streams
    ensures var s := Run(s0, ops);
      Deposit(s.events, id) == PaidOut(s.events, id) + Tally(s.events, id, Refunds) + Unpaid(s.streams[id])
      <==> id !in Leaked(s0, ops)
  {
    ReachedAccount(s0, ops, id);
  }

  /**
   * Path independence: however the payments were divided up, a claim of all that is
   * claimable on an uncanceled stream brings the total paid to exactly the vested amount.
   */
  lemma FullClaimPaysVested(s0: State, ops: seq<Op>, id: nat, recipient: Address, amount: I128)
    requires Deployed(s0) && id in Run(s0, ops).streams && !Run(s0, ops).streams[id].canceled
    requires var s := Run(s0, ops);
             amount == ClaimableAmount(s.streams[id], s.now) && Exec(s, Claim(id, recipient, amount)).Done?
    ensures var s := Run(s0, ops);
      PaidOut(Step(s, Claim(id, recipient, amount)).events, id) == VestedAmount(s.streams[id], s.now)
  {
    var s := Run(s0, ops);
    var op := Claim(id, recipient, amount);
    ReachedAccount(s0, ops, id);
    EditShape(s, op);
    PlanEvents(s.streams[id], op, s.admin, s.now);
    PlanKeepsAccount(s.streams[id], op, s.admin, s.now, s.events, id in Leaked(s0, ops));
  }

  /** No dust: such a claim at or after the end of an unpaused stream has paid the whole deposit. */
  lemma FullClaimAtEndPaysDeposit(s0: State, ops: seq<Op>, id: nat, recipient: Address, amount: I128)
    requires Deployed(s0) && id in Run(s0, ops).streams && !Run(s0, ops).streams[id].canceled
    requires var s := Run(s0, ops);
      var stream := s.streams[id];
      && !stream.paused && stream.startTime < stream.endTime <= s.now
      && amount == ClaimableAmount(stream, s.now) && Exec(s, Claim(id, recipient, amount)).Done?
    ensures var s := Run(s0, ops);
      PaidOut(Step(s, Claim(id, recipient, amount)).events, id) == Deposit(s.events, id)
  {
    var s := Run(s0, ops);
    FullClaimPaysVested(s0, ops, id, recipient, amount);
    ReachedAccount(s0, ops, id);
    VestedAtEnd(s.streams[id], s.now, s.now);
  }

  /** The stream as its creation event describes it, before any payment or pause. */
  function Original(stream: Stream, created: Event): Stream
    requires created.StreamCreated?
  {
    stream.(totalAmount := created.total, claimedAmount := 0, startTime := created.startTime,
    endTime := created.endTime, canceled := false, paused := false, pauseStartedAt := None)
  }

  /**
   * Pause and resume stop the stream's clock: after any number of pauses an uncanceled
   * stream has vested, at any time, what its original schedule had vested at that time less
   * the completed pauses; while paused, what it had vested at the pause. (Past the 64-bit
   * range see `StoppedClockIff`.)
   */
  lemma PausesStopTheClock(s0: State, ops: seq<Op>, id: nat, at: U64)
    requires Deployed(s0) && id in Run(s0, ops).streams && !Run(s0, ops).streams[id].canceled
    ensures var s := Run(s0, ops);
      var stream := s.streams[id];
      var d := CompletedPauses(stream, s.events, id);
      && Creation(s.events, id).Some?
      && var created := Creation(s.events, id).value;
      && created.StreamCreated? && 0 <= d
      && (created.endTime + d <= U64_MAX ==>
            VestedAmount(stream, at) == VestedOnStoppedClock(Original(stream, created), EffectiveNow(stream, at), d))
  {
    ReachedAccount(s0, ops, id);
    var s := Run(s0, ops);
    var stream := s.streams[id];
    var created := Creation(s.events, id).value;
    var d := CompletedPauses(stream, s.events, id);
    if created.endTime + d <= U64_MAX {
      StoppedClockLaw(stream, Original(stream, created), d, at);
    }
  }

  /** What `original` has vested on a clock that stood still for `d` seconds. */
  function VestedOnStoppedClock(original: Stream, clock: U64, d: nat): nat {
    if clock < d then 0 else VestedAmount(original, clock - d)
  }

  lemma StoppedClockLaw(stream: Stream, original: Stream, d: U64, at: U64)
    requires original.startTime <= original.endTime && original.endTime + d <= U64_MAX && !original.paused
    requires SatAdd(original.startTime, original.cliffSeconds) <= original.endTime
    requires stream.startTime == original.startTime + d && stream.endTime == original.endTime + d
    requires stream.totalAmount == original.totalAmount && stream.cliffSeconds == original.cliffSeconds
    ensures VestedAmount(stream, at) == VestedOnStoppedClock(original, EffectiveNow(stream, at), d)
  {
    var clock := EffectiveNow(stream, at);
    ShiftLaw(original, d, clock);
    assert VestedAmount(stream, at) == VestedAmount(Shifted(original, d), clock);
  }

  /** The stream with its clock running. */
  function Running(stream: Stream): Stream {
    stream.(paused := false, pauseStartedAt := None)
  }

  lemma ShiftedPastTheEnd(stream: Stream, original: Stream, d: nat, clock: U64)
    requires original.startTime < original.endTime && !original.paused && original.startTime + d >= U64_MAX
    requires stream.startTime == stream.endTime == U64_MAX
    ensures VestedAmount(Running(stream), clock) == 0 == VestedOnStoppedClock(original, clock, d)
  {
    if clock >= d && !BeforeCliff(original, clock - d) {
      assert Elapsed(original, clock - d) == 0;
      ProrateZero(original.totalAmount, Duration(original));
    }
  }

  lemma CutShort(stream: Stream, original: Stream, d: nat)
    requires original.startTime + d < U64_MAX < original.endTime + d && !original.paused
    requires stream.startTime == original.startTime + d && stream.endTime == U64_MAX
    requires stream.totalAmount == original.totalAmount > 0
    ensures VestedAmount(Running(stream), U64_MAX) == stream.totalAmount
    ensures VestedOnStoppedClock(original, U64_MAX, d) < stream.totalAmount
  {
    ProrateWhole(stream.totalAmount, Duration(stream));
    if U64_MAX >= d && !BeforeCliff(original, U64_MAX - d) {
      ProratePartial(original.totalAmount, Elapsed(original, U64_MAX - d), Duration(original));
    }
  }

  /**
   * Exactly when a stopped clock describes the stream: an uncanceled stream whose clock runs
   * vests at all times like the original delayed by the completed pauses if and only if the
   * delayed schedule ends within the 64-bit range, or begins beyond it (and then nothing ever
   * vests). In between its end is cut off, so it vests faster.
   */
  lemma StoppedClockIff(s0: State, ops: seq<Op>, id: nat)
    requires Deployed(s0) && id in Run(s0, ops).streams && !Run(s0, ops).streams[id].canceled
    ensures var s := Run(s0, ops);
      var stream := s.streams[id];
      var d := CompletedPauses(stream, s.events, id);
      && Creation(s.events, id).Some? && Creation(s.events, id).value.StreamCreated? && 0 <= d
      && var created := Creation(s.events, id).value;
      (forall clock: U64 ::
         VestedAmount(Running(stream), clock) == VestedOnStoppedClock(Original(stream, created), clock, d))
      <==> created.endTime + d <= U64_MAX || created.startTime + d >= U64_MAX
  {
    ReachedAccount(s0, ops, id);
    var s := Run(s0, ops);
    var stream := s.streams[id];
    var created := Creation(s.events, id).value;
    var original := Original(stream, created);
    var d := CompletedPauses(stream, s.events, id);
    if created.endTime + d <= U64_MAX {
      forall clock: U64 ensures VestedAmount(Running(stream), clock) == VestedOnStoppedClock(original, clock, d) {
        StoppedClockLaw(Running(stream), original, d, clock);
      }
    } else if created.startTime + d >= U64_MAX {
      forall clock: U64 ensures VestedAmount(Running(stream), clock) == VestedOnStoppedClock(original, clock, d) {
        ShiftedPastTheEnd(stream, original, d, clock);
      }
    } else {
      CutShort(stream, original, d);
      var instance := VestedAmount(Running(stream), U64_MAX);
    }
  }

  /** A stream whose product fits in i128 at some point never traps afterwards. */
  lemma {:induction false} FitIsKept(s: State, ops: seq<Op>, id: nat, at: U64)
    requires StreamsSound(s) && TemplatesSound(s) && IdsSound(s) && id in s.streams && FitsI128(s.streams[id])
    ensures id in Run(s, ops).streams
    ensures FitsI128(Run(s, ops).streams[id]) && !VestingTraps(Run(s, ops).streams[id], at)
    decreases |ops|
  {
    if ops == [] {
      FitsNeverTraps(s.streams[id], at);
    } else {
      StepKeepsFit(s, ops[0], id);
      StepKeepsStreams(s, ops[0]);
      StepKeepsIds(s, ops[0]);
      FitIsKept(Step(s, ops[0]), ops[1..], id, at);
    }
  }

  lemma PlanKeepsFit(stream: Stream, op: Op, admin: Option<Address>, now: U64)
    requires EditsOne(op) && PlanFor(stream, op, admin, now).Replace?
    requires FitsI128(stream) && stream.startTime <= stream.endTime
    ensures FitsI128(PlanFor(stream, op, admin, now).after)
  {
    EditsKeepFit(stream, now);
  }

  lemma StepKeepsFit(s: State, op: Op, id: nat)
    requires StreamsSound(s) && IdsSound(s) && id in s.streams && FitsI128(s.streams[id])
    ensures id in Step(s, op).streams && FitsI128(Step(s, op).streams[id])
  {
    if !EditsOne(op) {
      OnlyEditsTouch(s, op, id);
    } else if Step(s, op) != s {
      EditShape(s, op);
      if id == op.id {
        assert s.streams[id].startTime <= s.streams[id].endTime;
        PlanKeepsFit(s.streams[id], op, s.admin, s.now);
      }
    }
  }
}
