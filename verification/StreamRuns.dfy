/**
 * What every reachable state of the contract satisfies: stream by stream, and of the id
 * space with its split families.
 */
module StreamRuns {
  import opened Base
  import opened Vesting
  import opened VestingLaws
  import opened StreamState

  // ------------------------------------------------------------------
  // Streams
  // ------------------------------------------------------------------

  ghost predicate StreamsSound(s: State) {
    forall id | id in s.streams :: Sound(s.streams[id], s.now) && s.streams[id].totalAmount <= I128_MAX
  }

  ghost predicate TemplatesSound(s: State) {
    forall id | id in s.templates ::
      0 < s.templates[id].durationSeconds && s.templates[id].cliffSeconds <= s.templates[id].durationSeconds
  }

  lemma ClaimKeepsSound(stream: Stream, amount: nat, now: U64)
    requires Sound(stream, now) && amount <= ClaimableAmount(stream, now)
    ensures Sound(AfterClaim(stream, amount, now), now)
  {
    VestedIsFloor(stream, now);
  }

  lemma CancelKeepsSound(stream: Stream, now: U64)
    requires Sound(stream, now) && !stream.canceled
    ensures Sound(Canceled(stream, now), now)
    ensures Canceled(stream, now).totalAmount <= stream.totalAmount
  {
    VestedIsFloor(stream, now);
    if now == stream.startTime && !BeforeCliff(stream, now) && Duration(stream) > 0 {
      assert Elapsed(stream, now) == 0;
      assert stream.totalAmount * 0 == 0;
    }
  }

  lemma ResumeKeepsSound(stream: Stream, now: U64)
    requires Sound(stream, now) && stream.paused
    ensures Sound(Resumed(stream, now), now)
  {
    ResumeKeepsVested(stream, now);
  }

  lemma TimeKeepsSound(stream: Stream, now: U64, later: U64)
    requires Sound(stream, now) && now <= later
    ensures Sound(stream, later)
  {
    VestedMonotone(stream, now, later);
  }

  /** Where `WithChildren` puts what. */
  lemma {:induction false} WithChildrenAt(
    streams: map<nat, Stream>, first: nat, sender: Address, token: Address,
    startTime: U64, endTime: U64, recipients: seq<(Address, I128)>, id: nat)
    requires AllPositive(recipients)
    ensures var after := WithChildren(streams, first, sender, token, startTime, endTime, recipients);
      if first <= id < first + |recipients|
      then id in after && after[id] == Child(sender, token, startTime, endTime, recipients[id - first])
      else (id in after <==> id in streams) && (id in streams ==> after[id] == streams[id])
    decreases |recipients|
  {
    if recipients != [] {
      var one := streams[first := Child(sender, token, startTime, endTime, recipients[0])];
      WithChildrenAt(one, first + 1, sender, token, startTime, endTime, recipients[1..], id);
    }
  }

  lemma {:induction false} WithParentsAt(childToParent: map<nat, nat>, first: nat, n: nat, parent: nat, id: nat)
    ensures var after := WithParents(childToParent, first, n, parent);
      if first <= id < first + n
      then id in after && after[id] == parent
      else (id in after <==> id in childToParent) && (id in childToParent ==> after[id] == childToParent[id])
    decreases n
  {
    if n != 0 {
      WithParentsAt(childToParent[first := parent], first + 1, n - 1, parent, id);
    }
  }

  lemma {:induction false} AllocationBounds(recipients: seq<(Address, I128)>, i: nat)
    requires AllPositive(recipients) && i < |recipients|
    ensures recipients[i].1 <= Allocated(recipients)
  {
    AllocatedPositive(recipients[1..]);
    if i > 0 {
      AllocationBounds(recipients[1..], i - 1);
    }
  }

  lemma {:induction false} AllocatedPositive(recipients: seq<(Address, I128)>)
    requires AllPositive(recipients)
    ensures |recipients| <= Allocated(recipients)
  {
    if recipients != [] {
      AllocatedPositive(recipients[1..]);
    }
  }

  /** A record as creation stores it. */
  ghost predicate FreshStream(stream: Stream) {
    && stream.startTime < stream.endTime
    && 0 < stream.totalAmount <= I128_MAX && stream.claimedAmount == 0
    && !stream.canceled && !stream.paused && stream.pauseStartedAt.None?
  }

  /** Creating one stream takes the deposit, stores one fresh record under the next id and says so. */
  lemma CreateShape(s: State, op: Op)
    requires (op.CreateStream? || op.CreateStreamFromTemplate?) && Exec(s, op).Done?
    ensures var after := Step(s, op);
      var id := s.nextStreamId + 1;
      && id in after.streams
      && var stream := after.streams[id];
      && FreshStream(stream) && stream.sender != s.self
      && (TemplatesSound(s) ==> SatAdd(stream.startTime, stream.cliffSeconds) <= stream.endTime)
      && Pay(s, stream.token, stream.sender, s.self, stream.totalAmount) == Some(after.balances)
      && after == s.(streams := s.streams[id := stream], nextStreamId := id, balances := after.balances,
           events := s.events
             + [StreamCreated(id, stream.totalAmount, stream.startTime, stream.endTime, stream.cliffSeconds)])
  {
    assert Exec(s, op) == ExecCreation(s, op);
  }

  /** A split takes one deposit, which its children's totals add up to, and stores them in one block of ids. */
  lemma SplitShape(s: State, op: Op)
    requires op.CreateSplitStream? && Exec(s, op).Done?
    ensures var after := Step(s, op);
      var parent, n := s.nextStreamId + 1, |op.recipients|;
      && n > 0 && op.sender != s.self && op.startTime < op.endTime
      && AllPositive(op.recipients) && Allocated(op.recipients) == op.total > 0
      && Pay(s, op.token, op.sender, s.self, op.total) == Some(after.balances)
      && after == s.(balances := after.balances, nextStreamId := parent + n,
           streams := WithChildren(s.streams, parent + 1, op.sender, op.token, op.startTime, op.endTime, op.recipients),
           splitChildren := s.splitChildren[parent := ChildIds(parent, n)],
           childToParent := WithParents(s.childToParent, parent + 1, n, parent),
           events := s.events + ChildEvents(parent + 1, op.startTime, op.endTime, op.recipients))
  {
    assert Exec(s, op) == ExecCreation(s, op);
  }

  lemma SplitKeepsStreams(s: State, op: Op)
    requires StreamsSound(s) && op.CreateSplitStream? && Exec(s, op).Done?
    ensures StreamsSound(Step(s, op))
  {
    SplitShape(s, op);
    var after := Step(s, op);
    forall id | id in after.streams
      ensures Sound(after.streams[id], after.now) && after.streams[id].totalAmount <= I128_MAX
    {
      WithChildrenAt(s.streams, s.nextStreamId + 2, op.sender, op.token, op.startTime, op.endTime, op.recipients, id);
    }
  }

  lemma CreateKeepsStreams(s: State, op: Op)
    requires StreamsSound(s) && TemplatesSound(s)
    requires op.CreateStream? || op.CreateStreamFromTemplate?
    ensures StreamsSound(Step(s, op)) && TemplatesSound(Step(s, op))
  {
    if Exec(s, op).Done? {
      CreateShape(s, op);
    }
  }

  /** An edit replaces at most the one stream it names and touches nothing else but balances and events. */
  lemma EditShape(s: State, op: Op)
    requires EditsOne(op) && Step(s, op) != s
    ensures op.id in s.streams
    ensures var plan := PlanFor(s.streams[op.id], op, s.admin, s.now);
      var after := Step(s, op);
      && plan.Replace?
      && after == Stored(s, op.id, plan.after, after.balances, plan.events)
      && (plan.payment <= 0 ==> after.balances == s.balances)
      && (plan.payment > 0 ==>
            Pay(s, s.streams[op.id].token, s.self, plan.payee, plan.payment) == Some(after.balances))
  {
    var plan := PlanFor(s.streams[op.id], op, s.admin, s.now);
    assert Exec(s, op) == Carry(s, op.id, plan);
  }

  lemma PlanKeepsSound(stream: Stream, op: Op, admin: Option<Address>, now: U64)
    requires EditsOne(op) && Sound(stream, now) && PlanFor(stream, op, admin, now).Replace?
    ensures var after := PlanFor(stream, op, admin, now).after;
      Sound(after, now) && after.totalAmount <= stream.totalAmount
  {
    match op
    case Claim(_, _, amount) => ClaimKeepsSound(stream, amount, now);
    case Cancel(_, _) => CancelKeepsSound(stream, now);
    case ResumeStream(_, _) => ResumeKeepsSound(stream, now);
    case PauseStream(_, _) => PauseStopsTheClock(stream, now, now);
    case Clawback(_, _, _) => VestedIsFloor(stream, now);
    case TransferStream(_, _) =>
  }

  lemma EditKeepsStreams(s: State, op: Op)
    requires StreamsSound(s) && EditsOne(op)
    ensures StreamsSound(Step(s, op)) && Step(s, op).templates == s.templates
  {
    if Step(s, op) != s {
      EditShape(s, op);
      PlanKeepsSound(s.streams[op.id], op, s.admin, s.now);
    }
  }

  lemma CloseKeepsStreams(s: State, op: Op)
    requires StreamsSound(s) && op.LedgerClose?
    ensures StreamsSound(Step(s, op))
  {
    if Exec(s, op).Done? {
      forall id | id in s.streams ensures Sound(s.streams[id], op.timestamp) {
        TimeKeepsSound(s.streams[id], s.now, op.timestamp);
      }
    }
  }

  /** Administration leaves streams, ids, templates, balances and the clock alone. */
  lemma AdminShape(s: State, op: Op)
    requires AdminOnly(op)
    ensures var after := Step(s, op);
      after == s.(admin := after.admin, nativeToken := after.nativeToken, allowedTokens := after.allowedTokens)
    ensures op.SetNativeToken? || Step(s, op).nativeToken == s.nativeToken
  {
    assert Exec(s, op) == ExecAdmin(s, op);
  }

  /** What a step outside creation, edits and administration may change. */
  ghost predicate OtherEffect(s: State, op: Op, after: State) {
    && after.self == s.self && after.streams == s.streams && after.nextStreamId == s.nextStreamId
    && after.splitChildren == s.splitChildren && after.childToParent == s.childToParent
    && (op.LedgerClose? || after.now == s.now)
    && (op.OutsideBalance? || op.Donate? || after.balances == s.balances)
    && (op.CreateTemplate? || (after.templates == s.templates && after.events == s.events))
    && ((op.Initialize? && s.admin.None?) || (after.nativeToken == s.nativeToken && after.admin == s.admin))
  }

  lemma TemplateShape(s: State, op: Op)
    requires op.CreateTemplate?
    ensures OtherEffect(s, op, Step(s, op))
  {
    assert Exec(s, op) == ExecCreateTemplate(s, op.sender, op.token, op.duration, op.cliff);
  }

  /** Initialization, templates and outside events leave streams and ids alone. */
  lemma OtherShape(s: State, op: Op)
    requires !EditsOne(op) && !AdminOnly(op) && !Creates(op)
    ensures OtherEffect(s, op, Step(s, op))
  {
    match op
    case CreateTemplate(_, _, _, _) => TemplateShape(s, op);
    case Initialize(admin, native, allowed) =>
      assert Step(s, op) == if s.admin.Some? then s
                            else s.(admin := Some(admin), nativeToken := Some(native), allowedTokens := allowed);
    case LedgerClose(timestamp) => assert Step(s, op) == s || Step(s, op) == s.(now := timestamp);
    case OutsideBalance(_, _, _) => assert Step(s, op) == s.(balances := Step(s, op).balances);
    case Donate(_, _) => assert Step(s, op) == s.(balances := Step(s, op).balances);
  }

  lemma TemplateKeepsTemplates(s: State, op: Op)
    requires TemplatesSound(s) && op.CreateTemplate?
    ensures TemplatesSound(Step(s, op))
    ensures Step(s, op).events == s.events || Step(s, op).events == s.events + [TemplateCreated(s.nextTemplateId + 1)]
  {
    assert Exec(s, op) == ExecOther(s, op);
  }

  /** Every operation keeps every stream sound. */
  lemma StepKeepsStreams(s: State, op: Op)
    requires StreamsSound(s) && TemplatesSound(s)
    ensures StreamsSound(Step(s, op)) && TemplatesSound(Step(s, op))
  {
    if EditsOne(op) {
      EditKeepsStreams(s, op);
    } else if op.CreateSplitStream? {
      if Exec(s, op).Done? { SplitKeepsStreams(s, op); }
    } else if op.CreateStream? || op.CreateStreamFromTemplate? {
      CreateKeepsStreams(s, op);
    } else if op.LedgerClose? {
      CloseKeepsStreams(s, op);
    } else if AdminOnly(op) {
      AdminShape(s, op);
    } else {
      OtherShape(s, op);
      if op.CreateTemplate? { TemplateKeepsTemplates(s, op); }
    }
  }

  lemma {:induction false} RunKeepsStreams(s: State, ops: seq<Op>)
    requires StreamsSound(s) && TemplatesSound(s)
    ensures StreamsSound(Run(s, ops)) && TemplatesSound(Run(s, ops))
    decreases |ops|
  {
    if ops != [] {
      StepKeepsStreams(s, ops[0]);
      RunKeepsStreams(Step(s, ops[0]), ops[1..]);
    }
  }

  /**
   * Claims never overtake vesting: in every reachable state, a stream that was not
   * canceled has been paid no more than has vested, and every stream no more than its total.
   */
  lemma ClaimsNeverOvertakeVesting(s0: State, ops: seq<Op>, id: nat)
    requires Deployed(s0)
    ensures var s := Run(s0, ops);
      id in s.streams ==>
        var stream := s.streams[id];
        && 0 <= stream.claimedAmount <= stream.totalAmount
        && (!stream.canceled ==>
              && stream.claimedAmount <= VestedAmount(stream, s.now)
              && ClaimableAmount(stream, s.now) == VestedAmount(stream, s.now) - stream.claimedAmount)
  {
    RunKeepsStreams(s0, ops);
  }
}
