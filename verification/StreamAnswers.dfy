/**
 * What the contract's calls answer, in plain figures: exactly when each goes through, what
 * record it leaves, and who pays whom how much.
 */
module StreamAnswers {
  import opened Base
  import opened Vesting
  import opened VestingLaws
  import opened StreamState
  import opened StreamRuns

  // ------------------------------------------------------------------
  // Money
  // ------------------------------------------------------------------

  /** The token contract behind a stream's token. */
  function Asset(s: State, token: Address): Address {
    if token == NATIVE_SENTINEL && s.nativeToken.Some? then s.nativeToken.value else token
  }

  /** The payer has the amount in that token and the payee can take it. */
  predicate CanPay(s: State, token: Address, payer: Address, payee: Address, amount: int) {
    && (token == NATIVE_SENTINEL ==> s.nativeToken.Some?)
    && amount <= BalanceOf(s.balances, Asset(s, token), payer)
    && BalanceOf(s.balances, Asset(s, token), payee) + amount <= I128_MAX
  }

  /** From `s` to `t` exactly `amount` of the token went from payer to payee, and no other balance moved. */
  ghost predicate Moved(s: State, t: State, token: Address, payer: Address, payee: Address, amount: int) {
    forall asset, holder ::
      BalanceOf(t.balances, asset, holder) == BalanceOf(s.balances, asset, holder)
        + (if asset == Asset(s, token) && holder == payee then amount else 0)
        - (if asset == Asset(s, token) && holder == payer then amount else 0)
  }

  lemma PayMeans(s: State, token: Address, payer: Address, payee: Address, amount: nat)
    requires payer != payee
    ensures var paid := Pay(s, token, payer, payee, amount);
      && (paid.Some? <==> CanPay(s, token, payer, payee, amount))
      && (paid.Some? ==> Moved(s, s.(balances := paid.value), token, payer, payee, amount))
  {
  }

  lemma MovedWith(s: State, t: State, u: State, token: Address, payer: Address, payee: Address, amount: int)
    requires Moved(s, t, token, payer, payee, amount) && u.balances == t.balances
    ensures Moved(s, u, token, payer, payee, amount)
  {
    forall asset, holder
      ensures BalanceOf(u.balances, asset, holder) == BalanceOf(s.balances, asset, holder)
        + (if asset == Asset(s, token) && holder == payee then amount else 0)
        - (if asset == Asset(s, token) && holder == payer then amount else 0)
    {
      assert BalanceOf(t.balances, asset, holder) == BalanceOf(u.balances, asset, holder);
    }
  }

  /** What storing a record with a payment out of escrow comes to. */
  lemma CarryMeans(s: State, id: nat, plan: Plan)
    requires id in s.streams && plan.Replace? && (plan.payment > 0 ==> plan.payee != s.self)
    ensures var o := Carry(s, id, plan);
      && !o.ClaimTooFrequent?
      && (o.Done? <==> plan.payment <= 0 || CanPay(s, s.streams[id].token, s.self, plan.payee, plan.payment))
      && (o.Done? ==>
            && o.reply == plan.reply && o.state == Stored(s, id, plan.after, o.state.balances, plan.events)
            && (if plan.payment <= 0 then o.state.balances == s.balances
                else Moved(s, o.state, s.streams[id].token, s.self, plan.payee, plan.payment)))
  {
    if plan.payment > 0 {
      PayMeans(s, s.streams[id].token, s.self, plan.payee, plan.payment);
      var o := Carry(s, id, plan);
      if o.Done? {
        MovedWith(s, s.(balances := o.state.balances), o.state, s.streams[id].token, s.self, plan.payee, plan.payment);
      }
    }
  }

  /** Only record `id`, balances and the log differ, and the log has grown by `events`. */
  ghost predicate OneRecord(s: State, t: State, id: nat, after: Stream, events: seq<Event>) {
    t == s.(streams := s.streams[id := after], balances := t.balances, events := s.events + events)
  }

  // ------------------------------------------------------------------
  // Claim, cancel, clawback
  // ------------------------------------------------------------------

  /** The stream's minimum interval, if it has one, has not passed since the last claim. */
  predicate TooSoon(stream: Stream, now: U64) {
    && stream.minClaimInterval != 0 && stream.claimedAmount != 0
    && now < stream.lastClaimTime + stream.minClaimInterval && now < U64_MAX
  }

  /**
   * A claim goes through exactly when the stream's recipient asks, not too soon, for a
   * positive amount of what has vested and not been paid, and escrow can pay it; then
   * exactly that amount goes to the recipient and is noted.
   */
  lemma ClaimAnswers(s: State, id: nat, recipient: Address, amount: I128)
    ensures var o := Exec(s, Claim(id, recipient, amount));
      && (o.Done? <==>
            && id in s.streams && s.streams[id].recipient == recipient && recipient != s.self && amount > 0
            && !TooSoon(s.streams[id], s.now) && !VestingTraps(s.streams[id], s.now)
            && amount <= VestedAmount(s.streams[id], s.now) - s.streams[id].claimedAmount
            && CanPay(s, s.streams[id].token, s.self, recipient, amount))
      && (o.ClaimTooFrequent? <==>
            && id in s.streams && s.streams[id].recipient == recipient && recipient != s.self && amount > 0
            && TooSoon(s.streams[id], s.now))
      && (o.Done? ==>
            && o.reply == amount
            && Moved(s, o.state, s.streams[id].token, s.self, recipient, amount)
            && var stream := s.streams[id];
            && var paid := stream.claimedAmount + amount;
            OneRecord(s, o.state, id, stream.(claimedAmount := paid, lastClaimTime := s.now),
              [StreamClaimed(id, amount)] + if paid >= stream.totalAmount then [StreamCompleted(id)] else []))
  {
    var op := Claim(id, recipient, amount);
    assert Exec(s, op) == ExecEdit(s, op);
    if id in s.streams && recipient != s.self {
      var plan := PlanClaim(s.streams[id], id, recipient, amount, s.now);
      assert Exec(s, op) == Carry(s, id, plan);
      if plan.Replace? {
        CarryMeans(s, id, plan);
      }
    }
  }

  /**
   * A cancel goes through exactly when the stream's sender asks and the refund, if there is
   * one, can be paid. The first one refunds exactly what has not vested; later ones do nothing.
   */
  lemma CancelAnswers(s: State, id: nat, sender: Address)
    ensures var o := Exec(s, Cancel(id, sender));
      && !o.ClaimTooFrequent?
      && (o.Done? <==>
            && id in s.streams && s.streams[id].sender == sender && sender != s.self
            && var stream := s.streams[id];
            && var refund := stream.totalAmount - VestedAmount(stream, s.now);
            stream.canceled || (!VestingTraps(stream, s.now)
                                && (refund == 0 || CanPay(s, stream.token, s.self, sender, refund))))
      && (o.Done? && s.streams[id].canceled ==> o.state == s)
      && (o.Done? && !s.streams[id].canceled ==>
            && var stream := s.streams[id];
            && var refund := stream.totalAmount - VestedAmount(stream, s.now);
            && var cutOff := Max(s.now, stream.startTime);
            && Moved(s, o.state, stream.token, s.self, sender, refund)
            && id in o.state.streams && o.state.streams[id].canceled
            && OneRecord(s, o.state, id,
                 if cutOff < stream.endTime
                 then stream.(canceled := true, endTime := cutOff, totalAmount := stream.totalAmount - refund)
                 else stream.(canceled := true),
                 [StreamCanceled(id, refund)]))
  {
    var op := Cancel(id, sender);
    assert Exec(s, op) == ExecEdit(s, op);
    if id in s.streams && s.streams[id].sender == sender && sender != s.self {
      var stream := s.streams[id];
      VestedIsFloor(stream, s.now);
      var plan := PlanCancel(stream, id, sender, s.now);
      assert Exec(s, op) == Carry(s, id, plan);
      if plan.Replace? {
        CarryMeans(s, id, plan);
      }
    }
  }

  /**
   * A clawback goes through exactly when the admin asks for a positive amount and it can be
   * paid. It takes the smaller of that amount and what has vested and not been paid, to the
   * admin, or nothing when there is nothing to take.
   */
  lemma ClawbackAnswers(s: State, id: nat, amount: I128, admin: Address)
    ensures var o := Exec(s, Clawback(id, amount, admin));
      && !o.ClaimTooFrequent?
      && (o.Done? <==>
            && amount > 0 && s.admin == Some(admin) && admin != s.self && id in s.streams
            && !VestingTraps(s.streams[id], s.now)
            && var open := VestedAmount(s.streams[id], s.now) - s.streams[id].claimedAmount;
            && var taken := if open < amount then open else amount;
            taken <= 0 || CanPay(s, s.streams[id].token, s.self, admin, taken))
      && (o.Done? ==>
            && var stream := s.streams[id];
            && var open := VestedAmount(stream, s.now) - stream.claimedAmount;
            && var taken := if open < amount then open else amount;
            && o.reply == taken
            && if taken <= 0 then o.state == s
               else && Moved(s, o.state, stream.token, s.self, admin, taken)
                    && OneRecord(s, o.state, id, stream.(claimedAmount := stream.claimedAmount + taken),
                                 [ClawbackExecuted(id, taken)]))
  {
    var op := Clawback(id, amount, admin);
    assert Exec(s, op) == ExecEdit(s, op);
    if id in s.streams && admin != s.self {
      var plan := PlanClawback(s.streams[id], id, amount, admin, s.admin, s.now);
      assert Exec(s, op) == Carry(s, id, plan);
      if plan.Replace? {
        CarryMeans(s, id, plan);
      }
    }
  }

  // ------------------------------------------------------------------
  // Pause, resume, transfer
  // ------------------------------------------------------------------

  /** Only the sender pauses, and only a running stream that was not canceled; the moment is noted. */
  lemma PauseAnswers(s: State, id: nat, sender: Address)
    ensures var o := Exec(s, PauseStream(id, sender));
      && !o.ClaimTooFrequent?
      && (o.Done? <==>
            && id in s.streams && s.streams[id].sender == sender && sender != s.self
            && !s.streams[id].canceled && !s.streams[id].paused)
      && (o.Done? ==>
            && o.state.balances == s.balances
            && OneRecord(s, o.state, id, s.streams[id].(paused := true, pauseStartedAt := Some(s.now)),
                         [StreamPaused(id, s.now)]))
  {
    var op := PauseStream(id, sender);
    if id in s.streams {
      assert Exec(s, op) == ExecEdit(s, op);
      var plan := PlanPause(s.streams[id], id, sender, s.now);
      if plan.Replace? { CarryMeans(s, id, plan); }
    }
  }

  /**
   * Only the sender resumes, and only a paused stream, canceled or not; its whole schedule
   * moves by the time paused, no further than the last timestamp.
   */
  lemma ResumeAnswers(s: State, id: nat, sender: Address)
    ensures var o := Exec(s, ResumeStream(id, sender));
      && !o.ClaimTooFrequent?
      && (o.Done? <==>
            && id in s.streams && s.streams[id].sender == sender && sender != s.self
            && s.streams[id].paused && s.streams[id].pauseStartedAt.Some?)
      && (o.Done? ==>
            && o.state.balances == s.balances
            && var stream := s.streams[id];
            && var d := Max(0, s.now - stream.pauseStartedAt.value);
            OneRecord(s, o.state, id,
              stream.(startTime := Min(U64_MAX, stream.startTime + d), endTime := Min(U64_MAX, stream.endTime + d),
                      paused := false, pauseStartedAt := None),
              [StreamResumed(id, s.now)]))
  {
    var op := ResumeStream(id, sender);
    if id in s.streams {
      assert Exec(s, op) == ExecEdit(s, op);
      var plan := PlanResume(s.streams[id], id, sender, s.now);
      if plan.Replace? { CarryMeans(s, id, plan); }
    }
  }

  /** Transferring needs the recipient's signature and replaces the recipient alone. */
  lemma TransferAnswers(s: State, id: nat, newRecipient: Address)
    ensures var o := Exec(s, TransferStream(id, newRecipient));
      && !o.ClaimTooFrequent?
      && (o.Done? <==> id in s.streams && s.streams[id].recipient != s.self)
      && (o.Done? ==>
            && o.state.balances == s.balances
            && OneRecord(s, o.state, id, s.streams[id].(recipient := newRecipient),
                         [StreamTransferred(id, s.streams[id].recipient, newRecipient)]))
  {
    var op := TransferStream(id, newRecipient);
    if id in s.streams {
      assert Exec(s, op) == ExecEdit(s, op);
      CarryMeans(s, id, PlanTransfer(s.streams[id], id, newRecipient));
    }
  }

  // ------------------------------------------------------------------
  // Creation
  // ------------------------------------------------------------------

  /** What was agreed on for a stream: who pays whom what, and when. */
  datatype Terms = Terms(
    sender: Address, recipient: Address, token: Address, total: int,
    startTime: int, endTime: int, cliff: int, minInterval: int)

  /** A record that says exactly what was agreed, of a stream that nothing has happened to. */
  ghost predicate AsAgreed(stream: Stream, terms: Terms) {
    && stream.sender == terms.sender && stream.recipient == terms.recipient && stream.token == terms.token
    && stream.totalAmount == terms.total && stream.claimedAmount == 0
    && stream.startTime == terms.startTime && stream.endTime == terms.endTime
    && stream.cliffSeconds == terms.cliff
    && stream.minClaimInterval == terms.minInterval && stream.lastClaimTime == 0
    && !stream.canceled && !stream.paused && stream.pauseStartedAt.None?
  }

  /** What a call asks for, if it asks for one stream. */
  function SingleTerms(s: State, op: Op): Option<Terms> {
    match op
    case CreateStream(sender, recipient, token, total, startTime, endTime, minInterval) =>
      Some(Terms(sender, recipient, token, total, startTime, endTime, 0, minInterval))
    case CreateStreamFromTemplate(templateId, recipient, amount) =>
      if templateId !in s.templates then None
      else
        var t := s.templates[templateId];
        Some(Terms(t.sender, recipient, t.token, amount, s.now, Min(U64_MAX, s.now + t.durationSeconds),
                   t.cliffSeconds, 0))
    case _ => None
  }

  /**
   * A creation goes through exactly when the sender signs for a positive deposit on a window
   * with a length, in a token that is listed or native, and can pay it. The deposit goes into
   * escrow, and the next id names a record that says what was asked for; nothing else changes.
   */
  lemma CreateAnswers(s: State, op: Op)
    requires op.CreateStream? || op.CreateStreamFromTemplate?
    ensures var o, terms := Exec(s, op), SingleTerms(s, op);
      && !o.ClaimTooFrequent?
      && (o.Done? <==>
            && terms.Some?
            && var a := terms.value;
            && a.sender != s.self && a.total > 0 && a.startTime < a.endTime
            && (a.token == NATIVE_SENTINEL || a.token in s.allowedTokens)
            && CanPay(s, a.token, a.sender, s.self, a.total))
      && (o.Done? ==>
            && var t, id, a := o.state, s.nextStreamId + 1, terms.value;
            && o.reply == id && id in t.streams && AsAgreed(t.streams[id], a)
            && Moved(s, t, a.token, a.sender, s.self, a.total)
            && t == s.(streams := s.streams[id := t.streams[id]], nextStreamId := id, balances := t.balances,
                       events := t.events)
            && |t.events| == |s.events| + 1 && t.events[..|s.events|] == s.events
            && var e := t.events[|s.events|];
            && e.StreamCreated? && e.id == id && e.total == a.total && e.startTime == a.startTime
            && e.endTime == a.endTime && e.cliff == a.cliff)
  {
    assert Exec(s, op) == ExecCreation(s, op);
    var terms := SingleTerms(s, op);
    if terms.Some? && terms.value.sender != s.self && terms.value.total > 0 {
      var a := terms.value;
      PayMeans(s, a.token, a.sender, s.self, a.total);
      if Exec(s, op).Done? {
        var t := Exec(s, op).state;
        MovedWith(s, s.(balances := t.balances), t, a.token, a.sender, s.self, a.total);
      }
    }
  }

  /** What a split asks for as its `i`-th child. */
  function ChildTerms(op: Op, i: nat): Terms
    requires op.CreateSplitStream? && i < |op.recipients|
  {
    Terms(op.sender, op.recipients[i].0, op.token, op.recipients[i].1, op.startTime, op.endTime, 0, 0)
  }

  /** The shares from `i` on, added up. */
  function SharesFrom(recipients: seq<(Address, I128)>, i: nat): int
    requires i <= |recipients|
    decreases |recipients| - i
  {
    if i == |recipients| then 0 else recipients[i].1 + SharesFrom(recipients, i + 1)
  }

  lemma {:induction false} SharesAreAllocated(recipients: seq<(Address, I128)>, i: nat)
    requires i <= |recipients|
    ensures SharesFrom(recipients, i) == Allocated(recipients[i..])
    decreases |recipients| - i
  {
    if i < |recipients| {
      assert recipients[i..][0] == recipients[i] && recipients[i..][1..] == recipients[i + 1..];
      SharesAreAllocated(recipients, i + 1);
    }
  }

  /**
   * A split goes through exactly when the sender signs for a deposit on a window with a
   * length, names at least one recipient, gives each a positive share adding up to the
   * deposit, and can pay it.
   */
  lemma SplitAnswers(s: State, op: Op)
    requires op.CreateSplitStream?
    ensures var o := Exec(s, op);
      && !o.ClaimTooFrequent?
      && (o.Done? <==>
            && op.sender != s.self && op.total > 0 && op.startTime < op.endTime && op.recipients != []
            && (forall i | 0 <= i < |op.recipients| :: op.recipients[i].1 > 0)
            && SharesFrom(op.recipients, 0) == op.total
            && CanPay(s, op.token, op.sender, s.self, op.total))
      && (o.Done? ==>
            && o.reply == s.nextStreamId + 1
            && Moved(s, o.state, op.token, op.sender, s.self, op.total)
            && o.state.allowedTokens == s.allowedTokens && o.state.admin == s.admin
            && o.state.templates == s.templates && o.state.now == s.now)
  {
    assert Exec(s, op) == ExecCreation(s, op);
    SharesAreAllocated(op.recipients, 0);
    assert op.recipients[0..] == op.recipients;
    if op.sender != s.self && op.total > 0 {
      PayMeans(s, op.token, op.sender, s.self, op.total);
      if Exec(s, op).Done? {
        var t := Exec(s, op).state;
        MovedWith(s, s.(balances := t.balances), t, op.token, op.sender, s.self, op.total);
      }
    }
  }

  /** ... and each recipient then has a record of its own, in order, right behind the parent's number. */
  lemma ChildrenAsAgreed(s: State, op: Op, i: nat)
    requires op.CreateSplitStream? && Exec(s, op).Done? && i < |op.recipients|
    ensures var t, id := Step(s, op), s.nextStreamId + 2 + i;
      id in t.streams && AsAgreed(t.streams[id], ChildTerms(op, i))
  {
    SplitShape(s, op);
    WithChildrenAt(s.streams, s.nextStreamId + 2, op.sender, op.token, op.startTime, op.endTime, op.recipients,
                   s.nextStreamId + 2 + i);
  }

  // ------------------------------------------------------------------
  // Templates and administration
  // ------------------------------------------------------------------

  /** A template needs its sender's signature, a length, and a cliff within it; ten of them are the limit. */
  lemma TemplateAnswers(s: State, sender: Address, token: Address, duration: U64, cliff: U64)
    ensures var o := Exec(s, CreateTemplate(sender, token, duration, cliff));
      var mine: seq<nat> := if sender in s.senderTemplates then s.senderTemplates[sender] else [];
      && !o.ClaimTooFrequent?
      && (o.Done? <==> sender != s.self && duration > 0 && cliff <= duration && |mine| < 10)
      && (o.Done? ==>
            && var t, id := o.state, s.nextTemplateId + 1;
            && o.reply == id && id in t.templates
            && t == s.(nextTemplateId := id, templates := s.templates[id := t.templates[id]],
                       senderTemplates := s.senderTemplates[sender := mine + [id]],
                       events := s.events + [TemplateCreated(id)])
            && var made := t.templates[id];
            && made.id == id && made.sender == sender && made.token == token
            && made.durationSeconds == duration && made.cliffSeconds == cliff)
  {
    assert Exec(s, CreateTemplate(sender, token, duration, cliff))
        == ExecCreateTemplate(s, sender, token, duration, cliff);
  }

  /** Setting up works once. */
  lemma InitializeAnswers(s: State, admin: Address, native: Address, allowed: seq<Address>)
    ensures var o := Exec(s, Initialize(admin, native, allowed));
      && !o.ClaimTooFrequent?
      && (o.Done? <==> s.admin.None?)
      && (o.Done? ==>
            o.state == s.(admin := Some(admin), nativeToken := Some(native), allowedTokens := allowed))
  {
  }

  lemma {:induction false} RemovedOne(xs: seq<Address>, x: Address)
    requires x in xs
    ensures multiset(Removed(xs, x)) == multiset(xs) - multiset{x}
  {
    var i := IndexOf(xs, x);
    assert xs == xs[..i] + [x] + xs[i + 1..];
  }

  /**
   * The admin calls work exactly when the admin signs. Listing a token lists it, unlisting it
   * removes one entry, the native token and the role become those named, and each leaves
   * everything else alone.
   */
  lemma AdminAnswers(s: State, op: Op)
    requires AdminOnly(op)
    ensures var o := Exec(s, op);
      && !o.ClaimTooFrequent?
      && (o.Done? <==> s.admin == Some(op.admin) && op.admin != s.self)
      && (o.Done? ==>
            match op
            case AddAllowedToken(_, token) =>
              && o.state == s.(allowedTokens := o.state.allowedTokens)
              && multiset(o.state.allowedTokens)
                 == multiset(s.allowedTokens) + if token in s.allowedTokens then multiset{} else multiset{token}
            case RemoveAllowedToken(_, token) =>
              && o.state == s.(allowedTokens := o.state.allowedTokens)
              && multiset(o.state.allowedTokens) == multiset(s.allowedTokens) - multiset{token}
            case SetNativeToken(_, native) => o.state == s.(nativeToken := Some(native))
            case SetAdmin(_, newAdmin) => o.state == s.(admin := Some(newAdmin)))
  {
    assert Exec(s, op) == ExecAdmin(s, op);
    if op.RemoveAllowedToken? && op.token in s.allowedTokens {
      RemovedOne(s.allowedTokens, op.token);
    }
  }
}
