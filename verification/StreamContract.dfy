/**
 * The contract's entry points as they run: storage fields changed step by step. Each one
 * is proved to do what `StreamState.Exec` says, including which calls fail and that a
 * failed call changes nothing.
 */
module StreamContract {
  import opened Base
  import opened Vesting
  import opened StreamState

  datatype CallResult = Returned(reply: int) | Panicked | TooFrequent

  function Reply(o: Outcome): CallResult {
    match o
    case Panic => Panicked
    case ClaimTooFrequent => TooFrequent
    case Done(_, reply) => Returned(reply)
  }

  /** Storing the first of the remaining children leaves the rest to be stored. */
  lemma OneChildStored(
    streams: map<nat, Stream>, id: nat, sender: Address, token: Address, startTime: U64, endTime: U64,
    rest: seq<(Address, I128)>, published: seq<Event>)
    requires rest != [] && AllPositive(rest)
    ensures WithChildren(streams, id, sender, token, startTime, endTime, rest)
            == WithChildren(streams[id := Child(sender, token, startTime, endTime, rest[0])], id + 1,
                            sender, token, startTime, endTime, rest[1..])
    ensures published + ChildEvents(id, startTime, endTime, rest)
            == published + [StreamCreated(id, rest[0].1, startTime, endTime, 0)]
               + ChildEvents(id + 1, startTime, endTime, rest[1..])
  {
  }

  class Contract {
    const self: Address
    var now: U64
    var admin: Option<Address>
    var nativeToken: Option<Address>
    var allowedTokens: seq<Address>
    var balances: Balances
    var nextStreamId: nat
    var streams: map<nat, Stream>
    var splitChildren: map<nat, seq<nat>>
    var childToParent: map<nat, nat>
    var nextTemplateId: nat
    var templates: map<nat, Template>
    var senderTemplates: map<Address, seq<nat>>
    var events: seq<Event>

    ghost function View(): State
      reads this
    {
      State(self, now, admin, nativeToken, allowedTokens, balances, nextStreamId, streams,
            splitChildren, childToParent, nextTemplateId, templates, senderTemplates, events)
    }

    constructor (self: Address, now: U64, balances: Balances)
      ensures Deployed(View())
      ensures View().self == self && View().now == now && View().balances == balances
    {
      this.self, this.now, this.balances := self, now, balances;
      admin, nativeToken, allowedTokens := None, None, [];
      nextStreamId, streams, splitChildren, childToParent := 0, map[], map[], map[];
      nextTemplateId, templates, senderTemplates, events := 0, map[], map[], [];
    }

    /** Resolves the native sentinel and moves tokens; does nothing when it cannot. */
    method TransferTokens(token: Address, payer: Address, payee: Address, amount: nat) returns (ok: bool)
      modifies this`balances
      ensures ok == Pay(old(View()), token, payer, payee, amount).Some?
      ensures ok ==> Pay(old(View()), token, payer, payee, amount) == Some(balances)
      ensures !ok ==> balances == old(balances)
    {
      var actual := token;
      if token == NATIVE_SENTINEL {
        if nativeToken.None? {
          return false;
        }
        actual := nativeToken.value;
      }
      if BalanceOf(balances, actual, payer) < amount {
        return false;
      }
      var debited := balances[(actual, payer) := BalanceOf(balances, actual, payer) - amount];
      if BalanceOf(debited, actual, payee) + amount > I128_MAX {
        return false;
      }
      balances := debited[(actual, payee) := BalanceOf(debited, actual, payee) + amount];
      return true;
    }

    method Initialize(admin: Address, native: Address, allowed: seq<Address>) returns (r: CallResult)
      modifies this
      ensures View() == Step(old(View()), Op.Initialize(admin, native, allowed))
      ensures r == Reply(Exec(old(View()), Op.Initialize(admin, native, allowed)))
    {
      if this.admin.Some? {
        return Panicked;
      }
      this.admin := Some(admin);
      nativeToken := Some(native);
      allowedTokens := allowed;
      return Returned(0);
    }

    method CreateTemplate(sender: Address, token: Address, duration: U64, cliff: U64) returns (r: CallResult)
      modifies this
      ensures var o := ExecCreateTemplate(old(View()), sender, token, duration, cliff);
        View() == After(old(View()), o) && r == Reply(o)
    {
      if sender == self || duration == 0 || cliff > duration {
        return Panicked;
      }
      var mine := if sender in senderTemplates then senderTemplates[sender] else [];
      if |mine| >= MAX_TEMPLATES_PER_SENDER {
        return Panicked;
      }
      var id := nextTemplateId + 1;
      templates := templates[id := Template(id, sender, token, duration, cliff)];
      senderTemplates := senderTemplates[sender := mine + [id]];
      nextTemplateId := id;
      events := events + [TemplateCreated(id)];
      return Returned(id);
    }

    /** `create_stream_with_config` */
    method CreateWithConfig(sender: Address, recipient: Address, token: Address, total: I128, startTime: U64,
                            endTime: U64, cliff: U64, minInterval: U64) returns (r: CallResult)
      modifies this
      ensures var o := ExecCreate(old(View()), sender, recipient, token, total, startTime, endTime, cliff, minInterval);
        View() == After(old(View()), o) && r == Reply(o)
    {
      if sender == self || total <= 0 || endTime <= startTime {
        return Panicked;
      }
      if token != NATIVE_SENTINEL && token !in allowedTokens {
        return Panicked;
      }
      var ok := TransferTokens(token, sender, self, total);
      if !ok {
        return Panicked;
      }
      var id := nextStreamId + 1;
      nextStreamId := id;
      streams := streams[id := NewStream(sender, recipient, token, total, startTime, endTime, cliff, minInterval)];
      events := events + [StreamCreated(id, total, startTime, endTime, cliff)];
      return Returned(id);
    }

    method CreateStream(sender: Address, recipient: Address, token: Address, total: I128, startTime: U64,
                        endTime: U64, minInterval: U64) returns (r: CallResult)
      modifies this
      ensures var op := Op.CreateStream(sender, recipient, token, total, startTime, endTime, minInterval);
        View() == Step(old(View()), op) && r == Reply(Exec(old(View()), op))
    {
      r := CreateWithConfig(sender, recipient, token, total, startTime, endTime, 0, minInterval);
    }

    method CreateStreamFromTemplate(templateId: nat, recipient: Address, amount: I128) returns (r: CallResult)
      modifies this
      ensures View() == Step(old(View()), Op.CreateStreamFromTemplate(templateId, recipient, amount))
      ensures r == Reply(Exec(old(View()), Op.CreateStreamFromTemplate(templateId, recipient, amount)))
    {
      if templateId !in templates {
        return Panicked;
      }
      var t := templates[templateId];
      r := CreateWithConfig(t.sender, recipient, t.token, amount, now, SatAdd(now, t.durationSeconds),
                            t.cliffSeconds, 0);
    }

    /** The loop over recipients: the tables as they are after it, unless an allocation is not positive. */
    method StoreChildren(parent: nat, sender: Address, token: Address, startTime: U64, endTime: U64,
                         recipients: seq<(Address, I128)>)
      returns (ok: bool, allocatedTotal: int, nextId: nat, children: map<nat, Stream>, parents: map<nat, nat>,
               childIds: seq<nat>, published: seq<Event>)
      ensures ok <==> AllPositive(recipients)
      ensures ok ==>
                && allocatedTotal == Allocated(recipients)
                && nextId == parent + |recipients|
                && children == WithChildren(streams, parent + 1, sender, token, startTime, endTime, recipients)
                && parents == WithParents(childToParent, parent + 1, |recipients|, parent)
                && childIds == ChildIds(parent, |recipients|)
                && published == ChildEvents(parent + 1, startTime, endTime, recipients)
    {
      ok, allocatedTotal, nextId := true, 0, parent;
      children, parents, childIds, published := streams, childToParent, [], [];
      var i := 0;
      while i < |recipients|
        invariant 0 <= i <= |recipients| && nextId == parent + i && ok
        invariant forall j | 0 <= j < i :: recipients[j].1 > 0
        invariant allocatedTotal + Allocated(recipients[i..]) == Allocated(recipients)
        invariant childIds == ChildIds(parent, i)
        invariant AllPositive(recipients[i..]) ==>
                    AllPositive(recipients)
                    && WithChildren(children, nextId + 1, sender, token, startTime, endTime, recipients[i..])
                       == WithChildren(streams, parent + 1, sender, token, startTime, endTime, recipients)
                    && published + ChildEvents(nextId + 1, startTime, endTime, recipients[i..])
                       == ChildEvents(parent + 1, startTime, endTime, recipients)
        invariant WithParents(parents, nextId + 1, |recipients| - i, parent)
                  == WithParents(childToParent, parent + 1, |recipients|, parent)
      {
        var (recipient, allocation) := recipients[i];
        if allocation <= 0 {
          ok := false;
          return;
        }
        assert recipients[i..][0] == recipients[i] && recipients[i..][1..] == recipients[i + 1..];
        if AllPositive(recipients[i..]) {
          OneChildStored(children, nextId + 1, sender, token, startTime, endTime, recipients[i..], published);
        }
        allocatedTotal := allocatedTotal + allocation;
        nextId := nextId + 1;
        children := children[nextId := NewStream(sender, recipient, token, allocation, startTime, endTime, 0, 0)];
        parents := parents[nextId := parent];
        childIds := childIds + [nextId];
        published := published + [StreamCreated(nextId, allocation, startTime, endTime, 0)];
        i := i + 1;
      }
      assert recipients[i..] == [];
    }

    method CommitSplit(parent: nat, nextId: nat, children: map<nat, Stream>, parents: map<nat, nat>,
                       childIds: seq<nat>, published: seq<Event>)
      modifies this
      ensures View() == old(View()).(streams := children, childToParent := parents, nextStreamId := nextId,
                splitChildren := old(splitChildren)[parent := childIds], events := old(events) + published)
    {
      streams := children;
      childToParent := parents;
      splitChildren := splitChildren[parent := childIds];
      nextStreamId := nextId;
      events := events + published;
    }

    /**
     * Takes the deposit, then stores the children. The loop's writes reach the tables only
     * once every allocation has been checked, and a panic half way gives the deposit back:
     * a failed call leaves no trace.
     */
    method CreateSplitStream(sender: Address, token: Address, total: I128, startTime: U64, endTime: U64,
                             recipients: seq<(Address, I128)>) returns (r: CallResult)
      modifies this
      ensures var o := ExecSplit(old(View()), sender, token, total, startTime, endTime, recipients);
        View() == After(old(View()), o) && r == Reply(o)
    {
      ghost var before := View();
      if sender == self || total <= 0 || endTime <= startTime || recipients == [] {
        return Panicked;
      }
      var balancesBefore := balances;
      var paid := TransferTokens(token, sender, self, total);
      if !paid {
        return Panicked;
      }
      var parent := nextStreamId + 1;
      var ok, allocatedTotal, nextId, children, parents, childIds, published :=
        StoreChildren(parent, sender, token, startTime, endTime, recipients);
      if !ok || allocatedTotal != total {
        balances := balancesBefore;
        assert View() == before && ExecSplit(before, sender, token, total, startTime, endTime, recipients).Panic?;
        return Panicked;
      }
      CommitSplit(parent, nextId, children, parents, childIds, published);
      assert ExecSplit(before, sender, token, total, startTime, endTime, recipients) == Done(View(), parent);
      return Returned(parent);
    }

    // ----------------------------------------------------------------
    // Operations on one stream
    // ----------------------------------------------------------------

    /**
     * The common end of a call: pays `payment` out of escrow (nothing when it is not
     * positive), stores the stream and publishes its events, or fails and does nothing.
     */
    method PayAndStore(id: nat, stream: Stream, payment: int, payee: Address, published: seq<Event>)
      returns (ok: bool)
      requires id in streams
      modifies this
      ensures forall reply :: Carry(old(View()), id, Replace(stream, payment, payee, published, reply))
                              == if ok then Done(View(), reply) else Panic
      ensures !ok ==> View() == old(View())
    {
      if payment > 0 {
        ok := TransferTokens(streams[id].token, self, payee, payment);
        if !ok {
          return;
        }
      }
      streams := streams[id := stream];
      events := events + published;
      ok := true;
    }

    method Claim(id: nat, recipient: Address, amount: I128) returns (r: CallResult)
      modifies this
      ensures View() == Step(old(View()), Op.Claim(id, recipient, amount))
      ensures r == Reply(Exec(old(View()), Op.Claim(id, recipient, amount)))
    {
      if amount <= 0 || id !in streams {
        return Panicked;
      }
      var stream := streams[id];
      if stream.recipient != recipient || recipient == self {
        return Panicked;
      }
      if stream.minClaimInterval > 0 && stream.claimedAmount > 0
         && now < SatAdd(stream.lastClaimTime, stream.minClaimInterval) {
        return TooFrequent;
      }
      if VestingTraps(stream, now) {
        return Panicked;
      }
      if amount > ClaimableAmount(stream, now) {
        return Panicked;
      }
      stream := stream.(claimedAmount := stream.claimedAmount + amount, lastClaimTime := now);
      var published := [StreamClaimed(id, amount)];
      if stream.claimedAmount >= stream.totalAmount {
        published := published + [StreamCompleted(id)];
      }
      ghost var plan := PlanClaim(streams[id], id, recipient, amount, now);
      assert plan == Replace(stream, amount, recipient, published, amount);
      assert Exec(View(), Op.Claim(id, recipient, amount)) == Carry(View(), id, plan);
      var ok := PayAndStore(id, stream, amount, recipient, published);
      return if ok then Returned(amount) else Panicked;
    }

    method Cancel(id: nat, sender: Address) returns (r: CallResult)
      modifies this
      ensures View() == Step(old(View()), Op.Cancel(id, sender))
      ensures r == Reply(Exec(old(View()), Op.Cancel(id, sender)))
    {
      if id !in streams {
        return Panicked;
      }
      var stream := streams[id];
      if stream.sender != sender || sender == self {
        return Panicked;
      }
      if stream.canceled {
        return Returned(0);
      }
      stream := stream.(canceled := true);
      if VestingTraps(stream, now) {
        return Panicked;
      }
      var vested := VestedAmount(stream, now);
      var senderRefund := stream.totalAmount - vested;
      var minEnd := if now > stream.startTime then now else stream.startTime;
      if minEnd < stream.endTime {
        stream := stream.(endTime := minEnd, totalAmount := vested);
      }
      ghost var plan := PlanCancel(streams[id], id, sender, now);
      assert plan == Replace(stream, senderRefund, sender, [StreamCanceled(id, senderRefund)], 0);
      assert Exec(View(), Op.Cancel(id, sender)) == Carry(View(), id, plan);
      var ok := PayAndStore(id, stream, senderRefund, sender, [StreamCanceled(id, senderRefund)]);
      return if ok then Returned(0) else Panicked;
    }

    method TransferStream(id: nat, newRecipient: Address) returns (r: CallResult)
      modifies this
      ensures View() == Step(old(View()), Op.TransferStream(id, newRecipient))
      ensures r == Reply(Exec(old(View()), Op.TransferStream(id, newRecipient)))
    {
      if id !in streams || streams[id].recipient == self {
        return Panicked;
      }
      var stream := streams[id];
      var oldRecipient := stream.recipient;
      stream := stream.(recipient := newRecipient);
      streams := streams[id := stream];
      events := events + [StreamTransferred(id, oldRecipient, newRecipient)];
      return Returned(0);
    }

    method PauseStream(id: nat, sender: Address) returns (r: CallResult)
      modifies this
      ensures View() == Step(old(View()), Op.PauseStream(id, sender))
      ensures r == Reply(Exec(old(View()), Op.PauseStream(id, sender)))
    {
      if id !in streams || streams[id].sender != sender || sender == self {
        return Panicked;
      }
      var stream := streams[id];
      if stream.canceled || stream.paused {
        return Panicked;
      }
      stream := stream.(paused := true, pauseStartedAt := Some(now));
      streams := streams[id := stream];
      events := events + [StreamPaused(id, now)];
      return Returned(0);
    }

    method ResumeStream(id: nat, sender: Address) returns (r: CallResult)
      modifies this
      ensures View() == Step(old(View()), Op.ResumeStream(id, sender))
      ensures r == Reply(Exec(old(View()), Op.ResumeStream(id, sender)))
    {
      if id !in streams || streams[id].sender != sender || sender == self {
        return Panicked;
      }
      var stream := streams[id];
      if !stream.paused || stream.pauseStartedAt.None? {
        return Panicked;
      }
      var pausedDuration := SatSub(now, stream.pauseStartedAt.value);
      stream := stream.(startTime := SatAdd(stream.startTime, pausedDuration));
      stream := stream.(endTime := SatAdd(stream.endTime, pausedDuration));
      stream := stream.(paused := false, pauseStartedAt := None);
      streams := streams[id := stream];
      events := events + [StreamResumed(id, now)];
      return Returned(0);
    }

    method Clawback(id: nat, amount: I128, admin: Address) returns (r: CallResult)
      modifies this
      ensures View() == Step(old(View()), Op.Clawback(id, amount, admin))
      ensures r == Reply(Exec(old(View()), Op.Clawback(id, amount, admin)))
    {
      if amount <= 0 || this.admin != Some(admin) || admin == self || id !in streams {
        return Panicked;
      }
      var stream := streams[id];
      if VestingTraps(stream, now) {
        return Panicked;
      }
      var unclaimedVested := VestedAmount(stream, now) - stream.claimedAmount;
      var actualClawback := if amount > unclaimedVested then unclaimedVested else amount;
      if actualClawback > 0 {
        stream := stream.(claimedAmount := stream.claimedAmount + actualClawback);
        ghost var plan := PlanClawback(streams[id], id, amount, admin, this.admin, now);
        assert plan == Replace(stream, actualClawback, admin, [ClawbackExecuted(id, actualClawback)], actualClawback);
        assert Exec(View(), Op.Clawback(id, amount, admin)) == Carry(View(), id, plan);
        var ok := PayAndStore(id, stream, actualClawback, admin, [ClawbackExecuted(id, actualClawback)]);
        if !ok {
          return Panicked;
        }
      }
      return Returned(actualClawback);
    }

    // ----------------------------------------------------------------
    // Administration
    // ----------------------------------------------------------------

    method AddAllowedToken(admin: Address, token: Address) returns (r: CallResult)
      modifies this
      ensures View() == Step(old(View()), Op.AddAllowedToken(admin, token))
      ensures r == Reply(Exec(old(View()), Op.AddAllowedToken(admin, token)))
    {
      if this.admin != Some(admin) || admin == self {
        return Panicked;
      }
      if token !in allowedTokens {
        allowedTokens := allowedTokens + [token];
      }
      return Returned(0);
    }

    method RemoveAllowedToken(admin: Address, token: Address) returns (r: CallResult)
      modifies this
      ensures View() == Step(old(View()), Op.RemoveAllowedToken(admin, token))
      ensures r == Reply(Exec(old(View()), Op.RemoveAllowedToken(admin, token)))
    {
      if this.admin != Some(admin) || admin == self {
        return Panicked;
      }
      if token in allowedTokens {
        var i := IndexOf(allowedTokens, token);
        allowedTokens := allowedTokens[..i] + allowedTokens[i + 1..];
      }
      return Returned(0);
    }

    method SetNativeToken(admin: Address, native: Address) returns (r: CallResult)
      modifies this
      ensures View() == Step(old(View()), Op.SetNativeToken(admin, native))
      ensures r == Reply(Exec(old(View()), Op.SetNativeToken(admin, native)))
    {
      if this.admin != Some(admin) || admin == self {
        return Panicked;
      }
      nativeToken := Some(native);
      return Returned(0);
    }

    method SetAdmin(admin: Address, newAdmin: Address) returns (r: CallResult)
      modifies this
      ensures View() == Step(old(View()), Op.SetAdmin(admin, newAdmin))
      ensures r == Reply(Exec(old(View()), Op.SetAdmin(admin, newAdmin)))
    {
      if this.admin != Some(admin) || admin == self {
        return Panicked;
      }
      this.admin := Some(newAdmin);
      return Returned(0);
    }

    // ----------------------------------------------------------------
    // Reading
    // ----------------------------------------------------------------

    /** At most twenty streams at once; unknown streams count as zero, a trap fails the whole call. */
    method GetClaimableBatch(ids: seq<nat>, at: U64) returns (result: Option<map<nat, nat>>)
      ensures result.Some? <==>
              |ids| <= 20 && forall i | 0 <= i < |ids| :: ids[i] in streams ==> !VestingTraps(streams[ids[i]], at)
      ensures result.Some? ==>
                && (forall id :: id in result.value <==> id in ids)
                && forall id | id in result.value ::
                    result.value[id] == if id in streams then ClaimableAmount(streams[id], at) else 0
    {
      if |ids| > 20 {
        return None;
      }
      var amounts: map<nat, nat> := map[];
      for i := 0 to |ids|
        invariant forall id :: id in amounts <==> id in ids[..i]
        invariant forall id | id in amounts ::
            amounts[id] == if id in streams then ClaimableAmount(streams[id], at) else 0
        invariant forall j | 0 <= j < i :: ids[j] in streams ==> !VestingTraps(streams[ids[j]], at)
      {
        var id := ids[i];
        assert ids[..i + 1] == ids[..i] + [id];
        if id in streams {
          if VestingTraps(streams[id], at) {
            return None;
          }
          var claimable := VestedAmount(streams[id], at) - streams[id].claimedAmount;
          amounts := amounts[id := if claimable < 0 then 0 else claimable];
        } else {
          amounts := amounts[id := 0];
        }
      }
      assert ids[..|ids|] == ids;
      return Some(amounts);
    }
  }
}
