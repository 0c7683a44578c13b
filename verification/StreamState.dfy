/**
 * The streaming-payment contract as a transition function over its storage, the token
 * balances it can see and the ledger clock. A call that panics, and one that returns an
 * error, leaves everything as it was.
 */
module StreamState {
  import opened Base
  import opened Vesting

  const NATIVE_SENTINEL: Address := "GAAAAAAAAAAAAAAAAAAAAAAAAAAAAAAAAAAAAAAAAAAAAAAAAAAAAWHF"
  const MAX_TEMPLATES_PER_SENDER: nat := 10

  datatype Template = Template(
    id: nat, sender: Address, token: Address, durationSeconds: U64, cliffSeconds: U64)

  datatype Event =
    | StreamCreated(id: nat, total: nat, startTime: U64, endTime: U64, cliff: U64)
    | StreamClaimed(id: nat, claimed: nat)
    | StreamCompleted(id: nat)
    | StreamCanceled(id: nat, refunded: int)
    | StreamPaused(id: nat, pausedAt: U64)
    | StreamResumed(id: nat, resumedAt: U64)
    | ClawbackExecuted(id: nat, clawed: nat)
    | StreamTransferred(id: nat, oldRecipient: Address, newRecipient: Address)
    | TemplateCreated(id: nat)

  /** (token, holder) to balance */
  type Balances = map<(Address, Address), nat>

  datatype State = State(
    self: Address,
    now: U64,
    admin: Option<Address>,
    nativeToken: Option<Address>,
    allowedTokens: seq<Address>,
    balances: Balances,
    nextStreamId: nat,
    streams: map<nat, Stream>,
    splitChildren: map<nat, seq<nat>>,
    childToParent: map<nat, nat>,
    nextTemplateId: nat,
    templates: map<nat, Template>,
    senderTemplates: map<Address, seq<nat>>,
    events: seq<Event>)

  datatype Outcome = Panic | ClaimTooFrequent | Done(state: State, reply: int)

  datatype Op =
    | Initialize(admin: Address, native: Address, allowed: seq<Address>)
    | CreateTemplate(sender: Address, token: Address, duration: U64, cliff: U64)
    | CreateStream(sender: Address, recipient: Address, token: Address, total: I128,
                   startTime: U64, endTime: U64, minInterval: U64)
    | CreateStreamFromTemplate(templateId: nat, recipient: Address, amount: I128)
    | CreateSplitStream(sender: Address, token: Address, total: I128,
                        startTime: U64, endTime: U64, recipients: seq<(Address, I128)>)
    | Claim(id: nat, recipient: Address, amount: I128)
    | Cancel(id: nat, sender: Address)
    | TransferStream(id: nat, newRecipient: Address)
    | PauseStream(id: nat, sender: Address)
    | ResumeStream(id: nat, sender: Address)
    | Clawback(id: nat, amount: I128, admin: Address)
    | AddAllowedToken(admin: Address, token: Address)
    | RemoveAllowedToken(admin: Address, token: Address)
    | SetNativeToken(admin: Address, native: Address)
    | SetAdmin(admin: Address, newAdmin: Address)
      // What happens around the contract: the ledger closes, other accounts' balances
      // change in any way, and anyone may send tokens to the contract.
    | LedgerClose(timestamp: U64)
    | OutsideBalance(token: Address, holder: Address, balance: nat)
    | Donate(token: Address, gift: nat)

  // ------------------------------------------------------------------
  // Tokens
  // ------------------------------------------------------------------

  function BalanceOf(b: Balances, token: Address, holder: Address): nat {
    if (token, holder) in b then b[(token, holder)] else 0
  }

  /** SEP-41 `transfer`: fails when the payer is short or the payee's i128 would overflow. */
  function Transferred(b: Balances, token: Address, payer: Address, payee: Address, amount: nat)
    : Option<Balances>
  {
    if BalanceOf(b, token, payer) < amount then None
    else
      var debited := b[(token, payer) := BalanceOf(b, token, payer) - amount];
      if BalanceOf(debited, token, payee) + amount > I128_MAX then None
      else Some(debited[(token, payee) := BalanceOf(debited, token, payee) + amount])
  }

  function ActualToken(native: Option<Address>, token: Address): Option<Address> {
    if token == NATIVE_SENTINEL then native else Some(token)
  }

  /** `require_auth`: the contract itself never signs anything. */
  predicate Signs(s: State, who: Address) {
    who != s.self
  }

  /** Moves `amount` of the stream's token, resolving the native sentinel first. */
  function Pay(s: State, token: Address, payer: Address, payee: Address, amount: nat): Option<Balances> {
    match ActualToken(s.nativeToken, token)
    case None => None
    case Some(actual) => Transferred(s.balances, actual, payer, payee, amount)
  }

  // ------------------------------------------------------------------
  // Creation
  // ------------------------------------------------------------------

  function NewStream(sender: Address, recipient: Address, token: Address, total: nat,
                     startTime: U64, endTime: U64, cliff: U64, minInterval: U64): Stream
  {
    Stream(sender, recipient, token, total, 0, startTime, endTime, cliff, minInterval, 0,
           false, false, None)
  }

  /** The checks every creation makes before it takes the deposit. */
  predicate DepositAccepted(s: State, sender: Address, total: int, startTime: U64, endTime: U64) {
    Signs(s, sender) && total > 0 && startTime < endTime
  }

  function ExecCreate(s: State, sender: Address, recipient: Address, token: Address, total: I128,
                      startTime: U64, endTime: U64, cliff: U64, minInterval: U64): Outcome
  {
    if !DepositAccepted(s, sender, total, startTime, endTime) then Panic
    else if token != NATIVE_SENTINEL && token !in s.allowedTokens then Panic
    else
      match Pay(s, token, sender, s.self, total)
      case None => Panic
      case Some(paid) =>
        var id := s.nextStreamId + 1;
        var stream := NewStream(sender, recipient, token, total, startTime, endTime, cliff, minInterval);
        Done(s.(balances := paid, nextStreamId := id, streams := s.streams[id := stream],
             events := s.events + [StreamCreated(id, total, startTime, endTime, cliff)]), id)
  }

  function ExecCreateFromTemplate(s: State, templateId: nat, recipient: Address, amount: I128): Outcome {
    if templateId !in s.templates then Panic
    else
      var t := s.templates[templateId];
      ExecCreate(s, t.sender, recipient, t.token, amount, s.now, SatAdd(s.now, t.durationSeconds),
                 t.cliffSeconds, 0)
  }

  function TemplatesOf(s: State, sender: Address): seq<nat> {
    if sender in s.senderTemplates then s.senderTemplates[sender] else []
  }

  function ExecCreateTemplate(s: State, sender: Address, token: Address, duration: U64, cliff: U64): Outcome {
    if !Signs(s, sender) || duration == 0 || cliff > duration then Panic
    else if |TemplatesOf(s, sender)| >= MAX_TEMPLATES_PER_SENDER then Panic
    else
      var id := s.nextTemplateId + 1;
      Done(s.(nextTemplateId := id,
           templates := s.templates[id := Template(id, sender, token, duration, cliff)],
           senderTemplates := s.senderTemplates[sender := TemplatesOf(s, sender) + [id]],
           events := s.events + [TemplateCreated(id)]), id)
  }

  predicate AllPositive(recipients: seq<(Address, I128)>) {
    forall i | 0 <= i < |recipients| :: recipients[i].1 > 0
  }

  function Allocated(recipients: seq<(Address, I128)>): int {
    if recipients == [] then 0 else recipients[0].1 + Allocated(recipients[1..])
  }

  function Child(sender: Address, token: Address, startTime: U64, endTime: U64,
                 recipient: (Address, I128)): Stream
    requires recipient.1 > 0
  {
    NewStream(sender, recipient.0, token, recipient.1, startTime, endTime, 0, 0)
  }

  /** The stream table after storing the children under the ids from `first` on. */
  function WithChildren(streams: map<nat, Stream>, first: nat, sender: Address, token: Address,
                        startTime: U64, endTime: U64, recipients: seq<(Address, I128)>): map<nat, Stream>
    requires AllPositive(recipients)
    decreases |recipients|
  {
    if recipients == [] then streams
    else WithChildren(streams[first := Child(sender, token, startTime, endTime, recipients[0])],
                      first + 1, sender, token, startTime, endTime, recipients[1..])
  }

  function WithParents(childToParent: map<nat, nat>, first: nat, n: nat, parent: nat): map<nat, nat>
    decreases n
  {
    if n == 0 then childToParent
    else WithParents(childToParent[first := parent], first + 1, n - 1, parent)
  }

  function ChildIds(parent: nat, n: nat): seq<nat> {
    seq(n, i requires 0 <= i => parent + 1 + i)
  }

  function ChildEvents(first: nat, startTime: U64, endTime: U64, recipients: seq<(Address, I128)>): seq<Event>
    requires AllPositive(recipients)
    decreases |recipients|
  {
    if recipients == [] then []
    else [StreamCreated(first, recipients[0].1, startTime, endTime, 0)]
         + ChildEvents(first + 1, startTime, endTime, recipients[1..])
  }

  function ExecSplit(s: State, sender: Address, token: Address, total: I128,
                     startTime: U64, endTime: U64, recipients: seq<(Address, I128)>): Outcome
  {
    if !DepositAccepted(s, sender, total, startTime, endTime) || recipients == [] then Panic
    else if !AllPositive(recipients) || Allocated(recipients) != total then Panic
    else
      match Pay(s, token, sender, s.self, total)
      case None => Panic
      case Some(paid) =>
        var parent := s.nextStreamId + 1;
        var n := |recipients|;
        Done(s.(balances := paid, nextStreamId := parent + n,
             streams := WithChildren(s.streams, parent + 1, sender, token, startTime, endTime, recipients),
             splitChildren := s.splitChildren[parent := ChildIds(parent, n)],
             childToParent := WithParents(s.childToParent, parent + 1, n, parent),
             events := s.events + ChildEvents(parent + 1, startTime, endTime, recipients)), parent)
  }

  // ------------------------------------------------------------------
  // Operations on one stream
  // ------------------------------------------------------------------

  /**
   * What a call on a stored stream decides: refuse, answer without effect, or pay
   * `payment` out of escrow (nothing when it is not positive) and store `after`.
   */
  datatype Plan =
    | Refuse
    | Throttle
    | Answer(reply: int)
    | Replace(after: Stream, payment: int, payee: Address, events: seq<Event>, reply: int)

  predicate ThrottledNow(stream: Stream, now: U64) {
    && stream.minClaimInterval > 0
    && stream.claimedAmount > 0
    && now < SatAdd(stream.lastClaimTime, stream.minClaimInterval)
  }

  function AfterClaim(stream: Stream, amount: nat, now: U64): Stream {
    stream.(claimedAmount := stream.claimedAmount + amount, lastClaimTime := now)
  }

  function ClaimEvents(id: nat, after: Stream, amount: nat): seq<Event> {
    [StreamClaimed(id, amount)]
    + if after.claimedAmount >= after.totalAmount then [StreamCompleted(id)] else []
  }

  function PlanClaim(stream: Stream, id: nat, recipient: Address, amount: I128, now: U64): Plan {
    if amount <= 0 || stream.recipient != recipient then Refuse
    else if ThrottledNow(stream, now) then Throttle
    else if VestingTraps(stream, now) || amount > ClaimableAmount(stream, now) then Refuse
    else
      var after := AfterClaim(stream, amount, now);
      Replace(after, amount, recipient, ClaimEvents(id, after, amount), amount)
  }

  function PlanCancel(stream: Stream, id: nat, sender: Address, now: U64): Plan {
    if stream.sender != sender then Refuse
    else if stream.canceled then Answer(0)
    else if VestingTraps(stream, now) then Refuse
    else
      var refund := Refund(stream, now);
      Replace(Canceled(stream, now), refund, sender, [StreamCanceled(id, refund)], 0)
  }

  function PlanTransfer(stream: Stream, id: nat, newRecipient: Address): Plan {
    Replace(stream.(recipient := newRecipient), 0, newRecipient,
            [StreamTransferred(id, stream.recipient, newRecipient)], 0)
  }

  function PlanPause(stream: Stream, id: nat, sender: Address, now: U64): Plan {
    if stream.sender != sender || stream.canceled || stream.paused then Refuse
    else Replace(Paused(stream, now), 0, sender, [StreamPaused(id, now)], 0)
  }

  function PlanResume(stream: Stream, id: nat, sender: Address, now: U64): Plan {
    if stream.sender != sender || !stream.paused || stream.pauseStartedAt.None? then Refuse
    else Replace(Resumed(stream, now), 0, sender, [StreamResumed(id, now)], 0)
  }

  function PlanClawback(stream: Stream, id: nat, amount: I128, admin: Address, storedAdmin: Option<Address>,
                        now: U64): Plan
  {
    if amount <= 0 || storedAdmin != Some(admin) || VestingTraps(stream, now) then Refuse
    else
      var unclaimed := VestedAmount(stream, now) - stream.claimedAmount;
      var actual := Min(amount, unclaimed);
      if actual <= 0 then Answer(actual)
      else Replace(stream.(claimedAmount := stream.claimedAmount + actual), actual, admin,
                   [ClawbackExecuted(id, actual)], actual)
  }

  predicate EditsOne(op: Op) {
    op.Claim? || op.Cancel? || op.TransferStream? || op.PauseStream? || op.ResumeStream? || op.Clawback?
  }

  /** The account whose authorization the call needs. */
  function Signer(stream: Stream, op: Op): Address
    requires EditsOne(op)
  {
    match op
    case Claim(_, recipient, _) => recipient
    case TransferStream(_, _) => stream.recipient
    case Clawback(_, _, admin) => admin
    case Cancel(_, sender) => sender
    case PauseStream(_, sender) => sender
    case ResumeStream(_, sender) => sender
  }

  function PlanFor(stream: Stream, op: Op, storedAdmin: Option<Address>, now: U64): Plan
    requires EditsOne(op)
  {
    match op
    case Claim(id, recipient, amount) => PlanClaim(stream, id, recipient, amount, now)
    case Cancel(id, sender) => PlanCancel(stream, id, sender, now)
    case TransferStream(id, newRecipient) => PlanTransfer(stream, id, newRecipient)
    case PauseStream(id, sender) => PlanPause(stream, id, sender, now)
    case ResumeStream(id, sender) => PlanResume(stream, id, sender, now)
    case Clawback(id, amount, admin) => PlanClawback(stream, id, amount, admin, storedAdmin, now)
  }

  /** Stores `after` under `id`, with the balances and events of a successful call. */
  function Stored(s: State, id: nat, after: Stream, balances: Balances, events: seq<Event>): State {
    s.(streams := s.streams[id := after], balances := balances, events := s.events + events)
  }

  function Carry(s: State, id: nat, plan: Plan): Outcome
    requires id in s.streams
  {
    match plan
    case Refuse => Panic
    case Throttle => ClaimTooFrequent
    case Answer(reply) => Done(s, reply)
    case Replace(after, payment, payee, events, reply) =>
      if payment <= 0 then Done(Stored(s, id, after, s.balances, events), reply)
      else
        match Pay(s, s.streams[id].token, s.self, payee, payment)
        case None => Panic
        case Some(paid) => Done(Stored(s, id, after, paid, events), reply)
  }

  function ExecEdit(s: State, op: Op): Outcome
    requires EditsOne(op)
  {
    if op.id !in s.streams || !Signs(s, Signer(s.streams[op.id], op)) then Panic
    else Carry(s, op.id, PlanFor(s.streams[op.id], op, s.admin, s.now))
  }

  // ------------------------------------------------------------------
  // Administration
  // ------------------------------------------------------------------

  function IndexOf(xs: seq<Address>, x: Address): (i: nat)
    requires x in xs
    ensures i < |xs| && xs[i] == x && x !in xs[..i]
  {
    if xs[0] == x then 0 else 1 + IndexOf(xs[1..], x)
  }

  function Removed(xs: seq<Address>, x: Address): seq<Address> {
    if x in xs then xs[..IndexOf(xs, x)] + xs[IndexOf(xs, x) + 1..] else xs
  }

  predicate IsAdmin(s: State, who: Address) {
    s.admin == Some(who) && Signs(s, who)
  }

  predicate AdminOnly(op: Op) {
    op.AddAllowedToken? || op.RemoveAllowedToken? || op.SetNativeToken? || op.SetAdmin?
  }

  function ExecAdmin(s: State, op: Op): Outcome
    requires AdminOnly(op)
  {
    if !IsAdmin(s, op.admin) then Panic
    else
      match op
      case AddAllowedToken(_, token) =>
        Done(if token in s.allowedTokens then s else s.(allowedTokens := s.allowedTokens + [token]), 0)
      case RemoveAllowedToken(_, token) => Done(s.(allowedTokens := Removed(s.allowedTokens, token)), 0)
      case SetNativeToken(_, native) => Done(s.(nativeToken := Some(native)), 0)
      case SetAdmin(_, newAdmin) => Done(s.(admin := Some(newAdmin)), 0)
  }

  // ------------------------------------------------------------------
  // One call, and runs of calls
  // ------------------------------------------------------------------

  function Exec(s: State, op: Op): Outcome {
    if EditsOne(op) then ExecEdit(s, op)
    else if AdminOnly(op) then ExecAdmin(s, op)
    else if Creates(op) then ExecCreation(s, op)
    else ExecOther(s, op)
  }

  predicate Creates(op: Op) {
    op.CreateStream? || op.CreateStreamFromTemplate? || op.CreateSplitStream?
  }

  function ExecCreation(s: State, op: Op): Outcome
    requires Creates(op)
  {
    match op
    case CreateStream(sender, recipient, token, total, startTime, endTime, minInterval) =>
      ExecCreate(s, sender, recipient, token, total, startTime, endTime, 0, minInterval)
    case CreateStreamFromTemplate(templateId, recipient, amount) =>
      ExecCreateFromTemplate(s, templateId, recipient, amount)
    case CreateSplitStream(sender, token, total, startTime, endTime, recipients) =>
      ExecSplit(s, sender, token, total, startTime, endTime, recipients)
  }

  function ExecOther(s: State, op: Op): Outcome
    requires !EditsOne(op) && !AdminOnly(op) && !Creates(op)
  {
    match op
    case Initialize(admin, native, allowed) =>
      if s.admin.Some? then Panic
      else Done(s.(admin := Some(admin), nativeToken := Some(native), allowedTokens := allowed), 0)
    case CreateTemplate(sender, token, duration, cliff) =>
      ExecCreateTemplate(s, sender, token, duration, cliff)
    case LedgerClose(timestamp) => if timestamp < s.now then Panic else Done(s.(now := timestamp), 0)
    case OutsideBalance(token, holder, balance) =>
      if holder == s.self then Panic else Done(s.(balances := s.balances[(token, holder) := balance]), 0)
    case Donate(token, gift) =>
      Done(s.(balances := s.balances[(token, s.self) := BalanceOf(s.balances, token, s.self) + gift]), 0)
  }

  /** A call that does not return normally leaves the state as it was. */
  function After(s: State, o: Outcome): State {
    if o.Done? then o.state else s
  }

  function Step(s: State, op: Op): State {
    After(s, Exec(s, op))
  }

  function Run(s: State, ops: seq<Op>): State
    decreases |ops|
  {
    if ops == [] then s else Run(Step(s, ops[0]), ops[1..])
  }

  /** A freshly deployed contract: no streams and no templates; balances are whatever they are. */
  predicate Deployed(s: State) {
    && s.admin == None && s.nativeToken == None && s.allowedTokens == []
    && s.nextStreamId == 0 && s.streams == map[] && s.splitChildren == map[] && s.childToParent == map[]
    && s.nextTemplateId == 0 && s.templates == map[] && s.senderTemplates == map[]
    && s.events == []
  }
}
