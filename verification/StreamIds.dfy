/**
 * The id space: which numbers name streams, which name split parents, and how the two
 * split tables answer each other.
 */
module StreamIds {
  import opened Base
  import opened Vesting
  import opened VestingLaws
  import opened StreamState
  import opened StreamRuns

  /** One split family: the block parent+1 .. parent+n of stream ids, known from both sides. */
  ghost predicate FamilySound(s: State, parent: nat) {
    && parent in s.splitChildren
    && var children := s.splitChildren[parent];
    && |children| > 0
    && children == ChildIds(parent, |children|)
    && parent + |children| <= s.nextStreamId
    && forall id | parent < id <= parent + |children| ::
        id in s.childToParent && s.childToParent[id] == parent
  }

  ghost predicate IsChildOf(s: State, child: nat, parent: nat) {
    && parent in s.splitChildren
    && parent < child <= parent + |s.splitChildren[parent]|
  }

  /** Each number up to the counter names a stream or a split parent, and never both. */
  ghost predicate NumbersSound(s: State) {
    && (forall id {:trigger id in s.streams} {:trigger id in s.splitChildren} ::
          1 <= id <= s.nextStreamId <==> id in s.streams || id in s.splitChildren)
    && (forall id | id in s.splitChildren :: id !in s.streams)
  }

  ghost predicate FamiliesSound(s: State) {
    forall parent | parent in s.splitChildren :: FamilySound(s, parent)
  }

  ghost predicate ChildrenSound(s: State) {
    forall child | child in s.childToParent ::
      child in s.streams && IsChildOf(s, child, s.childToParent[child])
  }

  ghost predicate IdsSound(s: State) {
    NumbersSound(s) && FamiliesSound(s) && ChildrenSound(s)
  }

  /** A family of `n` children is added right after the ids in use. */
  ghost predicate FamilyAdded(s: State, t: State, n: nat) {
    var parent := s.nextStreamId + 1;
    && n > 0
    && t.nextStreamId == parent + n
    && t.splitChildren == s.splitChildren[parent := ChildIds(parent, n)]
    && forall id: nat {:trigger id in t.streams} {:trigger id in t.childToParent} :: AddedAt(s, t, n, id)
  }

  ghost predicate AddedAt(s: State, t: State, n: nat, id: nat) {
    var parent := s.nextStreamId + 1;
    && (id in t.streams <==> id in s.streams || parent < id <= parent + n)
    && (if parent < id <= parent + n
        then id in t.childToParent && t.childToParent[id] == parent
        else (id in t.childToParent <==> id in s.childToParent)
             && (id in s.childToParent ==> t.childToParent[id] == s.childToParent[id]))
  }

  lemma SplitAddsFamily(s: State, op: Op)
    requires op.CreateSplitStream? && Exec(s, op).Done?
    ensures FamilyAdded(s, Step(s, op), |op.recipients|)
  {
    SplitShape(s, op);
    var parent := s.nextStreamId + 1;
    forall id: nat ensures AddedAt(s, Step(s, op), |op.recipients|, id) {
      WithChildrenAt(s.streams, parent + 1, op.sender, op.token, op.startTime, op.endTime, op.recipients, id);
      WithParentsAt(s.childToParent, parent + 1, |op.recipients|, parent, id);
    }
  }

  lemma AddedFamilyKeepsFamilies(s: State, t: State, n: nat)
    requires NumbersSound(s) && FamiliesSound(s) && FamilyAdded(s, t, n)
    ensures FamiliesSound(t)
  {
    var parent := s.nextStreamId + 1;
    forall p | p in t.splitChildren ensures FamilySound(t, p) {
      if p != parent {
        assert FamilySound(s, p);
      }
      forall id | p < id <= p + |t.splitChildren[p]|
        ensures id in t.childToParent && t.childToParent[id] == p
      {
        assert AddedAt(s, t, n, id);
      }
    }
  }

  lemma AddedFamilyKeepsChildren(s: State, t: State, n: nat)
    requires NumbersSound(s) && ChildrenSound(s) && FamilyAdded(s, t, n)
    ensures ChildrenSound(t)
  {
    var parent := s.nextStreamId + 1;
    forall child | child in t.childToParent
      ensures child in t.streams && IsChildOf(t, child, t.childToParent[child])
    {
      assert AddedAt(s, t, n, child);
      if !(parent < child <= parent + n) { assert IsChildOf(s, child, s.childToParent[child]); }
    }
  }

  lemma AddedFamilyKeepsNumbers(s: State, t: State, n: nat)
    requires NumbersSound(s) && FamilyAdded(s, t, n)
    ensures NumbersSound(t)
  {
    forall id: nat
      ensures 1 <= id <= t.nextStreamId <==> id in t.streams || id in t.splitChildren
      ensures id in t.splitChildren ==> id !in t.streams
    {
      assert AddedAt(s, t, n, id);
    }
  }

  lemma CreateKeepsIds(s: State, op: Op)
    requires IdsSound(s) && (op.CreateStream? || op.CreateStreamFromTemplate?) && Exec(s, op).Done?
    ensures IdsSound(Step(s, op))
  {
    var after := Step(s, op);
    CreateShape(s, op);
    forall p | p in after.splitChildren ensures FamilySound(after, p) {
      assert FamilySound(s, p);
    }
    forall child | child in after.childToParent
      ensures IsChildOf(after, child, after.childToParent[child])
    {
      assert IsChildOf(s, child, s.childToParent[child]);
    }
  }

  /** The parts of the state that the id space reads. */
  ghost predicate SameIds(s: State, t: State) {
    && t.streams.Keys == s.streams.Keys && t.nextStreamId == s.nextStreamId
    && t.splitChildren == s.splitChildren && t.childToParent == s.childToParent
  }

  lemma SameIdsKeepSound(s: State, t: State)
    requires IdsSound(s) && SameIds(s, t)
    ensures IdsSound(t)
  {
    forall p | p in t.splitChildren ensures FamilySound(t, p) {
      assert FamilySound(s, p);
    }
    forall child | child in t.childToParent
      ensures child in t.streams && IsChildOf(t, child, t.childToParent[child])
    {
      assert child in s.streams && IsChildOf(s, child, s.childToParent[child]);
    }
    forall id: nat ensures 1 <= id <= t.nextStreamId <==> id in t.streams || id in t.splitChildren {
      assert id in t.streams <==> id in s.streams;
    }
  }

  lemma EditKeepsIds(s: State, op: Op)
    requires EditsOne(op)
    ensures SameIds(s, Step(s, op))
  {
    if Step(s, op) != s { EditShape(s, op); }
  }

  lemma OtherKeepsIds(s: State, op: Op)
    requires !EditsOne(op) && !Creates(op)
    ensures SameIds(s, Step(s, op)) && Step(s, op).streams == s.streams
  {
    if AdminOnly(op) {
      AdminShape(s, op);
    } else {
      OtherShape(s, op);
    }
  }

  lemma StepKeepsIds(s: State, op: Op)
    requires IdsSound(s)
    ensures IdsSound(Step(s, op))
  {
    if op.CreateSplitStream? {
      if Exec(s, op).Done? {
        SplitAddsFamily(s, op);
        AddedFamilyKeepsNumbers(s, Step(s, op), |op.recipients|);
        AddedFamilyKeepsFamilies(s, Step(s, op), |op.recipients|);
        AddedFamilyKeepsChildren(s, Step(s, op), |op.recipients|);
      }
    } else if Creates(op) {
      if Exec(s, op).Done? { CreateKeepsIds(s, op); }
    } else {
      if EditsOne(op) { EditKeepsIds(s, op); } else { OtherKeepsIds(s, op); }
      SameIdsKeepSound(s, Step(s, op));
    }
  }

  lemma {:induction false} RunKeepsIds(s: State, ops: seq<Op>)
    requires IdsSound(s)
    ensures IdsSound(Run(s, ops))
    decreases |ops|
  {
    if ops != [] {
      StepKeepsIds(s, ops[0]);
      RunKeepsIds(Step(s, ops[0]), ops[1..]);
    }
  }

  // ------------------------------------------------------------------
  // What the id space guarantees
  // ------------------------------------------------------------------

  function UpTo(n: nat): set<nat> {
    if n == 0 then {} else UpTo(n - 1) + {n}
  }

  lemma {:induction false} UpToCounts(n: nat)
    ensures |UpTo(n)| == n
    ensures forall i: nat :: i in UpTo(n) <==> 1 <= i <= n
  {
    if n > 0 {
      UpToCounts(n - 1);
    }
  }

  lemma IdsAreCounted(s: State)
    requires IdsSound(s)
    ensures s.streams.Keys + s.splitChildren.Keys == UpTo(s.nextStreamId) && s.streams.Keys !! s.splitChildren.Keys
  {
    UpToCounts(s.nextStreamId);
  }

  /** `NextStreamId` counts the stream records and the split parents together. */
  lemma NextIdCountsAll(s0: State, ops: seq<Op>)
    requires Deployed(s0)
    ensures var s := Run(s0, ops); s.nextStreamId == |s.streams| + |s.splitChildren|
  {
    RunKeepsIds(s0, ops);
    var s := Run(s0, ops);
    UpToCounts(s.nextStreamId);
    IdsAreCounted(s);
  }

  /** The two split tables are inverse to each other. */
  lemma SplitTablesInverse(s0: State, ops: seq<Op>, parent: nat, child: nat)
    requires Deployed(s0)
    ensures var s := Run(s0, ops);
      (parent in s.splitChildren && child in s.splitChildren[parent])
      <==> (child in s.childToParent && s.childToParent[child] == parent)
  {
    RunKeepsIds(s0, ops);
    var s := Run(s0, ops);
    if parent in s.splitChildren {
      assert FamilySound(s, parent);
      var children := s.splitChildren[parent];
      if child in s.childToParent && s.childToParent[child] == parent {
        assert IsChildOf(s, child, parent);
        assert children[child - parent - 1] == child;
      }
    }
  }

  /** Different families occupy disjoint blocks of ids, parents included. */
  lemma FamiliesDisjoint(s0: State, ops: seq<Op>, p: nat, q: nat)
    requires Deployed(s0)
    requires var s := Run(s0, ops); p in s.splitChildren && q in s.splitChildren && p < q
    ensures var s := Run(s0, ops); p + |s.splitChildren[p]| < q
  {
    RunKeepsIds(s0, ops);
    var s := Run(s0, ops);
    assert FamilySound(s, p) && FamilySound(s, q);
  }

  /** The identity of a stream: what no operation ever rewrites. */
  ghost predicate SameIdentity(a: Stream, b: Stream) {
    && b.sender == a.sender && b.token == a.token && b.cliffSeconds == a.cliffSeconds
    && b.minClaimInterval == a.minClaimInterval && (a.canceled ==> b.canceled)
    && b.totalAmount <= a.totalAmount && a.claimedAmount <= b.claimedAmount
  }

  lemma PlanKeepsIdentity(stream: Stream, op: Op, admin: Option<Address>, now: U64)
    requires EditsOne(op) && PlanFor(stream, op, admin, now).Replace?
    ensures SameIdentity(stream, PlanFor(stream, op, admin, now).after)
  {
    VestedIsFloor(stream, now);
  }

  /** Only edits touch a stored stream. */
  lemma OnlyEditsTouch(s: State, op: Op, id: nat)
    requires IdsSound(s) && id in s.streams && !EditsOne(op)
    ensures id in Step(s, op).streams && Step(s, op).streams[id] == s.streams[id]
  {
    if op.CreateSplitStream? {
      if Exec(s, op).Done? {
        SplitShape(s, op);
        WithChildrenAt(s.streams, s.nextStreamId + 2, op.sender, op.token, op.startTime, op.endTime, op.recipients, id);
      }
    } else if Creates(op) {
      if Exec(s, op).Done? { CreateShape(s, op); }
    } else {
      OtherKeepsIds(s, op);
    }
  }

  lemma StepKeepsIdentity(s: State, op: Op, id: nat)
    requires IdsSound(s) && id in s.streams
    ensures id in Step(s, op).streams && SameIdentity(s.streams[id], Step(s, op).streams[id])
  {
    if !EditsOne(op) {
      OnlyEditsTouch(s, op, id);
    } else if Step(s, op) != s {
      EditShape(s, op);
      PlanKeepsIdentity(s.streams[op.id], op, s.admin, s.now);
    }
  }

  /**
   * Ids are never reused: whatever happens later, an id that names a stream goes on naming
   * that stream; its total never grows, what it has paid never shrinks, a cancel is final.
   */
  lemma {:induction false} IdsNeverReused(s: State, ops: seq<Op>, id: nat)
    requires IdsSound(s) && id in s.streams
    ensures id in Run(s, ops).streams && SameIdentity(s.streams[id], Run(s, ops).streams[id])
    decreases |ops|
  {
    if ops != [] {
      StepKeepsIdentity(s, ops[0], id);
      StepKeepsIds(s, ops[0]);
      IdsNeverReused(Step(s, ops[0]), ops[1..], id);
    }
  }

  /** A new stream or family takes ids beyond every id in use. */
  lemma NewIdsAreFresh(s: State, op: Op, id: nat)
    requires IdsSound(s) && id !in s.streams && id in Step(s, op).streams
    ensures s.nextStreamId < id <= Step(s, op).nextStreamId
  {
    if EditsOne(op) {
      EditKeepsIds(s, op);
    } else if op.CreateSplitStream? {
      SplitShape(s, op);
      WithChildrenAt(s.streams, s.nextStreamId + 2, op.sender, op.token, op.startTime, op.endTime, op.recipients, id);
    } else if Creates(op) {
      if Exec(s, op).Done? { CreateShape(s, op); }
    } else {
      OtherKeepsIds(s, op);
    }
  }

  // ------------------------------------------------------------------
  // Throttling
  // ------------------------------------------------------------------

  /** Stream `id` has been paid from, and its last claim was no earlier than `since`. */
  ghost predicate ClaimedSince(s: State, id: nat, since: U64) {
    && id in s.streams && s.streams[id].claimedAmount > 0
    && since <= s.streams[id].lastClaimTime && since <= s.now
  }

  lemma PlanKeepsClaimTime(stream: Stream, op: Op, admin: Option<Address>, now: U64)
    requires EditsOne(op) && PlanFor(stream, op, admin, now).Replace?
    ensures var after := PlanFor(stream, op, admin, now).after;
      after.lastClaimTime == if op.Claim? then now else stream.lastClaimTime
  {
  }

  lemma StepKeepsClaimedSince(s: State, op: Op, id: nat, since: U64)
    requires IdsSound(s) && ClaimedSince(s, id, since)
    ensures ClaimedSince(Step(s, op), id, since)
  {
    StepKeepsIdentity(s, op, id);
    StepKeepsClock(s, op);
    if !EditsOne(op) {
      OnlyEditsTouch(s, op, id);
    } else if Step(s, op) != s {
      EditShape(s, op);
      PlanKeepsClaimTime(s.streams[op.id], op, s.admin, s.now);
    }
  }

  lemma StepKeepsClock(s: State, op: Op)
    ensures s.now <= Step(s, op).now
  {
    if EditsOne(op) {
      if Step(s, op) != s { EditShape(s, op); }
    } else if AdminOnly(op) {
      AdminShape(s, op);
    } else if op.CreateSplitStream? {
      if Exec(s, op).Done? { SplitShape(s, op); }
    } else if Creates(op) {
      if Exec(s, op).Done? { CreateShape(s, op); }
    } else {
      OtherShape(s, op);
    }
  }

  lemma {:induction false} RunKeepsClaimedSince(s: State, ops: seq<Op>, id: nat, since: U64)
    requires IdsSound(s) && ClaimedSince(s, id, since)
    ensures ClaimedSince(Run(s, ops), id, since)
    decreases |ops|
  {
    if ops != [] {
      StepKeepsClaimedSince(s, ops[0], id, since);
      StepKeepsIds(s, ops[0]);
      RunKeepsClaimedSince(Step(s, ops[0]), ops[1..], id, since);
    }
  }

  /**
   * Claims keep their distance: whatever happens between two successful claims on a
   * stream, in whoever's hands it then is, its minimum interval has passed.
   */
  lemma ClaimsAreSpaced(s0: State, ops: seq<Op>, first: Op, between: seq<Op>, second: Op)
    requires Deployed(s0) && first.Claim? && second.Claim? && first.id == second.id
    requires Exec(Run(s0, ops), first).Done?
    requires Exec(Run(Step(Run(s0, ops), first), between), second).Done?
    ensures var s, t := Run(s0, ops), Run(Step(Run(s0, ops), first), between);
      && first.id in s.streams
      && var interval := s.streams[first.id].minClaimInterval;
      interval > 0 ==> t.now >= SatAdd(s.now, interval)
  {
    var s := Run(s0, ops);
    RunKeepsIds(s0, ops);
    ClaimIsNoted(s, first);
    var s1 := Step(s, first);
    StepKeepsIds(s, first);
    StepKeepsIdentity(s, first, first.id);
    RunKeepsClaimedSince(s1, between, first.id, s.now);
    IdsNeverReused(s1, between, first.id);
    ClaimWaited(Run(s1, between), second);
  }

  lemma ClaimIsNoted(s: State, op: Op)
    requires op.Claim? && Exec(s, op).Done?
    ensures op.id in s.streams && ClaimedSince(Step(s, op), op.id, s.now)
  {
  }

  lemma ClaimWaited(s: State, op: Op)
    requires op.Claim? && Exec(s, op).Done?
    ensures op.id in s.streams && !ThrottledNow(s.streams[op.id], s.now)
  {
  }
}
