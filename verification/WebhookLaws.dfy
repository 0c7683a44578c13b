/**
 * What the webhook queue guarantees over its runs: nothing is lost, attempts are bounded
 * and spaced, and no delivery starves.
 */
module WebhookLaws {
  import opened Base
  import opened WebhookModel

  // ------------------------------------------------------------------
  // Conservation
  // ------------------------------------------------------------------

  function JobsBelow(deliveries: map<nat, Delivery>, n: nat): multiset<Job> {
    if n == 0 then multiset{}
    else JobsBelow(deliveries, n - 1) + if n - 1 in deliveries then multiset{deliveries[n - 1].job} else multiset{}
  }

  function DeadJobsBelow(letters: map<nat, DeadLetter>, n: nat): multiset<Job> {
    if n == 0 then multiset{}
    else DeadJobsBelow(letters, n - 1) + if n - 1 in letters then multiset{letters[n - 1].job} else multiset{}
  }

  /** Every job in the two tables, pending, delivered or dead. */
  function AllJobs(q: Queue): multiset<Job> {
    JobsBelow(q.deliveries, q.nextId) + DeadJobsBelow(q.deadLetters, q.nextDeadId)
  }

  lemma {:induction false} JobsUnchanged(a: map<nat, Delivery>, b: map<nat, Delivery>, n: nat)
    requires forall id | 0 <= id < n :: (id in a <==> id in b) && (id in a ==> a[id].job == b[id].job)
    ensures JobsBelow(a, n) == JobsBelow(b, n)
  {
    if n > 0 { JobsUnchanged(a, b, n - 1); }
  }

  lemma {:induction false} JobsRemoved(a: map<nat, Delivery>, id: nat, n: nat)
    requires id < n && id in a
    ensures JobsBelow(a, n) == JobsBelow(a - {id}, n) + multiset{a[id].job}
  {
    if id == n - 1 {
      JobsUnchanged(a, a - {id}, n - 1);
    } else {
      JobsRemoved(a, id, n - 1);
    }
  }

  lemma {:induction false} DeadUnchanged(a: map<nat, DeadLetter>, b: map<nat, DeadLetter>, n: nat)
    requires forall id | 0 <= id < n :: (id in a <==> id in b) && (id in a ==> a[id].job == b[id].job)
    ensures DeadJobsBelow(a, n) == DeadJobsBelow(b, n)
  {
    if n > 0 { DeadUnchanged(a, b, n - 1); }
  }

  lemma {:induction false} DeadRemoved(a: map<nat, DeadLetter>, id: nat, n: nat)
    requires id < n && id in a
    ensures DeadJobsBelow(a, n) == DeadJobsBelow(a - {id}, n) + multiset{a[id].job}
  {
    if id == n - 1 {
      DeadUnchanged(a, a - {id}, n - 1);
    } else {
      DeadRemoved(a, id, n - 1);
    }
  }

  /** What a step brings in from outside. */
  function JobsIn(step: Step): multiset<Job> {
    match step
    case Enqueue(job) => multiset{job}
    case _ => multiset{}
  }

  function JobsQueued(steps: seq<Step>): multiset<Job> {
    if steps == [] then multiset{} else JobsIn(steps[0]) + JobsQueued(steps[1..])
  }

  lemma EnqueueAddsJob(q: Queue, job: Job)
    requires Sound(q)
    ensures AllJobs(Enqueued(q, job)) == AllJobs(q) + multiset{job}
  {
    JobsUnchanged(q.deliveries, Enqueued(q, job).deliveries, q.nextId);
  }

  lemma GivingUpKeepsJobs(q: Queue, p: Picked)
    requires Sound(q) && p.id in q.deliveries && q.deliveries[p.id].job == p.row.job
    requires p.row.attempt + 1 >= p.row.maxAttempts
    ensures AllJobs(Attempted(q, p, false)) == AllJobs(q)
  {
    assert RowSound(q, p.id);
    var r := Attempted(q, p, false);
    var job := p.row.job;
    JobsRemoved(q.deliveries, p.id, q.nextId);
    DeadUnchanged(q.deadLetters, r.deadLetters, q.nextDeadId);
    assert DeadJobsBelow(r.deadLetters, r.nextDeadId) == DeadJobsBelow(q.deadLetters, q.nextDeadId) + multiset{job};
    assert JobsBelow(q.deliveries, q.nextId) == JobsBelow(r.deliveries, r.nextId) + multiset{job};
  }

  lemma KeepingKeepsJobs(q: Queue, p: Picked, ok: bool)
    requires p.id in q.deliveries && (ok || p.row.attempt + 1 < p.row.maxAttempts)
    ensures AllJobs(Attempted(q, p, ok)) == AllJobs(q)
  {
    JobsUnchanged(q.deliveries, Attempted(q, p, ok).deliveries, q.nextId);
  }

  lemma DeliverKeepsJobs(q: Queue, ok: bool)
    requires Sound(q) && q.batch != []
    ensures AllJobs(Next(q, Deliver(ok))) == AllJobs(q)
  {
    var p := q.batch[0];
    assert Due(q, p.id) && q.deliveries[p.id] == p.row;
    if !ok && p.row.attempt + 1 >= p.row.maxAttempts {
      GivingUpKeepsJobs(q, p);
    } else {
      KeepingKeepsJobs(q, p, ok);
    }
    assert AllJobs(Next(q, Deliver(ok))) == AllJobs(Attempted(q, p, ok));
  }

  lemma RequeueKeepsJobs(q: Queue, deadId: nat)
    requires Sound(q)
    ensures AllJobs(Requeued(q, deadId)) == AllJobs(q)
  {
    if deadId in q.deadLetters {
      var job := q.deadLetters[deadId].job;
      var e, r := Enqueued(q, job), Requeued(q, deadId);
      EnqueueAddsJob(q, job);
      DeadRemoved(q.deadLetters, deadId, q.nextDeadId);
      assert r.deliveries == e.deliveries && r.deadLetters == q.deadLetters - {deadId};
      assert AllJobs(e) == AllJobs(r) + multiset{job};
      Cancel(AllJobs(r), AllJobs(q), multiset{job});
    }
  }

  lemma Cancel(a: multiset<Job>, b: multiset<Job>, c: multiset<Job>)
    requires a + c == b + c
    ensures a == b
  {
    assert a == (a + c) - c && b == (b + c) - c;
  }

  lemma StepKeepsJobs(q: Queue, step: Step)
    requires Sound(q) && !step.Prune? && !step.Clear?
    ensures AllJobs(Next(q, step)) == AllJobs(q) + JobsIn(step)
  {
    if Enabled(q, step) {
      match step
      case Enqueue(job) => EnqueueAddsJob(q, job);
      case Requeue(deadId) => RequeueKeepsJobs(q, deadId);
      case Deliver(ok) => DeliverKeepsJobs(q, ok);
      case _ =>
    }
  }

  ghost predicate KeepsLetters(steps: seq<Step>) {
    forall i | 0 <= i < |steps| :: !steps[i].Prune? && !steps[i].Clear?
  }

  lemma TailKeepsLetters(steps: seq<Step>)
    requires steps != [] && KeepsLetters(steps)
    ensures KeepsLetters(steps[1..])
  {
    forall i | 0 <= i < |steps[1..]| ensures !steps[1..][i].Prune? && !steps[1..][i].Clear? {
      assert steps[1..][i] == steps[i + 1];
    }
  }

  /**
   * No job is lost or duplicated: unless dead letters are deleted on purpose, after any run
   * the two tables hold together exactly the jobs they held before and those queued since.
   */
  lemma {:induction false} JobsConserved(q: Queue, steps: seq<Step>)
    requires Sound(q) && KeepsLetters(steps)
    ensures AllJobs(Run(q, steps)) == AllJobs(q) + JobsQueued(steps)
    decreases |steps|
  {
    if steps != [] {
      assert !steps[0].Prune? && !steps[0].Clear?;
      StepKeepsJobs(q, steps[0]);
      StepKeepsSound(q, steps[0]);
      TailKeepsLetters(steps);
      JobsConserved(Next(q, steps[0]), steps[1..]);
    }
  }

  // ------------------------------------------------------------------
  // Attempts: how many, how far apart
  // ------------------------------------------------------------------

  /**
   * A delivery is given up only on its fifth failed attempt, at least 380 seconds after it
   * was queued; a row still pending has failed fewer than five times.
   */
  lemma DeadLettersAreSpent(q0: int, steps: seq<Step>, ok: bool)
    requires Run(Empty(q0), steps).batch != []
    ensures var q := Run(Empty(q0), steps);
      var p := q.batch[0];
      var r := Next(q, Deliver(ok));
      && p.row.attempt < 5 && p.row.nextRetryAt <= q.now
      && (r.deadLetters != q.deadLetters ==>
            && !ok && p.row.attempt == 4
            && q.now >= p.row.createdAt + 380
            && r.deadLetters == q.deadLetters[q.nextDeadId := DeadLetter(p.row.job, q.now)]
            && p.id !in r.deliveries)
  {
    RunKeepsSound(Empty(q0), steps);
    var q := Run(Empty(q0), steps);
    var p := q.batch[0];
    assert Due(q, p.id) && q.deliveries[p.id] == p.row && RowSound(q, p.id);
    if p.row.attempt + 1 == MAX_RETRIES {
      assert Waited(4) == Waited(3) + 300 && Waited(3) == Waited(2) + 60 && Waited(2) == Waited(1) + 15;
    }
  }

  /** How many seconds after failure number 1, 2, 3 and 4 the next attempt is due. */
  function Pause(failures: nat): int {
    match failures
    case 1 => 5
    case 2 => 15
    case 3 => 60
    case _ => 300
  }

  /**
   * The schedule, in every state a run reaches: a delivered row is marked and stays; a row
   * that fails for the first, second, third or fourth time stays pending and is due 5, 15, 60
   * or 300 seconds from now; one that fails for the fifth time becomes a dead letter, dated
   * now. No other row and no other letter changes.
   */
  lemma {:induction false} AttemptsFollowTheSchedule(q0: int, steps: seq<Step>)
    requires Run(Empty(q0), steps).batch != []
    ensures var q := Run(Empty(q0), steps);
      var id, row := q.batch[0].id, q.batch[0].row;
      var yes, no := Next(q, Deliver(true)), Next(q, Deliver(false));
      && IsPending(q, id) && q.deliveries[id] == row && row.attempt < 5
      && yes == q.(deliveries := q.deliveries[id := row.(status := Success)], batch := q.batch[1..])
      && (if row.attempt < 4
          then no == q.(batch := q.batch[1..], deliveries := q.deliveries[id :=
                 row.(attempt := row.attempt + 1, nextRetryAt := q.now + Pause(row.attempt + 1))])
          else no == q.(batch := q.batch[1..], deliveries := q.deliveries - {id}, nextDeadId := q.nextDeadId + 1,
                 deadLetters := q.deadLetters[q.nextDeadId := DeadLetter(row.job, q.now)]))
  {
    RunKeepsSound(Empty(q0), steps);
    var q := Run(Empty(q0), steps);
    var p := q.batch[0];
    assert Due(q, p.id) && q.deliveries[p.id] == p.row && RowSound(q, p.id);
    assert p.row.attempt in {0, 1, 2, 3, 4};
  }

  /** A job just queued, or queued again, starts over: no attempt made, and due at once. */
  lemma QueuedIsDueNow(q: Queue, step: Step)
    requires step.Enqueue? || (step.Requeue? && step.deadId in q.deadLetters)
    ensures var r := Next(q, step);
      && q.nextId in r.deliveries && r.deliveries.Keys == q.deliveries.Keys + {q.nextId}
      && var row := r.deliveries[q.nextId];
      && row.job == (if step.Enqueue? then step.job else q.deadLetters[step.deadId].job)
      && row.attempt == 0 && row.maxAttempts == 5 && row.status == Pending
      && row.nextRetryAt == q.now && row.createdAt == q.now
      && r == q.(deliveries := q.deliveries[q.nextId := row], nextId := q.nextId + 1, deadLetters := r.deadLetters)
      && r.deadLetters == (if step.Enqueue? then q.deadLetters else q.deadLetters - {step.deadId})
  {
  }

  /** Pruning keeps exactly the letters of the cut-off or later; a requeue of an unknown letter does nothing. */
  lemma PruneKeepsTheRecent(q: Queue, cutoff: int, id: nat)
    ensures var r := Next(q, Prune(cutoff));
      && (id in r.deadLetters <==> id in q.deadLetters && q.deadLetters[id].failedAt >= cutoff)
      && (id in r.deadLetters ==> r.deadLetters[id] == q.deadLetters[id])
      && r == q.(deadLetters := r.deadLetters)
    ensures Next(q, Clear) == q.(deadLetters := map[])
    ensures id !in q.deadLetters ==> Next(q, Requeue(id)) == q
  {
  }

  /**
   * The poll itself: one begins only when none is in flight, takes its rows as they are, ends
   * when they are used up, or is cut short, whereupon its rows are as they were.
   */
  lemma PollsBeginAndEnd(q: Queue, picks: seq<nat>, now: int)
    ensures q.polling ==> Next(q, StartPoll(picks)) == q
    ensures !q.polling && ValidBatch(q, picks) ==>
              && var r := Next(q, StartPoll(picks));
              && r == q.(polling := true, batch := r.batch) && |r.batch| == |picks|
              && forall i | 0 <= i < |picks| ::
                   r.batch[i].id == picks[i] && picks[i] in q.deliveries && r.batch[i].row == q.deliveries[picks[i]]
    ensures Next(q, EndPoll) == if q.polling && q.batch == [] then q.(polling := false) else q
    ensures Next(q, Abort) == q.(polling := false, batch := [])
    ensures Next(q, Tick(now)) == if q.now <= now then q.(now := now) else q
  {
    if !q.polling && ValidBatch(q, picks) {
      forall i | 0 <= i < |picks| ensures picks[i] in q.deliveries {
        assert Due(q, picks[i]);
      }
    }
  }

  /** How long after being queued a row with that many failures can be due at the earliest. */
  function EarliestDue(failures: nat): int {
    match failures
    case 0 => 0
    case 1 => 5
    case 2 => 20
    case 3 => 80
    case _ => 380
  }

  /** So every row, at any time, is due no sooner than 0, 5, 20, 80 or 380 seconds after it was queued. */
  lemma {:induction false} RetriesAreSpaced(q0: int, steps: seq<Step>, id: nat)
    requires id in Run(Empty(q0), steps).deliveries
    ensures var row := Run(Empty(q0), steps).deliveries[id];
      row.attempt < 5 && row.createdAt + EarliestDue(row.attempt) <= row.nextRetryAt
  {
    RunKeepsSound(Empty(q0), steps);
    var q := Run(Empty(q0), steps);
    assert RowSound(q, id);
    assert Waited(4) == Waited(3) + 300 && Waited(3) == Waited(2) + 60 && Waited(2) == Waited(1) + 15 && Waited(1) == 5;
  }

  /** The last of the five configured delays is never applied. */
  lemma LongestDelayUnused(q0: int, steps: seq<Step>)
    requires Run(Empty(q0), steps).batch != []
    ensures var q := Run(Empty(q0), steps);
      var p := q.batch[0];
      var r := Next(q, Deliver(false));
      p.id in r.deliveries ==>
        r.deliveries[p.id].nextRetryAt - q.now in {5, 15, 60, 300}
  {
    RunKeepsSound(Empty(q0), steps);
    var q := Run(Empty(q0), steps);
    var p := q.batch[0];
    assert Due(q, p.id) && q.deliveries[p.id] == p.row && RowSound(q, p.id);
    assert p.row.attempt in {0, 1, 2, 3, 4};
  }

  /** Attempts left over all pending rows. */
  function AttemptsLeft(deliveries: map<nat, Delivery>, n: nat): int {
    if n == 0 then 0 else AttemptsLeft(deliveries, n - 1) + LeftOf(deliveries, n - 1)
  }

  function LeftOf(deliveries: map<nat, Delivery>, id: nat): int {
    if id in deliveries && deliveries[id].status == Pending
    then deliveries[id].maxAttempts - deliveries[id].attempt else 0
  }

  function Potential(q: Queue): int {
    AttemptsLeft(q.deliveries, q.nextId)
  }

  lemma {:induction false} LeftChanged(a: map<nat, Delivery>, b: map<nat, Delivery>, id: nat, n: nat)
    requires id < n && forall i | 0 <= i < n && i != id :: LeftOf(a, i) == LeftOf(b, i)
    ensures AttemptsLeft(b, n) == AttemptsLeft(a, n) + LeftOf(b, id) - LeftOf(a, id)
  {
    if id == n - 1 {
      LeftSame(a, b, n - 1);
    } else {
      LeftChanged(a, b, id, n - 1);
    }
  }

  lemma {:induction false} LeftSame(a: map<nat, Delivery>, b: map<nat, Delivery>, n: nat)
    requires forall i | 0 <= i < n :: LeftOf(a, i) == LeftOf(b, i)
    ensures AttemptsLeft(a, n) == AttemptsLeft(b, n)
  {
    if n > 0 { LeftSame(a, b, n - 1); }
  }

  /** A failed attempt uses up exactly one of the attempts left; a success uses up the row's. */
  lemma DeliverUsesAttempts(q: Queue, ok: bool)
    requires Sound(q) && q.batch != []
    ensures Potential(Next(q, Deliver(ok)))
            == Potential(q) - if ok then MAX_RETRIES - q.batch[0].row.attempt else 1
  {
    var p := q.batch[0];
    var r := Next(q, Deliver(ok));
    assert Due(q, p.id) && q.deliveries[p.id] == p.row && RowSound(q, p.id);
    LeftChanged(q.deliveries, r.deliveries, p.id, q.nextId);
  }

  /** The number of attempts made in a run. */
  ghost function Attempts(q: Queue, steps: seq<Step>): nat
    decreases |steps|
  {
    if steps == [] then 0
    else (if steps[0].Deliver? && q.batch != [] then 1 else 0) + Attempts(Next(q, steps[0]), steps[1..])
  }

  ghost predicate NoNewWork(steps: seq<Step>) {
    forall i | 0 <= i < |steps| :: !steps[i].Enqueue? && !steps[i].Requeue?
  }

  ghost predicate ReceiverFails(steps: seq<Step>) {
    forall i | 0 <= i < |steps| :: steps[i] != Deliver(true)
  }

  /**
   * With no new work the attempts are bounded by those left at the start; when the receiver
   * always fails they are used up one by one.
   */
  lemma {:induction false} AttemptsBounded(q: Queue, steps: seq<Step>)
    requires Sound(q) && NoNewWork(steps)
    ensures Potential(Run(q, steps)) + Attempts(q, steps) <= Potential(q)
    ensures ReceiverFails(steps) ==> Potential(Run(q, steps)) + Attempts(q, steps) == Potential(q)
    decreases |steps|
  {
    if steps != [] {
      var step := steps[0];
      assert !step.Enqueue? && !step.Requeue?;
      if step.Deliver? && q.batch != [] {
        assert Due(q, q.batch[0].id) && RowSound(q, q.batch[0].id);
        DeliverUsesAttempts(q, step.ok);
      }
      StepKeepsSound(q, step);
      forall i | 0 <= i < |steps[1..]|
        ensures !steps[1..][i].Enqueue? && !steps[1..][i].Requeue?
        ensures ReceiverFails(steps) ==> steps[1..][i] != Deliver(true)
      {
        assert steps[1..][i] == steps[i + 1];
      }
      AttemptsBounded(Next(q, step), steps[1..]);
    }
  }

  lemma {:induction false} LeftPositive(q: Queue, n: nat)
    requires Sound(q) && n <= q.nextId
    ensures AttemptsLeft(q.deliveries, n) >= 0
    ensures AttemptsLeft(q.deliveries, n) == 0 ==> forall id: nat | id < n :: !IsPending(q, id)
    ensures (forall id: nat | id < n :: !IsPending(q, id)) ==> AttemptsLeft(q.deliveries, n) == 0
  {
    if n > 0 {
      LeftPositive(q, n - 1);
      if n - 1 in q.deliveries { assert RowSound(q, n - 1); }
      assert IsPending(q, n - 1) <==> LeftOf(q.deliveries, n - 1) > 0;
    }
  }

  /** No attempts are left exactly when no delivery is pending. */
  lemma SpentIffNothingPending(q: Queue)
    requires Sound(q)
    ensures Potential(q) == 0 <==> forall id: nat :: !IsPending(q, id)
  {
    LeftPositive(q, q.nextId);
    forall id: nat | IsPending(q, id) ensures id < q.nextId {
      assert RowSound(q, id);
    }
  }

  // ------------------------------------------------------------------
  // No starvation
  // ------------------------------------------------------------------

  /** The pending deliveries due no later than `bound`. */
  ghost function DueBy(q: Queue, bound: int): set<nat> {
    set id | id in q.deliveries && q.deliveries[id].status == Pending && q.deliveries[id].nextRetryAt <= bound
  }

  ghost function Rank(q: Queue, d: nat): nat
    requires d in q.deliveries
  {
    |DueBy(q, q.deliveries[d].nextRetryAt)|
  }

  /** Delivery `d`, waiting since before now; nothing ahead of it in the batch is due later. */
  ghost predicate Waiting(q: Queue, d: nat, bound: int) {
    && IsPending(q, d) && q.deliveries[d].nextRetryAt == bound && bound < q.now
    && forall i | 0 <= i < |q.batch| && (forall j | 0 <= j <= i :: q.batch[j].id != d) ::
        q.batch[i].row.nextRetryAt <= bound
  }

  /** The step attempts `d`. */
  ghost predicate Attempting(q: Queue, step: Step, d: nat) {
    step.Deliver? && q.batch != [] && q.batch[0].id == d
  }

  ghost predicate NeverAttempted(q: Queue, steps: seq<Step>, d: nat)
    decreases |steps|
  {
    steps == [] || (!Attempting(q, steps[0], d) && NeverAttempted(Next(q, steps[0]), steps[1..], d))
  }

  lemma DeliverKeepsWaiting(q: Queue, ok: bool, d: nat, bound: int)
    requires Sound(q) && q.batch != [] && q.batch[0].id != d && Waiting(q, d, bound)
    ensures Waiting(Next(q, Deliver(ok)), d, bound)
  {
    var r := Next(q, Deliver(ok));
    assert r.batch == q.batch[1..];
    forall i | 0 <= i < |r.batch| && (forall j | 0 <= j <= i :: r.batch[j].id != d)
      ensures r.batch[i].row.nextRetryAt <= bound
    {
      assert r.batch[i] == q.batch[i + 1];
      forall j | 0 <= j <= i + 1 ensures q.batch[j].id != d {
        if j > 0 { assert r.batch[j - 1] == q.batch[j]; }
      }
    }
  }

  lemma AttemptLowersRank(q: Queue, p: Picked, ok: bool, bound: int)
    requires IsPending(q, p.id) && q.deliveries[p.id] == p.row && p.row.nextRetryAt <= bound < q.now
    ensures p.id in DueBy(q, bound) && DueBy(Attempted(q, p, ok), bound) == DueBy(q, bound) - {p.id}
  {
    var r := Attempted(q, p, ok);
    forall id ensures id in DueBy(r, bound) <==> id in DueBy(q, bound) && id != p.id {
    }
  }

  lemma DeliverLowersRank(q: Queue, ok: bool, d: nat, bound: int)
    requires Sound(q) && q.batch != [] && q.batch[0].id != d && Waiting(q, d, bound)
    ensures var r := Next(q, Deliver(ok));
      && Waiting(r, d, bound)
      && DueBy(r, bound) == DueBy(q, bound) - {q.batch[0].id} && q.batch[0].id in DueBy(q, bound)
  {
    var p := q.batch[0];
    assert Due(q, p.id) && q.deliveries[p.id] == p.row;
    DeliverKeepsWaiting(q, ok, d, bound);
    AttemptLowersRank(q, p, ok, bound);
    assert DueBy(Next(q, Deliver(ok)), bound) == DueBy(Attempted(q, p, ok), bound);
  }

  lemma StartPollKeepsWaiting(q: Queue, picks: seq<nat>, d: nat, bound: int)
    requires Sound(q) && Waiting(q, d, bound) && !q.polling && ValidBatch(q, picks)
    ensures Waiting(Next(q, StartPoll(picks)), d, bound)
    ensures d !in picks ==> |picks| == BATCH_SIZE
  {
    var r := Next(q, StartPoll(picks));
    assert Due(q, d);
    if d in picks {
      var k :| 0 <= k < |picks| && picks[k] == d;
      forall i | 0 <= i < |r.batch| && (forall j | 0 <= j <= i :: r.batch[j].id != d)
        ensures r.batch[i].row.nextRetryAt <= bound
      {
        assert r.batch[k].id == d;
        assert i < k;
        assert q.deliveries[picks[i]].nextRetryAt <= q.deliveries[picks[k]].nextRetryAt;
      }
    } else {
      forall i | 0 <= i < |r.batch| ensures r.batch[i].row.nextRetryAt <= bound {
        assert q.deliveries[picks[i]].nextRetryAt <= q.deliveries[d].nextRetryAt;
      }
    }
  }

  /** Steps other than attempts leave the queue ahead of `d` as it is, whatever they enqueue. */
  lemma OthersKeepRank(q: Queue, step: Step, d: nat, bound: int)
    requires Sound(q) && Waiting(q, d, bound) && !(step.Deliver? && q.batch != [])
    ensures var r := Next(q, step);
      Waiting(r, d, bound) && DueBy(r, bound) == DueBy(q, bound)
  {
    var r := Next(q, step);
    assert RowSound(q, d);
    if Enabled(q, step) {
      if step.StartPoll? {
        StartPollKeepsWaiting(q, step.picks, d, bound);
      }
      forall id ensures id in DueBy(r, bound) <==> id in DueBy(q, bound) {
        if id in q.deliveries { assert RowSound(q, id); }
      }
    }
  }

  /**
   * The queue ahead of a due delivery only shrinks: until the delivery is attempted, the
   * number of pending deliveries due no later drops by exactly one with each attempt the
   * worker makes, whatever is enqueued, retried, requeued or aborted meanwhile.
   */
  lemma {:induction false} RankFallsByAttempts(q: Queue, steps: seq<Step>, d: nat, bound: int)
    requires Sound(q) && Waiting(q, d, bound) && NeverAttempted(q, steps, d)
    ensures Waiting(Run(q, steps), d, bound)
    ensures |DueBy(Run(q, steps), bound)| == |DueBy(q, bound)| - Attempts(q, steps)
    decreases |steps|
  {
    if steps != [] {
      var step := steps[0];
      if step.Deliver? && q.batch != [] {
        DeliverLowersRank(q, step.ok, d, bound);
      } else {
        OthersKeepRank(q, step, d, bound);
      }
      StepKeepsSound(q, step);
      RankFallsByAttempts(Next(q, step), steps[1..], d, bound);
    }
  }

  /** The polls that ran to their end in a run. */
  ghost function CompletedPolls(q: Queue, steps: seq<Step>): nat
    decreases |steps|
  {
    if steps == [] then 0
    else (if steps[0].EndPoll? && Enabled(q, steps[0]) then 1 else 0) + CompletedPolls(Next(q, steps[0]), steps[1..])
  }

  /** `done` rows of the poll in flight have been attempted; a batch without `d` is a full one. */
  ghost predicate BatchCounted(q: Queue, d: nat, done: nat) {
    q.polling ==> done + |q.batch| == BATCH_SIZE || exists i :: 0 <= i < |q.batch| && q.batch[i].id == d
  }

  /** How `done` moves with a step. */
  ghost function DoneAfter(q: Queue, step: Step, done: nat): nat {
    if step.Deliver? && q.batch != [] then done + 1
    else if Enabled(q, step) && (step.EndPoll? || step.StartPoll?) then 0
    else done
  }

  lemma StepKeepsBatchCounted(q: Queue, step: Step, d: nat, bound: int, done: nat)
    requires Sound(q) && Waiting(q, d, bound) && !Attempting(q, step, d) && BatchCounted(q, d, done)
    ensures BatchCounted(Next(q, step), d, DoneAfter(q, step, done))
    ensures step.EndPoll? && Enabled(q, step) ==> done == BATCH_SIZE
  {
    var r := Next(q, step);
    if step.Deliver? && q.batch != [] {
      if i :| 0 <= i < |q.batch| && q.batch[i].id == d {
        assert i > 0 && r.batch[i - 1] == q.batch[i];
      }
    } else if step.StartPoll? && Enabled(q, step) {
      StartPollKeepsWaiting(q, step.picks, d, bound);
      if d in step.picks {
        var k :| 0 <= k < |step.picks| && step.picks[k] == d;
        assert r.batch[k].id == d;
      }
    }
  }

  lemma {:induction false} PollsCostTenAttempts(q: Queue, steps: seq<Step>, d: nat, bound: int, done: nat)
    requires Sound(q) && Waiting(q, d, bound) && NeverAttempted(q, steps, d) && BatchCounted(q, d, done)
    ensures BATCH_SIZE * CompletedPolls(q, steps) <= done + Attempts(q, steps)
    decreases |steps|
  {
    if steps != [] {
      var step := steps[0];
      StepKeepsBatchCounted(q, step, d, bound, done);
      if step.Deliver? && q.batch != [] {
        DeliverLowersRank(q, step.ok, d, bound);
      } else {
        OthersKeepRank(q, step, d, bound);
      }
      StepKeepsSound(q, step);
      PollsCostTenAttempts(Next(q, step), steps[1..], d, bound, DoneAfter(q, step, done));
    }
  }

  /** One of the rows due earliest among those given. */
  lemma {:induction false} EarliestOf(q: Queue, ids: set<nat>) returns (first: nat)
    requires ids != {} && forall id | id in ids :: id in q.deliveries
    ensures first in ids
    ensures forall id | id in ids :: q.deliveries[first].nextRetryAt <= q.deliveries[id].nextRetryAt
    decreases ids
  {
    first :| first in ids;
    var rest := ids - {first};
    if rest != {} {
      var other := EarliestOf(q, rest);
      if q.deliveries[other].nextRetryAt < q.deliveries[first].nextRetryAt {
        first := other;
      }
    }
  }

  /** A row is left out of a full batch only if no row in the batch is due later. */
  ghost predicate PassedOver(q: Queue, picks: seq<nat>, n: nat, id: nat)
    requires id in q.deliveries && forall i | 0 <= i < |picks| :: picks[i] in q.deliveries
  {
    && |picks| == n
    && forall i | 0 <= i < |picks| :: q.deliveries[picks[i]].nextRetryAt <= q.deliveries[id].nextRetryAt
  }

  /** The first `n` of the given rows in order of due time, or all if there are fewer. */
  lemma {:induction false} FirstDue(q: Queue, ids: set<nat>, n: nat) returns (picks: seq<nat>)
    requires forall id | id in ids :: id in q.deliveries
    ensures |picks| <= n && (picks == [] <==> n == 0 || ids == {})
    ensures forall i | 0 <= i < |picks| :: picks[i] in ids
    ensures forall i, j | 0 <= i < j < |picks| ::
      picks[i] != picks[j] && q.deliveries[picks[i]].nextRetryAt <= q.deliveries[picks[j]].nextRetryAt
    ensures forall id | id in ids && id !in picks :: PassedOver(q, picks, n, id)
    decreases n
  {
    if n == 0 || ids == {} {
      picks := [];
    } else {
      var first := EarliestOf(q, ids);
      var rest := FirstDue(q, ids - {first}, n - 1);
      picks := [first] + rest;
      forall id | id in ids && id !in picks
        ensures PassedOver(q, picks, n, id)
      {
        assert picks[0] == first && picks[1..] == rest;
        assert id !in rest && PassedOver(q, rest, n - 1, id);
      }
    }
  }

  /** In any state of the queue there is an answer to the worker's query, empty only if nothing is due. */
  lemma {:induction false} BatchExists(q: Queue) returns (picks: seq<nat>)
    ensures ValidBatch(q, picks)
    ensures picks == [] <==>
      forall id | id in q.deliveries :: !(q.deliveries[id].status == Pending && q.deliveries[id].nextRetryAt <= q.now)
  {
    var due := set id | id in q.deliveries && Due(q, id);
    picks := FirstDue(q, due, BATCH_SIZE);
    if picks == [] {
      forall id | id in q.deliveries
        ensures !(q.deliveries[id].status == Pending && q.deliveries[id].nextRetryAt <= q.now)
      {
        assert id !in due;
      }
    } else {
      assert picks[0] in due;
    }
    forall id | id !in picks && Due(q, id) ensures PassedOver(q, picks, BATCH_SIZE, id) {
      assert id in due;
    }
  }

  /** A batch is no larger than the worker asks for, and each row is due no later than any pending row behind it. */
  ghost predicate BatchInOrder(q: Queue) {
    && |q.batch| <= BATCH_SIZE
    && forall i, id: nat | 0 <= i < |q.batch| && IsPending(q, id) && (forall j | 0 <= j <= i :: q.batch[j].id != id) ::
        q.batch[i].row.nextRetryAt <= q.deliveries[id].nextRetryAt
  }

  lemma DeliverKeepsOrder(q: Queue, ok: bool)
    requires Sound(q) && BatchInOrder(q) && q.batch != []
    ensures BatchInOrder(Next(q, Deliver(ok)))
  {
    var r := Next(q, Deliver(ok));
    var p := q.batch[0];
    assert r.batch == q.batch[1..];
    forall i, id: nat | 0 <= i < |r.batch| && IsPending(r, id) && (forall j | 0 <= j <= i :: r.batch[j].id != id)
      ensures r.batch[i].row.nextRetryAt <= r.deliveries[id].nextRetryAt
    {
      assert r.batch[i] == q.batch[i + 1];
      if id == p.id {
        AttemptedIsLater(q, p, ok);
        assert Due(q, q.batch[i + 1].id) && q.deliveries[q.batch[i + 1].id] == q.batch[i + 1].row;
      } else {
        assert IsPending(q, id) && r.deliveries[id] == q.deliveries[id];
        NotYetBehind(q, id, i + 1);
      }
    }
  }

  /** A row just attempted is not due again before now. */
  lemma AttemptedIsLater(q: Queue, p: Picked, ok: bool)
    requires Sound(q) && p.id in q.deliveries
    ensures IsPending(Attempted(q, p, ok), p.id) ==> q.now <= Attempted(q, p, ok).deliveries[p.id].nextRetryAt
  {
  }

  lemma NotYetBehind(q: Queue, id: nat, i: nat)
    requires 0 < i < |q.batch| && q.batch[0].id != id
    requires forall j | 0 <= j < i :: q.batch[1..][j].id != id
    ensures forall j | 0 <= j <= i :: q.batch[j].id != id
  {
    forall j | 0 <= j <= i ensures q.batch[j].id != id {
      if j > 0 { assert q.batch[j] == q.batch[1..][j - 1]; }
    }
  }

  lemma StartPollGivesOrder(q: Queue, picks: seq<nat>)
    requires Sound(q) && !q.polling && ValidBatch(q, picks)
    ensures BatchInOrder(Next(q, StartPoll(picks)))
  {
    var r := Next(q, StartPoll(picks));
    forall i, id: nat | 0 <= i < |r.batch| && IsPending(r, id) && (forall j | 0 <= j <= i :: r.batch[j].id != id)
      ensures r.batch[i].row.nextRetryAt <= r.deliveries[id].nextRetryAt
    {
      assert Due(q, picks[i]);
      if id in picks {
        var k :| 0 <= k < |picks| && picks[k] == id;
        assert r.batch[k].id == id;
        assert i < k;
      } else if Due(q, id) {
        assert q.deliveries[picks[i]].nextRetryAt <= q.deliveries[id].nextRetryAt;
      }
    }
  }

  lemma StepKeepsOrder(q: Queue, step: Step)
    requires Sound(q) && BatchInOrder(q)
    ensures BatchInOrder(Next(q, step))
  {
    if Enabled(q, step) {
      var r := Next(q, step);
      if step.Deliver? {
        DeliverKeepsOrder(q, step.ok);
      } else if step.StartPoll? {
        StartPollGivesOrder(q, step.picks);
      } else {
        forall i, id: nat | 0 <= i < |r.batch| && IsPending(r, id) && (forall j | 0 <= j <= i :: r.batch[j].id != id)
          ensures r.batch[i].row.nextRetryAt <= r.deliveries[id].nextRetryAt
        {
          assert Due(q, q.batch[i].id);
        }
      }
    }
  }

  lemma {:induction false} RunKeepsOrder(q: Queue, steps: seq<Step>)
    requires Sound(q) && BatchInOrder(q)
    ensures Sound(Run(q, steps)) && BatchInOrder(Run(q, steps))
    decreases |steps|
  {
    if steps != [] {
      StepKeepsSound(q, steps[0]);
      StepKeepsOrder(q, steps[0]);
      RunKeepsOrder(Next(q, steps[0]), steps[1..]);
    }
  }

  /** By how many rows the batch of a poll in flight falls short of ten. */
  function InFlight(q: Queue): int {
    if q.polling then BATCH_SIZE - |q.batch| else 0
  }

  /**
   * No starvation, in any state the queue can get into, a poll in flight or not: a delivery
   * whose time has passed, with `Rank` pending deliveries due no later (itself included), is
   * attempted before `Rank / 10`, rounded up, further polls have been completed (one more at
   * most if one was in flight), whatever else happens to the queue.
   */
  lemma NoStarvation(t0: int, before: seq<Step>, steps: seq<Step>, d: nat)
    requires var q := Run(Empty(t0), before);
      IsPending(q, d) && q.deliveries[d].nextRetryAt < q.now && NeverAttempted(q, steps, d)
    ensures var q := Run(Empty(t0), before);
      && 0 <= InFlight(q) <= 10
      && 10 * CompletedPolls(q, steps) < Rank(q, d) + InFlight(q)
  {
    var q := Run(Empty(t0), before);
    RunKeepsOrder(Empty(t0), before);
    var bound := q.deliveries[d].nextRetryAt;
    assert Waiting(q, d, bound);
    RankFallsByAttempts(q, steps, d, bound);
    PollsCostTenAttempts(q, steps, d, bound, InFlight(q));
    assert d in DueBy(Run(q, steps), bound);
  }
}
