/**
 * The webhook delivery queue: its tables, the worker's batches and everything that may
 * happen between two attempts of one batch.
 */
module WebhookModel {
  import opened Base

  const MAX_RETRIES: nat := 5
  const RETRY_DELAYS: seq<nat> := [5, 15, 60, 300, 900]
  const BATCH_SIZE: nat := 10

  function RetryDelaySeconds(attemptNumber: int): nat {
    if attemptNumber < 0 || attemptNumber >= |RETRY_DELAYS| then RETRY_DELAYS[|RETRY_DELAYS| - 1]
    else RETRY_DELAYS[attemptNumber]
  }

  datatype Job = Job(streamId: string, event: string, payload: string)

  datatype Status = Pending | Success

  datatype Delivery = Delivery(
    job: Job, attempt: nat, maxAttempts: nat, status: Status, nextRetryAt: int, createdAt: int)

  datatype DeadLetter = DeadLetter(job: Job, failedAt: int)

  /** A row as the worker's SELECT returned it. */
  datatype Picked = Picked(id: nat, row: Delivery)

  /** `batch`: what the poll in flight has yet to attempt. Ids are given out in ascending order. */
  datatype Queue = Queue(
    now: int,
    deliveries: map<nat, Delivery>,
    deadLetters: map<nat, DeadLetter>,
    nextId: nat,
    nextDeadId: nat,
    polling: bool,
    batch: seq<Picked>)

  datatype Step =
    | Tick(now: int)
    | Enqueue(job: Job)
    | Requeue(deadId: nat)
    | Prune(cutoff: int)
    | Clear
    | StartPoll(picks: seq<nat>)
    | Deliver(ok: bool)
    | EndPoll
    | Abort                // the poll ends early: an exception, or the process restarts

  predicate IsPending(q: Queue, id: nat) {
    id in q.deliveries && q.deliveries[id].status == Pending
  }

  predicate Due(q: Queue, id: nat) {
    IsPending(q, id) && q.deliveries[id].nextRetryAt <= q.now
  }

  /** What the worker's query promises: at most ten due rows, the earliest due, in order of due time. */
  ghost predicate ValidBatch(q: Queue, picks: seq<nat>) {
    && |picks| <= BATCH_SIZE
    && (forall i | 0 <= i < |picks| :: Due(q, picks[i]))
    && (forall i, j | 0 <= i < j < |picks| ::
          picks[i] != picks[j] && q.deliveries[picks[i]].nextRetryAt <= q.deliveries[picks[j]].nextRetryAt)
    && (forall id | id !in picks && Due(q, id) ::
          |picks| == BATCH_SIZE
          && forall i | 0 <= i < |picks| :: q.deliveries[picks[i]].nextRetryAt <= q.deliveries[id].nextRetryAt)
  }

  function NewDelivery(job: Job, now: int): Delivery {
    Delivery(job, 0, MAX_RETRIES, Pending, now, now)
  }

  function Enqueued(q: Queue, job: Job): Queue {
    q.(deliveries := q.deliveries[q.nextId := NewDelivery(job, q.now)], nextId := q.nextId + 1)
  }

  function Requeued(q: Queue, deadId: nat): Queue {
    if deadId !in q.deadLetters then q
    else Enqueued(q, q.deadLetters[deadId].job).(deadLetters := q.deadLetters - {deadId})
  }

  function Pruned(q: Queue, cutoff: int): Queue {
    q.(deadLetters := map id | id in q.deadLetters && q.deadLetters[id].failedAt >= cutoff :: q.deadLetters[id])
  }

  function Picks(deliveries: map<nat, Delivery>, picks: seq<nat>): seq<Picked>
    requires forall i | 0 <= i < |picks| :: picks[i] in deliveries
  {
    seq(|picks|, i requires 0 <= i < |picks| => Picked(picks[i], deliveries[picks[i]]))
  }

  /** The outcome of attempting one row, as captured when the batch was selected. */
  function Attempted(q: Queue, p: Picked, ok: bool): Queue {
    if ok then
      if p.id in q.deliveries then q.(deliveries := q.deliveries[p.id := q.deliveries[p.id].(status := Success)]) else q
    else
      var newAttempt := p.row.attempt + 1;
      if newAttempt >= p.row.maxAttempts then
        q.(deadLetters := q.deadLetters[q.nextDeadId := DeadLetter(p.row.job, q.now)],
        nextDeadId := q.nextDeadId + 1,
        deliveries := q.deliveries - {p.id})
      else if p.id in q.deliveries then
        q.(deliveries := q.deliveries[p.id := q.deliveries[p.id].(
                                      attempt := newAttempt,
                                      nextRetryAt := q.now + RetryDelaySeconds(newAttempt - 1))])
      else q
  }

  ghost predicate Enabled(q: Queue, step: Step) {
    match step
    case Tick(now) => q.now <= now
    case StartPoll(picks) => !q.polling && ValidBatch(q, picks)
    case Deliver(_) => q.batch != []
    case EndPoll => q.polling && q.batch == []
    case _ => true
  }

  /** A step that is not enabled does not happen. */
  ghost function Next(q: Queue, step: Step): Queue {
    if !Enabled(q, step) then q
    else
      match step
      case Tick(now) => q.(now := now)
      case Enqueue(job) => Enqueued(q, job)
      case Requeue(deadId) => Requeued(q, deadId)
      case Prune(cutoff) => Pruned(q, cutoff)
      case Clear => q.(deadLetters := map[])
      case StartPoll(picks) => q.(polling := true, batch := Picks(q.deliveries, picks))
      case Deliver(ok) => Attempted(q, q.batch[0], ok).(batch := q.batch[1..])
      case EndPoll => q.(polling := false)
      case Abort => q.(polling := false, batch := [])
  }

  ghost function Run(q: Queue, steps: seq<Step>): Queue
    decreases |steps|
  {
    if steps == [] then q else Run(Next(q, steps[0]), steps[1..])
  }

  function Empty(now: int): Queue {
    Queue(now, map[], map[], 0, 0, false, [])
  }

  // ------------------------------------------------------------------
  // Invariant
  // ------------------------------------------------------------------

  /** How long a delivery has waited at least, over all its retries, before attempt number `attempt`. */
  function Waited(attempt: nat): nat {
    if attempt == 0 then 0 else Waited(attempt - 1) + RetryDelaySeconds(attempt - 1)
  }

  ghost predicate RowSound(q: Queue, id: nat)
    requires id in q.deliveries
  {
    var row := q.deliveries[id];
    && id < q.nextId
    && row.maxAttempts == MAX_RETRIES && row.attempt < MAX_RETRIES
    && row.createdAt + Waited(row.attempt) <= row.nextRetryAt
  }

  ghost predicate BatchSound(q: Queue) {
    && (!q.polling ==> q.batch == [])
    && (forall i | 0 <= i < |q.batch| ::
          Due(q, q.batch[i].id) && q.deliveries[q.batch[i].id] == q.batch[i].row)
    && (forall i, j | 0 <= i < j < |q.batch| ::
          q.batch[i].id != q.batch[j].id && q.batch[i].row.nextRetryAt <= q.batch[j].row.nextRetryAt)
  }

  ghost predicate Sound(q: Queue) {
    && (forall id | id in q.deliveries :: RowSound(q, id))
    && (forall id | id in q.deadLetters :: id < q.nextDeadId)
    && BatchSound(q)
  }

  lemma DeliverKeepsSound(q: Queue, ok: bool)
    requires Sound(q) && q.batch != []
    ensures Sound(Next(q, Deliver(ok)))
  {
    var r := Next(q, Deliver(ok));
    var p := q.batch[0];
    assert Due(q, p.id) && q.deliveries[p.id] == p.row && RowSound(q, p.id);
    forall i | 0 <= i < |r.batch|
      ensures Due(r, r.batch[i].id) && r.deliveries[r.batch[i].id] == r.batch[i].row
    {
      assert r.batch[i] == q.batch[i + 1];
      assert Due(q, q.batch[i + 1].id) && q.batch[i + 1].id != p.id;
    }
    forall id | id in r.deliveries ensures RowSound(r, id) {
      assert RowSound(q, id);
    }
  }

  lemma StepKeepsSound(q: Queue, step: Step)
    requires Sound(q)
    ensures Sound(Next(q, step))
  {
    if Enabled(q, step) {
      var r := Next(q, step);
      if step.Deliver? {
        DeliverKeepsSound(q, step.ok);
      } else {
        forall id | id in r.deliveries ensures RowSound(r, id) {
          if id in q.deliveries { assert RowSound(q, id); }
        }
        forall i | 0 <= i < |r.batch|
          ensures Due(r, r.batch[i].id) && r.deliveries[r.batch[i].id] == r.batch[i].row
        {
          if !step.StartPoll? {
            assert Due(q, q.batch[i].id) && q.deliveries[q.batch[i].id] == q.batch[i].row;
            assert RowSound(q, q.batch[i].id);
          }
        }
      }
    }
  }

  lemma {:induction false} RunKeepsSound(q: Queue, steps: seq<Step>)
    requires Sound(q)
    ensures Sound(Run(q, steps))
    decreases |steps|
  {
    if steps != [] {
      StepKeepsSound(q, steps[0]);
      RunKeepsSound(Next(q, steps[0]), steps[1..]);
    }
  }
}
