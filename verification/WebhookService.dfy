/**
 * The webhook tables and the worker as they run, proved against the steps of
 * `WebhookModel`.
 */
module WebhookService {
  import opened Base
  import opened WebhookModel

  class Service {
    var now: int
    var deliveries: map<nat, Delivery>
    var deadLetters: map<nat, DeadLetter>
    var nextId: nat
    var nextDeadId: nat
    var isProcessing: bool
    var pendingDeliveries: seq<Picked>

    ghost function View(): Queue
      reads this
    {
      Queue(now, deliveries, deadLetters, nextId, nextDeadId, isProcessing, pendingDeliveries)
    }

    constructor (now: int)
      ensures View() == Empty(now)
    {
      this.now := now;
      deliveries, deadLetters, nextId, nextDeadId := map[], map[], 0, 0;
      isProcessing, pendingDeliveries := false, [];
    }

    /**
     * Queues an event for immediate delivery, provided a destination is configured, the
     * stream is known and the insert succeeds; its failure is only logged.
     */
    method TriggerWebhook(
      urlValid: bool, streamId: Option<string>, event: string, payload: string, insertSucceeds: bool)
      modifies this
      ensures View() == if urlValid && streamId.Some? && insertSucceeds
                        then Next(old(View()), Enqueue(Job(streamId.value, event, payload))) else old(View())
    {
      if !urlValid || streamId.None? {
        return;
      }
      if !insertSucceeds {
        return;
      }
      var job := Job(streamId.value, event, payload);
      deliveries := deliveries[nextId := Delivery(job, 0, MAX_RETRIES, Pending, now, now)];
      nextId := nextId + 1;
    }

    method RequeueDeadLetter(id: nat) returns (found: bool)
      modifies this
      ensures View() == Next(old(View()), Requeue(id)) && found == (id in old(deadLetters))
    {
      if id !in deadLetters {
        return false;
      }
      deliveries := deliveries[nextId := Delivery(deadLetters[id].job, 0, 5, Pending, now, now)];
      nextId := nextId + 1;
      deadLetters := deadLetters - {id};
      return true;
    }

    method PruneDeadLettersOlderThan(cutoff: int) returns (changes: nat)
      modifies this
      ensures View() == Next(old(View()), Prune(cutoff))
      ensures changes == |set id | id in old(deadLetters) && old(deadLetters)[id].failedAt < cutoff|
    {
      var stale := set id | id in deadLetters && deadLetters[id].failedAt < cutoff;
      deadLetters := map id | id in deadLetters && deadLetters[id].failedAt >= cutoff :: deadLetters[id];
      return |stale|;
    }

    method ClearDeadLetters() returns (changes: nat)
      modifies this
      ensures View() == Next(old(View()), Clear) && changes == |old(deadLetters)|
    {
      changes := |deadLetters|;
      deadLetters := map[];
    }

    /** Records the outcome of attempting `delivery`. */
    method RecordAttempt(delivery: Picked, success: bool)
      modifies this
      ensures View() == Attempted(old(View()), delivery, success)
    {
      var id := delivery.id;
      if success {
        if id in deliveries {
          deliveries := deliveries[id := deliveries[id].(status := Success)];
        }
      } else {
        var newAttempt := delivery.row.attempt + 1;
        if newAttempt >= delivery.row.maxAttempts {
          deadLetters := deadLetters[nextDeadId := DeadLetter(delivery.row.job, now)];
          nextDeadId := nextDeadId + 1;
          deliveries := deliveries - {id};
        } else if id in deliveries {
          var delaySeconds := RetryDelaySeconds(newAttempt - 1);
          deliveries := deliveries[id := deliveries[id].(attempt := newAttempt, nextRetryAt := now + delaySeconds)];
        }
      }
    }

    /** The loop body: one attempt of the first row left in the batch. */
    method AttemptNext(success: bool, updateNow: int)
      requires pendingDeliveries != []
      modifies this
      ensures View() == Next(Next(old(View()), Tick(updateNow)), Deliver(success))
      ensures isProcessing == old(isProcessing) && |pendingDeliveries| == |old(pendingDeliveries)| - 1
    {
      var delivery := pendingDeliveries[0];
      if now <= updateNow {
        now := updateNow;
      }
      assert View() == Next(old(View()), Tick(updateNow));
      RecordAttempt(delivery, success);
      pendingDeliveries := pendingDeliveries[1..];
    }

    /** The loop over the batch, to its end or to the exception that ends it early. */
    method DeliverBatch(outcomes: seq<(bool, int)>)
      requires isProcessing
      modifies this
      ensures View() == Run(old(View()), Rounds(|old(pendingDeliveries)|, outcomes))
    {
      var i := 0;
      while |pendingDeliveries| > 0
        invariant i <= |outcomes| && isProcessing
        invariant Run(View(), Rounds(|pendingDeliveries|, outcomes[i..]))
                  == Run(old(View()), Rounds(|old(pendingDeliveries)|, outcomes))
        decreases |pendingDeliveries|
      {
        if i == |outcomes| {
          AbortRun(View(), |pendingDeliveries|, outcomes[i..]);
          break;
        }
        RoundRun(View(), |pendingDeliveries|, outcomes[i..]);
        assert outcomes[i..][0] == outcomes[i] && outcomes[i..][1..] == outcomes[i + 1..];
        AttemptNext(outcomes[i].0, outcomes[i].1);
        i := i + 1;
      }
      if |pendingDeliveries| == 0 {
        EndRun(View(), outcomes[i..]);
      }
      isProcessing := false;
      pendingDeliveries := [];
    }

    /**
     * One call of `processWebhookQueue`. `picks` is the database's answer to the batch query;
     * `outcomes[i]` is whether attempt `i` succeeded and the clock when it returned. Fewer
     * outcomes than picks: an exception ends the call early.
     */
    method ProcessWebhookQueue(urlValid: bool, picks: seq<nat>, outcomes: seq<(bool, int)>)
      requires ValidBatch(View(), picks)
      modifies this
      ensures View() == if old(isProcessing) || !urlValid then old(View())
                        else Run(old(View()), [StartPoll(picks)] + Rounds(|picks|, outcomes))
    {
      if isProcessing || !urlValid {
        return;
      }
      PollRun(View(), picks, outcomes);
      assert forall j | 0 <= j < |picks| :: Due(View(), picks[j]);
      isProcessing := true;
      pendingDeliveries := Picks(deliveries, picks);
      assert View() == Next(old(View()), StartPoll(picks));
      DeliverBatch(outcomes);
    }
  }

  /** The steps a poll takes with `n` rows to go. */
  function Rounds(n: nat, outcomes: seq<(bool, int)>): seq<Step>
    decreases n
  {
    if n == 0 then [EndPoll]
    else if outcomes == [] then [Abort]
    else [Tick(outcomes[0].1), Deliver(outcomes[0].0)] + Rounds(n - 1, outcomes[1..])
  }

  lemma RoundRun(q: Queue, n: nat, outcomes: seq<(bool, int)>)
    requires n > 0 && outcomes != []
    ensures Run(q, Rounds(n, outcomes))
            == Run(Next(Next(q, Tick(outcomes[0].1)), Deliver(outcomes[0].0)), Rounds(n - 1, outcomes[1..]))
  {
    var steps := Rounds(n, outcomes);
    assert steps[1..][0] == steps[1] && steps[1..][1..] == steps[2..] == Rounds(n - 1, outcomes[1..]);
  }

  lemma PollRun(q: Queue, picks: seq<nat>, outcomes: seq<(bool, int)>)
    ensures Run(q, [StartPoll(picks)] + Rounds(|picks|, outcomes))
            == Run(Next(q, StartPoll(picks)), Rounds(|picks|, outcomes))
  {
    assert ([StartPoll(picks)] + Rounds(|picks|, outcomes))[1..] == Rounds(|picks|, outcomes);
  }

  lemma AbortRun(q: Queue, n: nat, outcomes: seq<(bool, int)>)
    requires n > 0 && outcomes == []
    ensures Run(q, Rounds(n, outcomes)) == Next(q, Abort)
  {
    assert Rounds(n, outcomes)[1..] == [];
  }

  lemma EndRun(q: Queue, outcomes: seq<(bool, int)>)
    ensures Run(q, Rounds(0, outcomes)) == Next(q, EndPoll)
  {
    assert Rounds(0, outcomes)[1..] == [];
  }
}
