/**
 * The indexer as it runs: module state updated by the poll, the page loop and the
 * checkpoint, proved against the state machine of `IndexerModel` and the breaker.
 */
module IndexerService {
  import opened Base
  import B = Breaker
  import opened IndexerModel

  class Service {
    // in the database
    var table: Table
    var saved: Option<nat>
    // in memory
    var lastProcessed: nat
    var isIndexing: bool
    var breaker: B.CircuitBreaker
    const timeoutMs: nat
    const startLedger: nat

    ghost function View(): Indexer
      reads this
    {
      Indexer(table, saved, lastProcessed)
    }

    constructor (startLedger: nat, timeoutMs: nat)
      ensures View() == Initial(startLedger) && !isIndexing && fresh(breaker)
      ensures breaker.View() == B.Circuit(B.Closed, 0, 0, timeoutMs)
      ensures this.startLedger == startLedger && this.timeoutMs == timeoutMs
    {
      breaker := new B.CircuitBreaker(timeoutMs);
      table, saved, lastProcessed, isIndexing := map[], None, startLedger, false;
      this.startLedger, this.timeoutMs := startLedger, timeoutMs;
    }

    /** `loadCheckpoint` and the start-ledger override, when the process comes up. */
    method Restart(loadSucceeds: bool)
      modifies this
      ensures View() == Loaded(old(View()), loadSucceeds, startLedger) && !isIndexing
      ensures fresh(breaker) && breaker.View() == B.Circuit(B.Closed, 0, 0, timeoutMs)
    {
      breaker := new B.CircuitBreaker(timeoutMs);
      lastProcessed := 0;
      isIndexing := false;
      if loadSucceeds && saved.Some? && saved.value > 0 {
        lastProcessed := saved.value;
      }
      if startLedger > lastProcessed {
        lastProcessed := startLedger;
      }
    }

    /** One event of a page; `throws` is any error but the missing stream row. The table is as before if it fails. */
    method ProcessEvent(e: ChainEvent, streams: set<string>, throws: bool)
      modifies this`table
      ensures table == if Recognized(e) && e.streamId in streams && !throws && KeyOf(e) !in old(table)
                       then old(table)[KeyOf(e) := e.payload] else old(table)
    {
      if !Recognized(e) {
        return;
      }
      if throws || e.streamId !in streams {
        return;
      }
      if KeyOf(e) !in table {
        table := table[KeyOf(e) := e.payload];
      }
    }

    method ProcessPage(r: Reply, seen: nat) returns (maxSeen: nat)
      requires r.Page?
      modifies this`table
      ensures table == InsertedAll(old(table), r)
      ensures maxSeen == MaxLedger(seen, r.events)
    {
      var events := r.events;
      maxSeen := seen;
      for i := 0 to |events|
        invariant table == InsertedUpTo(old(table), r, i)
        invariant MaxLedger(maxSeen, events[i..]) == MaxLedger(seen, events)
      {
        assert events[i..][0] == events[i] && events[i..][1..] == events[i + 1..];
        ProcessEvent(events[i], r.streams, i in r.thrown);
        if events[i].ledger > maxSeen {
          maxSeen := events[i].ledger;
        }
      }
      assert events[|events|..] == [];
    }

    /** The page loop of `indexEventsWithCursorPagination`. */
    method SweepAll(replies: seq<Reply>) returns (end: SweepEnd, maxSeen: nat)
      modifies this`table
      ensures SweepPages(old(table), lastProcessed, replies) == Sweep(table, maxSeen, end)
    {
      maxSeen := lastProcessed;
      var i := 0;
      while true
        invariant 0 <= i <= |replies|
        invariant SweepPages(table, maxSeen, replies[i..]) == SweepPages(old(table), lastProcessed, replies)
        decreases |replies| - i
      {
        if i == |replies| {
          return ProcessDied, maxSeen;
        }
        assert replies[i..][0] == replies[i] && replies[i..][1..] == replies[i + 1..];
        var reply := replies[i];
        if reply.RpcError? {
          return SweepFailed, maxSeen;
        }
        if |reply.events| == 0 {
          return SweptAll, maxSeen;
        }
        if !reply.commits {
          return SweepFailed, maxSeen;
        }
        maxSeen := ProcessPage(reply, maxSeen);
        if !reply.hasCursor {
          return SweptAll, maxSeen;
        }
        i := i + 1;
      }
    }

    /** Whether a poll beginning at `now` does any work. */
    ghost predicate Admitted(now: int)
      reads this, breaker
    {
      && !isIndexing
      && (breaker.state == B.Open ==> now >= breaker.lastFailureTime + breaker.timeoutMs)
    }

    /** What the breaker looks like at any time in the life of the process. */
    ghost predicate BreakerInStep(now: int)
      reads this, breaker
    {
      && (breaker.state == B.Closed <==> breaker.failureCount < 5)
      && breaker.lastFailureTime <= now
      && (breaker.state == B.HalfOpen ==> now >= breaker.lastFailureTime + breaker.timeoutMs)
    }

    /**
     * One call of `indexEvents`, begun at `now` and ending at `later`. `latest` is the RPC
     * node's latest ledger, absent when that request fails.
     */
    method IndexEvents(now: int, later: int, latest: Option<nat>, replies: seq<Reply>, saveCommits: bool)
      modifies this, breaker
      ensures breaker == old(breaker)
      ensures old(BreakerInStep(now)) && now <= later ==>
                && BreakerInStep(later)
                && (old(Admitted(now)) <==>
                      !old(isIndexing) && (old(breaker.failureCount) < 5
                                           || now >= old(breaker.lastFailureTime) + breaker.timeoutMs))
      ensures !old(Admitted(now)) ==> View() == old(View()) && isIndexing == old(isIndexing)
      ensures old(isIndexing) ==> breaker.View() == old(breaker.View())
      ensures !old(isIndexing) && !old(Admitted(now)) ==>
                breaker.View() == B.Observed(old(breaker.View()), now)
      ensures old(Admitted(now)) ==>
                (isIndexing <==> latest.Some? && latest.value > old(lastProcessed)
                                 && SweepPages(old(table), old(lastProcessed), replies).end == ProcessDied)
      ensures old(Admitted(now)) && latest.None? ==>
                View() == old(View()) && breaker.View() == B.Failed(B.Observed(old(breaker.View()), now), later)
      ensures old(Admitted(now)) && latest.Some? ==>
                && View() == Polled(old(View()), latest.value, replies, saveCommits)
                && var nothingNew := latest.value <= old(lastProcessed);
                   var end := SweepPages(old(table), old(lastProcessed), replies).end;
                   var half := B.Observed(old(breaker.View()), now);
                   breaker.View() == if nothingNew || (end == SweptAll && saveCommits) then B.Succeeded(half)
                                     else if end == ProcessDied then half
                                     else B.Failed(half, later)
    {
      if isIndexing {
        return;
      }
      var state := breaker.GetState(now);
      if state == B.Open {
        return;
      }
      isIndexing := true;
      if latest.None? {
        breaker.OnFailure(later);
        isIndexing := false;
        return;
      }
      var currentLedger := latest.value;
      if currentLedger <= lastProcessed {
        breaker.OnSuccess();
        isIndexing := false;
        return;
      }
      var end, maxSeen := SweepAll(replies);
      if end == ProcessDied {
        return;
      }
      if end == SweepFailed || !saveCommits {
        breaker.OnFailure(later);
        isIndexing := false;
        return;
      }
      var checkpoint := Max(currentLedger, maxSeen);
      saved := Some(checkpoint);
      lastProcessed := checkpoint;
      breaker.OnSuccess();
      isIndexing := false;
    }
  }
}
