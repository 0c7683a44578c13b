/**
 * The indexer's circuit breaker and the polls it admits, as a timed state machine.
 */
module Breaker {
  const FAILURE_THRESHOLD: nat := 5

  datatype CircuitState = Closed | HalfOpen | Open

  datatype Circuit = Circuit(state: CircuitState, failureCount: nat, lastFailureTime: int, timeoutMs: nat)

  /** What reading the state does: an open circuit half-opens once its timeout has passed. */
  function Observed(c: Circuit, now: int): Circuit {
    if c.state == Open && now - c.lastFailureTime >= c.timeoutMs then c.(state := HalfOpen) else c
  }

  function Succeeded(c: Circuit): Circuit {
    c.(state := Closed, failureCount := 0)
  }

  function Failed(c: Circuit, now: int): Circuit {
    var d := c.(failureCount := c.failureCount + 1, lastFailureTime := now);
    if (d.state == Closed && d.failureCount >= FAILURE_THRESHOLD) || d.state == HalfOpen
    then d.(state := Open) else d
  }

  class CircuitBreaker {
    var state: CircuitState
    var failureCount: nat
    var lastFailureTime: int
    const timeoutMs: nat

    ghost function View(): Circuit
      reads this
    {
      Circuit(state, failureCount, lastFailureTime, timeoutMs)
    }

    constructor (timeoutMs: nat)
      ensures View() == Circuit(Closed, 0, 0, timeoutMs)
    {
      this.timeoutMs := timeoutMs;
      state, failureCount, lastFailureTime := Closed, 0, 0;
    }

    method GetState(now: int) returns (s: CircuitState)
      modifies this
      ensures View() == Observed(old(View()), now) && s == state
    {
      if state == Open {
        if now - lastFailureTime >= timeoutMs {
          state := HalfOpen;
        }
      }
      return state;
    }

    method OnSuccess()
      modifies this
      ensures View() == Succeeded(old(View()))
    {
      if state != Closed {
        state := Closed;
      }
      failureCount := 0;
    }

    method OnFailure(now: int)
      modifies this
      ensures View() == Failed(old(View()), now)
    {
      failureCount := failureCount + 1;
      lastFailureTime := now;
      if state == Closed && failureCount >= FAILURE_THRESHOLD {
        state := Open;
      } else if state == HalfOpen {
        state := Open;
      }
    }
  }

  // ------------------------------------------------------------------
  // Polls
  // ------------------------------------------------------------------

  /** `polls` counts the polls begun so far. */
  datatype Poller = Poller(circuit: Circuit, now: int, isIndexing: bool, polls: nat)

  datatype Event =
    | Wait(ms: nat)
    | Look                 // someone else reads the breaker's state
    | Begin                // the timer calls indexEvents
    | Finish(ok: bool)     // the poll in flight, if any, ends

  function Next(p: Poller, e: Event): Poller {
    match e
    case Wait(ms) => p.(now := p.now + ms)
    case Look => p.(circuit := Observed(p.circuit, p.now))
    case Begin =>
      if p.isIndexing then p
      else
        var c := Observed(p.circuit, p.now);
        if c.state == Open then p.(circuit := c)
        else p.(circuit := c, isIndexing := true, polls := p.polls + 1)
    case Finish(ok) =>
      if !p.isIndexing then p
      else p.(isIndexing := false, circuit := if ok then Succeeded(p.circuit) else Failed(p.circuit, p.now))
  }

  function Trace(p: Poller, es: seq<Event>): Poller
    decreases |es|
  {
    if es == [] then p else Trace(Next(p, es[0]), es[1..])
  }

  ghost predicate PollerSound(p: Poller) {
    && (p.circuit.state == Closed <==> p.circuit.failureCount < FAILURE_THRESHOLD)
    && p.circuit.lastFailureTime <= p.now
    && (p.circuit.state == HalfOpen ==> p.now - p.circuit.lastFailureTime >= p.circuit.timeoutMs)
    && (p.isIndexing ==> p.circuit.state != Open)
  }

  function Started(timeoutMs: nat): Poller {
    Poller(Circuit(Closed, 0, 0, timeoutMs), 0, false, 0)
  }

  lemma {:induction false} TraceSound(p: Poller, es: seq<Event>)
    requires PollerSound(p)
    ensures PollerSound(Trace(p, es)) && Trace(p, es).circuit.timeoutMs == p.circuit.timeoutMs
    decreases |es|
  {
    if es != [] {
      TraceSound(Next(p, es[0]), es[1..]);
    }
  }

  /** In every run the breaker is closed exactly while fewer than five consecutive failures are recorded. */
  lemma ClosedIffFewFailures(timeoutMs: nat, es: seq<Event>)
    ensures var c := Trace(Started(timeoutMs), es).circuit;
      c.state == Closed <==> c.failureCount < 5
  {
    TraceSound(Started(timeoutMs), es);
  }

  /**
   * In every run a poll begins when the timer calls for it if and only if none is in flight
   * and fewer than five failures are recorded or the timeout has passed since the last one.
   */
  lemma {:induction false} PollBeginsIff(timeoutMs: nat, es: seq<Event>)
    ensures var p := Trace(Started(timeoutMs), es);
      var q := Next(p, Begin);
      && (q.polls > p.polls <==>
            !p.isIndexing && (p.circuit.failureCount < 5 || p.now >= p.circuit.lastFailureTime + timeoutMs))
      && q.polls == (if q.polls > p.polls then p.polls + 1 else p.polls)
      && q.isIndexing == (p.isIndexing || q.polls > p.polls)
  {
    TraceSound(Started(timeoutMs), es);
  }

  /** How many polls in a row have failed by the end of the run; a poll that succeeds starts the count anew. */
  function FailuresInARow(es: seq<Event>, p: Poller, count: nat): nat
    decreases |es|
  {
    if es == [] then count
    else
      var e := es[0];
      FailuresInARow(es[1..], Next(p, e),
                     if e.Finish? && p.isIndexing then if e.ok then 0 else count + 1 else count)
  }

  lemma {:induction false} FailuresCounted(p: Poller, es: seq<Event>)
    ensures Trace(p, es).circuit.failureCount == FailuresInARow(es, p, p.circuit.failureCount)
    decreases |es|
  {
    if es != [] {
      FailuresCounted(Next(p, es[0]), es[1..]);
    }
  }

  /** The failures recorded are the polls that failed in a row. */
  lemma {:induction false} FailuresAreInARow(timeoutMs: nat, es: seq<Event>)
    ensures Trace(Started(timeoutMs), es).circuit.failureCount == FailuresInARow(es, Started(timeoutMs), 0)
  {
    FailuresCounted(Started(timeoutMs), es);
  }

  /**
   * The breaker recovers from any run of failures: with no poll in flight, once the timeout has
   * been waited out, a poll begins, and if it succeeds the breaker is closed and has forgotten
   * the failures; if it fails, exactly one failure more is recorded, as of now.
   */
  lemma {:induction false} Recovers(timeoutMs: nat, es: seq<Event>, ok: bool)
    requires !Trace(Started(timeoutMs), es).isIndexing
    ensures var p := Trace(Started(timeoutMs), es);
      var r := Trace(p, [Wait(timeoutMs), Begin, Finish(ok)]);
      && r.polls == p.polls + 1 && !r.isIndexing
      && (if ok then r.circuit == Circuit(Closed, 0, p.circuit.lastFailureTime, timeoutMs)
          else && r.circuit.failureCount == p.circuit.failureCount + 1
               && r.circuit.lastFailureTime == r.now == p.now + timeoutMs)
  {
    var p := Trace(Started(timeoutMs), es);
    TraceSound(Started(timeoutMs), es);
    var waited := Next(p, Wait(timeoutMs));
    var begun := Next(waited, Begin);
    assert [Wait(timeoutMs), Begin, Finish(ok)][1..] == [Begin, Finish(ok)] && [Begin, Finish(ok)][1..] == [Finish(ok)];
    assert [Finish(ok)][1..] == [];
    assert Trace(waited, [Begin, Finish(ok)]) == Trace(begun, [Finish(ok)]);
    assert Trace(begun, [Finish(ok)]) == Trace(Next(begun, Finish(ok)), []);
  }

  ghost predicate NoSuccess(es: seq<Event>) {
    forall i | 0 <= i < |es| :: es[i] != Finish(true)
  }

  /** `k` polls have begun since the breaker opened at `t0`. */
  ghost predicate Paced(p: Poller, t0: int, k: nat) {
    && p.circuit.state != Closed
    && k * p.circuit.timeoutMs <= (if p.isIndexing then p.now else p.circuit.lastFailureTime) - t0
  }

  lemma {:induction false} StaysPaced(p: Poller, es: seq<Event>, t0: int, k: nat)
    requires PollerSound(p) && NoSuccess(es) && Paced(p, t0, k)
    ensures var q := Trace(p, es);
      q.polls >= p.polls && Paced(q, t0, k + (q.polls - p.polls))
    decreases |es|
  {
    if es != [] {
      var q := Next(p, es[0]);
      var k' := k + (q.polls - p.polls);
      assert (k + 1) * p.circuit.timeoutMs == k * p.circuit.timeoutMs + p.circuit.timeoutMs;
      assert Paced(q, t0, k') by { assert es[0] != Finish(true); }
      assert NoSuccess(es[1..]) by {
        forall i | 0 <= i < |es[1..]| ensures es[1..][i] != Finish(true) { assert es[1..][i] == es[i + 1]; }
      }
      StaysPaced(q, es[1..], t0, k');
    }
  }

  /**
   * The breaker limits the rate of failing polls: however often the timer fires and
   * whoever else reads the state, from the failure that opened it until some poll
   * succeeds, the polls begun times the timeout fit in the time elapsed.
   */
  lemma FailingPollsArePaced(timeoutMs: nat, before: seq<Event>, es: seq<Event>)
    requires var p := Trace(Started(timeoutMs), before);
             p.circuit.state == Open && p.circuit.lastFailureTime == p.now
    requires NoSuccess(es)
    ensures var p := Trace(Started(timeoutMs), before);
      var q := Trace(p, es);
      (q.polls - p.polls) * timeoutMs <= q.now - p.now
  {
    var p := Trace(Started(timeoutMs), before);
    TraceSound(Started(timeoutMs), before);
    assert 0 * timeoutMs == 0;
    StaysPaced(p, es, p.now, 0);
    TraceSound(p, es);
  }
}
