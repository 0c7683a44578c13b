/**
 * The event indexer as a state machine over polls, which may fail at any page, and restarts
 * from the saved checkpoint; and what is asked of the RPC node that answers it.
 */
module IndexerModel {
  import opened Base

  // ------------------------------------------------------------------
  // Chain, table, replies
  // ------------------------------------------------------------------

  /** The contract's event names (second topic); anything else is skipped by the indexer. */
  datatype EventName =
    | Created | Claimed | Completed | Canceled | Paused | Resumed | Transfer | Clawback | Unrecognized

  /** `name` is absent when the event has fewer than two topics. */
  datatype ChainEvent = ChainEvent(ledger: nat, name: Option<EventName>, streamId: string, payload: string)

  /** The columns of the unique index on the event table. */
  datatype Key = Key(streamId: string, eventType: EventName, ledger: nat)

  type Table = map<Key, string>

  predicate Recognized(e: ChainEvent) {
    e.name.Some? && e.name.value != Unrecognized
  }

  function KeyOf(e: ChainEvent): Key
    requires Recognized(e)
  {
    Key(e.streamId, e.name.value, e.ledger)
  }

  /**
   * One answer to `getEvents`, with what matters of its moment: whether the page's
   * transaction commits, which streams have rows then, the positions of the events whose
   * processing throws for any other reason (a value that is not there, metadata that cannot
   * be serialized, a database error), and the ledger `head` the RPC node had reached (the
   * indexer does not see that).
   */
  datatype Reply =
    | RpcError
    | Page(events: seq<ChainEvent>, hasCursor: bool, commits: bool, streams: set<string>, thrown: set<nat>, head: nat)

  /**
   * The `i`-th event of a page reaches the table: it is recognized, its stream has the row
   * the foreign key asks for, and nothing else throws. Any error is caught and logged, and
   * the event is passed over.
   */
  predicate Accepted(r: Reply, i: nat)
    requires r.Page? && i < |r.events|
  {
    Recognized(r.events[i]) && r.events[i].streamId in r.streams && i !in r.thrown
  }

  /** The `i`-th event into the table: passed over, or insert-or-ignore. */
  function Inserted(table: Table, r: Reply, i: nat): Table
    requires r.Page? && i < |r.events|
  {
    var e := r.events[i];
    if !Accepted(r, i) || KeyOf(e) in table then table else table[KeyOf(e) := e.payload]
  }

  /** The table after the first `n` events of the page. */
  function InsertedUpTo(table: Table, r: Reply, n: nat): Table
    requires r.Page? && n <= |r.events|
  {
    if n == 0 then table else Inserted(InsertedUpTo(table, r, n - 1), r, n - 1)
  }

  function InsertedAll(table: Table, r: Reply): Table
    requires r.Page?
  {
    InsertedUpTo(table, r, |r.events|)
  }

  function MaxLedger(seen: nat, events: seq<ChainEvent>): nat
    decreases |events|
  {
    if events == [] then seen
    else MaxLedger(if events[0].ledger > seen then events[0].ledger else seen, events[1..])
  }

  datatype SweepEnd = SweptAll | SweepFailed | ProcessDied

  datatype Sweep = Sweep(table: Table, maxSeen: nat, end: SweepEnd)

  /** The page loop. When the replies run out the process has died in the middle. */
  function SweepPages(table: Table, maxSeen: nat, replies: seq<Reply>): Sweep
    decreases |replies|
  {
    if replies == [] then Sweep(table, maxSeen, ProcessDied)
    else
      var r := replies[0];
      if r.RpcError? then Sweep(table, maxSeen, SweepFailed)
      else if r.events == [] then Sweep(table, maxSeen, SweptAll)
      else if !r.commits then Sweep(table, maxSeen, SweepFailed)
      else
        var after, seen := InsertedAll(table, r), MaxLedger(maxSeen, r.events);
        if !r.hasCursor then Sweep(after, seen, SweptAll) else SweepPages(after, seen, replies[1..])
  }

  // ------------------------------------------------------------------
  // The indexer as a state machine
  // ------------------------------------------------------------------

  /** Event table and checkpoint row survive a restart; `lastProcessed` is in memory. */
  datatype Indexer = Indexer(table: Table, saved: Option<nat>, lastProcessed: nat)

  datatype Step =
    | Poll(currentLedger: nat, replies: seq<Reply>, saveCommits: bool)
    | Restart(loadSucceeds: bool)

  function Loaded(x: Indexer, loadSucceeds: bool, startLedger: nat): Indexer {
    var checkpoint := if loadSucceeds && x.saved.Some? && x.saved.value > 0 then x.saved.value else 0;
    x.(lastProcessed := if startLedger > checkpoint then startLedger else checkpoint)
  }

  function Polled(x: Indexer, currentLedger: nat, replies: seq<Reply>, saveCommits: bool): Indexer {
    if currentLedger <= x.lastProcessed then x
    else
      var sweep := SweepPages(x.table, x.lastProcessed, replies);
      if sweep.end != SweptAll || !saveCommits then x.(table := sweep.table)
      else
        var checkpoint := Max(currentLedger, sweep.maxSeen);
        Indexer(sweep.table, Some(checkpoint), checkpoint)
  }

  function Next(x: Indexer, step: Step, startLedger: nat): Indexer {
    match step
    case Poll(currentLedger, replies, saveCommits) => Polled(x, currentLedger, replies, saveCommits)
    case Restart(loadSucceeds) => Loaded(x, loadSucceeds, startLedger)
  }

  function Run(x: Indexer, steps: seq<Step>, startLedger: nat): Indexer
    decreases |steps|
  {
    if steps == [] then x else Run(Next(x, steps[0], startLedger), steps[1..], startLedger)
  }

  // ------------------------------------------------------------------
  // What is asked of the RPC node
  // ------------------------------------------------------------------

  ghost predicate Ordered(chain: seq<ChainEvent>) {
    forall i, j | 0 <= i < j < |chain| :: chain[i].ledger <= chain[j].ledger
  }

  /** How many events of the chain have a ledger up to `ledger`. */
  function CountUpTo(chain: seq<ChainEvent>, ledger: nat): nat {
    if chain == [] || chain[0].ledger > ledger then 0 else 1 + CountUpTo(chain[1..], ledger)
  }

  lemma {:induction false} CountUpToSplits(chain: seq<ChainEvent>, ledger: nat)
    requires Ordered(chain)
    ensures CountUpTo(chain, ledger) <= |chain|
    ensures forall i | 0 <= i < |chain| :: i < CountUpTo(chain, ledger) <==> chain[i].ledger <= ledger
  {
    if chain != [] && chain[0].ledger <= ledger {
      CountUpToSplits(chain[1..], ledger);
      forall i | 0 <= i < |chain| ensures i < CountUpTo(chain, ledger) <==> chain[i].ledger <= ledger {
        if i > 0 { assert chain[i] == chain[1..][i - 1]; }
      }
    }
  }

  lemma CountMonotone(chain: seq<ChainEvent>, a: nat, b: nat)
    requires Ordered(chain) && a <= b
    ensures CountUpTo(chain, a) <= CountUpTo(chain, b) <= |chain|
  {
    CountUpToSplits(chain, a);
    CountUpToSplits(chain, b);
    var i := CountUpTo(chain, b);
    assert i < |chain| ==> chain[i].ledger > b >= a;
  }

  /**
   * `chain` is the whole history, past and to come. Replies show it truly: each page is
   * the next stretch of events the node has at that moment, a node never falls behind the
   * ledger it announced, and a page that is empty or carries no cursor exhausts what it has.
   */
  ghost predicate HonestPages(chain: seq<ChainEvent>, pos: nat, announced: nat, replies: seq<Reply>)
    decreases |replies|
  {
    replies == [] || replies[0].RpcError? ||
    (var r := replies[0];
     var end := pos + |r.events|;
     && announced <= r.head
     && end <= CountUpTo(chain, r.head) <= |chain|
     && r.events == chain[pos..end]
     && (r.events == [] || !r.hasCursor ==> end == CountUpTo(chain, r.head))
     && HonestPages(chain, end, announced, replies[1..]))
  }

  ghost predicate HonestStep(chain: seq<ChainEvent>, x: Indexer, step: Step) {
    step.Poll? && step.currentLedger > x.lastProcessed ==>
      CountUpTo(chain, x.lastProcessed) <= |chain|
      && HonestPages(chain, CountUpTo(chain, x.lastProcessed), step.currentLedger, step.replies)
  }

  ghost predicate HonestRun(chain: seq<ChainEvent>, x: Indexer, steps: seq<Step>, startLedger: nat)
    decreases |steps|
  {
    steps == [] ||
    (HonestStep(chain, x, steps[0]) && HonestRun(chain, Next(x, steps[0], startLedger), steps[1..], startLedger))
  }

  /** The indexer as it comes up on an empty database. */
  function Initial(startLedger: nat): Indexer {
    Indexer(map[], None, startLedger)
  }
}
