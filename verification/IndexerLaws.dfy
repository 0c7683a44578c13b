/**
 * What the event table holds after any run of failing polls and restarts: exactly what the
 * run showed and accepted, and, on an honest chain, exactly the chain's rows.
 */
module IndexerLaws {
  import opened Base
  import opened IndexerModel

  // ------------------------------------------------------------------
  // What a run shows of a key
  // ------------------------------------------------------------------

  /** One time the indexer processed an event with a given key, and whether it got as far as the table. */
  datatype Showing = Showing(payload: string, accepted: bool)

  predicate HasKey(e: ChainEvent, key: Key) {
    Recognized(e) && KeyOf(e) == key
  }

  function PageShowings(r: Reply, n: nat, key: Key): seq<Showing>
    requires r.Page? && n <= |r.events|
  {
    if n == 0 then []
    else
      PageShowings(r, n - 1, key)
      + if HasKey(r.events[n - 1], key) then [Showing(r.events[n - 1].payload, Accepted(r, n - 1))] else []
  }

  /** The showings on the pages a sweep commits. */
  function SweepShowings(replies: seq<Reply>, key: Key): seq<Showing>
    decreases |replies|
  {
    if replies == [] || replies[0].RpcError? || replies[0].events == [] || !replies[0].commits then []
    else
      PageShowings(replies[0], |replies[0].events|, key)
      + if replies[0].hasCursor then SweepShowings(replies[1..], key) else []
  }

  function StepShowings(x: Indexer, step: Step, key: Key): seq<Showing> {
    if step.Poll? && step.currentLedger > x.lastProcessed then SweepShowings(step.replies, key) else []
  }

  function RunShowings(x: Indexer, steps: seq<Step>, startLedger: nat, key: Key): seq<Showing>
    decreases |steps|
  {
    if steps == [] then []
    else StepShowings(x, steps[0], key) + RunShowings(Next(x, steps[0], startLedger), steps[1..], startLedger, key)
  }

  function FirstShown(shown: seq<Showing>): Option<string> {
    if shown == [] then None else Some(shown[0].payload)
  }

  function FirstAccepted(shown: seq<Showing>): Option<string> {
    if shown == [] then None
    else if shown[0].accepted then Some(shown[0].payload)
    else FirstAccepted(shown[1..])
  }

  ghost predicate AnyAccepted(shown: seq<Showing>) {
    exists i :: 0 <= i < |shown| && shown[i].accepted
  }

  function OrElse(a: Option<string>, b: Option<string>): Option<string> {
    if a.Some? then a else b
  }

  lemma ShowingsAssoc(a: seq<Showing>, b: seq<Showing>, c: seq<Showing>)
    ensures (a + b) + c == a + (b + c)
  {
  }

  lemma {:induction false} FirstAcceptedConcat(a: seq<Showing>, b: seq<Showing>)
    ensures FirstAccepted(a + b) == OrElse(FirstAccepted(a), FirstAccepted(b))
  {
    if a == [] {
      assert a + b == b;
    } else {
      assert (a + b)[1..] == a[1..] + b;
      FirstAcceptedConcat(a[1..], b);
    }
  }

  lemma {:induction false} FirstAcceptedIff(shown: seq<Showing>)
    ensures FirstAccepted(shown).Some? <==> AnyAccepted(shown)
  {
    if shown != [] {
      FirstAcceptedIff(shown[1..]);
      if shown[0].accepted {
        assert AnyAccepted(shown);
      } else if AnyAccepted(shown) {
        var i :| 0 <= i < |shown| && shown[i].accepted;
        assert shown[1..][i - 1].accepted;
      } else {
        forall i | 0 <= i < |shown[1..]| ensures !shown[1..][i].accepted {
          assert shown[1..][i] == shown[i + 1];
        }
      }
    }
  }

  // ------------------------------------------------------------------
  // The table is what was shown and accepted
  // ------------------------------------------------------------------

  function Lookup(table: Table, key: Key): Option<string> {
    if key in table then Some(table[key]) else None
  }

  lemma {:induction false} PageStoresFirstAccepted(table: Table, r: Reply, n: nat, key: Key)
    requires r.Page? && n <= |r.events|
    ensures Lookup(InsertedUpTo(table, r, n), key)
            == OrElse(Lookup(table, key), FirstAccepted(PageShowings(r, n, key)))
  {
    if n > 0 {
      PageStoresFirstAccepted(table, r, n - 1, key);
      if HasKey(r.events[n - 1], key) {
        var last := [Showing(r.events[n - 1].payload, Accepted(r, n - 1))];
        assert last[1..] == [];
        FirstAcceptedConcat(PageShowings(r, n - 1, key), last);
      } else {
        assert PageShowings(r, n, key) == PageShowings(r, n - 1, key);
      }
    }
  }

  lemma {:induction false} SweepStoresFirstAccepted(table: Table, maxSeen: nat, replies: seq<Reply>, key: Key)
    ensures Lookup(SweepPages(table, maxSeen, replies).table, key)
            == OrElse(Lookup(table, key), FirstAccepted(SweepShowings(replies, key)))
    decreases |replies|
  {
    if replies != [] && replies[0].Page? && replies[0].events != [] && replies[0].commits {
      var r := replies[0];
      var page := PageShowings(r, |r.events|, key);
      PageStoresFirstAccepted(table, r, |r.events|, key);
      if r.hasCursor {
        SweepStoresFirstAccepted(InsertedAll(table, r), MaxLedger(maxSeen, r.events), replies[1..], key);
        FirstAcceptedConcat(page, SweepShowings(replies[1..], key));
      } else {
        assert page + [] == page;
      }
    }
  }

  lemma StepStoresFirstAccepted(x: Indexer, step: Step, startLedger: nat, key: Key)
    ensures Lookup(Next(x, step, startLedger).table, key)
            == OrElse(Lookup(x.table, key), FirstAccepted(StepShowings(x, step, key)))
  {
    if step.Poll? {
      SweepStoresFirstAccepted(x.table, x.lastProcessed, step.replies, key);
    }
  }

  /**
   * Insert-or-ignore, over any run whatever the RPC node answers: a key's row is the one it
   * had, or else the first showing of the key that was accepted. So a key gets a row if and
   * only if some committed page showed it while its stream had a row and nothing else threw.
   */
  lemma {:induction false} RowsAreFirstAccepted(x: Indexer, steps: seq<Step>, startLedger: nat, key: Key)
    ensures var shown := RunShowings(x, steps, startLedger, key);
      var after := Run(x, steps, startLedger).table;
      && Lookup(after, key) == OrElse(Lookup(x.table, key), FirstAccepted(shown))
      && (key in after <==> key in x.table || AnyAccepted(shown))
    decreases |steps|
  {
    FirstAcceptedIff(RunShowings(x, steps, startLedger, key));
    if steps != [] {
      var next := Next(x, steps[0], startLedger);
      StepStoresFirstAccepted(x, steps[0], startLedger, key);
      RowsAreFirstAccepted(next, steps[1..], startLedger, key);
      FirstAcceptedConcat(StepShowings(x, steps[0], key), RunShowings(next, steps[1..], startLedger, key));
    }
  }

  // ------------------------------------------------------------------
  // The rows the chain prescribes
  // ------------------------------------------------------------------

  predicate Matches(e: ChainEvent, startLedger: nat, key: Key) {
    HasKey(e, key) && e.ledger > startLedger
  }

  /** The first event with this key among the first `n`, after the starting ledger. */
  function FirstRow(chain: seq<ChainEvent>, n: nat, startLedger: nat, key: Key): Option<string>
    requires n <= |chain|
  {
    if n == 0 then None
    else if FirstRow(chain, n - 1, startLedger, key).Some? then FirstRow(chain, n - 1, startLedger, key)
    else if Matches(chain[n - 1], startLedger, key) then Some(chain[n - 1].payload)
    else None
  }

  lemma {:induction false} FirstRowFound(chain: seq<ChainEvent>, n: nat, i: nat, startLedger: nat, key: Key)
    requires i < n <= |chain| && Matches(chain[i], startLedger, key)
    ensures FirstRow(chain, n, startLedger, key).Some?
  {
    if i < n - 1 {
      FirstRowFound(chain, n - 1, i, startLedger, key);
    }
  }

  /** Events that do not match add nothing. */
  lemma {:induction false} FirstRowSettled(chain: seq<ChainEvent>, n: nat, m: nat, startLedger: nat, key: Key)
    requires n <= m <= |chain|
    requires forall i | n <= i < m :: !Matches(chain[i], startLedger, key)
    ensures FirstRow(chain, m, startLedger, key) == FirstRow(chain, n, startLedger, key)
  {
    if n < m {
      FirstRowSettled(chain, n, m - 1, startLedger, key);
    }
  }

  // ------------------------------------------------------------------
  // What an honest node shows
  // ------------------------------------------------------------------

  /** Every showing is of some chain event after the starting ledger. */
  ghost predicate FromChain(shown: seq<Showing>, chain: seq<ChainEvent>, startLedger: nat, key: Key) {
    forall j | 0 <= j < |shown| :: OnChain(shown[j].payload, chain, startLedger, key)
  }

  ghost predicate OnChain(payload: string, chain: seq<ChainEvent>, startLedger: nat, key: Key) {
    exists i :: 0 <= i < |chain| && Matches(chain[i], startLedger, key) && chain[i].payload == payload
  }

  /** What has been shown of the key so far is true, and shows first what the first `n` events have first. */
  ghost predicate ShownUpTo(shown: seq<Showing>, chain: seq<ChainEvent>, n: nat, startLedger: nat, key: Key) {
    && n <= |chain| && FromChain(shown, chain, startLedger, key)
    && FirstShown(shown) == FirstRow(chain, n, startLedger, key)
  }

  lemma ShowOne(shown: seq<Showing>, chain: seq<ChainEvent>, n: nat, i: nat, startLedger: nat, key: Key, accepted: bool)
    requires ShownUpTo(shown, chain, n, startLedger, key) && i <= n && i < |chain|
    requires chain[i].ledger > startLedger
    ensures var more := if HasKey(chain[i], key) then [Showing(chain[i].payload, accepted)] else [];
      ShownUpTo(shown + more, chain, Max(n, i + 1), startLedger, key)
  {
    if HasKey(chain[i], key) {
      assert Matches(chain[i], startLedger, key);
      assert OnChain(chain[i].payload, chain, startLedger, key);
      if i < n { FirstRowFound(chain, n, i, startLedger, key); }
    } else {
      assert shown + [] == shown;
    }
  }

  lemma {:induction false} ShowPage(
    shown: seq<Showing>, chain: seq<ChainEvent>, n: nat, pos: nat, r: Reply, k: nat, startLedger: nat, key: Key)
    requires ShownUpTo(shown, chain, n, startLedger, key) && pos <= n
    requires r.Page? && k <= |r.events| && pos + |r.events| <= |chain| && r.events == chain[pos..pos + |r.events|]
    requires forall j | pos <= j < |chain| :: chain[j].ledger > startLedger
    ensures ShownUpTo(shown + PageShowings(r, k, key), chain, Max(n, pos + k), startLedger, key)
  {
    if k == 0 {
      assert shown + [] == shown;
    } else {
      var before := PageShowings(r, k - 1, key);
      ShowPage(shown, chain, n, pos, r, k - 1, startLedger, key);
      assert r.events[k - 1] == chain[pos + k - 1];
      ShowOne(shown + before, chain, Max(n, pos + k - 1), pos + k - 1, startLedger, key, Accepted(r, k - 1));
      var more := if HasKey(r.events[k - 1], key) then [Showing(r.events[k - 1].payload, Accepted(r, k - 1))] else [];
      assert (shown + before) + more == shown + PageShowings(r, k, key);
    }
  }

  lemma {:induction false} MaxLedgerBounded(seen: nat, events: seq<ChainEvent>, head: nat)
    requires seen <= head && forall i | 0 <= i < |events| :: events[i].ledger <= head
    ensures seen <= MaxLedger(seen, events) <= head
    decreases |events|
  {
    if events != [] {
      MaxLedgerBounded(if events[0].ledger > seen then events[0].ledger else seen, events[1..], head);
    }
  }

  /** The largest ledger seen runs ahead neither of the node nor, past what it announced, of the last event shown. */
  ghost predicate SeenBounded(chain: seq<ChainEvent>, pos: nat, announced: nat, seen: nat) {
    seen <= announced || (0 < pos <= |chain| && seen <= chain[pos - 1].ledger)
  }

  lemma PageKeepsSeenBounded(chain: seq<ChainEvent>, pos: nat, end: nat, announced: nat, seen: nat, head: nat)
    requires Ordered(chain) && pos <= end <= CountUpTo(chain, head) <= |chain| && announced <= head
    requires SeenBounded(chain, pos, announced, seen)
    ensures var after := MaxLedger(seen, chain[pos..end]);
      seen <= head && after <= head && SeenBounded(chain, end, announced, after)
  {
    CountUpToSplits(chain, head);
    var events := chain[pos..end];
    if end > 0 {
      var bound := Max(announced, chain[end - 1].ledger);
      forall i | 0 <= i < |events| ensures events[i].ledger <= bound {
        assert events[i] == chain[pos + i];
      }
      MaxLedgerBounded(seen, events, bound);
    } else {
      assert events == [];
    }
  }

  /**
   * A sweep, however it ends, has shown a key truly up to some point of the chain; if it
   * ends well, that point lies beyond every event up to the new checkpoint.
   */
  lemma {:induction false} SweepShowsChain(
    shown: seq<Showing>, table: Table, maxSeen: nat, replies: seq<Reply>, chain: seq<ChainEvent>, n: nat, pos: nat,
    announced: nat, startLedger: nat, key: Key) returns (m: nat)
    requires Ordered(chain) && pos <= n && ShownUpTo(shown, chain, n, startLedger, key)
    requires HonestPages(chain, pos, announced, replies) && SeenBounded(chain, pos, announced, maxSeen)
    requires forall j | pos <= j < |chain| :: chain[j].ledger > startLedger
    ensures n <= m && ShownUpTo(shown + SweepShowings(replies, key), chain, m, startLedger, key)
    ensures var sweep := SweepPages(table, maxSeen, replies);
      sweep.end == SweptAll ==> CountUpTo(chain, Max(announced, sweep.maxSeen)) <= m
    decreases |replies|
  {
    m := n;
    assert shown + [] == shown;
    if replies != [] && replies[0].Page? {
      var r := replies[0];
      var end := pos + |r.events|;
      PageKeepsSeenBounded(chain, pos, end, announced, maxSeen, r.head);
      if r.events == [] {
        CountMonotone(chain, Max(announced, maxSeen), r.head);
      } else if r.commits {
        m := SweepPageOn(shown, table, maxSeen, replies, chain, n, pos, announced, startLedger, key);
      }
    }
  }

  /** What a page adds to what is shown, as the sweep goes on from it or ends. */
  lemma CommittedPageShown(
    shown: seq<Showing>, replies: seq<Reply>, chain: seq<ChainEvent>, n: nat, pos: nat, startLedger: nat, key: Key)
    requires pos <= n && ShownUpTo(shown, chain, n, startLedger, key)
    requires replies != [] && replies[0].Page? && replies[0].events != [] && replies[0].commits
    requires pos + |replies[0].events| <= |chain| && replies[0].events == chain[pos..pos + |replies[0].events|]
    requires forall j | pos <= j < |chain| :: chain[j].ledger > startLedger
    ensures var r := replies[0];
      var now := shown + PageShowings(r, |r.events|, key);
      && ShownUpTo(now, chain, Max(n, pos + |r.events|), startLedger, key)
      && shown + SweepShowings(replies, key) == if r.hasCursor then now + SweepShowings(replies[1..], key) else now
  {
    var r := replies[0];
    var page := PageShowings(r, |r.events|, key);
    ShowPage(shown, chain, n, pos, r, |r.events|, startLedger, key);
    if r.hasCursor {
      ShowingsAssoc(shown, page, SweepShowings(replies[1..], key));
    } else {
      assert page + [] == page;
    }
  }

  /** The same when the first page is committed. */
  lemma {:induction false} SweepPageOn(
    shown: seq<Showing>, table: Table, maxSeen: nat, replies: seq<Reply>, chain: seq<ChainEvent>, n: nat, pos: nat,
    announced: nat, startLedger: nat, key: Key) returns (m: nat)
    requires Ordered(chain) && pos <= n && ShownUpTo(shown, chain, n, startLedger, key)
    requires HonestPages(chain, pos, announced, replies)
    requires forall j | pos <= j < |chain| :: chain[j].ledger > startLedger
    requires replies != [] && replies[0].Page? && replies[0].events != [] && replies[0].commits
    requires var r := replies[0];
      var seen := MaxLedger(maxSeen, r.events);
      seen <= r.head && SeenBounded(chain, pos + |r.events|, announced, seen)
    ensures n <= m && ShownUpTo(shown + SweepShowings(replies, key), chain, m, startLedger, key)
    ensures var sweep := SweepPages(table, maxSeen, replies);
      sweep.end == SweptAll ==> CountUpTo(chain, Max(announced, sweep.maxSeen)) <= m
    decreases |replies|, 0
  {
    var r := replies[0];
    var end, seen := pos + |r.events|, MaxLedger(maxSeen, r.events);
    CommittedPageShown(shown, replies, chain, n, pos, startLedger, key);
    m := Max(n, end);
    if !r.hasCursor {
      CountMonotone(chain, Max(announced, seen), r.head);
    } else {
      m := SweepShowsChain(shown + PageShowings(r, |r.events|, key), InsertedAll(table, r), seen, replies[1..],
                           chain, m, end, announced, startLedger, key);
    }
  }

  /** Both the memory and the saved checkpoint lie within the first `n` events of the chain. */
  ghost predicate IndexerSound(x: Indexer, chain: seq<ChainEvent>, n: nat, startLedger: nat) {
    && startLedger <= x.lastProcessed
    && CountUpTo(chain, startLedger) <= n
    && CountUpTo(chain, x.lastProcessed) <= n
    && (x.saved.Some? ==> CountUpTo(chain, x.saved.value) <= n)
  }

  lemma StepShowsChain(
    shown: seq<Showing>, x: Indexer, step: Step, chain: seq<ChainEvent>, n: nat, startLedger: nat, key: Key)
    returns (m: nat)
    requires Ordered(chain) && IndexerSound(x, chain, n, startLedger) && HonestStep(chain, x, step)
    requires ShownUpTo(shown, chain, n, startLedger, key)
    ensures IndexerSound(Next(x, step, startLedger), chain, m, startLedger)
    ensures ShownUpTo(shown + StepShowings(x, step, key), chain, m, startLedger, key)
  {
    m := n;
    assert shown + [] == shown;
    CountUpToSplits(chain, x.lastProcessed);
    CountMonotone(chain, 0, startLedger);
    if step.Poll? && step.currentLedger > x.lastProcessed {
      m := SweepShowsChain(shown, x.table, x.lastProcessed, step.replies, chain, n, CountUpTo(chain, x.lastProcessed),
                           step.currentLedger, startLedger, key);
    }
  }

  lemma {:induction false} RunShowsChain(
    shown: seq<Showing>, x: Indexer, steps: seq<Step>, chain: seq<ChainEvent>, n: nat, startLedger: nat, key: Key)
    returns (m: nat)
    requires Ordered(chain) && IndexerSound(x, chain, n, startLedger) && HonestRun(chain, x, steps, startLedger)
    requires ShownUpTo(shown, chain, n, startLedger, key)
    ensures IndexerSound(Run(x, steps, startLedger), chain, m, startLedger)
    ensures ShownUpTo(shown + RunShowings(x, steps, startLedger, key), chain, m, startLedger, key)
    decreases |steps|
  {
    if steps == [] {
      m := n;
      assert shown + [] == shown;
    } else {
      m := StepShowsChain(shown, x, steps[0], chain, n, startLedger, key);
      var first, next := StepShowings(x, steps[0], key), Next(x, steps[0], startLedger);
      m := RunShowsChain(shown + first, next, steps[1..], chain, m, startLedger, key);
      ShowingsAssoc(shown, first, RunShowings(next, steps[1..], startLedger, key));
    }
  }

  /** What an honest run from an empty database has shown of a key. */
  lemma {:induction false} ShownTruly(chain: seq<ChainEvent>, steps: seq<Step>, startLedger: nat, key: Key)
    requires Ordered(chain) && HonestRun(chain, Initial(startLedger), steps, startLedger)
    ensures var shown := RunShowings(Initial(startLedger), steps, startLedger, key);
      && FromChain(shown, chain, startLedger, key)
      && (key.ledger <= Run(Initial(startLedger), steps, startLedger).lastProcessed ==>
            FirstShown(shown) == FirstRow(chain, |chain|, startLedger, key))
  {
    var x, n := Initial(startLedger), CountUpTo(chain, startLedger);
    CountUpToSplits(chain, startLedger);
    FirstRowSettled(chain, 0, n, startLedger, key);
    var m := RunShowsChain([], x, steps, chain, n, startLedger, key);
    assert [] + RunShowings(x, steps, startLedger, key) == RunShowings(x, steps, startLedger, key);
    CountUpToSplits(chain, Run(x, steps, startLedger).lastProcessed);
    if key.ledger <= Run(x, steps, startLedger).lastProcessed {
      FirstRowSettled(chain, m, |chain|, startLedger, key);
    }
  }

  // ------------------------------------------------------------------
  // Main results
  // ------------------------------------------------------------------

  /**
   * Exactly once: after any honest run of polls (failing before, within or after any page)
   * and restarts, a key up to the checkpoint has exactly the row of the first chain event
   * with that key after the starting ledger, or none if there is none, if and only if what
   * the run accepted first of the key is what it was shown first. That is so in particular
   * when nothing the run was shown of the key was passed over.
   */
  lemma {:induction false} ExactlyOnce(chain: seq<ChainEvent>, steps: seq<Step>, startLedger: nat, key: Key)
    requires Ordered(chain) && HonestRun(chain, Initial(startLedger), steps, startLedger)
    requires key.ledger <= Run(Initial(startLedger), steps, startLedger).lastProcessed
    ensures var x := Run(Initial(startLedger), steps, startLedger);
      var shown := RunShowings(Initial(startLedger), steps, startLedger, key);
      && (Lookup(x.table, key) == FirstRow(chain, |chain|, startLedger, key)
          <==> FirstAccepted(shown) == FirstShown(shown))
      && ((forall i | 0 <= i < |shown| :: shown[i].accepted) ==>
            Lookup(x.table, key) == FirstRow(chain, |chain|, startLedger, key))
  {
    ShownTruly(chain, steps, startLedger, key);
    RowsAreFirstAccepted(Initial(startLedger), steps, startLedger, key);
  }

  /** Nothing is invented: every row is that of some chain event after the starting ledger. */
  lemma {:induction false} OnlyChainEvents(chain: seq<ChainEvent>, steps: seq<Step>, startLedger: nat, key: Key)
    requires Ordered(chain) && HonestRun(chain, Initial(startLedger), steps, startLedger)
    requires key in Run(Initial(startLedger), steps, startLedger).table
    ensures OnChain(Run(Initial(startLedger), steps, startLedger).table[key], chain, startLedger, key)
  {
    var shown := RunShowings(Initial(startLedger), steps, startLedger, key);
    ShownTruly(chain, steps, startLedger, key);
    RowsAreFirstAccepted(Initial(startLedger), steps, startLedger, key);
    var i := FirstAcceptedAt(shown);
    assert OnChain(shown[i].payload, chain, startLedger, key);
  }

  lemma {:induction false} FirstAcceptedAt(shown: seq<Showing>) returns (i: nat)
    requires FirstAccepted(shown).Some?
    ensures i < |shown| && shown[i].accepted && FirstAccepted(shown) == Some(shown[i].payload)
  {
    if shown[0].accepted {
      i := 0;
    } else {
      i := FirstAcceptedAt(shown[1..]);
      i := i + 1;
    }
  }

  /**
   * Nothing is skipped: every recognized event after the starting ledger and up to the
   * checkpoint was shown, and its key has a row if and only if it was accepted at least once.
   */
  lemma {:induction false} EveryEventIndexed(chain: seq<ChainEvent>, steps: seq<Step>, startLedger: nat, i: nat)
    requires Ordered(chain) && HonestRun(chain, Initial(startLedger), steps, startLedger)
    requires i < |chain| && Recognized(chain[i])
    requires startLedger < chain[i].ledger <= Run(Initial(startLedger), steps, startLedger).lastProcessed
    ensures var shown := RunShowings(Initial(startLedger), steps, startLedger, KeyOf(chain[i]));
      && shown != []
      && (KeyOf(chain[i]) in Run(Initial(startLedger), steps, startLedger).table <==> AnyAccepted(shown))
  {
    var key := KeyOf(chain[i]);
    FirstRowFound(chain, |chain|, i, startLedger, key);
    ShownTruly(chain, steps, startLedger, key);
    RowsAreFirstAccepted(Initial(startLedger), steps, startLedger, key);
  }

  /**
   * An event that shares its key with no other has its own row, once the checkpoint is past
   * it, if and only if it was accepted at least once. (Two events of one kind on one stream
   * in one ledger share a key: see `SecondOfAKindIsLost`.)
   */
  lemma {:induction false} SoleEventIndexed(chain: seq<ChainEvent>, steps: seq<Step>, startLedger: nat, i: nat)
    requires Ordered(chain) && HonestRun(chain, Initial(startLedger), steps, startLedger)
    requires i < |chain| && Recognized(chain[i])
    requires forall j | 0 <= j < |chain| && j != i :: !HasKey(chain[j], KeyOf(chain[i]))
    requires startLedger < chain[i].ledger <= Run(Initial(startLedger), steps, startLedger).lastProcessed
    ensures var key := KeyOf(chain[i]);
      Lookup(Run(Initial(startLedger), steps, startLedger).table, key) == Some(chain[i].payload)
      <==> AnyAccepted(RunShowings(Initial(startLedger), steps, startLedger, key))
  {
    var key := KeyOf(chain[i]);
    EveryEventIndexed(chain, steps, startLedger, i);
    if key in Run(Initial(startLedger), steps, startLedger).table {
      OnlyChainEvents(chain, steps, startLedger, key);
    }
  }

  /**
   * However differently two runs failed and restarted, they hold the same row for a key both
   * have checkpointed, if each accepted it the first time it was shown.
   */
  lemma {:induction false} RunsAgree(chain: seq<ChainEvent>, a: seq<Step>, b: seq<Step>, startLedger: nat, key: Key)
    requires Ordered(chain)
    requires HonestRun(chain, Initial(startLedger), a, startLedger)
    requires HonestRun(chain, Initial(startLedger), b, startLedger)
    requires key.ledger <= Run(Initial(startLedger), a, startLedger).lastProcessed
    requires key.ledger <= Run(Initial(startLedger), b, startLedger).lastProcessed
    ensures var shownA := RunShowings(Initial(startLedger), a, startLedger, key);
      var shownB := RunShowings(Initial(startLedger), b, startLedger, key);
      && FirstShown(shownA) == FirstShown(shownB)
      && (FirstAccepted(shownA) == FirstShown(shownA) && FirstAccepted(shownB) == FirstShown(shownB) ==>
            Lookup(Run(Initial(startLedger), a, startLedger).table, key)
            == Lookup(Run(Initial(startLedger), b, startLedger).table, key))
  {
    ShownTruly(chain, a, startLedger, key);
    ShownTruly(chain, b, startLedger, key);
    ExactlyOnce(chain, a, startLedger, key);
    ExactlyOnce(chain, b, startLedger, key);
  }

  // ------------------------------------------------------------------
  // Events passed over
  // ------------------------------------------------------------------

  lemma {:induction false} LaterEventsDoNotShow(r: Reply, n: nat, key: Key)
    requires r.Page? && n <= |r.events| && forall i | 0 <= i < |r.events| :: r.events[i].ledger > key.ledger
    ensures PageShowings(r, n, key) == []
  {
    if n > 0 {
      LaterEventsDoNotShow(r, n - 1, key);
    }
  }

  lemma {:induction false} LaterSweepDoesNotShow(
    replies: seq<Reply>, chain: seq<ChainEvent>, pos: nat, announced: nat, key: Key)
    requires HonestPages(chain, pos, announced, replies)
    requires forall j | pos <= j < |chain| :: chain[j].ledger > key.ledger
    ensures SweepShowings(replies, key) == []
    decreases |replies|
  {
    if replies != [] && replies[0].Page? {
      var r := replies[0];
      if r.events != [] && r.commits {
        LaterEventsDoNotShow(r, |r.events|, key);
        LaterSweepDoesNotShow(replies[1..], chain, pos + |r.events|, announced, key);
      }
    }
  }

  /** The checkpoint has passed this key, in memory and on disk. */
  ghost predicate Passed(x: Indexer, ledger: nat) {
    ledger <= x.lastProcessed && x.saved.Some? && ledger <= x.saved.value
  }

  /**
   * What the table does not have once the checkpoint has passed it is never shown again, and
   * so never indexed, as long as the checkpoint can be loaded. (`RowsAreFirstAccepted` says
   * what happens when it cannot.)
   */
  lemma {:induction false} MissedForGood(
    x: Indexer, steps: seq<Step>, chain: seq<ChainEvent>, startLedger: nat, key: Key)
    requires Ordered(chain) && HonestRun(chain, x, steps, startLedger) && Passed(x, key.ledger)
    requires forall i | 0 <= i < |steps| :: steps[i] != Restart(false)
    ensures RunShowings(x, steps, startLedger, key) == []
    ensures key in Run(x, steps, startLedger).table <==> key in x.table
    decreases |steps|
  {
    RowsAreFirstAccepted(x, steps, startLedger, key);
    if steps != [] {
      var step := steps[0];
      if step.Poll? && step.currentLedger > x.lastProcessed {
        CountUpToSplits(chain, x.lastProcessed);
        LaterSweepDoesNotShow(step.replies, chain, CountUpTo(chain, x.lastProcessed), step.currentLedger, key);
      }
      assert step != Restart(false);
      forall i | 0 <= i < |steps[1..]| ensures steps[1..][i] != Restart(false) {
        assert steps[1..][i] == steps[i + 1];
      }
      MissedForGood(Next(x, step, startLedger), steps[1..], chain, startLedger, key);
    }
  }

  // ------------------------------------------------------------------
  // Progress
  // ------------------------------------------------------------------

  /** A page with events that is committed. */
  predicate Committed(r: Reply) {
    r.Page? && r.events != [] && r.commits
  }

  /** The pages before `k` are committed and lead on. */
  ghost predicate LeadsTo(replies: seq<Reply>, k: nat) {
    k < |replies| && forall i | 0 <= i < k :: Committed(replies[i]) && replies[i].hasCursor
  }

  /** The sweep ends well with reply `k`: an empty page, or a committed one without cursor. */
  ghost predicate EndsWith(replies: seq<Reply>, k: nat) {
    && LeadsTo(replies, k) && replies[k].Page?
    && (replies[k].events == [] || (replies[k].commits && !replies[k].hasCursor))
  }

  lemma LeadsShift(replies: seq<Reply>, k: nat)
    requires replies != []
    ensures LeadsTo(replies, k + 1) <==> Committed(replies[0]) && replies[0].hasCursor && LeadsTo(replies[1..], k)
  {
    var rest := replies[1..];
    if LeadsTo(replies, k + 1) {
      forall i | 0 <= i < k ensures Committed(rest[i]) && rest[i].hasCursor {
        assert rest[i] == replies[i + 1];
      }
    }
    if Committed(replies[0]) && replies[0].hasCursor && LeadsTo(rest, k) {
      forall i | 0 <= i < k + 1 ensures Committed(replies[i]) && replies[i].hasCursor {
        if i > 0 { assert replies[i] == rest[i - 1]; }
      }
    }
  }

  lemma LeadsPastFirst(replies: seq<Reply>, k: nat)
    requires k > 0 && LeadsTo(replies, k)
    ensures Committed(replies[0]) && replies[0].hasCursor
  {
  }

  /** A sweep ends well exactly when some reply ends it well. */
  lemma {:induction false} SweptIff(table: Table, maxSeen: nat, replies: seq<Reply>)
    ensures SweepPages(table, maxSeen, replies).end == SweptAll <==> exists k: nat :: EndsWith(replies, k)
    decreases |replies|
  {
    if replies != [] {
      var r := replies[0];
      if Committed(r) && r.hasCursor {
        SweptIff(InsertedAll(table, r), MaxLedger(maxSeen, r.events), replies[1..]);
        if k: nat :| EndsWith(replies[1..], k) {
          LeadsShift(replies, k);
          assert EndsWith(replies, k + 1);
        }
        if k: nat :| EndsWith(replies, k) {
          assert k > 0;
          LeadsShift(replies, k - 1);
          assert EndsWith(replies[1..], k - 1);
        }
      } else {
        if EndsWith(replies, 0) {
          assert SweepPages(table, maxSeen, replies).end == SweptAll;
        }
        forall k: nat ensures EndsWith(replies, k) ==> k == 0 {
          if k > 0 && EndsWith(replies, k) { LeadsPastFirst(replies, k); }
        }
      }
    }
  }

  /** Some event of these has that ledger. */
  ghost predicate HasLedger(events: seq<ChainEvent>, ledger: nat) {
    exists i :: 0 <= i < |events| && events[i].ledger == ledger
  }

  lemma {:induction false} MaxLedgerMeans(seen: nat, events: seq<ChainEvent>)
    ensures var m := MaxLedger(seen, events);
      && seen <= m && (forall i | 0 <= i < |events| :: events[i].ledger <= m)
      && (m == seen || HasLedger(events, m))
    decreases |events|
  {
    if events != [] {
      var next := if events[0].ledger > seen then events[0].ledger else seen;
      MaxLedgerMeans(next, events[1..]);
      var m := MaxLedger(seen, events);
      forall i | 0 <= i < |events| ensures events[i].ledger <= m {
        if i > 0 { assert events[i] == events[1..][i - 1]; }
      }
      if m != seen {
        if HasLedger(events[1..], m) {
          var i :| 0 <= i < |events[1..]| && events[1..][i].ledger == m;
          assert events[i + 1].ledger == m;
        } else {
          assert events[0].ledger == m;
        }
      }
    }
  }

  /** What a sweep has seen: at least every event of a page it committed, and nothing it was not shown. */
  lemma {:induction false} SweepSees(table: Table, maxSeen: nat, replies: seq<Reply>)
    ensures var seen := SweepPages(table, maxSeen, replies).maxSeen;
      && maxSeen <= seen
      && (forall k: nat, i: nat | LeadsTo(replies, k) && Committed(replies[k]) && i < |replies[k].events| ::
            replies[k].events[i].ledger <= seen)
      && (seen == maxSeen
          || exists k: nat :: LeadsTo(replies, k) && Committed(replies[k]) && HasLedger(replies[k].events, seen))
    decreases |replies|
  {
    if replies != [] && Committed(replies[0]) {
      var r, rest := replies[0], replies[1..];
      var now := MaxLedger(maxSeen, r.events);
      var seen := SweepPages(table, maxSeen, replies).maxSeen;
      MaxLedgerMeans(maxSeen, r.events);
      assert LeadsTo(replies, 0);
      if r.hasCursor {
        SweepSees(InsertedAll(table, r), now, rest);
        if seen != now {
          var k: nat :| LeadsTo(rest, k) && Committed(rest[k]) && HasLedger(rest[k].events, seen);
          LeadsShift(replies, k);
          assert replies[k + 1] == rest[k];
        }
      }
      forall k: nat, i: nat | LeadsTo(replies, k) && Committed(replies[k]) && i < |replies[k].events|
        ensures replies[k].events[i].ledger <= seen
      {
        if k > 0 {
          LeadsShift(replies, k - 1);
          assert replies[k] == rest[k - 1];
        }
      }
    } else {
      forall k: nat ensures LeadsTo(replies, k) ==> k == 0 {
        if k > 0 && LeadsTo(replies, k) { LeadsPastFirst(replies, k); }
      }
    }
  }

  /**
   * What a poll leaves behind: when a reply ends its sweep well and the checkpoint is saved,
   * memory and disk hold one and the same new checkpoint, at or beyond the ledger the node
   * announced and every event committed, and no further than either. In every other case the
   * checkpoint stays where it was. Rows are only ever added.
   */
  lemma {:induction false} PollAnswers(x: Indexer, currentLedger: nat, replies: seq<Reply>, saveCommits: bool)
    ensures var y := Polled(x, currentLedger, replies, saveCommits);
      var advances := currentLedger > x.lastProcessed && saveCommits && exists k: nat :: EndsWith(replies, k);
      && (advances ==>
            && y.saved == Some(y.lastProcessed) && currentLedger <= y.lastProcessed
            && (forall k: nat, i: nat | LeadsTo(replies, k) && Committed(replies[k]) && i < |replies[k].events| ::
                  replies[k].events[i].ledger <= y.lastProcessed)
            && (y.lastProcessed == currentLedger
                || exists k: nat :: LeadsTo(replies, k) && Committed(replies[k])
                               && HasLedger(replies[k].events, y.lastProcessed)))
      && (!advances ==> y.saved == x.saved && y.lastProcessed == x.lastProcessed)
      && (currentLedger <= x.lastProcessed ==> y == x)
  {
    SweptIff(x.table, x.lastProcessed, replies);
    SweepSees(x.table, x.lastProcessed, replies);
  }

  /** A restart takes up the saved checkpoint, or the configured start if that is later or nothing can be loaded. */
  lemma RestartAnswers(x: Indexer, loadSucceeds: bool, startLedger: nat)
    ensures var y := Loaded(x, loadSucceeds, startLedger);
      && y.table == x.table && y.saved == x.saved
      && startLedger <= y.lastProcessed
      && (loadSucceeds && x.saved.Some? ==> x.saved.value <= y.lastProcessed)
      && (y.lastProcessed == startLedger || (loadSucceeds && x.saved == Some(y.lastProcessed)))
  {
  }

  lemma {:induction false} RowsStay(table: Table, r: Reply, n: nat, key: Key)
    requires r.Page? && n <= |r.events| && key in table
    ensures key in InsertedUpTo(table, r, n) && InsertedUpTo(table, r, n)[key] == table[key]
  {
    if n > 0 {
      RowsStay(table, r, n - 1, key);
    }
  }

  lemma {:induction false} SweepKeepsRows(table: Table, maxSeen: nat, replies: seq<Reply>, key: Key)
    requires key in table
    ensures var after := SweepPages(table, maxSeen, replies).table; key in after && after[key] == table[key]
    decreases |replies|
  {
    if replies != [] && Committed(replies[0]) {
      RowsStay(table, replies[0], |replies[0].events|, key);
      if replies[0].hasCursor {
        SweepKeepsRows(InsertedAll(table, replies[0]), MaxLedger(maxSeen, replies[0].events), replies[1..], key);
      }
    }
  }

  /** The `i`-th event of a page has a name the indexer knows, its stream has its row, and nothing else throws. */
  predicate Storable(r: Reply, i: nat)
    requires r.Page? && i < |r.events|
  {
    && r.events[i].name in {Some(Created), Some(Claimed), Some(Completed), Some(Canceled), Some(Paused), Some(Resumed),
                            Some(Transfer), Some(Clawback)}
    && r.events[i].streamId in r.streams && i !in r.thrown
  }

  lemma {:induction false} PageStores(table: Table, r: Reply, n: nat, i: nat)
    requires r.Page? && i < n <= |r.events| && Storable(r, i)
    ensures Key(r.events[i].streamId, r.events[i].name.value, r.events[i].ledger) in InsertedUpTo(table, r, n)
    decreases n
  {
    if i < n - 1 {
      PageStores(table, r, n - 1, i);
    }
  }

  lemma {:induction false} SweepStores(table: Table, maxSeen: nat, replies: seq<Reply>, k: nat, i: nat)
    requires LeadsTo(replies, k) && Committed(replies[k]) && i < |replies[k].events| && Storable(replies[k], i)
    ensures var e := replies[k].events[i];
      Key(e.streamId, e.name.value, e.ledger) in SweepPages(table, maxSeen, replies).table
    decreases |replies|
  {
    var r := replies[0];
    var e := replies[k].events[i];
    if k == 0 {
      PageStores(table, r, |r.events|, i);
      if r.hasCursor {
        SweepKeepsRows(InsertedAll(table, r), MaxLedger(maxSeen, r.events), replies[1..],
                       Key(e.streamId, e.name.value, e.ledger));
      }
    } else {
      LeadsShift(replies, k - 1);
      assert replies[k] == replies[1..][k - 1];
      SweepStores(InsertedAll(table, r), MaxLedger(maxSeen, r.events), replies[1..], k - 1, i);
    }
  }

  /**
   * A poll that gets to work stores every event it can: on each page up to the first that
   * fails, an event of a known kind whose stream has its row, and whose processing does not
   * throw, has a row under its stream, kind and ledger afterwards, and rows there before stay.
   */
  lemma {:induction false} PollStores(
    x: Indexer, currentLedger: nat, replies: seq<Reply>, saveCommits: bool, k: nat, i: nat)
    requires currentLedger > x.lastProcessed
    requires LeadsTo(replies, k) && Committed(replies[k]) && i < |replies[k].events| && Storable(replies[k], i)
    ensures var e, after := replies[k].events[i], Polled(x, currentLedger, replies, saveCommits).table;
      && Key(e.streamId, e.name.value, e.ledger) in after
      && forall key | key in x.table :: key in after && after[key] == x.table[key]
  {
    SweepStores(x.table, x.lastProcessed, replies, k, i);
    forall key | key in x.table
      ensures var after := Polled(x, currentLedger, replies, saveCommits).table;
        key in after && after[key] == x.table[key]
    {
      SweepKeepsRows(x.table, x.lastProcessed, replies, key);
    }
  }

  // ------------------------------------------------------------------
  // Concrete losses
  // ------------------------------------------------------------------

  /** A poll up to ledger 10 whose one page holds `events`, all of ledger 5. */
  function OnePagePoll(events: seq<ChainEvent>, streams: set<string>, thrown: set<nat>): Step {
    Poll(10, [Page(events, false, true, streams, thrown, 10)], true)
  }

  /** What such a poll does to an empty database. */
  lemma {:induction false} AfterOnePage(events: seq<ChainEvent>, streams: set<string>, thrown: set<nat>)
    requires 1 <= |events| <= 2 && forall i | 0 <= i < |events| :: events[i].ledger == 5
    ensures var poll := OnePagePoll(events, streams, thrown);
      var x := Run(Initial(0), [poll], 0);
      && Ordered(events) && HonestRun(events, Initial(0), [poll], 0)
      && x.table == InsertedAll(map[], poll.replies[0]) && Passed(x, 5)
  {
    var poll := OnePagePoll(events, streams, thrown);
    var r := poll.replies[0];
    CountUpToSplits(events, 0);
    CountUpToSplits(events, 10);
    assert events[0].ledger > 0 && events[|events| - 1].ledger <= 10;
    assert CountUpTo(events, 0) == 0 && CountUpTo(events, 10) == |events|;
    assert r.events == events[0..|events|] && poll.replies[1..] == [];
    assert HonestPages(events, 0, 10, poll.replies);
    MaxLedgerBounded(0, events, 10);
    assert SweepPages(map[], 0, poll.replies).end == SweptAll;
    assert [poll][1..] == [];
    assert Run(Initial(0), [poll], 0) == Run(Next(Initial(0), poll, 0), [], 0);
    assert HonestStep(events, Initial(0), poll);
  }

  /** A successful poll passes over an event whose stream has no row yet, for good. */
  lemma UnknownStreamIsLost()
    ensures var e := ChainEvent(5, Some(Canceled), "1", "row");
      var x := Run(Initial(0), [OnePagePoll([e], {}, {})], 0);
      HonestRun([e], Initial(0), [OnePagePoll([e], {}, {})], 0) && Passed(x, 5) && KeyOf(e) !in x.table
  {
    var e := ChainEvent(5, Some(Canceled), "1", "row");
    AfterOnePage([e], {}, {});
    var r := OnePagePoll([e], {}, {}).replies[0];
    assert !Accepted(r, 0);
    assert InsertedUpTo(map[], r, 0) == map[] && InsertedUpTo(map[], r, 1) == map[];
  }

  /** So it does one whose stream has its row, when its processing throws. */
  lemma ThrownEventIsLost()
    ensures var e := ChainEvent(5, Some(Paused), "1", "row");
      var x := Run(Initial(0), [OnePagePoll([e], {"1"}, {0})], 0);
      HonestRun([e], Initial(0), [OnePagePoll([e], {"1"}, {0})], 0) && Passed(x, 5) && KeyOf(e) !in x.table
  {
    var e := ChainEvent(5, Some(Paused), "1", "row");
    AfterOnePage([e], {"1"}, {0});
    var r := OnePagePoll([e], {"1"}, {0}).replies[0];
    assert !Accepted(r, 0);
    assert InsertedUpTo(map[], r, 0) == map[] && InsertedUpTo(map[], r, 1) == map[];
  }

  /** Two claims on one stream in one ledger share a key: the second has no row, though nothing went wrong. */
  lemma SecondOfAKindIsLost()
    ensures var a, b := ChainEvent(5, Some(Claimed), "1", "first"), ChainEvent(5, Some(Claimed), "1", "second");
      var x := Run(Initial(0), [OnePagePoll([a, b], {"1"}, {})], 0);
      && HonestRun([a, b], Initial(0), [OnePagePoll([a, b], {"1"}, {})], 0) && Passed(x, 5)
      && KeyOf(a) == KeyOf(b) && x.table == map[KeyOf(a) := "first"]
  {
    var a, b := ChainEvent(5, Some(Claimed), "1", "first"), ChainEvent(5, Some(Claimed), "1", "second");
    AfterOnePage([a, b], {"1"}, {});
    var r := OnePagePoll([a, b], {"1"}, {}).replies[0];
    assert Accepted(r, 0);
    assert InsertedUpTo(map[], r, 0) == map[];
    assert InsertedUpTo(map[], r, 1) == map[KeyOf(a) := "first"];
    assert InsertedUpTo(map[], r, 2) == map[KeyOf(a) := "first"];
  }
}
