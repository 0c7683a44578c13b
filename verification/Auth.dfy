/**
 * Login challenges: the nonce store, its cleanup timer, and the check that consumes a
 * nonce, as code and as a state machine over one process lifetime.
 */
module Auth {
  import opened Base

  const TIMESTAMP_TOLERANCE_SECONDS: int := 60

  type Nonce = string

  /** What a server-signed challenge carries. */
  datatype Challenge = Challenge(nonce: Nonce, timestamp: int)

  /** Nonces in use, with the second after which each may be forgotten. */
  type Store = map<Nonce, int>

  function Accepts(store: Store, c: Challenge, now: int): bool {
    -TIMESTAMP_TOLERANCE_SECONDS <= now - c.timestamp <= TIMESTAMP_TOLERANCE_SECONDS && c.nonce !in store
  }

  function Swept(store: Store, now: int): Store {
    map nonce | nonce in store && now <= store[nonce] :: store[nonce]
  }

  class NonceStore {
    var expiries: Store

    constructor ()
      ensures expiries == map[]
    {
      expiries := map[];
    }

    /** The timer's body: deletes the expired entries one by one. */
    method CleanUp(now: int)
      modifies this
      ensures expiries == Swept(old(expiries), now)
    {
      var pending := expiries.Keys;
      while pending != {}
        invariant pending <= expiries.Keys <= old(expiries).Keys
        invariant forall nonce | nonce in expiries :: expiries[nonce] == old(expiries)[nonce]
        invariant forall nonce | nonce in old(expiries) && nonce !in pending ::
                    nonce in expiries <==> now <= old(expiries)[nonce]
        decreases |pending|
      {
        var nonce :| nonce in pending;
        pending := pending - {nonce};
        if now > expiries[nonce] {
          expiries := expiries - {nonce};
        }
      }
    }

    /** The replay check, which marks the nonce as used when it passes. */
    method Consume(c: Challenge, now: int) returns (ok: bool)
      modifies this
      ensures ok == Accepts(old(expiries), c, now)
      ensures expiries == if ok then old(expiries)[c.nonce := now + TIMESTAMP_TOLERANCE_SECONDS] else old(expiries)
    {
      var timeDiff := if now < c.timestamp then c.timestamp - now else now - c.timestamp;
      if timeDiff > TIMESTAMP_TOLERANCE_SECONDS {
        return false;
      }
      if c.nonce in expiries {
        return false;
      }
      expiries := expiries[c.nonce := now + TIMESTAMP_TOLERANCE_SECONDS];
      return true;
    }
  }

  // ------------------------------------------------------------------
  // One process lifetime
  // ------------------------------------------------------------------

  datatype Server = Server(now: int, issued: set<Challenge>, store: Store, accepted: seq<Challenge>)

  datatype Event =
    | Wait(seconds: nat)
    | Issue(nonce: Nonce)
    | Present(challenge: Challenge, readable: bool)   // readable: its own time bounds and structure pass
    | CleanUp

  function Next(s: Server, e: Event): Server {
    match e
    case Wait(seconds) => s.(now := s.now + seconds)
    case Issue(nonce) => s.(issued := s.issued + {Challenge(nonce, s.now)})
    case Present(c, readable) =>
      // a challenge this server did not sign is turned away before the store is consulted
      if c in s.issued && readable && Accepts(s.store, c, s.now)
      then s.(store := s.store[c.nonce := s.now + TIMESTAMP_TOLERANCE_SECONDS], accepted := s.accepted + [c])
      else s
    case CleanUp => s.(store := Swept(s.store, s.now))
  }

  function Trace(s: Server, es: seq<Event>): Server
    decreases |es|
  {
    if es == [] then s else Trace(Next(s, es[0]), es[1..])
  }

  function Started(now: int): Server {
    Server(now, {}, map[], [])
  }

  /** An accepted challenge is remembered, or is too old to be accepted again. */
  ghost predicate Spent(s: Server, c: Challenge) {
    if c.nonce in s.store then s.store[c.nonce] >= c.timestamp + TIMESTAMP_TOLERANCE_SECONDS
    else s.now > c.timestamp + TIMESTAMP_TOLERANCE_SECONDS
  }

  ghost predicate Distinct(log: seq<Challenge>) {
    forall i, j | 0 <= i < j < |log| :: log[i] != log[j]
  }

  ghost predicate Sound(s: Server) {
    && (forall c | c in s.issued :: c.timestamp <= s.now)
    && (forall c | c in s.accepted :: c in s.issued && Spent(s, c))
    && Distinct(s.accepted)
  }

  lemma NextSound(s: Server, e: Event)
    requires Sound(s)
    ensures Sound(Next(s, e))
  {
  }

  lemma {:induction false} TraceSound(s: Server, es: seq<Event>)
    requires Sound(s)
    ensures Sound(Trace(s, es))
    decreases |es|
  {
    if es != [] {
      NextSound(s, es[0]);
      TraceSound(Next(s, es[0]), es[1..]);
    }
  }

  /**
   * Whenever the timer runs and whatever is presented, no challenge is accepted twice. No
   * assumption is made on the nonces: they may even collide.
   */
  lemma SingleUse(start: int, es: seq<Event>)
    ensures Distinct(Trace(Started(start), es).accepted)
  {
    TraceSound(Started(start), es);
  }

  /** The random nonces issued in a run never repeat. */
  ghost predicate FreshNonces(s: Server, es: seq<Event>) {
    && (forall i, c | 0 <= i < |es| && es[i].Issue? && c in s.issued :: es[i].nonce != c.nonce)
    && (forall i, j | 0 <= i < j < |es| && es[i].Issue? && es[j].Issue? :: es[i].nonce != es[j].nonce)
  }

  /** Nonces name challenges, and the store holds nonces of accepted ones only. */
  ghost predicate Unambiguous(s: Server) {
    && (forall c, d | c in s.issued && d in s.issued && c.nonce == d.nonce :: c == d)
    && (forall nonce | nonce in s.store :: exists c :: c in s.accepted && c.nonce == nonce)
  }

  lemma NextFresh(s: Server, es: seq<Event>)
    requires es != [] && FreshNonces(s, es)
    ensures FreshNonces(Next(s, es[0]), es[1..])
  {
    var rest := es[1..];
    assert forall i | 0 <= i < |rest| :: rest[i] == es[i + 1];
  }

  lemma NextUnambiguous(s: Server, es: seq<Event>)
    requires es != [] && Sound(s) && Unambiguous(s) && FreshNonces(s, es)
    ensures Unambiguous(Next(s, es[0]))
  {
    var t := Next(s, es[0]);
    forall nonce | nonce in t.store ensures exists c :: c in t.accepted && c.nonce == nonce {
      if nonce in s.store {
        var c :| c in s.accepted && c.nonce == nonce;
        assert c in t.accepted;
      } else {
        assert t.accepted[|s.accepted|].nonce == nonce;
      }
    }
  }

  lemma {:induction false} TraceUnambiguous(s: Server, es: seq<Event>)
    requires Sound(s) && Unambiguous(s) && FreshNonces(s, es)
    ensures Sound(Trace(s, es)) && Unambiguous(Trace(s, es))
    decreases |es|
  {
    if es != [] {
      NextUnambiguous(s, es);
      NextFresh(s, es);
      NextSound(s, es[0]);
      TraceUnambiguous(Next(s, es[0]), es[1..]);
    }
  }

  /**
   * With nonces that do not repeat, forgetting them is invisible: a readable challenge is
   * accepted exactly when it was issued, is at most a minute old and was never accepted
   * before, and no nonce is accepted twice.
   */
  lemma ForgettingIsInvisible(start: int, es: seq<Event>, c: Challenge)
    requires FreshNonces(Started(start), es)
    ensures var s := Trace(Started(start), es);
      && (|Next(s, Present(c, true)).accepted| > |s.accepted| <==>
          c in s.issued && s.now <= c.timestamp + 60 && c !in s.accepted)
      && forall i, j | 0 <= i < j < |s.accepted| :: s.accepted[i].nonce != s.accepted[j].nonce
  {
    TraceUnambiguous(Started(start), es);
    var s := Trace(Started(start), es);
    if c in s.issued && c.nonce in s.store {
      var d :| d in s.accepted && d.nonce == c.nonce;
      assert d == c;
    }
  }

  /**
   * Any challenge, colliding nonces or not: it is accepted exactly when this server issued it,
   * it can be read, it is within a minute of now and its nonce is not remembered; its nonce is
   * then remembered for a minute. The timer forgets exactly what is past its minute.
   */
  lemma PresentAnswers(s: Server, c: Challenge, readable: bool)
    ensures var t := Next(s, Present(c, readable));
      var accepted := c in s.issued && readable && c.timestamp - 60 <= s.now <= c.timestamp + 60 && c.nonce !in s.store;
      t == if accepted then s.(store := s.store[c.nonce := s.now + 60], accepted := s.accepted + [c]) else s
    ensures var t := Next(s, CleanUp);
      && t == s.(store := t.store)
      && (forall nonce :: nonce in t.store <==> nonce in s.store && s.now <= s.store[nonce])
      && (forall nonce | nonce in t.store :: t.store[nonce] == s.store[nonce])
  {
  }

  /** The timer only ever forgets a nonce whose challenge would fail the timestamp check from then on. */
  lemma ForgottenIsExpired(start: int, es: seq<Event>, c: Challenge, later: nat)
    requires c in Trace(Started(start), es).accepted
    ensures var s := Trace(Started(start), es);
      c.nonce !in Next(s, CleanUp).store ==> s.now + later - c.timestamp > 60
  {
    TraceSound(Started(start), es);
    NextSound(Trace(Started(start), es), CleanUp);
  }
}
