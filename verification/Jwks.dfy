/**
 The cache of an issuer's verification keys: soft and hard expiry, negative answers, and a
 floor on how often unknown key ids may cause a fetch.
 (internal/middleware/auth/jwks.go)

 Clocks and what the issuer answers are parameters; times are in nanoseconds.
 */
module Jwks {
  import opened Text

  const SECOND := 1_000_000_000

  /** `key` is what the entry's key material parses to, if it parses. */
  datatype Jwk = Jwk(kid: string, use: string, alg: string, key: Option<string>)

  datatype CachedKey = CachedKey(key: string, alg: string)

  datatype Config = Config(ttl: int, hardTtl: int, minRefresh: int, negativeTtl: int) {
    ghost predicate Valid() {
      0 < ttl <= hardTtl && 0 < minRefresh && 0 < negativeTtl
    }
  }

  function WithDefaults(c: Config): (r: Config)
    ensures r.Valid() && (c.Valid() ==> r == c)
    ensures r.ttl == if c.ttl <= 0 then 3_600_000_000_000 else c.ttl
    ensures r.hardTtl in {r.ttl, if c.hardTtl <= 0 then 86_400_000_000_000 else c.hardTtl}
    ensures r.hardTtl >= if c.hardTtl <= 0 then 86_400_000_000_000 else c.hardTtl
    ensures r.minRefresh == if c.minRefresh <= 0 then 30_000_000_000 else c.minRefresh
    ensures r.negativeTtl == if c.negativeTtl <= 0 then 60_000_000_000 else c.negativeTtl
  {
    var ttl := if c.ttl <= 0 then 3600 * SECOND else c.ttl;
    var hard := if c.hardTtl <= 0 then 24 * 3600 * SECOND else c.hardTtl;
    Config(ttl,
           if hard < ttl then ttl else hard,
           if c.minRefresh <= 0 then 30 * SECOND else c.minRefresh,
           if c.negativeTtl <= 0 then 60 * SECOND else c.negativeTtl)
  }

  // ----- Reading a document -----

  /** May verify signatures, and can be parsed. */
  predicate Usable(jwk: Jwk) {
    (jwk.use == "" || jwk.use == "sig") && jwk.key.Some?
  }

  /** The keys of a document. Of entries with the same id the last usable one counts. */
  function Compiled(doc: seq<Jwk>): map<string, CachedKey> {
    if doc == [] then map[]
    else
      var before, last := Compiled(doc[..|doc| - 1]), doc[|doc| - 1];
      if Usable(last) then before[last.kid := CachedKey(last.key.value, last.alg)] else before
  }

  /** A key with this id that parses and is meant for signatures, or for any use. */
  ghost predicate Verifies(jwk: Jwk, kid: string) {
    jwk.kid == kid && jwk.key.Some? && jwk.use in {"", "sig"}
  }

  /** Entry i is the last of the document that can verify signatures under `kid`. */
  ghost predicate Governs(doc: seq<Jwk>, kid: string, i: nat) {
    && i < |doc| && Verifies(doc[i], kid)
    && forall j :: i < j < |doc| ==> !Verifies(doc[j], kid)
  }

  lemma {:induction false} CompiledHas(doc: seq<Jwk>, kid: string)
    ensures kid in Compiled(doc) <==> exists i: nat :: Governs(doc, kid, i)
    ensures forall i: nat :: Governs(doc, kid, i) ==>
              kid in Compiled(doc) && Compiled(doc)[kid] == CachedKey(doc[i].key.value, doc[i].alg)
  {
    if doc != [] {
      var n := |doc| - 1;
      var before := doc[..n];
      CompiledHas(before, kid);
      if Verifies(doc[n], kid) {
        assert Governs(doc, kid, n);
      } else {
        forall i: nat ensures Governs(doc, kid, i) <==> Governs(before, kid, i) { GovernsEarlier(doc, kid, i); }
      }
    }
  }

  lemma {:induction false} GovernsEarlier(doc: seq<Jwk>, kid: string, i: nat)
    requires doc != [] && !Verifies(doc[|doc| - 1], kid)
    ensures Governs(doc, kid, i) <==> Governs(doc[..|doc| - 1], kid, i)
  {
    var before := doc[..|doc| - 1];
    assert forall j :: 0 <= j < |before| ==> before[j] == doc[j];
    if Governs(before, kid, i) {
      forall j | i < j < |doc| ensures !Verifies(doc[j], kid) {
        if j < |before| { assert before[j] == doc[j]; }
      }
    }
  }

  // ----- The cache -----

  datatype Cache = Cache(
    keys: map<string, CachedKey>,
    softExpiry: Option<int>,
    hardExpiry: Option<int>,
    lastAttempt: Option<int>,
    negative: map<string, int>)

  const EMPTY := Cache(map[], None, None, None, map[])

  datatype Lookup = Miss | Stale(value: CachedKey) | Fresh(value: CachedKey)

  function Look(c: Cache, kid: string, now: int): Lookup {
    if c.hardExpiry.Some? && now > c.hardExpiry.value then Miss
    else if kid !in c.keys then Miss
    else if c.softExpiry.None? || now > c.softExpiry.value then Stale(c.keys[kid])
    else Fresh(c.keys[kid])
  }

  /** An unknown key id must not cause a fetch now. */
  predicate ShortCircuits(cfg: Config, c: Cache, kid: string, now: int) {
    || (kid in c.negative && now < c.negative[kid])
    || (c.lastAttempt.Some? && now - c.lastAttempt.value < cfg.minRefresh)
  }

  function Attempted(c: Cache, now: int): Cache {
    c.(lastAttempt := Some(now))
  }

  function Installed(cfg: Config, c: Cache, doc: seq<Jwk>, now: int): Cache {
    Cache(Compiled(doc), Some(now + cfg.ttl), Some(now + cfg.hardTtl), c.lastAttempt, map[])
  }

  function Denied(cfg: Config, c: Cache, kid: string, now: int): Cache {
    c.(negative := c.negative[kid := now + cfg.negativeTtl])
  }

  datatype Reply = Got(value: CachedKey) | NotPresent | FetchFailed

  /** A call on its own: `fetched` is the issuer's document, if it answers; `now` is the time
      before the fetch and `later` the time after it. */
  function Called(cfg: Config, c: Cache, kid: string, now: int, fetched: Option<seq<Jwk>>, later: int): (Cache, Reply) {
    match Look(c, kid, now)
    case Stale(k) => (c, Got(k))
    case Fresh(k) => (c, Got(k))
    case Miss =>
      if ShortCircuits(cfg, c, kid, now) then (c, NotPresent)
      else if fetched.None? then (Attempted(c, now), FetchFailed)
      else
        var installed := Installed(cfg, Attempted(c, now), fetched.value, later);
        match Look(installed, kid, later)
        case Miss => (Denied(cfg, installed, kid, later), NotPresent)
        case Stale(k) => (installed, Got(k))
        case Fresh(k) => (installed, Got(k))
  }

  /** A key id that a fetch did not bring is refused without another fetch, and without any
      change, until its negative answer expires. */
  lemma {:induction false} NegativeAnswerHolds(cfg: Config, c: Cache, kid: string, now: int, doc: seq<Jwk>, later: int,
                            next: int, fetched: Option<seq<Jwk>>, after: int)
    requires cfg.Valid() && Look(c, kid, now).Miss? && !ShortCircuits(cfg, c, kid, now)
    requires Called(cfg, c, kid, now, Some(doc), later).1 == NotPresent && next < later + cfg.negativeTtl
    ensures var denied := Called(cfg, c, kid, now, Some(doc), later).0;
            Called(cfg, denied, kid, next, fetched, after) == (denied, NotPresent)
  {
    hide Compiled;
  }

  class JwksClient {
    const cfg: Config
    var keys: map<string, CachedKey>
    var softExpiry: Option<int>
    var hardExpiry: Option<int>
    var lastAttempt: Option<int>
    var negative: map<string, int>

    ghost function View(): Cache
      reads this
    {
      Cache(keys, softExpiry, hardExpiry, lastAttempt, negative)
    }

    constructor (cfg: Config)
      ensures this.cfg == WithDefaults(cfg) && View() == EMPTY
    {
      this.cfg := WithDefaults(cfg);
      keys, softExpiry, hardExpiry, lastAttempt, negative := map[], None, None, None, map[];
    }

    /** A call that no other overlaps; a stale answer also starts a refresh in the background. */
    method KeyWithAlg(kid: string, now: int, fetched: Option<seq<Jwk>>, later: int) returns (reply: Reply, kick: bool)
      modifies this
      ensures (View(), reply) == Called(cfg, old(View()), kid, now, fetched, later)
      ensures kick <==> Look(old(View()), kid, now).Stale?
    {
      var found := TryLookup(kid, now);
      kick := found.Stale?;
      if !found.Miss? {
        return Got(found.value), kick;
      }
      if kid in negative && now < negative[kid] {
        return NotPresent, kick;
      }
      if lastAttempt.Some? && now - lastAttempt.value < cfg.minRefresh {
        return NotPresent, kick;
      }
      var ok := Refresh(now, fetched, later);
      if !ok {
        return FetchFailed, kick;
      }
      found := TryLookup(kid, later);
      if !found.Miss? {
        return Got(found.value), kick;
      }
      negative := negative[kid := later + cfg.negativeTtl];
      return NotPresent, kick;
    }

    method TryLookup(kid: string, now: int) returns (r: Lookup)
      ensures r == Look(View(), kid, now)
    {
      if hardExpiry.Some? && now > hardExpiry.value {
        return Miss;
      }
      if kid !in keys {
        return Miss;
      }
      if softExpiry.None? || now > softExpiry.value {
        return Stale(keys[kid]);
      }
      return Fresh(keys[kid]);
    }

    method Refresh(now: int, fetched: Option<seq<Jwk>>, later: int) returns (ok: bool)
      modifies this
      ensures ok <==> fetched.Some?
      ensures View() == if ok then Installed(cfg, Attempted(old(View()), now), fetched.value, later)
                        else Attempted(old(View()), now)
    {
      lastAttempt := Some(now);
      if fetched.None? {
        return false;
      }
      keys := Compile(fetched.value);
      softExpiry, hardExpiry, negative := Some(later + cfg.ttl), Some(later + cfg.hardTtl), map[];
      return true;
    }

    static method Compile(doc: seq<Jwk>) returns (out: map<string, CachedKey>)
      ensures out == Compiled(doc)
    {
      out := map[];
      for i := 0 to |doc|
        invariant out == Compiled(doc[..i])
      {
        assert doc[..i + 1][..i] == doc[..i];
        if doc[i].use != "" && doc[i].use != "sig" {
          continue;
        }
        if doc[i].key.None? {
          continue;
        }
        out := out[doc[i].kid := CachedKey(doc[i].key.value, doc[i].alg)];
      }
      assert doc[..|doc|] == doc;
    }
  }

  // ----- Any number of calls, interleaved -----

  /** Where a call is: its key id was missing; it may fetch, as it found when `seen` fetches had
      been started; it waits for the shared fetch; it is to look again; it is to note that
      the key id is unknown. */
  datatype Phase =
    | Missed(kid: string)
    | Cleared(kid: string, seen: nat)
    | Waiting(kid: string)
    | Again(kid: string)
    | Unknown(kid: string)

  /** A started fetch: when, whether for an unknown key id, and what its caller had seen. */
  datatype Attempt = Attempt(time: int, unknown: bool, seen: nat)

  /** `fetched` is the last document installed and when; `denied` are the key ids that were found
      missing since, and when. */
  datatype World = World(
    cache: Cache,
    clock: int,
    callers: map<nat, Phase>,
    inFlight: bool,
    attempts: seq<Attempt>,
    fetched: Option<(seq<Jwk>, int)>,
    denied: map<string, int>)

  datatype Event =
    | Looks(id: nat, kid: string, now: int)
    | Checks(id: nat, now: int)
    | Refreshes(id: nat, now: int)
    | RefreshesInBackground(now: int)
    | FetchEnds(doc: Option<seq<Jwk>>, now: int)
    | LooksAgain(id: nat, now: int)
    | Marks(id: nat, now: int)

  function Begin(start: int): World {
    World(EMPTY, start, map[], false, [], None, map[])
  }

  /** One atomic step. The clock does not go back, and an event that does not apply changes
      nothing but the clock. */
  function Step(cfg: Config, w: World, e: Event): World {
    if e.now < w.clock then w else Moved(cfg, w.(clock := e.now), e)
  }

  function Started(w: World, unknown: bool, seen: nat): World {
    if w.inFlight then w
    else w.(cache := Attempted(w.cache, w.clock), inFlight := true,
            attempts := w.attempts + [Attempt(w.clock, unknown, seen)])
  }

  function Moved(cfg: Config, w: World, e: Event): World {
    match e
    case Looks(id, kid, now) =>
      if id !in w.callers && Look(w.cache, kid, now).Miss? then w.(callers := w.callers[id := Missed(kid)]) else w
    case Checks(id, now) =>
      if id in w.callers && w.callers[id].Missed? then
        if ShortCircuits(cfg, w.cache, w.callers[id].kid, now) then w.(callers := w.callers - {id})
        else w.(callers := w.callers[id := Cleared(w.callers[id].kid, |w.attempts|)])
      else w
    case Refreshes(id, now) =>
      if id in w.callers && w.callers[id].Cleared? then
        Started(w, true, w.callers[id].seen).(callers := w.callers[id := Waiting(w.callers[id].kid)])
      else w
    case RefreshesInBackground(now) => Started(w, false, |w.attempts|)
    case FetchEnds(doc, now) =>
      if !w.inFlight then w
      else if doc.None? then w.(inFlight := false, callers := Released(w.callers))
      else w.(inFlight := false, callers := Resumed(w.callers),
              cache := Installed(cfg, w.cache, doc.value, now), fetched := Some((doc.value, now)),
              denied := map[])
    case LooksAgain(id, now) =>
      if id in w.callers && w.callers[id].Again? then
        if Look(w.cache, w.callers[id].kid, now).Miss? then w.(callers := w.callers[id := Unknown(w.callers[id].kid)])
        else w.(callers := w.callers - {id})
      else w
    case Marks(id, now) =>
      if id in w.callers && w.callers[id].Unknown? then
        w.(cache := Denied(cfg, w.cache, w.callers[id].kid, now), callers := w.callers - {id},
           denied := w.denied[w.callers[id].kid := now])
      else w
  }

  /** The callers that waited for a fetch that failed are done; after a success they look again. */
  function Released(callers: map<nat, Phase>): map<nat, Phase> {
    map id | id in callers && !callers[id].Waiting? :: callers[id]
  }

  function Resumed(callers: map<nat, Phase>): map<nat, Phase> {
    map id | id in callers :: if callers[id].Waiting? then Again(callers[id].kid) else callers[id]
  }

  function Run(cfg: Config, start: int, events: seq<Event>): World {
    if events == [] then Begin(start)
    else Step(cfg, Run(cfg, start, events[..|events| - 1]), events[|events| - 1])
  }

  /** The cache holds exactly the last document, with its expiry times. */
  ghost predicate CacheInv(cfg: Config, w: World) {
    match w.fetched
    case None => w.cache.keys == map[] && w.cache.hardExpiry.None? && w.cache.softExpiry.None?
    case Some((doc, at)) =>
      && w.cache.keys == Compiled(doc) && at <= w.clock
      && w.cache.hardExpiry == Some(at + cfg.hardTtl) && w.cache.softExpiry == Some(at + cfg.ttl)
  }

  /** Negative answers last their time from when they were given. */
  ghost predicate NegativeInv(cfg: Config, w: World) {
    && w.cache.negative.Keys == w.denied.Keys
    && forall kid :: kid in w.denied ==> w.cache.negative[kid] == w.denied[kid] + cfg.negativeTtl
  }

  /** A time at which the fetches before `seen` were all long enough ago. */
  ghost predicate FarFrom(cfg: Config, attempts: seq<Attempt>, seen: nat, now: int) {
    seen <= |attempts| && forall i :: 0 <= i < seen ==> now - attempts[i].time >= cfg.minRefresh
  }

  ghost predicate Dated(attempts: seq<Attempt>, last: Option<int>, clock: int) {
    && (attempts == [] <==> last.None?)
    && (attempts != [] ==> attempts[|attempts| - 1].time == last.value)
    && forall i :: 0 <= i < |attempts| ==> attempts[i].time <= last.value <= clock
  }

  ghost predicate ClearedFar(cfg: Config, callers: map<nat, Phase>, attempts: seq<Attempt>, clock: int) {
    forall id :: id in callers && callers[id].Cleared? ==> FarFrom(cfg, attempts, callers[id].seen, clock)
  }

  ghost predicate UnknownFar(cfg: Config, attempts: seq<Attempt>) {
    forall k :: 0 <= k < |attempts| && attempts[k].unknown ==>
      attempts[k].seen <= k && FarFrom(cfg, attempts, attempts[k].seen, attempts[k].time)
  }

  ghost predicate FloorInv(cfg: Config, w: World) {
    && Dated(w.attempts, w.cache.lastAttempt, w.clock)
    && ClearedFar(cfg, w.callers, w.attempts, w.clock)
    && UnknownFar(cfg, w.attempts)
  }

  lemma {:induction false} StepKeepsCache(cfg: Config, w: World, e: Event)
    requires CacheInv(cfg, w)
    ensures CacheInv(cfg, Step(cfg, w, e))
  {
    hide Compiled, Look, ShortCircuits;
  }

  lemma {:induction false} RunKeepsCache(cfg: Config, start: int, events: seq<Event>)
    ensures CacheInv(cfg, Run(cfg, start, events))
  {
    if events != [] {
      hide CacheInv, Step;
      RunKeepsCache(cfg, start, events[..|events| - 1]);
      StepKeepsCache(cfg, Run(cfg, start, events[..|events| - 1]), events[|events| - 1]);
    }
  }

  lemma {:induction false} RunKeepsNegative(cfg: Config, start: int, events: seq<Event>)
    ensures NegativeInv(cfg, Run(cfg, start, events))
  {
    if events != [] {
      hide NegativeInv, Step;
      RunKeepsNegative(cfg, start, events[..|events| - 1]);
      StepKeepsNegative(cfg, Run(cfg, start, events[..|events| - 1]), events[|events| - 1]);
    }
  }

  lemma {:induction false} StepKeepsNegative(cfg: Config, w: World, e: Event)
    requires NegativeInv(cfg, w)
    ensures NegativeInv(cfg, Step(cfg, w, e))
  {
    hide Compiled, Look, ShortCircuits;
  }

  /** Freshness, in every interleaving: a key that is served comes from the last document
      fetched, from the last usable entry with its id; that fetch is no older than the hard
      limit, and the key counts as stale exactly past the soft limit. */
  lemma {:induction false} ServedKeysAreFresh(cfg: Config, start: int, events: seq<Event>, kid: string, now: int)
    requires !Look(Run(cfg, start, events).cache, kid, now).Miss?
    ensures var w := Run(cfg, start, events);
            && w.fetched.Some? && now - w.fetched.value.1 <= cfg.hardTtl
            && (Look(w.cache, kid, now).Stale? <==> now - w.fetched.value.1 > cfg.ttl)
            && exists i: nat :: Governs(w.fetched.value.0, kid, i) &&
                 Look(w.cache, kid, now).value ==
                 CachedKey(w.fetched.value.0[i].key.value, w.fetched.value.0[i].alg)
  {
    RunKeepsCache(cfg, start, events);
    var w := Run(cfg, start, events);
    hide Run;
    CompiledHas(w.fetched.value.0, kid);
  }

  /** Conversely a key of the last document is served until the hard limit: an issuer that does
      not answer, or a negative answer noted before, cannot hide it. */
  lemma {:induction false} PublishedKeysAreServed(cfg: Config, start: int, events: seq<Event>, kid: string, i: nat,
                                                  now: int)
    requires var w := Run(cfg, start, events);
             w.fetched.Some? && Governs(w.fetched.value.0, kid, i) && now - w.fetched.value.1 <= cfg.hardTtl
    ensures var w := Run(cfg, start, events);
            && !Look(w.cache, kid, now).Miss?
            && Look(w.cache, kid, now).value == CachedKey(w.fetched.value.0[i].key.value, w.fetched.value.0[i].alg)
  {
    RunKeepsCache(cfg, start, events);
    var w := Run(cfg, start, events);
    hide Run;
    CompiledHas(w.fetched.value.0, kid);
  }

  lemma {:induction false} FarExtends(cfg: Config, attempts: seq<Attempt>, more: seq<Attempt>, seen: nat, now: int,
                                      later: int)
    requires FarFrom(cfg, attempts, seen, now) && now <= later
    ensures FarFrom(cfg, attempts + more, seen, later)
  {
    forall i | 0 <= i < seen ensures later - (attempts + more)[i].time >= cfg.minRefresh {
      assert (attempts + more)[i] == attempts[i];
    }
  }

  lemma {:induction false} ClearedFarExtends(cfg: Config, callers: map<nat, Phase>, attempts: seq<Attempt>,
                                             more: seq<Attempt>, now: int, later: int)
    requires ClearedFar(cfg, callers, attempts, now) && now <= later
    ensures ClearedFar(cfg, callers, attempts + more, later)
  {
    hide FarFrom;
    forall id | id in callers && callers[id].Cleared? ensures FarFrom(cfg, attempts + more, callers[id].seen, later) {
      FarExtends(cfg, attempts, more, callers[id].seen, now, later);
    }
  }

  lemma {:induction false} TickKeepsFloor(cfg: Config, w: World, now: int)
    requires FloorInv(cfg, w) && w.clock <= now
    ensures FloorInv(cfg, w.(clock := now))
  {
    hide ClearedFar, UnknownFar, Dated;
    assert w.attempts + [] == w.attempts;
    ClearedFarExtends(cfg, w.callers, w.attempts, [], w.clock, now);
    DatedLater(w.attempts, w.cache.lastAttempt, w.clock, now);
  }

  lemma {:induction false} DatedLater(attempts: seq<Attempt>, last: Option<int>, clock: int, now: int)
    requires Dated(attempts, last, clock) && clock <= now
    ensures Dated(attempts, last, now)
  {
    forall i | 0 <= i < |attempts| ensures attempts[i].time <= last.value <= now {
      assert attempts[i].time <= last.value <= clock;
    }
  }

  lemma {:induction false} DatedMore(attempts: seq<Attempt>, last: Option<int>, clock: int, added: Attempt)
    requires Dated(attempts, last, clock) && added.time == clock
    ensures Dated(attempts + [added], Some(clock), clock)
  {
    forall i | 0 <= i < |attempts + [added]| ensures (attempts + [added])[i].time <= clock {
      if i < |attempts| { assert attempts[i].time <= last.value <= clock; }
    }
  }

  lemma {:induction false} StartKeepsFloor(cfg: Config, w: World, unknown: bool, seen: nat)
    requires FloorInv(cfg, w) && (unknown ==> FarFrom(cfg, w.attempts, seen, w.clock))
    ensures FloorInv(cfg, Started(w, unknown, seen))
  {
    hide ClearedFar, UnknownFar, FarFrom, Dated;
    if !w.inFlight {
      var added := Attempt(w.clock, unknown, seen);
      DatedMore(w.attempts, w.cache.lastAttempt, w.clock, added);
      ClearedFarExtends(cfg, w.callers, w.attempts, [added], w.clock, w.clock);
      UnknownFarExtends(cfg, w.attempts, added);
    }
  }

  lemma {:induction false} UnknownFarExtends(cfg: Config, attempts: seq<Attempt>, added: Attempt)
    requires UnknownFar(cfg, attempts) && (added.unknown ==> FarFrom(cfg, attempts, added.seen, added.time))
    ensures UnknownFar(cfg, attempts + [added])
  {
    var n, after := |attempts|, attempts + [added];
    if added.unknown {
      FarExtends(cfg, attempts, [added], added.seen, added.time, added.time);
      FarSeen(cfg, attempts, added.seen, added.time);
    }
    hide FarFrom;
    forall k | 0 <= k < |after| && after[k].unknown
      ensures after[k].seen <= k && FarFrom(cfg, after, after[k].seen, after[k].time)
    {
      if k < n {
        assert after[k] == attempts[k];
        FarExtends(cfg, attempts, [added], attempts[k].seen, attempts[k].time, attempts[k].time);
      } else {
        assert after[k] == added;
      }
    }
  }

  lemma {:induction false} FarSeen(cfg: Config, attempts: seq<Attempt>, seen: nat, now: int)
    requires FarFrom(cfg, attempts, seen, now)
    ensures seen <= |attempts|
  {
  }

  lemma {:induction false} ClearedIsFar(cfg: Config, w: World, kid: string)
    requires Dated(w.attempts, w.cache.lastAttempt, w.clock) && !ShortCircuits(cfg, w.cache, kid, w.clock)
    ensures FarFrom(cfg, w.attempts, |w.attempts|, w.clock)
  {
  }

  lemma {:induction false} StepKeepsFloor(cfg: Config, w: World, e: Event)
    requires FloorInv(cfg, w)
    ensures FloorInv(cfg, Step(cfg, w, e))
  {
    hide Compiled, Look, ShortCircuits, FarFrom, Dated, UnknownFar;
    if e.now >= w.clock {
      var at := w.(clock := e.now);
      TickKeepsFloor(cfg, w, e.now);
      match e
      case Checks(id, now) =>
        if id in w.callers && w.callers[id].Missed? && !ShortCircuits(cfg, w.cache, w.callers[id].kid, now) {
          ClearedIsFar(cfg, at, w.callers[id].kid);
        }
      case Refreshes(id, now) =>
        if id in w.callers && w.callers[id].Cleared? { StartKeepsFloor(cfg, at, true, w.callers[id].seen); }
      case RefreshesInBackground(now) => StartKeepsFloor(cfg, at, false, |w.attempts|);
      case _ =>
    }
  }

  lemma {:induction false} RunKeepsFloor(cfg: Config, start: int, events: seq<Event>)
    ensures FloorInv(cfg, Run(cfg, start, events))
  {
    if events != [] {
      hide FloorInv, Step;
      RunKeepsFloor(cfg, start, events[..|events| - 1]);
      StepKeepsFloor(cfg, Run(cfg, start, events[..|events| - 1]), events[|events| - 1]);
    }
  }

  /** The floor, in every interleaving: a fetch for an unknown key id comes at least the minimum
      interval after every fetch that had been started when its caller checked. */
  lemma {:induction false} RefreshFloor(cfg: Config, start: int, events: seq<Event>, i: nat, k: nat)
    requires var attempts := Run(cfg, start, events).attempts;
             k < |attempts| && attempts[k].unknown && i < attempts[k].seen
    ensures var attempts := Run(cfg, start, events).attempts;
            i < k && attempts[k].time - attempts[i].time >= cfg.minRefresh
  {
    RunKeepsFloor(cfg, start, events);
    var w := Run(cfg, start, events);
    hide Run;
    assert FarFrom(cfg, w.attempts, w.attempts[k].seen, w.attempts[k].time);
  }

  /** When the floor holds against all earlier fetches: for a caller that has checked, exactly when
      no fetch has been started since, or the last one was long enough ago after all. */
  lemma {:induction false} FloorMetIff(cfg: Config, start: int, events: seq<Event>, id: nat, now: int)
    requires var w := Run(cfg, start, events);
             id in w.callers && w.callers[id].Cleared? && w.clock <= now
    ensures var w := Run(cfg, start, events);
            && (!w.inFlight ==>
                  Step(cfg, w, Refreshes(id, now)).attempts == w.attempts + [Attempt(now, true, w.callers[id].seen)])
            && (FarFrom(cfg, w.attempts, |w.attempts|, now) <==>
                || w.callers[id].seen == |w.attempts|
                || (w.cache.lastAttempt.Some? && now - w.cache.lastAttempt.value >= cfg.minRefresh))
  {
    RunKeepsFloor(cfg, start, events);
    var w := Run(cfg, start, events);
    hide Run;
    AllFarIff(cfg, w.attempts, w.cache.lastAttempt, w.clock, w.callers[id].seen, now);
  }

  lemma {:induction false} AllFarIff(cfg: Config, attempts: seq<Attempt>, last: Option<int>, clock: int, seen: nat,
                                     now: int)
    requires Dated(attempts, last, clock) && FarFrom(cfg, attempts, seen, clock) && clock <= now
    ensures FarFrom(cfg, attempts, |attempts|, now) <==>
            seen == |attempts| || (last.Some? && now - last.value >= cfg.minRefresh)
  {
    if FarFrom(cfg, attempts, |attempts|, now) && attempts != [] {
      assert now - attempts[|attempts| - 1].time >= cfg.minRefresh;
    }
    if seen == |attempts| {
      assert attempts + [] == attempts;
      FarExtends(cfg, attempts, [], seen, clock, now);
    }
  }

  /** How many fetches have ended. */
  function FetchesEnded(cfg: Config, start: int, events: seq<Event>): nat {
    if events == [] then 0
    else
      var before, e := events[..|events| - 1], events[|events| - 1];
      var w := Run(cfg, start, before);
      if e.FetchEnds? && w.inFlight && w.clock <= e.now then FetchesEnded(cfg, start, before) + 1
      else FetchesEnded(cfg, start, before)
  }

  /** Fetches do not overlap, whatever the callers do: one that has started ends before another
      starts. */
  lemma {:induction false} OneFetchAtATime(cfg: Config, start: int, events: seq<Event>)
    ensures var w := Run(cfg, start, events);
            |w.attempts| == FetchesEnded(cfg, start, events) + if w.inFlight then 1 else 0
  {
    if events != [] {
      OneFetchAtATime(cfg, start, events[..|events| - 1]);
      hide Look, ShortCircuits, Installed, Denied, Released, Resumed;
    }
  }

  /** While a call is between its check and its fetch, no other fetch is started. */
  ghost predicate NoOverlap(cfg: Config, start: int, events: seq<Event>) {
    events == [] ||
    (var before, e := events[..|events| - 1], events[|events| - 1];
     && NoOverlap(cfg, start, before)
     && Alone(Run(cfg, start, before), Run(cfg, start, events), e))
  }

  ghost predicate Alone(before: World, after: World, e: Event) {
    |before.attempts| < |after.attempts| ==>
      forall id :: id in before.callers && before.callers[id].Cleared? ==> e.Refreshes? && e.id == id
  }

  /** Every caller that may fetch has seen all fetches, and every fetch all before it. */
  ghost predicate SeenAll(w: World) {
    && (forall id :: id in w.callers && w.callers[id].Cleared? ==> w.callers[id].seen == |w.attempts|)
    && (forall k :: 0 <= k < |w.attempts| && w.attempts[k].unknown ==> w.attempts[k].seen == k)
  }

  lemma {:induction false} StepSeesAll(cfg: Config, w: World, e: Event)
    requires SeenAll(w) && Alone(w, Step(cfg, w, e), e)
    ensures SeenAll(Step(cfg, w, e))
  {
    hide Compiled, Look, ShortCircuits;
  }

  lemma {:induction false} RunSeesAll(cfg: Config, start: int, events: seq<Event>)
    requires NoOverlap(cfg, start, events)
    ensures SeenAll(Run(cfg, start, events))
  {
    hide SeenAll, Step, Alone;
    if events == [] {
      assert SeenAll(Begin(start)) by { NothingSeen(start); }
    } else {
      RunSeesAll(cfg, start, events[..|events| - 1]);
      StepSeesAll(cfg, Run(cfg, start, events[..|events| - 1]), events[|events| - 1]);
    }
  }

  lemma {:induction false} NothingSeen(start: int)
    ensures SeenAll(Begin(start))
  {
  }

  // ----- What a call replies -----

  ghost predicate Has(doc: seq<Jwk>, kid: string) {
    exists i: nat :: Governs(doc, kid, i)
  }

  /** The reply is the key and the algorithm of the entry that governs `kid`. */
  ghost predicate Brings(doc: seq<Jwk>, kid: string, reply: Reply) {
    exists i: nat :: Governs(doc, kid, i) && reply == Got(CachedKey(doc[i].key.value, doc[i].alg))
  }

  /** The last document is young enough to be used and has the key. */
  ghost predicate Holds(cfg: Config, w: World, kid: string, now: int) {
    w.fetched.Some? && now - w.fetched.value.1 <= cfg.hardTtl && Has(w.fetched.value.0, kid)
  }

  /** The key id was not found missing too recently, and the last fetch is long enough ago. */
  ghost predicate MayFetch(cfg: Config, w: World, kid: string, now: int) {
    && (kid in w.denied ==> w.denied[kid] + cfg.negativeTtl <= now)
    && (w.attempts != [] ==> w.attempts[|w.attempts| - 1].time + cfg.minRefresh <= now)
  }

  /** What a call replies after any run, in terms of documents: the key of the last document while
      it may be used; otherwise, if it may fetch, the key of the document it fetches or the fetch's
      failure; and in all other cases that the key is not present. */
  lemma {:induction false} RepliesByDocument(cfg: Config, start: int, events: seq<Event>, kid: string, now: int,
                                             fetched: Option<seq<Jwk>>, later: int)
    requires cfg.Valid()
    ensures var w := Run(cfg, start, events);
            var reply := Called(cfg, w.cache, kid, now, fetched, later).1;
            if Holds(cfg, w, kid, now) then Brings(w.fetched.value.0, kid, reply)
            else if !MayFetch(cfg, w, kid, now) then reply == NotPresent
            else if fetched.None? then reply == FetchFailed
            else if Has(fetched.value, kid) then Brings(fetched.value, kid, reply)
            else reply == NotPresent
  {
    RunKeepsCache(cfg, start, events);
    RunKeepsNegative(cfg, start, events);
    RunKeepsFloor(cfg, start, events);
    ReplyIs(cfg, Run(cfg, start, events), kid, now, fetched, later);
  }

  lemma {:induction false} ReplyIs(cfg: Config, w: World, kid: string, now: int, fetched: Option<seq<Jwk>>, later: int)
    requires cfg.Valid() && CacheInv(cfg, w) && NegativeInv(cfg, w) && FloorInv(cfg, w)
    ensures var reply := Called(cfg, w.cache, kid, now, fetched, later).1;
            if Holds(cfg, w, kid, now) then Brings(w.fetched.value.0, kid, reply)
            else if !MayFetch(cfg, w, kid, now) then reply == NotPresent
            else if fetched.None? then reply == FetchFailed
            else if Has(fetched.value, kid) then Brings(fetched.value, kid, reply)
            else reply == NotPresent
  {
    if w.fetched.Some? { CompiledHas(w.fetched.value.0, kid); }
    if fetched.Some? { CompiledHas(fetched.value, kid); }
    hide Governs, Compiled, ClearedFar, UnknownFar;
  }

  /** The answer is stale, and a refresh in the background starts, exactly for a key of the last
      document past the soft limit. */
  lemma {:induction false} StaleByDocument(cfg: Config, start: int, events: seq<Event>, kid: string, now: int)
    ensures var w := Run(cfg, start, events);
            Look(w.cache, kid, now).Stale? <==> Holds(cfg, w, kid, now) && now - w.fetched.value.1 > cfg.ttl
  {
    RunKeepsCache(cfg, start, events);
    var w := Run(cfg, start, events);
    hide Run;
    if w.fetched.Some? { CompiledHas(w.fetched.value.0, kid); }
    hide Governs, Compiled;
  }

  /** For calls that do not overlap the floor holds in full: each fetch for an unknown key id
      comes at least the minimum interval after every earlier fetch. */
  lemma {:induction false} FloorWithoutOverlap(cfg: Config, start: int, events: seq<Event>, i: nat, k: nat)
    requires NoOverlap(cfg, start, events)
    requires i < k < |Run(cfg, start, events).attempts| && Run(cfg, start, events).attempts[k].unknown
    ensures var attempts := Run(cfg, start, events).attempts;
            attempts[k].time - attempts[i].time >= cfg.minRefresh
  {
    RunSeesAll(cfg, start, events);
    hide Run, NoOverlap;
    RefreshFloor(cfg, start, events, i, k);
  }

  /** Callers that overlap do get past the floor: of two that have checked, the second starts its
      fetch as soon as the first's has ended, however that ended. */
  lemma {:induction false} OverlapPassesFloor(cfg: Config, w: World, a: nat, b: nat, doc: Option<seq<Jwk>>, now: int)
    requires a in w.callers && b in w.callers && a != b && w.callers[a].Cleared? && w.callers[b].Cleared?
    requires !w.inFlight && w.clock <= now
    ensures var w1 := Step(cfg, Step(cfg, w, Refreshes(a, now)), FetchEnds(doc, now));
            Step(cfg, w1, Refreshes(b, now)).attempts ==
            w.attempts + [Attempt(now, true, w.callers[a].seen)] + [Attempt(now, true, w.callers[b].seen)]
  {
    hide Compiled;
  }

  /** And it happens: two callers that ask a new client for unknown key ids can start two fetches
      with no time between them. */
  lemma {:induction false} OverlapBreaksFloor(cfg: Config, start: int, kidA: string, kidB: string,
                                              doc: Option<seq<Jwk>>)
    ensures var events := [Looks(0, kidA, start), Looks(1, kidB, start), Checks(0, start), Checks(1, start)] +
                          [Refreshes(0, start), FetchEnds(doc, start), Refreshes(1, start)];
            Run(cfg, start, events).attempts == [Attempt(start, true, 0), Attempt(start, true, 0)]
  {
    hide *;
    var first := [Looks(0, kidA, start), Looks(1, kidB, start), Checks(0, start), Checks(1, start)];
    var e5, e6, e7 := Refreshes(0, start), FetchEnds(doc, start), Refreshes(1, start);
    assert first + [e5, e6, e7] == first + [e5] + [e6] + [e7];
    OneStep(cfg, start, first, e5);
    OneStep(cfg, start, first + [e5], e6);
    OneStep(cfg, start, first + [e5] + [e6], e7);
    BothChecked(cfg, start, kidA, kidB);
    OverlapPassesFloor(cfg, Run(cfg, start, first), 0, 1, doc, start);
    assert [] + [Attempt(start, true, 0)] + [Attempt(start, true, 0)] ==
           [Attempt(start, true, 0), Attempt(start, true, 0)];
  }

  lemma {:induction false} BothChecked(cfg: Config, start: int, kidA: string, kidB: string)
    ensures var events := [Looks(0, kidA, start), Looks(1, kidB, start), Checks(0, start), Checks(1, start)];
            Run(cfg, start, events) == WithCallers(start, Cleared(kidA, 0), Cleared(kidB, 0))
    ensures var w := WithCallers(start, Cleared(kidA, 0), Cleared(kidB, 0));
            !w.inFlight && w.clock == start && w.attempts == []
              && w.callers == map[0 := Cleared(kidA, 0), 1 := Cleared(kidB, 0)]
  {
    CallersAre(start, Cleared(kidA, 0), Cleared(kidB, 0));
    hide *;
    var e1, e2, e3, e4 := Looks(0, kidA, start), Looks(1, kidB, start), Checks(0, start), Checks(1, start);
    assert [e1] + [e2] == [e1, e2] && [e1, e2] + [e3] == [e1, e2, e3] && [e1, e2, e3] + [e4] == [e1, e2, e3, e4];
    assert [] + [e1] == [e1];
    RunNone(cfg, start);
    OneStep(cfg, start, [], e1);
    OneStep(cfg, start, [e1], e2);
    OneStep(cfg, start, [e1, e2], e3);
    OneStep(cfg, start, [e1, e2, e3], e4);
    FirstLooks(cfg, start, kidA, kidB);
    FirstChecks(cfg, start, kidA, kidB);
  }

  lemma {:induction false} CallersAre(start: int, a: Phase, b: Phase)
    ensures var w := WithCallers(start, a, b);
            !w.inFlight && w.clock == start && w.attempts == [] && w.callers == map[0 := a, 1 := b]
  {
  }

  lemma {:induction false} RunNone(cfg: Config, start: int)
    ensures Run(cfg, start, []) == Begin(start)
  {
  }

  ghost function WithCallers(start: int, a: Phase, b: Phase): World {
    Begin(start).(callers := map[0 := a, 1 := b])
  }

  lemma {:induction false} FirstLooks(cfg: Config, start: int, kidA: string, kidB: string)
    ensures Step(cfg, Step(cfg, Begin(start), Looks(0, kidA, start)), Looks(1, kidB, start)) ==
            WithCallers(start, Missed(kidA), Missed(kidB))
  {
    hide ShortCircuits, Started, Compiled;
    var w := Step(cfg, Begin(start), Looks(0, kidA, start));
    assert w == Begin(start).(callers := map[0 := Missed(kidA)]);
  }

  lemma {:induction false} FirstChecks(cfg: Config, start: int, kidA: string, kidB: string)
    ensures var w := Step(cfg, Step(cfg, WithCallers(start, Missed(kidA), Missed(kidB)), Checks(0, start)),
                          Checks(1, start));
            w == WithCallers(start, Cleared(kidA, 0), Cleared(kidB, 0))
  {
    hide Look, Started, Compiled;
    var w := Step(cfg, WithCallers(start, Missed(kidA), Missed(kidB)), Checks(0, start));
    assert w == WithCallers(start, Cleared(kidA, 0), Missed(kidB));
  }

  lemma {:induction false} OneStep(cfg: Config, start: int, events: seq<Event>, e: Event)
    ensures Run(cfg, start, events + [e]) == Step(cfg, Run(cfg, start, events), e)
  {
    assert (events + [e])[..|events|] == events;
  }

  // ----- A call on its own -----

  /** What a call does before its fetch could end. */
  ghost function Asking(cfg: Config, w: World, id: nat, kid: string, now: int): World {
    Step(cfg, Step(cfg, Step(cfg, w, Looks(id, kid, now)), Checks(id, now)), Refreshes(id, now))
  }

  /** What it does from then on. */
  ghost function Finishing(cfg: Config, w: World, id: nat, fetched: Option<seq<Jwk>>, later: int): World {
    Step(cfg, Step(cfg, Step(cfg, w, FetchEnds(fetched, later)), LooksAgain(id, later)), Marks(id, later))
  }

  lemma {:induction false} AskingIs(cfg: Config, w: World, id: nat, kid: string, now: int)
    requires w.clock <= now && id !in w.callers && !w.inFlight
    ensures var asked := Asking(cfg, w, id, kid, now);
            if Look(w.cache, kid, now).Miss? && !ShortCircuits(cfg, w.cache, kid, now)
            then asked == w.(clock := now, inFlight := true, cache := Attempted(w.cache, now),
                             callers := w.callers[id := Waiting(kid)],
                             attempts := w.attempts + [Attempt(now, true, |w.attempts|)])
            else asked == w.(clock := now)
  {
    hide Compiled, Look, ShortCircuits, Attempted;
    var looked := Step(cfg, w, Looks(id, kid, now));
    if Look(w.cache, kid, now).Miss? {
      assert looked == w.(clock := now, callers := w.callers[id := Missed(kid)]);
      var checked := Step(cfg, looked, Checks(id, now));
      if ShortCircuits(cfg, w.cache, kid, now) {
        assert w.callers[id := Missed(kid)] - {id} == w.callers;
      } else {
        assert w.callers[id := Missed(kid)][id := Cleared(kid, |w.attempts|)] ==
               w.callers[id := Cleared(kid, |w.attempts|)];
        assert w.callers[id := Cleared(kid, |w.attempts|)][id := Waiting(kid)] == w.callers[id := Waiting(kid)];
      }
    }
  }

  lemma {:induction false} FinishingIs(cfg: Config, w: World, id: nat, fetched: Option<seq<Jwk>>, later: int)
    requires w.clock <= later && w.inFlight && id in w.callers && w.callers[id].Waiting?
    ensures var done, kid := Finishing(cfg, w, id, fetched, later), w.callers[id].kid;
            && !done.inFlight && id !in done.callers
            && done.cache == (if fetched.None? then w.cache
                              else var installed := Installed(cfg, w.cache, fetched.value, later);
                                   if Look(installed, kid, later).Miss? then Denied(cfg, installed, kid, later)
                                   else installed)
  {
    hide Compiled, Look, ShortCircuits, Installed, Denied;
    var kid, ended := w.callers[id].kid, Step(cfg, w, FetchEnds(fetched, later));
    if fetched.Some? {
      assert ended.callers[id] == Again(kid);
      var again := Step(cfg, ended, LooksAgain(id, later));
      if Look(ended.cache, kid, later).Miss? { assert again.callers[id] == Unknown(kid); }
    }
  }

  lemma {:induction false} FinishingNothing(cfg: Config, w: World, id: nat, fetched: Option<seq<Jwk>>, later: int)
    requires w.clock <= later && !w.inFlight && id !in w.callers
    ensures Finishing(cfg, w, id, fetched, later) == w.(clock := later)
  {
    hide Compiled, Look, ShortCircuits, Installed, Denied;
  }

  /** A call that no other overlaps takes, step by step, the cache where the call as a whole does. */
  lemma {:induction false} SoloCall(cfg: Config, w: World, id: nat, kid: string, now: int, fetched: Option<seq<Jwk>>,
                                    later: int)
    requires w.clock <= now <= later && id !in w.callers && !w.inFlight
    ensures var done := Finishing(cfg, Asking(cfg, w, id, kid, now), id, fetched, later);
            && done.cache == Called(cfg, w.cache, kid, now, fetched, later).0
            && !done.inFlight && id !in done.callers
  {
    hide Compiled, Look, ShortCircuits, Installed, Denied, Asking, Finishing, Attempted;
    AskingIs(cfg, w, id, kid, now);
    var asked := Asking(cfg, w, id, kid, now);
    if Look(w.cache, kid, now).Miss? && !ShortCircuits(cfg, w.cache, kid, now) {
      FinishingIs(cfg, asked, id, fetched, later);
    } else {
      FinishingNothing(cfg, asked, id, fetched, later);
    }
  }
}
