/**
 Over any history of searches, evictions and expiries, the page cache answers as a search
 without it would if no origin failed.
 (internal/federation/pagination.go: Search; internal/federation/pagecache/pagecache.go)
 */
module CacheTransparency {
  import opened Text
  import opened Cursor
  import opened Pagination
  import opened PageCache

  /** What an origin answers to a request from a saved position. */
  type Upstream = (Request, string, Option<nat>, nat) -> Fetch

  /** The answers to a page's fetches while the origins in `down` fail. */
  ghost function Responses(up: Upstream, req: Request, origins: Origins, limit: nat, down: set<string>): Round {
    map id | id in origins :: if id in down then Failed else up(req, id, origins[id].next, limit)
  }

  ghost function StateOf(cfg: Config, now: int, req: Request, token: Token, principal: string): CursorState {
    if token.Signed? then token.state else FirstState(cfg, now, req, principal)
  }

  datatype Event =
    | Searched(now: int, req: Request, token: Token, principal: string, down: set<string>)
    | Evicted(key: PageKey)

  ghost function ResponsesTo(cfg: Config, up: Upstream, e: Event): Round
    requires e.Searched?
  {
    Responses(up, e.req, StateOf(cfg, e.now, e.req, e.token, e.principal).origins, EffectiveLimit(cfg, e.req), e.down)
  }

  /** The store after a history of searches and evictions. */
  ghost function History(cfg: Config, up: Upstream, events: seq<Event>): Store {
    if events == [] then map[]
    else
      var before, e := History(cfg, up, events[..|events| - 1]), events[|events| - 1];
      match e
      case Searched(now, req, token, principal, down) =>
        StoreAfter(cfg, before, now, req, token, principal, ResponsesTo(cfg, up, e))
      case Evicted(key) => before - {key}
  }

  /** Requests that present a cursor agree on what the query hash leaves out. */
  ghost predicate Agrees(e: Event, restOf: CursorState -> string) {
    e.Searched? && e.token.Signed? ==> e.req.rest == restOf(e.token.state)
  }

  ghost predicate AllAgree(events: seq<Event>, restOf: CursorState -> string) {
    forall i :: 0 <= i < |events| ==> Agrees(events[i], restOf)
  }

  /** The page a cursor leads to when no origin fails. */
  ghost function CalmPage(cfg: Config, up: Upstream, req: Request, state: CursorState): SearchResult {
    var limit := EffectiveLimit(cfg, req);
    Rendered(cfg, state, Signed(state), limit,
             Asked(Responses(up, req, state.origins, limit, {}), state.origins, limit))
  }

  /** A stored page is the calm page of its cursor, no origin of it failed, and it does not
      outlive the cursor. */
  ghost predicate Honest(cfg: Config, up: Upstream, restOf: CursorState -> string, key: PageKey, entry: Entry) {
    && key.principal == key.state.principal
    && entry.result == CalmPage(cfg, up, Request(key.state.query, restOf(key.state)), key.state)
    && AllWell(entry.result.statuses)
    && entry.expires <= key.state.expiresAt * SECOND
  }

  ghost predicate AllHonest(cfg: Config, up: Upstream, restOf: CursorState -> string, store: Store) {
    forall key :: key in store ==> Honest(cfg, up, restOf, key, store[key])
  }

  /** A page none of whose statuses carries an error had no failed fetch. */
  lemma {:induction false} WellMeansCalm(cfg: Config, state: CursorState, self: Token, limit: nat, responses: Round,
                                         id: string)
    requires AnyMore(state.origins)
    requires AllWell(Rendered(cfg, state, self, limit, Asked(responses, state.origins, limit)).statuses)
    requires id in ToFetch(state.origins, limit)
    ensures Asked(responses, state.origins, limit)[id].Fetched?
  {
    var round := Asked(responses, state.origins, limit);
    var page := PageOf(state.origins, round, cfg.urls, limit);
    hide Ranked, Back, StashFor;
    assert !Statuses(page.origins)[id].failed;
  }

  /** So it is the page that would be rendered with every origin up. */
  lemma {:induction false} WellIsCalmPage(cfg: Config, up: Upstream, req: Request, state: CursorState,
                                          down: set<string>)
    requires AnyMore(state.origins)
    ensures var limit := EffectiveLimit(cfg, req);
            var result := Rendered(cfg, state, Signed(state), limit,
                                   Asked(Responses(up, req, state.origins, limit, down), state.origins, limit));
            AllWell(result.statuses) ==> result == CalmPage(cfg, up, req, state)
  {
    hide Rendered, AllWell, ToFetch, AnyMore, Responses;
    var limit, origins := EffectiveLimit(cfg, req), state.origins;
    var some, none := Responses(up, req, origins, limit, down), Responses(up, req, origins, limit, {});
    if AllWell(Rendered(cfg, state, Signed(state), limit, Asked(some, origins, limit)).statuses) {
      forall id | id in ToFetch(origins, limit) ensures Reply(some, id) == Reply(none, id) {
        WellMeansCalm(cfg, state, Signed(state), limit, some, id);
        UpIsCalm(up, req, origins, limit, down, id);
      }
      assert Asked(some, origins, limit) == Asked(none, origins, limit);
    }
  }

  lemma {:induction false} UpIsCalm(up: Upstream, req: Request, origins: Origins, limit: nat, down: set<string>,
                                    id: string)
    requires Reply(Responses(up, req, origins, limit, down), id).Fetched?
    ensures Reply(Responses(up, req, origins, limit, down), id) == Reply(Responses(up, req, origins, limit, {}), id)
  {
  }

  lemma {:induction false} SearchKeepsHonest(cfg: Config, up: Upstream, restOf: CursorState -> string, store: Store,
                                             e: Event)
    requires e.Searched? && Agrees(e, restOf) && AllHonest(cfg, up, restOf, store)
    ensures AllHonest(cfg, up, restOf,
                      StoreAfter(cfg, store, e.now, e.req, e.token, e.principal, ResponsesTo(cfg, up, e)))
  {
    hide Rendered, Lookup, AllWell, Responses;
    if e.token.Signed? && Check(e.now, e.req, e.token.state, e.principal).None? {
      var state := e.token.state;
      assert Request(state.query, restOf(state)) == e.req;
      if AnyMore(state.origins) { WellIsCalmPage(cfg, up, e.req, state, e.down); }
    }
  }

  lemma {:induction false} HistoryHonest(cfg: Config, up: Upstream, restOf: CursorState -> string, events: seq<Event>)
    requires AllAgree(events, restOf)
    ensures AllHonest(cfg, up, restOf, History(cfg, up, events))
  {
    hide Honest, StoreAfter, Agrees;
    if events != [] {
      var first, e := events[..|events| - 1], events[|events| - 1];
      HistoryHonest(cfg, up, restOf, first);
      if e.Searched? { SearchKeepsHonest(cfg, up, restOf, History(cfg, up, first), e); }
    }
  }

  /** The cache is transparent: after any history, a search while no origin fails gives the
      same outcome with the cache as without it. */
  lemma {:induction false} CacheTransparent(cfg: Config, up: Upstream, restOf: CursorState -> string,
                                            events: seq<Event>, e: Event)
    requires AllAgree(events, restOf) && e.Searched? && Agrees(e, restOf) && e.down == {}
    ensures var responses := ResponsesTo(cfg, up, e);
            Cached(cfg, History(cfg, up, events), e.now, e.req, e.token, e.principal, responses) ==
            Plain(cfg, e.now, e.req, e.token, e.principal, responses)
  {
    HistoryHonest(cfg, up, restOf, events);
    hide Rendered, AllWell, Responses, History, AllAgree;
  }

  /** While origins fail, a hit is still the page every origin up would give, and it comes
      before the cursor expires. */
  lemma {:induction false} HitIsCalmPage(cfg: Config, up: Upstream, restOf: CursorState -> string, events: seq<Event>,
                                         e: Event)
    requires AllAgree(events, restOf) && e.Searched? && Agrees(e, restOf) && e.token.Signed?
    requires Check(e.now, e.req, e.token.state, e.principal).None?
    ensures var hit := Lookup(History(cfg, up, events), PageKey(e.token.state, e.principal), e.now);
            hit.Some? ==>
              && hit.value == CalmPage(cfg, up, e.req, e.token.state)
              && AllWell(hit.value.statuses)
              && e.now < e.token.state.expiresAt * SECOND
  {
    HistoryHonest(cfg, up, restOf, events);
    hide Rendered, AllWell, Responses, History, AllAgree;
  }

  /** A cursor's page is independent of what the query hash leaves out, for every upstream,
      exactly when the requests agree on it or nothing is fetched. */
  lemma {:induction false} IndependentIff(cfg: Config, state: CursorState, a: Request, b: Request)
    requires a.query == b.query
    ensures (forall up: Upstream :: CalmPage(cfg, up, a, state) == CalmPage(cfg, up, b, state))
            <==> a.rest == b.rest || ToFetch(state.origins, EffectiveLimit(cfg, a)) == {}
  {
    hide Rendered, ToFetch, Responses;
    var limit, origins := EffectiveLimit(cfg, a), state.origins;
    if a.rest == b.rest {
      assert a == b;
    } else if ToFetch(origins, limit) == {} {
      forall up: Upstream ensures CalmPage(cfg, up, a, state) == CalmPage(cfg, up, b, state) {
        assert Asked(Responses(up, a, origins, limit, {}), origins, limit) ==
               Asked(Responses(up, b, origins, limit, {}), origins, limit);
      }
    } else {
      hide CalmPage;
      var id :| id in ToFetch(origins, limit);
      var up: Upstream := (r: Request, i: string, p: Option<nat>, l: nat) =>
        Fetched([], if r.rest == a.rest then None else Some(1));
      InOrigins(origins, limit, id);
      TellsApart(cfg, up, a, state, id);
      TellsApart(cfg, up, b, state, id);
      assert CalmPage(cfg, up, a, state) != CalmPage(cfg, up, b, state);
    }
  }

  lemma {:induction false} InOrigins(origins: Origins, limit: nat, id: string)
    requires id in ToFetch(origins, limit)
    ensures id in origins
  {
  }

  lemma {:induction false} TellsApart(cfg: Config, up: Upstream, req: Request, state: CursorState, id: string)
    requires id in ToFetch(state.origins, EffectiveLimit(cfg, req))
    requires up(req, id, state.origins[id].next, EffectiveLimit(cfg, req)).Fetched?
    ensures var page := CalmPage(cfg, up, req, state);
            id in page.statuses &&
            page.statuses[id].exhausted == up(req, id, state.origins[id].next, EffectiveLimit(cfg, req)).next.None?
  {
    hide Ranked, Back, StashFor;
    assert state.origins[id].HasMore();
    assert AnyMore(state.origins);
  }

  /** Going on and coming back: the cursor a next page names as its previous one leads to the
      page it came from. */
  lemma {:induction false} NextThenPrev(cfg: Config, up: Upstream, now: int, req: Request, state: CursorState)
    requires Check(now, req, state, state.principal).None? && CalmPage(cfg, up, req, state).next.Signed?
    ensures var page := CalmPage(cfg, up, req, state);
            var onward := CalmPage(cfg, up, req, page.next.state);
            && Check(now, req, page.next.state, state.principal).None?
            && page.next.state.pageSeq == state.pageSeq + 1
            && onward.prev == Signed(state)
            && Plain(cfg, now, req, onward.prev, state.principal,
                     Responses(up, req, state.origins, EffectiveLimit(cfg, req), {})) == Found(page)
  {
    hide PageOf, Responses, Asked, ToFetch;
    var page := CalmPage(cfg, up, req, state);
    var limit := EffectiveLimit(cfg, req);
    var round := Asked(Responses(up, req, state.origins, limit, {}), state.origins, limit);
    var after := PageOf(state.origins, round, cfg.urls, limit).origins;
    assert AnyMore(CloneAll(after)) by {
      var id :| id in after && after[id].HasMore();
      assert CloneAll(after)[id].HasMore();
    }
  }
}
