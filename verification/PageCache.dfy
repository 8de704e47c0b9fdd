/**
 The search entry point with its page cache, and why the cache cannot be observed.
 (internal/federation/pagination.go: Search, putToPageCache;
  internal/federation/pagecache/pagecache.go: Get, Put, key)

 HMAC, hashing and encoding are injective: a token that decodes is its cursor state, the
 query hash is the hashed part of the request, and a cache key is the signed state and the
 principal. Times are nanoseconds; a cursor's expiry is in seconds.
 */
module PageCache {
  import opened Text
  import opened Items
  import opened Cursor
  import opened Pagination

  const SECOND := 1_000_000_000

  /** What hashSearchRequest covers; `params` stands for everything but the limit. */
  datatype Query = Query(limit: int, params: string)

  /** `rest` stands for the fields the hash leaves out. */
  datatype Request = Request(query: Query, rest: string)

  datatype Token = NoToken | Forged | Signed(state: CursorState)

  datatype CursorState = CursorState(
    query: Query,
    principal: string,
    origins: Origins,
    totalReturned: nat,
    expiresAt: int,
    prev: Token,
    pageSeq: nat)

  datatype Status = Status(returned: nat, exhausted: bool, failed: bool)

  datatype SearchResult = SearchResult(
    items: seq<Item>,
    totalCount: nat,
    next: Token,
    prev: Token,
    self: Token,
    limit: nat,
    statuses: map<string, Status>)

  datatype Reason = Tampered | Expired | PrincipalMismatch | QueryMismatch

  datatype Outcome = Found(result: SearchResult) | Rejected(reason: Reason)

  datatype Config = Config(originIds: set<string>, urls: map<string, string>, pageSize: nat, maxPageSize: nat,
                           cursorTtl: int, pageTtl: int)

  datatype PageKey = PageKey(state: CursorState, principal: string)

  datatype Entry = Entry(result: SearchResult, expires: int)

  type Store = map<PageKey, Entry>

  function EffectiveLimit(cfg: Config, req: Request): nat {
    if 0 < req.query.limit <= cfg.maxPageSize then req.query.limit else cfg.pageSize
  }

  function FirstState(cfg: Config, now: int, req: Request, principal: string): CursorState {
    CursorState(req.query, principal, map id | id in cfg.originIds :: FRESH, 0,
                (now + cfg.cursorTtl) / SECOND, NoToken, 0)
  }

  function Statuses(origins: Origins): map<string, Status> {
    map id | id in origins :: Status(origins[id].itemCount, origins[id].exhausted, origins[id].error)
  }

  /** No origin's status carries an error. */
  predicate AllWell(statuses: map<string, Status>) {
    forall id :: id in statuses ==> !statuses[id].failed
  }

  // ----- The search as a function -----

  /** The result of a search whose cursor has been accepted. */
  ghost function Rendered(cfg: Config, state: CursorState, self: Token, limit: nat, round: Round): SearchResult {
    if !AnyMore(state.origins) then SearchResult([], 0, NoToken, NoToken, NoToken, limit, map[])
    else
      var page := PageOf(state.origins, round, cfg.urls, limit);
      var total := state.totalReturned + |page.items|;
      var next := if AnyMore(page.origins)
                  then Signed(state.(origins := CloneAll(page.origins), totalReturned := total,
                                     prev := self, pageSeq := state.pageSeq + 1))
                  else NoToken;
      SearchResult(page.items, total, next, state.prev, self, limit, Statuses(page.origins))
  }

  /** The checks on a supplied cursor, in order. */
  function Check(now: int, req: Request, state: CursorState, principal: string): Option<Reason> {
    if now / SECOND > state.expiresAt then Some(Expired)
    else if state.principal != principal then Some(PrincipalMismatch)
    else if state.query != req.query then Some(QueryMismatch)
    else None
  }

  ghost function Asked(responses: Round, origins: Origins, limit: nat): Round {
    Answer(responses, ToFetch(origins, limit))
  }

  /** Search with the page cache disabled. */
  ghost function Plain(cfg: Config, now: int, req: Request, token: Token, principal: string,
                       responses: Round): Outcome {
    var limit := EffectiveLimit(cfg, req);
    match token
    case NoToken =>
      var state := FirstState(cfg, now, req, principal);
      Found(Rendered(cfg, state, NoToken, limit, Asked(responses, state.origins, limit)))
    case Forged => Rejected(Tampered)
    case Signed(state) =>
      match Check(now, req, state, principal)
      case Some(reason) => Rejected(reason)
      case None => Found(Rendered(cfg, state, token, limit, Asked(responses, state.origins, limit)))
  }

  function Lookup(store: Store, key: PageKey, now: int): Option<SearchResult> {
    if key in store && now < store[key].expires then Some(store[key].result) else None
  }

  /** The page is stored when no origin is failing and the cursor has time left. */
  ghost predicate Storable(state: CursorState, result: SearchResult, now: int) {
    AnyMore(state.origins) && AllWell(result.statuses) && state.expiresAt * SECOND - now > 0
  }

  function Stored(cfg: Config, store: Store, key: PageKey, result: SearchResult, now: int): Store {
    store[key := Entry(result, now + Min(cfg.pageTtl, key.state.expiresAt * SECOND - now))]
  }

  /** What a search does to the store. */
  ghost function StoreAfter(cfg: Config, store: Store, now: int, req: Request, token: Token, principal: string,
                            responses: Round): Store {
    if !token.Signed? || Check(now, req, token.state, principal).Some?
       || Lookup(store, PageKey(token.state, principal), now).Some? then store
    else
      var result := Plain(cfg, now, req, token, principal, responses).result;
      if Storable(token.state, result, now)
      then Stored(cfg, store, PageKey(token.state, principal), result, now)
      else store
  }

  /** Search with the page cache. */
  ghost function Cached(cfg: Config, store: Store, now: int, req: Request, token: Token, principal: string,
                        responses: Round): Outcome {
    if token.Signed? && Check(now, req, token.state, principal).None?
       && Lookup(store, PageKey(token.state, principal), now).Some?
    then Found(Lookup(store, PageKey(token.state, principal), now).value)
    else Plain(cfg, now, req, token, principal, responses)
  }

  // ----- What is answered -----

  /** A search is answered exactly when it brings no cursor, or a cursor that is signed, not
      expired, and was given to the same principal for the same query; whatever is cached and
      whatever the origins answer. */
  lemma {:induction false} AnsweredIff(cfg: Config, store: Store, now: int, req: Request, token: Token,
                                       principal: string, responses: Round)
    ensures Cached(cfg, store, now, req, token, principal, responses).Found? <==>
            || token.NoToken?
            || (&& token.Signed? && now / 1_000_000_000 <= token.state.expiresAt
                && token.state.principal == principal && token.state.query == req.query)
  {
    hide Rendered, Lookup;
  }

  /** Of several reasons to reject a cursor the first counts: that it is not signed, that it has
      expired, that it is another principal's, that it is for another query. */
  lemma {:induction false} RejectedFor(cfg: Config, store: Store, now: int, req: Request, token: Token,
                                       principal: string, responses: Round)
    ensures var outcome := Cached(cfg, store, now, req, token, principal, responses);
            var expired := token.Signed? && now / 1_000_000_000 > token.state.expiresAt;
            && (outcome == Rejected(Tampered) <==> token.Forged?)
            && (outcome == Rejected(Expired) <==> expired)
            && (outcome == Rejected(PrincipalMismatch) <==>
                token.Signed? && !expired && token.state.principal != principal)
            && (outcome == Rejected(QueryMismatch) <==>
                token.Signed? && !expired && token.state.principal == principal && token.state.query != req.query)
  {
    hide Rendered, Lookup;
  }

  /** Without a cached page, the limit is the one asked for if that is from 1 to the maximum, and
      the configured page size otherwise; no page is longer. */
  lemma {:induction false} LimitOf(cfg: Config, now: int, req: Request, token: Token, principal: string,
                                   responses: Round)
    requires Plain(cfg, now, req, token, principal, responses).Found?
    ensures var result, asked := Plain(cfg, now, req, token, principal, responses).result, req.query.limit;
            && result.limit == (if 1 <= asked <= cfg.maxPageSize then asked else cfg.pageSize)
            && |result.items| <= result.limit
  {
    hide Ranked, SettleAll, CloneAll, Statuses, Asked, AnyMore, MarkErrors;
  }

  /** What the page cache does for a cursor it holds nothing for: the answer is given again to
      every later search with that cursor, whatever the origins answer then, exactly when the first
      search had something to fetch or show, none of its statuses carries an error, and both the
      configured time and the cursor's own have not passed. */
  lemma {:induction false} AnsweredAgain(cfg: Config, store: Store, now: int, req: Request, state: CursorState,
                                         responses: Round, later: int, responses': Round)
    requires PageKey(state, state.principal) !in store && state.query == req.query
    requires now / 1_000_000_000 <= state.expiresAt && later / 1_000_000_000 <= state.expiresAt
    ensures var first := Cached(cfg, store, now, req, Signed(state), state.principal, responses);
            var after := StoreAfter(cfg, store, now, req, Signed(state), state.principal, responses);
            first == Plain(cfg, now, req, Signed(state), state.principal, responses) && first.Found? &&
            var well := forall id :: id in first.result.statuses ==> !first.result.statuses[id].failed;
            var live := later < now + cfg.pageTtl && later < state.expiresAt * 1_000_000_000;
            Cached(cfg, after, later, req, Signed(state), state.principal, responses') ==
            if AnyMore(state.origins) && well && now < state.expiresAt * 1_000_000_000 && live then first
            else Plain(cfg, later, req, Signed(state), state.principal, responses')
  {
    hide Rendered, AnyMore;
  }

  // ----- The imperative form -----

  class PageStore {
    var entries: Store

    constructor ()
      ensures entries == map[]
    {
      entries := map[];
    }

    method Get(key: PageKey, now: int) returns (r: Option<SearchResult>)
      ensures r == Lookup(entries, key, now)
    {
      if key in entries && now < entries[key].expires {
        return Some(entries[key].result);
      }
      return None;
    }

    /** Stores for the configured time or the cursor's remaining life, whichever is less. */
    method Put(key: PageKey, result: SearchResult, ttl: int, remaining: int, now: int)
      modifies this
      ensures entries == if remaining <= 0 then old(entries)
                         else old(entries)[key := Entry(result, now + Min(ttl, remaining))]
    {
      if remaining <= 0 {
        return;
      }
      var life := ttl;
      if remaining < life {
        life := remaining;
      }
      entries := entries[key := Entry(result, now + life)];
    }
  }

  class SearchService {
    const cfg: Config
    const searcher: PaginatedSearcher
    const store: PageStore

    constructor (cfg: Config)
      ensures this.cfg == cfg && searcher.urls == cfg.urls && fresh(store) && store.entries == map[]
    {
      this.cfg := cfg;
      searcher := new PaginatedSearcher(cfg.urls);
      store := new PageStore();
    }

    method Search(now: int, req: Request, token: Token, principal: string, responses: Round) returns (outcome: Outcome)
      requires searcher.urls == cfg.urls
      modifies store
      ensures outcome == Cached(cfg, old(store.entries), now, req, token, principal, responses)
      ensures store.entries == StoreAfter(cfg, old(store.entries), now, req, token, principal, responses)
    {
      hide PageOf, AnyMore, ToFetch, Answer, AllWell, CloneAll, Statuses;
      var limit := cfg.pageSize;
      if 0 < req.query.limit <= cfg.maxPageSize {
        limit := req.query.limit;
      }
      match token {
        case NoToken =>
          var result, _ := Execute(FirstState(cfg, now, req, principal), NoToken, limit, responses);
          return Found(result);
        case Forged =>
          return Rejected(Tampered);
        case Signed(state) =>
          var check := Check(now, req, state, principal);
          if check.Some? {
            return Rejected(check.value);
          }
          var key := PageKey(state, principal);
          var hit := store.Get(key, now);
          if hit.Some? {
            return Found(hit.value);
          }
          var result, ran := Execute(state, token, limit, responses);
          if ran && AllWell(result.statuses) {
            store.Put(key, result, cfg.pageTtl, state.expiresAt * SECOND - now, now);
          }
          return Found(result);
      }
    }

    /** The fan-out, the merge, the next cursor and the status block. */
    method Execute(state: CursorState, self: Token, limit: nat, responses: Round)
        returns (result: SearchResult, ran: bool)
      requires searcher.urls == cfg.urls
      ensures result == Rendered(cfg, state, self, limit, Asked(responses, state.origins, limit))
      ensures ran <==> AnyMore(state.origins)
    {
      hide PageOf, AnyMore, ToFetch, Answer;
      var cursor := new FederatedCursor.Copy(state.origins, state.totalReturned);
      ran := cursor.HasMore();
      if !ran {
        return SearchResult([], 0, NoToken, NoToken, NoToken, limit, map[]), ran;
      }
      var items := searcher.RunPage(cursor, responses, limit);
      var next := NoToken;
      var more := cursor.HasMore();
      if more {
        var clone := cursor.Clone();
        next := Signed(CursorState(state.query, state.principal, clone.origins, clone.totalReturned, state.expiresAt,
                                   self, state.pageSeq + 1));
      }
      var statuses := Report(cursor.origins);
      result := SearchResult(items, cursor.totalReturned, next, state.prev, self, limit, statuses);
    }

    method Report(origins: Origins) returns (statuses: map<string, Status>)
      ensures statuses == Statuses(origins)
    {
      statuses := map[];
      var todo := origins.Keys;
      while todo != {}
        invariant todo <= origins.Keys
        invariant statuses == map id | id in origins && id !in todo ::
                                Status(origins[id].itemCount, origins[id].exhausted, origins[id].error)
      {
        var id :| id in todo;
        statuses := statuses[id := Status(origins[id].itemCount, origins[id].exhausted, origins[id].error)];
        todo := todo - {id};
      }
    }
  }
}
