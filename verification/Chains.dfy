/**
 Following the next cursors that searches return: the results are the pages of a session.
 (internal/federation/pagination.go: Search)
 */
module Chains {
  import opened Text
  import opened Items
  import opened ListMerge
  import opened Cursor
  import opened Pagination
  import opened PageLaws
  import opened Sessions
  import opened PageCache
  import opened CacheTransparency

  /** One search of the chain: when, what the page cache held, and what the origins answered. */
  datatype Visit = Visit(now: int, store: Store, responses: Round)

  /** The cursor the last answer gave. */
  function Onward(outcomes: seq<PageCache.Outcome>): Token {
    if outcomes == [] || outcomes[|outcomes| - 1].Rejected? then NoToken else outcomes[|outcomes| - 1].result.next
  }

  /** The answers to a client that sends one request again and again, each time with the cursor it
      was given. */
  ghost function Follow(cfg: Config, req: Request, principal: string, visits: seq<Visit>): (r: seq<PageCache.Outcome>)
    ensures |r| == |visits|
  {
    if visits == [] then []
    else
      var n := |visits| - 1;
      var before, v := Follow(cfg, req, principal, visits[..n]), visits[n];
      before + [Cached(cfg, v.store, v.now, req, Onward(before), principal, v.responses)]
  }

  /** The client goes on while it is given a cursor and the cursor has not expired. */
  ghost predicate GoesOn(cfg: Config, req: Request, principal: string, visits: seq<Visit>) {
    |visits| <= 1 ||
    (var n := |visits| - 1;
     && GoesOn(cfg, req, principal, visits[..n])
     && Onward(Follow(cfg, req, principal, visits[..n])).Signed?
     && visits[n].now / SECOND <= Expiry(cfg, visits))
  }

  function Expiry(cfg: Config, visits: seq<Visit>): int
    requires visits != []
  {
    (visits[0].now + cfg.cursorTtl) / SECOND
  }

  ghost predicate Uncached(visits: seq<Visit>) {
    forall i :: 0 <= i < |visits| ==> visits[i].store == map[]
  }

  /** The origins, URLs and limit of the session. */
  ghost predicate Hosts(cfg: Config, req: Request, w: World) {
    && w.lists.Keys == cfg.originIds && w.urls == cfg.urls
    && w.limit == (if 1 <= req.query.limit <= cfg.maxPageSize then req.query.limit else cfg.pageSize)
  }

  lemma {:induction false} LimitIs(cfg: Config, req: Request)
    ensures EffectiveLimit(cfg, req) ==
            if 1 <= req.query.limit <= cfg.maxPageSize then req.query.limit else cfg.pageSize
  {
  }

  /** What was fetched for each page. */
  ghost function Rounds(w: World, visits: seq<Visit>): (r: seq<Round>)
    ensures |r| == |visits|
  {
    if visits == [] then []
    else
      var n := |visits| - 1;
      var before := Rounds(w, visits[..n]);
      before + [Asked(visits[n].responses, Run(w, before).origins, w.limit)]
  }

  /** The cursor after `n` pages of a session. */
  ghost function CursorAfter(t: Trail, req: Request, principal: string, expiry: int, prev: Token, n: nat): Token {
    if AnyMore(t.origins)
    then Signed(CursorState(req.query, principal, t.origins, |Flatten(t.pages)|, expiry, prev, n))
    else NoToken
  }

  /** What each origin has returned so far, whether it has ended, and whether its last fetch failed. */
  ghost function Report(w: World, rounds: seq<Round>): map<string, Status> {
    map id | id in w.lists :: Status(ReturnedBy(rounds, id), HasEnded(rounds, id), LastFailed(rounds, id))
  }

  function LastPage(t: Trail): seq<Item> {
    if t.pages == [] then [] else t.pages[|t.pages| - 1]
  }

  /** Everything a search is to return for the last page of a session: its items, the number of
      items shown so far, the cursor that goes on, the cursors of the page before and of the page
      itself, the limit and the origins' statuses. */
  ghost function PageResult(w: World, req: Request, principal: string, expiry: int, rounds: seq<Round>, prev: Token,
                            self: Token): SearchResult {
    var t := Run(w, rounds);
    SearchResult(LastPage(t), |Flatten(t.pages)|, CursorAfter(t, req, principal, expiry, self, |rounds|), prev, self,
                 w.limit, Report(w, rounds))
  }

  lemma {:induction false} PageResultIs(w: World, req: Request, principal: string, expiry: int, rounds: seq<Round>,
                                        prev: Token, self: Token)
    ensures var t := Run(w, rounds);
            PageResult(w, req, principal, expiry, rounds, prev, self) ==
            SearchResult(LastPage(t), |Flatten(t.pages)|, CursorAfter(t, req, principal, expiry, self, |rounds|), prev,
                         self, w.limit, Report(w, rounds))
  {
    hide Run, Flatten, CursorAfter, LastPage, Report;
  }

  /** A search with an accepted cursor renders the next page of the session. */
  lemma {:induction false} RendersPage(cfg: Config, w: World, req: Request, principal: string, rounds: seq<Round>,
                                       responses: Round, expiry: int, prev: Token, self: Token)
    requires Hosts(cfg, req, w) && AnyMore(Run(w, rounds).origins) && Asking(w, rounds)
    ensures var t := Run(w, rounds);
            var state := CursorState(req.query, principal, t.origins, |Flatten(t.pages)|, expiry, prev, |rounds|);
            var round := Asked(responses, t.origins, w.limit);
            Rendered(cfg, state, self, w.limit, round) ==
            PageResult(w, req, principal, expiry, rounds + [round], prev, self)
  {
    hide *;
    var t := Run(w, rounds);
    var state := CursorState(req.query, principal, t.origins, |Flatten(t.pages)|, expiry, prev, |rounds|);
    var round := Asked(responses, t.origins, w.limit);
    HostsAre(cfg, req, w);
    RunGrows(w, rounds, round);
    RenderedIs(cfg, state, self, w.limit, round);
    FlattenSnoc(t.pages, PageOf(t.origins, round, w.urls, w.limit).items);
    CursorIs(Run(w, rounds + [round]), req, principal, expiry, self, |rounds| + 1);
    LastPageIs(t.pages, PageOf(t.origins, round, w.urls, w.limit).items, Run(w, rounds + [round]));
    AskingOneMore(w, rounds, responses);
    StatusesAre(w, rounds, round);
    PageResultIs(w, req, principal, expiry, rounds + [round], prev, self);
  }

  lemma {:induction false} LastPageIs(before: seq<seq<Item>>, page: seq<Item>, t: Trail)
    requires t.pages == before + [page]
    ensures LastPage(t) == page
  {
  }

  lemma {:induction false} AskingOneMore(w: World, rounds: seq<Round>, responses: Round)
    requires Asking(w, rounds)
    ensures Asking(w, rounds + [Asked(responses, Run(w, rounds).origins, w.limit)])
  {
    var all := rounds + [Asked(responses, Run(w, rounds).origins, w.limit)];
    assert all[..|all| - 1] == rounds;
  }

  /** The statuses of a page report the session so far. */
  lemma {:induction false} StatusesAre(w: World, rounds: seq<Round>, round: Round)
    requires Asking(w, rounds + [round])
    ensures Statuses(PageOf(Run(w, rounds).origins, round, w.urls, w.limit).origins) == Report(w, rounds + [round])
  {
    hide Asking, PageOf, ReturnedBy, LastFailed, HasEnded, AnyMore;
    var all := rounds + [round];
    var after := PageOf(Run(w, rounds).origins, round, w.urls, w.limit).origins;
    RunGrows(w, rounds, round);
    RunKeys(w, all);
    hide Run;
    assert Run(w, all).origins == CloneAll(after);
    forall id | id in w.lists
      ensures Statuses(after)[id] == Status(ReturnedBy(all, id), HasEnded(all, id), LastFailed(all, id))
    {
      FieldsTell(w, all, id);
      assert Run(w, all).origins[id] == after[id].Cloned();
    }
  }

  lemma {:induction false} HostsAre(cfg: Config, req: Request, w: World)
    requires Hosts(cfg, req, w)
    ensures w.lists.Keys == cfg.originIds && w.urls == cfg.urls && w.limit == EffectiveLimit(cfg, req)
  {
    LimitIs(cfg, req);
  }

  lemma {:induction false} RunGrows(w: World, rounds: seq<Round>, round: Round)
    ensures var t, page := Run(w, rounds), PageOf(Run(w, rounds).origins, round, w.urls, w.limit);
            && Run(w, rounds + [round]) == Trail(t.pages + [page.items], CloneAll(page.origins))
            && (AnyMore(page.origins) <==> AnyMore(CloneAll(page.origins)))
  {
    var all := rounds + [round];
    assert all[..|all| - 1] == rounds;
    MoreSurvivesClone(w, all);
    hide PageOf, AnyMore;
  }

  lemma {:induction false} RenderedIs(cfg: Config, state: CursorState, self: Token, limit: nat, round: Round)
    requires AnyMore(state.origins)
    ensures var page := PageOf(state.origins, round, cfg.urls, limit);
            var total := state.totalReturned + |page.items|;
            Rendered(cfg, state, self, limit, round) ==
            SearchResult(page.items, total,
                         if AnyMore(page.origins)
                         then Signed(CursorState(state.query, state.principal, CloneAll(page.origins), total,
                                                 state.expiresAt, self, state.pageSeq + 1))
                         else NoToken,
                         state.prev, self, limit, Statuses(page.origins))
  {
    hide PageOf, AnyMore, CloneAll, Statuses;
  }

  lemma {:induction false} CursorIs(t: Trail, req: Request, principal: string, expiry: int, prev: Token, n: nat)
    ensures CursorAfter(t, req, principal, expiry, prev, n) ==
            if AnyMore(t.origins)
            then Signed(CursorState(req.query, principal, t.origins, |Flatten(t.pages)|, expiry, prev, n))
            else NoToken
  {
  }

  lemma {:induction false} NoMoreThanNone(w: World, round: Round)
    requires w.lists.Keys == {}
    ensures PageOf(Run(w, []).origins, round, w.urls, w.limit).items == []
  {
    var origins := Run(w, []).origins;
    assert origins == map[];
    assert MarkErrors(origins, round) == map[];
    assert Sorted({}) == [];
    assert Contributions([], map[], round, w.urls) == [];
  }

  /** The first search, which has no cursor. */
  lemma {:induction false} FirstPage(cfg: Config, w: World, req: Request, principal: string, v: Visit)
    requires Hosts(cfg, req, w) && v.store == map[]
    ensures var round := Asked(v.responses, Run(w, []).origins, w.limit);
            Cached(cfg, v.store, v.now, req, NoToken, principal, v.responses) ==
            Found(PageResult(w, req, principal, (v.now + cfg.cursorTtl) / SECOND, [round], NoToken, NoToken))
  {
    var start, expiry := Run(w, []), (v.now + cfg.cursorTtl) / SECOND;
    assert Asking(w, []);
    hide *;
    var round := Asked(v.responses, start.origins, w.limit);
    HostsAre(cfg, req, w);
    StartIs(cfg, w, req, principal, v);
    assert [] + [round] == [round];
    if AnyMore(start.origins) {
      RendersPage(cfg, w, req, principal, [], v.responses, expiry, NoToken, NoToken);
    } else {
      NothingToShow(cfg, w, FirstState(cfg, v.now, req, principal), round, req, principal, expiry);
    }
  }

  lemma {:induction false} StartIs(cfg: Config, w: World, req: Request, principal: string, v: Visit)
    requires w.lists.Keys == cfg.originIds && w.limit == EffectiveLimit(cfg, req)
    ensures var start, state := Run(w, []), FirstState(cfg, v.now, req, principal);
            && start.pages == [] && Flatten(start.pages) == []
            && state == CursorState(req.query, principal, start.origins, 0,
                                    (v.now + cfg.cursorTtl) / SECOND, NoToken, 0)
            && Cached(cfg, v.store, v.now, req, NoToken, principal, v.responses) ==
               Found(Rendered(cfg, state, NoToken, w.limit, Asked(v.responses, start.origins, w.limit)))
  {
    hide Rendered, Asked;
  }

  lemma {:induction false} MoreWithOrigins(w: World)
    ensures AnyMore(Run(w, []).origins) <==> w.lists.Keys != {}
  {
    if w.lists.Keys != {} {
      var id :| id in w.lists.Keys;
      assert Run(w, []).origins[id].HasMore();
    }
  }

  lemma {:induction false} NothingToShow(cfg: Config, w: World, state: CursorState, round: Round, req: Request,
                                         principal: string, expiry: int)
    requires !AnyMore(Run(w, []).origins) && state.origins == Run(w, []).origins
    ensures Rendered(cfg, state, NoToken, w.limit, round) ==
            PageResult(w, req, principal, expiry, [round], NoToken, NoToken)
  {
    MoreWithOrigins(w);
    NoMoreThanNone(w, round);
    assert [round][..0] == [];
    assert Run(w, [round]).origins == map[] by { RunKeys(w, [round]); }
    assert Flatten([[]]) == [] + Flatten([]);
    assert Report(w, [round]) == map[];
    var t := Run(w, [round]);
    assert t.pages == [] + [[]] == [[]] && LastPage(t) == [];
    assert CursorAfter(t, req, principal, expiry, NoToken, 1) == NoToken;
    PageResultIs(w, req, principal, expiry, [round], NoToken, NoToken);
    hide PageResult, Run, Report, CursorAfter, LastPage, PageOf;
  }

  /** The cursor presented with the i-th search. */
  function Given(outcomes: seq<PageCache.Outcome>, i: int): Token
    requires i <= |outcomes|
  {
    if i <= 0 then NoToken else Onward(outcomes[..i])
  }

  /** Every search of the chain returns, in every field, the page of the session it is for. */
  ghost predicate Tracks(cfg: Config, w: World, req: Request, principal: string, visits: seq<Visit>,
                         outcomes: seq<PageCache.Outcome>) {
    && |outcomes| == |visits|
    && forall i :: 0 <= i < |visits| ==>
         outcomes[i] == Found(PageResult(w, req, principal, Expiry(cfg, visits), Rounds(w, visits)[..i + 1],
                                         Given(outcomes, i - 1), Given(outcomes, i)))
  }

  /** A client that follows next cursors is shown the pages of the session, with running totals,
      statuses and cursors that go on and back, and is given a next cursor exactly while the session
      has more; fetches may fail at will. */
  lemma {:induction false} ChainIsSession(cfg: Config, w: World, req: Request, principal: string, visits: seq<Visit>)
    requires Hosts(cfg, req, w) && GoesOn(cfg, req, principal, visits) && Uncached(visits)
    ensures Tracks(cfg, w, req, principal, visits, Follow(cfg, req, principal, visits))
  {
    hide Cached, CursorAfter, Asked, AnyMore, Flatten, PageOf, NextOrigins, Tracks;
    if visits == [] {
      NoneTracks(cfg, w, req, principal);
    } else {
      var n := |visits| - 1;
      if n == 0 {
        FirstTracks(cfg, w, req, principal, visits);
      } else {
        ChainIsSession(cfg, w, req, principal, visits[..n]);
        ChainGrows(cfg, w, req, principal, visits);
      }
    }
  }

  lemma {:induction false} NoneTracks(cfg: Config, w: World, req: Request, principal: string)
    ensures Tracks(cfg, w, req, principal, [], [])
  {
  }

  lemma {:induction false} FirstTracks(cfg: Config, w: World, req: Request, principal: string, visits: seq<Visit>)
    requires |visits| == 1 && Hosts(cfg, req, w) && Uncached(visits)
    ensures Tracks(cfg, w, req, principal, visits, Follow(cfg, req, principal, visits))
  {
    var v, expiry := visits[0], Expiry(cfg, visits);
    assert expiry == (v.now + cfg.cursorTtl) / SECOND && v.store == map[];
    hide *;
    assert visits[..0] == [];
    NothingYet(cfg, w, req, principal);
    OneMoreVisit(cfg, w, req, principal, visits);
    FirstPage(cfg, w, req, principal, v);
    var round := Asked(v.responses, Run(w, []).origins, w.limit);
    assert [] + [round] == [round];
    NoneTracks(cfg, w, req, principal);
    var last := Cached(cfg, v.store, v.now, req, NoToken, principal, v.responses);
    GivenFirst([], last);
    TracksOneMore(cfg, w, req, principal, visits, [], last, expiry);
  }

  lemma {:induction false} GivenFirst(before: seq<PageCache.Outcome>, last: PageCache.Outcome)
    ensures Given(before + [last], 0) == NoToken == Given(before + [last], -1)
    ensures Given(before, 0) == NoToken == Given(before, -1)
  {
  }

  lemma {:induction false} NothingYet(cfg: Config, w: World, req: Request, principal: string)
    ensures Rounds(w, []) == [] && Follow(cfg, req, principal, []) == [] && Run(w, []).pages == []
            && Onward([]) == NoToken && Asking(w, [])
  {
  }

  lemma {:induction false} ChainGrows(cfg: Config, w: World, req: Request, principal: string, visits: seq<Visit>)
    requires |visits| > 1 && Hosts(cfg, req, w) && GoesOn(cfg, req, principal, visits) && Uncached(visits)
    requires var first := visits[..|visits| - 1];
             Tracks(cfg, w, req, principal, first, Follow(cfg, req, principal, first))
    ensures Tracks(cfg, w, req, principal, visits, Follow(cfg, req, principal, visits))
  {
    var n := |visits| - 1;
    var first, v := visits[..n], visits[n];
    var rounds, before := Rounds(w, first), Follow(cfg, req, principal, first);
    var expiry := LastCursor(cfg, w, req, principal, visits);
    hide *;
    var last := Cached(cfg, v.store, v.now, req, Onward(before), principal, v.responses);
    OneMoreVisit(cfg, w, req, principal, visits);
    RoundsAsk(w, first);
    NextPage(cfg, w, req, principal, rounds, v, expiry, Given(before, n - 1));
    GivenLast(before);
    TracksOneMore(cfg, w, req, principal, visits, before, last, expiry);
  }

  lemma {:induction false} GivenLast(before: seq<PageCache.Outcome>)
    requires before != []
    ensures Given(before, |before|) == Onward(before)
  {
    assert before[..|before|] == before;
  }

  lemma {:induction false} RoundsAsk(w: World, visits: seq<Visit>)
    ensures Asking(w, Rounds(w, visits))
  {
    hide Run, Asked, Asking;
    if visits == [] {
      AskingNone(w);
    } else {
      var n := |visits| - 1;
      RoundsAsk(w, visits[..n]);
      AskingOneMore(w, Rounds(w, visits[..n]), visits[n].responses);
    }
  }

  lemma {:induction false} AskingNone(w: World)
    ensures Asking(w, [])
  {
  }

  lemma {:induction false} OneMoreVisit(cfg: Config, w: World, req: Request, principal: string, visits: seq<Visit>)
    requires visits != []
    ensures var n := |visits| - 1;
            var rounds, before := Rounds(w, visits[..n]), Follow(cfg, req, principal, visits[..n]);
            && Rounds(w, visits) == rounds + [Asked(visits[n].responses, Run(w, rounds).origins, w.limit)]
            && Follow(cfg, req, principal, visits) ==
               before + [Cached(cfg, visits[n].store, visits[n].now, req, Onward(before), principal,
                                visits[n].responses)]
  {
    hide Cached, Asked, Run, Onward;
  }

  lemma {:induction false} TracksAt(cfg: Config, w: World, req: Request, principal: string, visits: seq<Visit>,
                                    outcomes: seq<PageCache.Outcome>, i: nat)
    requires i < |visits| && Tracks(cfg, w, req, principal, visits, outcomes)
    ensures |outcomes| == |visits| && outcomes[i].Found?
    ensures var t, r := Run(w, Rounds(w, visits)[..i + 1]), outcomes[i].result;
            && r.items == LastPage(t) && r.totalCount == |Flatten(t.pages)|
            && r.prev == Given(outcomes, i - 1) && r.self == Given(outcomes, i)
            && r.next == CursorAfter(t, req, principal, Expiry(cfg, visits), r.self, i + 1)
  {
    hide Run, CursorAfter, LastPage, Flatten, Report, Rounds;
    assert outcomes[i] == Found(PageResult(w, req, principal, Expiry(cfg, visits), Rounds(w, visits)[..i + 1],
                                           Given(outcomes, i - 1), Given(outcomes, i)));
  }

  /** The cursor the last answer gave. */
  lemma {:induction false} LastCursor(cfg: Config, w: World, req: Request, principal: string, visits: seq<Visit>)
    returns (expiry: int)
    requires |visits| > 1 && GoesOn(cfg, req, principal, visits) && Uncached(visits)
    requires var first := visits[..|visits| - 1];
             Tracks(cfg, w, req, principal, first, Follow(cfg, req, principal, first))
    ensures var n := |visits| - 1;
            var first := visits[..n];
            var before := Follow(cfg, req, principal, first);
            && expiry == Expiry(cfg, visits) == Expiry(cfg, first)
            && visits[n].now / SECOND <= expiry && visits[n].store == map[]
            && |before| == n && |Rounds(w, first)| == n && Onward(before).Signed?
            && Onward(before) ==
               CursorAfter(Run(w, Rounds(w, first)), req, principal, expiry, Given(before, n - 1), n)
  {
    hide Rounds, Follow, Run, CursorAfter, Flatten, Report, LastPage;
    var n := |visits| - 1;
    var first := visits[..n];
    expiry := Expiry(cfg, visits);
    assert Expiry(cfg, first) == expiry;
    assert Rounds(w, first)[..n] == Rounds(w, first);
    TracksAt(cfg, w, req, principal, first, Follow(cfg, req, principal, first), n - 1);
    hide Tracks;
  }

  lemma {:induction false} TracksOneMore(cfg: Config, w: World, req: Request, principal: string, visits: seq<Visit>,
                                         before: seq<PageCache.Outcome>, last: PageCache.Outcome, expiry: int)
    requires visits != [] && expiry == Expiry(cfg, visits)
    requires var n := |visits| - 1;
             && Tracks(cfg, w, req, principal, visits[..n], before) && |before| == n
             && (n > 0 ==> expiry == Expiry(cfg, visits[..n]))
             && Rounds(w, visits)[..n] == Rounds(w, visits[..n])
             && last == Found(PageResult(w, req, principal, expiry, Rounds(w, visits), Given(before, n - 1),
                                         Given(before, n)))
    ensures Tracks(cfg, w, req, principal, visits, before + [last])
  {
    hide PageResult, Rounds;
    var n, all := |before|, before + [last];
    forall i | 0 <= i < |all|
      ensures all[i] == Found(PageResult(w, req, principal, expiry, Rounds(w, visits)[..i + 1], Given(all, i - 1),
                                         Given(all, i)))
    {
      GivenKeeps(before, last, i);
      if i > 0 { GivenKeeps(before, last, i - 1); } else { GivenFirst(before, last); }
      if i < n {
        assert Rounds(w, visits)[..i + 1] == Rounds(w, visits[..n])[..i + 1];
      } else {
        assert Rounds(w, visits)[..i + 1] == Rounds(w, visits);
      }
    }
  }

  lemma {:induction false} GivenKeeps(before: seq<PageCache.Outcome>, last: PageCache.Outcome, i: nat)
    requires i <= |before|
    ensures Given(before + [last], i) == Given(before, i)
  {
    assert (before + [last])[..i] == before[..i];
  }

  lemma {:induction false} NextPage(cfg: Config, w: World, req: Request, principal: string, rounds: seq<Round>,
                                    v: Visit, expiry: int, prev: Token)
    requires Hosts(cfg, req, w) && v.store == map[] && v.now / SECOND <= expiry && Asking(w, rounds)
    requires CursorAfter(Run(w, rounds), req, principal, expiry, prev, |rounds|).Signed?
    ensures var t := Run(w, rounds);
            var token := CursorAfter(t, req, principal, expiry, prev, |rounds|);
            Cached(cfg, v.store, v.now, req, token, principal, v.responses) ==
            Found(PageResult(w, req, principal, expiry, rounds + [Asked(v.responses, t.origins, w.limit)], prev, token))
  {
    hide Rendered, Asked, Run, Flatten, AnyMore, PageResult, Asking;
    var token := CursorAfter(Run(w, rounds), req, principal, expiry, prev, |rounds|);
    RendersPage(cfg, w, req, principal, rounds, v.responses, expiry, prev, token);
    HostsAre(cfg, req, w);
  }

  lemma {:induction false} PrefixPages(w: World, rounds: seq<Round>, k: nat)
    requires k <= |rounds|
    ensures |Run(w, rounds).pages| == |rounds| && Run(w, rounds[..k]).pages == Run(w, rounds).pages[..k]
  {
    hide PageOf, NextOrigins;
    if k == |rounds| {
      assert rounds[..k] == rounds;
      if rounds != [] { PrefixPages(w, rounds[..k - 1], 0); }
    } else {
      assert rounds[..|rounds| - 1][..k] == rounds[..k];
      PrefixPages(w, rounds[..|rounds| - 1], k);
    }
  }

  /** In particular the i-th search returns the i-th page, the number of items on the pages up to
      it, and itself as what the next search names as its previous one. */
  lemma {:induction false} ChainShowsPages(cfg: Config, w: World, req: Request, principal: string, visits: seq<Visit>,
                                           i: nat)
    requires Hosts(cfg, req, w) && GoesOn(cfg, req, principal, visits) && Uncached(visits) && i < |visits|
    ensures var pages, outcomes := Run(w, Rounds(w, visits)).pages, Follow(cfg, req, principal, visits);
            && |pages| == |visits| && outcomes[i].Found?
            && outcomes[i].result.items == pages[i]
            && outcomes[i].result.totalCount == |Flatten(pages[..i + 1])|
            && (i > 0 ==> outcomes[i - 1].Found? && outcomes[i].result.prev == outcomes[i - 1].result.self)
  {
    ChainIsSession(cfg, w, req, principal, visits);
    hide *;
    var outcomes := Follow(cfg, req, principal, visits);
    TracksAt(cfg, w, req, principal, visits, outcomes, i);
    LastOf(w, Rounds(w, visits), i);
    if i > 0 { TracksAt(cfg, w, req, principal, visits, outcomes, i - 1); }
  }

  lemma {:induction false} LastOf(w: World, rounds: seq<Round>, i: nat)
    requires i < |rounds|
    ensures |Run(w, rounds).pages| == |rounds| && LastPage(Run(w, rounds[..i + 1])) == Run(w, rounds).pages[i]
    ensures Run(w, rounds[..i + 1]).pages == Run(w, rounds).pages[..i + 1]
  {
    PrefixPages(w, rounds, i + 1);
    hide Run;
  }

  /** Every origin asked answers honestly or fails. */
  ghost predicate Honestly(w: World, visits: seq<Visit>) {
    visits == [] ||
    (var n := |visits| - 1;
     && Honestly(w, visits[..n])
     && HonestRound(w, Run(w, Rounds(w, visits[..n])).origins, Rounds(w, visits)[n]))
  }

  /** So the laws about sessions are about what such a client is shown. */
  lemma {:induction false} ChainRoundsAreSession(cfg: Config, w: World, req: Request, principal: string,
                                                 visits: seq<Visit>)
    requires Hosts(cfg, req, w) && cfg.originIds != {} && GoesOn(cfg, req, principal, visits) && Uncached(visits)
             && Honestly(w, visits)
    ensures Session(w, Rounds(w, visits))
  {
    hide Hosts, Run, Asked, Follow, Tracks, HonestRound, AnyMore, CursorAfter;
    if visits != [] {
      var n := |visits| - 1;
      var first := visits[..n];
      ChainRoundsAreSession(cfg, w, req, principal, first);
      assert Rounds(w, visits)[..n] == Rounds(w, first);
      if n == 0 {
        assert first == [];
        StartHasMore(cfg, req, w);
      } else {
        ChainIsSession(cfg, w, req, principal, first);
        MoreWhenSigned(cfg, w, req, principal, first, Follow(cfg, req, principal, first));
      }
    }
  }

  lemma {:induction false} StartHasMore(cfg: Config, req: Request, w: World)
    requires Hosts(cfg, req, w) && cfg.originIds != {}
    ensures AnyMore(Run(w, []).origins)
  {
    MoreWithOrigins(w);
  }

  lemma {:induction false} MoreWhenSigned(cfg: Config, w: World, req: Request, principal: string, visits: seq<Visit>,
                                          outcomes: seq<PageCache.Outcome>)
    requires visits != [] && Tracks(cfg, w, req, principal, visits, outcomes)
    ensures Onward(outcomes).Signed? <==> AnyMore(Run(w, Rounds(w, visits)).origins)
  {
    hide AnyMore, Flatten, LastPage, Run, Rounds, Tracks, Given;
    assert Rounds(w, visits)[..|visits|] == Rounds(w, visits);
    TracksAt(cfg, w, req, principal, visits, outcomes, |visits| - 1);
  }

  // ----- With the page cache -----

  function Forget(visits: seq<Visit>): (r: seq<Visit>)
    ensures |r| == |visits| && forall i :: 0 <= i < |r| ==> r[i] == visits[i].(store := map[])
  {
    seq(|visits|, i requires 0 <= i < |visits| => visits[i].(store := map[]))
  }

  ghost function AsEvent(cfg: Config, req: Request, principal: string, visits: seq<Visit>): Event
    requires visits != []
  {
    var n := |visits| - 1;
    Searched(visits[n].now, req, Onward(Follow(cfg, req, principal, visits[..n])), principal, {})
  }

  /** Every search finds a store that some history left, while no origin fails, and requests that
      present a cursor agree on what the query hash leaves out. */
  ghost predicate Calmly(cfg: Config, up: Upstream, restOf: CursorState -> string, req: Request, principal: string,
                         visits: seq<Visit>, histories: seq<seq<Event>>)
    requires |histories| == |visits|
  {
    visits == [] ||
    (var n := |visits| - 1;
     && Calmly(cfg, up, restOf, req, principal, visits[..n], histories[..n])
     && visits[n].store == History(cfg, up, histories[n]) && AllAgree(histories[n], restOf)
     && Agrees(AsEvent(cfg, req, principal, visits), restOf)
     && visits[n].responses == ResponsesTo(cfg, up, AsEvent(cfg, req, principal, visits)))
  }

  /** The page cache changes nothing of the chain. */
  lemma {:induction false} ChainIgnoresCache(cfg: Config, up: Upstream, restOf: CursorState -> string, req: Request,
                                             principal: string,
                                             visits: seq<Visit>, histories: seq<seq<Event>>)
    requires |histories| == |visits| && Calmly(cfg, up, restOf, req, principal, visits, histories)
    ensures Follow(cfg, req, principal, visits) == Follow(cfg, req, principal, Forget(visits))
  {
    hide History, Plain, ResponsesTo, AllAgree, Agrees, Check, Rendered;
    if visits != [] {
      var n := |visits| - 1;
      var e := AsEvent(cfg, req, principal, visits);
      ChainIgnoresCache(cfg, up, restOf, req, principal, visits[..n], histories[..n]);
      assert Forget(visits)[..n] == Forget(visits[..n]);
      CacheTransparent(cfg, up, restOf, histories[n], e);
      EmptyStore(cfg, e.now, req, e.token, principal, visits[n].responses);
      hide Cached;
    }
  }

  /** With the page cache too, a client that follows next cursors while no origin fails is shown the
      pages of the session, with running totals. */
  lemma {:induction false} CachedChainIsSession(cfg: Config, up: Upstream, restOf: CursorState -> string, w: World,
                                                req: Request, principal: string,
                                                visits: seq<Visit>, histories: seq<seq<Event>>)
    requires |histories| == |visits| && Calmly(cfg, up, restOf, req, principal, visits, histories)
    requires Hosts(cfg, req, w) && GoesOn(cfg, req, principal, visits)
    ensures Tracks(cfg, w, req, principal, visits, Follow(cfg, req, principal, visits))
  {
    hide *;
    ForgetGoesOn(cfg, up, restOf, req, principal, visits, histories);
    ForgetRounds(w, visits);
    ChainIgnoresCache(cfg, up, restOf, req, principal, visits, histories);
    ForgetUncached(visits);
    ChainIsSession(cfg, w, req, principal, Forget(visits));
    ForgetTracks(cfg, w, req, principal, visits, Follow(cfg, req, principal, visits));
  }

  lemma {:induction false} ForgetUncached(visits: seq<Visit>)
    ensures Uncached(Forget(visits))
  {
  }

  lemma {:induction false} ForgetTracks(cfg: Config, w: World, req: Request, principal: string, visits: seq<Visit>,
                                        outcomes: seq<PageCache.Outcome>)
    requires Tracks(cfg, w, req, principal, Forget(visits), outcomes) && Rounds(w, Forget(visits)) == Rounds(w, visits)
    ensures Tracks(cfg, w, req, principal, visits, outcomes)
  {
    hide PageResult, Onward, Rounds;
    if visits != [] { assert Expiry(cfg, Forget(visits)) == Expiry(cfg, visits); }
  }

  lemma {:induction false} ForgetRounds(w: World, visits: seq<Visit>)
    ensures Rounds(w, Forget(visits)) == Rounds(w, visits)
  {
    hide Run, Asked;
    if visits != [] {
      var n := |visits| - 1;
      ForgetRounds(w, visits[..n]);
      assert Forget(visits)[..n] == Forget(visits[..n]);
    }
  }

  lemma {:induction false} ForgetGoesOn(cfg: Config, up: Upstream, restOf: CursorState -> string, req: Request,
                                        principal: string, visits: seq<Visit>, histories: seq<seq<Event>>)
    requires |histories| == |visits| && Calmly(cfg, up, restOf, req, principal, visits, histories)
    requires GoesOn(cfg, req, principal, visits)
    ensures GoesOn(cfg, req, principal, Forget(visits))
  {
    hide Follow, History, ResponsesTo, AllAgree, Agrees, Onward;
    if |visits| > 1 {
      var n := |visits| - 1;
      ForgetGoesOn(cfg, up, restOf, req, principal, visits[..n], histories[..n]);
      ChainIgnoresCache(cfg, up, restOf, req, principal, visits[..n], histories[..n]);
      assert Forget(visits)[..n] == Forget(visits[..n]);
    }
  }

  lemma {:induction false} EmptyStore(cfg: Config, now: int, req: Request, token: Token, principal: string,
                                      responses: Round)
    ensures Cached(cfg, map[], now, req, token, principal, responses) ==
            Plain(cfg, now, req, token, principal, responses)
  {
    hide Plain;
  }
}
