/**
 Whole pagination sessions: the chain of pages a client gets by following next cursors.
 (internal/federation/pagination.go: Search; internal/federation/cursor.go: Clone)

 Every origin publishes a fixed list of items. A round says what each origin fetched for a
 page answered; any fetch may fail.
 */
module Sessions {
  import opened Text
  import opened Items
  import opened Merger
  import opened ListMerge
  import opened Cursor
  import opened Pagination
  import opened PageLaws

  datatype World = World(lists: map<string, seq<Item>>, urls: map<string, string>, limit: nat)

  datatype Trail = Trail(pages: seq<seq<Item>>, origins: Origins)

  /** The pages of a session and the cursor state after it. */
  ghost function Run(w: World, rounds: seq<Round>): Trail {
    if rounds == [] then Trail([], map id | id in w.lists :: FRESH)
    else
      var before, round := Run(w, rounds[..|rounds| - 1]), rounds[|rounds| - 1];
      Trail(before.pages + [PageOf(before.origins, round, w.urls, w.limit).items],
            NextOrigins(before.origins, round, w.urls, w.limit))
  }

  /** Where the next fetch of the origin starts. */
  function Start(oc: OriginCursor): nat {
    match oc.next
    case None => 0
    case Some(p) => p
  }

  /** The saved position: everything before it has been fetched. */
  function Pos(oc: OriginCursor, list: seq<Item>): nat {
    if oc.exhausted then |list| else Start(oc)
  }

  /** A fetch that fails, or returns some of the next items and the position after them, which
      is missing only at the end. */
  predicate HonestFetch(oc: OriginCursor, list: seq<Item>, f: Fetch) {
    f.Fetched? ==>
      var p := Start(oc);
      && p + |f.items| <= |list|
      && f.items == list[p..p + |f.items|]
      && match f.next
         case None => p + |f.items| == |list|
         case Some(q) => q == p + |f.items|
  }

  /** Origin `id` was fetched only if it should be, and answered honestly. */
  ghost predicate HonestAt(w: World, origins: Origins, round: Round, id: string)
    requires id in origins && id in w.lists
  {
    id in round ==> Fetchable(origins[id], w.limit) && HonestFetch(origins[id], w.lists[id], round[id])
  }

  ghost predicate HonestRound(w: World, origins: Origins, round: Round) {
    && round.Keys == ToFetch(origins, w.limit)
    && forall id :: id in round ==> id in w.lists && HonestFetch(origins[id], w.lists[id], round[id])
  }

  lemma {:induction false} HonestEach(w: World, origins: Origins, round: Round, id: string)
    requires HonestRound(w, origins, round) && id in origins && id in w.lists
    ensures HonestAt(w, origins, round, id)
  {
    if id in round { assert id in ToFetch(origins, w.limit); }
  }

  /** A session: every page is asked for with a cursor that has more. */
  ghost predicate Session(w: World, rounds: seq<Round>) {
    rounds == [] ||
    (var before := rounds[..|rounds| - 1];
     && Session(w, before)
     && AnyMore(Run(w, before).origins)
     && HonestRound(w, Run(w, before).origins, rounds[|rounds| - 1]))
  }

  /** The published lists, tagged, by origin id. */
  ghost function Published(w: World): (r: seq<seq<Item>>)
    ensures |r| == |Sorted(w.lists.Keys)|
    ensures forall i :: 0 <= i < |r| ==>
              Sorted(w.lists.Keys)[i] in w.lists && r[i] == PublishedBy(w, Sorted(w.lists.Keys)[i])
  {
    var ids := Sorted(w.lists.Keys);
    assert forall i :: 0 <= i < |ids| ==> ids[i] in ids && ids[i] in w.lists;
    Listed(w, ids)
  }

  /** The lists of the origins `ids`, tagged. */
  function Listed(w: World, ids: seq<string>): (r: seq<seq<Item>>)
    requires forall i :: 0 <= i < |ids| ==> ids[i] in w.lists
    ensures |r| == |ids| && forall i :: 0 <= i < |ids| ==> r[i] == PublishedBy(w, ids[i])
  {
    seq(|ids|, i requires 0 <= i < |ids| => PublishedBy(w, ids[i]))
  }

  function PublishedBy(w: World, id: string): seq<Item>
    requires id in w.lists
  {
    TagAll(w.lists[id], id, UrlOf(w.urls, id))
  }

  /** Origins have names, and no item names a foreign origin first. */
  ghost predicate Attributed(w: World) {
    "" !in w.lists && forall id, x :: id in w.lists && x in w.lists[id] ==> Unclaimed(x, id)
  }

  /** Besides, keys are distinct across the whole federation. */
  ghost predicate Catalog(w: World) {
    Attributed(w) && DistinctKeys(Flatten(Published(w)))
  }

  /** Sessions exist: an origin whose list fits on a page delivers it on the first page, which has
      no next one. */
  lemma {:induction false} OnePageSession(w: World, id: string)
    requires w.lists.Keys == {id} && 0 < w.limit && |w.lists[id]| <= w.limit
    ensures var rounds := [map[id := Fetched(w.lists[id], None)]];
            Session(w, rounds) && !AnyMore(Run(w, rounds).origins)
  {
    var round: Round := map[id := Fetched(w.lists[id], None)];
    var rounds := [round];
    var start := Run(w, []).origins;
    assert rounds[..0] == [] && Session(w, []);
    assert start[id] == FRESH && start[id].HasMore();
    assert ToFetch(start, w.limit) == {id};
    assert HonestRound(w, start, round);
    FitsOnPage(start, round, w.urls, w.limit, id);
    assert Run(w, rounds).origins == NextOrigins(start, round, w.urls, w.limit);
  }

  lemma {:induction false} FitsOnPage(start: Origins, round: Round, urls: map<string, string>, limit: nat, id: string)
    requires start.Keys == {id} && start[id] == FRESH
    requires id in round && round[id].Fetched? && round[id].next.None? && |round[id].items| <= limit
    ensures !AnyMore(NextOrigins(start, round, urls, limit))
  {
    hide Ranked, StashFor, NextOrigins, Sorted, Increasing;
    var marked := MarkErrors(start, round);
    assert marked[id] == FRESH && marked.Keys == {id};
    NextAt(start, round, urls, limit, id);
    RankedFits(marked, round, urls, id);
    assert Back(Ranked(marked, round, urls), limit) == [];
    StashForNothing(id);
    NextKeys(start, round, urls, limit);
  }

  lemma {:induction false} RankedFits(marked: Origins, round: Round, urls: map<string, string>, id: string)
    requires marked.Keys == {id} && marked[id] == FRESH && id in round && round[id].Fetched?
    ensures |Ranked(marked, round, urls)| <= |round[id].items|
  {
    hide Dedup, Increasing, TagAll, Ranked;
    var ids := Sorted(marked.Keys);
    IncreasingLength(ids, marked.Keys);
    assert ids == [id];
    var lists := Contributions(ids, marked, round, urls);
    assert lists == [lists[0]] && lists[1..] == [];
    assert Flatten(lists) == lists[0];
    DedupNoLonger(Flatten(lists), {});
    RankedIs(marked, round, urls);
  }

  // ----- What Clone does to the retry budget along a session -----

  lemma {:induction false} RunKeys(w: World, rounds: seq<Round>)
    ensures Run(w, rounds).origins.Keys == w.lists.Keys
  {
    if rounds != [] { RunKeys(w, rounds[..|rounds| - 1]); }
  }

  /** Every cursor that enters a page has error count 0, so no origin is ever retired. */
  lemma {:induction false} EntersWithoutStrikes(w: World, rounds: seq<Round>, id: string)
    requires id in Run(w, rounds).origins
    ensures Run(w, rounds).origins[id].errorCount == 0
    ensures !Run(w, rounds).origins[id].Retired()
  {
  }

  /** Every page fetches from the origins it should. */
  ghost predicate Asking(w: World, rounds: seq<Round>) {
    rounds == [] ||
    (var before := rounds[..|rounds| - 1];
     Asking(w, before) && rounds[|rounds| - 1].Keys == ToFetch(Run(w, before).origins, w.limit))
  }

  /** How many items the origin has returned. */
  function ReturnedBy(rounds: seq<Round>, id: string): nat {
    if rounds == [] then 0
    else ReturnedBy(rounds[..|rounds| - 1], id) + |FreshItems(rounds[|rounds| - 1], id)|
  }

  /** The origin's last fetch failed. */
  predicate LastFailed(rounds: seq<Round>, id: string) {
    && rounds != []
    && var last := rounds[|rounds| - 1];
       if id in last then last[id].Failed? else LastFailed(rounds[..|rounds| - 1], id)
  }

  /** The origin has answered without a next position. */
  predicate HasEnded(rounds: seq<Round>, id: string) {
    && rounds != []
    && var last := rounds[|rounds| - 1];
       (id in last && last[id].Fetched? && last[id].next.None?) || HasEnded(rounds[..|rounds| - 1], id)
  }

  /** Along a session, whatever is answered, an origin's count is what it has returned, its error
      flag says that its last fetch failed, and it is exhausted once it has answered without a next
      position. */
  lemma {:induction false} FieldsTell(w: World, rounds: seq<Round>, id: string)
    requires Asking(w, rounds) && id in w.lists
    ensures id in Run(w, rounds).origins
    ensures var oc := Run(w, rounds).origins[id];
            && oc.itemCount == ReturnedBy(rounds, id)
            && (oc.error <==> LastFailed(rounds, id))
            && (oc.exhausted <==> HasEnded(rounds, id))
  {
    hide PageOf, NextOrigins, ToFetch;
    RunKeys(w, rounds);
    if rounds != [] {
      var first, round := rounds[..|rounds| - 1], rounds[|rounds| - 1];
      FieldsTell(w, first, id);
      EntersWithoutStrikes(w, first, id);
      FieldsMove(Run(w, first).origins, round, w.urls, w.limit, id);
    }
  }

  lemma {:induction false} FieldsMove(origins: Origins, round: Round, urls: map<string, string>, limit: nat,
                                      id: string)
    requires id in origins && origins[id].errorCount == 0 && round.Keys == ToFetch(origins, limit)
    ensures id in NextOrigins(origins, round, urls, limit)
    ensures var oc, was := NextOrigins(origins, round, urls, limit)[id], origins[id];
            && oc.itemCount == was.itemCount + |FreshItems(round, id)|
            && (oc.error <==> if id in round then round[id].Failed? else was.error)
            && (oc.exhausted <==> was.exhausted || (id in round && round[id].Fetched? && round[id].next.None?))
  {
    hide Ranked, Back, StashFor;
    assert id in round <==> id in ToFetch(origins, limit);
  }

  /** Cursors of a session never have retired origins, before or after cloning. */
  lemma {:induction false} MoreSurvivesClone(w: World, rounds: seq<Round>)
    requires rounds != []
    ensures var before := Run(w, rounds[..|rounds| - 1]).origins;
            AnyMore(PageOf(before, rounds[|rounds| - 1], w.urls, w.limit).origins) <==> AnyMore(Run(w, rounds).origins)
  {
    var first := rounds[..|rounds| - 1];
    var before, round := Run(w, first).origins, rounds[|rounds| - 1];
    forall id | id in before ensures before[id].errorCount == 0 { EntersWithoutStrikes(w, first, id); }
    CloneKeepsMore(before, round, w.urls, w.limit);
  }

  lemma {:induction false} CloneKeepsMore(before: Origins, round: Round, urls: map<string, string>, limit: nat)
    requires forall id :: id in before ==> before[id].errorCount == 0
    ensures AnyMore(PageOf(before, round, urls, limit).origins) <==> AnyMore(NextOrigins(before, round, urls, limit))
  {
    hide Ranked, StashFor, Back;
    var after := PageOf(before, round, urls, limit).origins;
    var cloned := CloneAll(after);
    forall id | id in after ensures after[id].HasMore() == cloned[id].HasMore() {
      assert before[id].errorCount == 0;
    }
    if id :| id in after && after[id].HasMore() { assert cloned[id].HasMore(); }
    if id :| id in cloned && cloned[id].HasMore() { assert after[id].HasMore(); }
  }

  /** So a page on which some fetch failed always has a next page: a dead origin keeps the
      session alive however long it stays dead. */
  lemma {:induction false} FailureKeepsSessionAlive(w: World, rounds: seq<Round>, id: string)
    requires Session(w, rounds) && rounds != []
    requires id in rounds[|rounds| - 1] && rounds[|rounds| - 1][id].Failed?
    ensures AnyMore(Run(w, rounds).origins)
  {
    var first := rounds[..|rounds| - 1];
    var before := Run(w, first).origins;
    EntersWithoutStrikes(w, first, id);
    hide Ranked, StashFor, Back, HonestFetch;
    assert id in ToFetch(before, w.limit);
    assert Run(w, rounds).origins[id].HasMore();
  }

  function DeadRounds(id: string, n: nat): (r: seq<Round>)
    ensures |r| == n
  {
    seq(n, i => map[id := Failed])
  }

  /** The three-failure budget does not bound a session: one dead origin, any number of pages. */
  lemma {:induction false} DeadOriginNeverRetires(w: World, id: string, n: nat)
    requires w.limit > 0 && w.lists.Keys == {id}
    ensures Session(w, DeadRounds(id, n))
    ensures AnyMore(Run(w, DeadRounds(id, n)).origins)
    ensures Waiting(Run(w, DeadRounds(id, n)).origins, id)
  {
    if n == 0 {
      assert Run(w, []).origins[id].HasMore();
    } else {
      DeadOriginNeverRetires(w, id, n - 1);
      var before := DeadRounds(id, n - 1);
      assert DeadRounds(id, n) == before + [map[id := Failed]];
      hide *;
      DeadPage(w, Run(w, before).origins, id);
      OneMore(w, before, map[id := Failed]);
      WaitingHasMore(Run(w, DeadRounds(id, n)).origins, id);
    }
  }

  lemma {:induction false} WaitingHasMore(origins: Origins, id: string)
    requires Waiting(origins, id)
    ensures AnyMore(origins)
  {
    assert origins[id].HasMore();
  }

  lemma {:induction false} OneMore(w: World, rounds: seq<Round>, round: Round)
    requires Session(w, rounds) && AnyMore(Run(w, rounds).origins) && HonestRound(w, Run(w, rounds).origins, round)
    ensures Session(w, rounds + [round])
    ensures Run(w, rounds + [round]).pages ==
            Run(w, rounds).pages + [PageOf(Run(w, rounds).origins, round, w.urls, w.limit).items]
    ensures Run(w, rounds + [round]).origins == NextOrigins(Run(w, rounds).origins, round, w.urls, w.limit)
  {
    hide AnyMore, HonestRound, PageOf, NextOrigins;
    assert (rounds + [round])[..|rounds|] == rounds;
  }

  /** The one origin is there, unexhausted, with nothing stashed and no strike against it. */
  predicate Waiting(origins: Origins, id: string) {
    && origins.Keys == {id} && origins[id].stash == []
    && !origins[id].exhausted && origins[id].errorCount == 0
  }

  lemma {:induction false} DeadPage(w: World, origins: Origins, id: string)
    requires w.limit > 0 && id in w.lists && Waiting(origins, id)
    ensures HonestRound(w, origins, map[id := Failed])
    ensures Waiting(NextOrigins(origins, map[id := Failed], w.urls, w.limit), id)
  {
    hide Ranked, StashFor, Back, AllFrom;
    var round: Round := map[id := Failed];
    var marked := MarkErrors(origins, round);
    assert Combined(marked, round, id) == [];
    assert Own(marked, round);
    StashWithin(origins, round, w.urls, w.limit, id);
  }

  // ----- No loss and no repeat -----

  /** Origin `id` is accounted for: what was emitted of it and what is stashed make up, as a
      bag, its list up to the saved position. */
  ghost predicate Accounted(w: World, emitted: seq<Item>, oc: OriginCursor, id: string)
    requires id in w.lists
  {
    var list := w.lists[id];
    && oc.errorCount == 0
    && Pos(oc, list) <= |list|
    && oc.itemCount == Pos(oc, list)
    && AllFrom(oc.stash, id)
    && multiset(Only(emitted, id)) + multiset(oc.stash) == multiset(PublishedBy(w, id)[..Pos(oc, list)])
  }

  ghost predicate AllAccounted(w: World, emitted: seq<Item>, origins: Origins) {
    && origins.Keys == w.lists.Keys
    && (forall id :: id in w.lists ==> Accounted(w, emitted, origins[id], id))
    && (forall x :: x in emitted ==> OriginOf(x) in w.lists)
  }

  /** A fetch moves the position by what it returned; a failed or skipped fetch does not. */
  lemma {:induction false} PositionMoves(w: World, origins: Origins, round: Round, id: string, back: seq<Item>)
    requires id in origins && id in w.lists && HonestAt(w, origins, round, id)
    requires origins[id].errorCount == 0 && Pos(origins[id], w.lists[id]) <= |w.lists[id]|
    ensures var list := w.lists[id];
            var p, n := Pos(origins[id], list), |FreshItems(round, id)|;
            var oc := Settled(MarkErrors(origins, round)[id], round, id, back).Cloned();
            && Pos(oc, list) == p + n <= |list|
            && FreshItems(round, id) == list[p..p + n]
            && oc.itemCount == origins[id].itemCount + n
            && oc.errorCount == 0
            && (id in round ==> Fetchable(origins[id], w.limit))
  {
  }

  lemma {:induction false} Brought(w: World, emitted: seq<Item>, origins: Origins, round: Round, id: string)
    requires id in w.lists && id in origins && id != ""
    requires Accounted(w, emitted, origins[id], id) && HonestAt(w, origins, round, id)
    ensures var p := Pos(origins[id], w.lists[id]) + |FreshItems(round, id)|;
            && p <= |w.lists[id]|
            && multiset(Only(emitted, id)) + multiset(Contribution(MarkErrors(origins, round), round, w.urls, id)) ==
               multiset(PublishedBy(w, id)[..p])
  {
    hide *;
    AccountedAt(w, emitted, origins[id], id);
    PositionMoves(w, origins, round, id, []);
    ContributionIs(origins, round, w.urls, id, w.limit);
    PublishedIs(w, id);
    ExtendAccount(multiset(Only(emitted, id)), origins[id].stash, w.lists[id], id, UrlOf(w.urls, id),
                  Pos(origins[id], w.lists[id]), |FreshItems(round, id)|);
  }

  lemma {:induction false} PublishedIs(w: World, id: string)
    requires id in w.lists
    ensures PublishedBy(w, id) == TagAll(w.lists[id], id, UrlOf(w.urls, id)) && |PublishedBy(w, id)| == |w.lists[id]|
  {
  }

  lemma {:induction false} ExtendAccount(shown: multiset<Item>, stash: seq<Item>, list: seq<Item>, id: string,
                                         url: string, p: nat, n: nat)
    requires p + n <= |list| && shown + multiset(stash) == multiset(TagAll(list, id, url)[..p])
    ensures shown + multiset(stash + TagAll(list[p..p + n], id, url)) == multiset(TagAll(list, id, url)[..p + n])
  {
    var all := TagAll(list, id, url);
    assert TagAll(list[p..p + n], id, url) == all[p..p + n];
    assert all[..p + n] == all[..p] + all[p..p + n];
  }

  /** A stash is tagged already, so a contribution is the stash and the tagged fresh items. */
  lemma {:induction false} ContributionIs(origins: Origins, round: Round, urls: map<string, string>, id: string,
                                          limit: nat)
    requires id in origins && AllFrom(origins[id].stash, id) && id != ""
    requires id in round ==> Fetchable(origins[id], limit)
    ensures Contribution(MarkErrors(origins, round), round, urls, id) ==
            origins[id].stash + TagAll(FreshItems(round, id), id, UrlOf(urls, id))
  {
    TagAllAppend(origins[id].stash, FreshItems(round, id), id, UrlOf(urls, id));
    TagAllKeepsOwn(origins[id].stash, id, UrlOf(urls, id));
  }

  lemma {:induction false} OwnAt(w: World, origins: Origins, round: Round, id: string)
    requires id in w.lists && id in origins && HonestAt(w, origins, round, id)
    requires forall x :: x in w.lists[id] ==> Unclaimed(x, id)
    requires origins[id].errorCount == 0 && Pos(origins[id], w.lists[id]) <= |w.lists[id]|
    requires AllFrom(origins[id].stash, id)
    ensures forall x :: x in Combined(MarkErrors(origins, round), round, id) ==> Unclaimed(x, id)
  {
    PositionMoves(w, origins, round, id, []);
    FromIsUnclaimed(origins[id].stash, id);
  }

  lemma {:induction false} FromIsUnclaimed(items: seq<Item>, id: string)
    requires AllFrom(items, id)
    ensures forall x :: x in items ==> Unclaimed(x, id)
  {
  }

  lemma {:induction false} OwnInSession(w: World, emitted: seq<Item>, origins: Origins, round: Round)
    requires Attributed(w) && AllAccounted(w, emitted, origins) && HonestRound(w, origins, round)
    ensures Own(MarkErrors(origins, round), round)
  {
    forall id | id in origins
      ensures forall x :: x in Combined(MarkErrors(origins, round), round, id) ==> Unclaimed(x, id)
    {
      HonestEach(w, origins, round, id);
      OwnAt(w, origins, round, id);
    }
  }

  lemma {:induction false} FlattenMonotone(a: seq<seq<Item>>, b: seq<seq<Item>>)
    requires |a| == |b| && forall i :: 0 <= i < |a| ==> multiset(a[i]) <= multiset(b[i])
    ensures multiset(Flatten(a)) <= multiset(Flatten(b))
  {
    if a != [] { FlattenMonotone(a[1..], b[1..]); }
  }

  lemma {:induction false} ContributionWithin(w: World, emitted: seq<Item>, origins: Origins, round: Round, id: string)
    requires id in w.lists && id in origins && id != ""
    requires Accounted(w, emitted, origins[id], id) && HonestAt(w, origins, round, id)
    ensures multiset(Contribution(MarkErrors(origins, round), round, w.urls, id)) <= multiset(PublishedBy(w, id))
  {
    hide AllFrom, HonestFetch, Contribution, Only, MarkErrors, TagAll;
    Brought(w, emitted, origins, round, id);
    var p := Pos(origins[id], w.lists[id]) + |FreshItems(round, id)|;
    BagWithin(multiset(Only(emitted, id)), multiset(Contribution(MarkErrors(origins, round), round, w.urls, id)),
              PublishedBy(w, id), p);
  }

  lemma {:induction false} BagWithin(shown: multiset<Item>, brought: multiset<Item>, all: seq<Item>, p: nat)
    requires p <= |all| && shown + brought == multiset(all[..p])
    ensures brought <= multiset(all)
  {
    assert all == all[..p] + all[p..];
    assert multiset(all) == shown + brought + multiset(all[p..]);
  }

  lemma {:induction false} PoolDistinct(w: World, emitted: seq<Item>, origins: Origins, round: Round)
    requires Catalog(w) && AllAccounted(w, emitted, origins) && HonestRound(w, origins, round)
    ensures DistinctKeys(Pool(MarkErrors(origins, round), round, w.urls))
  {
    var marked := MarkErrors(origins, round);
    var ids := Sorted(w.lists.Keys);
    assert marked.Keys == w.lists.Keys;
    var cs := Contributions(ids, marked, round, w.urls);
    forall i | 0 <= i < |ids| ensures multiset(cs[i]) <= multiset(Published(w)[i]) {
      HonestEach(w, origins, round, ids[i]);
      ContributionWithin(w, emitted, origins, round, ids[i]);
    }
    FlattenMonotone(cs, Published(w));
    DistinctWithin(Flatten(cs), Flatten(Published(w)));
  }

  lemma {:induction false} DistinctWithin(a: seq<Item>, b: seq<Item>)
    requires multiset(a) <= multiset(b) && DistinctKeys(b)
    ensures DistinctKeys(a)
  {
    KeyBagMonotone(a, b);
    forall k ensures KeyBag(a)[k] <= 1 { assert KeyBag(b)[k] <= 1; }
  }

  lemma {:induction false} OriginAccounts(w: World, emitted: seq<Item>, origins: Origins, round: Round, id: string)
    requires id in w.lists && id in origins && id != ""
    requires Accounted(w, emitted, origins[id], id) && HonestAt(w, origins, round, id)
    requires Own(MarkErrors(origins, round), round)
    requires DistinctKeys(Pool(MarkErrors(origins, round), round, w.urls))
    ensures Accounted(w, emitted + PageOf(origins, round, w.urls, w.limit).items,
                      NextOrigins(origins, round, w.urls, w.limit)[id], id)
  {
    hide *;
    var marked := MarkErrors(origins, round);
    var back := Back(Ranked(marked, round, w.urls), w.limit);
    AccountedAt(w, emitted, origins[id], id);
    Brought(w, emitted, origins, round, id);
    OriginConserved(origins, round, w.urls, w.limit, id);
    PositionMoves(w, origins, round, id, back);
    NextAt(origins, round, w.urls, w.limit, id);
    NextStash(origins, round, w.urls, w.limit, id);
    Accounts(w, emitted, PageOf(origins, round, w.urls, w.limit).items, id,
             NextOrigins(origins, round, w.urls, w.limit)[id],
             Contribution(marked, round, w.urls, id));
  }

  lemma {:induction false} AccountedAt(w: World, emitted: seq<Item>, oc: OriginCursor, id: string)
    requires id in w.lists && Accounted(w, emitted, oc, id)
    ensures oc.errorCount == 0 && oc.itemCount == Pos(oc, w.lists[id]) <= |w.lists[id]| && AllFrom(oc.stash, id)
    ensures Pos(oc, w.lists[id]) <= |PublishedBy(w, id)|
    ensures multiset(Only(emitted, id)) + multiset(oc.stash) == multiset(PublishedBy(w, id)[..Pos(oc, w.lists[id])])
  {
  }

  lemma {:induction false} NextStash(origins: Origins, round: Round, urls: map<string, string>, limit: nat, id: string)
    requires id in origins
    ensures id in NextOrigins(origins, round, urls, limit) && id in PageOf(origins, round, urls, limit).origins
    ensures NextOrigins(origins, round, urls, limit)[id].stash == PageOf(origins, round, urls, limit).origins[id].stash
  {
    hide Ranked, Back, Settled;
  }

  lemma {:induction false} Accounts(w: World, emitted: seq<Item>, page: seq<Item>, id: string, oc: OriginCursor,
                                    brought: seq<Item>)
    requires id in w.lists
    requires oc.errorCount == 0 && oc.itemCount == Pos(oc, w.lists[id]) <= |w.lists[id]| && AllFrom(oc.stash, id)
    requires multiset(Only(emitted, id)) + multiset(brought) == multiset(PublishedBy(w, id)[..Pos(oc, w.lists[id])])
    requires multiset(Only(page, id)) + multiset(oc.stash) == multiset(brought)
    ensures Accounted(w, emitted + page, oc, id)
  {
    OnlyAppend(emitted, page, id);
  }

  lemma {:induction false} PageAccounts(w: World, emitted: seq<Item>, origins: Origins, round: Round)
    requires Catalog(w) && AllAccounted(w, emitted, origins) && HonestRound(w, origins, round)
    ensures AllAccounted(w, emitted + PageOf(origins, round, w.urls, w.limit).items,
                         NextOrigins(origins, round, w.urls, w.limit))
  {
    OwnInSession(w, emitted, origins, round);
    PoolDistinct(w, emitted, origins, round);
    DistinctPageAccounts(w, emitted, origins, round);
  }

  /** All a page needs is that what is brought to it has distinct keys. */
  lemma {:induction false} DistinctPageAccounts(w: World, emitted: seq<Item>, origins: Origins, round: Round)
    requires "" !in w.lists && AllAccounted(w, emitted, origins) && HonestRound(w, origins, round)
    requires Own(MarkErrors(origins, round), round)
    requires DistinctKeys(Pool(MarkErrors(origins, round), round, w.urls))
    ensures AllAccounted(w, emitted + PageOf(origins, round, w.urls, w.limit).items,
                         NextOrigins(origins, round, w.urls, w.limit))
  {
    hide NextOrigins, PageOf, HonestRound, Own, DistinctKeys, Pool, MarkErrors, Accounted, OriginOf;
    EachAccounts(w, emitted, origins, round);
    PageNamesOrigins(origins, round, w.urls, w.limit);
    NextKeys(origins, round, w.urls, w.limit);
  }

  lemma {:induction false} EachAccounts(w: World, emitted: seq<Item>, origins: Origins, round: Round)
    requires origins.Keys == w.lists.Keys && "" !in w.lists && HonestRound(w, origins, round)
    requires forall id :: id in w.lists ==> Accounted(w, emitted, origins[id], id)
    requires Own(MarkErrors(origins, round), round)
    requires DistinctKeys(Pool(MarkErrors(origins, round), round, w.urls))
    ensures forall id :: id in w.lists ==>
              Accounted(w, emitted + PageOf(origins, round, w.urls, w.limit).items,
                        NextOrigins(origins, round, w.urls, w.limit)[id], id)
  {
    hide Accounted, Own, DistinctKeys;
    forall id | id in w.lists
      ensures Accounted(w, emitted + PageOf(origins, round, w.urls, w.limit).items,
                        NextOrigins(origins, round, w.urls, w.limit)[id], id)
    {
      HonestEach(w, origins, round, id);
      OriginAccounts(w, emitted, origins, round, id);
    }
  }

  lemma {:induction false} PageNamesOrigins(origins: Origins, round: Round, urls: map<string, string>, limit: nat)
    requires Own(MarkErrors(origins, round), round) && "" !in origins
    ensures forall x :: x in PageOf(origins, round, urls, limit).items ==> OriginOf(x) in origins
  {
    forall x | x in PageOf(origins, round, urls, limit).items ensures OriginOf(x) in origins {
      PageFromPool(origins, round, urls, limit, x);
      PoolFileable(MarkErrors(origins, round), round, urls, x);
    }
  }

  lemma {:induction false} PageFromPool(origins: Origins, round: Round, urls: map<string, string>, limit: nat, x: Item)
    requires x in PageOf(origins, round, urls, limit).items
    ensures x in Pool(MarkErrors(origins, round), round, urls)
  {
    var pool := Pool(MarkErrors(origins, round), round, urls);
    PageIsTheBest(origins, round, urls, limit);
    DedupNoLonger(pool, {});
    assert x in multiset(PageOf(origins, round, urls, limit).items);
    assert x in multiset(Dedup(pool, {}));
    assert x in multiset(pool);
  }

  /** No loss and no repeat, whatever fetches fail: at every point of a session each origin's
      emitted and stashed items are exactly its list up to the saved position. */
  lemma {:induction false} NoLossNoRepeat(w: World, rounds: seq<Round>)
    requires Catalog(w) && Session(w, rounds)
    ensures var t := Run(w, rounds); AllAccounted(w, Flatten(t.pages), t.origins)
  {
    hide AllAccounted, Catalog, HonestRound, AnyMore, Flatten, NextOrigins, PageOf;
    if rounds == [] {
      StartAccounted(w);
    } else {
      var first := rounds[..|rounds| - 1];
      NoLossNoRepeat(w, first);
      var t := Run(w, first);
      var round := rounds[|rounds| - 1];
      PageAccounts(w, Flatten(t.pages), t.origins, round);
      FlattenSnoc(t.pages, PageOf(t.origins, round, w.urls, w.limit).items);
    }
  }

  lemma {:induction false} StartAccounted(w: World)
    ensures AllAccounted(w, Flatten(Run(w, []).pages), Run(w, []).origins)
  {
    forall id | id in w.lists ensures Accounted(w, [], FRESH, id) {}
  }

  lemma {:induction false} FlattenSnoc(ls: seq<seq<Item>>, l: seq<Item>)
    ensures Flatten(ls + [l]) == Flatten(ls) + l
  {
    FlattenAppend(ls, [l]);
    assert [l][1..] == [];
  }

  lemma {:induction false} PublishedFiled(w: World)
    requires Attributed(w)
    ensures FiledBy(Published(w), Sorted(w.lists.Keys))
  {
    var ids := Sorted(w.lists.Keys);
    forall i | 0 <= i < |ids| ensures AllFrom(Published(w)[i], ids[i]) {
      TagAllFrom(w.lists[ids[i]], ids[i], UrlOf(w.urls, ids[i]));
    }
  }

  lemma {:induction false} OnlyPublished(w: World, id: string)
    requires Attributed(w) && id in w.lists
    ensures Only(Flatten(Published(w)), id) == PublishedBy(w, id)
  {
    var ids := Sorted(w.lists.Keys);
    assert id in ids;
    var j :| 0 <= j < |ids| && ids[j] == id;
    PublishedFiled(w);
    OnlyFlatten(Published(w), ids, j);
  }

  /** No key is shown twice in a session. */
  lemma {:induction false} NoKeyTwice(w: World, rounds: seq<Round>)
    requires Catalog(w) && Session(w, rounds)
    ensures DistinctKeys(Flatten(Run(w, rounds).pages))
  {
    NoLossNoRepeat(w, rounds);
    assert DistinctKeys(Flatten(Published(w)));
    hide Run, Session, Flatten, Only, Catalog, Accounted, PublishedBy, Published, OriginOf, DistinctKeys;
    var t := Run(w, rounds);
    var e, all := Flatten(t.pages), Flatten(Published(w));
    forall x ensures multiset(e)[x] <= multiset(all)[x] {
      if x in e {
        var id := OriginOf(x);
        OnlyCount(e, id, x);
        OnlyCount(all, id, x);
        OnlyPublished(w, id);
        ShownWithin(w, e, t.origins[id], id, x);
      }
    }
    DistinctWithin(e, all);
  }

  lemma {:induction false} ShownWithin(w: World, emitted: seq<Item>, oc: OriginCursor, id: string, x: Item)
    requires id in w.lists && Accounted(w, emitted, oc, id)
    ensures multiset(Only(emitted, id))[x] <= multiset(PublishedBy(w, id))[x]
  {
    PrefixBag(PublishedBy(w, id), Pos(oc, w.lists[id]), x);
    assert multiset(Only(emitted, id))[x] <= multiset(PublishedBy(w, id)[..Pos(oc, w.lists[id])])[x];
  }

  lemma {:induction false} PrefixBag(s: seq<Item>, n: nat, x: Item)
    requires n <= |s|
    ensures multiset(s[..n])[x] <= multiset(s)[x]
  {
    assert s == s[..n] + s[n..];
  }

  /** A session that has ended, failures or not, delivered every published item exactly once. */
  lemma {:induction false} EndedSessionIsComplete(w: World, rounds: seq<Round>)
    requires Catalog(w) && Session(w, rounds) && !AnyMore(Run(w, rounds).origins)
    ensures multiset(Flatten(Run(w, rounds).pages)) == multiset(Flatten(Published(w)))
  {
    NoLossNoRepeat(w, rounds);
    assert Attributed(w);
    hide *;
    AccountedComplete(w, Flatten(Run(w, rounds).pages), Run(w, rounds).origins);
  }

  /** What accounts for all origins' lists up to their ends is all that is published. */
  lemma {:induction false} AccountedComplete(w: World, emitted: seq<Item>, origins: Origins)
    requires Attributed(w) && AllAccounted(w, emitted, origins) && !AnyMore(origins)
    ensures multiset(emitted) == multiset(Flatten(Published(w)))
  {
    PublishedFiled(w);
    hide Flatten, Only, FiledBy, PublishedBy, Published, Attributed;
    var all := Flatten(Published(w));
    forall x ensures multiset(emitted)[x] == multiset(all)[x] {
      var id := OriginOf(x);
      OnlyCount(emitted, id, x);
      OnlyCount(all, id, x);
      if id in w.lists {
        OnlyPublished(w, id);
        assert !origins[id].HasMore();
        DrainedBag(w, emitted, origins[id], id);
      } else {
        OnlyFlattenStranger(Published(w), Sorted(w.lists.Keys), id);
        assert x !in multiset(emitted);
      }
    }
  }

  lemma {:induction false} DrainedBag(w: World, emitted: seq<Item>, oc: OriginCursor, id: string)
    requires id in w.lists && Accounted(w, emitted, oc, id) && !oc.HasMore() && !oc.Retired()
    ensures multiset(Only(emitted, id)) == multiset(PublishedBy(w, id))
  {
    assert PublishedBy(w, id)[..|w.lists[id]|] == PublishedBy(w, id);
  }

  // ----- The stash bound -----

  ghost predicate PoliteRound(origins: Origins, round: Round, limit: nat) {
    && round.Keys == ToFetch(origins, limit)
    && forall id :: id in round && round[id].Fetched? ==>
         |round[id].items| <= limit && forall x :: x in round[id].items ==> Unclaimed(x, id)
  }

  ghost predicate PoliteSession(w: World, rounds: seq<Round>) {
    rounds == [] ||
    (PoliteSession(w, rounds[..|rounds| - 1]) &&
     PoliteRound(Run(w, rounds[..|rounds| - 1]).origins, rounds[|rounds| - 1], w.limit))
  }

  /** Upstreams that honour the limit keep every stash below twice the limit, failures and
      duplicates included. */
  lemma {:induction false} StashBound(w: World, rounds: seq<Round>, id: string)
    requires PoliteSession(w, rounds) && id in w.lists && w.limit > 0
    ensures id in Run(w, rounds).origins
    ensures |Run(w, rounds).origins[id].stash| <= 2 * w.limit - 1
    ensures AllFrom(Run(w, rounds).origins[id].stash, id)
  {
    RunKeys(w, rounds);
    if rounds != [] {
      var first := rounds[..|rounds| - 1];
      var origins := Run(w, first).origins;
      RunKeys(w, first);
      forall o | o in origins ensures AllFrom(origins[o].stash, o) && |origins[o].stash| <= 2 * w.limit - 1 {
        StashBound(w, first, o);
      }
      PoliteStep(origins, rounds[|rounds| - 1], w.urls, w.limit, id);
    }
  }

  lemma {:induction false} PoliteStep(origins: Origins, round: Round, urls: map<string, string>, limit: nat, id: string)
    requires PoliteRound(origins, round, limit) && id in origins && limit > 0
    requires forall o :: o in origins ==> AllFrom(origins[o].stash, o)
    requires |origins[id].stash| <= 2 * limit - 1
    ensures |NextOrigins(origins, round, urls, limit)[id].stash| <= 2 * limit - 1
    ensures AllFrom(NextOrigins(origins, round, urls, limit)[id].stash, id)
  {
    hide Own, AllFrom, MarkErrors, Ranked;
    PoliteOwn(origins, round, limit);
    StashWithin(origins, round, urls, limit, id);
    CombinedBound(origins, round, limit, id);
  }

  lemma {:induction false} CombinedBound(origins: Origins, round: Round, limit: nat, id: string)
    requires PoliteRound(origins, round, limit) && id in origins && |origins[id].stash| <= 2 * limit - 1
    ensures |Combined(MarkErrors(origins, round), round, id)| <= 2 * limit - 1
  {
    if id in round { assert id in ToFetch(origins, limit); }
  }

  lemma {:induction false} PoliteOwn(origins: Origins, round: Round, limit: nat)
    requires PoliteRound(origins, round, limit)
    requires forall o :: o in origins ==> AllFrom(origins[o].stash, o)
    ensures Own(MarkErrors(origins, round), round)
  {
    forall o | o in origins
      ensures forall x :: x in Combined(MarkErrors(origins, round), round, o) ==> Unclaimed(x, o)
    {
      FromIsUnclaimed(origins[o].stash, o);
    }
  }
}
