/**
 Sessions end: every page without a failed fetch uses up something, so a chain of next
 cursors is no longer than what there is to deliver, plus the pages that had a failure.
 (internal/federation/cursor.go: HasMore; internal/federation/pagination.go: Search)
 No assumption is made here about keys, origin links or order.
 */
module Termination {
  import opened Text
  import opened Items
  import opened Merger
  import opened Ordering
  import opened ListMerge
  import opened Cursor
  import opened Pagination
  import opened PageLaws
  import opened Sessions
  import opened Paging

  /** Items not yet fetched, and one for an origin not known to be at its end. */
  function Owed(oc: OriginCursor, list: seq<Item>): int {
    |list| - Pos(oc, list) + if oc.exhausted then 0 else 1
  }

  function OwedBy(w: World, ids: seq<string>, origins: Origins): int
    requires forall i :: 0 <= i < |ids| ==> ids[i] in origins && ids[i] in w.lists
  {
    if ids == [] then 0 else Owed(origins[ids[0]], w.lists[ids[0]]) + OwedBy(w, ids[1..], origins)
  }

  /** Unfetched items, stashed items and origins not known to be at their end. */
  ghost function Measure(w: World, origins: Origins): int
    requires origins.Keys == w.lists.Keys
  {
    SortedIn(origins);
    OwedBy(w, Sorted(origins.Keys), origins) + |Stashed(origins)|
  }

  /** Positions are within the lists and no origin has a strike against it. */
  ghost predicate Sound(w: World, origins: Origins) {
    Placed(w, origins) && forall id :: id in origins ==> origins[id].errorCount == 0
  }

  /** No fetch of the round failed. */
  predicate Calm(round: Round) {
    forall id :: id in round ==> round[id].Fetched?
  }

  /** A fetch returns an item or reports the end. */
  predicate Progressing(round: Round) {
    forall id :: id in round && round[id].Fetched? && round[id].items == [] ==> round[id].next.None?
  }

  // ----- One origin, one page -----

  lemma {:induction false} OriginUsesUp(w: World, origins: Origins, round: Round, id: string)
    requires Sound(w, origins) && HonestRound(w, origins, round) && id in origins
    ensures var next := NextOrigins(origins, round, w.urls, w.limit)[id];
            && |Contribution(MarkErrors(origins, round), round, w.urls, id)| + Owed(next, w.lists[id]) <=
               |origins[id].stash| + Owed(origins[id], w.lists[id])
            && Pos(next, w.lists[id]) <= |w.lists[id]| && next.errorCount == 0
            && (Ended(round, id) ==>
                |Contribution(MarkErrors(origins, round), round, w.urls, id)| + Owed(next, w.lists[id]) <
                |origins[id].stash| + Owed(origins[id], w.lists[id]))
  {
    hide Ranked, Back, Settled, HonestFetch, Contribution, MarkErrors, NextOrigins, Fetchable, FreshItems;
    var back := Back(Ranked(MarkErrors(origins, round), round, w.urls), w.limit);
    HonestEach(w, origins, round, id);
    PositionMoves(w, origins, round, id, back);
    ContributionLength(origins, round, w.urls, id);
    NextAt(origins, round, w.urls, w.limit, id);
    EndsMarked(origins, round, id, back, w.limit);
  }

  lemma {:induction false} ContributionLength(origins: Origins, round: Round, urls: map<string, string>, id: string)
    requires id in origins
    ensures |Contribution(MarkErrors(origins, round), round, urls, id)| <= |origins[id].stash| + |FreshItems(round, id)|
  {
  }

  /** Exhaustion is kept, and a page without a next position brings it. */
  lemma {:induction false} EndsMarked(origins: Origins, round: Round, id: string, back: seq<Item>, limit: nat)
    requires id in origins && origins[id].errorCount == 0
    requires id in round ==> Fetchable(origins[id], limit)
    ensures var next := Settled(MarkErrors(origins, round)[id], round, id, back).Cloned();
            && (origins[id].exhausted ==> next.exhausted)
            && (Ended(round, id) ==> next.exhausted && !origins[id].exhausted)
  {
  }

  ghost predicate Ended(round: Round, id: string) {
    id in round && round[id].Fetched? && round[id].next.None?
  }

  lemma {:induction false} AllUseUp(w: World, ids: seq<string>, origins: Origins, round: Round)
    requires Sound(w, origins) && HonestRound(w, origins, round)
    requires forall i :: 0 <= i < |ids| ==> ids[i] in origins && ids[i] in w.lists
    ensures var next := NextOrigins(origins, round, w.urls, w.limit);
            |Flatten(Contributions(ids, MarkErrors(origins, round), round, w.urls))| + OwedBy(w, ids, next) <=
            |Flatten(Stashes(ids, origins))| + OwedBy(w, ids, origins)
  {
    hide Sound, HonestRound, NextOrigins, MarkErrors, Contribution, Owed, Ended;
    if ids == [] {
      assert Contributions(ids, MarkErrors(origins, round), round, w.urls) == [];
    } else {
      OriginUsesUp(w, origins, round, ids[0]);
      AllUseUp(w, ids[1..], origins, round);
      ConsLengths(ids, origins, round, w.urls);
    }
  }

  lemma {:induction false} ConsLengths(ids: seq<string>, origins: Origins, round: Round, urls: map<string, string>)
    requires ids != [] && forall i :: 0 <= i < |ids| ==> ids[i] in origins
    ensures var marked := MarkErrors(origins, round);
            && |Flatten(Contributions(ids, marked, round, urls))| ==
               |Contribution(marked, round, urls, ids[0])| + |Flatten(Contributions(ids[1..], marked, round, urls))|
            && |Flatten(Stashes(ids, origins))| == |origins[ids[0]].stash| + |Flatten(Stashes(ids[1..], origins))|
  {
    hide Contribution;
    var cs := Contributions(ids, MarkErrors(origins, round), round, urls);
    assert cs[1..] == Contributions(ids[1..], MarkErrors(origins, round), round, urls);
    assert Stashes(ids, origins)[1..] == Stashes(ids[1..], origins);
  }

  /** An origin seen to end makes the loss strict. */
  lemma {:induction false} EndUsesUp(w: World, ids: seq<string>, origins: Origins, round: Round, i: nat)
    requires Sound(w, origins) && HonestRound(w, origins, round)
    requires forall i :: 0 <= i < |ids| ==> ids[i] in origins && ids[i] in w.lists
    requires i < |ids| && Ended(round, ids[i])
    ensures var next := NextOrigins(origins, round, w.urls, w.limit);
            |Flatten(Contributions(ids, MarkErrors(origins, round), round, w.urls))| + OwedBy(w, ids, next) <
            |Flatten(Stashes(ids, origins))| + OwedBy(w, ids, origins)
  {
    hide Sound, HonestRound, NextOrigins, MarkErrors, Contribution, Owed, Ended;
    OriginUsesUp(w, origins, round, ids[0]);
    ConsLengths(ids, origins, round, w.urls);
    if i == 0 {
      AllUseUp(w, ids[1..], origins, round);
    } else {
      EndUsesUp(w, ids[1..], origins, round, i - 1);
    }
  }

  // ----- One page -----

  /** The page and the new stashes hold no more than what was brought. */
  lemma {:induction false} PageNoMoreThanBrought(origins: Origins, round: Round, urls: map<string, string>, limit: nat)
    ensures var page := PageOf(origins, round, urls, limit);
            |page.items| + |Stashed(page.origins)| <= |Pool(MarkErrors(origins, round), round, urls)|
  {
    hide MarkErrors, Stashed, SettleAll, Pool, Dedup, StableSort, Back, Front;
    var marked := MarkErrors(origins, round);
    var pool := Pool(marked, round, urls);
    var ranked := StableSort(Dedup(pool, {}));
    RankedIs(marked, round, urls);
    DedupNoLonger(pool, {});
    FrontBack(ranked, limit);
    StashedNoMore(marked, round, Back(ranked, limit));
  }

  lemma {:induction false} StashedNoMore(marked: Origins, round: Round, back: seq<Item>)
    ensures |Stashed(SettleAll(marked, round, back))| <= |back|
  {
    hide Stashed, SettleAll, Fileable;
    var a, b := multiset(Stashed(SettleAll(marked, round, back))), multiset(back);
    forall x ensures a[x] <= b[x] { StashedCount(marked, round, back, x); }
    assert b == a + (b - a);
  }

  /** A page delivers what the measure loses; a page without failures always loses some. */
  lemma {:induction false} PageDecreases(w: World, origins: Origins, round: Round)
    requires Sound(w, origins) && HonestRound(w, origins, round) && Progressing(round)
    ensures var next := NextOrigins(origins, round, w.urls, w.limit);
            && Sound(w, next)
            && Measure(w, next) + |PageOf(origins, round, w.urls, w.limit).items| <= Measure(w, origins)
            && (Calm(round) && AnyMore(origins) && w.limit > 0 ==> Measure(w, next) < Measure(w, origins))
  {
    var next := NextOrigins(origins, round, w.urls, w.limit);
    SoundAfter(w, origins, round);
    BalanceAfter(w, origins, round);
    if Calm(round) && AnyMore(origins) && w.limit > 0 && PageOf(origins, round, w.urls, w.limit).items == [] {
      EmptyPageEnds(w, origins, round);
    }
  }

  lemma {:induction false} SoundAfter(w: World, origins: Origins, round: Round)
    requires Sound(w, origins) && HonestRound(w, origins, round)
    ensures Sound(w, NextOrigins(origins, round, w.urls, w.limit))
  {
    hide NextOrigins, HonestRound, Contribution, Owed, MarkErrors;
    var next := NextOrigins(origins, round, w.urls, w.limit);
    NextKeys(origins, round, w.urls, w.limit);
    forall id | id in origins ensures Pos(next[id], w.lists[id]) <= |w.lists[id]| && next[id].errorCount == 0 {
      OriginUsesUp(w, origins, round, id);
    }
  }

  lemma {:induction false} BalanceAfter(w: World, origins: Origins, round: Round)
    requires Sound(w, origins) && HonestRound(w, origins, round)
    ensures var next := NextOrigins(origins, round, w.urls, w.limit);
            && next.Keys == w.lists.Keys
            && Measure(w, next) + |PageOf(origins, round, w.urls, w.limit).items| <= Measure(w, origins)
            && ((exists i :: 0 <= i < |Sorted(origins.Keys)| && Ended(round, Sorted(origins.Keys)[i])) ==>
                Measure(w, next) < Measure(w, origins))
  {
    hide HonestRound, Sound, OwedBy, Ended, Flatten, Contribution, Ranked, MarkErrors, SettleAll, Front, Back, Sorted;
    var page, next := PageOf(origins, round, w.urls, w.limit), NextOrigins(origins, round, w.urls, w.limit);
    var ids := Sorted(origins.Keys);
    KeysAgree(w, origins);
    SortedIn(origins);
    AllUseUp(w, ids, origins, round);
    if i: nat :| i < |ids| && Ended(round, ids[i]) { EndUsesUp(w, ids, origins, round, i); }
    PageNoMoreThanBrought(origins, round, w.urls, w.limit);
    StashesCloned(ids, page.origins);
  }

  lemma {:induction false} KeysAgree(w: World, origins: Origins)
    requires Sound(w, origins)
    ensures origins.Keys == w.lists.Keys
  {
  }

  /** A page that stays empty saw some origin's end. */
  lemma {:induction false} EmptyPageEnds(w: World, origins: Origins, round: Round)
    requires Sound(w, origins) && HonestRound(w, origins, round) && Progressing(round) && Calm(round)
    requires AnyMore(origins) && w.limit > 0
    requires PageOf(origins, round, w.urls, w.limit).items == []
    ensures exists i :: 0 <= i < |Sorted(origins.Keys)| && Ended(round, Sorted(origins.Keys)[i])
  {
    var i := SomeActive(origins);
    var id := Sorted(origins.Keys)[i];
    RoundFacts(w, origins, round, id);
    hide *;
    EmptyPagePool(origins, round, w.urls, w.limit, i);
    EmptyContribution(origins, round, w.urls, w.limit, id);
  }

  lemma {:induction false} SomeActive(origins: Origins) returns (i: nat)
    requires AnyMore(origins)
    ensures i < |Sorted(origins.Keys)| && Sorted(origins.Keys)[i] in origins
    ensures origins[Sorted(origins.Keys)[i]].HasMore()
  {
    var id :| id in origins && origins[id].HasMore();
    var ids := Sorted(origins.Keys);
    assert id in ids;
    i :| 0 <= i < |ids| && ids[i] == id;
  }

  lemma {:induction false} RoundFacts(w: World, origins: Origins, round: Round, id: string)
    requires Sound(w, origins) && HonestRound(w, origins, round) && id in origins
    ensures origins[id].errorCount == 0 && round.Keys == ToFetch(origins, w.limit)
  {
  }

  lemma {:induction false} EmptyPagePool(origins: Origins, round: Round, urls: map<string, string>, limit: nat, i: nat)
    requires PageOf(origins, round, urls, limit).items == [] && limit > 0 && i < |Sorted(origins.Keys)|
    ensures Contribution(MarkErrors(origins, round), round, urls, Sorted(origins.Keys)[i]) == []
  {
    var marked := MarkErrors(origins, round);
    PageIsTheBest(origins, round, urls, limit);
    hide PageOf, Contribution, MarkErrors;
    NothingDeduped(Pool(marked, round, urls));
    FlattenEmpty(Contributions(Sorted(marked.Keys), marked, round, urls));
  }

  lemma {:induction false} NothingDeduped(pool: seq<Item>)
    ensures Dedup(pool, {}) == [] <==> pool == []
  {
  }

  lemma {:induction false} EmptyContribution(origins: Origins, round: Round, urls: map<string, string>, limit: nat,
                                             id: string)
    requires id in origins && origins[id].HasMore() && origins[id].errorCount == 0 && limit > 0
    requires round.Keys == ToFetch(origins, limit) && Calm(round) && Progressing(round)
    requires Contribution(MarkErrors(origins, round), round, urls, id) == []
    ensures Ended(round, id)
  {
    var marked := MarkErrors(origins, round);
    assert |Contribution(marked, round, urls, id)| == |Combined(marked, round, id)|;
    assert id in ToFetch(origins, limit) <==> Fetchable(origins[id], limit);
  }

  // ----- The whole session -----

  function Troubled(rounds: seq<Round>): nat {
    if rounds == [] then 0
    else Troubled(rounds[..|rounds| - 1]) + if Calm(rounds[|rounds| - 1]) then 0 else 1
  }

  ghost predicate AllProgressing(rounds: seq<Round>) {
    forall i :: 0 <= i < |rounds| ==> Progressing(rounds[i])
  }

  lemma {:induction false} StartSound(w: World)
    ensures Sound(w, Run(w, []).origins)
  {
  }

  lemma {:induction false} SessionDecreases(w: World, rounds: seq<Round>)
    requires Session(w, rounds) && AllProgressing(rounds) && w.limit > 0
    ensures Sound(w, Run(w, rounds).origins)
    ensures |rounds| + Measure(w, Run(w, rounds).origins) <= Measure(w, Run(w, []).origins) + Troubled(rounds)
    ensures |Flatten(Run(w, rounds).pages)| + Measure(w, Run(w, rounds).origins) <= Measure(w, Run(w, []).origins)
  {
    if rounds == [] {
      StartSound(w);
    } else {
      hide Sound, HonestRound, AnyMore, Measure, NextOrigins, PageOf, Flatten, Calm, Progressing;
      var first, round := rounds[..|rounds| - 1], rounds[|rounds| - 1];
      SessionDecreases(w, first);
      PageDecreases(w, Run(w, first).origins, round);
      FlattenSnoc(Run(w, first).pages, PageOf(Run(w, first).origins, round, w.urls, w.limit).items);
    }
  }

  lemma {:induction false} OwedAtStart(w: World, ids: seq<string>, origins: Origins)
    requires forall i :: 0 <= i < |ids| ==> ids[i] in w.lists && ids[i] in origins && origins[ids[i]] == FRESH
    ensures OwedBy(w, ids, origins) == |Flatten(Listed(w, ids))| + |ids|
    ensures Flatten(Stashes(ids, origins)) == []
  {
    if ids != [] {
      OwedAtStart(w, ids[1..], origins);
      assert Stashes(ids, origins)[1..] == Stashes(ids[1..], origins);
      assert Listed(w, ids)[1..] == Listed(w, ids[1..]);
    }
  }

  lemma {:induction false} OwedNonNegative(w: World, ids: seq<string>, origins: Origins)
    requires Sound(w, origins) && forall i :: 0 <= i < |ids| ==> ids[i] in origins
    ensures OwedBy(w, ids, origins) >= 0
  {
    if ids != [] { OwedNonNegative(w, ids[1..], origins); }
  }

  lemma {:induction false} MeasureNonNegative(w: World, origins: Origins)
    requires Sound(w, origins)
    ensures Measure(w, origins) >= 0
  {
    SortedIn(origins);
    OwedNonNegative(w, Sorted(origins.Keys), origins);
  }

  /** The measure starts out as everything published plus one for every origin. */
  lemma {:induction false} MeasureAtStart(w: World)
    ensures Measure(w, Run(w, []).origins) == |Flatten(Published(w))| + |w.lists|
  {
    FreshMeasure(w, Run(w, []).origins);
  }

  lemma {:induction false} FreshMeasure(w: World, start: Origins)
    requires start.Keys == w.lists.Keys && forall id :: id in start ==> start[id] == FRESH
    ensures Measure(w, start) == |Flatten(Published(w))| + |w.lists|
  {
    hide Flatten, OwedBy, PublishedBy, Stashes;
    var ids := Sorted(w.lists.Keys);
    SortedIn(start);
    OwedAtStart(w, ids, start);
    assert Listed(w, ids) == Published(w);
    IncreasingLength(ids, w.lists.Keys);
    assert |w.lists| == |w.lists.Keys|;
  }

  /** A session has at most as many pages as there are published items, origins, and pages on
      which some fetch failed. */
  lemma {:induction false} SessionsEnd(w: World, rounds: seq<Round>)
    requires Session(w, rounds) && AllProgressing(rounds) && w.limit > 0
    ensures |rounds| <= |Flatten(Published(w))| + |w.lists| + Troubled(rounds)
  {
    hide *;
    RunKeys(w, rounds);
    RunKeys(w, []);
    SessionDecreases(w, rounds);
    MeasureAtStart(w);
    MeasureNonNegative(w, Run(w, rounds).origins);
  }

  // ----- Complete sessions exist -----

  /** The answer of an origin that returns a page full, or all it has left. */
  function FullFetch(oc: OriginCursor, list: seq<Item>, limit: nat): (f: Fetch)
    requires Start(oc) <= |list|
    ensures HonestFetch(oc, list, f) && AmpleFetch(oc, list, f, limit)
    ensures 0 < limit && f.items == [] ==> f.next.None?
  {
    var p := Start(oc);
    var q := p + Min(limit, |list| - p);
    Fetched(list[p..q], if q == |list| then None else Some(q))
  }

  ghost function FullRound(w: World, origins: Origins): Round
    requires Placed(w, origins)
  {
    map id | id in ToFetch(origins, w.limit) :: FullFetch(origins[id], w.lists[id], w.limit)
  }

  /** At every cursor the origins can answer without failing or falling short. */
  lemma {:induction false} FullRoundAnswers(w: World, origins: Origins)
    requires Placed(w, origins) && 0 < w.limit
    ensures var round := FullRound(w, origins);
            HonestRound(w, origins, round) && Ample(w, origins, round) && Progressing(round) && Calm(round)
  {
    hide FullFetch;
  }

  /** Any ample session can be carried to its end, in no more pages than its measure allows. */
  lemma {:induction false} CarriesOn(w: World, rounds: seq<Round>, origins: Origins, n: nat) returns (all: seq<Round>)
    requires 0 < w.limit && AmpleSession(w, rounds) && AllProgressing(rounds) && origins == Run(w, rounds).origins
    requires Sound(w, origins) && Measure(w, origins) <= n
    ensures AmpleSession(w, all) && !AnyMore(Run(w, all).origins)
    decreases n
  {
    hide *;
    if AnyMore(origins) {
      SoundPlaced(w, origins);
      FullRoundAnswers(w, origins);
      var round := FullRound(w, origins);
      var next := NextOrigins(origins, round, w.urls, w.limit);
      PageDecreases(w, origins, round);
      OneMoreRound(w, rounds, round);
      MeasureNonNegative(w, next);
      all := CarriesOn(w, rounds + [round], next, n - 1);
    } else {
      all := rounds;
    }
  }

  lemma {:induction false} SoundPlaced(w: World, origins: Origins)
    requires Sound(w, origins)
    ensures Placed(w, origins)
  {
  }

  lemma {:induction false} OneMoreRound(w: World, rounds: seq<Round>, round: Round)
    requires AmpleSession(w, rounds) && AllProgressing(rounds) && AnyMore(Run(w, rounds).origins) && Progressing(round)
    requires HonestRound(w, Run(w, rounds).origins, round) && Ample(w, Run(w, rounds).origins, round)
    ensures AmpleSession(w, rounds + [round]) && AllProgressing(rounds + [round])
    ensures Run(w, rounds + [round]).origins == NextOrigins(Run(w, rounds).origins, round, w.urls, w.limit)
  {
    hide AmpleSession, AnyMore, HonestRound, Ample, PageOf, NextOrigins, Progressing;
    OneMorePage(w, rounds, round, Run(w, rounds).origins);
  }

  /** For every catalogue there is a session that runs to its end without failures. */
  lemma {:induction false} CompleteSessionExists(w: World)
    requires 0 < w.limit
    ensures exists rounds :: AmpleSession(w, rounds) && !AnyMore(Run(w, rounds).origins)
  {
    assert AmpleSession(w, []) && AllProgressing([]);
    StartSound(w);
    hide *;
    var origins := Run(w, []).origins;
    MeasureNonNegative(w, origins);
    var rounds := CarriesOn(w, [], origins, Measure(w, origins));
  }
}
