/**
 Paging refines sorting: without failed fetches, the pages of a session are the stable sort
 of everything the origins publish, cut into pages of the limit.
 (internal/federation/pagination.go: Search, mergeResults)
 */
module Paging {
  import opened Text
  import opened Items
  import opened Ordering
  import opened Merger
  import opened ListMerge
  import opened Cursor
  import opened Pagination
  import opened PageLaws
  import opened Sessions

  // ----- The reference: a sorted list cut into pages -----

  /** What is left of `s` after `n` pages. */
  function AfterPages(s: seq<Item>, limit: nat, n: nat): seq<Item> {
    if n == 0 then s else Back(AfterPages(s, limit, n - 1), limit)
  }

  /** The first `n` pages of `s`. */
  function CutPages(s: seq<Item>, limit: nat, n: nat): (r: seq<seq<Item>>)
    ensures |r| == n
  {
    if n == 0 then [] else CutPages(s, limit, n - 1) + [Front(AfterPages(s, limit, n - 1), limit)]
  }

  lemma {:induction false} CutPagesWhole(s: seq<Item>, limit: nat, n: nat)
    ensures Flatten(CutPages(s, limit, n)) + AfterPages(s, limit, n) == s
  {
    if n != 0 {
      hide Front, Back, Flatten;
      CutPagesWhole(s, limit, n - 1);
      var rest := AfterPages(s, limit, n - 1);
      FlattenSnoc(CutPages(s, limit, n - 1), Front(rest, limit));
      FrontBack(rest, limit);
      Assoc(Flatten(CutPages(s, limit, n - 1)), Front(rest, limit), Back(rest, limit));
    }
  }

  // ----- What an origin still has to deliver -----

  function RemainingOf(w: World, oc: OriginCursor, id: string): seq<Item>
    requires id in w.lists && Pos(oc, w.lists[id]) <= |w.lists[id]|
  {
    oc.stash + PublishedBy(w, id)[Pos(oc, w.lists[id])..]
  }

  ghost predicate Placed(w: World, origins: Origins) {
    origins.Keys == w.lists.Keys &&
    forall id :: id in w.lists ==> Pos(origins[id], w.lists[id]) <= |w.lists[id]|
  }

  ghost function Remaining(w: World, origins: Origins): (r: seq<seq<Item>>)
    requires Placed(w, origins)
    ensures |r| == |Sorted(w.lists.Keys)|
    ensures forall i :: 0 <= i < |r| ==>
              r[i] == RemainingOf(w, origins[Sorted(w.lists.Keys)[i]], Sorted(w.lists.Keys)[i])
  {
    var ids := Sorted(w.lists.Keys);
    assert forall i :: 0 <= i < |ids| ==> ids[i] in ids && ids[i] in w.lists;
    seq(|ids|, i requires 0 <= i < |ids| => RemainingOf(w, origins[ids[i]], ids[i]))
  }

  /** A fetch that returns a page full, or all there is. */
  predicate AmpleFetch(oc: OriginCursor, list: seq<Item>, f: Fetch, limit: nat) {
    f.Fetched? && |f.items| >= Min(limit, |list| - Start(oc))
  }

  /** No fetch fails or falls short. */
  predicate Ample(w: World, origins: Origins, round: Round) {
    forall id :: id in round ==>
      id in origins && id in w.lists && AmpleFetch(origins[id], w.lists[id], round[id], w.limit)
  }

  /** Every origin publishes in page order. */
  ghost predicate Ordered(w: World) {
    forall id :: id in w.lists ==> InOrder(w.lists[id])
  }

  lemma {:induction false} PublishedInOrder(w: World, id: string)
    requires id in w.lists && InOrder(w.lists[id])
    ensures InOrder(PublishedBy(w, id))
  {
    var list, all := w.lists[id], PublishedBy(w, id);
    forall i, j | 0 <= i < j < |all| ensures !Before(all[j], all[i]) {
      assert all[i] == Tag(list[i], id, UrlOf(w.urls, id)) && all[j] == Tag(list[j], id, UrlOf(w.urls, id));
      assert !Before(list[j], list[i]);
    }
  }

  /** What origin `id` brings to a page is the front of what it still has to deliver, and
      either all of it or at least a page full. */
  lemma {:induction false} BringsEnough(w: World, origins: Origins, round: Round, id: string)
    requires id in w.lists && id in origins && id != ""
    requires AllFrom(origins[id].stash, id) && origins[id].errorCount == 0
    requires Pos(origins[id], w.lists[id]) <= |w.lists[id]|
    requires HonestAt(w, origins, round, id)
    requires Fetchable(origins[id], w.limit) ==> id in round && AmpleFetch(origins[id], w.lists[id], round[id], w.limit)
    ensures var p := Pos(origins[id], w.lists[id]) + |FreshItems(round, id)|;
            var brought := Contribution(MarkErrors(origins, round), round, w.urls, id);
            && p <= |w.lists[id]|
            && RemainingOf(w, origins[id], id) == brought + PublishedBy(w, id)[p..]
            && (PublishedBy(w, id)[p..] == [] || w.limit <= |brought|)
  {
    hide AllFrom, Contribution, MarkErrors, Settled;
    PositionMoves(w, origins, round, id, []);
    ContributionIs(origins, round, w.urls, id, w.limit);
    var p, n := Pos(origins[id], w.lists[id]), |FreshItems(round, id)|;
    TagSlice(w, id, p, n);
    SplitTail(origins[id].stash, PublishedBy(w, id), p, n);
  }

  lemma {:induction false} TagSlice(w: World, id: string, p: nat, n: nat)
    requires id in w.lists && p + n <= |w.lists[id]|
    ensures TagAll(w.lists[id][p..p + n], id, UrlOf(w.urls, id)) == PublishedBy(w, id)[p..p + n]
  {
  }

  lemma {:induction false} SplitTail(stash: seq<Item>, all: seq<Item>, p: nat, n: nat)
    requires p + n <= |all|
    ensures stash + all[p..] == (stash + all[p..p + n]) + all[p + n..]
  {
    assert all[p..] == all[p..p + n] + all[p + n..];
  }

  /** The unfetched part of every list. */
  ghost function Tails(w: World, origins: Origins): (r: seq<seq<Item>>)
    requires Placed(w, origins)
    ensures |r| == |Sorted(w.lists.Keys)|
    ensures forall i :: 0 <= i < |r| ==>
              var id := Sorted(w.lists.Keys)[i]; r[i] == PublishedBy(w, id)[Pos(origins[id], w.lists[id])..]
  {
    var ids := Sorted(w.lists.Keys);
    assert forall i :: 0 <= i < |ids| ==> ids[i] in ids && ids[i] in w.lists;
    seq(|ids|, i requires 0 <= i < |ids| => PublishedBy(w, ids[i])[Pos(origins[ids[i]], w.lists[ids[i]])..])
  }

  // ----- One page -----

  /** Where every contribution is whole or a page long, sorting the contributions and cutting
      off a page does what the merge of the full lists would do. */
  lemma {:induction false} CutStep(segs: seq<seq<Item>>, tails: seq<seq<Item>>, ids: seq<string>, limit: nat)
    requires |segs| == |tails| && FiledBy(segs, ids) && Increasing(ids)
    requires EachInOrder(Join(segs, tails))
    requires forall i :: 0 <= i < |segs| ==> tails[i] == [] || limit <= |segs[i]|
    ensures var ranked, all := StableSort(Flatten(segs)), Join(segs, tails);
            var k := Min(limit, |ranked|);
            && Front(ranked, limit) == Front(Merge(all), limit)
            && Merge(Rest(all, k)) == Back(Merge(all), limit)
            && EachInOrder(Rest(all, k))
            && forall i :: 0 <= i < |segs| ==> Only(Back(ranked, limit), ids[i]) + tails[i] == Rest(all, k)[i]
  {
    var ranked, all := StableSort(Flatten(segs)), Join(segs, tails);
    var k := Min(limit, |ranked|);
    FrontsInOrder(segs, tails);
    MergeIsSort(segs);
    FrontSuffices(segs, tails, k);
    SameCut(segs, tails, limit);
    MergeRest(all, k);
    RestInOrder(all, k);
    MergeRest(segs, k);
    RestFiled(segs, ids, k);
    forall i | 0 <= i < |segs| ensures Only(Back(ranked, limit), ids[i]) == Rest(segs, k)[i] {
      OnlyMerge(Rest(segs, k), ids, i);
    }
  }

  lemma {:induction false} FrontsInOrder(segs: seq<seq<Item>>, tails: seq<seq<Item>>)
    requires |segs| == |tails| && EachInOrder(Join(segs, tails))
    ensures EachInOrder(segs)
  {
    var all := Join(segs, tails);
    forall m | 0 <= m < |segs| ensures InOrder(segs[m]) {
      assert InOrder(all[m]);
      assert all[m] == segs[m] + tails[m];
      forall i, j | 0 <= i < j < |segs[m]| ensures !Before(segs[m][j], segs[m][i]) {
        assert all[m][i] == segs[m][i] && all[m][j] == segs[m][j];
      }
    }
  }

  /** A page that the contributions do not fill takes everything there is. */
  lemma {:induction false} SameCut(segs: seq<seq<Item>>, tails: seq<seq<Item>>, limit: nat)
    requires |segs| == |tails|
    requires forall i :: 0 <= i < |segs| ==> tails[i] == [] || limit <= |segs[i]|
    requires Min(limit, |Flatten(segs)|) <= |Flatten(Join(segs, tails))|
    ensures Min(limit, |Flatten(segs)|) == Min(limit, |Flatten(Join(segs, tails))|)
  {
    if |Flatten(segs)| < limit {
      forall i | 0 <= i < |segs| ensures segs[i] + tails[i] == segs[i] {
        FlattenAt(segs, i);
        assert tails[i] == [];
      }
      assert Join(segs, tails) == segs;
    }
  }

  /** The stash a page leaves is the part of the remainder filed under the origin. */
  lemma {:induction false} StashIsOnly(origins: Origins, round: Round, urls: map<string, string>, limit: nat,
                                       id: string)
    requires id in origins && id != "" && Own(MarkErrors(origins, round), round)
    ensures NextOrigins(origins, round, urls, limit)[id].stash ==
            Only(Back(Ranked(MarkErrors(origins, round), round, urls), limit), id)
  {
    hide Ranked, Back, NextOrigins, MarkErrors, Own, Only;
    var marked := MarkErrors(origins, round);
    NextAt(origins, round, urls, limit, id);
    if !marked[id].HasMore() { NothingWithin(marked, round, urls, limit, id); }
  }

  lemma {:induction false} NothingWithin(marked: Origins, round: Round, urls: map<string, string>, limit: nat,
                                         id: string)
    requires id in marked && !marked[id].HasMore() && Own(marked, round)
    ensures Only(Back(Ranked(marked, round, urls), limit), id) == []
  {
    OnlyPool(marked, round, urls, id);
    DedupNoLonger(Pool(marked, round, urls), {});
    BackWithin(Ranked(marked, round, urls), limit, Pool(marked, round, urls));
    OnlyShorter(Back(Ranked(marked, round, urls), limit), Pool(marked, round, urls), id);
  }

  /** The page is the front of the merge of all that remains, and what remains afterwards is
      the rest of it. */
  lemma {:induction false} PageCutsMerge(w: World, emitted: seq<Item>, origins: Origins, round: Round)
    requires Catalog(w) && AllAccounted(w, emitted, origins) && HonestRound(w, origins, round)
             && Ample(w, origins, round)
    requires Placed(w, origins) && EachInOrder(Remaining(w, origins))
    ensures var next := NextOrigins(origins, round, w.urls, w.limit);
            && Placed(w, next)
            && PageOf(origins, round, w.urls, w.limit).items == Front(Merge(Remaining(w, origins)), w.limit)
            && Merge(Remaining(w, next)) == Back(Merge(Remaining(w, origins)), w.limit)
            && EachInOrder(Remaining(w, next))
  {
    AccountedFacts(w, emitted, origins);
    OwnInSession(w, emitted, origins, round);
    PoolDistinct(w, emitted, origins, round);
    PageAccounts(w, emitted, origins, round);
    AccountedFacts(w, emitted + PageOf(origins, round, w.urls, w.limit).items,
                   NextOrigins(origins, round, w.urls, w.limit));
    assert "" !in w.lists;
    hide *;
    CutOf(w, origins, round);
  }

  lemma {:induction false} AccountedFacts(w: World, emitted: seq<Item>, origins: Origins)
    requires AllAccounted(w, emitted, origins)
    ensures Placed(w, origins)
    ensures Tidy(origins)
  {
  }

  /** Stashes hold own items, and no origin has a strike against it. */
  ghost predicate Tidy(origins: Origins) {
    forall id :: id in origins ==> AllFrom(origins[id].stash, id) && origins[id].errorCount == 0
  }

  lemma {:induction false} CutOf(w: World, origins: Origins, round: Round)
    requires "" !in w.lists && Placed(w, origins) && Tidy(origins) && HonestRound(w, origins, round)
             && Ample(w, origins, round)
    requires Own(MarkErrors(origins, round), round) && DistinctKeys(Pool(MarkErrors(origins, round), round, w.urls))
    requires Placed(w, NextOrigins(origins, round, w.urls, w.limit)) && EachInOrder(Remaining(w, origins))
    ensures var next := NextOrigins(origins, round, w.urls, w.limit);
            && PageOf(origins, round, w.urls, w.limit).items == Front(Merge(Remaining(w, origins)), w.limit)
            && Merge(Remaining(w, next)) == Back(Merge(Remaining(w, origins)), w.limit)
            && EachInOrder(Remaining(w, next))
  {
    hide *;
    var marked, next := MarkErrors(origins, round), NextOrigins(origins, round, w.urls, w.limit);
    var ids := Sorted(w.lists.Keys);
    var segs := Contributions(ids, marked, round, w.urls);
    KeysPlaced(w, origins);
    PoolIs(marked, round, w.urls);
    RankedIs(marked, round, w.urls);
    PageIs(origins, round, w.urls, w.limit);
    SortsPool(Flatten(segs));
    ContributionsFiled(ids, marked, round, w.urls);
    RemainingSplits(w, origins, round);
    RemainingAfter(w, origins, round);
    CutGlue(Remaining(w, origins), Remaining(w, next), segs, Tails(w, next), ids, w.limit);
  }

  lemma {:induction false} KeysPlaced(w: World, origins: Origins)
    requires Placed(w, origins)
    ensures origins.Keys == w.lists.Keys
  {
  }

  lemma {:induction false} PoolIs(marked: Origins, round: Round, urls: map<string, string>)
    ensures Pool(marked, round, urls) == Flatten(Contributions(Sorted(marked.Keys), marked, round, urls))
  {
  }

  lemma {:induction false} PageIs(origins: Origins, round: Round, urls: map<string, string>, limit: nat)
    ensures PageOf(origins, round, urls, limit).items == Front(Ranked(MarkErrors(origins, round), round, urls), limit)
  {
  }

  lemma {:induction false} CutGlue(before: seq<seq<Item>>, after: seq<seq<Item>>, segs: seq<seq<Item>>,
                                   tails: seq<seq<Item>>, ids: seq<string>, limit: nat)
    requires |segs| == |tails| == |after| && FiledBy(segs, ids) && Increasing(ids)
    requires before == Join(segs, tails) && EachInOrder(before)
    requires forall i :: 0 <= i < |segs| ==> tails[i] == [] || limit <= |segs[i]|
    requires forall i :: 0 <= i < |segs| ==> after[i] == Only(Back(StableSort(Flatten(segs)), limit), ids[i]) + tails[i]
    ensures Front(StableSort(Flatten(segs)), limit) == Front(Merge(before), limit)
    ensures Merge(after) == Back(Merge(before), limit) && EachInOrder(after)
  {
    hide FiledBy, Increasing, EachInOrder, Merge, StableSort, Flatten, Only, Front, Back, Join;
    CutStep(segs, tails, ids, limit);
    assert after == Rest(before, Min(limit, |StableSort(Flatten(segs))|));
  }

  lemma {:induction false} SortsPool(pool: seq<Item>)
    requires DistinctKeys(pool)
    ensures StableSort(Dedup(pool, {})) == StableSort(pool)
  {
    DedupIdentity(pool, {});
  }

  /** What remains is what is brought and what stays unfetched. */
  lemma {:induction false} RemainingSplits(w: World, origins: Origins, round: Round)
    requires "" !in w.lists && Placed(w, origins) && Tidy(origins) && HonestRound(w, origins, round)
             && Ample(w, origins, round)
    requires Placed(w, NextOrigins(origins, round, w.urls, w.limit))
    ensures var segs := Contributions(Sorted(w.lists.Keys), MarkErrors(origins, round), round, w.urls);
            var tails := Tails(w, NextOrigins(origins, round, w.urls, w.limit));
            && Remaining(w, origins) == Join(segs, tails)
            && forall i :: 0 <= i < |segs| ==> tails[i] == [] || w.limit <= |segs[i]|
  {
    hide Contribution, NextOrigins, Pos, HonestRound, Ample, PublishedBy, MarkErrors, AllFrom;
    var next := NextOrigins(origins, round, w.urls, w.limit);
    var ids := Sorted(w.lists.Keys);
    var segs, tails := Contributions(ids, MarkErrors(origins, round), round, w.urls), Tails(w, next);
    forall i | 0 <= i < |ids|
      ensures Remaining(w, origins)[i] == segs[i] + tails[i]
      ensures tails[i] == [] || w.limit <= |segs[i]|
    {
      SplitAt(w, origins, round, ids[i]);
    }
  }

  lemma {:induction false} SplitAt(w: World, origins: Origins, round: Round, id: string)
    requires id in w.lists && id in origins && id != "" && HonestRound(w, origins, round) && Ample(w, origins, round)
    requires Pos(origins[id], w.lists[id]) <= |w.lists[id]|
    requires AllFrom(origins[id].stash, id) && origins[id].errorCount == 0
    ensures var next := NextOrigins(origins, round, w.urls, w.limit)[id];
            var brought := Contribution(MarkErrors(origins, round), round, w.urls, id);
            && Pos(next, w.lists[id]) <= |w.lists[id]|
            && var tail := PublishedBy(w, id)[Pos(next, w.lists[id])..];
               RemainingOf(w, origins[id], id) == brought + tail && (tail == [] || w.limit <= |brought|)
  {
    hide *;
    HonestEach(w, origins, round, id);
    FetchedAmply(w, origins, round, id);
    BringsEnough(w, origins, round, id);
    PositionMoves(w, origins, round, id, Back(Ranked(MarkErrors(origins, round), round, w.urls), w.limit));
    NextAt(origins, round, w.urls, w.limit, id);
    NextStash(origins, round, w.urls, w.limit, id);
    PublishedIs(w, id);
  }

  lemma {:induction false} FetchedAmply(w: World, origins: Origins, round: Round, id: string)
    requires HonestRound(w, origins, round) && Ample(w, origins, round) && id in origins && id in w.lists
    ensures Fetchable(origins[id], w.limit) ==> id in round && AmpleFetch(origins[id], w.lists[id], round[id], w.limit)
  {
    hide AmpleFetch, HonestFetch;
    assert Fetchable(origins[id], w.limit) ==> id in ToFetch(origins, w.limit);
  }

  /** What remains after the page: the new stashes and what stays unfetched. */
  lemma {:induction false} RemainingAfter(w: World, origins: Origins, round: Round)
    requires origins.Keys == w.lists.Keys && "" !in w.lists && Own(MarkErrors(origins, round), round)
    requires Placed(w, NextOrigins(origins, round, w.urls, w.limit))
    ensures var next := NextOrigins(origins, round, w.urls, w.limit);
            var back := Back(Ranked(MarkErrors(origins, round), round, w.urls), w.limit);
            forall i :: 0 <= i < |Sorted(w.lists.Keys)| ==>
              Remaining(w, next)[i] == Only(back, Sorted(w.lists.Keys)[i]) + Tails(w, next)[i]
  {
    var ids := Sorted(w.lists.Keys);
    var next := NextOrigins(origins, round, w.urls, w.limit);
    hide NextOrigins, Ranked, Back, Own, Only;
    forall i | 0 <= i < |ids|
      ensures Remaining(w, next)[i] ==
              Only(Back(Ranked(MarkErrors(origins, round), round, w.urls), w.limit), ids[i]) + Tails(w, next)[i]
    {
      assert ids[i] in ids;
      StashIsOnly(origins, round, w.urls, w.limit, ids[i]);
    }
  }

  // ----- The whole session -----

  ghost predicate AmpleSession(w: World, rounds: seq<Round>) {
    Session(w, rounds) &&
    (rounds == [] ||
     (var before := rounds[..|rounds| - 1];
      AmpleSession(w, before) && Ample(w, Run(w, before).origins, rounds[|rounds| - 1])))
  }

  lemma {:induction false} OneMorePage(w: World, rounds: seq<Round>, round: Round, origins: Origins)
    requires AmpleSession(w, rounds) && Run(w, rounds).origins == origins && AnyMore(origins)
    requires HonestRound(w, origins, round) && Ample(w, origins, round)
    ensures AmpleSession(w, rounds + [round])
    ensures Run(w, rounds + [round]).pages == Run(w, rounds).pages + [PageOf(origins, round, w.urls, w.limit).items]
    ensures Run(w, rounds + [round]).origins == NextOrigins(origins, round, w.urls, w.limit)
  {
    hide AnyMore, HonestRound, Ample, PageOf, NextOrigins;
    assert (rounds + [round])[..|rounds|] == rounds;
  }

  /** The sorted union of all origins' lists: ties go to the smaller origin id and, within an
      origin, to the earlier item. */
  ghost function SortedUnion(w: World): seq<Item> {
    StableSort(Flatten(Published(w)))
  }

  /** After `n` pages: the pages are the first `n` of the sorted union, and the merge of what
      remains is the rest of it. */
  ghost predicate OnCourse(w: World, t: Trail, n: nat) {
    && Placed(w, t.origins)
    && t.pages == CutPages(SortedUnion(w), w.limit, n)
    && Merge(Remaining(w, t.origins)) == AfterPages(SortedUnion(w), w.limit, n)
    && EachInOrder(Remaining(w, t.origins))
  }

  lemma {:induction false} SessionOnCourse(w: World, rounds: seq<Round>)
    requires Catalog(w) && Ordered(w) && AmpleSession(w, rounds)
    ensures OnCourse(w, Run(w, rounds), |rounds|)
  {
    hide OnCourse, Catalog, Ordered, HonestRound, AnyMore, Ample, AllAccounted;
    if rounds == [] {
      CourseStarts(w);
    } else {
      var first := rounds[..|rounds| - 1];
      SessionOnCourse(w, first);
      NoLossNoRepeat(w, first);
      CourseHolds(w, Run(w, first), rounds[|rounds| - 1], |first|);
    }
  }

  lemma {:induction false} CourseStarts(w: World)
    requires Ordered(w)
    ensures OnCourse(w, Run(w, []), 0)
  {
    StartsWithAll(w, Run(w, []).origins);
    MergeIsSort(Published(w));
  }

  lemma {:induction false} CourseHolds(w: World, t: Trail, round: Round, n: nat)
    requires Catalog(w) && OnCourse(w, t, n) && AllAccounted(w, Flatten(t.pages), t.origins)
    requires HonestRound(w, t.origins, round) && Ample(w, t.origins, round)
    ensures OnCourse(w, Trail(t.pages + [PageOf(t.origins, round, w.urls, w.limit).items],
                              NextOrigins(t.origins, round, w.urls, w.limit)), n + 1)
  {
    hide Catalog, AllAccounted, HonestRound, Ample, Placed, EachInOrder, Merge, NextOrigins, PageOf, Remaining,
      SortedUnion;
    PageCutsMerge(w, Flatten(t.pages), t.origins, round);
  }

  lemma {:induction false} StartsWithAll(w: World, origins: Origins)
    requires Ordered(w) && Placed(w, origins) && forall id :: id in w.lists ==> origins[id] == FRESH
    ensures Remaining(w, origins) == Published(w)
    ensures EachInOrder(Published(w))
  {
    StartRemains(w, origins);
    hide Published, Remaining, PublishedBy, InOrder;
    forall i | 0 <= i < |Published(w)| ensures InOrder(Published(w)[i]) {
      PublishedInOrder(w, Sorted(w.lists.Keys)[i]);
    }
  }

  lemma {:induction false} StartRemains(w: World, origins: Origins)
    requires Placed(w, origins) && forall id :: id in w.lists ==> origins[id] == FRESH
    ensures Remaining(w, origins) == Published(w)
  {
    hide PublishedBy, Published, Remaining, RemainingOf, Pos, Placed, Sorted, Increasing;
    var ids := Sorted(w.lists.Keys);
    forall i | 0 <= i < |ids| ensures Remaining(w, origins)[i] == Published(w)[i] {
      assert ids[i] in w.lists;
      AllRemains(w, ids[i]);
    }
  }

  lemma {:induction false} AllRemains(w: World, id: string)
    requires id in w.lists
    ensures Pos(FRESH, w.lists[id]) == 0 && RemainingOf(w, FRESH, id) == PublishedBy(w, id)
  {
    hide PublishedBy;
    assert [] + PublishedBy(w, id)[0..] == PublishedBy(w, id);
  }

  /** The pages of a session are the sorted union cut into pages, and a session that has ended
      has delivered all of it, in order. */
  lemma {:induction false} PagingRefinesSorting(w: World, rounds: seq<Round>)
    requires Catalog(w) && Ordered(w) && AmpleSession(w, rounds)
    ensures Run(w, rounds).pages == CutPages(SortedUnion(w), w.limit, |rounds|)
    ensures !AnyMore(Run(w, rounds).origins) ==> Flatten(Run(w, rounds).pages) == SortedUnion(w)
  {
    SessionOnCourse(w, rounds);
    hide Run, Catalog, Ordered, AmpleSession, SortedUnion, AnyMore, Flatten, Merge;
    var t := Run(w, rounds);
    if !AnyMore(t.origins) {
      NothingRemains(w, rounds);
      CutPagesWhole(SortedUnion(w), w.limit, |rounds|);
    }
  }

  /** So from the first page to the last what the client is shown goes from newer to older, and
      by id where the datetimes are the same. */
  lemma {:induction false} SessionNewestFirst(w: World, rounds: seq<Round>, i: nat, j: nat)
    requires Catalog(w) && Ordered(w) && AmpleSession(w, rounds)
    requires i < j < |Flatten(Run(w, rounds).pages)|
    ensures var shown := Flatten(Run(w, rounds).pages);
            || Less(shown[j].datetime, shown[i].datetime)
            || (shown[i].datetime == shown[j].datetime
                && (shown[i].id == shown[j].id || Less(shown[i].id, shown[j].id)))
  {
    PagingRefinesSorting(w, rounds);
    StableSortInOrder(Flatten(Published(w)));
    hide Run, Catalog, Ordered, AmpleSession, Flatten, InOrder, Published;
    CutPagesWhole(SortedUnion(w), w.limit, |rounds|);
    InOrderMeans(Flatten(Run(w, rounds).pages), AfterPages(SortedUnion(w), w.limit, |rounds|), i, j);
  }

  lemma {:induction false} DrainedOf(w: World, oc: OriginCursor, id: string)
    requires id in w.lists && !oc.HasMore() && !oc.Retired() && Pos(oc, w.lists[id]) <= |w.lists[id]|
    ensures RemainingOf(w, oc, id) == []
  {
  }

  lemma {:induction false} NothingRemains(w: World, rounds: seq<Round>)
    requires Placed(w, Run(w, rounds).origins) && !AnyMore(Run(w, rounds).origins)
    ensures Flatten(Remaining(w, Run(w, rounds).origins)) == [] && Merge(Remaining(w, Run(w, rounds).origins)) == []
  {
    var origins := Run(w, rounds).origins;
    var ids := Sorted(w.lists.Keys);
    forall i | 0 <= i < |ids| ensures Remaining(w, origins)[i] == [] {
      assert ids[i] in ids;
      EntersWithoutStrikes(w, rounds, ids[i]);
      hide Run;
      assert !origins[ids[i]].HasMore();
      DrainedOf(w, origins[ids[i]], ids[i]);
    }
    FlattenEmpty(Remaining(w, origins));
  }
}
