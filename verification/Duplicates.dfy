/**
 Sessions over origins that publish the same items.
 (internal/federation/pagination.go: Search, mergeResults; internal/federation/merger.go)
 */
module Duplicates {
  import opened Text
  import opened Items
  import opened Ordering
  import opened Merger
  import opened ListMerge
  import opened Cursor
  import opened Pagination
  import opened PageLaws
  import opened Sessions
  import opened Paging
  import opened Rankings

  // ----- One page -----

  /** Every list is cut at a place where it has delivered a page full, or not at all; a page of the
      fronts is a page of the whole, copies of an item at several origins counting once. */
  lemma {:induction false} CutUnion(segs: seq<seq<Item>>, tails: seq<seq<Item>>, after: seq<seq<Item>>,
                                    ids: seq<string>, limit: nat)
    requires |segs| == |tails| == |after| && FiledBy(Join(segs, tails), ids) && Increasing(ids)
    requires EachStrict(Join(segs, tails)) && CopiesTie(Flatten(Join(segs, tails)))
    requires forall i :: 0 <= i < |segs| ==> tails[i] == [] || limit <= |segs[i]|
    requires forall i :: 0 <= i < |segs| ==> after[i] == Only(Back(Union(Flatten(segs)), limit), ids[i]) + tails[i]
    ensures Front(Union(Flatten(segs)), limit) == Front(Union(Flatten(Join(segs, tails))), limit)
    ensures Union(Flatten(after)) == Back(Union(Flatten(Join(segs, tails))), limit)
    ensures EachStrict(after) && FiledBy(after, ids)
    ensures forall x :: x in Flatten(after) ==> x in Flatten(Join(segs, tails))
  {
    hide *;
    var all := Join(segs, tails);
    JoinParts(segs, tails, ids);
    FlattenAscends(all, ids);
    FlattenAscends(segs, ids);
    JoinMembers(segs, tails);
    Subset(Flatten(all), Flatten(segs));
    UnionIs(Flatten(segs));
    UnionWithin(Flatten(segs));
    LeftMembers(segs, tails, after, ids, limit);
    AfterStrict(segs, tails, after, ids, limit);
    FlattenAscends(after, ids);
    forall x, y | x in Front(Union(Flatten(segs)), limit) && y in Flatten(tails) ensures Before(x, y) {
      TailBehind(segs, tails, limit, y);
    }
    SomeTail(segs, tails, limit);
    CutFlat(Flatten(all), Flatten(segs), Flatten(tails), Flatten(after), limit);
  }

  lemma {:induction false} JoinParts(segs: seq<seq<Item>>, tails: seq<seq<Item>>, ids: seq<string>)
    requires |segs| == |tails| && FiledBy(Join(segs, tails), ids) && EachStrict(Join(segs, tails))
    ensures |ids| == |segs| && FiledBy(segs, ids) && EachStrict(segs) && FiledBy(tails, ids) && EachStrict(tails)
  {
    hide Before, OriginOf;
    var all := Join(segs, tails);
    forall i | 0 <= i < |segs| ensures AllFrom(segs[i], ids[i]) && Strict(segs[i]) && AllFrom(tails[i], ids[i])
           && Strict(tails[i]) {
      PartsOf(segs[i], tails[i], ids[i]);
    }
  }

  lemma {:induction false} PartsOf(a: seq<Item>, b: seq<Item>, id: string)
    requires AllFrom(a + b, id) && Strict(a + b)
    ensures AllFrom(a, id) && Strict(a) && AllFrom(b, id) && Strict(b)
    ensures forall x, y :: x in a && y in b ==> Before(x, y)
  {
    hide Before, OriginOf;
    var s := a + b;
    assert forall i :: 0 <= i < |a| ==> s[i] == a[i];
    assert forall i :: 0 <= i < |b| ==> s[|a| + i] == b[i];
    forall i, j | 0 <= i < j < |b| ensures Before(b[i], b[j]) {
      assert Before(s[|a| + i], s[|a| + j]);
    }
    forall x, y | x in a && y in b ensures Before(x, y) {
      var i :| 0 <= i < |a| && a[i] == x;
      var j :| 0 <= j < |b| && b[j] == y;
      assert Before(s[i], s[|a| + j]);
    }
  }

  lemma {:induction false} JoinMembers(segs: seq<seq<Item>>, tails: seq<seq<Item>>)
    requires |segs| == |tails|
    ensures forall x :: x in Flatten(Join(segs, tails)) <==> x in Flatten(segs) || x in Flatten(tails)
  {
    hide Flatten;
    forall x ensures x in Flatten(Join(segs, tails)) <==> x in Flatten(segs) || x in Flatten(tails) {
      FlattenMember(Join(segs, tails), x);
      FlattenMember(segs, x);
      FlattenMember(tails, x);
    }
  }

  lemma {:induction false} LeftMembers(segs: seq<seq<Item>>, tails: seq<seq<Item>>, after: seq<seq<Item>>,
                                       ids: seq<string>, limit: nat)
    requires |segs| == |tails| == |after| == |ids|
    requires forall x :: x in Flatten(segs) ==> OriginOf(x) in ids
    requires forall x :: x in Union(Flatten(segs)) ==> x in Flatten(segs)
    requires forall i :: 0 <= i < |segs| ==> after[i] == Only(Back(Union(Flatten(segs)), limit), ids[i]) + tails[i]
    ensures forall x :: x in Flatten(after) <==> x in Back(Union(Flatten(segs)), limit) || x in Flatten(tails)
    ensures forall x :: x in Flatten(after) ==> x in Flatten(segs) || x in Flatten(tails)
  {
    hide Flatten, Union, OriginOf, Only, Back;
    var back := Back(Union(Flatten(segs)), limit);
    FrontBack(Union(Flatten(segs)), limit);
    forall x ensures x in Flatten(after) <==> x in back || x in Flatten(tails) {
      FlattenMember(after, x);
      FlattenMember(tails, x);
      if x in Flatten(after) {
        var i :| 0 <= i < |after| && x in after[i];
        OnlyMember(back, ids[i], x);
      }
      if x in back {
        var i :| 0 <= i < |ids| && ids[i] == OriginOf(x);
        OnlyMember(back, ids[i], x);
        assert x in after[i];
      }
      if x in Flatten(tails) {
        var i :| 0 <= i < |tails| && x in tails[i];
        assert x in after[i];
      }
    }
  }

  lemma {:induction false} OnlyStrict(s: seq<Item>, id: string)
    requires Ranking(s)
    ensures Strict(Only(s, id))
  {
    hide Less, Before, OriginOf;
    if s != [] {
      RankingTail(s);
      OnlyStrict(s[1..], id);
      if OriginOf(s[0]) == id {
        var rest := Only(s[1..], id);
        forall j | 0 <= j < |rest| ensures Before(s[0], rest[j]) {
          OnlyMember(s[1..], id, rest[j]);
          LessIrreflexive(id);
        }
      }
    }
  }

  lemma {:induction false} RankingBack(s: seq<Item>, limit: nat)
    requires Ranking(s)
    ensures Ranking(Back(s, limit))
  {
    hide Ahead;
    var n := Min(limit, |s|);
    assert forall i :: 0 <= i < |s[n..]| ==> s[n..][i] == s[n + i];
  }

  lemma {:induction false} AfterStrict(segs: seq<seq<Item>>, tails: seq<seq<Item>>, after: seq<seq<Item>>,
                                       ids: seq<string>, limit: nat)
    requires |segs| == |tails| == |after| && FiledBy(Join(segs, tails), ids) && EachStrict(Join(segs, tails))
             && Increasing(ids)
    requires FiledBy(segs, ids) && Ranking(Union(Flatten(segs)))
    requires forall x :: x in Union(Flatten(segs)) ==> x in Flatten(segs)
    requires forall i :: 0 <= i < |segs| ==> after[i] == Only(Back(Union(Flatten(segs)), limit), ids[i]) + tails[i]
    ensures EachStrict(after) && FiledBy(after, ids)
  {
    hide Union, Flatten, OriginOf, Before, Only, Back, Increasing, Ranking;
    var back := Back(Union(Flatten(segs)), limit);
    RankingBack(Union(Flatten(segs)), limit);
    FrontBack(Union(Flatten(segs)), limit);
    forall i | 0 <= i < |segs| ensures Strict(after[i]) && AllFrom(after[i], ids[i]) {
      assert Join(segs, tails)[i] == segs[i] + tails[i];
      PartsOf(segs[i], tails[i], ids[i]);
      OnlyStrict(back, ids[i]);
      OnlyIsFrom(back, ids[i]);
      forall x | x in Only(back, ids[i]) ensures x in segs[i] {
        OnlyMember(back, ids[i], x);
        FiledMember(segs, ids, i, x);
      }
      StrictJoin(Only(back, ids[i]), tails[i], ids[i]);
    }
  }

  lemma {:induction false} FiledMember(segs: seq<seq<Item>>, ids: seq<string>, i: nat, x: Item)
    requires FiledBy(segs, ids) && Increasing(ids) && i < |ids| && x in Flatten(segs) && OriginOf(x) == ids[i]
    ensures x in segs[i]
  {
    hide Flatten, OriginOf, Less;
    FlattenMember(segs, x);
    var j :| 0 <= j < |segs| && x in segs[j];
    var n :| 0 <= n < |segs[j]| && segs[j][n] == x;
    assert ids[j] == ids[i];
    LessIrreflexive(ids[i]);
  }

  lemma {:induction false} StrictJoin(a: seq<Item>, b: seq<Item>, id: string)
    requires Strict(a) && Strict(b) && AllFrom(a, id) && AllFrom(b, id)
    requires forall x, y :: x in a && y in b ==> Before(x, y)
    ensures Strict(a + b) && AllFrom(a + b, id)
  {
    hide Before, OriginOf;
    forall i, j | 0 <= i < j < |a + b| ensures Before((a + b)[i], (a + b)[j]) {
      if j < |a| {
      } else if i < |a| {
        assert a[i] in a && b[j - |a|] in b;
      } else {
        assert Before(b[i - |a|], b[j - |a|]);
      }
    }
  }

  /** An item that is not fetched yet is behind the page. */
  lemma {:induction false} TailBehind(segs: seq<seq<Item>>, tails: seq<seq<Item>>, limit: nat, y: Item)
    requires |segs| == |tails| && EachStrict(segs) && EachStrict(Join(segs, tails)) && CopiesTie(Flatten(segs))
    requires forall i :: 0 <= i < |segs| ==> tails[i] == [] || limit <= |segs[i]|
    requires TiesAscend(Flatten(segs)) && Ranking(Union(Flatten(segs)))
    requires forall x :: x in Union(Flatten(segs)) <==> Leads(Flatten(segs), x)
    requires y in Flatten(tails)
    ensures forall x :: x in Front(Union(Flatten(segs)), limit) ==> Before(x, y)
  {
    hide Union, Flatten, OriginOf, Before, Front, Key, TiesAscend, Ranking, Leads;
    FlattenMember(tails, y);
    var i :| 0 <= i < |tails| && y in tails[i];
    assert Join(segs, tails)[i] == segs[i] + tails[i];
    forall z | z in segs[i] ensures z in Flatten(segs) { FlattenMember(segs, z); }
    Subset(Flatten(segs), segs[i]);
    forall z | z in segs[i] ensures Before(z, y) { BeforeTail(segs[i], tails[i], z, y); }
    forall z | z in segs[i] ensures exists r :: r in Union(Flatten(segs)) && Key(r) == Key(z) && Tied(r, z) {
      var r := LeaderOf(Flatten(segs), z);
      LeaderTies(Flatten(segs), r, z);
      assert r in Union(Flatten(segs));
    }
    FrontBeats(Union(Flatten(segs)), segs[i], y, limit);
  }

  lemma {:induction false} BeforeTail(a: seq<Item>, b: seq<Item>, x: Item, y: Item)
    requires Strict(a + b) && x in a && y in b
    ensures Before(x, y)
  {
    hide Before;
    var i :| 0 <= i < |a| && a[i] == x;
    var j :| 0 <= j < |b| && b[j] == y;
    assert Before((a + b)[i], (a + b)[|a| + j]);
  }

  lemma {:induction false} LeaderTies(s: seq<Item>, r: Item, z: Item)
    requires CopiesTie(s) && Leads(s, r) && z in s && Key(r) == Key(z)
    ensures Tied(r, z)
  {
    hide Key, Tied;
  }

  /** If something is unfetched, the fronts fill a page. */
  lemma {:induction false} SomeTail(segs: seq<seq<Item>>, tails: seq<seq<Item>>, limit: nat)
    requires |segs| == |tails| && EachStrict(segs) && CopiesTie(Flatten(segs))
    requires forall i :: 0 <= i < |segs| ==> tails[i] == [] || limit <= |segs[i]|
    ensures Flatten(tails) == [] || limit <= |Union(Flatten(segs))|
  {
    hide Union, Flatten, Key, Strict;
    if Flatten(tails) != [] {
      Inhabited(Flatten(tails));
      var y :| y in Flatten(tails);
      FlattenMember(tails, y);
      var i :| 0 <= i < |tails| && y in tails[i];
      forall z | z in segs[i] ensures z in Flatten(segs) { FlattenMember(segs, z); }
      Subset(Flatten(segs), segs[i]);
      StrictKeys(segs[i]);
      KeysWithin(segs[i], Flatten(segs));
      UnionKeys(Flatten(segs));
      SubsetSize(KeySet(segs[i]), KeySet(Union(Flatten(segs))));
      KeySetSize(Union(Flatten(segs)));
    }
  }

  lemma {:induction false} KeysWithin(a: seq<Item>, b: seq<Item>)
    requires forall x :: x in a ==> x in b
    ensures KeySet(a) <= KeySet(b)
  {
    hide Key;
    forall k | k in KeySet(a) ensures k in KeySet(b) {
      var i :| 0 <= i < |a| && Key(a[i]) == k;
      assert a[i] in a;
      var j :| 0 <= j < |b| && b[j] == a[i];
    }
  }

  /** Dedup and sort keep the keys. */
  lemma {:induction false} UnionKeys(s: seq<Item>)
    ensures KeySet(Union(s)) == KeySet(s)
  {
    DedupKeys(s, {});
    var d := Dedup(s, {});
    forall x ensures x in Union(s) <==> x in d {
      assert x in multiset(Union(s)) <==> x in multiset(d);
    }
    hide Dedup, Union, Key;
    KeysWithin(Union(s), d);
    KeysWithin(d, Union(s));
  }

  // ----- The whole session -----

  /** Items are attributed, every list is strictly ordered, and copies of an item agree on its sort
      values. */
  ghost predicate Overlapping(w: World) {
    && Attributed(w)
    && (forall id :: id in w.lists ==> Strict(w.lists[id]))
    && CopiesTie(Flatten(Published(w)))
  }

  /** The sorted union of all lists, each key once, from the smallest origin that has it. */
  ghost function DistinctUnion(w: World): seq<Item> {
    Union(Flatten(Published(w)))
  }

  ghost predicate Within(w: World, ls: seq<seq<Item>>) {
    forall x :: x in Flatten(ls) ==> x in Flatten(Published(w))
  }

  ghost predicate OnTrack(w: World, t: Trail, n: nat) {
    && Placed(w, t.origins) && Tidy(t.origins)
    && t.pages == CutPages(DistinctUnion(w), w.limit, n)
    && Union(Flatten(Remaining(w, t.origins))) == AfterPages(DistinctUnion(w), w.limit, n)
    && EachStrict(Remaining(w, t.origins)) && FiledBy(Remaining(w, t.origins), Sorted(w.lists.Keys))
    && Within(w, Remaining(w, t.origins))
  }

  lemma {:induction false} OwnFresh(w: World, origins: Origins, round: Round)
    requires Attributed(w) && Placed(w, origins) && Tidy(origins) && HonestRound(w, origins, round)
    ensures Own(MarkErrors(origins, round), round)
  {
    forall id | id in origins
      ensures forall x :: x in Combined(MarkErrors(origins, round), round, id) ==> Unclaimed(x, id)
    {
      HonestEach(w, origins, round, id);
      OwnAt(w, origins, round, id);
    }
  }

  lemma {:induction false} NextPlaced(w: World, origins: Origins, round: Round)
    requires "" !in w.lists && Placed(w, origins) && Tidy(origins) && HonestRound(w, origins, round)
    requires Own(MarkErrors(origins, round), round)
    ensures Placed(w, NextOrigins(origins, round, w.urls, w.limit))
            && Tidy(NextOrigins(origins, round, w.urls, w.limit))
  {
    hide NextOrigins, Ranked, Back, Own, HonestRound, AllFrom, Pos, MarkErrors, Settled;
    var next := NextOrigins(origins, round, w.urls, w.limit);
    NextKeys(origins, round, w.urls, w.limit);
    forall id | id in next
      ensures Pos(next[id], w.lists[id]) <= |w.lists[id]| && AllFrom(next[id].stash, id) && next[id].errorCount == 0
    {
      NextPosition(w, origins, round, id);
      StashIsOnly(origins, round, w.urls, w.limit, id);
      OnlyIsFrom(Back(Ranked(MarkErrors(origins, round), round, w.urls), w.limit), id);
      NextStrikes(origins, round, w.urls, w.limit, id);
    }
  }

  lemma {:induction false} NextPosition(w: World, origins: Origins, round: Round, id: string)
    requires HonestRound(w, origins, round) && id in origins && id in w.lists
    requires origins[id].errorCount == 0 && Pos(origins[id], w.lists[id]) <= |w.lists[id]|
    ensures id in NextOrigins(origins, round, w.urls, w.limit)
    ensures var list, p := w.lists[id], Pos(origins[id], w.lists[id]);
            var q := Pos(NextOrigins(origins, round, w.urls, w.limit)[id], list);
            p <= q <= |list| && FreshItems(round, id) == list[p..q]
  {
    hide NextOrigins, Ranked, Back, MarkErrors, Settled, HonestRound, FreshItems;
    HonestEach(w, origins, round, id);
    NextStash(origins, round, w.urls, w.limit, id);
    NextAt(origins, round, w.urls, w.limit, id);
    PositionMoves(w, origins, round, id, Back(Ranked(MarkErrors(origins, round), round, w.urls), w.limit));
  }

  lemma {:induction false} NextStrikes(origins: Origins, round: Round, urls: map<string, string>, limit: nat,
                                       id: string)
    requires id in origins
    ensures id in NextOrigins(origins, round, urls, limit)
            && NextOrigins(origins, round, urls, limit)[id].errorCount == 0
  {
    hide Ranked, Back, StashFor;
  }

  /** A page is the front of the union of all that remains, and what remains afterwards is the rest. */
  lemma {:induction false} PageCutsUnion(w: World, origins: Origins, round: Round)
    requires "" !in w.lists && Placed(w, origins) && Tidy(origins) && HonestRound(w, origins, round)
             && Ample(w, origins, round)
    requires Own(MarkErrors(origins, round), round) && Placed(w, NextOrigins(origins, round, w.urls, w.limit))
    requires EachStrict(Remaining(w, origins)) && FiledBy(Remaining(w, origins), Sorted(w.lists.Keys))
    requires CopiesTie(Flatten(Remaining(w, origins)))
    ensures var next := NextOrigins(origins, round, w.urls, w.limit);
            && PageOf(origins, round, w.urls, w.limit).items == Front(Union(Flatten(Remaining(w, origins))), w.limit)
            && Union(Flatten(Remaining(w, next))) == Back(Union(Flatten(Remaining(w, origins))), w.limit)
            && EachStrict(Remaining(w, next)) && FiledBy(Remaining(w, next), Sorted(w.lists.Keys))
            && forall x :: x in Flatten(Remaining(w, next)) ==> x in Flatten(Remaining(w, origins))
  {
    hide *;
    var marked, next := MarkErrors(origins, round), NextOrigins(origins, round, w.urls, w.limit);
    var ids := Sorted(w.lists.Keys);
    var segs := Contributions(ids, marked, round, w.urls);
    KeysPlaced(w, origins);
    PoolIs(marked, round, w.urls);
    RankedIs(marked, round, w.urls);
    UnionOf(Pool(marked, round, w.urls));
    PageIs(origins, round, w.urls, w.limit);
    RemainingSplits(w, origins, round);
    RemainingAfter(w, origins, round);
    CutUnion(segs, Tails(w, next), Remaining(w, next), ids, w.limit);
  }

  lemma {:induction false} UnionOf(s: seq<Item>)
    ensures Union(s) == StableSort(Dedup(s, {}))
  {
  }

  lemma {:induction false} PageOnTrack(w: World, t: Trail, round: Round, n: nat)
    requires Overlapping(w) && OnTrack(w, t, n) && HonestRound(w, t.origins, round) && Ample(w, t.origins, round)
    ensures OnTrack(w, Trail(t.pages + [PageOf(t.origins, round, w.urls, w.limit).items],
                             NextOrigins(t.origins, round, w.urls, w.limit)), n + 1)
  {
    OwnFresh(w, t.origins, round);
    hide HonestRound, Ample, MarkErrors, NextOrigins, Remaining, Union, Flatten, CopiesTie, FiledBy, EachStrict, Own,
      PageOf,
      Placed, Tidy, Strict, Front, Back, DistinctUnion, Unclaimed;
    NextPlaced(w, t.origins, round);
    Subset(Flatten(Published(w)), Flatten(Remaining(w, t.origins)));
    PageCutsUnion(w, t.origins, round);
  }

  lemma {:induction false} TrackStarts(w: World)
    requires Overlapping(w)
    ensures OnTrack(w, Run(w, []), 0)
  {
    AllStrict(w);
    PublishedFiled(w);
    hide *;
    StartPlaced(w);
    StartRemains(w, Run(w, []).origins);
    OnTrackAtStart(w, Run(w, []));
  }

  lemma {:induction false} StartPlaced(w: World)
    ensures var t := Run(w, []);
            t.pages == [] && Placed(w, t.origins) && Tidy(t.origins) && forall id :: id in w.lists ==>
              t.origins[id] == FRESH
  {
  }

  lemma {:induction false} OnTrackAtStart(w: World, t: Trail)
    requires t.pages == [] && Placed(w, t.origins) && Tidy(t.origins) && Remaining(w, t.origins) == Published(w)
    requires EachStrict(Published(w)) && FiledBy(Published(w), Sorted(w.lists.Keys))
    ensures OnTrack(w, t, 0)
  {
    hide Placed, Tidy, Remaining, EachStrict, FiledBy, Union, Flatten, Published;
  }

  lemma {:induction false} AllStrict(w: World)
    requires forall id :: id in w.lists ==> Strict(w.lists[id])
    ensures EachStrict(Published(w))
  {
    hide Strict, PublishedBy, Increasing;
    forall i | 0 <= i < |Published(w)| ensures Strict(Published(w)[i]) { PublishedStrict(w, Sorted(w.lists.Keys)[i]); }
  }

  lemma {:induction false} PublishedStrict(w: World, id: string)
    requires id in w.lists && Strict(w.lists[id])
    ensures Strict(PublishedBy(w, id))
  {
    var list, all := w.lists[id], PublishedBy(w, id);
    forall i, j | 0 <= i < j < |all| ensures Before(all[i], all[j]) {
      assert all[i] == Tag(list[i], id, UrlOf(w.urls, id)) && all[j] == Tag(list[j], id, UrlOf(w.urls, id));
    }
  }

  lemma {:induction false} SessionOnTrack(w: World, rounds: seq<Round>)
    requires Overlapping(w) && AmpleSession(w, rounds)
    ensures OnTrack(w, Run(w, rounds), |rounds|)
  {
    hide OnTrack, Overlapping, HonestRound, AnyMore, Ample;
    if rounds == [] {
      TrackStarts(w);
    } else {
      var first := rounds[..|rounds| - 1];
      SessionOnTrack(w, first);
      PageOnTrack(w, Run(w, first), rounds[|rounds| - 1], |first|);
    }
  }

  /** Paging refines sorting for origins that share items: if no fetch fails or falls short, the pages
      are the sorted union, each key once, cut into pages; an ended session has shown all of it; and
      no key is shown twice. */
  lemma {:induction false} PagingSharedItems(w: World, rounds: seq<Round>)
    requires Overlapping(w) && AmpleSession(w, rounds)
    ensures Run(w, rounds).pages == CutPages(DistinctUnion(w), w.limit, |rounds|)
    ensures !AnyMore(Run(w, rounds).origins) ==> Flatten(Run(w, rounds).pages) == DistinctUnion(w)
    ensures DistinctKeys(Flatten(Run(w, rounds).pages))
  {
    SessionOnTrack(w, rounds);
    hide Overlapping, AmpleSession, Run, DistinctUnion, AnyMore;
    var t := Run(w, rounds);
    CutPagesWhole(DistinctUnion(w), w.limit, |rounds|);
    PrefixDistinct(Flatten(Published(w)), Flatten(t.pages), AfterPages(DistinctUnion(w), w.limit, |rounds|));
    if !AnyMore(t.origins) {
      NothingRemains(w, rounds);
      assert Union([]) == [];
    }
  }

  /** So what the client is shown, page after page, goes from newer to older, and by id where the
      datetimes are the same. */
  lemma {:induction false} SharedNewestFirst(w: World, rounds: seq<Round>, i: nat, j: nat)
    requires Overlapping(w) && AmpleSession(w, rounds)
    requires i < j < |Flatten(Run(w, rounds).pages)|
    ensures var shown := Flatten(Run(w, rounds).pages);
            || Less(shown[j].datetime, shown[i].datetime)
            || (shown[i].datetime == shown[j].datetime
                && (shown[i].id == shown[j].id || Less(shown[i].id, shown[j].id)))
  {
    PagingSharedItems(w, rounds);
    UnionOf(Flatten(Published(w)));
    StableSortInOrder(Dedup(Flatten(Published(w)), {}));
    hide Run, Overlapping, AmpleSession, Flatten, InOrder, Published, Union, Dedup, StableSort;
    CutPagesWhole(DistinctUnion(w), w.limit, |rounds|);
    InOrderMeans(Flatten(Run(w, rounds).pages), AfterPages(DistinctUnion(w), w.limit, |rounds|), i, j);
  }

  lemma {:induction false} PrefixDistinct(s: seq<Item>, a: seq<Item>, b: seq<Item>)
    requires a + b == Union(s)
    ensures DistinctKeys(a)
  {
    DedupDistinct(s);
    hide Dedup, Key, KeyBag;
    assert multiset(a) <= multiset(a + b);
    KeyBagMonotone(a, Dedup(s, {}));
  }

  // ----- Keys under any failures -----

  /** The keys of everything fetched so far. */
  ghost function FetchedKeys(w: World, origins: Origins): set<string>
    requires Placed(w, origins)
  {
    set id, i | id in w.lists && 0 <= i < Pos(origins[id], w.lists[id]) :: Key(w.lists[id][i])
  }

  ghost predicate KeysKept(w: World, t: Trail) {
    && Placed(w, t.origins) && Tidy(t.origins)
    && KeySet(Flatten(t.pages)) + KeySet(Stashed(t.origins)) == FetchedKeys(w, t.origins)
  }

  lemma {:induction false} KeysAppend(a: seq<Item>, b: seq<Item>)
    ensures KeySet(a + b) == KeySet(a) + KeySet(b)
  {
    hide Key;
    forall k ensures k in KeySet(a + b) <==> k in KeySet(a) + KeySet(b) {
      if k in KeySet(a) {
        var i :| 0 <= i < |a| && Key(a[i]) == k;
        assert (a + b)[i] == a[i];
      }
      if k in KeySet(b) {
        var i :| 0 <= i < |b| && Key(b[i]) == k;
        assert (a + b)[|a| + i] == b[i];
      }
      if k in KeySet(a + b) {
        var i :| 0 <= i < |a + b| && Key((a + b)[i]) == k;
        if i < |a| { assert a[i] == (a + b)[i]; } else { assert b[i - |a|] == (a + b)[i]; }
      }
    }
  }

  lemma {:induction false} FlattenKeys(ls: seq<seq<Item>>, k: string)
    ensures k in KeySet(Flatten(ls)) <==> exists i :: 0 <= i < |ls| && k in KeySet(ls[i])
  {
    hide Key, KeySet;
    if ls == [] {
      assert Flatten(ls) == [];
      NoKeys();
    } else {
      FlattenKeys(ls[1..], k);
      KeysAppend(ls[0], Flatten(ls[1..]));
      if i :| 0 <= i < |ls| && k in KeySet(ls[i]) {
        if 0 < i { assert ls[1..][i - 1] == ls[i]; }
      }
      if i :| 0 <= i < |ls[1..]| && k in KeySet(ls[1..][i]) { assert ls[i + 1] == ls[1..][i]; }
    }
  }

  lemma {:induction false} NoKeys()
    ensures KeySet([]) == {}
  {
  }

  lemma {:induction false} TagAllKeys(s: seq<Item>, id: string, url: string)
    ensures KeySet(TagAll(s, id, url)) == KeySet(s)
  {
    var t := TagAll(s, id, url);
    forall i | 0 <= i < |s| ensures Key(t[i]) == Key(s[i]) { TagKeepsKey(s[i], id, url); }
    hide Key, TagAll;
    assert |t| == |s|;
    forall k ensures k in KeySet(t) <==> k in KeySet(s) {
      if k in KeySet(t) {
        var i :| 0 <= i < |t| && Key(t[i]) == k;
        assert Key(s[i]) == k;
      }
      if k in KeySet(s) {
        var i :| 0 <= i < |s| && Key(s[i]) == k;
        assert Key(t[i]) == k;
      }
    }
  }

  /** What an origin brings has the keys of its stash and of its fresh items. */
  lemma {:induction false} BroughtKeys(w: World, origins: Origins, round: Round, id: string)
    requires id in origins && id in w.lists && HonestAt(w, origins, round, id) && origins[id].errorCount == 0
    ensures KeySet(Contribution(MarkErrors(origins, round), round, w.urls, id)) ==
            KeySet(origins[id].stash) + KeySet(FreshItems(round, id))
  {
    TagAllKeys(Combined(MarkErrors(origins, round), round, id), id, UrlOf(w.urls, id));
    hide Key, KeySet, TagAll, HonestFetch;
    assert Combined(MarkErrors(origins, round), round, id) == origins[id].stash + FreshItems(round, id);
    KeysAppend(origins[id].stash, FreshItems(round, id));
  }

  ghost predicate Brings(origins: Origins, round: Round, id: string, k: string) {
    id in origins && (k in KeySet(origins[id].stash) || k in KeySet(FreshItems(round, id)))
  }

  lemma {:induction false} PoolKeys(w: World, origins: Origins, round: Round, k: string)
    requires Placed(w, origins) && Tidy(origins) && HonestRound(w, origins, round)
    ensures k in KeySet(Pool(MarkErrors(origins, round), round, w.urls)) <==> exists id :: Brings(origins, round, id, k)
  {
    var marked := MarkErrors(origins, round);
    var ids := Sorted(origins.Keys);
    hide Key, KeySet, Contribution, HonestRound, AllFrom, FreshItems, Pool, Flatten, Pos, Increasing;
    assert marked.Keys == origins.Keys;
    PoolIs(marked, round, w.urls);
    FlattenKeys(Contributions(ids, marked, round, w.urls), k);
    forall i | 0 <= i < |ids|
      ensures k in KeySet(Contribution(marked, round, w.urls, ids[i])) <==> Brings(origins, round, ids[i], k)
    {
      assert ids[i] in ids;
      HonestEach(w, origins, round, ids[i]);
      BroughtKeys(w, origins, round, ids[i]);
    }
    if id :| Brings(origins, round, id, k) { assert id in ids; }
  }

  lemma {:induction false} StashedKeys(origins: Origins, k: string)
    ensures k in KeySet(Stashed(origins)) <==> exists id :: id in origins && k in KeySet(origins[id].stash)
  {
    var ids := Sorted(origins.Keys);
    SortedIn(origins);
    var ls := Stashes(ids, origins);
    hide Key, KeySet, Flatten, Stashes;
    FlattenKeys(ls, k);
    if id :| id in origins && k in KeySet(origins[id].stash) {
      assert id in ids;
      var i :| 0 <= i < |ids| && ids[i] == id;
      assert k in KeySet(ls[i]);
    }
  }

  lemma {:induction false} FetchedGrows(w: World, origins: Origins, round: Round, k: string)
    requires Placed(w, origins) && Tidy(origins) && HonestRound(w, origins, round)
    requires Placed(w, NextOrigins(origins, round, w.urls, w.limit))
    ensures k in FetchedKeys(w, NextOrigins(origins, round, w.urls, w.limit)) <==>
            k in FetchedKeys(w, origins) || exists id :: id in origins && k in KeySet(FreshItems(round, id))
  {
    hide Key, NextOrigins, HonestRound, AllFrom, FreshItems, Pos;
    var next := NextOrigins(origins, round, w.urls, w.limit);
    forall id | id in w.lists
      ensures var list, p, q := w.lists[id], Pos(origins[id], w.lists[id]), Pos(next[id], w.lists[id]);
              p <= q <= |list| && FreshItems(round, id) == list[p..q]
    {
      NextPosition(w, origins, round, id);
    }
    if k in FetchedKeys(w, next) {
      var id, i :| id in w.lists && 0 <= i < Pos(next[id], w.lists[id]) && Key(w.lists[id][i]) == k;
      var p := Pos(origins[id], w.lists[id]);
      if p <= i { assert Key(FreshItems(round, id)[i - p]) == k; }
    }
    if id :| id in origins && k in KeySet(FreshItems(round, id)) {
      var i :| 0 <= i < |FreshItems(round, id)| && Key(FreshItems(round, id)[i]) == k;
      assert Key(w.lists[id][Pos(origins[id], w.lists[id]) + i]) == k;
    }
    if k in FetchedKeys(w, origins) {
      var id, i :| id in w.lists && 0 <= i < Pos(origins[id], w.lists[id]) && Key(w.lists[id][i]) == k;
      assert i < Pos(next[id], w.lists[id]);
    }
  }

  /** A page and the stashes it leaves have the keys of the stashes before and of what was fetched. */
  lemma {:induction false} PageKeepsKeys(w: World, origins: Origins, round: Round, k: string)
    requires Attributed(w) && Placed(w, origins) && Tidy(origins) && HonestRound(w, origins, round)
    ensures (k in KeySet(PageOf(origins, round, w.urls, w.limit).items) ||
             k in KeySet(Stashed(NextOrigins(origins, round, w.urls, w.limit)))) <==>
            k in KeySet(Stashed(origins)) || exists id :: id in origins && k in KeySet(FreshItems(round, id))
  {
    OwnFresh(w, origins, round);
    assert "" !in origins;
    hide *;
    var page := PageOf(origins, round, w.urls, w.limit);
    PageConservesKeys(origins, round, w.urls, w.limit);
    KeysAppend(page.items, Stashed(page.origins));
    ClonedStashed(origins, round, w.urls, w.limit);
    PoolKeys(w, origins, round, k);
    StashedKeys(origins, k);
    BringsIs(origins, round, k);
  }

  lemma {:induction false} BringsIs(origins: Origins, round: Round, k: string)
    ensures (exists id :: Brings(origins, round, id, k)) <==>
            (exists id :: id in origins && k in KeySet(origins[id].stash)) ||
            exists id :: id in origins && k in KeySet(FreshItems(round, id))
  {
    hide KeySet, FreshItems;
    if id :| id in origins && k in KeySet(origins[id].stash) { assert Brings(origins, round, id, k); }
    if id :| id in origins && k in KeySet(FreshItems(round, id)) { assert Brings(origins, round, id, k); }
  }

  lemma {:induction false} PageKept(w: World, t: Trail, round: Round)
    requires Attributed(w) && KeysKept(w, t) && HonestRound(w, t.origins, round)
    ensures KeysKept(w, Trail(t.pages + [PageOf(t.origins, round, w.urls, w.limit).items],
                              NextOrigins(t.origins, round, w.urls, w.limit)))
  {
    hide *;
    KeptParts(w, t);
    OwnFresh(w, t.origins, round);
    Named(w);
    NextPlaced(w, t.origins, round);
    var page, next := PageOf(t.origins, round, w.urls, w.limit).items, NextOrigins(t.origins, round, w.urls, w.limit);
    FlattenSnoc(t.pages, page);
    KeysAppend(Flatten(t.pages), page);
    forall k ensures k in KeySet(Flatten(t.pages + [page])) + KeySet(Stashed(next)) <==> k in FetchedKeys(w, next) {
      PageKeepsKeys(w, t.origins, round, k);
      FetchedGrows(w, t.origins, round, k);
    }
    KeptFrom(w, Trail(t.pages + [page], next));
  }

  lemma {:induction false} KeptParts(w: World, t: Trail)
    requires KeysKept(w, t)
    ensures Placed(w, t.origins) && Tidy(t.origins)
    ensures KeySet(Flatten(t.pages)) + KeySet(Stashed(t.origins)) == FetchedKeys(w, t.origins)
  {
  }

  lemma {:induction false} KeptFrom(w: World, t: Trail)
    requires Placed(w, t.origins) && Tidy(t.origins)
    requires forall k :: k in KeySet(Flatten(t.pages)) + KeySet(Stashed(t.origins)) <==> k in FetchedKeys(w, t.origins)
    ensures KeysKept(w, t)
  {
    hide KeySet, Flatten, Stashed, FetchedKeys, Placed, Tidy;
  }

  lemma {:induction false} Named(w: World)
    requires Attributed(w)
    ensures "" !in w.lists
  {
  }

  /** No key is lost, whatever fetches fail and whatever items the origins share: at every cursor of
      a session the keys shown and stashed are those of everything fetched. */
  lemma {:induction false} NoKeyLost(w: World, rounds: seq<Round>)
    requires Attributed(w) && Session(w, rounds)
    ensures KeysKept(w, Run(w, rounds))
  {
    hide KeysKept, Attributed, HonestRound, AnyMore, NextOrigins, PageOf;
    if rounds == [] {
      StartKept(w);
    } else {
      var first := rounds[..|rounds| - 1];
      NoKeyLost(w, first);
      PageKept(w, Run(w, first), rounds[|rounds| - 1]);
    }
  }

  lemma {:induction false} StartKept(w: World)
    ensures KeysKept(w, Run(w, []))
  {
    var origins := Run(w, []).origins;
    hide Key;
    assert Placed(w, origins) && Tidy(origins);
    assert FetchedKeys(w, origins) == {};
    assert Flatten(Run(w, []).pages) == [];
    NoKeys();
    forall k ensures k !in KeySet(Stashed(origins)) { StashedKeys(origins, k); }
  }

  /** So a session that has ended has shown every key that was published. */
  lemma {:induction false} EndedShowsEveryKey(w: World, rounds: seq<Round>)
    requires Attributed(w) && Session(w, rounds) && !AnyMore(Run(w, rounds).origins)
    ensures KeySet(Flatten(Run(w, rounds).pages)) == KeySet(Flatten(Published(w)))
  {
    hide *;
    var t := Run(w, rounds);
    NoKeyLost(w, rounds);
    KeptParts(w, t);
    forall k ensures k in KeySet(Flatten(t.pages)) <==> k in KeySet(Flatten(Published(w))) {
      StashedKeys(t.origins, k);
      PublishedKeys(w, k);
      EndedKeys(w, rounds, k);
    }
  }

  lemma {:induction false} EndedKeys(w: World, rounds: seq<Round>, k: string)
    requires Placed(w, Run(w, rounds).origins) && !AnyMore(Run(w, rounds).origins)
    ensures !exists id :: id in Run(w, rounds).origins && k in KeySet(Run(w, rounds).origins[id].stash)
    ensures k in FetchedKeys(w, Run(w, rounds).origins) <==> exists id, i :: PublishedAt(w, id, i, k)
  {
    var origins := Run(w, rounds).origins;
    forall id | id in w.lists ensures origins[id].stash == [] && Pos(origins[id], w.lists[id]) == |w.lists[id]| {
      EntersWithoutStrikes(w, rounds, id);
      hide Run;
      assert !origins[id].HasMore();
    }
    hide Run, Key;
    if k in FetchedKeys(w, origins) {
      var id, i :| id in w.lists && 0 <= i < |w.lists[id]| && Key(w.lists[id][i]) == k;
      assert PublishedAt(w, id, i, k);
    }
    if id, i :| PublishedAt(w, id, i, k) { assert Key(w.lists[id][i]) == k; }
  }

  ghost predicate PublishedAt(w: World, id: string, i: int, k: string) {
    id in w.lists && 0 <= i < |w.lists[id]| && Key(w.lists[id][i]) == k
  }

  lemma {:induction false} PublishedKeys(w: World, k: string)
    ensures k in KeySet(Flatten(Published(w))) <==> exists id, i :: PublishedAt(w, id, i, k)
  {
    hide Flatten, Key;
    var ids, ls := Sorted(w.lists.Keys), Published(w);
    FlattenKeys(ls, k);
    if id, i :| PublishedAt(w, id, i, k) {
      assert id in ids;
      var j :| 0 <= j < |ids| && ids[j] == id;
      TagAllKeys(w.lists[id], id, UrlOf(w.urls, id));
      assert k in KeySet(ls[j]);
    }
    if j :| 0 <= j < |ls| && k in KeySet(ls[j]) {
      TagAllKeys(w.lists[ids[j]], ids[j], UrlOf(w.urls, ids[j]));
      var i :| 0 <= i < |w.lists[ids[j]]| && Key(w.lists[ids[j]][i]) == k;
      assert PublishedAt(w, ids[j], i, k);
    }
  }
}
