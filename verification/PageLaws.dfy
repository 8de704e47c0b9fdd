/**
 What one page keeps, whatever the cursor holds and the upstreams answer.
 (internal/federation/pagination.go: mergeResults)
 */
module PageLaws {
  import opened Text
  import opened Items
  import opened Ordering
  import opened ListMerge
  import opened Merger
  import opened Cursor
  import opened Pagination

  /** All contributions to a page, in (origin id, stash before fresh) order. */
  ghost function Pool(marked: Origins, round: Round, urls: map<string, string>): seq<Item> {
    Flatten(Contributions(Sorted(marked.Keys), marked, round, urls))
  }

  /** The stashes of `origins`, by origin id. */
  function Stashes(ids: seq<string>, origins: Origins): (r: seq<seq<Item>>)
    requires forall i :: 0 <= i < |ids| ==> ids[i] in origins
    ensures |r| == |ids| && forall i :: 0 <= i < |ids| ==> r[i] == origins[ids[i]].stash
  {
    seq(|ids|, i requires 0 <= i < |ids| => origins[ids[i]].stash)
  }

  ghost function Stashed(origins: Origins): seq<Item> {
    SortedIn(origins);
    Flatten(Stashes(Sorted(origins.Keys), origins))
  }

  lemma {:induction false} SortedIn(origins: Origins)
    ensures forall i :: 0 <= i < |Sorted(origins.Keys)| ==> Sorted(origins.Keys)[i] in origins
  {
    forall i | 0 <= i < |Sorted(origins.Keys)| ensures Sorted(origins.Keys)[i] in origins {
      assert Sorted(origins.Keys)[i] in Sorted(origins.Keys);
    }
  }

  /** The page is the front of the ranking: it is as long as the limit and the ranking
      allow, and nothing left over comes before anything on it. */
  lemma {:induction false} PageIsTheBest(origins: Origins, round: Round, urls: map<string, string>, limit: nat)
    ensures var marked := MarkErrors(origins, round);
            var page := PageOf(origins, round, urls, limit).items;
            var back := Back(Ranked(marked, round, urls), limit);
            && |page| == Min(limit, |Dedup(Pool(marked, round, urls), {})|)
            && InOrder(page)
            && multiset(page) + multiset(back) == multiset(Dedup(Pool(marked, round, urls), {}))
            && forall x, y :: x in page && y in back ==> !Before(y, x)
  {
    var dedup := Dedup(Pool(MarkErrors(origins, round), round, urls), {});
    StableSortInOrder(dedup);
    FrontIsBest(StableSort(dedup), limit);
  }

  lemma {:induction false} FrontIsBest(ranked: seq<Item>, limit: nat)
    requires InOrder(ranked)
    ensures InOrder(Front(ranked, limit))
    ensures multiset(Front(ranked, limit)) + multiset(Back(ranked, limit)) == multiset(ranked)
    ensures forall x, y :: x in Front(ranked, limit) && y in Back(ranked, limit) ==> !Before(y, x)
  {
    var n := Min(limit, |ranked|);
    assert ranked == ranked[..n] + ranked[n..];
    forall x, y | x in ranked[..n] && y in ranked[n..] ensures !Before(y, x) {
      var i :| 0 <= i < n && ranked[i] == x;
      var j :| 0 <= j < |ranked[n..]| && ranked[n..][j] == y;
      assert ranked[n + j] == y;
    }
  }

  /** A page is sorted by descending datetime and then by ascending id. */
  lemma {:induction false} PageNewestFirst(origins: Origins, round: Round, urls: map<string, string>, limit: nat,
                                           i: nat, j: nat)
    requires i < j < |PageOf(origins, round, urls, limit).items|
    ensures var items := PageOf(origins, round, urls, limit).items;
            || Less(items[j].datetime, items[i].datetime)
            || (items[i].datetime == items[j].datetime
                && (items[i].id == items[j].id || Less(items[i].id, items[j].id)))
  {
    PageIsTheBest(origins, round, urls, limit);
    hide PageOf, Before;
    var items := PageOf(origins, round, urls, limit).items;
    MayStandAhead(items[i], items[j]);
  }

  /** And whatever is stashed after it is not newer, nor as new with a smaller id. */
  lemma {:induction false} PageBeforeStash(origins: Origins, round: Round, urls: map<string, string>, limit: nat,
                                           x: Item, id: string, y: Item)
    requires var page := PageOf(origins, round, urls, limit);
             x in page.items && id in page.origins && y in page.origins[id].stash
    ensures || Less(y.datetime, x.datetime)
            || (x.datetime == y.datetime && (x.id == y.id || Less(x.id, y.id)))
  {
    PageIsTheBest(origins, round, urls, limit);
    StashIsLeftOver(origins, round, urls, limit, id, y);
    hide PageOf, Before;
    MayStandAhead(x, y);
  }

  lemma {:induction false} StashIsLeftOver(origins: Origins, round: Round, urls: map<string, string>, limit: nat,
                                           id: string, y: Item)
    requires var page := PageOf(origins, round, urls, limit);
             id in page.origins && y in page.origins[id].stash
    ensures y in Back(Ranked(MarkErrors(origins, round), round, urls), limit)
  {
    hide Ranked, Back, MarkErrors, Only;
    var marked := MarkErrors(origins, round);
    OnlyMember(Back(Ranked(marked, round, urls), limit), id, y);
  }

  /** The item was brought by the origin, from its stash or by its fetch. */
  ghost predicate Brought(origins: Origins, round: Round, id: string, y: Item) {
    id in origins && (y in origins[id].stash || (id in round && round[id].Fetched? && y in round[id].items))
  }

  /** Every item on a page was brought by some origin, and is changed only by the link to that
      origin and its URL, added behind the others unless one of them names the origin already. */
  lemma {:induction false} PageProvenance(origins: Origins, round: Round, urls: map<string, string>, limit: nat,
                                          x: Item) returns (id: string, y: Item)
    requires x in PageOf(origins, round, urls, limit).items
    ensures Brought(origins, round, id, y)
    ensures var named := exists i :: 0 <= i < |y.links| && y.links[i].rel == OriginRel && y.links[i].title == id;
            x == if named then y
                 else y.(links := y.links + [Link(OriginRel, id, if id in urls then urls[id] else "")])
  {
    var marked := MarkErrors(origins, round);
    PageIsTheBest(origins, round, urls, limit);
    DedupNoLonger(Pool(marked, round, urls), {});
    assert x in multiset(PageOf(origins, round, urls, limit).items);
    assert x in multiset(Pool(marked, round, urls));
    id, y := PoolProvenance(marked, round, urls, x);
    TagAddsLink(y, id, UrlOf(urls, id));
    TagKeepsKey(y, id, UrlOf(urls, id));
  }

  lemma {:induction false} PoolProvenance(marked: Origins, round: Round, urls: map<string, string>, x: Item)
    returns (id: string, y: Item)
    requires x in Pool(marked, round, urls)
    ensures Brought(marked, round, id, y) && x == Tag(y, id, UrlOf(urls, id))
  {
    hide Tag, Flatten, Increasing, TagAll;
    var ids := Sorted(marked.Keys);
    var ls := Contributions(ids, marked, round, urls);
    FlattenMember(ls, x);
    var i :| 0 <= i < |ls| && x in ls[i];
    id := ids[i];
    y := TaggedFrom(Combined(marked, round, id), id, UrlOf(urls, id), x);
    CombinedBrought(marked, round, id, y);
  }

  lemma {:induction false} TaggedFrom(items: seq<Item>, id: string, url: string, x: Item) returns (y: Item)
    requires x in TagAll(items, id, url)
    ensures y in items && x == Tag(y, id, url)
  {
    hide Tag;
    var n :| 0 <= n < |items| && TagAll(items, id, url)[n] == x;
    y := items[n];
  }

  lemma {:induction false} CombinedBrought(marked: Origins, round: Round, id: string, y: Item)
    requires y in Combined(marked, round, id)
    ensures Brought(marked, round, id, y)
  {
  }

  /** An origin is asked exactly when it is not exhausted, has not failed three times since its
      last success, and its stash cannot fill the page. */
  lemma {:induction false} AskedExactly(origins: Origins, limit: nat, id: string)
    ensures id in ToFetch(origins, limit) <==>
            && id in origins && !origins[id].exhausted
            && !(origins[id].error && origins[id].errorCount >= 3)
            && |origins[id].stash| < limit
  {
  }

  // ----- Where the remainder goes -----

  /** The remainder item can be filed: its first origin link names an active origin. */
  predicate Fileable(marked: Origins, x: Item) {
    OriginOf(x) != "" && OriginOf(x) in marked && marked[OriginOf(x)].HasMore()
  }

  lemma {:induction false} StashCount(ids: seq<string>, marked: Origins, round: Round, back: seq<Item>, x: Item)
    requires NoRepeat(ids)
    requires forall i :: 0 <= i < |ids| ==> ids[i] in marked
    ensures multiset(Flatten(Stashes(ids, SettleAll(marked, round, back))))[x] ==
            if OriginOf(x) in ids && Fileable(marked, x) then multiset(back)[x] else 0
  {
    if ids != [] {
      var settled := SettleAll(marked, round, back);
      assert Stashes(ids, settled)[1..] == Stashes(ids[1..], settled);
      StashCount(ids[1..], marked, round, back, x);
      OnlyCount(back, ids[0], x);
      assert ids == [ids[0]] + ids[1..];
      assert OriginOf(x) == ids[0] ==> OriginOf(x) !in ids[1..];
    }
  }

  /** Nothing is lost between the ranking and (page, stashes) exactly when every item left
      over can be filed: one whose first origin link names "", an unknown origin or an
      origin that is not active is dropped. */
  lemma {:induction false} NothingLostIff(origins: Origins, round: Round, urls: map<string, string>, limit: nat)
    ensures var marked := MarkErrors(origins, round);
            var ranked := Ranked(marked, round, urls);
            var page := PageOf(origins, round, urls, limit);
            multiset(page.items) + multiset(Stashed(page.origins)) == multiset(ranked)
            <==> forall x :: x in Back(ranked, limit) ==> Fileable(marked, x)
  {
    var marked := MarkErrors(origins, round);
    CutLosesIff(marked, round, Ranked(marked, round, urls), limit);
  }

  /** Page and stashes together hold all that was merged. */
  ghost predicate NothingLost(origins: Origins, round: Round, urls: map<string, string>, limit: nat) {
    var page := PageOf(origins, round, urls, limit);
    multiset(page.items) + multiset(Stashed(page.origins)) == multiset(Ranked(MarkErrors(origins, round), round, urls))
  }

  /** Whatever the limit, nothing is lost: exactly when every item that dedup keeps of what is
      brought can be filed. */
  lemma {:induction false} NeverLostIff(origins: Origins, round: Round, urls: map<string, string>)
    ensures var marked := MarkErrors(origins, round);
            (forall limit: nat :: NothingLost(origins, round, urls, limit)) <==>
            forall x :: x in Dedup(Pool(marked, round, urls), {}) ==> Fileable(marked, x)
  {
    var marked := MarkErrors(origins, round);
    var ranked, kept := Ranked(marked, round, urls), Dedup(Pool(marked, round, urls), {});
    RankedIs(marked, round, urls);
    hide Ranked, Pool, Dedup, MarkErrors, PageOf, Stashed, Fileable;
    forall x ensures x in ranked <==> x in kept { assert x in multiset(ranked) <==> x in multiset(kept); }
    forall limit: nat
      ensures NothingLost(origins, round, urls, limit) <==> forall x :: x in Back(ranked, limit) ==> Fileable(marked, x)
    {
      NothingLostIff(origins, round, urls, limit);
    }
    if forall limit: nat :: NothingLost(origins, round, urls, limit) {
      assert NothingLost(origins, round, urls, 0);
      assert Back(ranked, 0) == ranked;
    }
    forall limit: nat, x | x in Back(ranked, limit) ensures x in ranked {
    }
  }

  lemma {:induction false} CutLosesIff(marked: Origins, round: Round, ranked: seq<Item>, limit: nat)
    ensures multiset(Front(ranked, limit)) + multiset(Stashed(SettleAll(marked, round, Back(ranked, limit)))) ==
            multiset(ranked)
            <==> forall x :: x in Back(ranked, limit) ==> Fileable(marked, x)
  {
    hide Stashed, SettleAll, Fileable;
    var back := Back(ranked, limit);
    forall x
      ensures multiset(Stashed(SettleAll(marked, round, back)))[x] ==
              if Fileable(marked, x) then multiset(back)[x] else 0
    {
      StashedCount(marked, round, back, x);
    }
    FiledOut(marked, Front(ranked, limit), back, Stashed(SettleAll(marked, round, back)));
    assert ranked == Front(ranked, limit) + back;
  }

  lemma {:induction false} FiledOut(marked: Origins, front: seq<Item>, back: seq<Item>, stashed: seq<Item>)
    requires forall x :: multiset(stashed)[x] == if Fileable(marked, x) then multiset(back)[x] else 0
    ensures multiset(front) + multiset(stashed) == multiset(front + back)
            <==> forall x :: x in back ==> Fileable(marked, x)
  {
    if multiset(front) + multiset(stashed) == multiset(front + back) {
      forall x | x in back ensures Fileable(marked, x) {
        assert x in multiset(back);
        assert multiset(front + back)[x] == multiset(front)[x] + multiset(back)[x];
      }
    }
    if forall x :: x in back ==> Fileable(marked, x) {
      forall x ensures multiset(stashed)[x] == multiset(back)[x] {
        assert x in multiset(back) <==> x in back;
      }
      assert multiset(stashed) == multiset(back);
    }
  }

  lemma {:induction false} StashedCount(marked: Origins, round: Round, back: seq<Item>, x: Item)
    ensures multiset(Stashed(SettleAll(marked, round, back)))[x] ==
            if Fileable(marked, x) then multiset(back)[x] else 0
  {
    var ids := Sorted(marked.Keys);
    SortedIn(marked);
    SortedNoRepeat(marked.Keys);
    assert SettleAll(marked, round, back).Keys == marked.Keys;
    StashCount(ids, marked, round, back, x);
  }

  lemma {:induction false} SortedNoRepeat(ids: set<string>)
    ensures NoRepeat(Sorted(ids))
  {
    var s := Sorted(ids);
    forall i, j | 0 <= i < j < |s| ensures s[i] != s[j] { LessIrreflexive(s[i]); }
  }

  // ----- With no foreign origin link ahead of the own one -----

  /** What the contributions are made of names no foreign origin first. */
  ghost predicate Own(marked: Origins, round: Round) {
    forall id, x :: id in marked && x in Combined(marked, round, id) ==> Unclaimed(x, id)
  }

  lemma {:induction false} ContributionsFiled(ids: seq<string>, marked: Origins, round: Round,
                                              urls: map<string, string>)
    requires Own(marked, round)
    ensures FiledBy(Contributions(ids, marked, round, urls), ids)
  {
    forall i | 0 <= i < |ids| ensures AllFrom(Contribution(marked, round, urls, ids[i]), ids[i]) {
      TagAllFrom(Combined(marked, round, ids[i]), ids[i], UrlOf(urls, ids[i]));
    }
  }

  lemma {:induction false} PoolFileable(marked: Origins, round: Round, urls: map<string, string>, x: Item)
    requires Own(marked, round) && "" !in marked && x in Pool(marked, round, urls)
    ensures Fileable(marked, x)
  {
    var ids := Sorted(marked.Keys);
    var ls := Contributions(ids, marked, round, urls);
    FlattenMember(ls, x);
    var i :| 0 <= i < |ls| && x in ls[i];
    ContributionsFiled(ids, marked, round, urls);
    var n :| 0 <= n < |ls[i]| && ls[i][n] == x;
    assert ids[i] in ids;
  }

  /** A page loses no key and doubles none, duplicates across origins included: page and new
      stashes together hold the first item of every key the old stashes and the successful
      fetches brought, once. */
  lemma {:induction false} PageConservesKeys(origins: Origins, round: Round, urls: map<string, string>, limit: nat)
    requires "" !in origins && Own(MarkErrors(origins, round), round)
    ensures var pool := Pool(MarkErrors(origins, round), round, urls);
            var page := PageOf(origins, round, urls, limit);
            var kept := page.items + Stashed(page.origins);
            && DistinctKeys(kept)
            && KeySet(kept) == KeySet(pool)
            && (forall x :: x in kept <==> exists i :: FirstAt(pool, i) && pool[i] == x)
  {
    var page := PageOf(origins, round, urls, limit);
    PageKeepsAll(origins, round, urls, limit);
    KeptLikeDedup(page.items + Stashed(page.origins), Pool(MarkErrors(origins, round), round, urls));
  }

  lemma {:induction false} KeptLikeDedup(kept: seq<Item>, pool: seq<Item>)
    requires multiset(kept) == multiset(Dedup(pool, {}))
    ensures DistinctKeys(kept)
    ensures KeySet(kept) == KeySet(pool)
    ensures forall x :: x in kept <==> exists i :: FirstAt(pool, i) && pool[i] == x
  {
    var dedup := Dedup(pool, {});
    KeyBagMonotone(kept, dedup);
    KeyBagMonotone(dedup, kept);
    DedupDistinct(pool);
    DedupKeys(pool, {});
    forall k ensures k in KeySet(kept) <==> k in KeySet(pool) {
      KeyBagSet(kept, k);
      KeyBagSet(dedup, k);
    }
    forall x ensures x in kept <==> exists i :: FirstAt(pool, i) && pool[i] == x {
      DedupKeepsFirst(pool, {}, x);
      assert x in kept <==> x in multiset(kept);
      assert x in dedup <==> x in multiset(dedup);
    }
  }

  lemma {:induction false} PageKeepsAll(origins: Origins, round: Round, urls: map<string, string>, limit: nat)
    requires "" !in origins && Own(MarkErrors(origins, round), round)
    ensures var page := PageOf(origins, round, urls, limit);
            multiset(page.items + Stashed(page.origins)) ==
              multiset(Dedup(Pool(MarkErrors(origins, round), round, urls), {}))
  {
    var marked := MarkErrors(origins, round);
    var pool := Pool(marked, round, urls);
    var ranked := Ranked(marked, round, urls);
    forall x | x in Back(ranked, limit) ensures Fileable(marked, x) {
      assert x in multiset(ranked);
      DedupNoLonger(pool, {});
      assert x in multiset(pool);
      PoolFileable(marked, round, urls, x);
    }
    NothingLostIff(origins, round, urls, limit);
  }

  lemma {:induction false} NextKeys(origins: Origins, round: Round, urls: map<string, string>, limit: nat)
    ensures NextOrigins(origins, round, urls, limit).Keys == origins.Keys
  {
    hide Ranked, Back, StashFor;
  }

  lemma {:induction false} StashesCloned(ids: seq<string>, origins: Origins)
    requires forall i :: 0 <= i < |ids| ==> ids[i] in origins
    ensures Stashes(ids, CloneAll(origins)) == Stashes(ids, origins)
  {
  }

  /** The next cursor has the stashes the page leaves. */
  lemma {:induction false} ClonedStashed(origins: Origins, round: Round, urls: map<string, string>, limit: nat)
    ensures Stashed(NextOrigins(origins, round, urls, limit)) == Stashed(PageOf(origins, round, urls, limit).origins)
  {
    hide PageOf;
    var after := PageOf(origins, round, urls, limit).origins;
    SortedIn(after);
    StashesCloned(Sorted(after.Keys), after);
  }

  lemma {:induction false} NextAt(origins: Origins, round: Round, urls: map<string, string>, limit: nat, id: string)
    requires id in origins
    ensures NextOrigins(origins, round, urls, limit)[id] ==
            Settled(MarkErrors(origins, round)[id], round, id,
                    Back(Ranked(MarkErrors(origins, round), round, urls), limit)).Cloned()
  {
  }

  /** Origin by origin: with distinct keys, what an origin has on the page and in its stash is
      what it brought. */
  lemma {:induction false} OriginConserved(origins: Origins, round: Round, urls: map<string, string>, limit: nat,
                                           id: string)
    requires Own(MarkErrors(origins, round), round)
    requires id in origins && id != ""
    requires DistinctKeys(Pool(MarkErrors(origins, round), round, urls))
    ensures var page := PageOf(origins, round, urls, limit);
            && multiset(Only(page.items, id)) + multiset(page.origins[id].stash) ==
               multiset(Contribution(MarkErrors(origins, round), round, urls, id))
            && AllFrom(page.origins[id].stash, id)
  {
    hide MarkErrors, Pool, Dedup, StableSort, Only, Front, Back, Own, DistinctKeys, TagAll;
    var marked := MarkErrors(origins, round);
    var pool := Pool(marked, round, urls);
    var ranked := StableSort(Dedup(pool, {}));
    RankedIs(marked, round, urls);
    IdentityWhole(pool);
    OnlyPool(marked, round, urls, id);
    OnlySplit(ranked, limit, pool, id);
    OnlyIsFrom(Back(ranked, limit), id);
  }

  lemma {:induction false} RankedIs(marked: Origins, round: Round, urls: map<string, string>)
    ensures Ranked(marked, round, urls) == StableSort(Dedup(Pool(marked, round, urls), {}))
  {
  }

  lemma {:induction false} IdentityWhole(pool: seq<Item>)
    requires DistinctKeys(pool)
    ensures Dedup(pool, {}) == pool
  {
    DedupIdentity(pool, {});
  }

  lemma {:induction false} OnlySplit(ranked: seq<Item>, limit: nat, pool: seq<Item>, id: string)
    requires multiset(ranked) == multiset(pool)
    ensures multiset(Only(Front(ranked, limit), id)) + multiset(Only(Back(ranked, limit), id)) ==
            multiset(Only(pool, id))
    ensures Only(pool, id) == [] ==> Only(Front(ranked, limit), id) == [] && Only(Back(ranked, limit), id) == []
  {
    OnlyPermutation(ranked, pool, id);
    assert ranked == Front(ranked, limit) + Back(ranked, limit);
    hide *;
    OnlyAppend(Front(ranked, limit), Back(ranked, limit), id);
    SplitBag(Only(Front(ranked, limit), id), Only(Back(ranked, limit), id), Only(pool, id));
  }

  lemma {:induction false} SplitBag(a: seq<Item>, b: seq<Item>, whole: seq<Item>)
    requires multiset(a + b) == multiset(whole)
    ensures multiset(a) + multiset(b) == multiset(whole)
    ensures whole == [] ==> a == [] && b == []
  {
    assert |multiset(a + b)| == |a + b|;
  }

  lemma {:induction false} OnlyPool(marked: Origins, round: Round, urls: map<string, string>, id: string)
    requires Own(marked, round) && id in marked
    ensures Only(Pool(marked, round, urls), id) == Contribution(marked, round, urls, id)
  {
    var ids := Sorted(marked.Keys);
    assert id in ids;
    var j :| 0 <= j < |ids| && ids[j] == id;
    ContributionsFiled(ids, marked, round, urls);
    OnlyFlatten(Contributions(ids, marked, round, urls), ids, j);
  }

  /** An origin's stash never grows past what the origin brought. */
  lemma {:induction false} StashWithin(origins: Origins, round: Round, urls: map<string, string>, limit: nat,
                                       id: string)
    requires Own(MarkErrors(origins, round), round) && id in origins
    ensures var page := PageOf(origins, round, urls, limit);
            && |page.origins[id].stash| <= |Combined(MarkErrors(origins, round), round, id)|
            && AllFrom(page.origins[id].stash, id)
  {
    var marked := MarkErrors(origins, round);
    OnlyPool(marked, round, urls, id);
    SettledWithin(marked, round, Pool(marked, round, urls), limit, id);
  }

  lemma {:induction false} SettledWithin(marked: Origins, round: Round, pool: seq<Item>, limit: nat, id: string)
    requires id in marked
    ensures var stash := Settled(marked[id], round, id, Back(StableSort(Dedup(pool, {})), limit)).stash;
            |stash| <= |Only(pool, id)| && AllFrom(stash, id)
  {
    hide Dedup, StableSort, Only;
    DedupNoLonger(pool, {});
    BackShort(StableSort(Dedup(pool, {})), limit, pool, id);
  }

  lemma {:induction false} BackShort(ranked: seq<Item>, limit: nat, pool: seq<Item>, id: string)
    requires multiset(ranked) <= multiset(pool)
    ensures |StashFor(Back(ranked, limit), id)| <= |Only(pool, id)|
    ensures AllFrom(StashFor(Back(ranked, limit), id), id)
  {
    OnlyIsFrom(Back(ranked, limit), id);
    BackWithin(ranked, limit, pool);
    OnlyShorter(Back(ranked, limit), pool, id);
  }

  lemma {:induction false} BackWithin(ranked: seq<Item>, limit: nat, pool: seq<Item>)
    requires multiset(ranked) <= multiset(pool)
    ensures multiset(Back(ranked, limit)) <= multiset(pool)
  {
    assert ranked == Front(ranked, limit) + Back(ranked, limit);
    forall x ensures multiset(Back(ranked, limit))[x] <= multiset(pool)[x] {
      assert multiset(ranked)[x] <= multiset(pool)[x];
    }
  }

  lemma {:induction false} OnlyShorter(a: seq<Item>, b: seq<Item>, id: string)
    requires multiset(a) <= multiset(b)
    ensures |Only(a, id)| <= |Only(b, id)|
  {
    var p, q := multiset(Only(a, id)), multiset(Only(b, id));
    forall x ensures p[x] <= q[x] {
      OnlyCount(a, id, x);
      OnlyCount(b, id, x);
    }
    assert q == p + (q - p);
  }
}
