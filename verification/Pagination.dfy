/**
 One page of a federated search: which origins are fetched, how their results are merged
 with the stashes, what is emitted and what is stashed again.
 (internal/federation/pagination.go: Search, mergeResults)
 */
module Pagination {
  import opened Text
  import opened Items
  import opened Ordering
  import opened ListMerge
  import opened Merger
  import opened Cursor

  /** What one origin answers to a fetch: an error (items that come with an error are
      dropped), or items and the position of the next page, if there is one. */
  datatype Fetch = Failed | Fetched(items: seq<Item>, next: Option<nat>)

  datatype FetchResult = FetchResult(originId: string, fetch: Fetch)

  /** The results of a fan-out by origin. */
  type Round = map<string, Fetch>

  predicate Fetchable(oc: OriginCursor, limit: nat) {
    !oc.exhausted && !oc.Retired() && |oc.stash| < limit
  }

  ghost function ToFetch(origins: Origins, limit: nat): set<string> {
    set id | id in origins && Fetchable(origins[id], limit)
  }

  function UrlOf(urls: map<string, string>, id: string): string {
    if id in urls then urls[id] else ""
  }

  // ----- The page as a function of the cursor and the round -----

  function MarkErrors(origins: Origins, round: Round): (r: Origins)
    ensures r.Keys == origins.Keys
  {
    map id | id in origins ::
      if id in round && round[id].Failed? then origins[id].Failed() else origins[id]
  }

  function FreshItems(round: Round, id: string): seq<Item> {
    if id in round && round[id].Fetched? then round[id].items else []
  }

  /** What origin `id` brings to the merge: its stash, then its fresh items. */
  function Combined(origins: Origins, round: Round, id: string): seq<Item> {
    if id in origins && origins[id].HasMore() then origins[id].stash + FreshItems(round, id) else []
  }

  function Contribution(origins: Origins, round: Round, urls: map<string, string>, id: string): seq<Item> {
    TagAll(Combined(origins, round, id), id, UrlOf(urls, id))
  }

  function Contributions(ids: seq<string>, origins: Origins, round: Round,
                         urls: map<string, string>): (r: seq<seq<Item>>)
    ensures |r| == |ids|
    ensures forall i :: 0 <= i < |ids| ==> r[i] == Contribution(origins, round, urls, ids[i])
  {
    seq(|ids|, i requires 0 <= i < |ids| => Contribution(origins, round, urls, ids[i]))
  }

  /** The deduplicated, sorted items a page is cut from. `origins` has the errors marked. */
  ghost function Ranked(origins: Origins, round: Round, urls: map<string, string>): seq<Item> {
    StableSort(Dedup(Flatten(Contributions(Sorted(origins.Keys), origins, round, urls)), {}))
  }

  function Front(ranked: seq<Item>, limit: nat): seq<Item> {
    ranked[..Min(limit, |ranked|)]
  }

  function Back(ranked: seq<Item>, limit: nat): seq<Item> {
    ranked[Min(limit, |ranked|)..]
  }

  lemma {:induction false} FrontBack(s: seq<Item>, limit: nat)
    ensures s == Front(s, limit) + Back(s, limit)
    ensures forall x :: x in Back(s, limit) ==> x in s
  {
  }

  /** Remainder items are filed by their origin link; those filed under "" are skipped. */
  function StashFor(back: seq<Item>, id: string): seq<Item> {
    if id == "" then [] else Only(back, id)
  }

  function Settled(oc: OriginCursor, round: Round, id: string, back: seq<Item>): OriginCursor {
    if !oc.HasMore() then oc
    else if id in round && round[id].Fetched? then
      oc.Advanced(|round[id].items|, round[id].next).(stash := StashFor(back, id))
    else oc.(stash := StashFor(back, id))
  }

  function SettleAll(origins: Origins, round: Round, back: seq<Item>): (r: Origins)
    ensures r.Keys == origins.Keys
  {
    map id | id in origins :: Settled(origins[id], round, id, back)
  }

  datatype Page = Page(items: seq<Item>, origins: Origins)

  /** The page and the cursor state after it. */
  ghost function PageOf(origins: Origins, round: Round, urls: map<string, string>, limit: nat): Page {
    var marked := MarkErrors(origins, round);
    var ranked := Ranked(marked, round, urls);
    Page(Front(ranked, limit), SettleAll(marked, round, Back(ranked, limit)))
  }

  /** The state of the next page's cursor. */
  ghost function NextOrigins(origins: Origins, round: Round, urls: map<string, string>, limit: nat): Origins {
    CloneAll(PageOf(origins, round, urls, limit).origins)
  }

  // ----- The imperative form -----

  function ResultMap(results: seq<FetchResult>): Round {
    if results == [] then map[]
    else
      var last := results[|results| - 1];
      ResultMap(results[..|results| - 1])[last.originId := last.fetch]
  }

  ghost predicate OncePerOrigin(results: seq<FetchResult>) {
    forall i, j :: 0 <= i < j < |results| ==> results[i].originId != results[j].originId
  }

  lemma {:induction false} ResultMapKeys(results: seq<FetchResult>, id: string)
    ensures id in ResultMap(results) <==> exists i :: 0 <= i < |results| && results[i].originId == id
  {
    if results != [] {
      var n := |results| - 1;
      ResultMapKeys(results[..n], id);
      if i :| 0 <= i < |results| && results[i].originId == id {
        if i < n { assert results[..n][i].originId == id; }
      }
    }
  }

  lemma {:induction false} ResultMapSnoc(results: seq<FetchResult>, i: nat)
    requires OncePerOrigin(results) && i < |results|
    ensures results[i].originId !in ResultMap(results[..i])
    ensures ResultMap(results[..i + 1]) == ResultMap(results[..i])[results[i].originId := results[i].fetch]
  {
    ResultMapKeys(results[..i], results[i].originId);
    assert results[..i + 1][..i] == results[..i] && results[..i + 1][i] == results[i];
  }

  lemma {:induction false} MarkStep(origins: Origins, round: Round, result: FetchResult)
    requires result.originId !in round
    ensures var id, round' := result.originId, round[result.originId := result.fetch];
            && (MarkErrors(origins, round') ==
                if result.fetch.Failed? && id in origins then MarkErrors(origins, round)[id := origins[id].Failed()]
                else MarkErrors(origins, round))
            && (Succeeded(round') ==
                if result.fetch.Failed? then Succeeded(round) else Succeeded(round)[id := result.fetch])
  {
  }

  /** A round in which every requested origin is answered from `responses`, an origin
      without an answer counting as a failed fetch. */
  function Answer(responses: Round, ids: set<string>): Round {
    map id | id in ids :: Reply(responses, id)
  }

  function Reply(responses: Round, id: string): Fetch {
    if id in responses then responses[id] else Failed
  }

  class PaginatedSearcher {
    const urls: map<string, string>

    constructor (urls: map<string, string>)
      ensures this.urls == urls
    {
      this.urls := urls;
    }

    /** mergeResults: returns the page and leaves the cursor in the state after it. */
    method MergeResults(results: seq<FetchResult>, cursor: FederatedCursor, limit: nat) returns (emitted: seq<Item>)
      requires OncePerOrigin(results)
      modifies cursor`origins
      ensures Page(emitted, cursor.origins) == PageOf(old(cursor.origins), ResultMap(results), urls, limit)
    {
      var byOrigin := MarkPhase(results, cursor);
      var active := cursor.ActiveOrigins();
      ghost var round := ResultMap(results);
      ghost var marked := cursor.origins;
      ActiveLists(marked);
      ContributionsKeep(Sorted(marked.Keys), marked, round, urls);
      var sources := Gather(cursor.origins, byOrigin, active, round);
      var merged := MergeItemsFirstWins(sources);
      merged := StableSort(merged);
      var remainder: seq<Item> := [];
      if |merged| > limit {
        emitted, remainder := merged[..limit], merged[limit..];
      } else {
        emitted := merged;
      }
      assert remainder == Back(merged, limit);
      var newStash := GroupByOrigin(remainder);
      Settle(cursor, byOrigin, active, newStash, remainder, round);
    }

    /** Phase 1: errors are marked, fresh results are indexed by origin. */
    method MarkPhase(results: seq<FetchResult>, cursor: FederatedCursor) returns (byOrigin: Round)
      requires OncePerOrigin(results)
      modifies cursor`origins
      ensures cursor.origins == MarkErrors(old(cursor.origins), ResultMap(results))
      ensures byOrigin == Succeeded(ResultMap(results))
    {
      byOrigin := map[];
      ghost var start := cursor.origins;
      for i := 0 to |results|
        invariant cursor.origins == MarkErrors(start, ResultMap(results[..i]))
        invariant byOrigin == Succeeded(ResultMap(results[..i]))
      {
        var result := results[i];
        ResultMapSnoc(results, i);
        MarkStep(start, ResultMap(results[..i]), result);
        if result.fetch.Failed? {
          cursor.MarkError(result.originId);
          continue;
        }
        byOrigin := byOrigin[result.originId := result.fetch];
      }
      assert results[..|results|] == results;
    }

    /** Phase 2: stash and fresh items of every active origin, in origin order. */
    method Gather(origins: Origins, byOrigin: Round, active: seq<string>, ghost round: Round)
        returns (sources: seq<Source>)
      requires Lists(active, origins)
      requires byOrigin == Succeeded(round)
      ensures Laid(sources) == Flatten(Contributions(active, origins, round, urls))
    {
      hide Laid, Flatten, TagAll, Contributions;
      NothingLaid(origins, round, urls);
      sources := [];
      assert active[..0] == [];
      for i := 0 to |active|
        invariant Laid(sources) == Flatten(Contributions(active[..i], origins, round, urls))
      {
        var id := active[i];
        assert id in active;
        var items := if id in byOrigin then byOrigin[id].items else [];
        var combined := origins[id].stash + items;
        assert combined == Combined(origins, round, id);
        ContributionsSnoc(active[..i], id, origins, round, urls);
        assert active[..i + 1] == active[..i] + [id];
        if |combined| == 0 {
          TagNothing(id, UrlOf(urls, id));
          continue;
        }
        LaidSnoc(sources, Source(id, UrlOf(urls, id), combined));
        sources := sources + [Source(id, UrlOf(urls, id), combined)];
      }
      assert active[..|active|] == active;
    }

    /** Phase 4: the remainder grouped by origin link. */
    method GroupByOrigin(remainder: seq<Item>) returns (newStash: map<string, seq<Item>>)
      ensures Grouped(newStash, remainder)
    {
      newStash := map[];
      forall id ensures StashFor(remainder[..0], id) == [] { StashForNothing(id); }
      for i := 0 to |remainder|
        invariant Grouped(newStash, remainder[..i])
      {
        hide Grouped;
        var item := remainder[i];
        var originId := OriginOf(item);
        assert remainder[..i + 1] == remainder[..i] + [item];
        GroupStep(newStash, remainder[..i], item);
        if originId == "" {
          continue;
        }
        newStash := newStash[originId := Bucket(newStash, originId) + [item]];
      }
      assert remainder[..|remainder|] == remainder;
    }

    /** Phase 5: positions advance, stashes are overwritten. */
    method Settle(cursor: FederatedCursor, byOrigin: Round, active: seq<string>, newStash: map<string, seq<Item>>,
                  ghost remainder: seq<Item>, ghost round: Round)
      requires Lists(active, cursor.origins)
      requires byOrigin == Succeeded(round)
      requires Grouped(newStash, remainder)
      modifies cursor`origins
      ensures cursor.origins == SettleAll(old(cursor.origins), round, remainder)
    {
      hide StashFor;
      ghost var start := cursor.origins;
      ghost var done: set<string> := {};
      for i := 0 to |active|
        invariant done == set id | id in active[..i]
        invariant cursor.origins == SettleSome(start, round, remainder, done)
      {
        var id := active[i];
        assert id in active;
        assert id !in active[..i];
        SettleStep(start, round, remainder, done, id);
        if id in byOrigin {
          cursor.UpdateOriginState(id, |byOrigin[id].items|, byOrigin[id].next);
        }
        cursor.origins := cursor.origins[id := cursor.origins[id].(stash := Bucket(newStash, id))];
        done := done + {id};
        assert active[..i + 1] == active[..i] + [id];
      }
      assert active[..|active|] == active;
    }

    /** Fetch selection, fan-out and merge: one page, whatever the upstreams answer. */
    method RunPage(cursor: FederatedCursor, responses: Round, limit: nat) returns (items: seq<Item>)
      modifies cursor
      ensures Page(items, cursor.origins) ==
              PageOf(old(cursor.origins), Answer(responses, ToFetch(old(cursor.origins), limit)), urls, limit)
      ensures cursor.totalReturned == old(cursor.totalReturned) + |items|
    {
      var active := cursor.ActiveOrigins();
      ActiveLists(cursor.origins);
      var toFetch := SelectFetches(cursor.origins, active, limit);
      assert (set id | id in toFetch) == ToFetch(cursor.origins, limit);
      var results := FetchFromOrigins(toFetch, responses);
      items := MergeResults(results, cursor, limit);
      cursor.totalReturned := cursor.totalReturned + |items|;
    }

    /** Active origins that are neither exhausted nor retired and whose stash cannot fill the
        page are fetched, each once. */
    method SelectFetches(origins: Origins, active: seq<string>, limit: nat) returns (toFetch: seq<string>)
      requires Lists(active, origins)
      ensures NoRepeat(toFetch)
      ensures forall id :: id in toFetch <==> id in ToFetch(origins, limit)
    {
      toFetch := [];
      for i := 0 to |active|
        invariant NoRepeat(toFetch)
        invariant forall id :: id in toFetch <==> id in active[..i] && id in ToFetch(origins, limit)
      {
        var id := active[i];
        assert id in active;
        assert id !in active[..i];
        assert active[..i + 1] == active[..i] + [id];
        var oc := origins[id];
        if oc.exhausted || oc.Retired() || |oc.stash| >= limit {
          continue;
        }
        toFetch := toFetch + [id];
      }
      assert active[..|active|] == active;
    }

    /** The fan-out: one result per requested origin, in order. */
    method FetchFromOrigins(toFetch: seq<string>, responses: Round) returns (results: seq<FetchResult>)
      requires NoRepeat(toFetch)
      ensures OncePerOrigin(results) && |results| == |toFetch|
      ensures forall k :: 0 <= k < |toFetch| ==>
                results[k].originId == toFetch[k] &&
                results[k].fetch == if toFetch[k] in responses then responses[toFetch[k]] else Failed
      ensures ResultMap(results) == Answer(responses, set id | id in toFetch)
    {
      results := [];
      for i := 0 to |toFetch|
        invariant |results| == i
        invariant forall k :: 0 <= k < i ==> results[k] == FetchResult(toFetch[k], Reply(responses, toFetch[k]))
      {
        var id := toFetch[i];
        results := results + [FetchResult(id, if id in responses then responses[id] else Failed)];
      }
      AllAnswered(responses, toFetch, results);
    }
  }

  lemma {:induction false} AllAnswered(responses: Round, asked: seq<string>, results: seq<FetchResult>)
    requires |results| == |asked|
    requires forall k :: 0 <= k < |asked| ==> results[k] == FetchResult(asked[k], Reply(responses, asked[k]))
    ensures ResultMap(results) == Answer(responses, set id | id in asked)
  {
    if results != [] {
      var n := |results| - 1;
      AllAnswered(responses, asked[..n], results[..n]);
      assert asked == asked[..n] + [asked[n]];
    }
  }

  function Bucket(stashes: map<string, seq<Item>>, id: string): seq<Item> {
    if id in stashes then stashes[id] else []
  }

  /** Every origin's bucket holds the items filed under it. */
  ghost predicate Grouped(stashes: map<string, seq<Item>>, items: seq<Item>) {
    forall id :: Bucket(stashes, id) == StashFor(items, id)
  }

  lemma {:induction false} GroupStep(stashes: map<string, seq<Item>>, before: seq<Item>, item: Item)
    requires Grouped(stashes, before)
    ensures var id := OriginOf(item);
            Grouped(if id == "" then stashes else stashes[id := Bucket(stashes, id) + [item]], before + [item])
  {
    var o := OriginOf(item);
    var after := if o == "" then stashes else stashes[o := Bucket(stashes, o) + [item]];
    hide StashFor, OriginOf;
    forall id ensures Bucket(after, id) == StashFor(before + [item], id) {
      StashForSnoc(before, item, id);
      assert Bucket(stashes, id) == StashFor(before, id);
    }
  }

  function Succeeded(round: Round): Round {
    map id | id in round && round[id].Fetched? :: round[id]
  }

  function SettleSome(origins: Origins, round: Round, back: seq<Item>, ids: set<string>): Origins {
    map id | id in origins :: if id in ids then Settled(origins[id], round, id, back) else origins[id]
  }

  lemma {:induction false} SettleStep(origins: Origins, round: Round, back: seq<Item>, ids: set<string>, id: string)
    requires id in origins && id !in ids
    ensures SettleSome(origins, round, back, ids)[id] == origins[id]
    ensures SettleSome(origins, round, back, ids + {id}) ==
            SettleSome(origins, round, back, ids)[id := Settled(origins[id], round, id, back)]
  {
  }

  lemma {:induction false} StashForNothing(id: string)
    ensures StashFor([], id) == []
  {
  }

  lemma {:induction false} StashForSnoc(back: seq<Item>, item: Item, id: string)
    ensures StashFor(back + [item], id) ==
            if id != "" && OriginOf(item) == id then StashFor(back, id) + [item] else StashFor(back, id)
  {
    OnlyAppend(back, [item], id);
    assert [item][1..] == [];
  }

  ghost predicate NoRepeat(ids: seq<string>) {
    forall i, j :: 0 <= i < j < |ids| ==> ids[i] != ids[j]
  }

  /** `active` lists the origins that have more, each once. */
  ghost predicate Lists(active: seq<string>, origins: Origins) {
    && NoRepeat(active)
    && (forall x :: x in active <==> x in origins && origins[x].HasMore())
  }

  lemma {:induction false} ActiveLists(origins: Origins)
    ensures Lists(Active(origins), origins)
  {
    var active := Active(origins);
    KeepIncreasing(Sorted(origins.Keys), origins);
    forall i, j | 0 <= i < j < |active| ensures active[i] != active[j] {
      LessIrreflexive(active[i]);
    }
    forall x ensures x in active <==> x in origins && origins[x].HasMore() {
      KeepMember(Sorted(origins.Keys), origins, x);
    }
  }

  lemma {:induction false} NothingLaid(origins: Origins, round: Round, urls: map<string, string>)
    ensures Laid([]) == [] && Flatten(Contributions([], origins, round, urls)) == []
  {
  }

  lemma {:induction false} TagNothing(id: string, url: string)
    ensures TagAll([], id, url) == []
  {
  }

  lemma {:induction false} ContributionsSnoc(ids: seq<string>, id: string, origins: Origins, round: Round,
                                             urls: map<string, string>)
    ensures Flatten(Contributions(ids + [id], origins, round, urls)) ==
            Flatten(Contributions(ids, origins, round, urls)) + Contribution(origins, round, urls, id)
  {
    var one := [Contribution(origins, round, urls, id)];
    assert Contributions(ids + [id], origins, round, urls) == Contributions(ids, origins, round, urls) + one;
    FlattenAppend(Contributions(ids, origins, round, urls), one);
    assert Flatten(one) == one[0];
  }

  /** Origins that are not active contribute nothing. */
  lemma {:induction false} ContributionsKeep(ids: seq<string>, origins: Origins, round: Round,
                                             urls: map<string, string>)
    ensures Flatten(Contributions(Keep(ids, origins), origins, round, urls)) ==
            Flatten(Contributions(ids, origins, round, urls))
  {
    if ids != [] {
      ContributionsKeep(ids[1..], origins, round, urls);
      assert Contributions(ids, origins, round, urls)[1..] == Contributions(ids[1..], origins, round, urls);
      var kept := Keep(ids, origins);
      if ids[0] in origins && origins[ids[0]].HasMore() {
        assert kept[1..] == Keep(ids[1..], origins);
        assert Contributions(kept, origins, round, urls)[1..] == Contributions(kept[1..], origins, round, urls);
      } else {
        assert kept == Keep(ids[1..], origins);
      }
    }
  }
}
