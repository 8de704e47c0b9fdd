/**
 When a session shows a key twice: exactly when a page's fetches bring a key that was shown
 before; and which origins rule that out.
 (internal/federation/merger.go: mergeItemsFirstWins; internal/federation/pagination.go: mergeResults)
 */
module Repeats {
  import opened Text
  import opened Items
  import opened Ordering
  import opened Merger
  import opened ListMerge
  import opened Cursor
  import opened Pagination
  import opened PageLaws
  import opened Sessions
  import opened Paging
  import opened Duplicates

  // ----- Which sessions repeat a key -----

  /** The fetches of the round bring no key that has been shown: the test that dedup, which starts
      afresh on every page, leaves out. */
  ghost predicate BringsNewKeys(t: Trail, round: Round) {
    forall id :: id in t.origins ==> KeySet(FreshItems(round, id)) !! KeySet(Flatten(t.pages))
  }

  ghost predicate NeverRefetched(w: World, rounds: seq<Round>) {
    rounds == [] ||
    (var before := rounds[..|rounds| - 1];
     NeverRefetched(w, before) && BringsNewKeys(Run(w, before), rounds[|rounds| - 1]))
  }

  /** What is shown and what is stashed have distinct keys. */
  ghost predicate KeysOnce(t: Trail) {
    DistinctKeys(Flatten(t.pages) + Stashed(t.origins))
  }

  lemma {:induction false} DistinctAppend(a: seq<Item>, b: seq<Item>)
    ensures DistinctKeys(a + b) <==> DistinctKeys(a) && DistinctKeys(b) && KeySet(a) !! KeySet(b)
  {
    KeyBagAppend(a, b);
    forall k ensures k in KeySet(a) <==> k in KeyBag(a) { KeyBagSet(a, k); }
    forall k ensures k in KeySet(b) <==> k in KeyBag(b) { KeyBagSet(b, k); }
    hide KeyBag, KeySet, Key;
    var bagA, bagB := KeyBag(a), KeyBag(b);
    assert forall k :: KeyBag(a + b)[k] == bagA[k] + bagB[k];
    if DistinctKeys(a + b) {
      forall k ensures bagA[k] <= 1 && bagB[k] <= 1 && !(k in bagA && k in bagB) {
        assert KeyBag(a + b)[k] <= 1;
      }
    }
  }

  /** One page: given that the stashes have distinct keys, the page repeats none if and only if none
      was repeated before and the fetches bring new keys; the stashes it leaves have distinct keys. */
  lemma {:induction false} PageRepeatsIff(w: World, t: Trail, round: Round)
    requires Attributed(w) && Placed(w, t.origins) && Tidy(t.origins) && HonestRound(w, t.origins, round)
    requires DistinctKeys(Stashed(t.origins))
    ensures var t' := Trail(t.pages + [PageOf(t.origins, round, w.urls, w.limit).items],
                            NextOrigins(t.origins, round, w.urls, w.limit));
            && DistinctKeys(Stashed(t'.origins))
            && (KeysOnce(t') <==> KeysOnce(t) && BringsNewKeys(t, round))
  {
    hide *;
    var page := PageOf(t.origins, round, w.urls, w.limit);
    var shown, left := Flatten(t.pages), Stashed(page.origins);
    var t' := Trail(t.pages + [page.items], NextOrigins(t.origins, round, w.urls, w.limit));
    KeptDistinct(w, t.origins, round);
    ClonedStashed(t.origins, round, w.urls, w.limit);
    FlattenSnoc(t.pages, page.items);
    Assoc(shown, page.items, left);
    DistinctAppend(page.items, left);
    DistinctAppend(shown, page.items + left);
    DistinctAppend(shown, Stashed(t.origins));
    KeysAppend(page.items, left);
    forall k ensures k in KeySet(page.items + left) <==>
                     k in KeySet(Stashed(t.origins)) ||
                     exists id :: id in t.origins && k in KeySet(FreshItems(round, id))
    {
      PageKeepsKeys(w, t.origins, round, k);
    }
    KeysOnceIs(t);
    KeysOnceIs(t');
    KeptApart(t, round, KeySet(page.items + left));
  }

  lemma {:induction false} KeptDistinct(w: World, origins: Origins, round: Round)
    requires Attributed(w) && Placed(w, origins) && Tidy(origins) && HonestRound(w, origins, round)
    ensures var page := PageOf(origins, round, w.urls, w.limit); DistinctKeys(page.items + Stashed(page.origins))
  {
    OwnFresh(w, origins, round);
    assert "" !in origins;
    hide *;
    PageConservesKeys(origins, round, w.urls, w.limit);
  }

  lemma {:induction false} KeysOnceIs(t: Trail)
    ensures KeysOnce(t) <==> DistinctKeys(Flatten(t.pages) + Stashed(t.origins))
  {
  }

  lemma {:induction false} KeptApart(t: Trail, round: Round, kept: set<string>)
    requires forall k :: k in kept <==>
               k in KeySet(Stashed(t.origins)) || exists id :: id in t.origins && k in KeySet(FreshItems(round, id))
    ensures KeySet(Flatten(t.pages)) !! kept <==>
            KeySet(Flatten(t.pages)) !! KeySet(Stashed(t.origins)) && BringsNewKeys(t, round)
  {
    hide KeySet, Flatten, Stashed, FreshItems;
    var shown := KeySet(Flatten(t.pages));
    if shown !! kept {
      forall k | k in shown ensures k !in KeySet(Stashed(t.origins)) { assert k !in kept; }
      forall id, k | id in t.origins && k in KeySet(FreshItems(round, id)) ensures k !in shown { assert k in kept; }
    }
  }

  /** Exactly when a session repeats a key, failures and shared items included: at every cursor, what
      was shown and stashed has distinct keys if and only if no fetch brought a key shown before. */
  lemma {:induction false} KeysOnceIff(w: World, rounds: seq<Round>)
    requires Attributed(w) && Session(w, rounds)
    ensures DistinctKeys(Stashed(Run(w, rounds).origins))
    ensures KeysOnce(Run(w, rounds)) <==> NeverRefetched(w, rounds)
  {
    hide KeysOnce, BringsNewKeys, Attributed, HonestRound, AnyMore, NextOrigins, PageOf, DistinctKeys, Stashed;
    if rounds == [] {
      NothingRepeats(w);
    } else {
      var first := rounds[..|rounds| - 1];
      KeysOnceIff(w, first);
      NoKeyLost(w, first);
      KeptParts(w, Run(w, first));
      PageRepeatsIff(w, Run(w, first), rounds[|rounds| - 1]);
    }
  }

  lemma {:induction false} NothingRepeats(w: World)
    ensures KeysOnce(Run(w, [])) && DistinctKeys(Stashed(Run(w, []).origins))
  {
    var t := Run(w, []);
    assert Flatten(t.pages) == [];
    NothingStashed(t.origins);
    assert DistinctKeys([]);
  }

  lemma {:induction false} NothingStashed(origins: Origins)
    requires Quiet(origins)
    ensures Stashed(origins) == []
  {
    SortedIn(origins);
    FlattenEmpty(Stashes(Sorted(origins.Keys), origins));
  }

  /** A session that has ended shows no key twice if and only if no fetch brought a key shown before. */
  lemma {:induction false} EndedRepeatsIff(w: World, rounds: seq<Round>)
    requires Attributed(w) && Session(w, rounds) && !AnyMore(Run(w, rounds).origins)
    ensures DistinctKeys(Flatten(Run(w, rounds).pages)) <==> NeverRefetched(w, rounds)
  {
    var t := Run(w, rounds);
    forall id | id in t.origins ensures t.origins[id].stash == [] { assert !t.origins[id].HasMore(); }
    assert Quiet(t.origins);
    hide *;
    NothingStashed(t.origins);
    KeysOnceIff(w, rounds);
    KeysOnceIs(t);
    assert Flatten(t.pages) + [] == Flatten(t.pages);
  }

  // ----- Which origins rule repeats out -----

  ghost predicate Quiet(origins: Origins) {
    forall id :: id in origins ==> origins[id].stash == []
  }

  /** One item, and the position after it unless that is the end. */
  function OneItem(oc: OriginCursor, list: seq<Item>): (f: Fetch)
    requires Start(oc) <= |list|
    ensures HonestFetch(oc, list, f)
  {
    var p := Start(oc);
    if p == |list| then Fetched([], None)
    else Fetched(list[p..p + 1], if p + 1 == |list| then None else Some(p + 1))
  }

  /** Only `id` answers, with one item. */
  ghost function Drip(w: World, origins: Origins, id: string): Round
    requires id in origins && id in w.lists && Start(origins[id]) <= |w.lists[id]|
  {
    map o | o in ToFetch(origins, w.limit) :: if o == id then OneItem(origins[id], w.lists[id]) else Failed
  }

  /** The session so far has shown all it fetched, item by item. */
  ghost predicate Dripped(w: World, rounds: seq<Round>) {
    var t := Run(w, rounds);
    Session(w, rounds) && AllAccounted(w, Flatten(t.pages), t.origins) && Quiet(t.origins)
  }

  lemma {:induction false} DripAnswers(w: World, origins: Origins, id: string)
    requires Placed(w, origins) && Tidy(origins) && Quiet(origins) && id in origins && !origins[id].exhausted
             && 0 < w.limit
    ensures var round := Drip(w, origins, id);
            && AnyMore(origins) && HonestRound(w, origins, round)
            && id in round && round[id] == OneItem(origins[id], w.lists[id])
            && forall o :: o in round && o != id ==> round[o].Failed?
  {
    hide OneItem;
    assert origins[id].HasMore();
  }

  lemma {:induction false} FlattenOne(ls: seq<seq<Item>>, j: nat)
    requires j < |ls| && forall i :: 0 <= i < |ls| && i != j ==> ls[i] == []
    ensures Flatten(ls) == ls[j]
  {
    FlattenAt(ls, j);
    FlattenEmpty(ls[..j]);
    FlattenEmpty(ls[j + 1..]);
  }

  /** At most one item is brought, so nothing is deduplicated and nothing stashed. */
  lemma {:induction false} DripPool(origins: Origins, round: Round, urls: map<string, string>, id: string)
    requires Quiet(origins) && id in origins && id in round && round[id].Fetched? && |round[id].items| <= 1
    requires forall o :: o in round && o != id ==> round[o].Failed?
    ensures |Pool(MarkErrors(origins, round), round, urls)| <= 1
  {
    var marked := MarkErrors(origins, round);
    hide *;
    var ids := Sorted(marked.Keys);
    assert id in ids;
    var j :| 0 <= j < |ids| && ids[j] == id;
    var ls := Contributions(ids, marked, round, urls);
    SortedNoRepeat(marked.Keys);
    NoRepeatAt(ids, j);
    forall i | 0 <= i < |ids| && i != j ensures ls[i] == [] {
      assert ids[i] in ids;
      DripOthers(origins, round, urls, id, ids[i]);
    }
    FlattenOne(ls, j);
    DripOwn(origins, round, urls, id);
    PoolIs(marked, round, urls);
  }

  lemma {:induction false} NoRepeatAt(ids: seq<string>, j: nat)
    requires NoRepeat(ids) && j < |ids|
    ensures forall i :: 0 <= i < |ids| && i != j ==> ids[i] != ids[j]
  {
  }

  lemma {:induction false} DripOthers(origins: Origins, round: Round, urls: map<string, string>, id: string, o: string)
    requires Quiet(origins) && o in origins && o != id && forall p :: p in round && p != id ==> round[p].Failed?
    ensures Contribution(MarkErrors(origins, round), round, urls, o) == []
  {
    hide TagAll;
    assert Combined(MarkErrors(origins, round), round, o) == [];
    TagNothing(o, UrlOf(urls, o));
  }

  lemma {:induction false} DripOwn(origins: Origins, round: Round, urls: map<string, string>, id: string)
    requires Quiet(origins) && id in origins && id in round && round[id].Fetched? && |round[id].items| <= 1
    ensures |Contribution(MarkErrors(origins, round), round, urls, id)| <= 1
  {
    hide TagAll;
    TagLength(Combined(MarkErrors(origins, round), round, id), id, UrlOf(urls, id));
  }

  lemma {:induction false} TagLength(s: seq<Item>, id: string, url: string)
    ensures |TagAll(s, id, url)| == |s|
  {
  }

  lemma {:induction false} SmallDistinct(s: seq<Item>)
    requires |s| <= 1
    ensures DistinctKeys(s)
  {
    if s != [] {
      assert s == [s[0]];
      KeyBagOne(s[0]);
    }
  }

  lemma {:induction false} SmallFits(marked: Origins, round: Round, urls: map<string, string>, limit: nat)
    requires |Pool(marked, round, urls)| <= 1 && 0 < limit
    ensures Back(Ranked(marked, round, urls), limit) == []
  {
    hide Ranked, Pool, Dedup;
    RankedIs(marked, round, urls);
    DedupNoLonger(Pool(marked, round, urls), {});
  }

  /** The cursor after such a page: `id` has moved by its item or is at its end. */
  lemma {:induction false} DripMoves(w: World, origins: Origins, round: Round, id: string)
    requires id in origins && id in w.lists && !origins[id].exhausted && Start(origins[id]) <= |w.lists[id]|
    requires origins[id].errorCount == 0 && id in round && round[id] == OneItem(origins[id], w.lists[id])
    requires Back(Ranked(MarkErrors(origins, round), round, w.urls), w.limit) == []
    requires forall o :: o in round && o != id ==> round[o].Failed?
    ensures var next := NextOrigins(origins, round, w.urls, w.limit);
            && next.Keys == origins.Keys
            && (next[id].exhausted || Start(origins[id]) < Start(next[id]) <= |w.lists[id]|)
            && (forall o :: o in origins && origins[o].exhausted ==> next[o].exhausted)
            && (Quiet(origins) ==> Quiet(next))
  {
    hide NextOrigins, Ranked, StashFor, Back, OneItem, Settled, MarkErrors;
    var next := NextOrigins(origins, round, w.urls, w.limit);
    NextKeys(origins, round, w.urls, w.limit);
    forall o | o in origins
      ensures next[o].stash == [] || next[o].stash == origins[o].stash
      ensures origins[o].exhausted ==> next[o].exhausted
    {
      NextAt(origins, round, w.urls, w.limit, o);
      DripSettles(origins, round, o);
    }
    NextAt(origins, round, w.urls, w.limit, id);
    DripAdvances(w, origins, round, id);
  }

  lemma {:induction false} DripSettles(origins: Origins, round: Round, o: string)
    requires o in origins
    ensures var next := Settled(MarkErrors(origins, round)[o], round, o, []).Cloned();
            (next.stash == [] || next.stash == origins[o].stash) && (origins[o].exhausted ==> next.exhausted)
  {
    StashForNothing(o);
    hide StashFor;
  }

  lemma {:induction false} DripAdvances(w: World, origins: Origins, round: Round, id: string)
    requires id in origins && id in w.lists && !origins[id].exhausted && Start(origins[id]) <= |w.lists[id]|
    requires origins[id].errorCount == 0 && id in round && round[id] == OneItem(origins[id], w.lists[id])
    ensures var next := Settled(MarkErrors(origins, round)[id], round, id, []).Cloned();
            next.exhausted || Start(origins[id]) < Start(next) <= |w.lists[id]|
  {
    hide StashFor;
  }

  lemma {:induction false} DripPage(w: World, rounds: seq<Round>, id: string) returns (more: seq<Round>)
    requires Attributed(w) && Dripped(w, rounds) && 0 < w.limit && id in w.lists
    requires id in Run(w, rounds).origins && !Run(w, rounds).origins[id].exhausted
    ensures Dripped(w, more) && id in Run(w, more).origins
    ensures var before, after := Run(w, rounds).origins, Run(w, more).origins;
            && before.Keys == after.Keys
            && (after[id].exhausted || Start(before[id]) < Start(after[id]) <= |w.lists[id]|)
            && forall o :: o in before && before[o].exhausted ==> after[o].exhausted
  {
    hide *;
    var t := Run(w, rounds);
    DrippedParts(w, rounds);
    AccountedFacts(w, Flatten(t.pages), t.origins);
    StartPlacedAt(w, t.origins, id);
    var round := Drip(w, t.origins, id);
    DripAnswers(w, t.origins, id);
    OneItemSmall(t.origins[id], w.lists[id]);
    DripPool(t.origins, round, w.urls, id);
    SmallDistinct(Pool(MarkErrors(t.origins, round), round, w.urls));
    SmallFits(MarkErrors(t.origins, round), round, w.urls, w.limit);
    OwnInSession(w, Flatten(t.pages), t.origins, round);
    Named(w);
    DistinctPageAccounts(w, Flatten(t.pages), t.origins, round);
    DripMoves(w, t.origins, round, id);
    OneMore(w, rounds, round);
    FlattenSnoc(t.pages, PageOf(t.origins, round, w.urls, w.limit).items);
    more := rounds + [round];
    DrippedFrom(w, more);
  }

  lemma {:induction false} DrippedParts(w: World, rounds: seq<Round>)
    requires Dripped(w, rounds)
    ensures var t := Run(w, rounds);
            Session(w, rounds) && AllAccounted(w, Flatten(t.pages), t.origins) && Quiet(t.origins)
  {
  }

  lemma {:induction false} DrippedFrom(w: World, rounds: seq<Round>)
    requires var t := Run(w, rounds);
             Session(w, rounds) && AllAccounted(w, Flatten(t.pages), t.origins) && Quiet(t.origins)
    ensures Dripped(w, rounds)
  {
  }

  lemma {:induction false} StartPlacedAt(w: World, origins: Origins, id: string)
    requires Placed(w, origins) && Tidy(origins) && id in w.lists && id in origins && !origins[id].exhausted
    ensures Start(origins[id]) <= |w.lists[id]| && origins[id].errorCount == 0
  {
  }

  lemma {:induction false} OneItemSmall(oc: OriginCursor, list: seq<Item>)
    requires Start(oc) <= |list|
    ensures OneItem(oc, list).Fetched? && |OneItem(oc, list).items| <= 1
  {
  }

  /** One origin is emptied item by item. */
  lemma {:induction false} DripOrigin(w: World, rounds: seq<Round>, id: string, n: nat) returns (more: seq<Round>)
    requires Attributed(w) && Dripped(w, rounds) && 0 < w.limit && id in w.lists && id in Run(w, rounds).origins
    requires Run(w, rounds).origins[id].exhausted || |w.lists[id]| - Start(Run(w, rounds).origins[id]) <= n
    ensures Dripped(w, more) && Run(w, more).origins.Keys == Run(w, rounds).origins.Keys
    ensures Run(w, more).origins[id].exhausted
    ensures forall o :: o in Run(w, rounds).origins && Run(w, rounds).origins[o].exhausted ==>
            Run(w, more).origins[o].exhausted
    decreases n
  {
    hide *;
    if Run(w, rounds).origins[id].exhausted {
      more := rounds;
    } else {
      var next := DripPage(w, rounds, id);
      if Run(w, next).origins[id].exhausted {
        more := next;
      } else {
        more := DripOrigin(w, next, id, n - 1);
      }
    }
  }

  lemma {:induction false} DripAll(w: World, rounds: seq<Round>, todo: set<string>) returns (more: seq<Round>)
    requires Attributed(w) && Dripped(w, rounds) && 0 < w.limit && Run(w, rounds).origins.Keys == w.lists.Keys
    requires todo <= w.lists.Keys
    requires forall o :: o in w.lists && o !in todo ==> Run(w, rounds).origins[o].exhausted
    ensures Dripped(w, more) && Run(w, more).origins.Keys == w.lists.Keys
    ensures forall o :: o in w.lists ==> Run(w, more).origins[o].exhausted
    decreases todo
  {
    hide *;
    if todo == {} {
      more := rounds;
    } else {
      var id :| id in todo;
      var next := DripOrigin(w, rounds, id, |w.lists[id]|);
      more := DripAll(w, next, todo - {id});
    }
  }

  /** There is a session, most of whose fetches fail, that shows every published item as it is, copies
      included. */
  lemma {:induction false} ItemByItem(w: World) returns (rounds: seq<Round>)
    requires Attributed(w) && 0 < w.limit
    ensures Session(w, rounds) && multiset(Flatten(Run(w, rounds).pages)) == multiset(Flatten(Published(w)))
  {
    StartAccounted(w);
    assert Dripped(w, []);
    RunKeys(w, []);
    hide *;
    rounds := DripAll(w, [], w.lists.Keys);
    DrippedParts(w, rounds);
    AllExhausted(Run(w, rounds).origins);
    AccountedComplete(w, Flatten(Run(w, rounds).pages), Run(w, rounds).origins);
  }

  lemma {:induction false} AllExhausted(origins: Origins)
    requires Quiet(origins) && forall o :: o in origins ==> origins[o].exhausted
    ensures !AnyMore(origins)
  {
  }

  /** Exactly which origins rule repeats out: no session shows a key twice if and only if keys are
      distinct across the federation. */
  lemma {:induction false} NeverRepeatsIff(w: World)
    requires Attributed(w) && 0 < w.limit
    ensures (forall rounds :: Session(w, rounds) ==> DistinctKeys(Flatten(Run(w, rounds).pages))) <==>
            DistinctKeys(Flatten(Published(w)))
  {
    if DistinctKeys(Flatten(Published(w))) {
      hide Session, Run, Flatten, DistinctKeys;
      forall rounds | Session(w, rounds) ensures DistinctKeys(Flatten(Run(w, rounds).pages)) { NoKeyTwice(w, rounds); }
    } else {
      var rounds := ItemByItem(w);
      SameBagDistinct(Flatten(Run(w, rounds).pages), Flatten(Published(w)));
    }
  }

  lemma {:induction false} SameBagDistinct(a: seq<Item>, b: seq<Item>)
    requires multiset(a) == multiset(b)
    ensures DistinctKeys(a) ==> DistinctKeys(b)
  {
    hide KeyBag;
    KeyBagMonotone(b, a);
  }
}
