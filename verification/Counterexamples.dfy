/**
 Runs that show why the hypotheses of the session laws are there.
 (internal/federation/pagination.go: mergeResults; internal/stac/extras.go: ItemOriginID)
 */
module Counterexamples {
  import opened Text
  import opened Items
  import opened Ordering
  import opened Merger
  import opened ListMerge
  import opened Cursor
  import opened Pagination
  import opened PageLaws
  import opened Sessions
  import opened Paging
  import opened Rankings
  import opened Duplicates

  // ----- Two origins -----

  lemma {:induction false} SortedPair(a: string, b: string)
    requires Less(a, b)
    ensures Sorted({a, b}) == [a, b]
  {
    IncreasingUnique(Sorted({a, b}), [a, b]);
  }

  lemma {:induction false} PairPool(a: string, b: string, marked: Origins, round: Round, urls: map<string, string>)
    requires Less(a, b) && marked.Keys == {a, b}
    ensures Pool(marked, round, urls) == Contribution(marked, round, urls, a) + Contribution(marked, round, urls, b)
  {
    hide Contribution, Less, Sorted;
    SortedPair(a, b);
    var ls := Contributions([a, b], marked, round, urls);
    assert ls == [ls[0], ls[1]] && ls[1..] == [ls[1]] && ls[1..][1..] == [];
    assert Flatten(ls) == ls[0] + Flatten(ls[1..]) && Flatten(ls[1..]) == ls[1] + [];
  }

  /** The first of two items with different keys comes first if the other does not sort before it. */
  lemma {:induction false} RankPair(x: Item, y: Item)
    requires Key(x) != Key(y) && !Before(y, x)
    ensures StableSort(Dedup([x, y], {})) == [x, y]
  {
    hide Key, Before;
    assert [x, y][1..] == [y] && [y][1..] == [];
    assert {Key(x)} + {Key(y)} == {Key(x), Key(y)};
    assert Dedup([y], {Key(x)}) == [y] + Dedup([], {Key(x), Key(y)});
    assert {} + {Key(x)} == {Key(x)};
    assert Dedup([x, y], {}) == [x] + Dedup([y], {Key(x)});
    assert [x] + [y] == [x, y];
    assert StableSort([y]) == [y];
    assert Insert(x, [y]) == [x, y];
  }

  lemma {:induction false} RankOne(x: Item)
    ensures StableSort(Dedup([x], {})) == [x] && StableSort(Dedup([], {})) == []
  {
    hide Key;
    assert [x][1..] == [];
  }

  lemma {:induction false} PairRanked(a: string, b: string, marked: Origins, round: Round, urls: map<string, string>,
                                      x: Item, y: Item)
    requires Less(a, b) && marked.Keys == {a, b} && Key(x) != Key(y) && !Before(y, x)
    requires Contribution(marked, round, urls, a) == [x] && Contribution(marked, round, urls, b) == [y]
    ensures Ranked(marked, round, urls) == [x, y]
  {
    hide *;
    PairPool(a, b, marked, round, urls);
    RankedIs(marked, round, urls);
    assert [x] + [y] == [x, y];
    RankPair(x, y);
  }

  /** What an origin without a stash brings when it answers with one item. */
  lemma {:induction false} BringsOne(marked: Origins, round: Round, id: string, x: Item)
    requires id in marked && marked[id].HasMore() && marked[id].stash == []
    requires id in round && round[id].Fetched? && round[id].items == [x]
    ensures Contribution(marked, round, map[], id) == [Tag(x, id, "")]
  {
    hide Tag;
    assert [] + [x] == [x];
  }

  // ----- An item is lost -----

  ghost predicate Nowhere(x: Item, page: Page) {
    && (forall y :: y in page.items ==> Key(y) != Key(x))
    && forall id :: id in page.origins ==> page.origins[id].stash == []
  }

  /** Two fresh origins answer with one item each; the second item says first that it is a stranger's.
      The page has room for the first; the second is neither shown nor stashed, and there is no
      next page. */
  lemma {:induction false} StrangersItemLost(a: string, b: string, x: Item, y: Item, stranger: string)
    requires Less(a, b) && a != "" && b != "" && stranger != a && stranger != b
    requires x.links == [] && FirstOrigin(y.links) == Some(stranger) && Before(x, y) && Key(x) != Key(y)
    ensures var page := PageOf(map[a := FRESH, b := FRESH], map[a := Fetched([x], None), b := Fetched([y], None)],
                               map[], 1);
            page.items == [Tag(x, a, "")] && Nowhere(y, page) && !AnyMore(page.origins)
  {
    hide *;
    var origins: Origins := map[a := FRESH, b := FRESH];
    var round: Round := map[a := Fetched([x], None), b := Fetched([y], None)];
    var x', y' := Tag(x, a, ""), Tag(y, b, "");
    LessIrreflexive(a);
    TagSorts(x, y, a, b);
    StrangerStays(y, b, stranger);
    FreshPair(a, b, round);
    BringsOne(origins, round, a, x);
    BringsOne(origins, round, b, y);
    PairRanked(a, b, origins, round, map[], x', y');
    PageWith(origins, round, map[], 1, [x', y']);
    CutPair(x', y');
    NotFiled(y', a);
    NotFiled(y', b);
    StashesNothing(a, b, round, y');
    NowhereIn(y, x', PageOf(origins, round, map[], 1));
  }

  lemma {:induction false} TagSorts(x: Item, y: Item, a: string, b: string)
    ensures Before(Tag(x, a, ""), Tag(y, b, "")) <==> Before(x, y)
    ensures Before(Tag(y, b, ""), Tag(x, a, "")) <==> Before(y, x)
    ensures Before(x, y) ==> !Before(y, x)
    ensures Key(Tag(x, a, "")) == Key(x) && Key(Tag(y, b, "")) == Key(y)
  {
    TagKeepsKey(x, a, "");
    TagKeepsKey(y, b, "");
    if Before(x, y) { BeforeAsymmetric(x, y); }
  }

  lemma {:induction false} FreshPair(a: string, b: string, round: Round)
    requires a != b && round.Keys == {a, b} && round[a].Fetched? && round[b].Fetched?
    ensures var origins: Origins := map[a := FRESH, b := FRESH];
            && MarkErrors(origins, round) == origins && origins.Keys == {a, b} && FRESH.HasMore() && FRESH.stash == []
            && origins[a] == origins[b] == FRESH
  {
  }

  lemma {:induction false} PageWith(origins: Origins, round: Round, urls: map<string, string>, limit: nat,
                                    ranked: seq<Item>)
    requires Ranked(MarkErrors(origins, round), round, urls) == ranked
    ensures PageOf(origins, round, urls, limit) ==
            Page(Front(ranked, limit), SettleAll(MarkErrors(origins, round), round, Back(ranked, limit)))
  {
  }

  lemma {:induction false} CutPair(x: Item, y: Item)
    ensures Front([x, y], 1) == [x] && Back([x, y], 1) == [y]
  {
  }

  lemma {:induction false} StashesNothing(a: string, b: string, round: Round, y: Item)
    requires a != b && round.Keys == {a, b} && round[a].Fetched? && round[b].Fetched?
    requires round[a].next.None? && round[b].next.None? && Only([y], a) == [] && Only([y], b) == []
    ensures var settled := SettleAll(map[a := FRESH, b := FRESH], round, [y]);
            !AnyMore(settled) && forall id :: id in settled ==> settled[id].stash == []
  {
    hide Only;
  }

  lemma {:induction false} NowhereIn(y: Item, x: Item, page: Page)
    requires page.items == [x] && Key(x) != Key(y) && forall id :: id in page.origins ==> page.origins[id].stash == []
    ensures Nowhere(y, page)
  {
    hide Key;
  }

  lemma {:induction false} NotFiled(y: Item, id: string)
    requires OriginOf(y) != id
    ensures Only([y], id) == []
  {
    assert [y][1..] == [];
  }

  lemma {:induction false} StrangerStays(y: Item, id: string, stranger: string)
    requires FirstOrigin(y.links) == Some(stranger)
    ensures OriginOf(Tag(y, id, "")) == stranger
  {
    FirstOriginAppend(y.links, Link(OriginRel, id, ""));
  }

  /** Such items and origins exist. */
  lemma {:induction false} StrangersItemExists()
    ensures var x, y := Item("c", "1", "2", [], ""), Item("c", "2", "1", [Link(OriginRel, "z", "")], "");
            Less("a", "b") && x.links == [] && FirstOrigin(y.links) == Some("z") && Before(x, y) && Key(x) != Key(y)
  {
    assert "c" + ":" + "1" == "c:1" && "c" + ":" + "2" == "c:2";
  }

  // ----- A key is shown twice -----

  /** Origin `a` publishes `x`; origin `b` publishes `y`, which ties with `x`, and then `x` too. */
  ghost function TwiceWorld(a: string, b: string, x: Item, y: Item): World {
    World(map[a := [x], b := [y, x]], map[], 1)
  }

  ghost function TwiceRounds(a: string, b: string, x: Item, y: Item): seq<Round> {
    [map[a := Fetched([x], None), b := Fetched([y], Some(1))], map[], map[b := Fetched([x], None)]]
  }

  const DONE := OriginCursor(None, true, false, 0, 1, [])

  function After(a: string, b: string, stash: seq<Item>): Origins {
    map[a := DONE, b := OriginCursor(Some(1), false, false, 0, 1, stash)]
  }

  /** Strictness cannot be dropped from the law on shared items: with weakly ordered lists, page one
      shows `x` from `a`, page two `y`, and page three `x` again, from `b`. */
  lemma {:induction false} KeyShownTwice(a: string, b: string, x: Item, y: Item)
    requires Less(a, b) && a != "" && x.links == [] && y.links == []
    requires x.datetime == y.datetime && x.id == y.id && Key(x) != Key(y)
    ensures var w, rounds := TwiceWorld(a, b, x, y), TwiceRounds(a, b, x, y);
            && Attributed(w) && Ordered(w) && AmpleSession(w, rounds)
            && Run(w, rounds).pages == [[Tag(x, a, "")], [Tag(y, b, "")], [Tag(x, b, "")]]
            && Key(Tag(x, a, "")) == Key(Tag(x, b, ""))
  {
    hide *;
    var w, rounds := TwiceWorld(a, b, x, y), TwiceRounds(a, b, x, y);
    LessNames(a, b);
    TwiceListed(a, b, x, y);
    TagSorts(x, x, a, b);
    TwiceIs(a, b, x, y);
    var r1, r2, r3 := rounds[0], rounds[1], rounds[2];
    FirstPage(a, b, x, y);
    SecondPage(a, b, x, y);
    ThirdPage(a, b, x, y);
    RunNothing(w);
    TwiceStart(a, b, x, y);
    OneMorePage(w, [], r1, map[a := FRESH, b := FRESH]);
    assert [] + [r1] == [r1];
    OneMorePage(w, [r1], r2, After(a, b, [Tag(y, b, "")]));
    assert [r1] + [r2] == [r1, r2];
    OneMorePage(w, [r1, r2], r3, After(a, b, []));
    assert [r1, r2] + [r3] == [r1, r2, r3] == rounds;
    assert [] + [[Tag(x, a, "")]] + [[Tag(y, b, "")]] + [[Tag(x, b, "")]] ==
           [[Tag(x, a, "")], [Tag(y, b, "")], [Tag(x, b, "")]];
  }

  lemma {:induction false} LessNames(a: string, b: string)
    requires Less(a, b)
    ensures a != b && b != ""
  {
    LessIrreflexive(a);
  }

  lemma {:induction false} TwiceIs(a: string, b: string, x: Item, y: Item)
    ensures |TwiceRounds(a, b, x, y)| == 3
  {
  }

  lemma {:induction false} RunNothing(w: World)
    ensures AmpleSession(w, []) && Run(w, []).pages == []
  {
  }

  lemma {:induction false} TwiceStart(a: string, b: string, x: Item, y: Item)
    ensures Run(TwiceWorld(a, b, x, y), []).origins == map[a := FRESH, b := FRESH]
  {
  }

  lemma {:induction false} TwiceListed(a: string, b: string, x: Item, y: Item)
    requires a != b && a != "" && b != "" && x.links == [] && y.links == [] && x.datetime == y.datetime && x.id == y.id
    ensures Attributed(TwiceWorld(a, b, x, y)) && Ordered(TwiceWorld(a, b, x, y))
  {
    LessIrreflexive(x.id);
  }

  lemma {:induction false} FirstPage(a: string, b: string, x: Item, y: Item)
    requires Less(a, b) && a != b && b != "" && x.links == [] && y.links == []
    requires x.datetime == y.datetime && x.id == y.id && Key(x) != Key(y)
    ensures var origins: Origins := map[a := FRESH, b := FRESH];
            var w, round := TwiceWorld(a, b, x, y), TwiceRounds(a, b, x, y)[0];
            && AnyMore(origins) && HonestRound(w, origins, round) && Ample(w, origins, round)
            && PageOf(origins, round, w.urls, w.limit).items == [Tag(x, a, "")]
            && NextOrigins(origins, round, w.urls, w.limit) == After(a, b, [Tag(y, b, "")])
  {
    var origins: Origins := map[a := FRESH, b := FRESH];
    var round := TwiceRounds(a, b, x, y)[0];
    var x', y' := Tag(x, a, ""), Tag(y, b, "");
    FirstRound(a, b, x, y);
    LessIrreflexive(x.id);
    OwnTag(y, b);
    TagSorts(x, y, a, b);
    hide Key, Before, Tag, Less, Contribution, Ranked, OriginOf, Only, AnyMore, HonestRound, Ample, PageOf;
    FreshPair(a, b, round);
    BringsOne(origins, round, a, x);
    BringsOne(origins, round, b, y);
    PairRanked(a, b, origins, round, map[], x', y');
    PageWith(origins, round, map[], 1, [x', y']);
    CutPair(x', y');
    NotFiled(y', a);
    FiledOne(y', b);
    FirstSettled(a, b, round, y');
  }

  lemma {:induction false} OwnTag(y: Item, id: string)
    requires y.links == []
    ensures OriginOf(Tag(y, id, "")) == id
  {
    TagNamesOrigin(y, id, "");
  }

  lemma {:induction false} FiledOne(y: Item, id: string)
    requires OriginOf(y) == id
    ensures Only([y], id) == [y]
  {
    assert [y][1..] == [];
  }

  lemma {:induction false} FirstRound(a: string, b: string, x: Item, y: Item)
    requires a != b
    ensures var origins: Origins := map[a := FRESH, b := FRESH];
            var w, round := TwiceWorld(a, b, x, y), TwiceRounds(a, b, x, y)[0];
            AnyMore(origins) && HonestRound(w, origins, round) && Ample(w, origins, round)
  {
    var origins: Origins := map[a := FRESH, b := FRESH];
    assert origins[a].HasMore();
    assert ToFetch(origins, 1) == {a, b};
  }

  lemma {:induction false} FirstSettled(a: string, b: string, round: Round, y: Item)
    requires a != b && b != "" && round.Keys == {a, b} && round[a].Fetched? && |round[a].items| == 1
             && round[a].next.None?
    requires round[b].Fetched? && |round[b].items| == 1 && round[b].next == Some(1)
    requires Only([y], a) == [] && Only([y], b) == [y]
    ensures CloneAll(SettleAll(map[a := FRESH, b := FRESH], round, [y])) == After(a, b, [y])
  {
    hide Only;
  }

  /** A page to which two origins bring one item. */
  lemma {:induction false} SoloPage(a: string, b: string, origins: Origins, round: Round, x: Item)
    requires Less(a, b) && origins.Keys == {a, b}
    requires var marked := MarkErrors(origins, round);
             Contribution(marked, round, map[], a) + Contribution(marked, round, map[], b) == [x]
    ensures var page := PageOf(origins, round, map[], 1);
            page.items == [x] && page.origins == SettleAll(MarkErrors(origins, round), round, [])
  {
    hide *;
    var marked := MarkErrors(origins, round);
    PairPool(a, b, marked, round, map[]);
    RankedIs(marked, round, map[]);
    RankOne(x);
    PageWith(origins, round, map[], 1, [x]);
    CutOne(x);
  }

  lemma {:induction false} CutOne(x: Item)
    ensures Front([x], 1) == [x] && Back([x], 1) == []
  {
  }

  /** The later pages: only `b` has more, and what it brings is what is shown. */
  lemma {:induction false} LonePage(a: string, b: string, stash: seq<Item>, round: Round, x: Item)
    requires Less(a, b) && a !in round && (b in round ==> round[b].Fetched?)
    requires Contribution(After(a, b, stash), round, map[], b) == [x]
    ensures var page := PageOf(After(a, b, stash), round, map[], 1);
            page.items == [x] && page.origins == SettleAll(After(a, b, stash), round, [])
  {
    LessNames(a, b);
    var origins := After(a, b, stash);
    hide Less, Contribution, PageOf;
    assert MarkErrors(origins, round) == origins && origins.Keys == {a, b};
    BringsNothing(origins, round, a);
    assert [] + [x] == [x];
    SoloPage(a, b, origins, round, x);
  }

  lemma {:induction false} BringsNothing(marked: Origins, round: Round, id: string)
    requires id in marked && !marked[id].HasMore()
    ensures Contribution(marked, round, map[], id) == []
  {
  }

  lemma {:induction false} SecondPage(a: string, b: string, x: Item, y: Item)
    requires Less(a, b) && a != b && b != "" && y.links == []
    ensures var w, origins, round := TwiceWorld(a, b, x, y), After(a, b, [Tag(y, b, "")]), TwiceRounds(a, b, x, y)[1];
            && AnyMore(origins) && HonestRound(w, origins, round) && Ample(w, origins, round)
            && PageOf(origins, round, w.urls, w.limit).items == [Tag(y, b, "")]
            && NextOrigins(origins, round, w.urls, w.limit) == After(a, b, [])
  {
    hide *;
    TwiceIs(a, b, x, y);
    var y', round := Tag(y, b, ""), TwiceRounds(a, b, x, y)[1];
    SecondRound(a, b, x, y, y');
    OwnTag(y, b);
    BringsStash(a, b, y', round);
    LonePage(a, b, [y'], round, y');
    NextIs(After(a, b, [y']), round, 1);
    SecondSettled(a, b, y');
  }

  lemma {:induction false} SecondRound(a: string, b: string, x: Item, y: Item, stashed: Item)
    requires a != b
    ensures var w, origins, round := TwiceWorld(a, b, x, y), After(a, b, [stashed]), TwiceRounds(a, b, x, y)[1];
            && w.urls == map[] && w.limit == 1 && round == map[]
            && AnyMore(origins) && HonestRound(w, origins, round) && Ample(w, origins, round)
  {
    var origins := After(a, b, [stashed]);
    assert origins[b].HasMore();
    assert ToFetch(origins, 1) == {};
  }

  lemma {:induction false} BringsStash(a: string, b: string, y: Item, round: Round)
    requires a != b && b != "" && OriginOf(y) == b && b !in round
    ensures Contribution(After(a, b, [y]), round, map[], b) == [y]
  {
    TagKeepsOwn(y, b, "");
    hide Tag, OriginOf;
    assert [y] + [] == [y];
  }

  lemma {:induction false} NextIs(origins: Origins, round: Round, limit: nat)
    ensures NextOrigins(origins, round, map[], limit) == CloneAll(PageOf(origins, round, map[], limit).origins)
  {
  }

  lemma {:induction false} SecondSettled(a: string, b: string, y: Item)
    requires a != b
    ensures CloneAll(SettleAll(After(a, b, [y]), map[], [])) == After(a, b, [])
  {
    assert StashFor([], b) == [];
  }

  lemma {:induction false} ThirdPage(a: string, b: string, x: Item, y: Item)
    requires Less(a, b) && a != b
    ensures var w, origins, round := TwiceWorld(a, b, x, y), After(a, b, []), TwiceRounds(a, b, x, y)[2];
            && AnyMore(origins) && HonestRound(w, origins, round) && Ample(w, origins, round)
            && PageOf(origins, round, w.urls, w.limit).items == [Tag(x, b, "")]
  {
    hide *;
    TwiceIs(a, b, x, y);
    var origins, round := After(a, b, []), TwiceRounds(a, b, x, y)[2];
    ThirdRound(a, b, x, y);
    BringsOne(origins, round, b, x);
    LonePage(a, b, [], round, Tag(x, b, ""));
  }

  lemma {:induction false} ThirdRound(a: string, b: string, x: Item, y: Item)
    requires a != b
    ensures var w, origins, round := TwiceWorld(a, b, x, y), After(a, b, []), TwiceRounds(a, b, x, y)[2];
            && w.urls == map[] && w.limit == 1 && round == map[b := Fetched([x], None)]
            && b in origins && origins[b].HasMore() && origins[b].stash == []
            && AnyMore(origins) && HonestRound(w, origins, round) && Ample(w, origins, round)
  {
    var origins := After(a, b, []);
    assert origins[b].HasMore();
    assert ToFetch(origins, 1) == {b};
    assert [y, x][1..2] == [x];
  }

  // ----- A key is shown twice because a fetch fails -----

  ghost function LateWorld(a: string, b: string, x: Item): World {
    World(map[a := [x], b := [x]], map[], 1)
  }

  ghost function LateRounds(a: string, b: string, x: Item): seq<Round> {
    [map[a := Fetched([x], None), b := Failed], map[b := Fetched([x], None)]]
  }

  function Late(a: string, b: string): Origins {
    map[a := DONE, b := OriginCursor(None, false, true, 0, 0, [])]
  }

  /** Nor is strictness enough once a fetch fails: both origins publish `x`; `b` fails on page one, which
      shows `x` from `a`, and answers on page two, which shows `x` again. */
  lemma {:induction false} FailureShowsTwice(a: string, b: string, x: Item)
    requires Less(a, b) && a != "" && x.links == []
    ensures var w, rounds := LateWorld(a, b, x), LateRounds(a, b, x);
            && Overlapping(w) && Session(w, rounds)
            && Run(w, rounds).pages == [[Tag(x, a, "")], [Tag(x, b, "")]]
            && Key(Tag(x, a, "")) == Key(Tag(x, b, ""))
  {
    hide *;
    var w, rounds := LateWorld(a, b, x), LateRounds(a, b, x);
    LessNames(a, b);
    LateOverlaps(a, b, x);
    TagSorts(x, x, a, b);
    LateStart(a, b, x);
    var r1, r2 := rounds[0], rounds[1];
    LateFirst(a, b, x);
    LateSecond(a, b, x);
    OneMore(w, [], r1);
    assert [] + [r1] == [r1];
    OneMore(w, [r1], r2);
    assert [r1] + [r2] == rounds;
    assert [] + [[Tag(x, a, "")]] + [[Tag(x, b, "")]] == [[Tag(x, a, "")], [Tag(x, b, "")]];
  }

  lemma {:induction false} LateStart(a: string, b: string, x: Item)
    ensures |LateRounds(a, b, x)| == 2
    ensures var w := LateWorld(a, b, x);
            && w.urls == map[] && w.limit == 1 && Session(w, [])
            && Run(w, []).pages == [] && Run(w, []).origins == map[a := FRESH, b := FRESH]
  {
  }

  lemma {:induction false} LateOverlaps(a: string, b: string, x: Item)
    requires a != "" && b != "" && x.links == []
    ensures Overlapping(LateWorld(a, b, x))
  {
    var w := LateWorld(a, b, x);
    hide Key, Before, Flatten, Published, Increasing, TagAll;
    forall y | y in Flatten(Published(w)) ensures Tied(y, x) {
      FlattenMember(Published(w), y);
      var i :| 0 <= i < |Published(w)| && y in Published(w)[i];
      TagOneOf(x, Sorted(w.lists.Keys)[i]);
    }
  }

  lemma {:induction false} TagOneOf(x: Item, id: string)
    ensures forall y :: y in TagAll([x], id, "") ==> Tied(y, x)
  {
  }

  lemma {:induction false} LateFirst(a: string, b: string, x: Item)
    requires Less(a, b) && a != b
    ensures var w, origins: Origins, round := LateWorld(a, b, x), map[a := FRESH, b := FRESH], LateRounds(a, b, x)[0];
            && AnyMore(origins) && HonestRound(w, origins, round)
            && PageOf(origins, round, map[], 1).items == [Tag(x, a, "")]
            && NextOrigins(origins, round, map[], 1) == Late(a, b)
  {
    hide *;
    LateStart(a, b, x);
    var origins: Origins := map[a := FRESH, b := FRESH];
    var round := LateRounds(a, b, x)[0];
    LateFirstRound(a, b, x);
    LateFirstSettled(a, b, x);
    BringsOne(MarkErrors(origins, round), round, a, x);
    assert [Tag(x, a, "")] + [] == [Tag(x, a, "")];
    SoloPage(a, b, origins, round, Tag(x, a, ""));
    NextIs(origins, round, 1);
  }

  lemma {:induction false} LateFirstRound(a: string, b: string, x: Item)
    requires a != b
    ensures var w, origins: Origins, round := LateWorld(a, b, x), map[a := FRESH, b := FRESH], LateRounds(a, b, x)[0];
            && AnyMore(origins) && HonestRound(w, origins, round) && origins.Keys == {a, b}
            && round == map[a := Fetched([x], None), b := Failed]
            && MarkErrors(origins, round) == map[a := FRESH, b := FRESH.Failed()] && FRESH.HasMore()
               && FRESH.stash == []
  {
    var origins: Origins := map[a := FRESH, b := FRESH];
    assert origins[a].HasMore();
    assert ToFetch(origins, 1) == {a, b};
  }

  lemma {:induction false} LateFirstSettled(a: string, b: string, x: Item)
    requires a != b
    ensures var marked: Origins := map[a := FRESH, b := FRESH.Failed()];
            var round: Round := map[a := Fetched([x], None), b := Failed];
            && Contribution(marked, round, map[], b) == []
            && CloneAll(SettleAll(marked, round, [])) == Late(a, b)
  {
    TagNothing(b, "");
    StashForNothing(a);
    StashForNothing(b);
    hide TagAll, StashFor;
  }

  lemma {:induction false} LateSecond(a: string, b: string, x: Item)
    requires Less(a, b) && a != b
    ensures var w, origins, round := LateWorld(a, b, x), Late(a, b), LateRounds(a, b, x)[1];
            && AnyMore(origins) && HonestRound(w, origins, round)
            && PageOf(origins, round, map[], 1).items == [Tag(x, b, "")]
  {
    var origins, round := Late(a, b), LateRounds(a, b, x)[1];
    LateSecondRound(a, b, x);
    hide Less, Tag, PageOf, AnyMore, HonestRound, LateWorld;
    assert MarkErrors(origins, round) == origins && origins.Keys == {a, b};
    BringsNothing(origins, round, a);
    BringsOne(origins, round, b, x);
    hide Contribution;
    assert [] + [Tag(x, b, "")] == [Tag(x, b, "")];
    SoloPage(a, b, origins, round, Tag(x, b, ""));
  }

  lemma {:induction false} LateSecondRound(a: string, b: string, x: Item)
    requires a != b
    ensures var w, origins, round := LateWorld(a, b, x), Late(a, b), LateRounds(a, b, x)[1];
            AnyMore(origins) && HonestRound(w, origins, round)
  {
    var origins := Late(a, b);
    assert origins[b].HasMore();
    assert ToFetch(origins, 1) == {b};
  }

  // ----- A stash outgrows its bound -----

  ghost function Triple(a: string, b: string, c: string): Origins {
    map[a := FRESH, b := FRESH, c := FRESH]
  }

  ghost function TripleRound(a: string, b: string, c: string, x: Item, y: Item, z: Item): Round {
    map[a := Fetched([x], None), b := Fetched([y], None), c := Fetched([z], None)]
  }

  /** Three fresh origins answer with one item each, as many as asked for; those of `b` and `c` say first
      that they are from `a`. The page shows the first item and leaves two in the stash of `a`, one more
      than twice the limit allows. */
  lemma {:induction false} StashOutgrowsBound(a: string, b: string, c: string, x: Item, y: Item, z: Item)
    requires Less(a, b) && Less(b, c) && a != "" && x.links == []
    requires FirstOrigin(y.links) == FirstOrigin(z.links) == Some(a)
    requires Before(x, y) && Before(y, z) && Key(x) != Key(y) && Key(y) != Key(z) && Key(x) != Key(z)
    ensures var next := NextOrigins(Triple(a, b, c), TripleRound(a, b, c, x, y, z), map[], 1);
            a in next && next[a].stash == [Tag(y, b, ""), Tag(z, c, "")] && |next[a].stash| > 2 * 1 - 1
  {
    hide *;
    var origins, round := Triple(a, b, c), TripleRound(a, b, c, x, y, z);
    LessTransitive(a, b, c);
    LessNames(a, b);
    LessNames(b, c);
    LessNames(a, c);
    var x', y', z' := Tag(x, a, ""), Tag(y, b, ""), Tag(z, c, "");
    TagSorts(x, y, a, b);
    TagSorts(y, z, b, c);
    TagSorts(x, z, a, c);
    StrangerStays(y, b, a);
    StrangerStays(z, c, a);
    TripleIs(a, b, c, x, y, z);
    BringsOne(origins, round, a, x);
    BringsOne(origins, round, b, y);
    BringsOne(origins, round, c, z);
    TripleRanked(a, b, c, origins, round, x', y', z');
    NextAt(origins, round, map[], 1, a);
    NextStash(origins, round, map[], 1, a);
    BackTwo(x', y', z');
    OnlyBoth(y', z', a);
    StashIs(origins[a], round, a, [y', z']);
  }

  lemma {:induction false} TripleIs(a: string, b: string, c: string, x: Item, y: Item, z: Item)
    requires a != b && b != c && a != c
    ensures var origins, round := Triple(a, b, c), TripleRound(a, b, c, x, y, z);
            && origins.Keys == {a, b, c} && origins[a] == origins[b] == origins[c] == FRESH
            && FRESH.HasMore() && FRESH.stash == [] && MarkErrors(origins, round) == origins
            && a in round && round[a] == Fetched([x], None) && b in round && round[b] == Fetched([y], None)
            && c in round && round[c] == Fetched([z], None)
  {
  }

  lemma {:induction false} BackTwo(x: Item, y: Item, z: Item)
    ensures Back([x, y, z], 1) == [y, z]
  {
  }

  lemma {:induction false} StashIs(oc: OriginCursor, round: Round, id: string, back: seq<Item>)
    requires id != "" && oc.HasMore()
    ensures Settled(oc, round, id, back).Cloned().stash == Only(back, id)
  {
  }

  lemma {:induction false} OnlyBoth(y: Item, z: Item, id: string)
    requires OriginOf(y) == OriginOf(z) == id
    ensures Only([y, z], id) == [y, z]
  {
    assert AllFrom([y, z], id);
    OnlyAllFrom([y, z], id, id);
  }

  lemma {:induction false} TripleRanked(a: string, b: string, c: string, marked: Origins, round: Round, x: Item,
                                        y: Item, z: Item)
    requires Less(a, b) && Less(b, c) && Less(a, c) && marked.Keys == {a, b, c}
    requires Contribution(marked, round, map[], a) == [x] && Contribution(marked, round, map[], b) == [y]
    requires Contribution(marked, round, map[], c) == [z]
    requires Before(x, y) && Before(y, z) && Key(x) != Key(y) && Key(y) != Key(z) && Key(x) != Key(z)
    ensures Ranked(marked, round, map[]) == [x, y, z]
  {
    hide Less, Contribution, Before, Key, Ranked, Sorted;
    SortedTriple(a, b, c);
    var ls := Contributions([a, b, c], marked, round, map[]);
    assert ls == [[x], [y], [z]];
    FlattenTriple(x, y, z);
    RankedIs(marked, round, map[]);
    hide StableSort, Dedup, Pool;
    PoolIs(marked, round, map[]);
    RankTriple(x, y, z);
  }

  lemma {:induction false} SortedTriple(a: string, b: string, c: string)
    requires Less(a, b) && Less(b, c) && Less(a, c)
    ensures Sorted({a, b, c}) == [a, b, c]
  {
    IncreasingUnique(Sorted({a, b, c}), [a, b, c]);
  }

  lemma {:induction false} FlattenTriple(x: Item, y: Item, z: Item)
    ensures Flatten([[x], [y], [z]]) == [x, y, z]
  {
    FlattenSnoc([[x], [y]], [z]);
    FlattenSnoc([[x]], [y]);
    FlattenSnoc([], [x]);
    assert [] + [[x]] == [[x]] && [[x]] + [[y]] == [[x], [y]] && [[x], [y]] + [[z]] == [[x], [y], [z]];
  }

  lemma {:induction false} RankTriple(x: Item, y: Item, z: Item)
    requires Before(x, y) && Before(y, z) && Key(x) != Key(y) && Key(y) != Key(z) && Key(x) != Key(z)
    ensures StableSort(Dedup([x, y, z], {})) == [x, y, z]
  {
    BeforeTransitive(x, y, z);
    BeforeAsymmetric(x, y);
    BeforeAsymmetric(y, z);
    BeforeAsymmetric(x, z);
    var s := [x, y, z];
    assert InOrder(s);
    hide Before, Key;
    assert KeyBag(s) == multiset{Key(x), Key(y), Key(z)} by {
      assert s[1..] == [y, z] && [y, z][1..] == [z];
      KeyBagOne(z);
    }
    hide KeyBag;
    DedupIdentity(s, {});
    StableSortUnique(s, s);
  }
}
