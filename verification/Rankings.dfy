/**
 The ranking of items that occur at several origins: what dedup and sort make of them, and
 why cutting a page off the fronts of the lists gives the page of the whole.
 (internal/federation/pagination.go: mergeResults; internal/federation/merger.go)
 */
module Rankings {
  import opened Text
  import opened Items
  import opened Ordering
  import opened Merger
  import opened ListMerge
  import opened Pagination

  predicate Tied(x: Item, y: Item) {
    x.datetime == y.datetime && x.id == y.id
  }

  /** The order on a page: ties go to the smaller origin id. */
  predicate Ahead(x: Item, y: Item) {
    Before(x, y) || (Tied(x, y) && Less(OriginOf(x), OriginOf(y)))
  }

  ghost predicate Ranking(s: seq<Item>) {
    forall i, j :: 0 <= i < j < |s| ==> Ahead(s[i], s[j])
  }

  /** Items that tie come in order of their origins. */
  ghost predicate TiesAscend(s: seq<Item>) {
    forall i, j :: 0 <= i < j < |s| && Tied(s[i], s[j]) ==> Less(OriginOf(s[i]), OriginOf(s[j]))
  }

  /** Items with one key have the same sort values. */
  ghost predicate CopiesTie(s: seq<Item>) {
    forall x, y :: x in s && y in s && Key(x) == Key(y) ==> Tied(x, y)
  }

  /** `x` is the copy of its key from the smallest origin. */
  ghost predicate Leads(s: seq<Item>, x: Item) {
    x in s && forall y :: y in s && Key(y) == Key(x) ==> !Less(OriginOf(y), OriginOf(x))
  }

  /** Strictly in order, so that no two items tie. */
  ghost predicate Strict(s: seq<Item>) {
    forall i, j :: 0 <= i < j < |s| ==> Before(s[i], s[j])
  }

  ghost predicate EachStrict(ls: seq<seq<Item>>) {
    forall i :: 0 <= i < |ls| ==> Strict(ls[i])
  }

  /** Dedup, then sort. */
  function Union(s: seq<Item>): seq<Item> {
    StableSort(Dedup(s, {}))
  }

  // ----- The order -----

  lemma {:induction false} TiedBefore(x: Item, y: Item, z: Item)
    requires Tied(x, y)
    ensures Before(x, z) <==> Before(y, z)
    ensures Before(z, x) <==> Before(z, y)
    ensures !Before(x, y)
  {
    LessIrreflexive(x.id);
  }

  lemma {:induction false} AheadTransitive(x: Item, y: Item, z: Item)
    requires Ahead(x, y) && Ahead(y, z)
    ensures Ahead(x, z)
  {
    hide Before, Less;
    if Before(x, y) && Before(y, z) {
      BeforeTransitive(x, y, z);
    } else if Before(x, y) {
      TiedBefore(y, z, x);
    } else if Before(y, z) {
      TiedBefore(x, y, z);
    } else {
      LessTransitive(OriginOf(x), OriginOf(y), OriginOf(z));
    }
  }

  lemma {:induction false} AheadAsymmetric(x: Item, y: Item)
    requires Ahead(x, y)
    ensures !Ahead(y, x) && x != y
  {
    hide Before, Less;
    if Before(x, y) {
      BeforeAsymmetric(x, y);
      if Tied(y, x) { TiedBefore(y, x, x); }
    } else {
      TiedBefore(y, x, x);
      LessAsymmetric(OriginOf(x), OriginOf(y));
    }
  }

  lemma {:induction false} LessAsymmetric(a: string, b: string)
    requires Less(a, b)
    ensures !Less(b, a) && a != b
  {
    LessIrreflexive(a);
    if Less(b, a) { LessTransitive(a, b, a); }
  }

  lemma {:induction false} RankingTail(s: seq<Item>)
    requires Ranking(s) && s != []
    ensures Ranking(s[1..])
    ensures forall x :: x in s[1..] <==> x in s && x != s[0]
    ensures forall x :: x in s[1..] ==> Ahead(s[0], x)
  {
    hide Ahead;
    forall x ensures x in s[1..] <==> x in s && x != s[0] {
      if x in s[1..] {
        var i :| 0 <= i < |s[1..]| && s[1..][i] == x;
        assert s[i + 1] == x;
        AheadAsymmetric(s[0], s[i + 1]);
      }
      if x in s && x != s[0] {
        var i :| 0 <= i < |s| && s[i] == x;
        assert s[1..][i - 1] == x;
      }
    }
  }

  /** A ranking is determined by its items. */
  lemma {:induction false} RankingUnique(s: seq<Item>, t: seq<Item>)
    requires Ranking(s) && Ranking(t)
    requires forall x :: x in s <==> x in t
    ensures s == t
  {
    hide Ahead, Ranking;
    if s == [] {
      Inhabited(t);
    } else {
      assert s[0] in s;
      RankingTail(s);
      assert t != [];
      RankingTail(t);
      SameFirst(s, t);
      RankingUnique(s[1..], t[1..]);
      assert s == [s[0]] + s[1..] && t == [t[0]] + t[1..];
    }
  }

  lemma {:induction false} SameFirst(s: seq<Item>, t: seq<Item>)
    requires s != [] && t != [] && forall x :: x in s <==> x in t
    requires forall x :: x in s && x != s[0] ==> Ahead(s[0], x)
    requires forall x :: x in t && x != t[0] ==> Ahead(t[0], x)
    ensures s[0] == t[0]
  {
    hide Ahead;
    assert s[0] in s && t[0] in t;
    if Ahead(s[0], t[0]) { AheadAsymmetric(s[0], t[0]); }
  }

  // ----- What sort and dedup give -----

  lemma {:induction false} InsertRanks(x: Item, s: seq<Item>)
    requires Ranking(s)
    requires forall y :: y in s && Tied(x, y) ==> Less(OriginOf(x), OriginOf(y))
    ensures Ranking(Insert(x, s))
  {
    hide Before, Less;
    if s == [] {
    } else if !Before(s[0], x) {
      assert s[0] in s;
      BeforeTotal(x, s[0]);
      assert Ahead(x, s[0]);
      forall j | 0 <= j < |s| ensures Ahead(x, s[j]) {
        if 0 < j { AheadTransitive(x, s[0], s[j]); }
      }
    } else {
      RankingTail(s);
      InsertRanks(x, s[1..]);
      var r := Insert(x, s[1..]);
      forall j | 0 <= j < |r| ensures Ahead(s[0], r[j]) {
        assert r[j] in multiset(r);
        assert r[j] == x || r[j] in s[1..];
      }
    }
  }

  /** Stable sorting of items whose ties are in order of their origins ranks them. */
  lemma {:induction false} SortRanks(s: seq<Item>)
    requires TiesAscend(s)
    ensures Ranking(StableSort(s))
  {
    hide StableSort, Ranking, Less, OriginOf;
    if s == [] {
      NothingRanks();
    } else {
      var rest := s[1..];
      assert s == [s[0]] + rest && TiesAscend(rest);
      SortRanks(rest);
      forall y | y in StableSort(rest) && Tied(s[0], y) ensures Less(OriginOf(s[0]), OriginOf(y)) {
        assert y in multiset(StableSort(rest));
        assert y in rest;
        var i :| 0 <= i < |rest| && rest[i] == y;
        assert s[i + 1] == y;
      }
      InsertRanks(s[0], StableSort(rest));
      SortCons(s[0], rest);
    }
  }

  lemma {:induction false} NothingRanks()
    ensures Ranking(StableSort([]))
  {
  }

  lemma {:induction false} DedupAscends(s: seq<Item>, seen: set<string>)
    requires TiesAscend(s)
    ensures TiesAscend(Dedup(s, seen))
    ensures forall x :: x in Dedup(s, seen) ==> x in s
  {
    hide Less, Key, OriginOf, Tied;
    if s != [] {
      var rest := s[1..];
      assert s == [s[0]] + rest;
      assert TiesAscend(rest);
      if Key(s[0]) in seen {
        DedupAscends(rest, seen);
      } else {
        DedupAscends(rest, seen + {Key(s[0])});
        var kept := Dedup(rest, seen + {Key(s[0])});
        forall j | 0 <= j < |kept| && Tied(s[0], kept[j]) ensures Less(OriginOf(s[0]), OriginOf(kept[j])) {
          assert kept[j] in rest;
          var i :| 0 <= i < |rest| && rest[i] == kept[j];
          assert s[i + 1] == kept[j];
        }
      }
    }
  }

  /** Dedup keeps of each key the copy from the smallest origin. */
  lemma {:induction false} DedupLeads(s: seq<Item>, x: Item)
    requires TiesAscend(s) && CopiesTie(s)
    ensures x in Dedup(s, {}) <==> Leads(s, x)
  {
    DedupKeepsFirst(s, {}, x);
    hide Dedup, Less, Key, OriginOf, Tied;
    if x in Dedup(s, {}) {
      var i :| FirstAt(s, i) && s[i] == x;
      forall y | y in s && Key(y) == Key(x) ensures !Less(OriginOf(y), OriginOf(x)) {
        var j :| 0 <= j < |s| && s[j] == y;
        LaterCopy(s, i, j);
      }
    }
    if Leads(s, x) {
      var i :| 0 <= i < |s| && s[i] == x;
      forall j | 0 <= j < i ensures Key(s[j]) != Key(x) {
        if Key(s[j]) == Key(x) { EarlierCopy(s, j, i); }
      }
      assert FirstAt(s, i);
    }
  }

  lemma {:induction false} LaterCopy(s: seq<Item>, i: nat, j: nat)
    requires TiesAscend(s) && CopiesTie(s) && FirstAt(s, i) && j < |s| && Key(s[j]) == Key(s[i])
    ensures !Less(OriginOf(s[j]), OriginOf(s[i]))
  {
    hide Less, Key, OriginOf;
    if i == j {
      LessIrreflexive(OriginOf(s[i]));
    } else {
      assert i < j && s[i] in s && s[j] in s;
      LessAsymmetric(OriginOf(s[i]), OriginOf(s[j]));
    }
  }

  lemma {:induction false} EarlierCopy(s: seq<Item>, j: nat, i: nat)
    requires TiesAscend(s) && CopiesTie(s) && j < i < |s| && Key(s[j]) == Key(s[i])
    ensures Less(OriginOf(s[j]), OriginOf(s[i])) && s[j] in s
  {
    hide Less, Key, OriginOf;
    assert s[i] in s && s[j] in s;
  }

  /** The union is the ranking of the leading copies. */
  lemma {:induction false} UnionIs(s: seq<Item>)
    requires TiesAscend(s) && CopiesTie(s)
    ensures Ranking(Union(s))
    ensures forall x :: x in Union(s) <==> Leads(s, x)
  {
    DedupAscends(s, {});
    SortRanks(Dedup(s, {}));
    hide Ranking, Leads, Dedup;
    forall x ensures x in Union(s) <==> Leads(s, x) {
      DedupLeads(s, x);
      assert x in multiset(Union(s)) <==> x in multiset(Dedup(s, {}));
    }
  }

  lemma {:induction false} StrictApart(s: seq<Item>, i: nat, j: nat)
    requires Strict(s) && i < j < |s|
    ensures !Tied(s[i], s[j])
  {
    assert Before(s[i], s[j]);
    hide Before;
    if Tied(s[i], s[j]) { TiedBefore(s[i], s[j], s[j]); }
  }

  lemma {:induction false} FlattenAscends(ls: seq<seq<Item>>, ids: seq<string>)
    requires EachStrict(ls) && FiledBy(ls, ids) && Increasing(ids)
    ensures TiesAscend(Flatten(ls))
    ensures forall x :: x in Flatten(ls) ==> OriginOf(x) in ids
  {
    hide Less, OriginOf, Before;
    if ls != [] {
      var head, rest := ls[0], Flatten(ls[1..]);
      assert FiledBy(ls[1..], ids[1..]) && EachStrict(ls[1..]);
      FlattenAscends(ls[1..], ids[1..]);
      var s := Flatten(ls);
      assert s == head + rest;
      forall i, j | 0 <= i < j < |s| && Tied(s[i], s[j]) ensures Less(OriginOf(s[i]), OriginOf(s[j])) {
        if j < |head| {
          assert s[i] == head[i] && s[j] == head[j];
          StrictApart(head, i, j);
        } else if i < |head| {
          assert s[j] == rest[j - |head|] && s[j] in rest && s[i] == head[i];
          var k :| 0 <= k < |ids[1..]| && ids[1..][k] == OriginOf(s[j]);
          assert ids[k + 1] == OriginOf(s[j]);
        } else {
          assert s[i] == rest[i - |head|] && s[j] == rest[j - |head|];
        }
      }
      forall x | x in s ensures OriginOf(x) in ids {
        if x in head {
          var i :| 0 <= i < |head| && head[i] == x;
          assert OriginOf(x) == ids[0];
        } else {
          assert x in rest;
          var k :| 0 <= k < |ids[1..]| && ids[1..][k] == OriginOf(x);
          assert ids[k + 1] == OriginOf(x);
        }
      }
    }
  }

  // ----- A list that holds a page full before an item keeps that item off the page -----

  /** How many items of a ranking stand before the values of `y`. */
  function Lead(s: seq<Item>, y: Item): (n: nat)
    ensures n <= |s|
    ensures forall i :: 0 <= i < n ==> Before(s[i], y)
    ensures n < |s| ==> !Before(s[n], y)
  {
    if s == [] || !Before(s[0], y) then 0 else 1 + Lead(s[1..], y)
  }

  lemma {:induction false} LeadIsAll(s: seq<Item>, y: Item, i: nat)
    requires Ranking(s) && i < |s| && Before(s[i], y)
    ensures i < Lead(s, y)
  {
    var n := Lead(s, y);
    hide Less, OriginOf, Lead, Before;
    if n < i {
      assert Ahead(s[n], s[i]);
      if Before(s[n], s[i]) { BeforeTransitive(s[n], s[i], y); } else { TiedBefore(s[n], s[i], y); }
    }
  }

  lemma {:induction false} KeySetSize(s: seq<Item>)
    ensures |KeySet(s)| <= |s|
    ensures (forall i, j :: 0 <= i < j < |s| ==> Key(s[i]) != Key(s[j])) ==> |KeySet(s)| == |s|
  {
    hide Key;
    if s == [] {
      assert KeySet(s) == {};
    } else {
      var rest := s[1..];
      KeySetSize(rest);
      KeySetCons(s);
      if forall i, j :: 0 <= i < j < |s| ==> Key(s[i]) != Key(s[j]) {
        assert forall i, j :: 0 <= i < j < |rest| ==> rest[i] == s[i + 1] && rest[j] == s[j + 1];
        forall k | k in KeySet(rest) ensures k != Key(s[0]) {
          var i :| 0 <= i < |rest| && Key(rest[i]) == k;
          assert rest[i] == s[i + 1];
        }
      }
    }
  }

  lemma {:induction false} SubsetSize(a: set<string>, b: set<string>)
    requires a <= b
    ensures |a| <= |b|
  {
    assert b == a + (b - a);
  }

  /** A strictly ordered list of copies that tie has as many keys as items. */
  lemma {:induction false} StrictKeys(s: seq<Item>)
    requires Strict(s) && CopiesTie(s)
    ensures |KeySet(s)| == |s|
  {
    hide Key, Before;
    forall i, j | 0 <= i < j < |s| ensures Key(s[i]) != Key(s[j]) {
      assert s[i] in s && s[j] in s;
      StrictApart(s, i, j);
    }
    KeySetSize(s);
  }

  /** If a page full of distinct keys comes before `y`, everything on the page does. */
  lemma {:induction false} FrontBeats(ranked: seq<Item>, seg: seq<Item>, y: Item, limit: nat)
    requires Ranking(ranked) && Strict(seg) && CopiesTie(seg) && limit <= |seg|
    requires forall z :: z in seg ==> Before(z, y)
    requires forall z :: z in seg ==> exists r :: r in ranked && Key(r) == Key(z) && Tied(r, z)
    ensures forall x :: x in Front(ranked, limit) ==> Before(x, y)
  {
    hide Key, Before, Ranking, Lead, Strict;
    var n := Lead(ranked, y);
    var ahead := ranked[..n];
    forall k | k in KeySet(seg) ensures k in KeySet(ahead) {
      var i :| 0 <= i < |seg| && Key(seg[i]) == k;
      assert seg[i] in seg;
      var r :| r in ranked && Key(r) == Key(seg[i]) && Tied(r, seg[i]);
      TiedBefore(r, seg[i], y);
      var j :| 0 <= j < |ranked| && ranked[j] == r;
      LeadIsAll(ranked, y, j);
      assert ahead[j] == r;
    }
    StrictKeys(seg);
    KeySetSize(ahead);
    SubsetSize(KeySet(seg), KeySet(ahead));
    forall x | x in Front(ranked, limit) ensures Before(x, y) {
      var i :| 0 <= i < |Front(ranked, limit)| && Front(ranked, limit)[i] == x;
      assert ranked[i] == x;
    }
  }

  // ----- Cutting a page off the fronts of the lists -----

  /** `all` is split into `some`, of which a page is cut, and `rest`, all behind that page; `left`
      is what the page leaves of both. Then the page is that of `all`, and `left` has the rest. */
  lemma {:induction false} CutFlat(all: seq<Item>, some: seq<Item>, rest: seq<Item>, left: seq<Item>, limit: nat)
    requires TiesAscend(all) && TiesAscend(some) && TiesAscend(left) && CopiesTie(all)
    requires forall x :: x in all <==> x in some || x in rest
    requires forall x :: x in left <==> x in Back(Union(some), limit) || x in rest
    requires forall x, y :: x in Front(Union(some), limit) && y in rest ==> Before(x, y)
    requires rest == [] || limit <= |Union(some)|
    ensures Front(Union(all), limit) == Front(Union(some), limit)
    ensures Union(left) == Back(Union(all), limit)
  {
    hide *;
    var ranked := Union(some);
    var front, back := Front(ranked, limit), Back(ranked, limit);
    FrontBack(ranked, limit);
    Subset(all, some);
    UnionIs(some);
    UnionWithin(some);
    assert forall x :: x in left ==> x in all;
    Subset(all, left);
    UnionIs(all);
    UnionIs(left);
    UnionWithin(left);
    RanksTogether(front, back, rest, left);
    forall x ensures x in front + Union(left) <==> x in Union(all) {
      LeadsTogether(all, some, rest, left, front, back, x);
    }
    RankingUnique(front + Union(left), Union(all));
    CutAfter(ranked, left, rest, limit);
  }

  lemma {:induction false} UnionWithin(s: seq<Item>)
    ensures forall x :: x in Union(s) ==> x in s
  {
    DedupNoLonger(s, {});
    forall x | x in Union(s) ensures x in s {
      assert x in multiset(Union(s));
      assert x in multiset(s);
    }
  }

  lemma {:induction false} Subset(all: seq<Item>, part: seq<Item>)
    requires CopiesTie(all) && forall x :: x in part ==> x in all
    ensures CopiesTie(part)
  {
    hide Key, Tied;
  }

  /** The page comes first, or there is nothing after it. */
  lemma {:induction false} CutAfter(ranked: seq<Item>, left: seq<Item>, rest: seq<Item>, limit: nat)
    requires rest == [] || limit <= |ranked|
    requires forall x :: x in left <==> x in Back(ranked, limit) || x in rest
    ensures Front(Front(ranked, limit) + Union(left), limit) == Front(ranked, limit)
    ensures Back(Front(ranked, limit) + Union(left), limit) == Union(left)
  {
    if |ranked| < limit {
      NoItem(left);
      assert Union(left) == [];
    }
  }

  lemma {:induction false} NoItem(s: seq<Item>)
    requires forall x :: x !in s
    ensures s == []
  {
    Inhabited(s);
  }

  lemma {:induction false} RanksTogether(front: seq<Item>, back: seq<Item>, rest: seq<Item>, left: seq<Item>)
    requires Ranking(front + back) && Ranking(Union(left))
    requires forall x :: x in Union(left) ==> x in back || x in rest
    requires forall x, y :: x in front && y in rest ==> Before(x, y)
    ensures Ranking(front + Union(left))
  {
    hide Union, Before, OriginOf, Less;
    var s, u := front + back, Union(left);
    forall i, j | 0 <= i < j < |front + u| ensures Ahead((front + u)[i], (front + u)[j]) {
      if j < |front| {
        assert s[i] == front[i] && s[j] == front[j];
      } else if |front| <= i {
        assert Ahead(u[i - |front|], u[j - |front|]);
      } else {
        var y := u[j - |front|];
        assert y in u && front[i] in front && s[i] == front[i];
        if y in back {
          var k :| 0 <= k < |back| && back[k] == y;
          assert s[|front| + k] == y;
        }
      }
    }
  }

  /** The leading copies of all are those on the page and those of what is left. */
  lemma {:induction false} LeadsTogether(all: seq<Item>, some: seq<Item>, rest: seq<Item>, left: seq<Item>,
                                         front: seq<Item>, back: seq<Item>, x: Item)
    requires CopiesTie(all)
    requires forall y :: y in all <==> y in some || y in rest
    requires forall y :: y in left <==> y in back || y in rest
    requires forall y :: y in front + back <==> Leads(some, y)
    requires forall y, z :: y in front && z in rest ==> Before(y, z)
    requires forall y :: y in Union(all) <==> Leads(all, y)
    requires forall y :: y in Union(left) <==> Leads(left, y)
    requires Union(some) == front + back && TiesAscend(some)
    ensures x in front + Union(left) <==> x in Union(all)
  {
    hide Union, Before, Key, OriginOf, Less, TiesAscend, Tied;
    if x in front {
      assert x in front + back;
      FrontLeads(all, some, rest, front, x);
    }
    if x in Union(left) { LeftLeads(all, some, rest, left, front, back, x); }
    if x in Union(all) {
      if x in some {
        assert Leads(some, x);
        assert x in front + back;
      }
      assert forall y :: y in back ==> y in front + back;
      assert x in front || (x in left && Leads(left, x));
    }
  }

  lemma {:induction false} FrontLeads(all: seq<Item>, some: seq<Item>, rest: seq<Item>, front: seq<Item>, x: Item)
    requires CopiesTie(all) && x in front && Leads(some, x)
    requires forall y :: y in all <==> y in some || y in rest
    requires forall y, z :: y in front && z in rest ==> Before(y, z)
    ensures Leads(all, x)
  {
    hide Before, Key, OriginOf, Less;
    forall y | y in all && Key(y) == Key(x) ensures y in some {
      assert Tied(x, y);
      TiedBefore(x, y, y);
    }
  }

  lemma {:induction false} LeftLeads(all: seq<Item>, some: seq<Item>, rest: seq<Item>, left: seq<Item>,
                                     front: seq<Item>, back: seq<Item>, x: Item)
    requires CopiesTie(all) && Leads(left, x) && TiesAscend(some)
    requires forall y :: y in all <==> y in some || y in rest
    requires forall y :: y in left <==> y in back || y in rest
    requires forall y :: y in front + back <==> Leads(some, y)
    requires forall y, z :: y in front && z in rest ==> Before(y, z)
    ensures Leads(all, x)
  {
    hide Before, Key, OriginOf, Less, Tied, TiesAscend;
    assert forall y :: y in back ==> y in front + back;
    forall y | y in all && Key(y) == Key(x) ensures !Less(OriginOf(y), OriginOf(x)) {
      if y !in left {
        assert y in some;
        Subset(all, some);
        var z := LeaderOf(some, y);
        assert z in front + back;
        if z in back {
          assert z in left;
          NotLessChain(OriginOf(x), OriginOf(z), OriginOf(y));
        } else if x in back {
          assert Leads(some, x);
        } else {
          assert z in front && x in rest && Before(z, x) && z in all && x in all;
          TiedNotBefore(z, x);
        }
      }
    }
  }

  lemma {:induction false} TiedNotBefore(x: Item, y: Item)
    requires Before(x, y)
    ensures !Tied(x, y)
  {
    if Tied(x, y) { TiedBefore(x, y, y); }
  }

  lemma {:induction false} NotLessChain(x: string, z: string, y: string)
    requires !Less(z, x) && !Less(y, z)
    ensures !Less(y, x)
  {
    LessTotal(x, z);
    LessTotal(z, y);
    if Less(x, z) && Less(z, y) { LessTransitive(x, z, y); }
    if Less(y, x) { LessAsymmetric(y, x); }
  }

  /** Every item has a leading copy. */
  lemma {:induction false} LeaderOf(s: seq<Item>, y: Item) returns (z: Item)
    requires y in s && TiesAscend(s) && CopiesTie(s)
    ensures Leads(s, z) && Key(z) == Key(y) && !Less(OriginOf(y), OriginOf(z))
  {
    hide Less, OriginOf, Key, Tied;
    var i :| 0 <= i < |s| && s[i] == y;
    var j := FirstCopy(s, i);
    z := s[j];
    forall x | x in s && Key(x) == Key(z) ensures !Less(OriginOf(x), OriginOf(z)) {
      var k :| 0 <= k < |s| && s[k] == x;
      LaterCopy(s, j, k);
    }
  }

  lemma {:induction false} FirstCopy(s: seq<Item>, i: nat) returns (j: nat)
    requires i < |s|
    ensures FirstAt(s, j) && Key(s[j]) == Key(s[i])
    decreases i
  {
    hide Key;
    if k :| 0 <= k < i && Key(s[k]) == Key(s[i]) {
      j := FirstCopy(s, k);
    } else {
      j := i;
    }
  }
}
