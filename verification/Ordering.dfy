/**
 The page order (datetime descending, then id ascending) and the stable sort
 that mergeResults applies. (internal/federation/pagination.go)
 */
module Ordering {
  import opened Text
  import opened Items

  /** The less function given to sort.SliceStable. */
  predicate Before(a: Item, b: Item) {
    if a.datetime != b.datetime then Less(b.datetime, a.datetime) else Less(a.id, b.id)
  }

  /** `a` is newer than `b`, or as new and not behind it by id. */
  ghost predicate NewerFirst(a: Item, b: Item) {
    Less(b.datetime, a.datetime) || (a.datetime == b.datetime && (a.id == b.id || Less(a.id, b.id)))
  }

  /** An item may stand ahead of another exactly when it is newer, or as new with an id that is not
      greater. */
  lemma {:induction false} MayStandAhead(a: Item, b: Item)
    ensures !Before(b, a) <==> NewerFirst(a, b)
  {
    LessTotal(a.datetime, b.datetime);
    LessTotal(a.id, b.id);
    LessIrreflexive(a.datetime);
    LessIrreflexive(a.id);
    if Less(a.datetime, b.datetime) && Less(b.datetime, a.datetime) {
      LessTransitive(a.datetime, b.datetime, a.datetime);
    }
    if Less(a.id, b.id) && Less(b.id, a.id) { LessTransitive(a.id, b.id, a.id); }
  }

  lemma {:induction false} BeforeTransitive(a: Item, b: Item, c: Item)
    requires Before(a, b) && Before(b, c)
    ensures Before(a, c)
  {
    if a.datetime == b.datetime == c.datetime {
      LessTransitive(a.id, b.id, c.id);
    } else if a.datetime != b.datetime && b.datetime != c.datetime {
      LessTransitive(c.datetime, b.datetime, a.datetime);
      LessIrreflexive(a.datetime);
    }
  }

  /** Items neither of which comes before the other have the same sort values. */
  lemma {:induction false} BeforeTotal(a: Item, b: Item)
    ensures Before(a, b) || Before(b, a) || (a.datetime == b.datetime && a.id == b.id)
  {
    LessTotal(a.datetime, b.datetime);
    LessTotal(a.id, b.id);
  }

  lemma {:induction false} BeforeAsymmetric(a: Item, b: Item)
    requires Before(a, b)
    ensures !Before(b, a)
  {
    LessIrreflexive(a.id);
    LessIrreflexive(a.datetime);
    if Before(b, a) { BeforeTransitive(a, b, a); }
  }

  /** `a` may stand ahead of `c` whenever it may stand ahead of `b` and `b` ahead of `c`. */
  lemma {:induction false} NotBeforeTransitive(a: Item, b: Item, c: Item)
    requires !Before(b, a) && !Before(c, b)
    ensures !Before(c, a)
  {
    BeforeTotal(a, b);
    BeforeTotal(b, c);
    if Before(a, b) && Before(b, c) {
      BeforeTransitive(a, b, c);
      BeforeAsymmetric(a, c);
    }
  }

  /** A strict step followed by a weak one is strict. */
  lemma {:induction false} BeforeThenNot(a: Item, b: Item, c: Item)
    requires Before(a, b) && !Before(c, b)
    ensures Before(a, c)
  {
    BeforeTotal(b, c);
    if Before(b, c) { BeforeTransitive(a, b, c); }
  }

  ghost predicate InOrder(s: seq<Item>) {
    forall i, j :: 0 <= i < j < |s| ==> !Before(s[j], s[i])
  }

  lemma {:induction false} InOrderMeans(s: seq<Item>, rest: seq<Item>, i: nat, j: nat)
    requires InOrder(s + rest) && i < j < |s|
    ensures NewerFirst(s[i], s[j])
  {
    assert (s + rest)[i] == s[i] && (s + rest)[j] == s[j];
    MayStandAhead(s[i], s[j]);
  }

  /** `x` placed ahead of everything that does not come before it. */
  function Insert(x: Item, s: seq<Item>): (r: seq<Item>)
    ensures multiset(r) == multiset(s) + multiset{x}
    ensures |r| == |s| + 1
  {
    if s == [] || !Before(s[0], x) then [x] + s
    else
      assert s == [s[0]] + s[1..];
      [s[0]] + Insert(x, s[1..])
  }

  /** sort.SliceStable with Before. */
  function StableSort(s: seq<Item>): (r: seq<Item>)
    ensures multiset(r) == multiset(s)
    ensures |r| == |s|
  {
    if s == [] then []
    else
      assert s == [s[0]] + s[1..];
      Insert(s[0], StableSort(s[1..]))
  }

  lemma {:induction false} InsertInOrder(x: Item, s: seq<Item>)
    requires InOrder(s)
    ensures InOrder(Insert(x, s))
  {
    if s == [] {
    } else if !Before(s[0], x) {
      forall j | 0 <= j < |s| ensures !Before(s[j], x) {
        if 0 < j { NotBeforeTransitive(x, s[0], s[j]); }
      }
    } else {
      InsertInOrder(x, s[1..]);
      BeforeAsymmetric(s[0], x);
      var r := Insert(x, s[1..]);
      forall j | 0 <= j < |r| ensures !Before(r[j], s[0]) {
        assert r[j] in multiset(r);
        assert r[j] == x || r[j] in s[1..];
      }
    }
  }

  lemma {:induction false} StableSortInOrder(s: seq<Item>)
    ensures InOrder(StableSort(s))
  {
    if s != [] {
      StableSortInOrder(s[1..]);
      InsertInOrder(s[0], StableSort(s[1..]));
    }
  }

  /** The items with the sort values of `like`, in order. */
  function Ties(s: seq<Item>, like: Item): seq<Item> {
    if s == [] then []
    else if s[0].datetime == like.datetime && s[0].id == like.id then [s[0]] + Ties(s[1..], like)
    else Ties(s[1..], like)
  }

  lemma {:induction false} InsertTies(x: Item, s: seq<Item>, like: Item)
    ensures Ties(Insert(x, s), like) == Ties([x] + s, like)
  {
    assert ([x] + s)[1..] == s;
    if s != [] && Before(s[0], x) {
      InsertTies(x, s[1..], like);
      assert ([x] + s[1..])[1..] == s[1..];
      assert Insert(x, s)[1..] == Insert(x, s[1..]);
      LessIrreflexive(x.id);
    }
  }

  /** Stability: items that tie keep their relative order. */
  lemma {:induction false} StableSortStable(s: seq<Item>, like: Item)
    ensures Ties(StableSort(s), like) == Ties(s, like)
  {
    if s != [] {
      StableSortStable(s[1..], like);
      InsertTies(s[0], StableSort(s[1..]), like);
      assert ([s[0]] + StableSort(s[1..]))[1..] == StableSort(s[1..]);
    }
  }

  /** The sort begins with the first item that nothing comes before. */
  lemma {:induction false} SelectFirst(a: seq<Item>, h: Item, b: seq<Item>)
    requires forall i :: 0 <= i < |a| ==> Before(h, a[i])
    requires forall i :: 0 <= i < |b| ==> !Before(b[i], h)
    ensures StableSort(a + [h] + b) == [h] + StableSort(a + b)
  {
    hide StableSort, Insert, Before;
    if a == [] {
      assert a + [h] + b == [h] + b && a + b == b;
      SortAfterLeast(h, b);
    } else {
      var rest := a[1..];
      assert a + [h] + b == [a[0]] + (rest + [h] + b) && a + b == [a[0]] + (rest + b);
      SortCons(a[0], rest + [h] + b);
      SortCons(a[0], rest + b);
      SelectFirst(a[1..], h, b);
      InsertUnder(a[0], h, StableSort(a[1..] + b));
    }
  }

  lemma {:induction false} InsertUnder(x: Item, h: Item, s: seq<Item>)
    requires Before(h, x)
    ensures Insert(x, [h] + s) == [h] + Insert(x, s)
  {
    assert ([h] + s)[1..] == s;
  }

  lemma {:induction false} SortCons(x: Item, s: seq<Item>)
    ensures StableSort([x] + s) == Insert(x, StableSort(s))
  {
    assert ([x] + s)[1..] == s;
  }

  lemma {:induction false} SortAfterLeast(h: Item, b: seq<Item>)
    requires forall i :: 0 <= i < |b| ==> !Before(b[i], h)
    ensures StableSort([h] + b) == [h] + StableSort(b)
  {
    SortCons(h, b);
    var t := StableSort(b);
    if t != [] {
      assert t[0] in multiset(t);
      assert t[0] in b;
    }
  }

  /** Two arrangements that are in order and keep ties in the same order are equal,
      so InOrder and Ties describe StableSort completely. */
  lemma {:induction false} StableSortUnique(s: seq<Item>, t: seq<Item>)
    requires InOrder(t)
    requires forall like: Item :: Ties(t, like) == Ties(s, like)
    ensures t == StableSort(s)
  {
    StableSortInOrder(s);
    forall like: Item ensures Ties(t, like) == Ties(StableSort(s), like) { StableSortStable(s, like); }
    SameTiesSame(t, StableSort(s));
  }

  lemma {:induction false} TiesMember(s: seq<Item>, like: Item, x: Item)
    ensures x in Ties(s, like) <==> x in s && x.datetime == like.datetime && x.id == like.id
  {
    if s != [] {
      TiesMember(s[1..], like, x);
      assert s == [s[0]] + s[1..];
    }
  }

  lemma {:induction false} SameTiesSame(s: seq<Item>, t: seq<Item>)
    requires InOrder(s) && InOrder(t)
    requires forall like: Item :: Ties(s, like) == Ties(t, like)
    ensures s == t
  {
    forall x: Item ensures x in s <==> x in t { TiesMember(s, x, x); TiesMember(t, x, x); }
    if s != [] && t != [] {
      SameHead(s, t);
      forall like: Item ensures Ties(s[1..], like) == Ties(t[1..], like) {
        TiesTail(s, like);
        TiesTail(t, like);
      }
      SameTiesSame(s[1..], t[1..]);
      assert s == [s[0]] + s[1..] && t == [t[0]] + t[1..];
    } else {
      Occupied(s);
      Occupied(t);
    }
  }

  lemma {:induction false} Occupied(s: seq<Item>)
    ensures s == [] <==> forall x :: x !in s
  {
    if s != [] { assert s[0] in s; }
  }

  lemma {:induction false} TiesTail(s: seq<Item>, like: Item)
    requires s != []
    ensures Ties(s[1..], like) ==
            if s[0].datetime == like.datetime && s[0].id == like.id then Ties(s, like)[1..] else Ties(s, like)
  {
  }

  lemma {:induction false} SameHead(s: seq<Item>, t: seq<Item>)
    requires InOrder(s) && InOrder(t) && s != [] && t != []
    requires forall x: Item :: x in s <==> x in t
    requires forall like: Item :: Ties(s, like) == Ties(t, like)
    ensures s[0] == t[0]
  {
    assert s[0] in t && t[0] in s;
    var i :| 0 <= i < |t| && t[i] == s[0];
    var j :| 0 <= j < |s| && s[j] == t[0];
    LessIrreflexive(s[0].datetime);
    LessIrreflexive(s[0].id);
    LessIrreflexive(t[0].datetime);
    LessIrreflexive(t[0].id);
    assert !Before(s[0], t[0]) && !Before(t[0], s[0]);
    BeforeTotal(s[0], t[0]);
    assert Ties(s, s[0])[0] == s[0];
    assert Ties(t, s[0])[0] == t[0];
  }
}
