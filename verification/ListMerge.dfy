/**
 The k-way merge of ordered lists, used to reason about what a page must hold:
 taking the best head again and again is the stable sort of the lists laid end to
 end, and its first steps need only a long enough front of each list.
 */
module ListMerge {
  import opened Text
  import opened Items
  import opened Ordering

  function Flatten(ls: seq<seq<Item>>): seq<Item> {
    if ls == [] then [] else ls[0] + Flatten(ls[1..])
  }

  lemma {:induction false} FlattenAppend(a: seq<seq<Item>>, b: seq<seq<Item>>)
    ensures Flatten(a + b) == Flatten(a) + Flatten(b)
  {
    if a == [] {
      assert a + b == b;
    } else {
      ConsAppend(a, b);
      FlattenAppend(a[1..], b);
      Assoc(a[0], Flatten(a[1..]), Flatten(b));
    }
  }

  /** One list singled out. */
  lemma {:induction false} FlattenAt(ls: seq<seq<Item>>, j: nat)
    requires j < |ls|
    ensures Flatten(ls) == Flatten(ls[..j]) + ls[j] + Flatten(ls[j + 1..])
  {
    assert ls == ls[..j] + ls[j..];
    FlattenAppend(ls[..j], ls[j..]);
    assert ls[j..][1..] == ls[j + 1..];
  }

  lemma {:induction false} FlattenMember(ls: seq<seq<Item>>, x: Item)
    ensures x in Flatten(ls) <==> exists i :: 0 <= i < |ls| && x in ls[i]
  {
    if ls != [] {
      FlattenMember(ls[1..], x);
      if x in Flatten(ls[1..]) {
        var i :| 0 <= i < |ls[1..]| && x in ls[1..][i];
        assert x in ls[i + 1];
      }
      if i :| 0 <= i < |ls| && x in ls[i] {
        if 0 < i { assert x in ls[1..][i - 1]; }
      }
    }
  }

  ghost predicate AllEmpty(ls: seq<seq<Item>>) {
    forall i :: 0 <= i < |ls| ==> ls[i] == []
  }

  lemma {:induction false} FlattenEmpty(ls: seq<seq<Item>>)
    ensures AllEmpty(ls) <==> Flatten(ls) == []
  {
    if ls != [] {
      FlattenEmpty(ls[1..]);
      assert AllEmpty(ls) <==> ls[0] == [] && AllEmpty(ls[1..]);
    }
  }

  /** List `j` has the head to take next: nothing comes before it, and the earlier
      lists' heads come strictly after it. */
  ghost predicate IsBest(ls: seq<seq<Item>>, j: int) {
    && 0 <= j < |ls| && ls[j] != []
    && forall i :: 0 <= i < |ls| && ls[i] != [] ==>
         !Before(ls[i][0], ls[j][0]) && (i < j ==> Before(ls[j][0], ls[i][0]))
  }

  lemma {:induction false} BestUnique(ls: seq<seq<Item>>, i: int, j: int)
    requires IsBest(ls, i) && IsBest(ls, j)
    ensures i == j
  {
  }

  lemma {:induction false} BestExists(ls: seq<seq<Item>>) returns (j: nat)
    requires !AllEmpty(ls)
    ensures IsBest(ls, j)
  {
    if AllEmpty(ls[1..]) {
      j := 0;
      assert forall i :: 0 < i < |ls| ==> ls[i] == ls[1..][i - 1];
      LessIrreflexive(ls[0][0].id);
      LessIrreflexive(ls[0][0].datetime);
    } else {
      var k := BestExists(ls[1..]);
      var h := ls[1..][k][0];
      assert forall i :: 0 < i < |ls| ==> ls[i] == ls[1..][i - 1];
      if ls[0] == [] || Before(h, ls[0][0]) {
        j := k + 1;
        if ls[0] != [] { BeforeAsymmetric(h, ls[0][0]); }
      } else {
        j := 0;
        LessIrreflexive(ls[0][0].id);
        LessIrreflexive(ls[0][0].datetime);
        forall i | 0 <= i < |ls| && ls[i] != [] ensures !Before(ls[i][0], ls[0][0]) {
          if 0 < i { NotBeforeTransitive(ls[0][0], h, ls[i][0]); }
        }
      }
    }
  }

  ghost function Best(ls: seq<seq<Item>>): (j: nat)
    requires !AllEmpty(ls)
    ensures IsBest(ls, j)
  {
    assert exists j: nat :: IsBest(ls, j) by { var j := BestExists(ls); }
    var j: nat :| IsBest(ls, j);
    j
  }

  /** The lists without the head of list `j`. */
  function Without(ls: seq<seq<Item>>, j: nat): (r: seq<seq<Item>>)
    requires j < |ls| && ls[j] != []
    ensures |r| == |ls| && |Flatten(r)| == |Flatten(ls)| - 1
  {
    FlattenAt(ls, j);
    FlattenUpdate(ls, j, ls[j][1..]);
    ls[j := ls[j][1..]]
  }

  ghost function Merge(ls: seq<seq<Item>>): (r: seq<Item>)
    ensures |r| == |Flatten(ls)|
    decreases |Flatten(ls)|
  {
    FlattenEmpty(ls);
    if AllEmpty(ls) then [] else [ls[Best(ls)][0]] + Merge(Without(ls, Best(ls)))
  }

  /** What `k` steps of the merge leave of each list. */
  ghost function Rest(ls: seq<seq<Item>>, k: nat): (r: seq<seq<Item>>)
    ensures |r| == |ls|
    decreases k
  {
    if k == 0 || AllEmpty(ls) then ls else Rest(Without(ls, Best(ls)), k - 1)
  }

  lemma {:induction false} MergeRest(ls: seq<seq<Item>>, k: nat)
    requires k <= |Merge(ls)|
    ensures Merge(ls)[k..] == Merge(Rest(ls, k))
    decreases k
  {
    if 0 < k && !AllEmpty(ls) {
      var rest := Without(ls, Best(ls));
      MergeRest(rest, k - 1);
      DropCons(ls[Best(ls)][0], Merge(rest), k);
    }
  }

  ghost predicate EachInOrder(ls: seq<seq<Item>>) {
    forall i :: 0 <= i < |ls| ==> InOrder(ls[i])
  }

  lemma {:induction false} RestInOrder(ls: seq<seq<Item>>, k: nat)
    requires EachInOrder(ls)
    ensures EachInOrder(Rest(ls, k))
    decreases k
  {
    if 0 < k && !AllEmpty(ls) { RestInOrder(Without(ls, Best(ls)), k - 1); }
  }

  /** Merging ordered lists sorts them, ties going to the earlier list. */
  lemma {:induction false} MergeIsSort(ls: seq<seq<Item>>)
    requires EachInOrder(ls)
    ensures Merge(ls) == StableSort(Flatten(ls))
    decreases |Flatten(ls)|
  {
    FlattenEmpty(ls);
    if !AllEmpty(ls) {
      var j := Best(ls);
      MergeIsSort(Without(ls, j));
      RestInOrder(ls, 1);
      var a, h, b := Flatten(ls[..j]), ls[j][0], ls[j][1..] + Flatten(ls[j + 1..]);
      SplitAtHead(ls, j);
      BestAheadOfEarlier(ls, j);
      BestAheadOfLater(ls, j);
      SelectFirst(a, h, b);
    }
  }

  lemma {:induction false} SplitAtHead(ls: seq<seq<Item>>, j: nat)
    requires j < |ls| && ls[j] != []
    ensures var a, b := Flatten(ls[..j]), ls[j][1..] + Flatten(ls[j + 1..]);
            Flatten(ls) == a + [ls[j][0]] + b && Flatten(Without(ls, j)) == a + b
  {
    FlattenUpdate(ls, j, ls[j]);
    assert ls[j := ls[j]] == ls;
    FlattenUpdate(ls, j, ls[j][1..]);
    var h, t := ls[j][0], ls[j][1..];
    assert ls[j] == [h] + t;
    Regroup(Flatten(ls[..j]), h, t, Flatten(ls[j + 1..]));
  }

  lemma {:induction false} FlattenUpdate(ls: seq<seq<Item>>, j: nat, l: seq<Item>)
    requires j < |ls|
    ensures Flatten(ls[j := l]) == Flatten(ls[..j]) + l + Flatten(ls[j + 1..])
  {
    var r := ls[j := l];
    FlattenAt(r, j);
    assert r[..j] == ls[..j];
    assert r[j + 1..] == ls[j + 1..];
  }

  lemma {:induction false} Regroup(a: seq<Item>, h: Item, t: seq<Item>, b: seq<Item>)
    ensures a + ([h] + t) + b == a + [h] + (t + b)
    ensures a + t + b == a + (t + b)
  {
  }

  lemma {:induction false} BestAheadOfEarlier(ls: seq<seq<Item>>, j: nat)
    requires EachInOrder(ls) && IsBest(ls, j)
    ensures forall i :: 0 <= i < |Flatten(ls[..j])| ==> Before(ls[j][0], Flatten(ls[..j])[i])
  {
    var a := Flatten(ls[..j]);
    forall i | 0 <= i < |a| ensures Before(ls[j][0], a[i]) {
      FlattenMember(ls[..j], a[i]);
      var m :| 0 <= m < j && a[i] in ls[..j][m];
      var n :| 0 <= n < |ls[m]| && ls[m][n] == a[i];
      if 0 < n { BeforeThenNot(ls[j][0], ls[m][0], ls[m][n]); }
    }
  }

  lemma {:induction false} BestAheadOfLater(ls: seq<seq<Item>>, j: nat)
    requires EachInOrder(ls) && IsBest(ls, j)
    ensures var b := ls[j][1..] + Flatten(ls[j + 1..]);
            forall i :: 0 <= i < |b| ==> !Before(b[i], ls[j][0])
  {
    var b := ls[j][1..] + Flatten(ls[j + 1..]);
    forall i | 0 <= i < |b| ensures !Before(b[i], ls[j][0]) {
      if i < |ls[j][1..]| {
        assert b[i] == ls[j][i + 1];
      } else {
        var x := Flatten(ls[j + 1..])[i - |ls[j][1..]|];
        FlattenMember(ls[j + 1..], x);
        var m :| 0 <= m < |ls[j + 1..]| && x in ls[j + 1..][m];
        var l := ls[j + 1 + m];
        var n :| 0 <= n < |l| && l[n] == x;
        if 0 < n { NotBeforeTransitive(ls[j][0], l[0], l[n]); }
      }
    }
  }

  /** Lists extended list by list. */
  function Join(ls: seq<seq<Item>>, tails: seq<seq<Item>>): (r: seq<seq<Item>>)
    requires |ls| == |tails|
    ensures |r| == |ls|
    ensures forall i :: 0 <= i < |r| ==> r[i] == ls[i] + tails[i]
  {
    seq(|ls|, i requires 0 <= i < |ls| => ls[i] + tails[i])
  }

  /** The first `k` steps do not look past the `k`-th item of any list: lists that are
      whole or at least `k` long merge alike, and what is left is extended alike. */
  lemma {:induction false} FrontSuffices(ls: seq<seq<Item>>, tails: seq<seq<Item>>, k: nat)
    requires |ls| == |tails| && k <= |Merge(ls)|
    requires forall i :: 0 <= i < |ls| ==> tails[i] == [] || k <= |ls[i]|
    ensures k <= |Merge(Join(ls, tails))|
    ensures Merge(Join(ls, tails))[..k] == Merge(ls)[..k]
    ensures Rest(Join(ls, tails), k) == Join(Rest(ls, k), tails)
    decreases k
  {
    if 0 < k {
      FlattenEmpty(ls);
      var j := Best(ls);
      JoinStep(ls, tails, j);
      var all, rest := Join(ls, tails), Without(ls, j);
      FrontSuffices(rest, tails, k - 1);
      var m, m' := Merge(rest), Merge(Join(rest, tails));
      assert Merge(ls) == [ls[j][0]] + m && Merge(all) == [ls[j][0]] + m';
      TakeCons(ls[j][0], m, k);
      TakeCons(ls[j][0], m', k);
    }
  }

  /** Where every list that is extended has a head of its own, the same head is taken. */
  lemma {:induction false} JoinStep(ls: seq<seq<Item>>, tails: seq<seq<Item>>, j: nat)
    requires |ls| == |tails| && IsBest(ls, j)
    requires forall i :: 0 <= i < |ls| ==> tails[i] == [] || ls[i] != []
    ensures !AllEmpty(Join(ls, tails)) && Best(Join(ls, tails)) == j
    ensures Join(ls, tails)[j][0] == ls[j][0]
    ensures Without(Join(ls, tails), j) == Join(Without(ls, j), tails)
  {
    var all := Join(ls, tails);
    assert all[j] == ls[j] + tails[j];
    assert IsBest(all, j) by {
      forall i | 0 <= i < |all| && all[i] != [] ensures ls[i] != [] && all[i][0] == ls[i][0] {}
    }
    BestUnique(all, j, Best(all));
    assert (ls[j] + tails[j])[1..] == ls[j][1..] + tails[j];
  }

  /** The lists come from origins `ids`, one each. */
  ghost predicate FiledBy(ls: seq<seq<Item>>, ids: seq<string>) {
    |ls| == |ids| && forall i :: 0 <= i < |ls| ==> AllFrom(ls[i], ids[i])
  }

  /** Picking one origin's items out of the lists laid end to end gives its list back. */
  lemma {:induction false} OnlyFlatten(ls: seq<seq<Item>>, ids: seq<string>, j: nat)
    requires FiledBy(ls, ids) && Increasing(ids) && j < |ids|
    ensures Only(Flatten(ls), ids[j]) == ls[j]
  {
    OnlyAppend(ls[0], Flatten(ls[1..]), ids[j]);
    OnlyAllFrom(ls[0], ids[0], ids[j]);
    if j == 0 {
      LessIrreflexive(ids[0]);
      OnlyFlattenStranger(ls[1..], ids[1..], ids[0]);
    } else {
      LessIrreflexive(ids[0]);
      assert ids[0] != ids[j];
      OnlyFlatten(ls[1..], ids[1..], j - 1);
    }
  }

  lemma {:induction false} OnlyFlattenStranger(ls: seq<seq<Item>>, ids: seq<string>, other: string)
    requires FiledBy(ls, ids) && other !in ids
    ensures Only(Flatten(ls), other) == []
  {
    if ls != [] {
      OnlyAppend(ls[0], Flatten(ls[1..]), other);
      OnlyAllFrom(ls[0], ids[0], other);
      OnlyFlattenStranger(ls[1..], ids[1..], other);
    }
  }

  /** The same for the merge. */
  lemma {:induction false} OnlyMerge(ls: seq<seq<Item>>, ids: seq<string>, j: nat)
    requires FiledBy(ls, ids) && Increasing(ids) && j < |ids|
    ensures Only(Merge(ls), ids[j]) == ls[j]
    decreases |Flatten(ls)|
  {
    FlattenEmpty(ls);
    if !AllEmpty(ls) {
      var b := Best(ls);
      var rest := Without(ls, b);
      OnlyMerge(rest, ids, j);
      assert Merge(ls)[1..] == Merge(rest);
      assert OriginOf(ls[b][0]) == ids[b];
      if b != j {
        LessIrreflexive(ids[j]);
        assert ids[b] != ids[j];
      }
    }
  }

  lemma {:induction false} RestFiled(ls: seq<seq<Item>>, ids: seq<string>, k: nat)
    requires FiledBy(ls, ids)
    ensures FiledBy(Rest(ls, k), ids)
    decreases k
  {
    if 0 < k && !AllEmpty(ls) { RestFiled(Without(ls, Best(ls)), ids, k - 1); }
  }
}
