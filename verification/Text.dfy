/**
 Byte-wise string order, as Go's `<` on strings and `sort.Strings` use it,
 and the strictly sorted listing of a set of identifiers.
 */
module Text {

  datatype Option<+T> = None | Some(value: T)

  function Min(a: int, b: int): int {
    if a <= b then a else b
  }

  lemma {:induction false} Assoc<T>(a: seq<T>, b: seq<T>, c: seq<T>)
    ensures (a + b) + c == a + (b + c)
  {
  }

  lemma {:induction false} TakeCons<T>(x: T, s: seq<T>, k: nat)
    requires 0 < k <= |s| + 1
    ensures ([x] + s)[..k] == [x] + s[..k - 1]
  {
  }

  lemma {:induction false} DropCons<T>(x: T, s: seq<T>, k: nat)
    requires 0 < k <= |s| + 1
    ensures ([x] + s)[k..] == s[k - 1..]
  {
  }

  /** The first item of a concatenation, and the rest. */
  lemma {:induction false} ConsAppend<T>(a: seq<T>, b: seq<T>)
    requires a != []
    ensures a + b == [a[0]] + (a[1..] + b)
    ensures (a + b)[0] == a[0] && (a + b)[1..] == a[1..] + b
  {
  }

  /** Lexicographic "strictly less". (`<` on sequences is the prefix order.) */
  predicate Less(a: string, b: string) {
    b != [] && (a == [] || a[0] < b[0] || (a[0] == b[0] && Less(a[1..], b[1..])))
  }

  /** The strings agree up to `k`, where `a` ends or has the smaller character. */
  ghost predicate LessAt(a: string, b: string, k: nat) {
    k <= |a| && k < |b| && a[..k] == b[..k] && (k == |a| || a[k] < b[k])
  }

  /** The order of dictionaries: the first difference decides, and a proper prefix comes first. */
  lemma {:induction false} LessMeans(a: string, b: string)
    ensures Less(a, b) <==> exists k: nat :: LessAt(a, b, k)
  {
    if a != [] && b != [] && a[0] == b[0] {
      LessMeans(a[1..], b[1..]);
      if k: nat :| LessAt(a[1..], b[1..], k) { LessAtBehind(a, b, k); }
      if k: nat :| LessAt(a, b, k) { LessAtAhead(a, b, k); }
    } else if b != [] && (a == [] || a[0] < b[0]) {
      assert LessAt(a, b, 0);
    } else if k: nat :| LessAt(a, b, k) {
      LessAtHeads(a, b, k);
    }
  }

  lemma {:induction false} LessAtHeads(a: string, b: string, k: nat)
    requires LessAt(a, b, k)
    ensures b != [] && (a == [] || a[0] <= b[0])
  {
    if k > 0 { assert a[..k][0] == b[..k][0]; }
  }

  lemma {:induction false} LessAtBehind(a: string, b: string, k: nat)
    requires a != [] && b != [] && a[0] == b[0] && LessAt(a[1..], b[1..], k)
    ensures LessAt(a, b, k + 1)
  {
    assert a[..k + 1] == [a[0]] + a[1..][..k] && b[..k + 1] == [b[0]] + b[1..][..k];
  }

  lemma {:induction false} LessAtAhead(a: string, b: string, k: nat)
    requires a != [] && b != [] && a[0] == b[0] && LessAt(a, b, k)
    ensures k > 0 && LessAt(a[1..], b[1..], k - 1)
  {
    assert a[1..][..k - 1] == a[..k][1..] && b[1..][..k - 1] == b[..k][1..];
  }

  lemma {:induction false} LessIrreflexive(a: string)
    ensures !Less(a, a)
  {
    if a != [] { LessIrreflexive(a[1..]); }
  }

  lemma {:induction false} LessTotal(a: string, b: string)
    ensures Less(a, b) || Less(b, a) || a == b
  {
    if a != [] && b != [] && a[0] == b[0] {
      LessTotal(a[1..], b[1..]);
      assert a[1..] == b[1..] ==> [a[0]] + a[1..] == [b[0]] + b[1..];
    }
  }

  lemma {:induction false} LessTransitive(a: string, b: string, c: string)
    requires Less(a, b) && Less(b, c)
    ensures Less(a, c)
  {
    if a != [] && a[0] == b[0] == c[0] { LessTransitive(a[1..], b[1..], c[1..]); }
  }

  /** Strictly increasing, hence free of repeats. */
  ghost predicate Increasing(s: seq<string>) {
    forall i, j :: 0 <= i < j < |s| ==> Less(s[i], s[j])
  }

  /** An increasing sequence is determined by its elements. */
  lemma {:induction false} IncreasingUnique(s: seq<string>, t: seq<string>)
    requires Increasing(s) && Increasing(t)
    requires forall x :: x in s <==> x in t
    ensures s == t
  {
    if s == [] {
      Inhabited(t);
    } else {
      assert s[0] in t;
      HeadsAgree(s, t);
      forall x ensures x in s[1..] <==> x in t[1..] { TailMember(s, x); TailMember(t, x); }
      IncreasingUnique(s[1..], t[1..]);
      assert s == [s[0]] + s[1..] && t == [t[0]] + t[1..];
    }
  }

  lemma {:induction false} Inhabited<T>(t: seq<T>)
    ensures t != [] ==> exists x :: x in t
  {
    if t != [] { assert t[0] in t; }
  }

  lemma {:induction false} HeadsAgree(s: seq<string>, t: seq<string>)
    requires Increasing(s) && Increasing(t) && s != [] && t != []
    requires forall x :: x in s <==> x in t
    ensures s[0] == t[0]
  {
    assert s[0] in t && t[0] in s;
    if s[0] != t[0] {
      var i :| 0 <= i < |t| && t[i] == s[0];
      var j :| 0 <= j < |s| && s[j] == t[0];
      LessTransitive(s[0], t[0], s[0]);
      LessIrreflexive(s[0]);
    }
  }

  lemma {:induction false} TailMember(s: seq<string>, x: string)
    requires Increasing(s) && s != []
    ensures x in s[1..] <==> x in s && x != s[0]
  {
    if x in s[1..] {
      var i :| 0 <= i < |s[1..]| && s[1..][i] == x;
      LessIrreflexive(x);
    }
    if x in s && x != s[0] {
      var i :| 0 <= i < |s| && s[i] == x;
      assert s[1..][i - 1] == x;
    }
  }

  lemma {:induction false} IncreasingLength(s: seq<string>, ids: set<string>)
    requires Increasing(s) && forall x :: x in s <==> x in ids
    ensures |s| == |ids|
  {
    if s == [] {
      assert ids == {};
    } else {
      forall x ensures x in s[1..] <==> x in ids - {s[0]} { TailMember(s, x); }
      assert s[0] in s;
      IncreasingLength(s[1..], ids - {s[0]});
    }
  }

  /** Places `x` in an increasing sequence; a repeat is left alone. */
  function InsertSorted(s: seq<string>, x: string): (r: seq<string>)
    requires Increasing(s)
    ensures Increasing(r)
    ensures forall y :: y in r <==> y in s || y == x
  {
    if s == [] then [x]
    else if Less(x, s[0]) then
      InsertFront(s, x);
      [x] + s
    else if x == s[0] then s
    else
      LessTotal(x, s[0]);
      var r := InsertSorted(s[1..], x);
      InsertBehind(s, r, x);
      [s[0]] + r
  }

  lemma {:induction false} InsertFront(s: seq<string>, x: string)
    requires Increasing(s) && s != [] && Less(x, s[0])
    ensures Increasing([x] + s)
  {
    forall j | 0 <= j < |s| ensures Less(x, s[j]) {
      if 0 < j { LessTransitive(x, s[0], s[j]); }
    }
  }

  lemma {:induction false} InsertBehind(s: seq<string>, r: seq<string>, x: string)
    requires Increasing(s) && s != [] && Less(s[0], x) && Increasing(r)
    requires forall y :: y in r <==> y in s[1..] || y == x
    ensures Increasing([s[0]] + r)
    ensures forall y :: y in [s[0]] + r <==> y in s || y == x
  {
    forall j | 0 <= j < |r| ensures Less(s[0], r[j]) {
      assert r[j] in r;
    }
    assert s == [s[0]] + s[1..];
  }

  /** The identifiers of a set in increasing order. */
  ghost function Sorted(ids: set<string>): (s: seq<string>)
    ensures Increasing(s)
    ensures forall x :: x in s <==> x in ids
  {
    if ids == {} then [] else
      var x :| x in ids;
      InsertSorted(Sorted(ids - {x}), x)
  }
}
