/**
 Dedup of items across origins, first occurrence wins.
 (internal/federation/merger.go)
 */
module Merger {
  import opened Text
  import opened Items

  datatype Source = Source(originId: string, url: string, items: seq<Item>)

  /** All sources' items tagged with their origin, laid end to end. */
  function Laid(sources: seq<Source>): seq<Item> {
    if sources == [] then []
    else TagAll(sources[0].items, sources[0].originId, sources[0].url) + Laid(sources[1..])
  }

  /** `s` without the items whose key was seen before them. */
  function Dedup(s: seq<Item>, seen: set<string>): seq<Item> {
    if s == [] then []
    else if Key(s[0]) in seen then Dedup(s[1..], seen)
    else [s[0]] + Dedup(s[1..], seen + {Key(s[0])})
  }

  function KeySet(s: seq<Item>): set<string> {
    set i | 0 <= i < |s| :: Key(s[i])
  }

  method MergeItemsFirstWins(sources: seq<Source>) returns (out: seq<Item>)
    ensures out == Dedup(Laid(sources), {})
  {
    var seen: set<string> := {};
    out := [];
    for i := 0 to |sources|
      invariant out == Dedup(Laid(sources[..i]), {})
      invariant seen == KeySet(Laid(sources[..i]))
    {
      out, seen := AddSource(sources[i], out, seen, Laid(sources[..i]));
      assert sources[..i + 1] == sources[..i] + [sources[i]];
      LaidSnoc(sources[..i], sources[i]);
    }
    assert sources[..|sources|] == sources;
  }

  /** The inner loop: one source's items after those already `done`. */
  method AddSource(src: Source, out: seq<Item>, seen: set<string>, ghost done: seq<Item>)
    returns (out': seq<Item>, seen': set<string>)
    requires out == Dedup(done, {}) && seen == KeySet(done)
    ensures out' == Dedup(done + TagAll(src.items, src.originId, src.url), {})
    ensures seen' == KeySet(done + TagAll(src.items, src.originId, src.url))
  {
    out', seen' := out, seen;
    ghost var now := done;
    assert done == done + TagAll(src.items[..0], src.originId, src.url);
    for j := 0 to |src.items|
      invariant now == done + TagAll(src.items[..j], src.originId, src.url)
      invariant out' == Dedup(now, {}) && seen' == KeySet(now)
    {
      var item := src.items[j];
      var tagged := Tag(item, src.originId, src.url);
      DedupSnoc(now, tagged, {});
      KeySetSnoc(now, tagged);
      TagAllSnoc(done, src, j);
      now := now + [tagged];
      var key := Key(item);
      if key in seen' {
        continue;
      }
      seen' := seen' + {key};
      out' := out' + [tagged];
    }
    assert src.items[..|src.items|] == src.items;
  }

  lemma {:induction false} TagAllSnoc(before: seq<Item>, src: Source, j: nat)
    requires j < |src.items|
    ensures before + TagAll(src.items[..j + 1], src.originId, src.url) ==
            before + TagAll(src.items[..j], src.originId, src.url) + [Tag(src.items[j], src.originId, src.url)]
  {
  }

  lemma {:induction false} LaidSnoc(sources: seq<Source>, src: Source)
    ensures Laid(sources + [src]) == Laid(sources) + TagAll(src.items, src.originId, src.url)
  {
    if sources == [] {
      assert sources + [src] == [src];
    } else {
      assert (sources + [src])[1..] == sources[1..] + [src];
      LaidSnoc(sources[1..], src);
    }
  }

  lemma {:induction false} KeySetSnoc(s: seq<Item>, x: Item)
    ensures KeySet(s + [x]) == KeySet(s) + {Key(x)}
  {
    var t := s + [x];
    assert forall i :: 0 <= i < |s| ==> t[i] == s[i];
    assert t[|s|] == x;
    forall k | k in KeySet(s) + {Key(x)} ensures k in KeySet(t) {
      if k != Key(x) {
        var i :| 0 <= i < |s| && Key(s[i]) == k;
        assert Key(t[i]) == k;
      }
    }
  }

  lemma {:induction false} KeySetCons(s: seq<Item>)
    requires s != []
    ensures KeySet(s) == {Key(s[0])} + KeySet(s[1..])
  {
    forall k | k in KeySet(s) ensures k in {Key(s[0])} + KeySet(s[1..]) {
      var i :| 0 <= i < |s| && Key(s[i]) == k;
      if 0 < i { assert Key(s[1..][i - 1]) == k; }
    }
    forall k | k in KeySet(s[1..]) ensures k in KeySet(s) {
      var i :| 0 <= i < |s[1..]| && Key(s[1..][i]) == k;
      assert Key(s[i + 1]) == k;
    }
  }

  lemma {:induction false} DedupSnoc(s: seq<Item>, x: Item, seen: set<string>)
    ensures Dedup(s + [x], seen) == Dedup(s, seen) + if Key(x) in seen + KeySet(s) then [] else [x]
  {
    if s == [] {
      assert s + [x] == [x];
      assert [x][1..] == [];
    } else {
      assert (s + [x])[1..] == s[1..] + [x];
      KeySetCons(s);
      DedupSnoc(s[1..], x, if Key(s[0]) in seen then seen else seen + {Key(s[0])});
    }
  }

  /** No key is lost and none is invented. */
  lemma {:induction false} DedupKeys(s: seq<Item>, seen: set<string>)
    ensures KeySet(Dedup(s, seen)) == KeySet(s) - seen
  {
    if s != [] {
      KeySetCons(s);
      if Key(s[0]) in seen {
        DedupKeys(s[1..], seen);
      } else {
        DedupKeys(s[1..], seen + {Key(s[0])});
        KeySetCons(Dedup(s, seen));
        assert Dedup(s, seen)[1..] == Dedup(s[1..], seen + {Key(s[0])});
      }
    }
  }

  /** How often each key occurs. */
  function KeyBag(s: seq<Item>): multiset<string> {
    if s == [] then multiset{} else multiset{Key(s[0])} + KeyBag(s[1..])
  }

  ghost predicate DistinctKeys(s: seq<Item>) {
    forall k :: KeyBag(s)[k] <= 1
  }

  lemma {:induction false} KeyBagAppend(a: seq<Item>, b: seq<Item>)
    ensures KeyBag(a + b) == KeyBag(a) + KeyBag(b)
  {
    if a == [] {
      assert a + b == b;
    } else {
      ConsAppend(a, b);
      KeyBagAppend(a[1..], b);
    }
  }

  lemma {:induction false} KeyBagSet(s: seq<Item>, k: string)
    ensures k in KeyBag(s) <==> k in KeySet(s)
  {
    if s != [] {
      KeyBagSet(s[1..], k);
      KeySetCons(s);
    }
  }

  /** A smaller bag of items has a smaller bag of keys. */
  lemma {:induction false} KeyBagMonotone(a: seq<Item>, b: seq<Item>)
    requires multiset(a) <= multiset(b)
    ensures KeyBag(a) <= KeyBag(b)
  {
    KeyBagNone();
    hide KeyBag, Key;
    if a != [] {
      assert a == [a[0]] + a[1..];
      assert multiset(a) == multiset{a[0]} + multiset(a[1..]);
      assert a[0] in multiset(b);
      var i :| 0 <= i < |b| && b[i] == a[0];
      var c := b[..i] + b[i + 1..];
      assert b == b[..i] + [a[0]] + b[i + 1..];
      AddOneItem(b[..i], a[0], b[i + 1..]);
      AddOneKey(b[..i], a[0], b[i + 1..]);
      BagShrinks(multiset(a[1..]), multiset(c), a[0]);
      KeyBagMonotone(a[1..], c);
      KeyBagCons(a);
    }
  }

  lemma {:induction false} BagShrinks(a: multiset<Item>, b: multiset<Item>, x: Item)
    requires multiset{x} + a <= b + multiset{x}
    ensures a <= b
  {
    forall y ensures a[y] <= b[y] {
      assert (multiset{x} + a)[y] <= (b + multiset{x})[y];
    }
  }

  lemma {:induction false} KeyBagNone()
    ensures KeyBag([]) == multiset{}
  {
  }

  lemma {:induction false} KeyBagCons(s: seq<Item>)
    requires s != []
    ensures KeyBag(s) == multiset{Key(s[0])} + KeyBag(s[1..])
  {
  }

  lemma {:induction false} AddOneItem(a: seq<Item>, x: Item, b: seq<Item>)
    ensures multiset(a + [x] + b) == multiset(a + b) + multiset{x}
  {
  }

  lemma {:induction false} AddOneKey(a: seq<Item>, x: Item, b: seq<Item>)
    ensures KeyBag(a + [x] + b) == KeyBag(a + b) + multiset{Key(x)}
  {
    KeyBagOne(x);
    hide KeyBag, Key;
    KeyBagAppend(a + [x], b);
    KeyBagAppend(a, [x]);
    KeyBagAppend(a, b);
  }

  lemma {:induction false} KeyBagOne(x: Item)
    ensures KeyBag([x]) == multiset{Key(x)}
  {
    assert [x][1..] == [];
  }

  lemma {:induction false} DedupBag(s: seq<Item>, seen: set<string>, k: string)
    ensures KeyBag(Dedup(s, seen))[k] == if k in KeySet(s) - seen then 1 else 0
  {
    if s != [] {
      KeySetCons(s);
      if Key(s[0]) in seen {
        DedupBag(s[1..], seen, k);
      } else {
        DedupBag(s[1..], seen + {Key(s[0])}, k);
        assert Dedup(s, seen)[1..] == Dedup(s[1..], seen + {Key(s[0])});
      }
    }
  }

  /** The kept items have pairwise distinct keys. */
  lemma {:induction false} DedupDistinct(s: seq<Item>)
    ensures DistinctKeys(Dedup(s, {}))
  {
    forall k ensures KeyBag(Dedup(s, {}))[k] <= 1 { DedupBag(s, {}, k); }
  }

  /** `s[i]` is the first item with its key. */
  ghost predicate FirstAt(s: seq<Item>, i: int) {
    0 <= i < |s| && forall j :: 0 <= j < i ==> Key(s[j]) != Key(s[i])
  }

  /** Exactly the first occurrences are kept. */
  lemma {:induction false} DedupKeepsFirst(s: seq<Item>, seen: set<string>, x: Item)
    ensures x in Dedup(s, seen) <==> Key(x) !in seen && exists i :: FirstAt(s, i) && s[i] == x
  {
    if s != [] {
      var seen' := if Key(s[0]) in seen then seen else seen + {Key(s[0])};
      DedupKeepsFirst(s[1..], seen', x);
      if x == s[0] {
        assert FirstAt(s, 0);
      } else if Key(x) == Key(s[0]) {
        assert forall i :: FirstAt(s, i) && 0 < i ==> Key(s[0]) != Key(s[i]);
      } else {
        FirstAtTail(s, x);
      }
    }
  }

  lemma {:induction false} FirstAtTail(s: seq<Item>, x: Item)
    requires s != [] && Key(x) != Key(s[0])
    ensures (exists i :: FirstAt(s, i) && s[i] == x) <==> exists i :: FirstAt(s[1..], i) && s[1..][i] == x
  {
    if i :| FirstAt(s, i) && s[i] == x {
      assert s[1..][i - 1] == x;
      forall j | 0 <= j < i - 1 ensures Key(s[1..][j]) != Key(x) {
        assert s[1..][j] == s[j + 1];
      }
      assert FirstAt(s[1..], i - 1);
    }
    if i :| FirstAt(s[1..], i) && s[1..][i] == x {
      assert s[i + 1] == x;
      forall j | 0 <= j < i + 1 ensures Key(s[j]) != Key(x) {
        if 0 < j { assert s[1..][j - 1] == s[j]; }
      }
      assert FirstAt(s, i + 1);
    }
  }

  /** Where keys are distinct already, dedup keeps everything. */
  lemma {:induction false} DedupIdentity(s: seq<Item>, seen: set<string>)
    requires DistinctKeys(s) && KeySet(s) !! seen
    ensures Dedup(s, seen) == s
  {
    if s != [] {
      KeySetCons(s);
      KeyBagSet(s[1..], Key(s[0]));
      assert KeyBag(s)[Key(s[0])] <= 1;
      assert forall k :: KeyBag(s[1..])[k] <= KeyBag(s)[k];
      DedupIdentity(s[1..], seen + {Key(s[0])});
    }
  }

  /** Dedup only drops items. */
  lemma {:induction false} DedupNoLonger(s: seq<Item>, seen: set<string>)
    ensures |Dedup(s, seen)| <= |s|
    ensures multiset(Dedup(s, seen)) <= multiset(s)
  {
    if s != [] {
      assert s == [s[0]] + s[1..];
      DedupNoLonger(s[1..], if Key(s[0]) in seen then seen else seen + {Key(s[0])});
    }
  }
}
