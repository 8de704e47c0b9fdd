/**
 STAC items as the federation layer sees them, the `stac_proxy:origin` link
 that records where an item was fetched, and the dedup key.
 (internal/stac/extras.go, internal/federation/merger.go)
 */
module Items {
  import opened Text

  /** A link's rel: "stac_proxy:origin", or any other string. */
  datatype Rel = OriginRel | OtherRel(name: string)

  datatype Link = Link(rel: Rel, title: string, href: string)

  /** `datetime` is the string the page sort compares (the result of getDatetime);
      `body` stands for every field the federation layer only carries along. */
  datatype Item = Item(collection: string, id: string, datetime: string, links: seq<Link>, body: string)

  /** The title of the first origin link, if there is one. */
  function FirstOrigin(links: seq<Link>): Option<string> {
    if links == [] then None
    else if links[0].rel == OriginRel then Some(links[0].title)
    else FirstOrigin(links[1..])
  }

  predicate HasLinkTo(links: seq<Link>, originId: string) {
    links != [] && ((links[0].rel == OriginRel && links[0].title == originId) || HasLinkTo(links[1..], originId))
  }

  /** ItemOriginID: "" when the item carries no origin link. */
  function OriginOf(item: Item): string {
    match FirstOrigin(item.links)
    case Some(title) => title
    case None => ""
  }

  /** AddItemOriginLink on a shallow copy: a no-op when a link to that origin is present. */
  function Tag(item: Item, originId: string, url: string): Item {
    if HasLinkTo(item.links, originId) then item
    else item.(links := item.links + [Link(OriginRel, originId, url)])
  }

  /** An item that names no other origin ahead of `originId`. */
  predicate Unclaimed(item: Item, originId: string) {
    FirstOrigin(item.links).None? || OriginOf(item) == originId
  }

  /** Link i is the first that names an origin. */
  ghost predicate NamesFirst(links: seq<Link>, i: nat) {
    i < |links| && links[i].rel == OriginRel && forall j :: 0 <= j < i ==> links[j].rel != OriginRel
  }

  /** An item's origin is the title of its first origin link, and "" when it has none. */
  lemma {:induction false} OriginOfMeans(item: Item)
    ensures forall i: nat :: NamesFirst(item.links, i) ==> OriginOf(item) == item.links[i].title
    ensures (forall i: nat :: !NamesFirst(item.links, i)) ==> OriginOf(item) == ""
  {
    FirstOriginMeans(item.links);
  }

  lemma {:induction false} FirstOriginMeans(links: seq<Link>)
    ensures forall i: nat :: NamesFirst(links, i) ==> FirstOrigin(links) == Some(links[i].title)
    ensures FirstOrigin(links).Some? ==> exists i: nat :: NamesFirst(links, i)
  {
    if links != [] && links[0].rel != OriginRel {
      FirstOriginMeans(links[1..]);
      forall i: nat | NamesFirst(links, i) ensures FirstOrigin(links) == Some(links[i].title) {
        assert NamesFirst(links[1..], i - 1) by {
          forall j | 0 <= j < i - 1 ensures links[1..][j].rel != OriginRel { assert links[1..][j] == links[j + 1]; }
        }
      }
      if i: nat :| NamesFirst(links[1..], i) {
        assert NamesFirst(links, i + 1) by {
          forall j | 0 <= j < i + 1 ensures links[j].rel != OriginRel {
            if j > 0 { assert links[1..][j - 1] == links[j]; }
          }
        }
      }
    } else if links != [] {
      assert NamesFirst(links, 0);
    }
  }

  /** Tagging adds a last link with the origin's id and URL, unless a link of the item names that
      origin already. */
  lemma {:induction false} TagAddsLink(item: Item, originId: string, url: string)
    ensures var named := exists i :: 0 <= i < |item.links| && item.links[i].rel == OriginRel
                                     && item.links[i].title == originId;
            Tag(item, originId, url).links == if named then item.links
                                              else item.links + [Link(OriginRel, originId, url)]
  {
    HasLinkMeans(item.links, originId);
  }

  lemma {:induction false} HasLinkMeans(links: seq<Link>, originId: string)
    ensures HasLinkTo(links, originId) <==>
            exists i :: 0 <= i < |links| && links[i].rel == OriginRel && links[i].title == originId
  {
    if links != [] {
      HasLinkMeans(links[1..], originId);
      if i :| 0 <= i < |links| && links[i].rel == OriginRel && links[i].title == originId {
        if i > 0 { assert links[1..][i - 1] == links[i]; }
      }
      if i :| 0 <= i < |links[1..]| && links[1..][i].rel == OriginRel && links[1..][i].title == originId {
        assert links[i + 1] == links[1..][i];
      }
    }
  }

  lemma {:induction false} FirstOriginAppend(links: seq<Link>, l: Link)
    requires l.rel == OriginRel
    ensures FirstOrigin(links + [l]) == if FirstOrigin(links).None? then Some(l.title) else FirstOrigin(links)
  {
    if links == [] {
      assert links + [l] == [l];
    } else {
      assert (links + [l])[1..] == links[1..] + [l];
      FirstOriginAppend(links[1..], l);
    }
  }

  /** The first origin link is a link, and without one there is none. */
  lemma {:induction false} FirstOriginIsLink(links: seq<Link>, originId: string)
    ensures FirstOrigin(links) == Some(originId) ==> HasLinkTo(links, originId)
    ensures FirstOrigin(links).None? ==> !HasLinkTo(links, originId)
  {
    if links != [] { FirstOriginIsLink(links[1..], originId); }
  }

  lemma {:induction false} LinkAppended(links: seq<Link>, l: Link)
    requires l.rel == OriginRel
    ensures HasLinkTo(links + [l], l.title)
  {
    if links != [] {
      ConsAppend(links, [l]);
      LinkAppended(links[1..], l);
    }
  }

  /** A tagged item is filed under the origin it came from exactly when no foreign
      origin link stands first on it. */
  lemma {:induction false} TagNamesOrigin(item: Item, originId: string, url: string)
    ensures OriginOf(Tag(item, originId, url)) == originId <==> Unclaimed(item, originId)
  {
    FirstOriginIsLink(item.links, originId);
    FirstOriginAppend(item.links, Link(OriginRel, originId, url));
  }

  /** Tagging again for the same origin changes nothing, whatever URL is given. */
  lemma {:induction false} TagIdempotent(item: Item, originId: string, url: string, url': string)
    ensures Tag(Tag(item, originId, url), originId, url') == Tag(item, originId, url)
  {
    LinkAppended(item.links, Link(OriginRel, originId, url));
  }

  /** An item already filed under a named origin is not touched by tagging for it. */
  lemma {:induction false} TagKeepsOwn(item: Item, originId: string, url: string)
    requires OriginOf(item) == originId && originId != ""
    ensures Tag(item, originId, url) == item
  {
    FirstOriginIsLink(item.links, originId);
  }

  /** The dedup key of mergeItemsFirstWins. */
  function Key(item: Item): string {
    item.collection + ":" + item.id
  }

  /** Two items share a dedup key exactly when they agree on (collection, id) or when one
      collection continues the other past a colon that the ids make up for. */
  lemma {:induction false} KeyCollision(a: Item, b: Item)
    ensures Key(a) == Key(b) <==>
            || (a.collection == b.collection && a.id == b.id)
            || ColonShift(a, b)
            || ColonShift(b, a)
  {
    if Key(a) == Key(b) {
      if |a.collection| < |b.collection| {
        KeyShift(a, b);
      } else if |b.collection| < |a.collection| {
        KeyShift(b, a);
      } else {
        assert a.collection == Key(a)[..|a.collection|] == b.collection;
        assert a.id == Key(a)[|a.collection| + 1..] == b.id;
      }
    }
    if ColonShift(a, b) { ShiftKey(a, b); }
    if ColonShift(b, a) { ShiftKey(b, a); }
  }

  ghost predicate ColonShift(a: Item, b: Item) {
    exists m: string ::
      b.collection == a.collection + ":" + m && a.id == m + ":" + b.id
  }

  lemma {:induction false} ShiftKey(a: Item, b: Item)
    requires ColonShift(a, b)
    ensures Key(a) == Key(b)
  {
    var m: string :| b.collection == a.collection + ":" + m && a.id == m + ":" + b.id;
    assert Key(a) == a.collection + ":" + m + ":" + b.id == Key(b);
  }

  lemma {:induction false} KeyShift(a: Item, b: Item)
    requires Key(a) == Key(b) && |a.collection| < |b.collection|
    ensures ColonShift(a, b)
  {
    var n := |a.collection|;
    var m := b.collection[n + 1..];
    assert b.collection == Key(a)[..|b.collection|];
    assert b.collection[..n] == Key(a)[..n] == a.collection;
    assert b.collection[n] == Key(a)[n] == ':';
    assert b.collection == a.collection + ":" + m;
    assert Key(b) == a.collection + ":" + (m + ":" + b.id);
    assert a.id == Key(a)[n + 1..] == m + ":" + b.id;
  }

  /** And there are such items. */
  lemma {:induction false} KeyCollides(links: seq<Link>, body: string)
    ensures var a, b := Item("s2", "l2a:7", "", links, body), Item("s2:l2a", "7", "", links, body);
            a.collection != b.collection && a.id != b.id && Key(a) == Key(b)
  {
    assert "s2" + ":" + "l2a:7" == "s2:l2a" + ":" + "7";
  }

  /** Hence the key separates items wherever collection names hold no colon. */
  lemma {:induction false} KeySeparates(a: Item, b: Item)
    requires ':' !in a.collection && ':' !in b.collection
    ensures Key(a) == Key(b) <==> a.collection == b.collection && a.id == b.id
  {
    KeyCollision(a, b);
    ShiftHasColon(a, b);
    ShiftHasColon(b, a);
  }

  lemma {:induction false} ShiftHasColon(a: Item, b: Item)
    ensures ColonShift(a, b) ==> ':' in b.collection
  {
    if ColonShift(a, b) {
      var m: string :| b.collection == a.collection + ":" + m && a.id == m + ":" + b.id;
      assert b.collection[|a.collection|] == ':';
    }
  }

  /** Tagging leaves everything but the links alone. */
  lemma {:induction false} TagKeepsKey(item: Item, originId: string, url: string)
    ensures Tag(item, originId, url) == item.(links := Tag(item, originId, url).links)
    ensures Key(Tag(item, originId, url)) == Key(item)
  {
  }

  function TagAll(items: seq<Item>, originId: string, url: string): (r: seq<Item>)
    ensures |r| == |items|
  {
    seq(|items|, i requires 0 <= i < |items| => Tag(items[i], originId, url))
  }

  lemma {:induction false} TagAllAppend(a: seq<Item>, b: seq<Item>, originId: string, url: string)
    ensures TagAll(a + b, originId, url) == TagAll(a, originId, url) + TagAll(b, originId, url)
  {
  }

  /** Every item of the list is filed under `originId`. */
  predicate AllFrom(items: seq<Item>, originId: string) {
    forall i :: 0 <= i < |items| ==> OriginOf(items[i]) == originId
  }

  lemma {:induction false} TagAllFrom(items: seq<Item>, originId: string, url: string)
    requires forall i :: 0 <= i < |items| ==> Unclaimed(items[i], originId)
    ensures AllFrom(TagAll(items, originId, url), originId)
  {
    forall i | 0 <= i < |items| ensures OriginOf(TagAll(items, originId, url)[i]) == originId {
      TagNamesOrigin(items[i], originId, url);
    }
  }

  lemma {:induction false} TagAllKeepsOwn(items: seq<Item>, originId: string, url: string)
    requires AllFrom(items, originId) && originId != ""
    ensures TagAll(items, originId, url) == items
  {
    forall i | 0 <= i < |items| ensures TagAll(items, originId, url)[i] == items[i] {
      TagKeepsOwn(items[i], originId, url);
    }
  }

  /** The items filed under `originId`, in order. */
  function Only(items: seq<Item>, originId: string): (r: seq<Item>)
    ensures |r| <= |items|
  {
    if items == [] then []
    else if OriginOf(items[0]) == originId then [items[0]] + Only(items[1..], originId)
    else Only(items[1..], originId)
  }

  lemma {:induction false} OnlyAppend(a: seq<Item>, b: seq<Item>, originId: string)
    ensures Only(a + b, originId) == Only(a, originId) + Only(b, originId)
  {
    if a == [] {
      assert a + b == b;
    } else {
      ConsAppend(a, b);
      OnlyAppend(a[1..], b, originId);
      Assoc([a[0]], Only(a[1..], originId), Only(b, originId));
    }
  }

  lemma {:induction false} OnlyMember(s: seq<Item>, id: string, x: Item)
    ensures x in Only(s, id) <==> x in s && OriginOf(x) == id
  {
    if s != [] {
      OnlyMember(s[1..], id, x);
      assert s == [s[0]] + s[1..];
    }
  }

  lemma {:induction false} OnlyAllFrom(items: seq<Item>, from: string, originId: string)
    requires AllFrom(items, from)
    ensures Only(items, originId) == if from == originId then items else []
  {
    if items != [] { OnlyAllFrom(items[1..], from, originId); }
  }

  lemma {:induction false} OnlyIsFrom(items: seq<Item>, originId: string)
    ensures AllFrom(Only(items, originId), originId)
  {
    if items != [] { OnlyIsFrom(items[1..], originId); }
  }

  /** How often `originId`'s items occur depends on the bag of items only. */
  lemma {:induction false} OnlyCount(items: seq<Item>, originId: string, x: Item)
    ensures multiset(Only(items, originId))[x] == if OriginOf(x) == originId then multiset(items)[x] else 0
  {
    if items != [] {
      OnlyCount(items[1..], originId, x);
      assert items == [items[0]] + items[1..];
    }
  }

  lemma {:induction false} OnlyPermutation(a: seq<Item>, b: seq<Item>, originId: string)
    requires multiset(a) == multiset(b)
    ensures multiset(Only(a, originId)) == multiset(Only(b, originId))
  {
    forall x: Item ensures multiset(Only(a, originId))[x] == multiset(Only(b, originId))[x] {
      OnlyCount(a, originId, x);
      OnlyCount(b, originId, x);
    }
  }
}
