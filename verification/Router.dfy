/**
 Which origins serve which collections: explicit mappings, replaced by discovery, and a
 precomputed list of the origins that may serve any collection.
 (internal/federation/router.go)
 */
module Router {
  import opened Text

  /** Origins are values; two registrations of one object are equal. */
  datatype Origin = Origin(id: string, enabled: bool, searchable: bool, collections: seq<string>,
                           exclude: seq<string>, prefix: string)

  type Mapping = map<string, seq<Origin>>

  datatype Table = Table(mapping: Mapping, all: seq<Origin>, implicit: seq<Origin>)

  function At(mapping: Mapping, collection: string): seq<Origin> {
    if collection in mapping then mapping[collection] else []
  }

  function Implicits(all: seq<Origin>): seq<Origin> {
    if all == [] then []
    else
      var before, last := Implicits(all[..|all| - 1]), all[|all| - 1];
      if last.collections == [] then before + [last] else before
  }

  /** Adds the origin to each collection, under its prefix. */
  function Mapped(mapping: Mapping, origin: Origin, collections: seq<string>): Mapping {
    if collections == [] then mapping
    else
      var n := |collections| - 1;
      var before, full := Mapped(mapping, origin, collections[..n]), origin.prefix + collections[n];
      before[full := At(before, full) + [origin]]
  }

  function Others(origins: seq<Origin>, id: string): seq<Origin> {
    if origins == [] then []
    else
      var before, last := Others(origins[..|origins| - 1], id), origins[|origins| - 1];
      if last.id != id then before + [last] else before
  }

  function Removed(mapping: Mapping, id: string): Mapping {
    map c | c in mapping && Others(mapping[c], id) != [] :: Others(mapping[c], id)
  }

  function Find(all: seq<Origin>, id: string): (r: Option<Origin>)
    ensures r.Some? ==> r.value in all && r.value.id == id
    ensures r.None? ==> forall o :: o in all ==> o.id != id
  {
    if all == [] then None else if all[0].id == id then Some(all[0]) else Find(all[1..], id)
  }

  predicate Listable(origin: Origin) {
    origin.searchable || origin.collections != []
  }

  function Registered(t: Table, origin: Origin): Table {
    var all := if Listable(origin) then t.all + [origin] else t.all;
    Table(Mapped(t.mapping, origin, origin.collections), all, Implicits(all))
  }

  /** Discovery does not recompute the implicit list. */
  function Discovered(t: Table, id: string, collections: seq<string>): Table {
    match Find(t.all, id)
    case None => t
    case Some(origin) => t.(mapping := Mapped(Removed(t.mapping, id), origin, collections))
  }

  /** The origin is enabled and mapped to the collection, or implicit and not excluding it. */
  predicate Serves(t: Table, collection: string, o: Origin) {
    o.enabled && (o in At(t.mapping, collection) || (o in t.implicit && collection !in o.exclude))
  }

  ghost predicate ServesAny(t: Table, collections: seq<string>, o: Origin) {
    exists i :: 0 <= i < |collections| && Serves(t, collections[i], o)
  }

  ghost predicate NoRepeats(origins: seq<Origin>) {
    forall i, j :: 0 <= i < j < |origins| ==> origins[i].id != origins[j].id
  }

  /** The answer to a query with collections: serving origins, one for each id there is. */
  ghost predicate Routes(t: Table, collections: seq<string>, result: seq<Origin>) {
    && NoRepeats(result)
    && (forall o :: o in result ==> ServesAny(t, collections, o))
    && (forall o :: ServesAny(t, collections, o) ==> exists r :: r in result && r.id == o.id)
  }

  function Searchables(all: seq<Origin>): seq<Origin> {
    if all == [] then []
    else
      var before, last := Searchables(all[..|all| - 1]), all[|all| - 1];
      if last.enabled && last.searchable then before + [last] else before
  }

  /** Origins collected by id so far: each serves, and those of the given ids are there. */
  ghost predicate Collected(t: Table, collections: seq<string>, chosen: map<string, Origin>) {
    forall id :: id in chosen ==> chosen[id].id == id && ServesAny(t, collections, chosen[id])
  }

  class CollectionRouter {
    var collectionToOrigins: Mapping
    var allOrigins: seq<Origin>
    var implicitAllOrigins: seq<Origin>

    ghost function View(): Table
      reads this
    {
      Table(collectionToOrigins, allOrigins, implicitAllOrigins)
    }

    constructor ()
      ensures View() == Table(map[], [], [])
    {
      collectionToOrigins, allOrigins, implicitAllOrigins := map[], [], [];
    }

    method Register(origin: Origin)
      modifies this
      ensures View() == Registered(old(View()), origin)
    {
      if origin.searchable || |origin.collections| > 0 {
        allOrigins := allOrigins + [origin];
      }
      if |origin.collections| > 0 {
        AddMappings(origin, origin.collections);
      }
      RecomputeImplicit();
    }

    method AddMappings(origin: Origin, collections: seq<string>)
      modifies this`collectionToOrigins
      ensures collectionToOrigins == Mapped(old(collectionToOrigins), origin, collections)
    {
      ghost var start := collectionToOrigins;
      for i := 0 to |collections|
        invariant collectionToOrigins == Mapped(start, origin, collections[..i])
      {
        assert collections[..i + 1][..i] == collections[..i];
        var full := origin.prefix + collections[i];
        var served := if full in collectionToOrigins then collectionToOrigins[full] else [];
        collectionToOrigins := collectionToOrigins[full := served + [origin]];
      }
      assert collections[..|collections|] == collections;
    }

    method RecomputeImplicit()
      modifies this`implicitAllOrigins
      ensures implicitAllOrigins == Implicits(allOrigins)
    {
      implicitAllOrigins := [];
      for i := 0 to |allOrigins|
        invariant implicitAllOrigins == Implicits(allOrigins[..i])
      {
        assert allOrigins[..i + 1][..i] == allOrigins[..i];
        if |allOrigins[i].collections| == 0 {
          implicitAllOrigins := implicitAllOrigins + [allOrigins[i]];
        }
      }
      assert allOrigins[..|allOrigins|] == allOrigins;
    }

    method UpdateFromDiscovery(originId: string, collections: seq<string>)
      modifies this`collectionToOrigins
      ensures View() == Discovered(old(View()), originId, collections)
    {
      var origin: Option<Origin> := None;
      for i := 0 to |allOrigins|
        invariant origin.None? && Find(allOrigins, originId) == Find(allOrigins[i..], originId)
      {
        if allOrigins[i].id == originId {
          origin := Some(allOrigins[i]);
          break;
        }
      }
      if origin.None? {
        return;
      }
      RemoveMappings(originId);
      AddMappings(origin.value, collections);
    }

    method RemoveMappings(originId: string)
      modifies this`collectionToOrigins
      ensures collectionToOrigins == Removed(old(collectionToOrigins), originId)
    {
      ghost var start := collectionToOrigins;
      var todo := collectionToOrigins.Keys;
      while todo != {}
        invariant todo <= start.Keys
        invariant collectionToOrigins ==
                  map c | c in start && (c in todo || Others(start[c], originId) != []) ::
                    if c in todo then start[c] else Others(start[c], originId)
      {
        var c :| c in todo;
        var filtered := FilterOthers(collectionToOrigins[c], originId);
        if |filtered| > 0 {
          collectionToOrigins := collectionToOrigins[c := filtered];
        } else {
          collectionToOrigins := collectionToOrigins - {c};
        }
        todo := todo - {c};
      }
    }

    static method FilterOthers(origins: seq<Origin>, id: string) returns (filtered: seq<Origin>)
      ensures filtered == Others(origins, id)
    {
      filtered := [];
      for i := 0 to |origins|
        invariant filtered == Others(origins[..i], id)
      {
        assert origins[..i + 1][..i] == origins[..i];
        if origins[i].id != id {
          filtered := filtered + [origins[i]];
        }
      }
      assert origins[..|origins|] == origins;
    }

    /** Without collections, the enabled searchable origins in order of registration. */
    method Route(collections: seq<string>) returns (result: seq<Origin>)
      ensures collections == [] ==> result == Searchables(allOrigins)
      ensures collections != [] ==> Routes(View(), collections, result)
    {
      if |collections| == 0 {
        result := RouteAll();
        return;
      }
      var chosen: map<string, Origin> := map[];
      for i := 0 to |collections|
        invariant Collected(View(), collections, chosen)
        invariant forall j, o :: 0 <= j < i && Serves(View(), collections[j], o) ==> o.id in chosen
      {
        chosen := Choose(collections, i, chosen, At(collectionToOrigins, collections[i]), false);
        chosen := Choose(collections, i, chosen, implicitAllOrigins, true);
      }
      result := Values(chosen);
    }

    /** Adds the enabled origins of the list, without those that exclude the collection if asked. */
    method Choose(collections: seq<string>, at: nat, before: map<string, Origin>, list: seq<Origin>, excluding: bool)
      returns (chosen: map<string, Origin>)
      requires at < |collections| && Collected(View(), collections, before)
      requires forall o :: o in list && o.enabled && !(excluding && collections[at] in o.exclude) ==>
               Serves(View(), collections[at], o)
      ensures Collected(View(), collections, chosen)
      ensures before.Keys <= chosen.Keys
      ensures forall o :: o in list && o.enabled && !(excluding && collections[at] in o.exclude) ==> o.id in chosen
    {
      chosen := before;
      for i := 0 to |list|
        invariant Collected(View(), collections, chosen)
        invariant before.Keys <= chosen.Keys
        invariant forall j :: 0 <= j < i && list[j].enabled && !(excluding && collections[at] in list[j].exclude) ==>
                  list[j].id in chosen
      {
        var o := list[i];
        if !o.enabled {
          continue;
        }
        if !(excluding && collections[at] in o.exclude) {
          assert Serves(View(), collections[at], o);
          chosen := chosen[o.id := o];
        }
      }
    }

    method RouteAll() returns (result: seq<Origin>)
      ensures result == Searchables(allOrigins)
    {
      result := [];
      for i := 0 to |allOrigins|
        invariant result == Searchables(allOrigins[..i])
      {
        assert allOrigins[..i + 1][..i] == allOrigins[..i];
        if allOrigins[i].enabled && allOrigins[i].searchable {
          result := result + [allOrigins[i]];
        }
      }
      assert allOrigins[..|allOrigins|] == allOrigins;
    }

    /** The values, in no particular order. */
    static method Values(chosen: map<string, Origin>) returns (result: seq<Origin>)
      requires forall id :: id in chosen ==> chosen[id].id == id
      ensures NoRepeats(result)
      ensures forall o :: o in result <==> o.id in chosen && chosen[o.id] == o
    {
      result := [];
      var todo := chosen.Keys;
      while todo != {}
        invariant todo <= chosen.Keys
        invariant NoRepeats(result)
        invariant forall o :: o in result <==> o.id in chosen && o.id !in todo && chosen[o.id] == o
      {
        var id :| id in todo;
        assert forall i :: 0 <= i < |result| ==> result[i] in result;
        result := result + [chosen[id]];
        todo := todo - {id};
      }
    }
  }

  // ----- Runs -----

  datatype Op = Register(origin: Origin) | Discover(id: string, collections: seq<string>)

  function Apply(t: Table, op: Op): Table {
    match op
    case Register(origin) => Registered(t, origin)
    case Discover(id, collections) => Discovered(t, id, collections)
  }

  function Run(ops: seq<Op>): Table {
    if ops == [] then Table(map[], [], []) else Apply(Run(ops[..|ops| - 1]), ops[|ops| - 1])
  }

  /** The origins registered that the router lists. */
  function Listed(ops: seq<Op>): seq<Origin> {
    if ops == [] then []
    else
      var before, last := Listed(ops[..|ops| - 1]), ops[|ops| - 1];
      if last.Register? && (last.origin.searchable || last.origin.collections != [])
      then before + [last.origin]
      else before
  }

  /** The collections an origin stands for: those of the last discovery since it was listed, or
      those it was configured with. */
  function Declared(ops: seq<Op>, id: string): seq<string> {
    if ops == [] then []
    else
      var rest, last := ops[..|ops| - 1], ops[|ops| - 1];
      match last
      case Register(origin) =>
        if origin.id == id && (origin.searchable || origin.collections != []) then origin.collections
        else Declared(rest, id)
      case Discover(found, collections) =>
        if found == id && exists o :: o in Listed(rest) && o.id == id then collections else Declared(rest, id)
  }

  ghost predicate Names(origin: Origin, collections: seq<string>, collection: string) {
    exists i :: 0 <= i < |collections| && origin.prefix + collections[i] == collection
  }

  lemma {:induction false} MappedMeans(mapping: Mapping, origin: Origin, collections: seq<string>, c: string, o: Origin)
    ensures o in At(Mapped(mapping, origin, collections), c) <==>
            o in At(mapping, c) || (o == origin && Names(origin, collections, c))
  {
    if collections != [] {
      var n := |collections| - 1;
      MappedMeans(mapping, origin, collections[..n], c, o);
      NamesMore(origin, collections, c);
    }
  }

  lemma {:induction false} NamesMore(origin: Origin, collections: seq<string>, c: string)
    requires collections != []
    ensures var n := |collections| - 1;
            Names(origin, collections, c) <==> Names(origin, collections[..n], c) || origin.prefix + collections[n] == c
  {
    var n := |collections| - 1;
    if Names(origin, collections[..n], c) {
      var i :| 0 <= i < n && origin.prefix + collections[..n][i] == c;
      assert origin.prefix + collections[i] == c;
    }
    if Names(origin, collections, c) {
      var i :| 0 <= i < |collections| && origin.prefix + collections[i] == c;
      if i < n { assert origin.prefix + collections[..n][i] == c; }
    }
  }

  lemma {:induction false} OthersMeans(origins: seq<Origin>, id: string, o: Origin)
    ensures o in Others(origins, id) <==> o in origins && o.id != id
  {
    if origins != [] {
      var n := |origins| - 1;
      OthersMeans(origins[..n], id, o);
      assert origins == origins[..n] + [origins[n]];
    }
  }

  lemma {:induction false} RemovedMeans(mapping: Mapping, id: string, c: string, o: Origin)
    ensures o in At(Removed(mapping, id), c) <==> o in At(mapping, c) && o.id != id
  {
    if c in mapping { OthersMeans(mapping[c], id, o); }
  }

  lemma {:induction false} ImplicitsMeans(all: seq<Origin>, o: Origin)
    ensures o in Implicits(all) <==> o in all && o.collections == []
  {
    if all != [] {
      var n := |all| - 1;
      ImplicitsMeans(all[..n], o);
      assert all == all[..n] + [all[n]];
    }
  }

  /** After any run the router lists the registered origins, and its precomputed list is the
      filter of them, though discovery does not recompute it. */
  lemma {:induction false} ImplicitIsFilter(ops: seq<Op>)
    ensures Run(ops).all == Listed(ops) && Run(ops).implicit == Implicits(Listed(ops))
  {
    if ops != [] { ImplicitIsFilter(ops[..|ops| - 1]); }
  }

  /** After any run with distinct ids, an origin is mapped to a collection exactly when it is
      listed and the collection is among those it stands for. */
  lemma {:induction false} MappingMeans(ops: seq<Op>, c: string, o: Origin)
    requires NoRepeats(Listed(ops))
    ensures o in At(Run(ops).mapping, c) <==> o in Listed(ops) && Names(o, Declared(ops, o.id), c)
  {
    if ops != [] {
      var rest, last := ops[..|ops| - 1], ops[|ops| - 1];
      hide Names, At, Mapped, Removed;
      ListedFewer(ops);
      MappingMeans(rest, c, o);
      ImplicitIsFilter(rest);
      match last
      case Register(origin) => RegisterMeans(rest, origin, c, o);
      case Discover(id, collections) => DiscoverMeans(rest, id, collections, c, o);
    } else {
      assert Run(ops).mapping == map[];
    }
  }

  lemma {:induction false} ListedFewer(ops: seq<Op>)
    requires ops != [] && NoRepeats(Listed(ops))
    ensures NoRepeats(Listed(ops[..|ops| - 1]))
    ensures ops[|ops| - 1].Register? && Listable(ops[|ops| - 1].origin) ==>
              forall o :: o in Listed(ops[..|ops| - 1]) ==> o.id != ops[|ops| - 1].origin.id
  {
    var before, now := Listed(ops[..|ops| - 1]), Listed(ops);
    assert forall i :: 0 <= i < |before| ==> now[i] == before[i];
    var last := ops[|ops| - 1];
    if last.Register? && Listable(last.origin) {
      assert now[|before|] == last.origin;
      forall o | o in before ensures o.id != last.origin.id {
        var i :| 0 <= i < |before| && before[i] == o;
        assert now[i] == o;
      }
    }
  }

  lemma {:induction false} RegisterMeans(rest: seq<Op>, origin: Origin, c: string, o: Origin)
    requires o in At(Run(rest).mapping, c) <==> o in Listed(rest) && Names(o, Declared(rest, o.id), c)
    requires Listable(origin) ==> forall x :: x in Listed(rest) ==> x.id != origin.id
    ensures var ops := rest + [Register(origin)];
            o in At(Registered(Run(rest), origin).mapping, c) <==> o in Listed(ops) && Names(o, Declared(ops, o.id), c)
  {
    var ops := rest + [Register(origin)];
    assert ops[..|ops| - 1] == rest;
    MappedMeans(Run(rest).mapping, origin, origin.collections, c, o);
    hide Mapped, At, Run;
  }

  lemma {:induction false} DiscoverMeans(rest: seq<Op>, id: string, collections: seq<string>, c: string, o: Origin)
    requires Run(rest).all == Listed(rest) && NoRepeats(Listed(rest))
    requires o in At(Run(rest).mapping, c) <==> o in Listed(rest) && Names(o, Declared(rest, o.id), c)
    ensures var ops := rest + [Discover(id, collections)];
            o in At(Discovered(Run(rest), id, collections).mapping, c) <==>
              o in Listed(ops) && Names(o, Declared(ops, o.id), c)
  {
    var ops := rest + [Discover(id, collections)];
    assert ops[..|ops| - 1] == rest;
    var t := Run(rest);
    hide Run, At, Mapped, Removed, Names;
    match Find(t.all, id)
    case None =>
    case Some(origin) =>
      MappedMeans(Removed(t.mapping, id), origin, collections, c, o);
      RemovedMeans(t.mapping, id, c, o);
      if o in Listed(rest) && o.id == id { SameId(Listed(rest), o, origin); }
  }

  lemma {:induction false} SameId(origins: seq<Origin>, a: Origin, b: Origin)
    requires NoRepeats(origins) && a in origins && b in origins && a.id == b.id
    ensures a == b
  {
  }

  /** What a scan of all origins would find. */
  ghost predicate Scanned(ops: seq<Op>, collections: seq<string>, o: Origin) {
    && o in Listed(ops) && o.enabled
    && exists i :: 0 <= i < |collections| && Eligible(ops, collections[i], o)
  }

  ghost predicate Eligible(ops: seq<Op>, collection: string, o: Origin) {
    Names(o, Declared(ops, o.id), collection) || (o.collections == [] && collection !in o.exclude)
  }

  lemma {:induction false} ServesMeans(ops: seq<Op>, collection: string, o: Origin)
    requires NoRepeats(Listed(ops))
    ensures Serves(Run(ops), collection, o) <==> o in Listed(ops) && o.enabled && Eligible(ops, collection, o)
  {
    hide Names;
    MappingMeans(ops, collection, o);
    ImplicitIsFilter(ops);
    ImplicitsMeans(Listed(ops), o);
  }

  /** The index agrees with the scan: whatever has been registered and discovered, a query with
      collections is answered with every origin the scan finds, each exactly once. */
  lemma {:induction false} RouteIsScan(ops: seq<Op>, collections: seq<string>, result: seq<Origin>)
    requires NoRepeats(Listed(ops)) && Routes(Run(ops), collections, result)
    ensures NoRepeats(result) && forall o :: o in result <==> Scanned(ops, collections, o)
  {
    hide Serves, Run, Listed, Eligible;
    forall o ensures ServesAny(Run(ops), collections, o) <==> Scanned(ops, collections, o) {
      forall i | 0 <= i < |collections|
        ensures Serves(Run(ops), collections[i], o) <==>
                o in Listed(ops) && o.enabled && Eligible(ops, collections[i], o)
      {
        ServesMeans(ops, collections[i], o);
      }
    }
    hide ServesAny;
    forall o | Scanned(ops, collections, o) ensures o in result {
      var r :| r in result && r.id == o.id;
      assert Scanned(ops, collections, r);
      SameId(Listed(ops), o, r);
    }
  }

  /** A query without collections is answered with every enabled searchable origin, each once. */
  lemma {:induction false} RouteAllMeans(all: seq<Origin>, o: Origin)
    requires NoRepeats(all)
    ensures o in Searchables(all) <==> o in all && o.enabled && o.searchable
    ensures NoRepeats(Searchables(all))
  {
    if all != [] {
      var n := |all| - 1;
      var rest, before := all[..n], Searchables(all[..n]);
      assert forall i :: 0 <= i < n ==> rest[i] == all[i];
      RouteAllMeans(rest, o);
      assert all == rest + [all[n]];
      forall i | 0 <= i < |before| ensures before[i].id != all[n].id {
        RouteAllMeans(rest, before[i]);
      }
    }
  }

  /** They come in order of registration. */
  lemma {:induction false} RouteAllOrdered(all: seq<Origin>, i: nat, j: nat)
    requires NoRepeats(all) && i < j < |all| && all[i] in Searchables(all) && all[j] in Searchables(all)
    ensures Ahead(Searchables(all), all[i], all[j])
  {
    var n := |all| - 1;
    var rest, before, now := all[..n], Searchables(all[..n]), Searchables(all);
    assert NoRepeats(rest) && rest[i] == all[i] && all[n] !in rest;
    assert all[i] in before;
    if j < n {
      assert rest[j] == all[j] && all[j] in before;
      RouteAllOrdered(rest, i, j);
      var a, b :| 0 <= a < b < |before| && before[a] == all[i] && before[b] == all[j];
      assert now[a] == all[i] && now[b] == all[j];
    } else {
      RouteAllMeans(rest, all[j]);
      var a :| 0 <= a < |before| && before[a] == all[i];
      assert now[a] == all[i] && now[|before|] == all[j];
    }
  }

  ghost predicate Ahead(origins: seq<Origin>, x: Origin, y: Origin) {
    exists a, b :: 0 <= a < b < |origins| && origins[a] == x && origins[b] == y
  }

  /** Discovery replaces the mappings of its own origin and keeps all others, in their order. */
  lemma {:induction false} DiscoveryKeepsOthers(t: Table, id: string, collections: seq<string>, c: string)
    ensures Others(At(Discovered(t, id, collections).mapping, c), id) == Others(At(t.mapping, c), id)
  {
    if Find(t.all, id).Some? {
      MappedKeepsOthers(Removed(t.mapping, id), Find(t.all, id).value, collections, c);
      if c in t.mapping { OthersTwice(t.mapping[c], id); }
    }
  }

  lemma {:induction false} MappedKeepsOthers(mapping: Mapping, origin: Origin, collections: seq<string>, c: string)
    ensures Others(At(Mapped(mapping, origin, collections), c), origin.id) == Others(At(mapping, c), origin.id)
  {
    if collections != [] {
      var n := |collections| - 1;
      MappedKeepsOthers(mapping, origin, collections[..n], c);
      var before := At(Mapped(mapping, origin, collections[..n]), c);
      assert (before + [origin])[..|before|] == before;
    }
  }

  lemma {:induction false} OthersTwice(origins: seq<Origin>, id: string)
    ensures Others(Others(origins, id), id) == Others(origins, id)
  {
    if origins != [] {
      var n := |origins| - 1;
      OthersTwice(origins[..n], id);
      var before := Others(origins[..n], id);
      assert (before + [origins[n]])[..|before|] == before;
    }
  }
}
