/**
 Compilation of a policy's required filters to a CQL2 expression, and its conjunction with
 other filters.
 (internal/middleware/authz/required_filters.go; internal/middleware/authz/cql2.go: andNonNil)

 The filter library makes a literal of a value; an object, of which it makes nothing that can
 be evaluated, stands as a foreign node. `lower` is the lower-casing of operator names.
 */
module RequiredFilters {
  import opened Text
  import opened Cql2

  type Lower = string -> string

  type Filters = map<string, Json>

  datatype Reason = NotSingle(count: nat) | InWantsArray | UnknownOperator(name: string)

  datatype Clause = Good(node: Node) | Bad(reason: Reason)

  datatype Compiled = Done(expr: Option<Node>) | Rejected(key: string, reason: Reason)

  // ----- Literals -----

  function Literal(v: Json): Node
    decreases v
  {
    match v
    case Null => NullLit
    case Bool(b) => BoolLit(b)
    case Num(r) => NumLit(Some(r))
    case Str(s) => StringLit(s)
    case Arr(elements) => ArrayLit(Literals(elements))
    case Obj(_) => Foreign
  }

  function Literals(values: seq<Json>): seq<Node>
    decreases values
  {
    if values == [] then [] else [Literal(values[0])] + Literals(values[1..])
  }

  /** Holds no object. */
  predicate Plain(v: Json)
    decreases v
  {
    match v
    case Arr(elements) => AllPlain(elements)
    case Obj(_) => false
    case _ => true
  }

  predicate AllPlain(values: seq<Json>)
    decreases values
  {
    values == [] || (Plain(values[0]) && AllPlain(values[1..]))
  }

  /** A literal evaluates to its value if it holds no object, and cannot be evaluated otherwise. */
  lemma {:induction false} LiteralMeans(parse: ParseFloat, v: Json, item: Item)
    ensures Eval(parse, Literal(v), item) == if Plain(v) then Ok(v) else Err(Unsupported)
    decreases v
  {
    if v.Arr? { LiteralsMean(parse, v.elements, item); }
  }

  lemma {:induction false} LiteralsMean(parse: ParseFloat, values: seq<Json>, item: Item)
    ensures EvalArray(parse, Literals(values), item) == if AllPlain(values) then Ok(Arr(values)) else Err(Unsupported)
    decreases values
  {
    if values != [] {
      var nodes := Literals(values);
      assert nodes[0] == Literal(values[0]) && nodes[1..] == Literals(values[1..]);
      LiteralMeans(parse, values[0], item);
      LiteralsMean(parse, values[1..], item);
      assert [values[0]] + values[1..] == values;
    }
  }

  // ----- Clauses -----

  function Comparison(name: string): Option<Operator> {
    if name == "eq" then Some(Eq)
    else if name == "neq" || name == "ne" then Some(Neq)
    else if name == "lt" then Some(Lt)
    else if name == "lte" || name == "le" then Some(Lte)
    else if name == "gt" then Some(Gt)
    else if name == "gte" || name == "ge" then Some(Gte)
    else None
  }

  lemma {:induction false} OnlyOne(ops: map<string, Json>)
    requires |ops| == 1
    ensures exists op :: op in ops
    ensures forall a, b :: a in ops && b in ops ==> a == b
  {
    assert |ops.Keys| == 1;
    var op :| op in ops.Keys;
    assert ops.Keys - {op} == {} by { assert |ops.Keys - {op}| == 0; }
    forall a | a in ops ensures a == op {
      assert a !in ops.Keys - {op};
    }
  }

  function TheOperator(ops: map<string, Json>): (op: string)
    requires |ops| == 1
    ensures op in ops
  {
    OnlyOne(ops);
    var op :| op in ops;
    op
  }

  function MapPredicate(lower: Lower, key: string, ops: map<string, Json>): Clause {
    if |ops| != 1 then Bad(NotSingle(|ops|))
    else
      var op := TheOperator(ops);
      var raw := ops[op];
      match Comparison(lower(op))
      case Some(cmp) => Good(Op(cmp, [PropertyRef(key), Literal(raw)]))
      case None =>
        if lower(op) == "in" then
          if raw.Arr? then Good(Op(In, [PropertyRef(key), Literal(raw)])) else Bad(InWantsArray)
        else Bad(UnknownOperator(op))
  }

  function ClauseOf(lower: Lower, key: string, v: Json): Clause {
    match v
    case Null => Good(Op(IsNull, [PropertyRef(key)]))
    case Obj(ops) => MapPredicate(lower, key, ops)
    case _ => Good(Op(Eq, [PropertyRef(key), Literal(v)]))
  }

  /** A filter value the compiler accepts: not an object, or an object of one known operator. */
  predicate WellFormed(lower: Lower, v: Json) {
    v.Obj? ==>
      && |v.fields| == 1
      && var op := TheOperator(v.fields);
         || lower(op) in {"eq", "neq", "ne", "lt", "lte", "le", "gt", "gte", "ge"}
         || (lower(op) == "in" && v.fields[op].Arr?)
  }

  /** What is compared with holds no object. */
  predicate Evaluable(v: Json) {
    if v.Obj? then |v.fields| == 1 ==> Plain(v.fields[TheOperator(v.fields)]) else Plain(v)
  }

  /** What a filter value demands of the item's value. */
  ghost predicate Demands(parse: ParseFloat, lower: Lower, v: Json, found: Json)
    requires WellFormed(lower, v)
  {
    match v
    case Null => found.Null?
    case Obj(ops) =>
      var name, bound := lower(TheOperator(ops)), ops[TheOperator(ops)];
      if name == "eq" then Compare(parse, Eq, found, bound)
      else if name in {"neq", "ne"} then Compare(parse, Neq, found, bound)
      else if name == "lt" then Compare(parse, Lt, found, bound)
      else if name in {"lte", "le"} then Compare(parse, Lte, found, bound)
      else if name == "gt" then Compare(parse, Gt, found, bound)
      else if name in {"gte", "ge"} then Compare(parse, Gte, found, bound)
      else exists i :: 0 <= i < |bound.elements| && Compare(parse, Eq, found, bound.elements[i])
    case _ => Compare(parse, Eq, found, v)
  }

  /** Why the compiler does not accept a value: the object has not one operator, "in" comes with
      something other than an array, or the operator is not known. */
  ghost function WhyNot(lower: Lower, v: Json): Reason
    requires v.Obj?
  {
    if |v.fields| != 1 then NotSingle(|v.fields|)
    else if lower(TheOperator(v.fields)) == "in" then InWantsArray
    else UnknownOperator(TheOperator(v.fields))
  }

  /** A clause is produced exactly for the well-formed values. */
  lemma {:induction false} ClauseIff(lower: Lower, key: string, v: Json)
    ensures ClauseOf(lower, key, v).Good? <==> WellFormed(lower, v)
    ensures !WellFormed(lower, v) ==> ClauseOf(lower, key, v) == Bad(WhyNot(lower, v))
  {
  }

  lemma {:induction false} CompareMeans(parse: ParseFloat, op: Operator, key: string, v: Json, item: Item)
    requires op in {Eq, Neq, Lt, Lte, Gt, Gte} && Plain(v)
    ensures Test(parse, Op(op, [PropertyRef(key), Literal(v)]), item) ==
            if Compare(parse, op, Lookup(item, key), v) then True else False
  {
    LiteralMeans(parse, v, item);
    hide Lookup, Compare, Literal, Plain;
    assert Eval(parse, PropertyRef(key), item) == Ok(Lookup(item, key));
  }

  lemma {:induction false} InMeans(parse: ParseFloat, key: string, v: Json, item: Item)
    requires v.Arr? && Plain(v)
    ensures Test(parse, Op(In, [PropertyRef(key), Literal(v)]), item) ==
            if exists i :: 0 <= i < |v.elements| && Compare(parse, Eq, Lookup(item, key), v.elements[i])
            then True else False
  {
    LiteralMeans(parse, v, item);
    hide Lookup, Compare, Literal, Plain;
    assert Eval(parse, PropertyRef(key), item) == Ok(Lookup(item, key));
  }

  lemma {:induction false} ComparisonKinds(name: string)
    ensures Comparison(name).Some? ==> Comparison(name).value in {Eq, Neq, Lt, Lte, Gt, Gte}
    ensures Comparison(name).Some? <==> name in {"eq", "neq", "ne", "lt", "lte", "le", "gt", "gte", "ge"}
  {
  }

  lemma {:induction false} DemandsMeans(parse: ParseFloat, lower: Lower, ops: map<string, Json>, found: Json)
    requires |ops| == 1 && WellFormed(lower, Obj(ops)) && Comparison(lower(TheOperator(ops))).Some?
    ensures Demands(parse, lower, Obj(ops), found) <==>
            Compare(parse, Comparison(lower(TheOperator(ops))).value, found, ops[TheOperator(ops)])
  {
    hide Compare, TheOperator;
  }

  /** The compiled clause evaluates without a fault and says what the filter demands. */
  lemma {:induction false} ClauseMeans(parse: ParseFloat, lower: Lower, key: string, v: Json, item: Item)
    requires WellFormed(lower, v) && Evaluable(v)
    ensures ClauseOf(lower, key, v).Good?
    ensures Test(parse, ClauseOf(lower, key, v).node, item) ==
            if Demands(parse, lower, v, Lookup(item, key)) then True else False
  {
    hide Compare, Lookup, Literal, Comparison;
    match v
    case Null =>
      assert Eval(parse, PropertyRef(key), item) == Ok(Lookup(item, key));
    case Obj(ops) =>
      var op := TheOperator(ops);
      ComparisonKinds(lower(op));
      if Comparison(lower(op)).Some? {
        DemandsMeans(parse, lower, ops, Lookup(item, key));
        CompareMeans(parse, Comparison(lower(op)).value, key, ops[op], item);
      } else {
        InMeans(parse, key, ops[op], item);
      }
    case _ => CompareMeans(parse, Eq, key, v, item);
  }

  // ----- Filters -----

  datatype Parts = Parts(nodes: seq<Node>) | Broken(key: string, reason: Reason)

  /** The clauses of the keys in order, up to the first that is malformed. */
  function ClausesOf(lower: Lower, keys: seq<string>, rf: Filters): Parts
    requires forall k :: k in keys ==> k in rf
  {
    if keys == [] then Parts([])
    else
      var n := |keys| - 1;
      match ClausesOf(lower, keys[..n], rf)
      case Broken(key, reason) => Broken(key, reason)
      case Parts(nodes) =>
        match ClauseOf(lower, keys[n], rf[keys[n]])
        case Bad(reason) => Broken(keys[n], reason)
        case Good(node) => Parts(nodes + [node])
  }

  function Join(nodes: seq<Node>): Option<Node> {
    if nodes == [] then None else if |nodes| == 1 then Some(nodes[0]) else Some(Op(And, nodes))
  }

  ghost function CompiledFilters(lower: Lower, rf: Filters): Compiled {
    match ClausesOf(lower, Sorted(rf.Keys), rf)
    case Broken(key, reason) => Rejected(key, reason)
    case Parts(nodes) => Done(Join(nodes))
  }

  method RequiredFiltersToCql2(lower: Lower, rf: Filters) returns (r: Compiled)
    ensures r == CompiledFilters(lower, rf)
  {
    hide ClausesOf, Increasing;
    if |rf| == 0 {
      NothingCompiled(lower, rf);
      return Done(None);
    }
    var keys := SortedKeys(rf);
    var parts := BuildClauses(lower, keys, rf);
    if parts.Broken? {
      return Rejected(parts.key, parts.reason);
    }
    if |parts.nodes| == 0 {
      return Done(None);
    } else if |parts.nodes| == 1 {
      return Done(Some(parts.nodes[0]));
    }
    return Done(Some(Op(And, parts.nodes)));
  }

  method BuildClauses(lower: Lower, keys: seq<string>, rf: Filters) returns (r: Parts)
    requires forall k :: k in keys ==> k in rf
    ensures r == ClausesOf(lower, keys, rf)
  {
    hide ClauseOf;
    var nodes: seq<Node> := [];
    for i := 0 to |keys|
      invariant ClausesOf(lower, keys[..i], rf) == Parts(nodes)
    {
      assert keys[..i + 1][..i] == keys[..i];
      var clause := ClauseOf(lower, keys[i], rf[keys[i]]);
      if clause.Bad? {
        BrokenStays(lower, keys, rf, i + 1);
        return Broken(keys[i], clause.reason);
      }
      nodes := nodes + [clause.node];
    }
    assert keys[..|keys|] == keys;
    return Parts(nodes);
  }

  method SortedKeys(rf: Filters) returns (keys: seq<string>)
    ensures keys == Sorted(rf.Keys)
  {
    keys := [];
    var todo := rf.Keys;
    while todo != {}
      invariant todo <= rf.Keys
      invariant Increasing(keys) && forall k :: k in keys <==> k in rf && k !in todo
    {
      var k :| k in todo;
      keys := InsertSorted(keys, k);
      todo := todo - {k};
    }
    IncreasingUnique(keys, Sorted(rf.Keys));
  }

  lemma {:induction false} NothingCompiled(lower: Lower, rf: Filters)
    requires |rf| == 0
    ensures CompiledFilters(lower, rf) == Done(None)
  {
    assert rf.Keys == {};
    assert Sorted(rf.Keys) == [];
  }

  lemma {:induction false} BrokenStays(lower: Lower, keys: seq<string>, rf: Filters, i: nat)
    requires forall k :: k in keys ==> k in rf
    requires i <= |keys| && ClausesOf(lower, keys[..i], rf).Broken?
    ensures ClausesOf(lower, keys, rf) == ClausesOf(lower, keys[..i], rf)
  {
    if i == |keys| {
      assert keys[..i] == keys;
    } else {
      assert keys[..|keys| - 1][..i] == keys[..i];
      BrokenStays(lower, keys[..|keys| - 1], rf, i);
    }
  }

  /** Broken exactly by the first malformed key; otherwise one clause for each key. */
  lemma {:induction false} ClausesMean(lower: Lower, keys: seq<string>, rf: Filters)
    requires forall k :: k in keys ==> k in rf
    ensures match ClausesOf(lower, keys, rf)
            case Broken(key, reason) =>
              && key in rf && Bad(reason) == ClauseOf(lower, key, rf[key])
              && exists i :: 0 <= i < |keys| && keys[i] == key && !WellFormed(lower, rf[key]) &&
                             forall j :: 0 <= j < i ==> WellFormed(lower, rf[keys[j]])
            case Parts(nodes) =>
              && |nodes| == |keys|
              && forall i :: 0 <= i < |keys| ==>
                   WellFormed(lower, rf[keys[i]]) && Good(nodes[i]) == ClauseOf(lower, keys[i], rf[keys[i]])
  {
    hide WellFormed, ClauseOf;
    if keys != [] {
      var n := |keys| - 1;
      ClausesMean(lower, keys[..n], rf);
      ClauseIff(lower, keys[n], rf[keys[n]]);
      if ClausesOf(lower, keys[..n], rf).Broken? {
        var key := ClausesOf(lower, keys[..n], rf).key;
        var i :| 0 <= i < n && keys[..n][i] == key && !WellFormed(lower, rf[key]) &&
                 forall j :: 0 <= j < i ==> WellFormed(lower, rf[keys[..n][j]]);
        assert keys[i] == key;
        assert forall j :: 0 <= j < i ==> keys[..n][j] == keys[j];
      } else if ClauseOf(lower, keys[n], rf[keys[n]]).Bad? {
        assert forall j :: 0 <= j < n ==> keys[..n][j] == keys[j];
      }
    }
  }

  ghost predicate AllWellFormed(lower: Lower, rf: Filters) {
    forall k :: k in rf ==> WellFormed(lower, rf[k])
  }

  ghost predicate AllEvaluable(rf: Filters) {
    forall k :: k in rf ==> Evaluable(rf[k])
  }

  /** The item meets every key's filter. */
  ghost predicate Meets(parse: ParseFloat, lower: Lower, rf: Filters, item: Item)
    requires AllWellFormed(lower, rf)
  {
    forall k :: k in rf ==> Demands(parse, lower, rf[k], Lookup(item, k))
  }

  /** Filters are rejected exactly when one is malformed, for the least such key; they compile to
      no expression exactly when there are none. */
  lemma {:induction false} CompilesIff(lower: Lower, rf: Filters)
    ensures CompiledFilters(lower, rf).Rejected? <==> !AllWellFormed(lower, rf)
    ensures var r := CompiledFilters(lower, rf);
            r.Rejected? ==>
              && r.key in rf && rf[r.key].Obj? && !WellFormed(lower, rf[r.key])
              && r.reason == WhyNot(lower, rf[r.key])
              && forall k :: k in rf && !WellFormed(lower, rf[k]) ==> k == r.key || Less(r.key, k)
    ensures CompiledFilters(lower, rf) == Done(None) <==> rf == map[]
  {
    hide WellFormed, ClauseOf, ClausesOf, Increasing, Sorted;
    var keys := Sorted(rf.Keys);
    ClausesMean(lower, keys, rf);
    if ClausesOf(lower, keys, rf).Broken? {
      var key := ClausesOf(lower, keys, rf).key;
      LeastBroken(lower, keys, rf, key);
      ClauseIff(lower, key, rf[key]);
      OnlyObjects(lower, rf[key]);
    } else {
      forall k | k in rf ensures WellFormed(lower, rf[k]) {
        assert k in keys;
      }
    }
    if keys == [] { assert rf.Keys == {}; } else { assert keys[0] in rf; }
  }

  lemma {:induction false} OnlyObjects(lower: Lower, v: Json)
    ensures !WellFormed(lower, v) ==> v.Obj?
  {
  }

  lemma {:induction false} LeastBroken(lower: Lower, keys: seq<string>, rf: Filters, key: string)
    requires Increasing(keys) && forall k :: k in keys <==> k in rf
    requires exists i :: 0 <= i < |keys| && keys[i] == key && !WellFormed(lower, rf[key]) &&
                         forall j :: 0 <= j < i ==> WellFormed(lower, rf[keys[j]])
    ensures key in rf && !WellFormed(lower, rf[key])
    ensures forall k :: k in rf && !WellFormed(lower, rf[k]) ==> k == key || Less(key, k)
  {
    hide WellFormed, Less;
    var i :| 0 <= i < |keys| && keys[i] == key && !WellFormed(lower, rf[key]) &&
             forall j :: 0 <= j < i ==> WellFormed(lower, rf[keys[j]]);
    assert key in keys;
    forall k | k in rf && !WellFormed(lower, rf[k]) ensures k == key || Less(key, k) {
      var j :| 0 <= j < |keys| && keys[j] == k;
    }
  }

  lemma {:induction false} JoinMeans(parse: ParseFloat, nodes: seq<Node>, item: Item)
    requires nodes != []
    ensures Test(parse, Join(nodes).value, item) == FirstNot(parse, True, nodes, item)
  {
    hide Test;
    if |nodes| == 1 {
      assert nodes[1..] == [];
      assert FirstNot(parse, True, nodes[1..], item) == True;
    } else {
      JunctionsMean(parse, nodes, item);
    }
  }

  lemma {:induction false} NoFaults(parse: ParseFloat, nodes: seq<Node>, item: Item)
    requires forall i :: 0 <= i < |nodes| ==> !Test(parse, nodes[i], item).Failed?
    ensures !FirstNot(parse, True, nodes, item).Failed?
  {
    hide Test;
    if nodes != [] { NoFaults(parse, nodes[1..], item); }
  }

  /** Compilation preserves meaning: the expression evaluates without a fault and is true of an
      item exactly when the item meets the filter of every key. */
  lemma {:induction false} CompiledMeans(parse: ParseFloat, lower: Lower, rf: Filters, item: Item)
    requires AllWellFormed(lower, rf) && AllEvaluable(rf) && rf != map[]
    ensures var r := CompiledFilters(lower, rf);
            && r.Done? && r.expr.Some?
            && Test(parse, r.expr.value, item) == if Meets(parse, lower, rf, item) then True else False
  {
    var keys := Sorted(rf.Keys);
    CompilesIff(lower, rf);
    ClausesMean(lower, keys, rf);
    var nodes := ClausesOf(lower, keys, rf).nodes;
    hide WellFormed, ClauseOf, Evaluable, Demands, Test, ClausesOf, Sorted, Increasing, Meets;
    forall i | 0 <= i < |keys|
      ensures Test(parse, nodes[i], item) ==
              if Demands(parse, lower, rf[keys[i]], Lookup(item, keys[i])) then True else False
    {
      ClauseMeans(parse, lower, keys[i], rf[keys[i]], item);
    }
    JoinMeans(parse, nodes, item);
    NoFaults(parse, nodes, item);
    FirstNotSkips(parse, True, nodes, item);
    MeetsByIndex(parse, lower, rf, item, keys);
  }

  lemma {:induction false} MeetsByIndex(parse: ParseFloat, lower: Lower, rf: Filters, item: Item, keys: seq<string>)
    requires AllWellFormed(lower, rf) && forall k :: k in keys <==> k in rf
    ensures Meets(parse, lower, rf, item) <==>
            forall i :: 0 <= i < |keys| ==> Demands(parse, lower, rf[keys[i]], Lookup(item, keys[i]))
  {
    hide WellFormed, Demands;
    if forall i :: 0 <= i < |keys| ==> Demands(parse, lower, rf[keys[i]], Lookup(item, keys[i])) {
      forall k | k in rf ensures Demands(parse, lower, rf[k], Lookup(item, k)) {
        var i :| 0 <= i < |keys| && keys[i] == k;
      }
    }
  }

  // ----- Conjunction of optional expressions -----

  function NonNil(exprs: seq<Option<Node>>): seq<Node> {
    if exprs == [] then []
    else
      var before, last := NonNil(exprs[..|exprs| - 1]), exprs[|exprs| - 1];
      if last.Some? then before + [last.value] else before
  }

  method AndNonNil(exprs: seq<Option<Node>>) returns (r: Option<Node>)
    ensures r == Join(NonNil(exprs))
  {
    var nonNil: seq<Node> := [];
    for i := 0 to |exprs|
      invariant nonNil == NonNil(exprs[..i])
    {
      assert exprs[..i + 1][..i] == exprs[..i];
      if exprs[i].Some? {
        nonNil := nonNil + [exprs[i].value];
      }
    }
    assert exprs[..|exprs|] == exprs;
    if |nonNil| == 0 {
      return None;
    } else if |nonNil| == 1 {
      return Some(nonNil[0]);
    }
    return Some(Op(And, nonNil));
  }

  /** An absent filter lets every item pass; a present one those of which it is true. */
  ghost predicate Passes(parse: ParseFloat, expr: Option<Node>, item: Item) {
    expr.Some? ==> Test(parse, expr.value, item) == True
  }

  lemma {:induction false} NonNilMeans(parse: ParseFloat, exprs: seq<Option<Node>>, item: Item)
    ensures NonNil(exprs) == [] <==> forall i :: 0 <= i < |exprs| ==> exprs[i].None?
    ensures (forall i :: 0 <= i < |NonNil(exprs)| ==> Test(parse, NonNil(exprs)[i], item) == True)
            <==> forall i :: 0 <= i < |exprs| ==> Passes(parse, exprs[i], item)
  {
    hide Test;
    if exprs != [] {
      var n := |exprs| - 1;
      var before, all := NonNil(exprs[..n]), NonNil(exprs);
      NonNilMeans(parse, exprs[..n], item);
      assert forall i :: 0 <= i < n ==> exprs[..n][i] == exprs[i];
      assert forall i :: 0 <= i < |before| ==> all[i] == before[i];
      if exprs[n].Some? { assert all[|before|] == exprs[n].value; }
    }
  }

  /** The conjunction is absent exactly when all its parts are, and passes an item exactly when
      every part passes it, whatever faults the parts have. */
  lemma {:induction false} AndNonNilMeans(parse: ParseFloat, exprs: seq<Option<Node>>, item: Item)
    ensures Join(NonNil(exprs)).None? <==> forall i :: 0 <= i < |exprs| ==> exprs[i].None?
    ensures Passes(parse, Join(NonNil(exprs)), item) <==> forall i :: 0 <= i < |exprs| ==> Passes(parse, exprs[i], item)
  {
    hide Test, NonNil;
    NonNilMeans(parse, exprs, item);
    if NonNil(exprs) != [] {
      JoinMeans(parse, NonNil(exprs), item);
      FirstNotSkips(parse, True, NonNil(exprs), item);
    }
  }

  /** So the merged filter passes exactly the items that the user's and the policy's filters pass
      and that meet every required filter. */
  lemma {:induction false} MergedFilterMeans(parse: ParseFloat, lower: Lower, user: Option<Node>, policy: Option<Node>,
                                             rf: Filters, item: Item)
    requires AllWellFormed(lower, rf) && AllEvaluable(rf)
    ensures var compiled := CompiledFilters(lower, rf);
            && compiled.Done?
            && (Passes(parse, Join(NonNil([user, policy, compiled.expr])), item) <==>
                Passes(parse, user, item) && Passes(parse, policy, item) && Meets(parse, lower, rf, item))
  {
    hide Test, NonNil, Join, CompiledFilters, WellFormed, Evaluable, Demands;
    CompilesIff(lower, rf);
    var exprs := [user, policy, CompiledFilters(lower, rf).expr];
    AndNonNilMeans(parse, exprs, item);
    assert exprs[0] == user && exprs[1] == policy && exprs[2] == CompiledFilters(lower, rf).expr;
    if rf != map[] { CompiledMeans(parse, lower, rf, item); }
  }
}
