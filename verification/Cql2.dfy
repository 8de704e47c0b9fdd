/**
 Evaluation of a CQL2 filter expression against a STAC item.
 (internal/stac/cql2_eval.go)

 Numbers are reals; which strings read as numbers is the parameter `parse`. Spatial
 operators are not modelled.
 */
module Cql2 {
  import opened Text

  datatype Json =
    | Null
    | Bool(b: bool)
    | Num(r: real)
    | Str(s: string)
    | Arr(elements: seq<Json>)
    | Obj(fields: map<string, Json>)

  datatype Operator = And | Or | Not | Eq | Neq | Lt | Lte | Gt | Gte | In | IsNull | OtherOp

  /** `NumLit(None)` is a number that cannot be read, `Foreign` a node the evaluator does not know. */
  datatype Node =
    | BoolLit(b: bool)
    | NumLit(r: Option<real>)
    | StringLit(s: string)
    | NullLit
    | PropertyRef(name: string)
    | ArrayLit(elements: seq<Node>)
    | Op(op: Operator, args: seq<Node>)
    | Foreign

  datatype Fault = BadNumber | NotBoolean | WrongArity | NotArray | Unsupported

  datatype Value = Ok(value: Json) | Err(fault: Fault)

  type ParseFloat = string -> Option<real>

  type Item = map<string, Json>

  // ----- Properties -----

  function Field(fields: Item, name: string): Json {
    if name in fields then fields[name] else Null
  }

  /** The parts of a name between its dots. */
  function Split(name: string): (r: seq<string>)
    ensures r != []
  {
    if name == [] then [""]
    else
      var rest := Split(name[1..]);
      if name[0] == '.' then [""] + rest else [[name[0]] + rest[0]] + rest[1..]
  }

  function Walk(v: Json, path: seq<string>): Json
    decreases path
  {
    if path == [] then v else if v.Obj? then Walk(Field(v.fields, path[0]), path[1..]) else Null
  }

  function Lookup(item: Item, name: string): Json {
    if '.' in name then Walk(Obj(item), Split(name))
    else
      var props := Field(item, "properties");
      if props.Obj? && name in props.fields then props.fields[name] else Field(item, name)
  }

  lemma {:induction false} SplitPlain(name: string)
    requires '.' !in name
    ensures Split(name) == [name]
  {
    if name != [] {
      SplitPlain(name[1..]);
      assert [name[0]] + name[1..] == name;
    }
  }

  lemma {:induction false} SplitAt(head: string, rest: string)
    requires '.' !in head
    ensures Split(head + "." + rest) == [head] + Split(rest)
  {
    var name := head + "." + rest;
    if head == [] {
      assert name[1..] == rest;
    } else {
      assert name[1..] == head[1..] + "." + rest;
      SplitAt(head[1..], rest);
      var tail := [head[1..]] + Split(rest);
      assert tail[1..] == Split(rest) && [head[0]] + head[1..] == head;
    }
  }

  /** A bare name finds what its full path under "properties" finds, when that is there. */
  lemma {:induction false} BareNameIsPath(item: Item, name: string)
    requires '.' !in name
    requires Field(item, "properties").Obj? && name in Field(item, "properties").fields
    ensures Lookup(item, name) == Lookup(item, "properties" + "." + name)
  {
    var head := "properties";
    SplitAt(head, name);
    SplitPlain(name);
    assert (head + "." + name)[|head|] == '.';
    assert [head] + [name] == [head, name];
    WalkTwo(item, head, name);
    hide Split, Walk;
  }

  lemma {:induction false} WalkTwo(item: Item, a: string, b: string)
    requires Field(item, a).Obj?
    ensures Walk(Obj(item), [a, b]) == Field(Field(item, a).fields, b)
  {
    var inner := Field(item, a);
    assert [a, b][1..] == [b] && [b][1..] == [];
    assert Walk(inner, [b]) == Walk(Field(inner.fields, b), []);
    assert Walk(Obj(item), [a, b]) == Walk(inner, [b]);
  }

  /** A bare name is looked for under "properties" and then at the top level; one that is in
      neither place is null. */
  lemma {:induction false} BareNameMeans(item: Item, name: string)
    requires '.' !in name
    ensures var hasProps := "properties" in item && item["properties"].Obj?;
            Lookup(item, name) ==
            if hasProps && name in item["properties"].fields then item["properties"].fields[name]
            else if name in item then item[name]
            else Null
  {
  }

  /** A dotted name is looked for part by part from the top level; a part that is missing, or in
      something that is not an object, makes it null. */
  lemma {:induction false} DottedNameMeans(item: Item, head: string, rest: string)
    requires '.' !in head
    ensures Lookup(item, head + "." + rest) ==
            if head !in item || !item[head].Obj? then Null
            else if '.' in rest then Lookup(item[head].fields, rest)
            else if rest in item[head].fields then item[head].fields[rest]
            else Null
  {
    var name := head + "." + rest;
    assert name[|head|] == '.';
    SplitAt(head, rest);
    var path := [head] + Split(rest);
    assert path[1..] == Split(rest);
    hide Split;
    assert Lookup(item, name) == Walk(Obj(item), path) == Walk(Field(item, head), Split(rest));
    if '.' !in rest {
      SplitPlain(rest);
      var inner := Field(item, head);
      if inner.Obj? { assert Walk(inner, [rest]) == Walk(Field(inner.fields, rest), [rest][1..]); }
    }
  }

  // ----- Comparison -----

  function Number(parse: ParseFloat, v: Json): Option<real> {
    match v
    case Num(r) => Some(r)
    case Str(s) => parse(s)
    case _ => None
  }

  function NumericCmp(op: Operator, l: real, r: real): bool {
    match op
    case Eq => l == r
    case Neq => l != r
    case Lt => l < r
    case Lte => l <= r
    case Gt => l > r
    case Gte => l >= r
    case _ => false
  }

  function StringCmp(op: Operator, l: string, r: string): bool {
    match op
    case Eq => l == r
    case Neq => l != r
    case Lt => Less(l, r)
    case Lte => Less(l, r) || l == r
    case Gt => Less(r, l)
    case Gte => Less(r, l) || l == r
    case _ => false
  }

  function Compare(parse: ParseFloat, op: Operator, l: Json, r: Json): bool {
    if l.Null? || r.Null? then
      if op == Eq then l.Null? && r.Null? else op == Neq && !(l.Null? && r.Null?)
    else
      var lf, rf := Number(parse, l), Number(parse, r);
      if lf.Some? && rf.Some? then NumericCmp(op, lf.value, rf.value)
      else if l.Str? && r.Str? then StringCmp(op, l.s, r.s)
      else if l.Bool? && r.Bool? then (op == Eq && l.b == r.b) || (op == Neq && l.b != r.b)
      else false
  }

  /** The evaluator has an order for the two values. */
  predicate Ordered(parse: ParseFloat, l: Json, r: Json) {
    (Number(parse, l).Some? && Number(parse, r).Some?) || (l.Str? && r.Str?)
  }

  predicate Comparable(parse: ParseFloat, l: Json, r: Json) {
    l.Null? || r.Null? || Ordered(parse, l, r) || (l.Bool? && r.Bool?)
  }

  /** Inequality is the negation of equality exactly for comparable values; for others both are
      false, so a filter on a value of the wrong type fails either way. */
  lemma {:induction false} NeqNegatesIff(parse: ParseFloat, l: Json, r: Json)
    ensures Compare(parse, Neq, l, r) == !Compare(parse, Eq, l, r) <==> Comparable(parse, l, r)
  {
  }

  /** Ordered values are equal, less or greater, and only one of them; the other operators follow. */
  lemma {:induction false} ComparisonsAgree(parse: ParseFloat, l: Json, r: Json)
    requires Ordered(parse, l, r)
    ensures var lt, eq, gt := Compare(parse, Lt, l, r), Compare(parse, Eq, l, r), Compare(parse, Gt, l, r);
            && (lt || eq || gt) && !(lt && eq) && !(lt && gt) && !(eq && gt)
            && Compare(parse, Lte, l, r) == (lt || eq) && Compare(parse, Gte, l, r) == (gt || eq)
            && gt == Compare(parse, Lt, r, l)
  {
    if l.Str? && r.Str? {
      LessTotal(l.s, r.s);
      LessIrreflexive(l.s);
      if Less(l.s, r.s) && Less(r.s, l.s) { LessTransitive(l.s, r.s, l.s); }
    }
  }

  /** The value is the number, or a string that reads as it. */
  ghost predicate Reads(parse: ParseFloat, v: Json, r: real) {
    v == Num(r) || (v.Str? && parse(v.s) == Some(r))
  }

  /** Values that both read as numbers compare as these. */
  lemma {:induction false} NumbersCompare(parse: ParseFloat, l: Json, r: Json, a: real, b: real)
    requires Reads(parse, l, a) && Reads(parse, r, b)
    ensures Compare(parse, Eq, l, r) == (a == b) && Compare(parse, Neq, l, r) == (a != b)
    ensures Compare(parse, Lt, l, r) == (a < b) && Compare(parse, Lte, l, r) == (a <= b)
    ensures Compare(parse, Gt, l, r) == (a > b) && Compare(parse, Gte, l, r) == (a >= b)
  {
  }

  /** Other strings compare character by character. */
  lemma {:induction false} StringsCompare(parse: ParseFloat, l: string, r: string)
    requires parse(l).None? || parse(r).None?
    ensures Compare(parse, Eq, Str(l), Str(r)) == (l == r) && Compare(parse, Neq, Str(l), Str(r)) == (l != r)
    ensures Compare(parse, Lt, Str(l), Str(r)) == Less(l, r)
    ensures Compare(parse, Lte, Str(l), Str(r)) == (l == r || Less(l, r))
    ensures Compare(parse, Gt, Str(l), Str(r)) == Less(r, l)
    ensures Compare(parse, Gte, Str(l), Str(r)) == (l == r || Less(r, l))
  {
  }

  /** Null is equal to null alone; booleans are equal or not; nothing else of different kinds, nor
      an array or an object, compares in any way. */
  lemma {:induction false} OthersCompare(parse: ParseFloat, op: Operator, l: Json, r: Json)
    requires !Ordered(parse, l, r)
    ensures Compare(parse, op, l, r) <==>
            || (op == Eq && l.Null? && r.Null?)
            || (op == Neq && l.Null? != r.Null?)
            || (op == Eq && l.Bool? && r.Bool? && l.b == r.b)
            || (op == Neq && l.Bool? && r.Bool? && l.b != r.b)
  {
  }

  /** Values are ordered when both read as numbers or both are strings. */
  lemma {:induction false} OrderedMeans(parse: ParseFloat, l: Json, r: Json)
    ensures Ordered(parse, l, r) <==> (l.Str? && r.Str?) || exists a, b :: Reads(parse, l, a) && Reads(parse, r, b)
  {
    if Number(parse, l).Some? && Number(parse, r).Some? {
      assert Reads(parse, l, Number(parse, l).value) && Reads(parse, r, Number(parse, r).value);
    }
  }

  // ----- Evaluation -----

  function Eval(parse: ParseFloat, n: Node, item: Item): Value
    decreases n
  {
    match n
    case BoolLit(b) => Ok(Bool(b))
    case NumLit(r) => if r.Some? then Ok(Num(r.value)) else Err(BadNumber)
    case StringLit(s) => Ok(Str(s))
    case NullLit => Ok(Null)
    case PropertyRef(name) => Ok(Lookup(item, name))
    case ArrayLit(elements) => EvalArray(parse, elements, item)
    case Foreign => Err(Unsupported)
    case Op(op, args) =>
      match op
      case And => EvalAnd(parse, args, item)
      case Or => EvalOr(parse, args, item)
      case Not =>
        if |args| != 1 then Err(WrongArity) else Negated(Eval(parse, args[0], item))
      case IsNull =>
        if |args| != 1 then Err(WrongArity)
        else
          var v := Eval(parse, args[0], item);
          if v.Err? then v else Ok(Bool(v.value.Null?))
      case In =>
        if |args| != 2 then Err(WrongArity)
        else
          var needle := Eval(parse, args[0], item);
          if needle.Err? then needle
          else
            var hay := Eval(parse, args[1], item);
            if hay.Err? then hay
            else if !hay.value.Arr? then Err(NotArray)
            else Ok(Bool(Among(parse, needle.value, hay.value.elements)))
      case OtherOp => Err(Unsupported)
      case _ =>
        if |args| != 2 then Err(WrongArity)
        else
          var left := Eval(parse, args[0], item);
          if left.Err? then left
          else
            var right := Eval(parse, args[1], item);
            if right.Err? then right else Ok(Bool(Compare(parse, op, left.value, right.value)))
  }

  function Negated(v: Value): Value {
    if v.Err? then v else if v.value.Bool? then Ok(Bool(!v.value.b)) else Err(NotBoolean)
  }

  /** The early exit of the membership loop. */
  function Among(parse: ParseFloat, needle: Json, hay: seq<Json>): (r: bool)
    ensures r <==> exists i :: 0 <= i < |hay| && Compare(parse, Eq, needle, hay[i])
  {
    if hay == [] then false
    else if Compare(parse, Eq, needle, hay[0]) then true
    else
      var r := Among(parse, needle, hay[1..]);
      assert forall i :: 0 < i < |hay| ==> hay[i] == hay[1..][i - 1];
      r
  }

  function EvalArray(parse: ParseFloat, nodes: seq<Node>, item: Item): Value
    decreases nodes
  {
    if nodes == [] then Ok(Arr([]))
    else
      var v := Eval(parse, nodes[0], item);
      if v.Err? then v
      else
        var rest := EvalArray(parse, nodes[1..], item);
        if rest.Err? then rest
        else if rest.value.Arr? then Ok(Arr([v.value] + rest.value.elements)) else rest
  }

  function EvalAnd(parse: ParseFloat, args: seq<Node>, item: Item): Value
    decreases args
  {
    if args == [] then Ok(Bool(true))
    else
      var v := Eval(parse, args[0], item);
      if v.Err? then v
      else if !v.value.Bool? then Err(NotBoolean)
      else if !v.value.b then Ok(Bool(false))
      else EvalAnd(parse, args[1..], item)
  }

  function EvalOr(parse: ParseFloat, args: seq<Node>, item: Item): Value
    decreases args
  {
    if args == [] then Ok(Bool(false))
    else
      var v := Eval(parse, args[0], item);
      if v.Err? then v
      else if !v.value.Bool? then Err(NotBoolean)
      else if v.value.b then Ok(Bool(true))
      else EvalOr(parse, args[1..], item)
  }

  datatype Truth = True | False | Failed(fault: Fault)

  function AsTruth(v: Value): Truth {
    if v.Err? then Failed(v.fault) else if !v.value.Bool? then Failed(NotBoolean) else if v.value.b then True else False
  }

  /** Whether the item satisfies the expression. */
  function Test(parse: ParseFloat, n: Node, item: Item): Truth {
    AsTruth(Eval(parse, n, item))
  }

  /** The verdict of the first of the expressions whose verdict is not `skip`, or `skip`. */
  function FirstNot(parse: ParseFloat, skip: Truth, args: seq<Node>, item: Item): Truth {
    if args == [] then skip
    else
      var first := Test(parse, args[0], item);
      if first != skip then first else FirstNot(parse, skip, args[1..], item)
  }

  /** A conjunction is as its first conjunct that is not true, a disjunction as its first that is
      not false; what comes after, faults included, does not matter. */
  lemma {:induction false} JunctionsMean(parse: ParseFloat, args: seq<Node>, item: Item)
    ensures Test(parse, Op(And, args), item) == FirstNot(parse, True, args, item)
    ensures Test(parse, Op(Or, args), item) == FirstNot(parse, False, args, item)
  {
    assert Eval(parse, Op(And, args), item) == EvalAnd(parse, args, item);
    assert Eval(parse, Op(Or, args), item) == EvalOr(parse, args, item);
    if args != [] {
      JunctionsMean(parse, args[1..], item);
      assert Eval(parse, Op(And, args[1..]), item) == EvalAnd(parse, args[1..], item);
      assert Eval(parse, Op(Or, args[1..]), item) == EvalOr(parse, args[1..], item);
    }
  }

  /** A negation needs one argument; it turns true and false about and keeps a fault. */
  lemma {:induction false} NotMeans(parse: ParseFloat, args: seq<Node>, item: Item)
    ensures Test(parse, Op(Not, args), item) ==
            if |args| != 1 then Failed(WrongArity)
            else match Test(parse, args[0], item)
              case True => False
              case False => True
              case Failed(fault) => Failed(fault)
  {
    if |args| == 1 { assert Eval(parse, Op(Not, args), item) == Negated(Eval(parse, args[0], item)); }
  }

  /** A null check needs one argument, and is true of null and of what is missing. */
  lemma {:induction false} IsNullMeans(parse: ParseFloat, args: seq<Node>, item: Item)
    ensures Test(parse, Op(IsNull, args), item) ==
            if |args| != 1 then Failed(WrongArity)
            else match Eval(parse, args[0], item)
              case Err(fault) => Failed(fault)
              case Ok(v) => if v == Null then True else False
  {
    if |args| == 1 { assert Op(IsNull, args).args[0] == args[0]; }
  }

  /** A comparison needs two arguments; of their faults the first counts. */
  lemma {:induction false} ComparisonMeans(parse: ParseFloat, op: Operator, args: seq<Node>, item: Item)
    requires op in {Eq, Neq, Lt, Lte, Gt, Gte}
    ensures Test(parse, Op(op, args), item) ==
            if |args| != 2 then Failed(WrongArity)
            else match Eval(parse, args[0], item)
              case Err(fault) => Failed(fault)
              case Ok(l) =>
                match Eval(parse, args[1], item)
                case Err(fault) => Failed(fault)
                case Ok(r) => if Compare(parse, op, l, r) then True else False
  {
    hide Compare;
    if |args| == 2 { assert Op(op, args).args == args; }
  }

  /** Membership needs two arguments, the second an array, and asks for an equal element. */
  lemma {:induction false} MembershipMeans(parse: ParseFloat, args: seq<Node>, item: Item)
    ensures Test(parse, Op(In, args), item) ==
            if |args| != 2 then Failed(WrongArity)
            else match Eval(parse, args[0], item)
              case Err(fault) => Failed(fault)
              case Ok(needle) =>
                match Eval(parse, args[1], item)
                case Err(fault) => Failed(fault)
                case Ok(hay) =>
                  if !hay.Arr? then Failed(NotArray)
                  else if exists i :: 0 <= i < |hay.elements| && Compare(parse, Eq, needle, hay.elements[i]) then True
                  else False
  {
    hide Compare, Among;
    if |args| == 2 { assert Op(In, args).args == args; }
  }

  /** An array's value has the values of its elements; of their faults the first counts. */
  lemma {:induction false} ArrayMeans(parse: ParseFloat, nodes: seq<Node>, item: Item)
    ensures match Eval(parse, ArrayLit(nodes), item)
            case Ok(v) =>
              v.Arr? && |v.elements| == |nodes| &&
              forall i :: 0 <= i < |nodes| ==> Eval(parse, nodes[i], item) == Ok(v.elements[i])
            case Err(fault) =>
              exists i :: 0 <= i < |nodes| && Eval(parse, nodes[i], item) == Err(fault) &&
                          forall j :: 0 <= j < i ==> Eval(parse, nodes[j], item).Ok?
  {
    assert Eval(parse, ArrayLit(nodes), item) == EvalArray(parse, nodes, item);
    EvalArrayMeans(parse, nodes, item);
  }

  lemma {:induction false} EvalArrayMeans(parse: ParseFloat, nodes: seq<Node>, item: Item)
    ensures match EvalArray(parse, nodes, item)
            case Ok(v) =>
              v.Arr? && |v.elements| == |nodes| &&
              forall i :: 0 <= i < |nodes| ==> Eval(parse, nodes[i], item) == Ok(v.elements[i])
            case Err(fault) =>
              exists i :: 0 <= i < |nodes| && Eval(parse, nodes[i], item) == Err(fault) &&
                          forall j :: 0 <= j < i ==> Eval(parse, nodes[j], item).Ok?
  {
    if nodes != [] {
      EvalArrayMeans(parse, nodes[1..], item);
      var rest := EvalArray(parse, nodes[1..], item);
      hide Eval;
      if Eval(parse, nodes[0], item).Ok? && rest.Err? {
        var i :| 0 <= i < |nodes[1..]| && Eval(parse, nodes[1..][i], item) == Err(rest.fault) &&
                 forall j :: 0 <= j < i ==> Eval(parse, nodes[1..][j], item).Ok?;
        assert Eval(parse, nodes[i + 1], item) == Err(rest.fault);
        forall j | 0 <= j < i + 1 ensures Eval(parse, nodes[j], item).Ok? {
          if j > 0 { assert nodes[1..][j - 1] == nodes[j]; }
        }
      }
    }
  }

  lemma {:induction false} FirstNotSkips(parse: ParseFloat, skip: Truth, args: seq<Node>, item: Item)
    ensures FirstNot(parse, skip, args, item) == skip <==>
            forall i :: 0 <= i < |args| ==> Test(parse, args[i], item) == skip
  {
    if args != [] {
      FirstNotSkips(parse, skip, args[1..], item);
      assert forall i :: 0 < i < |args| ==> args[i] == args[1..][i - 1];
      assert forall i :: 0 <= i < |args[1..]| ==> args[1..][i] == args[i + 1];
    }
  }

  /** A conjunction is true exactly when every conjunct is, faults counting as not true. */
  lemma {:induction false} AndTrueIff(parse: ParseFloat, args: seq<Node>, item: Item)
    ensures Test(parse, Op(And, args), item) == True <==>
            forall i :: 0 <= i < |args| ==> Test(parse, args[i], item) == True
  {
    hide *;
    JunctionsMean(parse, args, item);
    FirstNotSkips(parse, True, args, item);
  }
}
