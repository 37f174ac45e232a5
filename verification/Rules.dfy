/** The recovery verifier's declarative predicates (valops/verifier/rules.py).
    Sample values are JSON; Python's True and False compare, order and hash as 1 and 0, so
    booleans are represented by those numbers. */
module Rules {
  import opened Wrappers

  datatype Json =
    | Null
    | Num(n: real)
    | Str(s: string)
    | Arr(items: seq<Json>)
    | Obj(fields: map<string, Json>)

  datatype Op = Lt | Le | Gt | Ge | Eq | Ne | In

  /** A right-hand side: a literal, or a reference into the parameter register. */
  datatype Value = Literal(j: Json) | Param(id: string, key: Option<string>)

  datatype Pred =
    | AllOf(all: seq<Pred>)
    | AnyOf(any: seq<Pred>)
    | Leaf(field: string, op: Op, value: Value)

  type Params = (string, Option<string>) -> Json

  // ---------------------------------------------------------------- operators

  function CompareStrings(a: string, b: string): int {
    if a == [] then (if b == [] then 0 else -1)
    else if b == [] then 1
    else if a[0] == b[0] then CompareStrings(a[1..], b[1..])
    else if a[0] < b[0] then -1 else 1
  }

  /** Python's three-way order; None where `<` raises TypeError. Lists order by their first
      difference. */
  function Compare(a: Json, b: Json): Option<int> {
    match (a, b)
    case (Num(x), Num(y)) => Some(if x < y then -1 else if x == y then 0 else 1)
    case (Str(x), Str(y)) => Some(CompareStrings(x, y))
    case (Arr(x), Arr(y)) => CompareLists(x, y)
    case _ => None
  }

  function CompareLists(a: seq<Json>, b: seq<Json>): Option<int> {
    if a == [] then Some(if b == [] then 0 else -1)
    else if b == [] then Some(1)
    else if a[0] == b[0] then CompareLists(a[1..], b[1..])
    else Compare(a[0], b[0])
  }

  predicate HasSubstring(whole: string, part: string) {
    exists i :: 0 <= i <= |whole| && part <= whole[i..]
  }

  /** `OPS[op](actual, value)`; None is a TypeError. */
  function Apply(op: Op, a: Json, b: Json): Option<bool> {
    match op
    case Eq => Some(a == b)
    case Ne => Some(a != b)
    case In =>
      (match b
       case Arr(items) => Some(a in items)
       case Obj(fields) => if a.Arr? || a.Obj? then None else Some(a.Str? && a.s in fields)
       case Str(s) => if a.Str? then Some(HasSubstring(s, a.s)) else None
       case _ => None)
    case _ =>
      match Compare(a, b)
      case None => None
      case Some(c) =>
        Some(match op
             case Lt => c < 0
             case Le => c <= 0
             case Gt => c > 0
             case _ => c >= 0)
  }

  // ---------------------------------------------------------------- evaluation

  function SplitDots(path: string): (parts: seq<string>)
    ensures |parts| >= 1
  {
    if path == [] then [""]
    else
      var rest := SplitDots(path[1..]);
      if path[0] == '.' then [""] + rest else [[path[0]] + rest[0]] + rest[1..]
  }

  /** `_get` without its local variable; None is the KeyError. */
  function GetParts(cur: Json, parts: seq<string>): Option<Json> {
    if parts == [] then Some(cur)
    else if cur.Obj? && parts[0] in cur.fields then GetParts(cur.fields[parts[0]], parts[1..])
    else None
  }

  /** `_get`: walks the path one field at a time. */
  method Get(sample: Json, path: string) returns (r: Option<Json>)
    ensures r == GetParts(sample, SplitDots(path))
  {
    var parts := SplitDots(path);
    var cur := sample;
    for i := 0 to |parts|
      invariant GetParts(sample, parts) == GetParts(cur, parts[i..])
    {
      if !cur.Obj? || parts[i] !in cur.fields {
        return None;
      }
      cur := cur.fields[parts[i]];
      assert parts[i..][1..] == parts[i + 1..];
    }
    r := Some(cur);
  }

  function Resolve(v: Value, param: Params): Json {
    match v
    case Literal(j) => j
    case Param(id, key) => param(id, key)
  }

  /** `evaluate`: a missing field or a type error makes a leaf False. */
  predicate Evaluate(p: Pred, sample: Json, param: Params) {
    match p
    case AllOf(ps) => forall i | 0 <= i < |ps| :: Evaluate(ps[i], sample, param)
    case AnyOf(ps) => exists i | 0 <= i < |ps| :: Evaluate(ps[i], sample, param)
    case Leaf(field, op, value) =>
      (match GetParts(sample, SplitDots(field))
       case None => false
       case Some(actual) => Apply(op, actual, Resolve(value, param)) == Some(true))
  }

  /** `_validate_pred`, on a mapping that already has the shape of a predicate. */
  predicate ValidPred(p: Pred) {
    match p
    case AllOf(ps) => ps != [] && forall i | 0 <= i < |ps| :: ValidPred(ps[i])
    case AnyOf(ps) => ps != [] && forall i | 0 <= i < |ps| :: ValidPred(ps[i])
    case Leaf(field, _, _) => '.' in field
  }

  /** `_fields`, as a set. */
  function Fields(p: Pred): set<string> {
    match p
    case AllOf(ps) => set i, f | 0 <= i < |ps| && f in Fields(ps[i]) :: f
    case AnyOf(ps) => set i, f | 0 <= i < |ps| && f in Fields(ps[i]) :: f
    case Leaf(field, _, _) => {field}
  }

  // ---------------------------------------------------------------- what a predicate answers

  /** One string comes before another: it is a proper prefix, or smaller at the first difference. */
  ghost predicate Precedes(a: string, b: string) {
    exists k :: PrecedesAt(a, b, k)
  }

  predicate PrecedesAt(a: string, b: string, k: int) {
    && 0 <= k <= |a| && k <= |b| && a[..k] == b[..k]
    && ((k == |a| && k < |b|) || (k < |a| && k < |b| && a[k] < b[k]))
  }

  lemma {:induction false} PrecedesTail(a: string, b: string)
    requires a != [] && b != [] && a[0] == b[0]
    ensures Precedes(a, b) <==> Precedes(a[1..], b[1..])
  {
    if k :| PrecedesAt(a, b, k) {
      assert a[1..][..k - 1] == a[..k][1..] && b[1..][..k - 1] == b[..k][1..];
      assert PrecedesAt(a[1..], b[1..], k - 1);
    }
    if k :| PrecedesAt(a[1..], b[1..], k) {
      assert a[..k + 1] == [a[0]] + a[1..][..k] && b[..k + 1] == [b[0]] + b[1..][..k];
      assert PrecedesAt(a, b, k + 1);
    }
  }

  lemma {:induction false} DifferentHeads(a: string, b: string)
    requires a != [] && b != [] && a[0] != b[0]
    ensures Precedes(a, b) <==> a[0] < b[0]
  {
    forall k | 0 < k <= |a| && k <= |b| ensures a[..k] != b[..k] {
      assert a[..k][0] == a[0] && b[..k][0] == b[0];
    }
    assert PrecedesAt(a, b, 0) <==> a[0] < b[0];
  }

  lemma {:induction false} StringOrder(a: string, b: string)
    ensures CompareStrings(a, b) < 0 <==> Precedes(a, b)
    ensures CompareStrings(a, b) == 0 <==> a == b
  {
    if a == [] || b == [] {
      assert b != [] ==> PrecedesAt([], b, 0);
    } else if a[0] == b[0] {
      StringOrder(a[1..], b[1..]);
      PrecedesTail(a, b);
      assert a == [a[0]] + a[1..] && b == [b[0]] + b[1..];
    } else {
      DifferentHeads(a, b);
    }
  }

  /** A field that holds a number, against a number. */
  lemma {:induction false} NumberLeaf(field: string, op: Op, x: real, y: real, sample: Json, param: Params)
    requires GetParts(sample, SplitDots(field)) == Some(Num(x))
    ensures Evaluate(Leaf(field, op, Literal(Num(y))), sample, param) <==>
      match op
      case Lt => x < y
      case Le => x <= y
      case Gt => x > y
      case Ge => x >= y
      case Eq => x == y
      case Ne => x != y
      case In => false
  {
  }

  /** A field that holds a string, against a string. */
  lemma {:induction false} StringLeaf(field: string, op: Op, x: string, y: string, sample: Json, param: Params)
    requires GetParts(sample, SplitDots(field)) == Some(Str(x))
    ensures Evaluate(Leaf(field, op, Literal(Str(y))), sample, param) <==>
      match op
      case Lt => Precedes(x, y)
      case Le => Precedes(x, y) || x == y
      case Gt => !Precedes(x, y) && x != y
      case Ge => !Precedes(x, y)
      case Eq => x == y
      case Ne => x != y
      case In => exists i :: OccursAt(y, x, i)
  {
    hide CompareStrings, Precedes;
    StringOrder(x, y);
    SubstringIff(y, x);
  }

  predicate OccursAt(whole: string, part: string, i: int) {
    0 <= i <= |whole| - |part| && whole[i..i + |part|] == part
  }

  lemma {:induction false} SubstringIff(whole: string, part: string)
    ensures HasSubstring(whole, part) <==> exists i :: OccursAt(whole, part, i)
  {
    if i :| 0 <= i <= |whole| && part <= whole[i..] {
      assert whole[i..i + |part|] == whole[i..][..|part|] == part;
      assert OccursAt(whole, part, i);
    }
    if i :| OccursAt(whole, part, i) {
      assert whole[i..][..|part|] == part;
    }
  }

  /** One list comes before another: it is a proper prefix, or at the first difference its element does. */
  ghost predicate ListPrecedes(a: seq<Json>, b: seq<Json>, k: nat) {
    && k <= |a| && k <= |b| && a[..k] == b[..k]
    && ((k == |a| && k < |b|) || (k < |a| && k < |b| && a[k] != b[k] && Apply(Lt, a[k], b[k]) == Some(true)))
  }

  lemma {:induction false} ListOrder(a: seq<Json>, b: seq<Json>)
    ensures (exists k :: ListPrecedes(a, b, k)) <==> (CompareLists(a, b).Some? && CompareLists(a, b).value < 0)
    ensures CompareLists(a, b) == Some(0) ==> a == b
  {
    if a == [] || b == [] {
      assert b != [] ==> ListPrecedes([], b, 0);
    } else if a[0] == b[0] {
      ListOrder(a[1..], b[1..]);
      assert a == [a[0]] + a[1..] && b == [b[0]] + b[1..];
      if k: nat :| ListPrecedes(a, b, k) {
        assert k > 0;
        assert a[1..][..k - 1] == a[..k][1..] && b[1..][..k - 1] == b[..k][1..];
        assert ListPrecedes(a[1..], b[1..], k - 1);
      }
      if k: nat :| ListPrecedes(a[1..], b[1..], k) {
        assert a[..k + 1] == [a[0]] + a[1..][..k] && b[..k + 1] == [b[0]] + b[1..][..k];
        assert ListPrecedes(a, b, k + 1);
      }
    } else {
      assert ListPrecedes(a, b, 0) <==> Apply(Lt, a[0], b[0]) == Some(true);
      forall k: nat | 0 < k <= |a| && k <= |b| ensures a[..k] != b[..k] {
        assert a[..k][0] == a[0] && b[..k][0] == b[0];
      }
      if Compare(a[0], b[0]) == Some(0) {
        NeverEqual(a[0], b[0]);
      }
    }
  }

  /** Different values are never of the same rank. */
  lemma {:induction false} NeverEqual(a: Json, b: Json)
    requires Compare(a, b) == Some(0)
    ensures a == b
    decreases a
  {
    match (a, b)
    case (Str(x), Str(y)) => StringOrder(x, y);
    case (Arr(x), Arr(y)) => NeverEqualLists(x, y);
    case _ =>
  }

  lemma {:induction false} SameList(a: seq<Json>)
    ensures CompareLists(a, a) == Some(0)
  {
    if a != [] {
      SameList(a[1..]);
    }
  }

  /** Exchanging the sides reverses the order. */
  lemma {:induction false} Opposite(a: Json, b: Json)
    ensures match Compare(a, b)
            case None => Compare(b, a).None?
            case Some(c) => Compare(b, a).Some? && (c < 0 <==> Compare(b, a).value > 0)
                            && (c == 0 <==> Compare(b, a).value == 0)
    decreases a
  {
    match (a, b)
    case (Str(x), Str(y)) => StringsOpposite(x, y);
    case (Arr(x), Arr(y)) => ListsOpposite(x, y);
    case _ =>
  }

  lemma {:induction false} StringsOpposite(a: string, b: string)
    ensures CompareStrings(a, b) < 0 <==> CompareStrings(b, a) > 0
    ensures CompareStrings(a, b) == 0 <==> CompareStrings(b, a) == 0
  {
    if a != [] && b != [] {
      StringsOpposite(a[1..], b[1..]);
    }
  }

  lemma {:induction false} ListsOpposite(a: seq<Json>, b: seq<Json>)
    ensures match CompareLists(a, b)
            case None => CompareLists(b, a).None?
            case Some(c) => CompareLists(b, a).Some? && (c < 0 <==> CompareLists(b, a).value > 0)
                            && (c == 0 <==> CompareLists(b, a).value == 0)
    decreases a
  {
    if a != [] && b != [] {
      if a[0] == b[0] {
        ListsOpposite(a[1..], b[1..]);
      } else {
        Opposite(a[0], b[0]);
      }
    }
  }

  lemma {:induction false} NeverEqualLists(a: seq<Json>, b: seq<Json>)
    requires CompareLists(a, b) == Some(0)
    ensures a == b
    decreases a
  {
    if a != [] && b != [] {
      if a[0] != b[0] {
        NeverEqual(a[0], b[0]);
      }
      NeverEqualLists(a[1..], b[1..]);
      assert a == [a[0]] + a[1..] && b == [b[0]] + b[1..];
    }
  }

  /** A field that holds a list, against a list; the orderings raise where the first difference has none. */
  lemma {:induction false} ListLeaf(field: string, op: Op, x: seq<Json>, y: seq<Json>, sample: Json, param: Params)
    requires GetParts(sample, SplitDots(field)) == Some(Arr(x)) && op in {Lt, Le, Gt, Ge}
    ensures Evaluate(Leaf(field, op, Literal(Arr(y))), sample, param) <==>
      match op
      case Lt => exists k :: ListPrecedes(x, y, k)
      case Le => x == y || exists k :: ListPrecedes(x, y, k)
      case Gt => exists k :: ListPrecedes(y, x, k)
      case _ => x == y || exists k :: ListPrecedes(y, x, k)
  {
    ListOrder(x, y);
    ListOrder(y, x);
    ListsOpposite(x, y);
    SameList(x);
  }

  /** `in` a list is membership, and in an object it is one of its fields' names. */
  lemma {:induction false} MembershipLeaf(field: string, v: Json, within: Value, sample: Json, param: Params)
    requires GetParts(sample, SplitDots(field)) == Some(v)
    ensures var b := Resolve(within, param);
      && (b.Arr? ==>
            (Evaluate(Leaf(field, In, within), sample, param) <==> exists i :: 0 <= i < |b.items| && b.items[i] == v))
      && (b.Obj? ==> (Evaluate(Leaf(field, In, within), sample, param) <==> v.Str? && v.s in b.fields))
  {
  }

  /** Where Python raises, a leaf is False: a missing field, an ordering of different kinds or of objects, and `in`
      anything that has no members. */
  lemma {:induction false} LeafWithoutAnswer(field: string, op: Op, value: Value, sample: Json, param: Params)
    requires var a, b := GetParts(sample, SplitDots(field)), Resolve(value, param);
      || a.None?
      || (op in {Lt, Le, Gt, Ge} && !(a.value.Num? && b.Num?) && !(a.value.Str? && b.Str?) && !(a.value.Arr? && b.Arr?))
      || (op == In && (b.Null? || b.Num? || (b.Str? && !a.value.Str?)))
    ensures !Evaluate(Leaf(field, op, value), sample, param)
  {
  }

  /** `eq` and `ne` are equality, whatever the kinds, and opposites wherever the field is present. */
  lemma {:induction false} EqualityLeaf(field: string, value: Value, sample: Json, param: Params)
    requires GetParts(sample, SplitDots(field)).Some?
    ensures var same := GetParts(sample, SplitDots(field)).value == Resolve(value, param);
      && (Evaluate(Leaf(field, Eq, value), sample, param) <==> same)
      && (Evaluate(Leaf(field, Ne, value), sample, param) <==> !same)
  {
  }

  /** A reference into the register stands for what the register holds there. */
  lemma {:induction false} ReferenceStandsFor(field: string, op: Op, id: string, key: Option<string>, sample: Json,
      param: Params)
    ensures Evaluate(Leaf(field, op, Param(id, key)), sample, param) ==
      Evaluate(Leaf(field, op, Literal(param(id, key))), sample, param)
  {
  }

  /** A conjunction holds exactly if all its members do, a disjunction exactly if one does. */
  lemma {:induction false} GroupsHold(ps: seq<Pred>, sample: Json, param: Params)
    ensures Evaluate(AllOf(ps), sample, param) <==> forall p | p in ps :: Evaluate(p, sample, param)
    ensures Evaluate(AnyOf(ps), sample, param) <==> exists p :: p in ps && Evaluate(p, sample, param)
  {
    if Evaluate(AllOf(ps), sample, param) {
      forall p | p in ps ensures Evaluate(p, sample, param) {
        var i :| 0 <= i < |ps| && ps[i] == p;
      }
    }
    if p :| p in ps && Evaluate(p, sample, param) {
      var i :| 0 <= i < |ps| && ps[i] == p;
      assert Evaluate(ps[i], sample, param);
    }
    forall i | 0 <= i < |ps| ensures ps[i] in ps {
    }
  }

  /** What lies at a path: each part is a field of the object before it. */
  ghost predicate LiesAt(sample: Json, parts: seq<string>, nodes: seq<Json>) {
    && |nodes| == |parts| + 1 && nodes[0] == sample
    && forall i | 0 <= i < |parts| ::
         nodes[i].Obj? && parts[i] in nodes[i].fields && nodes[i + 1] == nodes[i].fields[parts[i]]
  }

  lemma {:induction false} PathIff(sample: Json, parts: seq<string>, v: Json)
    ensures GetParts(sample, parts) == Some(v) <==>
      exists nodes :: LiesAt(sample, parts, nodes) && nodes[|parts|] == v
  {
    if GetParts(sample, parts) == Some(v) {
      var nodes := PathTo(sample, parts);
    }
    if nodes: seq<Json> :| LiesAt(sample, parts, nodes) && nodes[|parts|] == v {
      PathFollowed(sample, parts, nodes);
    }
  }

  lemma {:induction false} PathTo(sample: Json, parts: seq<string>) returns (nodes: seq<Json>)
    requires GetParts(sample, parts).Some?
    ensures LiesAt(sample, parts, nodes) && nodes[|parts|] == GetParts(sample, parts).value
  {
    if parts == [] {
      nodes := [sample];
    } else {
      nodes := PathTo(sample.fields[parts[0]], parts[1..]);
      nodes := [sample] + nodes;
    }
  }

  lemma {:induction false} PathFollowed(sample: Json, parts: seq<string>, nodes: seq<Json>)
    requires LiesAt(sample, parts, nodes)
    ensures GetParts(sample, parts) == Some(nodes[|parts|])
  {
    if parts != [] {
      assert nodes[0].Obj? && parts[0] in nodes[0].fields;
      PathFollowed(sample.fields[parts[0]], parts[1..], nodes[1..]);
    }
  }

  function JoinDots(parts: seq<string>): string
    requires parts != []
  {
    if |parts| == 1 then parts[0] else parts[0] + "." + JoinDots(parts[1..])
  }

  /** The parts of a path are what its dots separate. */
  lemma {:induction false} PartsOfPath(path: string)
    ensures JoinDots(SplitDots(path)) == path
    ensures forall i | 0 <= i < |SplitDots(path)| :: '.' !in SplitDots(path)[i]
  {
    if path != [] {
      PartsOfPath(path[1..]);
      var rest := SplitDots(path[1..]);
      assert path == [path[0]] + path[1..];
      assert ([""] + rest)[1..] == rest;
      assert ([[path[0]] + rest[0]] + rest[1..])[1..] == rest[1..];
    }
  }

  /** A predicate is valid exactly if no group in it is empty and every field names a command and something in its
      sample. */
  lemma {:induction false} ValidIff(p: Pred)
    ensures ValidPred(p) <==>
      match p
      case Leaf(field, _, _) => |SplitDots(field)| >= 2
      case AllOf(ps) => |ps| >= 1 && forall q | q in ps :: ValidPred(q)
      case AnyOf(ps) => |ps| >= 1 && forall q | q in ps :: ValidPred(q)
  {
    match p
    case Leaf(field, _, _) => DotSplits(field);
    case AllOf(ps) => AllValid(ps);
    case AnyOf(ps) => AllValid(ps);
  }

  lemma {:induction false} AllValid(ps: seq<Pred>)
    ensures (forall i | 0 <= i < |ps| :: ValidPred(ps[i])) <==> forall q | q in ps :: ValidPred(q)
  {
    if forall i | 0 <= i < |ps| :: ValidPred(ps[i]) {
      forall q | q in ps ensures ValidPred(q) {
        var i :| 0 <= i < |ps| && ps[i] == q;
      }
    }
    forall i | 0 <= i < |ps| ensures ps[i] in ps {
    }
  }

  lemma {:induction false} DotSplits(path: string)
    ensures '.' in path <==> |SplitDots(path)| >= 2
  {
    if path != [] {
      DotSplits(path[1..]);
      assert path == [path[0]] + path[1..];
    }
  }

  // ---------------------------------------------------------------- losing data

  /** `less` is `more` after removing any fields at any depth, those of objects in lists included; with `drop`,
      after removing any elements of lists as well. */
  ghost predicate Trimmed(less: Json, more: Json, drop: bool)
    decreases more
  {
    || less == more
    || (&& less.Obj? && more.Obj?
        && less.fields.Keys <= more.fields.Keys
        && forall k | k in less.fields :: Trimmed(less.fields[k], more.fields[k], drop))
    || (less.Arr? && more.Arr? && TrimmedLists(less.items, more.items, drop))
  }

  ghost predicate TrimmedLists(less: seq<Json>, more: seq<Json>, drop: bool)
    decreases more
  {
    if more == [] then less == []
    else
      || (less != [] && Trimmed(less[0], more[0], drop) && TrimmedLists(less[1..], more[1..], drop))
      || (drop && TrimmedLists(less, more[1..], drop))
  }

  /** A value with nothing to lose: no non-empty object occurs in it at any depth, and if elements can be lost
      it is no non-empty list. */
  predicate Solid(j: Json, drop: bool) {
    match j
    case Obj(fields) => fields == map[]
    case Arr(items) => (drop ==> items == []) && forall i | 0 <= i < |items| :: Solid(items[i], drop)
    case _ => true
  }

  /** Every field the predicate reads is solid where the sample has it. */
  predicate ReadsSolid(p: Pred, sample: Json, drop: bool) {
    forall f | f in Fields(p) :: SolidAt(sample, f, drop)
  }

  predicate SolidAt(sample: Json, field: string, drop: bool) {
    match GetParts(sample, SplitDots(field))
    case None => true
    case Some(j) => Solid(j, drop)
  }

  lemma {:induction false} SolidStays(less: Json, more: Json, drop: bool)
    requires Solid(more, drop) && Trimmed(less, more, drop)
    ensures less == more
    decreases more
  {
    if less != more && more.Arr? {
      SolidListStays(less.items, more.items, drop);
    }
  }

  lemma {:induction false} SolidListStays(less: seq<Json>, more: seq<Json>, drop: bool)
    requires TrimmedLists(less, more, drop)
    requires (drop ==> more == []) && forall i | 0 <= i < |more| :: Solid(more[i], drop)
    ensures less == more
    decreases more
  {
    if more != [] {
      SolidStays(less[0], more[0], drop);
      SolidListStays(less[1..], more[1..], drop);
      assert less == [less[0]] + less[1..] && more == [more[0]] + more[1..];
    }
  }

  /** A value that is not solid, after losing something. */
  function Lessened(j: Json, drop: bool): Json
    requires !Solid(j, drop)
  {
    match j
    case Obj(_) => Obj(map[])
    case Arr(items) => if drop then Arr([]) else Arr(LessenedList(items, drop))
  }

  function LessenedList(items: seq<Json>, drop: bool): seq<Json>
    requires exists i :: 0 <= i < |items| && !Solid(items[i], drop)
  {
    if !Solid(items[0], drop) then [Lessened(items[0], drop)] + items[1..]
    else
      assert exists i :: 0 <= i < |items[1..]| && !Solid(items[1..][i], drop) by {
        var i :| 0 <= i < |items| && !Solid(items[i], drop);
        assert items[1..][i - 1] == items[i];
      }
      [items[0]] + LessenedList(items[1..], drop)
  }

  lemma {:induction false} ListReflexive(items: seq<Json>, drop: bool)
    ensures TrimmedLists(items, items, drop)
  {
    if items != [] {
      ListReflexive(items[1..], drop);
    }
  }

  lemma {:induction false} ListDropped(items: seq<Json>)
    ensures TrimmedLists([], items, true)
  {
    if items != [] {
      ListDropped(items[1..]);
    }
  }

  lemma {:induction false} LessenedIsLess(j: Json, drop: bool)
    requires !Solid(j, drop)
    ensures Trimmed(Lessened(j, drop), j, drop) && Lessened(j, drop) != j
    decreases j
  {
    match j
    case Obj(_) =>
    case Arr(items) =>
      if drop {
        ListDropped(items);
        if items == [] {
          assert false;
        }
      } else {
        LessenedListIsLess(items, drop);
      }
  }

  lemma {:induction false} LessenedListIsLess(items: seq<Json>, drop: bool)
    requires exists i :: 0 <= i < |items| && !Solid(items[i], drop)
    ensures TrimmedLists(LessenedList(items, drop), items, drop) && LessenedList(items, drop) != items
    decreases items
  {
    var r := LessenedList(items, drop);
    if !Solid(items[0], drop) {
      LessenedIsLess(items[0], drop);
      ListReflexive(items[1..], drop);
      assert r[1..] == items[1..] && r[0] != items[0];
    } else {
      var i :| 0 <= i < |items| && !Solid(items[i], drop);
      assert items[1..][i - 1] == items[i];
      LessenedListIsLess(items[1..], drop);
      assert r[1..] == LessenedList(items[1..], drop);
    }
  }

  /** Solid values are exactly those that nothing can be removed from. */
  lemma {:induction false} SolidIff(j: Json, drop: bool)
    ensures Solid(j, drop) <==> forall less | Trimmed(less, j, drop) :: less == j
  {
    if Solid(j, drop) {
      forall less | Trimmed(less, j, drop) ensures less == j {
        SolidStays(less, j, drop);
      }
    } else {
      var less := Lessened(j, drop);
      LessenedIsLess(j, drop);
      assert Trimmed(less, j, drop) && less != j;
    }
  }

  lemma {:induction false} TrimmedGet(less: Json, more: Json, drop: bool, parts: seq<string>)
    requires Trimmed(less, more, drop)
    ensures GetParts(less, parts).Some? ==>
      GetParts(more, parts).Some? && Trimmed(GetParts(less, parts).value, GetParts(more, parts).value, drop)
  {
    if parts != [] && less.Obj? && parts[0] in less.fields {
      if less != more {
        TrimmedGet(less.fields[parts[0]], more.fields[parts[0]], drop, parts[1..]);
      }
    }
  }

  /** Missing data never confirms recovery: removing fields anywhere in a sample, and elements of lists, cannot
      turn a predicate over solid fields from False to True, whatever its nesting and operators
      (`ne` included). */
  lemma {:induction false} LosingDataNeverConfirms(p: Pred, less: Json, more: Json, drop: bool, param: Params)
    requires Trimmed(less, more, drop)
    requires ReadsSolid(p, more, drop)
    ensures Evaluate(p, less, param) ==> Evaluate(p, more, param)
  {
    match p
    case Leaf(field, op, value) =>
      TrimmedGet(less, more, drop, SplitDots(field));
      assert field in Fields(p);
      if GetParts(less, SplitDots(field)).Some? {
        SolidStays(GetParts(less, SplitDots(field)).value, GetParts(more, SplitDots(field)).value, drop);
      }
    case AllOf(ps) =>
      forall i | 0 <= i < |ps| ensures Evaluate(ps[i], less, param) ==> Evaluate(ps[i], more, param) {
        assert Fields(ps[i]) <= Fields(p);
        LosingDataNeverConfirms(ps[i], less, more, drop, param);
      }
    case AnyOf(ps) =>
      forall i | 0 <= i < |ps| ensures Evaluate(ps[i], less, param) ==> Evaluate(ps[i], more, param) {
        assert Fields(ps[i]) <= Fields(p);
        LosingDataNeverConfirms(ps[i], less, more, drop, param);
      }
  }

  /** The sample with another value at this path. */
  function Replaced(cur: Json, parts: seq<string>, j: Json): Json {
    if parts == [] then j
    else if cur.Obj? && parts[0] in cur.fields then
      Obj(cur.fields[parts[0] := Replaced(cur.fields[parts[0]], parts[1..], j)])
    else cur
  }

  lemma {:induction false} ReplacedIsTrimmed(cur: Json, parts: seq<string>, j: Json, drop: bool)
    requires GetParts(cur, parts).Some? && Trimmed(j, GetParts(cur, parts).value, drop)
    ensures Trimmed(Replaced(cur, parts, j), cur, drop) && GetParts(Replaced(cur, parts, j), parts) == Some(j)
  {
    if parts != [] {
      ReplacedIsTrimmed(cur.fields[parts[0]], parts[1..], j, drop);
    }
  }

  /** A literal in a rule cannot look like a reference into the register. */
  predicate Expressible(v: Value) {
    v.Literal? ==> !(v.j.Obj? && "param" in v.j.fields)
  }

  /** Removing data anywhere in the sample never makes a leaf on this field true. */
  ghost predicate LeafNeverConfirmed(field: string, more: Json, drop: bool, param: Params) {
    forall less, op, value |
      Trimmed(less, more, drop) && Expressible(value) && Evaluate(Leaf(field, op, value), less, param) ::
        Evaluate(Leaf(field, op, value), more, param)
  }

  /** Solidity is exactly what is needed: a field is safe under every operator and value if and only if it has
      nothing to lose. */
  lemma {:induction false} SafeFieldsAreSolid(field: string, more: Json, drop: bool, param: Params)
    ensures LeafNeverConfirmed(field, more, drop, param) <==> SolidAt(more, field, drop)
  {
    var parts := SplitDots(field);
    if SolidAt(more, field, drop) {
      forall less, op, value |
        Trimmed(less, more, drop) && Expressible(value) && Evaluate(Leaf(field, op, value), less, param)
        ensures Evaluate(Leaf(field, op, value), more, param)
      {
        LosingDataNeverConfirms(Leaf(field, op, value), less, more, drop, param);
      }
    } else {
      var j := Lessened(GetParts(more, parts).value, drop);
      LessenedIsLess(GetParts(more, parts).value, drop);
      ReplacedIsTrimmed(more, parts, j, drop);
      var less, value := Replaced(more, parts, j), Literal(j);
      assert Expressible(value);
      assert Evaluate(Leaf(field, Eq, value), less, param);
      assert !Evaluate(Leaf(field, Eq, value), more, param);
    }
  }

  /** When a `ne` leaf that is False can become True: exactly when the field has something to lose. */
  lemma {:induction false} NotEqualFlipsIff(field: string, value: Value, more: Json, drop: bool, param: Params)
    requires GetParts(more, SplitDots(field)).Some? && !Evaluate(Leaf(field, Ne, value), more, param)
    ensures (exists less :: Trimmed(less, more, drop) && Evaluate(Leaf(field, Ne, value), less, param)) <==>
      !SolidAt(more, field, drop)
  {
    var parts := SplitDots(field);
    if SolidAt(more, field, drop) {
      forall less | Trimmed(less, more, drop) ensures !Evaluate(Leaf(field, Ne, value), less, param) {
        LosingDataNeverConfirms(Leaf(field, Ne, value), less, more, drop, param);
      }
    } else {
      var j := Lessened(GetParts(more, parts).value, drop);
      LessenedIsLess(GetParts(more, parts).value, drop);
      ReplacedIsTrimmed(more, parts, j, drop);
      assert Evaluate(Leaf(field, Ne, value), Replaced(more, parts, j), param);
    }
  }

  lemma {:induction false} SplitAtDot(a: string, b: string)
    requires forall i | 0 <= i < |a| :: a[i] != '.'
    ensures SplitDots(a + "." + b) == [a] + SplitDots(b)
  {
    if a == [] {
      assert (a + "." + b)[1..] == b;
    } else {
      SplitAtDot(a[1..], b);
      assert (a + "." + b)[1..] == a[1..] + "." + b;
      assert a == [a[0]] + a[1..];
    }
  }

  lemma {:induction false} DotFree(a: string)
    requires forall i | 0 <= i < |a| :: a[i] != '.'
    ensures SplitDots(a) == [a]
  {
    if a != [] {
      DotFree(a[1..]);
      assert a == [a[0]] + a[1..];
    }
  }

  /** A sample with one command's result, which lists one file. */
  function Listing(command: string, kind: string, file: map<string, Json>): Json {
    Obj(map[command := Obj(map[kind := Arr([Obj(file)])])])
  }

  lemma {:induction false} ListingGet(command: string, kind: string, file: map<string, Json>)
    ensures GetParts(Listing(command, kind, file), [command, kind]) == Some(Arr([Obj(file)]))
  {
    var inner := Obj(map[kind := Arr([Obj(file)])]);
    assert [command, kind][1..] == [kind] && [kind][1..] == [];
    assert GetParts(inner, [kind]) == GetParts(Arr([Obj(file)]), []);
  }

  lemma {:induction false} ListingTrimmed(command: string, kind: string, file: map<string, Json>, lost: string)
    ensures Trimmed(Listing(command, kind, file - {lost}), Listing(command, kind, file), false)
  {
    var less := file - {lost};
    assert Trimmed(Obj(less), Obj(file), false);
    assert TrimmedLists([Obj(less)], [Obj(file)], false);
    assert Trimmed(Arr([Obj(less)]), Arr([Obj(file)]), false);
    assert Trimmed(Obj(map[kind := Arr([Obj(less)])]), Obj(map[kind := Arr([Obj(file)])]), false);
  }

  /** Lists are no exception: a listed file that loses any of its fields (`mtime`, say, in the tower files of
      `consensus_state_files`) makes a `ne` leaf on the list true. */
  lemma {:induction false} ListedLossConfirms(command: string, kind: string, file: map<string, Json>, lost: string,
      param: Params)
    requires lost in file
    requires (forall i | 0 <= i < |command| :: command[i] != '.') && (forall i | 0 <= i < |kind| :: kind[i] != '.')
    ensures var p := Leaf(command + "." + kind, Ne, Literal(Arr([Obj(file)])));
      && Trimmed(Listing(command, kind, file - {lost}), Listing(command, kind, file), false)
      && Evaluate(p, Listing(command, kind, file - {lost}), param)
      && !Evaluate(p, Listing(command, kind, file), param)
  {
    hide SplitDots, GetParts, Trimmed, Listing;
    var less := file - {lost};
    ListingTrimmed(command, kind, file, lost);
    SplitAtDot(command, kind);
    DotFree(kind);
    assert [command] + [kind] == [command, kind];
    ListingGet(command, kind, file);
    ListingGet(command, kind, less);
    assert lost !in less;
    assert [Obj(less)][0] != [Obj(file)][0];
  }

  /** A sample without any data satisfies no valid predicate. */
  lemma {:induction false} NoDataNeverHolds(p: Pred, param: Params)
    requires ValidPred(p)
    ensures !Evaluate(p, Obj(map[]), param)
  {
    match p
    case Leaf(field, _, _) =>
    case AllOf(ps) => NoDataNeverHolds(ps[0], param);
    case AnyOf(ps) =>
      forall i | 0 <= i < |ps| ensures !Evaluate(ps[i], Obj(map[]), param) {
        NoDataNeverHolds(ps[i], param);
      }
  }

  /** Without validation it would: an empty conjunction holds of anything. */
  lemma {:induction false} EmptyConjunctionHolds(sample: Json, param: Params)
    ensures Evaluate(AllOf([]), sample, param) && !ValidPred(AllOf([]))
  {
  }

  /** `_fields` is complete: the verdict depends on nothing else, which is why checking those
      fields against the sampled commands is enough. */
  lemma {:induction false} DependsOnlyOnFields(p: Pred, a: Json, b: Json, param: Params)
    requires forall f | f in Fields(p) :: GetParts(a, SplitDots(f)) == GetParts(b, SplitDots(f))
    ensures Evaluate(p, a, param) == Evaluate(p, b, param)
  {
    match p
    case Leaf(field, _, _) =>
      assert field in Fields(p);
    case AllOf(ps) =>
      forall i | 0 <= i < |ps| ensures Evaluate(ps[i], a, param) == Evaluate(ps[i], b, param) {
        assert Fields(ps[i]) <= Fields(p);
        DependsOnlyOnFields(ps[i], a, b, param);
      }
    case AnyOf(ps) =>
      forall i | 0 <= i < |ps| ensures Evaluate(ps[i], a, param) == Evaluate(ps[i], b, param) {
        assert Fields(ps[i]) <= Fields(p);
        DependsOnlyOnFields(ps[i], a, b, param);
      }
  }
}
