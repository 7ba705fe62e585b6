/**
 The worker's bounded copy of a Python value (`src/repl_mcp/native_worker.py`,
 `safe_value`): exact builtin types only, a depth limit, size limits and one
 budget of nodes shared by the whole value.
 */
module SafeValue {
  import opened Outcomes
  import opened Text

  const DEPTH_LIMIT: nat := 5
  const ITEM_LIMIT: nat := 100
  const STRING_LIMIT: nat := 2000
  const INT_BITS: nat := 4096
  const NODE_BUDGET: nat := 100

  /** A dictionary key or a variable name: a string, or some other hashable object. */
  datatype Key = Name(text: Text) | Object(id: nat)

  datatype Pair = Pair(key: Key, value: Value)

  /**
   `plain` is set on exact lists and dictionaries, as JSON gives them back; a
   tuple, a history result or a bridge result is converted to one. Custom is
   every type that is never inspected.
   */
  datatype Value =
    | Null
    | Boolean(value: bool)
    | Integer(number: int)
    | Float(finite: real)
    | NonFinite
    | Str(text: Text)
    | List(plain: bool, items: seq<Value>)
    | Dict(plain: bool, pairs: seq<Pair>)
    | Custom(id: nat)

  function BitLength(n: nat): nat {
    if n == 0 then 0 else 1 + BitLength(n / 2)
  }

  predicate SmallInteger(n: int) {
    BitLength(if n < 0 then -n else n) <= INT_BITS
  }

  // ----- dictionaries as association lists -----

  predicate HasKey(ps: seq<Pair>, k: Key) {
    exists i :: 0 <= i < |ps| && ps[i].key == k
  }

  predicate DistinctKeys(ps: seq<Pair>) {
    forall i, j :: 0 <= i < j < |ps| ==> ps[i].key != ps[j].key
  }

  /** Assignment to a key: an existing key keeps its place and takes the new value. */
  function Put(ps: seq<Pair>, p: Pair): (r: seq<Pair>)
    ensures forall x :: x in r ==> x == p || x in ps
    ensures p in r && |r| <= |ps| + 1 && (!HasKey(ps, p.key) ==> r == ps + [p])
  {
    if ps == [] then [p]
    else if ps[0].key == p.key then [p] + ps[1..]
    else
      assert HasKey(ps[1..], p.key) ==> HasKey(ps, p.key) by {
        if i :| 0 <= i < |ps[1..]| && ps[1..][i].key == p.key { assert ps[i + 1].key == p.key; }
      }
      [ps[0]] + Put(ps[1..], p)
  }

  function Collapse(ps: seq<Pair>): (r: seq<Pair>)
    ensures |r| <= |ps|
    ensures forall x :: x in r ==> x in ps
  {
    if ps == [] then [] else Put(Collapse(ps[..|ps| - 1]), ps[|ps| - 1])
  }

  function Lookup(ps: seq<Pair>, k: Key): Option<Value> {
    if ps == [] then None
    else if ps[0].key == k then Some(ps[0].value)
    else Lookup(ps[1..], k)
  }

  lemma {:induction false} LookupPut(ps: seq<Pair>, p: Pair, k: Key)
    ensures Lookup(Put(ps, p), k) == if k == p.key then Some(p.value) else Lookup(ps, k)
  {
    if ps != [] {
      if ps[0].key == p.key {
        assert ([p] + ps[1..])[1..] == ps[1..];
      } else {
        LookupPut(ps[1..], p, k);
        assert ([ps[0]] + Put(ps[1..], p))[1..] == Put(ps[1..], p);
      }
    }
  }

  lemma {:induction false} LookupHas(ps: seq<Pair>, k: Key)
    ensures Lookup(ps, k).Some? <==> HasKey(ps, k)
    ensures Lookup(ps, k).Some? ==> Pair(k, Lookup(ps, k).value) in ps
  {
    if ps != [] {
      LookupHas(ps[1..], k);
      if ps[0].key == k { assert ps[0] == Pair(k, ps[0].value); }
      else if i :| 0 <= i < |ps| && ps[i].key == k { assert ps[1..][i - 1].key == k; }
    }
  }

  lemma {:induction false} LookupMember(ps: seq<Pair>, p: Pair)
    requires DistinctKeys(ps) && p in ps
    ensures Lookup(ps, p.key) == Some(p.value)
  {
    if ps[0] != p {
      var i :| 0 <= i < |ps| && ps[i] == p;
      assert ps[0].key != ps[i].key && ps[1..][i - 1] == p;
      LookupMember(ps[1..], p);
    }
  }

  lemma {:induction false} KeysOfPut(ps: seq<Pair>, p: Pair, k: Key)
    ensures HasKey(Put(ps, p), k) <==> k == p.key || HasKey(ps, k)
  {
    LookupPut(ps, p, k);
    LookupHas(ps, k);
    LookupHas(Put(ps, p), k);
  }

  lemma HeadIsNew(ps: seq<Pair>, p: Pair)
    requires ps != [] && DistinctKeys(ps) && ps[0].key != p.key
    ensures !HasKey(Put(ps[1..], p), ps[0].key)
  {
    KeysOfPut(ps[1..], p, ps[0].key);
    forall i | 0 <= i < |ps[1..]| ensures ps[1..][i].key != ps[0].key { assert ps[1..][i] == ps[i + 1]; }
  }

  lemma {:induction false} PutDistinct(ps: seq<Pair>, p: Pair)
    requires DistinctKeys(ps)
    ensures DistinctKeys(Put(ps, p))
  {
    if ps != [] && ps[0].key != p.key {
      PutDistinct(ps[1..], p);
      HeadIsNew(ps, p);
      ConsDistinct(ps[0], Put(ps[1..], p));
    } else if ps != [] {
      forall j | 1 <= j < |ps| ensures ps[j].key != p.key { assert ps[0].key != ps[j].key; }
    }
  }

  lemma ConsDistinct(p: Pair, rest: seq<Pair>)
    requires DistinctKeys(rest) && !HasKey(rest, p.key)
    ensures DistinctKeys([p] + rest)
  {
    forall i, j | 0 <= i < j < |rest| + 1 ensures ([p] + rest)[i].key != ([p] + rest)[j].key {
      assert ([p] + rest)[j] == rest[j - 1];
      if i > 0 { assert ([p] + rest)[i] == rest[i - 1]; }
    }
  }

  lemma {:induction false} CollapseDistinct(ps: seq<Pair>)
    ensures DistinctKeys(Collapse(ps))
    ensures DistinctKeys(ps) ==> Collapse(ps) == ps
  {
    if ps != [] {
      var n := |ps| - 1;
      var before, p := ps[..n], ps[n];
      CollapseDistinct(before);
      PutDistinct(Collapse(before), p);
      if DistinctKeys(ps) {
        assert DistinctKeys(before);
        assert !HasKey(before, p.key);
        assert ps == before + [p];
      }
    }
  }

  lemma {:induction false} PutLength(ps: seq<Pair>, p: Pair)
    ensures |Put(ps, p)| == if HasKey(ps, p.key) then |ps| else |ps| + 1
  {
    if ps != [] && ps[0].key != p.key {
      PutLength(ps[1..], p);
      if i :| 0 <= i < |ps| && ps[i].key == p.key { assert ps[1..][i - 1].key == p.key; }
      if i :| 0 <= i < |ps[1..]| && ps[1..][i].key == p.key { assert ps[i + 1].key == p.key; }
    }
  }

  lemma HasKeyLast(ps: seq<Pair>, k: Key)
    requires ps != []
    ensures HasKey(ps, k) <==> k == ps[|ps| - 1].key || HasKey(ps[..|ps| - 1], k)
  {
    var n := |ps| - 1;
    if i :| 0 <= i < |ps| && ps[i].key == k { assert i < n ==> ps[..n][i].key == k; }
    if i :| 0 <= i < n && ps[..n][i].key == k { assert ps[i].key == k; }
  }

  lemma {:induction false} CollapseKeys(ps: seq<Pair>, k: Key)
    ensures HasKey(Collapse(ps), k) <==> HasKey(ps, k)
  {
    if ps != [] {
      var n := |ps| - 1;
      CollapseKeys(ps[..n], k);
      KeysOfPut(Collapse(ps[..n]), ps[n], k);
      HasKeyLast(ps, k);
    }
  }

  lemma DistinctLast(ps: seq<Pair>)
    requires ps != []
    ensures DistinctKeys(ps) <==> DistinctKeys(ps[..|ps| - 1]) && !HasKey(ps[..|ps| - 1], ps[|ps| - 1].key)
  {
    var n := |ps| - 1;
    if DistinctKeys(ps) {
      forall i | 0 <= i < n ensures ps[..n][i].key != ps[n].key { assert ps[i].key != ps[n].key; }
    } else {
      var i, j :| 0 <= i < j < |ps| && ps[i].key == ps[j].key;
      assert ps[..n][i].key == ps[i].key;
      if j < n { assert ps[..n][j].key == ps[j].key; }
    }
  }

  /** Merging loses nothing exactly when no two pairs share a key. */
  lemma {:induction false} CollapseKeepsAll(ps: seq<Pair>)
    ensures |Collapse(ps)| == |ps| <==> DistinctKeys(ps)
  {
    if ps != [] {
      var n := |ps| - 1;
      CollapseKeepsAll(ps[..n]);
      CollapseKeys(ps[..n], ps[n].key);
      PutLength(Collapse(ps[..n]), ps[n]);
      DistinctLast(ps);
    }
  }

  // ----- the conversion -----

  /** safe_value with its shared budget threaded through; None is its ValueError. */
  function Safe(v: Value, depth: nat, budget: int): Option<(Value, int)>
    decreases v
  {
    if budget - 1 < 0 || depth > DEPTH_LIMIT then None
    else match v
      case Null => Some((v, budget - 1))
      case Boolean(_) => Some((v, budget - 1))
      case Integer(n) => if SmallInteger(n) then Some((v, budget - 1)) else None
      case Float(_) => Some((v, budget - 1))
      case NonFinite => None
      case Str(t) => if |t| <= STRING_LIMIT then Some((Str(Clean(t)), budget - 1)) else None
      case Custom(_) => None
      case List(_, items) =>
        if |items| > ITEM_LIMIT then None
        else (match SafeItems(items, depth + 1, budget - 1)
              case None => None
              case Some(r) => Some((List(true, r.0), r.1)))
      case Dict(_, pairs) =>
        if |pairs| > ITEM_LIMIT || (exists i :: 0 <= i < |pairs| && !pairs[i].key.Name?) then None
        else match SafePairs(pairs, depth + 1, budget - 1)
          case None => None
          case Some(r) => Some((Dict(true, Collapse(r.0)), r.1))
  }

  function SafeItems(items: seq<Value>, depth: nat, budget: int): Option<(seq<Value>, int)>
    decreases items
  {
    if items == [] then Some(([], budget))
    else match Safe(items[0], depth, budget)
      case None => None
      case Some(first) =>
        match SafeItems(items[1..], depth, first.1)
        case None => None
        case Some(rest) => Some(([first.0] + rest.0, rest.1))
  }

  function SafePairs(pairs: seq<Pair>, depth: nat, budget: int): Option<(seq<Pair>, int)>
    decreases pairs
  {
    if pairs == [] then Some(([], budget))
    else match SafePair(pairs[0], depth, budget)
      case None => None
      case Some(first) =>
        match SafePairs(pairs[1..], depth, first.1)
        case None => None
        case Some(rest) => Some(([first.0] + rest.0, rest.1))
  }

  /** A key is converted, and charged for, before its value. */
  function SafePair(p: Pair, depth: nat, budget: int): Option<(Pair, int)>
    decreases p
  {
    if budget - 1 < 0 || depth > DEPTH_LIMIT || !p.key.Name? || |p.key.text| > STRING_LIMIT then None
    else match Safe(p.value, depth, budget - 1)
      case None => None
      case Some(r) => Some((Pair(Name(Clean(p.key.text)), r.0), r.1))
  }

  // ----- what it means -----

  /** The depth, type and size limits, apart from the shared budget. */
  predicate Shape(v: Value, depth: nat)
    decreases v
  {
    depth <= DEPTH_LIMIT &&
    match v
    case Integer(n) => SmallInteger(n)
    case NonFinite => false
    case Str(t) => |t| <= STRING_LIMIT
    case List(_, items) => |items| <= ITEM_LIMIT && ShapeItems(items, depth + 1)
    case Dict(_, pairs) => |pairs| <= ITEM_LIMIT && ShapePairs(pairs, depth + 1)
    case Custom(_) => false
    case _ => true
  }

  predicate ShapeItems(items: seq<Value>, depth: nat)
    decreases items
  {
    forall i :: 0 <= i < |items| ==> Shape(items[i], depth)
  }

  predicate ShapePairs(pairs: seq<Pair>, depth: nat)
    decreases pairs
  {
    forall i :: 0 <= i < |pairs| ==> ShapePair(pairs[i], depth)
  }

  predicate ShapePair(p: Pair, depth: nat)
    decreases p
  {
    depth <= DEPTH_LIMIT && p.key.Name? && |p.key.text| <= STRING_LIMIT && Shape(p.value, depth)
  }

  /** The nodes a value is charged for: itself, its parts, and each key of a dictionary. */
  function Nodes(v: Value): (n: nat)
    ensures n >= 1
    decreases v
  {
    1 + match v
        case List(_, items) => NodesOfItems(items)
        case Dict(_, pairs) => NodesOfPairs(pairs)
        case _ => 0
  }

  function NodesOfItems(items: seq<Value>): nat
    decreases items
  {
    if items == [] then 0 else Nodes(items[0]) + NodesOfItems(items[1..])
  }

  function NodesOfPairs(pairs: seq<Pair>): nat
    decreases pairs
  {
    if pairs == [] then 0 else NodesOfPair(pairs[0]) + NodesOfPairs(pairs[1..])
  }

  function NodesOfPair(p: Pair): nat
    decreases p
  {
    1 + Nodes(p.value)
  }

  /** The JSON-safe value: strings cleaned, sequences lists, keys that clean alike merged. */
  function Normal(v: Value): Value
    decreases v
  {
    match v
    case Str(t) => Str(Clean(t))
    case List(_, items) => List(true, NormalItems(items))
    case Dict(_, pairs) => Dict(true, Collapse(NormalPairs(pairs)))
    case _ => v
  }

  function NormalItems(items: seq<Value>): (r: seq<Value>)
    ensures |r| == |items| && forall i :: 0 <= i < |items| ==> r[i] == Normal(items[i])
    decreases items
  {
    if items == [] then [] else [Normal(items[0])] + NormalItems(items[1..])
  }

  function NormalPairs(pairs: seq<Pair>): (r: seq<Pair>)
    ensures |r| == |pairs| && forall i :: 0 <= i < |pairs| ==> r[i] == NormalPair(pairs[i])
    decreases pairs
  {
    if pairs == [] then [] else [NormalPair(pairs[0])] + NormalPairs(pairs[1..])
  }

  function NormalKey(k: Key): Key {
    if k.Name? then Name(Clean(k.text)) else k
  }

  function NormalPair(p: Pair): Pair
    decreases p
  {
    Pair(NormalKey(p.key), Normal(p.value))
  }

  function Within<T>(ok: bool, nodes: nat, budget: int, r: T): Option<(T, int)> {
    if ok && nodes <= budget then Some((r, budget - nodes)) else None
  }

  lemma SafeLeaf(v: Value, depth: nat, budget: int)
    requires !v.List? && !v.Dict?
    ensures Safe(v, depth, budget) == Within(Shape(v, depth), Nodes(v), budget, Normal(v))
  {}

  lemma SafeList(v: Value, depth: nat, budget: int)
    requires v.List?
    requires budget >= 1 ==>
               SafeItems(v.items, depth + 1, budget - 1)
               == Within(ShapeItems(v.items, depth + 1), NodesOfItems(v.items), budget - 1, NormalItems(v.items))
    ensures Safe(v, depth, budget) == Within(Shape(v, depth), Nodes(v), budget, Normal(v))
  {}

  lemma SafeDict(v: Value, depth: nat, budget: int)
    requires v.Dict?
    requires budget >= 1 ==>
               SafePairs(v.pairs, depth + 1, budget - 1)
               == Within(ShapePairs(v.pairs, depth + 1), NodesOfPairs(v.pairs), budget - 1, NormalPairs(v.pairs))
    ensures Safe(v, depth, budget) == Within(Shape(v, depth), Nodes(v), budget, Normal(v))
  {
    if ShapePairs(v.pairs, depth + 1) { NamedWhenShaped(v.pairs, depth + 1); }
  }

  lemma NamedWhenShaped(pairs: seq<Pair>, depth: nat)
    requires ShapePairs(pairs, depth)
    ensures forall i :: 0 <= i < |pairs| ==> pairs[i].key.Name?
  {
    forall i | 0 <= i < |pairs| ensures pairs[i].key.Name? { assert ShapePair(pairs[i], depth); }
  }

  /**
   The conversion succeeds exactly on values of the right shape whose nodes fit
   the budget; it then returns the normal form and has charged for each node.
   */
  lemma {:induction false} SafeExact(v: Value, depth: nat, budget: int)
    ensures Safe(v, depth, budget) == Within(Shape(v, depth), Nodes(v), budget, Normal(v))
    decreases v
  {
    if v.List? {
      if budget >= 1 { SafeItemsExact(v.items, depth + 1, budget - 1); }
      SafeList(v, depth, budget);
    } else if v.Dict? {
      if budget >= 1 { SafePairsExact(v.pairs, depth + 1, budget - 1); }
      SafeDict(v, depth, budget);
    } else {
      SafeLeaf(v, depth, budget);
    }
  }

  lemma {:induction false} SafeItemsExact(items: seq<Value>, depth: nat, budget: int)
    requires budget >= 0
    ensures SafeItems(items, depth, budget) ==
            Within(ShapeItems(items, depth), NodesOfItems(items), budget, NormalItems(items))
    decreases items
  {
    if items != [] {
      var first, rest := items[0], items[1..];
      SafeExact(first, depth, budget);
      if Nodes(first) <= budget { SafeItemsExact(rest, depth, budget - Nodes(first)); }
      SafeItemsStep(items, depth, budget);
    } else {
      SafeNoItems(depth, budget);
    }
  }

  lemma SafeNoItems(depth: nat, budget: int)
    requires budget >= 0
    ensures SafeItems([], depth, budget) == Within(ShapeItems([], depth), NodesOfItems([]), budget, NormalItems([]))
  {}

  lemma SafeItemsStep(items: seq<Value>, depth: nat, budget: int)
    requires items != []
    requires Safe(items[0], depth, budget)
             == Within(Shape(items[0], depth), Nodes(items[0]), budget, Normal(items[0]))
    requires Nodes(items[0]) <= budget ==>
               var rest, left := items[1..], budget - Nodes(items[0]);
               SafeItems(rest, depth, left)
               == Within(ShapeItems(rest, depth), NodesOfItems(rest), left, NormalItems(rest))
    ensures SafeItems(items, depth, budget) ==
            Within(ShapeItems(items, depth), NodesOfItems(items), budget, NormalItems(items))
  {
    ItemsShapeSplit(items, depth);
  }

  lemma ItemsShapeSplit(items: seq<Value>, depth: nat)
    requires items != []
    ensures ShapeItems(items, depth) <==> Shape(items[0], depth) && ShapeItems(items[1..], depth)
  {
    if Shape(items[0], depth) && ShapeItems(items[1..], depth) {
      forall i | 0 <= i < |items| ensures Shape(items[i], depth) {
        if i > 0 { assert items[1..][i - 1] == items[i]; }
      }
    }
  }

  lemma {:induction false} SafePairsExact(pairs: seq<Pair>, depth: nat, budget: int)
    requires budget >= 0
    ensures SafePairs(pairs, depth, budget) ==
            Within(ShapePairs(pairs, depth), NodesOfPairs(pairs), budget, NormalPairs(pairs))
    decreases pairs
  {
    if pairs != [] {
      SafePairExact(pairs[0], depth, budget);
      PairsShapeSplit(pairs, depth);
      if SafePair(pairs[0], depth, budget).Some? {
        SafePairsExact(pairs[1..], depth, budget - NodesOfPair(pairs[0]));
      }
    }
  }

  lemma {:induction false} SafePairExact(p: Pair, depth: nat, budget: int)
    ensures SafePair(p, depth, budget) == Within(ShapePair(p, depth), NodesOfPair(p), budget, NormalPair(p))
    decreases p
  {
    SafeExact(p.value, depth, budget - 1);
  }

  lemma PairsShapeSplit(pairs: seq<Pair>, depth: nat)
    requires pairs != []
    ensures ShapePairs(pairs, depth) <==> ShapePair(pairs[0], depth) && ShapePairs(pairs[1..], depth)
  {
    if ShapePair(pairs[0], depth) && ShapePairs(pairs[1..], depth) {
      forall i | 0 <= i < |pairs| ensures ShapePair(pairs[i], depth) {
        if i > 0 { assert pairs[1..][i - 1] == pairs[i]; }
      }
    }
  }

  /** No two of these keys are the same once cleaned. */
  predicate CleanKeysDiffer(pairs: seq<Pair>) {
    forall i, j :: 0 <= i < j < |pairs| ==> NormalKey(pairs[i].key) != NormalKey(pairs[j].key)
  }

  lemma DistinctWhenClean(pairs: seq<Pair>)
    ensures CleanKeysDiffer(pairs) <==> DistinctKeys(NormalPairs(pairs))
  {
    var ps := NormalPairs(pairs);
    forall i | 0 <= i < |pairs| ensures ps[i].key == NormalKey(pairs[i].key) {
      assert ps[i] == NormalPair(pairs[i]);
    }
    if CleanKeysDiffer(pairs) {
      forall i, j | 0 <= i < j < |ps| ensures ps[i].key != ps[j].key {
        assert NormalKey(pairs[i].key) != NormalKey(pairs[j].key);
      }
    }
  }

  lemma NormalOfDict(plain: bool, pairs: seq<Pair>)
    ensures Normal(Dict(plain, pairs)) == Dict(true, Collapse(NormalPairs(pairs)))
  {}

  lemma KeepsAllWhenClean(pairs: seq<Pair>)
    ensures var ps := NormalPairs(pairs);
            && (|Collapse(ps)| == |pairs| <==> CleanKeysDiffer(pairs))
            && (CleanKeysDiffer(pairs) ==> Collapse(ps) == ps)
  {
    var ps := NormalPairs(pairs);
    DistinctWhenClean(pairs);
    CollapseKeepsAll(ps);
    if DistinctKeys(ps) { CollapseDistinct(ps); }
  }

  /**
   A converted dictionary keeps all its pairs, each in normal form and in order,
   if and only if its keys stay different when lone surrogates are replaced.
   */
  lemma DictKeepsPairs(plain: bool, pairs: seq<Pair>)
    ensures |Normal(Dict(plain, pairs)).pairs| == |pairs| <==> CleanKeysDiffer(pairs)
    ensures CleanKeysDiffer(pairs) ==> Normal(Dict(plain, pairs)).pairs == NormalPairs(pairs)
  {
    NormalOfDict(plain, pairs);
    KeepsAllWhenClean(pairs);
  }

  // ----- idempotence -----

  lemma CleanTwice(t: Text)
    ensures Clean(Clean(t)) == Clean(t)
  {}

  lemma {:induction false} NormalTwice(v: Value)
    ensures Normal(Normal(v)) == Normal(v)
    decreases v
  {
    match v
    case Str(t) => CleanTwice(t);
    case List(_, items) => ItemsTwice(items);
    case Dict(_, pairs) => PairsTwice(pairs);
    case _ =>
  }

  lemma {:induction false} ItemsTwice(items: seq<Value>)
    ensures NormalItems(NormalItems(items)) == NormalItems(items)
    decreases items
  {
    forall i | 0 <= i < |items| ensures Normal(NormalItems(items)[i]) == NormalItems(items)[i] {
      NormalTwice(items[i]);
    }
  }

  lemma {:induction false} PairsTwice(pairs: seq<Pair>)
    ensures Collapse(NormalPairs(Collapse(NormalPairs(pairs)))) == Collapse(NormalPairs(pairs))
    decreases pairs
  {
    var once := NormalPairs(pairs);
    var c := Collapse(once);
    forall i | 0 <= i < |c| ensures NormalPair(c[i]) == c[i] {
      assert c[i] in once;
      var j :| 0 <= j < |once| && once[j] == c[i];
      PairTwice(pairs[j]);
    }
    assert NormalPairs(c) == c;
    CollapseDistinct(once);
    CollapseDistinct(c);
  }

  lemma {:induction false} PairTwice(p: Pair)
    ensures NormalPair(NormalPair(p)) == NormalPair(p)
    decreases p
  {
    NormalTwice(p.value);
    if p.key.Name? { CleanTwice(p.key.text); }
  }

  lemma {:induction false} NormalShape(v: Value, depth: nat)
    requires Shape(v, depth)
    ensures Shape(Normal(v), depth)
    decreases v
  {
    if v.List? {
      forall i | 0 <= i < |v.items| ensures Shape(NormalItems(v.items)[i], depth + 1) {
        NormalShape(v.items[i], depth + 1);
      }
    } else if v.Dict? {
      NormalShapePairs(v.pairs, depth + 1);
    }
  }

  lemma {:induction false} NormalShapePairs(pairs: seq<Pair>, depth: nat)
    requires ShapePairs(pairs, depth)
    ensures ShapePairs(Collapse(NormalPairs(pairs)), depth)
    decreases pairs
  {
    var once := NormalPairs(pairs);
    var c := Collapse(once);
    forall i | 0 <= i < |c| ensures ShapePair(c[i], depth) {
      assert c[i] in once;
      var j :| 0 <= j < |once| && once[j] == c[i];
      NormalShapePair(pairs[j], depth);
    }
  }

  lemma {:induction false} NormalShapePair(p: Pair, depth: nat)
    requires ShapePair(p, depth)
    ensures ShapePair(NormalPair(p), depth)
    decreases p
  {
    NormalShape(p.value, depth);
  }

  lemma {:induction false} NormalNodes(v: Value)
    ensures Nodes(Normal(v)) <= Nodes(v)
    decreases v
  {
    if v.List? { NormalNodesItems(v.items); }
    if v.Dict? { NormalNodesPairs(v.pairs); CollapseNodes(NormalPairs(v.pairs)); }
  }

  lemma {:induction false} NormalNodesItems(items: seq<Value>)
    ensures NodesOfItems(NormalItems(items)) <= NodesOfItems(items)
    decreases items
  {
    if items != [] {
      NormalNodes(items[0]);
      NormalNodesItems(items[1..]);
      assert NormalItems(items)[1..] == NormalItems(items[1..]);
    }
  }

  lemma {:induction false} NormalNodesPairs(pairs: seq<Pair>)
    ensures NodesOfPairs(NormalPairs(pairs)) <= NodesOfPairs(pairs)
    decreases pairs
  {
    if pairs != [] {
      NormalNodesPair(pairs[0]);
      NormalNodesPairs(pairs[1..]);
      assert NormalPairs(pairs)[1..] == NormalPairs(pairs[1..]);
    }
  }

  lemma {:induction false} NormalNodesPair(p: Pair)
    ensures NodesOfPair(NormalPair(p)) <= NodesOfPair(p)
    decreases p
  {
    NormalNodes(p.value);
  }

  lemma {:induction false} NodesAppend(ps: seq<Pair>, p: Pair)
    ensures NodesOfPairs(ps + [p]) == NodesOfPairs(ps) + NodesOfPair(p)
  {
    if ps == [] {
      assert (ps + [p])[1..] == [];
    } else {
      assert (ps + [p])[1..] == ps[1..] + [p];
      NodesAppend(ps[1..], p);
    }
  }

  lemma {:induction false} PutNodes(ps: seq<Pair>, p: Pair)
    ensures NodesOfPairs(Put(ps, p)) <= NodesOfPairs(ps) + NodesOfPair(p)
  {
    if ps != [] {
      if ps[0].key == p.key {
        assert ([p] + ps[1..])[1..] == ps[1..];
      } else {
        PutNodes(ps[1..], p);
        assert ([ps[0]] + Put(ps[1..], p))[1..] == Put(ps[1..], p);
      }
    }
  }

  lemma {:induction false} CollapseNodes(ps: seq<Pair>)
    ensures NodesOfPairs(Collapse(ps)) <= NodesOfPairs(ps)
  {
    if ps != [] {
      var n := |ps| - 1;
      CollapseNodes(ps[..n]);
      PutNodes(Collapse(ps[..n]), ps[n]);
      assert ps == ps[..n] + [ps[n]];
      NodesAppend(ps[..n], ps[n]);
    }
  }

  /** What the conversion returned it accepts again, at the same depth and budget, unchanged. */
  lemma SafeIdempotent(v: Value, depth: nat, budget: int)
    requires Safe(v, depth, budget).Some?
    ensures var w := Safe(v, depth, budget).value.0;
            Safe(w, depth, budget).Some? && Safe(w, depth, budget).value.0 == w
  {
    SafeExact(v, depth, budget);
    NormalShape(v, depth);
    NormalNodes(v);
    NormalTwice(v);
    SafeExact(Normal(v), depth, budget);
  }
}
