/**
 The broker's limits on schemas and arguments (`native/src/broker.rs`,
 `bounded_json`): one traversal with a shared node counter that stops at the
 first thing over budget.
 */
module BoundedJson {
  import opened Outcomes
  import opened Bytes

  const COMPOSITION_LIMIT: nat := 16
  const PATTERN_LIMIT: nat := 256

  datatype Json =
    | Scalar
    | Text(bytes: seq<Byte>)
    | Array(items: seq<Json>)
    | Object(members: seq<Member>)

  datatype Member = Member(key: string, value: Json)

  datatype Limits = Limits(depth: nat, nodes: nat)

  /** The two checks made on a member before its value is visited. */
  predicate MemberOk(m: Member) {
    && ((m.key == "anyOf" || m.key == "oneOf" || m.key == "allOf") && m.value.Array? ==>
          |m.value.items| <= COMPOSITION_LIMIT)
    && (m.key == "pattern" && m.value.Text? ==> |m.value.bytes| <= PATTERN_LIMIT)
  }

  // ----- the traversal -----

  /** The node counter after visiting a value, or None for any refusal. */
  function Visit(max: Limits, v: Json, depth: nat, nodes: nat): Option<nat>
    decreases v
  {
    if depth > max.depth || nodes + 1 > max.nodes then None
    else match v
      case Object(members) => VisitMembers(max, members, depth + 1, nodes + 1)
      case Array(items) => VisitItems(max, items, depth + 1, nodes + 1)
      case _ => Some(nodes + 1)
  }

  function VisitItems(max: Limits, items: seq<Json>, depth: nat, nodes: nat): Option<nat>
    decreases items
  {
    if items == [] then Some(nodes)
    else match Visit(max, items[0], depth, nodes)
      case None => None
      case Some(n) => VisitItems(max, items[1..], depth, n)
  }

  function VisitMembers(max: Limits, members: seq<Member>, depth: nat, nodes: nat): Option<nat>
    decreases members
  {
    if members == [] then Some(nodes)
    else match VisitMember(max, members[0], depth, nodes)
      case None => None
      case Some(n) => VisitMembers(max, members[1..], depth, n)
  }

  function VisitMember(max: Limits, m: Member, depth: nat, nodes: nat): Option<nat>
    decreases m
  {
    if !MemberOk(m) then None else Visit(max, m.value, depth, nodes)
  }

  /** The whole check, the byte budget first; `width` is the serialised length. */
  predicate Bounded(max: Limits, maxBytes: nat, width: Json -> nat, v: Json) {
    width(v) <= maxBytes && Visit(max, v, 0, 0).Some?
  }

  // ----- what it means -----

  function Max(a: nat, b: nat): nat {
    if a < b then b else a
  }

  function Nodes(v: Json): (n: nat)
    ensures n >= 1
    decreases v
  {
    1 + match v
        case Object(members) => NodesOfMembers(members)
        case Array(items) => NodesOfItems(items)
        case _ => 0
  }

  function NodesOfItems(items: seq<Json>): nat
    decreases items
  {
    if items == [] then 0 else Nodes(items[0]) + NodesOfItems(items[1..])
  }

  function NodesOfMembers(members: seq<Member>): nat
    decreases members
  {
    if members == [] then 0 else NodesOfMember(members[0]) + NodesOfMembers(members[1..])
  }

  function NodesOfMember(m: Member): nat
    decreases m
  {
    Nodes(m.value)
  }

  /** Levels below a value: zero for a leaf and for an empty container. */
  function Height(v: Json): nat
    decreases v
  {
    match v
    case Object(members) => HeightOfMembers(members)
    case Array(items) => HeightOfItems(items)
    case _ => 0
  }

  /** One more than the tallest part, or zero when there is none. */
  function HeightOfItems(items: seq<Json>): nat
    decreases items
  {
    if items == [] then 0 else Max(1 + Height(items[0]), HeightOfItems(items[1..]))
  }

  function HeightOfMembers(members: seq<Member>): nat
    decreases members
  {
    if members == [] then 0 else Max(1 + HeightOfMember(members[0]), HeightOfMembers(members[1..]))
  }

  function HeightOfMember(m: Member): nat
    decreases m
  {
    Height(m.value)
  }

  /** Every member anywhere in the value passes its two checks. */
  predicate Composed(v: Json)
    decreases v
  {
    match v
    case Object(members) => ComposedMembers(members)
    case Array(items) => ComposedItems(items)
    case _ => true
  }

  predicate ComposedItems(items: seq<Json>)
    decreases items
  {
    items == [] || (Composed(items[0]) && ComposedItems(items[1..]))
  }

  predicate ComposedMembers(members: seq<Member>)
    decreases members
  {
    members == [] || (ComposedMember(members[0]) && ComposedMembers(members[1..]))
  }

  predicate ComposedMember(m: Member)
    decreases m
  {
    MemberOk(m) && Composed(m.value)
  }

  function Outcome(ok: bool, after: nat): Option<nat> {
    if ok then Some(after) else None
  }

  /**
   A visit succeeds exactly when the value's levels fit under the depth limit,
   its nodes fit into what is left of the counter, and no member breaks its own
   limit; it then has counted every node once.
   */
  lemma {:induction false} VisitExact(max: Limits, v: Json, depth: nat, nodes: nat)
    ensures Visit(max, v, depth, nodes) ==
            Outcome(depth + Height(v) <= max.depth && nodes + Nodes(v) <= max.nodes && Composed(v), nodes + Nodes(v))
    decreases v
  {
    match v
    case Object(members) => VisitMembersExact(max, members, depth + 1, nodes + 1);
    case Array(items) => VisitItemsExact(max, items, depth + 1, nodes + 1);
    case _ =>
  }

  lemma {:induction false} VisitItemsExact(max: Limits, items: seq<Json>, depth: nat, nodes: nat)
    requires depth > 0
    ensures nodes <= max.nodes && depth - 1 <= max.depth ==>
              VisitItems(max, items, depth, nodes) ==
              Outcome(depth - 1 + HeightOfItems(items) <= max.depth && nodes + NodesOfItems(items) <= max.nodes
                      && ComposedItems(items),
                      nodes + NodesOfItems(items))
    decreases items
  {
    if items != [] {
      VisitExact(max, items[0], depth, nodes);
      VisitItemsExact(max, items[1..], depth, nodes + Nodes(items[0]));
    }
  }

  lemma {:induction false} VisitMembersExact(max: Limits, members: seq<Member>, depth: nat, nodes: nat)
    requires depth > 0
    ensures nodes <= max.nodes && depth - 1 <= max.depth ==>
              VisitMembers(max, members, depth, nodes) ==
              Outcome(depth - 1 + HeightOfMembers(members) <= max.depth && nodes + NodesOfMembers(members) <= max.nodes
                      && ComposedMembers(members),
                      nodes + NodesOfMembers(members))
    decreases members
  {
    if members != [] {
      VisitMemberExact(max, members[0], depth, nodes);
      VisitMembersExact(max, members[1..], depth, nodes + NodesOfMember(members[0]));
    }
  }

  lemma {:induction false} VisitMemberExact(max: Limits, m: Member, depth: nat, nodes: nat)
    ensures VisitMember(max, m, depth, nodes) ==
            Outcome(depth + HeightOfMember(m) <= max.depth && nodes + NodesOfMember(m) <= max.nodes
                    && ComposedMember(m),
                    nodes + NodesOfMember(m))
    decreases m
  {
    VisitExact(max, m.value, depth, nodes);
  }

  /** The check accepts exactly the values within all of its budgets. */
  lemma BoundedExact(max: Limits, maxBytes: nat, width: Json -> nat, v: Json)
    ensures Bounded(max, maxBytes, width, v) <==>
            width(v) <= maxBytes && Height(v) <= max.depth && Nodes(v) <= max.nodes && Composed(v)
  {
    VisitExact(max, v, 0, 0);
  }
}
