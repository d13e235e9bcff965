/** Node identity: endpoint strings get small IDs that they keep for ever. */
module NodeRegistry {
  import opened Limits

  const TONE := "tone/generator"
  const NODE_INVALID := -1

  /** The two maps and the counter. */
  datatype Nodes = Nodes(ids: map<string, nat>, endpoints: map<nat, string>, next: nat)

  const NO_NODES := Nodes(map[], map[], 1)

  function NodeId(n: Nodes, e: string): int {
    if e == TONE then 0 else if e in n.ids then n.ids[e] else NODE_INVALID
  }

  function EndpointOf(n: Nodes, id: int): string {
    if id == 0 then TONE else if id > 0 && id in n.endpoints then n.endpoints[id] else ""
  }

  /** Registering is idempotent, never takes the tone's ID, and stops when the IDs are used up. */
  function Register(n: Nodes, e: string): Nodes {
    if e == TONE || e in n.ids || n.next >= MAX_NODES then n
    else Nodes(n.ids[e := n.next], n.endpoints[n.next := e], n.next + 1)
  }

  /** The maps are inverse to each other, and the IDs are exactly 1 to next - 1. */
  ghost predicate NodesOk(n: Nodes) {
    && 1 <= n.next <= MAX_NODES && |n.ids| == n.next - 1
    && TONE !in n.ids && "" !in n.ids
    && (forall e :: e in n.ids ==> n.ids[e] in n.endpoints && n.endpoints[n.ids[e]] == e)
    && (forall id :: id in n.endpoints <==> 1 <= id < n.next)
    && (forall id :: id in n.endpoints ==> n.endpoints[id] in n.ids && n.ids[n.endpoints[id]] == id)
  }

  lemma RegisterKeeps(n: Nodes, e: string)
    requires NodesOk(n) && e != ""
    ensures NodesOk(Register(n, e))
  {
    if e != TONE && e !in n.ids && n.next < MAX_NODES {
      var m := Register(n, e);
      assert m.ids.Keys == n.ids.Keys + {e};
      forall x | x in m.ids ensures m.ids[x] in m.endpoints && m.endpoints[m.ids[x]] == x {
        assert x != e ==> n.ids[x] in n.endpoints;
      }
    }
  }

  /** An ID is assigned once and never changes or moves to another endpoint. */
  lemma RegisterIsStable(n: Nodes, e: string, x: string, id: int)
    requires NodesOk(n)
    ensures NodeId(n, x) != NODE_INVALID ==> NodeId(Register(n, e), x) == NodeId(n, x)
    ensures EndpointOf(n, id) != "" ==> EndpointOf(Register(n, e), id) == EndpointOf(n, id)
  {
  }

  /** What was registered resolves to an ID that resolves back, unless there was no ID left. */
  lemma RegisteredResolves(n: Nodes, e: string)
    requires NodesOk(n) && e != ""
    ensures var m := Register(n, e); var id := NodeId(m, e);
      if id == NODE_INVALID then n.next == MAX_NODES && m == n else 0 <= id < MAX_NODES && EndpointOf(m, id) == e
  {
  }

  /** Looking up and resolving are inverse to each other. */
  lemma LookupsAreInverse(n: Nodes, e: string, id: int)
    requires NodesOk(n) && e != ""
    ensures NodeId(n, e) != NODE_INVALID ==> EndpointOf(n, NodeId(n, e)) == e
    ensures EndpointOf(n, id) != "" ==> NodeId(n, EndpointOf(n, id)) == id
  {
  }

  /** All endpoints of the one registry are known to the other. */
  ghost predicate Within(n: Nodes, all: Nodes) {
    forall e :: e in n.ids ==> e in all.ids
  }

  lemma {:induction false} SubsetSize(a: set<string>, b: set<string>)
    requires a <= b
    ensures |a| <= |b|
  {
    if a != {} {
      var x :| x in a;
      SubsetSize(a - {x}, b - {x});
    }
  }

  /** Re-registering endpoints that one registry held never runs out of IDs. */
  lemma RoomForKnown(n: Nodes, all: Nodes, e: string)
    requires NodesOk(n) && NodesOk(all) && Within(n, all) && NodeId(all, e) != NODE_INVALID && e != ""
    ensures NodeId(Register(n, e), e) != NODE_INVALID && Within(Register(n, e), all)
  {
    if e != TONE && e !in n.ids {
      assert n.ids.Keys <= all.ids.Keys - {e};
      SubsetSize(n.ids.Keys, all.ids.Keys - {e});
      assert |all.ids.Keys - {e}| == |all.ids.Keys| - 1;
    }
  }
}
