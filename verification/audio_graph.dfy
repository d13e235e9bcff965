/** Routes, and the graph that the engine rebuilds from a snapshot of them. */
module AudioGraph {
  import opened ExecutionOrder
  import opened Limits

  const NODE_TONE := 0

  datatype AudioRoute = AudioRoute(
    id: nat, source: int, sourceChannel: nat, destination: int, destinationChannel: nat, gain: real, enabled: bool)

  /** What a node is bound to. Only hardware playback passes through the master stage. */
  datatype Kind = Tone | HardwareCapture | HardwarePlayback | ClientCapture | ClientPlayback | Virtual
  {
    predicate Source() { Tone? || HardwareCapture? || ClientCapture? }
    predicate Sink() { HardwarePlayback? || ClientPlayback? }
  }

  /** The engine's tables after a rebuild. `adj` holds, per node, the indices of its valid
      outgoing routes in the snapshot. */
  datatype Graph = Graph(
    routes: seq<AudioRoute>, widths: seq<nat>, kinds: seq<Kind>,
    order: seq<nat>, position: seq<int>, adj: seq<seq<nat>>)
  {
    ghost function Position(n: nat): nat {
      if n in order then Index(order, n) else 0
    }
  }

  predicate ValidNode(n: int) {
    0 <= n < MAX_NODES
  }

  predicate Shaped(g: Graph) {
    |g.widths| == |g.kinds| == |g.position| == |g.adj| == MAX_NODES
  }

  /** A route takes part only if it is enabled, both ends exist, its channels lie within the
      widths of this moment, and neither end is used against its direction. */
  predicate ValidRoute(g: Graph, i: nat)
    requires Shaped(g)
  {
    i < |g.routes| &&
    var r := g.routes[i];
    r.enabled && ValidNode(r.source) && ValidNode(r.destination)
    && !g.kinds[r.source].Sink() && !g.kinds[r.destination].Source()
    && r.sourceChannel < g.widths[r.source] && r.destinationChannel < g.widths[r.destination]
  }

  /** Route i is valid and ends in channel ch of node n. */
  predicate Feeds(g: Graph, i: nat, n: nat, ch: nat)
    requires Shaped(g)
  {
    ValidRoute(g, i) && g.routes[i].destination == n && g.routes[i].destinationChannel == ch
  }

  /** The indices below k of the valid routes that leave n. */
  function Outgoing(g: Graph, n: nat, k: nat): seq<nat>
    requires Shaped(g)
  {
    if k == 0 then []
    else Outgoing(g, n, k - 1) + if ValidRoute(g, k - 1) && g.routes[k - 1].source == n then [k - 1] else []
  }

  ghost predicate WellBuilt(g: Graph) {
    && Shaped(g)
    && DuplicateFree(g.order)
    && (forall n :: n in g.order ==> n < MAX_NODES && 0 < g.widths[n])
    && (forall n :: 0 <= n < MAX_NODES ==> g.widths[n] <= MAX_CHANNELS)
    && (forall n :: 0 <= n < MAX_NODES ==> g.position[n] == if n in g.order then Index(g.order, n) else -1)
    && (forall n :: 0 <= n < MAX_NODES ==> g.adj[n] == Outgoing(g, n, |g.routes|))
    && (forall i :: 0 <= i < |g.routes| && ValidRoute(g, i) && g.routes[i].destination in g.order ==> Forward(g, i))
  }

  /** Route i starts at an earlier node of the order than it ends. */
  ghost predicate Forward(g: Graph, i: nat)
    requires i < |g.routes| && g.routes[i].destination in g.order
  {
    var r := g.routes[i];
    r.source >= 0 && r.source in g.order && Index(g.order, r.source) < Index(g.order, r.destination)
  }

  lemma EdgesGoForward(g: Graph, i: nat)
    requires WellBuilt(g) && i < |g.routes| && ValidRoute(g, i) && g.routes[i].destination in g.order
    ensures Forward(g, i)
  {
  }

  lemma {:induction false} OutgoingIs(g: Graph, n: nat, k: nat)
    requires Shaped(g)
    ensures forall i: nat :: i in Outgoing(g, n, k) <==> i < k && ValidRoute(g, i) && g.routes[i].source == n
    ensures DuplicateFree(Outgoing(g, n, k))
  {
    if k > 0 {
      OutgoingIs(g, n, k - 1);
    }
  }

  /** The next route that leaves n has not been mixed yet. */
  lemma NextIsNew(g: Graph, n: nat, out: seq<nat>, j: nat, before: set<nat>, mixed: set<nat>)
    requires Shaped(g) && out == Outgoing(g, n, |g.routes|) && j < |out| && mixed == before + Set(out[..j])
    requires forall i :: i in before ==> i < |g.routes| && g.routes[i].source != n
    ensures out[j] < |g.routes| && ValidRoute(g, out[j]) && g.routes[out[j]].source == n
    ensures out[j] !in mixed && mixed + {out[j]} == before + Set(out[..j + 1])
  {
    OutgoingNext(g, n, out, j);
  }

  /** Walking the routes that leave n. */
  lemma OutgoingNext(g: Graph, n: nat, out: seq<nat>, j: nat)
    requires Shaped(g) && out == Outgoing(g, n, |g.routes|) && j < |out|
    ensures out[j] < |g.routes| && ValidRoute(g, out[j]) && g.routes[out[j]].source == n
    ensures out[j] !in Set(out[..j]) && Set(out[..j + 1]) == Set(out[..j]) + {out[j]}
  {
    OutgoingIs(g, n, |g.routes|);
    assert out[j] in out;
  }
}
