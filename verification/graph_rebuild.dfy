/**
 * Rebuilding the graph from a route snapshot and the endpoints bound at this moment: widths
 * first, then the valid routes, then the execution order and the engine's tables.
 */
module GraphRebuild {
  import opened AudioGraph
  import opened ExecutionOrder
  import opened Limits

  /** A bound endpoint: an active hardware direction, or one side of a session whose media is
      ready. `node` is what its endpoint string resolves to, negative when unregistered. */
  datatype Endpoint = Endpoint(node: int, channels: nat, capture: bool, hardware: bool)

  function KindOf(e: Endpoint): Kind {
    if e.hardware then (if e.capture then HardwareCapture else HardwarePlayback)
    else (if e.capture then ClientCapture else ClientPlayback)
  }

  function Clamp(channels: nat): nat {
    if channels < MAX_CHANNELS then channels else MAX_CHANNELS
  }

  /** Endpoint strings are unique among bound endpoints and never resolve to the tone's node. */
  ghost predicate DistinctEndpoints(eps: seq<Endpoint>) {
    && (forall i :: 0 <= i < |eps| ==> eps[i].node != NODE_TONE)
    && (forall i, j :: 0 <= i < j < |eps| && ValidNode(eps[i].node) ==> eps[i].node != eps[j].node)
  }

  // ---------- Widths ----------

  predicate Usable(r: AudioRoute) {
    r.enabled && ValidNode(r.source) && ValidNode(r.destination)
  }

  /** What one enabled route asks of node n. */
  function Asks(r: AudioRoute, n: nat): nat {
    if !Usable(r) then 0
    else Max(if r.source == n && r.sourceChannel < MAX_CHANNELS then r.sourceChannel + 1 else 0,
             if r.destination == n && r.destinationChannel < MAX_CHANNELS then r.destinationChannel + 1 else 0)
  }

  /** The width that the first k routes ask of an unbound node. */
  function Inferred(routes: seq<AudioRoute>, n: nat, k: nat): nat
    requires k <= |routes|
  {
    if k == 0 then 0 else Max(Inferred(routes, n, k - 1), Asks(routes[k - 1], n))
  }

  /** The endpoint bound to node n among the first k. */
  function Bound(eps: seq<Endpoint>, n: nat, k: nat): (b: int)
    requires k <= |eps|
    ensures -1 <= b < k && (b >= 0 ==> eps[b].node == n)
    ensures b == -1 ==> forall i :: 0 <= i < k ==> eps[i].node != n
  {
    if k == 0 then -1 else if eps[k - 1].node == n then k - 1 else Bound(eps, n, k - 1)
  }

  function BoundWidth(eps: seq<Endpoint>, n: nat, k: nat): nat
    requires k <= |eps|
  {
    if Bound(eps, n, k) >= 0 then Clamp(eps[Bound(eps, n, k)].channels) else if n == NODE_TONE then 1 else 0
  }

  predicate IsFixed(eps: seq<Endpoint>, n: nat, k: nat)
    requires k <= |eps|
  {
    Bound(eps, n, k) >= 0 || n == NODE_TONE
  }

  function BoundKind(eps: seq<Endpoint>, n: nat, k: nat): Kind
    requires k <= |eps|
  {
    if Bound(eps, n, k) >= 0 then KindOf(eps[Bound(eps, n, k)]) else if n == NODE_TONE then Tone else Virtual
  }

  /** Bound endpoints decide their own width; other nodes get what the enabled routes ask. */
  function WidthOf(eps: seq<Endpoint>, routes: seq<AudioRoute>, n: nat, k: nat): nat
    requires k <= |routes|
  {
    if IsFixed(eps, n, |eps|) then BoundWidth(eps, n, |eps|) else Inferred(routes, n, k)
  }

  /** What the bound endpoints decide. */
  method BindEndpoints(eps: seq<Endpoint>) returns (w: array<nat>, isFixed: array<bool>, kind: array<Kind>)
    ensures fresh(w) && fresh(isFixed) && fresh(kind) && w.Length == isFixed.Length == kind.Length == MAX_NODES
    ensures forall n :: 0 <= n < MAX_NODES ==>
      w[n] == BoundWidth(eps, n, |eps|) && isFixed[n] == IsFixed(eps, n, |eps|) && kind[n] == BoundKind(eps, n, |eps|)
  {
    w := new nat[MAX_NODES](n => if n == NODE_TONE then 1 else 0);
    isFixed := new bool[MAX_NODES](n => n == NODE_TONE);
    kind := new Kind[MAX_NODES](n => if n == NODE_TONE then Tone else Virtual);
    for k := 0 to |eps|
      invariant forall n :: 0 <= n < MAX_NODES ==>
        w[n] == BoundWidth(eps, n, k) && isFixed[n] == IsFixed(eps, n, k) && kind[n] == BoundKind(eps, n, k)
    {
      var id := eps[k].node;
      if ValidNode(id) {
        w[id] := Clamp(eps[k].channels);
        isFixed[id] := true;
        kind[id] := KindOf(eps[k]);
      }
    }
  }

  /** The first two loops of a rebuild. */
  method InferWidths(eps: seq<Endpoint>, routes: seq<AudioRoute>) returns (widths: seq<nat>, kinds: seq<Kind>)
    ensures |widths| == |kinds| == MAX_NODES
    ensures forall n :: 0 <= n < MAX_NODES ==>
      widths[n] == WidthOf(eps, routes, n, |routes|) && kinds[n] == BoundKind(eps, n, |eps|)
  {
    var w, isFixed, kind := BindEndpoints(eps);
    for k := 0 to |routes|
      invariant forall n :: 0 <= n < MAX_NODES ==>
        w[n] == WidthOf(eps, routes, n, k) && isFixed[n] == IsFixed(eps, n, |eps|) && kind[n] == BoundKind(eps, n, |eps|)
    {
      var r := routes[k];
      if Usable(r) {
        if !isFixed[r.source] && r.sourceChannel < MAX_CHANNELS {
          w[r.source] := Max(w[r.source], r.sourceChannel + 1);
        }
        if !isFixed[r.destination] && r.destinationChannel < MAX_CHANNELS {
          w[r.destination] := Max(w[r.destination], r.destinationChannel + 1);
        }
      }
    }
    widths, kinds := w[..], kind[..];
  }

  lemma {:induction false} InferredIsLeast(routes: seq<AudioRoute>, n: nat, k: nat, bound: nat)
    requires k <= |routes|
    ensures Inferred(routes, n, k) <= bound <==> forall i :: 0 <= i < k ==> Asks(routes[i], n) <= bound
  {
    if k > 0 {
      InferredIsLeast(routes, n, k - 1, bound);
    }
  }

  // ---------- Edges and active nodes ----------

  /** The valid routes as edges, parallel routes included. */
  function Edges(g: Graph, k: nat): seq<Edge>
    requires Shaped(g)
  {
    if k == 0 then []
    else Edges(g, k - 1) +
         if ValidRoute(g, k - 1) then [(g.routes[k - 1].source, g.routes[k - 1].destination)] else []
  }

  /** The nodes that take part: ends of valid routes, bound endpoints with channels, the tone. */
  ghost function Active(g: Graph, eps: seq<Endpoint>): set<nat>
    requires Shaped(g)
  {
    (set i | 0 <= i < |g.routes| && ValidRoute(g, i) :: g.routes[i].source as nat)
    + (set i | 0 <= i < |g.routes| && ValidRoute(g, i) :: g.routes[i].destination as nat)
    + (set i | 0 <= i < |eps| && ValidNode(eps[i].node) && g.widths[eps[i].node] > 0 :: eps[i].node as nat)
    + {NODE_TONE}
  }

  method Collect(g: Graph, eps: seq<Endpoint>) returns (active: set<nat>, edges: seq<Edge>, adj: seq<seq<nat>>)
    requires Shaped(g)
    ensures active == Active(g, eps) && edges == Edges(g, |g.routes|) && |adj| == MAX_NODES
    ensures forall n :: 0 <= n < MAX_NODES ==> adj[n] == Outgoing(g, n, |g.routes|)
  {
    active, edges, adj := {}, [], seq(MAX_NODES, n => []);
    for k := 0 to |g.routes|
      invariant edges == Edges(g, k) && |adj| == MAX_NODES
      invariant active == (set i | 0 <= i < k && ValidRoute(g, i) :: g.routes[i].source as nat)
                        + (set i | 0 <= i < k && ValidRoute(g, i) :: g.routes[i].destination as nat)
      invariant forall n :: 0 <= n < MAX_NODES ==> adj[n] == Outgoing(g, n, k)
    {
      if ValidRoute(g, k) {
        var r := g.routes[k];
        active := active + {r.source, r.destination};
        edges := edges + [(r.source, r.destination)];
        adj := adj[r.source := adj[r.source] + [k]];
      }
    }
    ghost var routed := active;
    for k := 0 to |eps|
      invariant active == routed
        + (set i | 0 <= i < k && ValidNode(eps[i].node) && g.widths[eps[i].node] > 0 :: eps[i].node as nat)
    {
      if ValidNode(eps[k].node) && g.widths[eps[k].node] > 0 {
        active := active + {eps[k].node};
      }
    }
    active := active + {NODE_TONE};
  }

  lemma {:induction false} EdgeOfRoute(g: Graph, i: nat, k: nat)
    requires Shaped(g) && i < k && ValidRoute(g, i)
    ensures (g.routes[i].source as nat, g.routes[i].destination as nat) in Edges(g, k)
  {
    if i < k - 1 {
      EdgeOfRoute(g, i, k - 1);
    }
  }

  lemma {:induction false} RouteOfEdge(g: Graph, e: Edge, k: nat) returns (i: nat)
    requires Shaped(g) && e in Edges(g, k)
    ensures i < k && ValidRoute(g, i) && e == (g.routes[i].source as nat, g.routes[i].destination as nat)
  {
    if e in Edges(g, k - 1) {
      i := RouteOfEdge(g, e, k - 1);
    } else {
      i := k - 1;
    }
  }

  lemma EdgesAreActive(g: Graph, eps: seq<Endpoint>)
    requires Shaped(g)
    ensures EdgesWithin(Active(g, eps), Edges(g, |g.routes|))
  {
    forall e | e in Edges(g, |g.routes|) ensures e.0 in Active(g, eps) && e.1 in Active(g, eps) {
      var i := RouteOfEdge(g, e, |g.routes|);
    }
  }

  // ---------- The rebuild ----------

  /** A graph is what a rebuild makes of these routes and endpoints. */
  ghost predicate Rebuilt(g: Graph, eps: seq<Endpoint>, routes: seq<AudioRoute>) {
    && WellBuilt(g) && g.routes == routes
    && (forall n :: 0 <= n < MAX_NODES ==>
          g.widths[n] == WidthOf(eps, routes, n, |routes|) && g.kinds[n] == BoundKind(eps, n, |eps|))
    && IsOrder(Active(g, eps), Edges(g, |g.routes|), g.order)
  }

  method Positions(order: seq<nat>) returns (position: seq<int>)
    requires DuplicateFree(order) && forall n :: n in order ==> n < MAX_NODES
    ensures |position| == MAX_NODES
    ensures forall n :: 0 <= n < MAX_NODES ==> position[n] == if n in order then Index(order, n) else -1
  {
    var p := new int[MAX_NODES](n => -1);
    for i := 0 to |order|
      invariant forall n :: 0 <= n < MAX_NODES ==> p[n] == if n in order[..i] then Index(order, n) else -1
    {
      assert order[i] in order;
      assert Index(order, order[i]) == i;
      p[order[i]] := i;
    }
    assert order[..|order|] == order;
    position := p[..];
  }

  ghost predicate Widths(g: Graph, eps: seq<Endpoint>, routes: seq<AudioRoute>) {
    Shaped(g) && g.routes == routes
    && forall n :: 0 <= n < MAX_NODES ==>
         g.widths[n] == WidthOf(eps, routes, n, |routes|) && g.kinds[n] == BoundKind(eps, n, |eps|)
  }

  lemma ActiveHaveWidth(g: Graph, eps: seq<Endpoint>, routes: seq<AudioRoute>)
    requires Widths(g, eps, routes) && DistinctEndpoints(eps)
    ensures forall n :: n in Active(g, eps) ==> n < MAX_NODES && 0 < g.widths[n]
  {
    assert Bound(eps, NODE_TONE, |eps|) == -1;
    assert g.widths[NODE_TONE] == 1;
  }

  /** Which routes are valid depends on routes, widths and kinds only. */
  lemma {:induction false} SameTables(g: Graph, h: Graph, n: nat, k: nat)
    requires Shaped(g) && Shaped(h) && g.routes == h.routes && g.widths == h.widths && g.kinds == h.kinds
    ensures Outgoing(g, n, k) == Outgoing(h, n, k) && Edges(g, k) == Edges(h, k)
  {
    if k > 0 {
      SameTables(g, h, n, k - 1);
    }
  }

  lemma SameActive(g: Graph, h: Graph, eps: seq<Endpoint>)
    requires Shaped(g) && Shaped(h) && g.routes == h.routes && g.widths == h.widths && g.kinds == h.kinds
    ensures Active(g, eps) == Active(h, eps)
  {
    assert forall i :: 0 <= i < |g.routes| ==> ValidRoute(g, i) == ValidRoute(h, i);
  }

  lemma {:induction false} InferredBounded(routes: seq<AudioRoute>, n: nat, k: nat)
    requires k <= |routes|
    ensures Inferred(routes, n, k) <= MAX_CHANNELS
  {
    if k > 0 {
      InferredBounded(routes, n, k - 1);
    }
  }

  lemma SameFlow(g0: Graph, g: Graph, active: set<nat>, edges: seq<Edge>)
    requires Shaped(g0) && Shaped(g) && g0.routes == g.routes && g0.widths == g.widths && g0.kinds == g.kinds
    requires edges == Edges(g0, |g.routes|) && Greedy(active, edges, g.order)
    requires forall n :: 0 <= n < MAX_NODES ==> g.adj[n] == Outgoing(g0, n, |g.routes|)
    ensures edges == Edges(g, |g.routes|)
    ensures forall n :: 0 <= n < MAX_NODES ==> g.adj[n] == Outgoing(g, n, |g.routes|)
    ensures forall i :: 0 <= i < |g.routes| && ValidRoute(g, i) && g.routes[i].destination in g.order ==> Forward(g, i)
  {
    forall n | 0 <= n < MAX_NODES ensures g.adj[n] == Outgoing(g, n, |g.routes|) {
      SameTables(g0, g, n, |g.routes|);
    }
    SameTables(g0, g, 0, |g.routes|);
    forall i | 0 <= i < |g.routes| && ValidRoute(g, i) && g.routes[i].destination in g.order ensures Forward(g, i) {
      EdgeOfRoute(g, i, |g.routes|);
      OrderRespectsEdges(active, edges, g.order, (g.routes[i].source as nat, g.routes[i].destination as nat));
    }
  }

  lemma WidthsBounded(g: Graph, eps: seq<Endpoint>, routes: seq<AudioRoute>)
    requires Widths(g, eps, routes)
    ensures forall n :: 0 <= n < MAX_NODES ==> g.widths[n] <= MAX_CHANNELS
  {
    forall n | 0 <= n < MAX_NODES ensures g.widths[n] <= MAX_CHANNELS {
      InferredBounded(routes, n, |routes|);
    }
  }

  lemma OrderIsActive(g: Graph, eps: seq<Endpoint>, routes: seq<AudioRoute>, active: set<nat>, edges: seq<Edge>, order: seq<nat>)
    requires Widths(g, eps, routes) && DistinctEndpoints(eps)
    requires active == Active(g, eps) && Greedy(active, edges, order)
    ensures DuplicateFree(order) && forall n :: n in order ==> n < MAX_NODES && 0 < g.widths[n]
  {
    OrderIsDuplicateFree(active, edges, order);
    ActiveHaveWidth(g, eps, routes);
    assert forall n :: n in order ==> n in Set(order);
  }

  method Rebuild(eps: seq<Endpoint>, routes: seq<AudioRoute>) returns (g: Graph)
    requires DistinctEndpoints(eps)
    ensures Rebuilt(g, eps, routes)
  {
    var widths, kinds := InferWidths(eps, routes);
    g := Graph(routes, widths, kinds, [], seq(MAX_NODES, n => -1), seq(MAX_NODES, n => []));
    ghost var g0 := g;
    var active, edges, adj := Collect(g, eps);
    EdgesAreActive(g, eps);
    var order := Order(active, edges);
    OrderIsActive(g, eps, routes, active, edges, order);
    var position := Positions(order);
    g := g.(order := order, position := position, adj := adj);
    SameActive(g0, g, eps);
    WidthsBounded(g, eps, routes);
    SameFlow(g0, g, active, edges);
  }

  // ---------- Results ----------

  lemma {:induction false} BoundIs(eps: seq<Endpoint>, i: nat, k: nat)
    requires DistinctEndpoints(eps) && i < k <= |eps| && ValidNode(eps[i].node)
    ensures Bound(eps, eps[i].node, k) == i
  {
    if i < k - 1 {
      BoundIs(eps, i, k - 1);
    }
  }

  /** A bound endpoint's width and direction are its own, whatever routes ask. */
  lemma BoundEndpointDecides(g: Graph, eps: seq<Endpoint>, routes: seq<AudioRoute>, i: nat)
    requires Rebuilt(g, eps, routes) && DistinctEndpoints(eps) && i < |eps| && ValidNode(eps[i].node)
    ensures var e := eps[i];
      && g.widths[e.node] == (if e.channels < 254 then e.channels else 254)
      && (g.kinds[e.node] == HardwareCapture <==> e.hardware && e.capture)
      && (g.kinds[e.node] == HardwarePlayback <==> e.hardware && !e.capture)
      && (g.kinds[e.node] == ClientCapture <==> !e.hardware && e.capture)
      && (g.kinds[e.node] == ClientPlayback <==> !e.hardware && !e.capture)
  {
    BoundIs(eps, i, |eps|);
  }

  /** No endpoint is bound to node n, and it is not the tone's. */
  predicate Unbound(eps: seq<Endpoint>, n: nat) {
    n != 0 && forall i :: 0 <= i < |eps| ==> eps[i].node != n
  }

  lemma UnboundIsVirtual(g: Graph, eps: seq<Endpoint>, routes: seq<AudioRoute>, n: nat)
    requires Rebuilt(g, eps, routes) && n < MAX_NODES && Unbound(eps, n)
    ensures !IsFixed(eps, n, |eps|) && g.kinds[n] == Virtual
  {
  }

  lemma ToneIsMono(g: Graph, eps: seq<Endpoint>, routes: seq<AudioRoute>)
    requires Rebuilt(g, eps, routes) && DistinctEndpoints(eps)
    ensures g.widths[0] == 1 && g.kinds[0] == Tone
  {
    assert Bound(eps, 0, |eps|) == -1;
  }

  /** An unbound node is exactly as wide as the enabled routes need: every channel that one of them
      uses there is below its width, and no narrower width would do. */
  lemma UnboundWidthIsLeast(g: Graph, eps: seq<Endpoint>, routes: seq<AudioRoute>, n: nat, width: nat)
    requires Rebuilt(g, eps, routes) && n < MAX_NODES && Unbound(eps, n)
    ensures g.widths[n] <= width <==> forall i :: 0 <= i < |routes| ==> Serves(routes[i], n, width)
  {
    InferredIsLeast(routes, n, |routes|, width);
  }

  /** A width is enough for what an enabled route uses of node n. */
  predicate Serves(r: AudioRoute, n: nat, width: nat) {
    r.enabled && 0 <= r.source < 256 && 0 <= r.destination < 256 ==>
      && (r.source == n && r.sourceChannel < 254 ==> r.sourceChannel < width)
      && (r.destination == n && r.destinationChannel < 254 ==> r.destinationChannel < width)
  }

  /** So an enabled route between unbound nodes always takes part. */
  lemma OfflineRouteTakesPart(g: Graph, eps: seq<Endpoint>, routes: seq<AudioRoute>, i: nat)
    requires Rebuilt(g, eps, routes) && i < |routes| && Usable(routes[i])
    requires routes[i].sourceChannel < MAX_CHANNELS && routes[i].destinationChannel < MAX_CHANNELS
    requires Unbound(eps, routes[i].source) && Unbound(eps, routes[i].destination)
    ensures ValidRoute(g, i)
  {
    var r := routes[i];
    UnboundIsVirtual(g, eps, routes, r.source);
    UnboundIsVirtual(g, eps, routes, r.destination);
    UnboundWidthIsLeast(g, eps, routes, r.source, g.widths[r.source]);
    UnboundWidthIsLeast(g, eps, routes, r.destination, g.widths[r.destination]);
    assert Serves(r, r.source, g.widths[r.source]) && Serves(r, r.destination, g.widths[r.destination]);
  }

  /** The channel exists at node n: below 254, below the width of whatever is bound there, and the
      tone has one channel. */
  predicate HasChannel(eps: seq<Endpoint>, n: int, ch: nat) {
    ch < 254 && (n == 0 ==> ch == 0) && forall i :: 0 <= i < |eps| && eps[i].node == n ==> ch < eps[i].channels
  }

  /** Which end a bound endpoint may be. */
  predicate Plays(eps: seq<Endpoint>, n: int) {
    exists i :: 0 <= i < |eps| && eps[i].node == n && !eps[i].capture
  }

  predicate Captures(eps: seq<Endpoint>, n: int) {
    n == 0 || exists i :: 0 <= i < |eps| && eps[i].node == n && eps[i].capture
  }

  lemma EndAt(g: Graph, eps: seq<Endpoint>, routes: seq<AudioRoute>, i: nat, n: nat, ch: nat)
    requires Rebuilt(g, eps, routes) && DistinctEndpoints(eps) && i < |routes| && n < 256
    requires routes[i].enabled && 0 <= routes[i].source < 256 && 0 <= routes[i].destination < 256
    requires (routes[i].source == n && routes[i].sourceChannel == ch) || (routes[i].destination == n && routes[i].destinationChannel == ch)
    ensures ch < g.widths[n] <==> HasChannel(eps, n, ch)
    ensures g.kinds[n].Sink() <==> Plays(eps, n)
    ensures g.kinds[n].Source() <==> Captures(eps, n)
  {
    if n == 0 {
      ToneIsMono(g, eps, routes);
    } else if k: nat :| k < |eps| && eps[k].node == n {
      BoundEndpointDecides(g, eps, routes, k);
    } else {
      UnboundIsVirtual(g, eps, routes, n);
      UnboundWidthIsLeast(g, eps, routes, n, g.widths[n]);
      assert Serves(routes[i], n, g.widths[n]);
      WidthsBounded(g, eps, routes);
    }
  }

  /** Which routes take part, from the endpoints and the routes alone: enabled ones between two
      nodes, out of nothing that plays back and into nothing that captures, on channels that exist. */
  lemma TakesPartIff(g: Graph, eps: seq<Endpoint>, routes: seq<AudioRoute>, i: nat)
    requires Rebuilt(g, eps, routes) && DistinctEndpoints(eps) && i < |routes|
    ensures var r := routes[i];
      (0 <= r.source < 256 && i in g.adj[r.source]) <==>
        && r.enabled && 0 <= r.source < 256 && 0 <= r.destination < 256
        && !Plays(eps, r.source) && !Captures(eps, r.destination)
        && HasChannel(eps, r.source, r.sourceChannel) && HasChannel(eps, r.destination, r.destinationChannel)
  {
    var r := routes[i];
    if 0 <= r.source < 256 {
      OutgoingIs(g, r.source, |routes|);
      if r.enabled && 0 <= r.destination < 256 {
        EndAt(g, eps, routes, i, r.source, r.sourceChannel);
        EndAt(g, eps, routes, i, r.destination, r.destinationChannel);
      }
    }
  }

  /** A route is listed at its source and nowhere else. */
  lemma ListedAtSource(g: Graph, i: nat, n: nat)
    requires WellBuilt(g) && n < 256 && i in g.adj[n]
    ensures i < |g.routes| && g.routes[i].source == n && 0 <= g.routes[i].destination < 256 && ValidRoute(g, i)
  {
    OutgoingIs(g, n, |g.routes|);
  }

  /** There is an edge from u to v exactly if a route that takes part leads from u to v. */
  lemma EdgesAre(g: Graph, u: nat, v: nat)
    requires WellBuilt(g)
    ensures (u, v) in Edges(g, |g.routes|) <==> u < 256 && exists i :: i in g.adj[u] && i < |g.routes| && g.routes[i].destination == v
  {
    if (u, v) in Edges(g, |g.routes|) {
      var i := RouteOfEdge(g, (u, v), |g.routes|);
      OutgoingIs(g, u, |g.routes|);
      assert i in g.adj[u];
    }
    if u < 256 {
      if i :| i in g.adj[u] && i < |g.routes| && g.routes[i].destination == v {
        ListedAtSource(g, i, u);
        EdgeOfRoute(g, i, |g.routes|);
      }
    }
  }

  /** Route i is listed at node u and has an end at node n. */
  predicate ListedWithEnd(g: Graph, u: nat, i: nat, n: nat)
    requires Shaped(g)
  {
    u < 256 && i < |g.routes| && i in g.adj[u] && (u == n || g.routes[i].destination == n)
  }

  /** A route that takes part has an end at node n. */
  ghost predicate Touched(g: Graph, n: nat)
    requires Shaped(g)
  {
    exists u: nat, i: nat :: ListedWithEnd(g, u, i, n)
  }

  /** Which nodes a block mixes: the tone, bound endpoints with channels, and both ends of every
      route that takes part, except the nodes on and behind cycles of such routes. */
  lemma MixedIff(g: Graph, eps: seq<Endpoint>, routes: seq<AudioRoute>, n: nat)
    requires Rebuilt(g, eps, routes) && DistinctEndpoints(eps) && n < 256
    ensures n in g.order <==>
      && (n == 0 || Touched(g, n) || exists i :: 0 <= i < |eps| && eps[i].node == n && 0 < eps[i].channels)
      && !FromCycle(Edges(g, |routes|), n)
  {
    if n in Active(g, eps) {
      LeftOutIffBehindCycle(g, eps, routes, n);
    }
    if n in g.order {
      OrderWithin(g, eps, routes, n);
    }
    ActiveIff(g, eps, routes, n);
  }

  lemma OrderWithin(g: Graph, eps: seq<Endpoint>, routes: seq<AudioRoute>, n: nat)
    requires Rebuilt(g, eps, routes) && n in g.order
    ensures n in Active(g, eps)
  {
    OrderIsDuplicateFree(Active(g, eps), Edges(g, |routes|), g.order);
    assert n in Set(g.order);
  }

  lemma TouchedHas(g: Graph, n: nat) returns (i: nat)
    requires WellBuilt(g) && Touched(g, n)
    ensures i < |g.routes| && ValidRoute(g, i) && (g.routes[i].source == n || g.routes[i].destination == n)
  {
    var u: nat, j: nat :| ListedWithEnd(g, u, j, n);
    ListedAtSource(g, j, u);
    i := j;
  }

  lemma TouchedBy(g: Graph, n: nat, i: nat)
    requires WellBuilt(g) && i < |g.routes| && ValidRoute(g, i) && (g.routes[i].source == n || g.routes[i].destination == n)
    ensures Touched(g, n)
  {
    var u: nat := g.routes[i].source;
    OutgoingIs(g, u, |g.routes|);
    assert ListedWithEnd(g, u, i, n);
  }

  lemma TouchedIff(g: Graph, n: nat)
    requires WellBuilt(g)
    ensures Touched(g, n) <==>
      exists i :: 0 <= i < |g.routes| && ValidRoute(g, i) && (g.routes[i].source == n || g.routes[i].destination == n)
  {
    if Touched(g, n) {
      var i := TouchedHas(g, n);
    } else if i :| 0 <= i < |g.routes| && ValidRoute(g, i) && (g.routes[i].source == n || g.routes[i].destination == n) {
      TouchedBy(g, n, i);
    }
  }

  lemma ActiveIs(g: Graph, eps: seq<Endpoint>, n: nat)
    requires Shaped(g)
    ensures n in Active(g, eps) <==>
      || n == NODE_TONE
      || (exists i :: 0 <= i < |g.routes| && ValidRoute(g, i) && (g.routes[i].source == n || g.routes[i].destination == n))
      || (exists i :: 0 <= i < |eps| && ValidNode(eps[i].node) && g.widths[eps[i].node] > 0 && eps[i].node == n)
  {
  }

  lemma ActiveIff(g: Graph, eps: seq<Endpoint>, routes: seq<AudioRoute>, n: nat)
    requires Rebuilt(g, eps, routes) && DistinctEndpoints(eps) && n < 256
    ensures n in Active(g, eps) <==>
      n == 0 || Touched(g, n) || exists i :: 0 <= i < |eps| && eps[i].node == n && 0 < eps[i].channels
  {
    TouchedIff(g, n);
    ActiveIs(g, eps, n);
    forall i | 0 <= i < |eps| && eps[i].node == n ensures g.widths[n] > 0 <==> 0 < eps[i].channels {
      BoundEndpointDecides(g, eps, routes, i);
    }
  }

  /** An active node is left out of a block exactly when it lies on a cycle of valid routes, or
      behind one. */
  lemma LeftOutIffBehindCycle(g: Graph, eps: seq<Endpoint>, routes: seq<AudioRoute>, n: nat)
    requires Rebuilt(g, eps, routes) && n in Active(g, eps)
    ensures n !in g.order <==> FromCycle(Edges(g, |routes|), n)
  {
    EdgesAreActive(g, eps);
    MissingIffFromCycle(Active(g, eps), Edges(g, |routes|), g.order, n);
  }

  /** Among all orders of the nodes that are mixed that respect the valid routes, the rebuild
      takes the lexicographically least. */
  lemma RebuildOrderIsLeast(g: Graph, eps: seq<Endpoint>, routes: seq<AudioRoute>, t: seq<nat>)
    requires Rebuilt(g, eps, routes) && Topological(Edges(g, |routes|), Set(g.order), t)
    ensures LexAtMost(g.order, t)
  {
    OrderIsLeast(Active(g, eps), Edges(g, |routes|), g.order, t);
  }

  /** The mixer's test for a route against the order never succeeds. */
  lemma FeedbackNeverTaken(g: Graph, i: nat)
    requires WellBuilt(g) && i < |g.routes| && ValidRoute(g, i)
    requires g.position[g.routes[i].source] != -1 && g.position[g.routes[i].destination] != -1
    ensures g.position[g.routes[i].source] < g.position[g.routes[i].destination]
  {
    EdgesGoForward(g, i);
  }
}
