/**
 * The order in which a rebuilt graph is mixed: Kahn's algorithm over the valid routes, taking
 * the smallest ready node each time. Parallel routes are separate edges and a route from a node
 * to itself is an edge like any other.
 */
module ExecutionOrder {
  type Node = nat
  type Edge = (Node, Node)

  // ---------- What the algorithm counts ----------

  function Set(s: seq<Node>): (r: set<Node>) {
    set x | x in s
  }

  ghost predicate DuplicateFree(s: seq<Node>) {
    forall i, j :: 0 <= i < j < |s| ==> s[i] != s[j]
  }

  /** The number of edges into v whose source is not in done. */
  function InCount(edges: seq<Edge>, done: set<Node>, v: Node): nat {
    if edges == [] then 0
    else
      var n := |edges| - 1;
      InCount(edges[..n], done, v) + if edges[n].1 == v && edges[n].0 !in done then 1 else 0
  }

  /** The destinations of u's edges, in order. */
  function Dests(edges: seq<Edge>, u: Node): seq<Node> {
    if edges == [] then []
    else
      var n := |edges| - 1;
      Dests(edges[..n], u) + if edges[n].0 == u then [edges[n].1] else []
  }

  function Count(s: seq<Node>, v: Node): nat {
    if s == [] then 0
    else
      var n := |s| - 1;
      Count(s[..n], v) + if s[n] == v then 1 else 0
  }

  /** Nodes whose sources have all been taken. */
  ghost predicate Ready(active: set<Node>, edges: seq<Edge>, done: set<Node>, v: Node) {
    v in active && v !in done && InCount(edges, done, v) == 0
  }

  /** u is the smallest node that is ready once the nodes before it are taken. */
  ghost predicate Smallest(active: set<Node>, edges: seq<Edge>, before: seq<Node>, u: Node) {
    && Ready(active, edges, Set(before), u)
    && forall v :: Ready(active, edges, Set(before), v) ==> u <= v
  }

  /** Every entry was the smallest ready node when it was taken. */
  ghost predicate Greedy(active: set<Node>, edges: seq<Edge>, order: seq<Node>) {
    order == [] ||
    var n := |order| - 1;
    Greedy(active, edges, order[..n]) && Smallest(active, edges, order[..n], order[n])
  }

  /** The algorithm's result: greedy, and nothing is left to take. */
  ghost predicate IsOrder(active: set<Node>, edges: seq<Edge>, order: seq<Node>) {
    && Greedy(active, edges, order)
    && forall v :: !Ready(active, edges, Set(order), v)
  }

  lemma {:induction false} GreedyAt(active: set<Node>, edges: seq<Edge>, order: seq<Node>, i: nat)
    requires Greedy(active, edges, order) && i < |order|
    ensures Smallest(active, edges, order[..i], order[i])
  {
    var n := |order| - 1;
    if i < n {
      GreedyAt(active, edges, order[..n], i);
      assert order[..n][..i] == order[..i];
    }
  }

  ghost predicate EdgesWithin(active: set<Node>, edges: seq<Edge>) {
    forall e :: e in edges ==> e.0 in active && e.1 in active
  }

  // ---------- Counting lemmas ----------

  lemma {:induction false} InCountAntitone(edges: seq<Edge>, done: set<Node>, more: set<Node>, v: Node)
    requires done <= more
    ensures InCount(edges, more, v) <= InCount(edges, done, v)
  {
    if edges != [] {
      InCountAntitone(edges[..|edges| - 1], done, more, v);
    }
  }

  /** Taking u removes exactly u's edges from the counts. */
  lemma {:induction false} InCountTake(edges: seq<Edge>, done: set<Node>, u: Node, v: Node)
    requires u !in done
    ensures InCount(edges, done, v) == InCount(edges, done + {u}, v) + Count(Dests(edges, u), v)
  {
    if edges != [] {
      var n := |edges| - 1;
      InCountTake(edges[..n], done, u, v);
      if edges[n].0 == u {
        var d := Dests(edges[..n], u);
        assert (d + [edges[n].1])[..|d|] == d;
      } else {
        assert Dests(edges, u) == Dests(edges[..n], u);
      }
    }
  }

  lemma {:induction false} InCountZero(edges: seq<Edge>, done: set<Node>, v: Node)
    ensures InCount(edges, done, v) == 0 <==> forall e :: e in edges && e.1 == v ==> e.0 in done
  {
    if edges != [] {
      var n := |edges| - 1;
      InCountZero(edges[..n], done, v);
      assert edges == edges[..n] + [edges[n]];
    }
  }

  lemma {:induction false} CountPrefix(s: seq<Node>, j: nat, v: Node)
    requires j <= |s|
    ensures Count(s[..j], v) <= Count(s, v)
    decreases |s|
  {
    if j < |s| {
      CountPrefix(s[..|s| - 1], j, v);
      assert s[..|s| - 1][..j] == s[..j];
    } else {
      assert s[..j] == s;
    }
  }

  lemma {:induction false} DestsWithin(edges: seq<Edge>, u: Node, v: Node)
    requires v in Dests(edges, u)
    ensures (u, v) in edges
  {
    var n := |edges| - 1;
    if v in Dests(edges[..n], u) {
      DestsWithin(edges[..n], u, v);
    }
  }

  // ---------- The algorithm ----------

  function Degree(inDegree: map<Node, int>, v: Node): int {
    if v in inDegree then inDegree[v] else 0
  }

  function Successors(adj: map<Node, seq<Node>>, u: Node): seq<Node> {
    if u in adj then adj[u] else []
  }

  /** The top of the priority queue. */
  predicate Least(q: set<Node>, u: Node) {
    u in q && forall v :: v in q ==> u <= v
  }

  lemma {:induction false} MinExists(q: set<Node>)
    requires q != {}
    ensures exists u :: Least(q, u)
  {
    var x :| x in q;
    if q == {x} {
      assert Least(q, x);
    } else {
      MinExists(q - {x});
      var y :| Least(q - {x}, y);
      LeastOfTwo(q, x, y);
    }
  }

  lemma LeastOfTwo(q: set<Node>, x: Node, y: Node)
    requires x in q && Least(q - {x}, y)
    ensures Least(q, x) || Least(q, y)
  {
    assert forall v :: v in q ==> v == x || v in q - {x};
  }

  /** Adjacency lists and in-degrees, one route at a time. */
  method BuildAdjacency(edges: seq<Edge>) returns (adj: map<Node, seq<Node>>, inDegree: map<Node, int>)
    ensures forall u :: Successors(adj, u) == Dests(edges, u)
    ensures forall v :: Degree(inDegree, v) == InCount(edges, {}, v)
  {
    adj, inDegree := map[], map[];
    for i := 0 to |edges|
      invariant forall u :: Successors(adj, u) == Dests(edges[..i], u)
      invariant forall v :: Degree(inDegree, v) == InCount(edges[..i], {}, v)
    {
      var (u, v) := edges[i];
      assert edges[..i + 1][..i] == edges[..i];
      adj := adj[u := Successors(adj, u) + [v]];
      inDegree := inDegree[v := Degree(inDegree, v) + 1];
    }
    assert edges[..|edges|] == edges;
  }

  /** Popping u, lowering the in-degrees of its destinations, and queueing those that reach zero. */
  method Release(active: set<Node>, edges: seq<Edge>, ghost done: set<Node>, u: Node,
                 succ: seq<Node>, inDegree: map<Node, int>, q: set<Node>)
    returns (inDegree': map<Node, int>, q': set<Node>)
    requires EdgesWithin(active, edges) && succ == Dests(edges, u)
    requires u in q && Consistent(active, edges, done, inDegree, q)
    ensures Consistent(active, edges, done + {u}, inDegree', q')
  {
    assert Ready(active, edges, done, u);
    inDegree', q' := inDegree, q - {u};
    for j := 0 to |succ|
      invariant forall v :: Degree(inDegree', v) == InCount(edges, done, v) - Count(succ[..j], v)
      invariant forall v :: v in q' <==> v in active && v !in done + {u} && Degree(inDegree', v) == 0
    {
      var v := succ[j];
      assert succ[..j + 1][..j] == succ[..j];
      DestsWithin(edges, u, v);
      InCountZero(edges, done, v);
      assert InCount(edges, done, v) > 0;
      assert v in active && v !in done + {u};
      CountPrefix(succ, j + 1, v);
      InCountTake(edges, done, u, v);
      inDegree' := inDegree'[v := Degree(inDegree', v) - 1];
      if inDegree'[v] == 0 {
        assert v !in q';
        q' := q' + {v};
      }
    }
    assert succ[..|succ|] == succ;
    forall v ensures Degree(inDegree', v) == InCount(edges, done + {u}, v) {
      InCountTake(edges, done, u, v);
    }
    forall v | v in done + {u} ensures InCount(edges, done + {u}, v) == 0 {
      InCountAntitone(edges, done, done + {u}, v);
    }
  }

  /** The nodes that start in the queue. */
  method InitialQueue(active: set<Node>, inDegree: map<Node, int>) returns (q: set<Node>)
    ensures forall v :: v in q <==> v in active && Degree(inDegree, v) == 0
  {
    q := {};
    var rest := active;
    while rest != {}
      invariant rest <= active
      invariant forall v :: v in q <==> v in active && v !in rest && Degree(inDegree, v) == 0
      decreases rest
    {
      var node :| node in rest;
      rest := rest - {node};
      if Degree(inDegree, node) == 0 {
        q := q + {node};
      }
    }
  }

  /** The counts and the queue agree with the nodes taken so far. */
  ghost predicate Consistent(active: set<Node>, edges: seq<Edge>, done: set<Node>, inDegree: map<Node, int>, q: set<Node>) {
    && (forall v :: v in done ==> InCount(edges, done, v) == 0)
    && (forall v :: Degree(inDegree, v) == InCount(edges, done, v))
    && (forall v :: v in q <==> Ready(active, edges, done, v))
  }

  /** The execution order of a rebuilt graph. */
  method Order(active: set<Node>, edges: seq<Edge>) returns (order: seq<Node>)
    requires EdgesWithin(active, edges)
    ensures IsOrder(active, edges, order)
  {
    var adj, inDegree := BuildAdjacency(edges);
    var q := InitialQueue(active, inDegree);
    order := [];
    assert Set(order) == {};
    while q != {}
      invariant InProgress(active, edges, order, inDegree, q)
      decreases active - Set(order)
    {
      order, inDegree, q := TakeOne(active, edges, adj, order, inDegree, q);
    }
  }

  ghost predicate InProgress(active: set<Node>, edges: seq<Edge>, order: seq<Node>, inDegree: map<Node, int>, q: set<Node>) {
    Greedy(active, edges, order) && Set(order) <= active && Consistent(active, edges, Set(order), inDegree, q)
  }

  /** One turn of the loop: the smallest queued node is next. */
  method TakeOne(active: set<Node>, edges: seq<Edge>, adj: map<Node, seq<Node>>,
                 order: seq<Node>, inDegree: map<Node, int>, q: set<Node>)
    returns (order': seq<Node>, inDegree': map<Node, int>, q': set<Node>)
    requires InProgress(active, edges, order, inDegree, q) && EdgesWithin(active, edges) && q != {}
    requires forall u :: Successors(adj, u) == Dests(edges, u)
    ensures InProgress(active, edges, order', inDegree', q') && active - Set(order') < active - Set(order)
  {
    MinExists(q);
    var u :| Least(q, u);
    TakeTop(active, edges, order, inDegree, q, u);
    inDegree', q' := Release(active, edges, Set(order), u, Successors(adj, u), inDegree, q);
    order' := order + [u];
    assert u in active - Set(order) && u !in active - Set(order');
  }

  lemma TakeTop(active: set<Node>, edges: seq<Edge>, order: seq<Node>, inDegree: map<Node, int>, q: set<Node>, u: Node)
    requires Greedy(active, edges, order) && Consistent(active, edges, Set(order), inDegree, q)
    requires Least(q, u)
    ensures u in active && u !in Set(order)
    ensures Greedy(active, edges, order + [u]) && Set(order + [u]) == Set(order) + {u}
  {
    assert Smallest(active, edges, order, u);
    assert (order + [u])[..|order|] == order;
  }

  // ---------- What the order means ----------

  function Index(order: seq<Node>, v: Node): (i: nat)
    requires v in order
    ensures i < |order| && order[i] == v
  {
    if order[0] == v then 0 else 1 + Index(order[1..], v)
  }

  lemma OrderIsDuplicateFree(active: set<Node>, edges: seq<Edge>, order: seq<Node>)
    requires Greedy(active, edges, order)
    ensures DuplicateFree(order) && Set(order) <= active
  {
    forall i | 0 <= i < |order| ensures order[i] in active && forall h :: 0 <= h < i ==> order[h] != order[i] {
      GreedyAt(active, edges, order, i);
      forall h | 0 <= h < i ensures order[h] != order[i] {
        assert order[..i][h] in Set(order[..i]);
      }
    }
  }

  /** Every edge into an ordered node starts at an earlier node of the order, parallel edges
      included: a route never runs against the order. */
  lemma OrderRespectsEdges(active: set<Node>, edges: seq<Edge>, order: seq<Node>, e: Edge)
    requires Greedy(active, edges, order) && e in edges && e.1 in order
    ensures e.0 in order && Index(order, e.0) < Index(order, e.1)
  {
    var i := Index(order, e.1);
    GreedyAt(active, edges, order, i);
    InCountZero(edges, Set(order[..i]), e.1);
    assert e.0 in order[..i];
    OrderIsDuplicateFree(active, edges, order);
  }

  // ---------- Missing nodes ----------

  ghost predicate Path(edges: seq<Edge>, p: seq<Node>) {
    |p| >= 1 && forall i :: 0 <= i < |p| - 1 ==> (p[i], p[i + 1]) in edges
  }

  ghost predicate Cycle(edges: seq<Edge>, c: seq<Node>) {
    Path(edges, c) && |c| >= 2 && c[0] == c[|c| - 1]
  }

  ghost predicate Reaches(edges: seq<Edge>, u: Node, v: Node, p: seq<Node>) {
    Path(edges, p) && p[0] == u && p[|p| - 1] == v
  }

  /** v lies on a cycle, or a path leads to it from one. */
  ghost predicate FromCycle(edges: seq<Edge>, v: Node) {
    exists c, p :: Cycle(edges, c) && Reaches(edges, c[0], v, p)
  }

  lemma {:induction false} PathBackwards(active: set<Node>, edges: seq<Edge>, order: seq<Node>, p: seq<Node>)
    requires Greedy(active, edges, order) && Path(edges, p) && p[|p| - 1] in order
    ensures p[0] in order && (|p| >= 2 ==> Index(order, p[0]) < Index(order, p[|p| - 1]))
    decreases |p|
  {
    if |p| >= 2 {
      var tail := p[1..];
      assert forall i :: 0 <= i < |tail| - 1 ==> (tail[i], tail[i + 1]) == (p[i + 1], p[i + 2]);
      PathBackwards(active, edges, order, tail);
      assert (p[0], p[1]) in edges;
      OrderRespectsEdges(active, edges, order, (p[0], p[1]));
    }
  }

  lemma OrderedIsNotFromCycle(active: set<Node>, edges: seq<Edge>, order: seq<Node>, v: Node)
    requires Greedy(active, edges, order) && v in order
    ensures !FromCycle(edges, v)
  {
    forall c, p | Cycle(edges, c) && Reaches(edges, c[0], v, p) ensures false {
      PathBackwards(active, edges, order, p);
      PathBackwards(active, edges, order, c);
    }
  }

  /** A node that is left over has a source that is left over. */
  lemma LeftoverSource(active: set<Node>, edges: seq<Edge>, order: seq<Node>, v: Node) returns (u: Node)
    requires IsOrder(active, edges, order) && EdgesWithin(active, edges) && v in active - Set(order)
    ensures u in active - Set(order) && (u, v) in edges
  {
    assert !Ready(active, edges, Set(order), v);
    InCountZero(edges, Set(order), v);
    var e :| e in edges && e.1 == v && e.0 !in Set(order);
    u := e.0;
  }

  lemma {:induction false} DistinctFits(p: seq<Node>, s: set<Node>)
    requires DuplicateFree(p) && forall x :: x in p ==> x in s
    ensures |p| <= |s|
  {
    if p != [] {
      var n := |p| - 1;
      forall x | x in p[..n] ensures x in s - {p[n]} {
      }
      DistinctFits(p[..n], s - {p[n]});
    }
  }

  /** Walking back along left-over sources must come round. */
  lemma {:induction false} WalkBack(active: set<Node>, edges: seq<Edge>, order: seq<Node>, p: seq<Node>, v: Node)
    requires IsOrder(active, edges, order) && EdgesWithin(active, edges)
    requires Path(edges, p) && p[|p| - 1] == v && DuplicateFree(p)
    requires forall x :: x in p ==> x in active - Set(order)
    ensures FromCycle(edges, v)
    decreases |active - Set(order)| - |p|
  {
    var u := LeftoverSource(active, edges, order, p[0]);
    var q := [u] + p;
    assert Path(edges, q);
    if u in p {
      var k := Index(p, u);
      var c, tail := q[..k + 2], p[k..];
      assert forall i :: 0 <= i < |c| - 1 ==> (c[i], c[i + 1]) == (q[i], q[i + 1]);
      assert forall i :: 0 <= i < |tail| - 1 ==> (tail[i], tail[i + 1]) == (p[k + i], p[k + i + 1]);
      assert Cycle(edges, c) && Reaches(edges, c[0], v, tail);
    } else {
      DistinctFits(q, active - Set(order));
      WalkBack(active, edges, order, q, v);
    }
  }

  /** An active node is missing from the order exactly when it lies on a cycle or behind one. */
  lemma MissingIffFromCycle(active: set<Node>, edges: seq<Edge>, order: seq<Node>, v: Node)
    requires IsOrder(active, edges, order) && EdgesWithin(active, edges) && v in active
    ensures v !in order <==> FromCycle(edges, v)
  {
    if v in order {
      OrderedIsNotFromCycle(active, edges, order, v);
    } else {
      WalkBack(active, edges, order, [v], v);
    }
  }

  // ---------- The least order ----------

  /** t lists the nodes of s once each, every edge into s coming from an earlier node. */
  ghost predicate Topological(edges: seq<Edge>, s: set<Node>, t: seq<Node>) {
    && DuplicateFree(t) && Set(t) == s
    && forall e :: e in edges && e.1 in t ==> e.0 in t && Index(t, e.0) < Index(t, e.1)
  }

  ghost predicate LexAtMost(a: seq<Node>, b: seq<Node>) {
    a == b || exists i :: 0 <= i < |a| && i < |b| && a[..i] == b[..i] && a[i] < b[i]
  }

  lemma OrderIsTopological(active: set<Node>, edges: seq<Edge>, order: seq<Node>)
    requires IsOrder(active, edges, order)
    ensures Topological(edges, Set(order), order)
  {
    OrderIsDuplicateFree(active, edges, order);
    forall e | e in edges && e.1 in order ensures e.0 in order && Index(order, e.0) < Index(order, e.1) {
      OrderRespectsEdges(active, edges, order, e);
    }
  }

  lemma {:induction false} SetSize(p: seq<Node>)
    requires DuplicateFree(p)
    ensures |Set(p)| == |p|
  {
    if p != [] {
      var n := |p| - 1;
      SetSize(p[..n]);
      assert Set(p) == Set(p[..n]) + {p[n]};
    }
  }

  /** In any topological listing, the next entry is ready. */
  lemma NextIsReady(active: set<Node>, edges: seq<Edge>, s: set<Node>, t: seq<Node>, k: nat)
    requires Topological(edges, s, t) && s <= active && k < |t|
    ensures Ready(active, edges, Set(t[..k]), t[k])
  {
    assert t[k] in Set(t);
    forall e | e in edges && e.1 == t[k] ensures e.0 in Set(t[..k]) {
      assert Index(t, t[k]) == k;
      assert t[..k][Index(t, e.0)] == e.0;
    }
    InCountZero(edges, Set(t[..k]), t[k]);
  }

  lemma {:induction false} LeastFrom(active: set<Node>, edges: seq<Edge>, order: seq<Node>, t: seq<Node>, k: nat)
    requires IsOrder(active, edges, order) && Topological(edges, Set(order), t) && |t| == |order|
    requires k <= |order| && order[..k] == t[..k]
    ensures LexAtMost(order, t)
    decreases |order| - k
  {
    if k < |order| {
      if order[k] == t[k] {
        assert order[..k + 1] == order[..k] + [order[k]];
        assert t[..k + 1] == t[..k] + [t[k]];
        LeastFrom(active, edges, order, t, k + 1);
      } else {
        OrderIsDuplicateFree(active, edges, order);
        NextIsReady(active, edges, Set(order), t, k);
        GreedyAt(active, edges, order, k);
      }
    } else {
      assert order[..k] == order && t[..k] == t;
    }
  }

  /** The order is the lexicographically least topological listing of the nodes it contains. */
  lemma OrderIsLeast(active: set<Node>, edges: seq<Edge>, order: seq<Node>, t: seq<Node>)
    requires IsOrder(active, edges, order) && Topological(edges, Set(order), t)
    ensures LexAtMost(order, t)
  {
    OrderIsDuplicateFree(active, edges, order);
    SetSize(order);
    SetSize(t);
    LeastFrom(active, edges, order, t, 0);
  }
}
