/** Directed graphs, and the order in which jobs of a graph can be executed. */
module Graphs {

  /** The children of every vertex. */
  type Edges<V> = map<V, set<V>>

  /** Every child is a vertex. */
  predicate Closed<V>(g: Edges<V>) {
    forall v | v in g :: g[v] <= g.Keys
  }

  /** The children of `v`; none if it is no vertex. */
  function Targets<V>(g: Edges<V>, v: V): set<V> {
    if v in g then g[v] else {}
  }

  function Parents<V>(g: Edges<V>, v: V): set<V> {
    set p | p in g && v in g[p]
  }

  ghost predicate NoRepeat<T>(s: seq<T>) {
    forall i, k | 0 <= i < k < |s| :: s[i] != s[k]
  }

  function Elements<T>(s: seq<T>): set<T> {
    set x | x in s
  }

  // ---------- cycles ----------

  /** A walk along the edges. */
  ghost predicate IsWalk<V>(g: Edges<V>, s: seq<V>) {
    && (forall i | 0 <= i < |s| :: s[i] in g)
    && (forall i {:trigger Follows(g, s, i)} | 0 < i < |s| :: Follows(g, s, i))
  }

  ghost predicate Follows<V>(g: Edges<V>, s: seq<V>, i: nat)
    requires 0 < i < |s|
  {
    s[i - 1] in g && s[i] in g[s[i - 1]]
  }

  /** There is a cycle at `v` or above it: some walk to `v` comes to a vertex twice. */
  ghost predicate BelowCycle<V(!new)>(g: Edges<V>, v: V) {
    exists s: seq<V> :: IsWalk(g, s) && s != [] && s[|s| - 1] == v && !NoRepeat(s)
  }

  lemma {:induction false} Pigeonhole<T>(s: seq<T>, all: set<T>)
    requires Elements(s) <= all && NoRepeat(s)
    ensures |s| <= |all|
    decreases |s|
  {
    if s != [] {
      var x, rest := s[|s| - 1], s[..|s| - 1];
      forall y | y in rest ensures y in all - {x} {
        assert y in s;
      }
      Pigeonhole(rest, all - {x});
      assert x in all;
    }
  }

  // ---------- orders ----------

  /** The parents of each vertex come before it. */
  ghost predicate Respects<V>(g: Edges<V>, order: seq<V>) {
    forall i | 0 <= i < |order| :: order[i] in g && Parents(g, order[i]) <= Elements(order[..i])
  }

  /** What `order` does not have, has a parent that `order` does not have either. */
  ghost predicate Exhausts<V>(g: Edges<V>, order: seq<V>) {
    forall v | v in g && v !in order :: !(Parents(g, v) <= Elements(order))
  }

  lemma {:induction false} WalkWithin<V>(g: Edges<V>, order: seq<V>, s: seq<V>, i: nat, k: nat)
    requires Respects(g, order) && IsWalk(g, s) && i < k < |s| && s[k] in order
    ensures exists a, b :: 0 <= a < b < |order| && order[a] == s[i] && order[b] == s[k]
    decreases k
  {
    var b :| 0 <= b < |order| && order[b] == s[k];
    assert Follows(g, s, k) && s[k - 1] in Parents(g, order[b]);
    assert s[k - 1] in order[..b];
    var a :| 0 <= a < b && order[..b][a] == s[k - 1];
    if i < k - 1 {
      var shorter := order[..b];
      forall x | 0 <= x < |shorter| ensures shorter[x] in g && Parents(g, shorter[x]) <= Elements(shorter[..x]) {
        assert shorter[..x] == order[..x];
      }
      WalkWithin(g, shorter, s, i, k - 1);
      var c, d :| 0 <= c < d < |shorter| && shorter[c] == s[i] && shorter[d] == s[k - 1];
      assert order[c] == s[i];
    }
  }

  lemma OrderedIsAcyclic<V(!new)>(g: Edges<V>, order: seq<V>, v: V)
    requires Respects(g, order) && NoRepeat(order) && v in order
    ensures !BelowCycle(g, v)
  {
    forall s: seq<V> | IsWalk(g, s) && s != [] && s[|s| - 1] == v ensures NoRepeat(s) {
      forall i, k | 0 <= i < k < |s| ensures s[i] != s[k] {
        if k < |s| - 1 {
          WalkWithin(g, order, s, k, |s| - 1);
        }
        WalkWithin(g, order, s, i, k);
      }
    }
  }

  lemma {:induction false} LongWalk<V>(g: Edges<V>, order: seq<V>, v: V, n: nat) returns (s: seq<V>)
    requires Exhausts(g, order) && v in g && v !in order
    ensures IsWalk(g, s) && |s| == n + 1 && s[n] == v && s[0] !in order
    decreases n
  {
    if n == 0 {
      s := [v];
    } else {
      var p :| p in Parents(g, v) && p !in order;
      var rest := LongWalk(g, order, p, n - 1);
      s := rest + [v];
      forall i | 0 < i < |s| ensures Follows(g, s, i) {
        assert i < n ==> Follows(g, rest, i);
      }
    }
  }

  lemma LeftOutIsCyclic<V(!new)>(g: Edges<V>, order: seq<V>, v: V)
    requires Exhausts(g, order) && v in g && v !in order
    ensures BelowCycle(g, v)
  {
    var s := LongWalk(g, order, v, |g.Keys|);
    if NoRepeat(s) {
      Pigeonhole(s, g.Keys);
    }
  }

  /** Such an order has exactly the vertices without a cycle at or above them. */
  lemma OrderIsAcyclicPart<V(!new)>(g: Edges<V>, order: seq<V>, v: V)
    requires Respects(g, order) && NoRepeat(order) && Exhausts(g, order) && v in g
    ensures v in order <==> !BelowCycle(g, v)
  {
    if v in order {
      OrderedIsAcyclic(g, order, v);
    } else {
      LeftOutIsCyclic(g, order, v);
    }
  }

  /** In a graph without cycles, it has all vertices. */
  lemma AcyclicOrderIsComplete<V(!new)>(g: Edges<V>, order: seq<V>)
    requires Respects(g, order) && NoRepeat(order) && Exhausts(g, order)
    requires forall v | v in g :: !BelowCycle(g, v)
    ensures Elements(order) == g.Keys
  {
    forall v | v in g ensures v in order {
      OrderIsAcyclicPart(g, order, v);
    }
  }

  lemma NoRepeatConcat<T>(a: seq<T>, b: seq<T>)
    requires NoRepeat(a) && NoRepeat(b) && forall x | x in a :: x !in b
    ensures NoRepeat(a + b)
  {
    forall i, k | 0 <= i < k < |a + b| ensures (a + b)[i] != (a + b)[k] {
      if i < |a| <= k {
        assert a[i] in a && b[k - |a|] in b;
      }
    }
  }

  // ---------- counting ----------

  /** The parents that the first links give to `v`. */
  ghost function LinkedTo<V>(links: seq<(V, V)>, v: V): set<V> {
    set i | 0 <= i < |links| && links[i].1 == v :: links[i].0
  }

  lemma LinkedToNext<V>(links: seq<(V, V)>, i: nat, v: V)
    requires NoRepeat(links) && i < |links|
    ensures |LinkedTo(links[..i + 1], v)| == |LinkedTo(links[..i], v)| + if links[i].1 == v then 1 else 0
  {
    var next, before := LinkedTo(links[..i + 1], v), LinkedTo(links[..i], v);
    assert forall k | 0 <= k < i :: links[..i + 1][k] == links[..i][k];
    if links[i].1 == v {
      assert links[..i + 1][i] == links[i];
      assert next == before + {links[i].0};
      assert links[i].0 !in before;
    } else {
      assert next == before;
    }
  }

  /** A map whose missing entries are zero. */
  type Counter<V> = map<V, int>

  function Count<V>(c: Counter<V>, v: V): int {
    if v in c then c[v] else 0
  }

  // ---------- the state of the sort ----------

  /** The vertices in `order` are out, and those in `queue` are the next ones. */
  ghost predicate Front<V>(g: Edges<V>, order: seq<V>, queue: seq<V>) {
    && NoRepeat(order + queue)
    && (forall v | v in order + queue :: v in g)
    && Respects(g, order)
  }

  /** What holds when the children of the last vertex of `order` are dealt with, except for those in `todo`. */
  ghost predicate Sorting<V>(g: Edges<V>, order: seq<V>, queue: seq<V>, dep: Counter<V>, todo: set<V>) {
    Front(g, order, queue) && Counted(g, order, queue, dep, todo)
  }

  ghost predicate Counted<V>(g: Edges<V>, order: seq<V>, queue: seq<V>, dep: Counter<V>, todo: set<V>) {
    forall v {:trigger CountedAt(g, order, queue, dep, todo, v)} | v in g :: CountedAt(g, order, queue, dep, todo, v)
  }

  /** The counter has the parents to wait for; the vertex is out or next when there are none. */
  ghost predicate CountedAt<V>(g: Edges<V>, order: seq<V>, queue: seq<V>, dep: Counter<V>, todo: set<V>, v: V) {
    && Count(dep, v) == |Parents(g, v) - Elements(order)| + (if v in todo then 1 else 0)
    && (v in order || v in queue <==> Parents(g, v) <= Elements(order) && v !in todo)
  }

  lemma StartSorting<V>(g: Edges<V>, queue: seq<V>, dep: Counter<V>)
    requires NoRepeat(queue) && forall v :: v in queue <==> v in g && Parents(g, v) == {}
    requires forall v | v in g :: Count(dep, v) == |Parents(g, v)|
    ensures Sorting(g, [], queue, dep, {})
  {
    assert [] + queue == queue;
    forall v | v in g ensures CountedAt(g, [], queue, dep, {}, v) {
      assert Parents(g, v) - Elements<V>([]) == Parents(g, v);
    }
  }

  lemma MoveFirst<T>(a: seq<T>, b: seq<T>)
    requires b != []
    ensures a + [b[0]] + b[1..] == a + b
    ensures NoRepeat(a + b) ==> b[0] !in a
  {
    assert (a + b)[|a|] == b[0];
    assert forall i | 0 <= i < |a| :: (a + b)[i] == a[i];
  }

  lemma NothingLeft<T>(a: set<T>, b: set<T>)
    ensures |a - b| == 0 <==> a <= b
  {
    assert a <= b ==> a - b == {};
    assert |a - b| == 0 ==> a - b == {};
    assert forall x | x in a && x !in b :: x in a - b;
  }

  lemma TakeFirstFront<V>(g: Edges<V>, order: seq<V>, queue: seq<V>)
    requires Front(g, order, queue) && queue != [] && Parents(g, queue[0]) <= Elements(order)
    ensures Front(g, order + [queue[0]], queue[1..]) && queue[0] in g && queue[0] !in order
  {
    var x, order' := queue[0], order + [queue[0]];
    MoveFirst(order, queue);
    forall i | 0 <= i < |order'| ensures order'[i] in g && Parents(g, order'[i]) <= Elements(order'[..i]) {
      assert order'[..i] == order[..i];
      assert order[..|order|] == order;
      assert order'[i] in order + queue;
    }
  }

  lemma FirstIsReady<V>(g: Edges<V>, order: seq<V>, queue: seq<V>, dep: Counter<V>)
    requires Sorting(g, order, queue, dep, {}) && queue != []
    ensures Parents(g, queue[0]) <= Elements(order)
  {
    assert queue[0] in order + queue;
    assert CountedAt(g, order, queue, dep, {}, queue[0]);
  }

  lemma TakeFirstParents<V>(g: Edges<V>, order: seq<V>, x: V, v: V)
    requires x in g && v in g && x !in order
    ensures |Parents(g, v) - Elements(order)| ==
              |Parents(g, v) - Elements(order + [x])| + if v in g[x] then 1 else 0
    ensures Parents(g, v) <= Elements(order) <==> Parents(g, v) <= Elements(order + [x]) && v !in g[x]
  {
    assert Elements(order + [x]) == Elements(order) + {x};
    var rest := Parents(g, v) - Elements(order + [x]);
    if v in g[x] {
      assert x in Parents(g, v);
      assert Parents(g, v) - Elements(order) == rest + {x};
    } else {
      assert Parents(g, v) - Elements(order) == rest;
    }
  }

  lemma TakeFirst<V>(g: Edges<V>, order: seq<V>, queue: seq<V>, dep: Counter<V>)
    requires Sorting(g, order, queue, dep, {}) && queue != []
    ensures queue[0] in g && Sorting(g, order + [queue[0]], queue[1..], dep, g[queue[0]])
  {
    var x := queue[0];
    FirstIsReady(g, order, queue, dep);
    TakeFirstFront(g, order, queue);
    forall v | v in g ensures CountedAt(g, order + [x], queue[1..], dep, g[x], v) {
      assert CountedAt(g, order, queue, dep, {}, v);
      TakeFirstParents(g, order, x, v);
    }
  }

  lemma JoinsFront<V>(g: Edges<V>, order: seq<V>, queue: seq<V>, v: V)
    requires Front(g, order, queue) && v in g && v !in order && v !in queue
    ensures Front(g, order, queue + [v])
  {
    assert order + (queue + [v]) == order + queue + [v];
    NoRepeatConcat(order + queue, [v]);
  }

  ghost function Joined<V>(queue: seq<V>, dep: Counter<V>, v: V): seq<V> {
    if Count(dep, v) == 1 then queue + [v] else queue
  }

  lemma ReleaseCounted<V>(g: Edges<V>, order: seq<V>, queue: seq<V>, dep: Counter<V>, todo: set<V>, v: V, x: V)
    requires CountedAt(g, order, queue, dep, todo, v) && CountedAt(g, order, queue, dep, todo, x) && v in todo && v in g
    ensures CountedAt(g, order, Joined(queue, dep, v), dep[v := Count(dep, v) - 1], todo - {v}, x)
    ensures v !in order && v !in queue
  {
    NothingLeft(Parents(g, v), Elements(order));
  }

  /** One child of the last vertex: it joins the queue when this was its last parent to come. */
  lemma ReleaseOne<V>(g: Edges<V>, order: seq<V>, queue: seq<V>, dep: Counter<V>, todo: set<V>, v: V)
    requires Sorting(g, order, queue, dep, todo) && v in todo && v in g
    ensures Sorting(g, order, Joined(queue, dep, v), dep[v := Count(dep, v) - 1], todo - {v})
  {
    assert CountedAt(g, order, queue, dep, todo, v);
    forall x | x in g
      ensures v !in order && v !in queue
      ensures CountedAt(g, order, Joined(queue, dep, v), dep[v := Count(dep, v) - 1], todo - {v}, x)
    {
      assert CountedAt(g, order, queue, dep, todo, x);
      ReleaseCounted(g, order, queue, dep, todo, v, x);
    }
    JoinsFront(g, order, queue, v);
  }

  lemma SortingEnds<V>(g: Edges<V>, order: seq<V>, dep: Counter<V>)
    requires Sorting(g, order, [], dep, {})
    ensures NoRepeat(order) && Respects(g, order) && Exhausts(g, order)
  {
    assert order + [] == order;
    forall v | v in g && v !in order ensures !(Parents(g, v) <= Elements(order)) {
      assert CountedAt(g, order, [], dep, {}, v);
    }
  }

  class Graph<V(==)> {
    var graph: Edges<V>

    constructor ()
      ensures graph == map[]
    {
      graph := map[];
    }

    /** Has no effect if called several times with the same vertex. */
    method AddVertex(vertex: V)
      modifies this
      ensures graph == if vertex in old(graph) then old(graph) else old(graph)[vertex := {}]
    {
      if vertex !in graph {
        graph := graph[vertex := {}];
      }
    }

    /** Closed graphs stay closed, and the edge is the only new one. */
    method AddEdge(parent: V, child: V)
      modifies this
      ensures graph.Keys == old(graph).Keys + {parent, child}
      ensures forall v | v in graph ::
                graph[v] == if v == parent then Targets(old(graph), v) + {child} else Targets(old(graph), v)
      ensures Closed(old(graph)) ==> Closed(graph)
    {
      AddVertex(child);
      graph := graph[parent := Targets(graph, parent) + {child}];
    }

    /** Every link from a parent to a child, once. */
    method GetEdges() returns (links: seq<(V, V)>)
      ensures NoRepeat(links)
      ensures forall p, v :: (p, v) in links <==> p in graph && v in graph[p]
    {
      links := [];
      var todo := graph.Keys;
      while todo != {}
        invariant todo <= graph.Keys && NoRepeat(links)
        invariant forall p, v :: (p, v) in links <==> p in graph && p !in todo && v in graph[p]
        decreases todo
      {
        var vertex :| vertex in todo;
        var more := LinksFrom(vertex);
        todo := todo - {vertex};
        forall x | x in links ensures x !in more {
          assert (x.0, x.1) in links;
        }
        NoRepeatConcat(links, more);
        links := links + more;
      }
    }

    method LinksFrom(vertex: V) returns (links: seq<(V, V)>)
      requires vertex in graph
      ensures NoRepeat(links)
      ensures forall p, v :: (p, v) in links <==> p == vertex && v in graph[vertex]
    {
      links := [];
      var todo := graph[vertex];
      while todo != {}
        invariant todo <= graph[vertex] && NoRepeat(links)
        invariant forall p, v :: (p, v) in links <==> p == vertex && v in graph[vertex] - todo
        decreases todo
      {
        var neighbour :| neighbour in todo;
        links := links + [(vertex, neighbour)];
        todo := todo - {neighbour};
      }
    }

    /** The vertices without parents. */
    method RootVertices() returns (roots: set<V>)
      ensures roots == set v | v in graph && Parents(graph, v) == {}
    {
      var dependents := {};
      var todo := graph.Keys;
      while todo != {}
        invariant todo <= graph.Keys
        invariant forall v :: v in dependents <==> exists p :: p in graph && p !in todo && v in graph[p]
        decreases todo
      {
        var vertex :| vertex in todo;
        todo := todo - {vertex};
        dependents := dependents + graph[vertex];
      }
      roots := graph.Keys - dependents;
      forall v | v in graph ensures v in roots <==> Parents(graph, v) == {} {
        if v in dependents {
          var p :| p in graph && v in graph[p];
          assert p in Parents(graph, v);
        }
      }
    }

    method CountParents() returns (dep: Counter<V>)
      ensures forall v | v in graph :: Count(dep, v) == |Parents(graph, v)|
    {
      dep := map[];
      var links := GetEdges();
      for i := 0 to |links|
        invariant forall v | v in graph :: Count(dep, v) == |LinkedTo(links[..i], v)|
      {
        forall v | v in graph
          ensures |LinkedTo(links[..i + 1], v)| == |LinkedTo(links[..i], v)| + if links[i].1 == v then 1 else 0
        {
          LinkedToNext(links, i, v);
        }
        dep := dep[links[i].1 := Count(dep, links[i].1) + 1];
      }
      assert links[..|links|] == links;
      forall v | v in graph ensures LinkedTo(links, v) == Parents(graph, v) {
        LinksAreParents(links, v);
      }
    }

    lemma LinksAreParents(links: seq<(V, V)>, v: V)
      requires forall p, x :: (p, x) in links <==> p in graph && x in graph[p]
      ensures LinkedTo(links, v) == Parents(graph, v)
    {
      forall p ensures p in LinkedTo(links, v) <==> p in Parents(graph, v) {
        if p in LinkedTo(links, v) {
          var i :| 0 <= i < |links| && links[i].1 == v && links[i].0 == p;
          assert links[i] == (p, v);
        }
        if p in Parents(graph, v) {
          assert (p, v) in links;
        }
      }
    }

    method ToQueue(vertices: set<V>) returns (queue: seq<V>)
      ensures NoRepeat(queue) && forall v :: v in queue <==> v in vertices
    {
      queue := [];
      var todo := vertices;
      while todo != {}
        invariant todo <= vertices && NoRepeat(queue)
        invariant forall v :: v in queue <==> v in vertices - todo
        decreases todo
      {
        var v :| v in todo;
        NoRepeatConcat(queue, [v]);
        queue := queue + [v];
        todo := todo - {v};
      }
    }

    /** The children of the vertex that comes out lose one parent to wait for. */
    method Release(vertex: V, queue: seq<V>, dep: Counter<V>, ghost order: seq<V>) returns (queue': seq<V>, dep': Counter<V>)
      requires Closed(graph) && vertex in graph && Sorting(graph, order, queue, dep, graph[vertex])
      ensures Sorting(graph, order, queue', dep', {})
    {
      queue', dep' := queue, dep;
      var todo := graph[vertex];
      while todo != {}
        invariant todo <= graph[vertex] && Sorting(graph, order, queue', dep', todo)
        decreases todo
      {
        var node :| node in todo;
        ReleaseOne(graph, order, queue', dep', todo, node);
        dep' := dep'[node := Count(dep', node) - 1];
        if dep'[node] == 0 {
          queue' := queue' + [node];
        }
        todo := todo - {node};
      }
    }

    /** An order in which the vertices can be executed; cycles and what is below them are left out. */
    method TopologicalSort() returns (order: seq<V>)
      requires Closed(graph)
      ensures NoRepeat(order) && Respects(graph, order) && Exhausts(graph, order)
    {
      var dep := CountParents();
      var roots := RootVertices();
      var queue := ToQueue(roots);
      order := [];
      StartSorting(graph, queue, dep);
      while queue != []
        invariant Sorting(graph, order, queue, dep, {})
        decreases |graph.Keys| - |order|
      {
        SortingFits(graph, order, queue, dep);
        TakeFirst(graph, order, queue, dep);
        var vertex := queue[0];
        order := order + [vertex];
        queue, dep := Release(vertex, queue[1..], dep, order);
      }
      SortingEnds(graph, order, dep);
    }
  }

  lemma SortingFits<V>(g: Edges<V>, order: seq<V>, queue: seq<V>, dep: Counter<V>)
    requires Sorting(g, order, queue, dep, {})
    ensures |order| + |queue| <= |g.Keys|
  {
    Pigeonhole(order + queue, g.Keys);
  }
}
