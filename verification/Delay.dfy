/**
  Delayables, chains and groups, and how their graphs are connected into one graph of jobs.
 */
module Delayables {
  import opened Prelude
  import opened Graphs

  /**
    What can be delayed. Each value has a graph object of its own, so equal values are one object.
    A chain has at least one member.
   */
  datatype Delayable =
    | Single(graph: Graph<Delayable>)
    | Chain(graph: Graph<Delayable>, members: seq<Delayable>)
    | Group(graph: Graph<Delayable>, members: seq<Delayable>)

  /** A chain asks its first member for the tail, and its last member for the head. */
  function Head(d: Delayable): set<Delayable> {
    match d
    case Single(_) => {d}
    case Chain(_, ds) => if ds == [] then {} else Tail(ds[0])
    case Group(_, ds) => set i, x | 0 <= i < |ds| && x in Head(ds[i]) :: x
  }

  function Tail(d: Delayable): set<Delayable> {
    match d
    case Single(_) => {d}
    case Chain(_, ds) => if ds == [] then {} else Head(ds[|ds| - 1])
    case Group(_, ds) => set i, x | 0 <= i < |ds| && x in Tail(ds[i]) :: x
  }

  // ---------- building ----------

  method NewDelayable() returns (d: Delayable)
    ensures d.Single? && fresh(d.graph) && d.graph.graph == map[d := {}]
  {
    var g := new Graph<Delayable>();
    d := Single(g);
    g.AddVertex(d);
  }

  /** The edges that a chain starts with. */
  function ChainEdges(ds: seq<Delayable>): Edges<Delayable> {
    map v | v in ds :: Followers(ds, v)
  }

  function Followers(ds: seq<Delayable>, v: Delayable): set<Delayable> {
    set i {:trigger ds[i]} | 0 <= i < |ds| - 1 && ds[i] == v :: ds[i + 1]
  }

  /** It is an error to make a chain of nothing. */
  method NewChain(ds: seq<Delayable>) returns (r: Option<Delayable>)
    ensures r.None? <==> ds == []
    ensures r.Some? ==> var d := r.value;
              d.Chain? && d.members == ds && fresh(d.graph) && d.graph.graph == ChainEdges(ds)
  {
    if ds == [] {
      return None;
    }
    var g := new Graph<Delayable>();
    var d := Chain(g, ds);
    r := Some(d);
    var head := ds[0];
    g.AddVertex(head);
    assert ds[..1] == [head] && Followers([head], head) == {};
    for i := 1 to |ds|
      invariant head == ds[i - 1]
      invariant fresh(g) && g.graph == ChainEdges(ds[..i])
    {
      g.AddEdge(head, ds[i]);
      ChainEdgesNext(ds, i, g.graph);
      head := ds[i];
    }
    assert ds[..|ds|] == ds;
  }

  lemma ChainEdgesNext(ds: seq<Delayable>, i: nat, e: Edges<Delayable>)
    requires 1 <= i < |ds|
    requires e.Keys == ChainEdges(ds[..i]).Keys + {ds[i - 1], ds[i]}
    requires forall v | v in e ::
               e[v] == if v == ds[i - 1] then Targets(ChainEdges(ds[..i]), v) + {ds[i]} else Targets(ChainEdges(ds[..i]), v)
    ensures e == ChainEdges(ds[..i + 1])
  {
    var front, next := ds[..i], ds[..i + 1];
    assert next == front + [ds[i]] && front[i - 1] == ds[i - 1];
    forall v | v in e ensures e[v] == Followers(next, v) {
      FollowersNext(front, ds[i], v);
    }
  }

  lemma FollowersNext(front: seq<Delayable>, d: Delayable, v: Delayable)
    requires front != []
    ensures Followers(front + [d], v) ==
              if v == front[|front| - 1] then Targets(ChainEdges(front), v) + {d} else Targets(ChainEdges(front), v)
  {
    var next := front + [d];
    assert Targets(ChainEdges(front), v) == Followers(front, v);
    assert forall i | 0 <= i < |front| :: next[i] == front[i];
    assert next[|front|] == d;
  }

  function GroupEdges(ds: seq<Delayable>): Edges<Delayable> {
    map v | v in ds :: {}
  }

  method NewGroup(ds: seq<Delayable>) returns (d: Delayable)
    ensures d.Group? && d.members == ds && fresh(d.graph) && d.graph.graph == GroupEdges(ds)
  {
    var g := new Graph<Delayable>();
    d := Group(g, ds);
    for i := 0 to |ds|
      invariant fresh(g) && g.graph == GroupEdges(ds[..i])
    {
      g.AddVertex(ds[i]);
      assert ds[..i + 1] == ds[..i] + [ds[i]];
    }
    assert ds[..|ds|] == ds;
  }

  /** Where `on_done` attaches what comes after `d`. */
  function Ends(d: Delayable): set<Delayable> {
    match d
    case Single(_) => {d}
    case Chain(_, ds) => if ds == [] then {} else {ds[|ds| - 1]}
    case Group(_, ds) => Elements(ds)
  }

  /** The vertices that new edges from all parents to all children bring in. */
  function NewKeys(parents: set<Delayable>, children: set<Delayable>): set<Delayable> {
    if parents == {} || children == {} then {} else parents + children
  }

  ghost predicate Attached(e: Edges<Delayable>, parents: set<Delayable>, children: set<Delayable>, e': Edges<Delayable>) {
    && e'.Keys == e.Keys + NewKeys(parents, children)
    && forall v | v in e' :: e'[v] == if v in parents then Targets(e, v) + children else Targets(e, v)
  }

  /** What is passed in will be executed when `d` is done. */
  method OnDone(d: Delayable, ds: seq<Delayable>)
    modifies d.graph
    ensures Attached(old(d.graph.graph), Ends(d), Elements(ds), d.graph.graph)
    ensures Closed(old(d.graph.graph)) && Ends(d) <= old(d.graph.graph).Keys ==> Closed(d.graph.graph)
  {
    ghost var e, done: set<Delayable> := d.graph.graph, {};
    var todo := Ends(d);
    while todo != {}
      invariant todo + done == Ends(d) && todo !! done
      invariant Attached(e, done, Elements(ds), d.graph.graph)
      decreases todo
    {
      var parent :| parent in todo;
      AttachTo(d, parent, ds, e, done);
      todo, done := todo - {parent}, done + {parent};
    }
  }

  method AttachTo(d: Delayable, parent: Delayable, ds: seq<Delayable>, ghost e: Edges<Delayable>, ghost done: set<Delayable>)
    requires Attached(e, done, Elements(ds), d.graph.graph)
    modifies d.graph
    ensures Attached(e, done + {parent}, Elements(ds), d.graph.graph)
  {
    ghost var e1 := d.graph.graph;
    for i := 0 to |ds|
      invariant Attached(e1, {parent}, Elements(ds[..i]), d.graph.graph)
    {
      ElementsSnoc(ds, i);
      AttachOne(d.graph, parent, ds[i], e1, Elements(ds[..i]));
    }
    assert ds[..|ds|] == ds;
    AttachedTwice(e, done, parent, Elements(ds), e1, d.graph.graph);
  }

  lemma ElementsAppend<T>(s: seq<T>, x: T)
    ensures Elements(s + [x]) == Elements(s) + {x}
  {
  }

  lemma ElementsSnoc<T>(s: seq<T>, i: nat)
    requires i < |s|
    ensures Elements(s[..i + 1]) == Elements(s[..i]) + {s[i]}
  {
    assert s[..i + 1] == s[..i] + [s[i]];
  }

  method AttachOne(g: Graph<Delayable>, parent: Delayable, child: Delayable, ghost e: Edges<Delayable>, ghost cs: set<Delayable>)
    requires Attached(e, {parent}, cs, g.graph)
    modifies g
    ensures Attached(e, {parent}, cs + {child}, g.graph)
  {
    ghost var e1 := g.graph;
    g.AddEdge(parent, child);
    NewKeysNext(e.Keys, parent, cs, child);
    assert Targets(e1, parent) == Targets(e, parent) + cs;
    forall v | v in g.graph && v != parent ensures g.graph[v] == Targets(e, v) {
    }
  }

  lemma NewKeysNext(keys: set<Delayable>, p: Delayable, cs: set<Delayable>, c: Delayable)
    ensures keys + NewKeys({p}, cs) + {p, c} == keys + NewKeys({p}, cs + {c})
  {
  }

  lemma AttachedTwice(e: Edges<Delayable>, done: set<Delayable>, p: Delayable, cs: set<Delayable>,
                      e1: Edges<Delayable>, e2: Edges<Delayable>)
    requires Attached(e, done, cs, e1) && Attached(e1, {p}, cs, e2)
    ensures Attached(e, done + {p}, cs, e2)
  {
  }

  // ---------- merging ----------

  function TailsOf(vs: set<Delayable>): set<Delayable> {
    set v, t | v in vs && t in Tail(v) :: t
  }

  function HeadsOf(ns: set<Delayable>): set<Delayable> {
    set n, h | n in ns && h in Head(n) :: h
  }

  /** The heads that the edges of these vertices connect with tail `t`. */
  function HeadsAfter(e: Edges<Delayable>, vs: set<Delayable>, t: Delayable): set<Delayable> {
    set v, h | v in vs && v in e && t in Tail(v) && h in HeadsOf(e[v]) :: h
  }

  lemma TailsOfNext(vs: set<Delayable>, v: Delayable)
    ensures TailsOf(vs + {v}) == TailsOf(vs) + Tail(v)
  {
  }

  lemma HeadsAfterNext(e: Edges<Delayable>, vs: set<Delayable>, v: Delayable, t: Delayable)
    requires v in e
    ensures HeadsAfter(e, vs + {v}, t) == HeadsAfter(e, vs, t) + if t in Tail(v) then HeadsOf(e[v]) else {}
  {
  }

  /** `r` is `a` with the edges of these vertices of `e`, from tails to heads. */
  ghost predicate IsMerge(a: Edges<Delayable>, e: Edges<Delayable>, vs: set<Delayable>, r: Edges<Delayable>) {
    && r.Keys == a.Keys + TailsOf(vs)
    && forall t | t in r :: r[t] == Targets(a, t) + HeadsAfter(e, vs, t)
  }

  lemma NoTailNoHeads(e: Edges<Delayable>, vs: set<Delayable>, t: Delayable)
    requires t !in TailsOf(vs)
    ensures HeadsAfter(e, vs, t) == {}
  {
  }

  lemma MergeNextAt(a: Edges<Delayable>, e: Edges<Delayable>, vs: set<Delayable>, v: Delayable,
                    r: Edges<Delayable>, r': Edges<Delayable>, t: Delayable)
    requires IsMerge(a, e, vs, r) && v in e && r'.Keys == r.Keys + Tail(v) && t in r'
    requires r'[t] == Targets(r, t) + if t in Tail(v) then HeadsOf(e[v]) else {}
    ensures r'[t] == Targets(a, t) + HeadsAfter(e, vs + {v}, t)
  {
    HeadsAfterNext(e, vs, v, t);
    if t !in r {
      NoTailNoHeads(e, vs, t);
    }
  }

  /** Adds the edges of a graph to `into`, from tails to heads. */
  method MergeGraph(into: Graph<Delayable>, g: Graph<Delayable>)
    requires into != g
    modifies into
    ensures IsMerge(old(into.graph), g.graph, g.graph.Keys, into.graph)
  {
    ghost var start, e, done: set<Delayable> := into.graph, g.graph, {};
    var todo := g.graph.Keys;
    while todo != {}
      invariant done + todo == e.Keys && g.graph == e
      invariant IsMerge(start, e, done, into.graph)
      decreases todo
    {
      var vertex :| vertex in todo;
      ghost var before := into.graph;
      MergeVertex(into, Tail(vertex), HeadsOf(g.graph[vertex]));
      TailsOfNext(done, vertex);
      forall t | t in into.graph ensures into.graph[t] == Targets(start, t) + HeadsAfter(e, done + {vertex}, t) {
        MergeNextAt(start, e, done, vertex, before, into.graph, t);
      }
      todo, done := todo - {vertex}, done + {vertex};
    }
    assert done == e.Keys;
  }

  /** Connects the tails with the heads. */
  method MergeVertex(into: Graph<Delayable>, tails: set<Delayable>, heads: set<Delayable>)
    modifies into
    ensures into.graph.Keys == old(into.graph).Keys + tails
    ensures forall t | t in into.graph ::
              into.graph[t] == Targets(old(into.graph), t) + if t in tails then heads else {}
  {
    ghost var start, done: set<Delayable> := into.graph, {};
    var todo := tails;
    while todo != {}
      invariant done + todo == tails && done !! todo
      invariant into.graph.Keys == start.Keys + done
      invariant forall t | t in into.graph :: into.graph[t] == Targets(start, t) + if t in done then heads else {}
      decreases todo
    {
      var tail :| tail in todo;
      into.graph := into.graph[tail := Targets(into.graph, tail) + heads];
      todo, done := todo - {tail}, done + {tail};
    }
    assert done == tails;
  }

  // ---------- connecting ----------

  /** The graph objects that there are, with their edges. */
  type Net = map<Graph<Delayable>, Edges<Delayable>>

  function GraphsOf(e: Edges<Delayable>): set<Graph<Delayable>> {
    set v | v in e :: v.graph
  }

  function NextGraphs(net: Net, gs: set<Graph<Delayable>>): set<Graph<Delayable>> {
    set g, x | g in gs && g in net && x in GraphsOf(net[g]) :: x
  }

  predicate ClosedNet(net: Net) {
    forall g | g in net :: GraphsOf(net[g]) <= net.Keys
  }

  /** The graphs that `n` steps from graph to graph of a vertex lead to. */
  function Reached(net: Net, start: Graph<Delayable>, n: nat): set<Graph<Delayable>> {
    if n == 0 then {start} else Reached(net, start, n - 1) + NextGraphs(net, Reached(net, start, n - 1))
  }

  ghost predicate IsReached(net: Net, start: Graph<Delayable>, g: Graph<Delayable>) {
    exists n: nat :: g in Reached(net, start, n)
  }

  lemma ReachedNext(net: Net, start: Graph<Delayable>, g: Graph<Delayable>, x: Graph<Delayable>)
    requires IsReached(net, start, g) && g in net && x in GraphsOf(net[g])
    ensures IsReached(net, start, x)
  {
    var n: nat :| g in Reached(net, start, n);
    assert x in Reached(net, start, n + 1);
  }

  function AllTails(net: Net, gs: set<Graph<Delayable>>): set<Delayable> {
    set g, t | g in gs && g in net && t in TailsOf(net[g].Keys) :: t
  }

  function AllHeads(net: Net, gs: set<Graph<Delayable>>, t: Delayable): set<Delayable> {
    set g, h | g in gs && g in net && h in HeadsAfter(net[g], net[g].Keys, t) :: h
  }

  /** `r` has the vertices and edges of all these graphs, from tails to heads. */
  ghost predicate IsConnected(net: Net, gs: set<Graph<Delayable>>, r: Edges<Delayable>) {
    r.Keys == AllTails(net, gs) && forall t | t in r :: r[t] == AllHeads(net, gs, t)
  }

  lemma AllHeadsNext(net: Net, gs: set<Graph<Delayable>>, g: Graph<Delayable>, t: Delayable)
    requires g in net
    ensures AllHeads(net, gs + {g}, t) == AllHeads(net, gs, t) + HeadsAfter(net[g], net[g].Keys, t)
    ensures t !in AllTails(net, gs) ==> AllHeads(net, gs, t) == {}
  {
    if t !in AllTails(net, gs) {
      forall x | x in gs && x in net ensures HeadsAfter(net[x], net[x].Keys, t) == {} {
        assert t in TailsOf(net[x].Keys) ==> t in AllTails(net, gs);
        NoTailNoHeads(net[x], net[x].Keys, t);
      }
    }
  }

  lemma AllTailsNext(net: Net, gs: set<Graph<Delayable>>, g: Graph<Delayable>)
    requires g in net
    ensures AllTails(net, gs + {g}) == AllTails(net, gs) + TailsOf(net[g].Keys)
  {
  }

  lemma ConnectNext(net: Net, gs: set<Graph<Delayable>>, g: Graph<Delayable>, r: Edges<Delayable>, r': Edges<Delayable>)
    requires IsConnected(net, gs, r) && g in net && IsMerge(r, net[g], net[g].Keys, r')
    ensures IsConnected(net, gs + {g}, r')
  {
    AllTailsNext(net, gs, g);
    forall t | t in r' ensures r'[t] == AllHeads(net, gs + {g}, t) {
      AllHeadsNext(net, gs, g, t);
    }
  }

  /** The heap has these graphs. */
  ghost predicate Holds(net: Net)
    reads net.Keys
  {
    forall g | g in net :: g.graph == net[g]
  }

  method ConnectOne(r: Graph<Delayable>, g: Graph<Delayable>, ghost net: Net, ghost gs: set<Graph<Delayable>>)
    requires Holds(net) && g in net && r !in net && IsConnected(net, gs, r.graph)
    modifies r
    ensures Holds(net) && IsConnected(net, gs + {g}, r.graph)
  {
    ghost var before := r.graph;
    MergeGraph(r, g);
    ConnectNext(net, gs, g, before, r.graph);
  }

  /** Merges the graphs of all vertices, and puts them on the stack. */
  method Visit(current: Graph<Delayable>, r: Graph<Delayable>, stack: seq<Graph<Delayable>>,
               ghost net: Net, ghost gs: set<Graph<Delayable>>) returns (stack': seq<Graph<Delayable>>)
    requires Holds(net) && ClosedNet(net) && current in net && r !in net && IsConnected(net, gs, r.graph)
    modifies r
    ensures Holds(net) && IsConnected(net, gs + GraphsOf(net[current]), r.graph)
    ensures Elements(stack') == Elements(stack) + GraphsOf(net[current])
  {
    stack' := stack;
    ghost var done: set<Graph<Delayable>> := {};
    var todo := current.graph.Keys;
    while todo != {}
      invariant todo <= net[current].Keys && done <= GraphsOf(net[current])
      invariant forall v | v in net[current] && v !in todo :: v.graph in done
      invariant Holds(net) && IsConnected(net, gs + done, r.graph)
      invariant Elements(stack') == Elements(stack) + done
      decreases todo
    {
      var vertex :| vertex in todo;
      ghost var next := done + {vertex.graph};
      ConnectOne(r, vertex.graph, net, gs + done);
      assert gs + done + {vertex.graph} == gs + next;
      assert IsConnected(net, gs + next, r.graph);
      ElementsAppend(stack', vertex.graph);
      stack', done, todo := stack' + [vertex.graph], next, todo - {vertex};
    }
    assert done == GraphsOf(net[current]);
  }

  /** What the walk over the graphs has seen, and what it still has to look at. */
  ghost predicate Walking(net: Net, start: Graph<Delayable>, seen: set<Graph<Delayable>>, stack: set<Graph<Delayable>>) {
    && seen + stack <= net.Keys
    && start in seen + stack
    && NextGraphs(net, seen) <= seen + stack <= NextGraphs(net, seen) + {start}
    && forall g | g in seen + stack :: IsReached(net, start, g)
  }

  lemma NextGraphsNext(net: Net, seen: set<Graph<Delayable>>, g: Graph<Delayable>)
    requires g in net
    ensures NextGraphs(net, seen + {g}) == NextGraphs(net, seen) + GraphsOf(net[g])
  {
  }

  lemma WalkingNext(net: Net, start: Graph<Delayable>, seen: set<Graph<Delayable>>, rest: set<Graph<Delayable>>, g: Graph<Delayable>)
    requires ClosedNet(net) && Walking(net, start, seen, rest + {g})
    ensures Walking(net, start, seen + {g}, rest + GraphsOf(net[g]))
  {
    NextGraphsNext(net, seen, g);
    assert seen + {g} + (rest + GraphsOf(net[g])) == seen + (rest + {g}) + GraphsOf(net[g]);
    forall x | x in GraphsOf(net[g]) ensures IsReached(net, start, x) {
      assert g in seen + (rest + {g});
      ReachedNext(net, start, g, x);
    }
  }

  /** One graph from the stack is looked at, unless it was seen before. */
  method VisitFirst(stack: seq<Graph<Delayable>>, seen: set<Graph<Delayable>>, r: Graph<Delayable>,
                    ghost net: Net, ghost start: Graph<Delayable>)
    returns (stack': seq<Graph<Delayable>>, seen': set<Graph<Delayable>>)
    requires Holds(net) && ClosedNet(net) && r !in net && stack != []
    requires Walking(net, start, seen, Elements(stack)) && IsConnected(net, {start} + NextGraphs(net, seen), r.graph)
    modifies r
    ensures Holds(net)
    ensures Walking(net, start, seen', Elements(stack')) && IsConnected(net, {start} + NextGraphs(net, seen'), r.graph)
    ensures seen < seen' || (seen == seen' && |stack'| < |stack|)
  {
    var current := stack[0];
    stack', seen' := stack[1..], seen;
    assert Elements(stack) == Elements(stack') + {current} by {
      assert stack == [current] + stack';
    }
    if current in seen {
      assert seen + Elements(stack') == seen + Elements(stack);
    } else {
      stack' := VisitNew(current, stack', seen, r, net, start);
      seen' := seen + {current};
    }
  }

  method VisitNew(current: Graph<Delayable>, rest: seq<Graph<Delayable>>, ghost seen: set<Graph<Delayable>>,
                  r: Graph<Delayable>, ghost net: Net, ghost start: Graph<Delayable>) returns (stack': seq<Graph<Delayable>>)
    requires Holds(net) && ClosedNet(net) && r !in net && current in net
    requires Walking(net, start, seen, Elements(rest) + {current})
    requires IsConnected(net, {start} + NextGraphs(net, seen), r.graph)
    modifies r
    ensures Holds(net)
    ensures Walking(net, start, seen + {current}, Elements(stack'))
    ensures IsConnected(net, {start} + NextGraphs(net, seen + {current}), r.graph)
  {
    WalkingNext(net, start, seen, Elements(rest), current);
    NextGraphsNext(net, seen, current);
    ghost var gs := {start} + NextGraphs(net, seen);
    assert gs + GraphsOf(net[current]) == {start} + NextGraphs(net, seen + {current});
    stack' := Visit(current, r, rest, net, gs);
  }

  /**
    The whole graph: the graphs of all vertices are visited, and the graphs of their vertices,
    until there is none left. The ghost result is the set of graphs visited.
   */
  method ConnectGraphs(start: Graph<Delayable>, ghost net: Net) returns (r: Graph<Delayable>, ghost gs: set<Graph<Delayable>>)
    requires Holds(net) && ClosedNet(net) && start in net
    ensures fresh(r) && Holds(net) && IsConnected(net, gs, r.graph)
    ensures start in gs && NextGraphs(net, gs) <= gs <= net.Keys && forall g | g in gs :: IsReached(net, start, g)
  {
    r := new Graph<Delayable>();
    ConnectOne(r, start, net, {});
    var seen: set<Graph<Delayable>> := {};
    var stack := [start];
    StartWalking(net, start);
    while stack != []
      invariant Holds(net) && r !in net
      invariant Walking(net, start, seen, Elements(stack))
      invariant IsConnected(net, {start} + NextGraphs(net, seen), r.graph)
      decreases net.Keys - seen, |stack|
    {
      stack, seen := VisitFirst(stack, seen, r, net, start);
    }
    gs := seen;
    assert seen + Elements(stack) == seen;
    assert {start} + NextGraphs(net, seen) == seen;
  }

  lemma StartWalking(net: Net, start: Graph<Delayable>)
    requires start in net
    ensures Walking(net, start, {}, Elements([start]))
    ensures {start} + NextGraphs(net, {}) == {} + {start}
  {
    assert Elements([start]) == {start} && NextGraphs(net, {}) == {};
    assert start in Reached(net, start, 0);
  }

  // ---------- what the connected graph is ----------

  lemma {:induction false} ReachedAreVisited(net: Net, start: Graph<Delayable>, gs: set<Graph<Delayable>>, n: nat)
    requires start in gs && NextGraphs(net, gs) <= gs
    ensures Reached(net, start, n) <= gs
  {
    if n > 0 {
      ReachedAreVisited(net, start, gs, n - 1);
      assert NextGraphs(net, Reached(net, start, n - 1)) <= NextGraphs(net, gs);
    }
  }

  /** A delayable is a vertex of its own graph; chains and groups have their members there. */
  ghost predicate Wired(net: Net, d: Delayable) {
    && d.graph in net
    && match d
       case Single(g) => d in net[g]
       case Chain(g, ds) => ds != [] && Elements(ds) <= net[g].Keys
       case Group(g, ds) => Elements(ds) <= net[g].Keys
  }

  ghost predicate WiredNet(net: Net) {
    forall g {:trigger WiredAt(net, g)} | g in net :: WiredAt(net, g)
  }

  ghost predicate WiredAt(net: Net, g: Graph<Delayable>)
    requires g in net
  {
    Closed(net[g]) && forall v {:trigger Wired(net, v)} | v in net[g] :: Wired(net, v)
  }

  lemma VertexWired(net: Net, gs: set<Graph<Delayable>>, g: Graph<Delayable>, d: Delayable)
    requires WiredNet(net) && NextGraphs(net, gs) <= gs <= net.Keys && g in gs && d in net[g]
    ensures Wired(net, d) && d.graph in gs
  {
    assert WiredAt(net, g);
    assert d.graph in GraphsOf(net[g]);
    assert d.graph in NextGraphs(net, gs);
  }

  function SinglesIn(net: Net, gs: set<Graph<Delayable>>): set<Delayable> {
    set g, v | g in gs && g in net && v in net[g] && v.Single? :: v
  }

  lemma {:induction false} EndsAreSingles(net: Net, gs: set<Graph<Delayable>>, g: Graph<Delayable>, d: Delayable)
    requires WiredNet(net) && NextGraphs(net, gs) <= gs <= net.Keys && g in gs && d in net[g]
    ensures Head(d) <= SinglesIn(net, gs) && Tail(d) <= SinglesIn(net, gs)
    decreases d
  {
    VertexWired(net, gs, g, d);
    match d
    case Single(_) =>
    case Chain(_, ds) =>
      assert ds[0] in Elements(ds) && ds[|ds| - 1] in Elements(ds);
      EndsAreSingles(net, gs, d.graph, ds[0]);
      EndsAreSingles(net, gs, d.graph, ds[|ds| - 1]);
    case Group(_, ds) =>
      forall i | 0 <= i < |ds| ensures Head(ds[i]) <= SinglesIn(net, gs) && Tail(ds[i]) <= SinglesIn(net, gs) {
        assert ds[i] in Elements(ds);
        EndsAreSingles(net, gs, d.graph, ds[i]);
      }
  }

  /**
    The vertices of the connected graph are the delayables among the vertices of all graphs that
    can be reached, and every edge leads to such a vertex.
   */
  lemma ConnectedIsClosed(net: Net, start: Graph<Delayable>, gs: set<Graph<Delayable>>, r: Edges<Delayable>)
    requires WiredNet(net) && start in gs && NextGraphs(net, gs) <= gs <= net.Keys && IsConnected(net, gs, r)
    ensures r.Keys == SinglesIn(net, gs) && Closed(r)
  {
    forall t | t in AllTails(net, gs) ensures t in SinglesIn(net, gs) {
      var g, v :| g in gs && g in net && v in net[g] && t in Tail(v);
      EndsAreSingles(net, gs, g, v);
    }
    forall t | t in SinglesIn(net, gs) ensures t in AllTails(net, gs) {
      var g :| g in gs && g in net && t in net[g] && t.Single?;
      assert t in Tail(t) && t in TailsOf(net[g].Keys);
    }
    forall t, h | t in r && h in r[t] ensures h in SinglesIn(net, gs) {
      TargetIsSingle(net, gs, t, h);
    }
  }

  lemma TargetIsSingle(net: Net, gs: set<Graph<Delayable>>, t: Delayable, h: Delayable)
    requires WiredNet(net) && NextGraphs(net, gs) <= gs <= net.Keys && h in AllHeads(net, gs, t)
    ensures h in SinglesIn(net, gs)
  {
    var g :| g in gs && g in net && h in HeadsAfter(net[g], net[g].Keys, t);
    var v :| v in net[g] && t in Tail(v) && h in HeadsOf(net[g][v]);
    var n :| n in net[g][v] && h in Head(n);
    assert WiredAt(net, g) && n in net[g];
    EndsAreSingles(net, gs, g, n);
  }
}
