/**
  What `delay` makes of a chain or group: the graphs of its members are connected into the
  flattened graph, and nothing else.
 */
module Flattening {
  import opened Graphs
  import opened Delayables
  import opened SeriesParallel

  /** The graph that the constructor of `d` makes. */
  function InitialEdges(d: Delayable): Edges<Delayable> {
    match d
    case Single(_) => map[d := {}]
    case Chain(_, ds) => ChainEdges(ds)
    case Group(_, ds) => GroupEdges(ds)
  }

  /** Nothing was added to the graphs of `d` and of its members since they were made. */
  ghost predicate AsBuilt(net: Net, d: Delayable) {
    && d.graph in net && net[d.graph] == InitialEdges(d)
    && (!d.Single? ==> forall i | 0 <= i < |d.members| :: AsBuilt(net, d.members[i]))
  }

  /** `d`, its members, their members, and so on. */
  function Parts(d: Delayable): set<Delayable> {
    {d} + if d.Single? then {} else set i, c | 0 <= i < |d.members| && c in Parts(d.members[i]) :: c
  }

  function PartGraphs(d: Delayable): set<Graph<Delayable>> {
    set c | c in Parts(d) :: c.graph
  }

  lemma {:induction false} PartAsBuilt(net: Net, d: Delayable, c: Delayable)
    requires AsBuilt(net, d) && c in Parts(d)
    ensures AsBuilt(net, c) && Parts(c) <= Parts(d)
    decreases d
  {
    if c != d {
      var i :| 0 <= i < |d.members| && c in Parts(d.members[i]);
      PartAsBuilt(net, d.members[i], c);
    }
  }

  lemma InitialVertices(d: Delayable, v: Delayable)
    requires v in InitialEdges(d)
    ensures v in Parts(d)
  {
    if !d.Single? {
      var i :| 0 <= i < |d.members| && d.members[i] == v;
      assert v in Parts(d.members[i]);
    }
  }

  /** The walk over the graphs does not leave the parts of `d`. */
  lemma {:induction false} ReachedAreParts(net: Net, d: Delayable, n: nat)
    requires AsBuilt(net, d)
    ensures Reached(net, d.graph, n) <= PartGraphs(d)
  {
    if n > 0 {
      ReachedAreParts(net, d, n - 1);
      var before := Reached(net, d.graph, n - 1);
      forall x | x in NextGraphs(net, before) ensures x in PartGraphs(d) {
        var g, v :| g in before && g in net && v in net[g] && v.graph == x;
        var c :| c in Parts(d) && c.graph == g;
        PartAsBuilt(net, d, c);
        InitialVertices(c, v);
      }
    } else {
      assert d in Parts(d);
    }
  }

  /** The walk comes to all parts of `d`. */
  lemma {:induction false} PartsAreVisited(net: Net, d: Delayable, gs: set<Graph<Delayable>>, c: Delayable)
    requires AsBuilt(net, d) && d.graph in gs && NextGraphs(net, gs) <= gs && c in Parts(d)
    ensures c.graph in gs
    decreases d
  {
    if c != d {
      var i :| 0 <= i < |d.members| && c in Parts(d.members[i]);
      assert d.members[i] in InitialEdges(d);
      assert d.members[i].graph in GraphsOf(net[d.graph]);
      assert d.members[i].graph in NextGraphs(net, gs);
      PartsAreVisited(net, d.members[i], gs, c);
    }
  }

  lemma VisitedAreParts(net: Net, d: Delayable, gs: set<Graph<Delayable>>)
    requires AsBuilt(net, d) && d.graph in gs && NextGraphs(net, gs) <= gs
    requires forall g | g in gs :: IsReached(net, d.graph, g)
    ensures gs == PartGraphs(d)
  {
    forall g | g in gs ensures g in PartGraphs(d) {
      var n: nat :| g in Reached(net, d.graph, n);
      ReachedAreParts(net, d, n);
    }
    forall c | c in Parts(d) ensures c.graph in gs {
      PartsAreVisited(net, d, gs, c);
    }
  }

  // ---------- edges ----------

  /** The edges that the own graph of `d` adds. */
  ghost predicate OwnEdge(d: Delayable, x: Delayable, y: Delayable) {
    exists i | 0 <= i :: Junction(d, i, x, y)
  }

  lemma OwnEdges(d: Delayable, x: Delayable, y: Delayable)
    ensures y in HeadsAfter(InitialEdges(d), InitialEdges(d).Keys, x) <==> OwnEdge(d, x, y)
  {
    var e := InitialEdges(d);
    if y in HeadsAfter(e, e.Keys, x) {
      var v :| v in e && x in Tail(v) && y in HeadsOf(e[v]);
      var n :| n in e[v] && y in Head(n);
      var i :| 0 <= i < |d.members| - 1 && d.members[i] == v && d.members[i + 1] == n;
      assert Junction(d, i, x, y);
    }
    if OwnEdge(d, x, y) {
      var i :| 0 <= i && Junction(d, i, x, y);
      var v, n := d.members[i], d.members[i + 1];
      assert n in e[v] && y in HeadsOf(e[v]);
    }
  }

  lemma PartOfMember(d: Delayable, c: Delayable) returns (i: nat)
    requires c in Parts(d) && c != d
    ensures !d.Single? && i < |d.members| && c in Parts(d.members[i])
  {
    i :| 0 <= i < |d.members| && c in Parts(d.members[i]);
  }

  lemma {:induction false} FlatEdges(d: Delayable, x: Delayable, y: Delayable)
    ensures FlatEdge(d, x, y) <==> exists c | c in Parts(d) :: OwnEdge(c, x, y)
    decreases d
  {
    if !d.Single? {
      forall i | 0 <= i < |d.members|
        ensures FlatEdge(d.members[i], x, y) <==> exists c | c in Parts(d.members[i]) :: OwnEdge(c, x, y)
      {
        FlatEdges(d.members[i], x, y);
      }
    }
    assert d in Parts(d);
    if FlatEdge(d, x, y) {
      var i :| 0 <= i < |d.members| && (FlatEdge(d.members[i], x, y) || Junction(d, i, x, y));
      if FlatEdge(d.members[i], x, y) {
        var c :| c in Parts(d.members[i]) && OwnEdge(c, x, y);
        assert c in Parts(d);
      } else {
        assert OwnEdge(d, x, y);
      }
    }
    if c :| c in Parts(d) && OwnEdge(c, x, y) {
      if c == d {
        var i :| 0 <= i && Junction(d, i, x, y);
      } else {
        var i := PartOfMember(d, c);
      }
    }
  }

  /** The connected graph has the edges of the flattened expression. */
  lemma ConnectedEdges(net: Net, d: Delayable, x: Delayable, y: Delayable)
    requires AsBuilt(net, d)
    ensures y in AllHeads(net, PartGraphs(d), x) <==> FlatEdge(d, x, y)
  {
    FlatEdges(d, x, y);
    if y in AllHeads(net, PartGraphs(d), x) {
      var g :| g in PartGraphs(d) && g in net && y in HeadsAfter(net[g], net[g].Keys, x);
      var c :| c in Parts(d) && c.graph == g;
      PartAsBuilt(net, d, c);
      OwnEdges(c, x, y);
    }
    if c :| c in Parts(d) && OwnEdge(c, x, y) {
      PartAsBuilt(net, d, c);
      OwnEdges(c, x, y);
      assert c.graph in PartGraphs(d);
    }
  }

  // ---------- vertices ----------

  lemma {:induction false} TailsAreUnits(net: Net, d: Delayable, x: Delayable)
    requires AsBuilt(net, d)
    ensures x in AllTails(net, PartGraphs(d)) <==> x in Units(d)
    decreases d
  {
    if x in AllTails(net, PartGraphs(d)) {
      var g :| g in PartGraphs(d) && g in net && x in TailsOf(net[g].Keys);
      var v :| v in net[g] && x in Tail(v);
      var c :| c in Parts(d) && c.graph == g;
      PartAsBuilt(net, d, c);
      InitialVertices(c, v);
      EndsAreUnits(v);
      PartUnits(d, v);
    }
    if x in Units(d) {
      UnitIsPart(d, x);
      PartAsBuilt(net, d, x);
      assert x in net[x.graph] && x in Tail(x);
      assert x in TailsOf(net[x.graph].Keys) && x.graph in PartGraphs(d);
    }
  }

  lemma {:induction false} PartUnits(d: Delayable, c: Delayable)
    requires c in Parts(d)
    ensures Units(c) <= Units(d)
    decreases d
  {
    if c != d {
      var i :| 0 <= i < |d.members| && c in Parts(d.members[i]);
      PartUnits(d.members[i], c);
      MemberUnits(d, i);
    }
  }

  lemma {:induction false} UnitIsPart(d: Delayable, x: Delayable)
    requires x in Units(d)
    ensures x in Parts(d) && x.Single?
    decreases d
  {
    if !d.Single? {
      var i := MemberOf(d, x);
      UnitIsPart(d.members[i], x);
    }
  }

  /**
    The graph that `delay` connects for a chain or group has exactly its delayables for vertices
    and exactly the edges of the flattened expression.
   */
  lemma ConnectedIsFlattened(net: Net, d: Delayable, gs: set<Graph<Delayable>>, r: Edges<Delayable>)
    requires AsBuilt(net, d) && IsConnected(net, gs, r) && d.graph in gs && NextGraphs(net, gs) <= gs
    requires forall g | g in gs :: IsReached(net, d.graph, g)
    ensures r.Keys == Units(d) && Closed(r)
    ensures forall x, y | x in Units(d) && y in Units(d) :: y in r[x] <==> FlatEdge(d, x, y)
  {
    VisitedAreParts(net, d, gs);
    forall x | x in AllTails(net, gs) + Units(d) ensures x in AllTails(net, gs) && x in Units(d) {
      TailsAreUnits(net, d, x);
    }
    assert AllTails(net, gs) == Units(d);
    forall x, y | x in r && y in r[x] ensures y in Units(d) {
      ConnectedEdges(net, d, x, y);
      EdgeIsOfUnits(d, x, y);
    }
    forall x, y | x in Units(d) && y in Units(d) ensures y in r[x] <==> FlatEdge(d, x, y) {
      ConnectedEdges(net, d, x, y);
    }
  }

  /** Builds the whole graph of a chain or group as it was made. */
  method Flatten(d: Delayable, ghost net: Net) returns (r: Graph<Delayable>)
    requires Delayables.Holds(net) && ClosedNet(net) && AsBuilt(net, d)
    ensures fresh(r) && r.graph.Keys == Units(d) && Closed(r.graph)
    ensures forall x, y | x in Units(d) && y in Units(d) :: y in r.graph[x] <==> FlatEdge(d, x, y)
  {
    ghost var gs;
    r, gs := ConnectGraphs(d.graph, net);
    ConnectedIsFlattened(net, d, gs, r.graph);
  }
}
