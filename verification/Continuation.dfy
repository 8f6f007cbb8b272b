/**
  What `on_done` makes of two expressions: the connected graph is that of a longer chain, so it
  keeps the order exactly when flattening this chain does.
 */
module Continuations {
  import opened Graphs
  import opened Delayables
  import opened SeriesParallel
  import opened Flattening

  /** The chain that `a.on_done(b)` stands for. */
  function Then(a: Delayable, b: Delayable): Delayable {
    if a.Chain? then Chain(a.graph, a.members + [b]) else Chain(a.graph, [a, b])
  }

  /** The graph objects when the graph of `a` was made, before `on_done`. */
  function Before(net: Net, a: Delayable): Net {
    net[a.graph := InitialEdges(a)]
  }

  /** `a` and `b` are as they were made, but for the edges that `a.on_done(b)` has added. */
  ghost predicate Continued(net: Net, a: Delayable, b: Delayable) {
    && a.graph in net && Attached(InitialEdges(a), Ends(a), {b}, net[a.graph])
    && AsBuilt(Before(net, a), a) && AsBuilt(Before(net, a), b)
    && forall c | c in Parts(a) + Parts(b) :: c.graph == a.graph ==> c == a
  }

  /** Without ends, as for an empty group, nothing is attached: the jobs of `b` are not in the connected graph. */
  lemma NothingContinued(net: Net, a: Delayable, b: Delayable, gs: set<Graph<Delayable>>, r: Edges<Delayable>)
    requires Continued(net, a, b) && Ends(a) == {}
    requires IsConnected(net, gs, r) && a.graph in gs && NextGraphs(net, gs) <= gs
    requires forall g | g in gs :: IsReached(net, a.graph, g)
    ensures r.Keys == Units(a)
  {
    assert net[a.graph] == InitialEdges(a);
    assert Before(net, a) == net;
    ConnectedIsFlattened(net, a, gs, r);
  }

  // ---------- the graphs that are visited ----------

  lemma AttachedVertices(net: Net, a: Delayable, b: Delayable)
    requires Continued(net, a, b) && Ends(a) != {}
    ensures net[a.graph].Keys == InitialEdges(a).Keys + {b}
  {
  }

  lemma NextIsPart(net: Net, a: Delayable, b: Delayable, g: Graph<Delayable>, v: Delayable)
    requires Continued(net, a, b) && Ends(a) != {}
    requires g in PartGraphs(a) + PartGraphs(b) && g in net && v in net[g]
    ensures v.graph in PartGraphs(a) + PartGraphs(b)
  {
    var c :| c in Parts(a) + Parts(b) && c.graph == g;
    if c == a {
      AttachedVertices(net, a, b);
      if v == b {
        assert b in Parts(b);
      } else {
        InitialVertices(a, v);
      }
    } else {
      PartGraphIs(net, a, b, c);
      InitialVertices(c, v);
      if c in Parts(a) {
        PartAsBuilt(Before(net, a), a, c);
      } else {
        PartAsBuilt(Before(net, a), b, c);
      }
    }
  }

  lemma PartGraphIs(net: Net, a: Delayable, b: Delayable, c: Delayable)
    requires Continued(net, a, b) && c in Parts(a) + Parts(b) && c != a
    ensures c.graph in net && net[c.graph] == InitialEdges(c)
  {
    if c in Parts(a) {
      PartAsBuilt(Before(net, a), a, c);
    } else {
      PartAsBuilt(Before(net, a), b, c);
    }
    assert c.graph != a.graph;
  }

  lemma NextInBoth(net: Net, a: Delayable, b: Delayable, gs: set<Graph<Delayable>>)
    requires Continued(net, a, b) && Ends(a) != {} && gs <= PartGraphs(a) + PartGraphs(b)
    ensures NextGraphs(net, gs) <= PartGraphs(a) + PartGraphs(b)
  {
    forall x | x in NextGraphs(net, gs) ensures x in PartGraphs(a) + PartGraphs(b) {
      var g, v :| g in gs && g in net && v in net[g] && v.graph == x;
      NextIsPart(net, a, b, g, v);
    }
  }

  lemma {:induction false} ReachedInBoth(net: Net, a: Delayable, b: Delayable, n: nat)
    requires Continued(net, a, b) && Ends(a) != {}
    ensures Reached(net, a.graph, n) <= PartGraphs(a) + PartGraphs(b)
  {
    if n == 0 {
      assert a in Parts(a);
      assert Reached(net, a.graph, 0) == {a.graph};
    } else {
      ReachedInBoth(net, a, b, n - 1);
      var before := Reached(net, a.graph, n - 1);
      NextInBoth(net, a, b, before);
      assert Reached(net, a.graph, n) == before + NextGraphs(net, before);
    }
  }

  lemma ClosedBefore(net: Net, a: Delayable, b: Delayable, gs: set<Graph<Delayable>>)
    requires Continued(net, a, b) && NextGraphs(net, gs) <= gs
    ensures NextGraphs(Before(net, a), gs) <= gs
  {
    forall x | x in NextGraphs(Before(net, a), gs) ensures x in NextGraphs(net, gs) {
      var g, v :| g in gs && g in Before(net, a) && v in Before(net, a)[g] && v.graph == x;
      assert v in net[g];
      assert x in GraphsOf(net[g]);
    }
  }

  lemma VisitedBoth(net: Net, a: Delayable, b: Delayable, gs: set<Graph<Delayable>>)
    requires Continued(net, a, b) && Ends(a) != {} && a.graph in gs && NextGraphs(net, gs) <= gs
    requires forall g | g in gs :: IsReached(net, a.graph, g)
    ensures gs == PartGraphs(a) + PartGraphs(b)
  {
    forall g | g in gs ensures g in PartGraphs(a) + PartGraphs(b) {
      var n: nat :| g in Reached(net, a.graph, n);
      ReachedInBoth(net, a, b, n);
    }
    ClosedBefore(net, a, b, gs);
    AttachedVertices(net, a, b);
    assert b.graph in GraphsOf(net[a.graph]);
    assert b.graph in NextGraphs(net, gs);
    forall c | c in Parts(a) ensures c.graph in gs {
      PartsAreVisited(Before(net, a), a, gs, c);
    }
    forall c | c in Parts(b) ensures c.graph in gs {
      PartsAreVisited(Before(net, a), b, gs, c);
    }
  }

  // ---------- edges and vertices ----------

  /** The edges that `on_done` brings. */
  ghost predicate Bridges(a: Delayable, b: Delayable, x: Delayable, y: Delayable) {
    x in TailsOf(Ends(a)) && y in Head(b)
  }

  /** The edge from `v` to `n` connects `x` with `y`. */
  ghost predicate Carries(e: Edges<Delayable>, v: Delayable, n: Delayable, x: Delayable, y: Delayable) {
    v in e && n in e[v] && x in Tail(v) && y in Head(n)
  }

  lemma HeadsAre(e: Edges<Delayable>, x: Delayable, y: Delayable)
    ensures y in HeadsAfter(e, e.Keys, x) <==> exists v, n | v in e && n in e[v] :: Carries(e, v, n, x, y)
  {
    if v, n :| v in e && n in e[v] && Carries(e, v, n, x, y) {
      assert y in HeadsOf(e[v]);
    }
    if y in HeadsAfter(e, e.Keys, x) {
      var v :| v in e && x in Tail(v) && y in HeadsOf(e[v]);
      var n :| n in e[v] && y in Head(n);
      assert Carries(e, v, n, x, y);
    }
  }

  lemma AttachedHeads(net: Net, a: Delayable, b: Delayable, x: Delayable, y: Delayable)
    requires Continued(net, a, b)
    ensures y in HeadsAfter(net[a.graph], net[a.graph].Keys, x) <==>
              y in HeadsAfter(InitialEdges(a), InitialEdges(a).Keys, x) || Bridges(a, b, x, y)
  {
    HeadsAre(InitialEdges(a), x, y);
    HeadsAre(net[a.graph], x, y);
    AttachedCarries(InitialEdges(a), a, b, net[a.graph], x, y);
  }

  lemma AttachedCarries(e: Edges<Delayable>, a: Delayable, b: Delayable, e': Edges<Delayable>, x: Delayable, y: Delayable)
    requires Attached(e, Ends(a), {b}, e')
    ensures (exists v, n | v in e' && n in e'[v] :: Carries(e', v, n, x, y)) <==>
              (exists v, n | v in e && n in e[v] :: Carries(e, v, n, x, y)) || Bridges(a, b, x, y)
  {
    if v, n :| v in e' && n in e'[v] && Carries(e', v, n, x, y) {
      assert Carries(e, v, n, x, y) || (v in Ends(a) && n == b);
    }
    if v, n :| v in e && n in e[v] && Carries(e, v, n, x, y) {
      assert Carries(e', v, n, x, y);
    }
    if Bridges(a, b, x, y) {
      var v :| v in Ends(a) && x in Tail(v);
      assert Carries(e', v, b, x, y);
    }
  }

  lemma HeadsOutside(net: Net, a: Delayable, b: Delayable, x: Delayable, y: Delayable)
    requires Continued(net, a, b)
    requires y in AllHeads(Before(net, a), PartGraphs(a), x) || y in AllHeads(Before(net, a), PartGraphs(b), x)
    ensures y in AllHeads(net, PartGraphs(a) + PartGraphs(b), x)
  {
    var gs, net0 := PartGraphs(a) + PartGraphs(b), Before(net, a);
    var g :| g in gs && g in net0 && y in HeadsAfter(net0[g], net0[g].Keys, x);
    if g == a.graph {
      AttachedHeads(net, a, b, x, y);
    }
    assert g in net && y in HeadsAfter(net[g], net[g].Keys, x);
  }

  lemma HeadsBefore(net: Net, a: Delayable, b: Delayable, x: Delayable, y: Delayable)
    requires Continued(net, a, b)
    ensures y in AllHeads(net, PartGraphs(a) + PartGraphs(b), x) <==>
              || y in AllHeads(Before(net, a), PartGraphs(a), x) || y in AllHeads(Before(net, a), PartGraphs(b), x)
              || Bridges(a, b, x, y)
  {
    var gs, net0 := PartGraphs(a) + PartGraphs(b), Before(net, a);
    assert a in Parts(a) && a.graph in PartGraphs(a);
    AttachedHeads(net, a, b, x, y);
    if y in AllHeads(net, gs, x) {
      var g :| g in gs && g in net && y in HeadsAfter(net[g], net[g].Keys, x);
      assert g != a.graph ==> net0[g] == net[g];
    } else if y in AllHeads(net0, PartGraphs(a), x) || y in AllHeads(net0, PartGraphs(b), x) {
      HeadsOutside(net, a, b, x, y);
    }
  }

  lemma ContinuedEdges(net: Net, a: Delayable, b: Delayable, x: Delayable, y: Delayable)
    requires Continued(net, a, b)
    ensures y in AllHeads(net, PartGraphs(a) + PartGraphs(b), x) <==>
              FlatEdge(a, x, y) || FlatEdge(b, x, y) || Bridges(a, b, x, y)
  {
    HeadsBefore(net, a, b, x, y);
    ConnectedEdges(Before(net, a), a, x, y);
    ConnectedEdges(Before(net, a), b, x, y);
  }

  lemma TailsBefore(net: Net, a: Delayable, b: Delayable, x: Delayable)
    requires Continued(net, a, b)
    requires x in AllTails(Before(net, a), PartGraphs(a)) + AllTails(Before(net, a), PartGraphs(b))
    ensures x in AllTails(net, PartGraphs(a) + PartGraphs(b))
  {
    var gs, net0 := PartGraphs(a) + PartGraphs(b), Before(net, a);
    var g :| g in gs && g in net0 && x in TailsOf(net0[g].Keys);
    var v :| v in net0[g] && x in Tail(v);
    assert v in net[g] && x in TailsOf(net[g].Keys);
  }

  lemma TailsAfter(net: Net, a: Delayable, b: Delayable, x: Delayable)
    requires Continued(net, a, b) && Ends(a) != {} && x in AllTails(net, PartGraphs(a) + PartGraphs(b))
    ensures x in Tail(b) || x in AllTails(Before(net, a), PartGraphs(a)) + AllTails(Before(net, a), PartGraphs(b))
  {
    var gs, net0 := PartGraphs(a) + PartGraphs(b), Before(net, a);
    AttachedVertices(net, a, b);
    var g :| g in gs && g in net && x in TailsOf(net[g].Keys);
    var v :| v in net[g] && x in Tail(v);
    if v in net0[g] {
      assert x in TailsOf(net0[g].Keys);
    }
  }

  lemma ContinuedTails(net: Net, a: Delayable, b: Delayable, x: Delayable)
    requires Continued(net, a, b) && Ends(a) != {}
    ensures x in AllTails(net, PartGraphs(a) + PartGraphs(b)) <==> x in Units(a) || x in Units(b)
  {
    TailsAreUnits(Before(net, a), a, x);
    TailsAreUnits(Before(net, a), b, x);
    if x in AllTails(net, PartGraphs(a) + PartGraphs(b)) {
      TailsAfter(net, a, b, x);
      EndsAreUnits(b);
    }
    if x in Units(a) + Units(b) {
      TailsBefore(net, a, b, x);
    }
  }

  // ---------- the longer chain ----------

  lemma EndTails(a: Delayable)
    requires !a.Chain?
    ensures TailsOf(Ends(a)) == Tail(a)
  {
    if a.Group? {
      forall x ensures x in TailsOf(Ends(a)) <==> x in Tail(a) {
        if x in TailsOf(Ends(a)) {
          var v :| v in Elements(a.members) && x in Tail(v);
          var i :| 0 <= i < |a.members| && a.members[i] == v;
        }
        if x in Tail(a) {
          var i :| 0 <= i < |a.members| && x in Tail(a.members[i]);
          assert a.members[i] in Ends(a);
        }
      }
    }
  }

  lemma ThenUnits(a: Delayable, b: Delayable)
    ensures Units(Then(a, b)) == Units(a) + Units(b)
  {
    var e := Then(a, b);
    var n := |e.members| - 1;
    assert e.members[n] == b;
    MemberUnits(e, n);
    if a.Chain? {
      forall x | x in Units(a) ensures x in Units(e) {
        var i := MemberOf(a, x);
        assert e.members[i] == a.members[i];
      }
      forall x | x in Units(e) ensures x in Units(a) + Units(b) {
        var i := MemberOf(e, x);
        if i < n {
          MemberUnits(a, i);
        }
      }
    } else {
      assert e.members[0] == a;
      MemberUnits(e, 0);
    }
  }

  lemma ThenEdges(a: Delayable, b: Delayable, x: Delayable, y: Delayable)
    requires Ends(a) != {}
    ensures FlatEdge(Then(a, b), x, y) <==> FlatEdge(a, x, y) || FlatEdge(b, x, y) || Bridges(a, b, x, y)
  {
    if a.Chain? {
      ThenEdgesOfChain(a, b, x, y);
    } else {
      var e := Then(a, b);
      EndTails(a);
      assert e.members[0] == a && e.members[1] == b;
      assert Junction(e, 0, x, y) <==> Bridges(a, b, x, y);
      assert !Junction(e, 1, x, y);
    }
  }

  lemma ThenEdgesOfChain(a: Delayable, b: Delayable, x: Delayable, y: Delayable)
    requires a.Chain? && a.members != []
    ensures FlatEdge(Then(a, b), x, y) <==> FlatEdge(a, x, y) || FlatEdge(b, x, y) || Bridges(a, b, x, y)
  {
    var e, n := Then(a, b), |a.members|;
    assert e.members[n] == b && forall i | 0 <= i < n :: e.members[i] == a.members[i];
    assert Junction(e, n - 1, x, y) <==> Bridges(a, b, x, y);
    forall i | 0 <= i < n - 1 ensures Junction(e, i, x, y) <==> Junction(a, i, x, y) {
    }
    if FlatEdge(a, x, y) {
      var i :| 0 <= i < n && (FlatEdge(a.members[i], x, y) || Junction(a, i, x, y));
      assert FlatEdge(e.members[i], x, y) || Junction(e, i, x, y);
    }
    if FlatEdge(e, x, y) {
      var i :| 0 <= i <= n && (FlatEdge(e.members[i], x, y) || Junction(e, i, x, y));
      if i < n - 1 {
        assert FlatEdge(a.members[i], x, y) || Junction(a, i, x, y);
      }
    }
  }

  /** The graph that `delay` connects after `a.on_done(b)` is the flattened longer chain. */
  lemma ContinuedIsFlattened(net: Net, a: Delayable, b: Delayable, gs: set<Graph<Delayable>>, r: Edges<Delayable>)
    requires Continued(net, a, b) && Ends(a) != {}
    requires IsConnected(net, gs, r) && a.graph in gs && NextGraphs(net, gs) <= gs
    requires forall g | g in gs :: IsReached(net, a.graph, g)
    ensures r.Keys == Units(Then(a, b))
    ensures forall x, y | x in r && y in r :: y in r[x] <==> FlatEdge(Then(a, b), x, y)
  {
    VisitedBoth(net, a, b, gs);
    ThenUnits(a, b);
    forall x | x in AllTails(net, gs) + Units(Then(a, b)) ensures x in AllTails(net, gs) && x in Units(Then(a, b)) {
      ContinuedTails(net, a, b, x);
    }
    assert AllTails(net, gs) == Units(Then(a, b));
    forall x, y | x in r && y in r ensures y in r[x] <==> FlatEdge(Then(a, b), x, y) {
      ContinuedEdges(net, a, b, x, y);
      ThenEdges(a, b, x, y);
    }
  }

  /** Builds the whole graph after `a.on_done(b)`. */
  method FlattenContinued(a: Delayable, b: Delayable, ghost net: Net) returns (r: Graph<Delayable>)
    requires Delayables.Holds(net) && ClosedNet(net) && Continued(net, a, b) && Ends(a) != {}
    ensures fresh(r) && r.graph.Keys == Units(Then(a, b))
    ensures forall x, y | x in r.graph && y in r.graph :: y in r.graph[x] <==> FlatEdge(Then(a, b), x, y)
  {
    ghost var gs;
    r, gs := ConnectGraphs(a.graph, net);
    ContinuedIsFlattened(net, a, b, gs, r.graph);
  }

  // ---------- the order that is kept ----------

  lemma {:induction false} LeadsOn(a: Delayable, b: Delayable, x: Delayable, y: Delayable, n: nat)
    requires Ends(a) != {} && Leads(a, x, y, n)
    ensures Leads(Then(a, b), x, y, n)
    decreases n
  {
    if n > 0 {
      var z := FirstEdge(a, x, y, n);
      LeadsOn(a, b, z, y, n - 1);
      assert FlatEdge(Then(a, b), x, z) by {
        ThenEdges(a, b, x, z);
      }
      AddEdge(Then(a, b), x, z, y, n - 1);
    } else {
      ThenUnits(a, b);
    }
  }

  lemma ThenOrder(a: Delayable, b: Delayable, x: Delayable, y: Delayable)
    requires Distinct(Then(a, b)) && x in Units(a) && y in Units(a)
    ensures Precedes(Then(a, b), x, y) <==> Precedes(a, x, y)
  {
    var e := Then(a, b);
    ThenDistinct(a, b);
    if a.Chain? {
      assert forall i | 0 <= i < |a.members| :: e.members[i] == a.members[i];
      var i, k := MemberOf(a, x), MemberOf(a, y);
      OrderCases(e, x, y, i, k);
      OrderCases(a, x, y, i, k);
    } else {
      assert e.members[0] == a;
      OrderCases(e, x, y, 0, 0);
    }
  }

  lemma ThenDistinct(a: Delayable, b: Delayable)
    requires Distinct(Then(a, b))
    ensures Distinct(a) && Distinct(b)
  {
    var e := Then(a, b);
    assert e.members[|e.members| - 1] == b;
    if a.Chain? {
      assert forall i | 0 <= i < |a.members| :: e.members[i] == a.members[i];
    } else {
      assert e.members[0] == a;
    }
  }

  /** Which member of the longer chain has `x`. */
  lemma ThenMember(a: Delayable, b: Delayable, x: Delayable) returns (i: nat)
    requires x in Units(a)
    ensures i < |Then(a, b).members| - 1 && x in Units(Then(a, b).members[i])
  {
    if a.Chain? {
      i := MemberOf(a, x);
    } else {
      i := 0;
    }
  }

  ghost predicate AllBefore(a: Delayable, b: Delayable) {
    forall x, y | x in Units(a) && y in Units(b) :: SeriesParallel.Follows(Then(a, b), x, y)
  }

  lemma PairKept(a: Delayable, b: Delayable, x: Delayable, y: Delayable)
    requires Distinct(Then(a, b)) && Ends(a) != {} && AllBefore(a, b) && Complete(a) && Complete(b)
    requires x in Units(Then(a, b)) && y in Units(Then(a, b)) && Precedes(Then(a, b), x, y)
    ensures Joins(Then(a, b), x, y)
  {
    var e := Then(a, b);
    var n := |e.members| - 1;
    assert e.members[n] == b;
    ThenUnits(a, b);
    if x in Units(a) && y in Units(a) {
      ThenOrder(a, b, x, y);
      assert Joins(a, x, y);
      var k: nat :| Leads(a, x, y, k);
      LeadsOn(a, b, x, y, k);
    } else if x in Units(a) {
      assert SeriesParallel.Follows(e, x, y);
    } else if y in Units(a) {
      var i := ThenMember(a, b, y);
      OrderCases(e, x, y, n, i);
    } else {
      OrderCases(e, x, y, n, n);
      assert Joins(b, x, y);
      JoinsLifts(e, n, x, y);
    }
  }

  /**
    For expressions that keep their own order, each job of `a` comes before each job of `b` after
    `a.on_done(b)` if and only if the longer chain is faithful.
   */
  lemma OnDoneKeepsOrder(a: Delayable, b: Delayable)
    requires Distinct(Then(a, b)) && Ends(a) != {} && Faithful(a) && Faithful(b)
    ensures AllBefore(a, b) <==> Faithful(Then(a, b))
  {
    var e := Then(a, b);
    ThenDistinct(a, b);
    FaithfulIsComplete(a);
    FaithfulIsComplete(b);
    FaithfulIsComplete(e);
    ThenUnits(a, b);
    if AllBefore(a, b) {
      forall x, y | x in Units(e) && y in Units(e) && Precedes(e, x, y) ensures Joins(e, x, y) {
        PairKept(a, b, x, y);
      }
    }
    if Complete(e) {
      forall x, y | x in Units(a) && y in Units(b) ensures SeriesParallel.Follows(e, x, y) {
        var n := |e.members| - 1;
        var i := ThenMember(a, b, x);
        assert e.members[n] == b;
        OrderCases(e, x, y, i, n);
        FollowsIsJoin(e, x, y);
      }
    }
  }
}
