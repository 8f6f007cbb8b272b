/**
  From the flattened graph to the jobs: each edge makes a job depend on another one, and a run
  of the jobs keeps the order that the expression asked for.
 */
module GraphJobs {
  import opened JobStates
  import opened Graphs
  import opened Jobs

  /** The children that these links give to `v`. */
  ghost function LinkedFrom<V>(links: seq<(V, V)>, v: V): set<V> {
    set i | 0 <= i < |links| && links[i].0 == v :: links[i].1
  }

  ghost function JobsOf<V>(jobOf: map<V, Job>, vs: set<V>): set<Job> {
    set v | v in vs && v in jobOf :: jobOf[v]
  }

  ghost predicate OwnJobs<V>(jobOf: map<V, Job>) {
    forall v, w | v in jobOf && w in jobOf && v != w :: jobOf[v] != jobOf[w]
  }

  /** A new job with these parents and children. */
  ghost predicate Related<V>(jobOf: map<V, Job>, j: Job, parents: set<V>, children: set<V>)
    reads j
  {
    && j.dependsOn == JobsOf(jobOf, parents) && j.reverseDependsOn == JobsOf(jobOf, children)
    && j.state == if parents == {} then Pending else WaitDependencies
  }

  ghost predicate Linked<V>(jobOf: map<V, Job>, links: seq<(V, V)>)
    reads jobOf.Values
  {
    forall v {:trigger jobOf[v]} | v in jobOf :: Related(jobOf, jobOf[v], LinkedTo(links, v), LinkedFrom(links, v))
  }

  lemma LinksNext<V>(links: seq<(V, V)>, i: nat, v: V)
    requires i < |links|
    ensures LinkedTo(links[..i + 1], v) == LinkedTo(links[..i], v) + if links[i].1 == v then {links[i].0} else {}
    ensures LinkedFrom(links[..i + 1], v) == LinkedFrom(links[..i], v) + if links[i].0 == v then {links[i].1} else {}
  {
    assert forall k | 0 <= k < i :: links[..i + 1][k] == links[..i][k];
    assert links[..i + 1][i] == links[i];
  }

  lemma JobsOfUnion<V>(jobOf: map<V, Job>, vs: set<V>, v: V)
    requires v in jobOf
    ensures JobsOf(jobOf, vs + {v}) == JobsOf(jobOf, vs) + {jobOf[v]}
  {
  }

  method LinkOne<V>(jobOf: map<V, Job>, ghost links: seq<(V, V)>, ghost i: nat, parent: V, child: V) returns (ok: bool)
    requires OwnJobs(jobOf) && i < |links| && links[i] == (parent, child) && parent in jobOf && child in jobOf
    requires Linked(jobOf, links[..i])
    modifies jobOf.Values
    ensures ok <==> parent != child
    ensures ok ==> Linked(jobOf, links[..i + 1])
  {
    ok := jobOf[child].AddDepends({jobOf[parent]});
    if ok {
      forall v | v in jobOf
        ensures Related(jobOf, jobOf[v], LinkedTo(links[..i + 1], v), LinkedFrom(links[..i + 1], v))
      {
        LinksNext(links, i, v);
        JobsOfUnion(jobOf, LinkedTo(links[..i], v), parent);
        JobsOfUnion(jobOf, LinkedFrom(links[..i], v), child);
      }
    }
  }

  /**
    Makes the new jobs of the vertices depend on each other as the edges say. It is an error if a
    vertex is its own child; otherwise the parents of each job are the jobs of the parents of its
    vertex, and it waits exactly if it has any.
   */
  method LinkJobs<V(==)>(graph: Graph<V>, jobOf: map<V, Job>) returns (ok: bool)
    requires Closed(graph.graph) && jobOf.Keys == graph.graph.Keys && OwnJobs(jobOf)
    requires forall v | v in jobOf :: Related(jobOf, jobOf[v], {}, {})
    modifies jobOf.Values
    ensures ok <==> forall v | v in graph.graph :: v !in graph.graph[v]
    ensures ok ==> forall v | v in jobOf :: Related(jobOf, jobOf[v], Parents(graph.graph, v), Targets(graph.graph, v))
  {
    ghost var g := graph.graph;
    var links := graph.GetEdges();
    var i := 0;
    while i < |links|
      invariant 0 <= i <= |links| && Linked(jobOf, links[..i])
      invariant forall k | 0 <= k < i :: links[k].0 != links[k].1
    {
      var (parent, child) := links[i];
      assert links[i] in links;
      ok := LinkOne(jobOf, links, i, parent, child);
      if !ok {
        return false;
      }
      i := i + 1;
    }
    assert links[..|links|] == links;
    forall v | v in g ensures v !in g[v] {
      assert (v, v) in links <==> v in g[v];
    }
    forall v | v in jobOf ensures Related(jobOf, jobOf[v], Parents(g, v), Targets(g, v)) {
      LinksAre(g, links, v);
    }
    ok := true;
  }

  lemma LinksAre<V>(g: Edges<V>, links: seq<(V, V)>, v: V)
    requires forall p, x :: (p, x) in links <==> p in g && x in g[p]
    ensures LinkedTo(links, v) == Parents(g, v) && LinkedFrom(links, v) == Targets(g, v)
  {
    forall p ensures p in LinkedTo(links, v) <==> p in Parents(g, v) {
      if p in LinkedTo(links, v) {
        var i :| 0 <= i < |links| && links[i].1 == v && links[i].0 == p;
        assert links[i] == (p, v);
      }
      if p in Parents(g, v) {
        assert (p, v) in links;
      }
    }
    forall c ensures c in LinkedFrom(links, v) <==> c in Targets(g, v) {
      if c in LinkedFrom(links, v) {
        var i :| 0 <= i < |links| && links[i].0 == v && links[i].1 == c;
        assert links[i] == (v, c);
      }
      if c in Targets(g, v) {
        assert (v, c) in links;
      }
    }
  }
}
