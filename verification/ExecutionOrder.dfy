/**
  A chain or group, flattened, stored as jobs, and run by the dispatch protocol: the jobs are done
  in the order that the expression asks for.
 */
module ExecutionOrder {
  import opened Prelude
  import opened JobStates
  import opened Graphs
  import opened Jobs
  import opened Delayables
  import opened SeriesParallel
  import opened Flattening
  import opened GraphJobs
  import opened Protocol

  /** Each delayable of `d` has a job of its own, which depends on the jobs that lead to it in the flattened graph. */
  ghost predicate StoredAs(d: Delayable, idOf: map<Delayable, Id>, deps: Dependencies) {
    && idOf.Keys == Units(d)
    && forall y | y in Units(d) :: idOf[y] in deps && ParentIds(d, idOf, y) == deps[idOf[y]]
  }

  ghost function ParentIds(d: Delayable, idOf: map<Delayable, Id>, y: Delayable): set<Id> {
    set x | x in idOf && FlatEdge(d, x, y) :: idOf[x]
  }

  // ---------- from the expression to the jobs ----------

  /** The uuids of the parents of each job. */
  ghost function DepsOf(jobOf: map<Delayable, Job>): Dependencies
    requires OwnUuids(jobOf)
    reads jobOf.Values
  {
    map v | v in jobOf :: jobOf[v].uuid := UuidsOf(jobOf[v].dependsOn)
  }

  ghost predicate OwnUuids(jobOf: map<Delayable, Job>) {
    forall v, w | v in jobOf && w in jobOf && jobOf[v].uuid == jobOf[w].uuid :: v == w
  }

  ghost function UuidsOf(jobs: set<Job>): set<Id> {
    set j | j in jobs :: j.uuid
  }

  ghost function IdsOf(jobOf: map<Delayable, Job>): map<Delayable, Id> {
    map v | v in jobOf :: jobOf[v].uuid
  }

  /** A job without parents and children, with an uuid of its own. */
  ghost predicate IsNew(uuids: map<Delayable, Id>, v: Delayable, j: Job)
    reads j
  {
    v in uuids && j.uuid == uuids[v] && j.state == Pending && j.dependsOn == {} && j.reverseDependsOn == {}
  }

  method BuildJobs(vertices: set<Delayable>, uuids: map<Delayable, Id>) returns (jobOf: map<Delayable, Job>)
    requires vertices <= uuids.Keys
    ensures jobOf.Keys == vertices && OwnJobs(jobOf)
    ensures forall v | v in jobOf :: fresh(jobOf[v]) && IsNew(uuids, v, jobOf[v])
  {
    jobOf := map[];
    var todo := vertices;
    while todo != {}
      invariant todo <= vertices && jobOf.Keys == vertices - todo && OwnJobs(jobOf)
      invariant forall v | v in jobOf :: fresh(jobOf[v]) && IsNew(uuids, v, jobOf[v])
      decreases todo
    {
      var v :| v in todo;
      var j := new Job(uuids[v], 0, None);
      jobOf, todo := jobOf[v := j], todo - {v};
    }
  }

  lemma NewIsUnrelated(jobOf: map<Delayable, Job>, uuids: map<Delayable, Id>, v: Delayable, j: Job)
    requires IsNew(uuids, v, j)
    ensures Related(jobOf, j, {}, {})
  {
    assert JobsOf(jobOf, {}) == {};
  }

  /**
    Connects the graphs of an expression, makes a job for each vertex, and links the jobs along the
    edges. For distinct delayables there is no error, and then the jobs that are stored depend on each
    other as the flattened expression says; each starts in the state in which `Create` has it.
   */
  method Delay(d: Delayable, uuids: map<Delayable, Id>, ghost net: Net) returns (ok: bool, jobOf: map<Delayable, Job>)
    requires Delayables.Holds(net) && ClosedNet(net) && AsBuilt(net, d)
    requires Units(d) <= uuids.Keys && forall v, w | v in uuids && w in uuids && uuids[v] == uuids[w] :: v == w
    ensures Distinct(d) ==> ok
    ensures jobOf.Keys == Units(d) && OwnUuids(jobOf) && forall v | v in jobOf :: jobOf[v].uuid == uuids[v]
    ensures ok ==> StoredAs(d, IdsOf(jobOf), DepsOf(jobOf))
    ensures ok ==> forall v | v in jobOf :: IsCreated(jobOf, v)
  {
    var r := Flatten(d, net);
    jobOf := BuildJobs(r.graph.Keys, uuids);
    forall v | v in jobOf ensures Related(jobOf, jobOf[v], {}, {}) {
      NewIsUnrelated(jobOf, uuids, v, jobOf[v]);
    }
    ok := LinkJobs(r, jobOf);
    if Distinct(d) {
      NoLoops(d, r.graph);
    }
    if ok {
      AllStored(d, r.graph, jobOf);
    }
  }

  /** The job is in the state in which the protocol creates its row. */
  ghost predicate IsCreated(jobOf: map<Delayable, Job>, v: Delayable)
    requires v in jobOf && OwnUuids(jobOf)
    reads jobOf.Values
  {
    var id := jobOf[v].uuid;
    Created(DepsOf(jobOf), {id})[id] == jobOf[v].state
  }

  lemma NoLoops(d: Delayable, g: Edges<Delayable>)
    requires Distinct(d) && IsFlat(d, g)
    ensures forall v | v in g :: v !in g[v]
  {
    forall v | v in g ensures v !in g[v] {
      if v in g[v] {
        EdgeIsOrder(d, v, v);
        OrderIsStrict(d, v);
      }
    }
  }

  /** `g` is the flattened graph of `d`. */
  ghost predicate IsFlat(d: Delayable, g: Edges<Delayable>) {
    && g.Keys == Units(d)
    && forall x, y | x in Units(d) && y in Units(d) :: y in g[x] <==> FlatEdge(d, x, y)
  }

  lemma UuidsOfJobs(jobOf: map<Delayable, Job>, vs: set<Delayable>)
    requires vs <= jobOf.Keys
    ensures UuidsOf(JobsOf(jobOf, vs)) == set x | x in vs :: jobOf[x].uuid
  {
    forall x | x in vs ensures jobOf[x].uuid in UuidsOf(JobsOf(jobOf, vs)) {
      assert jobOf[x] in JobsOf(jobOf, vs);
    }
  }

  lemma FlatParents(d: Delayable, g: Edges<Delayable>, jobOf: map<Delayable, Job>, v: Delayable)
    requires IsFlat(d, g) && jobOf.Keys == Units(d) && v in jobOf
    ensures ParentIds(d, IdsOf(jobOf), v) == set x | x in Parents(g, v) && x in jobOf :: jobOf[x].uuid
  {
    forall x | x in jobOf ensures x in Parents(g, v) <==> FlatEdge(d, x, v) {
    }
  }

  lemma ParentsAreStored(d: Delayable, g: Edges<Delayable>, jobOf: map<Delayable, Job>, v: Delayable)
    requires IsFlat(d, g) && jobOf.Keys == Units(d) && v in jobOf
    requires Related(jobOf, jobOf[v], Parents(g, v), Targets(g, v))
    ensures ParentIds(d, IdsOf(jobOf), v) == UuidsOf(jobOf[v].dependsOn)
  {
    FlatParents(d, g, jobOf, v);
    UuidsOfJobs(jobOf, Parents(g, v));
  }

  lemma StateIsCreated(g: Edges<Delayable>, jobOf: map<Delayable, Job>, v: Delayable)
    requires OwnUuids(jobOf) && v in jobOf && Parents(g, v) <= jobOf.Keys
    requires Related(jobOf, jobOf[v], Parents(g, v), Targets(g, v))
    ensures IsCreated(jobOf, v)
  {
    UuidsOfJobs(jobOf, Parents(g, v));
    var ids := UuidsOf(jobOf[v].dependsOn);
    if p :| p in Parents(g, v) {
      assert jobOf[p].uuid in ids;
    }
    assert DepsOf(jobOf)[jobOf[v].uuid] == ids;
  }

  lemma StoredByParents(d: Delayable, jobOf: map<Delayable, Job>)
    requires jobOf.Keys == Units(d) && OwnUuids(jobOf)
    requires forall v | v in jobOf :: ParentIds(d, IdsOf(jobOf), v) == UuidsOf(jobOf[v].dependsOn)
    ensures StoredAs(d, IdsOf(jobOf), DepsOf(jobOf))
  {
  }

  lemma AllStored(d: Delayable, g: Edges<Delayable>, jobOf: map<Delayable, Job>)
    requires IsFlat(d, g) && jobOf.Keys == Units(d) && OwnUuids(jobOf)
    requires forall v | v in jobOf :: Related(jobOf, jobOf[v], Parents(g, v), Targets(g, v))
    ensures StoredAs(d, IdsOf(jobOf), DepsOf(jobOf))
    ensures forall v | v in jobOf :: IsCreated(jobOf, v)
  {
    forall v | v in jobOf ensures ParentIds(d, IdsOf(jobOf), v) == UuidsOf(jobOf[v].dependsOn) {
      ParentsAreStored(d, g, jobOf, v);
    }
    StoredByParents(d, jobOf);
    forall v | v in jobOf ensures IsCreated(jobOf, v) {
      StateIsCreated(g, jobOf, v);
    }
  }

  // ---------- from the jobs to their runs ----------

  /** A walk through the flattened graph is a line of dependencies. */
  lemma {:induction false} WalkIsLine(d: Delayable, idOf: map<Delayable, Id>, deps: Dependencies, x: Delayable, y: Delayable, n: nat)
    returns (line: seq<Id>)
    requires StoredAs(d, idOf, deps) && Leads(d, x, y, n)
    ensures x in idOf && y in idOf && |line| == n + 1 && line[0] == idOf[x] && line[n] == idOf[y]
    ensures IsLine(deps, line)
    decreases n
  {
    if n == 0 {
      line := [idOf[x]];
    } else {
      var z := FirstEdge(d, x, y, n);
      EdgeIsOfUnits(d, x, z);
      var rest := WalkIsLine(d, idOf, deps, z, y, n - 1);
      line := [idOf[x]] + rest;
      assert idOf[x] in ParentIds(d, idOf, z);
      forall i | 0 <= i < |line| - 1 ensures Parent(deps, line, i) {
        if i > 0 {
          assert Parent(deps, rest, i - 1);
        }
      }
    }
  }

  /** The jobs of `deps` are among those of the system. */
  ghost predicate Includes(all: Dependencies, deps: Dependencies) {
    forall j | j in deps :: j in all && all[j] == deps[j]
  }

  /**
    In every run, a job of a faithful expression that is pending, runs, or has run has all the jobs
    done that come before it in the expression, however deep the chains and groups are nested.
   */
  lemma OrderIsKept(d: Delayable, idOf: map<Delayable, Id>, deps: Dependencies, ss: seq<System>, steps: seq<Step>, n: nat,
                    x: Delayable, y: Delayable)
    requires Distinct(d) && Faithful(d) && Precedes(d, x, y)
    requires Run(ss, steps) && n <= |steps| && forall i | 0 <= i < n :: GentleAt(ss, steps, i)
    requires StoredAs(d, idOf, deps) && Includes(ss[n].deps, deps) && x in idOf && y in idOf
    requires idOf[y] in ss[n].rows && ss[n].rows[idOf[y]] != WaitDependencies
    ensures idOf[x] in ss[n].rows && ss[n].rows[idOf[x]] == Done
  {
    OrderIsOfUnits(d, x, y);
    FlatteningIsFaithful(d);
    assert Agree(d, x, y);
    var k: nat :| k > 0 && Leads(d, x, y, k);
    var line := WalkIsLine(d, idOf, ss[n].deps, x, y, k);
    DependencySafety(ss, steps, n, line);
  }
}
