/**
  Limits that hold over whole runs: capacity, throttle, etas, and no second yield.
 */
module SchedulerLimits {
  import opened Prelude
  import opened ChannelJobs
  import opened SchedulerSpec
  import opened SchedulerMoves
  import opened SchedulerWakeup
  import opened SchedulerRuns

  // ---------- a job that runs at root is not yielded again ----------

  ghost predicate InNoQueue(f: Sched, j: ChannelJob) {
    forall p | p in f :: !f[p].InQueue(j)
  }

  lemma RootRunningInNoQueue(f: Sched, j: ChannelJob)
    requires WellFormed(f) && Placed(f, j) && j in f[ROOT].running
    ensures InNoQueue(f, j)
  {
    var place := PlaceExists(f, j);
    assert PlacedAt(f, ROOT, j) && Linked(f, j.channel);
    assert Above(j.channel, |j.channel| - 1) == ROOT;
    forall p | p in f ensures !f[p].InQueue(j) {
      assert PlacedAt(f, p, j) && Linked(f, p);
      if p <= j.channel {
        assert Above(j.channel, |j.channel| - |p|) == p;
      }
    }
  }

  lemma {:induction false} YieldedWasQueued(f: Sched, now: Time, y: Flow, f': Sched, j: ChannelJob, p: Path)
    requires WellFormed(f) && Pass(f, now, y, f') && Placed(f, j) && p in f && InNoQueue(f, j)
    ensures j !in y[p] && !f'[p].InQueue(j)
    decreases Height(f, p)
  {
    NodeMoves(f, now, y, f', j, p);
    if j in Inflow(f[p].children, p, y) {
      var q := j.channel[..|p| + 1];
      DepthBounds(f.Keys, q);
      YieldedWasQueued(f, now, y, f', j, q);
    }
  }

  lemma StaysOutOfQueues(f: Sched, e: Event, f': Sched, j: ChannelJob)
    requires WellFormed(f) && AllPlaced(f) && Step(f, e, f') && j.channel in f
    requires InNoQueue(f, j) && !(e.Pending? && e.j == j)
    ensures InNoQueue(f', j) && (e.Poll? ==> forall p | p in e.y :: j !in e.y[p])
    ensures j.channel in f'
  {
    if e.Poll? {
      AnyPlaced(f, j);
      forall p | p in f ensures j !in e.y[p] && !f'[p].InQueue(j) {
        YieldedWasQueued(f, e.now, e.y, f', j, p);
      }
    } else if e.AddChannel? {
    } else {
      forall p | p in f ensures p in f' && !f'[p].InQueue(j) {
        MovesKeep(f, e, f', p);
      }
    }
  }

  /**
    A job that runs at root is not yielded again, by any channel, before a notification
    sets it pending.
   */
  lemma {:induction false} NeverYieldedAgain(fs: seq<Sched>, es: seq<Event>, a: nat, b: nat, j: ChannelJob)
    requires Run(fs, es) && WellFormed(fs[0]) && AllPlaced(fs[0]) && a <= b <= |es|
    requires j.channel in fs[a] && ROOT in fs[a] && j in fs[a][ROOT].running
    requires forall i | a <= i < b :: es[i].Pending? ==> es[i].j != j
    ensures j.channel in fs[b] && InNoQueue(fs[b], j)
    ensures forall i | a <= i < b :: es[i].Poll? ==> forall p | p in es[i].y :: j !in es[i].y[p]
  {
    if a == b {
      RunKeeps(fs, es, a);
      AnyPlaced(fs[a], j);
      RootRunningInNoQueue(fs[a], j);
    } else {
      NeverYieldedAgain(fs, es, a, b - 1, j);
      RunKeeps(fs, es, b - 1);
      assert StepAt(fs, es, b - 1);
      StaysOutOfQueues(fs[b - 1], es[b - 1], fs[b], j);
    }
  }

  // ---------- etas ----------

  lemma {:induction false} YieldsEta(n: Node, now: Time, out: seq<ChannelJob>, n': Node, j: ChannelJob)
    requires Yields(n, now, out, n') && j in out
    ensures j in n.ready || (j in n.waiting && n.waiting[j] <= now)
    decreases |out|
  {
    var m := Mature(n, now);
    assert out == [out[0]] + out[1..];
    if j != out[0] {
      YieldsEta(Start(out[0], m), now, out[1..], n', j);
    }
  }

  /** No channel of the tree yields a job before its eta. */
  lemma {:induction false} EtaRespected(f: Sched, now: Time, y: Flow, f': Sched, j: ChannelJob, p: Path)
    requires WellFormed(f) && Pass(f, now, y, f') && Placed(f, j) && p in f && j in y[p]
    ensures j in f[j.channel].waiting ==> f[j.channel].waiting[j] <= now
    decreases Height(f, p)
  {
    NodeMoves(f, now, y, f', j, p);
    assert NodePass(f, p, now, y, f') && PlacedAt(f, p, j) && PlacedAt(f, j.channel, j);
    var a := Absorb(f[p], Inflow(f[p].children, p, y));
    YieldsEta(Unpause(a), now, y[p], f'[p], j);
    if j in f[j.channel].waiting && p != j.channel {
      NotRunningAnywhere(f, j, p);
      var q := j.channel[..|p| + 1];
      DepthBounds(f.Keys, q);
      EtaRespected(f, now, y, f', j, q);
    }
  }

  // ---------- capacity ----------

  function Max(a: int, b: int): int {
    if a < b then b else a
  }

  /** Zero and `None` mean "no limit". */
  predicate Bounded(n: Node) {
    n.capacity.Some? && n.capacity.value != 0
  }

  predicate Within(n: Node) {
    Bounded(n) ==> |n.running| <= Max(n.capacity.value, 0)
  }

  lemma {:induction false} YieldsCapacity(n: Node, now: Time, out: seq<ChannelJob>, n': Node)
    requires Yields(n, now, out, n') && Bounded(n)
    ensures n'.capacity == n.capacity && |n'.running| <= Max(n.capacity.value, |n.running|)
    decreases |out|
  {
    if HasCapacity(n) {
      var m := Mature(n, now);
      if !(m.ready == {} || Held(m)) && m.throttle == 0.0 {
        YieldsCapacity(Start(out[0], m), now, out[1..], n');
      }
    }
  }

  /** A pass fills a channel up to its capacity at most. */
  lemma PassCapacity(f: Sched, now: Time, y: Flow, f': Sched, p: Path)
    requires Pass(f, now, y, f') && p in f && Bounded(f[p])
    ensures f'[p].capacity == f[p].capacity
    ensures |f'[p].running| <= Max(f[p].capacity.value, |f[p].running|)
  {
    assert NodePass(f, p, now, y, f');
    var a := Absorb(f[p], Inflow(f[p].children, p, y));
    if !Paused(a, now) {
      YieldsCapacity(Unpause(a), now, y[p], f'[p]);
    }
  }

  /** Steps other than `Running` only ever take jobs out of running sets, or poll. */
  lemma StepWithin(f: Sched, e: Event, f': Sched)
    requires Step(f, e, f') && !e.Running? && forall p | p in f :: Within(f[p])
    ensures forall p | p in f' :: Within(f'[p])
  {
    forall p | p in f' ensures Within(f'[p]) {
      if p in f {
        assert Within(f[p]);
        match e
        case Poll(now, y) =>
          assert NodePass(f, p, now, y, f');
          NodePassKeeps(f, p, now, y, f');
          if Bounded(f[p]) {
            PassCapacity(f, now, y, f', p);
          }
        case AddChannel(parent, name) =>
        case _ =>
          MovesKeep(f, e, f', p);
          OnlyRunningAdds(f, e, f', p);
      }
    }
  }

  lemma OnlyRunningAdds(f: Sched, e: Event, f': Sched, p: Path)
    requires Moves(f, e, f') && !e.Running? && p in f && p in f'
    ensures f'[p].running <= f[p].running && |f'[p].running| <= |f[p].running|
  {
    match e
    case Pending(j, eta) => SubsetSize(f'[p].running, f[p].running);
    case Failed(j) => SubsetSize(f'[p].running, f[p].running);
    case Gone(j) => SubsetSize(f'[p].running, f[p].running);
  }

  lemma {:induction false} RootRunningAtRoot(f: Sched, j: ChannelJob, p: Path)
    requires WellFormed(f) && Placed(f, j) && j in f[ROOT].running && p in f && p <= j.channel
    ensures j in f[p].running
    decreases |p|
  {
    assert Linked(f, p) && PlacedAt(f, ROOT, j);
    if |p| > 1 {
      var q := p[..|p| - 1];
      RootRunningAtRoot(f, j, q);
      assert PlacedAt(f, q, j);
      assert j.channel[..|q| + 1] == p;
    }
  }

  lemma RecreateCounts(f: Sched, i: ChannelJob, j: ChannelJob, p: Path)
    requires WellFormed(f) && Placed(f, i) && Placed(RemoveJob(f, i), j)
    requires i in f[ROOT].running && p in f
    requires i != j && forall q | q in f :: !f[q].Holds(j)
    ensures var f' := SetRunning(RemoveJob(f, i), j);
            && f'[p].capacity == f[p].capacity
            && |f'[p].running| == |f[p].running| - (if p <= i.channel then 1 else 0) + (if p <= j.channel then 1 else 0)
  {
    var g := RemoveJob(f, i);
    var f' := SetRunning(g, j);
    assert Moves(f, Gone(i), g);
    MovesWellFormed(f, Gone(i), g);
    RunReachesAll(g, j);
    assert !g[j.channel].Holds(j);
    if p <= i.channel {
      RootRunningAtRoot(f, i, p);
      assert g[p].running == f[p].running - {i};
    }
    if p <= j.channel {
      assert RunReaches(g, p, j);
      assert f'[p].running == g[p].running + {j};
    }
  }

  /** The channel `p` has a slot left for one more job, if it has a capacity at all. */
  ghost predicate HasSlot(f: Sched, p: Path)
    requires p in f
  {
    Bounded(f[p]) ==> |f[p].running| < f[p].capacity.value
  }

  /**
    When the properties of a job changed, `notify` removes the job and makes a new one; with
    state enqueued or started the new job runs everywhere at once. This keeps every channel
    within its capacity if and only if each channel that the new job is new to has a free slot.
   */
  lemma RecreateWithin(f: Sched, i: ChannelJob, j: ChannelJob)
    requires WellFormed(f) && AllPlaced(f) && forall p | p in f :: Within(f[p])
    requires i.channel in f && i in f[ROOT].running && j.channel in f
    requires i != j && forall p | p in f :: !f[p].Holds(j)
    ensures var f' := SetRunning(RemoveJob(f, i), j);
            (forall p | p in f' :: Within(f'[p])) <==>
            (forall p | p in f && p <= j.channel && !(p <= i.channel) :: HasSlot(f, p))
  {
    AnyPlaced(f, i);
    var g := RemoveJob(f, i);
    var f' := SetRunning(g, j);
    assert Moves(f, Gone(i), g);
    MovesWellFormed(f, Gone(i), g);
    MovesAllPlaced(f, Gone(i), g);
    AnyPlaced(g, j);
    forall p | p in f ensures Within(f'[p]) <==> (p <= j.channel && !(p <= i.channel) ==> HasSlot(f, p)) {
      RecreateCounts(f, i, j, p);
      assert Within(f[p]);
    }
  }

  /** Root has room, and channels `a` and `b` have a capacity of 1; `i` runs in `a`, `k` in `b`, and both at root. */
  ghost function FullTree(i: ChannelJob, k: ChannelJob): Sched {
    map[["root"] := NEW_CHANNEL.(children := ["a", "b"], running := {i, k}),
        ["root", "a"] := NEW_CHANNEL.(capacity := Some(1), running := {i}),
        ["root", "b"] := NEW_CHANNEL.(capacity := Some(1), running := {k})]
  }

  lemma FullTreeFits(i: ChannelJob, k: ChannelJob)
    requires i != k && i.channel == ["root", "a"] && k.channel == ["root", "b"]
    ensures var f := FullTree(i, k); WellFormed(f) && AllPlaced(f) && forall p | p in f :: Within(f[p])
  {
    var f := FullTree(i, k);
    FullTreeLinked(i, k);
    forall p | p in f ensures forall x | x in NodeJobs(f[p]) :: Placed(f, x) {
      forall x | x in NodeJobs(f[p]) ensures Placed(f, x) {
        FullTreePlaced(f, i, k, x);
      }
    }
  }

  lemma FullTreeLinked(i: ChannelJob, k: ChannelJob)
    ensures WellFormed(FullTree(i, k))
  {
    var f := FullTree(i, k);
    assert ["root", "a"][..1] == ROOT && ["root", "b"][..1] == ROOT;
    assert f[ROOT].children[0] == "a" && f[ROOT].children[1] == "b";
    forall p | p in f ensures Linked(f, p) {
      assert ROOT + ["a"] == ["root", "a"] && ROOT + ["b"] == ["root", "b"];
    }
  }

  /** A job that runs at root is recreated in a full channel, which then runs two jobs with a capacity of 1. */
  lemma RecreateOverfills(i: ChannelJob, k: ChannelJob, j: ChannelJob)
    requires i != k && i != j && k != j
    requires i.channel == ["root", "a"] && k.channel == j.channel == ["root", "b"]
    ensures var f := FullTree(i, k);
            && WellFormed(f) && AllPlaced(f) && i in f[ROOT].running && (forall p | p in f :: Within(f[p]))
            && exists p | p in f :: !Within(SetRunning(RemoveJob(f, i), j)[p])
  {
    FullTreeFits(i, k);
    FullIsFull(i, k, j);
    RecreateWithin(FullTree(i, k), i, j);
  }

  lemma FullIsFull(i: ChannelJob, k: ChannelJob, j: ChannelJob)
    requires i != k && i != j && k != j
    requires i.channel == ["root", "a"] && j.channel == ["root", "b"]
    ensures var f, b := FullTree(i, k), ["root", "b"];
            && (forall p | p in f :: !f[p].Holds(j)) && b in f && b <= j.channel && !(b <= i.channel) && !HasSlot(f, b)
  {
    assert ["root", "b"][1] != ["root", "a"][1];
  }

  lemma FullTreePlaced(f: Sched, i: ChannelJob, k: ChannelJob, x: ChannelJob)
    requires f == FullTree(i, k) && i != k && x in {i, k}
    requires i.channel == ["root", "a"] && k.channel == ["root", "b"]
    ensures Placed(f, x)
  {
    forall p | p in f ensures PlacedAt(f, p, x) {
      assert x.channel[..1] == ROOT && x.channel[..2] == x.channel;
    }
  }

  /**
    Runs in which `Running` concerns jobs that run at root, or replaces such a job while each
    channel that the new job is new to has a free slot.
   */
  ghost predicate Tame(fs: seq<Sched>, es: seq<Event>, i: nat)
    requires Run(fs, es) && i < |es|
  {
    es[i].Running? ==>
      || (ROOT in fs[i] && es[i].j in fs[i][ROOT].running)
      || (i > 0 && es[i - 1].Gone? && Replaces(fs[i - 1], es[i - 1].j, es[i].j))
  }

  ghost predicate Replaces(f: Sched, old_: ChannelJob, new_: ChannelJob) {
    && ROOT in f && old_ in f[ROOT].running && old_ != new_
    && old_.channel in f && new_.channel in f
    && (forall p | p in f :: !f[p].Holds(new_))
    && (forall p | p in f && p <= new_.channel && !(p <= old_.channel) :: HasSlot(f, p))
  }

  /** Over such runs no channel ever runs more jobs than its capacity. */
  lemma {:induction false} CapacityHolds(fs: seq<Sched>, es: seq<Event>, n: nat)
    requires Run(fs, es) && n <= |es| && WellFormed(fs[0]) && AllPlaced(fs[0])
    requires forall p | p in fs[0] :: Within(fs[0][p])
    requires forall i | 0 <= i < n :: Tame(fs, es, i)
    ensures forall p | p in fs[n] :: Within(fs[n][p])
  {
    if n > 0 {
      var e := es[n - 1];
      assert StepAt(fs, es, n - 1) && Tame(fs, es, n - 1);
      CapacityHolds(fs, es, n - 1);
      RunKeeps(fs, es, n - 1);
      if !e.Running? {
        StepWithin(fs[n - 1], e, fs[n]);
      } else if ROOT in fs[n - 1] && e.j in fs[n - 1][ROOT].running {
        AnyPlaced(fs[n - 1], e.j);
        assert PlacedAt(fs[n - 1], ROOT, e.j);
        RootRunningAtRoot(fs[n - 1], e.j, e.j.channel);
        RunReachesAll(fs[n - 1], e.j);
      } else {
        assert StepAt(fs, es, n - 2);
        CapacityHolds(fs, es, n - 2);
        RunKeeps(fs, es, n - 2);
        RecreateWithin(fs[n - 2], es[n - 2].j, e.j);
      }
    }
  }

  // ---------- throttle ----------

  ghost predicate YieldsAt(e: Event, p: Path) {
    e.Poll? && p in e.y && e.y[p] != []
  }

  ghost predicate ClockRuns(es: seq<Event>) {
    forall i, k | 0 <= i < k < |es| && es[i].Poll? && es[k].Poll? :: 0.0 <= es[i].now <= es[k].now
  }

  lemma ThrottledYield(n: Node, now: Time, out: seq<ChannelJob>, n': Node)
    requires Drained(n, now, out, n') && n.throttle > 0.0 && now >= 0.0
    ensures |out| <= 1 && n'.throttle == n.throttle
    ensures out != [] ==> n'.pauseUntil == now + n.throttle && (n.pauseUntil == 0.0 || n.pauseUntil <= now)
    ensures out == [] && n.pauseUntil != 0.0 && now < n.pauseUntil ==> n'.pauseUntil == n.pauseUntil
  {
  }

  lemma {:induction false} PauseKept(fs: seq<Sched>, es: seq<Event>, a: nat, b: nat, p: Path)
    requires Run(fs, es) && WellFormed(fs[0]) && AllPlaced(fs[0]) && a < b <= |es| && ClockRuns(es)
    requires YieldsAt(es[a], p) && p in fs[a] && fs[a][p].throttle > 0.0 && es[a].now >= 0.0
    ensures p in fs[b] && fs[b][p].throttle == fs[a][p].throttle
    ensures || fs[b][p].pauseUntil == es[a].now + fs[a][p].throttle
            || exists i | a < i < b && es[i].Poll? :: es[i].now >= es[a].now + fs[a][p].throttle
    decreases b
  {
    var e, f, f' := es[b - 1], fs[b - 1], fs[b];
    assert StepAt(fs, es, b - 1);
    if b - 1 > a {
      PauseKept(fs, es, a, b - 1, p);
    }
    match e
    case Poll(now, y) =>
      assert NodePass(f, p, now, y, f');
      ThrottledYield(Absorb(f[p], Inflow(f[p].children, p, y)), now, y[p], f'[p]);
      if b - 1 > a {
        assert es[a].now <= es[b - 1].now;
      }
    case AddChannel(parent, name) =>
      RunKeeps(fs, es, b - 1);
      NewChannelWellFormed(f, parent, name);
    case _ =>
      MovesKeep(f, e, f', p);
  }

  /**
    In any run with a clock that does not go back, a throttled channel yields at most one
    job per poll, and two jobs it yields are at least `throttle` seconds apart.
   */
  lemma ThrottleHolds(fs: seq<Sched>, es: seq<Event>, a: nat, b: nat, p: Path)
    requires Run(fs, es) && WellFormed(fs[0]) && AllPlaced(fs[0]) && a < b < |es| && ClockRuns(es)
    requires YieldsAt(es[a], p) && YieldsAt(es[b], p)
    requires p in fs[a] && fs[a][p].throttle > 0.0
    ensures |es[a].y[p]| == 1
    ensures es[b].now - es[a].now >= fs[a][p].throttle
  {
    PauseKept(fs, es, a, b, p);
    assert StepAt(fs, es, a) && StepAt(fs, es, b);
    assert NodePass(fs[a], p, es[a].now, es[a].y, fs[a + 1]);
    assert NodePass(fs[b], p, es[b].now, es[b].y, fs[b + 1]);
    ThrottledYield(Absorb(fs[a][p], Inflow(fs[a][p].children, p, es[a].y)), es[a].now, es[a].y[p], fs[a + 1][p]);
    ThrottledYield(Absorb(fs[b][p], Inflow(fs[b][p].children, p, es[b].y)), es[b].now, es[b].y[p], fs[b + 1][p]);
  }
}
