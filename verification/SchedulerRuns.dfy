/**
  Runs of the scheduler: any sequence of polls, notifications and new channels.
 */
module SchedulerRuns {
  import opened Prelude
  import opened ChannelJobs
  import opened SchedulerSpec
  import opened SchedulerMoves
  import opened SchedulerWakeup

  datatype Event =
    | Poll(now: Time, y: Flow)
    | Pending(j: ChannelJob, eta: Option<Time>)
    | Running(j: ChannelJob)
    | Failed(j: ChannelJob)
    | Gone(j: ChannelJob)
    | AddChannel(parent: Path, name: string)

  const NEW_CHANNEL := Node(None, false, 0.0, [], 0.0, {}, map[], {}, {})

  function WithChannel(f: Sched, parent: Path, name: string): Sched
    requires parent in f
  {
    f[parent := f[parent].(children := f[parent].children + [name])][parent + [name] := NEW_CHANNEL]
  }

  ghost predicate Step(f: Sched, e: Event, f': Sched) {
    match e
    case Poll(now, y) => Pass(f, now, y, f')
    case Pending(j, eta) => j.channel in f && f' == SetPending(f, j, eta)
    case Running(j) => j.channel in f && f' == SetRunning(f, j)
    case Failed(j) => j.channel in f && f' == SetFailed(f, j)
    case Gone(j) => j.channel in f && f' == RemoveJob(f, j)
    case AddChannel(parent, name) =>
      parent in f && name !in f[parent].children && f' == WithChannel(f, parent, name)
  }

  ghost predicate Run(fs: seq<Sched>, es: seq<Event>) {
    |fs| == |es| + 1 && forall i {:trigger StepAt(fs, es, i)} | 0 <= i < |es| :: StepAt(fs, es, i)
  }

  ghost predicate StepAt(fs: seq<Sched>, es: seq<Event>, i: nat)
    requires i < |es| && |fs| == |es| + 1
  {
    Step(fs[i], es[i], fs[i + 1])
  }

  // ---------- every job is always in exactly one place ----------

  function NodeJobs(n: Node): set<ChannelJob> {
    n.ready + n.waiting.Keys + n.running + n.failed
  }

  ghost predicate AllPlaced(f: Sched) {
    forall p | p in f :: forall j | j in NodeJobs(f[p]) :: Placed(f, j)
  }

  lemma AnyPlaced(f: Sched, j: ChannelJob)
    requires WellFormed(f) && AllPlaced(f) && j.channel in f
    ensures Placed(f, j)
  {
    if p :| p in f && f[p].Holds(j) {
      assert j in NodeJobs(f[p]);
    } else {
      forall p | p in f ensures PlacedAt(f, p, j) {
        assert Linked(f, p);
        if p < j.channel {
          PrefixIn(f, j.channel, |p| + 1);
        }
      }
    }
  }

  ghost predicate Known(f: Sched, j: ChannelJob) {
    exists p | p in f :: j in NodeJobs(f[p])
  }

  lemma HeadOrRest(out: seq<ChannelJob>, j: ChannelJob)
    requires out != []
    ensures j in out <==> j == out[0] || j in out[1..]
  {
    assert out == [out[0]] + out[1..];
  }

  lemma MatureHolds(n: Node, now: Time, j: ChannelJob)
    ensures Mature(n, now).InQueue(j) <==> n.InQueue(j)
    ensures j in NodeJobs(Mature(n, now)) <==> j in NodeJobs(n)
  {
  }

  lemma {:induction false} YieldsKnown(n: Node, now: Time, out: seq<ChannelJob>, n': Node, j: ChannelJob)
    requires Yields(n, now, out, n')
    ensures j in out ==> n.InQueue(j)
    ensures j in NodeJobs(n') ==> j in NodeJobs(n)
    decreases |out|
  {
    if HasCapacity(n) {
      var m := Mature(n, now);
      MatureHolds(n, now, j);
      if !(m.ready == {} || Held(m)) {
        HeadOrRest(out, j);
        if m.throttle == 0.0 {
          YieldsKnown(Start(out[0], m), now, out[1..], n', j);
        }
      }
    }
  }

  /** A pass moves jobs around, but every job was somewhere before. */
  lemma {:induction false} PassKnown(f: Sched, now: Time, y: Flow, f': Sched, p: Path, j: ChannelJob)
    requires WellFormed(f) && Pass(f, now, y, f') && p in f
    requires j in y[p] || j in NodeJobs(f'[p])
    ensures Known(f, j)
    decreases Height(f, p)
  {
    assert NodePass(f, p, now, y, f') && Linked(f, p);
    var a := Absorb(f[p], Inflow(f[p].children, p, y));
    if !Paused(a, now) {
      YieldsKnown(Unpause(a), now, y[p], f'[p], j);
    }
    assert j in NodeJobs(a);
    if j !in NodeJobs(f[p]) {
      InflowFrom(f[p].children, p, y, j);
      var i :| 0 <= i < |f[p].children| && p + [f[p].children[i]] in y && j in y[p + [f[p].children[i]]];
      DepthBounds(f.Keys, p + [f[p].children[i]]);
      PassKnown(f, now, y, f', p + [f[p].children[i]], j);
    }
  }

  lemma PassAllPlaced(f: Sched, now: Time, y: Flow, f': Sched)
    requires WellFormed(f) && Pass(f, now, y, f') && AllPlaced(f)
    ensures AllPlaced(f')
  {
    forall p | p in f' ensures forall j | j in NodeJobs(f'[p]) :: Placed(f', j) {
      forall j | j in NodeJobs(f'[p]) ensures Placed(f', j) {
        PassKnown(f, now, y, f', p, j);
        PassPlaces(f, now, y, f', j);
      }
    }
  }

  /** The job a notification is about. */
  ghost predicate Moves(f: Sched, e: Event, f': Sched) {
    (e.Pending? || e.Running? || e.Failed? || e.Gone?) && Step(f, e, f')
  }

  /** A move touches nothing but the sets of jobs, and no job but its own. */
  ghost predicate Touches(n: Node, j: ChannelJob, n': Node) {
    && SameSettings(n, n') && n'.pauseUntil == n.pauseUntil
    && n'.ready <= n.ready + {j} && n'.waiting.Keys <= n.waiting.Keys + {j}
    && n'.running <= n.running + {j} && n'.failed <= n.failed + {j}
  }

  lemma MovesKeep(f: Sched, e: Event, f': Sched, p: Path)
    requires Moves(f, e, f') && p in f
    ensures f'.Keys == f.Keys && Touches(f[p], e.j, f'[p])
  {
    match e
    case Pending(j, eta) =>
    case Running(j) =>
    case Failed(j) =>
    case Gone(j) =>
  }

  lemma MovesPlaces(f: Sched, e: Event, f': Sched, k: ChannelJob)
    requires WellFormed(f) && Moves(f, e, f') && Placed(f, e.j) && Placed(f, k)
    ensures Placed(f', k)
  {
    match e
    case Pending(j, eta) => PendingPlaces(f, j, eta, k);
    case Running(j) => RunningPlaces(f, j, k);
    case Failed(j) => FailedPlaces(f, j, k);
    case Gone(j) => RemovePlaces(f, j, k);
  }

  lemma MovesWellFormed(f: Sched, e: Event, f': Sched)
    requires WellFormed(f) && Moves(f, e, f')
    ensures WellFormed(f')
  {
    MovesKeep(f, e, f', ROOT);
    forall p | p in f ensures f'[p].children == f[p].children {
      MovesKeep(f, e, f', p);
    }
    ShapeKept(f, f');
  }

  lemma MovesJobPlaced(f: Sched, e: Event, f': Sched, p: Path, k: ChannelJob)
    requires WellFormed(f) && AllPlaced(f) && Moves(f, e, f')
    requires p in f' && k in NodeJobs(f'[p])
    ensures Placed(f', k)
  {
    var j := e.j;
    assert Placed(f, j) by {
      AnyPlaced(f, j);
    }
    assert Placed(f, k) by {
      assert p in f;
      MovesKeep(f, e, f', p);
      assert k == j || k in NodeJobs(f[p]);
    }
    MovesPlaces(f, e, f', k);
  }

  lemma MovesAllPlaced(f: Sched, e: Event, f': Sched)
    requires WellFormed(f) && AllPlaced(f) && Moves(f, e, f')
    ensures AllPlaced(f')
  {
    forall p, k | p in f' && k in NodeJobs(f'[p]) ensures Placed(f', k) {
      MovesJobPlaced(f, e, f', p, k);
    }
  }

  lemma NewChannelWellFormed(f: Sched, parent: Path, name: string)
    requires WellFormed(f) && parent in f && name !in f[parent].children
    ensures parent + [name] !in f
    ensures WellFormed(WithChannel(f, parent, name))
  {
    var c := parent + [name];
    var f' := WithChannel(f, parent, name);
    assert c[..|c| - 1] == parent;
    assert c in f ==> Linked(f, c);
    assert Linked(f, parent);
    forall p | p in f' ensures Linked(f', p) {
      if p in f {
        assert Linked(f, p);
      }
    }
  }

  lemma PrefixesIn(f: Sched, h: Path)
    requires WellFormed(f) && h in f
    ensures forall q | q <= h && |q| >= 1 :: q in f
  {
    forall q | q <= h && |q| >= 1 ensures q in f {
      PrefixIn(f, h, |q|);
      assert h[..|q|] == q;
    }
  }

  lemma NewChannelAllPlaced(f: Sched, parent: Path, name: string)
    requires WellFormed(f) && AllPlaced(f) && parent in f && name !in f[parent].children
    ensures AllPlaced(WithChannel(f, parent, name))
  {
    NewChannelWellFormed(f, parent, name);
    var f' := WithChannel(f, parent, name);
    forall p | p in f' ensures forall j | j in NodeJobs(f'[p]) :: Placed(f', j) {
      forall j | j in NodeJobs(f'[p]) ensures Placed(f', j) {
        assert p in f && j in NodeJobs(f[p]);
        assert Placed(f, j);
        PrefixesIn(f, j.channel);
        forall q | q in f' ensures PlacedAt(f', q, j) {
          if q in f {
            assert PlacedAt(f, q, j);
          }
        }
      }
    }
  }

  lemma StepKeeps(f: Sched, e: Event, f': Sched)
    requires WellFormed(f) && AllPlaced(f) && Step(f, e, f')
    ensures WellFormed(f') && AllPlaced(f')
  {
    match e
    case Poll(now, y) =>
      PassKeeps(f, now, y, f');
      PassAllPlaced(f, now, y, f');
    case AddChannel(parent, name) =>
      NewChannelWellFormed(f, parent, name);
      NewChannelAllPlaced(f, parent, name);
    case _ =>
      MovesWellFormed(f, e, f');
      MovesAllPlaced(f, e, f');
  }

  /** In every reachable state of every run, each known job is placed. */
  lemma {:induction false} RunKeeps(fs: seq<Sched>, es: seq<Event>, n: nat)
    requires Run(fs, es) && n <= |es| && WellFormed(fs[0]) && AllPlaced(fs[0])
    ensures WellFormed(fs[n]) && AllPlaced(fs[n])
  {
    if n > 0 {
      RunKeeps(fs, es, n - 1);
      assert StepAt(fs, es, n - 1);
      StepKeeps(fs[n - 1], es[n - 1], fs[n]);
    }
  }

  /** The position invariant over runs, from a tree with no jobs in it. */
  lemma EveryJobInOnePlace(fs: seq<Sched>, es: seq<Event>, n: nat, j: ChannelJob)
    requires Run(fs, es) && n <= |es| && WellFormed(fs[0]) && j.channel in fs[n]
    requires forall p | p in fs[0] :: NodeJobs(fs[0][p]) == {}
    ensures exists place :: IsAt(fs[n], j, place) && forall other :: IsAt(fs[n], j, other) ==> other == place
  {
    RunKeeps(fs, es, n);
    AnyPlaced(fs[n], j);
    var place := PlaceExists(fs[n], j);
    forall other | IsAt(fs[n], j, other) ensures other == place {
      PlaceIsUnique(fs[n], j, other, place);
    }
  }

  // ---------- polls within a run ----------

  /** The clock is not negative, and an eta is a time other than zero. */
  predicate Proper(e: Event) {
    (e.Poll? ==> e.now >= 0.0) && (e.Pending? && e.eta.Some? ==> e.eta.value != 0.0)
  }

  lemma MovesSound(f: Sched, e: Event, f': Sched)
    requires Moves(f, e, f') && Proper(e) && AllThrottleOk(f) && EtasSet(f)
    ensures AllThrottleOk(f') && EtasSet(f')
  {
    forall p | p in f' ensures p in f && ThrottleOk(f'[p]) && forall j | j in f'[p].waiting :: f'[p].waiting[j] != 0.0 {
      assert p in f && ThrottleOk(f[p]);
      MovesKeep(f, e, f', p);
    }
  }

  lemma StepSound(f: Sched, e: Event, f': Sched)
    requires WellFormed(f) && Step(f, e, f') && Proper(e) && AllThrottleOk(f) && EtasSet(f)
    ensures AllThrottleOk(f') && EtasSet(f')
  {
    match e
    case Poll(now, y) =>
      PassKeeps(f, now, y, f');
      PassSettles(f, now, y, f');
    case AddChannel(parent, name) =>
      assert ThrottleOk(f[parent]);
    case _ =>
      MovesSound(f, e, f');
  }

  lemma {:induction false} RunSound(fs: seq<Sched>, es: seq<Event>, n: nat)
    requires Run(fs, es) && n <= |es| && WellFormed(fs[0]) && AllPlaced(fs[0])
    requires AllThrottleOk(fs[0]) && EtasSet(fs[0]) && forall i | 0 <= i < n :: Proper(es[i])
    ensures AllThrottleOk(fs[n]) && EtasSet(fs[n])
  {
    if n > 0 {
      RunSound(fs, es, n - 1);
      RunKeeps(fs, es, n - 1);
      assert StepAt(fs, es, n - 1);
      StepSound(fs[n - 1], es[n - 1], fs[n]);
    }
  }

  /** From `a` to `b` the run has nothing but polls, and the clock runs. */
  ghost predicate OnlyPolls(es: seq<Event>, a: nat, b: nat) {
    a <= b < |es| && (forall i | a <= i <= b :: es[i].Poll?) && forall i | a < i <= b :: es[i - 1].now <= es[i].now
  }

  /**
    In any run: between a poll and the wakeup time computed after it, further polls without a
    notification in between yield no job, so nothing is missed by sleeping that long.
   */
  lemma NoMissedWakeupInRun(fs: seq<Sched>, es: seq<Event>, a: nat, b: nat)
    requires Run(fs, es) && WellFormed(fs[0]) && AllPlaced(fs[0]) && AllThrottleOk(fs[0]) && EtasSet(fs[0])
    requires forall i | 0 <= i < |es| :: Proper(es[i])
    requires a < b && OnlyPolls(es, a, b)
    requires WellFormed(fs[a + 1]) ==> forall i | a < i <= b :: Asleep(fs[a + 1], ROOT, es[i].now)
    ensures ROOT in es[b].y && es[b].y[ROOT] == []
  {
    RunKeeps(fs, es, a);
    RunKeeps(fs, es, a + 1);
    RunSound(fs, es, a);
    var n := b - a + 1;
    var gs := fs[a..b + 2];
    var ts := seq(n, i requires 0 <= i < n => es[a + i].now);
    var ys := seq(n, i requires 0 <= i < n => es[a + i].y);
    forall i | 0 <= i < n ensures Pass(gs[i], ts[i], ys[i], gs[i + 1]) {
      assert StepAt(fs, es, a + i);
    }
    forall i | 0 < i < n ensures ts[i - 1] <= ts[i] {
      assert es[a + i - 1].now <= es[a + i].now;
    }
    NoMissedWakeup(gs, ts, ys);
    forall i | 1 <= i <= n - 1 ensures Asleep(gs[1], ROOT, ts[i]) {
      assert Asleep(fs[a + 1], ROOT, es[a + i].now);
    }
    assert ys[n - 1] == es[b].y;
  }
}
