/**
  How a notification moves a job through the channels, and where a job can be.
 */
module SchedulerMoves {
  import opened Prelude
  import opened ChannelJobs
  import opened SchedulerSpec

  // ---------- moves ----------

  function Drop(n: Node, j: ChannelJob): Node {
    n.(ready := n.ready - {j}, waiting := n.waiting - {j},
       running := n.running - {j}, failed := n.failed - {j})
  }

  function Queue(n: Node, j: ChannelJob, eta: Option<Time>): Node {
    if eta.Some? then n.(waiting := n.waiting[j := eta.value]) else n.(ready := n.ready + {j})
  }

  function Fail(n: Node, j: ChannelJob): Node {
    Drop(n, j).(failed := n.failed + {j})
  }

  function Occupy(n: Node, j: ChannelJob): Node {
    Drop(n, j).(running := n.running + {j})
  }

  /** `remove`, and `set_done`: the job leaves its channel and all parents. */
  ghost function RemoveJob(f: Sched, j: ChannelJob): Sched {
    map p | p in f :: if p <= j.channel then Drop(f[p], j) else f[p]
  }

  /** `set_pending`: a job that is not in the queue of its channel goes there and leaves the parents. */
  ghost function SetPending(f: Sched, j: ChannelJob, eta: Option<Time>): Sched
    requires j.channel in f
  {
    if f[j.channel].InQueue(j) then
      f
    else
      map p | p in f ::
        if p == j.channel then Queue(Drop(f[p], j), j, eta)
        else if p < j.channel then Drop(f[p], j)
        else f[p]
  }

  /** `set_running` goes up and stops at the first channel where the job runs already. */
  ghost predicate RunReaches(f: Sched, p: Path, j: ChannelJob) {
    && p <= j.channel
    && forall i | |p| <= i <= |j.channel| :: j.channel[..i] in f ==> j !in f[j.channel[..i]].running
  }

  ghost function SetRunning(f: Sched, j: ChannelJob): Sched {
    map p | p in f :: if RunReaches(f, p, j) then Occupy(f[p], j) else f[p]
  }

  /** `set_failed`: only the channel of the job itself remembers the failure. */
  ghost function SetFailed(f: Sched, j: ChannelJob): Sched
    requires j.channel in f
  {
    if j in f[j.channel].failed then
      f
    else
      map p | p in f ::
        if p == j.channel then Fail(f[p], j)
        else if p < j.channel then Drop(f[p], j)
        else f[p]
  }

  // ---------- places ----------

  /** In the queue of the channel or running in it. */
  ghost predicate Present(n: Node, j: ChannelJob) {
    n.InQueue(j) || j in n.running
  }

  ghost predicate Exclusive(n: Node, j: ChannelJob) {
    && !(j in n.ready && j in n.waiting)
    && !(n.InQueue(j) && j in n.running)
    && !(n.InQueue(j) && j in n.failed)
    && !(j in n.running && j in n.failed)
  }

  /** What holds of job `j` at channel `p`. */
  ghost predicate PlacedAt(f: Sched, p: Path, j: ChannelJob)
    requires p in f
  {
    && Exclusive(f[p], j)
    && (f[p].Holds(j) ==> p <= j.channel)
    && (j in f[p].waiting || j in f[p].failed ==> p == j.channel)
    && (p < j.channel ==>
          var q := j.channel[..|p| + 1];
          q in f && (Present(f[p], j) <==> j in f[q].running))
  }

  /** A parent channel knows a job exactly when the job runs in the child it came from. */
  ghost predicate Placed(f: Sched, j: ChannelJob) {
    j.channel in f && forall p {:trigger PlacedAt(f, p, j)} | p in f :: PlacedAt(f, p, j)
  }

  /**
    Nowhere; in the failed set of its own channel; or running in its own channel and the
    next ones up, `level` of them, and then waiting in the queue of the next channel up,
    or past the root.
   */
  datatype Place = Nowhere | Failed | At(level: nat)

  /** The channel `i` levels above the channel of the job. */
  function Above(h: Path, i: nat): Path
    requires i < |h|
  {
    h[..|h| - i]
  }

  ghost predicate IsAt(f: Sched, j: ChannelJob, place: Place) {
    && j.channel in f
    && (forall p | p in f && f[p].Holds(j) :: p <= j.channel && |p| >= 1)
    && (forall i | 0 <= i < |j.channel| :: Above(j.channel, i) in f)
    && match place
       case Nowhere => forall p | p in f :: !f[p].Holds(j)
       case Failed => forall p | p in f :: !Present(f[p], j) && (j in f[p].failed <==> p == j.channel)
       case At(k) =>
         && k <= |j.channel|
         && forall i | 0 <= i < |j.channel| ::
              var n := f[Above(j.channel, i)];
              && j !in n.failed
              && (j in n.running <==> i < k)
              && (n.InQueue(j) <==> i == k)
  }

  lemma {:induction false} PrefixIn(f: Sched, p: Path, i: nat)
    requires WellFormed(f) && p in f && 1 <= i <= |p|
    ensures p[..i] in f
    decreases |p|
  {
    assert Linked(f, p);
    if i < |p| {
      PrefixIn(f, p[..|p| - 1], i);
      assert p[..|p| - 1][..i] == p[..i];
    } else {
      assert p[..i] == p;
    }
  }

  lemma {:induction false} RootPrefix(f: Sched, p: Path)
    requires WellFormed(f) && p in f
    ensures |p| >= 1 && p[..1] == ROOT
    decreases |p|
  {
    assert Linked(f, p);
    if |p| > 1 {
      RootPrefix(f, p[..|p| - 1]);
      assert p[..1] == p[..|p| - 1][..1];
    } else {
      assert p[..1] == p;
    }
  }

  lemma AtMeansPresent(f: Sched, j: ChannelJob, place: Place)
    requires IsAt(f, j, place) && |j.channel| >= 1
    ensures place.At? <==> Present(f[j.channel], j)
    ensures place.At? && place.level < |j.channel| ==> f[Above(j.channel, place.level)].InQueue(j)
  {
    assert Above(j.channel, 0) == j.channel;
  }

  lemma PlaceIsUnique(f: Sched, j: ChannelJob, a: Place, b: Place)
    requires WellFormed(f) && IsAt(f, j, a) && IsAt(f, j, b)
    ensures a == b
  {
    assert Linked(f, j.channel);
    assert Above(j.channel, 0) == j.channel;
    AtMeansPresent(f, j, a);
    AtMeansPresent(f, j, b);
  }

  /** How many levels, counted from its own channel, job `j` is running in. */
  ghost function RunLevel(f: Sched, j: ChannelJob, i: nat): nat
    requires i <= |j.channel|
    decreases |j.channel| - i
  {
    if i < |j.channel| && Above(j.channel, i) in f && j in f[Above(j.channel, i)].running then
      RunLevel(f, j, i + 1)
    else i
  }

  lemma {:induction false} RunLevelProps(f: Sched, j: ChannelJob, i: nat)
    requires WellFormed(f) && Placed(f, j) && i <= |j.channel|
    ensures i <= RunLevel(f, j, i) <= |j.channel|
    ensures forall k | i <= k < RunLevel(f, j, i) :: Above(j.channel, k) in f && j in f[Above(j.channel, k)].running
    ensures RunLevel(f, j, i) < |j.channel| ==>
              Above(j.channel, RunLevel(f, j, i)) in f && j !in f[Above(j.channel, RunLevel(f, j, i))].running
    decreases |j.channel| - i
  {
    if i < |j.channel| {
      PrefixIn(f, j.channel, |j.channel| - i);
      if j in f[Above(j.channel, i)].running {
        RunLevelProps(f, j, i + 1);
      }
    }
  }

  lemma {:induction false} AbsentAbove(f: Sched, j: ChannelJob, k: nat, i: nat)
    requires WellFormed(f) && Placed(f, j) && k < i < |j.channel|
    requires Above(j.channel, k) in f && j !in f[Above(j.channel, k)].running
    ensures Above(j.channel, i) in f && !Present(f[Above(j.channel, i)], j)
    decreases i
  {
    PrefixIn(f, j.channel, |j.channel| - i);
    PrefixIn(f, j.channel, |j.channel| - (i - 1));
    if i - 1 > k {
      AbsentAbove(f, j, k, i - 1);
    }
    var p := Above(j.channel, i);
    assert j.channel[..|p| + 1] == Above(j.channel, i - 1);
    assert PlacedAt(f, p, j);
  }

  /** Every placed job is in exactly one of the places. */
  lemma PlaceExists(f: Sched, j: ChannelJob) returns (place: Place)
    requires WellFormed(f) && Placed(f, j)
    ensures IsAt(f, j, place)
  {
    var h := j.channel;
    assert Linked(f, h);
    assert Above(h, 0) == h;
    forall i | 0 <= i < |h| ensures Above(h, i) in f && PlacedAt(f, Above(h, i), j) {
      PrefixIn(f, h, |h| - i);
    }
    forall p | p in f && f[p].Holds(j) ensures p <= h && |p| >= 1 {
      assert PlacedAt(f, p, j) && Linked(f, p);
    }
    if Present(f[h], j) {
      var k := RunLevel(f, j, 0);
      RunLevelProps(f, j, 0);
      forall i | 0 <= i < |h|
        ensures var n := f[Above(h, i)]; j !in n.failed && (j in n.running <==> i < k) && (n.InQueue(j) <==> i == k)
      {
        assert PlacedAt(f, Above(h, i), j);
        if i > k {
          AbsentAbove(f, j, k, i);
        } else if i == k && i > 0 {
          var p := Above(h, i);
          assert h[..|p| + 1] == Above(h, i - 1);
        }
      }
      place := At(k);
    } else {
      forall p | p in f && p != h ensures !f[p].Holds(j) {
        assert PlacedAt(f, p, j) && Linked(f, p);
        if p <= h {
          var i := |h| - |p|;
          assert Above(h, i) == p;
          AbsentAbove(f, j, 0, i);
        }
      }
      place := if j in f[h].failed then Failed else Nowhere;
    }
  }

  // ---------- moves keep every job placed ----------

  ghost predicate SameJob(n: Node, n': Node, k: ChannelJob) {
    && (k in n'.ready <==> k in n.ready) && (k in n'.waiting <==> k in n.waiting)
    && (k in n'.running <==> k in n.running) && (k in n'.failed <==> k in n.failed)
  }

  lemma PlacedFrame(f: Sched, f': Sched, k: ChannelJob)
    requires f'.Keys == f.Keys
    requires forall p | p in f :: SameJob(f[p], f'[p], k)
    requires Placed(f, k)
    ensures Placed(f', k)
  {
    forall p | p in f' ensures PlacedAt(f', p, k) {
      assert PlacedAt(f, p, k);
    }
  }

  lemma RemovePlaces(f: Sched, j: ChannelJob, k: ChannelJob)
    requires Placed(f, k) && Placed(f, j)
    ensures Placed(RemoveJob(f, j), k)
    ensures forall p | p in f :: !RemoveJob(f, j)[p].Holds(j)
  {
    var f' := RemoveJob(f, j);
    forall p | p in f ensures !f'[p].Holds(j) {
      assert PlacedAt(f, p, j);
    }
    if k == j {
      forall p | p in f' ensures PlacedAt(f', p, j) {
        assert PlacedAt(f, p, j);
      }
    } else {
      PlacedFrame(f, f', k);
    }
  }

  lemma PendingPlaces(f: Sched, j: ChannelJob, eta: Option<Time>, k: ChannelJob)
    requires WellFormed(f) && Placed(f, k) && Placed(f, j)
    ensures Placed(SetPending(f, j, eta), k)
    ensures SetPending(f, j, eta)[j.channel].InQueue(j)
  {
    var f' := SetPending(f, j, eta);
    if k != j {
      PlacedFrame(f, f', k);
    } else if f' != f {
      forall p | p in f' ensures PlacedAt(f', p, j) {
        assert PlacedAt(f, p, j) && Linked(f, p);
        if p < j.channel {
          PrefixIn(f, j.channel, |p| + 1);
        }
      }
    }
  }

  lemma FailedPlaces(f: Sched, j: ChannelJob, k: ChannelJob)
    requires WellFormed(f) && Placed(f, k) && Placed(f, j)
    ensures Placed(SetFailed(f, j), k)
    ensures j in SetFailed(f, j)[j.channel].failed
  {
    var f' := SetFailed(f, j);
    if k != j {
      PlacedFrame(f, f', k);
    } else if f' != f {
      forall p | p in f' ensures PlacedAt(f', p, j) {
        assert PlacedAt(f, p, j) && Linked(f, p);
        if p < j.channel {
          PrefixIn(f, j.channel, |p| + 1);
        }
      }
    }
  }

  /** A job that does not run in its own channel is not known to any parent channel. */
  lemma {:induction false} NotRunningAnywhere(f: Sched, j: ChannelJob, p: Path)
    requires WellFormed(f) && Placed(f, j) && j !in f[j.channel].running
    requires p in f && p < j.channel
    ensures !Present(f[p], j)
    decreases |j.channel| - |p|
  {
    assert PlacedAt(f, p, j) && Linked(f, p);
    var q := j.channel[..|p| + 1];
    PrefixIn(f, j.channel, |p| + 1);
    if q == j.channel {
    } else {
      NotRunningAnywhere(f, j, q);
    }
  }

  lemma RunReachesAll(f: Sched, j: ChannelJob)
    requires WellFormed(f) && Placed(f, j)
    ensures if j in f[j.channel].running then SetRunning(f, j) == f
            else forall p | p in f :: RunReaches(f, p, j) <==> p <= j.channel
  {
    assert j.channel[..|j.channel|] == j.channel;
    if j !in f[j.channel].running {
      forall p | p in f && p <= j.channel ensures RunReaches(f, p, j) {
        forall i | |p| <= i <= |j.channel| && j.channel[..i] in f
          ensures j !in f[j.channel[..i]].running
        {
          if i < |j.channel| {
            NotRunningAnywhere(f, j, j.channel[..i]);
          }
        }
      }
    }
  }

  lemma RunningPlaces(f: Sched, j: ChannelJob, k: ChannelJob)
    requires WellFormed(f) && Placed(f, k) && Placed(f, j)
    ensures Placed(SetRunning(f, j), k)
    ensures j in f[j.channel].running ==> SetRunning(f, j) == f
    ensures j !in f[j.channel].running ==> forall p | p in f && p <= j.channel :: j in SetRunning(f, j)[p].running
  {
    var f' := SetRunning(f, j);
    RunReachesAll(f, j);
    if k != j {
      PlacedFrame(f, f', k);
    } else if j !in f[j.channel].running {
      forall p | p in f' ensures PlacedAt(f', p, j) {
        assert PlacedAt(f, p, j) && Linked(f, p);
        if p < j.channel {
          PrefixIn(f, j.channel, |p| + 1);
          assert j.channel[..|p| + 1] <= j.channel;
        }
      }
    }
  }

  // ---------- a pass moves jobs up ----------

  lemma {:induction false} YieldsMoves(n: Node, now: Time, out: seq<ChannelJob>, n': Node, j: ChannelJob)
    requires Yields(n, now, out, n')
    requires Exclusive(n, j)
    ensures j in out ==> n.InQueue(j)
    ensures j in n'.running <==> j in n.running || j in out
    ensures n'.InQueue(j) <==> n.InQueue(j) && j !in out
    ensures j in n'.failed <==> j in n.failed
    ensures j in n'.waiting ==> j in n.waiting
    ensures Exclusive(n', j)
    decreases |out|
  {
    if HasCapacity(n) {
      var m := Mature(n, now);
      if !(m.ready == {} || Held(m)) {
        var i := out[0];
        assert out == [i] + out[1..];
        assert Exclusive(Start(i, m), j);
        if m.throttle == 0.0 {
          YieldsMoves(Start(i, m), now, out[1..], n', j);
        }
      }
    }
  }

  lemma {:induction false} InflowFrom(children: seq<string>, p: Path, y: Flow, j: ChannelJob)
    ensures j in Inflow(children, p, y) <==>
            exists i | 0 <= i < |children| :: p + [children[i]] in y && j in y[p + [children[i]]]
  {
    if children != [] {
      InflowFrom(children[1..], p, y, j);
      assert forall i | 0 <= i < |children[1..]| :: children[1..][i] == children[i + 1];
      if i :| 0 <= i < |children| && p + [children[i]] in y && j in y[p + [children[i]]] {
        if i > 0 {
          assert children[1..][i - 1] == children[i];
        }
      }
    }
  }

  lemma ChildToward(f: Sched, p: Path, h: Path) returns (i: nat)
    requires WellFormed(f) && p in f && h in f && p < h
    ensures i < |f[p].children| && p + [f[p].children[i]] == h[..|p| + 1] && h[..|p| + 1] in f
  {
    var q := h[..|p| + 1];
    assert Linked(f, p);
    PrefixIn(f, h, |p| + 1);
    assert Linked(f, q);
    assert q[..|q| - 1] == p;
    i :| 0 <= i < |f[p].children| && f[p].children[i] == q[|q| - 1];
  }

  /** Jobs come into a channel from the next channel down on the way to their own channel. */
  lemma InflowOnPath(f: Sched, p: Path, y: Flow, j: ChannelJob)
    requires WellFormed(f) && f.Keys == y.Keys && p in f && j.channel in f
    requires forall i | 0 <= i < |f[p].children| ::
               p + [f[p].children[i]] in y && j in y[p + [f[p].children[i]]] ==>
                 p + [f[p].children[i]] <= j.channel
    ensures j in Inflow(f[p].children, p, y) ==> p < j.channel
    ensures p < j.channel ==> j.channel[..|p| + 1] in y
    ensures p < j.channel ==>
              (j in Inflow(f[p].children, p, y) <==> j in y[j.channel[..|p| + 1]])
  {
    InflowFrom(f[p].children, p, y, j);
    if i :| 0 <= i < |f[p].children| && p + [f[p].children[i]] in y && j in y[p + [f[p].children[i]]] {
      assert p + [f[p].children[i]] == j.channel[..|p| + 1];
    }
    if p < j.channel {
      var k := ChildToward(f, p, j.channel);
    }
  }

  /** What one pass does to job `j` at channel `p`. */
  lemma {:induction false} NodeMoves(f: Sched, now: Time, y: Flow, f': Sched, j: ChannelJob, p: Path)
    requires WellFormed(f) && Pass(f, now, y, f') && Placed(f, j) && p in f
    ensures j in y[p] ==> p <= j.channel && j !in f[p].running
    ensures j in y[p] ==> f[p].InQueue(j) || j in Inflow(f[p].children, p, y)
    ensures j in Inflow(f[p].children, p, y) ==> p < j.channel
    ensures p < j.channel ==> j.channel[..|p| + 1] in y
    ensures p < j.channel ==>
              (j in Inflow(f[p].children, p, y) <==> j in y[j.channel[..|p| + 1]])
    ensures Exclusive(f'[p], j)
    ensures j in f'[p].running <==> j in f[p].running || j in y[p]
    ensures f'[p].InQueue(j) <==> (f[p].InQueue(j) || j in Inflow(f[p].children, p, y)) && j !in y[p]
    ensures j in f'[p].failed <==> j in f[p].failed
    ensures j in f'[p].waiting ==> j in f[p].waiting
    decreases Height(f, p)
  {
    assert NodePass(f, p, now, y, f');
    assert PlacedAt(f, p, j) && Linked(f, p);
    var n := f[p];
    forall i | 0 <= i < |n.children| && j in y[p + [n.children[i]]]
      ensures p + [n.children[i]] <= j.channel && j !in f[p + [n.children[i]]].running
    {
      var c := p + [n.children[i]];
      DepthBounds(f.Keys, c);
      NodeMoves(f, now, y, f', j, c);
    }
    InflowOnPath(f, p, y, j);
    var a := Absorb(n, Inflow(n.children, p, y));
    if j in Inflow(n.children, p, y) {
      InflowFrom(n.children, p, y, j);
      var i :| 0 <= i < |n.children| && p + [n.children[i]] in y && j in y[p + [n.children[i]]];
      assert p + [n.children[i]] == j.channel[..|p| + 1];
      assert !n.Holds(j);
    }
    assert Exclusive(a, j);
    if !Paused(a, now) {
      YieldsMoves(Unpause(a), now, y[p], f'[p], j);
    }
  }

  lemma PassPlaces(f: Sched, now: Time, y: Flow, f': Sched, j: ChannelJob)
    requires WellFormed(f) && Pass(f, now, y, f') && Placed(f, j)
    ensures Placed(f', j)
  {
    forall p | p in f' ensures PlacedAt(f', p, j) {
      assert PlacedAt(f, p, j);
      NodeMoves(f, now, y, f', j, p);
      if p < j.channel {
        NodeMoves(f, now, y, f', j, j.channel[..|p| + 1]);
      }
    }
  }

  /** The root yields exactly the jobs that start to run there, each of them once. */
  lemma RootYieldsOnce(f: Sched, now: Time, y: Flow, f': Sched, j: ChannelJob)
    requires WellFormed(f) && Pass(f, now, y, f') && Placed(f, j)
    ensures j in y[ROOT] <==> j in f'[ROOT].running && j !in f[ROOT].running
    ensures j in f[ROOT].running ==> j in f'[ROOT].running && j !in y[ROOT]
  {
    NodeMoves(f, now, y, f', j, ROOT);
  }
}
