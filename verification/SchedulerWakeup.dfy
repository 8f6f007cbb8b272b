/**
  The runner sleeps until the wakeup time. These lemmas say that it never sleeps too long
  and that it never wakes up in a loop.
 */
module SchedulerWakeup {
  import opened Prelude
  import opened ChannelJobs
  import opened SchedulerSpec

  /** Nothing can be popped from the channel at `now`. */
  ghost predicate Idle(n: Node, now: Time) {
    && (forall j | j in n.waiting :: now < n.waiting[j])
    && (n.ready == {} || Held(n))
  }

  /** A channel that a drained pass at `now` leaves behind. */
  ghost predicate Settled(n: Node, now: Time) {
    || !HasCapacity(n)
    || (n.pauseUntil != 0.0 && n.throttle != 0.0 && now < n.pauseUntil)
    || (n.pauseUntil == 0.0 && Idle(n, now))
  }

  ghost predicate AllSettled(f: Sched, now: Time) {
    forall p | p in f :: Settled(f[p], now)
  }

  /** The throttle is a number of seconds, and only a throttled channel pauses. */
  ghost predicate ThrottleOk(n: Node) {
    n.throttle >= 0.0 && (n.pauseUntil != 0.0 ==> n.throttle != 0.0)
  }

  ghost predicate AllThrottleOk(f: Sched) {
    forall p | p in f :: ThrottleOk(f[p])
  }

  lemma {:induction false} YieldsSettles(n: Node, now: Time, out: seq<ChannelJob>, n': Node)
    requires Yields(n, now, out, n')
    requires ThrottleOk(n) && n.pauseUntil == 0.0 && now >= 0.0
    ensures Settled(n', now) && ThrottleOk(n')
    decreases |out|
  {
    if HasCapacity(n) {
      var m := Mature(n, now);
      if !(m.ready == {} || Held(m)) && m.throttle == 0.0 {
        YieldsSettles(Start(out[0], m), now, out[1..], n');
      }
    }
  }

  lemma PassSettles(f: Sched, now: Time, y: Flow, f': Sched)
    requires Pass(f, now, y, f') && now >= 0.0
    requires AllThrottleOk(f)
    ensures AllSettled(f', now)
    ensures AllThrottleOk(f')
  {
    forall p | p in f' ensures Settled(f'[p], now) && ThrottleOk(f'[p]) {
      assert NodePass(f, p, now, y, f');
      var n := Absorb(f[p], Inflow(f[p].children, p, y));
      if !Paused(n, now) {
        YieldsSettles(Unpause(n), now, y[p], f'[p]);
      }
    }
  }

  // ---------- the wakeup time is a minimum over the tree ----------

  function Combine(a: Time, b: Time): Time {
    if b == 0.0 then a else Earlier(a, b)
  }

  /** `w` is no later than `x`, where zero stands for "never". */
  predicate NoLater(w: Time, x: Time) {
    x == 0.0 || (w != 0.0 && w <= x)
  }

  lemma QueueWakeupCombines(waiting: map<ChannelJob, Time>, w: Time)
    requires forall j | j in waiting :: waiting[j] != 0.0
    ensures QueueWakeup(waiting, w) == Combine(w, QueueWakeup(waiting, 0.0))
    ensures forall j | j in waiting :: NoLater(QueueWakeup(waiting, 0.0), waiting[j])
    ensures QueueWakeup(waiting, 0.0) == 0.0 || exists j | j in waiting :: waiting[j] == QueueWakeup(waiting, 0.0)
  {
    if waiting.Keys != {} {
      EarliestExists(waiting);
    }
  }

  ghost predicate EtasSet(f: Sched) {
    forall p | p in f :: forall j | j in f[p].waiting :: f[p].waiting[j] != 0.0
  }

  lemma {:induction false} WakeupCombines(f: Sched, p: Path, w: Time)
    requires WellFormed(f) && EtasSet(f) && p in f
    ensures Wakeup(f, p, w) == Combine(w, Wakeup(f, p, 0.0))
    decreases Height(f, p), 1, 0
  {
    var n := f[p];
    if HasCapacity(n) && n.pauseUntil == 0.0 {
      QueueWakeupCombines(n.waiting, w);
      ChildrenWakeupCombines(f, p, 0, QueueWakeup(n.waiting, w));
      ChildrenWakeupCombines(f, p, 0, QueueWakeup(n.waiting, 0.0));
    }
  }

  lemma {:induction false} ChildrenWakeupCombines(f: Sched, p: Path, i: nat, w: Time)
    requires WellFormed(f) && EtasSet(f) && p in f && i <= |f[p].children|
    ensures ChildrenWakeup(f, p, i, w) == Combine(w, ChildrenWakeup(f, p, i, 0.0))
    decreases Height(f, p), 0, |f[p].children| - i
  {
    if i < |f[p].children| {
      assert Linked(f, p);
      var c := p + [f[p].children[i]];
      DepthBounds(f.Keys, c);
      WakeupCombines(f, c, w);
      ChildrenWakeupCombines(f, p, i + 1, Wakeup(f, c, w));
      ChildrenWakeupCombines(f, p, i + 1, Wakeup(f, c, 0.0));
    }
  }

  /** No child asks to be woken up before the parent does. */
  lemma {:induction false} ChildrenWakeupBounds(f: Sched, p: Path, i: nat, k: nat)
    requires WellFormed(f) && EtasSet(f) && p in f && i <= k < |f[p].children|
    ensures p + [f[p].children[k]] in f
    ensures NoLater(ChildrenWakeup(f, p, i, 0.0), Wakeup(f, p + [f[p].children[k]], 0.0))
    decreases k - i
  {
    assert Linked(f, p);
    var c := p + [f[p].children[i]];
    DepthBounds(f.Keys, c);
    ChildrenWakeupCombines(f, p, i + 1, Wakeup(f, c, 0.0));
    if i < k {
      ChildrenWakeupBounds(f, p, i + 1, k);
    }
  }

  lemma {:induction false} SameChildrenWakeup(f: Sched, f': Sched, p: Path, i: nat, w: Time)
    requires WellFormed(f) && WellFormed(f') && EtasSet(f) && EtasSet(f')
    requires f.Keys == f'.Keys && p in f && f[p].children == f'[p].children && i <= |f[p].children|
    requires forall k | i <= k < |f[p].children| ::
               assert Linked(f, p);
               var c := p + [f[p].children[k]]; c in f && Wakeup(f', c, 0.0) == Wakeup(f, c, 0.0)
    ensures ChildrenWakeup(f', p, i, w) == ChildrenWakeup(f, p, i, w)
    decreases |f[p].children| - i
  {
    if i < |f[p].children| {
      assert Linked(f, p);
      var c := p + [f[p].children[i]];
      WakeupCombines(f, c, w);
      WakeupCombines(f', c, w);
      SameChildrenWakeup(f, f', p, i + 1, Wakeup(f, c, w));
    }
  }

  // ---------- no missed wakeup ----------

  ghost predicate SameSettings(n: Node, n': Node) {
    && n'.capacity == n.capacity && n'.sequential == n.sequential
    && n'.throttle == n.throttle && n'.children == n.children
  }

  lemma {:induction false} YieldsKeeps(n: Node, now: Time, out: seq<ChannelJob>, n': Node)
    requires Yields(n, now, out, n')
    ensures SameSettings(n, n') && n'.failed == n.failed
    ensures forall j | j in n'.waiting :: j in n.waiting && n'.waiting[j] == n.waiting[j]
    decreases |out|
  {
    if HasCapacity(n) {
      var m := Mature(n, now);
      if !(m.ready == {} || Held(m)) && m.throttle == 0.0 {
        YieldsKeeps(Start(out[0], m), now, out[1..], n');
      }
    }
  }

  lemma NodePassKeeps(f: Sched, p: Path, now: Time, y: Flow, f': Sched)
    requires p in f && p in y && p in f' && NodePass(f, p, now, y, f')
    ensures SameSettings(f[p], f'[p]) && f'[p].failed == f[p].failed
    ensures forall j | j in f'[p].waiting :: j in f[p].waiting && f'[p].waiting[j] == f[p].waiting[j]
  {
    var n := Absorb(f[p], Inflow(f[p].children, p, y));
    if !Paused(n, now) {
      YieldsKeeps(Unpause(n), now, y[p], f'[p]);
    }
  }

  lemma ShapeKept(f: Sched, f': Sched)
    requires WellFormed(f) && f'.Keys == f.Keys
    requires forall p | p in f :: f'[p].children == f[p].children
    ensures WellFormed(f')
  {
    forall p | p in f' ensures Linked(f', p) {
      assert Linked(f, p);
    }
  }

  lemma PassKeeps(f: Sched, now: Time, y: Flow, f': Sched)
    requires WellFormed(f) && Pass(f, now, y, f')
    ensures WellFormed(f')
    ensures forall p | p in f :: SameSettings(f[p], f'[p]) && f'[p].failed == f[p].failed
    ensures EtasSet(f) ==> EtasSet(f')
  {
    forall p | p in f
      ensures SameSettings(f[p], f'[p]) && f'[p].failed == f[p].failed
      ensures forall j | j in f'[p].waiting :: j in f[p].waiting && f'[p].waiting[j] == f[p].waiting[j]
    {
      assert NodePass(f, p, now, y, f');
      NodePassKeeps(f, p, now, y, f');
    }
    ShapeKept(f, f');
  }

  lemma {:induction false} InflowEmpty(children: seq<string>, p: Path, y: Flow)
    requires forall i | 0 <= i < |children| :: p + [children[i]] in y ==> y[p + [children[i]]] == []
    ensures Inflow(children, p, y) == []
  {
    if children != [] {
      assert children[0] == children[0];
      forall i | 0 <= i < |children[1..]|
        ensures p + [children[1..][i]] in y ==> y[p + [children[1..][i]]] == []
      {
        assert children[1..][i] == children[i + 1];
      }
      InflowEmpty(children[1..], p, y);
    }
  }

  ghost predicate Asleep(f: Sched, p: Path, t: Time)
    requires WellFormed(f) && p in f
  {
    Wakeup(f, p, 0.0) == 0.0 || t < Wakeup(f, p, 0.0)
  }

  /** A full or paused channel yields nothing, whatever comes in from its children. */
  lemma BlockedYieldsNothing(n: Node, jobs: seq<ChannelJob>, now: Time, t: Time, out: seq<ChannelJob>, n': Node)
    requires ThrottleOk(n) && Settled(n, now) && now <= t && Drained(Absorb(n, jobs), t, out, n')
    requires !HasCapacity(n) || (n.pauseUntil != 0.0 && t < n.pauseUntil)
    ensures out == []
    ensures !HasCapacity(n) ==> !HasCapacity(n')
    ensures HasCapacity(n) ==> HasCapacity(n') && n'.pauseUntil == n.pauseUntil
  {
  }

  /** An idle channel with nothing coming in and no eta past due stays as it is. */
  lemma IdleYieldsNothing(n: Node, t: Time, out: seq<ChannelJob>, n': Node)
    requires n.pauseUntil == 0.0 && HasCapacity(n) && Idle(n, t) && Drained(Absorb(n, []), t, out, n')
    ensures out == [] && n' == n
  {
    assert Absorb(n, []) == n;
    assert Mature(n, t) == n;
  }

  /**
    A channel that is settled and whose wakeup time has not come yields nothing, and
    asks for the same wakeup time again.
   */
  lemma {:induction false} AsleepYieldsNothing(f: Sched, now: Time, t: Time, y: Flow, f': Sched, p: Path)
    requires WellFormed(f) && WellFormed(f') && EtasSet(f) && EtasSet(f')
    requires AllSettled(f, now) && 0.0 <= now <= t && Pass(f, t, y, f')
    requires AllThrottleOk(f) && forall q | q in f :: f'[q].children == f[q].children
    requires p in f && Asleep(f, p, t)
    ensures y[p] == [] && Wakeup(f', p, 0.0) == Wakeup(f, p, 0.0)
    decreases Height(f, p)
  {
    assert NodePass(f, p, t, y, f');
    var n := f[p];
    if !HasCapacity(n) || n.pauseUntil != 0.0 {
      BlockedYieldsNothing(n, Inflow(n.children, p, y), now, t, y[p], f'[p]);
    } else {
      QueueWakeupCombines(n.waiting, 0.0);
      ChildrenWakeupCombines(f, p, 0, QueueWakeup(n.waiting, 0.0));
      forall i | 0 <= i < |n.children|
        ensures p + [n.children[i]] in f
        ensures y[p + [n.children[i]]] == []
        ensures Wakeup(f', p + [n.children[i]], 0.0) == Wakeup(f, p + [n.children[i]], 0.0)
      {
        assert Linked(f, p);
        var c := p + [n.children[i]];
        DepthBounds(f.Keys, c);
        ChildrenWakeupBounds(f, p, 0, i);
        AsleepYieldsNothing(f, now, t, y, f', c);
      }
      InflowEmpty(n.children, p, y);
      IdleYieldsNothing(n, t, y[p], f'[p]);
      SameChildrenWakeup(f, f', p, 0, QueueWakeup(n.waiting, 0.0));
    }
  }

  /** The scheduler states, times and yields of consecutive polls with nothing in between. */
  ghost predicate Polls(fs: seq<Sched>, ts: seq<Time>, ys: seq<Flow>) {
    && |fs| == |ts| + 1 == |ys| + 1
    && (forall i | 0 <= i < |ts| :: Pass(fs[i], ts[i], ys[i], fs[i + 1]))
    && (forall i | 0 < i < |ts| :: ts[i - 1] <= ts[i])
  }

  /**
    No missed wakeup: between one poll and the wakeup time computed after it, any number of
    further polls yields no job, and none of them changes the wakeup time.
   */
  lemma {:induction false} NoMissedWakeup(fs: seq<Sched>, ts: seq<Time>, ys: seq<Flow>)
    requires Polls(fs, ts, ys) && |ts| >= 1 && ts[0] >= 0.0
    requires WellFormed(fs[0]) && EtasSet(fs[0])
    requires AllThrottleOk(fs[0])
    ensures WellFormed(fs[1])
    ensures forall n | 1 <= n < |ts| ::
              (forall i | 1 <= i <= n :: Asleep(fs[1], ROOT, ts[i])) ==>
                ROOT in ys[n] && ys[n][ROOT] == []
  {
    PassKeeps(fs[0], ts[0], ys[0], fs[1]);
    forall n | 1 <= n < |ts| && forall i | 1 <= i <= n :: Asleep(fs[1], ROOT, ts[i])
      ensures ROOT in ys[n] && ys[n][ROOT] == []
    {
      AsleepPrefix(fs, ts, ys, n);
    }
  }

  lemma {:induction false} AsleepPrefix(fs: seq<Sched>, ts: seq<Time>, ys: seq<Flow>, n: nat)
    requires Polls(fs, ts, ys) && 0 <= n < |ts| && ts[0] >= 0.0
    requires WellFormed(fs[0]) && EtasSet(fs[0]) && WellFormed(fs[1])
    requires AllThrottleOk(fs[0])
    requires forall i | 1 <= i <= n :: Asleep(fs[1], ROOT, ts[i])
    ensures WellFormed(fs[n + 1]) && EtasSet(fs[n + 1]) && AllSettled(fs[n + 1], ts[n]) && ts[n] >= 0.0
    ensures AllThrottleOk(fs[n + 1])
    ensures Wakeup(fs[n + 1], ROOT, 0.0) == Wakeup(fs[1], ROOT, 0.0)
    ensures ROOT in ys[n] && (n >= 1 ==> ys[n][ROOT] == [])
  {
    assert Pass(fs[n], ts[n], ys[n], fs[n + 1]);
    if n > 0 {
      AsleepPrefix(fs, ts, ys, n - 1);
    }
    PassKeeps(fs[n], ts[n], ys[n], fs[n + 1]);
    PassSettles(fs[n], ts[n], ys[n], fs[n + 1]);
    if n > 0 {
      assert ts[n - 1] <= ts[n] && Asleep(fs[1], ROOT, ts[n]);
      AsleepYieldsNothing(fs[n], ts[n - 1], ts[n], ys[n], fs[n + 1], ROOT);
    }
  }

  // ---------- wakeups make progress ----------

  lemma {:induction false} WakeupAhead(f: Sched, now: Time, p: Path)
    requires WellFormed(f) && EtasSet(f) && AllSettled(f, now) && now >= 0.0 && p in f
    ensures Wakeup(f, p, 0.0) == 0.0 || now < Wakeup(f, p, 0.0)
    decreases Height(f, p), 1, 0
  {
    var n := f[p];
    if HasCapacity(n) && n.pauseUntil == 0.0 {
      QueueWakeupCombines(n.waiting, 0.0);
      ChildrenWakeupCombines(f, p, 0, QueueWakeup(n.waiting, 0.0));
      ChildrenWakeupAhead(f, now, p, 0);
    }
  }

  lemma {:induction false} ChildrenWakeupAhead(f: Sched, now: Time, p: Path, i: nat)
    requires WellFormed(f) && EtasSet(f) && AllSettled(f, now) && now >= 0.0
    requires p in f && i <= |f[p].children|
    ensures ChildrenWakeup(f, p, i, 0.0) == 0.0 || now < ChildrenWakeup(f, p, i, 0.0)
    decreases Height(f, p), 0, |f[p].children| - i
  {
    if i < |f[p].children| {
      assert Linked(f, p);
      var c := p + [f[p].children[i]];
      DepthBounds(f.Keys, c);
      WakeupAhead(f, now, c);
      ChildrenWakeupCombines(f, p, i + 1, Wakeup(f, c, 0.0));
      ChildrenWakeupAhead(f, now, p, i + 1);
    }
  }

  /** The wakeup time asked for after a drained pass is in the future, so the runner does not spin. */
  lemma WakeupMakesProgress(f: Sched, now: Time, y: Flow, f': Sched)
    requires WellFormed(f) && EtasSet(f) && Pass(f, now, y, f') && now >= 0.0
    requires AllThrottleOk(f)
    ensures WellFormed(f')
    ensures Wakeup(f', ROOT, 0.0) == 0.0 || now < Wakeup(f', ROOT, 0.0)
  {
    PassKeeps(f, now, y, f');
    PassSettles(f, now, y, f');
    WakeupAhead(f', now, ROOT);
  }
}
