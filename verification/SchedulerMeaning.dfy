/**
  What the specification of the scheduler means for the fields of jobs and channels.
 */
module SchedulerMeaning {
  import opened Prelude
  import opened ChannelJobs
  import opened SchedulerSpec
  import opened SchedulerMoves
  import opened SchedulerRuns
  import opened SchedulerWakeup

  // ---------- the order of jobs ----------

  /** The job that comes first has the smallest priority; then the earliest date, then the smallest number. */
  lemma FirstMeans(ready: set<ChannelJob>, j: ChannelJob, x: ChannelJob)
    requires IsFirst(ready, j) && x in ready
    ensures j.key.priority <= x.key.priority
    ensures j.key.priority == x.key.priority ==> j.key.dateCreated <= x.key.dateCreated
    ensures j.key.priority == x.key.priority && j.key.dateCreated == x.key.dateCreated ==> j.key.seqNo <= x.key.seqNo
  {
    assert KeyLe(j.key, x.key);
  }

  /** `e` has the earliest eta of the waiting jobs, and is the first of those with this eta. */
  ghost predicate IsNext(waiting: map<ChannelJob, Time>, e: ChannelJob) {
    e in waiting &&
    forall w | w in waiting ::
      && waiting[e] <= waiting[w]
      && (waiting[e] == waiting[w] ==>
            && e.key.priority <= w.key.priority
            && (e.key.priority == w.key.priority ==>
                  && e.key.dateCreated <= w.key.dateCreated
                  && (e.key.dateCreated == w.key.dateCreated ==> e.key.seqNo <= w.key.seqNo)))
  }

  /** `e` comes before all these jobs, whatever its eta. */
  ghost predicate IsAhead(e: ChannelJob, ready: set<ChannelJob>) {
    forall r | r in ready ::
      || e.key.priority < r.key.priority
      || (e.key.priority == r.key.priority && e.key.dateCreated < r.key.dateCreated)
      || (e.key.priority == r.key.priority && e.key.dateCreated == r.key.dateCreated && e.key.seqNo < r.key.seqNo)
  }

  /** Only a sequential channel is held, and exactly by the next job to reach its eta, if this one comes first. */
  lemma HeldMeans(sequential: bool, ready: set<ChannelJob>, waiting: map<ChannelJob, Time>)
    ensures QueueHeld(sequential, ready, waiting) <==>
              sequential && ready != {} && exists e | e in waiting :: IsNext(waiting, e) && IsAhead(e, ready)
  {
    forall e | e in waiting ensures IsEtaHead(waiting, e) <==> IsNext(waiting, e) {
      if IsEtaHead(waiting, e) {
        forall w | w in waiting ensures !RankLt(Rank(Some(waiting[w]), w.key), Rank(Some(waiting[e]), e.key)) {
        }
      }
    }
    forall e | e in waiting ensures IsAhead(e, ready) <==> forall r | r in ready :: KeyLt(e.key, r.key) {
    }
  }

  lemma {:induction false} YieldsFrom(n: Node, now: Time, out: seq<ChannelJob>, n': Node)
    requires Yields(n, now, out, n')
    ensures forall k | 0 <= k < |out| :: out[k] in Mature(n, now).ready
    ensures HasCapacity(n) ==> n'.ready <= Mature(n, now).ready
    ensures n'.ready <= n.ready + Due(n.waiting, now)
    decreases |out|
  {
    if HasCapacity(n) {
      var m := Mature(n, now);
      if !(m.ready == {} || Held(m)) && m.throttle == 0.0 {
        var s := Start(out[0], m);
        YieldsFrom(s, now, out[1..], n');
        assert Mature(s, now).ready == s.ready;
        forall k | 0 <= k < |out| ensures out[k] in m.ready {
          assert k > 0 ==> out[k] == out[1..][k - 1];
        }
      }
    }
  }

  /** The first job yielded comes before the later ones, and before those that are left behind. */
  lemma FirstYielded(n: Node, now: Time, out: seq<ChannelJob>, n': Node, x: ChannelJob)
    requires Yields(n, now, out, n') && out != [] && x in Mature(n, now).ready
    ensures var j := out[0];
            && j.key.priority <= x.key.priority
            && (j.key.priority == x.key.priority ==>
                  && j.key.dateCreated <= x.key.dateCreated
                  && (j.key.dateCreated == x.key.dateCreated ==> j.key.seqNo <= x.key.seqNo))
  {
    FirstMeans(Mature(n, now).ready, out[0], x);
  }

  /** `x` was ready when the job at place `i` was yielded: it was yielded later, or is still ready. */
  ghost predicate WasReady(out: seq<ChannelJob>, i: nat, n': Node, x: ChannelJob) {
    i < |out| && (x in out[i..] || x in n'.ready)
  }

  lemma {:induction false} YieldsInOrder(n: Node, now: Time, out: seq<ChannelJob>, n': Node, i: nat, x: ChannelJob)
    requires Yields(n, now, out, n') && WasReady(out, i, n', x)
    ensures var j := out[i];
            && j.key.priority <= x.key.priority
            && (j.key.priority == x.key.priority ==>
                  && j.key.dateCreated <= x.key.dateCreated
                  && (j.key.dateCreated == x.key.dateCreated ==> j.key.seqNo <= x.key.seqNo))
    decreases |out|
  {
    YieldsFrom(n, now, out, n');
    if i == 0 {
      FirstYielded(n, now, out, n', x);
    } else {
      assert out[1..][i - 1..] == out[i..];
      YieldsInOrder(Start(out[0], Mature(n, now)), now, out[1..], n', i - 1, x);
    }
  }

  /**
    In one poll, each job that a channel yields has a priority not above that of any job ready there
    at that moment; with equal priorities it is not younger, and with equal dates its number is not larger.
   */
  lemma PassInOrder(f: Sched, now: Time, y: Flow, f': Sched, p: Path, i: nat, x: ChannelJob)
    requires Pass(f, now, y, f') && p in f && WasReady(y[p], i, f'[p], x)
    ensures var j := y[p][i];
            && j.key.priority <= x.key.priority
            && (j.key.priority == x.key.priority ==>
                  && j.key.dateCreated <= x.key.dateCreated
                  && (j.key.dateCreated == x.key.dateCreated ==> j.key.seqNo <= x.key.seqNo))
  {
    assert NodePass(f, p, now, y, f');
    YieldsInOrder(Unpause(Absorb(f[p], Inflow(f[p].children, p, y))), now, y[p], f'[p], i, x);
  }

  // ---------- capacity ----------

  /** A failed job blocks a sequential channel until it is set pending or removed. */
  lemma FailedBlocks(f: Sched, now: Time, y: Flow, f': Sched, p: Path)
    requires Pass(f, now, y, f') && p in f && f[p].sequential && f[p].failed != {}
    ensures y[p] == [] && f'[p].failed == f[p].failed
  {
    assert NodePass(f, p, now, y, f');
    NodePassKeeps(f, p, now, y, f');
  }

  lemma {:induction false} YieldsAll(n: Node, now: Time, out: seq<ChannelJob>, n': Node)
    requires Yields(n, now, out, n') && n.throttle == 0.0 && !n.sequential
    ensures n'.ready == {} || (n.capacity.Some? && n.capacity.value != 0 && |n'.running| >= n.capacity.value)
    ensures n'.capacity == n.capacity
    decreases |out|
  {
    if HasCapacity(n) {
      var m := Mature(n, now);
      if m.ready != {} {
        YieldsAll(Start(out[0], m), now, out[1..], n');
      }
    }
  }

  /** A channel that is neither throttled nor sequential keeps no job that is ready while it has a free slot. */
  lemma SlotsAreUsed(f: Sched, now: Time, y: Flow, f': Sched, p: Path)
    requires Pass(f, now, y, f') && p in f && f[p].throttle == 0.0 && !f[p].sequential
    ensures f'[p].ready == {} || (f[p].capacity.Some? && f[p].capacity.value != 0 && |f'[p].running| >= f[p].capacity.value)
  {
    assert NodePass(f, p, now, y, f');
    YieldsAll(Absorb(f[p], Inflow(f[p].children, p, y)), now, y[p], f'[p]);
  }

  // ---------- etas ----------

  lemma {:induction false} YieldsKeepWaiting(n: Node, now: Time, out: seq<ChannelJob>, n': Node, j: ChannelJob)
    requires Yields(n, now, out, n') && j in n.waiting && now < n.waiting[j]
    ensures j in n'.waiting && n'.waiting[j] == n.waiting[j]
    decreases |out|
  {
    if HasCapacity(n) {
      var m := Mature(n, now);
      if !(m.ready == {} || Held(m)) && m.throttle == 0.0 {
        YieldsKeepWaiting(Start(out[0], m), now, out[1..], n', j);
      }
    }
  }

  /** A job whose eta has not come goes on waiting for it. */
  lemma PassKeepsWaiting(f: Sched, now: Time, y: Flow, f': Sched, p: Path, j: ChannelJob)
    requires Pass(f, now, y, f') && p in f && j in f[p].waiting && now < f[p].waiting[j]
    ensures j in f'[p].waiting && f'[p].waiting[j] == f[p].waiting[j]
  {
    assert NodePass(f, p, now, y, f');
    var a := Absorb(f[p], Inflow(f[p].children, p, y));
    if !Paused(a, now) {
      YieldsKeepWaiting(Unpause(a), now, y[p], f'[p], j);
    }
  }

  lemma {:induction false} YieldsNotYet(n: Node, now: Time, out: seq<ChannelJob>, n': Node, j: ChannelJob)
    requires Yields(n, now, out, n') && j !in n.ready && (j in n.waiting ==> now < n.waiting[j])
    ensures j !in out && j !in n'.ready && (j in n'.waiting ==> j in n.waiting && n'.waiting[j] == n.waiting[j])
    decreases |out|
  {
    if HasCapacity(n) {
      var m := Mature(n, now);
      if !(m.ready == {} || Held(m)) {
        HeadOrRest(out, j);
        if m.throttle == 0.0 {
          YieldsNotYet(Start(out[0], m), now, out[1..], n', j);
        }
      }
    }
  }

  /** A job that is ready nowhere and waits for a later time, if at all, is yielded by no channel and stays so. */
  lemma {:induction false} PassNotYet(f: Sched, now: Time, y: Flow, f': Sched, j: ChannelJob, eta: Time, p: Path)
    requires WellFormed(f) && Pass(f, now, y, f') && p in f && now < eta
    requires forall q {:trigger f[q]} | q in f :: j !in f[q].ready && (j in f[q].waiting ==> f[q].waiting[j] == eta)
    ensures j !in y[p] && j !in f'[p].ready && (j in f'[p].waiting ==> f'[p].waiting[j] == eta)
    decreases Height(f, p)
  {
    assert NodePass(f, p, now, y, f') && Linked(f, p);
    var a := Absorb(f[p], Inflow(f[p].children, p, y));
    if j in Inflow(f[p].children, p, y) {
      InflowFrom(f[p].children, p, y, j);
      var i :| 0 <= i < |f[p].children| && p + [f[p].children[i]] in y && j in y[p + [f[p].children[i]]];
      DepthBounds(f.Keys, p + [f[p].children[i]]);
      PassNotYet(f, now, y, f', j, eta, p + [f[p].children[i]]);
      assert false;
    }
    if !Paused(a, now) {
      YieldsNotYet(Unpause(a), now, y[p], f'[p], j);
    }
  }

  // ---------- the wakeup time ----------

  /** At this time the channel is not full, and its pause ends or an eta of its jobs comes. */
  ghost predicate IsCause(n: Node, t: Time) {
    && !(n.sequential && n.failed != {})
    && (n.capacity.Some? && n.capacity.value != 0 ==> |n.running| < n.capacity.value)
    && if n.pauseUntil != 0.0 then t == n.pauseUntil else exists j | j in n.waiting :: n.waiting[j] == t
  }

  ghost predicate HasCause(f: Sched, p: Path, t: Time) {
    exists q | q in f && p <= q :: IsCause(f[q], t)
  }

  /** The wakeup time is never asked for in vain: something below the channel is due then. */
  lemma {:induction false} WakeupHasCause(f: Sched, p: Path)
    requires WellFormed(f) && EtasSet(f) && p in f && Wakeup(f, p, 0.0) != 0.0
    ensures HasCause(f, p, Wakeup(f, p, 0.0))
    decreases Height(f, p), 1, 0
  {
    var n := f[p];
    if n.pauseUntil == 0.0 {
      QueueWakeupCombines(n.waiting, 0.0);
      ChildrenHaveCause(f, p, 0, QueueWakeup(n.waiting, 0.0));
    }
    if n.pauseUntil != 0.0 || Wakeup(f, p, 0.0) == QueueWakeup(n.waiting, 0.0) {
      assert IsCause(f[p], Wakeup(f, p, 0.0));
    }
  }

  lemma {:induction false} ChildrenHaveCause(f: Sched, p: Path, i: nat, w: Time)
    requires WellFormed(f) && EtasSet(f) && p in f && i <= |f[p].children|
    ensures var t := ChildrenWakeup(f, p, i, w); t == w || t == 0.0 || HasCause(f, p, t)
    decreases Height(f, p), 0, |f[p].children| - i
  {
    if i < |f[p].children| {
      assert Linked(f, p);
      var c := p + [f[p].children[i]];
      DepthBounds(f.Keys, c);
      WakeupCombines(f, c, w);
      if Wakeup(f, c, 0.0) != 0.0 {
        WakeupHasCause(f, c);
        var q :| q in f && c <= q && IsCause(f[q], Wakeup(f, c, 0.0));
        assert p <= q;
      }
      ChildrenHaveCause(f, p, i + 1, Wakeup(f, c, w));
    }
  }
}
