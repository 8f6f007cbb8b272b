/**
  What the channel manager does in one call is a piece of a run of the scheduler, so what holds in
  all runs holds for any sequence of its calls.
 */
module ManagerRuns {
  import opened Prelude
  import opened ChannelJobs
  import opened JobStates
  import opened SchedulerSpec
  import opened SchedulerMoves
  import opened SchedulerRuns
  import opened SchedulerLimits
  import opened SchedulerWakeup
  import opened ChannelIndex
  import opened Notifications

  /** The states and events of a run. */
  datatype Trace = Trace(fs: seq<Sched>, es: seq<SchedulerRuns.Event>)

  ghost predicate IsTrace(t: Trace, f: Sched, f': Sched) {
    Run(t.fs, t.es) && t.fs[0] == f && t.fs[|t.es|] == f'
  }

  function Empty(f: Sched): Trace {
    Trace([f], [])
  }

  function Then(t: Trace, u: Trace): Trace
    requires |u.fs| >= 1
  {
    Trace(t.fs + u.fs[1..], t.es + u.es)
  }

  function One(f: Sched, e: SchedulerRuns.Event, f': Sched): Trace {
    Trace([f, f'], [e])
  }

  lemma OneIsTrace(f: Sched, e: SchedulerRuns.Event, f': Sched)
    requires Step(f, e, f')
    ensures IsTrace(One(f, e, f'), f, f')
  {
    assert forall i {:trigger StepAt(One(f, e, f').fs, One(f, e, f').es, i)} | 0 <= i < 1 ::
        StepAt(One(f, e, f').fs, One(f, e, f').es, i);
  }

  lemma ThenIsTrace(t: Trace, u: Trace, f: Sched, g: Sched, h: Sched)
    requires IsTrace(t, f, g) && IsTrace(u, g, h)
    ensures IsTrace(Then(t, u), f, h)
  {
    var r, n := Then(t, u), |t.es|;
    forall i | 0 <= i < |r.es| ensures StepAt(r.fs, r.es, i) {
      if i < n {
        assert StepAt(t.fs, t.es, i);
        assert r.fs[i] == t.fs[i] && r.fs[i + 1] == t.fs[i + 1];
      } else {
        assert StepAt(u.fs, u.es, i - n);
        assert r.fs[i] == u.fs[i - n] && r.fs[i + 1] == u.fs[i - n + 1];
      }
    }
  }

  // ---------- what the events are like ----------

  /** No poll, and etas that are set. */
  predicate IsQuiet(e: SchedulerRuns.Event) {
    !e.Poll? && Proper(e)
  }

  predicate Quiet(es: seq<SchedulerRuns.Event>) {
    forall i | 0 <= i < |es| :: IsQuiet(es[i])
  }

  /** The run leads from `f` to `f'`, and is quiet if the etas of the rows are set. */
  ghost predicate Quietly(t: Trace, f: Sched, f': Sched, proper: bool) {
    IsTrace(t, f, f') && (proper ==> Quiet(t.es))
  }

  lemma QuietlyOn(t: Trace, u: Trace, f: Sched, g: Sched, h: Sched, proper: bool)
    requires Quietly(t, f, g, proper) && Quietly(u, g, h, proper)
    ensures Quietly(Then(t, u), f, h, proper)
  {
    ThenIsTrace(t, u, f, g, h);
  }

  /** The polls are at these times, and in between there are none. */
  predicate PollsAt(es: seq<SchedulerRuns.Event>, times: seq<Time>)
    decreases |es|
  {
    if es == [] then times == []
    else
      var e, rest := es[|es| - 1], es[..|es| - 1];
      if e.Poll? then times != [] && e.now == times[|times| - 1] && PollsAt(rest, times[..|times| - 1])
      else Proper(e) && PollsAt(rest, times)
  }

  lemma {:induction false} QuietPolls(es: seq<SchedulerRuns.Event>, times: seq<Time>, more: seq<SchedulerRuns.Event>)
    requires PollsAt(es, times) && Quiet(more)
    ensures PollsAt(es + more, times)
    decreases |more|
  {
    if more == [] {
      assert es + more == es;
    } else {
      var rest := more[..|more| - 1];
      QuietPolls(es, times, rest);
      assert (es + more)[..|es + more| - 1] == es + rest;
    }
  }

  lemma OnePoll(es: seq<SchedulerRuns.Event>, times: seq<Time>, now: Time, y: Flow)
    requires PollsAt(es, times)
    ensures PollsAt(es + [Poll(now, y)], times + [now])
  {
    var es', times' := es + [Poll(now, y)], times + [now];
    assert es'[..|es'| - 1] == es && times'[..|times'| - 1] == times;
  }

  /** Times that are not negative and do not go back. */
  predicate IsClock(times: seq<Time>) {
    forall i, k | 0 <= i <= k < |times| :: 0.0 <= times[i] <= times[k]
  }

  lemma {:induction false} PollsAreTimes(es: seq<SchedulerRuns.Event>, times: seq<Time>, i: nat)
    requires PollsAt(es, times) && i < |es| && es[i].Poll?
    ensures es[i].now in times
    decreases |es|
  {
    if i < |es| - 1 {
      var rest := es[..|es| - 1];
      PollsAreTimes(rest, if es[|es| - 1].Poll? then times[..|times| - 1] else times, i);
    }
  }

  /** Such a run has a clock that does not go back, and etas that are set. */
  lemma {:induction false} PollsRun(es: seq<SchedulerRuns.Event>, times: seq<Time>)
    requires PollsAt(es, times) && IsClock(times)
    ensures ClockRuns(es) && forall i | 0 <= i < |es| :: Proper(es[i])
    decreases |es|
  {
    if es != [] {
      var n := |es| - 1;
      var rest, before := es[..n], if es[n].Poll? then times[..|times| - 1] else times;
      PollsRun(rest, before);
      assert forall i | 0 <= i < n :: es[i] == rest[i];
      forall i | 0 <= i < |es| ensures Proper(es[i]) {
        assert i < n ==> Proper(rest[i]);
      }
      forall i, k | 0 <= i < k < |es| && es[i].Poll? && es[k].Poll? ensures 0.0 <= es[i].now <= es[k].now {
        if k == n {
          PollsAreTimes(rest, before, i);
        } else {
          assert rest[i].now <= rest[k].now;
        }
      }
    }
  }

  // ---------- calls ----------

  lemma {:induction false} ExtendTrace(f: Sched, base: Path, names: seq<string>) returns (t: Trace)
    requires WellFormed(f) && base in f
    ensures IsTrace(t, f, Extend(f, base, names)) && Quiet(t.es)
    decreases |names|
  {
    t := Empty(f);
    if names != [] {
      assert Linked(f, base);
      var c := base + [names[0]];
      if names[0] in f[base].children {
        t := ExtendTrace(f, c, names[1..]);
      } else {
        NewChannelWellFormed(f, base, names[0]);
        var f1, e := WithChannel(f, base, names[0]), AddChannel(base, names[0]);
        OneIsTrace(f, e, f1);
        var u := ExtendTrace(f1, c, names[1..]);
        ThenIsTrace(One(f, e, f1), u, f, f1, Extend(f, base, names));
        t := Then(One(f, e, f1), u);
      }
    }
  }

  /** A lookup creates channels one by one. */
  lemma LookupTrace(f: Sched, name: Option<string>) returns (t: Trace)
    requires WellFormed(f)
    ensures IsTrace(t, f, LookedUpBy(f, name)) && Quiet(t.es)
  {
    var p := PathOf(name);
    if p in f {
      t := Empty(f);
    } else {
      BaseIn(f, p, true);
      t := ExtendTrace(f, Base(f, p, true), p[1..]);
    }
  }

  /** The event that a state stands for, if any. */
  function EventFor(j: ChannelJob, eta: Option<Time>, state: Option<State>): Option<SchedulerRuns.Event> {
    match state
    case None | Some(Done) | Some(Cancelled) => Some(Gone(j))
    case Some(Pending) => Some(SchedulerRuns.Event.Pending(j, eta))
    case Some(Enqueued) | Some(Started) => Some(Running(j))
    case Some(Failed) => Some(SchedulerRuns.Event.Failed(j))
    case Some(WaitDependencies) => None
  }

  lemma NotifiedTrace(f: Sched, j: ChannelJob, eta: Option<Time>, state: Option<State>) returns (t: Trace)
    requires j.channel in f
    ensures IsTrace(t, f, Notified(f, j, eta, state))
    ensures (eta.Some? ==> eta.value != 0.0) ==> Quiet(t.es)
  {
    var e := EventFor(j, eta, state);
    if e.Some? {
      OneIsTrace(f, e.value, Notified(f, j, eta, state));
      t := One(f, e.value, Notified(f, j, eta, state));
    } else {
      t := Empty(f);
    }
  }

  lemma EvictedTrace(f: Sched, jobs: Jobs, j: ChannelJob) returns (t: Trace)
    requires Consistent(f, jobs)
    ensures IsTrace(t, f, Evicted(f, jobs, j)) && Quiet(t.es)
  {
    t := Empty(f);
    if j.uuid in jobs && jobs[j.uuid] != j {
      t := GoneTrace(f, jobs[j.uuid]);
    }
  }

  lemma GoneTrace(f: Sched, j: ChannelJob) returns (t: Trace)
    requires j.channel in f
    ensures IsTrace(t, f, RemoveJob(f, j)) && Quiet(t.es)
  {
    OneIsTrace(f, Gone(j), RemoveJob(f, j));
    t := One(f, Gone(j), RemoveJob(f, j));
  }

  /** Handling a row may evict the job known before, and moves the job that stands for the row. */
  lemma HandledTrace(f: Sched, jobs: Jobs, uuid: string, eta: Option<Time>, state: Option<State>, f': Sched, jobs': Jobs) returns (t: Trace)
    requires Consistent(f, jobs) && IsHandled(f, jobs, uuid, eta, state, f', jobs')
    ensures IsTrace(t, f, f')
    ensures (eta.Some? ==> eta.value != 0.0) ==> Quiet(t.es)
  {
    var g := Evicted(f, jobs, jobs'[uuid]);
    var first := EvictedTrace(f, jobs, jobs'[uuid]);
    var second := NotifiedTrace(g, jobs'[uuid], eta, state);
    ThenIsTrace(first, second, f, g, f');
    t := Then(first, second);
  }

  lemma ForgottenTrace(f: Sched, jobs: Jobs, uuid: string, f': Sched, jobs': Jobs) returns (t: Trace)
    requires Consistent(f, jobs) && IsForgotten(f, jobs, uuid, f', jobs')
    ensures IsTrace(t, f, f') && Quiet(t.es)
  {
    if uuid in jobs {
      t := GoneTrace(f, jobs[uuid]);
    } else {
      t := Empty(f);
    }
  }

  /** A run goes on with what happens quietly, or with a poll. */
  lemma GoOnQuietly(t: Trace, u: Trace, f: Sched, g: Sched, h: Sched, times: seq<Time>)
    requires IsTrace(t, f, g) && PollsAt(t.es, times) && IsTrace(u, g, h) && Quiet(u.es)
    ensures IsTrace(Then(t, u), f, h) && PollsAt(Then(t, u).es, times)
  {
    ThenIsTrace(t, u, f, g, h);
    QuietPolls(t.es, times, u.es);
  }

  lemma GoOnPolling(t: Trace, f: Sched, g: Sched, now: Time, y: Flow, h: Sched, times: seq<Time>)
    requires IsTrace(t, f, g) && PollsAt(t.es, times) && Pass(g, now, y, h)
    ensures IsTrace(Then(t, One(g, Poll(now, y), h)), f, h)
    ensures PollsAt(Then(t, One(g, Poll(now, y), h)).es, times + [now])
  {
    OneIsTrace(g, Poll(now, y), h);
    ThenIsTrace(t, One(g, Poll(now, y), h), f, g, h);
    OnePoll(t.es, times, now, y);
  }

  /** Throttles and etas stay in order along such a run. */
  lemma TraceSound(t: Trace, f: Sched, f': Sched, times: seq<Time>)
    requires IsTrace(t, f, f') && PollsAt(t.es, times) && IsClock(times)
    requires WellFormed(f) && AllPlaced(f) && AllThrottleOk(f) && EtasSet(f)
    ensures AllThrottleOk(f') && EtasSet(f')
  {
    PollsRun(t.es, times);
    RunSound(t.fs, t.es, |t.es|);
  }

  lemma QuietSound(t: Trace, f: Sched, f': Sched)
    requires IsTrace(t, f, f') && Quiet(t.es)
    requires WellFormed(f) && AllPlaced(f) && AllThrottleOk(f) && EtasSet(f)
    ensures AllThrottleOk(f') && EtasSet(f')
  {
    QuietPolls([], [], t.es);
    assert [] + t.es == t.es;
    TraceSound(t, f, f', []);
  }

  lemma PollSound(f: Sched, now: Time, y: Flow, f': Sched)
    requires WellFormed(f) && Pass(f, now, y, f') && now >= 0.0 && AllThrottleOk(f) && EtasSet(f)
    ensures AllThrottleOk(f') && EtasSet(f')
  {
    PassKeeps(f, now, y, f');
    PassSettles(f, now, y, f');
  }
}
