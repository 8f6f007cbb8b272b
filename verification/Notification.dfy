/**
  What the channel manager does with a notification about a job: which channel job stands
  for the row, and where it goes.
 */
module Notifications {
  import opened Prelude
  import opened ChannelJobs
  import opened JobStates
  import opened SchedulerSpec
  import opened SchedulerMoves
  import opened SchedulerRuns
  import opened ChannelIndex

  type Jobs = map<string, ChannelJob>

  /**
    Each job that any channel holds is the one registered under its uuid, so no two channel
    jobs with one uuid are in the tree; and each of them is in one place.
   */
  ghost predicate Consistent(f: Sched, jobs: Jobs) {
    && WellFormed(f) && AllPlaced(f)
    && (forall p {:trigger f[p]} | p in f :: HoldsRegistered(f[p], jobs))
    && (forall u | u in jobs :: jobs[u].uuid == u && jobs[u].channel in f)
  }

  ghost predicate HoldsRegistered(n: Node, jobs: Jobs) {
    forall j | j in NodeJobs(n) :: j.uuid in jobs && jobs[j.uuid] == j
  }

  /** The transition of a job when its row is seen in `state`; `None` when the row is gone. */
  ghost function Notified(f: Sched, j: ChannelJob, eta: Option<Time>, state: Option<State>): Sched
    requires j.channel in f
  {
    match state
    case None | Some(Done) | Some(Cancelled) => RemoveJob(f, j)
    case Some(Pending) => SetPending(f, j, eta)
    case Some(Enqueued) | Some(Started) => SetRunning(f, j)
    case Some(Failed) => SetFailed(f, j)
    case Some(WaitDependencies) => f
  }

  predicate IsGone(state: Option<State>) {
    state.None? || state.value.Done? || state.value.Cancelled?
  }

  predicate IsRunning(state: Option<State>) {
    state == Some(Enqueued) || state == Some(Started)
  }

  lemma NotifiedCases(f: Sched, j: ChannelJob, eta: Option<Time>, state: Option<State>)
    requires j.channel in f
    ensures IsGone(state) ==> Notified(f, j, eta, state) == RemoveJob(f, j)
    ensures state == Some(State.Pending) ==> Notified(f, j, eta, state) == SetPending(f, j, eta)
    ensures IsRunning(state) ==> Notified(f, j, eta, state) == SetRunning(f, j)
    ensures state == Some(State.Failed) ==> Notified(f, j, eta, state) == SetFailed(f, j)
    ensures state == Some(WaitDependencies) ==> Notified(f, j, eta, state) == f
  {
  }

  /** The invariants that `notify` asserts. */
  predicate SameRow(job: ChannelJob, dbName: string, dateCreated: Time) {
    job.dbName == dbName && job.key.dateCreated == dateCreated
  }

  /** These are the properties of `job` that influence its scheduling. */
  predicate Describes(job: ChannelJob, channel: Path, key: Key, eta: Option<Time>)
    reads job
  {
    job.key == key && job.eta == eta && job.channel == channel
  }

  predicate IsMadeFor(job: ChannelJob, dbName: string, channel: Path, uuid: string, key: Key, eta: Option<Time>)
    reads job
  {
    job.uuid == uuid && SameRow(job, dbName, key.dateCreated) && Describes(job, channel, key, eta)
  }

  /** Wherever the job is queued, it is there with this eta. */
  ghost predicate QueuedWith(f: Sched, j: ChannelJob, eta: Option<Time>) {
    forall p {:trigger f[p]} | p in f ::
      (j in f[p].ready ==> eta.None?) && (j in f[p].waiting ==> eta == Some(f[p].waiting[j]))
  }

  /** The job registered before leaves all channels when `j` takes its place. */
  ghost function Evicted(f: Sched, jobs: Jobs, j: ChannelJob): Sched {
    if j.uuid in jobs && jobs[j.uuid] != j then RemoveJob(f, jobs[j.uuid]) else f
  }

  /** Tree and jobs once a row was seen in `state`: its job has taken its place, and has moved. */
  ghost predicate IsHandled(f: Sched, jobs: Jobs, uuid: string, eta: Option<Time>, state: Option<State>, f': Sched, jobs': Jobs) {
    && uuid in jobs' && jobs' == jobs[uuid := jobs'[uuid]]
    && jobs'[uuid].channel in Evicted(f, jobs, jobs'[uuid])
    && QueuedWith(Evicted(f, jobs, jobs'[uuid]), jobs'[uuid], eta)
    && f' == Notified(Evicted(f, jobs, jobs'[uuid]), jobs'[uuid], eta, state)
  }

  /** Tree and jobs once the row of a job is gone. */
  ghost predicate IsForgotten(f: Sched, jobs: Jobs, uuid: string, f': Sched, jobs': Jobs) {
    jobs' == jobs - {uuid} && f' == if uuid in jobs then RemoveJob(f, jobs[uuid]) else f
  }

  ghost predicate NowhereIn(f: Sched, j: ChannelJob) {
    forall p | p in f :: j !in NodeJobs(f[p])
  }

  lemma ConsistentLookup(f: Sched, jobs: Jobs, p: Path, fallback: bool)
    requires Consistent(f, jobs) && |p| >= 1 && p[0] == "root"
    ensures Consistent(LookedUp(f, p, fallback), jobs)
  {
    var f' := LookedUp(f, p, fallback);
    if p !in f {
      assert |p| == 1 ==> p == ROOT;
      BaseIn(f, p, fallback);
      var base := Base(f, p, fallback);
      ExtendKeeps(f, base, p[1..]);
      forall q | q in f' ensures HoldsRegistered(f'[q], jobs) {
        ExtendAdds(f, base, p[1..], q);
        assert q in f ==> HoldsRegistered(f[q], jobs);
      }
      forall u | u in jobs ensures jobs[u].channel in f' {
        ExtendAdds(f, base, p[1..], jobs[u].channel);
      }
    }
  }

  lemma ConsistentRemove(f: Sched, jobs: Jobs, j: ChannelJob)
    requires Consistent(f, jobs) && j.uuid in jobs && jobs[j.uuid] == j
    ensures Consistent(RemoveJob(f, j), jobs - {j.uuid}) && Consistent(RemoveJob(f, j), jobs)
    ensures NowhereIn(RemoveJob(f, j), j)
  {
    var f' := RemoveJob(f, j);
    assert Moves(f, Gone(j), f');
    MovesWellFormed(f, Gone(j), f');
    MovesAllPlaced(f, Gone(j), f');
    AnyPlaced(f, j);
    RemovePlaces(f, j, j);
    forall p | p in f' ensures HoldsRegistered(f'[p], jobs - {j.uuid}) && HoldsRegistered(f'[p], jobs) {
      assert HoldsRegistered(f[p], jobs);
      forall k | k in NodeJobs(f'[p]) ensures k.uuid in jobs - {j.uuid} && jobs[k.uuid] == k {
        assert k in NodeJobs(f[p]);
        assert !f'[p].Holds(j);
      }
    }
  }

  lemma ConsistentRegister(f: Sched, jobs: Jobs, j: ChannelJob)
    requires Consistent(f, jobs) && j.uuid !in jobs && j.channel in f
    ensures Consistent(f, jobs[j.uuid := j])
  {
    forall p | p in f ensures HoldsRegistered(f[p], jobs[j.uuid := j]) {
      assert HoldsRegistered(f[p], jobs);
    }
  }

  lemma ReplaceEntry(jobs: Jobs, u: string, j: ChannelJob)
    ensures (jobs - {u})[u := j] == jobs[u := j]
  {
  }

  /** A new job takes the place of the job registered under its uuid, if there is one. */
  lemma ConsistentReplace(f: Sched, jobs: Jobs, j: ChannelJob)
    requires Consistent(f, jobs) && j.channel in f && j.uuid in jobs && jobs[j.uuid] != j
    ensures Consistent(RemoveJob(f, jobs[j.uuid]), jobs[j.uuid := j])
  {
    ConsistentRemove(f, jobs, jobs[j.uuid]);
    ReplaceEntry(jobs, j.uuid, j);
    ConsistentRegister(RemoveJob(f, jobs[j.uuid]), jobs - {j.uuid}, j);
  }

  lemma ConsistentMove(f: Sched, jobs: Jobs, e: Event, f': Sched)
    requires Consistent(f, jobs) && Moves(f, e, f') && e.j.uuid in jobs && jobs[e.j.uuid] == e.j
    ensures Consistent(f', jobs)
  {
    MovesWellFormed(f, e, f');
    MovesAllPlaced(f, e, f');
    MovesKeep(f, e, f', ROOT);
    forall p | p in f' ensures HoldsRegistered(f'[p], jobs) {
      MovesKeep(f, e, f', p);
      assert HoldsRegistered(f[p], jobs);
      forall k | k in NodeJobs(f'[p]) ensures k.uuid in jobs && jobs[k.uuid] == k {
        assert k == e.j || k in NodeJobs(f[p]);
      }
    }
  }

  lemma ConsistentNotified(f: Sched, jobs: Jobs, j: ChannelJob, eta: Option<Time>, state: Option<State>)
    requires Consistent(f, jobs) && j.uuid in jobs && jobs[j.uuid] == j
    ensures Consistent(Notified(f, j, eta, state), jobs)
  {
    var f' := Notified(f, j, eta, state);
    match state
    case None => ConsistentRemove(f, jobs, j);
    case Some(Done) => ConsistentRemove(f, jobs, j);
    case Some(Cancelled) => ConsistentRemove(f, jobs, j);
    case Some(Pending) => ConsistentMove(f, jobs, Event.Pending(j, eta), f');
    case Some(Enqueued) => ConsistentMove(f, jobs, Running(j), f');
    case Some(Started) => ConsistentMove(f, jobs, Running(j), f');
    case Some(Failed) => ConsistentMove(f, jobs, Event.Failed(j), f');
    case Some(WaitDependencies) =>
  }

  lemma ConsistentPass(f: Sched, jobs: Jobs, now: Time, y: Flow, f': Sched)
    requires Consistent(f, jobs) && Pass(f, now, y, f')
    ensures Consistent(f', jobs)
  {
    StepKeeps(f, Poll(now, y), f');
    forall p | p in f' ensures HoldsRegistered(f'[p], jobs) {
      forall k | k in NodeJobs(f'[p]) ensures k.uuid in jobs && jobs[k.uuid] == k {
        PassKnown(f, now, y, f', p, k);
        var q :| q in f && k in NodeJobs(f[q]);
        assert HoldsRegistered(f[q], jobs);
      }
    }
  }

  /** A registered job that no channel holds can be forgotten at any time. */
  lemma ConsistentForget(f: Sched, jobs: Jobs, j: ChannelJob)
    requires Consistent(f, jobs) && j.uuid in jobs && jobs[j.uuid] == j && NowhereIn(f, j)
    ensures Consistent(f, jobs - {j.uuid})
  {
    forall p | p in f ensures HoldsRegistered(f[p], jobs - {j.uuid}) {
      assert HoldsRegistered(f[p], jobs);
      assert j !in NodeJobs(f[p]);
    }
  }

  // ---------- what the channels show of a row ----------

  ghost predicate ShownAt(n: Node, j: ChannelJob, state: State) {
    match state
    case Pending => n.InQueue(j)
    case Enqueued | Started => j in n.running
    case Failed => j in n.failed
    case _ => true
  }

  /**
    The job of a row is known, in its channel it is where the state of the row puts it, and it
    is queued with the eta of the row.
   */
  ghost predicate Shows(f: Sched, jobs: Jobs, uuid: string, key: Key, eta: Option<Time>, state: State) {
    && uuid in jobs && jobs[uuid].key == key && jobs[uuid].channel in f
    && ShownAt(f[jobs[uuid].channel], jobs[uuid], state)
    && QueuedWith(f, jobs[uuid], eta)
    && (IsGone(Some(state)) ==> NowhereIn(f, jobs[uuid]))
  }

  lemma ConsistentEvicted(f: Sched, jobs: Jobs, j: ChannelJob)
    requires Consistent(f, jobs) && j.channel in f
    ensures Consistent(Evicted(f, jobs, j), jobs[j.uuid := j])
  {
    if j.uuid !in jobs {
      ConsistentRegister(f, jobs, j);
    } else if jobs[j.uuid] != j {
      ConsistentReplace(f, jobs, j);
    } else {
      assert jobs[j.uuid := j] == jobs;
    }
  }

  /** A move queues a job with its eta, if it queues it. */
  lemma NotifiedQueues(f: Sched, j: ChannelJob, eta: Option<Time>, state: Option<State>)
    requires j.channel in f && QueuedWith(f, j, eta)
    ensures QueuedWith(Notified(f, j, eta, state), j, eta)
  {
    NotifiedCases(f, j, eta, state);
    if state == Some(State.Pending) {
      PendingQueues(f, j, eta);
    } else if IsRunning(state) {
      RunningQueues(f, j, eta);
    }
  }

  lemma PendingQueues(f: Sched, j: ChannelJob, eta: Option<Time>)
    requires j.channel in f && QueuedWith(f, j, eta)
    ensures QueuedWith(SetPending(f, j, eta), j, eta)
  {
  }

  lemma RunningQueues(f: Sched, j: ChannelJob, eta: Option<Time>)
    requires QueuedWith(f, j, eta)
    ensures QueuedWith(SetRunning(f, j), j, eta)
  {
  }

  /** A move puts the job where the state says. */
  lemma NotifiedShows(f: Sched, jobs: Jobs, j: ChannelJob, eta: Option<Time>, state: State)
    requires Consistent(f, jobs) && j.uuid in jobs && jobs[j.uuid] == j && QueuedWith(f, j, eta)
    ensures Shows(Notified(f, j, eta, Some(state)), jobs, j.uuid, j.key, eta, state)
  {
    AnyPlaced(f, j);
    NotifiedQueues(f, j, eta, Some(state));
    NotifiedCases(f, j, eta, Some(state));
    match state
    case Done => ConsistentRemove(f, jobs, j);
    case Cancelled => ConsistentRemove(f, jobs, j);
    case Pending => PendingPlaces(f, j, eta, j);
    case Enqueued => RunningPlaces(f, j, j);
    case Started => RunningPlaces(f, j, j);
    case Failed => FailedPlaces(f, j, j);
    case WaitDependencies =>
  }

  lemma HandledShows(f: Sched, jobs: Jobs, uuid: string, eta: Option<Time>, state: State, f': Sched, jobs': Jobs)
    requires Consistent(f, jobs) && IsHandled(f, jobs, uuid, eta, Some(state), f', jobs')
    requires jobs'[uuid].uuid == uuid
    ensures Shows(f', jobs', uuid, jobs'[uuid].key, eta, state)
  {
    var j := jobs'[uuid];
    ConsistentEvicted(f, jobs, j);
    NotifiedShows(Evicted(f, jobs, j), jobs', j, eta, state);
  }

  /** What the channels hold of job `k` is the same. */
  ghost predicate SameFor(f: Sched, f': Sched, k: ChannelJob) {
    f'.Keys == f.Keys && forall p {:trigger f'[p]} | p in f :: SameJob(f[p], f'[p], k) && SameEta(f[p], f'[p], k)
  }

  ghost predicate SameEta(n: Node, n': Node, k: ChannelJob) {
    k in n.waiting && k in n'.waiting ==> n'.waiting[k] == n.waiting[k]
  }

  lemma RemovedOther(f: Sched, j: ChannelJob, k: ChannelJob)
    requires k != j
    ensures SameFor(f, RemoveJob(f, j), k)
  {
  }

  lemma RunningOther(f: Sched, j: ChannelJob, k: ChannelJob)
    requires k != j
    ensures SameFor(f, SetRunning(f, j), k)
  {
  }

  lemma PendingOther(f: Sched, j: ChannelJob, eta: Option<Time>, k: ChannelJob)
    requires j.channel in f && k != j
    ensures SameFor(f, SetPending(f, j, eta), k)
  {
  }

  lemma FailedOther(f: Sched, j: ChannelJob, k: ChannelJob)
    requires j.channel in f && k != j
    ensures SameFor(f, SetFailed(f, j), k)
  {
  }

  /** A notification about one job moves no other job. */
  lemma NotifiedOther(f: Sched, j: ChannelJob, eta: Option<Time>, state: Option<State>, k: ChannelJob)
    requires j.channel in f && k != j
    ensures SameFor(f, Notified(f, j, eta, state), k)
  {
    NotifiedCases(f, j, eta, state);
    if IsGone(state) {
      RemovedOther(f, j, k);
    } else if IsRunning(state) {
      RunningOther(f, j, k);
    } else if state.value.Pending? {
      PendingOther(f, j, eta, k);
    } else if state.value.Failed? {
      FailedOther(f, j, k);
    }
  }

  lemma QueuedSame(f: Sched, f': Sched, k: ChannelJob, eta: Option<Time>)
    requires QueuedWith(f, k, eta) && SameFor(f, f', k)
    ensures QueuedWith(f', k, eta)
  {
    forall p | p in f' ensures (k in f'[p].ready ==> eta.None?) && (k in f'[p].waiting ==> eta == Some(f'[p].waiting[k])) {
      assert SameJob(f[p], f'[p], k) && SameEta(f[p], f'[p], k);
    }
  }

  lemma ShowsSame(f: Sched, jobs: Jobs, f': Sched, jobs': Jobs, w: string, key: Key, eta: Option<Time>, state: State)
    requires Shows(f, jobs, w, key, eta, state) && w in jobs' && jobs'[w] == jobs[w] && SameFor(f, f', jobs[w])
    ensures Shows(f', jobs', w, key, eta, state)
  {
    var k := jobs[w];
    QueuedSame(f, f', k, eta);
    assert SameJob(f[k.channel], f'[k.channel], k);
    if IsGone(Some(state)) {
      forall p | p in f' ensures k !in NodeJobs(f'[p]) {
        assert SameJob(f[p], f'[p], k);
      }
    }
  }

  /** The eviction and the move of one job leave any other job where it is. */
  lemma HandledSame(f: Sched, jobs: Jobs, uuid: string, eta: Option<Time>, state: Option<State>, f': Sched, jobs': Jobs, k: ChannelJob)
    requires Consistent(f, jobs) && IsHandled(f, jobs, uuid, eta, state, f', jobs') && jobs'[uuid].uuid == uuid
    requires k.uuid != uuid
    ensures SameFor(f, f', k)
  {
    var j := jobs'[uuid];
    var g := Evicted(f, jobs, j);
    if g != f {
      assert g == RemoveJob(f, jobs[uuid]) == Notified(f, jobs[uuid], None, None);
      NotifiedOther(f, jobs[uuid], None, None, k);
    }
    assert SameFor(f, g, k);
    NotifiedOther(g, j, eta, state, k);
    SameForOn(f, g, f', k);
  }

  lemma SameForOn(f: Sched, g: Sched, h: Sched, k: ChannelJob)
    requires SameFor(f, g, k) && SameFor(g, h, k)
    ensures SameFor(f, h, k)
  {
    forall p | p in f ensures SameJob(f[p], h[p], k) && SameEta(f[p], h[p], k) {
      assert SameJob(f[p], g[p], k) && SameEta(f[p], g[p], k);
    }
  }

  /** Handling one row does not change what the channels show of other rows. */
  lemma HandledOther(f: Sched, jobs: Jobs, uuid: string, eta: Option<Time>, state: Option<State>, f': Sched, jobs': Jobs,
                     w: string, key: Key, shownEta: Option<Time>, shown: State)
    requires Consistent(f, jobs) && IsHandled(f, jobs, uuid, eta, state, f', jobs') && jobs'[uuid].uuid == uuid
    requires w != uuid && Shows(f, jobs, w, key, shownEta, shown)
    ensures Shows(f', jobs', w, key, shownEta, shown)
  {
    HandledSame(f, jobs, uuid, eta, state, f', jobs', jobs[w]);
    ShowsSame(f, jobs, f', jobs', w, key, shownEta, shown);
  }

  lemma ForgottenSame(f: Sched, jobs: Jobs, uuid: string, f': Sched, jobs': Jobs, k: ChannelJob)
    requires Consistent(f, jobs) && IsForgotten(f, jobs, uuid, f', jobs') && k.uuid != uuid
    ensures SameFor(f, f', k)
  {
    if uuid in jobs {
      NotifiedOther(f, jobs[uuid], None, None, k);
    }
  }

  lemma ForgottenOther(f: Sched, jobs: Jobs, uuid: string, f': Sched, jobs': Jobs,
                       w: string, key: Key, shownEta: Option<Time>, shown: State)
    requires Consistent(f, jobs) && IsForgotten(f, jobs, uuid, f', jobs')
    requires w != uuid && Shows(f, jobs, w, key, shownEta, shown)
    ensures Shows(f', jobs', w, key, shownEta, shown)
  {
    ForgottenSame(f, jobs, uuid, f', jobs', jobs[w]);
    ShowsSame(f, jobs, f', jobs', w, key, shownEta, shown);
  }

  lemma LookupSame(f: Sched, p: Path, q: Path)
    requires WellFormed(f) && |p| >= 1 && p[0] == "root"
    ensures var f' := LookedUp(f, p, true);
            && (q in f ==> q in f' && f'[q] == f[q].(children := f'[q].children))
            && (q in f' && q !in f ==> NodeJobs(f'[q]) == {})
  {
    if p !in f {
      assert |p| == 1 ==> p == ROOT;
      BaseIn(f, p, true);
      ExtendAdds(f, Base(f, p, true), p[1..], q);
    }
  }

  /** A lookup creates channels, and queues no job. */
  lemma LookupQueues(f: Sched, name: Option<string>, k: ChannelJob, eta: Option<Time>)
    requires WellFormed(f) && QueuedWith(f, k, eta)
    ensures QueuedWith(LookedUpBy(f, name), k, eta)
  {
    var f' := LookedUpBy(f, name);
    forall q | q in f' ensures (k in f'[q].ready ==> eta.None?) && (k in f'[q].waiting ==> eta == Some(f'[q].waiting[k])) {
      LookupSame(f, PathOf(name), q);
      if q !in f {
        assert k !in NodeJobs(f'[q]);
      }
    }
  }

  /** A lookup shows nothing new. */
  lemma LookupShows(f: Sched, jobs: Jobs, name: Option<string>, w: string, key: Key, eta: Option<Time>, shown: State)
    requires Consistent(f, jobs) && Shows(f, jobs, w, key, eta, shown)
    ensures Consistent(LookedUpBy(f, name), jobs) && Shows(LookedUpBy(f, name), jobs, w, key, eta, shown)
  {
    var p, k := PathOf(name), jobs[w];
    ConsistentLookup(f, jobs, p, true);
    LookupSame(f, p, k.channel);
    LookupQueues(f, name, k, eta);
    if IsGone(Some(shown)) {
      forall q | q in LookedUpBy(f, name) ensures k !in NodeJobs(LookedUpBy(f, name)[q]) {
        LookupSame(f, p, q);
      }
    }
  }

  // ---------- removing the jobs of a database ----------

  function DropAll(n: Node, gone: set<ChannelJob>): Node {
    n.(ready := n.ready - gone, waiting := n.waiting - gone, running := n.running - gone, failed := n.failed - gone)
  }

  /** The tree with some jobs taken out of every channel. */
  ghost function Without(f: Sched, gone: set<ChannelJob>): Sched {
    map p | p in f :: DropAll(f[p], gone)
  }

  function UuidsOf(jobs: Jobs, dbName: string): set<string> {
    set u | u in jobs && jobs[u].dbName == dbName
  }

  lemma OneMoreUuid(jobs: Jobs, todo: set<string>, dbName: string, u: string)
    requires u in todo && u in jobs
    ensures UuidsOf(jobs - (todo - {u}), dbName) ==
              UuidsOf(jobs - todo, dbName) + if jobs[u].dbName == dbName then {u} else {}
  {
  }

  function JobsAt(jobs: Jobs, uuids: set<string>): set<ChannelJob> {
    set u | u in uuids && u in jobs :: jobs[u]
  }

  /** Taking a job out of its own channel and the parents of that takes it out of all channels. */
  lemma RemoveIsWithout(f: Sched, gone: set<ChannelJob>, j: ChannelJob)
    requires Placed(Without(f, gone), j)
    ensures RemoveJob(Without(f, gone), j) == Without(f, gone + {j})
  {
    var g := Without(f, gone);
    forall p | p in f ensures RemoveJob(g, j)[p] == Without(f, gone + {j})[p] {
      assert PlacedAt(g, p, j);
      DropMore(f[p], gone, j);
      if !(p <= j.channel) {
        assert !g[p].Holds(j);
        assert Drop(g[p], j) == g[p];
      }
    }
  }

  lemma DropMore(n: Node, gone: set<ChannelJob>, j: ChannelJob)
    ensures Drop(DropAll(n, gone), j) == DropAll(n, gone + {j})
  {
    assert n.waiting - gone - {j} == n.waiting - (gone + {j});
    assert n.ready - gone - {j} == n.ready - (gone + {j});
    assert n.running - gone - {j} == n.running - (gone + {j});
    assert n.failed - gone - {j} == n.failed - (gone + {j});
  }

  lemma WithoutNone(f: Sched)
    ensures Without(f, {}) == f
  {
    forall p | p in f ensures Without(f, {})[p] == f[p] {
      assert DropAll(f[p], {}) == f[p];
    }
  }

  lemma NoneVisited(f: Sched, jobs: Jobs, dbName: string)
    ensures UuidsOf(jobs - jobs.Keys, dbName) == {}
    ensures Without(f, JobsAt(jobs, {})) == f && jobs - {} == jobs
  {
    assert JobsAt(jobs, {}) == {};
    WithoutNone(f);
  }

  /** Exactly the jobs of the database are gone, from the map and from all channels. */
  lemma PurgedDb(f: Sched, jobs: Jobs, dbName: string, f': Sched, jobs': Jobs)
    requires Consistent(f, jobs)
    requires f' == Without(f, JobsAt(jobs, UuidsOf(jobs, dbName))) && jobs' == jobs - UuidsOf(jobs, dbName)
    ensures f'.Keys == f.Keys
    ensures forall u :: u in jobs' <==> u in jobs && jobs[u].dbName != dbName
    ensures forall u | u in jobs' :: jobs'[u] == jobs[u]
    ensures forall p, j | p in f' :: var n, n' := f[p], f'[p];
              && (j in n'.ready <==> j in n.ready && j.dbName != dbName)
              && (j in n'.waiting <==> j in n.waiting && j.dbName != dbName)
              && (j in n'.waiting ==> n'.waiting[j] == n.waiting[j])
              && (j in n'.running <==> j in n.running && j.dbName != dbName)
              && (j in n'.failed <==> j in n.failed && j.dbName != dbName)
  {
    var gone := JobsAt(jobs, UuidsOf(jobs, dbName));
    forall p, j | p in f' && j in NodeJobs(f[p]) ensures j in gone <==> j.dbName == dbName {
      assert HoldsRegistered(f[p], jobs);
      if j.dbName == dbName {
        assert j.uuid in UuidsOf(jobs, dbName) && jobs[j.uuid] == j;
      }
    }
  }

  // ---------- a job that runs is not handed out twice ----------

  /** No two jobs with one uuid are handed out by one poll, or while one of them runs at root. */
  lemma OneJobPerUuid(f: Sched, jobs: Jobs, now: Time, y: Flow, f': Sched, i: ChannelJob, j: ChannelJob)
    requires Consistent(f, jobs) && Pass(f, now, y, f') && i.uuid == j.uuid
    requires j in y[ROOT] && (i in y[ROOT] || i in f[ROOT].running)
    ensures i == j && i !in f[ROOT].running
  {
    PassKnown(f, now, y, f', ROOT, j);
    var q :| q in f && j in NodeJobs(f[q]);
    assert HoldsRegistered(f[q], jobs) && HoldsRegistered(f[ROOT], jobs);
    if i in y[ROOT] {
      PassKnown(f, now, y, f', ROOT, i);
      var r :| r in f && i in NodeJobs(f[r]);
      assert HoldsRegistered(f[r], jobs);
    }
    assert Placed(f, j);
    RootYieldsOnce(f, now, y, f', j);
  }
}
