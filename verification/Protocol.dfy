/**
  The dispatch protocol: one runner with a view of the jobs that lags behind the database,
  requests that may be late or time out, and workers. A run is an interleaving of atomic steps.
 */
module Protocol {
  import opened Prelude
  import opened JobStates

  type Id = string

  /** The parents of every job; they never change once the jobs are stored. */
  type Dependencies = map<Id, set<Id>>

  /** Where the runner has a job: `Passing` runs in its own channel and waits further up. */
  datatype Spot = Nowhere | Waiting | Passing | Running | Failing

  /** `Conflicted` and `Broken`: the start failed, and the controller has still to write down what comes of it. */
  datatype Stage = Locked | Performing | Releasing | Conflicted | Broken

  datatype Worker = Worker(job: Id, stage: Stage)

  /** A row that the runner has read and not dealt with yet. */
  datatype Reading = Reading(job: Id, state: State)

  datatype Dispatch = Idle | Picked(job: Id)

  /** What happens to the row of a job while it is enqueued or started. */
  datatype Event = Enqueue | Reset | Start | Finish

  datatype System = System(
    deps: Dependencies,
    rows: map<Id, State>,
    // the runner
    view: map<Id, Spot>,
    hand: seq<Reading>,
    dispatch: Dispatch,
    // requests that can still reach a worker, and clients that can still time out
    requests: map<Id, nat>,
    clients: map<Id, nat>,
    // the workers
    workers: map<nat, Worker>,
    lost: set<Id>,            // jobs whose release step was given up
    log: map<Id, seq<Event>>)
  {
    function SpotOf(j: Id): Spot {
      if j in view then view[j] else Nowhere
    }

    function LogOf(j: Id): seq<Event> {
      if j in log then log[j] else []
    }

    /** A transaction holds the lock on the row of the job. */
    predicate IsLocked(j: Id) {
      exists w | w in workers :: workers[w] == Worker(j, Locked)
    }

    predicate ParentsDone(j: Id) {
      j in deps ==> forall p | p in deps[j] :: p in rows && rows[p] == Done
    }
  }

  function At(m: map<Id, nat>, j: Id): nat {
    if j in m then m[j] else 0
  }

  datatype Step =
    | Create(jobs: set<Id>)
    | Fetch(job: Id)
    | Apply(recreated: bool)
    | MoveUp(job: Id)
    | Pick(job: Id)
    | Mark
    | Restart
    | TimeOut(job: Id)
    | Ignore(job: Id)
    | Lock(worker: nat, job: Id)
    | CommitStart(worker: nat)
    | StartConflict(worker: nat)
    | WriteConflict(worker: nat)
    | StartBroken(worker: nat)
    | WriteFailure(worker: nat)
    | FinishDone(worker: nat)
    | Postpone(worker: nat)
    | Fail(worker: nat)
    | Release(worker: nat)
    | GiveUp(worker: nat)
    | Crash(worker: nat)

  /** What `notify` does with a job, by the state that was read. */
  function NextSpot(spot: Spot, state: State): Spot {
    match state
    case Done | Cancelled => Nowhere
    case Pending => Waiting
    case Enqueued | Started => if spot.Passing? then Passing else Running
    case Failed => Failing
    case WaitDependencies => spot
  }

  function Released(s: System, j: Id): map<Id, State> {
    map c | c in s.rows ::
      if s.rows[c] == WaitDependencies && c in s.deps && j in s.deps[c] && s.ParentsDone(c) then Pending else s.rows[c]
  }

  function Created(deps: Dependencies, jobs: set<Id>): map<Id, State> {
    map j | j in jobs :: if j in deps && deps[j] != {} then WaitDependencies else Pending
  }

  function Logged(s: System, j: Id, e: Event): map<Id, seq<Event>> {
    s.log[j := s.LogOf(j) + [e]]
  }

  /** The worker is at this stage. */
  predicate AtStage(s: System, w: nat, stage: Stage) {
    w in s.workers && s.workers[w].stage == stage && s.workers[w].job in s.rows
  }

  predicate InQueue(s: System, j: Id) {
    s.SpotOf(j).Waiting? || s.SpotOf(j).Passing?
  }

  /** What has to hold for a step to be taken. */
  predicate Enabled(s: System, step: Step) {
    match step
    case Create(jobs) => jobs !! s.rows.Keys && forall j | j in jobs :: j in s.deps && s.deps[j] <= jobs
    // the runner reads rows, and deals with what it has read in the same order
    case Fetch(j) => s.dispatch.Idle? && j in s.rows
    case Apply(_) => s.dispatch.Idle? && s.hand != []
    case MoveUp(j) => s.dispatch.Idle? && s.hand == [] && s.SpotOf(j).Waiting?
    // it takes jobs out of the root channel when it has dealt with all notifications
    case Pick(j) => s.dispatch.Idle? && s.hand == [] && InQueue(s, j)
    case Mark => s.dispatch.Picked? && s.dispatch.job in s.rows && !s.IsLocked(s.dispatch.job)
    case Restart => true
    case TimeOut(j) => At(s.clients, j) > 0
    // a request reaches a worker
    case Ignore(j) => At(s.requests, j) > 0 && !(j in s.rows && s.rows[j] == Enqueued)
    case Lock(w, j) => At(s.requests, j) > 0 && w !in s.workers && j in s.rows && s.rows[j] == Enqueued && !s.IsLocked(j)
    case CommitStart(w) => AtStage(s, w, Locked)
    case StartConflict(w) => AtStage(s, w, Locked)
    case WriteConflict(w) => AtStage(s, w, Conflicted) && !s.IsLocked(s.workers[w].job)
    case StartBroken(w) => AtStage(s, w, Locked)
    case WriteFailure(w) => AtStage(s, w, Broken) && !s.IsLocked(s.workers[w].job)
    case FinishDone(w) => AtStage(s, w, Performing)
    case Postpone(w) => AtStage(s, w, Performing)
    case Fail(w) => AtStage(s, w, Performing)
    case Release(w) => AtStage(s, w, Releasing)
    case GiveUp(w) => AtStage(s, w, Releasing)
    case Crash(w) => w in s.workers
  }

  /** A client that times out resets the row, if it is still enqueued and no worker has it locked. */
  predicate Resets(s: System, j: Id) {
    j in s.rows && s.rows[j] == Enqueued && !s.IsLocked(j)
  }

  function BackTo(s: System, j: Id): State {
    if s.ParentsDone(j) then Pending else WaitDependencies
  }

  function After(s: System, step: Step): System
    requires Enabled(s, step)
  {
    match step
    case Create(jobs) => s.(rows := s.rows + Created(s.deps, jobs))
    case Fetch(j) => s.(hand := s.hand + [Reading(j, s.rows[j])])
    case Apply(recreated) =>
      var r := s.hand[0];
      s.(hand := s.hand[1..],
         view := s.view[r.job := NextSpot(if recreated then Nowhere else s.SpotOf(r.job), r.state)])
    case MoveUp(j) => s.(view := s.view[j := Passing])
    case Pick(j) => s.(view := s.view[j := Running], dispatch := Picked(j))
    case Mark =>
      var j := s.dispatch.job;
      s.(rows := s.rows[j := Enqueued], dispatch := Idle,
         requests := s.requests[j := At(s.requests, j) + 1], clients := s.clients[j := At(s.clients, j) + 1],
         log := Logged(s, j, Enqueue))
    case Restart => s.(view := map[], hand := [], dispatch := Idle)
    case TimeOut(j) =>
      var left := s.clients[j := At(s.clients, j) - 1];
      if Resets(s, j) then s.(clients := left, rows := s.rows[j := Pending], log := Logged(s, j, Reset)) else s.(clients := left)
    case Ignore(j) => s.(requests := s.requests[j := At(s.requests, j) - 1])
    case Lock(w, j) =>
      s.(requests := s.requests[j := At(s.requests, j) - 1], workers := s.workers[w := Worker(j, Locked)])
    case CommitStart(w) =>
      var j := s.workers[w].job;
      s.(workers := s.workers[w := Worker(j, Performing)], rows := s.rows[j := Started], log := Logged(s, j, Start))
    case StartConflict(w) => s.(workers := s.workers[w := Worker(s.workers[w].job, Conflicted)])
    case WriteConflict(w) =>
      var j := s.workers[w].job;
      s.(workers := s.workers - {w}, rows := s.rows[j := BackTo(s, j)],
         log := if s.rows[j] == Enqueued then Logged(s, j, Reset) else s.log)
    case StartBroken(w) => s.(workers := s.workers[w := Worker(s.workers[w].job, Broken)])
    case WriteFailure(w) =>
      var j := s.workers[w].job;
      s.(workers := s.workers - {w}, rows := s.rows[j := State.Failed],
         log := if s.rows[j] == Enqueued then Logged(s, j, Reset) else s.log)
    case FinishDone(w) =>
      var j := s.workers[w].job;
      s.(workers := s.workers[w := Worker(j, Releasing)], rows := s.rows[j := Done], log := Logged(s, j, Finish))
    case Postpone(w) =>
      var j := s.workers[w].job;
      s.(workers := s.workers - {w}, rows := s.rows[j := BackTo(s, j)], log := Logged(s, j, Finish))
    case Fail(w) =>
      var j := s.workers[w].job;
      s.(workers := s.workers - {w}, rows := s.rows[j := Failed], log := Logged(s, j, Finish))
    case Release(w) => s.(workers := s.workers - {w}, rows := Released(s, s.workers[w].job))
    case GiveUp(w) => s.(workers := s.workers - {w}, lost := s.lost + {s.workers[w].job})
    case Crash(w) =>
      s.(workers := s.workers - {w},
         lost := if s.workers[w].stage.Releasing? then s.lost + {s.workers[w].job} else s.lost)
  }

  ghost predicate Next(s: System, step: Step, s': System) {
    Enabled(s, step) && s' == After(s, step)
  }

  ghost predicate Init(s: System) {
    && s.rows == map[] && s.view == map[] && s.hand == [] && s.dispatch == Idle
    && s.workers == map[] && s.requests == map[] && s.clients == map[] && s.lost == {} && s.log == map[]
  }

  ghost predicate Run(ss: seq<System>, steps: seq<Step>) {
    && |ss| == |steps| + 1 && Init(ss[0])
    && forall i {:trigger StepAt(ss, steps, i)} | 0 <= i < |steps| :: StepAt(ss, steps, i)
  }

  ghost predicate StepAt(ss: seq<System>, steps: seq<Step>, i: nat)
    requires |ss| == |steps| + 1 && i < |steps|
  {
    Next(ss[i], steps[i], ss[i + 1])
  }

  // ---------- the invariant ----------

  predicate StageFits(stage: Stage, state: State) {
    match stage
    case Locked => state == Enqueued
    case Performing => state == Started
    case Releasing => state == Done
    case Conflicted | Broken => true
  }

  /** The transaction of such a worker has no lock and has started nothing. */
  predicate IsAdrift(stage: Stage) {
    stage.Conflicted? || stage.Broken?
  }

  ghost predicate WorkerOk(s: System, w: nat)
    requires w in s.workers
  {
    && s.workers[w].job in s.rows && StageFits(s.workers[w].stage, s.rows[s.workers[w].job])
    && forall v | v in s.workers && v != w && s.workers[v].job == s.workers[w].job ::
         IsAdrift(s.workers[v].stage) || IsAdrift(s.workers[w].stage)
  }

  predicate IsPending(s: System, j: Id) {
    j in s.rows && s.rows[j] == Pending
  }

  /** A job in a queue of the runner is pending, and nothing that was read says otherwise. */
  ghost predicate SpotOk(s: System, j: Id) {
    InQueue(s, j) ==> IsPending(s, j) && forall i | 0 <= i < |s.hand| && s.hand[i].job == j :: s.hand[i].state == Pending
  }

  /** A job that was read as pending still is, and was not read in another state afterwards. */
  ghost predicate ReadingOk(s: System, i: int)
    requires 0 <= i < |s.hand|
  {
    s.hand[i].state == Pending ==>
      && IsPending(s, s.hand[i].job)
      && forall k | i < k < |s.hand| && s.hand[k].job == s.hand[i].job :: s.hand[k].state == Pending
  }

  /** A job that was picked is pending, or a late failure was written meanwhile. */
  predicate CanMark(s: System, j: Id) {
    j in s.rows && (s.rows[j] == Pending || s.rows[j] == State.Failed)
  }

  ghost predicate DispatchOk(s: System) {
    s.dispatch.Picked? ==> s.hand == [] && CanMark(s, s.dispatch.job) && !InQueue(s, s.dispatch.job)
  }

  datatype Episode = Calm | Queued | Working

  /** Enqueued, and then reset, or started and finished; and again. */
  function EpisodeOf(log: seq<Event>): Option<Episode> {
    if log == [] then Some(Calm)
    else match (EpisodeOf(log[..|log| - 1]), log[|log| - 1])
      case (Some(Calm), Enqueue) => Some(Queued)
      case (Some(Queued), Reset) => Some(Calm)
      case (Some(Queued), Start) => Some(Working)
      case (Some(Working), Finish) => Some(Calm)
      case _ => None
  }

  function EpisodeFor(s: System, j: Id): Episode {
    if j !in s.rows then Calm
    else match s.rows[j]
      case Enqueued => Queued
      case Started => Working
      case _ => Calm
  }

  ghost predicate LogOk(s: System, j: Id) {
    EpisodeOf(s.LogOf(j)) == Some(EpisodeFor(s, j))
  }

  /** Only jobs that wait have parents that are not done, and only jobs with parents wait. */
  ghost predicate RowOk(s: System, j: Id)
    requires j in s.rows
  {
    && (s.rows[j] != WaitDependencies ==> s.ParentsDone(j))
    && (s.rows[j] == WaitDependencies ==> j in s.deps && s.deps[j] != {})
    && (j in s.deps ==> s.deps[j] <= s.rows.Keys)
    && s.rows[j] != Cancelled
  }

  /** Somebody still has to release the job, unless the release was given up. */
  ghost predicate ReleaseOk(s: System, j: Id)
    requires j in s.rows
  {
    s.rows[j] == WaitDependencies && s.ParentsDone(j) && j in s.deps ==>
      || (exists w | w in s.workers :: s.workers[w].stage == Releasing && s.workers[w].job in s.deps[j])
      || (exists p | p in s.deps[j] :: p in s.lost)
  }

  ghost predicate Inv(s: System) {
    && (forall w {:trigger WorkerOk(s, w)} | w in s.workers :: WorkerOk(s, w))
    && (forall j {:trigger SpotOk(s, j)} :: SpotOk(s, j))
    && (forall i {:trigger ReadingOk(s, i)} | 0 <= i < |s.hand| :: ReadingOk(s, i))
    && DispatchOk(s)
    && (forall j {:trigger LogOk(s, j)} :: LogOk(s, j))
    && (forall j {:trigger RowOk(s, j)} | j in s.rows :: RowOk(s, j))
    && (forall j {:trigger ReleaseOk(s, j)} | j in s.rows :: ReleaseOk(s, j))
  }

  /** Somebody relies on the job being done. */
  ghost predicate IsReliedOn(s: System, j: Id) {
    || (exists w | w in s.workers :: s.workers[w] == Worker(j, Releasing))
    || (exists c | c in s.rows :: c in s.deps && j in s.deps[c] && s.rows[c] != WaitDependencies)
  }

  /**
    After a conflict at the start the controller writes the pending state without looking at the
    row again. This does harm if the job has been started, or if it is done and somebody relies on it.
   */
  ghost predicate Clobbers(s: System, j: Id) {
    j in s.rows && (s.rows[j] == Started || (s.rows[j] == Done && IsReliedOn(s, j)))
  }

  /** The runner has the job in a queue, or has read that it is pending. */
  ghost predicate IsExpected(s: System, j: Id) {
    InQueue(s, j) || Reading(j, Pending) in s.hand
  }

  /**
    After any other error at the start it writes the failure, in the same way. This does harm also
    if the runner takes the job for pending, and if a parent of it is not done.
   */
  ghost predicate Spoils(s: System, j: Id) {
    j in s.rows &&
    match s.rows[j]
    case Started => true
    case Done => IsReliedOn(s, j)
    case Pending => IsExpected(s, j)
    case WaitDependencies => !s.ParentsDone(j)
    case _ => false
  }

  ghost predicate IsGentle(s: System, step: Step) {
    && (step.WriteConflict? && step.worker in s.workers ==> !Clobbers(s, s.workers[step.worker].job))
    && (step.WriteFailure? && step.worker in s.workers ==> !Spoils(s, s.workers[step.worker].job))
  }

  ghost predicate GentleAt(ss: seq<System>, steps: seq<Step>, i: nat)
    requires |ss| == |steps| + 1 && i < |steps|
  {
    IsGentle(ss[i], steps[i])
  }

  // ---------- how rows change ----------

  predicate WorksOn(s: System, w: nat, j: Id) {
    w in s.workers && s.workers[w].job == j
  }

  /** A row after a step, seen from the row. */
  function RowAfter(s: System, step: Step, j: Id): State
    requires j in s.rows
  {
    match step
    case Mark => if s.dispatch == Picked(j) then Enqueued else s.rows[j]
    case TimeOut(k) => if k == j && Resets(s, j) then Pending else s.rows[j]
    case CommitStart(w) => if WorksOn(s, w, j) then Started else s.rows[j]
    case FinishDone(w) => if WorksOn(s, w, j) then Done else s.rows[j]
    case Fail(w) => if WorksOn(s, w, j) then Failed else s.rows[j]
    case Postpone(w) => if WorksOn(s, w, j) then BackTo(s, j) else s.rows[j]
    case WriteConflict(w) => if WorksOn(s, w, j) then BackTo(s, j) else s.rows[j]
    case WriteFailure(w) => if WorksOn(s, w, j) then State.Failed else s.rows[j]
    case Release(w) => if w in s.workers && Releases(s, s.workers[w].job, j) then Pending else s.rows[j]
    case _ => s.rows[j]
  }

  predicate Releases(s: System, p: Id, j: Id)
    requires j in s.rows
  {
    s.rows[j] == WaitDependencies && j in s.deps && p in s.deps[j] && s.ParentsDone(j)
  }

  predicate IsWorkerStep(step: Step) {
    || step.CommitStart? || step.StartConflict? || step.WriteConflict? || step.StartBroken? || step.WriteFailure?
    || step.FinishDone? || step.Postpone? || step.Fail? || step.Release? || step.GiveUp? || step.Crash?
  }

  lemma RowIsForWorker(s: System, step: Step, s': System, j: Id)
    requires Next(s, step, s') && j in s.rows && IsWorkerStep(step)
    ensures j in s'.rows && s'.rows[j] == RowAfter(s, step, j)
  {
  }

  lemma RowIsForRunner(s: System, step: Step, s': System, j: Id)
    requires Next(s, step, s') && j in s.rows && !IsWorkerStep(step)
    ensures j in s'.rows && s'.rows[j] == RowAfter(s, step, j)
  {
  }

  lemma RowIs(s: System, step: Step, s': System, j: Id)
    requires Next(s, step, s') && j in s.rows
    ensures j in s'.rows && s'.rows[j] == RowAfter(s, step, j)
  {
    if IsWorkerStep(step) {
      RowIsForWorker(s, step, s', j);
    } else {
      RowIsForRunner(s, step, s', j);
    }
  }

  lemma NewRows(s: System, step: Step, s': System, j: Id)
    requires Next(s, step, s') && j in s'.rows && j !in s.rows
    ensures step.Create? && j in s.deps && s.deps[j] <= step.jobs <= s'.rows.Keys
    ensures forall p | p in step.jobs :: s'.rows[p] == Pending || s'.rows[p] == WaitDependencies
    ensures s'.rows[j] == if s.deps[j] == {} then Pending else WaitDependencies
  {
  }

  lemma RowsStay(s: System, step: Step, s': System)
    requires Next(s, step, s')
    ensures s.rows.Keys <= s'.rows.Keys && s'.deps == s.deps && s.lost <= s'.lost
  {
  }

  /** A worker after a step, seen from the worker. */
  function WorkerAfter(s: System, step: Step, w: nat): Option<Worker> {
    var same := if w in s.workers then Some(s.workers[w]) else None;
    match step
    case Lock(v, j) => if v == w then Some(Worker(j, Locked)) else same
    case CommitStart(v) => if v == w && w in s.workers then Some(Worker(s.workers[w].job, Performing)) else same
    case StartConflict(v) => if v == w && w in s.workers then Some(Worker(s.workers[w].job, Conflicted)) else same
    case FinishDone(v) => if v == w && w in s.workers then Some(Worker(s.workers[w].job, Releasing)) else same
    case StartBroken(v) => if v == w && w in s.workers then Some(Worker(s.workers[w].job, Broken)) else same
    case WriteConflict(v) => if v == w then None else same
    case WriteFailure(v) => if v == w then None else same
    case Postpone(v) => if v == w then None else same
    case Fail(v) => if v == w then None else same
    case Release(v) => if v == w then None else same
    case GiveUp(v) => if v == w then None else same
    case Crash(v) => if v == w then None else same
    case _ => same
  }

  lemma WorkerIs(s: System, step: Step, s': System, w: nat)
    requires Next(s, step, s')
    ensures WorkerAfter(s, step, w) == if w in s'.workers then Some(s'.workers[w]) else None
  {
  }

  /** The spot of a job after a step. */
  function SpotAfter(s: System, step: Step, j: Id): Spot {
    match step
    case Apply(recreated) =>
      if s.hand != [] && s.hand[0].job == j then NextSpot(if recreated then Nowhere else s.SpotOf(j), s.hand[0].state)
      else s.SpotOf(j)
    case MoveUp(k) => if k == j then Passing else s.SpotOf(j)
    case Pick(k) => if k == j then Running else s.SpotOf(j)
    case Restart => Nowhere
    case _ => s.SpotOf(j)
  }

  function HandAfter(s: System, step: Step): seq<Reading> {
    match step
    case Fetch(j) => if j in s.rows then s.hand + [Reading(j, s.rows[j])] else s.hand
    case Apply(_) => if s.hand != [] then s.hand[1..] else s.hand
    case Restart => []
    case _ => s.hand
  }

  function DispatchAfter(s: System, step: Step): Dispatch {
    match step
    case Pick(j) => Picked(j)
    case Mark => Idle
    case Restart => Idle
    case _ => s.dispatch
  }

  lemma SpotIs(s: System, step: Step, s': System, j: Id)
    requires Next(s, step, s')
    ensures s'.SpotOf(j) == SpotAfter(s, step, j)
  {
  }

  lemma RunnerIs(s: System, step: Step, s': System)
    requires Next(s, step, s')
    ensures s'.hand == HandAfter(s, step) && s'.dispatch == DispatchAfter(s, step)
  {
  }

  /** The ways a row can change. */
  predicate RowGoes(s: System, j: Id, next: State)
    requires j in s.rows
  {
    || next == s.rows[j]
    || (CanMark(s, j) && next == Enqueued)
    || (s.rows[j] == Enqueued && (next == Pending || next == Started))
    || (s.rows[j] == Started && next == Done)
    || (s.rows[j] != WaitDependencies && (next == Pending || next == State.Failed))
    || (s.rows[j] == WaitDependencies && (next == Pending || next == State.Failed) && s.ParentsDone(j))
  }

  /** Only the runner enqueues a row, and only the row of a job that it has picked. */
  lemma RowsGo(s: System, step: Step, s': System, j: Id)
    requires Inv(s) && Next(s, step, s') && IsGentle(s, step) && j in s.rows
    ensures j in s'.rows && RowGoes(s, j, s'.rows[j])
    ensures s.rows[j] != Enqueued && s'.rows[j] == Enqueued ==> step.Mark? && s.dispatch == Picked(j)
    ensures s'.rows[j] == Done ==> s.rows[j] == Done || s.rows[j] == Started
  {
    RowIs(s, step, s', j);
    assert RowOk(s, j);
    if step.CommitStart? || step.FinishDone? || step.Postpone? || step.Fail? || step.WriteConflict? || step.WriteFailure? {
      assert WorkerOk(s, step.worker);
    }
  }

  lemma ExpectedIsPending(s: System, j: Id)
    requires Inv(s) && IsExpected(s, j)
    ensures IsPending(s, j) && s.dispatch != Picked(j)
  {
    assert SpotOk(s, j);
    if Reading(j, Pending) in s.hand {
      var i :| 0 <= i < |s.hand| && s.hand[i] == Reading(j, Pending);
      assert ReadingOk(s, i);
    }
  }

  /** A row that the runner takes for pending stays pending. */
  lemma PendingStays(s: System, step: Step, s': System, j: Id)
    requires Inv(s) && Next(s, step, s') && IsGentle(s, step) && IsExpected(s, j)
    ensures IsPending(s', j)
  {
    ExpectedIsPending(s, j);
    RowIs(s, step, s', j);
    if step.CommitStart? || step.FinishDone? || step.Postpone? || step.Fail? || step.WriteConflict? {
      assert RowOk(s, j);
      assert WorkerOk(s, step.worker);
    }
  }

  // ---------- every step keeps the invariant ----------

  lemma ParentStays(s: System, step: Step, s': System, j: Id, p: Id)
    requires Inv(s) && Next(s, step, s') && IsGentle(s, step) && j in s.rows && s.rows[j] != WaitDependencies
    requires j in s.deps && p in s.deps[j] && p in s.rows && s.rows[p] == Done
    ensures p in s'.rows && s'.rows[p] == Done
  {
    RowIs(s, step, s', p);
    if step.CommitStart? || step.Postpone? || step.Fail? {
      assert WorkerOk(s, step.worker);
    }
  }

  /** The parents of a job that does not wait stay done. */
  lemma DoneStays(s: System, step: Step, s': System, j: Id)
    requires Inv(s) && Next(s, step, s') && IsGentle(s, step) && j in s.rows && s.rows[j] != WaitDependencies
    ensures s'.ParentsDone(j)
  {
    RowsStay(s, step, s');
    assert RowOk(s, j);
    if j in s.deps {
      forall p | p in s.deps[j] ensures p in s'.rows && s'.rows[p] == Done {
        ParentStays(s, step, s', j, p);
      }
    }
  }

  /** A job that is released has all its parents done, also afterwards. */
  lemma ReleasedReady(s: System, step: Step, s': System, j: Id)
    requires Inv(s) && Next(s, step, s') && IsGentle(s, step) && j in s.rows && s.rows[j] == WaitDependencies
    requires j in s'.rows && s'.rows[j] != WaitDependencies
    ensures s'.ParentsDone(j)
  {
    RowsStay(s, step, s');
    RowIs(s, step, s', j);
    if step.CommitStart? || step.FinishDone? || step.Postpone? || step.Fail? || step.WriteConflict? || step.WriteFailure? {
      assert WorkerOk(s, step.worker);
    }
    if j in s.deps {
      forall p | p in s.deps[j] && p in s.rows && s.rows[p] == Done ensures p in s'.rows && s'.rows[p] == Done {
        RowIs(s, step, s', p);
      }
    }
  }

  lemma RowKept(s: System, step: Step, s': System, j: Id)
    requires Inv(s) && Next(s, step, s') && IsGentle(s, step) && j in s'.rows
    ensures RowOk(s', j)
  {
    RowsStay(s, step, s');
    if j in s.rows {
      assert RowOk(s, j);
      RowsGo(s, step, s', j);
      if s.rows[j] != WaitDependencies {
        DoneStays(s, step, s', j);
      } else if s'.rows[j] != WaitDependencies {
        ReleasedReady(s, step, s', j);
      }
    } else {
      NewRows(s, step, s', j);
    }
  }

  lemma WorkerFits(s: System, step: Step, s': System, w: nat)
    requires Inv(s) && Next(s, step, s') && IsGentle(s, step) && w in s'.workers
    ensures s'.workers[w].job in s'.rows && StageFits(s'.workers[w].stage, s'.rows[s'.workers[w].job])
  {
    WorkerIs(s, step, s', w);
    forall v | v in s.workers ensures WorkerOk(s, v) {
    }
    assert s'.workers[w].job in s.rows;
    RowIs(s, step, s', s'.workers[w].job);
  }

  lemma WorkersApart(s: System, step: Step, s': System, w: nat, v: nat)
    requires Inv(s) && Next(s, step, s') && w in s'.workers && v in s'.workers && v != w
    requires s'.workers[v].job == s'.workers[w].job
    ensures IsAdrift(s'.workers[v].stage) || IsAdrift(s'.workers[w].stage)
  {
    WorkerIs(s, step, s', w);
    WorkerIs(s, step, s', v);
    assert v in s.workers ==> WorkerOk(s, v);
    assert w in s.workers ==> WorkerOk(s, w);
  }

  lemma WorkerKept(s: System, step: Step, s': System, w: nat)
    requires Inv(s) && Next(s, step, s') && IsGentle(s, step) && w in s'.workers
    ensures WorkerOk(s', w)
  {
    WorkerFits(s, step, s', w);
    forall v | v in s'.workers && v != w && s'.workers[v].job == s'.workers[w].job
      ensures IsAdrift(s'.workers[v].stage) || IsAdrift(s'.workers[w].stage)
    {
      WorkersApart(s, step, s', w, v);
    }
  }

  lemma SpotKept(s: System, step: Step, s': System, j: Id)
    requires Inv(s) && Next(s, step, s') && IsGentle(s, step)
    ensures SpotOk(s', j)
  {
    assert SpotOk(s, j);
    SpotIs(s, step, s', j);
    RunnerIs(s, step, s');
    if step.Apply? {
      assert ReadingOk(s, 0);
    }
    if IsExpected(s, j) {
      PendingStays(s, step, s', j);
    }
  }

  lemma ReadingKept(s: System, step: Step, s': System, i: nat)
    requires Inv(s) && Next(s, step, s') && IsGentle(s, step) && i < |s'.hand|
    ensures ReadingOk(s', i)
  {
    var r := s'.hand[i];
    RunnerIs(s, step, s');
    if r in s.hand && r.state == Pending {
      PendingStays(s, step, s', r.job);
    }
    if step.Apply? {
      assert ReadingOk(s, i + 1);
    } else if i < |s.hand| {
      assert ReadingOk(s, i);
    }
  }

  lemma DispatchKept(s: System, step: Step, s': System)
    requires Inv(s) && Next(s, step, s') && IsGentle(s, step)
    ensures DispatchOk(s')
  {
    if s'.dispatch.Picked? {
      var j := s'.dispatch.job;
      SpotIs(s, step, s', j);
      RunnerIs(s, step, s');
      assert SpotOk(s, j);
      RowsGo(s, step, s', j);
    }
  }

  /** The row that a step logs something about. */
  function Logs(s: System, step: Step): Option<(Id, Event)> {
    match step
    case Mark => if s.dispatch.Picked? then Some((s.dispatch.job, Enqueue)) else None
    case TimeOut(j) => if Resets(s, j) then Some((j, Event.Reset)) else None
    case CommitStart(w) => if w in s.workers then Some((s.workers[w].job, Start)) else None
    case FinishDone(w) => if w in s.workers then Some((s.workers[w].job, Finish)) else None
    case Postpone(w) => if w in s.workers then Some((s.workers[w].job, Finish)) else None
    case Fail(w) => if w in s.workers then Some((s.workers[w].job, Finish)) else None
    case WriteConflict(w) =>
      if AtStage(s, w, Conflicted) && s.rows[s.workers[w].job] == Enqueued then Some((s.workers[w].job, Event.Reset)) else None
    case WriteFailure(w) =>
      if AtStage(s, w, Broken) && s.rows[s.workers[w].job] == Enqueued then Some((s.workers[w].job, Event.Reset)) else None
    case _ => None
  }

  lemma LogGoes(s: System, step: Step, s': System, j: Id)
    requires Next(s, step, s')
    ensures s'.LogOf(j) == match Logs(s, step)
                           case None => s.LogOf(j)
                           case Some((k, e)) => if k == j then s.LogOf(j) + [e] else s.LogOf(j)
  {
  }

  lemma EpisodeStays(s: System, step: Step, s': System, j: Id)
    requires Inv(s) && Next(s, step, s') && IsGentle(s, step)
    requires Logs(s, step).Some? ==> Logs(s, step).value.0 != j
    ensures EpisodeFor(s', j) == EpisodeFor(s, j)
  {
    if j in s.rows {
      RowIs(s, step, s', j);
      RowsGo(s, step, s', j);
    } else if j in s'.rows {
      NewRows(s, step, s', j);
    }
  }

  /** A step changes the episode of a row as it says in the log. */
  lemma EpisodeGoes(s: System, step: Step, s': System)
    requires Inv(s) && Next(s, step, s') && IsGentle(s, step) && Logs(s, step).Some?
    ensures var (j, e) := Logs(s, step).value;
            match e
            case Enqueue => EpisodeFor(s, j) == Calm && EpisodeFor(s', j) == Queued
            case Reset => EpisodeFor(s, j) == Queued && EpisodeFor(s', j) == Calm
            case Start => EpisodeFor(s, j) == Queued && EpisodeFor(s', j) == Working
            case Finish => EpisodeFor(s, j) == Working && EpisodeFor(s', j) == Calm
  {
    if step.CommitStart? || step.FinishDone? || step.Postpone? || step.Fail? {
      assert WorkerOk(s, step.worker);
    }
    RowIs(s, step, s', Logs(s, step).value.0);
  }

  lemma LogKept(s: System, step: Step, s': System, j: Id)
    requires Inv(s) && Next(s, step, s') && IsGentle(s, step)
    ensures LogOk(s', j)
  {
    assert LogOk(s, j);
    LogGoes(s, step, s', j);
    if Logs(s, step).Some? && Logs(s, step).value.0 == j {
      EpisodeGoes(s, step, s');
    } else {
      EpisodeStays(s, step, s', j);
    }
    var log, log' := s.LogOf(j), s'.LogOf(j);
    assert |log'| == |log| + 1 ==> log'[..|log|] == log;
  }

  /** A parent becomes done when its worker finishes, and this worker has its release step to do. */
  lemma NewlyDone(s: System, step: Step, s': System, j: Id)
    requires Inv(s) && Next(s, step, s') && IsGentle(s, step) && j in s.rows && j in s.deps
    requires !s.ParentsDone(j) && s'.ParentsDone(j)
    ensures exists w | w in s'.workers :: s'.workers[w].stage == Releasing && s'.workers[w].job in s.deps[j]
  {
    assert RowOk(s, j);
    RowsStay(s, step, s');
    var p :| p in s.deps[j] && s.rows[p] != Done;
    RowIs(s, step, s', p);
    RowsGo(s, step, s', p);
    WorkerIs(s, step, s', step.worker);
    assert s'.workers[step.worker] == Worker(p, Releasing);
  }

  lemma ReleaserStays(s: System, step: Step, s': System, j: Id, w: nat)
    requires Inv(s) && Next(s, step, s') && IsGentle(s, step) && j in s.rows && j in s.deps && s.ParentsDone(j)
    requires s.rows[j] == WaitDependencies && j in s'.rows && s'.rows[j] == WaitDependencies
    requires w in s.workers && s.workers[w].stage == Releasing && s.workers[w].job in s.deps[j]
    ensures (w in s'.workers && s'.workers[w] == s.workers[w]) || s.workers[w].job in s'.lost
  {
    WorkerIs(s, step, s', w);
    RowIs(s, step, s', j);
  }

  lemma NewIsNotReleased(s: System, step: Step, s': System, j: Id)
    requires Next(s, step, s') && j in s'.rows && j !in s.rows
    ensures ReleaseOk(s', j)
  {
    RowsStay(s, step, s');
    NewRows(s, step, s', j);
  }

  lemma ReleaseKept(s: System, step: Step, s': System, j: Id)
    requires Inv(s) && Next(s, step, s') && IsGentle(s, step) && j in s.rows && j in s'.rows
    ensures ReleaseOk(s', j)
  {
    RowsGo(s, step, s', j);
    RowsStay(s, step, s');
    if s'.rows[j] == WaitDependencies && s'.ParentsDone(j) && j in s'.deps {
      assert ReleaseOk(s, j);
      if !s.ParentsDone(j) {
        NewlyDone(s, step, s', j);
      } else if w :| w in s.workers && s.workers[w].stage == Releasing && s.workers[w].job in s.deps[j] {
        ReleaserStays(s, step, s', j, w);
      }
    }
  }

  lemma StepKeeps(s: System, step: Step, s': System)
    requires Inv(s) && Next(s, step, s') && IsGentle(s, step)
    ensures Inv(s')
  {
    forall w | w in s'.workers ensures WorkerOk(s', w) { WorkerKept(s, step, s', w); }
    forall j ensures SpotOk(s', j) { SpotKept(s, step, s', j); }
    forall i | 0 <= i < |s'.hand| ensures ReadingOk(s', i) { ReadingKept(s, step, s', i); }
    DispatchKept(s, step, s');
    forall j ensures LogOk(s', j) { LogKept(s, step, s', j); }
    forall j | j in s'.rows ensures RowOk(s', j) { RowKept(s, step, s', j); }
    forall j | j in s'.rows ensures ReleaseOk(s', j) {
      if j in s.rows {
        ReleaseKept(s, step, s', j);
      } else {
        NewIsNotReleased(s, step, s', j);
      }
    }
  }

  lemma {:induction false} RunKeeps(ss: seq<System>, steps: seq<Step>, n: nat)
    requires Run(ss, steps) && n <= |steps| && forall i | 0 <= i < n :: GentleAt(ss, steps, i)
    ensures Inv(ss[n])
  {
    if n > 0 {
      RunKeeps(ss, steps, n - 1);
      assert StepAt(ss, steps, n - 1) && GentleAt(ss, steps, n - 1);
      StepKeeps(ss[n - 1], steps[n - 1], ss[n]);
    }
  }

  // ---------- what holds in every run ----------

  /**
    Single execution: at any time of any run in which no write after a conflict does harm, a job
    that waits in a queue of the runner is pending in the database, each enqueued episode was
    started once or reset but not both, and at most one worker has a job or releases its children.
   */
  lemma SingleExecution(ss: seq<System>, steps: seq<Step>, n: nat, j: Id)
    requires Run(ss, steps) && n <= |steps| && forall i | 0 <= i < n :: GentleAt(ss, steps, i)
    ensures InQueue(ss[n], j) ==> IsPending(ss[n], j)
    ensures EpisodeOf(ss[n].LogOf(j)) == Some(EpisodeFor(ss[n], j))
    ensures forall v, w | v in ss[n].workers && w in ss[n].workers && v != w && ss[n].workers[v].job == ss[n].workers[w].job ::
              IsAdrift(ss[n].workers[v].stage) || IsAdrift(ss[n].workers[w].stage)
    ensures forall w | w in ss[n].workers && ss[n].workers[w].job == j ::
              j in ss[n].rows && StageFits(ss[n].workers[w].stage, ss[n].rows[j])
  {
    RunKeeps(ss, steps, n);
    assert SpotOk(ss[n], j) && LogOk(ss[n], j);
    forall w | w in ss[n].workers ensures WorkerOk(ss[n], w) {
    }
  }

  // ---------- writes without a look at the row ----------

  /** What holds in every state of a run, as stated above and below. */
  ghost predicate Safe(s: System) {
    && (forall j {:trigger InQueue(s, j)} :: InQueue(s, j) ==> IsPending(s, j))
    && (forall j {:trigger LogOk(s, j)} :: LogOk(s, j))
    && (forall w {:trigger WorkerOk(s, w)} | w in s.workers :: WorkerOk(s, w))
    && (forall j {:trigger s.ParentsDone(j)} | j in s.rows && s.rows[j] != WaitDependencies :: s.ParentsDone(j))
  }

  /** The runner deals with the first `n` rows that it has read. */
  function Caught(s: System, n: nat): System
    requires n <= |s.hand| && (n > 0 ==> s.dispatch.Idle?)
    decreases n
  {
    if n == 0 then s else Caught(After(s, Apply(false)), n - 1)
  }

  /** The state is safe, and stays safe while the runner deals with what it has read. */
  ghost predicate StaysSafe(s: System) {
    forall n: nat | n <= |s.hand| && (n > 0 ==> s.dispatch.Idle?) :: Safe(Caught(s, n))
  }

  lemma InvIsSafe(s: System)
    requires Inv(s)
    ensures Safe(s)
  {
    forall j ensures InQueue(s, j) ==> IsPending(s, j) {
      assert SpotOk(s, j);
    }
    forall j | j in s.rows && s.rows[j] != WaitDependencies ensures s.ParentsDone(j) {
      assert RowOk(s, j);
    }
  }

  lemma {:induction false} CaughtKeeps(s: System, n: nat)
    requires Inv(s) && n <= |s.hand| && (n > 0 ==> s.dispatch.Idle?)
    ensures Safe(Caught(s, n))
    decreases n
  {
    if n == 0 {
      InvIsSafe(s);
    } else {
      StepKeeps(s, Apply(false), After(s, Apply(false)));
      CaughtKeeps(After(s, Apply(false)), n - 1);
    }
  }

  lemma InvStaysSafe(s: System)
    requires Inv(s)
    ensures StaysSafe(s)
  {
    forall n: nat | n <= |s.hand| && (n > 0 ==> s.dispatch.Idle?) ensures Safe(Caught(s, n)) {
      CaughtKeeps(s, n);
    }
  }

  lemma {:induction false} CaughtSpot(s: System, i: nat)
    requires i < |s.hand| && s.dispatch.Idle? && s.hand[i].state == Pending
    ensures Caught(s, i + 1).SpotOf(s.hand[i].job) == Waiting && Caught(s, i + 1).rows == s.rows
    decreases i
  {
    var s1 := After(s, Apply(false));
    if i > 0 {
      CaughtSpot(s1, i - 1);
    } else {
      assert Caught(s1, 0) == s1;
    }
  }

  /** A worker that performs the job, or relies on it, or a child that does not wait. */
  lemma OverwritesHarm(s: System, j: Id, s': System)
    requires Inv(s) && j in s.rows && (s.rows[j] == Started || (s.rows[j] == Done && IsReliedOn(s, j)))
    requires j in s'.rows && s'.rows[j] in {Pending, State.Failed} && s'.LogOf(j) == s.LogOf(j) && s'.deps == s.deps
    requires forall c | c in s.rows && c != j :: c in s'.rows && s'.rows[c] == s.rows[c]
    requires forall v | v in s.workers && s.workers[v].stage.Releasing? :: v in s'.workers && s'.workers[v] == s.workers[v]
    ensures !Safe(s')
  {
    assert LogOk(s, j);
    if s.rows[j] == Started {
      assert !LogOk(s', j);
    } else if v :| v in s.workers && s.workers[v] == Worker(j, Releasing) {
      assert v in s'.workers && !WorkerOk(s', v);
    } else {
      var c :| c in s.rows && c in s.deps && j in s.deps[c] && s.rows[c] != WaitDependencies;
      assert RowOk(s, c);
      assert s'.rows[c] != WaitDependencies && !s'.ParentsDone(c);
    }
  }

  /** The pending state that is written after a conflict keeps all this exactly when it does no harm. */
  lemma WriteConflictExact(s: System, w: nat, s': System)
    requires Inv(s) && Next(s, WriteConflict(w), s')
    ensures Inv(s') <==> !Clobbers(s, s.workers[w].job)
    ensures StaysSafe(s') <==> !Clobbers(s, s.workers[w].job)
  {
    var j := s.workers[w].job;
    if !Clobbers(s, j) {
      StepKeeps(s, WriteConflict(w), s');
      InvStaysSafe(s');
    } else {
      assert RowOk(s, j);
      OverwritesHarm(s, j, s');
      assert Caught(s', 0) == s';
      if Inv(s') {
        InvStaysSafe(s');
      }
    }
  }

  lemma ExpectedHarm(s: System, j: Id, s': System)
    requires Inv(s) && IsExpected(s, j) && !IsPending(s', j)
    requires s'.view == s.view && s'.hand == s.hand && s'.dispatch == s.dispatch
    ensures !StaysSafe(s')
  {
    if InQueue(s, j) {
      assert InQueue(s', j);
      assert Caught(s', 0) == s';
    } else {
      var i :| 0 <= i < |s.hand| && s.hand[i] == Reading(j, Pending);
      CaughtSpot(s', i);
      assert InQueue(Caught(s', i + 1), j);
    }
  }

  lemma SpoilsHarm(s: System, w: nat, s': System)
    requires Inv(s) && Next(s, WriteFailure(w), s') && Spoils(s, s.workers[w].job)
    ensures !StaysSafe(s')
  {
    var j := s.workers[w].job;
    if s.rows[j] == Pending {
      ExpectedHarm(s, j, s');
    } else {
      assert Caught(s', 0) == s';
      if s.rows[j] == WaitDependencies {
        assert s'.rows[j] == State.Failed && !s'.ParentsDone(j);
      } else {
        OverwritesHarm(s, j, s');
      }
    }
  }

  /** The failure that is written after another error at the start keeps all this exactly when it does no harm. */
  lemma WriteFailureExact(s: System, w: nat, s': System)
    requires Inv(s) && Next(s, WriteFailure(w), s')
    ensures Inv(s') <==> !Spoils(s, s.workers[w].job)
    ensures StaysSafe(s') <==> !Spoils(s, s.workers[w].job)
  {
    if Spoils(s, s.workers[w].job) {
      SpoilsHarm(s, w, s');
    } else {
      StepKeeps(s, WriteFailure(w), s');
    }
    if Inv(s') {
      InvStaysSafe(s');
    }
  }

  /** `p[0]` is a parent of `p[1]`, and so on. */
  ghost predicate IsLine(deps: Dependencies, line: seq<Id>) {
    forall i {:trigger Parent(deps, line, i)} | 0 <= i < |line| - 1 :: Parent(deps, line, i)
  }

  predicate Parent(deps: Dependencies, line: seq<Id>, i: int)
    requires 0 <= i < |line| - 1
  {
    line[i + 1] in deps && line[i] in deps[line[i + 1]]
  }

  /** A job that does not wait has all its ancestors done. */
  lemma {:induction false} AncestorsDone(s: System, line: seq<Id>)
    requires Inv(s) && IsLine(s.deps, line) && |line| >= 2
    requires line[|line| - 1] in s.rows && s.rows[line[|line| - 1]] != WaitDependencies
    ensures line[0] in s.rows && s.rows[line[0]] == Done
    decreases |line|
  {
    var n := |line|;
    assert RowOk(s, line[n - 1]) && Parent(s.deps, line, n - 2);
    if n > 2 {
      var shorter := line[..n - 1];
      forall i | 0 <= i < |shorter| - 1 ensures Parent(s.deps, shorter, i) {
        assert Parent(s.deps, line, i);
      }
      AncestorsDone(s, shorter);
    }
  }

  lemma DependencySafety(ss: seq<System>, steps: seq<Step>, n: nat, line: seq<Id>)
    requires Run(ss, steps) && n <= |steps| && forall i | 0 <= i < n :: GentleAt(ss, steps, i)
    requires IsLine(ss[n].deps, line) && |line| >= 2
    requires var j := line[|line| - 1]; j in ss[n].rows && ss[n].rows[j] != WaitDependencies
    ensures line[0] in ss[n].rows && ss[n].rows[line[0]] == Done
  {
    RunKeeps(ss, steps, n);
    AncestorsDone(ss[n], line);
  }

  /** Unless a release step was given up, a job whose parents are done is still to be released. */
  lemma NoLostRelease(ss: seq<System>, steps: seq<Step>, n: nat, j: Id)
    requires Run(ss, steps) && n <= |steps| && forall i | 0 <= i < n :: GentleAt(ss, steps, i)
    requires ss[n].lost == {} && j in ss[n].rows && ss[n].rows[j] == WaitDependencies && ss[n].ParentsDone(j)
    ensures j in ss[n].deps
    ensures exists w | w in ss[n].workers :: ss[n].workers[w].stage == Releasing && ss[n].workers[w].job in ss[n].deps[j]
  {
    RunKeeps(ss, steps, n);
    assert RowOk(ss[n], j) && ReleaseOk(ss[n], j);
  }

  // ---------- quiescence ----------

  /** Nothing is left to be done. */
  predicate Quiet(s: System) {
    s.workers == map[] && forall j | j in s.rows :: s.rows[j] in {WaitDependencies, Done, State.Failed}
  }

  /** Some line leads from a failed job to `j`. */
  ghost predicate BelowFailed(s: System, j: Id) {
    exists line: seq<Id> :: LineFromFailed(s, line, j)
  }

  ghost predicate LineFromFailed(s: System, line: seq<Id>, j: Id) {
    && |line| >= 2 && IsLine(s.deps, line) && line[|line| - 1] == j
    && line[0] in s.rows && s.rows[line[0]] == State.Failed
  }

  /** `rank` shows that the dependencies have no cycle. */
  ghost predicate Ranks(deps: Dependencies, rank: map<Id, nat>) {
    forall j, p | j in deps && p in deps[j] :: j in rank && p in rank && rank[p] < rank[j]
  }

  lemma {:induction false} WaitingIsBelowFailed(s: System, rank: map<Id, nat>, j: Id)
    requires Inv(s) && Quiet(s) && s.lost == {} && Ranks(s.deps, rank)
    requires j in s.rows && s.rows[j] == WaitDependencies
    ensures BelowFailed(s, j)
    decreases if j in rank then rank[j] else 0
  {
    assert RowOk(s, j) && ReleaseOk(s, j);
    var p :| p in s.deps[j] && s.rows[p] != Done;
    if s.rows[p] == State.Failed {
      var line := [p, j];
      assert Parent(s.deps, line, 0);
      assert LineFromFailed(s, line, j);
    } else {
      WaitingIsBelowFailed(s, rank, p);
      var line :| LineFromFailed(s, line, p);
      var longer := line + [j];
      forall i | 0 <= i < |longer| - 1 ensures Parent(s.deps, longer, i) {
        if i < |line| - 1 {
          assert Parent(s.deps, line, i);
        }
      }
      assert LineFromFailed(s, longer, j);
    }
  }

  /**
    When a run comes to rest, and no release step was given up, the jobs that wait are exactly the
    descendants of failed jobs, and every other job is done or has failed.
   */
  lemma QuiescenceExact(ss: seq<System>, steps: seq<Step>, n: nat, rank: map<Id, nat>, j: Id)
    requires Run(ss, steps) && n <= |steps| && forall i | 0 <= i < n :: GentleAt(ss, steps, i)
    requires Quiet(ss[n]) && ss[n].lost == {} && Ranks(ss[n].deps, rank) && j in ss[n].rows
    ensures ss[n].rows[j] == WaitDependencies <==> BelowFailed(ss[n], j)
    ensures !BelowFailed(ss[n], j) ==> ss[n].rows[j] in {Done, State.Failed}
  {
    var s := ss[n];
    RunKeeps(ss, steps, n);
    if s.rows[j] == WaitDependencies {
      WaitingIsBelowFailed(s, rank, j);
    } else if BelowFailed(s, j) {
      var line :| LineFromFailed(s, line, j);
      AncestorsDone(s, line);
    }
  }

  // ---------- what a conflict at the start can do ----------

  /** A run that can be gone on with. */
  ghost predicate RunTo(ss: seq<System>, steps: seq<Step>, s: System) {
    Run(ss, steps) && ss[|ss| - 1] == s
  }

  lemma GoOn(ss: seq<System>, steps: seq<Step>, s: System, step: Step, s': System)
    requires RunTo(ss, steps, s) && Next(s, step, s')
    ensures RunTo(ss + [s'], steps + [step], s')
  {
    var tt, ts := ss + [s'], steps + [step];
    forall i | 0 <= i < |ts| ensures StepAt(tt, ts, i) {
      if i < |steps| {
        assert StepAt(ss, steps, i);
      }
    }
  }

  lemma ReadPending(ss: seq<System>, steps: seq<Step>, s: System, j: Id)
    returns (ss': seq<System>, steps': seq<Step>, s': System)
    requires RunTo(ss, steps, s) && s.dispatch == Idle && s.hand == [] && IsPending(s, j)
    ensures RunTo(ss', steps', s') && s'.SpotOf(j) == Waiting && s' == s.(view := s'.view)
  {
    var s1 := After(s, Fetch(j));
    GoOn(ss, steps, s, Fetch(j), s1);
    s' := After(s1, Apply(false));
    GoOn(ss + [s1], steps + [Fetch(j)], s1, Apply(false), s');
    ss', steps' := ss + [s1] + [s'], steps + [Fetch(j)] + [Apply(false)];
  }

  /** The runner reads a pending row, and sends a request to run the job. */
  lemma SendRequest(ss: seq<System>, steps: seq<Step>, s: System, j: Id)
    returns (ss': seq<System>, steps': seq<Step>, s': System)
    requires RunTo(ss, steps, s) && s.dispatch == Idle && s.hand == [] && IsPending(s, j) && !s.IsLocked(j)
    ensures RunTo(ss', steps', s') && s'.dispatch == Idle && s'.hand == [] && s'.rows == s.rows[j := Enqueued]
    ensures s'.workers == s.workers && s'.deps == s.deps
    ensures At(s'.requests, j) == At(s.requests, j) + 1 && At(s'.clients, j) == At(s.clients, j) + 1
  {
    var s1;
    ss', steps', s1 := ReadPending(ss, steps, s, j);
    var s2 := After(s1, Pick(j));
    GoOn(ss', steps', s1, Pick(j), s2);
    s' := After(s2, Mark);
    GoOn(ss' + [s2], steps' + [Pick(j)], s2, Mark, s');
    ss', steps' := ss' + [s2] + [s'], steps' + [Pick(j)] + [Mark];
  }

  lemma LockAndStart(ss: seq<System>, steps: seq<Step>, s: System, w: nat, j: Id)
    returns (ss': seq<System>, steps': seq<Step>, s': System)
    requires RunTo(ss, steps, s) && At(s.requests, j) > 0 && w !in s.workers
    requires j in s.rows && s.rows[j] == Enqueued && !s.IsLocked(j)
    ensures RunTo(ss', steps', s') && s'.rows == s.rows[j := Started]
    ensures s'.workers == s.workers[w := Worker(j, Locked)][w := Worker(j, Performing)]
    ensures s'.dispatch == s.dispatch && s'.hand == s.hand && s'.deps == s.deps
  {
    var s1 := After(s, Lock(w, j));
    GoOn(ss, steps, s, Lock(w, j), s1);
    s' := After(s1, CommitStart(w));
    GoOn(ss + [s1], steps + [Lock(w, j)], s1, CommitStart(w), s');
    ss', steps' := ss + [s1] + [s'], steps + [Lock(w, j)] + [CommitStart(w)];
  }

  /** Job `j` is enqueued, nobody works at it, and so many requests for it are under way. */
  ghost predicate Unattended(s: System, j: Id, requests: nat) {
    && s.dispatch == Idle && s.hand == [] && s.workers == map[] && j in s.rows && s.rows[j] == Enqueued
    && j in s.deps && s.deps[j] == {} && At(s.requests, j) == requests && At(s.clients, j) > 0
  }

  lemma FirstRequest(j: Id) returns (ss: seq<System>, steps: seq<Step>, s: System)
    ensures RunTo(ss, steps, s) && Unattended(s, j, 1)
  {
    var s0 := System(map[j := {}], map[], map[], [], Idle, map[], map[], map[], {}, map[]);
    assert RunTo([s0], [], s0);
    var s1 := After(s0, Create({j}));
    GoOn([s0], [], s0, Create({j}), s1);
    ss, steps, s := SendRequest([s0] + [s1], [] + [Create({j})], s1, j);
  }

  /** The client times out before its request has reached a worker, and the runner sends another one. */
  lemma LateRequest(ss: seq<System>, steps: seq<Step>, s: System, j: Id)
    returns (ss': seq<System>, steps': seq<Step>, s': System)
    requires RunTo(ss, steps, s) && Unattended(s, j, 1)
    ensures RunTo(ss', steps', s') && Unattended(s', j, 2)
  {
    var s1 := After(s, TimeOut(j));
    GoOn(ss, steps, s, TimeOut(j), s1);
    ss', steps', s' := SendRequest(ss + [s1], steps + [TimeOut(j)], s1, j);
  }

  /** One of two requests has a conflict, and the other one locks the row and starts the job. */
  lemma ConflictAndStart(ss: seq<System>, steps: seq<Step>, s: System, j: Id)
    returns (ss': seq<System>, steps': seq<Step>, s': System)
    requires RunTo(ss, steps, s) && Unattended(s, j, 2)
    ensures RunTo(ss', steps', s') && s'.workers == map[1 := Worker(j, Conflicted), 2 := Worker(j, Performing)]
    ensures s'.dispatch == Idle && s'.hand == [] && j in s'.rows && j in s'.deps && s'.deps[j] == {}
  {
    var s1 := After(s, Lock(1, j));
    GoOn(ss, steps, s, Lock(1, j), s1);
    var s2 := After(s1, StartConflict(1));
    GoOn(ss + [s1], steps + [Lock(1, j)], s1, StartConflict(1), s2);
    ss', steps', s' := LockAndStart(ss + [s1] + [s2], steps + [Lock(1, j)] + [StartConflict(1)], s2, 2, j);
  }

  lemma PendingOverStarted(ss: seq<System>, steps: seq<Step>, s: System, j: Id)
    returns (ss': seq<System>, steps': seq<Step>, s': System)
    requires RunTo(ss, steps, s) && s.workers == map[1 := Worker(j, Conflicted), 2 := Worker(j, Performing)]
    requires s.dispatch == Idle && s.hand == [] && j in s.rows && j in s.deps && s.deps[j] == {}
    ensures RunTo(ss', steps', s') && s'.workers == map[2 := Worker(j, Performing)]
    ensures s'.dispatch == Idle && s'.hand == [] && IsPending(s', j)
  {
    s' := After(s, WriteConflict(1));
    GoOn(ss, steps, s, WriteConflict(1), s');
    ss', steps' := ss + [s'], steps + [WriteConflict(1)];
  }

  /**
    A conflict when the start is committed makes the controller write the pending state over
    whatever the row has become: here a second worker has started the job, and so a third one can.
   */
  lemma ConflictBreaksSingleExecution(j: Id) returns (ss: seq<System>, steps: seq<Step>, s: System)
    ensures RunTo(ss, steps, s)
    ensures s.workers == map[2 := Worker(j, Performing), 3 := Worker(j, Performing)]
  {
    ss, steps, s := FirstRequest(j);
    ss, steps, s := LateRequest(ss, steps, s, j);
    ss, steps, s := ConflictAndStart(ss, steps, s, j);
    ss, steps, s := PendingOverStarted(ss, steps, s, j);
    ss, steps, s := SendRequest(ss, steps, s, j);
    ss, steps, s := LockAndStart(ss, steps, s, 3, j);
  }

  /** One of two requests cannot start the job, and the other one locks the row and starts it. */
  lemma BreakAndStart(ss: seq<System>, steps: seq<Step>, s: System, j: Id)
    returns (ss': seq<System>, steps': seq<Step>, s': System)
    requires RunTo(ss, steps, s) && Unattended(s, j, 2)
    ensures RunTo(ss', steps', s') && s'.workers == map[1 := Worker(j, Broken), 2 := Worker(j, Performing)] && j in s'.rows
  {
    var s1 := After(s, Lock(1, j));
    GoOn(ss, steps, s, Lock(1, j), s1);
    var s2 := After(s1, StartBroken(1));
    GoOn(ss + [s1], steps + [Lock(1, j)], s1, StartBroken(1), s2);
    ss', steps', s' := LockAndStart(ss + [s1] + [s2], steps + [Lock(1, j)] + [StartBroken(1)], s2, 2, j);
  }

  /** The same with a failure: it is written while a second worker performs the job. */
  lemma FailureOverStarted(j: Id) returns (ss: seq<System>, steps: seq<Step>, s: System)
    ensures RunTo(ss, steps, s)
    ensures s.workers == map[2 := Worker(j, Performing)] && j in s.rows && s.rows[j] == State.Failed
  {
    var s0;
    ss, steps, s0 := FirstRequest(j);
    ss, steps, s0 := LateRequest(ss, steps, s0, j);
    ss, steps, s0 := BreakAndStart(ss, steps, s0, j);
    s := After(s0, WriteFailure(1));
    GoOn(ss, steps, s0, WriteFailure(1), s);
    ss, steps := ss + [s], steps + [WriteFailure(1)];
  }
}
