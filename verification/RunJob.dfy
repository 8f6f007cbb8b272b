/**
  The worker: one request to run a job, from the check of its row to the row it leaves behind,
  and what follows from this for jobs that are tried again and again.
 */
module RunJobs {
  import opened Prelude
  import opened JobStates
  import opened RetryPatterns
  import opened Jobs

  const PG_RETRY := 5                                       // seconds
  const DEPENDS_MAX_TRIES_ON_CONCURRENCY_FAILURE := 5

  /** A row of the table of jobs. */
  class Record {
    var row: Row

    constructor (row: Row)
      ensures this.row == row
    {
      this.row := row;
    }
  }

  /** What happens in one attempt: a conflict or another error when the start is committed, or the end of the method. */
  datatype Attempt = StartConflict | StartBreaks | Performed(outcome: Outcome)

  /** How the request ends, apart from the row. */
  datatype Response = NotEnqueued | Postponed | Finished | Raises

  /** The state in which an attempt leaves a row. */
  function NextState(a: Attempt, retry: int, maxRetries: int, ready: bool): State {
    match ErrorOf(a, retry, maxRetries)
    case NoError | NothingToDoError => Done
    case RetryableError(_) | ConflictError => if ready then Pending else WaitDependencies
    case FailedError => Failed
  }

  function ErrorOf(a: Attempt, retry: int, maxRetries: int): Raised {
    match a
    case StartConflict => ConflictError
    case StartBreaks => FailedError
    case Performed(outcome) => if outcome.StoreBreaks? then FailedError else RaisedBy(outcome, retry, maxRetries)
  }

  predicate IsCounted(a: Attempt) {
    a.Performed? && !IsIgnored(a.outcome)
  }

  function NextRetry(a: Attempt, retry: int): int {
    if IsCounted(a) then retry + 1 else retry
  }

  function SecondsOf(e: Raised): int {
    match e
    case RetryableError(seconds) => seconds
    case ConflictError => PG_RETRY
    case _ => 0
  }

  ghost predicate IsWait(row: Row, wait: int, retry: int, seconds: int, pattern: RetryPattern, now: Time) {
    IsRetrySeconds(retry, seconds, pattern, wait) && row.eta == EtaIn(wait, now)
  }

  /** The dates of the attempt are gone, and the eta is some seconds from now. */
  ghost predicate IsPostponed(row: Row, retry: int, seconds: int, pattern: RetryPattern, now: Time) {
    && row.dateEnqueued.None? && row.dateStarted.None? && row.dateDone.None?
    && exists wait: int :: IsWait(row, wait, retry, seconds, pattern, now)
  }

  /** What an attempt makes of an enqueued row; `ready` says whether all parents are done. */
  ghost predicate Attempted(row: Row, a: Attempt, pattern: RetryPattern, ready: bool, now: Time, row': Row) {
    var retry := NextRetry(a, row.retry);
    var e := ErrorOf(a, retry, row.maxRetries);
    && row'.retry == retry && row'.maxRetries == row.maxRetries
    && row'.state == NextState(a, retry, row.maxRetries, ready)
    && match e
       case RetryableError(_) | ConflictError =>
         IsPostponed(row', retry, SecondsOf(e), pattern, now)
       case NoError | NothingToDoError =>
         row'.eta == row.eta && row'.dateEnqueued == row.dateEnqueued && row'.dateStarted == Some(now) && row'.dateDone == Some(now)
       case FailedError =>
         && row'.eta == row.eta && row'.dateEnqueued == row.dateEnqueued && row'.dateStarted == Some(now)
         && row'.dateDone == if a.Performed? && a.outcome.StoreBreaks? then Some(now) else row.dateDone
  }

  /** No second attempt is asked for. */
  predicate Succeeds(a: Attempt) {
    a == Performed(Returns) || a == Performed(NothingToDo)
  }

  /** The attempt fails the job: an error that is not retryable, or the last retry that the row allows. */
  predicate FailsRow(a: Attempt, row: Row) {
    match a
    case StartConflict => false
    case StartBreaks => true
    case Performed(outcome) =>
      || outcome.Breaks? || outcome.StoreBreaks?
      || (outcome.Retryable? && !outcome.ignoreRetry && row.maxRetries != 0 && row.retry + 1 >= row.maxRetries)
  }

  /** How each attempt ends: the row is done, or failed, or the job is to be tried again once its parents are done. */
  lemma AttemptEnds(row: Row, a: Attempt, pattern: RetryPattern, ready: bool, now: Time, row': Row)
    requires Attempted(row, a, pattern, ready, now, row')
    ensures row'.state == if Succeeds(a) then Done else if FailsRow(a, row) then Failed else if ready then Pending else WaitDependencies
    ensures row'.maxRetries == row.maxRetries
    ensures row'.retry == row.retry + if a.Performed? && !(a.outcome.Retryable? && a.outcome.ignoreRetry) then 1 else 0
    ensures Succeeds(a) || FailsRow(a, row) ==>
              row'.eta == row.eta && row'.dateEnqueued == row.dateEnqueued && row'.dateStarted == Some(now)
    ensures Succeeds(a) || a == Performed(StoreBreaks) ==> row'.dateDone == Some(now)
    ensures !(Succeeds(a) || FailsRow(a, row)) ==> row'.dateEnqueued.None? && row'.dateStarted.None? && row'.dateDone.None?
  {
  }

  /** When another attempt is to be made: in five seconds after a conflict, and otherwise when the error or the pattern says. */
  lemma AttemptWaits(row: Row, a: Attempt, pattern: RetryPattern, ready: bool, now: Time, row': Row) returns (wait: int)
    requires Attempted(row, a, pattern, ready, now, row') && !Succeeds(a) && !FailsRow(a, row)
    ensures row'.eta == if wait == 0 then None else Some(now + wait as Time)
    ensures a == StartConflict || a == Performed(Conflict) ==> wait == 5
    ensures a.Performed? && a.outcome.Retryable? ==>
              if a.outcome.seconds != 0 then wait == a.outcome.seconds else IsRetrySeconds(row'.retry, 0, pattern, wait)
  {
    var retry := NextRetry(a, row.retry);
    var e := ErrorOf(a, retry, row.maxRetries);
    assert IsPostponed(row', retry, SecondsOf(e), pattern, now);
    wait :| IsWait(row', wait, retry, SecondsOf(e), pattern, now);
  }

  /** Start, perform, and store that the job is done; the error that comes out of it, if any. */
  method TryPerformJob(job: Job, record: Record, a: Attempt, now: Time) returns (e: Raised)
    modifies job`state, job`retry, job`dateStarted, job`dateDone, record
    ensures job.retry == NextRetry(a, old(job.retry)) && e == ErrorOf(a, job.retry, job.maxRetries)
    ensures job.dateStarted == Some(now)
    ensures e.NoError? ==> record.row == job.Stored() && job.state == Done && job.dateDone == Some(now)
    ensures !e.NoError? ==>
              job.dateDone == if a.Performed? && a.outcome.StoreBreaks? then Some(now) else old(job.dateDone)
  {
    job.SetStarted(now);
    if a.StartConflict? {
      return ConflictError;
    } else if a.StartBreaks? {
      return FailedError;
    }
    record.row := job.Stored();
    e := job.Perform(a.outcome);
    if e == NoError {
      job.SetDone(now);
      if a.outcome.StoreBreaks? {
        return FailedError;
      }
      record.row := job.Stored();
    }
  }

  /** Stores the job with a new eta, and without resetting the count of retries. */
  method RetryPostpone(job: Job, record: Record, seconds: int, pattern: RetryPattern, now: Time) returns (ghost wait: int)
    requires job !in job.dependsOn
    modifies job, record
    ensures IsRetrySeconds(old(job.retry), seconds, pattern, wait) && (seconds != 0 ==> wait == seconds)
    ensures record.row.eta == if wait == 0 then None else Some(now + wait as Time)
    ensures seconds > 0 ==> record.row.eta.Some? && record.row.eta.value > now
    ensures record.row.retry == old(job.retry) && record.row.maxRetries == old(job.maxRetries)
    ensures record.row.state == if forall j | j in old(job.dependsOn) :: old(j.state) == Done then Pending else WaitDependencies
    ensures IsPostponed(record.row, old(job.retry), seconds, pattern, now)
  {
    wait := job.Postpone(seconds, pattern, now);
    job.SetPending(false);
    record.row := job.Stored();
    assert IsWait(record.row, wait, old(job.retry), seconds, pattern, now);
  }

  ghost predicate ParentsDone(parents: set<Job>)
    reads parents
  {
    forall j | j in parents :: j.state == Done
  }

  /** One request to run the job of a row; `parents` are the jobs it depends on. */
  method RunJob(record: Record, uuid: string, parents: set<Job>, a: Attempt, pattern: RetryPattern, now: Time) returns (r: Response)
    modifies record
    ensures old(record.row).state != Enqueued ==> r == NotEnqueued && record.row == old(record.row)
    ensures old(record.row).state == Enqueued ==>
              && Attempted(old(record.row), a, pattern, ParentsDone(parents), now, record.row)
              && r == ResponseFor(record.row.state)
    ensures old(record.row).state == Enqueued ==>
              && (r == Finished <==> Succeeds(a)) && (r == Raises <==> FailsRow(a, old(record.row)))
              && (record.row.state == Done <==> Succeeds(a)) && (record.row.state == Failed <==> FailsRow(a, old(record.row)))
  {
    if record.row.state != Enqueued {
      return NotEnqueued;
    }
    var job := new Job.Load(uuid, record.row, parents);
    var e := TryPerformJob(job, record, a, now);
    match e
    case NoError =>
      r := Finished;
    case NothingToDoError =>
      job.SetDone(now);
      record.row := job.Stored();
      r := Finished;
    case RetryableError(seconds) =>
      ghost var wait := RetryPostpone(job, record, seconds, pattern, now);
      r := Postponed;
    case ConflictError =>
      ghost var wait := RetryPostpone(job, record, PG_RETRY, pattern, now);
      r := Postponed;
    case FailedError =>
      job.SetFailed();
      record.row := job.Stored();
      r := Raises;
  }

  function ResponseFor(state: State): Response {
    match state
    case Done => Finished
    case Failed => Raises
    case _ => Postponed
  }

  // ---------- the release step ----------

  datatype Try = Released | Conflicts | Errs

  /** Tries to release the dependent jobs again after a conflict, up to five times. */
  method EnqueueDependentJobs(attempt: nat -> Try) returns (released: bool, tries: nat)
    ensures tries <= 5
    ensures forall i | 0 <= i < tries :: attempt(i) == Conflicts
    ensures released <==> attempt(tries) == Released
    ensures released <==> exists n: nat | n <= 5 ::
                            attempt(n) == Released && forall i: nat | i < n :: attempt(i) == Conflicts
  {
    tries := 0;
    while attempt(tries) == Conflicts && tries < DEPENDS_MAX_TRIES_ON_CONCURRENCY_FAILURE
      invariant tries <= DEPENDS_MAX_TRIES_ON_CONCURRENCY_FAILURE
      invariant forall i | 0 <= i < tries :: attempt(i) == Conflicts
      decreases DEPENDS_MAX_TRIES_ON_CONCURRENCY_FAILURE - tries
    {
      tries := tries + 1;
    }
    released := attempt(tries) == Released;
  }

  // ---------- retries ----------

  /** The attempts that all end in another try, or in the failure that ends the tries. */
  predicate IsRetry(a: Attempt) {
    a.StartConflict? || (a.Performed? && (a.outcome.Retryable? || a.outcome.Conflict?))
  }

  /** A retryable error that is not to be ignored. */
  predicate IsRegular(a: Attempt) {
    a.Performed? && a.outcome.Retryable? && !a.outcome.ignoreRetry
  }

  function Tally(attempts: seq<Attempt>, counts: Attempt -> bool): nat {
    if attempts == [] then 0
    else Tally(attempts[..|attempts| - 1], counts) + if counts(attempts[|attempts| - 1]) then 1 else 0
  }

  /** One row after the other: before each attempt the runner enqueues the pending row. */
  ghost predicate Tried(rows: seq<Row>, attempts: seq<Attempt>) {
    && |rows| == |attempts| + 1
    && forall i {:trigger TriedAt(rows, attempts, i)} | 0 <= i < |attempts| :: TriedAt(rows, attempts, i)
  }

  ghost predicate TriedAt(rows: seq<Row>, attempts: seq<Attempt>, i: nat)
    requires |rows| == |attempts| + 1 && i < |attempts|
  {
    && rows[i].state == Pending && IsRetry(attempts[i])
    && exists pattern, ready, now, enqueued {:trigger Attempted(enqueued, attempts[i], pattern, ready, now, rows[i + 1])} ::
         IsEnqueued(rows[i], enqueued) && Attempted(enqueued, attempts[i], pattern, ready, now, rows[i + 1])
  }

  predicate IsEnqueued(row: Row, enqueued: Row) {
    enqueued == row.(state := Enqueued, dateEnqueued := enqueued.dateEnqueued)
  }

  lemma OneTry(rows: seq<Row>, attempts: seq<Attempt>, i: nat)
    requires Tried(rows, attempts) && i < |attempts|
    ensures rows[i].state == Pending && IsRetry(attempts[i])
    ensures rows[i + 1].retry == NextRetry(attempts[i], rows[i].retry) && rows[i + 1].maxRetries == rows[i].maxRetries
    ensures rows[i + 1].state == Failed <==>
              IsRegular(attempts[i]) && rows[i].maxRetries != 0 && rows[i].retry + 1 >= rows[i].maxRetries
  {
    assert TriedAt(rows, attempts, i);
  }

  /** The count of retries survives every postponement. */
  lemma {:induction false} RetryCounts(rows: seq<Row>, attempts: seq<Attempt>, n: nat)
    requires Tried(rows, attempts) && n <= |attempts|
    ensures rows[n].retry == rows[0].retry + Tally(attempts[..n], IsCounted) && rows[n].maxRetries == rows[0].maxRetries
  {
    if n > 0 {
      OneTry(rows, attempts, n - 1);
      RetryCounts(rows, attempts, n - 1);
      assert attempts[..n][..n - 1] == attempts[..n - 1];
    }
  }

  /** Exactly which attempt fails the job. */
  lemma FailsWhen(rows: seq<Row>, attempts: seq<Attempt>, n: nat)
    requires Tried(rows, attempts) && n < |attempts|
    ensures rows[n + 1].state == Failed <==>
              && IsRegular(attempts[n]) && rows[0].maxRetries != 0
              && rows[0].retry + Tally(attempts[..n + 1], IsCounted) >= rows[0].maxRetries
  {
    OneTry(rows, attempts, n);
    RetryCounts(rows, attempts, n);
    assert attempts[..n + 1][..n] == attempts[..n];
  }

  lemma {:induction false} TallyRegular(attempts: seq<Attempt>)
    requires forall i | 0 <= i < |attempts| :: IsRetry(attempts[i])
    ensures Tally(attempts, IsRegular) <= Tally(attempts, IsCounted)
    ensures Tally(attempts, IsRegular) + Tally(attempts, (a: Attempt) => !IsRegular(a)) == |attempts|
  {
    if attempts != [] {
      TallyRegular(attempts[..|attempts| - 1]);
    }
  }

  /** The last regular attempt of a row that has not failed has not reached the maximum. */
  lemma {:induction false} RegularBound(rows: seq<Row>, attempts: seq<Attempt>, n: nat)
    requires Tried(rows, attempts) && n <= |attempts| && rows[n].state != Failed
    requires rows[0].maxRetries > 0 && rows[0].retry == 0
    ensures Tally(attempts[..n], IsRegular) < rows[0].maxRetries
  {
    if n > 0 {
      assert attempts[..n][..n - 1] == attempts[..n - 1];
      if IsRegular(attempts[n - 1]) {
        FailsWhen(rows, attempts, n - 1);
        forall i | 0 <= i < n ensures IsRetry(attempts[..n][i]) {
          OneTry(rows, attempts, i);
        }
        TallyRegular(attempts[..n]);
      } else {
        OneTry(rows, attempts, n - 1);
        RegularBound(rows, attempts, n - 1);
      }
    }
  }

  /**
    A job with a maximum of N retries that ends every attempt in an error that asks for another
    try makes at most N + k attempts, if k of them are not to be counted or are conflicts.
   */
  lemma RetryBound(rows: seq<Row>, attempts: seq<Attempt>)
    requires Tried(rows, attempts) && rows[0].maxRetries > 0 && rows[0].retry == 0
    ensures |attempts| <= rows[0].maxRetries + Tally(attempts, (a: Attempt) => !IsRegular(a))
  {
    var n := |attempts|;
    if n > 0 {
      OneTry(rows, attempts, n - 1);
      RegularBound(rows, attempts, n - 1);
      forall i | 0 <= i < n ensures IsRetry(attempts[i]) {
        OneTry(rows, attempts, i);
      }
      TallyRegular(attempts);
    }
  }

  lemma {:induction false} TallyAll(attempts: seq<Attempt>)
    requires forall i | 0 <= i < |attempts| :: IsRegular(attempts[i])
    ensures Tally(attempts, IsCounted) == |attempts|
  {
    if attempts != [] {
      TallyAll(attempts[..|attempts| - 1]);
    }
  }

  /** If none of the errors is excused, it is the N-th attempt, and no other, that fails the job. */
  lemma RetryExact(rows: seq<Row>, attempts: seq<Attempt>, n: nat)
    requires Tried(rows, attempts) && rows[0].maxRetries > 0 && rows[0].retry == 0 && 0 < n <= |attempts|
    requires forall i | 0 <= i < |attempts| :: IsRegular(attempts[i])
    ensures rows[n].state == Failed <==> n == rows[0].maxRetries
  {
    FailsWhen(rows, attempts, n - 1);
    TallyAll(attempts[..n]);
    var m := rows[0].maxRetries;
    if n > m {
      FailsWhen(rows, attempts, m - 1);
      TallyAll(attempts[..m]);
      OneTry(rows, attempts, m);
    }
  }

  /** With a maximum of zero the job is tried for ever. */
  lemma RetryForever(rows: seq<Row>, attempts: seq<Attempt>, n: nat)
    requires Tried(rows, attempts) && rows[0].maxRetries == 0 && 0 < n <= |attempts|
    ensures rows[n].state != Failed
  {
    FailsWhen(rows, attempts, n - 1);
  }
}
