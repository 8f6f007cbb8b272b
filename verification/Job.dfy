/**
  A queue job: its state, its dependencies, and what one attempt to run it does to its row.
 */
module Jobs {
  import opened Prelude
  import opened JobStates
  import opened RetryPatterns

  /** The stored fields of a job that decide what happens to it. */
  datatype Row = Row(state: State, retry: int, maxRetries: int, eta: Option<Time>,
                     dateEnqueued: Option<Time>, dateStarted: Option<Time>, dateDone: Option<Time>)

  /** How the method of a job ends; no seconds are given as zero. */
  datatype Outcome =
    | Returns
    | NothingToDo
    | Retryable(seconds: int, ignoreRetry: bool)
    | Conflict            // a concurrency error of the database, here or when the result is committed
    | Breaks              // any other exception
    | StoreBreaks         // it returns, but another exception comes up when the result is stored

  datatype Raised = NoError | NothingToDoError | RetryableError(seconds: int) | ConflictError | FailedError

  class Job {
    const uuid: string
    var state: State
    var retry: int
    var maxRetries: int
    var eta: Option<Time>
    var dateEnqueued: Option<Time>
    var dateStarted: Option<Time>
    var dateDone: Option<Time>
    var dependsOn: set<Job>
    var reverseDependsOn: set<Job>

    constructor (uuid: string, maxRetries: int, eta: Option<Time>)
      ensures this.uuid == uuid && dependsOn == {} && reverseDependsOn == {}
      ensures Stored() == Row(Pending, 0, maxRetries, eta, None, None, None)
    {
      this.uuid, this.maxRetries, this.eta := uuid, maxRetries, eta;
      state, retry := Pending, 0;
      dateEnqueued, dateStarted, dateDone := None, None, None;
      dependsOn, reverseDependsOn := {}, {};
    }

    /** Reads the job from its row; `parents` are the jobs it depends on. */
    constructor Load(uuid: string, row: Row, parents: set<Job>)
      ensures this.uuid == uuid && dependsOn == parents && Stored() == row
    {
      this.uuid := uuid;
      state, retry, maxRetries, eta := row.state, row.retry, row.maxRetries, row.eta;
      dateEnqueued, dateStarted, dateDone := row.dateEnqueued, row.dateStarted, row.dateDone;
      dependsOn, reverseDependsOn := parents, {};
    }

    /** What `store` writes. */
    function Stored(): Row
      reads this
    {
      Row(state, retry, maxRetries, eta, dateEnqueued, dateStarted, dateDone)
    }

    // ---------- dependencies ----------

    /** Nothing happens if the job is among its own parents. */
    method AddDepends(jobs: set<Job>) returns (ok: bool)
      modifies this`dependsOn, this`state, jobs`reverseDependsOn
      ensures ok <==> this !in jobs
      ensures !ok ==> unchanged(this) && unchanged(jobs)
      ensures ok ==> dependsOn == old(dependsOn) + jobs
      ensures ok ==> state == if exists j | j in jobs :: j.state != Done then WaitDependencies else old(state)
      ensures ok ==> forall j | j in jobs :: j.reverseDependsOn == old(j.reverseDependsOn) + {this}
    {
      if this in jobs {
        return false;
      }
      dependsOn := dependsOn + jobs;
      var todo := jobs;
      while todo != {}
        invariant todo <= jobs && dependsOn == old(dependsOn) + jobs && state == old(state)
        invariant forall j | j in jobs ::
                    j.reverseDependsOn == if j in todo then old(j.reverseDependsOn) else old(j.reverseDependsOn) + {this}
        decreases todo
      {
        var parent :| parent in todo;
        parent.reverseDependsOn := parent.reverseDependsOn + {this};
        todo := todo - {parent};
      }
      var ready := AllDone(jobs);
      if !ready {
        state := WaitDependencies;
      }
      ok := true;
    }

    // ---------- transitions ----------

    method SetPending(resetRetry: bool)
      modifies this
      ensures dependsOn == old(dependsOn) && reverseDependsOn == old(reverseDependsOn)
      ensures state == if forall j | j in dependsOn :: old(j.state) == Done then Pending else WaitDependencies
      ensures dateEnqueued.None? && dateStarted.None? && dateDone.None?
      ensures retry == (if resetRetry then 0 else old(retry)) && maxRetries == old(maxRetries) && eta == old(eta)
    {
      var ready := AllDone(dependsOn);
      state := if ready then Pending else WaitDependencies;
      dateEnqueued, dateStarted, dateDone := None, None, None;
      if resetRetry {
        retry := 0;
      }
    }

    static method AllDone(jobs: set<Job>) returns (b: bool)
      ensures b <==> forall j | j in jobs :: j.state == Done
    {
      b := true;
      var todo := jobs;
      while todo != {}
        invariant todo <= jobs
        invariant b <==> forall j | j in jobs && j !in todo :: j.state == Done
        decreases todo
      {
        var j :| j in todo;
        b := b && j.state == Done;
        todo := todo - {j};
      }
    }

    method SetStarted(now: Time)
      modifies this`state, this`dateStarted
      ensures Stored() == old(Stored()).(state := Started, dateStarted := Some(now))
    {
      state, dateStarted := Started, Some(now);
    }

    method SetDone(now: Time)
      modifies this`state, this`dateDone
      ensures Stored() == old(Stored()).(state := Done, dateDone := Some(now))
    {
      state, dateDone := Done, Some(now);
    }

    method SetFailed()
      modifies this`state
      ensures Stored() == old(Stored()).(state := Failed)
    {
      state := Failed;
    }

    // ---------- running ----------

    /** Runs the method of the job, which ends as `outcome` says, and counts the try. */
    method Perform(outcome: Outcome) returns (e: Raised)
      modifies this`retry
      ensures Stored() == old(Stored()).(retry := retry)
      ensures retry == old(retry) + if outcome.Retryable? && outcome.ignoreRetry then 0 else 1
      ensures e == NoError <==> outcome.Returns? || outcome.StoreBreaks?
      ensures e == NothingToDoError <==> outcome.NothingToDo?
      ensures e == ConflictError <==> outcome.Conflict?
      ensures e == FailedError <==>
                outcome.Breaks? || (outcome.Retryable? && !outcome.ignoreRetry && maxRetries != 0 && old(retry) + 1 >= maxRetries)
      ensures e.RetryableError? ==> outcome.Retryable? && e.seconds == outcome.seconds
      ensures e == RaisedBy(outcome, retry, maxRetries)
    {
      retry := retry + 1;
      match outcome
      case Returns => return NoError;
      case StoreBreaks => return NoError;
      case NothingToDo => return NothingToDoError;
      case Conflict => return ConflictError;
      case Breaks => return FailedError;
      case Retryable(seconds, ignoreRetry) =>
        if ignoreRetry {
          retry := retry - 1;
          return RetryableError(seconds);
        } else if maxRetries == 0 {
          return RetryableError(seconds);
        } else if retry >= maxRetries {
          return FailedError;
        }
        return RetryableError(seconds);
    }

    /** The job waits for some seconds before the next try; a wait of zero seconds leaves no eta. */
    method Postpone(seconds: int, pattern: RetryPattern, now: Time) returns (ghost wait: int)
      modifies this`eta
      ensures IsRetrySeconds(retry, seconds, pattern, wait)
      ensures eta == if wait == 0 then None else Some(now + wait as Time)
      ensures Stored() == old(Stored()).(eta := eta)
    {
      var s := GetRetrySeconds(retry, seconds, pattern);
      wait := s;
      eta := EtaIn(s, now);
    }
  }

  /** The time some seconds from now. */
  function EtaIn(seconds: int, now: Time): Option<Time> {
    if seconds == 0 then None else Some(now + seconds as Time)
  }

  predicate IsIgnored(outcome: Outcome) {
    outcome.Retryable? && outcome.ignoreRetry
  }

  function RaisedBy(outcome: Outcome, retry: int, maxRetries: int): Raised {
    match outcome
    case Returns | StoreBreaks => NoError
    case NothingToDo => NothingToDoError
    case Conflict => ConflictError
    case Breaks => FailedError
    case Retryable(seconds, ignoreRetry) =>
      if !ignoreRetry && maxRetries != 0 && retry >= maxRetries then FailedError else RetryableError(seconds)
  }
}
