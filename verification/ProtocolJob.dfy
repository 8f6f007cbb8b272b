/**
  What a worker makes of a row is what the steps of the dispatch protocol make of its state.
 */
module ProtocolJobs {
  import opened Prelude
  import opened JobStates
  import opened RetryPatterns
  import opened Jobs
  import opened RunJobs
  import opened Protocol

  /** The steps of a worker that has locked the row, up to the last write of the row. */
  function StepsOf(w: nat, a: Attempt, row: Row): (Step, Step) {
    match a
    case StartConflict => (Step.StartConflict(w), WriteConflict(w))
    case StartBreaks => (StartBroken(w), WriteFailure(w))
    case Performed(_) => (CommitStart(w), if Succeeds(a) then FinishDone(w) else if FailsRow(a, row) then Step.Fail(w) else Step.Postpone(w))
  }

  /** The two steps can be taken one after the other, and lead from `s` to `s'`. */
  ghost predicate InTurn(s: System, steps: (Step, Step), s': System) {
    Enabled(s, steps.0) && Next(After(s, steps.0), steps.1, s')
  }

  /**
    One attempt, in any state of the system in which the worker holds the lock on the row: the steps
    can be taken, no other row changes, and this row ends in the state that the attempt leaves it in.
   */
  lemma AttemptIsSteps(s: System, w: nat, row: Row, a: Attempt, pattern: RetryPattern, now: Time, row': Row) returns (s': System)
    requires Inv(s) && AtStage(s, w, Locked) && row.state == s.rows[s.workers[w].job]
    requires Attempted(row, a, pattern, s.ParentsDone(s.workers[w].job), now, row')
    ensures row.state == Enqueued && InTurn(s, StepsOf(w, a, row), s')
    ensures s'.rows == s.rows[s.workers[w].job := row'.state]
    ensures if Succeeds(a) then AtStage(s', w, Releasing) else w !in s'.workers
  {
    assert WorkerOk(s, w);
    AttemptEnds(row, a, pattern, s.ParentsDone(s.workers[w].job), now, row');
    if a.Performed? {
      s' := StartedSteps(s, w, StepsOf(w, a, row).1, row'.state);
    } else {
      s' := BrokenSteps(s, w, a, StepsOf(w, a, row), row'.state);
    }
  }

  lemma StartedSteps(s: System, w: nat, last: Step, state: State) returns (s': System)
    requires Inv(s) && AtStage(s, w, Locked)
    requires match last
             case FinishDone(v) => v == w && state == Done
             case Fail(v) => v == w && state == State.Failed
             case Postpone(v) => v == w && state == BackTo(s, s.workers[w].job)
             case _ => false
    ensures InTurn(s, (CommitStart(w), last), s') && s'.rows == s.rows[s.workers[w].job := state]
    ensures if last.FinishDone? then AtStage(s', w, Releasing) else w !in s'.workers
  {
    var s1 := After(s, CommitStart(w));
    StartedParents(s, w, s1);
    s' := After(s1, last);
  }

  lemma BrokenSteps(s: System, w: nat, a: Attempt, steps: (Step, Step), state: State) returns (s': System)
    requires Inv(s) && AtStage(s, w, Locked) && !a.Performed?
    requires if a.StartConflict? then steps == (Step.StartConflict(w), WriteConflict(w)) && state == BackTo(s, s.workers[w].job)
             else steps == (StartBroken(w), WriteFailure(w)) && state == State.Failed
    ensures InTurn(s, steps, s') && s'.rows == s.rows[s.workers[w].job := state] && w !in s'.workers
  {
    var s1 := After(s, steps.0);
    OnlyLock(s, w, steps.0, s1);
    s' := After(s1, steps.1);
  }

  /** The worker has the only lock on the row, and has given it up after the first step. */
  lemma OnlyLock(s: System, w: nat, first: Step, s1: System)
    requires Inv(s) && AtStage(s, w, Locked) && Next(s, first, s1)
    requires first in {CommitStart(w), Step.StartConflict(w), StartBroken(w)}
    ensures !s1.IsLocked(s.workers[w].job)
  {
    var j := s.workers[w].job;
    forall v | v in s1.workers ensures s1.workers[v] != Worker(j, Locked) {
      if v != w {
        assert WorkerOk(s, w) && WorkerOk(s, v);
      }
    }
  }

  /** Starting a job does not change whether its parents are done. */
  lemma StartedParents(s: System, w: nat, s1: System)
    requires Inv(s) && AtStage(s, w, Locked) && Next(s, CommitStart(w), s1)
    ensures s1.ParentsDone(s.workers[w].job) <==> s.ParentsDone(s.workers[w].job)
  {
    assert WorkerOk(s, w);
    var j := s.workers[w].job;
    if j in s.deps && j in s.deps[j] {
      assert s.rows[j] != Done && s1.rows[j] != Done;
    } else if j in s.deps {
      assert forall p | p in s.deps[j] :: p in s.rows <==> p in s1.rows;
      assert forall p | p in s.deps[j] && p in s.rows :: s1.rows[p] == s.rows[p];
    }
  }
}
