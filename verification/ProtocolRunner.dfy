/**
  What the runner writes to the table of jobs is what the steps of the dispatch protocol make of
  the states of the rows.
 */
module ProtocolRunners {
  import opened Prelude
  import opened ChannelJobs
  import opened JobStates
  import opened Jobs
  import opened Runners
  import opened Protocol

  function StatesOf(rows: map<string, JobData>): map<string, State> {
    map u | u in rows :: rows[u].row.state
  }

  /** The runner picks and marks these jobs, one after the other, and nobody else moves. */
  ghost predicate MarkedInTurn(s: System, uuids: seq<string>, s': System)
    decreases |uuids|
  {
    if uuids == [] then s' == s
    else
      && Enabled(s, Pick(uuids[0]))
      && var picked := After(s, Pick(uuids[0]));
         Enabled(picked, Mark) && MarkedInTurn(After(picked, Mark), uuids[1..], s')
  }

  /** The runner has dealt with all notifications, and has these jobs in its queues. */
  predicate CanSend(s: System, uuids: seq<string>) {
    && s.dispatch.Idle? && s.hand == []
    && (forall i, k | 0 <= i < k < |uuids| :: uuids[i] != uuids[k])
    && (forall u | u in uuids :: u in s.rows && InQueue(s, u) && !s.IsLocked(u))
  }

  lemma {:induction false} MarksEnqueue(s: System, uuids: seq<string>) returns (s': System)
    requires CanSend(s, uuids)
    ensures MarkedInTurn(s, uuids, s') && s'.rows.Keys == s.rows.Keys
    ensures forall u | u in s.rows :: s'.rows[u] == if u in uuids then Enqueued else s.rows[u]
    decreases |uuids|
  {
    if uuids == [] {
      s' := s;
    } else {
      var s1 := After(After(s, Pick(uuids[0])), Mark);
      MarkOne(s, uuids, s1);
      s' := MarksEnqueue(s1, uuids[1..]);
      assert forall u :: u in uuids <==> u == uuids[0] || u in uuids[1..];
    }
  }

  lemma MarkOne(s: System, uuids: seq<string>, s1: System)
    requires CanSend(s, uuids) && uuids != []
    requires Enabled(s, Pick(uuids[0])) && Enabled(After(s, Pick(uuids[0])), Mark) && s1 == After(After(s, Pick(uuids[0])), Mark)
    ensures CanSend(s1, uuids[1..]) && s1.rows == s.rows[uuids[0] := Enqueued]
  {
    forall u | u in uuids[1..] ensures u in s1.rows && InQueue(s1, u) && !s1.IsLocked(u) {
      var i :| 0 <= i < |uuids[1..]| && uuids[1..][i] == u;
      assert uuids[i + 1] == u && u != uuids[0];
    }
  }

  function InOrder(jobs: seq<ChannelJob>): seq<string> {
    seq(|jobs|, i requires 0 <= i < |jobs| => jobs[i].uuid)
  }

  /** Sending the jobs that the root yields is marking each of them in turn. */
  lemma SendingIsMarking(s: System, rows: map<string, JobData>, jobs: seq<ChannelJob>, now: Time, rows': map<string, JobData>)
    returns (s': System)
    requires s.rows == StatesOf(rows) && rows'.Keys == rows.Keys
    requires forall u | u in rows :: IsEnqueuedRow(jobs, u, rows[u], now, rows'[u])
    requires CanSend(s, InOrder(jobs))
    ensures MarkedInTurn(s, InOrder(jobs), s')
    ensures s'.rows == StatesOf(rows')
  {
    var uuids := InOrder(jobs);
    s' := MarksEnqueue(s, uuids);
    forall u | u in rows ensures s'.rows[u] == rows'[u].row.state {
      assert IsEnqueuedRow(jobs, u, rows[u], now, rows'[u]);
      if u in uuids {
        var i :| 0 <= i < |uuids| && uuids[i] == u;
        assert jobs[i] in jobs && jobs[i].uuid == u;
      } else {
        assert forall i | 0 <= i < |jobs| :: uuids[i] == jobs[i].uuid;
      }
    }
  }

  /** A client that times out takes a row back as the protocol does, unless a worker has it locked. */
  lemma TakingBackIsTimeOut(s: System, rows: map<string, JobData>, u: string, rows': map<string, JobData>)
    requires s.rows == StatesOf(rows) && At(s.clients, u) > 0 && !s.IsLocked(u)
    requires rows' == if u in rows && rows[u].row.state == Enqueued then
                       rows[u := rows[u].(row := rows[u].row.(state := State.Pending, dateEnqueued := None, dateStarted := None))]
                     else rows
    ensures Enabled(s, TimeOut(u)) && After(s, TimeOut(u)).rows == StatesOf(rows')
  {
  }
}
