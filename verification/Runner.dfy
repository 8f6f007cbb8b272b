/**
  The job runner: reads the rows it was notified about, sends the jobs that can run, and decides
  how long to sleep.
 */
module Runners {
  import opened Prelude
  import opened ChannelJobs
  import opened JobStates
  import opened Jobs
  import opened SchedulerSpec
  import opened ChannelIndex
  import opened SchedulerWakeup
  import opened SchedulerRuns
  import opened SchedulerMeaning
  import SchedulerLimits
  import opened Notifications
  import opened ManagerRuns
  import opened ChannelManagers

  const SELECT_TIMEOUT: Time := 60.0

  /** What the runner reads of a row. */
  datatype JobData = JobData(channel: Option<string>, key: Key, eta: Option<Time>, row: Row)

  /** The table of jobs of one database. */
  class JobTable {
    const dbName: string
    var rows: map<string, JobData>

    constructor (dbName: string)
      ensures this.dbName == dbName && rows == map[]
    {
      this.dbName, rows := dbName, map[];
    }

    /** The update does not look at the state of the row. */
    method SetJobEnqueued(uuid: string, now: Time)
      modifies this
      ensures rows == if uuid !in old(rows) then old(rows)
                      else var d := old(rows)[uuid];
                        old(rows)[uuid := d.(row := d.row.(state := Enqueued, dateEnqueued := Some(now)))]
    {
      if uuid in rows {
        rows := rows[uuid := Sent(rows[uuid], now)];
      }
    }

    method SendAll(jobs: seq<ChannelJob>, now: Time)
      modifies this
      ensures rows == AllSent(old(rows), Uuids(jobs), now)
    {
      ghost var before := rows;
      assert AllSent(before, Uuids(jobs[..0]), now) == before;
      for i := 0 to |jobs|
        invariant rows == AllSent(before, Uuids(jobs[..i]), now)
      {
        AllSentNext(before, jobs, i, now);
        SetJobEnqueued(jobs[i].uuid, now);
      }
      assert jobs[..|jobs|] == jobs;
    }

    /** The update of a client that has timed out: only rows that are still enqueued go back. */
    method SetJobPending(uuid: string)
      modifies this
      ensures rows == if uuid !in old(rows) || old(rows)[uuid].row.state != Enqueued then old(rows)
                      else var d := old(rows)[uuid];
                        old(rows)[uuid := d.(row := d.row.(state := State.Pending, dateEnqueued := None, dateStarted := None))]
    {
      if uuid in rows && rows[uuid].row.state == Enqueued {
        rows := rows[uuid := TakenBack(rows[uuid])];
      }
    }
  }

  function Sent(d: JobData, now: Time): JobData {
    d.(row := d.row.(state := Enqueued, dateEnqueued := Some(now)))
  }

  function TakenBack(d: JobData): JobData {
    d.(row := d.row.(state := State.Pending, dateEnqueued := None, dateStarted := None))
  }

  function Uuids(jobs: seq<ChannelJob>): set<string> {
    set i | 0 <= i < |jobs| :: jobs[i].uuid
  }

  /** The table with the rows of these jobs sent. */
  function AllSent(rows: map<string, JobData>, uuids: set<string>, now: Time): map<string, JobData> {
    map u | u in rows :: if u in uuids then Sent(rows[u], now) else rows[u]
  }

  /** The rows of the jobs that the root yields are sent, and no others. */
  ghost predicate IsSent(rows: map<string, JobData>, y: Flow, now: Time, rows': map<string, JobData>) {
    ROOT in y && rows' == AllSent(rows, Uuids(y[ROOT]), now)
  }

  /** A row is enqueued at `now` if its job is among these, and nothing else changes. */
  ghost predicate IsEnqueuedRow(jobs: seq<ChannelJob>, u: string, d: JobData, now: Time, d': JobData) {
    if exists j | j in jobs :: j.uuid == u then
      && d'.row.state == Enqueued && d'.row.dateEnqueued == Some(now)
      && d'.row.(state := d.row.state, dateEnqueued := d.row.dateEnqueued) == d.row && d'.(row := d.row) == d
    else
      d' == d
  }

  lemma SentRows(rows: map<string, JobData>, y: Flow, now: Time, rows': map<string, JobData>)
    requires IsSent(rows, y, now, rows')
    ensures rows'.Keys == rows.Keys && forall u | u in rows :: IsEnqueuedRow(y[ROOT], u, rows[u], now, rows'[u])
  {
    var jobs := y[ROOT];
    forall u | u in rows ensures IsEnqueuedRow(y[ROOT], u, rows[u], now, rows'[u]) {
      if j :| j in jobs && j.uuid == u {
        var i :| 0 <= i < |jobs| && jobs[i] == j;
        assert jobs[i].uuid in Uuids(jobs);
      }
    }
  }

  lemma AllSentNext(rows: map<string, JobData>, jobs: seq<ChannelJob>, i: nat, now: Time)
    requires i < |jobs|
    ensures var before, u := AllSent(rows, Uuids(jobs[..i]), now), jobs[i].uuid;
            AllSent(rows, Uuids(jobs[..i + 1]), now) == if u in before then before[u := Sent(before[u], now)] else before
  {
    assert jobs[..i + 1] == jobs[..i] + [jobs[i]];
    assert Uuids(jobs[..i + 1]) == Uuids(jobs[..i]) + {jobs[i].uuid};
  }

  class QueueJobRunner {
    const manager: ChannelManager
    const table: JobTable

    constructor (manager: ChannelManager, table: JobTable)
      ensures this.manager == manager && this.table == table
    {
      this.manager, this.table := manager, table;
    }

    /** Sends all jobs that can run: exactly their rows become enqueued. */
    method RunJobs(now: Time) returns (ghost y: Flow)
      requires manager.Valid()
      modifies table, manager.world.all`running, manager.world.all`pauseUntil, manager.world.Queues()`waiting,
               manager.world.Heaps(), manager.world.jobs
      ensures unchanged(manager)
      ensures manager.Valid()
      ensures Pass(old(manager.Tree()), now, y, manager.Tree())
      ensures IsSent(old(table.rows), y, now, table.rows)
      ensures ROOT in y && table.rows.Keys == old(table.rows).Keys
      ensures forall u | u in table.rows :: IsEnqueuedRow(y[ROOT], u, old(table.rows)[u], now, table.rows[u])
    {
      ghost var rows := table.rows;
      y := SendReady(now);
      SentRows(rows, y, now, table.rows);
    }

    method SendReady(now: Time) returns (ghost y: Flow)
      requires manager.Valid()
      modifies table, manager.world.all`running, manager.world.all`pauseUntil, manager.world.Queues()`waiting,
               manager.world.Heaps(), manager.world.jobs
      ensures unchanged(manager)
      ensures manager.Valid()
      ensures Pass(old(manager.Tree()), now, y, manager.Tree())
      ensures IsSent(old(table.rows), y, now, table.rows)
    {
      var jobs;
      jobs, y := manager.GetJobsToRun(now);
      SendJobs(jobs, now);
    }

    method SendJobs(jobs: seq<ChannelJob>, now: Time)
      requires manager.Valid()
      modifies table
      ensures unchanged(manager)
      ensures manager.Valid() && manager.Tree() == old(manager.Tree())
      ensures table.rows == AllSent(old(table.rows), Uuids(jobs), now)
    {
      table.SendAll(jobs, now);
      manager.Untouched();
    }

    /** Seconds to wait for a notification. */
    method Timeout(now: Time) returns (timeout: Time)
      requires manager.Valid()
      modifies manager.world.Heaps()
      ensures unchanged(manager)
      ensures manager.Valid() && manager.Tree() == old(manager.Tree())
      ensures unchanged(table)
      ensures timeout == var w := Wakeup(manager.Tree(), ROOT, 0.0); if w == 0.0 then 60.0 else w - now
    {
      var wakeup := AskWakeup();
      timeout := if wakeup == 0.0 then SELECT_TIMEOUT else wakeup - now;
    }

    method AskWakeup() returns (wakeup: Time)
      requires manager.Valid()
      modifies manager.world.Heaps()
      ensures unchanged(manager) && unchanged(table)
      ensures manager.Valid() && manager.Tree() == old(manager.Tree()) && wakeup == Wakeup(manager.Tree(), ROOT, 0.0)
    {
      wakeup := manager.GetWakeupTime();
    }

    /**
      The runner does not spin: having sent the jobs that could run at `now`, it sleeps until some
      time after `now`, and it does not sleep only if that time has come at `later` already.
     */
    method RunAndWait(now: Time, later: Time) returns (timeout: Time, ghost y: Flow)
      requires manager.Valid() && AllThrottleOk(manager.Tree()) && EtasSet(manager.Tree()) && 0.0 <= now <= later
      modifies table, manager.world.all`running, manager.world.all`pauseUntil, manager.world.Queues()`waiting,
               manager.world.Heaps(), manager.world.jobs
      ensures unchanged(manager)
      ensures manager.Valid() && later + timeout > now
      ensures Pass(old(manager.Tree()), now, y, manager.Tree())
      ensures IsSent(old(table.rows), y, now, table.rows)
    {
      ghost var f := manager.Tree();
      y := RunJobs(now);
      timeout := WaitAfter(now, later, f, y, manager.Tree());
    }

    method WaitAfter(now: Time, later: Time, ghost f: Sched, ghost y: Flow, ghost g: Sched) returns (timeout: Time)
      requires WellFormed(f) && AllThrottleOk(f) && EtasSet(f) && 0.0 <= now <= later && Pass(f, now, y, g)
      requires manager.Valid() && manager.Tree() == g
      modifies manager.world.Heaps()
      ensures unchanged(manager)
      ensures manager.Valid() && manager.Tree() == g && Pass(f, now, y, g) && later + timeout > now && unchanged(table)
    {
      WakeupMakesProgress(f, now, y, g);
      timeout := Timeout(later);
    }

    /**
      Reads the row that a notification is about, and tells the channels: the job takes its place
      and moves as the row says, or leaves all channels when there is no row. The ghost result is
      the tree once the channel of the job exists.
     */
    method ProcessNotification(uuid: string) returns (ok: bool, ghost f: Sched)
      requires manager.Valid()
      modifies manager`jobsByUuid, manager`channelsByName, manager`world
      modifies manager.world.all`children, manager.world.all`running, manager.world.all`failed,
               manager.world.Queues()`waiting, manager.world.Heaps()
      ensures unchanged(table)
      ensures manager.Valid()
      ensures f == if uuid in table.rows then LookedUpBy(old(manager.Tree()), table.rows[uuid].channel) else old(manager.Tree())
      ensures ok <==> uuid in table.rows && uuid in old(manager.jobsByUuid) ==>
                         IsRowOf(table.dbName, table.rows[uuid], old(manager.jobsByUuid)[uuid])
      ensures NewAreFresh(old(manager.world), manager.world)
      ensures ok && uuid in table.rows ==> uuid in manager.jobsByUuid && manager.jobsByUuid[uuid].dbName == table.dbName
      ensures ok ==> IsRead(table.rows, old(manager.Tree()), old(manager.jobsByUuid), uuid, f, manager.Tree(), manager.jobsByUuid)
      ensures !ok ==> manager.Tree() == f && manager.jobsByUuid == old(manager.jobsByUuid)
    {
      if uuid !in table.rows {
        f := manager.Tree();
        ForgetRow(uuid);
        return true, f;
      }
      ok, f := NotifyRow(uuid, table.rows[uuid]);
    }

    method ForgetRow(uuid: string)
      requires manager.Valid() && uuid !in table.rows
      modifies manager`jobsByUuid, manager.world.all`running, manager.world.all`failed,
               manager.world.Queues()`waiting, manager.world.Heaps()`removed
      ensures unchanged(table)
      ensures manager.Valid()
      ensures IsRead(table.rows, old(manager.Tree()), old(manager.jobsByUuid), uuid, old(manager.Tree()), manager.Tree(), manager.jobsByUuid)
    {
      manager.RemoveJob(uuid);
    }

    method NotifyRow(uuid: string, d: JobData) returns (ok: bool, ghost f: Sched)
      requires manager.Valid() && uuid in table.rows && d == table.rows[uuid]
      modifies manager`jobsByUuid, manager`channelsByName, manager`world
      modifies manager.world.all`children, manager.world.all`running, manager.world.all`failed,
               manager.world.Queues()`waiting, manager.world.Heaps()
      ensures unchanged(table)
      ensures manager.Valid() && NewAreFresh(old(manager.world), manager.world)
      ensures f == LookedUpBy(old(manager.Tree()), d.channel)
      ensures ok <==> uuid in old(manager.jobsByUuid) ==> IsRowOf(table.dbName, d, old(manager.jobsByUuid)[uuid])
      ensures ok ==> uuid in manager.jobsByUuid && manager.jobsByUuid[uuid].dbName == table.dbName
      ensures ok ==> IsRead(table.rows, old(manager.Tree()), old(manager.jobsByUuid), uuid, f, manager.Tree(), manager.jobsByUuid)
      ensures !ok ==> manager.Tree() == f && manager.jobsByUuid == old(manager.jobsByUuid)
    {
      ghost var target;
      ok, target, f := manager.Notify(table.dbName, d.channel, uuid, d.key, d.eta, Some(d.row.state));
    }

    /** The channels show all rows in `seen`, and jobs of rows in `held` are queued with the eta of the row only. */
    ghost predicate ShowsAll(seen: set<string>, held: set<string>)
      requires manager.world.Shape()
      reads this, table, manager, manager.world.all, manager.world.Queues(), manager.world.Heaps()
    {
      && AreSeen(table.rows, manager.Tree(), manager.jobsByUuid, seen)
      && AreAwaited(table.rows, manager.Tree(), manager.jobsByUuid, held)
    }

    ghost predicate KnownMatch()
      reads this, table, manager
    {
      Matches(table.dbName, table.rows, manager.jobsByUuid)
    }

    /**
      Deals with one notification; what the channels showed of other rows, they still show. The ghost
      result is what this means for the channels, as a run.
     */
    method ReadRow(uuid: string, ghost seen: set<string>, ghost held: set<string>) returns (ok: bool, ghost t: Trace)
      requires manager.Valid() && ShowsAll(seen, held)
      modifies manager`jobsByUuid, manager`channelsByName, manager`world
      modifies manager.world.all`children, manager.world.all`running, manager.world.all`failed,
               manager.world.Queues()`waiting, manager.world.Heaps()
      ensures unchanged(table)
      ensures manager.Valid() && NewAreFresh(old(manager.world), manager.world)
      ensures ok ==> ShowsAll(seen + {uuid}, held)
      ensures old(KnownMatch()) ==> ok && KnownMatch()
      ensures Quietly(t, old(manager.Tree()), manager.Tree(), AreEtas(table.rows))
    {
      ghost var f0, jobs0, f := manager.Tree(), manager.jobsByUuid, manager.Tree();
      ok, f := ProcessNotification(uuid);
      if Matches(table.dbName, table.rows, jobs0) {
        ReadMatches(table.dbName, table.rows, jobs0, uuid, manager.jobsByUuid);
      }
      if ok {
        ReadKeepsAll(table.rows, f0, jobs0, uuid, f, manager.Tree(), manager.jobsByUuid, seen, held);
        t := ReadTrace(table.rows, f0, jobs0, uuid, f, manager.Tree(), manager.jobsByUuid);
      } else {
        t := LookupTrace(f0, table.rows[uuid].channel);
      }
    }

    /**
      Reads the rows that there are notifications about, the last one first. When there is no error,
      the channels show all these rows; there is none if the jobs known before match the rows.
     */
    method ProcessNotifications(notifies: seq<string>, ghost held: set<string>) returns (ok: bool, ghost t: Trace)
      requires manager.Valid() && ShowsAll({}, held)
      modifies manager`jobsByUuid, manager`channelsByName, manager`world
      modifies manager.world.all`children, manager.world.all`running, manager.world.all`failed,
               manager.world.Queues()`waiting, manager.world.Heaps()
      ensures unchanged(table)
      ensures manager.Valid() && NewAreFresh(old(manager.world), manager.world)
      ensures ok ==> ShowsAll(Between(notifies, 0, |notifies|), held)
      ensures ok ==> forall u | u in notifies && u in table.rows && table.rows[u].row.state == State.Pending ::
                && u in manager.jobsByUuid && manager.jobsByUuid[u].channel in manager.Tree()
                && var j, eta := manager.jobsByUuid[u], table.rows[u].eta;
                   var n := manager.Tree()[j.channel];
                   if eta.Some? then j in n.waiting && n.waiting[j] == eta.value else j in n.ready
      ensures old(KnownMatch()) ==> ok && KnownMatch()
      ensures Quietly(t, old(manager.Tree()), manager.Tree(), AreEtas(table.rows))
    {
      ok, t := ReadBackwards(notifies, held);
      if ok {
        PendingInPlace(table.rows, manager.Tree(), manager.jobsByUuid, notifies);
      }
    }

    method ReadBackwards(notifies: seq<string>, ghost held: set<string>) returns (ok: bool, ghost t: Trace)
      requires manager.Valid() && ShowsAll({}, held)
      modifies manager`jobsByUuid, manager`channelsByName, manager`world
      modifies manager.world.all`children, manager.world.all`running, manager.world.all`failed,
               manager.world.Queues()`waiting, manager.world.Heaps()
      ensures unchanged(table)
      ensures manager.Valid() && NewAreFresh(old(manager.world), manager.world)
      ensures ok ==> ShowsAll(Between(notifies, 0, |notifies|), held)
      ensures old(KnownMatch()) ==> ok && KnownMatch()
      ensures Quietly(t, old(manager.Tree()), manager.Tree(), AreEtas(table.rows))
    {
      var left := |notifies|;
      ok, t := true, Empty(manager.Tree());
      assert ShowsAll(Between(notifies, left, left), held);
      while ok && left > 0
        invariant 0 <= left <= |notifies|
        invariant unchanged(table) && manager.Valid() && NewAreFresh(old(manager.world), manager.world)
        invariant ok ==> ShowsAll(Between(notifies, left, |notifies|), held)
        invariant old(KnownMatch()) ==> ok && KnownMatch()
        invariant Quietly(t, old(manager.Tree()), manager.Tree(), AreEtas(table.rows))
        decreases left
      {
        left := left - 1;
        ok, t := ReadAfter(notifies[left], Between(notifies, left + 1, |notifies|), held, t, old(manager.Tree()));
        BetweenFirst(notifies, left, |notifies|);
      }
    }

    /** The same, with the run so far. */
    method ReadAfter(uuid: string, ghost seen: set<string>, ghost held: set<string>, ghost before: Trace, ghost f: Sched) returns (ok: bool, ghost t: Trace)
      requires manager.Valid() && ShowsAll(seen, held)
      requires Quietly(before, f, manager.Tree(), AreEtas(table.rows))
      modifies manager`jobsByUuid, manager`channelsByName, manager`world
      modifies manager.world.all`children, manager.world.all`running, manager.world.all`failed,
               manager.world.Queues()`waiting, manager.world.Heaps()
      ensures unchanged(table)
      ensures manager.Valid() && NewAreFresh(old(manager.world), manager.world)
      ensures ok ==> ShowsAll(seen + {uuid}, held)
      ensures old(KnownMatch()) ==> ok && KnownMatch()
      ensures Quietly(t, f, manager.Tree(), AreEtas(table.rows))
    {
      ghost var g, u := manager.Tree(), before;
      ok, u := ReadRow(uuid, seen, held);
      QuietlyOn(before, u, f, g, manager.Tree(), AreEtas(table.rows));
      t := Then(before, u);
    }

    /** Reads all rows that are neither done nor cancelled, in the order in which the database has them. */
    method InitializeDatabase(uuids: seq<string>, ghost held: set<string>) returns (ok: bool, ghost t: Trace)
      requires manager.Valid() && ShowsAll({}, held)
      requires forall u :: u in uuids <==> u in table.rows && table.rows[u].row.state != Done && table.rows[u].row.state != Cancelled
      modifies manager`jobsByUuid, manager`channelsByName, manager`world
      modifies manager.world.all`children, manager.world.all`running, manager.world.all`failed,
               manager.world.Queues()`waiting, manager.world.Heaps()
      ensures unchanged(table)
      ensures manager.Valid() && NewAreFresh(old(manager.world), manager.world)
      ensures ok ==> ShowsAll(NotDone(table.rows), held)
      ensures ok ==> forall u | u in table.rows && table.rows[u].row.state == State.Pending ::
                && u in manager.jobsByUuid && manager.jobsByUuid[u].channel in manager.Tree()
                && var j, eta := manager.jobsByUuid[u], table.rows[u].eta;
                   var n := manager.Tree()[j.channel];
                   if eta.Some? then j in n.waiting && n.waiting[j] == eta.value else j in n.ready
      ensures old(KnownMatch()) ==> ok && KnownMatch()
      ensures Quietly(t, old(manager.Tree()), manager.Tree(), AreEtas(table.rows))
    {
      AllNotDone(table.rows, uuids);
      ok, t := ReadRows(uuids, held);
      if ok {
        AllPendingInPlace(table.rows, manager.Tree(), manager.jobsByUuid);
      }
    }

    method ReadRows(uuids: seq<string>, ghost held: set<string>) returns (ok: bool, ghost t: Trace)
      requires manager.Valid() && ShowsAll({}, held)
      modifies manager`jobsByUuid, manager`channelsByName, manager`world
      modifies manager.world.all`children, manager.world.all`running, manager.world.all`failed,
               manager.world.Queues()`waiting, manager.world.Heaps()
      ensures unchanged(table)
      ensures manager.Valid() && NewAreFresh(old(manager.world), manager.world)
      ensures ok ==> ShowsAll(Between(uuids, 0, |uuids|), held)
      ensures old(KnownMatch()) ==> ok && KnownMatch()
      ensures Quietly(t, old(manager.Tree()), manager.Tree(), AreEtas(table.rows))
    {
      ok, t := true, Empty(manager.Tree());
      var i := 0;
      assert ShowsAll(Between(uuids, 0, 0), held);
      while ok && i < |uuids|
        invariant 0 <= i <= |uuids|
        invariant unchanged(table) && manager.Valid() && NewAreFresh(old(manager.world), manager.world)
        invariant ok ==> ShowsAll(Between(uuids, 0, i), held)
        invariant old(KnownMatch()) ==> ok && KnownMatch()
        invariant Quietly(t, old(manager.Tree()), manager.Tree(), AreEtas(table.rows))
        decreases |uuids| - i
      {
        ok, i, t := ReadAt(uuids, i, held, t, old(manager.Tree()));
      }
    }

    method ReadAt(uuids: seq<string>, i: nat, ghost held: set<string>, ghost before: Trace, ghost f: Sched)
      returns (ok: bool, next: nat, ghost t: Trace)
      requires manager.Valid() && i < |uuids| && ShowsAll(Between(uuids, 0, i), held)
      requires Quietly(before, f, manager.Tree(), AreEtas(table.rows))
      modifies manager`jobsByUuid, manager`channelsByName, manager`world
      modifies manager.world.all`children, manager.world.all`running, manager.world.all`failed,
               manager.world.Queues()`waiting, manager.world.Heaps()
      ensures unchanged(table)
      ensures manager.Valid() && NewAreFresh(old(manager.world), manager.world)
      ensures next == i + 1 && (ok ==> ShowsAll(Between(uuids, 0, next), held))
      ensures old(KnownMatch()) ==> ok && KnownMatch()
      ensures Quietly(t, f, manager.Tree(), AreEtas(table.rows))
    {
      BetweenLast(uuids, 0, i);
      ok, t := ReadAfter(uuids[i], Between(uuids, 0, i), held, before, f);
      next := i + 1;
    }

    // ---------- the loop of the runner ----------

    /** The rows as others have left them. */
    method Refresh(rows: map<string, JobData>)
      requires manager.Valid()
      modifies table
      ensures unchanged(manager)
      ensures manager.Valid() && manager.Tree() == old(manager.Tree()) && table.rows == rows
    {
      table.rows := rows;
      manager.Untouched();
    }

    /**
      Deals with the notifications, sends the jobs that can run, and decides how long to sleep. If there
      are notifications about all rows that have changed, no job is sent before the eta of its row: the
      rows with a later eta stay as they are. The ghost parameters are the run so far, the times of its
      polls, and the time of the last one.
     */
    method RunRound(r: Round, ghost t: Trace, ghost f: Sched, ghost times: seq<Time>, ghost last: Time)
      returns (ok: bool, timeout: Time, ghost t': Trace)
      requires manager.Valid() && AllThrottleOk(manager.Tree()) && EtasSet(manager.Tree()) && IsRound(r)
      requires IsTrace(t, f, manager.Tree()) && PollsAt(t.es, times)
      modifies table, manager`jobsByUuid, manager`channelsByName, manager`world
      modifies manager.world.all`children, manager.world.all`running, manager.world.all`failed, manager.world.all`pauseUntil,
               manager.world.Queues()`waiting, manager.world.Heaps(), manager.world.jobs
      ensures manager.Valid() && NewAreFresh(old(manager.world), manager.world)
      ensures IsTrace(t', f, manager.Tree()) && PollsAt(t'.es, if ok then times + [r.now] else times)
      ensures AllThrottleOk(manager.Tree()) && EtasSet(manager.Tree())
      ensures ok ==> r.later + timeout > r.now
      ensures ok && last <= r.now && old(AllAwaited(last)) && IsAnnounced(old(table.rows), r) ==> AllAwaited(r.now)
      ensures ok && last <= r.now && old(AllAwaited(last)) && IsAnnounced(old(table.rows), r) ==>
                forall u | u in r.rows && r.rows[u].eta.Some? && r.rows[u].eta.value > r.now ::
                  u in table.rows && table.rows[u] == r.rows[u]
    {
      ghost var before, g, jobs := table.rows, manager.Tree(), manager.jobsByUuid;
      Refresh(r.rows);
      ghost var held := Awaited(r.rows, g, jobs);
      ghost var kept := Between(r.notifies, 0, |r.notifies|) + held;
      ok, t' := ReadAll(r.notifies, held, t, f, times);
      timeout, t' := DispatchIf(ok, r.now, r.later, kept, t', f, times);
      if ok && last <= r.now && AreAllAwaited(before, g, jobs, last) && IsAnnounced(before, r) {
        AnnouncedAreKept(before, g, jobs, last, r);
        KeptAreAwaited(r, kept, table.rows, manager.Tree(), manager.jobsByUuid);
      }
    }

    /** The jobs of all rows with an eta after `last` are queued with this eta, if at all. */
    ghost predicate AllAwaited(last: Time)
      requires manager.world.Shape()
      reads this, table, manager, manager.world.all, manager.world.Queues(), manager.world.Heaps()
    {
      AreAllAwaited(table.rows, manager.Tree(), manager.jobsByUuid, last)
    }

    method DispatchIf(go: bool, now: Time, later: Time, ghost kept: set<string>,
                      ghost t: Trace, ghost f: Sched, ghost times: seq<Time>)
      returns (timeout: Time, ghost t': Trace)
      requires manager.Valid() && AllThrottleOk(manager.Tree()) && EtasSet(manager.Tree()) && 0.0 <= now <= later
      requires IsTrace(t, f, manager.Tree()) && PollsAt(t.es, times)
      requires go ==> AreAwaited(table.rows, manager.Tree(), manager.jobsByUuid, kept)
      modifies table, manager.world.all`running, manager.world.all`pauseUntil, manager.world.Queues()`waiting,
               manager.world.Heaps(), manager.world.jobs
      ensures unchanged(manager)
      ensures manager.Valid() && (go ==> later + timeout > now)
      ensures go ==> AreKeptBack(old(table.rows), now, table.rows, manager.Tree(), manager.jobsByUuid, kept)
      ensures IsTrace(t', f, manager.Tree()) && PollsAt(t'.es, if go then times + [now] else times)
      ensures AllThrottleOk(manager.Tree()) && EtasSet(manager.Tree())
    {
      if !go {
        return 0.0, t;
      }
      timeout, t' := Dispatch(now, later, kept, t, f, times);
    }

    /** The notifications, as part of the run. */
    method ReadAll(notifies: seq<string>, ghost held: set<string>, ghost t: Trace, ghost f: Sched, ghost times: seq<Time>)
      returns (ok: bool, ghost t': Trace)
      requires manager.Valid() && AllThrottleOk(manager.Tree()) && EtasSet(manager.Tree()) && AreEtas(table.rows)
      requires IsTrace(t, f, manager.Tree()) && PollsAt(t.es, times) && ShowsAll({}, held)
      modifies manager`jobsByUuid, manager`channelsByName, manager`world
      modifies manager.world.all`children, manager.world.all`running, manager.world.all`failed,
               manager.world.Queues()`waiting, manager.world.Heaps()
      ensures unchanged(table)
      ensures manager.Valid() && NewAreFresh(old(manager.world), manager.world)
      ensures ok ==> AreAwaited(table.rows, manager.Tree(), manager.jobsByUuid, Between(notifies, 0, |notifies|) + held)
      ensures IsTrace(t', f, manager.Tree()) && PollsAt(t'.es, times)
      ensures AllThrottleOk(manager.Tree()) && EtasSet(manager.Tree())
    {
      ghost var g, u := manager.Tree(), t;
      ok, u := ProcessNotifications(notifies, held);
      GoOnQuietly(t, u, f, g, manager.Tree(), times);
      QuietSound(u, g, manager.Tree());
      t' := ManagerRuns.Then(t, u);
      if ok {
        SeenAreAwaited(table.rows, manager.Tree(), manager.jobsByUuid, Between(notifies, 0, |notifies|), held);
      }
    }

    /** The poll, as part of the run. */
    method Dispatch(now: Time, later: Time, ghost kept: set<string>, ghost t: Trace, ghost f: Sched, ghost times: seq<Time>)
      returns (timeout: Time, ghost t': Trace)
      requires manager.Valid() && AllThrottleOk(manager.Tree()) && EtasSet(manager.Tree()) && 0.0 <= now <= later
      requires IsTrace(t, f, manager.Tree()) && PollsAt(t.es, times)
      requires AreAwaited(table.rows, manager.Tree(), manager.jobsByUuid, kept)
      modifies table, manager.world.all`running, manager.world.all`pauseUntil, manager.world.Queues()`waiting,
               manager.world.Heaps(), manager.world.jobs
      ensures unchanged(manager)
      ensures manager.Valid() && later + timeout > now
      ensures AreKeptBack(old(table.rows), now, table.rows, manager.Tree(), manager.jobsByUuid, kept)
      ensures IsTrace(t', f, manager.Tree()) && PollsAt(t'.es, times + [now])
      ensures AllThrottleOk(manager.Tree()) && EtasSet(manager.Tree())
    {
      ghost var g, y, rows := manager.Tree(), map[], table.rows;
      timeout, y := RunAndWait(now, later);
      GoOnPolling(t, f, g, now, y, manager.Tree(), times);
      PollSound(g, now, y, manager.Tree());
      PollKeepsBack(rows, g, manager.jobsByUuid, now, y, manager.Tree(), table.rows, kept);
      t' := ManagerRuns.Then(t, One(g, Poll(now, y), manager.Tree()));
    }

    /**
      The loop of the runner, until an error. Whatever happens to the rows in between, the channels go
      through one run of the scheduler: it polls once a round, its clock does not go back, and its etas are set.
      If the changes of rows are announced, no job is sent before the eta of its row. The last ghost result
      has the rows at the start, and as each round leaves them.
     */
    method RunRounds(rounds: seq<Round>, ghost last: Time) returns (n: nat, ghost t: Trace, ghost tables: seq<map<string, JobData>>)
      requires manager.Valid() && AllThrottleOk(manager.Tree()) && EtasSet(manager.Tree())
      requires IsClock(Times(rounds)) && forall i | 0 <= i < |rounds| :: IsRound(rounds[i])
      modifies table, manager`jobsByUuid, manager`channelsByName, manager`world
      modifies manager.world.all`children, manager.world.all`running, manager.world.all`failed, manager.world.all`pauseUntil,
               manager.world.Queues()`waiting, manager.world.Heaps(), manager.world.jobs
      ensures manager.Valid() && n <= |rounds|
      ensures IsTrace(t, old(manager.Tree()), manager.Tree()) && PollsAt(t.es, Times(rounds[..n]))
      ensures SchedulerLimits.ClockRuns(t.es) && forall i | 0 <= i < |t.es| :: Proper(t.es[i])
      ensures |tables| == n + 1 && tables[0] == old(table.rows) && (n == |rounds| ==> tables[n] == table.rows)
      ensures old(AllAwaited(last)) && StartsAfter(rounds, last) && AllAnnounced(rounds, tables, n) ==>
                forall i, u | 0 <= i < n && u in rounds[i].rows && rounds[i].rows[u].eta.Some? && rounds[i].rows[u].eta.value > rounds[i].now ::
                  u in tables[i + 1] && tables[i + 1][u] == rounds[i].rows[u]
    {
      ghost var fair := AllAwaited(last) && StartsAfter(rounds, last);
      n, t, tables := RunWhileOk(rounds, last, fair);
      TimesClock(rounds, n);
      PollsRun(t.es, Times(rounds[..n]));
    }

    /** The table, and the rows that the rounds have left behind, after `n` rounds. */
    ghost predicate Goes(rounds: seq<Round>, n: nat, last: Time, fair: bool, tables: seq<map<string, JobData>>)
      requires manager.world.Shape()
      reads this, table, manager, manager.world.all, manager.world.Queues(), manager.world.Heaps()
    {
      && n <= |rounds| && |tables| == n + 1 && tables[n] == table.rows
      && (fair && AllAnnounced(rounds, tables, n) ==> AllAwaited(LastOf(rounds, n, last)))
    }

    method RunWhileOk(rounds: seq<Round>, ghost last: Time, ghost fair: bool)
      returns (n: nat, ghost t: Trace, ghost tables: seq<map<string, JobData>>)
      requires manager.Valid() && AllThrottleOk(manager.Tree()) && EtasSet(manager.Tree())
      requires IsClock(Times(rounds)) && forall i | 0 <= i < |rounds| :: IsRound(rounds[i])
      requires fair ==> AllAwaited(last) && StartsAfter(rounds, last)
      modifies table, manager`jobsByUuid, manager`channelsByName, manager`world
      modifies manager.world.all`children, manager.world.all`running, manager.world.all`failed, manager.world.all`pauseUntil,
               manager.world.Queues()`waiting, manager.world.Heaps(), manager.world.jobs
      ensures manager.Valid() && n <= |rounds|
      ensures IsTrace(t, old(manager.Tree()), manager.Tree()) && PollsAt(t.es, Times(rounds[..n]))
      ensures |tables| == n + 1 && tables[0] == old(table.rows) && (n == |rounds| ==> tables[n] == table.rows)
      ensures fair && AllAnnounced(rounds, tables, n) ==> NoneEarly(rounds, tables, n)
    {
      n, t, tables := 0, Empty(manager.Tree()), [table.rows];
      var ok := true;
      while ok && n < |rounds|
        invariant n <= |rounds| && manager.Valid() && NewAreFresh(old(manager.world), manager.world)
        invariant AllThrottleOk(manager.Tree()) && EtasSet(manager.Tree())
        invariant IsTrace(t, old(manager.Tree()), manager.Tree()) && PollsAt(t.es, Times(rounds[..n]))
        invariant Recorded(rounds, n, fair, tables, old(table.rows))
        invariant ok || n == |rounds| ==> Goes(rounds, n, last, fair, tables)
        decreases |rounds| - n, ok
      {
        ok, n, t, tables := RunNext(rounds, n, t, old(manager.Tree()), last, fair, tables, old(table.rows));
      }
    }

    method RunNext(rounds: seq<Round>, n: nat, ghost t: Trace, ghost f: Sched, ghost last: Time, ghost fair: bool,
                   ghost tables: seq<map<string, JobData>>, ghost first: map<string, JobData>)
      returns (ok: bool, n': nat, ghost t': Trace, ghost tables': seq<map<string, JobData>>)
      requires manager.Valid() && AllThrottleOk(manager.Tree()) && EtasSet(manager.Tree())
      requires n < |rounds| && IsRound(rounds[n]) && IsClock(Times(rounds))
      requires IsTrace(t, f, manager.Tree()) && PollsAt(t.es, Times(rounds[..n]))
      requires Goes(rounds, n, last, fair, tables) && Recorded(rounds, n, fair, tables, first) && (fair ==> StartsAfter(rounds, last))
      modifies table, manager`jobsByUuid, manager`channelsByName, manager`world
      modifies manager.world.all`children, manager.world.all`running, manager.world.all`failed, manager.world.all`pauseUntil,
               manager.world.Queues()`waiting, manager.world.Heaps(), manager.world.jobs
      ensures manager.Valid() && NewAreFresh(old(manager.world), manager.world)
      ensures n' == if ok then n + 1 else n
      ensures IsTrace(t', f, manager.Tree()) && PollsAt(t'.es, Times(rounds[..n']))
      ensures AllThrottleOk(manager.Tree()) && EtasSet(manager.Tree())
      ensures Recorded(rounds, n', fair, tables', first) && (ok ==> Goes(rounds, n', last, fair, tables'))
    {
      TimesNext(rounds, n);
      n', tables' := n, tables;
      ok, t' := RunOne(rounds, n, t, f, last, fair, tables, first);
      if ok {
        n', tables' := n + 1, tables + [table.rows];
      }
    }

    lemma GoesOn(rounds: seq<Round>, n: nat, last: Time, fair: bool, tables: seq<map<string, JobData>>,
                 first: map<string, JobData>, awaited: bool, kept: bool)
      requires n < |rounds| && |tables| == n + 1 && IsClock(Times(rounds)) && (fair ==> StartsAfter(rounds, last))
      requires Recorded(rounds, n, fair, tables, first) && (fair && AllAnnounced(rounds, tables, n) ==> awaited)
      requires kept == (LastOf(rounds, n, last) <= rounds[n].now && awaited && IsAnnounced(tables[n], rounds[n]))
      requires manager.world.Shape() && (kept ==> AllAwaited(rounds[n].now) && NotEarly(rounds[n], table.rows))
      ensures Goes(rounds, n + 1, last, fair, tables + [table.rows])
      ensures Recorded(rounds, n + 1, fair, tables + [table.rows], first)
    {
      NextGoes(rounds, n, last, fair, tables, table.rows, awaited, kept, AllAwaited(rounds[n].now));
    }

    /** The round, with what it means for rows with later etas. */
    method RunOne(rounds: seq<Round>, n: nat, ghost t: Trace, ghost f: Sched, ghost last: Time, ghost fair: bool,
                  ghost tables: seq<map<string, JobData>>, ghost first: map<string, JobData>)
      returns (ok: bool, ghost t': Trace)
      requires manager.Valid() && AllThrottleOk(manager.Tree()) && EtasSet(manager.Tree())
      requires n < |rounds| && IsRound(rounds[n]) && IsClock(Times(rounds))
      requires IsTrace(t, f, manager.Tree()) && PollsAt(t.es, Times(rounds[..n]))
      requires Goes(rounds, n, last, fair, tables) && Recorded(rounds, n, fair, tables, first) && (fair ==> StartsAfter(rounds, last))
      modifies table, manager`jobsByUuid, manager`channelsByName, manager`world
      modifies manager.world.all`children, manager.world.all`running, manager.world.all`failed, manager.world.all`pauseUntil,
               manager.world.Queues()`waiting, manager.world.Heaps(), manager.world.jobs
      ensures manager.Valid() && NewAreFresh(old(manager.world), manager.world)
      ensures IsTrace(t', f, manager.Tree()) && PollsAt(t'.es, if ok then Times(rounds[..n]) + [rounds[n].now] else Times(rounds[..n]))
      ensures AllThrottleOk(manager.Tree()) && EtasSet(manager.Tree())
      ensures ok ==> Goes(rounds, n + 1, last, fair, tables + [table.rows])
      ensures ok ==> Recorded(rounds, n + 1, fair, tables + [table.rows], first)
    {
      ghost var awaited := AllAwaited(LastOf(rounds, n, last));
      var timeout;
      ok, timeout, t' := RunRound(rounds[n], t, f, Times(rounds[..n]), LastOf(rounds, n, last));
      if ok {
        ghost var kept := LastOf(rounds, n, last) <= rounds[n].now && awaited && IsAnnounced(tables[n], rounds[n]);
        GoesOn(rounds, n, last, fair, tables, first, awaited, kept);
      }
    }
  }

  /** One turn of the loop: the rows at its start, the notifications, and two readings of the clock. */
  datatype Round = Round(rows: map<string, JobData>, notifies: seq<string>, now: Time, later: Time)

  predicate IsRound(r: Round) {
    AreEtas(r.rows) && 0.0 <= r.now <= r.later
  }

  /** Before each of the first rounds the rows have stayed as the round before left them, or there are notifications. */
  ghost predicate AllAnnounced(rounds: seq<Round>, tables: seq<map<string, JobData>>, n: nat)
    requires n <= |rounds| && |tables| == n + 1
  {
    forall i | 0 <= i < n :: IsAnnounced(tables[i], rounds[i])
  }

  /** No row with an eta after the poll is sent. */
  ghost predicate NotEarly(r: Round, rows: map<string, JobData>) {
    forall u | u in r.rows && r.rows[u].eta.Some? && r.rows[u].eta.value > r.now :: u in rows && rows[u] == r.rows[u]
  }

  ghost predicate NoneEarly(rounds: seq<Round>, tables: seq<map<string, JobData>>, n: nat)
    requires n <= |rounds| && |tables| == n + 1
  {
    forall i | 0 <= i < n :: NotEarly(rounds[i], tables[i + 1])
  }

  ghost predicate Recorded(rounds: seq<Round>, n: nat, fair: bool, tables: seq<map<string, JobData>>, first: map<string, JobData>) {
    && n <= |rounds| && |tables| == n + 1 && tables[0] == first
    && (fair && AllAnnounced(rounds, tables, n) ==> NoneEarly(rounds, tables, n))
  }

  predicate StartsAfter(rounds: seq<Round>, last: Time) {
    rounds != [] ==> last <= rounds[0].now
  }

  /** The time of the last poll before a round. */
  function LastOf(rounds: seq<Round>, n: nat, last: Time): Time
    requires n <= |rounds|
  {
    if n == 0 then last else rounds[n - 1].now
  }

  lemma AnnouncedNext(rounds: seq<Round>, tables: seq<map<string, JobData>>, n: nat, rows: map<string, JobData>, last: Time)
    requires n < |rounds| && |tables| == n + 1 && AllAnnounced(rounds, tables + [rows], n + 1)
    requires IsClock(Times(rounds)) && StartsAfter(rounds, last)
    ensures AllAnnounced(rounds, tables, n) && IsAnnounced(tables[n], rounds[n]) && LastOf(rounds, n, last) <= rounds[n].now
    ensures NoneEarly(rounds, tables, n) && NotEarly(rounds[n], rows) ==> NoneEarly(rounds, tables + [rows], n + 1)
  {
    var all := tables + [rows];
    assert forall i | 0 <= i <= n :: all[i] == tables[i];
    forall i | 0 <= i < n ensures IsAnnounced(tables[i], rounds[i]) {
      assert IsAnnounced(all[i], rounds[i]);
    }
    assert IsAnnounced(all[n], rounds[n]);
    if n > 0 {
      assert Times(rounds)[n - 1] <= Times(rounds)[n];
    }
  }

  lemma NextGoes(rounds: seq<Round>, n: nat, last: Time, fair: bool, tables: seq<map<string, JobData>>, rows: map<string, JobData>,
                 awaited: bool, kept: bool, awaited': bool)
    requires n < |rounds| && |tables| == n + 1 && IsClock(Times(rounds)) && (fair ==> StartsAfter(rounds, last))
    requires fair && AllAnnounced(rounds, tables, n) ==> awaited && NoneEarly(rounds, tables, n)
    requires kept == (LastOf(rounds, n, last) <= rounds[n].now && awaited && IsAnnounced(tables[n], rounds[n]))
    requires kept ==> awaited' && NotEarly(rounds[n], rows)
    ensures fair && AllAnnounced(rounds, tables + [rows], n + 1) ==> awaited' && NoneEarly(rounds, tables + [rows], n + 1)
  {
    if fair && AllAnnounced(rounds, tables + [rows], n + 1) {
      AnnouncedNext(rounds, tables, n, rows, last);
    }
  }

  function Times(rounds: seq<Round>): seq<Time> {
    seq(|rounds|, i requires 0 <= i < |rounds| => rounds[i].now)
  }

  lemma TimesNext(rounds: seq<Round>, n: nat)
    requires n < |rounds|
    ensures Times(rounds[..n + 1]) == Times(rounds[..n]) + [rounds[n].now]
  {
  }

  lemma TimesClock(rounds: seq<Round>, n: nat)
    requires IsClock(Times(rounds)) && n <= |rounds|
    ensures IsClock(Times(rounds[..n]))
  {
    forall i, k | 0 <= i <= k < n ensures 0.0 <= Times(rounds[..n])[i] <= Times(rounds[..n])[k] {
      assert 0.0 <= Times(rounds)[i] <= Times(rounds)[k];
    }
  }

  // ---------- what the channels show of the table ----------

  function NotDone(rows: map<string, JobData>): set<string> {
    set u | u in rows && !IsGone(Some(rows[u].row.state))
  }

  lemma AllNotDone(rows: map<string, JobData>, uuids: seq<string>)
    requires forall u :: u in uuids <==> u in rows && rows[u].row.state != Done && rows[u].row.state != Cancelled
    ensures Between(uuids, 0, |uuids|) == NotDone(rows)
  {
    forall u | u in NotDone(rows) ensures u in Between(uuids, 0, |uuids|) {
      var i :| 0 <= i < |uuids| && uuids[i] == u;
    }
  }

  /** No eta of a row is zero. */
  predicate AreEtas(rows: map<string, JobData>) {
    forall u | u in rows :: rows[u].eta.Some? ==> rows[u].eta.value != 0.0
  }

  predicate IsRowOf(dbName: string, d: JobData, job: ChannelJob) {
    SameRow(job, dbName, d.key.dateCreated)
  }

  /** The uuids at the places from `lo` to `hi`. */
  function Between(uuids: seq<string>, lo: nat, hi: nat): set<string> {
    set i | lo <= i < hi && i < |uuids| :: uuids[i]
  }

  lemma BetweenFirst(uuids: seq<string>, lo: nat, hi: nat)
    requires lo < hi <= |uuids|
    ensures Between(uuids, lo, hi) == Between(uuids, lo + 1, hi) + {uuids[lo]}
  {
  }

  lemma BetweenLast(uuids: seq<string>, lo: nat, hi: nat)
    requires lo <= hi < |uuids|
    ensures Between(uuids, lo, hi + 1) == Between(uuids, lo, hi) + {uuids[hi]}
  {
  }

  /** The known jobs have the creation dates of their rows. */
  predicate Matches(dbName: string, rows: map<string, JobData>, jobs: Notifications.Jobs) {
    forall u | u in rows && u in jobs :: IsRowOf(dbName, rows[u], jobs[u])
  }

  /** The channels have the job where its row says, or do not know it when there is no row. */
  ghost predicate IsSeen(rows: map<string, JobData>, f: Sched, jobs: Notifications.Jobs, uuid: string) {
    if uuid in rows then Shows(f, jobs, uuid, rows[uuid].key, rows[uuid].eta, rows[uuid].row.state) else uuid !in jobs
  }

  /** The job is queued with the eta of its row, if it is known and queued at all. */
  ghost predicate IsAwaited(rows: map<string, JobData>, f: Sched, jobs: Notifications.Jobs, uuid: string) {
    uuid in rows && uuid in jobs ==> QueuedWith(f, jobs[uuid], rows[uuid].eta)
  }

  /** What `ProcessNotification` makes of tree and jobs; `f` is the tree once the channel exists. */
  ghost predicate IsRead(rows: map<string, JobData>, f0: Sched, jobs: Notifications.Jobs, uuid: string, f: Sched, f': Sched, jobs': Notifications.Jobs) {
    && Consistent(f0, jobs)
    && if uuid in rows then
         && f == LookedUpBy(f0, rows[uuid].channel)
         && IsHandled(f, jobs, uuid, rows[uuid].eta, Some(rows[uuid].row.state), f', jobs')
         && jobs'[uuid].uuid == uuid && jobs'[uuid].key == rows[uuid].key
         && jobs'[uuid].channel == TargetBy(f0, rows[uuid].channel)
       else f == f0 && IsForgotten(f, jobs, uuid, f', jobs')
  }

  lemma ReadShows(rows: map<string, JobData>, f0: Sched, jobs: Notifications.Jobs, uuid: string, f: Sched, f': Sched, jobs': Notifications.Jobs)
    requires IsRead(rows, f0, jobs, uuid, f, f', jobs')
    ensures IsSeen(rows, f', jobs', uuid)
  {
    if uuid in rows {
      ConsistentLookup(f0, jobs, PathOf(rows[uuid].channel), true);
      HandledShows(f, jobs, uuid, rows[uuid].eta, rows[uuid].row.state, f', jobs');
    }
  }

  lemma ReadKeeps(rows: map<string, JobData>, f0: Sched, jobs: Notifications.Jobs, uuid: string, f: Sched, f': Sched, jobs': Notifications.Jobs, w: string)
    requires IsRead(rows, f0, jobs, uuid, f, f', jobs') && IsSeen(rows, f0, jobs, w)
    ensures IsSeen(rows, f', jobs', w)
  {
    if w == uuid {
      ReadShows(rows, f0, jobs, uuid, f, f', jobs');
    } else if w in rows {
      var key, eta, state := rows[w].key, rows[w].eta, rows[w].row.state;
      if uuid in rows {
        LookupShows(f0, jobs, rows[uuid].channel, w, key, eta, state);
        HandledOther(f, jobs, uuid, rows[uuid].eta, Some(rows[uuid].row.state), f', jobs', w, key, eta, state);
      } else {
        ForgottenOther(f, jobs, uuid, f', jobs', w, key, eta, state);
      }
    }
  }

  lemma ReadAwaits(rows: map<string, JobData>, f0: Sched, jobs: Notifications.Jobs, uuid: string, f: Sched, f': Sched, jobs': Notifications.Jobs, w: string)
    requires IsRead(rows, f0, jobs, uuid, f, f', jobs') && IsAwaited(rows, f0, jobs, w)
    ensures IsAwaited(rows, f', jobs', w)
  {
    if w == uuid {
      ReadShows(rows, f0, jobs, uuid, f, f', jobs');
    } else if w in rows && w in jobs {
      var k, eta := jobs[w], rows[w].eta;
      if uuid in rows {
        ConsistentLookup(f0, jobs, PathOf(rows[uuid].channel), true);
        LookupQueues(f0, rows[uuid].channel, k, eta);
        HandledSame(f, jobs, uuid, rows[uuid].eta, Some(rows[uuid].row.state), f', jobs', k);
      } else {
        ForgottenSame(f, jobs, uuid, f', jobs', k);
      }
      QueuedSame(f, f', k, eta);
    }
  }

  ghost predicate AreSeen(rows: map<string, JobData>, f: Sched, jobs: Notifications.Jobs, uuids: set<string>) {
    forall u {:trigger IsSeen(rows, f, jobs, u)} | u in uuids :: IsSeen(rows, f, jobs, u)
  }

  /** The jobs of pending rows that were seen are in the queues of their channels: waiting for their eta, or ready. */
  lemma PendingInPlace(rows: map<string, JobData>, f: Sched, jobs: Notifications.Jobs, uuids: seq<string>)
    requires AreSeen(rows, f, jobs, Between(uuids, 0, |uuids|))
    ensures forall u | u in uuids && u in rows && rows[u].row.state == State.Pending ::
              && u in jobs && jobs[u].channel in f
              && var j, eta := jobs[u], rows[u].eta;
                 var n := f[j.channel];
                 if eta.Some? then j in n.waiting && n.waiting[j] == eta.value else j in n.ready
  {
    forall u | u in uuids && u in rows ensures IsSeen(rows, f, jobs, u) {
      var i :| 0 <= i < |uuids| && uuids[i] == u;
      assert u in Between(uuids, 0, |uuids|);
    }
  }

  lemma AllPendingInPlace(rows: map<string, JobData>, f: Sched, jobs: Notifications.Jobs)
    requires AreSeen(rows, f, jobs, NotDone(rows))
    ensures forall u | u in rows && rows[u].row.state == State.Pending ::
              && u in jobs && jobs[u].channel in f
              && var j, eta := jobs[u], rows[u].eta;
                 var n := f[j.channel];
                 if eta.Some? then j in n.waiting && n.waiting[j] == eta.value else j in n.ready
  {
    forall u | u in rows && rows[u].row.state == State.Pending ensures IsSeen(rows, f, jobs, u) {
      assert u in NotDone(rows);
    }
  }

  ghost predicate AreAwaited(rows: map<string, JobData>, f: Sched, jobs: Notifications.Jobs, uuids: set<string>) {
    forall u {:trigger IsAwaited(rows, f, jobs, u)} | u in uuids :: IsAwaited(rows, f, jobs, u)
  }

  lemma ReadKeepsAll(rows: map<string, JobData>, f0: Sched, jobs: Notifications.Jobs, uuid: string, f: Sched, f': Sched,
                     jobs': Notifications.Jobs, seen: set<string>, held: set<string>)
    requires IsRead(rows, f0, jobs, uuid, f, f', jobs') && AreSeen(rows, f0, jobs, seen) && AreAwaited(rows, f0, jobs, held)
    ensures AreSeen(rows, f', jobs', seen + {uuid}) && AreAwaited(rows, f', jobs', held)
  {
    forall w | w in seen + {uuid} ensures IsSeen(rows, f', jobs', w) {
      if w == uuid {
        ReadShows(rows, f0, jobs, uuid, f, f', jobs');
      } else {
        ReadKeeps(rows, f0, jobs, uuid, f, f', jobs', w);
      }
    }
    forall w | w in held ensures IsAwaited(rows, f', jobs', w) {
      ReadAwaits(rows, f0, jobs, uuid, f, f', jobs', w);
    }
  }

  /** The rows whose jobs are queued with their eta, if at all. */
  ghost function Awaited(rows: map<string, JobData>, f: Sched, jobs: Notifications.Jobs): set<string> {
    set u | u in rows && IsAwaited(rows, f, jobs, u)
  }

  ghost predicate AreAllAwaited(rows: map<string, JobData>, f: Sched, jobs: Notifications.Jobs, last: Time) {
    forall u {:trigger IsAwaited(rows, f, jobs, u)} | u in rows && rows[u].eta.Some? && rows[u].eta.value > last :: IsAwaited(rows, f, jobs, u)
  }

  /** The rows have stayed as they were, apart from those that there are notifications about. */
  predicate IsAnnounced(before: map<string, JobData>, r: Round) {
    forall u | u in r.rows :: u in r.notifies || (u in before && before[u] == r.rows[u])
  }

  /** Those of these rows that have an eta after `now` are the same, and their jobs are queued with it, if at all. */
  ghost predicate AreKeptBack(rows: map<string, JobData>, now: Time, rows': map<string, JobData>, f: Sched, jobs: Notifications.Jobs,
                              uuids: set<string>) {
    && rows'.Keys == rows.Keys
    && (forall u | u in rows :: rows'[u].eta == rows[u].eta)
    && forall u {:trigger IsAwaited(rows', f, jobs, u)} | u in uuids && u in rows && rows[u].eta.Some? && rows[u].eta.value > now ::
         rows'[u] == rows[u] && IsAwaited(rows', f, jobs, u)
  }

  lemma SeenAreAwaited(rows: map<string, JobData>, f: Sched, jobs: Notifications.Jobs, seen: set<string>, held: set<string>)
    requires AreSeen(rows, f, jobs, seen) && AreAwaited(rows, f, jobs, held)
    ensures AreAwaited(rows, f, jobs, seen + held)
  {
    forall u | u in seen ensures IsAwaited(rows, f, jobs, u) {
      assert IsSeen(rows, f, jobs, u);
    }
  }

  /** A poll sends no job that is awaited at a later time. */
  lemma PollKeepsBack(rows: map<string, JobData>, f: Sched, jobs: Notifications.Jobs, now: Time, y: Flow, f': Sched,
                      rows': map<string, JobData>, uuids: set<string>)
    requires Consistent(f, jobs) && Pass(f, now, y, f') && IsSent(rows, y, now, rows') && AreAwaited(rows, f, jobs, uuids)
    ensures AreKeptBack(rows, now, rows', f', jobs, uuids)
  {
    SentRows(rows, y, now, rows');
    forall u | u in uuids && u in rows && rows[u].eta.Some? && rows[u].eta.value > now
      ensures rows'[u] == rows[u] && IsAwaited(rows', f', jobs, u)
    {
      assert IsAwaited(rows, f, jobs, u);
      KeptBack(f, jobs, now, y, f', u, rows[u].eta.value);
    }
  }

  lemma KeptBack(f: Sched, jobs: Notifications.Jobs, now: Time, y: Flow, f': Sched, u: string, eta: Time)
    requires Consistent(f, jobs) && Pass(f, now, y, f') && eta > now && (u in jobs ==> QueuedWith(f, jobs[u], Some(eta)))
    ensures forall j | j in y[ROOT] :: j.uuid != u
    ensures u in jobs ==> QueuedWith(f', jobs[u], Some(eta))
  {
    forall j | j in y[ROOT] ensures j.uuid != u {
      PassKnown(f, now, y, f', ROOT, j);
      var p :| p in f && j in NodeJobs(f[p]);
      assert HoldsRegistered(f[p], jobs);
      if j.uuid == u {
        PassNotYet(f, now, y, f', j, eta, ROOT);
      }
    }
    if u in jobs {
      forall p | p in f' ensures jobs[u] !in f'[p].ready && (jobs[u] in f'[p].waiting ==> f'[p].waiting[jobs[u]] == eta) {
        PassNotYet(f, now, y, f', jobs[u], eta, p);
      }
    }
  }

  /** A row with a later eta was read now, or its job was awaited before. */
  lemma AnnouncedAreKept(before: map<string, JobData>, f: Sched, jobs: Notifications.Jobs, last: Time, r: Round)
    requires last <= r.now && AreAllAwaited(before, f, jobs, last) && IsAnnounced(before, r)
    ensures forall u | u in r.rows && r.rows[u].eta.Some? && r.rows[u].eta.value > r.now ::
              u in Between(r.notifies, 0, |r.notifies|) + Awaited(r.rows, f, jobs)
  {
    forall u | u in r.rows && r.rows[u].eta.Some? && r.rows[u].eta.value > r.now
      ensures u in Between(r.notifies, 0, |r.notifies|) + Awaited(r.rows, f, jobs)
    {
      if u in r.notifies {
        var i :| 0 <= i < |r.notifies| && r.notifies[i] == u;
      } else {
        assert IsAwaited(before, f, jobs, u);
      }
    }
  }

  lemma KeptAreAwaited(r: Round, kept: set<string>, rows: map<string, JobData>, f: Sched, jobs: Notifications.Jobs)
    requires AreKeptBack(r.rows, r.now, rows, f, jobs, kept)
    requires forall u | u in r.rows && r.rows[u].eta.Some? && r.rows[u].eta.value > r.now :: u in kept
    ensures AreAllAwaited(rows, f, jobs, r.now)
    ensures forall u | u in r.rows && r.rows[u].eta.Some? && r.rows[u].eta.value > r.now :: u in rows && rows[u] == r.rows[u]
  {
    forall u | u in r.rows && r.rows[u].eta.Some? && r.rows[u].eta.value > r.now ensures IsAwaited(rows, f, jobs, u) && rows[u] == r.rows[u] {
      assert u in kept;
      assert IsAwaited(rows, f, jobs, u);
    }
  }

  lemma ReadMatches(dbName: string, rows: map<string, JobData>, jobs: Notifications.Jobs, uuid: string, jobs': Notifications.Jobs)
    requires Matches(dbName, rows, jobs)
    requires if uuid in jobs' then jobs' == jobs[uuid := jobs'[uuid]] else jobs' == jobs - {uuid}
    requires uuid in rows && uuid in jobs' ==> IsRowOf(dbName, rows[uuid], jobs'[uuid])
    ensures Matches(dbName, rows, jobs')
  {
  }

  /** Dealing with a row is a run in which channels are created, a job is evicted, and a job moves. */
  lemma ReadTrace(rows: map<string, JobData>, f0: Sched, jobs: Notifications.Jobs, uuid: string, f: Sched, f': Sched,
                  jobs': Notifications.Jobs) returns (t: Trace)
    requires IsRead(rows, f0, jobs, uuid, f, f', jobs')
    ensures Quietly(t, f0, f', AreEtas(rows))
  {
    if uuid in rows {
      var d := rows[uuid];
      ConsistentLookup(f0, jobs, PathOf(d.channel), true);
      var first := LookupTrace(f0, d.channel);
      var second := HandledTrace(f, jobs, uuid, d.eta, Some(d.row.state), f', jobs');
      QuietlyOn(first, second, f0, f, f', AreEtas(rows));
      t := ManagerRuns.Then(first, second);
    } else {
      t := ForgottenTrace(f0, jobs, uuid, f', jobs');
    }
  }
}
