/**
  The channel manager: finds the channel of a job by its name, keeps the jobs by uuid, and
  turns notifications into moves of jobs between channels.
 */
module ChannelManagers {
  import opened Prelude
  import opened ChannelJobs
  import opened JobStates
  import opened ChannelNames
  import opened SchedulerSpec
  import opened SchedulerMoves
  import opened SchedulerRuns
  import opened ChannelQueues
  import opened Channels
  import opened ChannelTrees
  import opened ChannelIndex
  import opened Notifications

  // ---------- the index of channels ----------

  type Index = map<string, Channel>

  ghost predicate HasName(c: Channel, n: string) {
    |c.path| >= 1 && NoDots(c.path) && Join(c.path) == n
  }

  /** The index has exactly the full name of every channel of the tree, and leads to that channel. */
  ghost predicate Indexed(w: World, index: Index) {
    && (forall n {:trigger index[n]} | n in index :: index[n] in w.all && HasName(index[n], n))
    && (forall c {:trigger InIndex(c, index)} | c in w.all :: InIndex(c, index))
  }

  ghost predicate InIndex(c: Channel, index: Index) {
    |c.path| >= 1 && NoDots(c.path) && Join(c.path) in index && index[Join(c.path)] == c
  }

  lemma IndexedByPath(w: World, index: Index, s: Snapshot, n: string)
    requires w.Shape() && s.Keys == w.all && Indexed(w, index)
    ensures n in index <==> Split(n) in AsSched(w, s)
    ensures n in index ==> index[n].path == Split(n)
  {
    JoinOfSplit(n);
    if n in index {
      assert HasName(index[n], n);
      SplitOfJoin(index[n].path);
      SchedAt(w, s, index[n]);
    }
    if Split(n) in AsSched(w, s) {
      var c :| c in w.all && c.path == Split(n);
      assert InIndex(c, index);
    }
  }

  lemma IndexedGrown(w: World, index: Index, parent: Channel, c: Channel, n: string)
    requires w.Shape() && Indexed(w, index) && parent in w.all && c !in w.all && '.' !in c.name
    requires c.path == parent.path + [c.name] && c.name !in Names(w.kids[parent])
    requires |c.path| >= 1 && n == Join(c.path)
    ensures Indexed(Grown(w, parent, c), index[n := c])
  {
    assert InIndex(parent, index);
    forall d | d in w.all ensures InIndex(d, index[n := c]) {
      assert InIndex(d, index);
      if Join(d.path) == n {
        JoinInjective(d.path, c.path);
        NameOfChild(w, parent, c.name, d);
      }
    }
  }

  /** The tree does not depend on the set of jobs. */
  lemma MoreJobs(w: World, s: Snapshot, index: Index, jobs: set<ChannelJob>)
    requires w.Shape() && s.Keys == w.all && Indexed(w, index)
    ensures var w' := w.(jobs := jobs); w'.Shape() && AsSched(w', s) == AsSched(w, s) && Indexed(w', index)
  {
    var w' := w.(jobs := jobs);
    forall c | c in w.all ensures w'.Joined(c) {
      assert w.Joined(c);
    }
    forall c, d | c in w.all && d in w.all && c != d ensures w'.Apart(c, d) {
      assert w.Apart(c, d);
    }
  }

  lemma MoreJobsValid(w: World, jobs: set<ChannelJob>)
    requires w.Linked() && QueuesValid(w) && w.jobs <= jobs
    ensures var w' := w.(jobs := jobs); w'.Linked() && QueuesValid(w') && w'.Now() == w.Now()
  {
    forall c | c in w.all ensures QueueValid(c, jobs) {
      assert QueueValid(c, w.jobs);
    }
  }

  /** The same channels, whatever the jobs. */
  ghost predicate SameChannels(w: World, w': World) {
    w'.all == w.all && w'.Queues() == w.Queues() && w'.Heaps() == w.Heaps()
  }

  lemma WakeupAtRoot(w: World, s: Snapshot, root: Channel)
    requires w.Shape() && NamesOk(w, s) && root in w.all && root.path == ROOT
    ensures WellFormed(AsSched(w, s)) && WakeupOf(w, s, root, 0.0) == Wakeup(AsSched(w, s), ROOT, 0.0)
  {
    ShapeWellFormed(w, s);
  }

  class ChannelManager {
    var jobsByUuid: Jobs
    const root: Channel
    var channelsByName: Index
    ghost var world: World

    /** The objects hang together, and the index agrees with the tree. */
    ghost predicate Intact()
      reads this, world.all, world.Queues(), world.Heaps(), world.jobs
    {
      && world.Shape() && world.Linked() && QueuesValid(world)
      && root in world.all && root.parent == null
      && Indexed(world, channelsByName)
      && forall u | u in jobsByUuid :: jobsByUuid[u] in world.jobs
    }

    ghost function Tree(): Sched
      requires world.Shape()
      reads this`world, world.all, world.Queues(), world.Heaps()
    {
      AsSched(world, world.Now())
    }

    ghost predicate Valid()
      reads this, world.all, world.Queues(), world.Heaps(), world.jobs
    {
      world.Shape() && Intact() && Consistent(Tree(), jobsByUuid)
    }

    /** Nothing that the manager depends on has changed. */
    twostate lemma Untouched()
      requires old(Valid()) && unchanged(this) && unchanged(world.all) && unchanged(world.Queues())
      requires unchanged(world.Heaps()) && unchanged(world.jobs)
      ensures Valid() && Tree() == old(Tree())
    {
    }

    constructor ()
      ensures Valid() && world.jobs == {} && forall c | c in world.all :: IsFresh(c)
      ensures Tree() == map[ROOT := NEW_CHANNEL.(capacity := Some(1))] && jobsByUuid == map[]
    {
      var r := NewRoot();
      root := r;
      jobsByUuid := map[];
      channelsByName := map["root" := r];
      world := Lone(r);
      new;
      assert world.Linked() && QueuesValid(world);
      LoneTree(root, world.Now());
    }

    /** Creates a channel below `parent`. */
    method AddChannel(parent: Channel, name: string) returns (c: Channel)
      requires Intact() && parent in world.all && '.' !in name && name !in Names(parent.children)
      modifies this`channelsByName, this`world, parent`children
      ensures Intact() && IsFresh(c) && c.parent == parent && c.name == name && c.path == parent.path + [name]
      ensures world == Grown(old(world), parent, c) && world.Now() == Grew(old(world.Now()), parent, c)
    {
      ghost var w := world;
      c := NewChannel(parent, name, w);
      var n := c.FullName(Grown(w, parent, c));
      IndexedGrown(w, channelsByName, parent, c, n);
      EnterChannel(n, c, Grown(w, parent, c));
    }

    method FindSubchannel(parent: Channel, name: string) returns (c: Channel?)
      requires Intact() && parent in world.all
      ensures Intact() && Tree() == old(Tree())
      ensures parent.path in Tree()
      ensures c == null <==> name !in Tree()[parent.path].children
      ensures c == null <==> name !in Names(parent.children)
      ensures c != null ==> c in world.all && c.path == parent.path + [name]
    {
      SchedAt(world, world.Now(), parent);
      c := parent.GetSubchannelByName(name);
      if c != null {
        assert world.Joined(parent);
        PathNotEmpty(world, c);
      }
    }

    /** The child of `parent` of that name, a new one if there is none. */
    method Subchannel(parent: Channel, name: string) returns (c: Channel)
      requires Intact() && parent in world.all && '.' !in name
      modifies this`channelsByName, this`world, parent`children
      ensures Intact() && Grows(old(world), world) && c in world.all && c.path == parent.path + [name]
      ensures parent.path in old(Tree()) && Tree() == DownOne(old(Tree()), parent.path, name)
    {
      var child := FindSubchannel(parent, name);
      if child != null {
        return child;
      }
      c := AddSubchannel(parent, name);
    }

    method AddSubchannel(parent: Channel, name: string) returns (c: Channel)
      requires Intact() && parent in world.all && '.' !in name && name !in Names(parent.children)
      modifies this`channelsByName, this`world, parent`children
      ensures Intact() && Grows(old(world), world) && c in world.all && c.path == parent.path + [name]
      ensures parent.path in old(Tree()) && Tree() == WithChannel(old(Tree()), parent.path, name)
    {
      ghost var w, s := world, world.Now();
      c := AddChannel(parent, name);
      assert Grows(w, world) && world.Shape();
      GrownSched(w, parent, c, s);
    }

    /** The walk from `base` along `names` has come to `c` after `i` steps. */
    ghost predicate Walked(base: Path, names: seq<string>, trail: seq<Sched>, i: nat, c: Channel)
      requires i <= |names| && |trail| == |names| + 1
      reads this, world.all, world.Queues(), world.Heaps(), world.jobs
    {
      Intact() && c in world.all && c.path == base + names[..i] && Tree() == trail[i]
    }

    method WalkStep(ghost base: Path, names: seq<string>, ghost trail: seq<Sched>, i: nat, c: Channel) returns (next: Channel)
      requires NoDots(names) && i < |names| && IsTrail(trail, base, names) && Walked(base, names, trail, i, c)
      modifies this`channelsByName, this`world, c`children
      ensures Walked(base, names, trail, i + 1, next) && Grows(old(world), world)
    {
      assert TrailStep(trail, base, names, i);
      assert trail[i + 1] == DownOne(Tree(), c.path, names[i]);
      assert c.path + [names[i]] == base + names[..i + 1];
      next := Subchannel(c, names[i]);
    }

    method WalkDown(base: Channel, names: seq<string>, ghost trail: seq<Sched>) returns (c: Channel)
      requires Intact() && base in world.all && NoDots(names)
      requires IsTrail(trail, base.path, names) && trail[0] == Tree()
      modifies this`channelsByName, this`world, world.all`children
      ensures Walked(base.path, names, trail, |names|, c) && Grows(old(world), world)
    {
      c := base;
      var i := 0;
      assert base.path + names[..0] == base.path;
      while i < |names|
        invariant 0 <= i <= |names| && |trail| == |names| + 1
        invariant Walked(base.path, names, trail, i, c) && Grows(old(world), world)
      {
        c := WalkStep(base.path, names, trail, i, c);
        i := i + 1;
      }
    }

    /** The first parent, going up by name, that exists. */
    method FallbackParent(channelName: string) returns (parent: Channel)
      requires Intact() && ROOT in Tree()
      requires |Split(channelName)| >= 2 && Split(channelName)[0] == "root"
      ensures parent in world.all && parent.path == Nearest(Tree(), Split(channelName))
    {
      ghost var f := Tree();
      parent := GoUp(channelName, f);
    }

    method GoUp(channelName: string, ghost f: Sched) returns (parent: Channel)
      requires Intact() && Tree() == f && ROOT in f
      requires |Split(channelName)| >= 2 && Split(channelName)[0] == "root"
      ensures parent in world.all && parent.path == Nearest(f, Split(channelName))
    {
      var name := channelName;
      ghost var nearest := Nearest(f, Split(channelName));
      while true
        invariant |Split(name)| >= 2 && Split(name)[0] == "root" && Nearest(f, Split(name)) == nearest
        decreases |Split(name)|
      {
        HeadNearest(f, name);
        var head := Head(name);
        IndexedByPath(world, channelsByName, world.Now(), head);
        if head == "root" {
          PathNotEmpty(world, root);
          return root;
        }
        if head in channelsByName {
          assert HasName(channelsByName[head], head);
          return channelsByName[head];
        }
        name := head;
      }
    }

    /** The channel of that name; `None` if there is none and the flags do not ask for one. */
    method GetChannelByName(name: Option<string>, autocreate: bool, parentFallback: bool) returns (r: Option<Channel>)
      requires Valid()
      modifies this`channelsByName, this`world, world.all`children
      ensures Valid() && Grows(old(world), world)
      ensures var f, p := old(Tree()), PathOf(name);
              && (r.None? <==> p !in f && !autocreate && !parentFallback)
              && Tree() == (if r.None? then f else LookedUp(f, p, parentFallback))
              && (r.Some? ==> Found(f, p, parentFallback, r.value))
      ensures name.None? || name.value == "" ==> r == Some(root) && Tree() == old(Tree())
      ensures forall c | c in old(world).all && |c.path| >= 1 && name == Some(Join(c.path)) :: r == Some(c) && Tree() == old(Tree())
    {
      ghost var f, p, named := Tree(), PathOf(name), Named(name);
      NormalizedFromRoot(name);
      TargetExists(f, p, parentFallback);
      NamedAtPath(name);
      if name.None? || name.value == "" || name.value == "root" {
        PathNotEmpty(world, root);
        NoNameIsRoot();
        r := Some(root);
      } else {
        var n := if "root." <= name.value then name.value else "root." + name.value;
        r := FindOrCreate(n, autocreate, parentFallback);
      }
      forall c | c in named ensures r == Some(c) && Tree() == f {
        SamePath(r.value, c);
      }
    }

    /** The channels with this full name. */
    ghost function Named(name: Option<string>): set<Channel>
      reads this
    {
      set c | c in world.all && |c.path| >= 1 && name == Some(Join(c.path))
    }

    lemma NamedAtPath(name: Option<string>)
      requires Valid()
      ensures forall c | c in Named(name) :: c.path == PathOf(name) && c.path in Tree()
    {
      forall c | c in Named(name) ensures c.path == PathOf(name) && c.path in Tree() {
        SchedAt(world, world.Now(), c);
        assert InIndex(c, channelsByName);
        RootPrefix(Tree(), c.path);
        assert c.path[0] == c.path[..1][0];
        FullNameStandsFor(c.path);
      }
    }

    lemma SamePath(c: Channel, d: Channel)
      requires Intact() && c in world.all && d in world.all && c.path == d.path
      ensures c == d
    {
      assert InIndex(c, channelsByName) && InIndex(d, channelsByName);
    }

    method FindOrCreate(name: string, autocreate: bool, parentFallback: bool) returns (r: Option<Channel>)
      requires Valid() && Split(name)[0] == "root" && (|Split(name)| == 1 ==> Split(name) == ROOT)
      modifies this`channelsByName, this`world, world.all`children
      ensures Valid() && Grows(old(world), world)
      ensures var f, p := old(Tree()), Split(name);
              && (r.None? <==> p !in f && !autocreate && !parentFallback)
              && Tree() == (if r.None? then f else LookedUp(f, p, parentFallback))
              && (r.Some? ==> Found(f, p, parentFallback, r.value))
    {
      IndexedByPath(world, channelsByName, world.Now(), name);
      if name in channelsByName {
        return Some(channelsByName[name]);
      }
      if !autocreate && !parentFallback {
        return None;
      }
      var c := CreateChannel(name, parentFallback);
      return Some(c);
    }

    ghost predicate Found(f: Sched, p: Path, fallback: bool, c: Channel)
      requires ROOT in f && |p| >= 1 && (|p| == 1 ==> p == ROOT)
      reads this
    {
      c in world.all && c.path == Target(f, p, fallback)
    }

    method CreateChannel(name: string, parentFallback: bool) returns (c: Channel)
      requires Valid() && Split(name)[0] == "root" && Split(name) !in Tree()
      modifies this`channelsByName, this`world, world.all`children
      ensures |Split(name)| >= 2
      ensures Valid() && Grows(old(world), world)
      ensures Tree() == LookedUp(old(Tree()), Split(name), parentFallback)
      ensures Found(old(Tree()), Split(name), parentFallback, c)
    {
      ghost var f := Tree();
      LookupOfMissing(f, Split(name), parentFallback);
      JoinOfSplit(name);
      var parent := BaseChannel(name, parentFallback);
      c := Descend(parent, Split(name)[1..]);
      ConsistentLookup(f, jobsByUuid, Split(name), parentFallback);
    }

    method Descend(parent: Channel, names: seq<string>) returns (c: Channel)
      requires Intact() && WellFormed(Tree()) && parent in world.all && NoDots(names)
      modifies this`channelsByName, this`world, world.all`children
      ensures Intact() && Grows(old(world), world) && c in world.all && c.path == parent.path + names
      ensures parent.path in old(Tree()) && Tree() == Extend(old(Tree()), parent.path, names)
    {
      SchedAt(world, world.Now(), parent);
      ghost var trail := TrailOf(Tree(), parent.path, names);
      c := WalkDown(parent, names, trail);
      assert names[..|names|] == names;
    }

    method BaseChannel(name: string, parentFallback: bool) returns (parent: Channel)
      requires Intact() && ROOT in Tree()
      requires |Split(name)| >= 2 && Split(name)[0] == "root"
      ensures parent in world.all && parent.path == Base(Tree(), Split(name), parentFallback)
    {
      PathNotEmpty(world, root);
      if !parentFallback {
        return root;
      }
      parent := FallbackParent(name);
    }

    // ---------- polls ----------

    /** One drained call of `get_jobs_to_run`. The ghost result says what every channel yielded. */
    method GetJobsToRun(now: Time) returns (jobs: seq<ChannelJob>, ghost y: Flow)
      requires Valid()
      modifies world.all`running, world.all`pauseUntil, world.Queues()`waiting, world.Heaps(), world.jobs
      ensures unchanged(this)
      ensures Valid()
      ensures Pass(old(Tree()), now, y, Tree()) && ROOT in y && jobs == y[ROOT]
    {
      ghost var f := Tree();
      jobs, y := PollRoot(now);
      ConsistentPass(f, jobsByUuid, now, y, Tree());
    }

    method PollRoot(now: Time) returns (jobs: seq<ChannelJob>, ghost y: Flow)
      requires Intact()
      modifies world.all`running, world.all`pauseUntil, world.Queues()`waiting, world.Heaps(), world.jobs
      ensures unchanged(this)
      ensures Intact()
      ensures Pass(old(Tree()), now, y, Tree()) && ROOT in y && jobs == y[ROOT]
    {
      ghost var s := world.Now();
      PathNotEmpty(world, root);
      jobs, y := root.GetJobsToRun(now, world);
      PassAgrees(world, root, s, world.Now(), now, y);
    }

    /** The latest time at which the runner has to poll again; zero for "when notified". */
    method GetWakeupTime() returns (r: Time)
      requires Valid()
      modifies world.Heaps()
      ensures unchanged(this)
      ensures Valid() && Tree() == old(Tree())
      ensures r == Wakeup(Tree(), ROOT, 0.0)
    {
      r := RootWakeup(Tree());
    }

    method RootWakeup(ghost f: Sched) returns (r: Time)
      requires Intact() && Tree() == f && WellFormed(f)
      modifies world.Heaps()
      ensures unchanged(this)
      ensures Intact() && Tree() == f && r == Wakeup(f, ROOT, 0.0)
    {
      PathNotEmpty(world, root);
      WakeupAtRoot(world, world.Now(), root);
      r := root.GetWakeupTime(0.0, world);
    }

    // ---------- jobs ----------

    /** The channel that `job` was made for. */
    method ChannelOf(job: ChannelJob) returns (c: Channel)
      requires Intact() && job.channel in Tree()
      ensures Intact() && Tree() == old(Tree()) && c in world.all && c.path == job.channel
    {
      ghost var d :| d in world.all && d.path == job.channel;
      assert InIndex(d, channelsByName);
      c := channelsByName[Join(job.channel)];
    }

    method Drop(c: Channel, job: ChannelJob)
      requires Intact() && c in world.all && c.path == job.channel
      modifies world.all`running, world.all`failed, world.Queues()`waiting, world.Heaps()`removed
      ensures Intact() && job.channel in old(Tree()) && Tree() == SchedulerMoves.RemoveJob(old(Tree()), job)
    {
      ghost var s := world.Now();
      SchedAt(world, s, c);
      c.Remove(job, world);
      RemoveAgrees(world, c, s, job);
    }

    method Pend(c: Channel, job: ChannelJob)
      requires Intact() && c in world.all && c.path == job.channel && job in world.jobs
      modifies world.all`running, world.all`failed, world.Queues()`waiting, world.Heaps()
      ensures Intact() && job.channel in old(Tree()) && Tree() == SetPending(old(Tree()), job, old(job.eta))
    {
      ghost var s := world.Now();
      SchedAt(world, s, c);
      ghost var eta := job.eta;
      c.SetPending(job, world);
      PendingAgrees(world, c, s, job, eta);
    }

    method Run(c: Channel, job: ChannelJob)
      requires Intact() && c in world.all && c.path == job.channel
      modifies world.all`running, world.all`failed, world.Queues()`waiting, world.Heaps()`removed
      ensures Intact() && job.channel in old(Tree()) && Tree() == SetRunning(old(Tree()), job)
    {
      ghost var s := world.Now();
      SchedAt(world, s, c);
      c.SetRunning(job, world);
      RunningAgrees(world, c, s, job);
    }

    method Fail(c: Channel, job: ChannelJob)
      requires Intact() && c in world.all && c.path == job.channel
      modifies world.all`running, world.all`failed, world.Queues()`waiting, world.Heaps()`removed
      ensures Intact() && job.channel in old(Tree()) && Tree() == SetFailed(old(Tree()), job)
    {
      ghost var s := world.Now();
      SchedAt(world, s, c);
      c.SetFailed(job, world);
      FailedAgrees(world, c, s, job);
    }

    /** The moves that the states of a job stand for. */
    method Move(c: Channel, job: ChannelJob, state: Option<State>, ghost f: Sched, ghost eta: Option<Time>)
      requires Intact() && c in world.all && c.path == job.channel && job in world.jobs
      requires Tree() == f && job.eta == eta
      modifies world.all`running, world.all`failed, world.Queues()`waiting, world.Heaps()
      ensures Intact() && job.channel in f
      ensures Tree() == Notified(f, job, eta, state)
    {
      SchedAt(world, world.Now(), c);
      NotifiedCases(f, job, eta, state);
      if IsGone(state) {
        Drop(c, job);
      } else if state.value.Pending? {
        Pend(c, job);
      } else if IsRunning(state) {
        Run(c, job);
      } else if state.value.Failed? {
        Fail(c, job);
      }
      // a job that waits for its dependencies stays where it is
    }

    /** Takes a job out of all channels and forgets it. */
    method RemoveJob(uuid: string)
      requires Valid()
      modifies this`jobsByUuid, world.all`running, world.all`failed, world.Queues()`waiting, world.Heaps()`removed
      ensures Valid() && jobsByUuid == old(jobsByUuid) - {uuid}
      ensures Tree() == if uuid in old(jobsByUuid) then SchedulerMoves.RemoveJob(old(Tree()), old(jobsByUuid)[uuid]) else old(Tree())
    {
      if uuid !in jobsByUuid {
        return;
      }
      ConsistentRemove(Tree(), jobsByUuid, jobsByUuid[uuid]);
      Evict(jobsByUuid[uuid]);
    }

    /** The jobs with uuids in `gone` are in no channel any more, and forgotten. */
    ghost predicate Purged(f: Sched, jobs: Jobs, gone: set<string>)
      reads this, world.all, world.Queues(), world.Heaps(), world.jobs
    {
      Valid() && Tree() == Without(f, JobsAt(jobs, gone)) && jobsByUuid == jobs - gone
    }

    method VisitJob(uuid: string, dbName: string, ghost f: Sched, ghost jobs: Jobs, ghost gone: set<string>)
      requires Purged(f, jobs, gone) && uuid in jobsByUuid
      modifies this`jobsByUuid, world.all`running, world.all`failed, world.Queues()`waiting, world.Heaps()`removed
      ensures Purged(f, jobs, gone + if jobs[uuid].dbName == dbName then {uuid} else {})
    {
      var job := jobsByUuid[uuid];
      if job.dbName == dbName {
        AnyPlaced(Tree(), job);
        RemoveIsWithout(f, JobsAt(jobs, gone), job);
        assert JobsAt(jobs, gone + {uuid}) == JobsAt(jobs, gone) + {job};
        assert jobs - gone - {uuid} == jobs - (gone + {uuid});
        RemoveJob(uuid);
      } else {
        assert gone + {} == gone;
      }
    }

    /** The jobs of the database are gone, except for those still to be looked at. */
    ghost predicate Visited(f: Sched, jobs: Jobs, dbName: string, todo: set<string>)
      reads this, world.all, world.Queues(), world.Heaps(), world.jobs
    {
      Purged(f, jobs, UuidsOf(jobs - todo, dbName)) && todo <= jobs.Keys
    }

    method VisitNext(uuid: string, dbName: string, ghost f: Sched, ghost jobs: Jobs, ghost todo: set<string>)
      requires Visited(f, jobs, dbName, todo) && uuid in todo
      modifies this`jobsByUuid, world.all`running, world.all`failed, world.Queues()`waiting, world.Heaps()`removed
      ensures Visited(f, jobs, dbName, todo - {uuid})
    {
      OneMoreUuid(jobs, todo, dbName, uuid);
      VisitJob(uuid, dbName, f, jobs, UuidsOf(jobs - todo, dbName));
    }

    /** Takes the jobs of a database out of all channels, and touches no other job. */
    method RemoveDb(dbName: string)
      requires Valid()
      modifies this`jobsByUuid, world.all`running, world.all`failed, world.Queues()`waiting, world.Heaps()`removed
      ensures Valid() && Tree().Keys == old(Tree()).Keys
      ensures forall u :: u in jobsByUuid <==> u in old(jobsByUuid) && old(jobsByUuid)[u].dbName != dbName
      ensures forall u | u in jobsByUuid :: jobsByUuid[u] == old(jobsByUuid)[u]
      ensures forall p, j | p in Tree() :: var n, n' := old(Tree())[p], Tree()[p];
                && (j in n'.ready <==> j in n.ready && j.dbName != dbName)
                && (j in n'.waiting <==> j in n.waiting && j.dbName != dbName)
                && (j in n'.waiting ==> n'.waiting[j] == n.waiting[j])
                && (j in n'.running <==> j in n.running && j.dbName != dbName)
                && (j in n'.failed <==> j in n.failed && j.dbName != dbName)
    {
      ghost var f, jobs := Tree(), jobsByUuid;
      Purge(dbName);
      PurgedDb(f, jobs, dbName, Tree(), jobsByUuid);
    }

    method Purge(dbName: string)
      requires Valid()
      modifies this`jobsByUuid, world.all`running, world.all`failed, world.Queues()`waiting, world.Heaps()`removed
      ensures Purged(old(Tree()), old(jobsByUuid), UuidsOf(old(jobsByUuid), dbName))
    {
      ghost var f, jobs := Tree(), jobsByUuid;
      var todo := jobsByUuid.Keys;
      NoneVisited(f, jobs, dbName);
      while todo != {}
        invariant Visited(f, jobs, dbName, todo)
        decreases todo
      {
        var uuid :| uuid in todo;
        VisitNext(uuid, dbName, f, jobs, todo);
        todo := todo - {uuid};
      }
      assert jobs - todo == jobs;
    }

    method Evict(job: ChannelJob)
      requires Intact() && job.channel in Tree()
      modifies this`jobsByUuid, world.all`running, world.all`failed, world.Queues()`waiting, world.Heaps()`removed
      ensures Intact() && jobsByUuid == old(jobsByUuid) - {job.uuid}
      ensures Tree() == SchedulerMoves.RemoveJob(old(Tree()), job)
    {
      var c := ChannelOf(job);
      Drop(c, job);
      Forget(job.uuid);
    }

    /**
      Takes note of the state of a row. If properties that influence the scheduling have changed,
      the job leaves all queues and a new job takes its place. It is an error if the database or
      the creation date of a known job differ. The ghost results are the channel of the job, and
      the tree once this channel exists.
     */
    method Notify(dbName: string, channelName: Option<string>, uuid: string, key: Key, eta: Option<Time>, state: Option<State>)
      returns (ok: bool, ghost target: Path, ghost f: Sched)
      requires Valid()
      modifies this`jobsByUuid, this`channelsByName, this`world
      modifies world.all`children, world.all`running, world.all`failed, world.Queues()`waiting, world.Heaps()
      ensures Valid()
      ensures target == TargetBy(old(Tree()), channelName) && f == LookedUpBy(old(Tree()), channelName)
      ensures ok <==> uuid in old(jobsByUuid) ==>
                old(jobsByUuid)[uuid].dbName == dbName && old(jobsByUuid)[uuid].key.dateCreated == key.dateCreated
      ensures !ok ==> Tree() == f && jobsByUuid == old(jobsByUuid)
      ensures ok ==> IsHandled(f, old(jobsByUuid), uuid, eta, state, Tree(), jobsByUuid)
      ensures ok ==> IsMadeFor(jobsByUuid[uuid], dbName, target, uuid, key, eta)
      ensures ok ==> (uuid in old(jobsByUuid) && jobsByUuid[uuid] == old(jobsByUuid)[uuid]) == old(IsKnownAs(uuid, target, key, eta))
      ensures NewAreFresh(old(world), world)
    {
      var channel := ChannelFor(channelName, uuid);
      target, f := channel.path, Tree();
      ok := uuid !in jobsByUuid || SameRow(jobsByUuid[uuid], dbName, key.dateCreated);
      ghost var w := world;
      if ok {
        Handle(channel, dbName, uuid, key, eta, state);
      }
      HiresNew(old(world), w, world);
    }

    /** The lookup above leaves the job alone, and all objects it adds are fresh. */
    method ChannelFor(channelName: Option<string>, ghost uuid: string) returns (c: Channel)
      requires Valid()
      modifies this`channelsByName, this`world, world.all`children
      ensures Valid() && c in world.all && c.path == TargetBy(old(Tree()), channelName)
      ensures Tree() == LookedUpBy(old(Tree()), channelName)
      ensures uuid in jobsByUuid ==> jobsByUuid[uuid].eta == old(jobsByUuid[uuid].eta)
      ensures NewAreFresh(old(world), world)
    {
      c := FallbackChannel(channelName);
      GrowsNew(old(world), world);
    }

    method FallbackChannel(channelName: Option<string>) returns (c: Channel)
      requires Valid()
      modifies this`channelsByName, this`world, world.all`children
      ensures Valid() && c in world.all && c.path == TargetBy(old(Tree()), channelName)
      ensures Tree() == LookedUpBy(old(Tree()), channelName) && Grows(old(world), world)
    {
      var found := GetChannelByName(channelName, false, true);
      c := found.value;
    }

    ghost predicate IsKnownAs(uuid: string, channel: Path, key: Key, eta: Option<Time>)
      reads this, jobsByUuid.Values
    {
      uuid in jobsByUuid && Describes(jobsByUuid[uuid], channel, key, eta)
    }

    method Handle(channel: Channel, dbName: string, uuid: string, key: Key, eta: Option<Time>, state: Option<State>)
      requires Valid() && channel in world.all
      requires uuid in jobsByUuid ==> SameRow(jobsByUuid[uuid], dbName, key.dateCreated)
      modifies this`jobsByUuid, this`world
      modifies world.all`running, world.all`failed, world.Queues()`waiting, world.Heaps()
      ensures Valid()
      ensures IsHandled(old(Tree()), old(jobsByUuid), uuid, eta, state, Tree(), jobsByUuid)
      ensures IsMadeFor(jobsByUuid[uuid], dbName, channel.path, uuid, key, eta)
      ensures (uuid in old(jobsByUuid) && jobsByUuid[uuid] == old(jobsByUuid)[uuid]) == old(IsKnownAs(uuid, channel.path, key, eta))
      ensures Hires(old(world), world)
    {
      hide Consistent;
      Register(channel, dbName, uuid, key, eta);
      QueuedByEta(jobsByUuid[uuid], Tree(), eta);
      Observe(channel, jobsByUuid[uuid], state, Tree(), eta);
    }

    /** Makes sure that the job registered under `uuid` has the properties given. */
    method Register(channel: Channel, dbName: string, uuid: string, key: Key, eta: Option<Time>)
      requires Valid() && channel in world.all
      requires uuid in jobsByUuid ==> SameRow(jobsByUuid[uuid], dbName, key.dateCreated)
      modifies this`jobsByUuid, this`world
      modifies world.all`running, world.all`failed, world.Queues()`waiting, world.Heaps()`removed
      ensures Valid() && Hires(old(world), world)
      ensures uuid in jobsByUuid && jobsByUuid == old(jobsByUuid)[uuid := jobsByUuid[uuid]]
      ensures IsMadeFor(jobsByUuid[uuid], dbName, channel.path, uuid, key, eta)
      ensures Tree() == Evicted(old(Tree()), old(jobsByUuid), jobsByUuid[uuid])
      ensures (uuid in old(jobsByUuid) && jobsByUuid[uuid] == old(jobsByUuid)[uuid]) == old(IsKnownAs(uuid, channel.path, key, eta))
    {
      assert InIndex(channel, channelsByName);
      SplitOfJoin(channel.path);
      var path := Split(channel.FullName(world));
      if uuid !in jobsByUuid {
        Introduce(dbName, path, uuid, key, eta);
      } else if !Describes(jobsByUuid[uuid], path, key, eta) {
        Reschedule(dbName, path, uuid, key, eta);
      }
    }

    method Introduce(dbName: string, path: Path, uuid: string, key: Key, eta: Option<Time>)
      requires Valid() && path in Tree() && uuid !in jobsByUuid
      modifies this`jobsByUuid, this`world
      ensures Valid() && Hires(old(world), world)
      ensures uuid in jobsByUuid && jobsByUuid == old(jobsByUuid)[uuid := jobsByUuid[uuid]]
      ensures IsMadeFor(jobsByUuid[uuid], dbName, path, uuid, key, eta)
      ensures Tree() == old(Tree())
    {
      AddJob(dbName, path, uuid, key, eta);
      ConsistentRegister(old(Tree()), old(jobsByUuid), jobsByUuid[uuid]);
    }

    /** The job leaves all queues, and a new job takes its place. */
    method Reschedule(dbName: string, path: Path, uuid: string, key: Key, eta: Option<Time>)
      requires Valid() && path in Tree() && uuid in jobsByUuid
      modifies this`jobsByUuid, this`world
      modifies world.all`running, world.all`failed, world.Queues()`waiting, world.Heaps()`removed
      ensures Valid() && Hires(old(world), world)
      ensures uuid in jobsByUuid && jobsByUuid == old(jobsByUuid)[uuid := jobsByUuid[uuid]]
      ensures fresh(jobsByUuid[uuid]) && IsMadeFor(jobsByUuid[uuid], dbName, path, uuid, key, eta)
      ensures Tree() == SchedulerMoves.RemoveJob(old(Tree()), old(jobsByUuid)[uuid])
    {
      ghost var f, jobs := Tree(), jobsByUuid;
      Evict(jobsByUuid[uuid]);
      AddJob(dbName, path, uuid, key, eta);
      ReplaceEntry(jobs, uuid, jobsByUuid[uuid]);
      ConsistentReplace(f, jobs, jobsByUuid[uuid]);
    }

    method AddJob(dbName: string, path: Path, uuid: string, key: Key, eta: Option<Time>)
      requires Intact() && uuid !in jobsByUuid
      modifies this`jobsByUuid, this`world
      ensures Intact() && Hires(old(world), world)
      ensures uuid in jobsByUuid && jobsByUuid == old(jobsByUuid)[uuid := jobsByUuid[uuid]]
      ensures fresh(jobsByUuid[uuid]) && IsMadeFor(jobsByUuid[uuid], dbName, path, uuid, key, eta)
      ensures Tree() == old(Tree())
    {
      ghost var w, s := world, world.Now();
      NewJob(dbName, path, uuid, key, eta);
      MoreJobs(w, s, channelsByName, world.jobs);
    }

    /** A new channel job, known to no channel yet. */
    method NewJob(dbName: string, path: Path, uuid: string, key: Key, eta: Option<Time>)
      requires world.Linked() && QueuesValid(world)
      modifies this`jobsByUuid, this`world
      ensures uuid in jobsByUuid && jobsByUuid == old(jobsByUuid)[uuid := jobsByUuid[uuid]]
      ensures fresh(jobsByUuid[uuid]) && IsMadeFor(jobsByUuid[uuid], dbName, path, uuid, key, eta)
      ensures world == old(world).(jobs := old(world).jobs + {jobsByUuid[uuid]})
      ensures world.Linked() && QueuesValid(world) && world.Now() == old(world.Now())
    {
      var job := new ChannelJob(dbName, path, uuid, key, eta);
      MoreJobsValid(world, world.jobs + {job});
      world, jobsByUuid := world.(jobs := world.jobs + {job}), jobsByUuid[uuid := job];
    }

    method Observe(channel: Channel, job: ChannelJob, state: Option<State>, ghost f: Sched, ghost eta: Option<Time>)
      requires Valid() && channel in world.all && channel.path == job.channel && Tree() == f && job.eta == eta
      requires job.uuid in jobsByUuid && jobsByUuid[job.uuid] == job
      modifies world.all`running, world.all`failed, world.Queues()`waiting, world.Heaps()
      ensures Valid() && job.channel in f && job.eta == eta
      ensures Tree() == Notified(f, job, eta, state)
    {
      ghost var jobs := jobsByUuid;
      Move(channel, job, state, f, eta);
      ConsistentNotified(f, jobs, job, eta, state);
    }

    /** The eta of a job decides in which of the two heaps of a channel it can be. */
    lemma QueuedByEta(job: ChannelJob, f: Sched, eta: Option<Time>)
      requires Intact() && Tree() == f && job.eta == eta
      ensures QueuedWith(f, job, eta)
    {
      forall p | p in f ensures (job in f[p].ready ==> job.eta.None?) && (job in f[p].waiting ==> job.eta == Some(f[p].waiting[job])) {
        var c :| c in world.all && c.path == p;
        SchedAt(world, world.Now(), c);
        assert QueueValid(c, world.jobs);
        EtaInQueue(c.queue, job);
      }
    }

    /** The map of jobs holds them weakly: a job that no channel holds can vanish from it. */
    method Collect(uuid: string)
      requires Valid() && uuid in jobsByUuid && NowhereIn(Tree(), jobsByUuid[uuid])
      modifies this`jobsByUuid
      ensures Valid() && Tree() == old(Tree()) && jobsByUuid == old(jobsByUuid) - {uuid}
    {
      ConsistentForget(Tree(), jobsByUuid, jobsByUuid[uuid]);
      Forget(uuid);
    }

    /** Drops the entry of a job from the map of jobs. */
    method Forget(uuid: string)
      requires Intact()
      modifies this`jobsByUuid
      ensures Intact() && Tree() == old(Tree()) && jobsByUuid == old(jobsByUuid) - {uuid}
    {
      jobsByUuid := jobsByUuid - {uuid};
    }

    /** Puts a new channel into the index. */
    method EnterChannel(n: string, c: Channel, ghost w: World)
      requires w.Linked() && QueuesValid(w)
      modifies this`channelsByName, this`world
      ensures w.Linked() && QueuesValid(w) && w.Now() == old(w.Now())
      ensures world == w && channelsByName == old(channelsByName)[n := c]
    {
      world, channelsByName := w, channelsByName[n := c];
    }
  }

  lemma EtaInQueue(q: ChannelQueue, job: ChannelJob)
    requires q.Valid()
    ensures (job in q.Ready() ==> job.eta.None?) && (job in q.waiting ==> job.eta == Some(q.waiting[job]))
  {
    assert job in q.Ready() ==> job in q.queue.known;
  }

  ghost function Lone(r: Channel): World {
    World({r}, map[r := []], {})
  }

  lemma LoneTree(r: Channel, s: Snapshot)
    requires Lone(r).Shape() && r.path == ROOT && s == map[r := NEW_CHANNEL.(capacity := Some(1))]
    ensures AsSched(Lone(r), s) == map[ROOT := NEW_CHANNEL.(capacity := Some(1))]
    ensures Consistent(AsSched(Lone(r), s), map[])
    ensures r.parent == null ==> Indexed(Lone(r), map["root" := r])
  {
    SchedAt(Lone(r), s, r);
  }

  method NewRoot() returns (r: Channel)
    ensures IsFresh(r) && r.parent == null && r.path == ROOT
    ensures var w := Lone(r); w.Shape() && w.Linked() && QueuesValid(w)
    ensures Lone(r).Now() == map[r := NEW_CHANNEL.(capacity := Some(1))]
  {
    r := new Channel("root", null, Some(1), false, 0.0);
    assert Lone(r).Joined(r);
    assert QueueValid(r, {});
  }

  method NewChannel(parent: Channel, name: string, ghost w: World) returns (c: Channel)
    requires w.Shape() && w.Linked() && QueuesValid(w) && parent in w.all
    requires name !in Names(parent.children)
    modifies parent`children
    ensures IsFresh(c)
    ensures c.parent == parent && c.name == name && c.path == parent.path + [name]
    ensures var w' := Grown(w, parent, c);
            && w'.Shape() && w'.Linked() && QueuesValid(w')
            && w'.Now() == Grew(old(w.Now()), parent, c)
  {
    ghost var s := w.Now();
    c := MakeQuietly(parent, name, w, s);
    GrownShape(w, parent, c);
    NowGrew(w, parent, c, s);
    GrownLinked(w, parent, c);
  }

  lemma GrownLinked(w: World, parent: Channel, c: Channel)
    requires parent in w.kids && parent.children == w.kids[parent] + [c] && c.children == []
    requires forall d | d in w.all && d in w.kids && d != parent && d != c :: d.children == w.kids[d]
    ensures Grown(w, parent, c).Linked()
  {
  }

  method MakeQuietly(parent: Channel, name: string, ghost w: World, ghost s: Snapshot) returns (c: Channel)
    requires QueuesValid(w) && parent in w.all && w.Now() == s
    modifies parent`children
    ensures IsFresh(c) && c !in w.all && OwnQueues(w, c)
    ensures c.parent == parent && c.name == name && c.path == parent.path + [name]
    ensures c.children == [] && c.Abs() == NEW_CHANNEL && QueueValid(c, w.jobs)
    ensures parent.children == old(parent.children) + [c] && QueuesValid(w)
    ensures parent.Abs() == s[parent].(children := s[parent].children + [name])
    ensures forall d | d in w.all && d != parent :: d.Abs() == s[d]
  {
    c := MakeChannel(parent, name, w, s);
    forall d | d in w.all ensures QueueValid(d, w.jobs) {
      assert old(QueueValid(d, w.jobs));
    }
  }

  method MakeChannel(parent: Channel, name: string, ghost w: World, ghost s: Snapshot) returns (c: Channel)
    requires parent in w.all && w.Now() == s
    modifies parent`children
    ensures IsFresh(c) && c !in w.all && OwnQueues(w, c)
    ensures c.parent == parent && c.name == name && c.path == parent.path + [name]
    ensures c.children == [] && c.Abs() == NEW_CHANNEL && QueueValid(c, w.jobs)
    ensures parent.children == old(parent.children) + [c]
    ensures parent.Abs() == s[parent].(children := s[parent].children + [name])
    ensures forall d | d in w.all && d != parent :: d.Abs() == s[d]
  {
    c := new Channel(name, parent, None, false, 0.0);
  }

  lemma NowGrew(w: World, parent: Channel, c: Channel, s: Snapshot)
    requires parent in w.all && s.Keys == w.all == w.kids.Keys && c !in w.all && c.Abs() == NEW_CHANNEL
    requires parent.Abs() == s[parent].(children := s[parent].children + [c.name])
    requires forall d | d in w.all && d != parent :: d.Abs() == s[d]
    ensures Grown(w, parent, c).Now() == Grew(s, parent, c)
  {
  }

  /** All objects of the tree that are new are fresh. */
  twostate predicate Grows(w: World, new w': World) {
    && w.all <= w'.all && w'.jobs == w.jobs
    && forall c | c in w'.all && c !in w.all :: IsFresh(c)
  }

  twostate predicate NewAreFresh(w: World, new w': World) {
    && (forall d | d in w'.all :: d in w.all || fresh(d))
    && (forall q | q in w'.Queues() :: q in w.Queues() || fresh(q))
    && (forall h | h in w'.Heaps() :: h in w.Heaps() || fresh(h))
    && (forall j | j in w'.jobs :: j in w.jobs || fresh(j))
  }

  twostate lemma GrowsNew(w: World, new w': World)
    requires Grows(w, w')
    ensures NewAreFresh(w, w')
  {
  }

  /** Nothing is new but some jobs, which are fresh. */
  twostate predicate Hires(w: World, new w': World) {
    SameChannels(w, w') && forall j | j in w'.jobs :: j in w.jobs || fresh(j)
  }

  twostate lemma HiresNew(w: World, new w1: World, new w2: World)
    requires NewAreFresh(w, w1) && SameChannels(w1, w2) && forall j | j in w2.jobs :: j in w1.jobs || fresh(j)
    ensures NewAreFresh(w, w2)
  {
  }

  twostate predicate IsFresh(new c: Channel) {
    fresh(c) && fresh(c.queue) && fresh(c.queue.queue) && fresh(c.queue.etaQueue)
  }
}
