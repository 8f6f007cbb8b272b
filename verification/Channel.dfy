/**
  Channels as objects that point to their parent and to their children. Every method is
  proved against the node-wise specification of the scheduler.
 */
module Channels {
  import opened Prelude
  import opened ChannelJobs
  import opened PriorityQueues
  import opened ChannelQueues
  import opened SchedulerSpec
  import opened SchedulerMoves
  import opened YieldLoops
  import opened ChannelNames

  // ---------- the objects ----------

  predicate NoEtas(jobs: set<ChannelJob>)
    reads jobs
  {
    forall j | j in jobs :: j.eta.None?
  }

  /** Jobs of the tree that wait for no eta. */
  predicate Fit(jobs: set<ChannelJob>, known: set<ChannelJob>)
    reads jobs
  {
    jobs <= known && NoEtas(jobs)
  }

  function Names(cs: seq<Channel>): seq<string> {
    seq(|cs|, i requires 0 <= i < |cs| => cs[i].name)
  }

  function Single(c: Channel?): set<Channel> {
    if c == null then {} else {c}
  }

  class Channel {
    const name: string
    const parent: Channel?
    const queue: ChannelQueue
    var children: seq<Channel>      // in the order in which they were created
    var capacity: Option<int>
    var throttle: Time
    var running: set<ChannelJob>
    var failed: set<ChannelJob>
    var pauseUntil: Time
    ghost const path: Path

    /** A new channel is entered among the children of its parent. */
    constructor (name: string, parent: Channel?, capacity: Option<int>, sequential: bool, throttle: Time)
      modifies Single(parent)`children
      ensures this.name == name && this.parent == parent && children == []
      ensures parent != null ==> parent.children == old(parent.children) + [this]
      ensures parent != null ==> parent.Abs() == old(parent.Abs()).(children := Names(old(parent.children)) + [name])
      ensures path == (if parent == null then [] else parent.path) + [name]
      ensures fresh(queue) && fresh(queue.queue) && fresh(queue.etaQueue) && queue.Valid()
      ensures queue.queue.known == {} && queue.etaQueue.known == {}
      ensures Abs() == Node(capacity, sequential, throttle, [], 0.0, {}, map[], {}, {})
    {
      this.name, this.parent, children := name, parent, [];
      this.capacity, this.throttle := capacity, throttle;
      running, failed, pauseUntil := {}, {}, 0.0;
      queue := new ChannelQueue(sequential);
      path := (if parent == null then [] else parent.path) + [name];
      new;
      if parent != null {
        parent.children := parent.children + [this];
        assert Names(parent.children) == Names(old(parent.children)) + [name];
      }
    }

    /** The name of the channel with the names of its parents in front, separated by dots. */
    function FullName(ghost w: World): (r: string)
      requires w.Shape() && this in w.all
      ensures |path| >= 1 && r == Join(path)
      decreases |path|
    {
      assert w.Joined(this);
      if parent != null then
        var front := parent.FullName(w);
        JoinSnoc(parent.path, name);
        front + "." + name
      else name
    }

    method GetSubchannelByName(name: string) returns (c: Channel?)
      ensures c == null <==> name !in Names(children)
      ensures c != null ==> c in children && c.name == name
    {
      for i := 0 to |children|
        invariant forall k | 0 <= k < i :: children[k].name != name
      {
        if children[i].name == name {
          assert Names(children)[i] == name;
          return children[i];
        }
      }
      return null;
    }

    /** The state of this channel as a value. */
    ghost function Abs(): Node
      reads this, queue, queue.queue
    {
      Node(capacity, queue.sequential, throttle, Names(children), pauseUntil,
           queue.Ready(), queue.waiting, running, failed)
    }

    method AddToQueue(jobs: seq<ChannelJob>, ghost known: set<ChannelJob>)
      requires QueueValid(this, known)
      requires Fit(Elems(jobs), known)
      modifies queue`waiting, queue.queue, queue.etaQueue
      ensures QueueValid(this, known)
      ensures queue.waiting == old(queue.waiting)
      ensures queue.Ready() == old(queue.Ready()) + Elems(jobs)
    {
      var i := 0;
      while i < |jobs|
        invariant 0 <= i <= |jobs|
        invariant QueueValid(this, known)
        invariant queue.waiting == old(queue.waiting)
        invariant queue.Ready() == old(queue.Ready()) + Elems(jobs[..i])
      {
        AddReady(jobs[i], known);
        ElemsSnoc(jobs, i);
        i := i + 1;
      }
      assert jobs[..i] == jobs;
    }

    method AddReady(job: ChannelJob, ghost known: set<ChannelJob>)
      requires QueueValid(this, known) && job in known && job.eta.None?
      modifies queue`waiting, queue.queue, queue.etaQueue
      ensures QueueValid(this, known)
      ensures queue.waiting == old(queue.waiting) && queue.Ready() == old(queue.Ready()) + {job}
    {
      queue.Add(job);
    }

    /** Every other channel of the tree is as `before` says. */
    ghost predicate OthersAre(all: set<Channel>, before: map<Channel, Node>)
      reads all, set c | c in all :: c.queue, set c | c in all :: c.queue.queue
    {
      all <= before.Keys && forall c {:trigger c.Abs()} | c in all && c != this :: c.Abs() == before[c]
    }

    lemma NowIs(w: World, s: Snapshot)
      requires this in w.all && s.Keys == w.all && OthersAre(w.all, s)
      ensures w.Now() == s[this := Abs()]
    {
      assert forall c | c in w.all :: w.Now()[c] == c.Abs();
    }

    /** Adds the jobs that a child yields. */
    method AbsorbJobs(jobs: seq<ChannelJob>, ghost w: World, ghost before: Snapshot)
      requires this in w.all && w.Shape() && w.Linked() && QueuesValid(w) && OthersAre(w.all, before)
      requires Fit(Elems(jobs), w.jobs)
      modifies queue`waiting, queue.queue, queue.etaQueue
      ensures w.Linked() && QueuesValid(w) && OthersAre(w.all, before)
      ensures Abs() == Absorb(old(Abs()), jobs)
    {
      AddToQueue(jobs, w.jobs);
      forall c | c in w.all && c != this ensures QueueValid(c, w.jobs) && c.Abs() == old(c.Abs()) {
        assert w.Apart(c, this);
        assert old(QueueValid(c, w.jobs));
        HeapsHoldKnown(c);
      }
    }

    /** Takes the next job out of the queue, if there is one to run at `now`. */
    method PopOwn(now: Time, ghost known: set<ChannelJob>, ghost out: set<ChannelJob>) returns (o: Option<ChannelJob>)
      requires QueueValid(this, known) && NoEtas(out)
      modifies queue`waiting, queue.queue, queue.etaQueue, queue.etaQueue.known
      ensures QueueValid(this, known) && NoEtas(out)
      ensures Popped(Mature(old(Abs()), now), o, Abs())
      ensures o.Some? ==> o.value.eta == None && o.value !in queue.waiting && o.value in known
    {
      ghost var etas := queue.etaQueue.known;
      o := queue.Pop(now);
      forall j | j in out ensures j.eta.None? {
        assert j !in etas;
      }
    }

    method PopJob(now: Time, ghost w: World, ghost before: Snapshot, ghost out: set<ChannelJob>) returns (o: Option<ChannelJob>)
      requires this in w.all && w.Shape() && w.Linked() && QueuesValid(w) && OthersAre(w.all, before)
      requires NoEtas(out)
      modifies queue`waiting, queue.queue, queue.etaQueue, queue.etaQueue.known
      ensures w.Linked() && QueuesValid(w) && OthersAre(w.all, before)
      ensures NoEtas(out)
      ensures Popped(Mature(old(Abs()), now), o, Abs())
      ensures o.Some? ==> o.value.eta == None && o.value !in queue.waiting && o.value in w.jobs
    {
      assert QueueValid(this, w.jobs);
      o := PopOwn(now, w.jobs, out);
      forall c | c in w.all && c != this ensures QueueValid(c, w.jobs) && c.Abs() == old(c.Abs()) {
        assert w.Apart(c, this);
        assert old(QueueValid(c, w.jobs));
        HeapsHoldKnown(c);
      }
    }

    /** One turn of the loop below: `next` is `out` and the job that starts, if any. */
    method StartJob(now: Time, out: seq<ChannelJob>, ghost w: World, ghost before: Snapshot)
      returns (next: seq<ChannelJob>, stop: bool, ghost o: Option<ChannelJob>)
      requires this in w.all && w.Shape() && w.Linked() && QueuesValid(w) && OthersAre(w.all, before)
      requires SchedulerSpec.HasCapacity(Abs()) && Fit(Elems(out), w.jobs)
      modifies this`running, this`pauseUntil, queue`waiting, queue.queue, queue.etaQueue, w.jobs
      ensures w.Linked() && QueuesValid(w) && OthersAre(w.all, before)
      ensures Turn(old(Abs()), now, o, stop, Abs())
      ensures next == Extended(out, o) && Fit(Elems(next), w.jobs)
      ensures o.Some? ==> o.value !in queue.waiting
    {
      assert QueueValid(this, w.jobs);
      var job := PopJob(now, w, before, Elems(out));
      o := job;
      if job.None? {
        return out, true, o;
      }
      next := out + [job.value];
      stop := MarkRunning(job.value, now, w, before);
    }

    method MarkRunning(job: ChannelJob, now: Time, ghost w: World, ghost before: Snapshot) returns (stop: bool)
      requires w.Linked() && QueuesValid(w) && OthersAre(w.all, before)
      modifies this`running, this`pauseUntil
      ensures w.Linked() && QueuesValid(w) && OthersAre(w.all, before)
      ensures stop == (throttle != 0.0)
      ensures var n := old(Abs()).(running := old(running) + {job});
              Abs() == if stop then n.(pauseUntil := now + throttle) else n
    {
      running := running + {job};
      stop := throttle != 0.0;
      if stop {
        pauseUntil := now + throttle;
      }
    }

    /** One turn of the loop; `more` says whether the loop goes on. */
    method YieldOne(now: Time, out: seq<ChannelJob>, ghost start: Node, ghost w: World, ghost before: Snapshot)
      returns (next: seq<ChannelJob>, more: bool)
      requires this in w.all && w.Shape() && w.Linked() && QueuesValid(w) && OthersAre(w.all, before)
      requires Fit(Elems(out), w.jobs) && Goes(start, now, out, true, Abs())
      modifies this`running, this`pauseUntil, queue`waiting, queue.queue, queue.etaQueue, w.jobs
      ensures w.Linked() && QueuesValid(w) && OthersAre(w.all, before)
      ensures Fit(Elems(next), w.jobs) && Goes(start, now, next, more, Abs())
      ensures more ==> Pending(Abs()) < old(Pending(Abs()))
    {
      ghost var job;
      var stop;
      next, stop, job := StartJob(now, out, w, before);
      TurnProgress(start, now, out, old(Abs()), job, stop, Abs());
      more := HasCapacity();
      more := more && !stop;
      if !more {
        FullProgress(start, now, next, stop, Abs());
      }
    }

    /** Yields jobs from the queue while there is capacity. */
    method YieldJobs(now: Time, ghost w: World, ghost before: Snapshot) returns (out: seq<ChannelJob>)
      requires this in w.all && w.Shape() && w.Linked() && QueuesValid(w) && OthersAre(w.all, before)
      modifies this`running, this`pauseUntil, queue`waiting, queue.queue, queue.etaQueue, w.jobs
      ensures w.Linked() && QueuesValid(w) && OthersAre(w.all, before)
      ensures Yields(old(Abs()), now, out, Abs())
      ensures Fit(Elems(out), w.jobs)
    {
      out := [];
      ghost var start := Abs();
      var more := HasCapacity();
      while more
        invariant w.Linked() && QueuesValid(w) && OthersAre(w.all, before)
        invariant Fit(Elems(out), w.jobs) && Goes(start, now, out, more, Abs())
        decreases more, Pending(Abs())
      {
        out, more := YieldOne(now, out, start, w, before);
      }
    }

    method Drain(now: Time, ghost w: World, ghost before: Snapshot) returns (out: seq<ChannelJob>)
      requires this in w.all && w.Shape() && w.Linked() && QueuesValid(w) && OthersAre(w.all, before)
      modifies this`running, this`pauseUntil, queue`waiting, queue.queue, queue.etaQueue, w.jobs
      ensures w.Linked() && QueuesValid(w) && OthersAre(w.all, before)
      ensures Drained(old(Abs()), now, out, Abs())
      ensures Fit(Elems(out), w.jobs)
    {
      if throttle != 0.0 && pauseUntil != 0.0 {
        if now < pauseUntil {
          return [];
        }
        pauseUntil := 0.0;
      }
      assert Abs() == Unpause(old(Abs()));
      out := YieldJobs(now, w, before);
    }

    /** One child yields its jobs into the queue of this channel. */
    method TakeFromChild(i: nat, now: Time, ghost w: World, ghost before: Snapshot, ghost flow: Flow) returns (ghost y: Flow)
      requires this in w.all && w.Shape() && w.Linked() && QueuesValid(w) && i < |children|
      requires SubtreePartly(w, this, before, w.Now(), now, flow, i) && NamesOk(w, before)
      modifies w.all`running, w.all`pauseUntil, w.Queues()`waiting, w.Heaps(), w.jobs
      ensures w.Linked() && QueuesValid(w)
      ensures SubtreePartly(w, this, before, w.Now(), now, y, i + 1)
      decreases w.Depth() - |path|, 0
    {
      ghost var s1 := w.Now();
      w.ChildBelow(this, i);
      var jobs;
      ghost var cy;
      jobs, cy := children[i].GetJobsToRun(now, w);
      ghost var s2 := w.Now();
      AbsorbJobs(jobs, w, s2);
      NowIs(w, s2);
      y := flow + cy;
      SubtreeStep(w, this, before, s1, s2, w.Now(), now, flow, cy, i);
    }

    /**
      Jobs to run: first the children yield theirs, then this channel yields from its queue.
      The ghost result says what every channel of the subtree has yielded.
     */
    method GetJobsToRun(now: Time, ghost w: World) returns (jobs: seq<ChannelJob>, ghost y: Flow)
      requires this in w.all && w.Shape() && w.Linked() && QueuesValid(w)
      modifies w.all`running, w.all`pauseUntil, w.Queues()`waiting, w.Heaps(), w.jobs
      ensures w.Linked() && QueuesValid(w)
      ensures SubtreeDone(w, this, old(w.Now()), w.Now(), now, y)
      ensures path in y && y[path] == jobs && Fit(Elems(jobs), w.jobs)
      decreases w.Depth() - |path|, 1
    {
      ghost var before := w.Now();
      y := map[];
      var i := 0;
      while i < |children|
        invariant 0 <= i <= |children|
        invariant w.Linked() && QueuesValid(w)
        invariant SubtreePartly(w, this, before, w.Now(), now, y, i)
      {
        y := TakeFromChild(i, now, w, before, y);
        i := i + 1;
      }
      ghost var s3 := w.Now();
      jobs := Drain(now, w, s3);
      SubtreeEnd(w, this, before, s3, w.Now(), now, y, jobs);
      y := y[path := jobs];
    }

    // ---------- wakeup time ----------

    /** Looks at the jobs that wait for their eta in the queue of this channel. */
    method QueueWakeupTime(wakeup: Time, ghost w: World) returns (r: Time)
      requires this in w.all && w.Shape() && w.Linked() && QueuesValid(w)
      modifies queue.etaQueue
      ensures w.Linked() && QueuesValid(w) && w.Now() == old(w.Now())
      ensures r == QueueWakeup(w.Now()[this].waiting, wakeup)
    {
      ghost var s := w.Now();
      assert QueueValid(this, w.jobs);
      r := queue.GetWakeupTime(wakeup);
      forall c | c in w.all && c != this ensures QueueValid(c, w.jobs) && c.Abs() == old(c.Abs()) {
        assert w.Apart(c, this);
        assert old(QueueValid(c, w.jobs));
        HeapsHoldKnown(c);
      }
      assert Abs() == s[this];
    }

    /** When to poll again, at the latest; zero if only a notification can make a difference. */
    method GetWakeupTime(wakeup: Time, ghost w: World) returns (r: Time)
      requires this in w.all && w.Shape() && w.Linked() && QueuesValid(w) && NamesOk(w, w.Now())
      modifies w.Heaps()
      ensures w.Linked() && QueuesValid(w) && w.Now() == old(w.Now())
      ensures r == WakeupOf(w, old(w.Now()), this, wakeup)
      decreases w.Depth() - |path|, 2
    {
      ghost var s := w.Now();
      WakeupAt(w, s, this, wakeup);
      assert s[this] == Abs();
      var room := HasCapacity();
      if !room {
        return wakeup;
      }
      if pauseUntil != 0.0 {
        return if wakeup == 0.0 then pauseUntil else if pauseUntil < wakeup then pauseUntil else wakeup;
      }
      r := QueueWakeupTime(wakeup, w);
      ghost var steps := WakeupSteps(w, s, this, |children|, r);
      r := ChildrenWakeupTime(r, w, s, steps);
    }

    /** Step `i` of `steps` is the wakeup time once the first `i` children have been asked. */
    method ChildrenWakeupTime(wakeup: Time, ghost w: World, ghost s: Snapshot, ghost steps: seq<Time>) returns (r: Time)
      requires this in w.all && w.Shape() && w.Linked() && QueuesValid(w) && w.Now() == s && NamesOk(w, s)
      requires AreSteps(w, s, this, steps) && |steps| == |children| + 1 && steps[0] == wakeup
      modifies w.Heaps()
      ensures w.Linked() && QueuesValid(w) && w.Now() == s
      ensures r == steps[|children|]
      decreases w.Depth() - |path|, 1
    {
      r := wakeup;
      var i := 0;
      while i < |children|
        invariant 0 <= i <= |children| && |steps| == |children| + 1
        invariant w.Linked() && QueuesValid(w) && w.Now() == s
        invariant r == steps[i]
      {
        r := WakeupOfChild(i, r, w, s, steps);
        i := i + 1;
      }
    }

    method WakeupOfChild(i: nat, wakeup: Time, ghost w: World, ghost s: Snapshot, ghost steps: seq<Time>) returns (r: Time)
      requires this in w.all && w.Shape() && w.Linked() && QueuesValid(w) && w.Now() == s && NamesOk(w, s)
      requires AreSteps(w, s, this, steps) && i < |children| && i + 1 < |steps| && wakeup == steps[i]
      modifies w.Heaps()
      ensures w.Linked() && QueuesValid(w) && w.Now() == s
      ensures r == steps[i + 1]
      decreases w.Depth() - |path|, 0
    {
      w.ChildBelow(this, i);
      assert IsStep(w, s, this, steps, i);
      r := children[i].GetWakeupTime(wakeup, w);
    }

    // ---------- moves ----------

    method Dequeue(job: ChannelJob, ghost w: World, ghost before: Snapshot)
      requires this in w.all && w.Shape() && w.Linked() && QueuesValid(w) && OthersAre(w.all, before)
      modifies queue`waiting, queue.queue`removed, queue.etaQueue`removed
      ensures w.Linked() && QueuesValid(w) && OthersAre(w.all, before)
      ensures Abs() == old(Abs()).(ready := old(queue.Ready()) - {job}, waiting := old(queue.waiting) - {job})
    {
      assert QueueValid(this, w.jobs);
      queue.Remove(job);
      forall c | c in w.all && c != this ensures QueueValid(c, w.jobs) && c.Abs() == old(c.Abs()) {
        assert w.Apart(c, this);
        assert old(QueueValid(c, w.jobs));
        HeapsHoldKnown(c);
      }
    }

    method AddOwn(job: ChannelJob, ghost known: set<ChannelJob>)
      requires QueueValid(this, known) && job in known && job.channel == path
      modifies queue`waiting, queue.queue, queue.etaQueue
      ensures QueueValid(this, known)
      ensures Abs() == Queue(old(Abs()), job, job.eta)
    {
      queue.Add(job);
    }

    method Enqueue(job: ChannelJob, ghost w: World, ghost before: Snapshot)
      requires this in w.all && w.Shape() && w.Linked() && QueuesValid(w) && OthersAre(w.all, before)
      requires job in w.jobs && job.channel == path
      modifies queue`waiting, queue.queue, queue.etaQueue
      ensures w.Linked() && QueuesValid(w) && OthersAre(w.all, before)
      ensures Abs() == Queue(old(Abs()), job, job.eta)
    {
      assert QueueValid(this, w.jobs);
      AddOwn(job, w.jobs);
      forall c | c in w.all && c != this ensures QueueValid(c, w.jobs) && c.Abs() == old(c.Abs()) {
        assert w.Apart(c, this);
        assert old(QueueValid(c, w.jobs));
        HeapsHoldKnown(c);
      }
    }

    static function With(jobs: set<ChannelJob>, j: ChannelJob, present: bool): set<ChannelJob> {
      if present then jobs - {j} + {j} else jobs - {j}
    }

    method SetMembership(job: ChannelJob, runs: bool, fails: bool, ghost w: World, ghost before: Snapshot)
      requires this in w.all && w.Linked() && QueuesValid(w) && OthersAre(w.all, before)
      modifies this`running, this`failed
      ensures w.Linked() && QueuesValid(w) && OthersAre(w.all, before)
      ensures running == With(old(running), job, runs) && failed == With(old(failed), job, fails)
      ensures Abs() == old(Abs()).(running := running, failed := failed)
    {
      running := With(running, job, runs);
      failed := With(failed, job, fails);
    }

    /** Takes the job out of this channel. */
    method Discard(job: ChannelJob, ghost w: World)
      requires this in w.all && w.Shape() && w.Linked() && QueuesValid(w)
      modifies this`running, this`failed, queue`waiting, queue.queue`removed, queue.etaQueue`removed
      ensures w.Linked() && QueuesValid(w)
      ensures w.Now() == old(w.Now())[this := Drop(old(Abs()), job)]
    {
      ghost var s := w.Now();
      Dequeue(job, w, s);
      SetMembership(job, false, false, w, s);
      assert Abs() == Drop(s[this], job);
      NowIs(w, s);
    }

    /** Takes the job out of this channel and out of all parents. */
    method Remove(job: ChannelJob, ghost w: World)
      requires this in w.all && w.Shape() && w.Linked() && QueuesValid(w)
      modifies w.all`running, w.all`failed, w.Queues()`waiting, w.Heaps()`removed
      ensures w.Linked() && QueuesValid(w)
      ensures w.Now() == DropUp(w, this, old(w.Now()), job)
      decreases |path|
    {
      Discard(job, w);
      assert w.Joined(this);
      if parent != null {
        parent.Remove(job, w);
      }
    }

    method LeaveParents(job: ChannelJob, ghost w: World)
      requires this in w.all && w.Shape() && w.Linked() && QueuesValid(w)
      modifies w.all`running, w.all`failed, w.Queues()`waiting, w.Heaps()`removed
      ensures w.Linked() && QueuesValid(w)
      ensures w.Now() == DropAbove(w, this, old(w.Now()), job)
    {
      assert w.Joined(this);
      if parent != null {
        parent.Remove(job, w);
      }
    }

    /** Puts the job into the queue of this channel and into no other set of it. */
    method Admit(job: ChannelJob, ghost w: World)
      requires this in w.all && w.Shape() && w.Linked() && QueuesValid(w)
      requires job in w.jobs && job.channel == path && !w.Now()[this].InQueue(job)
      modifies this`running, this`failed, queue`waiting, queue.queue, queue.etaQueue
      ensures w.Linked() && QueuesValid(w)
      ensures w.Now() == Pended(old(w.Now()), this, job, job.eta)
    {
      ghost var s := w.Now();
      Enqueue(job, w, s);
      SetMembership(job, false, false, w, s);
      QueueAfterDrop(s[this], job, job.eta);
      NowIs(w, s);
    }

    method IsQueued(job: ChannelJob, ghost w: World, ghost s: Snapshot) returns (b: bool)
      requires this in w.all && QueuesValid(w) && w.Now() == s
      ensures b == s[this].InQueue(job)
    {
      assert QueueValid(this, w.jobs);
      b := queue.Contains(job);
    }

    /** A job that is not in the queue of this channel goes there, and leaves the parents. */
    method SetPending(job: ChannelJob, ghost w: World)
      requires this in w.all && w.Shape() && w.Linked() && QueuesValid(w)
      requires job in w.jobs && job.channel == path
      modifies w.all`running, w.all`failed, w.Queues()`waiting, w.Heaps()
      ensures w.Linked() && QueuesValid(w)
      ensures w.Now() == PendUp(w, this, old(w.Now()), job, old(job.eta))
    {
      ghost var s, eta := w.Now(), job.eta;
      PendUpCases(w, this, s, job, eta);
      var queued := IsQueued(job, w, s);
      if !queued {
        Requeue(job, w, s, eta);
      }
    }

    method Requeue(job: ChannelJob, ghost w: World, ghost s: Snapshot, ghost eta: Option<Time>)
      requires this in w.all && w.Shape() && w.Linked() && QueuesValid(w) && w.Now() == s && job.eta == eta
      requires job in w.jobs && job.channel == path && !s[this].InQueue(job)
      modifies w.all`running, w.all`failed, w.Queues()`waiting, w.Heaps()
      ensures w.Linked() && QueuesValid(w)
      ensures w.Now() == DropAbove(w, this, Pended(s, this, job, eta), job)
    {
      Admit(job, w);
      LeaveParents(job, w);
    }

    /** Marks the job as running here and in the parents, up to the first one where it runs already. */
    method SetRunning(job: ChannelJob, ghost w: World)
      requires this in w.all && w.Shape() && w.Linked() && QueuesValid(w)
      modifies w.all`running, w.all`failed, w.Queues()`waiting, w.Heaps()`removed
      ensures w.Linked() && QueuesValid(w)
      ensures w.Now() == RunUp(w, this, old(w.Now()), job)
      decreases |path|
    {
      if job !in running {
        ghost var s := w.Now();
        Dequeue(job, w, s);
        SetMembership(job, true, false, w, s);
        NowIs(w, s);
        assert Abs() == Occupy(s[this], job);
        assert w.Joined(this);
        if parent != null {
          parent.SetRunning(job, w);
        }
      }
    }

    method SetFailed(job: ChannelJob, ghost w: World)
      requires this in w.all && w.Shape() && w.Linked() && QueuesValid(w)
      modifies w.all`running, w.all`failed, w.Queues()`waiting, w.Heaps()`removed
      ensures w.Linked() && QueuesValid(w)
      ensures w.Now() == FailUp(w, this, old(w.Now()), job)
    {
      if job !in failed {
        ghost var s := w.Now();
        Dequeue(job, w, s);
        SetMembership(job, false, true, w, s);
        NowIs(w, s);
        assert Abs() == Fail(s[this], job);
        LeaveParents(job, w);
      }
    }

    method HasCapacity() returns (b: bool)
      ensures b == SchedulerSpec.HasCapacity(Abs())
      ensures b <==> !(queue.sequential && failed != {}) && (capacity.Some? && capacity.value != 0 ==> |running| < capacity.value)
    {
      if queue.sequential && failed != {} {
        return false;
      }
      if capacity.None? || capacity.value == 0 {
        return true;
      }
      return |running| < capacity.value;
    }
  }

  lemma QueueAfterDrop(n: Node, j: ChannelJob, eta: Option<Time>)
    requires !n.InQueue(j)
    ensures Queue(Drop(n, j), j, eta) == Queue(n, j, eta).(running := n.running - {j}, failed := n.failed - {j})
  {
    assert n.ready - {j} == n.ready && n.waiting - {j} == n.waiting;
  }

  twostate predicate JobsUnchanged(c: Channel)
    reads c.queue.queue, c.queue.etaQueue, c.queue.queue.known, c.queue.etaQueue.known
  {
    && (forall j | j in c.queue.queue.known :: old(allocated(j)) && unchanged(j))
    && (forall j | j in c.queue.etaQueue.known :: old(allocated(j)) && unchanged(j))
  }

  twostate lemma HeapsHoldKnown(c: Channel)
    requires old(c.queue.Valid())
    requires unchanged(c) && unchanged(c.queue) && unchanged(c.queue.queue) && unchanged(c.queue.etaQueue)
    requires JobsUnchanged(c)
    ensures c.queue.Valid()
  {
    c.queue.queue.StillValid();
    c.queue.etaQueue.StillValid();
  }

  /**
    The channels of one tree, and the children of each. Parents, names and queues never
    change, so how the channels hang together can be said without the heap.
   */
  datatype World = World(all: set<Channel>, kids: map<Channel, seq<Channel>>, jobs: set<ChannelJob>) {

    ghost predicate Shape() {
      && kids.Keys == all
      && (forall c {:trigger Joined(c)} | c in all :: Joined(c))
      && (forall c, d {:trigger Apart(c, d)} | c in all && d in all && c != d :: Apart(c, d))
    }

    ghost predicate Joined(c: Channel)
      requires c in kids
    {
      && (c.parent == null ==> c.path == ROOT && c.name == "root")
      && (c.parent != null ==> c.parent in kids && c in kids[c.parent] && c.path == c.parent.path + [c.name])
      && (forall i | 0 <= i < |kids[c]| :: kids[c][i] in all && kids[c][i].parent == c)
      && (forall i, k | 0 <= i < k < |kids[c]| :: kids[c][i] != kids[c][k])
    }

    ghost predicate Apart(c: Channel, d: Channel) {
      && c.path != d.path
      && c.queue != d.queue
      && c.queue.queue != d.queue.queue && c.queue.queue != d.queue.etaQueue
      && c.queue.etaQueue != d.queue.queue && c.queue.etaQueue != d.queue.etaQueue
    }

    ghost predicate Linked()
      reads all`children
    {
      forall c {:trigger c.children} | c in all && c in kids :: c.children == kids[c]
    }

    ghost function Now(): Snapshot
      reads all, set c | c in all :: c.queue, set c | c in all :: c.queue.queue
    {
      map c | c in all :: c.Abs()
    }

    ghost function Queues(): set<ChannelQueue> {
      set c | c in all :: c.queue
    }

    ghost function Heaps(): set<PriorityQueue> {
      (set c | c in all :: c.queue.queue) + (set c | c in all :: c.queue.etaQueue)
    }

    ghost function Depth(): nat {
      SchedulerSpec.Depth(set c | c in all :: c.path)
    }

    lemma ChildBelow(c: Channel, i: nat)
      requires Shape() && c in all && i < |kids[c]|
      ensures kids[c][i] in all && kids[c][i].path == c.path + [kids[c][i].name]
      ensures |c.path| < |kids[c][i].path| <= Depth()
    {
      assert Joined(c) && Joined(kids[c][i]);
      DepthBounds(set d | d in all :: d.path, kids[c][i].path);
    }
  }

  // ---------- a pass over a subtree, on snapshots ----------

  type Snapshot = map<Channel, Node>

  /** Node `n` at path `p` has had its turn. */
  ghost predicate PassedAt(n: Node, p: Path, now: Time, y: Flow, n': Node) {
    p in y && Drained(Absorb(n, Inflow(n.children, p, y)), now, y[p], n')
  }

  ghost predicate NamesOk(w: World, s: Snapshot) {
    s.Keys == w.all == w.kids.Keys && forall d {:trigger s[d]} | d in w.all :: s[d].children == Names(w.kids[d])
  }

  // ---------- snapshots as schedules ----------

  /** The tree with every channel under its full name. */
  ghost function AsSched(w: World, s: Snapshot): Sched
    requires w.Shape() && s.Keys == w.all
  {
    assert forall c, d | c in w.all && d in w.all && c.path == d.path :: c == d by {
      forall c, d | c in w.all && d in w.all && c != d ensures c.path != d.path {
        assert w.Apart(c, d);
      }
    }
    map c | c in w.all :: c.path := s[c]
  }

  lemma {:induction false} RootIn(w: World, c: Channel) returns (root: Channel)
    requires w.Shape() && c in w.all
    ensures root in w.all && root.parent == null && root.path == ROOT
    decreases |c.path|
  {
    assert w.Joined(c);
    if c.parent == null {
      root := c;
    } else {
      root := RootIn(w, c.parent);
    }
  }

  lemma SchedAt(w: World, s: Snapshot, c: Channel)
    requires w.Shape() && s.Keys == w.all && c in w.all
    ensures c.path in AsSched(w, s) && AsSched(w, s)[c.path] == s[c]
  {
    var d :| d in w.all && d.path == c.path && AsSched(w, s)[c.path] == s[d];
    assert d != c ==> w.Apart(c, d);
  }

  lemma LinkedAt(w: World, s: Snapshot, c: Channel)
    requires w.Shape() && NamesOk(w, s) && c in w.all
    ensures c.path in AsSched(w, s) && Linked(AsSched(w, s), c.path)
  {
    var f := AsSched(w, s);
    assert w.Joined(c);
    SchedAt(w, s, c);
    if c.parent != null {
      assert w.Joined(c.parent);
      SchedAt(w, s, c.parent);
      assert c.path[..|c.path| - 1] == c.parent.path;
      var i :| 0 <= i < |w.kids[c.parent]| && w.kids[c.parent][i] == c;
      assert s[c.parent].children[i] == c.name;
    }
    forall i | 0 <= i < |s[c].children| ensures c.path + [s[c].children[i]] in f {
      w.ChildBelow(c, i);
      SchedAt(w, s, w.kids[c][i]);
    }
    forall i, k | 0 <= i < k < |s[c].children| ensures s[c].children[i] != s[c].children[k] {
      w.ChildBelow(c, i);
      w.ChildBelow(c, k);
      assert w.Apart(w.kids[c][i], w.kids[c][k]);
    }
  }

  /** Channels that hang together as objects make a well-formed tree of names. */
  lemma ShapeWellFormed(w: World, s: Snapshot)
    requires w.Shape() && NamesOk(w, s) && w.all != {}
    ensures WellFormed(AsSched(w, s))
  {
    var f := AsSched(w, s);
    var c :| c in w.all;
    var root := RootIn(w, c);
    assert root.path in f;
    forall p | p in f ensures Linked(f, p) {
      var d :| d in w.all && d.path == p;
      LinkedAt(w, s, d);
    }
  }

  ghost function WakeupOf(w: World, s: Snapshot, c: Channel, wakeup: Time): Time
    requires w.Shape() && NamesOk(w, s) && c in w.all
  {
    ShapeWellFormed(w, s);
    LinkedAt(w, s, c);
    Wakeup(AsSched(w, s), c.path, wakeup)
  }

  ghost function WakeupFrom(w: World, s: Snapshot, c: Channel, i: nat, wakeup: Time): Time
    requires w.Shape() && NamesOk(w, s) && c in w.all && i <= |w.kids[c]|
  {
    ShapeWellFormed(w, s);
    LinkedAt(w, s, c);
    SchedAt(w, s, c);
    assert |s[c].children| == |w.kids[c]|;
    ChildrenWakeup(AsSched(w, s), c.path, i, wakeup)
  }

  lemma WakeupAt(w: World, s: Snapshot, c: Channel, wakeup: Time)
    requires w.Shape() && NamesOk(w, s) && c in w.all
    ensures WakeupOf(w, s, c, wakeup) ==
              if !HasCapacity(s[c]) then wakeup
              else if s[c].pauseUntil != 0.0 then Earlier(wakeup, s[c].pauseUntil)
              else WakeupFrom(w, s, c, 0, QueueWakeup(s[c].waiting, wakeup))
  {
    SchedAt(w, s, c);
  }

  ghost predicate IsStep(w: World, s: Snapshot, c: Channel, steps: seq<Time>, i: nat)
    requires w.Shape() && NamesOk(w, s) && c in w.all && i + 1 < |steps| <= |w.kids[c]| + 1
  {
    w.ChildBelow(c, i);
    steps[i + 1] == WakeupOf(w, s, w.kids[c][i], steps[i])
  }

  ghost predicate AreSteps(w: World, s: Snapshot, c: Channel, steps: seq<Time>)
    requires w.Shape() && NamesOk(w, s) && c in w.all
  {
    && 1 <= |steps| <= |w.kids[c]| + 1
    && forall i {:trigger IsStep(w, s, c, steps, i)} | 0 <= i < |steps| - 1 :: IsStep(w, s, c, steps, i)
  }

  lemma WakeupNext(w: World, s: Snapshot, c: Channel, i: nat, wakeup: Time)
    requires w.Shape() && NamesOk(w, s) && c in w.all && i < |w.kids[c]| && w.kids[c][i] in w.all
    ensures WakeupFrom(w, s, c, i, wakeup) == WakeupFrom(w, s, c, i + 1, WakeupOf(w, s, w.kids[c][i], wakeup))
  {
    SchedAt(w, s, c);
    w.ChildBelow(c, i);
    assert w.kids[c][i].path == c.path + [s[c].children[i]];
  }

  lemma WakeupDone(w: World, s: Snapshot, c: Channel, wakeup: Time)
    requires w.Shape() && NamesOk(w, s) && c in w.all
    ensures WakeupFrom(w, s, c, |w.kids[c]|, wakeup) == wakeup
  {
    SchedAt(w, s, c);
  }

  /** Asking the children one after the other. */
  lemma {:induction false} WakeupSteps(w: World, s: Snapshot, c: Channel, n: nat, wakeup: Time) returns (steps: seq<Time>)
    requires w.Shape() && NamesOk(w, s) && c in w.all && n <= |w.kids[c]|
    ensures AreSteps(w, s, c, steps) && |steps| == n + 1 && steps[0] == wakeup
    ensures WakeupFrom(w, s, c, n, steps[n]) == WakeupFrom(w, s, c, 0, wakeup)
    ensures n == |w.kids[c]| ==> steps[n] == WakeupFrom(w, s, c, 0, wakeup)
    decreases n
  {
    if n == 0 {
      steps := [wakeup];
    } else {
      var init := WakeupSteps(w, s, c, n - 1, wakeup);
      w.ChildBelow(c, n - 1);
      steps := init + [WakeupOf(w, s, w.kids[c][n - 1], init[n - 1])];
      forall i | 0 <= i < n ensures IsStep(w, s, c, steps, i) {
        if i < n - 1 {
          assert IsStep(w, s, c, init, i);
        }
      }
      WakeupNext(w, s, c, n - 1, init[n - 1]);
    }
    if n == |w.kids[c]| {
      WakeupDone(w, s, c, steps[n]);
    }
  }

  /** Channel `d` is in the subtree of one of the first `i` children of `c`. */
  ghost predicate Under(w: World, c: Channel, i: nat, d: Channel)
    requires c in w.kids && i <= |w.kids[c]|
  {
    exists k | 0 <= k < i :: w.kids[c][k].path <= d.path
  }

  ghost predicate SubtreeDone(w: World, c: Channel, s: Snapshot, s': Snapshot, now: Time, y: Flow) {
    && s.Keys == s'.Keys == w.all
    && y.Keys == (set d | d in w.all && c.path <= d.path :: d.path)
    && forall d {:trigger s'[d]} | d in w.all ::
         if c.path <= d.path then PassedAt(s[d], d.path, now, y, s'[d]) else s'[d] == s[d]
  }

  ghost predicate SubtreePartly(w: World, c: Channel, s: Snapshot, s': Snapshot, now: Time, y: Flow, i: nat) {
    && s.Keys == s'.Keys == w.all && c in w.kids && c in w.all && i <= |w.kids[c]|
    && y.Keys == (set d | d in w.all && Under(w, c, i, d) :: d.path)
    && (forall d {:trigger s'[d]} | d in w.all && d != c ::
          if Under(w, c, i, d) then PassedAt(s[d], d.path, now, y, s'[d]) else s'[d] == s[d])
    && s'[c] == Absorb(s[c], Inflow(Names(w.kids[c][..i]), c.path, y))
  }

  // ---------- a job moves up from channel to parent ----------

  ghost function DropUp(w: World, c: Channel, s: Snapshot, j: ChannelJob): Snapshot
    requires w.Shape() && c in w.all && s.Keys == w.all
    decreases |c.path|
  {
    var s1 := s[c := Drop(s[c], j)];
    assert w.Joined(c);
    if c.parent == null then s1 else DropUp(w, c.parent, s1, j)
  }

  ghost function DropAbove(w: World, c: Channel, s: Snapshot, j: ChannelJob): Snapshot
    requires w.Shape() && c in w.all && s.Keys == w.all
  {
    assert w.Joined(c);
    if c.parent == null then s else DropUp(w, c.parent, s, j)
  }

  ghost function Pended(s: Snapshot, c: Channel, j: ChannelJob, eta: Option<Time>): Snapshot
    requires c in s
  {
    s[c := Queue(Drop(s[c], j), j, eta)]
  }

  ghost function PendUp(w: World, c: Channel, s: Snapshot, j: ChannelJob, eta: Option<Time>): Snapshot
    requires w.Shape() && c in w.all && s.Keys == w.all
  {
    if s[c].InQueue(j) then s else DropAbove(w, c, Pended(s, c, j, eta), j)
  }

  lemma PendUpCases(w: World, c: Channel, s: Snapshot, j: ChannelJob, eta: Option<Time>)
    requires w.Shape() && c in w.all && s.Keys == w.all
    ensures s[c].InQueue(j) ==> PendUp(w, c, s, j, eta) == s
    ensures !s[c].InQueue(j) ==> PendUp(w, c, s, j, eta) == DropAbove(w, c, Pended(s, c, j, eta), j)
  {
  }

  ghost function RunUp(w: World, c: Channel, s: Snapshot, j: ChannelJob): Snapshot
    requires w.Shape() && c in w.all && s.Keys == w.all
    decreases |c.path|
  {
    assert w.Joined(c);
    if j in s[c].running then s
    else
      var s1 := s[c := Occupy(s[c], j)];
      if c.parent == null then s1 else RunUp(w, c.parent, s1, j)
  }

  ghost function FailUp(w: World, c: Channel, s: Snapshot, j: ChannelJob): Snapshot
    requires w.Shape() && c in w.all && s.Keys == w.all
  {
    if j in s[c].failed then s else DropAbove(w, c, s[c := Fail(s[c], j)], j)
  }

  // ---------- helpers for passes ----------

  lemma {:induction false} InflowAgrees(cs: seq<string>, p: Path, y: Flow, y': Flow)
    requires forall i | 0 <= i < |cs| :: SameAt(y, y', p + [cs[i]])
    ensures Inflow(cs, p, y) == Inflow(cs, p, y')
  {
    if cs != [] {
      assert SameAt(y, y', p + [cs[0]]);
      forall i | 0 <= i < |cs[1..]| ensures SameAt(y, y', p + [cs[1..][i]]) {
        assert SameAt(y, y', p + [cs[i + 1]]);
      }
      InflowAgrees(cs[1..], p, y, y');
    }
  }

  ghost predicate SameAt(y: Flow, y': Flow, q: Path) {
    (q in y <==> q in y') && (q in y ==> y[q] == y'[q])
  }

  lemma {:induction false} InflowSnoc(cs: seq<string>, p: Path, y: Flow, n: string)
    requires p + [n] in y
    ensures Inflow(cs + [n], p, y) == Inflow(cs, p, y) + y[p + [n]]
  {
    if cs == [] {
      assert ([n])[1..] == [];
    } else {
      InflowSnoc(cs[1..], p, y, n);
      assert (cs + [n])[1..] == cs[1..] + [n];
    }
  }

  /** No channel is in the subtrees of two children. */
  lemma KidsApart(w: World, c: Channel, i: nat, k: nat, p: Path)
    requires w.Shape() && c in w.all && i < k < |w.kids[c]|
    ensures !(w.kids[c][i].path <= p && w.kids[c][k].path <= p)
  {
    w.ChildBelow(c, i);
    w.ChildBelow(c, k);
    assert w.Joined(c) && w.Apart(w.kids[c][i], w.kids[c][k]);
  }

  lemma PassedAtMerge(n: Node, p: Path, now: Time, y: Flow, y': Flow, n': Node)
    requires PassedAt(n, p, now, y, n') && SameAt(y, y', p)
    requires forall x | x in n.children :: SameAt(y, y', p + [x])
    ensures PassedAt(n, p, now, y', n')
  {
    InflowAgrees(n.children, p, y, y');
  }

  /** What the earlier children have yielded does not change when the next child comes in. */
  lemma EarlierKept(w: World, c: Channel, y: Flow, cy: Flow, i: nat, q: Path)
    requires w.Shape() && c in w.all && i < |w.kids[c]|
    requires cy.Keys == (set d | d in w.all && w.kids[c][i].path <= d.path :: d.path)
    requires exists k | 0 <= k < i :: w.kids[c][k].path <= q
    ensures SameAt(y, y + cy, q)
  {
    var k :| 0 <= k < i && w.kids[c][k].path <= q;
    KidsApart(w, c, k, i, q);
  }

  lemma LaterNew(w: World, c: Channel, y: Flow, cy: Flow, i: nat, q: Path)
    requires w.Shape() && c in w.all && i < |w.kids[c]|
    requires y.Keys == (set d | d in w.all && Under(w, c, i, d) :: d.path)
    requires w.kids[c][i].path <= q
    ensures SameAt(cy, y + cy, q)
  {
    if q in y {
      var d :| d in w.all && Under(w, c, i, d) && d.path == q;
      var k :| 0 <= k < i && w.kids[c][k].path <= q;
      KidsApart(w, c, k, i, q);
    }
  }

  lemma UnderNext(w: World, c: Channel, i: nat, d: Channel)
    requires c in w.kids && i < |w.kids[c]|
    ensures Under(w, c, i + 1, d) <==> Under(w, c, i, d) || w.kids[c][i].path <= d.path
  {
  }

  lemma StepNode(w: World, c: Channel, s: Snapshot, s1: Snapshot, s2: Snapshot,
                 now: Time, y: Flow, cy: Flow, i: nat, d: Channel)
    requires w.Shape() && NamesOk(w, s) && SubtreePartly(w, c, s, s1, now, y, i) && i < |w.kids[c]|
    requires SubtreeDone(w, w.kids[c][i], s1, s2, now, cy) && d in w.all && d != c
    ensures if Under(w, c, i + 1, d) then PassedAt(s[d], d.path, now, y + cy, s2[d]) else s2[d] == s[d]
  {
    var child := w.kids[c][i];
    UnderNext(w, c, i, d);
    assert s2[d] == s2[d] && s1[d] == s1[d];
    if Under(w, c, i, d) {
      var k :| 0 <= k < i && w.kids[c][k].path <= d.path;
      KidsApart(w, c, k, i, d.path);
      EarlierKept(w, c, y, cy, i, d.path);
      forall x | x in s[d].children ensures SameAt(y, y + cy, d.path + [x]) {
        assert w.kids[c][k].path <= d.path + [x];
        EarlierKept(w, c, y, cy, i, d.path + [x]);
      }
      PassedAtMerge(s[d], d.path, now, y, y + cy, s2[d]);
    } else if child.path <= d.path {
      LaterNew(w, c, y, cy, i, d.path);
      forall x | x in s[d].children ensures SameAt(cy, y + cy, d.path + [x]) {
        LaterNew(w, c, y, cy, i, d.path + [x]);
      }
      PassedAtMerge(s[d], d.path, now, cy, y + cy, s2[d]);
    }
  }

  lemma NextInflow(w: World, c: Channel, y: Flow, cy: Flow, i: nat)
    requires w.Shape() && c in w.all && i < |w.kids[c]|
    requires cy.Keys == (set d | d in w.all && w.kids[c][i].path <= d.path :: d.path)
    ensures w.kids[c][i].path in cy
    ensures Inflow(Names(w.kids[c][..i + 1]), c.path, y + cy) ==
            Inflow(Names(w.kids[c][..i]), c.path, y) + cy[w.kids[c][i].path]
  {
    var child := w.kids[c][i];
    w.ChildBelow(c, i);
    var names := Names(w.kids[c][..i]);
    assert Names(w.kids[c][..i + 1]) == names + [child.name];
    InflowSnoc(names, c.path, y + cy, child.name);
    forall k | 0 <= k < |names| ensures SameAt(y, y + cy, c.path + [names[k]]) {
      w.ChildBelow(c, k);
      assert w.kids[c][k].path == c.path + [names[k]];
      EarlierKept(w, c, y, cy, i, c.path + [names[k]]);
    }
    InflowAgrees(names, c.path, y, y + cy);
  }

  lemma StepOwn(w: World, c: Channel, s: Snapshot, s1: Snapshot, s2: Snapshot,
                now: Time, y: Flow, cy: Flow, i: nat)
    requires w.Shape() && SubtreePartly(w, c, s, s1, now, y, i) && i < |w.kids[c]|
    requires SubtreeDone(w, w.kids[c][i], s1, s2, now, cy) && w.kids[c][i].path in cy
    ensures Absorb(s2[c], cy[w.kids[c][i].path]) == Absorb(s[c], Inflow(Names(w.kids[c][..i + 1]), c.path, y + cy))
  {
    w.ChildBelow(c, i);
    assert s2[c] == s1[c];
    NextInflow(w, c, y, cy, i);
    AbsorbTwice(s[c], Inflow(Names(w.kids[c][..i]), c.path, y), cy[w.kids[c][i].path]);
  }

  lemma AbsorbTwice(n: Node, a: seq<ChannelJob>, b: seq<ChannelJob>)
    ensures Absorb(Absorb(n, a), b) == Absorb(n, a + b)
  {
    assert Elems(a + b) == Elems(a) + Elems(b);
    assert n.ready + Elems(a) + Elems(b) == n.ready + Elems(a + b);
  }

  lemma StepKeys(w: World, c: Channel, y: Flow, cy: Flow, i: nat)
    requires c in w.kids && i < |w.kids[c]|
    requires y.Keys == (set d | d in w.all && Under(w, c, i, d) :: d.path)
    requires cy.Keys == (set d | d in w.all && w.kids[c][i].path <= d.path :: d.path)
    ensures (y + cy).Keys == (set d | d in w.all && Under(w, c, i + 1, d) :: d.path)
  {
    forall d | d in w.all ensures Under(w, c, i + 1, d) <==> Under(w, c, i, d) || w.kids[c][i].path <= d.path {
      UnderNext(w, c, i, d);
    }
  }

  lemma SubtreeStep(w: World, c: Channel, s: Snapshot, s1: Snapshot, s2: Snapshot, s3: Snapshot,
                    now: Time, y: Flow, cy: Flow, i: nat)
    requires w.Shape() && NamesOk(w, s) && SubtreePartly(w, c, s, s1, now, y, i) && i < |w.kids[c]|
    requires SubtreeDone(w, w.kids[c][i], s1, s2, now, cy) && w.kids[c][i].path in cy
    requires s3 == s2[c := Absorb(s2[c], cy[w.kids[c][i].path])]
    ensures SubtreePartly(w, c, s, s3, now, y + cy, i + 1)
  {
    StepKeys(w, c, y, cy, i);
    StepOwn(w, c, s, s1, s2, now, y, cy, i);
    forall d | d in w.all && d != c
      ensures if Under(w, c, i + 1, d) then PassedAt(s[d], d.path, now, y + cy, s3[d]) else s3[d] == s[d]
    {
      StepNode(w, c, s, s1, s2, now, y, cy, i, d);
    }
  }

  /** Every channel further down is in the subtree of some child. */
  lemma {:induction false} BelowIsUnder(w: World, c: Channel, d: Channel)
    requires w.Shape() && c in w.all && d in w.all && c.path < d.path
    ensures Under(w, c, |w.kids[c]|, d)
    decreases |d.path|
  {
    assert w.Joined(d) && w.Joined(c);
    var p := d.parent;
    assert d.path == p.path + [d.name];
    if p == c {
      var k :| 0 <= k < |w.kids[c]| && w.kids[c][k] == d;
    } else {
      assert w.Apart(p, c);
      BelowIsUnder(w, c, p);
      var k :| 0 <= k < |w.kids[c]| && w.kids[c][k].path <= p.path;
      assert w.kids[c][k].path <= d.path;
    }
  }

  lemma BelowOrUnder(w: World, c: Channel, d: Channel)
    requires w.Shape() && c in w.all && d in w.all
    ensures c.path <= d.path <==> d == c || Under(w, c, |w.kids[c]|, d)
    ensures d != c ==> d.path != c.path
  {
    if d != c {
      assert w.Apart(c, d);
      if Under(w, c, |w.kids[c]|, d) {
        var k :| 0 <= k < |w.kids[c]| && w.kids[c][k].path <= d.path;
        w.ChildBelow(c, k);
      }
      if c.path <= d.path {
        BelowIsUnder(w, c, d);
      }
    }
  }

  lemma EndNode(w: World, c: Channel, s: Snapshot, s3: Snapshot, s4: Snapshot, now: Time, y: Flow, jobs: seq<ChannelJob>, d: Channel)
    requires w.Shape() && NamesOk(w, s) && c in w.all && SubtreePartly(w, c, s, s3, now, y, |w.kids[c]|)
    requires s4.Keys == w.all && d in w.all && (d != c ==> s4[d] == s3[d]) && Drained(s3[c], now, jobs, s4[c])
    ensures if c.path <= d.path then PassedAt(s[d], d.path, now, y[c.path := jobs], s4[d]) else s4[d] == s[d]
  {
    BelowOrUnder(w, c, d);
    var y' := y[c.path := jobs];
    if d == c {
      assert w.kids[c][..|w.kids[c]|] == w.kids[c];
      forall k | 0 <= k < |s[c].children| ensures SameAt(y, y', c.path + [s[c].children[k]]) {
      }
      InflowAgrees(s[c].children, c.path, y, y');
    } else {
      assert s3[d] == s3[d];
      if c.path <= d.path {
        forall x | x in s[d].children ensures SameAt(y, y', d.path + [x]) {
        }
        PassedAtMerge(s[d], d.path, now, y, y', s4[d]);
      }
    }
  }

  lemma SubtreeEnd(w: World, c: Channel, s: Snapshot, s3: Snapshot, s4: Snapshot, now: Time, y: Flow, jobs: seq<ChannelJob>)
    requires w.Shape() && NamesOk(w, s) && c in w.all && SubtreePartly(w, c, s, s3, now, y, |w.kids[c]|)
    requires s4.Keys == w.all && Drained(s3[c], now, jobs, s4[c]) && forall d | d in w.all && d != c :: s4[d] == s3[d]
    ensures SubtreeDone(w, c, s, s4, now, y[c.path := jobs])
  {
    forall d | d in w.all
      ensures c.path <= d.path <==> d == c || Under(w, c, |w.kids[c]|, d)
      ensures if c.path <= d.path then PassedAt(s[d], d.path, now, y[c.path := jobs], s4[d]) else s4[d] == s[d]
    {
      BelowOrUnder(w, c, d);
      EndNode(w, c, s, s3, s4, now, y, jobs, d);
    }
  }

  /** The queues are in order, and jobs wait for their eta in their own channel only. */
  ghost predicate QueuesValid(w: World)
    reads w.Queues(), w.Heaps(), w.jobs
  {
    forall c {:trigger QueueValid(c, w.jobs)} | c in w.all :: QueueValid(c, w.jobs)
  }

  ghost predicate QueueValid(c: Channel, jobs: set<ChannelJob>)
    reads c.queue, c.queue.queue, c.queue.etaQueue, jobs
  {
    && c.queue.queue.known <= jobs && c.queue.etaQueue.known <= jobs
    && c.queue.Valid()
    && forall j | j in c.queue.etaQueue.known :: j.channel == c.path
  }
}
