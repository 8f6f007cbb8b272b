/**
  What one scheduling pass over the channel tree does, as a relation between the state
  before and the state after it. Ties between jobs with equal sorting keys are left open,
  as the layout of the heaps decides them.
 */
module SchedulerSpec {
  import opened Prelude
  import opened ChannelJobs

  /** One channel: its configuration, the names of its children, and its jobs. */
  datatype Node = Node(
    capacity: Option<int>, sequential: bool, throttle: Time, children: seq<string>,
    pauseUntil: Time,
    ready: set<ChannelJob>, waiting: map<ChannelJob, Time>,
    running: set<ChannelJob>, failed: set<ChannelJob>)
  {
    ghost predicate InQueue(j: ChannelJob) {
      j in ready || j in waiting
    }

    ghost predicate Holds(j: ChannelJob) {
      InQueue(j) || j in running || j in failed
    }
  }

  /** The whole tree: every channel under its full name. */
  type Sched = map<Path, Node>

  /** A channel is listed once by its parent, and lists its own children once. */
  ghost predicate Linked(f: Sched, p: Path)
    requires p in f
  {
    && |p| >= 1
    && (|p| == 1 ==> p == ROOT)
    && (|p| > 1 ==> p[..|p| - 1] in f && p[|p| - 1] in f[p[..|p| - 1]].children)
    && (forall i | 0 <= i < |f[p].children| :: p + [f[p].children[i]] in f)
    && (forall i, k | 0 <= i < k < |f[p].children| :: f[p].children[i] != f[p].children[k])
  }

  ghost predicate WellFormed(f: Sched) {
    ROOT in f && forall p {:trigger Linked(f, p)} | p in f :: Linked(f, p)
  }

  // ---------- one channel ----------

  predicate HasCapacity(n: Node) {
    if n.sequential && n.failed != {} then false
    else if n.capacity.None? || n.capacity.value == 0 then true
    else |n.running| < n.capacity.value
  }

  /** Jobs whose eta is past due compete with the jobs that have no eta. */
  function Mature(n: Node, now: Time): Node {
    n.(ready := n.ready + Due(n.waiting, now), waiting := n.waiting - Due(n.waiting, now))
  }

  function Due(waiting: map<ChannelJob, Time>, now: Time): set<ChannelJob> {
    set j | j in waiting && waiting[j] <= now
  }

  ghost predicate IsEtaHead(waiting: map<ChannelJob, Time>, e: ChannelJob) {
    && e in waiting
    && forall k | k in waiting :: !RankLt(Rank(Some(waiting[k]), k.key), Rank(Some(waiting[e]), e.key))
  }

  /** A sequential queue waits for the job with the earliest eta if that job sorts first. */
  ghost predicate QueueHeld(sequential: bool, ready: set<ChannelJob>, waiting: map<ChannelJob, Time>) {
    && sequential
    && ready != {}
    && exists e | e in waiting :: IsEtaHead(waiting, e) && forall r | r in ready :: KeyLt(e.key, r.key)
  }

  ghost predicate Held(n: Node) {
    QueueHeld(n.sequential, n.ready, n.waiting)
  }

  ghost predicate IsFirst(ready: set<ChannelJob>, j: ChannelJob) {
    j in ready && forall r | r in ready :: KeyLe(j.key, r.key)
  }

  predicate Paused(n: Node, now: Time) {
    n.throttle != 0.0 && n.pauseUntil != 0.0 && now < n.pauseUntil
  }

  function Start(j: ChannelJob, n: Node): Node {
    n.(ready := n.ready - {j}, running := n.running + {j})
  }

  /** The loop that yields jobs while there is capacity. */
  ghost predicate Yields(n: Node, now: Time, out: seq<ChannelJob>, n': Node)
    decreases |out|
  {
    if !HasCapacity(n) then
      out == [] && n' == n
    else
      var m := Mature(n, now);
      if m.ready == {} || Held(m) then
        out == [] && n' == m
      else
        && out != []
        && IsFirst(m.ready, out[0])
        && if m.throttle != 0.0 then
             |out| == 1 && n' == Start(out[0], m).(pauseUntil := now + m.throttle)
           else
             Yields(Start(out[0], m), now, out[1..], n')
  }

  /** What a channel does once the jobs of its children are in its queue. */
  ghost predicate Drained(n: Node, now: Time, out: seq<ChannelJob>, n': Node) {
    if Paused(n, now) then
      out == [] && n' == n
    else
      Yields(Unpause(n), now, out, n')
  }

  function Unpause(n: Node): Node {
    if n.throttle != 0.0 && n.pauseUntil != 0.0 then n.(pauseUntil := 0.0) else n
  }

  /** The jobs that come in from the children. */
  function Absorb(n: Node, jobs: seq<ChannelJob>): Node {
    n.(ready := n.ready + Elems(jobs))
  }

  // ---------- the tree ----------

  /** The jobs each channel yields in one pass. */
  type Flow = map<Path, seq<ChannelJob>>

  function Inflow(children: seq<string>, p: Path, y: Flow): seq<ChannelJob> {
    if children == [] then []
    else (if p + [children[0]] in y then y[p + [children[0]]] else []) + Inflow(children[1..], p, y)
  }

  ghost predicate NodePass(f: Sched, p: Path, now: Time, y: Flow, f': Sched)
    requires p in f && p in y && p in f'
  {
    Drained(Absorb(f[p], Inflow(f[p].children, p, y)), now, y[p], f'[p])
  }

  /** One drained call of `get_jobs_to_run` on the root channel. */
  ghost predicate Pass(f: Sched, now: Time, y: Flow, f': Sched) {
    && f.Keys == y.Keys == f'.Keys
    && forall p {:trigger NodePass(f, p, now, y, f')} | p in f :: NodePass(f, p, now, y, f')
  }

  // ---------- wakeup time ----------

  /** Zero stands for "no wakeup requested". */
  function Earlier(w: Time, x: Time): Time {
    if w == 0.0 then x else if x < w then x else w
  }

  ghost predicate IsEarliest(waiting: map<ChannelJob, Time>, x: Time) {
    && (exists j | j in waiting :: waiting[j] == x)
    && forall j | j in waiting :: x <= waiting[j]
  }

  lemma {:induction false} EarliestExists(waiting: map<ChannelJob, Time>)
    requires waiting.Keys != {}
    ensures exists x :: IsEarliest(waiting, x)
    decreases |waiting|
  {
    var j :| j in waiting;
    var rest := waiting - {j};
    if rest.Keys == {} {
      assert waiting.Keys == rest.Keys + {j};
      assert IsEarliest(waiting, waiting[j]);
    } else {
      assert j !in rest && rest.Keys == waiting.Keys - {j};
      EarliestExists(rest);
      var x :| IsEarliest(rest, x);
      var k :| k in rest && rest[k] == x;
      assert forall i | i in waiting :: i == j || i in rest;
      if waiting[j] <= x {
        assert IsEarliest(waiting, waiting[j]);
      } else {
        assert k in waiting && waiting[k] == x;
        assert IsEarliest(waiting, x);
      }
    }
  }

  ghost function QueueWakeup(waiting: map<ChannelJob, Time>, w: Time): Time {
    if waiting.Keys == {} then w
    else
      EarliestExists(waiting);
      var x :| IsEarliest(waiting, x);
      Earlier(w, x)
  }

  /** Bound on the depth of the tree, for recursion from a channel to its children. */
  ghost function Depth(paths: set<Path>): nat {
    if paths == {} then 0
    else
      var p :| p in paths;
      var d := Depth(paths - {p});
      if |p| > d then |p| else d
  }

  lemma {:induction false} DepthBounds(paths: set<Path>, q: Path)
    requires q in paths
    ensures |q| <= Depth(paths)
    decreases |paths|
  {
    var p :| p in paths && Depth(paths) == (if |p| > Depth(paths - {p}) then |p| else Depth(paths - {p}));
    if q != p {
      DepthBounds(paths - {p}, q);
    }
  }

  ghost function Height(f: Sched, p: Path): nat
    requires p in f
  {
    DepthBounds(f.Keys, p);
    Depth(f.Keys) - |p|
  }

  ghost function Wakeup(f: Sched, p: Path, w: Time): Time
    requires WellFormed(f) && p in f
    decreases Height(f, p), 1, 0
  {
    var n := f[p];
    if !HasCapacity(n) then w
    else if n.pauseUntil != 0.0 then Earlier(w, n.pauseUntil)
    else ChildrenWakeup(f, p, 0, QueueWakeup(n.waiting, w))
  }

  ghost function ChildrenWakeup(f: Sched, p: Path, i: nat, w: Time): Time
    requires WellFormed(f) && p in f && i <= |f[p].children|
    decreases Height(f, p), 0, |f[p].children| - i
  {
    if i == |f[p].children| then w
    else
      assert Linked(f, p);
      var c := p + [f[p].children[i]];
      DepthBounds(f.Keys, c);
      ChildrenWakeup(f, p, i + 1, Wakeup(f, c, w))
  }
}
