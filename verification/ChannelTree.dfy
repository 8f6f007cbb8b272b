/**
  The methods of `Channel` follow object references; the scheduler is specified on full
  names. The two agree.
 */
module ChannelTrees {
  import opened Prelude
  import opened ChannelJobs
  import opened SchedulerSpec
  import opened SchedulerMoves
  import opened SchedulerRuns
  import opened Channels

  lemma PathNotEmpty(w: World, c: Channel)
    requires w.Shape() && c in w.all
    ensures |c.path| >= 1
    ensures c.parent == null ==> c.path == ROOT
    ensures c.parent != null ==> c.parent in w.all && c.path == c.parent.path + [c.name]
  {
    assert w.Joined(c);
  }

  /** The channels whose name is a prefix of a name are the channel itself and its parents. */
  lemma PrefixIsParent(w: World, c: Channel, d: Channel)
    requires w.Shape() && c in w.all && d in w.all && d != c
    ensures d.path <= c.path <==> c.parent != null && d.path <= c.parent.path
    ensures d.path != c.path
  {
    PathNotEmpty(w, c);
    PathNotEmpty(w, d);
    assert w.Apart(c, d);
    if d.path <= c.path && c.parent != null {
      assert |d.path| < |c.path|;
    }
  }

  lemma {:induction false} DropUpAt(w: World, c: Channel, s: Snapshot, j: ChannelJob, d: Channel)
    requires w.Shape() && c in w.all && s.Keys == w.all && d in w.all
    ensures DropUp(w, c, s, j).Keys == w.all
    ensures DropUp(w, c, s, j)[d] == if d.path <= c.path then Drop(s[d], j) else s[d]
    decreases |c.path|
  {
    PathNotEmpty(w, c);
    var s1 := s[c := Drop(s[c], j)];
    if c.parent != null {
      DropUpAt(w, c.parent, s1, j, d);
    }
    if d != c {
      PrefixIsParent(w, c, d);
    }
  }

  lemma DropAboveAt(w: World, c: Channel, s: Snapshot, j: ChannelJob, d: Channel)
    requires w.Shape() && c in w.all && s.Keys == w.all && d in w.all
    ensures DropAbove(w, c, s, j).Keys == w.all
    ensures DropAbove(w, c, s, j)[d] == if d.path < c.path then Drop(s[d], j) else s[d]
  {
    PathNotEmpty(w, c);
    if c.parent != null {
      DropUpAt(w, c.parent, s, j, d);
    }
    if d != c {
      PrefixIsParent(w, c, d);
    }
  }

  /** No channel between `d` and `c`, both included, runs the job. */
  ghost predicate Reaches(w: World, s: Snapshot, c: Channel, d: Channel, j: ChannelJob)
    requires s.Keys == w.all
  {
    d.path <= c.path && forall e | e in w.all && d.path <= e.path && e.path <= c.path :: j !in s[e].running
  }

  lemma {:induction false} RunUpAt(w: World, c: Channel, s: Snapshot, j: ChannelJob, d: Channel)
    requires w.Shape() && c in w.all && s.Keys == w.all && d in w.all
    ensures RunUp(w, c, s, j).Keys == w.all
    ensures RunUp(w, c, s, j)[d] == if Reaches(w, s, c, d, j) then Occupy(s[d], j) else s[d]
    decreases |c.path|
  {
    PathNotEmpty(w, c);
    if j !in s[c].running {
      var s1 := s[c := Occupy(s[c], j)];
      if c.parent != null {
        RunUpAt(w, c.parent, s1, j, d);
      }
      if d == c {
        SameJobRuns(w, s, c, j);
        if c.parent != null {
          assert !(c.path <= c.parent.path);
        }
      } else {
        PrefixIsParent(w, c, d);
        if d.path <= c.path {
          ReachesParent(w, s, c, d, j);
        }
      }
    }
  }

  lemma SameJobRuns(w: World, s: Snapshot, c: Channel, j: ChannelJob)
    requires w.Shape() && c in w.all && s.Keys == w.all
    ensures Reaches(w, s, c, c, j) <==> j !in s[c].running
  {
    forall e | e in w.all && c.path <= e.path && e.path <= c.path ensures e == c {
      assert e != c ==> w.Apart(e, c);
    }
  }

  lemma ReachesParent(w: World, s: Snapshot, c: Channel, d: Channel, j: ChannelJob)
    requires w.Shape() && c in w.all && s.Keys == w.all && d in w.all && d != c && d.path <= c.path
    requires c.parent != null && c.parent in w.all && j !in s[c].running
    ensures Reaches(w, s, c, d, j) <==> Reaches(w, s[c := Occupy(s[c], j)], c.parent, d, j)
  {
    var s1 := s[c := Occupy(s[c], j)];
    PrefixIsParent(w, c, d);
    forall e | e in w.all && e != c && d.path <= e.path
      ensures e.path <= c.path <==> e.path <= c.parent.path
    {
      PrefixIsParent(w, c, e);
    }
    PathNotEmpty(w, c);
    assert !(c.path <= c.parent.path);
  }

  // ---------- moves ----------

  /** Two snapshots of one tree agree with schedules that agree channel by channel. */
  lemma SchedIs(w: World, s: Snapshot, f: Sched)
    requires w.Shape() && s.Keys == w.all
    requires f.Keys == AsSched(w, s).Keys && forall c | c in w.all && c.path in f :: f[c.path] == s[c]
    ensures AsSched(w, s) == f
  {
    forall p | p in f ensures AsSched(w, s)[p] == f[p] {
      var c :| c in w.all && c.path == p;
      SchedAt(w, s, c);
    }
  }

  lemma SameKeys(w: World, s: Snapshot, s': Snapshot)
    requires w.Shape() && s.Keys == s'.Keys == w.all
    ensures AsSched(w, s).Keys == AsSched(w, s').Keys
  {
  }

  lemma RemoveAgrees(w: World, c: Channel, s: Snapshot, j: ChannelJob)
    requires w.Shape() && c in w.all && s.Keys == w.all && c.path == j.channel
    ensures DropUp(w, c, s, j).Keys == w.all
    ensures AsSched(w, DropUp(w, c, s, j)) == RemoveJob(AsSched(w, s), j)
  {
    DropUpAt(w, c, s, j, c);
    var s', f := DropUp(w, c, s, j), RemoveJob(AsSched(w, s), j);
    SameKeys(w, s, s');
    forall d | d in w.all && d.path in f ensures f[d.path] == s'[d] {
      DropUpAt(w, c, s, j, d);
      SchedAt(w, s, d);
    }
    SchedIs(w, s', f);
  }

  lemma PendingAgrees(w: World, c: Channel, s: Snapshot, j: ChannelJob, eta: Option<Time>)
    requires w.Shape() && c in w.all && s.Keys == w.all && c.path == j.channel
    ensures PendUp(w, c, s, j, eta).Keys == w.all && c.path in AsSched(w, s)
    ensures AsSched(w, PendUp(w, c, s, j, eta)) == SetPending(AsSched(w, s), j, eta)
  {
    SchedAt(w, s, c);
    if !s[c].InQueue(j) {
      var s1 := Pended(s, c, j, eta);
      DropAboveAt(w, c, s1, j, c);
      var s', f := PendUp(w, c, s, j, eta), SetPending(AsSched(w, s), j, eta);
      SameKeys(w, s, s');
      forall d | d in w.all && d.path in f ensures f[d.path] == s'[d] {
        DropAboveAt(w, c, s1, j, d);
        SchedAt(w, s, d);
        assert d != c ==> w.Apart(c, d);
      }
      SchedIs(w, s', f);
    }
  }

  lemma FailedAgrees(w: World, c: Channel, s: Snapshot, j: ChannelJob)
    requires w.Shape() && c in w.all && s.Keys == w.all && c.path == j.channel
    ensures FailUp(w, c, s, j).Keys == w.all && c.path in AsSched(w, s)
    ensures AsSched(w, FailUp(w, c, s, j)) == SetFailed(AsSched(w, s), j)
  {
    SchedAt(w, s, c);
    if j !in s[c].failed {
      var s1 := s[c := Fail(s[c], j)];
      DropAboveAt(w, c, s1, j, c);
      var s', f := FailUp(w, c, s, j), SetFailed(AsSched(w, s), j);
      SameKeys(w, s, s');
      forall d | d in w.all && d.path in f ensures f[d.path] == s'[d] {
        DropAboveAt(w, c, s1, j, d);
        SchedAt(w, s, d);
        assert d != c ==> w.Apart(c, d);
      }
      SchedIs(w, s', f);
    }
  }

  lemma ReachesAgrees(w: World, c: Channel, s: Snapshot, j: ChannelJob, d: Channel)
    requires w.Shape() && c in w.all && s.Keys == w.all && c.path == j.channel && d in w.all
    ensures RunReaches(AsSched(w, s), d.path, j) <==> Reaches(w, s, c, d, j)
  {
    var f := AsSched(w, s);
    if Reaches(w, s, c, d, j) {
      forall i | |d.path| <= i <= |j.channel| && j.channel[..i] in f ensures j !in f[j.channel[..i]].running {
        var e :| e in w.all && e.path == j.channel[..i];
        SchedAt(w, s, e);
      }
    }
    if RunReaches(f, d.path, j) {
      forall e | e in w.all && d.path <= e.path && e.path <= c.path ensures j !in s[e].running {
        SchedAt(w, s, e);
        assert j.channel[..|e.path|] == e.path;
      }
    }
  }

  lemma RunningAgrees(w: World, c: Channel, s: Snapshot, j: ChannelJob)
    requires w.Shape() && c in w.all && s.Keys == w.all && c.path == j.channel
    ensures RunUp(w, c, s, j).Keys == w.all
    ensures AsSched(w, RunUp(w, c, s, j)) == SetRunning(AsSched(w, s), j)
  {
    RunUpAt(w, c, s, j, c);
    var s', f := RunUp(w, c, s, j), SetRunning(AsSched(w, s), j);
    SameKeys(w, s, s');
    forall d | d in w.all && d.path in f ensures f[d.path] == s'[d] {
      RunUpAt(w, c, s, j, d);
      ReachesAgrees(w, c, s, j, d);
      SchedAt(w, s, d);
    }
    SchedIs(w, s', f);
  }

  // ---------- passes ----------

  lemma {:induction false} RootIsAbove(w: World, root: Channel, d: Channel)
    requires w.Shape() && root in w.all && root.parent == null && d in w.all
    ensures root.path <= d.path
    decreases |d.path|
  {
    PathNotEmpty(w, root);
    PathNotEmpty(w, d);
    if d.parent != null {
      RootIsAbove(w, root, d.parent);
    }
  }

  /** What `get_jobs_to_run` does to the objects below the root is a pass over the schedule. */
  lemma PassAgrees(w: World, root: Channel, s: Snapshot, s': Snapshot, now: Time, y: Flow)
    requires w.Shape() && root in w.all && root.parent == null
    requires s.Keys == w.all && SubtreeDone(w, root, s, s', now, y)
    ensures Pass(AsSched(w, s), now, y, AsSched(w, s'))
  {
    var f, f' := AsSched(w, s), AsSched(w, s');
    forall d | d in w.all ensures root.path <= d.path {
      RootIsAbove(w, root, d);
    }
    assert y.Keys == f.Keys;
    forall p | p in f ensures NodePass(f, p, now, y, f') {
      var d :| d in w.all && d.path == p;
      SchedAt(w, s, d);
      SchedAt(w, s', d);
      assert PassedAt(s[d], d.path, now, y, s'[d]);
    }
  }

  // ---------- a new channel ----------

  /** The tree of channels after `parent` got the new child `c`. */
  ghost function Grown(w: World, parent: Channel, c: Channel): World
    requires parent in w.kids
  {
    World(w.all + {c}, w.kids[parent := w.kids[parent] + [c]][c := []], w.jobs)
  }

  lemma GrownJoined(w: World, parent: Channel, c: Channel, d: Channel)
    requires w.Shape() && parent in w.all && c !in w.all && c.parent == parent && c.path == parent.path + [c.name]
    requires d in w.all + {c}
    ensures Grown(w, parent, c).Joined(d)
  {
    var w' := Grown(w, parent, c);
    if d == c {
      assert w'.kids[parent][|w.kids[parent]|] == c;
    } else {
      assert w.Joined(d);
      if d == parent {
        assert forall i | 0 <= i < |w.kids[d]| :: w'.kids[d][i] == w.kids[d][i];
      }
      if d.parent == parent {
        var i :| 0 <= i < |w.kids[parent]| && w.kids[parent][i] == d;
        assert w'.kids[parent][i] == d;
      }
    }
  }

  lemma NameOfChild(w: World, parent: Channel, name: string, d: Channel)
    requires w.Shape() && parent in w.all && d in w.all && d.path == parent.path + [name]
    ensures name in Names(w.kids[parent])
  {
    PathNotEmpty(w, d);
    PathNotEmpty(w, parent);
    assert d.parent != null ==> d.path[..|d.path| - 1] == d.parent.path;
    assert d.parent != null && d.parent != parent ==> w.Apart(d.parent, parent);
    assert w.Joined(d);
    var i :| 0 <= i < |w.kids[parent]| && w.kids[parent][i] == d;
    assert Names(w.kids[parent])[i] == name;
  }

  /** The queue of `c` is shared with no other channel. */
  ghost predicate OwnQueues(w: World, c: Channel) {
    forall d | d in w.all :: d != c ==>
      && d.queue != c.queue
      && d.queue.queue != c.queue.queue && d.queue.queue != c.queue.etaQueue
      && d.queue.etaQueue != c.queue.queue && d.queue.etaQueue != c.queue.etaQueue
  }

  lemma GrownShape(w: World, parent: Channel, c: Channel)
    requires w.Shape() && parent in w.all && c !in w.all && c.parent == parent && c.path == parent.path + [c.name]
    requires c.name !in Names(w.kids[parent]) && OwnQueues(w, c)
    ensures Grown(w, parent, c).Shape()
  {
    var w' := Grown(w, parent, c);
    forall d | d in w'.all ensures w'.Joined(d) {
      GrownJoined(w, parent, c, d);
    }
    forall d, e | d in w'.all && e in w'.all && d != e ensures w'.Apart(d, e) {
      if d != c && e != c {
        assert w.Apart(d, e);
      } else {
        var other := if d == c then e else d;
        if other.path == c.path {
          NameOfChild(w, parent, c.name, other);
        }
      }
    }
  }

  /** The snapshot of the grown tree. */
  ghost function Grew(s: Snapshot, parent: Channel, c: Channel): Snapshot
    requires parent in s
  {
    s[parent := s[parent].(children := s[parent].children + [c.name])][c := NEW_CHANNEL]
  }

  lemma GrownSchedAt(w: World, parent: Channel, c: Channel, s: Snapshot, d: Channel)
    requires w.Shape() && parent in w.all && c !in w.all && c.path == parent.path + [c.name]
    requires Grown(w, parent, c).Shape() && s.Keys == w.all && d in w.all + {c}
    ensures parent.path in AsSched(w, s)
    ensures var f' := WithChannel(AsSched(w, s), parent.path, c.name);
            d.path in f' && f'[d.path] == Grew(s, parent, c)[d]
  {
    var w' := Grown(w, parent, c);
    SchedAt(w, s, parent);
    assert d != c ==> w'.Apart(d, c);
    assert d != parent ==> w'.Apart(d, parent);
    if d != c {
      SchedAt(w, s, d);
    }
  }

  lemma GrownSched(w: World, parent: Channel, c: Channel, s: Snapshot)
    requires w.Shape() && parent in w.all && c !in w.all && c.path == parent.path + [c.name]
    requires Grown(w, parent, c).Shape() && s.Keys == w.all
    ensures parent.path in AsSched(w, s)
    ensures AsSched(Grown(w, parent, c), Grew(s, parent, c)) == WithChannel(AsSched(w, s), parent.path, c.name)
  {
    var w', s' := Grown(w, parent, c), Grew(s, parent, c);
    SchedAt(w, s, parent);
    var f' := WithChannel(AsSched(w, s), parent.path, c.name);
    forall d | d in w'.all ensures d.path in f' && f'[d.path] == s'[d] {
      GrownSchedAt(w, parent, c, s, d);
    }
    assert f'.Keys == AsSched(w', s').Keys;
    SchedIs(w', s', f');
  }
}
