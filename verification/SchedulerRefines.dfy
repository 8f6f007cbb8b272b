/**
  One drained pass yields, in every channel, exactly what the recursive specification
  computes by sorting keys.
 */
module SchedulerRefines {
  import opened Prelude
  import opened ChannelJobs
  import opened SchedulerSpec
  import opened SchedulerOrder
  import opened SchedulerMoves
  import opened SchedulerRuns

  ghost predicate Distinct(q: seq<ChannelJob>) {
    forall i, k | 0 <= i < k < |q| :: q[i] != q[k]
  }

  lemma {:induction false} YieldsDistinct(n: Node, now: Time, out: seq<ChannelJob>, n': Node)
    requires Yields(n, now, out, n')
    requires n.ready !! n.waiting.Keys
    ensures Distinct(out)
    decreases |out|
  {
    if HasCapacity(n) {
      var m := Mature(n, now);
      if !(m.ready == {} || Held(m)) && m.throttle == 0.0 {
        YieldsDistinct(Start(out[0], m), now, out[1..], n');
        YieldsKnown(Start(out[0], m), now, out[1..], n', out[0]);
      }
    }
  }

  lemma MatureFirst(n: Node, now: Time, out: seq<ChannelJob>, n': Node)
    requires Yields(n, now, out, n') && HasCapacity(n)
    ensures Yields(Mature(n, now), now, out, n')
  {
    var m := Mature(n, now);
    assert Mature(m, now) == m;
  }

  /** Ready jobs after the etas past due and the jobs of the children have come in. */
  lemma IncomingReady(n: Node, jobs: seq<ChannelJob>, now: Time)
    requires Distinct(jobs) && forall j | j in jobs :: !n.Holds(j)
    requires forall j | j in NodeJobs(n) :: Exclusive(n, j)
    ensures var m := Mature(Unpause(Absorb(n, jobs)), now);
            && m.ready !! m.running
            && KeysOf(m.ready) == KeysOf(Mature(n, now).ready) + multiset(Keys(jobs))
  {
    var m := Mature(Unpause(Absorb(n, jobs)), now);
    assert m.ready == Mature(n, now).ready + Elems(jobs);
    forall j | j in m.ready ensures j !in m.running {
      if j in NodeJobs(n) {
        assert Exclusive(n, j);
      }
    }
    KeysOfSeq(Mature(n, now).ready, jobs);
  }

  lemma LoopKeys(u: Node, now: Time, out: seq<ChannelJob>, n': Node)
    requires Yields(u, now, out, n') && Mature(u, now).ready !! u.running
    ensures var m := Mature(u, now); Keys(out) == Take(Throttled(m), CutOff(m, Sorted(KeysOf(m.ready))))
  {
    var m := Mature(u, now);
    if HasCapacity(u) {
      MatureFirst(u, now, out, n');
      YieldsSorted(m, now, out, n');
    } else {
      FullYieldsNothing(m, CutOff(m, Sorted(KeysOf(m.ready))));
    }
  }

  predicate SameLimits(n: Node, m: Node) {
    && m.capacity == n.capacity && m.sequential == n.sequential && m.throttle == n.throttle
    && m.waiting == n.waiting && m.running == n.running && m.failed == n.failed
  }

  ghost function Selection(n: Node, all: multiset<Key>): seq<Key> {
    Take(Throttled(n), CutOff(n, Sorted(all)))
  }

  lemma SameSelection(w: Node, m: Node, all: multiset<Key>)
    requires SameLimits(w, m)
    ensures Selection(m, all) == Selection(w, all)
  {
  }

  lemma AbsorbKeepsLimits(n: Node, jobs: seq<ChannelJob>, now: Time)
    ensures SameLimits(Mature(n, now), Mature(Unpause(Absorb(n, jobs)), now))
  {
  }

  lemma DrainedLoop(a: Node, now: Time, out: seq<ChannelJob>, n': Node)
    requires Drained(a, now, out, n') && !Paused(a, now)
    requires Mature(Unpause(a), now).ready !! Mature(Unpause(a), now).running
    ensures Keys(out) == Selection(Mature(Unpause(a), now), KeysOf(Mature(Unpause(a), now).ready))
  {
    LoopKeys(Unpause(a), now, out, n');
  }

  lemma PausedKeys(n: Node, jobs: seq<ChannelJob>, incoming: multiset<Key>, now: Time, out: seq<ChannelJob>, n': Node)
    requires Drained(Absorb(n, jobs), now, out, n') && Paused(n, now)
    ensures Keys(out) == YieldedKeys(n, now, incoming)
  {
  }

  lemma YieldedKeysOpen(n: Node, now: Time, incoming: multiset<Key>)
    requires !Paused(n, now)
    ensures YieldedKeys(n, now, incoming) == Selection(Mature(n, now), KeysOf(Mature(n, now).ready) + incoming)
  {
  }

  /** What a channel yields depends on the keys that come in, and on nothing else of them. */
  lemma DrainedKeys(n: Node, jobs: seq<ChannelJob>, now: Time, out: seq<ChannelJob>, n': Node)
    requires Drained(Absorb(n, jobs), now, out, n')
    requires Distinct(jobs) && forall j | j in jobs :: !n.Holds(j)
    requires forall j | j in NodeJobs(n) :: Exclusive(n, j)
    ensures Keys(out) == YieldedKeys(n, now, multiset(Keys(jobs)))
  {
    if Paused(n, now) {
      PausedKeys(n, jobs, multiset(Keys(jobs)), now, out, n');
    } else {
      IncomingReady(n, jobs, now);
      DrainedLoop(Absorb(n, jobs), now, out, n');
      AbsorbKeepsLimits(n, jobs, now);
      var m := Mature(Unpause(Absorb(n, jobs)), now);
      SameSelection(Mature(n, now), m, KeysOf(m.ready));
      YieldedKeysOpen(n, now, multiset(Keys(jobs)));
    }
  }

  /** The jobs that come in are new to the channel and come in once. */
  lemma {:induction false} InflowDistinct(f: Sched, y: Flow, p: Path, cs: seq<string>)
    requires WellFormed(f) && f.Keys == y.Keys && p in f
    requires forall i, k | 0 <= i < k < |cs| :: cs[i] != cs[k]
    requires forall c | c in cs :: p + [c] in y && Distinct(y[p + [c]])
    requires forall c | c in cs :: forall j | j in y[p + [c]] :: p + [c] <= j.channel
    ensures Distinct(Inflow(cs, p, y))
    decreases |cs|
  {
    if cs != [] {
      assert cs[0] in cs;
      InflowDistinct(f, y, p, cs[1..]);
      var first, rest := y[p + [cs[0]]], Inflow(cs[1..], p, y);
      forall j | j in first ensures j !in rest {
        InflowFrom(cs[1..], p, y, j);
        forall i | 0 <= i < |cs[1..]| ensures j !in y[p + [cs[1..][i]]] {
          assert cs[1..][i] == cs[i + 1] && cs[i + 1] in cs;
          assert (p + [cs[0]])[|p|] != (p + [cs[i + 1]])[|p|];
        }
      }
      assert Inflow(cs, p, y) == first + rest;
      forall i, k | 0 <= i < |first| && 0 <= k < |rest| ensures first[i] != rest[k] {
        assert first[i] in first && rest[k] in rest;
      }
    }
  }

  lemma {:induction false} KeysConcat(a: seq<ChannelJob>, b: seq<ChannelJob>)
    ensures Keys(a + b) == Keys(a) + Keys(b)
  {
  }

  /**
    Refinement: the keys yielded by channel `p` of the real tree, in order, are those the
    recursive specification computes. This holds for every channel: with or without
    capacity, throttle and sequential mode.
   */
  lemma {:induction false} PassRefines(f: Sched, now: Time, y: Flow, f': Sched, p: Path)
    requires WellFormed(f) && AllPlaced(f) && Pass(f, now, y, f') && p in f
    ensures Keys(y[p]) == SpecKeys(f, p, now)
    ensures Distinct(y[p])
    decreases Height(f, p), 1, 0
  {
    assert Linked(f, p) && NodePass(f, p, now, y, f');
    var n := f[p];
    ChildrenRefine(f, now, y, f', p, 0);
    var jobs := Inflow(n.children, p, y);
    assert n.children[0..] == n.children;
    forall c | c in n.children
      ensures p + [c] in y && Distinct(y[p + [c]]) && forall j | j in y[p + [c]] :: p + [c] <= j.channel
    {
      forall j | j in y[p + [c]] ensures p + [c] <= j.channel {
        PassKnown(f, now, y, f', p + [c], j);
        NodeMoves(f, now, y, f', j, p + [c]);
      }
    }
    InflowDistinct(f, y, p, n.children);
    forall j | j in jobs ensures !n.Holds(j) {
      InflowFrom(n.children, p, y, j);
      var i :| 0 <= i < |n.children| && p + [n.children[i]] in y && j in y[p + [n.children[i]]];
      PassKnown(f, now, y, f', p + [n.children[i]], j);
      NodeMoves(f, now, y, f', j, p + [n.children[i]]);
      assert PlacedAt(f, p, j);
      assert p + [n.children[i]] == j.channel[..|p| + 1];
    }
    forall j | j in NodeJobs(n) ensures Exclusive(n, j) {
      assert PlacedAt(f, p, j);
    }
    DrainedKeys(n, jobs, now, y[p], f'[p]);
    var a := Absorb(n, jobs);
    if !Paused(a, now) {
      forall j | j in a.ready ensures j !in a.waiting {
        if j in n.ready {
          assert Exclusive(n, j);
        }
      }
      YieldsDistinct(Unpause(a), now, y[p], f'[p]);
    }
  }

  lemma {:induction false} ChildrenRefine(f: Sched, now: Time, y: Flow, f': Sched, p: Path, i: nat)
    requires WellFormed(f) && AllPlaced(f) && Pass(f, now, y, f') && p in f && i <= |f[p].children|
    ensures Keys(Inflow(f[p].children[i..], p, y)) == ChildrenKeys(f, p, i, now)
    ensures forall c | c in f[p].children[i..] :: p + [c] in y && Distinct(y[p + [c]])
    decreases Height(f, p), 0, |f[p].children| - i
  {
    var cs := f[p].children[i..];
    if i < |f[p].children| {
      assert Linked(f, p);
      var c := p + [f[p].children[i]];
      DepthBounds(f.Keys, c);
      PassRefines(f, now, y, f', c);
      ChildrenRefine(f, now, y, f', p, i + 1);
      assert cs[1..] == f[p].children[i + 1..];
      KeysConcat(y[c], Inflow(cs[1..], p, y));
      assert cs == [cs[0]] + cs[1..];
    }
  }
}
