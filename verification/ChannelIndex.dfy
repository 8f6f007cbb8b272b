/**
  Looking up channels by name: which channel a name leads to, and which channels the
  lookup creates on the way.
 */
module ChannelIndex {
  import opened Prelude
  import opened SchedulerSpec
  import opened SchedulerRuns
  import opened ChannelNames

  /** Every name starts at the root channel, which may be left out or be empty. */
  function Normalized(name: Option<string>): string {
    if name.None? || name.value == "" || name.value == "root" then "root"
    else if "root." <= name.value then name.value
    else "root." + name.value
  }

  lemma NormalizedFromRoot(name: Option<string>)
    ensures Split(Normalized(name))[0] == "root"
    ensures Normalized(name) == "root" <==> Split(Normalized(name)) == ROOT
  {
    var n := Normalized(name);
    if n == "root" {
      SplitFirst("root", "");
    } else {
      var rest := n[5..];
      assert n == "root" + "." + rest;
      SplitFirst("root", rest);
    }
  }

  /** The path of the channel that a name stands for. */
  function PathOf(name: Option<string>): (p: Path)
    ensures |p| >= 1 && p[0] == "root" && (|p| == 1 ==> p == ROOT)
  {
    NormalizedFromRoot(name);
    Split(Normalized(name))
  }

  /** The full name of a path that starts at the root stands for this path. */
  lemma FullNameStandsFor(p: Path)
    requires |p| >= 1 && p[0] == "root" && NoDots(p)
    ensures PathOf(Some(Join(p))) == p
  {
    if |p| > 1 {
      assert Join(p) == "root" + "." + Join(p[1..]);
      assert "root." <= Join(p);
    }
    SplitOfJoin(p);
  }

  lemma RootIsAdded(n: string)
    requires n != "" && Split(n)[0] != "root"
    ensures Normalized(Some(n)) == "root" + "." + n
  {
    if n == "root" {
      SplitFirst(n, "");
      assert false;
    } else if "root." <= n {
      var rest := n[5..];
      assert n == "root" + "." + rest;
      SplitFirst("root", rest);
      assert false;
    }
  }

  /** The root can be left out of a name. */
  lemma RootIsImplied(p: Path)
    requires |p| >= 1 && p[0] != "root" && NoDots(p) && Join(p) != ""
    ensures PathOf(Some(Join(p))) == PathOf(Some(Join(["root"] + p))) == ["root"] + p
  {
    var n, root := Join(p), "root";
    SplitOfJoin(p);
    RootIsAdded(n);
    SplitFirst(root, n);
    assert (["root"] + p)[1..] == p;
    FullNameStandsFor(["root"] + p);
  }

  /** No name, and the empty name, stand for the root. */
  lemma NoNameIsRoot()
    ensures PathOf(None) == PathOf(Some("")) == ["root"]
  {
    SplitFirst("root", "");
  }

  /** Walks down from `base` and creates the channels that are missing. */
  ghost function Extend(f: Sched, base: Path, names: seq<string>): Sched
    requires WellFormed(f) && base in f
    decreases |names|
  {
    if names == [] then f
    else
      assert Linked(f, base);
      var c := base + [names[0]];
      if names[0] in f[base].children then
        Extend(f, c, names[1..])
      else
        NewChannelWellFormed(f, base, names[0]);
        Extend(WithChannel(f, base, names[0]), c, names[1..])
  }

  ghost function DownOne(f: Sched, p: Path, name: string): Sched
    requires p in f
  {
    if name in f[p].children then f else WithChannel(f, p, name)
  }

  /** The trees that a walk down from `base` along `names` goes through. */
  ghost predicate IsTrail(trail: seq<Sched>, base: Path, names: seq<string>) {
    && |trail| == |names| + 1
    && forall i {:trigger TrailStep(trail, base, names, i)} | 0 <= i < |names| :: TrailStep(trail, base, names, i)
  }

  ghost predicate TrailStep(trail: seq<Sched>, base: Path, names: seq<string>, i: nat)
    requires |trail| == |names| + 1 && i < |names|
  {
    && WellFormed(trail[i]) && base + names[..i] in trail[i]
    && trail[i + 1] == DownOne(trail[i], base + names[..i], names[i])
  }

  lemma {:induction false} TrailOf(f: Sched, base: Path, names: seq<string>) returns (trail: seq<Sched>)
    requires WellFormed(f) && base in f
    ensures IsTrail(trail, base, names) && trail[0] == f && trail[|names|] == Extend(f, base, names)
    decreases |names|
  {
    if names == [] {
      trail := [f];
    } else {
      assert Linked(f, base);
      var c, f1 := base + [names[0]], DownOne(f, base, names[0]);
      if names[0] !in f[base].children {
        NewChannelWellFormed(f, base, names[0]);
      }
      var rest := TrailOf(f1, c, names[1..]);
      trail := [f] + rest;
      forall i | 0 <= i < |names| ensures TrailStep(trail, base, names, i) {
        if i > 0 {
          assert TrailStep(rest, c, names[1..], i - 1);
          assert base + names[..i] == c + names[1..][..i - 1];
        } else {
          assert base + names[..0] == base;
        }
      }
    }
  }

  /** `p` is one of the channels on the way from `base` along `names`. */
  ghost predicate OnTheWay(base: Path, names: seq<string>, p: Path) {
    base <= p && p <= base + names
  }

  lemma OnTheWayNext(base: Path, names: seq<string>, p: Path)
    requires names != []
    ensures OnTheWay(base, names, p) <==> p == base || OnTheWay(base + [names[0]], names[1..], p)
  {
    assert base + names == base + [names[0]] + names[1..];
    if OnTheWay(base, names, p) && p != base {
      assert p[|base|] == (base + names)[|base|];
      assert base + [names[0]] <= p;
    }
  }

  /** A lookup creates exactly the missing channels on its way, and moves no job. */
  lemma {:induction false} ExtendAdds(f: Sched, base: Path, names: seq<string>, p: Path)
    requires WellFormed(f) && base in f
    ensures var f' := Extend(f, base, names);
            && (p in f' <==> p in f || OnTheWay(base, names, p))
            && (p in f ==> f'[p] == f[p].(children := f'[p].children) && f[p].children <= f'[p].children)
            && (p in f' && p !in f ==> f'[p] == NEW_CHANNEL.(children := f'[p].children))
            && (p in f' && p !in f ==> f'[p] == Node(None, false, 0.0, f'[p].children, 0.0, {}, map[], {}, {}))
    decreases |names|
  {
    if names != [] {
      assert Linked(f, base);
      var c := base + [names[0]];
      OnTheWayNext(base, names, p);
      if names[0] in f[base].children {
        ExtendAdds(f, c, names[1..], p);
      } else {
        NewChannelWellFormed(f, base, names[0]);
        ExtendAdds(WithChannel(f, base, names[0]), c, names[1..], p);
      }
    } else {
      assert base + names == base;
      assert OnTheWay(base, names, p) <==> p == base;
    }
  }

  lemma {:induction false} ExtendKeeps(f: Sched, base: Path, names: seq<string>)
    requires WellFormed(f) && AllPlaced(f) && base in f
    ensures WellFormed(Extend(f, base, names)) && AllPlaced(Extend(f, base, names))
    decreases |names|
  {
    if names != [] {
      assert Linked(f, base);
      var c := base + [names[0]];
      if names[0] in f[base].children {
        ExtendKeeps(f, c, names[1..]);
      } else {
        NewChannelWellFormed(f, base, names[0]);
        NewChannelAllPlaced(f, base, names[0]);
        ExtendKeeps(WithChannel(f, base, names[0]), c, names[1..]);
      }
    }
  }

  /** The first parent, going up, that exists; the root if there is no other. */
  ghost function Nearest(f: Sched, p: Path): Path
    requires |p| >= 2
  {
    var q := p[..|p| - 1];
    if |q| == 1 || q in f then q else Nearest(f, q)
  }

  lemma {:induction false} NearestIsLongest(f: Sched, p: Path)
    requires |p| >= 2 && ROOT in f && p[0] == "root"
    ensures var q := Nearest(f, p);
            && q in f && q < p && |q| >= 1 && q[0] == "root"
            && forall i | |q| < i < |p| :: p[..i] !in f
  {
    var q := p[..|p| - 1];
    if |q| == 1 {
      assert q == ROOT;
    } else if q !in f {
      NearestIsLongest(f, q);
      forall i | |Nearest(f, p)| < i < |p| ensures p[..i] !in f {
        if i < |q| {
          assert p[..i] == q[..i];
        }
      }
    }
  }

  /** One step up, on names. */
  lemma HeadNearest(f: Sched, name: string)
    requires |Split(name)| >= 2 && Split(name)[0] == "root"
    ensures '.' in name
    ensures var q := Split(Head(name));
            && |q| < |Split(name)| && q[0] == "root"
            && (Head(name) != "root" ==> |q| >= 2)
            && Nearest(f, Split(name)) == if Head(name) == "root" then ROOT else if q in f then q else Nearest(f, q)
  {
    DotMeansTwo(name);
    HeadOfSplit(name);
    JoinOfSplit(Head(name));
    SplitFirst("root", "");
  }

  ghost function Base(f: Sched, p: Path, fallback: bool): Path
    requires |p| >= 2
  {
    if fallback then Nearest(f, p) else ROOT
  }

  lemma BaseIn(f: Sched, p: Path, fallback: bool)
    requires WellFormed(f) && |p| >= 2 && p[0] == "root"
    ensures Base(f, p, fallback) in f
  {
    NearestIsLongest(f, p);
  }

  /** The channel that a lookup returns. */
  ghost function Target(f: Sched, p: Path, fallback: bool): Path
    requires |p| >= 1 && (p !in f ==> |p| >= 2)
  {
    if p in f then p else Base(f, p, fallback) + p[1..]
  }

  ghost function LookedUp(f: Sched, p: Path, fallback: bool): Sched
    requires WellFormed(f) && |p| >= 1 && p[0] == "root"
  {
    if p in f then f
    else
      assert |p| == 1 ==> p == ROOT;
      BaseIn(f, p, fallback);
      Extend(f, Base(f, p, fallback), p[1..])
  }

  lemma LookupOfMissing(f: Sched, p: Path, fallback: bool)
    requires WellFormed(f) && |p| >= 1 && p[0] == "root" && p !in f
    ensures |p| >= 2 && Base(f, p, fallback) in f && Target(f, p, fallback) == Base(f, p, fallback) + p[1..]
    ensures LookedUp(f, p, fallback) == Extend(f, Base(f, p, fallback), p[1..])
  {
    assert |p| == 1 ==> p == ROOT;
    BaseIn(f, p, fallback);
  }

  /** The lookup that `notify` makes. */
  ghost function TargetBy(f: Sched, name: Option<string>): Path
    requires WellFormed(f)
  {
    Target(f, PathOf(name), true)
  }

  ghost function LookedUpBy(f: Sched, name: Option<string>): Sched
    requires WellFormed(f)
  {
    LookedUp(f, PathOf(name), true)
  }

  /** Without fallback a lookup returns the channel of that very name. */
  lemma TargetExact(f: Sched, p: Path)
    requires WellFormed(f) && |p| >= 1 && p[0] == "root"
    ensures p !in f ==> |p| >= 2
    ensures Target(f, p, false) == p
    ensures p in LookedUp(f, p, false)
  {
    assert |p| == 1 ==> p == ROOT;
    assert ROOT + p[1..] == p;
    if p !in f {
      ExtendAdds(f, ROOT, p[1..], p);
    }
  }

  lemma TargetExists(f: Sched, p: Path, fallback: bool)
    requires WellFormed(f) && |p| >= 1 && p[0] == "root"
    ensures p !in f ==> |p| >= 2
    ensures Target(f, p, fallback) in LookedUp(f, p, fallback)
  {
    assert |p| == 1 ==> p == ROOT;
    if p !in f {
      BaseIn(f, p, fallback);
      ExtendAdds(f, Base(f, p, fallback), p[1..], Target(f, p, fallback));
    }
  }

  /**
    With fallback, the names below the parent that was found are created again under it. So
    the same name leads to the same channel the next time if and only if the parent found is
    the root, or the next component of the name differs from its first one below the root.
   */
  lemma FallbackStable(f: Sched, p: Path)
    requires WellFormed(f) && |p| >= 2 && p[0] == "root" && p !in f
    ensures var q := Nearest(f, p);
            Target(LookedUp(f, p, true), p, true) == Target(f, p, true) <==>
              |q| == 1 || (|q| < |p| && p[|q|] != p[1])
  {
    var q := Nearest(f, p);
    NearestIsLongest(f, p);
    BaseIn(f, p, true);
    ExtendKeepsShape(f, q, p[1..]);
    if |q| == 1 {
      ExtendAdds(f, q, p[1..], p);
      assert q + p[1..] == p;
    } else if p[|q|] == p[1] {
      FallbackMoves(f, p);
    } else {
      FallbackStays(f, p);
    }
  }

  /** What is created under the parent found has the name that comes next, if it repeats the first one. */
  lemma FallbackCreates(f: Sched, p: Path)
    requires WellFormed(f) && |p| >= 2 && p[0] == "root" && p !in f
    requires var q := Nearest(f, p); 1 < |q| < |p| && p[|q|] == p[1]
    ensures p[..|Nearest(f, p)| + 1] in LookedUp(f, p, true)
  {
    var q := Nearest(f, p);
    NearestIsLongest(f, p);
    BaseIn(f, p, true);
    var next := p[..|q| + 1];
    assert next == q + [p[1]];
    assert q + p[1..] == q + [p[1]] + p[2..];
    assert OnTheWay(q, p[1..], next);
    ExtendAdds(f, q, p[1..], next);
  }

  lemma FallbackMoves(f: Sched, p: Path)
    requires WellFormed(f) && |p| >= 2 && p[0] == "root" && p !in f
    requires var q := Nearest(f, p); 1 < |q| < |p| && p[|q|] == p[1]
    ensures Target(LookedUp(f, p, true), p, true) != Target(f, p, true)
  {
    var q, f' := Nearest(f, p), LookedUp(f, p, true);
    FallbackCreates(f, p);
    BaseIn(f, p, true);
    ExtendKeepsShape(f, q, p[1..]);
    if p !in f' {
      NearestIsLongest(f', p);
      assert p[..|p|] == p;
      assert |Nearest(f', p)| > |q|;
    }
  }

  lemma FallbackStays(f: Sched, p: Path)
    requires WellFormed(f) && |p| >= 2 && p[0] == "root" && p !in f
    requires var q := Nearest(f, p); 1 < |q| < |p| && p[|q|] != p[1]
    ensures Target(LookedUp(f, p, true), p, true) == Target(f, p, true)
  {
    var q := Nearest(f, p);
    NearestIsLongest(f, p);
    BaseIn(f, p, true);
    ExtendKeepsShape(f, q, p[1..]);
    var f' := LookedUp(f, p, true);
    forall i | |q| < i <= |p| ensures p[..i] !in f' {
      NotOnTheWay(q, p, i);
      ExtendAdds(f, q, p[1..], p[..i]);
      assert p[..|p|] == p;
    }
    assert p[..|p|] == p;
    NearestIsLongest(f', p);
    ExtendAdds(f, q, p[1..], q);
    assert p[..|q|] == q && p[..|Nearest(f', p)|] == Nearest(f', p);
  }

  lemma NotOnTheWay(q: Path, p: Path, i: nat)
    requires q < p && |p| >= 2 && |q| < i <= |p| && p[|q|] != p[1]
    ensures !OnTheWay(q, p[1..], p[..i])
  {
    assert p[..i][|q|] == p[|q|];
    assert (q + p[1..])[|q|] == p[1];
  }

  lemma {:induction false} ExtendKeepsShape(f: Sched, base: Path, names: seq<string>)
    requires WellFormed(f) && base in f
    ensures WellFormed(Extend(f, base, names))
    decreases |names|
  {
    if names != [] {
      assert Linked(f, base);
      if names[0] in f[base].children {
        ExtendKeepsShape(f, base + [names[0]], names[1..]);
      } else {
        NewChannelWellFormed(f, base, names[0]);
        ExtendKeepsShape(WithChannel(f, base, names[0]), base + [names[0]], names[1..]);
      }
    }
  }

  /** Channels `root` and `root.sub`. */
  ghost function SubTree(): Sched {
    map[["root"] := NEW_CHANNEL.(children := ["sub"]), ["root", "sub"] := NEW_CHANNEL]
  }

  lemma SubTreeLinked()
    ensures WellFormed(SubTree())
  {
    var f := SubTree();
    assert f[ROOT].children[0] == "sub" && ROOT + ["sub"] == ["root", "sub"] && ["root", "sub"][..1] == ROOT;
    forall q | q in f ensures Linked(f, q) {
    }
  }

  /** The name `root.sub.sub` leads to `root.sub.sub.sub` the first time, and to `root.sub.sub` the second time. */
  lemma FallbackMovesOn()
    ensures var f, p := SubTree(), ["root", "sub", "sub"];
            && WellFormed(f) && p !in f
            && Target(f, p, true) == ["root", "sub", "sub", "sub"]
            && Target(LookedUp(f, p, true), p, true) == p
  {
    SubTreeLinked();
    var f, p := SubTree(), ["root", "sub", "sub"];
    assert Nearest(f, p) == ["root", "sub"] by {
      assert p[..2] == ["root", "sub"];
    }
    assert p[1..] == ["sub", "sub"];
    FallbackCreates(f, p);
    assert p[..3] == p;
  }
}
