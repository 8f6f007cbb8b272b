/**
  The heaps and sets refine a simple recursive specification: what a channel yields is
  computed by sorting.
 */
module SchedulerOrder {
  import opened Prelude
  import opened ChannelJobs
  import opened SchedulerSpec

  // ---------- sorting keys ----------

  ghost predicate IsMinKey(m: multiset<Key>, k: Key) {
    k in m && forall x | x in m :: KeyLe(k, x)
  }

  lemma {:induction false} MinKeyExists(m: multiset<Key>)
    requires m != multiset{}
    ensures exists k :: IsMinKey(m, k)
    decreases |m|
  {
    var k :| k in m;
    var rest := m - multiset{k};
    if rest == multiset{} {
      assert m == multiset{k};
      assert IsMinKey(m, k);
    } else {
      MinKeyExists(rest);
      var x :| IsMinKey(rest, x);
      assert forall i | i in m :: i == k || i in rest;
      if KeyLt(k, x) {
        assert IsMinKey(m, k);
      } else {
        assert IsMinKey(m, x);
      }
    }
  }

  /** The keys in increasing order. */
  ghost function Sorted(m: multiset<Key>): seq<Key>
    decreases |m|
  {
    if m == multiset{} then []
    else
      MinKeyExists(m);
      var k :| IsMinKey(m, k);
      [k] + Sorted(m - multiset{k})
  }

  lemma SortedFirst(m: multiset<Key>, k: Key)
    requires IsMinKey(m, k)
    ensures Sorted(m) == [k] + Sorted(m - multiset{k})
  {
    MinKeyExists(m);
    assert forall x | IsMinKey(m, x) :: x == k;
  }

  // ---------- keys of jobs ----------

  ghost function KeysOf(s: set<ChannelJob>): multiset<Key> {
    if s == {} then multiset{}
    else
      var j :| j in s;
      multiset{j.key} + KeysOf(s - {j})
  }

  lemma {:induction false} KeysOfRemove(s: set<ChannelJob>, j: ChannelJob)
    requires j in s
    ensures KeysOf(s) == multiset{j.key} + KeysOf(s - {j})
    decreases |s|
  {
    var i :| i in s && KeysOf(s) == multiset{i.key} + KeysOf(s - {i});
    if i != j {
      KeysOfRemove(s - {i}, j);
      KeysOfRemove(s - {j}, i);
      assert s - {i} - {j} == s - {j} - {i};
    }
  }

  lemma {:induction false} KeysOfIn(s: set<ChannelJob>, k: Key)
    ensures k in KeysOf(s) <==> exists j | j in s :: j.key == k
    decreases |s|
  {
    if s != {} {
      var i :| i in s && KeysOf(s) == multiset{i.key} + KeysOf(s - {i});
      KeysOfIn(s - {i}, k);
    }
  }

  lemma KeysCons(q: seq<ChannelJob>)
    requires q != []
    ensures Keys(q) == [q[0].key] + Keys(q[1..])
    ensures multiset(Keys(q)) == multiset{q[0].key} + multiset(Keys(q[1..]))
    ensures Elems(q) == Elems(q[1..]) + {q[0]}
  {
    assert Keys(q) == [q[0].key] + Keys(q[1..]);
    assert q == [q[0]] + q[1..];
  }

  lemma {:induction false} KeysOfSeq(s: set<ChannelJob>, q: seq<ChannelJob>)
    requires Elems(q) !! s
    requires forall i, k | 0 <= i < k < |q| :: q[i] != q[k]
    ensures KeysOf(s + Elems(q)) == KeysOf(s) + multiset(Keys(q))
    decreases |q|
  {
    if q == [] {
      assert s + Elems(q) == s;
    } else {
      KeysCons(q);
      assert q[0] !in Elems(q[1..]);
      assert s + Elems(q) - {q[0]} == s + Elems(q[1..]);
      KeysOfRemove(s + Elems(q), q[0]);
      KeysOfSeq(s, q[1..]);
    }
  }

  function Keys(q: seq<ChannelJob>): seq<Key> {
    seq(|q|, i requires 0 <= i < |q| => q[i].key)
  }

  // ---------- the specification ----------

  /** How many more jobs may run; `None` is no limit. */
  function FreeSlots(n: Node): Option<nat> {
    if n.sequential && n.failed != {} then Some(0)
    else if n.capacity.None? || n.capacity.value == 0 then None
    else if n.capacity.value <= |n.running| then Some(0)
    else Some(n.capacity.value - |n.running|)
  }

  function Throttled(n: Node): Option<nat> {
    var k := FreeSlots(n);
    if n.throttle != 0.0 && (k.None? || k.value > 1) then Some(1) else k
  }

  function Take<T>(k: Option<nat>, s: seq<T>): seq<T> {
    if k.None? || k.value > |s| then s else s[..k.value]
  }

  /** The longest prefix of keys that do not come after `cut`. */
  function UpTo(cut: Key, s: seq<Key>): seq<Key> {
    if s == [] || KeyLt(cut, s[0]) then [] else [s[0]] + UpTo(cut, s[1..])
  }

  /** In a sequential channel no job overtakes the waiting job with the earliest eta. */
  ghost function CutOff(n: Node, s: seq<Key>): seq<Key> {
    if n.sequential && n.waiting.Keys != {} then UpTo(HeadKey(n.waiting), s) else s
  }

  /** The key, ignoring the eta, of the waiting job with the earliest eta. */
  ghost function HeadKey(waiting: map<ChannelJob, Time>): Key
    requires waiting.Keys != {}
  {
    EtaHeadExists(waiting);
    var e :| IsEtaHead(waiting, e);
    e.key
  }

  /** What a channel yields, given the keys of the jobs that come in from its children. */
  ghost function YieldedKeys(n: Node, now: Time, incoming: multiset<Key>): seq<Key> {
    if Paused(n, now) then []
    else
      var m := Mature(n, now);
      Take(Throttled(m), CutOff(m, Sorted(KeysOf(m.ready) + incoming)))
  }

  /** The recursive specification of `get_jobs_to_run`. */
  ghost function SpecKeys(f: Sched, p: Path, now: Time): seq<Key>
    requires WellFormed(f) && p in f
    decreases Height(f, p), 1, 0
  {
    YieldedKeys(f[p], now, multiset(ChildrenKeys(f, p, 0, now)))
  }

  ghost function ChildrenKeys(f: Sched, p: Path, i: nat, now: Time): seq<Key>
    requires WellFormed(f) && p in f && i <= |f[p].children|
    decreases Height(f, p), 0, |f[p].children| - i
  {
    if i == |f[p].children| then []
    else
      assert Linked(f, p);
      var c := p + [f[p].children[i]];
      DepthBounds(f.Keys, c);
      SpecKeys(f, c, now) + ChildrenKeys(f, p, i + 1, now)
  }

  /** The head of the other jobs, or `j` if it comes first. */
  lemma EtaHeadOfTwo(waiting: map<ChannelJob, Time>, j: ChannelJob, e: ChannelJob)
    requires j in waiting && IsEtaHead(waiting - {j}, e)
    ensures exists h | h in waiting :: IsEtaHead(waiting, h)
  {
    var first := if RankLt(Rank(Some(waiting[j]), j.key), Rank(Some(waiting[e]), e.key)) then j else e;
    forall k | k in waiting ensures !RankLt(Rank(Some(waiting[k]), k.key), Rank(Some(waiting[first]), first.key)) {
      if k != j {
        assert k in waiting - {j};
        assert !RankLt(Rank(Some(waiting[k]), k.key), Rank(Some(waiting[e]), e.key));
      }
    }
    assert IsEtaHead(waiting, first);
  }

  lemma {:induction false} EtaHeadExists(waiting: map<ChannelJob, Time>)
    requires waiting.Keys != {}
    ensures exists e | e in waiting :: IsEtaHead(waiting, e)
    decreases |waiting|
  {
    var j :| j in waiting;
    var rest := waiting - {j};
    assert waiting.Keys == rest.Keys + {j};
    if rest.Keys == {} {
      assert IsEtaHead(waiting, j);
    } else {
      EtaHeadExists(rest);
      var e :| e in rest && IsEtaHead(rest, e);
      EtaHeadOfTwo(waiting, j, e);
    }
  }

  lemma EtaHeadKey(waiting: map<ChannelJob, Time>, e: ChannelJob, e': ChannelJob)
    requires IsEtaHead(waiting, e) && IsEtaHead(waiting, e')
    ensures e.key == e'.key
  {
  }

  lemma SortedReady(ready: set<ChannelJob>, j: ChannelJob)
    requires IsFirst(ready, j)
    ensures Sorted(KeysOf(ready)) == [j.key] + Sorted(KeysOf(ready - {j}))
  {
    KeysOfRemove(ready, j);
    forall k | k in KeysOf(ready) ensures KeyLe(j.key, k) {
      KeysOfIn(ready, k);
    }
    assert IsMinKey(KeysOf(ready), j.key);
    SortedFirst(KeysOf(ready), j.key);
    assert KeysOf(ready) - multiset{j.key} == KeysOf(ready - {j});
  }

  lemma FirstExists(ready: set<ChannelJob>)
    requires ready != {}
    ensures exists j | j in ready :: IsFirst(ready, j)
  {
    var i :| i in ready;
    KeysOfIn(ready, i.key);
    MinKeyExists(KeysOf(ready));
    var k :| IsMinKey(KeysOf(ready), k);
    KeysOfIn(ready, k);
    var j :| j in ready && j.key == k;
    forall r | r in ready ensures KeyLe(j.key, r.key) {
      KeysOfIn(ready, r.key);
    }
    assert IsFirst(ready, j);
  }

  /** Cutting off the sorted ready keys is deciding, job by job, whether the channel is held. */
  lemma CutOffStep(n: Node, j: ChannelJob)
    requires IsFirst(n.ready, j)
    ensures CutOff(n, Sorted(KeysOf(n.ready))) ==
            if Held(n) then [] else [j.key] + CutOff(n, Sorted(KeysOf(n.ready - {j})))
  {
    SortedReady(n.ready, j);
    if n.sequential && n.waiting.Keys != {} {
      EtaHeadExists(n.waiting);
      forall e | IsEtaHead(n.waiting, e) ensures e.key == HeadKey(n.waiting) {
        var h :| IsEtaHead(n.waiting, h) && h.key == HeadKey(n.waiting);
        EtaHeadKey(n.waiting, e, h);
      }
    }
  }

  lemma TakeCons(k: Option<nat>, x: Key, s: seq<Key>)
    requires k.None? || k.value >= 1
    ensures Take(k, [x] + s) == [x] + Take(if k.None? then None else Some(k.value - 1), s)
  {
  }

  lemma SlotsStep(n: Node, j: ChannelJob)
    requires HasCapacity(n) && j !in n.running
    ensures FreeSlots(n).None? || FreeSlots(n).value >= 1
    ensures FreeSlots(Start(j, n)) == if FreeSlots(n).None? then None else Some(FreeSlots(n).value - 1)
    ensures n.throttle != 0.0 ==> Throttled(n) == Some(1)
  {
    assert |Start(j, n).running| == |n.running| + 1;
  }

  /** One turn of the loop takes the first key of the specified result. */
  lemma YieldsSortedStep(n: Node, j: ChannelJob, rest: seq<Key>)
    requires n.ready !! n.running
    requires HasCapacity(n) && !Held(n) && IsFirst(n.ready, j)
    requires rest == if n.throttle != 0.0 then [] else
                       var s := Start(j, n); Take(Throttled(s), CutOff(s, Sorted(KeysOf(s.ready))))
    ensures Take(Throttled(n), CutOff(n, Sorted(KeysOf(n.ready)))) == [j.key] + rest
  {
    var all := CutOff(n, Sorted(KeysOf(n.ready)));
    var c := CutOff(n, Sorted(KeysOf(n.ready - {j})));
    assert all == [j.key] + c by {
      CutOffStep(n, j);
    }
    SlotsStep(n, j);
    TakeCons(Throttled(n), j.key, c);
    if n.throttle == 0.0 {
      var s := Start(j, n);
      assert CutOff(s, Sorted(KeysOf(s.ready))) == c;
    }
  }

  lemma NothingYielded(n: Node)
    requires n.ready == {} || Held(n)
    ensures Take(Throttled(n), CutOff(n, Sorted(KeysOf(n.ready)))) == []
  {
    if n.ready == {} {
      assert KeysOf(n.ready) == multiset{};
    } else {
      FirstExists(n.ready);
      var j :| j in n.ready && IsFirst(n.ready, j);
      CutOffStep(n, j);
    }
  }

  lemma FullYieldsNothing(n: Node, s: seq<Key>)
    requires !HasCapacity(n)
    ensures Take(Throttled(n), s) == []
  {
  }

  lemma OneYielded(n: Node, now: Time, out: seq<ChannelJob>, n': Node)
    requires Yields(n, now, out, n') && HasCapacity(n) && Mature(n, now) == n && n.ready != {} && !Held(n)
    ensures out != [] && IsFirst(n.ready, out[0])
    ensures n.throttle != 0.0 ==> out[1..] == []
    ensures n.throttle == 0.0 ==> Yields(Start(out[0], n), now, out[1..], n')
  {
  }

  lemma {:induction false} YieldsSorted(n: Node, now: Time, out: seq<ChannelJob>, n': Node)
    requires Yields(n, now, out, n')
    requires n.ready !! n.running
    requires forall j | j in n.waiting :: now < n.waiting[j]
    ensures Keys(out) == Take(Throttled(n), CutOff(n, Sorted(KeysOf(n.ready))))
    decreases |out|
  {
    if HasCapacity(n) {
      assert Mature(n, now) == n;
      if n.ready == {} || Held(n) {
        NothingYielded(n);
      } else {
        OneYielded(n, now, out, n');
        if n.throttle == 0.0 {
          YieldsSorted(Start(out[0], n), now, out[1..], n');
        }
        assert Keys(out) == [out[0].key] + Keys(out[1..]) by {
          KeysCons(out);
        }
        YieldsSortedStep(n, out[0], Keys(out[1..]));
      }
    } else {
      FullYieldsNothing(n, CutOff(n, Sorted(KeysOf(n.ready))));
    }
  }

  // ---------- sequential channels ----------

  /** `j` comes first, whatever the etas, among the jobs that are ready and those that wait. */
  ghost predicate IsFirstOfAll(n: Node, j: ChannelJob) {
    forall r | r in n.ready + n.waiting.Keys :: KeyLe(j.key, r.key)
  }

  /**
    A sequential channel lets its first ready job go exactly when the waiting job with the
    earliest eta does not sort before it.
   */
  lemma SequentialGoes(n: Node, j: ChannelJob, e: ChannelJob)
    requires n.sequential && IsFirst(n.ready, j) && IsEtaHead(n.waiting, e)
    ensures !Held(n) <==> KeyLe(j.key, e.key)
  {
    if h :| h in n.waiting && IsEtaHead(n.waiting, h) && forall r | r in n.ready :: KeyLt(h.key, r.key) {
      EtaHeadKey(n.waiting, h, e);
    }
  }

  /** When all waiting jobs have one eta, a sequential channel yields its jobs in the order of all of them. */
  lemma SequentialIsFirst(n: Node, now: Time, out: seq<ChannelJob>, n': Node)
    requires Yields(n, now, out, n') && n.sequential && out != []
    requires forall a, b | a in n.waiting && b in n.waiting :: n.waiting[a] == n.waiting[b]
    ensures IsFirstOfAll(n, out[0])
  {
    var m := Mature(n, now);
    if m.waiting.Keys != {} {
      EtaHeadExists(m.waiting);
      var e :| e in m.waiting && IsEtaHead(m.waiting, e);
      SequentialGoes(m, out[0], e);
      forall r | r in m.waiting ensures KeyLe(out[0].key, r.key) {
        assert !RankLt(Rank(Some(m.waiting[r]), r.key), Rank(Some(m.waiting[e]), e.key));
      }
    }
    forall r | r in n.ready + n.waiting.Keys ensures KeyLe(out[0].key, r.key) {
      assert r in m.ready || r in m.waiting;
    }
  }
}
