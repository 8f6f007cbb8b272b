/**
  A binary heap, and the priority queue with lazy removal on top of it.
 */
module PriorityQueues {
  import opened Prelude
  import opened ChannelJobs

  // ---------- binary heaps of ranks ----------

  function Parent(i: int): int {
    (i - 1) / 2
  }

  predicate HeapOrder(s: seq<Rank>) {
    forall i | 0 < i < |s| :: RankLe(s[Parent(i)], s[i])
  }

  /** In order except that the rank at `pos` may be too small for its place. */
  predicate UpTo(s: seq<Rank>, pos: nat) {
    && (forall i | 0 < i < |s| && i != pos :: RankLe(s[Parent(i)], s[i]))
    && (forall i | 0 < i < |s| && Parent(i) == pos && pos > 0 :: RankLe(s[Parent(pos)], s[i]))
  }

  /** In order except that the rank at `pos` may be too large for its place. */
  predicate DownTo(s: seq<Rank>, pos: nat) {
    && (forall i | 0 < i < |s| && Parent(i) != pos :: RankLe(s[Parent(i)], s[i]))
    && (forall i | 0 < i < |s| && Parent(i) == pos && pos > 0 :: RankLe(s[Parent(pos)], s[i]))
  }

  function Swap<T>(s: seq<T>, i: nat, k: nat): (r: seq<T>)
    requires i < |s| && k < |s| && i != k
    ensures multiset(r) == multiset(s)
  {
    s[i := s[k]][k := s[i]]
  }

  lemma {:induction false} FirstIsLeast(s: seq<Rank>, i: nat)
    requires HeapOrder(s) && i < |s|
    ensures RankLe(s[0], s[i])
  {
    if i > 0 {
      FirstIsLeast(s, Parent(i));
      RankLeTransitive(s[0], s[Parent(i)], s[i]);
    }
  }

  lemma SiftUp(s: seq<Rank>, pos: nat)
    requires UpTo(s, pos) && 0 < pos < |s| && RankLt(s[pos], s[Parent(pos)])
    ensures UpTo(Swap(s, Parent(pos), pos), Parent(pos))
  {
    var parent := Parent(pos);
    var t := Swap(s, parent, pos);
    forall i | 0 < i < |t| && i != parent ensures RankLe(t[Parent(i)], t[i]) {
      if i != pos && Parent(i) == parent {
        RankLeTransitive(s[pos], s[parent], s[i]);
      }
    }
    forall i | 0 < i < |t| && Parent(i) == parent && parent > 0 ensures RankLe(t[Parent(parent)], t[i]) {
      if i != pos {
        RankLeTransitive(s[Parent(parent)], s[parent], s[i]);
      }
    }
  }

  lemma SiftDown(s: seq<Rank>, pos: nat, child: nat)
    requires DownTo(s, pos) && pos < |s| && 0 < child < |s| && Parent(child) == pos
    requires RankLt(s[child], s[pos])
    requires forall i | 0 < i < |s| && Parent(i) == pos :: RankLe(s[child], s[i])
    ensures DownTo(Swap(s, pos, child), child)
  {
    var t := Swap(s, pos, child);
    forall i | 0 < i < |t| && Parent(i) != child ensures RankLe(t[Parent(i)], t[i]) {
    }
  }

  // ---------- heapq ----------

  function Ranks(h: seq<ChannelJob>): (r: seq<Rank>)
    reads h
    ensures |r| == |h| && forall i | 0 <= i < |h| :: r[i] == h[i].GetRank()
  {
    seq(|h|, i requires 0 <= i < |h| reads h => h[i].GetRank())
  }

  predicate IsHeap(h: seq<ChannelJob>)
    reads h
  {
    HeapOrder(Ranks(h))
  }

  lemma RanksSwap(h: seq<ChannelJob>, i: nat, k: nat)
    requires i < |h| && k < |h| && i != k
    ensures Ranks(Swap(h, i, k)) == Swap(Ranks(h), i, k)
  {
  }

  method HeapPush(h: seq<ChannelJob>, x: ChannelJob) returns (r: seq<ChannelJob>)
    requires IsHeap(h)
    ensures IsHeap(r) && multiset(r) == multiset(h) + multiset{x}
  {
    r := h + [x];
    var pos := |h|;
    assert forall i | 0 <= i < |h| :: Ranks(r)[i] == Ranks(h)[i];
    while pos > 0
      invariant 0 <= pos < |r|
      invariant multiset(r) == multiset(h) + multiset{x}
      invariant UpTo(Ranks(r), pos)
    {
      var parent := Parent(pos);
      if !RankLt(r[pos].GetRank(), r[parent].GetRank()) {
        return;
      }
      SiftUp(Ranks(r), pos);
      RanksSwap(r, parent, pos);
      r := Swap(r, parent, pos);
      pos := parent;
    }
  }

  predicate IsSmallerChild(s: seq<Rank>, pos: nat, child: nat) {
    && pos < |s| && 0 < child < |s| && Parent(child) == pos
    && forall i | 0 < i < |s| && Parent(i) == pos :: RankLe(s[child], s[i])
  }

  method SmallerChild(h: seq<ChannelJob>, pos: nat) returns (child: nat)
    requires 2 * pos + 1 < |h|
    ensures IsSmallerChild(Ranks(h), pos, child) && pos < child < |h|
  {
    child := 2 * pos + 1;
    assert forall i | 0 < i < |h| && Parent(i) == pos :: i == 2 * pos + 1 || i == 2 * pos + 2;
    if child + 1 < |h| && RankLt(h[child + 1].GetRank(), h[child].GetRank()) {
      child := child + 1;
    }
  }

  lemma DownToDone(s: seq<Rank>, pos: nat, child: nat)
    requires DownTo(s, pos) && IsSmallerChild(s, pos, child) && RankLe(s[pos], s[child])
    ensures HeapOrder(s)
  {
    forall i | 0 < i < |s| ensures RankLe(s[Parent(i)], s[i]) {
      if Parent(i) == pos {
        RankLeTransitive(s[pos], s[child], s[i]);
      }
    }
  }

  method SiftRootDown(h: seq<ChannelJob>) returns (r: seq<ChannelJob>)
    requires h != [] && DownTo(Ranks(h), 0)
    ensures IsHeap(r) && multiset(r) == multiset(h)
  {
    r := h;
    var pos := 0;
    while 2 * pos + 1 < |r|
      invariant 0 <= pos < |r|
      invariant multiset(r) == multiset(h)
      invariant DownTo(Ranks(r), pos)
      decreases |r| - pos
    {
      var child := SmallerChild(r, pos);
      if !RankLt(r[child].GetRank(), r[pos].GetRank()) {
        DownToDone(Ranks(r), pos, child);
        return;
      }
      SiftDown(Ranks(r), pos, child);
      RanksSwap(r, pos, child);
      r := Swap(r, pos, child);
      pos := child;
    }
  }

  method HeapPop(h: seq<ChannelJob>) returns (first: ChannelJob, r: seq<ChannelJob>)
    requires IsHeap(h) && h != []
    ensures first == h[0] && IsHeap(r) && multiset(h) == multiset(r) + multiset{first}
  {
    first := h[0];
    var last := h[|h| - 1];
    r := h[..|h| - 1];
    assert h == r + [last];
    if r != [] {
      r := r[0 := last];
      assert forall i | 0 < i < |r| :: Ranks(r)[i] == Ranks(h)[i];
      r := SiftRootDown(r);
    }
  }

  // ---------- the priority queue ----------

  lemma MultisetWithout(s: set<ChannelJob>, x: ChannelJob, rest: multiset<ChannelJob>)
    requires multiset(s) == rest + multiset{x}
    ensures x in s && rest == multiset(s - {x})
  {
    assert x in multiset(s);
    forall y ensures rest[y] == multiset(s - {x})[y] {
      assert multiset(s)[y] == rest[y] + multiset{x}[y];
    }
  }

  lemma HeapIsKnown(h: seq<ChannelJob>, s: set<ChannelJob>)
    requires multiset(h) == multiset(s)
    ensures forall j | j in h :: j in s
  {
    forall j | j in h ensures j in s {
      assert j in multiset(h);
    }
  }

  /** Adding an object already in the queue is a no-op; arbitrary objects can be removed. */
  class PriorityQueue {
    var heap: seq<ChannelJob>
    var known: set<ChannelJob>     // all objects in the heap, including removed ones
    var removed: set<ChannelJob>   // all objects that have been removed

    ghost predicate Valid()
      reads this, known
    {
      && (forall j | j in heap :: j in known)
      && multiset(heap) == multiset(known)
      && removed <= known
      && IsHeap(heap)
    }

    /** The objects that are in the queue. */
    ghost function Live(): set<ChannelJob>
      reads this
    {
      known - removed
    }

    constructor ()
      ensures Valid() && Live() == {} && known == {}
    {
      heap, known, removed := [], {}, {};
    }

    method Len() returns (n: int)
      requires Valid()
      ensures n == |Live()|
    {
      assert |known| == |known - removed| + |removed|;
      n := |known| - |removed|;
    }

    lemma FirstOfHeap()
      requires Valid() && heap != []
      ensures heap[0] in known
      ensures forall x | x in known :: RankLe(heap[0].GetRank(), x.GetRank())
    {
      assert heap[0] in multiset(heap);
      forall x | x in known ensures RankLe(heap[0].GetRank(), x.GetRank()) {
        assert x in multiset(heap);
        var i :| 0 <= i < |heap| && heap[i] == x;
        FirstIsLeast(Ranks(heap), i);
      }
    }

    /** Takes the first object, removed or not, off the heap. */
    method PopHeap() returns (o: ChannelJob)
      requires Valid() && heap != []
      modifies this
      ensures Valid() && |heap| == |old(heap)| - 1
      ensures o == old(heap)[0] && o in old(known) && known == old(known) - {o} && removed == old(removed) - {o}
      ensures forall x | x in old(known) :: RankLe(o.GetRank(), x.GetRank())
    {
      FirstOfHeap();
      var rest;
      o, rest := HeapPop(heap);
      MultisetWithout(known, o, multiset(rest));
      assert |multiset(heap)| == |multiset(rest)| + 1;
      heap, known, removed := rest, known - {o}, removed - {o};
      HeapIsKnown(heap, known);
    }

    /** The first live object; the objects removed earlier are dropped from the heap on the way. */
    method Peek() returns (o: Option<ChannelJob>)
      requires Valid()
      modifies this
      ensures Valid() && Live() == old(Live()) && known <= old(known)
      ensures o.None? <==> Live() == {}
      ensures o.Some? ==> o.value in Live() && forall x | x in Live() :: RankLe(o.value.GetRank(), x.GetRank())
    {
      while heap != [] && heap[0] in removed
        invariant Valid() && Live() == old(Live()) && known <= old(known)
        decreases |heap|
      {
        var o := PopHeap();
      }
      if heap == [] {
        assert multiset(known) == multiset{};
        return None;
      }
      FirstOfHeap();
      assert heap[0] in Live();
      return Some(heap[0]);
    }

    /** The queue stays valid as long as nobody changes the jobs in its heap. */
    twostate lemma StillValid()
      requires old(Valid()) && unchanged(this) && forall j | j in known :: unchanged(j)
      ensures Valid()
    {
      forall i | 0 <= i < |heap| ensures heap[i].GetRank() == old(heap[i].GetRank()) {
        assert heap[i] in multiset(heap);
      }
      assert Ranks(heap) == old(Ranks(heap));
    }

    lemma NotInHeap(o: ChannelJob)
      requires Valid() && o !in known
      ensures o !in heap
    {
      assert o in heap ==> o in multiset(heap);
    }

    method Contains(o: ChannelJob) returns (b: bool)
      requires Valid()
      ensures b == (o in Live())
    {
      b := o in known && o !in removed;
    }

    method Add(o: ChannelJob)
      requires Valid()
      modifies this
      ensures Valid() && Live() == old(Live()) + {o} && known == old(known) + {o}
    {
      removed := removed - {o};
      if o in known {
        return;
      }
      assert multiset(known + {o}) == multiset(known) + multiset{o};
      known := known + {o};
      heap := HeapPush(heap, o);
      HeapIsKnown(heap, known);
    }

    method Remove(o: ChannelJob)
      requires Valid()
      modifies this`removed
      ensures Valid() && Live() == old(Live()) - {o}
    {
      if o !in known {
        return;
      }
      removed := removed + {o};
    }

    /** Takes out the first live object, `None` when the queue is empty. */
    method Pop() returns (o: Option<ChannelJob>)
      requires Valid()
      modifies this
      ensures Valid() && known <= old(known)
      ensures o.None? <==> old(Live()) == {}
      ensures o.None? ==> Live() == {}
      ensures o.Some? ==> o.value in old(Live()) && Live() == old(Live()) - {o.value} && o.value !in known
      ensures o.Some? ==> forall x | x in old(Live()) :: RankLe(o.value.GetRank(), x.GetRank())
    {
      while heap != []
        invariant Valid() && Live() == old(Live()) && known <= old(known)
        decreases |heap|
      {
        var wasRemoved := heap[0] in removed;
        var first := PopHeap();
        if !wasRemoved {
          assert first in old(Live());
          return Some(first);
        }
      }
      assert multiset(known) == multiset{};
      return None;
    }
  }
}
