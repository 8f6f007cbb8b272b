/**
  The loop of a channel that yields jobs, seen from its end: what holds after some turns.
 */
module YieldLoops {
  import opened Prelude
  import opened ChannelJobs
  import opened SchedulerSpec

  /** Node `m` is what the loop has made of `n` after yielding `out`, and it has not stopped yet. */
  ghost predicate Yielding(n: Node, now: Time, out: seq<ChannelJob>, m: Node)
    decreases |out|
  {
    if out == [] then m == n
    else
      && HasCapacity(n) && n.throttle == 0.0
      && Poppable(Mature(n, now), out[0])
      && Yielding(Start(out[0], Mature(n, now)), now, out[1..], m)
  }

  ghost predicate Poppable(m: Node, j: ChannelJob) {
    !Held(m) && IsFirst(m.ready, j)
  }

  lemma {:induction false} YieldingThen(n: Node, now: Time, out: seq<ChannelJob>, m: Node, rest: seq<ChannelJob>, n': Node)
    requires Yielding(n, now, out, m) && Yields(m, now, rest, n')
    ensures Yields(n, now, out + rest, n')
    decreases |out|
  {
    if out == [] {
      assert out + rest == rest;
    } else {
      YieldingThen(Start(out[0], Mature(n, now)), now, out[1..], m, rest, n');
      assert (out + rest)[1..] == out[1..] + rest;
    }
  }

  lemma {:induction false} YieldingOneMore(n: Node, now: Time, out: seq<ChannelJob>, m: Node, j: ChannelJob)
    requires Yielding(n, now, out, m)
    requires HasCapacity(m) && m.throttle == 0.0 && Poppable(Mature(m, now), j)
    ensures Yielding(n, now, out + [j], Start(j, Mature(m, now)))
    decreases |out|
  {
    if out != [] {
      YieldingOneMore(Start(out[0], Mature(n, now)), now, out[1..], m, j);
      assert (out + [j])[1..] == out[1..] + [j];
    }
  }

  /** What popping makes of a channel whose etas past due have been cleared. */
  ghost predicate Popped(m: Node, o: Option<ChannelJob>, n': Node) {
    match o
    case None => (m.ready == {} || Held(m)) && n' == m
    case Some(j) => Poppable(m, j) && n' == m.(ready := m.ready - {j})
  }

  /** What one turn of the loop does, and whether it was the last one. */
  ghost predicate Turn(n: Node, now: Time, o: Option<ChannelJob>, stop: bool, n': Node) {
    var m := Mature(n, now);
    && HasCapacity(n)
    && stop == (o.None? || n.throttle != 0.0)
    && match o
       case None => (m.ready == {} || Held(m)) && n' == m
       case Some(j) =>
         && Poppable(m, j)
         && n' == if stop then Start(j, m).(pauseUntil := now + n.throttle) else Start(j, m)
  }

  function Extended(out: seq<ChannelJob>, o: Option<ChannelJob>): seq<ChannelJob> {
    match o case None => out case Some(j) => out + [j]
  }

  ghost predicate Progress(n: Node, now: Time, out: seq<ChannelJob>, stop: bool, m: Node) {
    if stop then Yields(n, now, out, m) else Yielding(n, now, out, m)
  }

  /** The loop goes on from `m`, or it has ended there. */
  ghost predicate Goes(n: Node, now: Time, out: seq<ChannelJob>, more: bool, m: Node) {
    if more then Yielding(n, now, out, m) && HasCapacity(m) else Yields(n, now, out, m)
  }

  lemma TurnProgress(n: Node, now: Time, out: seq<ChannelJob>, m: Node, o: Option<ChannelJob>, stop: bool, n': Node)
    requires Progress(n, now, out, false, m) && Turn(m, now, o, stop, n')
    requires o.Some? ==> o.value !in n'.waiting
    ensures Progress(n, now, Extended(out, o), stop, n')
    ensures !stop ==> Pending(n') < Pending(m)
  {
    match o
    case None =>
      YieldingThen(n, now, out, m, [], n');
      assert out + [] == out;
    case Some(j) =>
      if stop {
        YieldingThen(n, now, out, m, [j], n');
      } else {
        YieldingOneMore(n, now, out, m, j);
        PendingShrinks(m, now, j);
      }
  }

  lemma FullProgress(n: Node, now: Time, out: seq<ChannelJob>, stop: bool, m: Node)
    requires Progress(n, now, out, stop, m) && (stop || !HasCapacity(m))
    ensures Yields(n, now, out, m)
  {
    if !stop {
      YieldingThen(n, now, out, m, [], m);
      assert out + [] == out;
    }
  }

  function Pending(n: Node): set<ChannelJob> {
    n.ready + n.waiting.Keys
  }

  lemma PendingShrinks(n: Node, now: Time, j: ChannelJob)
    requires j in Mature(n, now).ready && j !in Mature(n, now).waiting
    ensures Pending(Start(j, Mature(n, now))) < Pending(n)
  {
    assert j in Pending(n) && j !in Pending(Start(j, Mature(n, now)));
  }
}
