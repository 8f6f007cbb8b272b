/**
  The queue of a channel: jobs with an eta are set aside until their eta is past due.
 */
module ChannelQueues {
  import opened Prelude
  import opened ChannelJobs
  import opened PriorityQueues
  import opened SchedulerSpec

  lemma KeysChange(waiting: map<ChannelJob, Time>, j: ChannelJob, eta: Time)
    ensures waiting[j := eta].Keys == waiting.Keys + {j}
    ensures (waiting - {j}).Keys == waiting.Keys - {j}
  {
  }

  class ChannelQueue {
    const queue: PriorityQueue
    const etaQueue: PriorityQueue
    var sequential: bool
    ghost var waiting: map<ChannelJob, Time>   // the live jobs of etaQueue with their eta

    /**
      The heaps are in order, and `w` says which jobs wait for which eta. Jobs keep their sorting key
      while they sit in a heap: those in `etaQueue`, removed or not, still have their eta, and those
      in `queue` have none.
     */
    ghost predicate Fits(w: map<ChannelJob, Time>)
      reads queue, etaQueue, queue.known, etaQueue.known
    {
      && queue != etaQueue
      && queue.Valid() && etaQueue.Valid()
      && (forall j | j in queue.known :: j.eta.None?)
      && (forall j | j in etaQueue.known :: j.eta.Some?)
      && w.Keys == etaQueue.Live()
      && (forall j | j in w :: j.eta == Some(w[j]))
    }

    ghost predicate Valid()
      reads this, queue, etaQueue, queue.known, etaQueue.known
    {
      Fits(waiting)
    }

    ghost function Ready(): set<ChannelJob>
      reads this, queue
    {
      queue.Live()
    }

    constructor (sequential: bool)
      ensures Valid() && fresh(queue) && fresh(etaQueue)
      ensures this.sequential == sequential && Ready() == {} && waiting == map[]
      ensures queue.known == {} && etaQueue.known == {}
    {
      this.sequential := sequential;
      queue := new PriorityQueue();
      etaQueue := new PriorityQueue();
      waiting := map[];
    }

    method Contains(o: ChannelJob) returns (b: bool)
      requires Valid()
      ensures b == (o in Ready() || o in waiting)
    {
      b := etaQueue.Contains(o);
      if !b {
        b := queue.Contains(o);
      }
    }

    method Add(job: ChannelJob)
      requires Valid()
      modifies this`waiting, queue, etaQueue
      ensures Valid()
      ensures job.eta.Some? ==> waiting == old(waiting)[job := job.eta.value] && Ready() == old(Ready())
      ensures job.eta.None? ==> waiting == old(waiting) && Ready() == old(Ready()) + {job}
      ensures etaQueue.known == old(etaQueue.known) + if job.eta.Some? then {job} else {}
      ensures queue.known == old(queue.known) + if job.eta.Some? then {} else {job}
    {
      if job.eta.Some? {
        AddWaiting(job);
      } else {
        AddReady(job);
      }
    }

    method AddWaiting(job: ChannelJob)
      requires Valid() && job.eta.Some?
      modifies this`waiting, etaQueue
      ensures Valid() && waiting == old(waiting)[job := job.eta.value]
      ensures etaQueue.known == old(etaQueue.known) + {job}
    {
      AddToEtaQueue(job);
      KeysChange(waiting, job, job.eta.value);
      SetWaiting(waiting[job := job.eta.value]);
    }

    ghost method SetWaiting(w: map<ChannelJob, Time>)
      requires Fits(w)
      modifies this`waiting
      ensures Valid() && waiting == w
    {
      waiting := w;
    }

    method AddToEtaQueue(job: ChannelJob)
      requires Valid() && job.eta.Some?
      modifies etaQueue
      ensures queue.Valid() && etaQueue.Valid() && etaQueue.Live() == old(etaQueue.Live()) + {job}
      ensures etaQueue.known == old(etaQueue.known) + {job}
    {
      etaQueue.Add(job);
    }

    method AddReady(job: ChannelJob)
      requires Valid() && job.eta.None?
      modifies queue
      ensures Valid() && Ready() == old(Ready()) + {job}
      ensures queue.known == old(queue.known) + {job}
    {
      queue.Add(job);
    }

    method Remove(job: ChannelJob)
      requires Valid()
      modifies this`waiting, queue`removed, etaQueue`removed
      ensures Valid() && Ready() == old(Ready()) - {job} && waiting == old(waiting) - {job}
    {
      etaQueue.Remove(job);
      queue.Remove(job);
      KeysChange(waiting, job, 0.0);
      SetWaiting(waiting - {job});
    }

    /** Is there a waiting job whose eta is past due? */
    method HeadIsDue(now: Time) returns (due: bool)
      requires Valid()
      modifies etaQueue
      ensures Valid() && etaQueue.Live() == old(etaQueue.Live()) && etaQueue.known <= old(etaQueue.known)
      ensures due <==> Due(waiting, now) != {}
    {
      var head := etaQueue.Peek();
      due := head.Some? && head.value.eta.value <= now;
      if due {
        assert head.value in Due(waiting, now);
      } else {
        forall j | j in waiting ensures waiting[j] > now {
          assert RankLe(head.value.GetRank(), j.GetRank());
        }
      }
    }

    /** Moves the job with the earliest eta to the other queue, and clears its eta. */
    method PromoteHead() returns (job: ChannelJob)
      requires Valid() && waiting.Keys != {}
      modifies this`waiting, queue, etaQueue, etaQueue.known
      ensures Valid()
      ensures job in old(waiting) && forall x | x in old(waiting) :: old(waiting)[job] <= old(waiting)[x]
      ensures Ready() == old(Ready()) + {job} && waiting == old(waiting) - {job}
      ensures queue.known == old(queue.known) + {job} && etaQueue.known <= old(etaQueue.known)
      ensures job in old(etaQueue.known)
      ensures job.eta == None && forall j | j in old(etaQueue.known) && j != job :: j.eta == old(j.eta)
    {
      job := TakeHead();
      Switch(job);
    }

    /** A job that was taken off the heap of those with an eta joins the others. */
    method Switch(job: ChannelJob)
      requires Fits(waiting - {job}) && job !in queue.known && job !in etaQueue.known
      modifies job`eta, this`waiting, queue
      ensures Valid() && job.eta == None && waiting == old(waiting) - {job}
      ensures Ready() == old(Ready()) + {job} && queue.known == old(queue.known) + {job}
    {
      ClearEta(job);
      AddReady(job);
    }

    method TakeHead() returns (job: ChannelJob)
      requires Valid() && waiting.Keys != {}
      modifies etaQueue
      ensures Fits(waiting - {job}) && job !in queue.known + etaQueue.known && etaQueue.known <= old(etaQueue.known)
      ensures job in waiting && job in old(etaQueue.known) && forall x | x in waiting :: waiting[job] <= waiting[x]
    {
      var etaJob := etaQueue.Pop();
      job := etaJob.value;
      forall x | x in waiting ensures waiting[job] <= waiting[x] {
        assert RankLe(job.GetRank(), x.GetRank());
      }
      KeysChange(waiting, job, 0.0);
    }

    method ClearEta(job: ChannelJob)
      requires Fits(waiting - {job}) && job !in queue.known && job !in etaQueue.known
      modifies job`eta, this`waiting
      ensures Valid() && job.eta == None && waiting == old(waiting) - {job}
    {
      queue.NotInHeap(job);
      etaQueue.NotInHeap(job);
      job.eta := None;
      SetWaiting(waiting - {job});
    }

    method PromoteIfDue(now: Time) returns (moved: Option<ChannelJob>)
      requires Valid()
      modifies this`waiting, queue, etaQueue, etaQueue.known
      ensures Valid()
      ensures queue.known + etaQueue.known <= old(queue.known) + old(etaQueue.known)
      ensures etaQueue.known <= old(etaQueue.known)
      ensures if moved.None? then Due(waiting, now) == {} else moved.value in Due(old(waiting), now)
      ensures Ready() == old(Ready()) + Just(moved) && waiting == old(waiting) - Just(moved)
      ensures forall j | j in old(etaQueue.known) :: j.eta == if j in Just(moved) then None else old(j.eta)
    {
      var due := HeadIsDue(now);
      if !due {
        return None;
      }
      ghost var first :| first in Due(waiting, now);
      var job := PromoteHead();
      return Some(job);
    }

    static function Just(o: Option<ChannelJob>): set<ChannelJob> {
      if o.Some? then {o.value} else {}
    }

    static lemma AllMoved(w: map<ChannelJob, Time>, moved: set<ChannelJob>, now: Time)
      requires moved <= Due(w, now) && Due(w - moved, now) == {}
      ensures moved == Due(w, now)
    {
      assert forall j | j in Due(w, now) && j !in moved :: j in Due(w - moved, now);
    }

    /** The jobs in `moved` have changed queues since the waiting jobs were `before`. */
    ghost predicate Moved(before: map<ChannelJob, Time>, ready: set<ChannelJob>, etas: map<ChannelJob, Option<Time>>,
                          moved: set<ChannelJob>)
      reads this, queue, etas.Keys
    {
      && waiting == before - moved
      && Ready() == ready + moved
      && forall j | j in etas :: j.eta == if j in moved then None else etas[j]
    }

    method PromoteNext(now: Time, ghost before: map<ChannelJob, Time>, ghost ready: set<ChannelJob>,
                       ghost etas: map<ChannelJob, Option<Time>>, ghost moved: set<ChannelJob>)
      returns (more: bool, ghost next: set<ChannelJob>)
      requires Valid() && Moved(before, ready, etas, moved) && moved <= Due(before, now)
      requires etaQueue.known <= etas.Keys
      modifies this`waiting, queue, etaQueue, etaQueue.known
      ensures Valid() && Moved(before, ready, etas, next) && next <= Due(before, now)
      ensures queue.known + etaQueue.known <= old(queue.known) + old(etaQueue.known)
      ensures etaQueue.known <= old(etaQueue.known)
      ensures if more then waiting.Keys < old(waiting).Keys else Due(waiting, now) == {}
    {
      var head := PromoteIfDue(now);
      more := head.Some?;
      next := moved + Just(head);
      assert more ==> head.value in old(waiting).Keys;
    }

    /** Moves the jobs past due to the other queue. */
    method Promote(now: Time)
      requires Valid()
      modifies this`waiting, queue, etaQueue, etaQueue.known
      ensures Valid()
      ensures Ready() == old(Ready()) + Due(old(waiting), now)
      ensures waiting == old(waiting) - Due(old(waiting), now)
      ensures queue.known + etaQueue.known <= old(queue.known) + old(etaQueue.known)
      ensures etaQueue.known <= old(etaQueue.known)
      ensures forall j | j in old(etaQueue.known) :: j.eta == if j in Due(old(waiting), now) then None else old(j.eta)
    {
      ghost var before, ready, moved: set<ChannelJob> := waiting, Ready(), {};
      ghost var etas := map j | j in etaQueue.known :: j.eta;
      var more := true;
      while more
        invariant Valid() && Moved(before, ready, etas, moved) && moved <= Due(before, now)
        invariant queue.known + etaQueue.known <= old(queue.known) + old(etaQueue.known)
        invariant etaQueue.known <= old(etaQueue.known)
        invariant !more ==> Due(waiting, now) == {}
        decreases more, waiting.Keys
      {
        more, moved := PromoteNext(now, before, ready, etas, moved);
      }
      AllMoved(before, moved, now);
    }

    /** In a sequential queue: does the job with the earliest eta sort before all ready jobs? */
    method IsHeld() returns (held: bool)
      requires Valid()
      modifies queue, etaQueue
      ensures Valid() && Ready() == old(Ready()) && etaQueue.Live() == old(etaQueue.Live())
      ensures queue.known <= old(queue.known) && etaQueue.known <= old(etaQueue.known)
      ensures held <==> QueueHeld(sequential, Ready(), waiting)
    {
      if !sequential {
        return false;
      }
      var etaJob := etaQueue.Peek();
      var job := queue.Peek();
      if etaJob.None? || job.None? {
        return false;
      }
      HeadsDecide(etaJob.value, job.value);
      held := KeyLt(etaJob.value.key, job.value.key);
    }

    lemma HeadsDecide(e: ChannelJob, j: ChannelJob)
      requires Valid() && sequential
      requires e in waiting && forall x | x in etaQueue.Live() :: RankLe(e.GetRank(), x.GetRank())
      requires j in Ready() && forall x | x in Ready() :: RankLe(j.GetRank(), x.GetRank())
      ensures QueueHeld(sequential, Ready(), waiting) <==> KeyLt(e.key, j.key)
    {
      assert IsEtaHead(waiting, e) by {
        forall x | x in waiting ensures !RankLt(Rank(Some(waiting[x]), x.key), Rank(Some(waiting[e]), e.key)) {
          assert RankLe(e.GetRank(), x.GetRank());
        }
      }
      forall x | x in Ready() ensures KeyLe(j.key, x.key) {
        assert RankLe(j.GetRank(), x.GetRank());
      }
    }

    /** The next job to run at `now`, if any. */
    method Pop(now: Time) returns (o: Option<ChannelJob>)
      requires Valid()
      modifies this`waiting, queue, etaQueue, etaQueue.known
      ensures Valid()
      ensures waiting == old(waiting) - Due(old(waiting), now)
      ensures var ready := old(Ready()) + Due(old(waiting), now);
              && (o.None? <==> ready == {} || QueueHeld(sequential, ready, waiting))
              && (o.None? ==> Ready() == ready)
              && (o.Some? ==> IsFirst(ready, o.value) && Ready() == ready - {o.value})
      ensures o.Some? ==>
                forall x | x in old(Ready()) || (x in old(waiting) && old(waiting)[x] <= now) ::
                  && o.value.key.priority <= x.key.priority
                  && (o.value.key.priority == x.key.priority ==>
                        && o.value.key.dateCreated <= x.key.dateCreated
                        && (o.value.key.dateCreated == x.key.dateCreated ==> o.value.key.seqNo <= x.key.seqNo))
      ensures queue.known + etaQueue.known <= old(queue.known) + old(etaQueue.known)
      ensures etaQueue.known <= old(etaQueue.known)
      ensures forall j | j in old(etaQueue.known) :: j.eta == if j in Due(old(waiting), now) then None else old(j.eta)
    {
      Promote(now);
      ghost var ready := Ready();
      o := PopUnlessHeld();
      FirstOf(ready, o);
    }

    static lemma FirstOf(ready: set<ChannelJob>, o: Option<ChannelJob>)
      requires o.Some? ==> IsFirst(ready, o.value)
      ensures o.Some? ==>
                forall x | x in ready ::
                  && o.value.key.priority <= x.key.priority
                  && (o.value.key.priority == x.key.priority ==>
                        && o.value.key.dateCreated <= x.key.dateCreated
                        && (o.value.key.dateCreated == x.key.dateCreated ==> o.value.key.seqNo <= x.key.seqNo))
    {
      if o.Some? {
        forall x | x in ready ensures KeyLe(o.value.key, x.key) {
        }
      }
    }

    method PopUnlessHeld() returns (o: Option<ChannelJob>)
      requires Valid()
      modifies queue, etaQueue
      ensures Valid() && etaQueue.Live() == old(etaQueue.Live())
      ensures queue.known <= old(queue.known) && etaQueue.known <= old(etaQueue.known)
      ensures o.None? <==> old(Ready()) == {} || QueueHeld(sequential, old(Ready()), waiting)
      ensures o.None? ==> Ready() == old(Ready())
      ensures o.Some? ==> IsFirst(old(Ready()), o.value) && Ready() == old(Ready()) - {o.value}
    {
      var held := IsHeld();
      if held {
        return None;
      }
      o := PopReady();
    }

    method PopReady() returns (o: Option<ChannelJob>)
      requires Valid()
      modifies queue
      ensures Valid() && queue.known <= old(queue.known)
      ensures o.None? <==> old(Ready()) == {}
      ensures o.None? ==> Ready() == {}
      ensures o.Some? ==> IsFirst(old(Ready()), o.value) && Ready() == old(Ready()) - {o.value}
    {
      o := queue.Pop();
      if o.Some? {
        forall x | x in old(Ready()) ensures KeyLe(o.value.key, x.key) {
          assert RankLe(o.value.GetRank(), x.GetRank());
        }
      }
    }

    method GetWakeupTime(w: Time) returns (r: Time)
      requires Valid()
      modifies etaQueue
      ensures Valid() && etaQueue.Live() == old(etaQueue.Live()) && etaQueue.known <= old(etaQueue.known)
      ensures r == QueueWakeup(waiting, w)
    {
      var head := etaQueue.Peek();
      if head.None? {
        return w;
      }
      ghost var eta := head.value.eta.value;
      forall x | x in waiting ensures eta <= waiting[x] {
        assert RankLe(head.value.GetRank(), x.GetRank());
      }
      assert waiting[head.value] == eta;
      assert IsEarliest(waiting, eta);
      r := if w == 0.0 then head.value.eta.value
           else if head.value.eta.value < w then head.value.eta.value else w;
    }

    method Len() returns (n: int)
      requires Valid()
      ensures n == |Ready()| + |waiting|
    {
      var e := etaQueue.Len();
      var q := queue.Len();
      assert |waiting| == |waiting.Keys|;
      n := e + q;
    }
  }
}
