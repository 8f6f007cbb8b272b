/**
  The view of the runner in the dispatch protocol is what the channels say: notifications and
  polls move a job from spot to spot as the protocol has it.
 */
module ProtocolViews {
  import opened Prelude
  import opened ChannelJobs
  import opened JobStates
  import opened SchedulerSpec
  import opened SchedulerMoves
  import opened SchedulerRuns
  import opened Notifications
  import Protocol

  /** The spot of a job with a channel at this depth. */
  function SpotAt(place: Place, depth: nat): Protocol.Spot {
    match place
    case Nowhere => Protocol.Nowhere
    case Failed => Protocol.Failing
    case At(level) =>
      if level == 0 then Protocol.Waiting else if level < depth then Protocol.Passing else Protocol.Running
  }

  /** A job that is nowhere, failed, or in the queue of its own channel is there and in no other place. */
  lemma PlaceFromOwn(f: Sched, j: ChannelJob, place: Place)
    requires WellFormed(f) && IsAt(f, j, place)
    ensures |j.channel| >= 1
    ensures f[j.channel].InQueue(j) <==> place == At(0)
    ensures j in f[j.channel].running <==> place.At? && place.level > 0
    ensures j in f[j.channel].failed <==> place == Place.Failed
    ensures j in f[ROOT].running <==> place == At(|j.channel|)
  {
    assert Linked(f, j.channel);
    assert Above(j.channel, 0) == j.channel;
    var n := |j.channel|;
    RootPrefix(f, j.channel);
    assert Above(j.channel, n - 1) == ROOT;
  }

  /** A notification moves the job to the spot that the protocol says. */
  lemma NotifiedSpot(f: Sched, j: ChannelJob, eta: Option<Time>, state: State, place: Place, place': Place)
    requires WellFormed(f) && AllPlaced(f) && IsAt(f, j, place)
    requires WellFormed(Notified(f, j, eta, Some(state))) && IsAt(Notified(f, j, eta, Some(state)), j, place')
    ensures SpotAt(place', |j.channel|) == Protocol.NextSpot(SpotAt(place, |j.channel|), state)
  {
    var f' := Notified(f, j, eta, Some(state));
    AnyPlaced(f, j);
    PlaceFromOwn(f, j, place);
    PlaceFromOwn(f', j, place');
    RootPrefix(f, j.channel);
    match state
    case Done => RemovePlaces(f, j, j);
    case Cancelled => RemovePlaces(f, j, j);
    case Pending => PendingPlaces(f, j, eta, j);
    case Enqueued => RunningPlaces(f, j, j);
      if f' == f { PlaceIsUnique(f, j, place, place'); }
    case Started => RunningPlaces(f, j, j);
      if f' == f { PlaceIsUnique(f, j, place, place'); }
    case Failed => FailedPlaces(f, j, j);
    case WaitDependencies => PlaceIsUnique(f, j, place, place');
  }

  /** A poll moves a job up or leaves it where it is; it runs at root from then on if the root yields it. */
  lemma PolledSpot(f: Sched, now: Time, y: Flow, f': Sched, j: ChannelJob, place: Place, place': Place)
    requires WellFormed(f) && AllPlaced(f) && Pass(f, now, y, f') && WellFormed(f')
    requires IsAt(f, j, place) && IsAt(f', j, place')
    ensures var spot, spot' := SpotAt(place, |j.channel|), SpotAt(place', |j.channel|);
            if j in y[ROOT] then spot in {Protocol.Waiting, Protocol.Passing} && spot' == Protocol.Running
            else spot' == spot || (spot == Protocol.Waiting && spot' == Protocol.Passing)
  {
    AnyPlaced(f, j);
    PlaceFromOwn(f, j, place);
    PlaceFromOwn(f', j, place');
    RootPrefix(f, j.channel);
    NodeMoves(f, now, y, f', j, j.channel);
    RootYieldsOnce(f, now, y, f', j);
    if place == Nowhere {
      PassKnownFrom(f, now, y, f', j);
    }
  }

  lemma PassKnownFrom(f: Sched, now: Time, y: Flow, f': Sched, j: ChannelJob)
    requires WellFormed(f) && Pass(f, now, y, f') && forall p | p in f :: j !in NodeJobs(f[p])
    ensures forall p | p in f' :: j !in NodeJobs(f'[p]) && j !in y[p]
  {
    forall p | p in f' ensures j !in NodeJobs(f'[p]) && j !in y[p] {
      if j in NodeJobs(f'[p]) || j in y[p] {
        PassKnown(f, now, y, f', p, j);
      }
    }
  }
}
