/**
  The properties of a job that decide its place in a channel.

  A channel job is an object: two channel jobs with the same properties are different
  jobs, and the `eta` of a job is cleared in place once it is past due.
 */
module ChannelJobs {
  import opened Prelude

  /** Sorting key without the eta. */
  datatype Key = Key(priority: int, dateCreated: Time, seqNo: int)

  predicate KeyLt(a: Key, b: Key) {
    || a.priority < b.priority
    || (a.priority == b.priority && a.dateCreated < b.dateCreated)
    || (a.priority == b.priority && a.dateCreated == b.dateCreated && a.seqNo < b.seqNo)
  }

  predicate KeyLe(a: Key, b: Key) {
    !KeyLt(b, a)
  }

  /** A key together with an eta; jobs with an eta come before all jobs without one. */
  datatype Rank = Rank(eta: Option<Time>, key: Key)

  predicate RankLt(a: Rank, b: Rank) {
    if a.eta.Some? != b.eta.Some? then a.eta.Some?
    else if a.eta.Some? && a.eta.value != b.eta.value then a.eta.value < b.eta.value
    else KeyLt(a.key, b.key)
  }

  predicate RankLe(a: Rank, b: Rank) {
    !RankLt(b, a)
  }

  lemma RankLeTransitive(a: Rank, b: Rank, c: Rank)
    requires RankLe(a, b) && RankLe(b, c)
    ensures RankLe(a, c)
  {
  }

  function Elems(q: seq<ChannelJob>): set<ChannelJob> {
    set j | j in q
  }

  lemma ElemsSnoc(q: seq<ChannelJob>, i: nat)
    requires i < |q|
    ensures Elems(q[..i + 1]) == Elems(q[..i]) + {q[i]}
  {
    assert q[..i + 1] == q[..i] + [q[i]];
  }

  class ChannelJob {
    const dbName: string
    const channel: Path
    const uuid: string
    const key: Key
    var eta: Option<Time>

    constructor (dbName: string, channel: Path, uuid: string, key: Key, eta: Option<Time>)
      ensures this.dbName == dbName && this.channel == channel && this.uuid == uuid
      ensures this.key == key && this.eta == eta
    {
      this.dbName := dbName;
      this.channel := channel;
      this.uuid := uuid;
      this.key := key;
      this.eta := eta;
    }

    function GetRank(): Rank
      reads this
    {
      Rank(eta, key)
    }
  }
}
