/** How long a job waits before its next try. */
module RetryPatterns {

  const RETRY_INTERVAL := 600       // seconds

  /** A number of seconds, or a range to draw one from; both ends of the range can be drawn. */
  datatype Seconds = Fixed(seconds: int) | Range(lo: int, span: nat) {
    predicate Allows(r: int) {
      match this
      case Fixed(n) => r == n
      case Range(from, width) => from <= r <= from + width
    }
  }

  /** Seconds to wait from a number of retries on. */
  datatype Interval = Interval(retries: int, seconds: Seconds)

  type RetryPattern = seq<Interval>

  /** The seconds of the entry with the highest number of retries reached so far. */
  ghost predicate IsRetrySeconds(retry: int, seconds: int, pattern: RetryPattern, r: int) {
    if seconds != 0 then r == seconds
    else if forall p | p in pattern :: retry < p.retries then r == RETRY_INTERVAL
    else exists p | p in pattern :: IsLastReached(retry, pattern, p) && p.seconds.Allows(r)
  }

  ghost predicate IsLastReached(retry: int, pattern: RetryPattern, p: Interval) {
    p.retries <= retry && forall q | q in pattern && q.retries <= retry :: q.retries <= p.retries
  }

  predicate Ascending(s: RetryPattern) {
    forall i, k | 0 <= i < k < |s| :: s[i].retries <= s[k].retries
  }

  method Sorted(pattern: RetryPattern) returns (r: RetryPattern)
    ensures Ascending(r) && multiset(r) == multiset(pattern)
  {
    r := [];
    for i := 0 to |pattern|
      invariant Ascending(r) && multiset(r) == multiset(pattern[..i])
    {
      r := Insert(r, pattern[i]);
      assert pattern[..i + 1] == pattern[..i] + [pattern[i]];
    }
    assert pattern[..|pattern|] == pattern;
  }

  method Insert(s: RetryPattern, p: Interval) returns (r: RetryPattern)
    requires Ascending(s)
    ensures Ascending(r) && multiset(r) == multiset(s) + multiset{p}
  {
    var i := |s|;
    while i > 0 && p.retries < s[i - 1].retries
      invariant 0 <= i <= |s|
      invariant forall k | i <= k < |s| :: p.retries < s[k].retries
    {
      i := i - 1;
    }
    r := s[..i] + [p] + s[i..];
    InsertAscends(s, p, i);
    assert s == s[..i] + s[i..];
  }

  lemma InsertAscends(s: RetryPattern, p: Interval, i: nat)
    requires Ascending(s) && i <= |s|
    requires (i > 0 ==> s[i - 1].retries <= p.retries) && (i < |s| ==> p.retries <= s[i].retries)
    ensures Ascending(s[..i] + [p] + s[i..])
  {
    var r := s[..i] + [p] + s[i..];
    forall a, b | 0 <= a < b < |r| ensures r[a].retries <= r[b].retries {
      assert r[a] == if a < i then s[a] else if a == i then p else s[a - 1];
      assert r[b] == if b < i then s[b] else if b == i then p else s[b - 1];
    }
  }

  lemma SameItems(a: RetryPattern, b: RetryPattern, p: Interval)
    requires multiset(a) == multiset(b)
    ensures p in a <==> p in b
  {
    assert p in a <==> p in multiset(a);
    assert p in b <==> p in multiset(b);
  }

  method GetRetrySeconds(retry: int, seconds: int, pattern: RetryPattern) returns (r: int)
    ensures seconds != 0 ==> r == seconds
    ensures seconds == 0 && (forall p | p in pattern :: retry < p.retries) ==> r == 600
    ensures seconds == 0 ==>
              forall p | p in pattern && p.retries <= retry && (forall q | q in pattern && q != p :: q.retries < p.retries || retry < q.retries) ::
                match p.seconds
                case Fixed(n) => r == n
                case Range(from, width) => from <= r <= from + width
    ensures IsRetrySeconds(retry, seconds, pattern, r)
  {
    if seconds != 0 {
      return seconds;
    }
    var patt := Sorted(pattern);
    var interval := Fixed(RETRY_INTERVAL);
    var i := 0;
    while i < |patt| && retry >= patt[i].retries
      invariant 0 <= i <= |patt|
      invariant forall k | 0 <= k < i :: patt[k].retries <= retry
      invariant interval == if i == 0 then Fixed(RETRY_INTERVAL) else patt[i - 1].seconds
    {
      interval := patt[i].seconds;
      i := i + 1;
    }
    LastReached(retry, pattern, patt, i);
    r := Draw(interval);
  }

  method Draw(seconds: Seconds) returns (r: int)
    ensures seconds.Allows(r)
  {
    match seconds
    case Fixed(n) =>
      r := n;
    case Range(lo, span) =>
      assert lo <= lo <= lo + span;
      r :| lo <= r <= lo + span;
  }

  lemma LastReached(retry: int, pattern: RetryPattern, patt: RetryPattern, i: nat)
    requires Ascending(patt) && multiset(patt) == multiset(pattern)
    requires i <= |patt| && (i < |patt| ==> retry < patt[i].retries) && forall k | 0 <= k < i :: patt[k].retries <= retry
    ensures if i == 0 then forall p | p in pattern :: retry < p.retries
            else patt[i - 1] in pattern && IsLastReached(retry, pattern, patt[i - 1])
  {
    forall p | p in pattern ensures exists k :: 0 <= k < |patt| && patt[k] == p {
      SameItems(patt, pattern, p);
    }
    if i > 0 {
      SameItems(patt, pattern, patt[i - 1]);
    }
  }
}
