/** The frames-per-second counter: a queue of event timestamps (in 100 ns ticks),
    pruned from the front of every entry older than one second; the rate is the
    number of entries left. The clock is read once per call and passed in as `now`. */
module FpsCounter {

  /** CalculateOver: one second, in ticks. */
  const Window: int := 10_000_000

  /** An entry is dropped when its timestamp plus the window lies before `now`. */
  predicate Expired(t: int, now: int) {
    t + Window < now
  }

  /** The queue after pruning: leading expired entries are dequeued, and pruning stops
      at the first entry that has not expired. */
  function Pruned(q: seq<int>, now: int): seq<int> {
    if q != [] && Expired(q[0], now) then Pruned(q[1..], now) else q
  }

  /** Pruning removes a prefix: the result is a suffix of the queue, no longer than it. */
  lemma {:induction false} PrunedIsSuffix(q: seq<int>, now: int)
    ensures |Pruned(q, now)| <= |q|
    ensures Pruned(q, now) == q[|q| - |Pruned(q, now)|..]
  {
    if q != [] && Expired(q[0], now) {
      PrunedIsSuffix(q[1..], now);
      assert q[1..][|q[1..]| - |Pruned(q[1..], now)|..] == q[|q| - |Pruned(q, now)|..];
    }
  }

  /** Exactly the expired prefix is removed: every removed entry had expired, and the
      oldest entry kept, if any, has not. */
  lemma {:induction false} PrunedRemovesExactlyExpiredPrefix(q: seq<int>, now: int)
    ensures |Pruned(q, now)| <= |q|
    ensures forall i :: 0 <= i < |q| - |Pruned(q, now)| ==> Expired(q[i], now)
    ensures Pruned(q, now) == [] || !Expired(Pruned(q, now)[0], now)
  {
    if q != [] && Expired(q[0], now) {
      PrunedRemovesExactlyExpiredPrefix(q[1..], now);
      forall i | 0 <= i < |q| - |Pruned(q, now)| ensures Expired(q[i], now) {
        if i > 0 { assert q[i] == q[1..][i - 1]; }
      }
    }
  }

  /** Pruning stops at the first entry that has not expired: expired entries behind
      it are kept. */
  lemma PruneStopsAtFirstLive(q: seq<int>, now: int)
    requires q != [] && !Expired(q[0], now)
    ensures Pruned(q, now) == q
  {}

  /** For a fixed `now`, pruning twice is pruning once. */
  lemma PruneIdempotent(q: seq<int>, now: int)
    ensures Pruned(Pruned(q, now), now) == Pruned(q, now)
  {
    PrunedRemovesExactlyExpiredPrefix(q, now);
  }

  /** When the timestamps are in order, as the clock gives them, no entry left after
      pruning has expired. */
  lemma PrunedOrderedQueueIsLive(q: seq<int>, now: int)
    requires forall i, j :: 0 <= i < j < |q| ==> q[i] <= q[j]
    ensures forall t :: t in Pruned(q, now) ==> !Expired(t, now)
  {
    PrunedIsSuffix(q, now);
    PrunedRemovesExactlyExpiredPrefix(q, now);
    var p := Pruned(q, now);
    var k := |q| - |p|;
    forall t | t in p ensures !Expired(t, now) {
      var j :| 0 <= j < |p| && p[j] == t;
      assert p[0] == q[k] && p[j] == q[k + j];
    }
  }

  class Counter {
    var entries: seq<int>   // _entries, oldest first

    constructor ()
      ensures entries == []
    {
      entries := [];
    }

    /** AddEvent: one timestamp is enqueued at the back; nothing else changes. */
    method AddEvent(now: int)
      modifies this
      ensures entries == old(entries) + [now]
    {
      entries := entries + [now];
    }

    /** Prune: dequeue while the oldest entry has expired. */
    method Prune(now: int)
      modifies this
      ensures entries == Pruned(old(entries), now)
    {
      while entries != [] && Expired(entries[0], now)
        invariant Pruned(entries, now) == Pruned(old(entries), now)
        decreases |entries|
      {
        entries := entries[1..];
      }
    }

    /** MovingAverageFps: prune, then count the entries left, which are no more than
        before. */
    method MovingAverageFps(now: int) returns (fps: nat)
      modifies this
      ensures entries == Pruned(old(entries), now)
      ensures fps == |entries| <= |old(entries)|
    {
      Prune(now);
      PrunedIsSuffix(old(entries), now);
      fps := |entries|;
    }
  }
}
