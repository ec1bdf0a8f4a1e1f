/** The sliding-window throttle of the password-reset endpoints
    (backend/app/api/auth.py). Times are readings of a monotonic clock. */
module Throttle {

  /** The times less than window before now, in order. */
  function Within(times: seq<real>, now: real, window: real): (r: seq<real>)
    ensures |r| <= |times|
  {
    if times == [] then []
    else
      var rest := Within(times[..|times| - 1], now, window);
      var t := times[|times| - 1];
      if now - t < window then rest + [t] else rest
  }

  predicate Ascending(times: seq<real>) {
    forall i, k :: 0 <= i < k < |times| ==> times[i] <= times[k]
  }

  /** Any max + 1 consecutive times span at least the window. */
  ghost predicate Spaced(times: seq<real>, window: real, max: nat) {
    forall i, k {:trigger times[i], times[k]} :: 0 <= i <= k < |times| && k == i + max ==> times[k] - times[i] >= window
  }

  /** How many of the times lie in the interval (from, to]. */
  function CountIn(times: seq<real>, from: real, to: real): nat {
    if times == [] then 0
    else
      var t := times[|times| - 1];
      CountIn(times[..|times| - 1], from, to) + if from < t <= to then 1 else 0
  }

  /** The number of times in an interval, counted by their places. */
  lemma {:induction false} CountIsNumber(times: seq<real>, from: real, to: real)
    ensures CountIn(times, from, to) == |set i | 0 <= i < |times| && from < times[i] <= to|
  {
    var all := set i | 0 <= i < |times| && from < times[i] <= to;
    if times == [] {
      assert all == {};
    } else {
      var n := |times| - 1;
      CountIsNumber(times[..n], from, to);
      var front := set i | 0 <= i < |times[..n]| && from < times[..n][i] <= to;
      assert all == if from < times[n] <= to then front + {n} else front;
    }
  }

  /** The times kept are those of the window that ends now. */
  lemma {:induction false} WithinCounts(times: seq<real>, now: real, window: real)
    requires forall i :: 0 <= i < |times| ==> times[i] <= now
    ensures |Within(times, now, window)| == CountIn(times, now - window, now)
    ensures forall t :: t in Within(times, now, window) <==> t in times && now - window < t
  {
    if times != [] {
      var n := |times| - 1;
      assert times == times[..n] + [times[n]];
      WithinCounts(times[..n], now, window);
    }
  }

  /** Pruning at an earlier time first makes no difference. */
  lemma {:induction false} PruneTwice(times: seq<real>, earlier: real, now: real, window: real)
    requires earlier <= now
    ensures Within(Within(times, earlier, window), now, window) == Within(times, now, window)
  {
    if times != [] {
      var rest := Within(times[..|times| - 1], earlier, window);
      var t := times[|times| - 1];
      PruneTwice(times[..|times| - 1], earlier, now, window);
      if earlier - t < window { assert (rest + [t])[..|rest|] == rest; }
    }
  }

  lemma WithinAppend(times: seq<real>, t: real, now: real, window: real)
    ensures Within(times + [t], now, window) ==
      Within(times, now, window) + if now - t < window then [t] else []
  {
    assert (times + [t])[..|times|] == times;
  }

  lemma {:induction false} NoneWithin(times: seq<real>, now: real, window: real)
    requires forall i :: 0 <= i < |times| ==> now - times[i] >= window
    ensures Within(times, now, window) == []
  {
    if times != [] { NoneWithin(times[..|times| - 1], now, window); }
  }

  lemma TailSnoc(times: seq<real>, t: real, k: nat)
    requires k <= |times|
    ensures (times + [t])[k..] == times[k..] + [t]
  {
  }

  /** On ascending times, the pruned ones are the last ones. */
  lemma {:induction false} WithinIsSuffix(times: seq<real>, now: real, window: real)
    requires Ascending(times)
    ensures Within(times, now, window) == times[|times| - |Within(times, now, window)|..]
  {
    if times != [] {
      var init, t := times[..|times| - 1], times[|times| - 1];
      if now - t < window {
        WithinIsSuffix(init, now, window);
        assert times == init + [t];
        TailSnoc(init, t, |init| - |Within(init, now, window)|);
      } else {
        assert forall i :: 0 <= i < |init| ==> init[i] <= t;
        NoneWithin(init, now, window);
      }
    }
  }

  /** The time just before the pruned ones is too old. */
  lemma {:induction false} CutIsOld(times: seq<real>, now: real, window: real)
    requires Ascending(times) && |Within(times, now, window)| < |times|
    ensures now - times[|times| - |Within(times, now, window)| - 1] >= window
  {
    var init, t := times[..|times| - 1], times[|times| - 1];
    if now - t < window {
      CutIsOld(init, now, window);
    } else {
      assert forall i :: 0 <= i < |init| ==> init[i] <= t;
      NoneWithin(init, now, window);
    }
  }

  /** On ascending times, those of an interval are consecutive. */
  lemma {:induction false} CountIsStretch(times: seq<real>, from: real, to: real) returns (lo: nat)
    requires Ascending(times)
    ensures lo + CountIn(times, from, to) <= |times|
    ensures forall i :: lo <= i < lo + CountIn(times, from, to) ==> from < times[i] <= to
    ensures CountIn(times, from, to) > 0 ==>
      (lo + CountIn(times, from, to) == |times| || to < times[lo + CountIn(times, from, to)])
  {
    lo := 0;
    if times != [] {
      var init := times[..|times| - 1];
      lo := CountIsStretch(init, from, to);
      var t := times[|times| - 1];
      assert forall i :: 0 <= i < |init| ==> init[i] <= t;
      if from < t <= to && CountIn(init, from, to) == 0 {
        lo := |init|;
      }
    }
  }

  /** No interval as long as the window holds more than max of the times. */
  lemma SpacedMeansRateLimited(times: seq<real>, window: real, max: nat, from: real)
    requires Ascending(times) && Spaced(times, window, max)
    ensures CountIn(times, from, from + window) <= max
  {
    var lo := CountIsStretch(times, from, from + window);
    assert lo + max < |times| ==> times[lo + max] - times[lo] >= window;
  }

  /** Accepting a request when fewer than max are recent keeps the history spaced. */
  lemma AcceptKeepsSpaced(times: seq<real>, now: real, window: real, max: nat)
    requires Ascending(times) && Spaced(times, window, max)
    requires |Within(times, now, window)| < max
    ensures Spaced(times + [now], window, max)
  {
    var n := |times|;
    if max <= n {
      CutIsOld(times, now, window);
      var i := n - max;
      assert times[i] <= times[n - |Within(times, now, window)| - 1];
      assert now - times[i] >= window;
    }
  }

  /** The bucket is the whole accept history of its IP, restricted to the window before the
      last call; the history is ascending and spaced. */
  ghost predicate BucketOk(bucket: seq<real>, history: seq<real>, last: real, window: real, max: nat) {
    && bucket == Within(history, last, window)
    && Ascending(history) && Spaced(history, window, max)
    && (forall i :: 0 <= i < |history| ==> history[i] <= last)
  }

  lemma RefuseKeepsBucket(bucket: seq<real>, history: seq<real>, last: real, now: real, window: real, max: nat)
    requires BucketOk(bucket, history, last, window, max) && last <= now
    ensures Within(bucket, now, window) == Within(history, now, window)
    ensures BucketOk(Within(bucket, now, window), history, now, window, max)
  {
    PruneTwice(history, last, now, window);
  }

  lemma AcceptKeepsBucket(bucket: seq<real>, history: seq<real>, last: real, now: real, window: real, max: nat)
    requires 0.0 < window && BucketOk(bucket, history, last, window, max) && last <= now
    requires |Within(bucket, now, window)| < max
    ensures BucketOk(Within(bucket, now, window) + [now], history + [now], now, window, max)
  {
    PruneTwice(history, last, now, window);
    AcceptKeepsSpaced(history, now, window, max);
    WithinAppend(history, now, now, window);
  }

  /** History of one IP: when its requests were let through, and when it last called. */
  datatype Log = Log(accepted: seq<real>, last: real)

  ghost predicate EntryOk(hits: map<string, seq<real>>, logs: map<string, Log>, ip: string, window: real, max: nat)
    requires hits.Keys == logs.Keys
  {
    ip in hits ==> BucketOk(hits[ip], logs[ip].accepted, logs[ip].last, window, max)
  }

  ghost predicate EntriesOk(hits: map<string, seq<real>>, logs: map<string, Log>, window: real, max: nat) {
    hits.Keys == logs.Keys && forall ip :: EntryOk(hits, logs, ip, window, max)
  }

  lemma PutKeepsEntries(hits: map<string, seq<real>>, logs: map<string, Log>, ip: string,
      bucket: seq<real>, log: Log, window: real, max: nat)
    requires EntriesOk(hits, logs, window, max)
    requires BucketOk(bucket, log.accepted, log.last, window, max)
    ensures EntriesOk(hits[ip := bucket], logs[ip := log], window, max)
  {
    var hits', logs' := hits[ip := bucket], logs[ip := log];
    forall other ensures EntryOk(hits', logs', other, window, max) {
      assert EntryOk(hits, logs, other, window, max);
    }
  }

  /** One of the module-level dictionaries, with the window and limit it is called with. */
  class Buckets {
    const window: real
    const maxHits: nat
    var hits: map<string, seq<real>>
    ghost var logs: map<string, Log>

    ghost function Accepted(ip: string): seq<real>
      reads this
    {
      if ip in logs then logs[ip].accepted else []
    }

    function Bucket(ip: string): seq<real>
      reads this
    {
      if ip in hits then hits[ip] else []
    }

    ghost predicate Valid()
      reads this
    {
      0.0 < window && EntriesOk(hits, logs, window, maxHits)
    }

    constructor (window: real, maxHits: nat)
      requires 0.0 < window
      ensures Valid() && this.window == window && this.maxHits == maxHits
      ensures hits == map[]
    {
      this.window, this.maxHits := window, maxHits;
      hits, logs := map[], map[];
    }

    /** _throttle: a request is refused exactly when maxHits requests of its IP were let
        through within the last window. */
    method Throttle(ip: string, now: real) returns (ok: bool)
      requires Valid()
      requires ip in logs ==> logs[ip].last <= now
      modifies this
      ensures Valid()
      ensures ok <==> CountIn(old(Accepted(ip)), now - window, now) < maxHits
      ensures logs == old(logs)[ip := Log(old(Accepted(ip)) + if ok then [now] else [], now)]
      ensures hits == old(hits)[ip := Within(Accepted(ip), now, window)]
    {
      var recent := Within(Bucket(ip), now, window);
      ghost var log := if ip in hits then logs[ip] else Log([], now);
      assert EntryOk(hits, logs, ip, window, maxHits);
      WithinCounts(log.accepted, now, window);
      RefuseKeepsBucket(Bucket(ip), log.accepted, log.last, now, window, maxHits);
      if |recent| >= maxHits {
        Put(ip, recent, Log(log.accepted, now));
        assert log.accepted + [] == log.accepted;
        return false;
      }
      AcceptKeepsBucket(Bucket(ip), log.accepted, log.last, now, window, maxHits);
      recent := recent + [now];
      Put(ip, recent, Log(log.accepted + [now], now));
      return true;
    }

    method Put(ip: string, bucket: seq<real>, ghost log: Log)
      requires Valid() && BucketOk(bucket, log.accepted, log.last, window, maxHits)
      modifies this
      ensures Valid() && hits == old(hits)[ip := bucket] && logs == old(logs)[ip := log]
    {
      PutKeepsEntries(hits, logs, ip, bucket, log, window, maxHits);
      hits := hits[ip := bucket];
      logs := logs[ip := log];
    }

    /** Whatever calls were made: no interval of the window's length, open on the left and
        closed on the right, holds more than maxHits accepted requests of one IP. */
    lemma RateLimited(ip: string, from: real)
      requires Valid()
      ensures CountIn(Accepted(ip), from, from + window) <= maxHits
    {
      assert EntryOk(hits, logs, ip, window, maxHits);
      if ip in logs { SpacedMeansRateLimited(logs[ip].accepted, window, maxHits, from); }
    }
  }
}
