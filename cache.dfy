/** skport/cache.ts: one process-wide key/value store whose entries expire
    `ttl` milliseconds after they were written, and the extrapolation of a
    value that regenerates over time. The clock is the `now` parameter
    (milliseconds since the epoch). */
module Cache {
  import opened Wrappers

  /** The default time to live of `set`: one hour. */
  const DefaultTtl: int := 60 * 60 * 1000

  datatype Entry<V> = Entry(data: V, timestamp: int, ttl: int)

  /** An entry is gone once its age reaches its ttl (age == ttl is expired). */
  predicate Expired<V>(e: Entry<V>, now: int) {
    now - e.timestamp >= e.ttl
  }

  /** What a read of `key` returns. */
  function Lookup<V>(m: map<string, Entry<V>>, key: string, now: int): Option<Entry<V>> {
    if key in m && !Expired(m[key], now) then Some(m[key]) else None
  }

  /** The store after a read of `key`: an expired entry is deleted. */
  function AfterRead<V>(m: map<string, Entry<V>>, key: string, now: int): map<string, Entry<V>> {
    if key in m && Expired(m[key], now) then m - {key} else m
  }

  /** The store after a sweep: exactly the unexpired entries. */
  function Unexpired<V>(m: map<string, Entry<V>>, now: int): map<string, Entry<V>> {
    map k | k in m && !Expired(m[k], now) :: m[k]
  }

  class TtlCache<V> {
    var entries: map<string, Entry<V>>

    constructor ()
      ensures entries == map[]
    {
      entries := map[];
    }

    /** `get`: the value of an unexpired entry; an expired entry is deleted. */
    method Get(key: string, now: int) returns (r: Option<V>)
      modifies this
      ensures r.Some? <==> Lookup(old(entries), key, now).Some?
      ensures r.Some? ==> r.value == old(entries)[key].data
      ensures entries == AfterRead(old(entries), key, now)
    {
      if key !in entries {
        return None;
      }
      var entry := entries[key];
      if now - entry.timestamp >= entry.ttl {
        entries := entries - {key};
        return None;
      }
      return Some(entry.data);
    }

    /** `getWithMetadata`: the whole unexpired entry, under the same expiry rule. */
    method GetWithMetadata(key: string, now: int) returns (r: Option<Entry<V>>)
      modifies this
      ensures r == Lookup(old(entries), key, now)
      ensures entries == AfterRead(old(entries), key, now)
    {
      if key !in entries {
        return None;
      }
      var entry := entries[key];
      if now - entry.timestamp >= entry.ttl {
        entries := entries - {key};
        return None;
      }
      return Some(entry);
    }

    /** `set`: replaces any entry for `key` with one stamped `now`. */
    method Set(key: string, data: V, ttl: int, now: int)
      modifies this
      ensures entries == old(entries)[key := Entry(data, now, ttl)]
    {
      entries := entries[key := Entry(data, now, ttl)];
    }

    method Remove(key: string)
      modifies this
      ensures entries == old(entries) - {key}
    {
      entries := entries - {key};
    }

    /** `cleanup`: deletes every expired entry, one key at a time, and reports
        how many it deleted. */
    method Cleanup(now: int) returns (count: nat)
      modifies this
      ensures entries == Unexpired(old(entries), now)
      ensures count == |old(entries).Keys - Unexpired(old(entries), now).Keys|
    {
      ghost var m0 := entries;
      var pending := entries.Keys;
      count := 0;
      SweepStep(m0, {}, "", now);
      while pending != {}
        invariant pending <= m0.Keys
        invariant entries == SweptExcept(m0, pending, now)
        invariant count == |m0.Keys - pending - entries.Keys|
        decreases pending
      {
        var k :| k in pending;
        ghost var keys := entries.Keys;
        SweepStep(m0, pending, k, now);
        RemovedStep(m0.Keys, pending, entries.Keys, k);
        if now - entries[k].timestamp >= entries[k].ttl {
          entries := entries - {k};
          assert entries.Keys == keys - {k};
          count := count + 1;
        }
        pending := pending - {k};
      }
    }

    method Clear()
      modifies this
      ensures entries == map[]
    {
      entries := map[];
    }
  }

  /** The keys a sweep has deleted so far, one step further: deleting the
      visited key adds it to them, keeping it leaves them as they were. */
  lemma RemovedStep(all: set<string>, pending: set<string>, keys: set<string>, k: string)
    requires k in all && k in pending && k in keys
    ensures |all - (pending - {k}) - (keys - {k})| == |all - pending - keys| + 1
    ensures |all - (pending - {k}) - keys| == |all - pending - keys|
  {
    assert k !in all - pending - keys;
    assert all - (pending - {k}) - (keys - {k}) == (all - pending - keys) + {k};
    assert all - (pending - {k}) - keys == all - pending - keys;
  }

  /** The store part-way through a sweep: the keys still `pending` are
      kept whatever their age, the others only when unexpired. */
  function SweptExcept<V>(m: map<string, Entry<V>>, pending: set<string>, now: int): map<string, Entry<V>> {
    map k | k in m && (k in pending || !Expired(m[k], now)) :: m[k]
  }

  /** Visiting one pending key of a part-way sweep deletes it exactly when
      it is expired; with nothing pending the sweep is complete. */
  lemma SweepStep<V>(m: map<string, Entry<V>>, pending: set<string>, k: string, now: int)
    requires pending <= m.Keys
    ensures SweptExcept(m, m.Keys, now) == m
    ensures SweptExcept(m, {}, now) == Unexpired(m, now)
    ensures k in pending ==> k in SweptExcept(m, pending, now) && SweptExcept(m, pending, now)[k] == m[k]
    ensures k in pending && Expired(m[k], now) ==>
              SweptExcept(m, pending - {k}, now) == SweptExcept(m, pending, now) - {k}
    ensures k in pending && !Expired(m[k], now) ==>
              SweptExcept(m, pending - {k}, now) == SweptExcept(m, pending, now)
  {
  }

  /** A write followed by a read at the same instant returns what was written,
      for any positive ttl. */
  lemma SetThenGet<V>(m: map<string, Entry<V>>, key: string, v: V, ttl: int, now: int)
    requires ttl > 0
    ensures Lookup(m[key := Entry(v, now, ttl)], key, now) == Some(Entry(v, now, ttl))
    ensures AfterRead(m[key := Entry(v, now, ttl)], key, now) == m[key := Entry(v, now, ttl)]
  {
  }

  /** A write leaves the other keys as they read. */
  lemma SetIsolated<V>(m: map<string, Entry<V>>, key: string, other: string, v: V, ttl: int, now: int, later: int)
    requires other != key
    ensures Lookup(m[key := Entry(v, now, ttl)], other, later) == Lookup(m, other, later)
  {
  }

  /** A read at or after `timestamp + ttl` finds nothing and deletes the entry. */
  lemma ExpiredReadEvicts<V>(m: map<string, Entry<V>>, key: string, now: int)
    requires key in m && now >= m[key].timestamp + m[key].ttl
    ensures Lookup(m, key, now) == None
    ensures key !in AfterRead(m, key, now)
    ensures AfterRead(m, key, now) == m - {key}
  {
  }

  /** Sweeping and reading agree: a read sees the same thing before and after a
      sweep, a read after a sweep deletes nothing, and a second sweep at the
      same instant changes nothing. */
  lemma {:induction false} SweepAgreesWithReads<V>(m: map<string, Entry<V>>, key: string, now: int)
    ensures Lookup(Unexpired(m, now), key, now) == Lookup(m, key, now)
    ensures AfterRead(Unexpired(m, now), key, now) == Unexpired(m, now)
    ensures Unexpired(Unexpired(m, now), now) == Unexpired(m, now)
  {
    assert Unexpired(Unexpired(m, now), now).Keys == Unexpired(m, now).Keys;
  }

  /** The sweep keeps every unexpired entry unchanged and deletes all others. */
  lemma SweepExact<V>(m: map<string, Entry<V>>, key: string, now: int)
    ensures key in Unexpired(m, now) <==> key in m && !Expired(m[key], now)
    ensures key in Unexpired(m, now) ==> Unexpired(m, now)[key] == m[key]
  {
  }

  /** `predictValue`, with `now` in milliseconds and `recoveryTime` in seconds.
      A server "full at" time that is present and non-zero wins: in the future
      it gives `max` minus the whole regeneration steps still missing (at
      least 0), in the past `max`. Otherwise the elapsed time since
      `lastUpdated` is turned into whole steps added to `current`, capped at
      `max`. */
  function PredictValue(current: int, max: int, recoveryTime: Option<int>, lastUpdated: int,
                        regenRate: int, now: int): (r: int)
    requires regenRate > 0
    ensures r <= max || r == 0
    ensures recoveryTime.Some? && recoveryTime.value != 0 && recoveryTime.value <= now / 1000 ==> r == max
    ensures recoveryTime.Some? && recoveryTime.value != 0 && recoveryTime.value > now / 1000 ==> r >= 0
    ensures (recoveryTime.None? || recoveryTime.value == 0) && lastUpdated <= now ==>
              r >= (if current < max then current else max)
  {
    var nowSec := now / 1000;
    if recoveryTime.Some? && recoveryTime.value != 0 then
      if recoveryTime.value > nowSec then
        var missing := CeilDiv(recoveryTime.value - nowSec, regenRate);
        if max - missing > 0 then max - missing else 0
      else max
    else
      var gained := (now - lastUpdated) / (1000 * regenRate);
      if current + gained < max then current + gained else max
  }

  /** `Math.ceil(a / b)` for positive `a` and `b`. */
  function CeilDiv(a: int, b: int): (q: int)
    requires a > 0 && b > 0
    ensures (q - 1) * b < a <= q * b
    ensures q >= 1
  {
    (a + b - 1) / b
  }

  /** With a future server time the prediction is `max(0, max - ceil(missing))`,
      whatever `current` is; with a past one it is `max`. */
  lemma PredictFromRecoveryTime(current: int, max: int, recoveryTime: int, lastUpdated: int,
                                regenRate: int, now: int, otherCurrent: int)
    requires regenRate > 0 && recoveryTime != 0
    ensures var p := PredictValue(current, max, Some(recoveryTime), lastUpdated, regenRate, now);
            && p == PredictValue(otherCurrent, max, Some(recoveryTime), lastUpdated, regenRate, now)
            && (recoveryTime <= now / 1000 ==> p == max)
            && (recoveryTime > now / 1000 ==>
                  var missing := recoveryTime - now / 1000;
                  && p >= 0 && (p == 0 || p == max - CeilDiv(missing, regenRate))
                  && (p - max) * regenRate > -missing - regenRate
                  && (p > 0 ==> (max - p) * regenRate >= missing))
  {
  }

  /** Without a server time the prediction never exceeds `max`, never falls
      below `min(current, max)` when `lastUpdated` is not in the future, and
      counts only whole regeneration steps. */
  lemma {:induction false} PredictFromElapsed(current: int, max: int, lastUpdated: int, regenRate: int, now: int)
    requires regenRate > 0
    ensures var p := PredictValue(current, max, None, lastUpdated, regenRate, now);
            && p <= max
            && (lastUpdated <= now ==> p >= (if current < max then current else max))
            && (p < max ==> (p - current) * 1000 * regenRate <= now - lastUpdated
                             < (p - current + 1) * 1000 * regenRate)
  {
    var g := (now - lastUpdated) / (1000 * regenRate);
    assert g * (1000 * regenRate) <= now - lastUpdated < (g + 1) * (1000 * regenRate);
    if lastUpdated <= now {
      assert g >= 0;
    }
  }

  /** A later clock never predicts less: the prediction is monotone in `now`
      (for a non-negative `max`; with a negative one a future server time gives
      0 and a past one gives `max`). */
  lemma {:induction false} PredictMonotone(current: int, max: int, recoveryTime: Option<int>, lastUpdated: int,
                                           regenRate: int, now: int, later: int)
    requires regenRate > 0 && now <= later && max >= 0
    ensures PredictValue(current, max, recoveryTime, lastUpdated, regenRate, now)
            <= PredictValue(current, max, recoveryTime, lastUpdated, regenRate, later)
  {
    DivMonotone(now, later, 1000);
    if recoveryTime.Some? && recoveryTime.value != 0 {
      var rt := recoveryTime.value;
      if rt > later / 1000 {
        CeilDivMonotone(rt - later / 1000, rt - now / 1000, regenRate);
      }
    } else {
      DivMonotone(now - lastUpdated, later - lastUpdated, 1000 * regenRate);
    }
  }

  lemma DivMonotone(a: int, b: int, d: int)
    requires d > 0 && a <= b
    ensures a / d <= b / d
  {
    var qa, qb := a / d, b / d;
    assert qa * d <= a;
    assert b < qb * d + d;
    if qa > qb {
      MulMonotone(qb + 1, qa, d);
      assert false;
    }
  }

  lemma MulMonotone(x: int, y: int, d: int)
    requires x <= y && d > 0
    ensures x * d <= y * d
  {
    assert y * d == x * d + (y - x) * d;
  }

  lemma CeilDivMonotone(a: int, b: int, d: int)
    requires 0 < a <= b && d > 0
    ensures CeilDiv(a, d) <= CeilDiv(b, d)
  {
    DivMonotone(a + d - 1, b + d - 1, d);
  }
}
