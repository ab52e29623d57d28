/**
 * The front end's performance utilities: the API response cache
 * (`PerformanceCache`), the timing wrapper `measurePerformance`, and the
 * mapping from the browser's reported connection type to a speed class and
 * an image quality. `Date.now()`, `performance.now()` and
 * `navigator.connection` are parameters.
 */
module PerfUtils {
  import opened Util

  // ---------------------------------------------------------------------------
  // The cache
  // ---------------------------------------------------------------------------

  /** One cached value, stamped with the time it was stored and its lifetime in milliseconds. */
  datatype Entry<D> = Entry(key: string, data: D, timestamp: int, ttl: int)

  const DefaultMaxSize: int := 100
  const DefaultTtl: int := 300000

  predicate Expired<D>(e: Entry<D>, now: int)
  {
    now - e.timestamp > e.ttl
  }

  function Keys<D>(s: seq<Entry<D>>): (r: seq<string>)
    ensures |r| == |s|
    ensures forall i :: 0 <= i < |s| ==> r[i] == s[i].key
  {
    seq(|s|, i requires 0 <= i < |s| => s[i].key)
  }

  /** The position of `key` in the cache; the map keeps each key once, so this is its only position. */
  function IndexOf<D>(s: seq<Entry<D>>, key: string): (r: Option<nat>)
    ensures r.Some? ==> r.value < |s| && s[r.value].key == key
    ensures r.Some? ==> forall i :: 0 <= i < r.value ==> s[i].key != key
    ensures r.None? ==> forall i :: 0 <= i < |s| ==> s[i].key != key
  {
    if s == [] then None
    else if s[0].key == key then Some(0)
    else
      var rest := IndexOf(s[1..], key);
      if rest.Some? then Some(rest.value + 1) else None
  }

  /** `Map.set`: an existing key keeps its place and takes the new entry, a new key goes last. */
  function Put<D>(s: seq<Entry<D>>, e: Entry<D>): (r: seq<Entry<D>>)
    ensures |r| == |s| + (if IndexOf(s, e.key).Some? then 0 else 1)
    ensures IndexOf(s, e.key).Some? ==>
      r[IndexOf(s, e.key).value] == e && forall j :: 0 <= j < |s| && j != IndexOf(s, e.key).value ==> r[j] == s[j]
    ensures IndexOf(s, e.key).None? ==> r == s + [e]
  {
    var i := IndexOf(s, e.key);
    if i.Some? then s[i.value := e] else s + [e]
  }

  /** `Map.delete` of the entry at position `i`. */
  function RemoveAt<D>(s: seq<Entry<D>>, i: nat): (r: seq<Entry<D>>)
    requires i < |s|
    ensures |r| == |s| - 1
  {
    s[..i] + s[i + 1..]
  }

  lemma RemoveAtIndex<D>(s: seq<Entry<D>>, i: nat)
    requires i < |s|
    ensures forall j :: 0 <= j < i ==> RemoveAt(s, i)[j] == s[j]
    ensures forall j :: i <= j < |s| - 1 ==> RemoveAt(s, i)[j] == s[j + 1]
  {
  }

  /** The first pass of `cleanup`: every expired entry goes, the rest keep their order. */
  function DropExpired<D>(s: seq<Entry<D>>, now: int): (r: seq<Entry<D>>)
    ensures |r| <= |s|
  {
    if s == [] then []
    else DropExpired(s[..|s| - 1], now) + (if Expired(s[|s| - 1], now) then [] else [s[|s| - 1]])
  }

  /** The position of the oldest entry, the first of them on a tie (the sort is stable). */
  function OldestIndex<D>(s: seq<Entry<D>>): (r: nat)
    requires s != []
    ensures r < |s|
  {
    if |s| == 1 then 0
    else
      var rest := OldestIndex(s[1..]);
      if s[0].timestamp <= s[rest + 1].timestamp then 0 else rest + 1
  }

  /** No entry is older than the one `OldestIndex` picks, and every entry before it is newer. */
  lemma {:induction false} OldestIndexFacts<D>(s: seq<Entry<D>>)
    requires s != []
    ensures forall j :: 0 <= j < |s| ==> s[OldestIndex(s)].timestamp <= s[j].timestamp
    ensures forall j :: 0 <= j < OldestIndex(s) ==> s[j].timestamp > s[OldestIndex(s)].timestamp
  {
    if |s| > 1 {
      OldestIndexFacts(s[1..]);
    }
  }

  /**
   * The second pass of `cleanup`: the `k` oldest entries go. Sorting by
   * timestamp (stably) and deleting the first `k` is the same as deleting the
   * first oldest entry `k` times.
   */
  function RemoveOldest<D>(s: seq<Entry<D>>, k: nat): (r: seq<Entry<D>>)
    ensures |r| == MaxInt(0, |s| - k)
    decreases k
  {
    if k == 0 || s == [] then s else RemoveOldest(RemoveAt(s, OldestIndex(s)), k - 1)
  }

  /** `entries.slice(0, Math.floor(maxSize * 0.3)).length`: a negative end counts from the back. */
  function EvictionCount(size: nat, maxSize: int): (k: nat)
    ensures k <= size
    ensures maxSize >= 0 ==> k == MinInt(Floor(maxSize as real * 0.3), size)
  {
    var end := Floor(maxSize as real * 0.3);
    if end >= 0 then MinInt(end, size) else MaxInt(0, size + end)
  }

  /** `cleanup`: expired entries go; if the cache is still full, the oldest 30% of the capacity go too. */
  function Cleaned<D>(s: seq<Entry<D>>, now: int, maxSize: int): (r: seq<Entry<D>>)
    ensures |r| <= |s|
  {
    var live := DropExpired(s, now);
    if |live| >= maxSize then RemoveOldest(live, EvictionCount(|live|, maxSize)) else live
  }

  /** `set`: clean up when full, then store the entry stamped `now`. */
  function Stored<D>(s: seq<Entry<D>>, maxSize: int, key: string, data: D, ttl: int, now: int)
    : (r: seq<Entry<D>>)
  {
    Put(if |s| >= maxSize then Cleaned(s, now, maxSize) else s, Entry(key, data, now, ttl))
  }

  /** The value `get` returns. */
  function Lookup<D>(s: seq<Entry<D>>, key: string, now: int): (r: Option<D>)
    ensures r.Some? <==> IndexOf(s, key).Some? && !Expired(s[IndexOf(s, key).value], now)
    ensures r.Some? ==> r.value == s[IndexOf(s, key).value].data
  {
    var i := IndexOf(s, key);
    if i.Some? && !Expired(s[i.value], now) then Some(s[i.value].data) else None
  }

  /** The cache after `get`: an expired entry that was looked up is deleted. */
  function AfterLookup<D>(s: seq<Entry<D>>, key: string, now: int): (r: seq<Entry<D>>)
  {
    var i := IndexOf(s, key);
    if i.Some? && Expired(s[i.value], now) then RemoveAt(s, i.value) else s
  }

  // --- properties ----------------------------------------------------------------

  lemma {:induction false} DropExpiredFacts<D>(s: seq<Entry<D>>, now: int)
    ensures forall i :: 0 <= i < |DropExpired(s, now)| ==> !Expired(DropExpired(s, now)[i], now)
    ensures (forall i :: 0 <= i < |s| ==> !Expired(s[i], now)) ==> DropExpired(s, now) == s
  {
    if s != [] {
      DropExpiredFacts(s[..|s| - 1], now);
      if forall i :: 0 <= i < |s| ==> !Expired(s[i], now) {
        assert forall i :: 0 <= i < |s| - 1 ==> s[..|s| - 1][i] == s[i];
        assert s[..|s| - 1] + [s[|s| - 1]] == s;
      }
    }
  }

  /** Every entry `cleanup` removes in its second pass is at least as old as every entry it keeps. */
  lemma {:induction false} RemoveOldestTakesOldest<D>(s: seq<Entry<D>>, k: nat, x: Entry<D>, y: Entry<D>)
    requires x in s && x !in RemoveOldest(s, k) && y in RemoveOldest(s, k)
    ensures x.timestamp <= y.timestamp
    decreases k
  {
    if k == 0 || s == [] {
      assert false;
    } else {
      var m := OldestIndex(s);
      var rest := RemoveAt(s, m);
      RemoveOldestStep(s, k);
      RemoveOldestKept(rest, k - 1, y);
      if x == s[m] {
        RemoveAtKeeps(s, m, y);
        OldestIsOldest(s, y);
      } else {
        RemoveAtKeepsOthers(s, m, x);
        RemoveOldestTakesOldest(rest, k - 1, x, y);
      }
    }
  }

  lemma RemoveOldestStep<D>(s: seq<Entry<D>>, k: nat)
    requires k > 0 && s != []
    ensures RemoveOldest(s, k) == RemoveOldest(RemoveAt(s, OldestIndex(s)), k - 1)
  {
  }

  lemma OldestIsOldest<D>(s: seq<Entry<D>>, y: Entry<D>)
    requires y in s
    ensures s[OldestIndex(s)].timestamp <= y.timestamp
  {
    var yi :| 0 <= yi < |s| && s[yi] == y;
    OldestIndexFacts(s);
  }

  lemma RemoveAtKeeps<D>(s: seq<Entry<D>>, i: nat, y: Entry<D>)
    requires i < |s| && y in RemoveAt(s, i)
    ensures y in s
  {
    RemoveAtIndex(s, i);
    var j :| 0 <= j < |s| - 1 && RemoveAt(s, i)[j] == y;
    if j < i {
      assert s[j] == y;
    } else {
      assert s[j + 1] == y;
    }
  }

  lemma RemoveAtKeepsOthers<D>(s: seq<Entry<D>>, i: nat, x: Entry<D>)
    requires i < |s| && x in s && x != s[i]
    ensures x in RemoveAt(s, i)
  {
    RemoveAtIndex(s, i);
    var j :| 0 <= j < |s| && s[j] == x;
    if j < i {
      assert RemoveAt(s, i)[j] == x;
    } else {
      assert RemoveAt(s, i)[j - 1] == x;
    }
  }

  /** What `RemoveOldest` keeps was in the cache before. */
  lemma {:induction false} RemoveOldestKept<D>(s: seq<Entry<D>>, k: nat, y: Entry<D>)
    requires y in RemoveOldest(s, k)
    ensures y in s
    decreases k
  {
    if k > 0 && s != [] {
      var rest := RemoveAt(s, OldestIndex(s));
      RemoveOldestKept(rest, k - 1, y);
      RemoveAtKeeps(s, OldestIndex(s), y);
    }
  }

  /** A `Map` holds each key once. */
  predicate UniqueKeys<D>(s: seq<Entry<D>>)
  {
    forall i, j :: 0 <= i < j < |s| ==> s[i].key != s[j].key
  }

  lemma PutUnique<D>(s: seq<Entry<D>>, e: Entry<D>)
    requires UniqueKeys(s)
    ensures UniqueKeys(Put(s, e))
  {
  }

  lemma RemoveAtUnique<D>(s: seq<Entry<D>>, i: nat)
    requires i < |s| && UniqueKeys(s)
    ensures UniqueKeys(RemoveAt(s, i))
  {
    RemoveAtIndex(s, i);
    var r := RemoveAt(s, i);
    forall a, b | 0 <= a < b < |r| ensures r[a].key != r[b].key {
      var a' := if a < i then a else a + 1;
      var b' := if b < i then b else b + 1;
      assert r[a] == s[a'] && r[b] == s[b'];
    }
  }

  lemma {:induction false} DropExpiredUnique<D>(s: seq<Entry<D>>, now: int)
    requires UniqueKeys(s)
    ensures UniqueKeys(DropExpired(s, now))
    ensures forall i :: 0 <= i < |DropExpired(s, now)| ==> DropExpired(s, now)[i] in s
  {
    if s != [] {
      var init := s[..|s| - 1];
      var last := s[|s| - 1];
      assert UniqueKeys(init);
      DropExpiredUnique(init, now);
      var d := DropExpired(init, now);
      forall i | 0 <= i < |d| ensures d[i].key != last.key {
        var j :| 0 <= j < |init| && init[j] == d[i];
        assert s[j] == d[i];
      }
    }
  }

  lemma {:induction false} RemoveOldestUnique<D>(s: seq<Entry<D>>, k: nat)
    requires UniqueKeys(s)
    ensures UniqueKeys(RemoveOldest(s, k))
    decreases k
  {
    if k > 0 && s != [] {
      RemoveAtUnique(s, OldestIndex(s));
      RemoveOldestUnique(RemoveAt(s, OldestIndex(s)), k - 1);
    }
  }

  /** Every operation on the cache keeps each key once. */
  lemma CleanedUnique<D>(s: seq<Entry<D>>, now: int, maxSize: int)
    requires UniqueKeys(s)
    ensures UniqueKeys(Cleaned(s, now, maxSize))
  {
    DropExpiredUnique(s, now);
    var live := DropExpired(s, now);
    if |live| >= maxSize {
      RemoveOldestUnique(live, EvictionCount(|live|, maxSize));
    }
  }

  lemma StoredUnique<D>(s: seq<Entry<D>>, maxSize: int, key: string, data: D, ttl: int, now: int)
    requires UniqueKeys(s)
    ensures UniqueKeys(Stored(s, maxSize, key, data, ttl, now))
  {
    CleanedUnique(s, now, maxSize);
    PutUnique(if |s| >= maxSize then Cleaned(s, now, maxSize) else s, Entry(key, data, now, ttl));
  }

  lemma AfterLookupUnique<D>(s: seq<Entry<D>>, key: string, now: int)
    requires UniqueKeys(s)
    ensures UniqueKeys(AfterLookup(s, key, now))
  {
    var i := IndexOf(s, key);
    if i.Some? {
      RemoveAtUnique(s, i.value);
    }
  }

  /** An expired entry that is looked up is gone afterwards: the next lookup misses too. */
  lemma ExpiredLookupForgets<D>(s: seq<Entry<D>>, key: string, now: int)
    requires UniqueKeys(s)
    requires IndexOf(s, key).Some? && Expired(s[IndexOf(s, key).value], now)
    ensures forall j :: 0 <= j < |AfterLookup(s, key, now)| ==> AfterLookup(s, key, now)[j].key != key
    ensures Lookup(AfterLookup(s, key, now), key, now).None?
  {
    var i := IndexOf(s, key).value;
    var r := AfterLookup(s, key, now);
    RemoveAtIndex(s, i);
    forall j | 0 <= j < |r| ensures r[j].key != key {
      if j < i {
        assert r[j] == s[j];
      } else {
        assert r[j] == s[j + 1];
      }
    }
  }

  /** A value just stored is found again at the same instant, unless its lifetime is negative. */
  lemma StoredThenFound<D>(s: seq<Entry<D>>, maxSize: int, key: string, data: D, ttl: int, now: int)
    ensures ttl >= 0 ==> Lookup(Stored(s, maxSize, key, data, ttl, now), key, now) == Some(data)
    ensures ttl < 0 ==> Lookup(Stored(s, maxSize, key, data, ttl, now), key, now).None?
  {
    var base := if |s| >= maxSize then Cleaned(s, now, maxSize) else s;
    PutFound(base, Entry(key, data, now, ttl));
  }

  lemma PutFound<D>(s: seq<Entry<D>>, e: Entry<D>)
    ensures IndexOf(Put(s, e), e.key).Some?
    ensures Put(s, e)[IndexOf(Put(s, e), e.key).value] == e
  {
    var i := IndexOf(s, e.key);
    var r := Put(s, e);
    if i.Some? {
      assert r[i.value] == e;
      assert forall j :: 0 <= j < i.value ==> r[j] == s[j];
      IndexOfFirst(r, e.key, i.value);
    } else {
      assert r[|s|] == e;
      assert forall j :: 0 <= j < |s| ==> r[j] == s[j] && s[j].key != e.key;
      IndexOfFirst(r, e.key, |s|);
    }
  }

  /** The first position holding a key is the one `IndexOf` finds. */
  lemma IndexOfFirst<D>(s: seq<Entry<D>>, key: string, i: nat)
    requires i < |s| && s[i].key == key
    requires forall j :: 0 <= j < i ==> s[j].key != key
    ensures IndexOf(s, key) == Some(i)
  {
  }

  /** From a capacity of 4 up, a cache at most full stays at most full after any `set`. */
  lemma StoredWithinCapacity<D>(s: seq<Entry<D>>, maxSize: int, key: string, data: D, ttl: int, now: int)
    requires maxSize >= 4 && |s| <= maxSize
    ensures |Stored(s, maxSize, key, data, ttl, now)| <= maxSize
  {
    if |s| >= maxSize {
      var live := DropExpired(s, now);
      if |live| >= maxSize {
        assert Floor(maxSize as real * 0.3) >= 1;
      }
    }
  }

  /** Below a capacity of 4 nothing old is evicted, so a full cache of live entries grows past its capacity. */
  lemma SmallCapacityOverflows<D>(s: seq<Entry<D>>, key: string, data: D, ttl: int, now: int)
    requires |s| == 3 && forall i :: 0 <= i < |s| ==> s[i].key != key
    requires forall i :: 0 <= i < |s| ==> !Expired(s[i], now)
    ensures |Stored(s, 3, key, data, ttl, now)| == 4
  {
    DropExpiredFacts(s, now);
    assert Floor(3.0 * 0.3) == 0;
  }

  /**
   * The cache of the page: a `Map` from keys to entries in insertion order
   * (a sequence with each key once), and a fixed capacity.
   */
  class PerformanceCache<D> {
    var entries: seq<Entry<D>>
    const maxSize: int

    predicate Valid()
      reads this
    {
      UniqueKeys(entries)
    }

    /** An omitted capacity is `DefaultMaxSize`. */
    constructor(maxSize: Option<int>)
      ensures Valid()
      ensures this.maxSize == (if maxSize.Some? then maxSize.value else DefaultMaxSize) && entries == []
    {
      this.maxSize := if maxSize.Some? then maxSize.value else DefaultMaxSize;
      entries := [];
    }

    /** An omitted ttl is `DefaultTtl`. */
    method Set(key: string, data: D, ttl: Option<int>, now: int)
      requires Valid()
      modifies this
      ensures Valid()
      ensures entries == Stored(old(entries), maxSize, key, data, if ttl.Some? then ttl.value else DefaultTtl, now)
    {
      var t := if ttl.Some? then ttl.value else DefaultTtl;
      StoredUnique(entries, maxSize, key, data, t, now);
      if |entries| >= maxSize {
        Cleanup(now);
      }
      entries := Put(entries, Entry(key, data, now, t));
    }

    method Get(key: string, now: int) returns (r: Option<D>)
      requires Valid()
      modifies this
      ensures Valid()
      ensures r == Lookup(old(entries), key, now)
      ensures entries == AfterLookup(old(entries), key, now)
    {
      AfterLookupUnique(entries, key, now);
      var i := IndexOf(entries, key);
      if i.None? {
        return None;
      }
      if Expired(entries[i.value], now) {
        entries := RemoveAt(entries, i.value);
        return None;
      }
      return Some(entries[i.value].data);
    }

    /** The two passes of `cleanup`, as the two loops over the entries. */
    method Cleanup(now: int)
      requires Valid()
      modifies this
      ensures Valid()
      ensures entries == Cleaned(old(entries), now, maxSize)
    {
      CleanedUnique(entries, now, maxSize);
      var live: seq<Entry<D>> := [];
      var i := 0;
      while i < |entries|
        invariant 0 <= i <= |entries|
        invariant live == DropExpired(entries[..i], now)
      {
        assert entries[..i + 1][..i] == entries[..i];
        if !Expired(entries[i], now) {
          live := live + [entries[i]];
        }
        i := i + 1;
      }
      assert entries[..i] == entries;
      if |live| >= maxSize {
        var k := EvictionCount(|live|, maxSize);
        var cur := live;
        var j := 0;
        while j < k && cur != []
          invariant 0 <= j <= k
          invariant RemoveOldest(cur, k - j) == RemoveOldest(live, k)
        {
          cur := RemoveAt(cur, OldestIndex(cur));
          j := j + 1;
        }
        live := cur;
      }
      entries := live;
    }

    method Clear()
      modifies this
      ensures Valid()
      ensures entries == []
    {
      entries := [];
    }

    /** `getStats`: the size, the capacity and the keys in insertion order. */
    function Stats(): (r: (nat, int, seq<string>))
      reads this
      ensures r.0 == |entries| && r.1 == maxSize && r.2 == Keys(entries)
    {
      (|entries|, maxSize, Keys(entries))
    }
  }

  // ---------------------------------------------------------------------------
  // measurePerformance
  // ---------------------------------------------------------------------------

  /** What the measured function did: returned a value or threw an error. */
  datatype Outcome<T> = Returned(value: T) | Threw(error: string)

  /** The wrapper's result and the line it logs. */
  datatype Measured<T> = Measured(outcome: Outcome<T>, log: string)

  const TimerMark: string := "\U{23F1}\U{FE0F} "
  const ErrorMark: string := "\U{274C} "

  /**
   * `measurePerformance`: the function's result passes through untouched
   * (a thrown error is rethrown), and the elapsed time is logged, rounded to
   * whole milliseconds.
   */
  function MeasurePerformance<T>(name: string, outcome: Outcome<T>, start: real, end: real): (r: Measured<T>)
    ensures r.outcome == outcome
    ensures outcome.Returned? ==> r.log == TimerMark + name + ": " + IntToString(Round(end - start)) + "ms"
    ensures outcome.Threw? ==> r.log == ErrorMark + name + " (error): " + IntToString(Round(end - start)) + "ms"
  {
    var elapsed := IntToString(Round(end - start));
    if outcome.Returned? then Measured(outcome, TimerMark + name + ": " + elapsed + "ms")
    else Measured(outcome, ErrorMark + name + " (error): " + elapsed + "ms")
  }

  /** The log line tells a thrown error from a returned value. */
  lemma MeasureLogsOutcome<T>(name: string, a: Outcome<T>, b: Outcome<T>, start: real, end: real)
    requires a.Returned? && b.Threw?
    ensures MeasurePerformance(name, a, start, end).log != MeasurePerformance(name, b, start, end).log
  {
    assert MeasurePerformance(name, a, start, end).log[0] == '\U{23F1}';
    assert MeasurePerformance(name, b, start, end).log[0] == '\U{274C}';
  }

  // ---------------------------------------------------------------------------
  // Connection speed and image quality
  // ---------------------------------------------------------------------------

  /** `navigator.connection`, whose `effectiveType` may be missing. */
  datatype Connection = Connection(effectiveType: Option<string>)

  datatype Speed = Slow | MediumSpeed | Fast
  datatype Quality = LowQuality | MediumQuality | HighQuality

  /** `getConnectionSpeed`: no connection information is read as medium, any unknown type as fast. */
  function ConnectionSpeed(connection: Option<Connection>): (r: Speed)
    ensures connection.None? ==> r == MediumSpeed
    ensures connection.Some? ==>
              var t := connection.value.effectiveType;
              && (r == Slow <==> t == Some("slow-2g") || t == Some("2g"))
              && (r == MediumSpeed <==> t == Some("3g"))
  {
    if connection.None? then MediumSpeed
    else
      match connection.value.effectiveType
      case Some(t) =>
        if t == "slow-2g" || t == "2g" then Slow
        else if t == "3g" then MediumSpeed
        else Fast
      case None => Fast
  }

  function ImageQuality(speed: Speed): (q: Quality)
  {
    match speed
    case Slow => LowQuality
    case MediumSpeed => MediumQuality
    case Fast => HighQuality
  }

  /**
   * `getOptimalImageQuality`: low on a 2G connection, medium on 3G or when
   * the browser says nothing, high otherwise.
   */
  function OptimalImageQuality(connection: Option<Connection>): (q: Quality)
    ensures connection.None? ==> q == MediumQuality
    ensures connection.Some? ==>
              var t := connection.value.effectiveType;
              && (q == LowQuality <==> t == Some("slow-2g") || t == Some("2g"))
              && (q == MediumQuality <==> t == Some("3g"))
  {
    ImageQuality(ConnectionSpeed(connection))
  }

  function SpeedRank(s: Speed): nat
  {
    match s
    case Slow => 0
    case MediumSpeed => 1
    case Fast => 2
  }

  function QualityRank(q: Quality): nat
  {
    match q
    case LowQuality => 0
    case MediumQuality => 1
    case HighQuality => 2
  }

  /** A faster connection never gets a lower image quality, and different speeds get different qualities. */
  lemma ImageQualityFollowsSpeed(a: Speed, b: Speed)
    ensures SpeedRank(a) <= SpeedRank(b) <==> QualityRank(ImageQuality(a)) <= QualityRank(ImageQuality(b))
    ensures a != b ==> ImageQuality(a) != ImageQuality(b)
  {
  }
}
