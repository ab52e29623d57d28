/**
 * The multi-level cache manager, memory level: entries with a lifetime, a
 * hit counter and a stored size (base64-compressed above 1 KiB when asked),
 * least-used eviction when a new entry would pass 50 MiB, expiry on lookup
 * and on cleanup, and the statistics (entry count, total size, hit rate,
 * compression ratio, evictions). The clock is a parameter. The session,
 * local and IndexedDB levels live in browser storage, outside this model:
 * they are read as empty, as they are when no `window` exists.
 */
module AdvancedCache {
  import opened Util

  datatype Level = Memory | Session | Local | IndexedDb

  datatype CacheEntry<V> = CacheEntry(
    value: V, timestamp: int, ttl: int, hits: nat, size: nat, compressed: bool)

  datatype CacheStats = CacheStats(
    totalEntries: nat, totalSize: nat, hitRate: real, compressionRatio: real, evictions: nat)

  const ZeroStats: CacheStats := CacheStats(0, 0, 0.0, 0.0, 0)
  const MaxMemorySize: nat := 50 * 1024 * 1024
  const CompressionThreshold: nat := 1024

  /** `isExpired`. */
  predicate IsExpired<V>(e: CacheEntry<V>, now: int)
  {
    now - e.timestamp > e.ttl
  }

  /** The length of `btoa` of `n` bytes: four characters for every three bytes, padded. */
  function Base64Size(n: nat): (r: nat)
    ensures r % 4 == 0
    ensures n > 0 ==> r > n
  {
    4 * ((n + 2) / 3)
  }

  /**
   * The entry `set` builds from a value whose serialised form is
   * `originalSize` bytes long.
   */
  function NewEntry<V>(value: V, ttl: int, compress: bool, originalSize: nat, now: int): (e: CacheEntry<V>)
    ensures e.compressed <==> compress && originalSize > CompressionThreshold
    ensures e.value == value && e.timestamp == now && e.ttl == ttl && e.hits == 0
    ensures e.compressed ==> e.size == Base64Size(originalSize) && e.size > originalSize
    ensures !e.compressed ==> e.size == originalSize
  {
    var compressed := compress && originalSize > CompressionThreshold;
    CacheEntry(value, now, ttl, 0, if compressed then Base64Size(originalSize) else originalSize, compressed)
  }

  // ---------------------------------------------------------------------------
  // Sizes and statistics
  // ---------------------------------------------------------------------------

  function SizeAt<V>(m: map<string, CacheEntry<V>>, k: string): nat
  {
    if k in m then m[k].size else 0
  }

  function CompressedSizeAt<V>(m: map<string, CacheEntry<V>>, k: string): nat
  {
    if k in m && m[k].compressed then m[k].size else 0
  }

  /** `getMemoryCacheSize`: the sizes of all entries. */
  function SumSizes<V>(order: seq<string>, m: map<string, CacheEntry<V>>): nat
  {
    if order == [] then 0
    else SumSizes(order[..|order| - 1], m) + SizeAt(m, order[|order| - 1])
  }

  /** The sizes of the compressed entries. */
  function CompressedSizes<V>(order: seq<string>, m: map<string, CacheEntry<V>>): (r: nat)
    ensures r <= SumSizes(order, m)
  {
    if order == [] then 0
    else CompressedSizes(order[..|order| - 1], m) + CompressedSizeAt(m, order[|order| - 1])
  }

  /**
   * `(original - compressed) / original` with every compressed entry
   * estimated at 1.5 times its size: a third, once any compressed entry has
   * a size, and 0 otherwise.
   */
  function CompressionRatio(compressedTotal: nat): (r: real)
    ensures compressedTotal > 0 ==> r == 1.0 / 3.0
    ensures compressedTotal == 0 ==> r == 0.0
  {
    var original := compressedTotal as real * 1.5;
    if original > 0.0 then (original - compressedTotal as real) / original else 0.0
  }

  /** `updateStats`: entry count, total size and compression ratio from the memory level. */
  function Refreshed<V>(stats: CacheStats, order: seq<string>, m: map<string, CacheEntry<V>>): (r: CacheStats)
    ensures r.totalEntries == |m| && r.totalSize == SumSizes(order, m)
    ensures r.compressionRatio == CompressionRatio(CompressedSizes(order, m))
    ensures r.hitRate == stats.hitRate && r.evictions == stats.evictions
  {
    stats.(totalEntries := |m|, totalSize := SumSizes(order, m),
           compressionRatio := CompressionRatio(CompressedSizes(order, m)))
  }

  /** `hits / (hits + misses) || 0`: NaN, with no lookups at all, reads as 0. */
  function HitRate(hits: nat, misses: nat): (r: real)
    ensures 0.0 <= r <= 1.0
    ensures hits + misses == 0 ==> r == 0.0
    ensures r == 1.0 <==> hits > 0 && misses == 0
    ensures r == 0.0 <==> hits == 0
  {
    if hits + misses == 0 then 0.0
    else
      RatioInUnit(hits as real, (hits + misses) as real);
      hits as real / (hits + misses) as real
  }

  // ---------------------------------------------------------------------------
  // Eviction and cleanup
  // ---------------------------------------------------------------------------

  function HitsAt<V>(m: map<string, CacheEntry<V>>, k: string): nat
  {
    if k in m then m[k].hits else 0
  }

  /**
   * The position the eviction scan settles on: only a strictly smaller hit
   * count replaces the current candidate, so it is the first entry of
   * fewest hits.
   */
  function LeastUsedIndex<V>(order: seq<string>, m: map<string, CacheEntry<V>>): (r: Option<nat>)
    ensures r.Some? <==> order != []
    ensures r.Some? ==> r.value < |order|
  {
    if order == [] then None
    else
      var p := LeastUsedIndex(order[..|order| - 1], m);
      if p.None? || HitsAt(m, order[|order| - 1]) < HitsAt(m, order[p.value]) then Some(|order| - 1) else p
  }

  lemma {:induction false} LeastUsedIndexFacts<V>(order: seq<string>, m: map<string, CacheEntry<V>>)
    requires order != []
    ensures var i := LeastUsedIndex(order, m).value;
            && (forall j :: 0 <= j < |order| ==> HitsAt(m, order[i]) <= HitsAt(m, order[j]))
            && (forall j :: 0 <= j < i ==> HitsAt(m, order[j]) > HitsAt(m, order[i]))
  {
    var init := order[..|order| - 1];
    if init != [] {
      LeastUsedIndexFacts(init, m);
      assert forall j :: 0 <= j < |init| ==> init[j] == order[j];
    }
  }

  /** The key `evictLeastUsed` deletes: none in an empty cache, and none when it is the falsy key "". */
  function EvictionVictim<V>(order: seq<string>, m: map<string, CacheEntry<V>>): (r: Option<string>)
    ensures r.Some? ==> r.value in order && r.value != ""
    ensures order != [] && order[LeastUsedIndex(order, m).value] != "" ==> r.Some?
  {
    var i := LeastUsedIndex(order, m);
    if i.Some? && order[i.value] != "" then Some(order[i.value]) else None
  }

  /** The victim has the fewest hits and comes first among the entries that tie with it. */
  lemma EvictionVictimLeastUsed<V>(order: seq<string>, m: map<string, CacheEntry<V>>)
    requires EvictionVictim(order, m).Some?
    ensures forall k :: k in order ==> HitsAt(m, EvictionVictim(order, m).value) <= HitsAt(m, k)
    ensures exists i :: 0 <= i < |order| && order[i] == EvictionVictim(order, m).value
                        && forall j :: 0 <= j < i ==> HitsAt(m, order[j]) > HitsAt(m, order[i])
  {
    LeastUsedIndexFacts(order, m);
    var i := LeastUsedIndex(order, m).value;
    assert order[i] == EvictionVictim(order, m).value;
  }

  predicate ExpiredAt<V>(m: map<string, CacheEntry<V>>, k: string, now: int)
  {
    k in m && IsExpired(m[k], now)
  }

  /** The keys `cleanup` keeps, in their order. */
  function Unexpired<V>(order: seq<string>, m: map<string, CacheEntry<V>>, now: int): (r: seq<string>)
    ensures |r| <= |order|
  {
    if order == [] then []
    else
      var last := order[|order| - 1];
      Unexpired(order[..|order| - 1], m, now) + (if ExpiredAt(m, last, now) then [] else [last])
  }

  /** The memory level without its expired entries. */
  function Pruned<V>(m: map<string, CacheEntry<V>>, now: int): (r: map<string, CacheEntry<V>>)
    ensures forall k :: k in r <==> k in m && !IsExpired(m[k], now)
    ensures forall k :: k in r ==> r[k] == m[k]
  {
    map k | k in m && !IsExpired(m[k], now) :: m[k]
  }

  lemma {:induction false} UnexpiredFacts<V>(order: seq<string>, m: map<string, CacheEntry<V>>, now: int)
    requires Distinct(order)
    ensures Distinct(Unexpired(order, m, now))
    ensures forall k :: k in Unexpired(order, m, now) <==> k in order && !ExpiredAt(m, k, now)
  {
    if order != [] {
      var init := order[..|order| - 1];
      var last := order[|order| - 1];
      DistinctPrefix(order, |order| - 1);
      UnexpiredFacts(init, m, now);
      assert forall k :: k in order <==> k in init || k == last;
      DistinctLast(order);
      var u := Unexpired(init, m, now);
      if !ExpiredAt(m, last, now) {
        DistinctSnoc(u, last);
        assert Unexpired(order, m, now) == u + [last];
      } else {
        assert Unexpired(order, m, now) == u + [] == u;
      }
    }
  }

  /** `cleanup` keeps the key list of the pruned memory level, and reports how many entries went. */
  lemma CleanupKeepsOrder<V>(order: seq<string>, m: map<string, CacheEntry<V>>, now: int)
    requires OrderOf(order, m)
    ensures OrderOf(Unexpired(order, m, now), Pruned(m, now))
    ensures |Pruned(m, now)| == |m| - (|order| - |Unexpired(order, m, now)|)
  {
    UnexpiredFacts(order, m, now);
    OrderOfSize(order, m);
    OrderOfSize(Unexpired(order, m, now), Pruned(m, now));
  }

  /** The entry `setMemoryCache` evicts to make room for `e`, if any. */
  function AdmissionVictim<V>(order: seq<string>, m: map<string, CacheEntry<V>>, e: CacheEntry<V>): (r: Option<string>)
    ensures SumSizes(order, m) + e.size <= MaxMemorySize ==> r.None?
  {
    if SumSizes(order, m) + e.size > MaxMemorySize then EvictionVictim(order, m) else None
  }

  function AdmittedMemory<V>(order: seq<string>, m: map<string, CacheEntry<V>>, key: string, e: CacheEntry<V>)
    : (r: map<string, CacheEntry<V>>)
    ensures key in r && r[key] == e
    ensures AdmissionVictim(order, m, e).None? ==> r == m[key := e]
  {
    var victim := AdmissionVictim(order, m, e);
    (if victim.Some? then m - {victim.value} else m)[key := e]
  }

  function AdmittedOrder<V>(order: seq<string>, m: map<string, CacheEntry<V>>, key: string, e: CacheEntry<V>)
    : (r: seq<string>)
  {
    var victim := AdmissionVictim(order, m, e);
    Remember(if victim.Some? then Without(order, victim.value) else order, key)
  }

  /** Storing keeps at most one entry more, and exactly one when nothing is evicted and the key is new. */
  lemma AdmittedSize<V>(order: seq<string>, m: map<string, CacheEntry<V>>, key: string, e: CacheEntry<V>)
    requires OrderOf(order, m)
    ensures |AdmittedMemory(order, m, key, e)| <= |m| + 1
    ensures AdmissionVictim(order, m, e).None? && key !in m ==> |AdmittedMemory(order, m, key, e)| == |m| + 1
    ensures AdmissionVictim(order, m, e).Some? && key in m ==> |AdmittedMemory(order, m, key, e)| <= |m|
  {
    var victim := AdmissionVictim(order, m, e);
    if victim.Some? {
      var kept := m - {victim.value};
      assert |kept| == |m| - 1 by {
        assert kept.Keys == m.Keys - {victim.value};
      }
      assert |kept[key := e]| <= |kept| + 1 by {
        assert kept[key := e].Keys == kept.Keys + {key};
      }
    } else {
      assert m[key := e].Keys == m.Keys + {key};
    }
  }

  // ---------------------------------------------------------------------------
  // The manager
  // ---------------------------------------------------------------------------

  class CacheManager<V> {
    var memory: map<string, CacheEntry<V>>
    var order: seq<string>
    var stats: CacheStats
    var hits: nat
    var misses: nat

    /** The memory map's insertion order, kept beside it. */
    predicate Valid()
      reads this
    {
      OrderOf(order, memory)
    }

    constructor()
      ensures Valid()
      ensures memory == map[] && order == [] && stats == ZeroStats && hits == 0 && misses == 0
    {
      memory := map[];
      order := [];
      stats := ZeroStats;
      hits := 0;
      misses := 0;
    }

    /** `getMemoryCacheSize`, the loop over the entries. */
    method GetMemoryCacheSize() returns (size: nat)
      ensures size == SumSizes(order, memory)
    {
      size := 0;
      var i := 0;
      while i < |order|
        invariant 0 <= i <= |order|
        invariant size == SumSizes(order[..i], memory)
      {
        assert order[..i + 1][..i] == order[..i];
        size := size + SizeAt(memory, order[i]);
        i := i + 1;
      }
      assert order[..i] == order;
    }

    /** The two estimated totals of `updateStats`. */
    method CompressionTotals() returns (totalOriginal: real, totalCompressed: real)
      ensures totalCompressed == CompressedSizes(order, memory) as real
      ensures totalOriginal == totalCompressed * 1.5
    {
      totalOriginal, totalCompressed := 0.0, 0.0;
      var i := 0;
      while i < |order|
        invariant 0 <= i <= |order|
        invariant totalCompressed == CompressedSizes(order[..i], memory) as real
        invariant totalOriginal == totalCompressed * 1.5
      {
        assert order[..i + 1][..i] == order[..i];
        var k := order[i];
        if k in memory && memory[k].compressed {
          totalOriginal := totalOriginal + memory[k].size as real * 1.5;
          totalCompressed := totalCompressed + memory[k].size as real;
        }
        i := i + 1;
      }
      assert order[..i] == order;
    }

    method UpdateStats()
      modifies this
      ensures stats == Refreshed(old(stats), order, memory)
      ensures memory == old(memory) && order == old(order) && hits == old(hits) && misses == old(misses)
    {
      var size := GetMemoryCacheSize();
      var totalOriginal, totalCompressed := CompressionTotals();
      var ratio := if totalOriginal > 0.0 then (totalOriginal - totalCompressed) / totalOriginal else 0.0;
      stats := stats.(totalEntries := |memory|, totalSize := size, compressionRatio := ratio);
    }

    /** The scan of `evictLeastUsed`: the first entry with fewer hits than every earlier one. */
    method FindLeastUsed() returns (least: Option<nat>)
      ensures least == LeastUsedIndex(order, memory)
    {
      least := None;
      var i := 0;
      while i < |order|
        invariant 0 <= i <= |order|
        invariant least == LeastUsedIndex(order[..i], memory)
      {
        assert order[..i + 1][..i] == order[..i];
        assert order[..i + 1][i] == order[i];
        if least.None? || HitsAt(memory, order[i]) < HitsAt(memory, order[least.value]) {
          least := Some(i);
        }
        i := i + 1;
      }
      assert order[..i] == order;
    }

    method EvictLeastUsed()
      requires Valid()
      modifies this
      ensures Valid()
      ensures var victim := EvictionVictim(old(order), old(memory));
              if victim.Some? then
                && memory == old(memory) - {victim.value}
                && order == Without(old(order), victim.value)
                && stats == old(stats).(evictions := old(stats).evictions + 1)
              else
                memory == old(memory) && order == old(order) && stats == old(stats)
      ensures hits == old(hits) && misses == old(misses)
    {
      var least := FindLeastUsed();
      if least.Some? && order[least.value] != "" {
        var k := order[least.value];
        WithoutOrder(order, memory, k);
        memory := memory - {k};
        order := Without(order, k);
        stats := stats.(evictions := stats.evictions + 1);
      }
    }

    /** `setMemoryCache`: one least-used entry makes room when the new entry would not fit, then the entry is stored. */
    method SetMemoryCache(key: string, e: CacheEntry<V>)
      requires Valid()
      modifies this
      ensures Valid()
      ensures memory == AdmittedMemory(old(order), old(memory), key, e)
      ensures order == AdmittedOrder(old(order), old(memory), key, e)
      ensures stats == old(stats).(evictions := old(stats).evictions
                                   + (if AdmissionVictim(old(order), old(memory), e).Some? then 1 else 0))
      ensures hits == old(hits) && misses == old(misses)
    {
      var current := GetMemoryCacheSize();
      if current + e.size > MaxMemorySize {
        EvictLeastUsed();
      }
      RememberOrder(order, memory, key, e);
      memory := memory[key := e];
      order := Remember(order, key);
    }

    /**
     * `set`: the memory level stores the entry (after making room); the other
     * levels are browser storage. The statistics are refreshed either way.
     */
    method Set(key: string, value: V, level: Level, ttl: int, compress: bool, originalSize: nat, now: int)
      requires Valid()
      modifies this
      ensures Valid()
      ensures var e := NewEntry(value, ttl, compress, originalSize, now);
              && memory == (if level == Memory then AdmittedMemory(old(order), old(memory), key, e) else old(memory))
              && order == (if level == Memory then AdmittedOrder(old(order), old(memory), key, e) else old(order))
              && stats == Refreshed(old(stats).(evictions := old(stats).evictions
                                    + (if level == Memory && AdmissionVictim(old(order), old(memory), e).Some? then 1 else 0)),
                                    order, memory)
      ensures hits == old(hits) && misses == old(misses)
    {
      var e := NewEntry(value, ttl, compress, originalSize, now);
      if level == Memory {
        SetMemoryCache(key, e);
      }
      UpdateStats();
    }

    /** `delete`: reports success whatever the memory level held. */
    method Delete(key: string) returns (deleted: bool)
      requires Valid()
      modifies this
      ensures Valid()
      ensures deleted
      ensures memory == old(memory) - {key} && order == Without(old(order), key)
      ensures stats == Refreshed(old(stats), order, memory)
      ensures hits == old(hits) && misses == old(misses)
    {
      WithoutOrder(order, memory, key);
      memory := memory - {key};
      order := Without(order, key);
      UpdateStats();
      deleted := true;
    }

    /**
     * `get`: a missing or expired entry is a miss (an expired one is deleted
     * first); a live one counts a hit, on itself and globally.
     */
    method Get(key: string, now: int) returns (r: Option<V>)
      requires Valid()
      modifies this
      ensures Valid()
      ensures key !in old(memory) ==>
                r.None? && misses == old(misses) + 1 && hits == old(hits)
                && memory == old(memory) && order == old(order) && stats == old(stats)
      ensures key in old(memory) && IsExpired(old(memory)[key], now) ==>
                r.None? && misses == old(misses) + 1 && hits == old(hits)
                && memory == old(memory) - {key} && order == Without(old(order), key)
                && stats == Refreshed(old(stats), order, memory)
      ensures key in old(memory) && !IsExpired(old(memory)[key], now) ==>
                r == Some(old(memory)[key].value) && hits == old(hits) + 1 && misses == old(misses)
                && memory == old(memory)[key := old(memory)[key].(hits := old(memory)[key].hits + 1)]
                && order == old(order) && stats == old(stats)
    {
      if key !in memory {
        misses := misses + 1;
        return None;
      }
      var e := memory[key];
      if IsExpired(e, now) {
        var _ := Delete(key);
        misses := misses + 1;
        return None;
      }
      RememberOrder(order, memory, key, e.(hits := e.hits + 1));
      assert Remember(order, key) == order;
      memory := memory[key := e.(hits := e.hits + 1)];
      hits := hits + 1;
      return Some(e.value);
    }

    /** The scan of `cleanup`: the keys to keep and the number of expired entries. */
    method ScanExpired(now: int) returns (keep: seq<string>, cleaned: nat)
      ensures keep == Unexpired(order, memory, now)
      ensures cleaned == |order| - |keep|
    {
      keep, cleaned := [], 0;
      var i := 0;
      while i < |order|
        invariant 0 <= i <= |order|
        invariant keep == Unexpired(order[..i], memory, now)
        invariant cleaned == i - |keep|
      {
        assert order[..i + 1][..i] == order[..i];
        assert order[..i + 1][i] == order[i];
        if ExpiredAt(memory, order[i], now) {
          cleaned := cleaned + 1;
        } else {
          keep := keep + [order[i]];
        }
        i := i + 1;
      }
      assert order[..i] == order;
    }

    /** `cleanup`: deletes exactly the expired entries and returns how many there were. */
    method Cleanup(now: int) returns (cleaned: nat)
      requires Valid()
      modifies this
      ensures Valid()
      ensures memory == Pruned(old(memory), now) && order == Unexpired(old(order), old(memory), now)
      ensures cleaned + |memory| == |old(memory)|
      ensures stats == Refreshed(old(stats), order, memory)
      ensures hits == old(hits) && misses == old(misses)
    {
      var keep;
      keep, cleaned := ScanExpired(now);
      CleanupKeepsOrder(order, memory, now);
      memory := Pruned(memory, now);
      order := keep;
      UpdateStats();
    }

    /** `getStats`: the stored statistics with the current hit rate. */
    function GetStats(): (r: CacheStats)
      reads this
      ensures r == stats.(hitRate := HitRate(hits, misses))
    {
      stats.(hitRate := HitRate(hits, misses))
    }

    /** `resetStats` zeroes every counter; the entries themselves stay. */
    method ResetStats()
      modifies this
      ensures hits == 0 && misses == 0 && stats == ZeroStats
      ensures memory == old(memory) && order == old(order)
    {
      hits := 0;
      misses := 0;
      stats := ZeroStats;
    }

    method Clear()
      modifies this
      ensures Valid()
      ensures memory == map[] && order == []
      ensures stats == old(stats).(totalEntries := 0, totalSize := 0, compressionRatio := 0.0)
      ensures hits == old(hits) && misses == old(misses)
    {
      memory := map[];
      order := [];
      UpdateStats();
    }
  }

  /** A value stored in memory with a lifetime is found at once, and the lookup is a hit. */
  method SetThenGet<V>(value: V) returns (r: Option<V>, rate: real)
    ensures r == Some(value) && rate == 1.0
  {
    var c := new CacheManager<V>();
    c.Set("k", value, Memory, 1000, false, 10, 5);
    r := c.Get("k", 5);
    rate := c.GetStats().hitRate;
  }

  /** After a reset the statistics say nothing is cached, whatever the memory level holds. */
  method ResetForgetsEntries<V>(value: V) returns (entries: nat, held: nat)
    ensures entries == 0 && held == 1
  {
    var c := new CacheManager<V>();
    c.Set("k", value, Memory, 1000, false, 10, 5);
    c.ResetStats();
    entries := c.GetStats().totalEntries;
    held := |c.memory|;
  }
}
