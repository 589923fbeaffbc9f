/**
 * The south service's readings ingest (C/services/south/ingest.cpp): the
 * queue readings are added to, the batch swap that hands them to storage,
 * the new and discarded counters, the asset-tracking cache and the
 * statistics update that resets the counters. The two threads that drive
 * processQueue and updateStats are left out; each call is one step.
 */
module SouthIngest {
  import opened Common
  import opened PluginApi

  /** An asset tracking tuple: service, plugin, asset and event names. */
  datatype AssetTrackingTuple = AssetTrackingTuple(serviceName: string, pluginName: string, assetName: string, eventName: string)

  const IngestEvent := "Ingest"

  /** The management service's addAssetTrackingTuple: whether the tuple was stored. */
  type Management = AssetTrackingTuple -> bool
  /** The storage layer's readingAppend: whether the readings were stored. */
  type Appender = seq<Reading> -> bool
  /** The filter chain applied to a batch: what is left of it to append. */
  type FilterChain = Option<seq<Reading> -> seq<Reading>>
  /**
   * The storage layer's "UPDATE statistics SET value = value + inc WHERE
   * key = k": the result code, or None when the call throws.
   */
  type StatsStore = (string, nat) -> Option<int>

  /** toupper on one character, in the C locale. */
  function UpperChar(c: char): (r: char)
    ensures 'a' <= c <= 'z' ==> 'A' <= r <= 'Z' && r as int == c as int - 32
    ensures !('a' <= c <= 'z') ==> r == c
  {
    if 'a' <= c <= 'z' then (c as int - 32) as char else c
  }

  function Upper(s: string): (r: string)
    ensures |r| == |s|
    ensures forall i :: 0 <= i < |s| ==> r[i] == UpperChar(s[i])
  {
    if s == [] then [] else [UpperChar(s[0])] + Upper(s[1..])
  }

  /** The statistics key of an asset: "INGEST_" and the asset name, upper-cased. */
  function IngestKey(assetName: string): (r: string)
    ensures |r| == 7 + |assetName| && r[..7] == "INGEST_"
    ensures forall i :: 0 <= i < |assetName| ==> r[7 + i] == UpperChar(assetName[i])
  {
    Upper("INGEST_" + assetName)
  }

  /** A result that did not throw and is not negative. */
  predicate Written(rv: Option<int>)
  {
    rv.Some? && rv.value >= 0
  }

  class Ingest {
    /** m_queue: the readings waiting for the next processQueue. */
    var queue: seq<Reading>
    const threshold: nat
    const serviceName: string
    const pluginName: string
    var newReadings: nat
    var discardedReadings: nat
    var readingsAssetName: string
    /** assetTrackerTuplesCache, with membership by value. */
    var cache: set<AssetTrackingTuple>
    /** The readings the storage layer accepted, in the order they were appended. */
    var stored: seq<Reading>

    /**
     * The constructor: an empty queue, the counters at 0, the asset name
     * "unknown", and the cache filled from the tuples the management service
     * returns (None when that call throws).
     */
    constructor (threshold: nat, serviceName: string, pluginName: string, tuples: Option<seq<AssetTrackingTuple>>)
      ensures this.threshold == threshold && this.serviceName == serviceName && this.pluginName == pluginName
      ensures queue == [] && newReadings == 0 && discardedReadings == 0 && readingsAssetName == "unknown" && stored == []
      ensures tuples.None? ==> cache == {}
      ensures tuples.Some? ==> forall t :: t in cache <==> t in tuples.value && t.pluginName == pluginName && t.eventName == IngestEvent
    {
      this.threshold := threshold;
      this.serviceName := serviceName;
      this.pluginName := pluginName;
      queue := [];
      newReadings := 0;
      discardedReadings := 0;
      readingsAssetName := "unknown";
      cache := {};
      stored := [];
      new;
      PopulateAssetTrackingCache(tuples);
    }

    /**
     * populateAssetTrackingCache: of the tuples returned, those of this
     * plugin with the "Ingest" event are added; the others are dropped.
     */
    method PopulateAssetTrackingCache(tuples: Option<seq<AssetTrackingTuple>>)
      modifies this
      ensures tuples.None? ==> cache == old(cache)
      ensures tuples.Some? ==>
        forall t :: t in cache <==> t in old(cache) || (t in tuples.value && t.pluginName == pluginName && t.eventName == IngestEvent)
      ensures queue == old(queue) && newReadings == old(newReadings) && discardedReadings == old(discardedReadings)
      ensures readingsAssetName == old(readingsAssetName) && stored == old(stored)
    {
      if tuples.None? {
        return;
      }
      var vec := tuples.value;
      var i := 0;
      while i < |vec|
        invariant 0 <= i <= |vec|
        invariant forall t :: t in cache <==> t in old(cache) || (t in vec[..i] && t.pluginName == pluginName && t.eventName == IngestEvent)
        invariant queue == old(queue) && newReadings == old(newReadings) && discardedReadings == old(discardedReadings)
        invariant readingsAssetName == old(readingsAssetName) && stored == old(stored)
      {
        var rec := vec[i];
        assert vec[..i + 1] == vec[..i] + [rec];
        if rec.pluginName != pluginName || rec.eventName != IngestEvent {
          i := i + 1;
          continue;
        }
        cache := cache + {rec};
        i := i + 1;
      }
      assert vec[..i] == vec;
    }

    /**
     * addAssetTrackingTuple: a tuple already in the cache is left alone;
     * otherwise it is sent to the management service and cached only when
     * that succeeded.
     */
    method AddAssetTrackingTuple(tuple: AssetTrackingTuple, management: Management)
      modifies this
      ensures tuple in old(cache) ==> cache == old(cache)
      ensures tuple !in old(cache) ==> cache == if management(tuple) then old(cache) + {tuple} else old(cache)
      ensures queue == old(queue) && newReadings == old(newReadings) && discardedReadings == old(discardedReadings)
      ensures readingsAssetName == old(readingsAssetName) && stored == old(stored)
    {
      if tuple !in cache {
        var rv := management(tuple);
        if rv {
          cache := cache + {tuple};
        }
      }
    }

    /** ingest: one copy of the reading joins the queue; the queue is signalled once it reaches the threshold. */
    method IngestReading(reading: Reading) returns (notify: bool)
      modifies this
      ensures queue == old(queue) + [reading]
      ensures notify <==> |queue| >= threshold
      ensures cache == old(cache) && newReadings == old(newReadings) && discardedReadings == old(discardedReadings)
      ensures readingsAssetName == old(readingsAssetName) && stored == old(stored)
    {
      queue := queue + [reading];
      notify := |queue| >= threshold;
    }

    /**
     * processQueue: the whole queue becomes the batch and an empty queue is
     * left behind; the first reading names the asset; every asset in the
     * batch that is not tracked yet is offered to the management service;
     * what the filters leave of the batch is appended, and its size is added
     * to the discarded counter when a non-empty append fails, to the new
     * counter otherwise.
     */
    method ProcessQueue(management: Management, filters: FilterChain, append: Appender) returns (data: seq<Reading>)
      modifies this
      ensures queue == []
      ensures data == if filters.Some? then filters.value(old(queue)) else old(queue)
      ensures old(queue) != [] ==> readingsAssetName == old(queue)[0].asset
      ensures old(queue) == [] ==> readingsAssetName == old(readingsAssetName)
      ensures forall t :: t in cache <==>
        t in old(cache) ||
        (exists r :: r in old(queue) && t == AssetTrackingTuple(serviceName, pluginName, r.asset, IngestEvent) && management(t))
      ensures data != [] && !append(data) ==>
        discardedReadings == old(discardedReadings) + |data| && newReadings == old(newReadings) && stored == old(stored)
      ensures data == [] || append(data) ==>
        newReadings == old(newReadings) + |data| && discardedReadings == old(discardedReadings) && stored == old(stored) + data
      ensures newReadings + discardedReadings == old(newReadings) + old(discardedReadings) + |data|
    {
      var batch := queue;
      queue := [];
      if batch != [] {
        readingsAssetName := batch[0].asset;
      }
      var i := 0;
      while i < |batch|
        invariant 0 <= i <= |batch|
        invariant queue == [] && newReadings == old(newReadings) && discardedReadings == old(discardedReadings)
        invariant stored == old(stored) && batch == old(queue)
        invariant batch != [] ==> readingsAssetName == batch[0].asset
        invariant batch == [] ==> readingsAssetName == old(readingsAssetName)
        invariant forall t :: t in cache <==>
          t in old(cache) ||
          (exists r :: r in batch[..i] && t == AssetTrackingTuple(serviceName, pluginName, r.asset, IngestEvent) && management(t))
      {
        var tuple := AssetTrackingTuple(serviceName, pluginName, batch[i].asset, IngestEvent);
        assert batch[..i + 1] == batch[..i] + [batch[i]];
        if tuple !in cache {
          AddAssetTrackingTuple(tuple, management);
        }
        i := i + 1;
      }
      assert batch[..i] == batch;
      data := if filters.Some? then filters.value(batch) else batch;
      if data != [] && !append(data) {
        discardedReadings := discardedReadings + |data|;
      } else {
        newReadings := newReadings + |data|;
        if data != [] {
          stored := stored + data;
        }
      }
    }

    /**
     * updateStats: with both counters at 0 nothing is done. Otherwise the
     * asset's row and the READINGS row are increased by the new readings,
     * and the DISCARDED row by the discarded ones; a counter returns to 0
     * only when its last update returned a non-negative result, and a
     * throwing update abandons the rest.
     */
    method UpdateStats(store: StatsStore)
      modifies this
      ensures old(newReadings) == 0 && old(discardedReadings) == 0 ==>
        newReadings == 0 && discardedReadings == 0
      ensures newReadings == 0 || newReadings == old(newReadings)
      ensures discardedReadings == 0 || discardedReadings == old(discardedReadings)
      ensures old(newReadings) != 0 ==>
        (newReadings == 0 <==>
           store(IngestKey(readingsAssetName), old(newReadings)).Some? && Written(store("READINGS", old(newReadings))))
      ensures old(discardedReadings) != 0 ==>
        (discardedReadings == 0 <==>
           (old(newReadings) == 0 ||
            (store(IngestKey(readingsAssetName), old(newReadings)).Some? && store("READINGS", old(newReadings)).Some?)) &&
           Written(store("DISCARDED", old(discardedReadings))))
      ensures queue == old(queue) && cache == old(cache) && readingsAssetName == old(readingsAssetName) && stored == old(stored)
    {
      if newReadings == 0 && discardedReadings == 0 {
        return;
      }
      if newReadings != 0 {
        var rv := store(IngestKey(readingsAssetName), newReadings);
        if rv.None? {
          return;
        }
        rv := store("READINGS", newReadings);
        if rv.None? {
          return;
        }
        if rv.value >= 0 {
          newReadings := 0;
        }
      }
      if discardedReadings != 0 {
        var rv := store("DISCARDED", discardedReadings);
        if rv.None? {
          return;
        }
        if rv.value >= 0 {
          discardedReadings := 0;
        }
      }
    }
  }

  /** The statistics key is the same for an asset name in any letter case. */
  lemma {:induction false} IngestKeyIgnoresCase(a: string, b: string)
    requires |a| == |b| && forall i :: 0 <= i < |a| ==> UpperChar(a[i]) == UpperChar(b[i])
    ensures IngestKey(a) == IngestKey(b)
  {
    var ka, kb := IngestKey(a), IngestKey(b);
    assert forall i :: 0 <= i < 7 ==> ka[i] == kb[i] by {
      assert ka[..7] == kb[..7];
    }
    assert forall i :: 7 <= i < |ka| ==> ka[i] == kb[i] by {
      forall i | 7 <= i < |ka|
        ensures ka[i] == kb[i]
      {
        assert ka[7 + (i - 7)] == UpperChar(a[i - 7]);
      }
    }
  }
}
