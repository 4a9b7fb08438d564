/** The cache of the outcomes of groups of executions.
    Source: task-maker-cache/src/lib.rs. */
module Caching {
  import opened Dag
  import opened CacheKeys
  import opened CacheEntries

  datatype CacheResult =
    | Miss
    | Hit(results: seq<ExecutionResult>, outputs: map<FileId, FileKey>)

  /** What the store holds while the `i`th entry of a bucket is looked at. Other
      threads may add and flush files between any two lookups of a query; but
      the handles of the files found for an entry keep them, and the first file
      that is not found ends its turn, so one set per entry tells all the
      answers the store can give. */
  type StoreView = nat -> set<FileKey>

  // The entry answers for the group: its files are in the store and its limits fit.
  ghost predicate Usable(entry: CacheEntry, group: ExecutionGroup, disk: set<FileKey>) {
    Present(entry, group, disk) && IsCompatible(entry, group)
  }

  function Revived(item: CacheEntryItem, e: Execution): (r: ExecutionResult)
    ensures RevivedFrom(item, e, r)
  {
    item.result.(status := e.Status(item.result.status, item.result.resources), wasCached := true)
  }

  /** What a hit reports of one execution: the resources it used then, and the
      status that they call for under the limits of now. */
  ghost predicate RevivedFrom(item: CacheEntryItem, e: Execution, r: ExecutionResult) {
    && r.resources == item.result.resources && r.wasKilled == item.result.wasKilled && r.wasCached
    && StatusCalledFor(item.result.status, item.result.resources, e.limits, r.status)
  }

  // One entry per execution of the key, and no two entries with the same limits.
  ghost predicate ValidBucket(key: CacheKey, bucket: seq<CacheEntry>) {
    && (forall i :: 0 <= i < |bucket| ==> |bucket[i].items| == |key|)
    && (forall i, j :: 0 <= i < j < |bucket| ==> OtherLimits(bucket[i], bucket[j]))
  }

  // The limits of some execution are not the same.
  ghost predicate OtherLimits(a: CacheEntry, b: CacheEntry) {
    |a.items| == |b.items| && exists k :: 0 <= k < |a.items| && a.items[k].limits != b.items[k].limits
  }

  /** `r` is what the first usable entry of the bucket gives. */
  ghost predicate Answers(r: CacheResult, bucket: seq<CacheEntry>, group: ExecutionGroup, stores: StoreView) {
    match r
    case Miss => forall i :: 0 <= i < |bucket| ==> !Usable(bucket[i], group, stores(i))
    case Hit(results, outputs) =>
      exists i :: 0 <= i < |bucket|
        && Usable(bucket[i], group, stores(i))
        && (forall j :: 0 <= j < i ==> !Usable(bucket[j], group, stores(j)))
        && IsRevival(bucket[i], group, results)
        && forall f :: f in outputs ==> Stores(bucket[i], group, f, outputs[f])
  }

  ghost predicate IsRevival(entry: CacheEntry, group: ExecutionGroup, results: seq<ExecutionResult>) {
    && |results| == |group.executions| == |entry.items|
    && forall k :: 0 <= k < |results| ==> RevivedFrom(entry.items[k], group.executions[k], results[k])
  }

  // What is stored under the key.
  function BucketOf(entries: map<CacheKey, seq<CacheEntry>>, key: CacheKey): seq<CacheEntry> {
    if key in entries then entries[key] else []
  }

  class Cache {
    var entries: map<CacheKey, seq<CacheEntry>>
    var dirty: bool

    ghost predicate Valid()
      reads this
    {
      forall key :: key in entries ==> ValidBucket(key, entries[key])
    }

    constructor ()
      ensures Valid() && entries == map[] && !dirty
    {
      entries, dirty := map[], false;
    }

    /** Record the results of a group. An entry with the same limits is
        replaced, so a bucket never holds two of them; no other bucket changes. */
    method Insert(group: ExecutionGroup, fileKeys: map<FileId, FileKey>, results: seq<ExecutionResult>)
      requires Valid()
      requires GroupHasKeys(group, fileKeys)
      requires forall i :: 0 <= i < |group.executions| ==> HasOutputFiles(group.executions[i], fileKeys)
      requires |results| == |group.executions|
      modifies this
      ensures Valid() && dirty
      ensures forall key :: key != KeyOf(group, fileKeys) ==> BucketOf(entries, key) == BucketOf(old(entries), key)
      ensures exists entry, pos ::
        && Recorded(BucketOf(old(entries), KeyOf(group, fileKeys)), BucketOf(entries, KeyOf(group, fileKeys)), entry, pos)
        && Records(entry, group, fileKeys, results)
      ensures forall e :: e in BucketOf(old(entries), KeyOf(group, fileKeys)) && DiffersFrom(e, group) ==>
        e in BucketOf(entries, KeyOf(group, fileKeys))
    {
      var key := KeyFromGroup(group, fileKeys);
      var bucket := BucketOf(entries, key);
      var entry := EntryFromGroup(group, fileKeys, results);
      var pos := 0;
      while pos < |bucket| && !SameLimits(bucket[pos], entry)
        invariant 0 <= pos <= |bucket|
        invariant forall j :: 0 <= j < pos ==> !SameLimits(bucket[j], entry)
      {
        pos := pos + 1;
      }
      RecordingKeepsBucket(key, bucket, entry, pos);
      if pos < |bucket| {
        entries := entries[key := bucket[pos := entry]];
      } else {
        entries := entries[key := bucket + [entry]];
      }
      dirty := true;
      assert bucket == BucketOf(old(entries), KeyOf(group, fileKeys));
      assert Recorded(BucketOf(old(entries), KeyOf(group, fileKeys)), BucketOf(entries, KeyOf(group, fileKeys)), entry, pos);
      OthersStay(bucket, BucketOf(entries, key), entry, pos, group, fileKeys, results);
    }

    /** Look for a usable entry. A hit has one result per execution and exactly
        the output files of the group. */
    method Get(group: ExecutionGroup, fileKeys: map<FileId, FileKey>, stores: StoreView) returns (r: CacheResult)
      requires Valid()
      requires GroupHasKeys(group, fileKeys)
      ensures Answers(r, BucketOf(entries, KeyOf(group, fileKeys)), group, stores)
      ensures r.Hit? ==> |r.results| == |group.executions| && r.outputs.Keys == Outs(group)
    {
      var key := KeyFromGroup(group, fileKeys);
      if key !in entries {
        return Miss;
      }
      var bucket := entries[key];
      for i := 0 to |bucket|
        invariant forall j :: 0 <= j < i ==> !Usable(bucket[j], group, stores(j))
      {
        var entry := bucket[i];
        var outputs := EntryOutputs(entry, stores(i), group);
        if outputs.Some? && IsCompatible(entry, group) {
          var results := [];
          for k := 0 to |group.executions|
            invariant |results| == k
            invariant forall l :: 0 <= l < k ==> results[l] == Revived(entry.items[l], group.executions[l])
          {
            results := results + [Revived(entry.items[k], group.executions[k])];
          }
          assert IsRevival(entry, group, results);
          AllWrites(group);
          return Hit(results, outputs.value);
        }
      }
      return Miss;
    }
  }

  lemma AllWrites(group: ExecutionGroup)
    ensures WritesUpTo(group, |group.executions|) == Outs(group)
  {
  }

  // The new bucket has `entry` at `pos`: in the place of the one with the same limits, or at the end.
  ghost predicate Recorded(before: seq<CacheEntry>, after: seq<CacheEntry>, entry: CacheEntry, pos: nat) {
    if pos < |before| then SameLimits(before[pos], entry) && after == before[pos := entry]
    else pos == |before| && after == before + [entry]
  }

  // The entry is for other limits than those of the group, in some execution.
  ghost predicate DiffersFrom(e: CacheEntry, group: ExecutionGroup) {
    exists k :: 0 <= k < |e.items| && k < |group.executions| && e.items[k].limits != group.executions[k].limits
  }

  lemma OthersStay(before: seq<CacheEntry>, after: seq<CacheEntry>, entry: CacheEntry, pos: nat, group: ExecutionGroup,
                   fileKeys: map<FileId, FileKey>, results: seq<ExecutionResult>)
    requires forall i :: 0 <= i < |group.executions| ==> HasOutputFiles(group.executions[i], fileKeys)
    requires |results| == |group.executions|
    requires Recorded(before, after, entry, pos) && Records(entry, group, fileKeys, results)
    ensures forall e :: e in before && DiffersFrom(e, group) ==> e in after
  {
    forall e | e in before && DiffersFrom(e, group) ensures e in after {
      var i :| 0 <= i < |before| && before[i] == e;
      assert i != pos ==> after[i] == e;
    }
  }

  lemma RecordingKeepsBucket(key: CacheKey, bucket: seq<CacheEntry>, entry: CacheEntry, pos: nat)
    requires ValidBucket(key, bucket) && |entry.items| == |key|
    requires pos <= |bucket|
    requires forall j :: 0 <= j < pos ==> !SameLimits(bucket[j], entry)
    requires pos < |bucket| ==> SameLimits(bucket[pos], entry)
    ensures ValidBucket(key, if pos < |bucket| then bucket[pos := entry] else bucket + [entry])
  {
    if pos < |bucket| {
      forall j | 0 <= j < |bucket| && j != pos ensures OtherLimits(entry, bucket[j]) && OtherLimits(bucket[j], entry) {
        if pos < j {
          assert OtherLimits(bucket[pos], bucket[j]);
          var k :| 0 <= k < |key| && bucket[pos].items[k].limits != bucket[j].items[k].limits;
          assert entry.items[k].limits != bucket[j].items[k].limits;
        } else {
          LimitsDiffer(bucket[j], entry);
        }
      }
    } else {
      forall j | 0 <= j < |bucket| ensures OtherLimits(bucket[j], entry) { LimitsDiffer(bucket[j], entry); }
    }
  }

  lemma LimitsDiffer(a: CacheEntry, b: CacheEntry)
    requires |a.items| == |b.items| && !SameLimits(a, b)
    ensures OtherLimits(a, b) && OtherLimits(b, a)
  {
    var k :| 0 <= k < |a.items| && a.items[k].limits != b.items[k].limits;
    assert b.items[k].limits != a.items[k].limits;
  }

  /** A hit reports each execution as a success exactly when it was cached as
      one, although its status is computed anew under the limits of the query;
      so the group as a whole succeeds exactly when it did. */
  lemma HitReportsWhatWasCached(entry: CacheEntry, group: ExecutionGroup, results: seq<ExecutionResult>)
    requires IsRevival(entry, group, results) && IsCompatible(entry, group)
    requires entry.extraTime == group.config.extraTime && entry.extraMemory == group.config.extraMemory
    requires forall i :: 0 <= i < |entry.items| ==> StoredByStatus(entry.items[i])
    ensures forall i :: 0 <= i < |results| ==> (results[i].status.Success? <==> entry.items[i].result.status.Success?)
    ensures AllSuccess(results) <==> forall i :: 0 <= i < |entry.items| ==> entry.items[i].result.status.Success?
  {
    hide StoredByStatus, NotLooser;
    forall i | 0 <= i < |results| ensures results[i].status.Success? <==> entry.items[i].result.status.Success? {
      assert RevivedFrom(entry.items[i], group.executions[i], results[i]);
      HitPreservesOutcome(entry.items[i], group.executions[i], 0.0, 0);
    }
  }

  /** What was just recorded is found again, as long as the store holds the
      output files: the bucket then contains a usable entry, so no answer other
      than a hit is possible. */
  lemma InsertThenGetHits(before: seq<CacheEntry>, after: seq<CacheEntry>, entry: CacheEntry, pos: nat,
                          group: ExecutionGroup, fileKeys: map<FileId, FileKey>, results: seq<ExecutionResult>,
                          stores: StoreView, r: CacheResult)
    requires forall i :: 0 <= i < |group.executions| ==> HasOutputFiles(group.executions[i], fileKeys)
    requires |results| == |group.executions|
    requires Recorded(before, after, entry, pos) && Records(entry, group, fileKeys, results)
    requires forall f :: f in Outs(group) ==> f in fileKeys && fileKeys[f] in stores(pos)
    requires Answers(r, after, group, stores)
    ensures r.Hit?
  {
    RecordedIsCompatible(entry, group, fileKeys, results);
    RecordedIsPresent(entry, group, fileKeys, results, stores(pos));
    assert after[pos] == entry && Usable(entry, group, stores(pos));
  }

  /** Reading what was just written: inserting results and querying the same
      group gives a hit with exactly the output files of the group. */
  method InsertThenGet(cache: Cache, group: ExecutionGroup, fileKeys: map<FileId, FileKey>,
                       results: seq<ExecutionResult>, stores: StoreView) returns (r: CacheResult)
    requires cache.Valid()
    requires GroupHasKeys(group, fileKeys)
    requires |results| == |group.executions|
    requires forall f :: f in Outs(group) ==> f in fileKeys
    requires forall n, f :: f in Outs(group) && f in fileKeys ==> fileKeys[f] in stores(n)
    modifies cache
    ensures r.Hit? && |r.results| == |group.executions| && r.outputs.Keys == Outs(group)
  {
    forall i | 0 <= i < |group.executions| ensures HasOutputFiles(group.executions[i], fileKeys) {
      var e := group.executions[i];
      assert forall p :: p in e.outputFiles ==> e.outputFiles[p] in e.Writes();
      assert forall f :: f in e.Writes() ==> f in Outs(group);
    }
    ghost var before := BucketOf(cache.entries, KeyOf(group, fileKeys));
    cache.Insert(group, fileKeys, results);
    ghost var after := BucketOf(cache.entries, KeyOf(group, fileKeys));
    ghost var entry, pos :| Recorded(before, after, entry, pos) && Records(entry, group, fileKeys, results);
    r := cache.Get(group, fileKeys, stores);
    InsertThenGetHits(before, after, entry, pos, group, fileKeys, results, stores, r);
  }
}
