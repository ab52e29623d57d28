// Multi-device synchronisation: a queue of versioned items waiting to be
// pushed, conflicts detected while syncing and their resolution
// (automatic by strategy, or manual), and the counters of the sync state.
// The server round trip is simulated in the source by a random draw per
// item; the draws and the clock are parameters here, and identifier and
// checksum generation are supplied by the caller.
module Sync {
  import opened Util

  /** The JSON-like payload of an item. */
  datatype Value = Null | Bool(b: bool) | Num(n: real) | Str(s: string) | Obj(fields: map<string, Value>)

  datatype SyncType = Full | Incremental | ConflictResolution | ForcePush | ForcePull

  datatype SyncStatus = Idle | Syncing | Success | ErrorState | ConflictState | Offline

  datatype SyncedDataType = UserProfile | GameProgress | Achievements | Settings | Friends | Scores
    | CustomContent | LearningData

  datatype Strategy = ClientWins | ServerWins | LastModifiedWins | ManualResolution | MergeSmart

  datatype ItemStatus = Pending | ItemSyncing | Synced | ItemConflict | ItemError | Deleted

  datatype ConflictType = UpdateUpdate | UpdateDelete | DeleteUpdate | SchemaMismatch

  datatype Resolution = Resolution(strategy: Strategy, resolvedData: Value, resolvedBy: string, resolvedAt: int,
    notes: Option<string>)

  datatype ConflictData = ConflictData(clientVersion: Value, serverVersion: Value, conflictType: ConflictType,
    detectedAt: int, resolvedAt: Option<int>, resolution: Option<Resolution>)

  datatype SyncItem = SyncItem(
    id: string,
    dataType: SyncedDataType,
    data: Value,
    version: int,
    lastModified: int,
    checksum: string,
    syncStatus: ItemStatus,
    lastSyncAt: Option<int>,
    syncRetries: nat,
    conflictData: Option<ConflictData>)

  datatype SyncError = SyncError(code: string, message: string, timestamp: int, recoverable: bool)

  datatype SyncConfiguration = SyncConfiguration(
    enabled: bool,
    autoSync: bool,
    syncInterval: int,
    conflictResolution: Strategy,
    maxConflictAge: int,
    batchSize: int,
    maxRetries: int,
    retryDelay: int)

  const DefaultConfiguration := SyncConfiguration(true, true, 15, LastModifiedWins, 24, 100, 3, 1000)

  datatype SyncState = SyncState(
    status: SyncStatus,
    lastSync: int,
    nextSync: int,
    totalItems: nat,
    syncedItems: nat,
    pendingItems: nat,
    conflictItems: nat,
    errorItems: nat,
    averageSyncTime: real,
    lastSyncDuration: int)

  const InitialState := SyncState(Idle, 0, 0, 0, 0, 0, 0, 0, 0.0, 0)

  const DisabledMessage := "Synchronisation désactivée"
  const AlreadySyncingMessage := "Synchronisation déjà en cours"
  const ConflictNotFoundMessage := "Conflit introuvable"
  const ItemErrorCode := "SYNC_ITEM_ERROR"
  const ItemErrorText := "Erreur lors de la synchronisation de l'élément "

  // ---- counters -----------------------------------------------------------

  function CountStatus(queue: seq<SyncItem>, s: ItemStatus): (n: nat)
    ensures n <= |queue|
  {
    if queue == [] then 0
    else CountStatus(queue[..|queue| - 1], s) + (if queue[|queue| - 1].syncStatus == s then 1 else 0)
  }

  /** Every item has exactly one status, so the per-status counts add up to the queue length. */
  lemma {:induction false} CountsPartition(queue: seq<SyncItem>)
    ensures CountStatus(queue, Pending) + CountStatus(queue, ItemSyncing) + CountStatus(queue, Synced) +
      CountStatus(queue, ItemConflict) + CountStatus(queue, ItemError) + CountStatus(queue, Deleted) == |queue|
  {
    if queue != [] {
      CountsPartition(queue[..|queue| - 1]);
    }
  }

  /** updateSyncCounts: the counters recomputed from the queue and the conflict list. */
  function WithCounts(st: SyncState, queue: seq<SyncItem>, conflicts: seq<ConflictData>): (r: SyncState)
    ensures Counted(r, queue, conflicts)
    ensures r.syncedItems + r.pendingItems + r.errorItems <= r.totalItems
    ensures r.(totalItems := st.totalItems, syncedItems := st.syncedItems, pendingItems := st.pendingItems,
      conflictItems := st.conflictItems, errorItems := st.errorItems) == st
  {
    CountsPartition(queue);
    st.(totalItems := |queue|,
        syncedItems := CountStatus(queue, Synced),
        pendingItems := CountStatus(queue, Pending),
        conflictItems := |conflicts|,
        errorItems := CountStatus(queue, ItemError))
  }

  /** The counters of `st` describe the queue and the conflicts. */
  predicate Counted(st: SyncState, queue: seq<SyncItem>, conflicts: seq<ConflictData>)
  {
    && st.totalItems == |queue|
    && st.syncedItems == CountStatus(queue, Synced)
    && st.pendingItems == CountStatus(queue, Pending)
    && st.conflictItems == |conflicts|
    && st.errorItems == CountStatus(queue, ItemError)
  }

  // ---- item selection ------------------------------------------------------

  /** `resolvedAt` set and truthy (a 0 timestamp counts as unset). */
  predicate HasResolvedAt(c: Option<ConflictData>)
  {
    c.Some? && c.value.resolvedAt.Some? && c.value.resolvedAt.value != 0
  }

  /** Whether an item of the queue is one the sync type works on (the queue's own items, not copies). */
  predicate Picks(t: SyncType, item: SyncItem)
  {
    match t
    case Full => true
    case Incremental => item.syncStatus == Pending || item.syncStatus == ItemError
    case ConflictResolution => item.syncStatus == ItemConflict && HasResolvedAt(item.conflictData)
    case ForcePush => false
    case ForcePull => false
  }

  function Picked(queue: seq<SyncItem>, t: SyncType): (r: seq<SyncItem>)
    ensures |r| <= |queue|
  {
    if queue == [] then []
    else Picked(queue[..|queue| - 1], t) + (if Picks(t, queue[|queue| - 1]) then [queue[|queue| - 1]] else [])
  }

  /** The selection keeps the queue's order, and each selected item as often as it is queued. */
  lemma {:induction false} PickedKeeps(queue: seq<SyncItem>, t: SyncType)
    ensures Sublist(Picked(queue, t), queue)
    ensures forall x :: multiset(Picked(queue, t))[x] == if Picks(t, x) then multiset(queue)[x] else 0
  {
    if queue != [] {
      var init, last := queue[..|queue| - 1], queue[|queue| - 1];
      PickedKeeps(init, t);
      assert queue == init + [last];
      if Picks(t, last) {
        SublistSnocBoth(Picked(init, t), init, last);
      } else {
        assert Picked(queue, t) == Picked(init, t);
        SublistSnocRight(Picked(init, t), init, last);
      }
    }
  }

  lemma {:induction false} PickedIff(queue: seq<SyncItem>, t: SyncType, x: SyncItem)
    ensures x in Picked(queue, t) <==> x in queue && Picks(t, x)
  {
    if queue != [] {
      PickedIff(queue[..|queue| - 1], t, x);
      assert queue == queue[..|queue| - 1] + [queue[|queue| - 1]];
    }
  }

  lemma {:induction false} PickedAll(queue: seq<SyncItem>)
    ensures Picked(queue, Full) == queue
  {
    if queue != [] {
      PickedAll(queue[..|queue| - 1]);
      assert queue == queue[..|queue| - 1] + [queue[|queue| - 1]];
    }
  }

  /** The types whose selected items are the queue's own objects, so that syncing updates the queue. */
  predicate SharesQueueItems(t: SyncType)
  {
    t == Full || t == Incremental || t == ConflictResolution
  }

  /** prepareItemsForSync; FORCE_PULL asks the server, which has nothing in this system. */
  function PrepareItems(queue: seq<SyncItem>, t: SyncType): (r: seq<SyncItem>)
    ensures |r| <= |queue|
    ensures t == ForcePush ==> |r| == |queue| && forall i :: 0 <= i < |r| ==> r[i] == queue[i].(syncStatus := Pending)
    ensures t == ForcePull ==> r == []
    ensures SharesQueueItems(t) ==> r == Picked(queue, t)
  {
    match t
    case ForcePush => seq(|queue|, i requires 0 <= i < |queue| => queue[i].(syncStatus := Pending))
    case ForcePull => []
    case _ => Picked(queue, t)
  }

  /** What each sync type selects, as membership. */
  lemma PrepareItemsFacts(queue: seq<SyncItem>, x: SyncItem)
    ensures PrepareItems(queue, Full) == queue
    ensures x in PrepareItems(queue, Incremental) <==> x in queue && (x.syncStatus == Pending || x.syncStatus == ItemError)
    ensures x in PrepareItems(queue, ConflictResolution) <==>
      x in queue && x.syncStatus == ItemConflict && HasResolvedAt(x.conflictData)
  {
    PickedAll(queue);
    PickedIff(queue, Incremental, x);
    PickedIff(queue, ConflictResolution, x);
  }

  /**
   * The queue after the selected items were synced in place: the
   * `processed` versions replace the picked items, in order, and the
   * other items stay.
   */
  function WriteBack(queue: seq<SyncItem>, t: SyncType, processed: seq<SyncItem>): (r: seq<SyncItem>)
    requires |processed| == |Picked(queue, t)|
    ensures |r| == |queue|
  {
    if queue == [] then []
    else
      var init, last := queue[..|queue| - 1], queue[|queue| - 1];
      if Picks(t, last) then WriteBack(init, t, processed[..|processed| - 1]) + [processed[|processed| - 1]]
      else WriteBack(init, t, processed) + [last]
  }

  lemma {:induction false} WriteBackKeeps(queue: seq<SyncItem>, t: SyncType, processed: seq<SyncItem>, j: int)
    requires |processed| == |Picked(queue, t)|
    requires 0 <= j < |queue| && !Picks(t, queue[j])
    ensures WriteBack(queue, t, processed)[j] == queue[j]
  {
    var init, last := queue[..|queue| - 1], queue[|queue| - 1];
    if j < |queue| - 1 {
      assert init[j] == queue[j];
      if Picks(t, last) {
        WriteBackKeeps(init, t, processed[..|processed| - 1], j);
      } else {
        WriteBackKeeps(init, t, processed, j);
      }
    }
  }

  /** Writing back the picked items unchanged gives the queue back. */
  lemma {:induction false} WriteBackIdentity(queue: seq<SyncItem>, t: SyncType)
    ensures WriteBack(queue, t, Picked(queue, t)) == queue
  {
    if queue != [] {
      var init, last := queue[..|queue| - 1], queue[|queue| - 1];
      WriteBackIdentity(init, t);
      var p := Picked(queue, t);
      if Picks(t, last) {
        assert p == Picked(init, t) + [last];
        assert p[..|p| - 1] == Picked(init, t);
        assert WriteBack(queue, t, p) == WriteBack(init, t, Picked(init, t)) + [last];
      } else {
        assert p == Picked(init, t);
        assert WriteBack(queue, t, p) == WriteBack(init, t, Picked(init, t)) + [last];
      }
      assert queue == init + [last];
    }
  }

  // ---- the simulated server round trip ----------------------------------

  datatype Outcome = Conflicted | Failed | Accepted

  /**
   * The classification syncBatch applies to its random draw as written:
   * below 0.1 a conflict, else below 0.05 an error, else success. The
   * second test can never hold once the first failed.
   */
  function ClassifyAsWritten(draw: real): (o: Outcome)
  {
    if draw < 0.1 then Conflicted else if draw < 0.05 then Failed else Accepted
  }

  lemma AsWrittenNeverFails(draw: real)
    ensures ClassifyAsWritten(draw) != Failed
    ensures ClassifyAsWritten(draw) == Conflicted <==> draw < 0.1
  {
  }

  /** The intended split of the draws in [0, 1): 10% conflicts, the next 5% errors, the rest success. */
  function Classify(draw: real): (o: Outcome)
    ensures o == Conflicted <==> draw < 0.1
    ensures o == Failed <==> 0.1 <= draw < 0.15
    ensures o == Accepted <==> draw >= 0.15
  {
    if draw < 0.1 then Conflicted else if draw < 0.15 then Failed else Accepted
  }

  /** Every outcome is reachable, each on an interval of the stated width. */
  lemma ClassifyReachesEveryOutcome()
    ensures Classify(0.05) == Conflicted && Classify(0.12) == Failed && Classify(0.5) == Accepted
    ensures ClassifyAsWritten(0.12) == Accepted
  {
  }

  /** `{ ...data, serverModified: true }` for an object payload; other payloads spread to no fields. */
  function ServerCopy(data: Value): (r: Value)
    ensures r.Obj? && "serverModified" in r.fields && r.fields["serverModified"] == Bool(true)
    ensures data.Obj? ==> forall k :: k in data.fields && k != "serverModified" ==> k in r.fields && r.fields[k] == data.fields[k]
  {
    if data.Obj? then Obj(data.fields["serverModified" := Bool(true)]) else Obj(map["serverModified" := Bool(true)])
  }

  /** One item through the simulated round trip. */
  function SyncOne(item: SyncItem, draw: real, now: int): (r: SyncItem)
    ensures r.id == item.id && r.data == item.data && r.version == item.version
    ensures r.syncStatus == Synced <==> Classify(draw) == Accepted
    ensures r.syncStatus == ItemConflict <==> Classify(draw) == Conflicted
    ensures r.syncStatus == ItemError <==> Classify(draw) == Failed
    ensures r.syncStatus == ItemConflict ==> r.conflictData.Some? && r.conflictData.value.detectedAt == now
    ensures r.syncStatus == ItemError ==> r.syncRetries == item.syncRetries + 1
  {
    match Classify(draw)
    case Conflicted =>
      item.(syncStatus := ItemConflict,
            conflictData := Some(ConflictData(item.data, ServerCopy(item.data), UpdateUpdate, now, None, None)))
    case Failed => item.(syncStatus := ItemError, syncRetries := item.syncRetries + 1)
    case Accepted => item.(syncStatus := Synced, lastSyncAt := Some(now))
  }

  function ItemErrorFor(item: SyncItem, now: int): SyncError
  {
    SyncError(ItemErrorCode, ItemErrorText + item.id, now, true)
  }

  /** The synced items among processed ones, in order. */
  function SyncedOf(processed: seq<SyncItem>): (r: seq<SyncItem>)
    ensures |r| <= |processed|
  {
    if processed == [] then []
    else
      var last := processed[|processed| - 1];
      SyncedOf(processed[..|processed| - 1]) + (if last.syncStatus == Synced then [last] else [])
  }

  /** The conflicts detected on processed items, in order. */
  function ConflictsOf(processed: seq<SyncItem>): (r: seq<ConflictData>)
    ensures |r| <= |processed|
  {
    if processed == [] then []
    else
      var last := processed[|processed| - 1];
      ConflictsOf(processed[..|processed| - 1]) +
        (if last.syncStatus == ItemConflict && last.conflictData.Some? then [last.conflictData.value] else [])
  }

  /** The errors raised for processed items, in order. */
  function ErrorsOf(processed: seq<SyncItem>, now: int): (r: seq<SyncError>)
    ensures |r| <= |processed|
  {
    if processed == [] then []
    else
      var last := processed[|processed| - 1];
      ErrorsOf(processed[..|processed| - 1], now) + (if last.syncStatus == ItemError then [ItemErrorFor(last, now)] else [])
  }

  lemma OutcomesAppend(a: seq<SyncItem>, b: seq<SyncItem>, now: int)
    ensures SyncedOf(a + b) == SyncedOf(a) + SyncedOf(b)
    ensures ConflictsOf(a + b) == ConflictsOf(a) + ConflictsOf(b)
    ensures ErrorsOf(a + b, now) == ErrorsOf(a, now) + ErrorsOf(b, now)
  {
    SyncedAppend(a, b);
    ConflictsAppend(a, b);
    ErrorsAppend(a, b, now);
  }

  lemma {:induction false} SyncedAppend(a: seq<SyncItem>, b: seq<SyncItem>)
    ensures SyncedOf(a + b) == SyncedOf(a) + SyncedOf(b)
    decreases |b|
  {
    if b == [] {
      assert a + b == a;
    } else {
      var init, last := b[..|b| - 1], b[|b| - 1];
      SyncedAppend(a, init);
      assert (a + b)[..|a + b| - 1] == a + init;
    }
  }

  lemma {:induction false} ConflictsAppend(a: seq<SyncItem>, b: seq<SyncItem>)
    ensures ConflictsOf(a + b) == ConflictsOf(a) + ConflictsOf(b)
    decreases |b|
  {
    if b == [] {
      assert a + b == a;
    } else {
      var init, last := b[..|b| - 1], b[|b| - 1];
      ConflictsAppend(a, init);
      assert (a + b)[..|a + b| - 1] == a + init;
    }
  }

  lemma {:induction false} ErrorsAppend(a: seq<SyncItem>, b: seq<SyncItem>, now: int)
    ensures ErrorsOf(a + b, now) == ErrorsOf(a, now) + ErrorsOf(b, now)
    decreases |b|
  {
    if b == [] {
      assert a + b == a;
    } else {
      var init, last := b[..|b| - 1], b[|b| - 1];
      ErrorsAppend(a, init, now);
      assert (a + b)[..|a + b| - 1] == a + init;
    }
  }

  /** One more processed item extends each list by what that item produced. */
  lemma OutcomesStep(p: seq<SyncItem>, item: SyncItem, now: int)
    ensures SyncedOf(p + [item]) == SyncedOf(p) + (if item.syncStatus == Synced then [item] else [])
    ensures ConflictsOf(p + [item]) == ConflictsOf(p) +
      (if item.syncStatus == ItemConflict && item.conflictData.Some? then [item.conflictData.value] else [])
    ensures ErrorsOf(p + [item], now) == ErrorsOf(p, now) + (if item.syncStatus == ItemError then [ItemErrorFor(item, now)] else [])
  {
    assert (p + [item])[..|p|] == p;
  }

  /** Every processed item is synced, conflicted or failed: the three lists account for all of them. */
  lemma {:induction false} OutcomesPartition(items: seq<SyncItem>, draws: seq<real>, now: int)
    requires |draws| == |items|
    ensures var p := ProcessAll(items, draws, now);
      |SyncedOf(p)| + |ConflictsOf(p)| + |ErrorsOf(p, now)| == |items|
  {
    var p := ProcessAll(items, draws, now);
    if items != [] {
      var init := items[..|items| - 1];
      OutcomesPartition(init, draws[..|items| - 1], now);
      assert p[..|p| - 1] == ProcessAll(init, draws[..|items| - 1], now);
    }
  }

  /** Each item processed with its own draw. */
  function ProcessAll(items: seq<SyncItem>, draws: seq<real>, now: int): (r: seq<SyncItem>)
    requires |draws| == |items|
    ensures |r| == |items|
  {
    if items == [] then []
    else
      var n := |items| - 1;
      ProcessAll(items[..n], draws[..n], now) + [SyncOne(items[n], draws[n], now)]
  }

  /** Item k of the result is item k of the input after the round trip with draw k. */
  lemma {:induction false} ProcessAllAt(items: seq<SyncItem>, draws: seq<real>, now: int, k: int)
    requires |draws| == |items| && 0 <= k < |items|
    ensures ProcessAll(items, draws, now)[k] == SyncOne(items[k], draws[k], now)
  {
    var n := |items| - 1;
    if k < n {
      ProcessAllAt(items[..n], draws[..n], now, k);
    }
  }

  /** Processing one more item appends its round trip. */
  lemma ProcessAllStep(items: seq<SyncItem>, draws: seq<real>, now: int, k: int)
    requires |draws| == |items| && 0 <= k < |items|
    ensures ProcessAll(items[..k + 1], draws[..k + 1], now) ==
      ProcessAll(items[..k], draws[..k], now) + [SyncOne(items[k], draws[k], now)]
  {
    assert items[..k + 1][..k] == items[..k];
    assert draws[..k + 1][..k] == draws[..k];
  }

  /**
   * syncBatch: each item of the batch is classified by its draw and updated
   * in place; the synced items, the new conflicts and the errors are
   * collected in order.
   */
  method SyncBatch(batch: seq<SyncItem>, draws: seq<real>, now: int)
    returns (updated: seq<SyncItem>, synced: seq<SyncItem>, conflicts: seq<ConflictData>, errors: seq<SyncError>)
    requires |draws| == |batch|
    ensures updated == ProcessAll(batch, draws, now)
    ensures synced == SyncedOf(updated) && conflicts == ConflictsOf(updated) && errors == ErrorsOf(updated, now)
  {
    updated, synced, conflicts, errors := [], [], [], [];
    var k := 0;
    while k < |batch|
      invariant 0 <= k <= |batch|
      invariant updated == ProcessAll(batch[..k], draws[..k], now)
      invariant synced == SyncedOf(updated) && conflicts == ConflictsOf(updated) && errors == ErrorsOf(updated, now)
    {
      var item := batch[k];
      var random := draws[k];
      ghost var before := updated;
      if random < 0.1 {
        var conflict := ConflictData(item.data, ServerCopy(item.data), UpdateUpdate, now, None, None);
        item := item.(syncStatus := ItemConflict, conflictData := Some(conflict));
        conflicts := conflicts + [conflict];
      } else if random < 0.15 {
        item := item.(syncStatus := ItemError, syncRetries := item.syncRetries + 1);
        errors := errors + [ItemErrorFor(item, now)];
      } else {
        item := item.(syncStatus := Synced, lastSyncAt := Some(now));
        synced := synced + [item];
      }
      assert item == SyncOne(batch[k], random, now);
      ProcessAllStep(batch, draws, now, k);
      updated := updated + [item];
      OutcomesStep(before, item, now);
      k := k + 1;
    }
    assert batch[..k] == batch && draws[..k] == draws;
  }

  // ---- conflict resolution ------------------------------------------------

  /** `version?.lastModified || 0`: a numeric, non-zero lastModified field, else 0. */
  function LastModifiedOf(v: Value): real
  {
    if v.Obj? && "lastModified" in v.fields && v.fields["lastModified"].Num? then v.fields["lastModified"].n else 0.0
  }

  const ServerPreferredFields: seq<string> := ["id", "createdAt", "permissions"]

  /**
   * smartMerge: for two objects, the server's fields overridden by the
   * client's, except that id, createdAt and permissions keep the server's
   * value where the server has one. Anything but two objects gives no
   * merge (a null on the server side fails and is caught, a null client
   * spreads to nothing).
   */
  function SmartMerge(client: Value, server: Value): (r: Option<Value>)
    ensures r.Some? <==> (client.Obj? || client.Null?) && server.Obj?
    ensures r.Some? ==> r.value.Obj?
  {
    if (client.Obj? || client.Null?) && server.Obj? then
      var clientFields := if client.Obj? then client.fields else map[];
      var merged := server.fields + clientFields;
      var kept := map k | k in merged :: if k in ServerPreferredFields && k in server.fields then server.fields[k] else merged[k];
      Some(Obj(kept))
    else None
  }

  /** The merged object has every field of either side, the client's values override except on the preferred fields. */
  lemma SmartMergeFields(client: map<string, Value>, server: map<string, Value>, k: string)
    ensures var r := SmartMerge(Obj(client), Obj(server)).value.fields;
      && (k in r <==> k in client || k in server)
      && (k in server && k in ServerPreferredFields ==> r[k] == server[k])
      && (k in client && !(k in server && k in ServerPreferredFields) ==> r[k] == client[k])
      && (k in server && k !in client ==> r[k] == server[k])
  {
  }

  /** Last-modified-wins: the client only when it was modified strictly later. */
  function LastModifiedWinner(conflict: ConflictData): Value
  {
    if LastModifiedOf(conflict.clientVersion) > LastModifiedOf(conflict.serverVersion) then conflict.clientVersion
    else conflict.serverVersion
  }

  /**
   * createAutoResolution: the configured strategy's pick, by 'system' at
   * `now`; last-modified-wins gives the server the tie; manual resolution
   * (and a merge that is not possible) gives none.
   */
  function AutoResolution(strategy: Strategy, conflict: ConflictData, now: int): (r: Option<Resolution>)
    ensures r.Some? ==> r.value.strategy == strategy && r.value.resolvedBy == "system" && r.value.resolvedAt == now
    ensures strategy == ClientWins ==> r.Some? && r.value.resolvedData == conflict.clientVersion
    ensures strategy == ServerWins ==> r.Some? && r.value.resolvedData == conflict.serverVersion
    ensures strategy == LastModifiedWins ==>
      (r.Some? && r.value.resolvedData == LastModifiedWinner(conflict))
    ensures strategy == ManualResolution ==> r.None?
    ensures strategy == MergeSmart ==> (r.Some? <==> SmartMerge(conflict.clientVersion, conflict.serverVersion).Some?)
  {
    match strategy
    case ClientWins =>
      Some(Resolution(strategy, conflict.clientVersion, "system", now, Some("Résolution automatique : version client")))
    case ServerWins =>
      Some(Resolution(strategy, conflict.serverVersion, "system", now, Some("Résolution automatique : version serveur")))
    case LastModifiedWins =>
      var clientWins := LastModifiedOf(conflict.clientVersion) > LastModifiedOf(conflict.serverVersion);
      Some(Resolution(strategy, LastModifiedWinner(conflict), "system", now,
        Some("Résolution automatique : version " + (if clientWins then "client" else "serveur") + " plus récente")))
    case MergeSmart =>
      (match SmartMerge(conflict.clientVersion, conflict.serverVersion)
       case Some(merged) => Some(Resolution(strategy, merged, "system", now, Some("Résolution automatique : fusion intelligente")))
       case None => None)
    case ManualResolution => None
  }

  /** Equal modification times resolve to the server's version. */
  lemma LastModifiedTieGoesToServer(conflict: ConflictData, now: int)
    requires LastModifiedOf(conflict.clientVersion) == LastModifiedOf(conflict.serverVersion)
    ensures AutoResolution(LastModifiedWins, conflict, now).value.resolvedData == conflict.serverVersion
  {
  }

  /** cleanupOldConflicts: a conflict stays when it is recent or still unresolved. */
  predicate KeepsConflict(c: ConflictData, cutoff: int)
  {
    c.detectedAt > cutoff || !(c.resolvedAt.Some? && c.resolvedAt.value != 0)
  }

  function CleanupOld(conflicts: seq<ConflictData>, now: int, maxAgeHours: int): (r: seq<ConflictData>)
    ensures |r| <= |conflicts|
  {
    if conflicts == [] then []
    else
      var last := conflicts[|conflicts| - 1];
      CleanupOld(conflicts[..|conflicts| - 1], now, maxAgeHours) +
        (if KeepsConflict(last, now - maxAgeHours * 3600000) then [last] else [])
  }

  lemma {:induction false} CleanupOldIff(conflicts: seq<ConflictData>, now: int, maxAgeHours: int, c: ConflictData)
    ensures c in CleanupOld(conflicts, now, maxAgeHours) <==>
      c in conflicts && (c.detectedAt > now - maxAgeHours * 3600000 || !(c.resolvedAt.Some? && c.resolvedAt.value != 0))
  {
    if conflicts != [] {
      CleanupOldIff(conflicts[..|conflicts| - 1], now, maxAgeHours, c);
      assert conflicts == conflicts[..|conflicts| - 1] + [conflicts[|conflicts| - 1]];
    }
  }

  /** The identifiers of the conflicts: each one's `detectedAt.toString()`. */
  function ConflictIds(conflicts: seq<ConflictData>): (r: seq<string>)
    ensures |r| == |conflicts|
  {
    if conflicts == [] then []
    else ConflictIds(conflicts[..|conflicts| - 1]) + [IntToString(conflicts[|conflicts| - 1].detectedAt)]
  }

  lemma {:induction false} ConflictIdsAt(conflicts: seq<ConflictData>, i: int)
    requires 0 <= i < |conflicts|
    ensures ConflictIds(conflicts)[i] == IntToString(conflicts[i].detectedAt)
  {
    if i < |conflicts| - 1 {
      ConflictIdsAt(conflicts[..|conflicts| - 1], i);
    }
  }

  /** The first position holding `key`. */
  function FindKey(keys: seq<string>, key: string): (r: Option<nat>)
    ensures r.Some? ==> r.value < |keys| && keys[r.value] == key
    ensures r.Some? ==> forall j :: 0 <= j < r.value ==> keys[j] != key
    ensures r.None? ==> forall j :: 0 <= j < |keys| ==> keys[j] != key
  {
    if keys == [] then None
    else if keys[0] == key then Some(0)
    else match FindKey(keys[1..], key)
      case None => None
      case Some(k) => Some(k + 1)
  }

  /** The first conflict whose identifier is `conflictId`, as findIndex looks it up. */
  function FindConflict(conflicts: seq<ConflictData>, conflictId: string): (r: Option<nat>)
    ensures r.Some? ==> r.value < |conflicts|
  {
    FindKey(ConflictIds(conflicts), conflictId)
  }

  /** A conflict is found exactly when one has the identifier, and the first such one is found. */
  lemma FindConflictFacts(conflicts: seq<ConflictData>, conflictId: string)
    ensures var r := FindConflict(conflicts, conflictId);
      && (r.Some? ==> IntToString(conflicts[r.value].detectedAt) == conflictId)
      && (r.Some? ==> forall j :: 0 <= j < r.value ==> IntToString(conflicts[j].detectedAt) != conflictId)
      && (r.None? ==> forall j :: 0 <= j < |conflicts| ==> IntToString(conflicts[j].detectedAt) != conflictId)
  {
    var r := FindConflict(conflicts, conflictId);
    forall j | 0 <= j < |conflicts|
      ensures ConflictIds(conflicts)[j] == IntToString(conflicts[j].detectedAt)
    {
      ConflictIdsAt(conflicts, j);
    }
  }

  predicate CarriesConflict(item: SyncItem, detectedAt: int)
  {
    item.conflictData.Some? && item.conflictData.value.detectedAt == detectedAt
  }

  /** The first queue item carrying conflict data detected at `detectedAt`. */
  function FindConflictedItem(queue: seq<SyncItem>, detectedAt: int): (r: Option<nat>)
    ensures r.Some? ==> r.value < |queue| && CarriesConflict(queue[r.value], detectedAt)
    ensures r.None? ==> forall j :: 0 <= j < |queue| ==> !CarriesConflict(queue[j], detectedAt)
  {
    if queue == [] then None
    else if CarriesConflict(queue[0], detectedAt) then Some(0)
    else match FindConflictedItem(queue[1..], detectedAt)
      case None => None
      case Some(k) => Some(k + 1)
  }

  /** The first queue item with the identifier, as findIndex looks it up. */
  function FindItem(queue: seq<SyncItem>, id: string): (r: Option<nat>)
    ensures r.Some? ==> r.value < |queue| && queue[r.value].id == id
    ensures r.None? ==> forall j :: 0 <= j < |queue| ==> queue[j].id != id
  {
    if queue == [] then None
    else if queue[0].id == id then Some(0)
    else match FindItem(queue[1..], id)
      case None => None
      case Some(k) => Some(k + 1)
  }

  /** The status a finished run ends in: success without errors, else conflict when there were conflicts, else error. */
  function FinalStatus(errors: seq<SyncError>, conflicts: seq<ConflictData>): (s: SyncStatus)
    ensures s == Success <==> errors == []
    ensures s == ConflictState <==> errors != [] && conflicts != []
    ensures s == ErrorState <==> errors != [] && conflicts == []
  {
    if errors == [] then Success else if conflicts != [] then ConflictState else ErrorState
  }

  /** The running average of sync durations: the first duration, then the mean with the previous average. */
  function NextAverage(average: real, duration: int): (r: real)
    ensures average == 0.0 ==> r == duration as real
    ensures average != 0.0 ==> r == (average + duration as real) / 2.0
    ensures 0.0 <= average && 0 <= duration ==> 0.0 <= r <= MaxReal(average, duration as real)
  {
    if average == 0.0 then duration as real else (average + duration as real) / 2.0
  }

  datatype SyncResult = SyncResult(
    success: bool,
    syncedItems: seq<SyncItem>,
    conflicts: seq<ConflictData>,
    errors: seq<SyncError>,
    totalItems: nat,
    duration: int)

  // ---- queue and conflict updates ---------------------------------------

  /** The identifier a queued item gets: the caller's unless missing or empty. */
  function ItemId(id: Option<string>, generatedId: string): string
  {
    if id.Some? && id.value != "" then id.value else generatedId
  }

  /** The item queueForSync builds: pending, version 1, or one past the version already queued under its identifier. */
  function NewItem(queue: seq<SyncItem>, dataType: SyncedDataType, data: Value, itemId: string, checksum: string,
                   now: int): (r: SyncItem)
    ensures r.id == itemId && r.dataType == dataType && r.data == data && r.lastModified == now && r.checksum == checksum
    ensures r.syncStatus == Pending && r.syncRetries == 0 && r.lastSyncAt.None? && r.conflictData.None?
    ensures r.version == (match FindItem(queue, itemId) case Some(i) => queue[i].version + 1 case None => 1)
  {
    var version := match FindItem(queue, itemId) case Some(i) => queue[i].version + 1 case None => 1;
    SyncItem(itemId, dataType, data, version, now, checksum, Pending, None, 0, None)
  }

  /** The queue with `item` in the place of the first item with its identifier, or appended. */
  function Enqueue(queue: seq<SyncItem>, item: SyncItem): (r: seq<SyncItem>)
    ensures |r| == |queue| || r == queue + [item]
  {
    match FindItem(queue, item.id)
    case Some(i) => queue[i := item]
    case None => queue + [item]
  }

  /**
   * After enqueueing, looking the identifier up finds the new item; the
   * queue grows only when the identifier was new; every item with another
   * identifier keeps its place.
   */
  lemma EnqueueFacts(queue: seq<SyncItem>, item: SyncItem)
    ensures var r := Enqueue(queue, item);
      && (FindItem(r, item.id).Some? && r[FindItem(r, item.id).value] == item)
      && (|r| == |queue| + 1 <==> FindItem(queue, item.id).None?)
      && (forall j :: 0 <= j < |queue| && queue[j].id != item.id ==> r[j] == queue[j])
  {
    var r := Enqueue(queue, item);
    match FindItem(queue, item.id)
    case Some(i) =>
      FindItemFirst(queue, item.id, i);
      FindItemAt(r, item.id, i);
    case None =>
      FindItemAt(r, item.id, |queue|);
  }

  /** A position holds the first item with an identifier when no earlier item has it. */
  lemma {:induction false} FindItemAt(queue: seq<SyncItem>, id: string, i: nat)
    requires i < |queue| && queue[i].id == id
    requires forall j :: 0 <= j < i ==> queue[j].id != id
    ensures FindItem(queue, id) == Some(i)
  {
    if i > 0 {
      FindItemAt(queue[1..], id, i - 1);
    }
  }

  lemma {:induction false} FindItemFirst(queue: seq<SyncItem>, id: string, i: nat)
    requires FindItem(queue, id) == Some(i)
    ensures forall j :: 0 <= j < i ==> queue[j].id != id
  {
    if i > 0 {
      FindItemFirst(queue[1..], id, i - 1);
    }
  }

  /** The first item carrying the conflict detected at `detectedAt` takes the resolved data and is pending again. */
  function ResolveItem(queue: seq<SyncItem>, detectedAt: int, resolvedData: Value): (r: seq<SyncItem>)
    ensures |r| == |queue|
  {
    match FindConflictedItem(queue, detectedAt)
    case Some(j) => queue[j := queue[j].(data := resolvedData, syncStatus := Pending, conflictData := None)]
    case None => queue
  }

  /** Exactly the item carrying the conflict changes, and afterwards no longer carries it. */
  lemma ResolveItemFacts(queue: seq<SyncItem>, detectedAt: int, resolvedData: Value)
    ensures var r := ResolveItem(queue, detectedAt, resolvedData);
      match FindConflictedItem(queue, detectedAt)
      case Some(j) =>
        && r[j].id == queue[j].id && r[j].data == resolvedData && r[j].syncStatus == Pending && r[j].conflictData.None?
        && (forall k :: 0 <= k < |queue| && k != j ==> r[k] == queue[k])
      case None => r == queue
  {
  }

  /** The sequence without its element at `i`. */
  function RemoveAt<T>(s: seq<T>, i: nat): (r: seq<T>)
    requires i < |s|
    ensures |r| == |s| - 1
    ensures forall k :: 0 <= k < i ==> r[k] == s[k]
    ensures forall k :: i <= k < |r| ==> r[k] == s[k + 1]
  {
    s[..i] + s[i + 1..]
  }

  /** The state a finished run leaves: timings updated, counters recomputed, the final status. */
  function Finished(st: SyncState, queue: seq<SyncItem>, conflicts: seq<ConflictData>, syncInterval: int,
                    now: int, doneAt: int, status: SyncStatus): (r: SyncState)
    ensures Counted(r, queue, conflicts) && r.status == status
    ensures r.lastSync == doneAt && r.nextSync == doneAt + syncInterval * 60000 && r.lastSyncDuration == doneAt - now
    ensures r.averageSyncTime == NextAverage(st.averageSyncTime, doneAt - now)
  {
    WithCounts(st.(lastSync := doneAt, nextSync := doneAt + syncInterval * 60000, lastSyncDuration := doneAt - now,
      averageSyncTime := NextAverage(st.averageSyncTime, doneAt - now)), queue, conflicts).(status := status)
  }

  /** The batches of a run, `batchSize` items at a time, each item with its own draw. */
  method RunBatches(items: seq<SyncItem>, batchSize: int, draws: seq<real>, now: int)
    returns (processed: seq<SyncItem>, synced: seq<SyncItem>, conflicts: seq<ConflictData>, errors: seq<SyncError>)
    requires batchSize >= 1 && |draws| == |items|
    ensures processed == ProcessAll(items, draws, now)
    ensures synced == SyncedOf(processed) && conflicts == ConflictsOf(processed) && errors == ErrorsOf(processed, now)
  {
    processed, synced, conflicts, errors := [], [], [], [];
    var i := 0;
    while i < |items|
      invariant 0 <= i <= |items| && |processed| == i
      invariant processed == ProcessAll(items[..i], draws[..i], now)
      invariant synced == SyncedOf(processed) && conflicts == ConflictsOf(processed) && errors == ErrorsOf(processed, now)
      decreases |items| - i
    {
      var end := MinInt(i + batchSize, |items|);
      var updated, s, c, e := SyncBatch(items[i..end], draws[i..end], now);
      OutcomesAppend(processed, updated, now);
      ProcessAllExtend(items, draws, now, i, end);
      processed := processed + updated;
      synced := synced + s;
      conflicts := conflicts + c;
      errors := errors + e;
      i := end;
    }
    assert items[..i] == items && draws[..i] == draws;
  }

  /** The items up to `end` are those up to `i` followed by those from `i` to `end`. */
  lemma ProcessAllExtend(items: seq<SyncItem>, draws: seq<real>, now: int, i: nat, end: nat)
    requires |draws| == |items| && i <= end <= |items|
    ensures ProcessAll(items[..end], draws[..end], now) ==
      ProcessAll(items[..i], draws[..i], now) + ProcessAll(items[i..end], draws[i..end], now)
  {
    ProcessAllSplit(items[..end], draws[..end], now, i);
    assert items[..end][..i] == items[..i] && items[..end][i..] == items[i..end];
    assert draws[..end][..i] == draws[..i] && draws[..end][i..] == draws[i..end];
  }

  /** Processing a run is processing its first part, then the rest. */
  lemma ProcessAllSplit(items: seq<SyncItem>, draws: seq<real>, now: int, i: nat)
    requires |draws| == |items| && i <= |items|
    ensures ProcessAll(items, draws, now) ==
      ProcessAll(items[..i], draws[..i], now) + ProcessAll(items[i..], draws[i..], now)
  {
    var whole := ProcessAll(items, draws, now);
    var front := ProcessAll(items[..i], draws[..i], now);
    var back := ProcessAll(items[i..], draws[i..], now);
    forall k | 0 <= k < |items|
      ensures whole[k] == (front + back)[k]
    {
      ProcessAllAt(items, draws, now, k);
      if k < i {
        ProcessAllAt(items[..i], draws[..i], now, k);
      } else {
        ProcessAllAt(items[i..], draws[i..], now, k - i);
      }
    }
  }

  // ---- the service --------------------------------------------------------

  class SyncService {
    var config: SyncConfiguration
    var state: SyncState
    var queue: seq<SyncItem>
    var conflicts: seq<ConflictData>

    predicate Valid()
      reads this
    {
      Counted(state, queue, conflicts)
    }

    constructor()
      ensures Valid()
      ensures config == DefaultConfiguration && queue == [] && conflicts == [] && state == InitialState
    {
      config := DefaultConfiguration;
      state := InitialState;
      queue := [];
      conflicts := [];
    }

    /**
     * queueForSync: a new pending item, replacing in place the item already
     * queued under its identifier (with the next version) or appended.
     * `generatedId` stands for the generated identifier used when none is
     * given; `checksum` is the payload's checksum.
     */
    method QueueForSync(dataType: SyncedDataType, data: Value, id: Option<string>, generatedId: string, checksum: string,
                        now: int) returns (item: SyncItem)
      requires Valid()
      modifies this
      ensures Valid()
      ensures item == NewItem(old(queue), dataType, data, ItemId(id, generatedId), checksum, now)
      ensures queue == Enqueue(old(queue), item)
      ensures conflicts == old(conflicts) && config == old(config) && state == WithCounts(old(state), queue, conflicts)
    {
      item := NewItem(queue, dataType, data, ItemId(id, generatedId), checksum, now);
      var existing := FindItem(queue, item.id);
      var newQueue := if existing.Some? then queue[existing.value := item] else queue + [item];
      queue, state := newQueue, WithCounts(state, newQueue, conflicts);
    }

    /**
     * resolveConflict: an unknown identifier is an error; otherwise the
     * first item carrying that conflict takes the resolved data and goes
     * back to pending without conflict data, and the conflict leaves the list.
     */
    method ResolveConflict(conflictId: string, resolution: Resolution) returns (r: Result<()>)
      requires Valid()
      modifies this
      ensures Valid() && config == old(config)
      ensures FindConflict(old(conflicts), conflictId).None? ==> r == Err(ConflictNotFoundMessage) && unchanged(this)
      ensures FindConflict(old(conflicts), conflictId).Some? ==>
        var i := FindConflict(old(conflicts), conflictId).value;
        && r == Ok(())
        && conflicts == RemoveAt(old(conflicts), i)
        && queue == ResolveItem(old(queue), old(conflicts)[i].detectedAt, resolution.resolvedData)
        && state == WithCounts(old(state), queue, conflicts)
    {
      var found := FindConflict(conflicts, conflictId);
      if found.None? {
        return Err(ConflictNotFoundMessage);
      }
      var i := found.value;
      var conflict := conflicts[i];
      var holder := FindConflictedItem(queue, conflict.detectedAt);
      if holder.Some? {
        var j := holder.value;
        queue := queue[j := queue[j].(data := resolution.resolvedData, syncStatus := Pending, conflictData := None)];
      }
      conflicts := conflicts[..i] + conflicts[i + 1..];
      state := WithCounts(state, queue, conflicts);
      return Ok(());
    }

    /**
     * startSync: refused when disabled or already syncing. Otherwise the
     * items of the sync type are pushed in batches of batchSize, each item
     * classified by its own draw; items of the queue itself are updated in
     * place; new conflicts join the list, which is then cleaned of old
     * resolved ones; the counters, timings and final status are updated.
     * `now` is the start time, `doneAt` the time the batches finished.
     */
    method StartSync(t: SyncType, draws: seq<real>, now: int, doneAt: int) returns (r: Result<SyncResult>)
      requires Valid() && config.batchSize >= 1 && |draws| >= |queue|
      modifies this
      ensures Valid() && config == old(config)
      ensures !old(config).enabled ==> r == Err(DisabledMessage) && unchanged(this)
      ensures old(config).enabled && old(state).status == Syncing ==> r == Err(AlreadySyncingMessage) && unchanged(this)
      ensures old(config).enabled && old(state).status != Syncing && PrepareItems(old(queue), t) == [] ==>
        && r == Ok(SyncResult(true, [], [], [], old(state).totalItems, doneAt - now))
        && queue == old(queue) && conflicts == old(conflicts) && state == old(state).(status := Success)
      ensures old(config).enabled && old(state).status != Syncing && PrepareItems(old(queue), t) != [] ==>
        var items := PrepareItems(old(queue), t);
        var processed := ProcessAll(items, draws[..|items|], now);
        var newConflicts := ConflictsOf(processed);
        var errors := ErrorsOf(processed, now);
        && queue == (if SharesQueueItems(t) then WriteBack(old(queue), t, processed) else old(queue))
        && conflicts == CleanupOld(old(conflicts) + newConflicts, doneAt, old(config).maxConflictAge)
        && state == Finished(old(state), queue, conflicts, old(config).syncInterval, now, doneAt,
          FinalStatus(errors, newConflicts))
        && r == Ok(SyncResult(errors == [], SyncedOf(processed), newConflicts, errors, |queue|, doneAt - now))
    {
      if !config.enabled {
        return Err(DisabledMessage);
      }
      if state.status == Syncing {
        return Err(AlreadySyncingMessage);
      }
      // The source marks the state SYNCING while the batches run; nothing reads it before the
      // final status replaces it, so the started state is kept in a local.
      var started := state;
      var items := PrepareItems(queue, t);
      if items == [] {
        state := started.(status := Success);
        return Ok(SyncResult(true, [], [], [], started.totalItems, doneAt - now));
      }
      assert |items| <= |queue|;
      var processed, synced, newConflicts, errors := RunBatches(items, config.batchSize, draws[..|items|], now);
      var newQueue := queue;
      if SharesQueueItems(t) {
        assert |processed| == |Picked(queue, t)|;
        newQueue := WriteBack(queue, t, processed);
      }
      var kept := CleanupOld(conflicts + newConflicts, doneAt, config.maxConflictAge);
      var finished := Finished(started, newQueue, kept, config.syncInterval, now, doneAt, FinalStatus(errors, newConflicts));
      queue, conflicts, state := newQueue, kept, finished;
      return Ok(SyncResult(errors == [], synced, newConflicts, errors, |newQueue|, doneAt - now));
    }
  }
}
