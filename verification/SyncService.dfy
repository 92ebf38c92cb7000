/**
 The sync service as an object whose fields change step by step. Each method is one stretch of code
 between two awaits, proved to be the step of the state machine that the theorems are about; `Valid`
 is the invariant of the theorems, and performing any list of steps is a run of the machine.
 */
module SyncService {
  import opened Wrappers
  import opened Lists
  import opened SyncModel
  import opened SyncLocking
  import opened SyncTrace
  import opened SyncTheorems
  import opened SyncStore

  /** The in-flight flag and the error flag of the operation status. */
  class SyncOpStatus {
    var syncing: bool
    var error: bool

    constructor ()
      ensures !syncing && !error
    {
      syncing, error := false, false;
    }

    method SetDidBegin()
      modifies this
      ensures syncing && error == old(error)
    {
      syncing := true;
    }

    method SetDidEnd()
      modifies this
      ensures !syncing && error == old(error)
    {
      syncing := false;
    }

    method SetError()
      modifies this
      ensures error && syncing == old(syncing)
    {
      error := true;
    }

    method ClearError()
      modifies this
      ensures !error && syncing == old(syncing)
    {
      error := false;
    }

    method Reset()
      modifies this
      ensures !error && !syncing
    {
      syncing, error := false, false;
    }
  }

  class SyncService {
    const opStatus: SyncOpStatus
    var syncLock: bool
    var databaseLoaded: bool
    var clientLocked: bool
    var completedOnlineDownloadFirstSync: bool
    var resolveQueue: seq<RequestId>
    var spawnQueue: seq<Options>
    /** The local variables of the calls of `performSync` that are suspended at an await. */
    var calls: map<CallId, Call>
    var nextCall: nat
    var nextRequest: nat
    var items: map<Uuid, Item>
    var dirtyIndex: nat

    ghost var holder: Option<CallId>
    ghost var sent: set<Uuid>
    ghost var acked: map<Uuid, Ack>
    ghost var offline: set<Uuid>
    ghost var spawns: Spawns
    ghost var log: seq<Event>

    ghost function StoreView(): Store
      reads this
    {
      Store(items, dirtyIndex, sent, acked, offline)
    }

    ghost function View(): State
      reads this, opStatus
    {
      State(syncLock, opStatus.syncing, opStatus.error, databaseLoaded, clientLocked,
            completedOnlineDownloadFirstSync, resolveQueue, spawnQueue, calls, nextCall, nextRequest,
            StoreView(), holder, spawns, log)
    }

    ghost predicate Valid()
      reads this, opStatus
    {
      Inv(View())
    }

    constructor ()
      ensures Valid() && View() == Initial() && fresh(opStatus)
    {
      opStatus := new SyncOpStatus();
      syncLock, databaseLoaded, clientLocked, completedOnlineDownloadFirstSync := false, false, false, false;
      resolveQueue, spawnQueue, calls, nextCall, nextRequest := [], [], map[], 0, 0;
      items, dirtyIndex := map[], 0;
      holder, sent, acked, offline := None, {}, map[], {};
      spawns, log := Spawns([], [], [], map[]), [];
      new;
      InitialInv();
    }

    // ----- Loops over the items

    method ItemsNeedingSync() returns (needing: set<Uuid>)
      ensures needing == DirtyItems(items)
    {
      needing := {};
      var rest := items.Keys;
      while rest != {}
        invariant rest <= items.Keys
        invariant forall u :: u in needing <==> u in items && u !in rest && items[u].dirty
        decreases |rest|
      {
        var u :| u in rest;
        if items[u].dirty {
          needing := needing + {u};
        }
        rest := rest - {u};
      }
    }

    /** The items among those needing sync that were never synced and are marked as deleted. */
    method SelectNeverSyncedDeleted(needing: set<Uuid>) returns (neverSyncedDeleted: set<Uuid>)
      requires needing == DirtyItems(items)
      ensures neverSyncedDeleted == NeverSyncedDeleted(items)
    {
      neverSyncedDeleted := {};
      var rest := needing;
      while rest != {}
        invariant rest <= needing
        invariant forall u :: u in neverSyncedDeleted <==>
                    u in needing && u !in rest && items[u].neverSynced && items[u].body.Tombstone?
        decreases |rest|
      {
        var u :| u in rest;
        if items[u].neverSynced && items[u].body.Tombstone? {
          neverSyncedDeleted := neverSyncedDeleted + {u};
        }
        rest := rest - {u};
      }
    }

    method SetLastSyncBeganForItems(uuids: set<Uuid>, globalDirtyIndex: nat)
      modifies this`items
      ensures items == StampItems(old(items), uuids, globalDirtyIndex)
    {
      var rest := uuids;
      while rest != {}
        invariant rest <= uuids && items.Keys == old(items).Keys
        invariant forall u :: u in items ==>
                    items[u] == if u in uuids && u !in rest
                                then old(items)[u].(syncIndex := Some(globalDirtyIndex)) else old(items)[u]
        decreases |rest|
      {
        var u :| u in rest;
        if u in items {
          items := items[u := items[u].(syncIndex := Some(globalDirtyIndex))];
        }
        rest := rest - {u};
      }
    }

    method FindLatestItems(uuids: set<Uuid>) returns (latest: map<Uuid, Body>)
      ensures latest == Latest(items, uuids)
    {
      latest := map[];
      var rest := uuids;
      while rest != {}
        invariant rest <= uuids
        invariant forall u :: u in latest <==> u in uuids && u in items && u !in rest
        invariant forall u :: u in latest ==> latest[u] == items[u].body
        decreases |rest|
      {
        var u :| u in rest;
        if u in items {
          latest := latest[u := items[u].body];
        }
        rest := rest - {u};
      }
    }

    /** Every payload replaces its item, or removes it when there is nothing left to upload of a deleted one. */
    method EmitPayloads(changes: map<Uuid, Item>)
      modifies this`items
      ensures items == Emit(old(items), changes)
    {
      var rest := changes.Keys;
      while rest != {}
        invariant rest <= changes.Keys
        invariant forall u :: u in items <==>
                    if u in changes && u !in rest then !Discardable(changes[u]) else u in old(items)
        invariant forall u :: u in items ==>
                    items[u] == if u in changes && u !in rest then changes[u] else old(items)[u]
        decreases |rest|
      {
        var u :| u in rest;
        if Discardable(changes[u]) {
          items := items - {u};
        } else {
          items := items[u := changes[u]];
        }
        rest := rest - {u};
      }
    }

    // ----- The stretches of a call

    method Suspend(c: CallId, phase: Phase)
      requires c in calls
      modifies this`calls
      ensures View() == SetPhase(old(View()), c, phase)
    {
      calls := calls[c := calls[c].(phase := phase)];
    }

    method Sync(options: Options)
      modifies this
      ensures View() == SyncOrSkip(old(View()), options)
      ensures items == old(items) && resolveQueue == old(resolveQueue)
    {
      if !clientLocked {
        PerformSync(options);
      }
    }

    method ConfigureSyncLock() returns (shouldExecuteSync: bool)
      modifies this`syncLock
      ensures shouldExecuteSync == (!old(syncLock) && databaseLoaded && !opStatus.syncing)
      ensures syncLock == (old(syncLock) || shouldExecuteSync)
    {
      var canExecuteSync := !syncLock;
      shouldExecuteSync := canExecuteSync && databaseLoaded && !opStatus.syncing;
      if shouldExecuteSync {
        syncLock := true;
      }
    }

    method PrepareForSync() returns (needing: set<Uuid>, frozenDirtyIndex: nat, neverSyncedDeleted: set<Uuid>)
      ensures needing == DirtyItems(items) - NeverSyncedDeleted(items)
      ensures frozenDirtyIndex == dirtyIndex && neverSyncedDeleted == NeverSyncedDeleted(items)
    {
      needing := ItemsNeedingSync();
      frozenDirtyIndex := dirtyIndex;
      neverSyncedDeleted := SelectNeverSyncedDeleted(needing);
      needing := needing - neverSyncedDeleted;
    }

    method PerformSync(options: Options)
      modifies this
      ensures View() == SyncModel.PerformSync(old(View()), options)
      ensures items == old(items) && resolveQueue == old(resolveQueue)
    {
      var shouldExecuteSync := ConfigureSyncLock();
      var needingSync, frozenDirtyIndex, neverSyncedDeleted := PrepareForSync();
      StartCall(Call(options, needingSync, frozenDirtyIndex, neverSyncedDeleted, [], Preparing(shouldExecuteSync)),
                shouldExecuteSync);
    }

    /** The call is suspended at its first await. */
    method StartCall(call: Call, executes: bool)
      modifies this`calls, this`nextCall, this`holder
      ensures calls == old(calls)[old(nextCall) := call] && nextCall == old(nextCall) + 1
      ensures holder == if executes then Some(old(nextCall)) else old(holder)
    {
      calls := calls[nextCall := call];
      holder := if executes then Some(nextCall) else holder;
      nextCall := nextCall + 1;
    }

    method DeferSyncRequest(c: CallId, options: Options)
      modifies this`resolveQueue, this`spawnQueue, this`nextRequest, this`spawns, this`log
      ensures View() == DeferRequest(old(View()), c, options)
    {
      if options.strategy == ResolveOnNext {
        resolveQueue := resolveQueue + [nextRequest];
        log := log + [Queued(nextRequest)];
        nextRequest := nextRequest + 1;
      } else {
        spawnQueue := spawnQueue + [options];
        spawns := spawns.(queued := spawns.queued + [options], joined := spawns.joined[c := |spawns.queued|]);
      }
    }

    method EnterOrDefer(c: CallId)
      requires c in calls && calls[c].phase.Preparing?
      modifies this, opStatus
      ensures View() == DoEnterOrDefer(old(View()), c)
    {
      var call := calls[c];
      var inTimeResolveQueue := resolveQueue;
      if !call.phase.executes {
        Suspend(c, Ended);
        DeferSyncRequest(c, call.options);
        return;
      }
      opStatus.SetDidBegin();
      calls := calls[c := call.(inTime := inTimeResolveQueue, phase := Beginning)];
      log := log + [Began(c)];
    }

    method PrepareForSyncExecution(c: CallId)
      requires c in calls
      modifies this
      ensures View() == DoStamp(old(View()), c)
    {
      Suspend(c, Stamped);
      resolveQueue := Subtract(resolveQueue, calls[c].inTime);
      SetLastSyncBeganForItems(calls[c].items, calls[c].frozen);
    }

    method CollectLatestItems(c: CallId)
      requires c in calls
      modifies this
      ensures View() == DoCollect(old(View()), c)
    {
      var latestItems := FindLatestItems(calls[c].items);
      Suspend(c, Collected(latestItems));
    }

    /** `createSyncOperation`; online, the mode is forced until a download-first sync has completed. */
    method CreateSyncOperation(c: CallId, online: bool)
      requires c in calls && calls[c].phase.Collected?
      modifies this
      ensures View() == DoCreateOperation(old(View()), c, online)
    {
      var mode := calls[c].options.mode;
      if online && !completedOnlineDownloadFirstSync {
        mode := DownloadFirst;
      }
      var uploads: map<Uuid, Body> := map[];
      if mode == Default {
        uploads := calls[c].phase.uploads;
      }
      log := log + [Launched(c, online, uploads != map[])];
      Suspend(c, Running(online, mode, uploads != map[], uploads, None, false));
    }

    method SendBatch(c: CallId, batch: set<Uuid>)
      requires c in calls && calls[c].phase.Running?
      modifies this
      ensures View() == DoSendBatch(old(View()), c, batch)
    {
      var phase := calls[c].phase;
      sent := sent + batch;
      Suspend(c, phase.(pending := phase.pending - batch, inFlight := Some(Part(phase.pending, batch))));
    }

    method HandleErrorServerResponse(c: CallId, more: bool)
      requires c in calls && calls[c].phase.Running?
      modifies this, opStatus
      ensures View() == DoReceiveError(old(View()), c, more)
    {
      opStatus.SetError();
      Suspend(c, AfterResponse(calls[c].phase, more));
    }

    method HandleSuccessServerResponse(c: CallId, saved: set<Uuid>, retrieved: map<Uuid, Body>, more: bool)
      requires c in calls && calls[c].phase.Running? && calls[c].phase.inFlight.Some?
      modifies this, opStatus
      ensures View() == DoReceiveSuccess(old(View()), c, saved, retrieved, more)
    {
      opStatus.ClearError();
      EmitResponse(calls[c].phase.inFlight.value, saved, retrieved);
      Suspend(c, AfterResponse(calls[c].phase, more));
    }

    /** Both emits are resolved against one snapshot of the collection. */
    method EmitResponse(ghost batch: map<Uuid, Body>, saved: set<Uuid>, retrieved: map<Uuid, Body>)
      modifies this`items, this`acked
      ensures StoreView() == AfterSuccess(old(StoreView()), batch, saved, retrieved)
    {
      var masterCollection := items;
      EmitPayloads(Retrieved(masterCollection, retrieved));
      EmitPayloads(Saved(masterCollection, saved, saved));
      acked := AckRetrieved(acked, Retrieved(masterCollection, retrieved));
      acked := AckSaved(acked, batch, saved, true);
    }

    method HandleOfflineResponse(c: CallId, synced: set<Uuid>)
      requires c in calls && calls[c].phase.Running?
      modifies this, opStatus
      ensures View() == DoRunOffline(old(View()), c, synced)
    {
      var phase := calls[c].phase;
      EmitOfflineSaved(phase.pending, synced);
      opStatus.ClearError();
      Suspend(c, phase.(pending := map[], done := true));
    }

    method EmitOfflineSaved(batch: map<Uuid, Body>, synced: set<Uuid>)
      modifies this`items, this`sent, this`acked, this`offline
      ensures StoreView() == AfterOffline(old(StoreView()), batch, synced)
    {
      EmitPayloads(Saved(items, batch.Keys, synced));
      sent, offline := sent + batch.Keys, offline + batch.Keys;
      acked := AckSaved(acked, batch, batch.Keys, false);
    }

    method ReleaseLock()
      modifies this`syncLock, this`holder
      ensures !syncLock && holder == None
    {
      syncLock, holder := false, None;
    }

    method HandleSyncOperationFinish(c: CallId)
      requires c in calls && calls[c].phase.Running?
      modifies this, opStatus
      ensures View() == DoFinish(old(View()), c)
    {
      ReleaseLock();
      opStatus.SetDidEnd();
      if opStatus.error {
        log := log + [Failed(c)] + Settle(calls[c].inTime, c, false);
        Suspend(c, Ended);
      } else {
        opStatus.Reset();
        CompleteOperation(c);
      }
    }

    method CompleteOperation(c: CallId)
      requires c in calls && calls[c].phase.Running? && !syncLock && !opStatus.syncing && holder == None
      modifies this
      ensures View() == DoComplete(old(View()), c)
    {
      var call := calls[c];
      if call.neverSyncedDeleted != {} {
        items := items - call.neverSyncedDeleted;
      }
      log := log + [Completed(c)];
      Suspend(c, Finishing(call.phase.online, call.phase.mode));
    }

    method PopSpawnQueue() returns (didSpawn: bool)
      modifies this
      ensures items == old(items) && resolveQueue == old(resolveQueue)
      ensures didSpawn == (old(spawnQueue) != [])
      ensures !didSpawn ==> View() == old(View())
      ensures didSpawn ==>
        View() == SyncOrSkip(PopSpawn(old(View())), old(spawnQueue)[0].(strategy := ForceSpawnNew))
    {
      if spawnQueue == [] {
        return false;
      }
      var options := spawnQueue[0];
      spawnQueue := spawnQueue[1..];
      spawns := spawns.(popped := spawns.popped + [options],
                        servers := spawns.servers + [if clientLocked then None else Some(nextCall)]);
      Sync(options.(strategy := ForceSpawnNew));
      return true;
    }

    method SyncAgainIfNeeded()
      modifies this
      ensures View() == SyncAgain(old(View()))
    {
      var didSpawnNewRequest := PopSpawnQueue();
      if !didSpawnNewRequest && |resolveQueue| > 0 {
        Sync(DEFAULT_OPTIONS);
        return;
      }
      var newItemsNeedingSync := ItemsNeedingSync();
      if newItemsNeedingSync != {} {
        Sync(DEFAULT_OPTIONS);
      }
    }

    method PotentiallySyncAgain(c: CallId)
      requires c in calls && calls[c].phase.Finishing?
      modifies this
      ensures View() == DoContinue(old(View()), c)
    {
      var phase := calls[c].phase;
      if phase.ranMode == DownloadFirst {
        if phase.wasOnline {
          completedOnlineDownloadFirstSync := true;
        }
        Suspend(c, Downloaded);
      } else {
        Suspend(c, Resolving);
        SyncAgainIfNeeded();
      }
    }

    method SyncAfterDownloadFirst(c: CallId)
      requires c in calls
      modifies this
      ensures View() == SyncOrSkip(SetPhase(old(View()), c, Resolving), DEFAULT_OPTIONS)
    {
      Suspend(c, Resolving);
      Sync(DEFAULT_OPTIONS);
    }

    /** Execute the callbacks of the requests that made it in time, one after the other. */
    method ResolvePendingSyncRequests(c: CallId)
      requires c in calls
      modifies this
      ensures View() == DoResolve(old(View()), c)
    {
      var inTimeResolveQueue := calls[c].inTime;
      Suspend(c, Ended);
      ResolveAll(inTimeResolveQueue, c);
    }

    method ResolveAll(requests: seq<RequestId>, c: CallId)
      modifies this`log
      ensures log == old(log) + Settle(requests, c, true)
    {
      ghost var all := Settle(requests, c, true);
      for i := 0 to |requests|
        invariant log == old(log) + all[..i]
      {
        ConcatAssociates(old(log), all[..i], [all[i]]);
        log := log + [Resolved(requests[i], c)];
        assert all[..i + 1] == all[..i] + [all[i]];
      }
      assert all[..|requests|] == all;
    }

    // ----- The rest of the application

    method ChangeItem(u: Uuid, body: Body)
      requires u in items
      modifies this
      ensures View() == old(View()).(store := Edited(old(StoreView()), u, body))
    {
      dirtyIndex := dirtyIndex + 1;
      items := items[u := items[u].(body := body, dirty := true, dirtyIndex := Some(dirtyIndex))];
    }

    method CreateItem(u: Uuid, body: Body, needsSync: bool)
      modifies this
      ensures View() == old(View()).(store := Created(old(StoreView()), u, body, needsSync))
    {
      items := items[u := Item(body, needsSync, None, None, true)];
    }

    // ----- Whole runs

    method PerformInside(a: Action)
      requires InsideOperation(a) && Enabled(View(), a)
      modifies this, opStatus
      ensures View() == Next(old(View()), a)
    {
      match a
      case Collect(c) => CollectLatestItems(c);
      case CreateOperation(c, online) => CreateSyncOperation(c, online);
      case SendBatch(c, batch) => SendBatch(c, batch);
      case ReceiveError(c, more) => HandleErrorServerResponse(c, more);
      case ReceiveSuccess(c, saved, retrieved, more) => HandleSuccessServerResponse(c, saved, retrieved, more);
      case RunOffline(c, synced) => HandleOfflineResponse(c, synced);
    }

    method PerformOutside(a: Action)
      requires OutsideCalls(a) && Enabled(View(), a)
      modifies this
      ensures View() == Next(old(View()), a)
    {
      match a
      case Edit(u, body) => ChangeItem(u, body);
      case CreateItem(u, body, dirty) => CreateItem(u, body, dirty);
      case LoadDatabase => databaseLoaded := true;
      case SetClientLock(locked) => clientLocked := locked;
    }

    method PerformControl(a: Action)
      requires !InsideOperation(a) && !OutsideCalls(a) && Enabled(View(), a)
      modifies this, opStatus
      ensures View() == Next(old(View()), a)
    {
      match a
      case Sync(options) => Sync(options);
      case EnterOrDefer(c) => EnterOrDefer(c);
      case Stamp(c) => PrepareForSyncExecution(c);
      case Finish(c) => HandleSyncOperationFinish(c);
      case Continue(c) => PotentiallySyncAgain(c);
      case SyncAfterDownload(c) => SyncAfterDownloadFirst(c);
      case Resolve(c) => ResolvePendingSyncRequests(c);
    }

    /**
     One step of the machine is one method of the service. It keeps the invariant, and a dirty item that
     is not edited waits on, is acknowledged, or is dropped by the completion of a call that set it aside.
     */
    method Perform(a: Action)
      requires Valid() && Enabled(View(), a)
      modifies this, opStatus
      ensures Valid() && View() == Next(old(View()), a)
      ensures forall u :: u in old(items) && old(items)[u].dirty && !Touches(a, u) ==>
        Outcome(old(View()), View(), a, u)
    {
      StepKeepsInv(View(), a);
      DirtyItemsSurvive(View(), a);
      if InsideOperation(a) {
        PerformInside(a);
      } else if OutsideCalls(a) {
        PerformOutside(a);
      } else {
        PerformControl(a);
      }
    }

    /** What every list of steps guarantees about the fields. */
    ghost predicate Guarantees()
      reads this, opStatus
    {
      && (opStatus.syncing ==> syncLock)
      && (forall c, d :: c in calls && d in calls && HoldsLock(calls[c]) && HoldsLock(calls[d]) ==> c == d)
      && (forall u :: u in items && u in sent && !items[u].dirty ==> IsAcknowledged(StoreView(), u, items[u].body))
      && (forall i :: 0 <= i < |log| && log[i].Launched? && log[i].online && log[i].carries ==>
            exists c :: Precedes(log[..i], Launched(c, true, false), Completed(c)))
    }

    lemma {:induction false} ValidGuarantees()
      requires Valid()
      ensures Guarantees()
    {
      assert UploadsAfterDownload(View().log);
      forall i | 0 <= i < |log| && log[i].Launched? && log[i].online && log[i].carries
        ensures exists c :: Precedes(log[..i], Launched(c, true, false), Completed(c))
      {
        assert DownloadedFirst(log[..i]);
      }
    }

    /** Performing steps that are enabled when their turn comes is a run of the machine. */
    method PerformAll(actions: seq<Action>, ghost before: seq<Action>)
      requires View() == Run(before) && EnabledInTurn(before, actions)
      modifies this, opStatus
      ensures View() == Run(before + actions)
      ensures Valid() && Guarantees()
    {
      RunKeepsInv(before);
      assert before + actions[..0] == before;
      for i := 0 to |actions|
        invariant Valid() && View() == Run(before + actions[..i])
      {
        RunOneMore(before, actions, i);
        Perform(actions[i]);
      }
      assert actions[..|actions|] == actions;
      ValidGuarantees();
    }
  }

  ghost predicate EnabledInTurn(before: seq<Action>, actions: seq<Action>) {
    forall i :: 0 <= i < |actions| ==> Enabled(Run(before + actions[..i]), actions[i])
  }

  lemma {:induction false} RunOneMore(before: seq<Action>, actions: seq<Action>, i: nat)
    requires i < |actions| && EnabledInTurn(before, actions)
    ensures Enabled(Run(before + actions[..i]), actions[i])
    ensures Run(before + actions[..i + 1]) == Next(Run(before + actions[..i]), actions[i])
  {
    var run := before + actions[..i + 1];
    assert run[..|run| - 1] == before + actions[..i] && run[|run| - 1] == actions[i];
  }

  lemma {:induction false} DirtyItemsSurvive(s: State, a: Action)
    requires Inv(s) && Enabled(s, a)
    ensures forall u :: u in s.store.items && s.store.items[u].dirty && !Touches(a, u) ==> Outcome(s, Next(s, a), a, u)
  {
    forall u | u in s.store.items && s.store.items[u].dirty && !Touches(a, u) ensures Outcome(s, Next(s, a), a, u) {
      EditSurvivesStep(s, a, u);
    }
  }
}
