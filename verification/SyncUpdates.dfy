/** What an operation has collected, sent and saved stays in step with the items, however edits interleave. */
module SyncUpdates {
  import opened Wrappers
  import opened SyncModel
  import opened SyncLocking

  /** A clean item that was ever sent has its current content acknowledged. */
  ghost predicate Acknowledged(store: Store, u: Uuid)
    requires u in store.items
  {
    u in store.acked && store.acked[u].body == store.items[u].body
    && (store.acked[u].byServer || u in store.offline)
  }

  ghost predicate Stored(store: Store) {
    && (forall u :: u in store.items && store.items[u].dirtyIndex.Some? ==>
          store.items[u].dirtyIndex.value <= store.dirtyIndex)
    && (forall u :: u in store.items && u in store.sent && !store.items[u].dirty ==> Acknowledged(store, u))
  }

  ghost predicate AllDirty(items: map<Uuid, Item>, uuids: set<Uuid>) {
    forall u :: u in uuids ==> u in items && items[u].dirty
  }

  ghost predicate AllStamped(items: map<Uuid, Item>, uuids: set<Uuid>, frozen: nat) {
    forall u :: u in uuids ==> u in items && items[u].dirty && items[u].syncIndex == Some(frozen)
  }

  /** What is about to be saved is the current content, or the item has changed since the freeze. */
  predicate InStep(item: Item, body: Body, frozen: nat) {
    && item.dirty && item.syncIndex == Some(frozen)
    && (item.body == body || (item.dirtyIndex.Some? && item.dirtyIndex.value > frozen))
  }

  ghost predicate AllInStep(items: map<Uuid, Item>, uploads: map<Uuid, Body>, frozen: nat) {
    forall u :: u in uploads ==> u in items && InStep(items[u], uploads[u], frozen)
  }

  /** What the lock holder knows about the items it collected. */
  ghost predicate Follows(store: Store, call: Call) {
    && call.frozen <= store.dirtyIndex
    && match call.phase
       case Stamped => AllStamped(store.items, call.items, call.frozen)
       case Collected(uploads) => AllInStep(store.items, uploads, call.frozen)
       case Running(online, mode, carries, pending, inFlight, done) =>
         && AllInStep(store.items, pending, call.frozen)
         && (inFlight.Some? ==>
               AllInStep(store.items, inFlight.value, call.frozen) && inFlight.value.Keys !! pending.Keys)
         && (!online ==> inFlight.None?)
       case _ => AllDirty(store.items, call.items)
  }

  ghost predicate Updates(s: State) {
    Stored(s.store) && forall c :: c in s.calls && HoldsLock(s.calls[c]) ==> Follows(s.store, s.calls[c])
  }

  // ----- The store

  lemma {:induction false} EditKeeps(store: Store, u: Uuid, body: Body)
    requires Stored(store) && u in store.items
    ensures Stored(Edited(store, u, body))
    ensures forall call: Call :: Follows(store, call) ==> Follows(Edited(store, u, body), call)
  {
  }

  lemma {:induction false} CreateKeeps(store: Store, u: Uuid, body: Body, dirty: bool)
    requires Stored(store) && u !in store.items && u !in store.sent
    ensures Stored(Created(store, u, body, dirty))
    ensures forall call: Call :: Follows(store, call) ==> Follows(Created(store, u, body, dirty), call)
  {
  }

  predicate SameButStamp(a: Item, b: Item) {
    && a.body == b.body && a.dirty == b.dirty && a.dirtyIndex == b.dirtyIndex && a.neverSynced == b.neverSynced
  }

  lemma {:induction false} StampKeeps(store: Store, uuids: set<Uuid>, frozen: nat)
    requires Stored(store) && AllDirty(store.items, uuids)
    ensures Stored(store.(items := StampItems(store.items, uuids, frozen)))
    ensures AllStamped(StampItems(store.items, uuids, frozen), uuids, frozen)
    ensures StampItems(store.items, uuids, frozen).Keys == store.items.Keys
    ensures forall u :: u in store.items ==>
      SameButStamp(StampItems(store.items, uuids, frozen)[u], store.items[u])
      && (u !in uuids ==> StampItems(store.items, uuids, frozen)[u] == store.items[u])
  {
  }

  lemma {:induction false} SendKeeps(store: Store, pending: map<Uuid, Body>, batch: set<Uuid>, frozen: nat)
    requires Stored(store) && AllInStep(store.items, pending, frozen) && batch <= pending.Keys
    ensures Stored(AfterSend(store, batch))
    ensures AllInStep(store.items, pending - batch, frozen)
    ensures AllInStep(store.items, Part(pending, batch), frozen)
    ensures Part(pending, batch).Keys == batch
  {
  }

  /** A saved item that becomes clean is exactly what was sent. */
  lemma {:induction false} CleanAfterSave(item: Item, body: Body, frozen: nat)
    requires InStep(item, body, frozen) && !StillDirty(item)
    ensures item.body == body
  {
  }

  lemma {:induction false} RetrieveKeeps(store: Store, retrieved: map<Uuid, Body>, store': Store)
    requires Stored(store)
    requires store'.items == Emit(store.items, Retrieved(store.items, retrieved))
    requires store'.dirtyIndex == store.dirtyIndex && store'.sent == store.sent
    requires store'.offline == store.offline
    requires store'.acked == AckRetrieved(store.acked, Retrieved(store.items, retrieved))
    ensures Stored(store')
    ensures forall u :: u in store.items && store.items[u].dirty ==>
      u in store'.items && store'.items[u] == store.items[u]
  {
  }

  lemma {:induction false} SaveKeeps(store: Store, base: map<Uuid, Item>, batch: map<Uuid, Body>, saved: set<Uuid>,
                                     synced: set<Uuid>, byServer: bool, frozen: nat, store': Store)
    requires Stored(store) && AllInStep(base, batch, frozen) && saved <= batch.Keys
    requires forall u :: u in batch ==> u in store.items && store.items[u] == base[u]
    requires byServer || saved <= store'.offline
    requires store'.items == Emit(store.items, Saved(base, saved, synced))
    requires store'.acked == AckSaved(store.acked, batch, saved, byServer)
    requires store'.dirtyIndex == store.dirtyIndex && store.sent <= store'.sent <= store.sent + saved
    requires store.offline <= store'.offline
    ensures Stored(store')
    ensures forall u :: u in store.items && u !in saved ==> u in store'.items && store'.items[u] == store.items[u]
  {
    forall u | u in saved ensures u in base && (!StillDirty(base[u]) ==> base[u].body == batch[u]) {
      if !StillDirty(base[u]) {
        CleanAfterSave(base[u], batch[u], frozen);
      }
    }
  }

  lemma {:induction false} SuccessKeeps(store: Store, batch: map<Uuid, Body>, saved: set<Uuid>,
                                        retrieved: map<Uuid, Body>, pending: map<Uuid, Body>, frozen: nat)
    requires Stored(store) && AllInStep(store.items, batch, frozen) && saved <= batch.Keys
    requires AllInStep(store.items, pending, frozen) && batch.Keys !! pending.Keys
    ensures Stored(AfterSuccess(store, batch, saved, retrieved))
    ensures AllInStep(AfterSuccess(store, batch, saved, retrieved).items, pending, frozen)
  {
    var incoming := Retrieved(store.items, retrieved);
    var middle := store.(
      items := Emit(store.items, incoming), acked := AckRetrieved(store.acked, incoming));
    RetrieveKeeps(store, retrieved, middle);
    SaveKeeps(middle, store.items, batch, saved, saved, true, frozen, AfterSuccess(store, batch, saved, retrieved));
  }

  /** Saving offline acknowledges what was carried, and nothing else. */
  lemma {:induction false} OfflineKeeps(store: Store, batch: map<Uuid, Body>, synced: set<Uuid>, frozen: nat)
    requires Stored(store) && AllInStep(store.items, batch, frozen)
    ensures Stored(AfterOffline(store, batch, synced))
    ensures AfterOffline(store, batch, synced).acked.Keys == store.acked.Keys + batch.Keys
    ensures forall u :: u in batch ==> AfterOffline(store, batch, synced).acked[u] == Ack(batch[u], false)
    ensures forall u :: u in store.acked && u !in batch ==>
      AfterOffline(store, batch, synced).acked[u] == store.acked[u]
  {
    SaveKeeps(store, store.items, batch, batch.Keys, synced, false, frozen, AfterOffline(store, batch, synced));
  }

  /**
   A new call collects or sets aside each dirty item, and sets aside those deleted before their first sync.
   An edit that comes later is not covered: saved with the stamp of this call, its item stays dirty.
   */
  lemma {:induction false} CallCollects(s: State, options: Options, u: Uuid, later: Store, body: Body)
    ensures var call := PerformSync(s, options).calls[s.nextCall]; var items := s.store.items;
      && (u in call.items || u in call.neverSyncedDeleted <==> u in items && items[u].dirty)
      && (u in call.neverSyncedDeleted <==>
            u in items && items[u].dirty && items[u].neverSynced && items[u].body.Tombstone?)
      && call.items !! call.neverSyncedDeleted && call.frozen == s.store.dirtyIndex
      && PerformSync(s, options).store == s.store
    ensures u in later.items && later.dirtyIndex >= s.store.dirtyIndex ==>
      StillDirty(Edited(later, u, body).items[u].(
        syncIndex := Some(PerformSync(s, options).calls[s.nextCall].frozen)))
  {
    var call := PerformSync(s, options).calls[s.nextCall];
    assert call.items == DirtyItems(s.store.items) - call.neverSyncedDeleted;
    assert call.neverSyncedDeleted == NeverSyncedDeleted(s.store.items);
  }

  // ----- Every step keeps the invariant

  /** The lock holder moves on and nobody else holds the lock. */
  lemma {:induction false} HolderKeepsUpdates(s: State, t: State, c: CallId)
    requires Locking(s) && c in s.calls && HoldsLock(s.calls[c])
    requires t.calls.Keys == s.calls.Keys && forall d :: d in s.calls && d != c ==> t.calls[d] == s.calls[d]
    requires Stored(t.store) && (HoldsLock(t.calls[c]) ==> Follows(t.store, t.calls[c]))
    ensures Updates(t)
  {
  }

  lemma {:induction false} OutsideKeepsUpdates(s: State, a: Action)
    requires Updates(s) && Enabled(s, a) && OutsideCalls(a)
    ensures Updates(Next(s, a))
  {
    match a
    case Edit(u, body) => EditKeeps(s.store, u, body);
    case CreateItem(u, body, dirty) => CreateKeeps(s.store, u, body, dirty);
    case LoadDatabase =>
    case SetClientLock(locked) =>
  }

  lemma {:induction false} SyncKeepsUpdates(s: State, options: Options)
    requires Updates(s)
    ensures Updates(SyncOrSkip(s, options))
  {
  }

  /** A step that leaves the store alone, of calls that do not hold the lock. */
  lemma {:induction false} IdleKeepsUpdates(s: State, t: State)
    requires Updates(s) && t.store == s.store
    requires forall c :: c in t.calls && HoldsLock(t.calls[c]) ==> c in s.calls && t.calls[c] == s.calls[c]
    ensures Updates(t)
  {
  }

  lemma {:induction false} BeginKeepsUpdates(s: State, c: CallId)
    requires Updates(s) && Locking(s) && c in s.calls && s.calls[c].phase == Preparing(true)
    ensures Updates(DoEnterOrDefer(s, c))
  {
    HolderKeepsUpdates(s, DoEnterOrDefer(s, c), c);
  }

  lemma {:induction false} StampKeepsUpdates(s: State, c: CallId)
    requires Updates(s) && Locking(s) && c in s.calls && s.calls[c].phase.Beginning?
    ensures Updates(DoStamp(s, c))
  {
    StampKeeps(s.store, s.calls[c].items, s.calls[c].frozen);
    HolderKeepsUpdates(s, DoStamp(s, c), c);
  }

  lemma {:induction false} CollectKeepsUpdates(s: State, c: CallId)
    requires Updates(s) && Locking(s) && c in s.calls && s.calls[c].phase.Stamped?
    ensures Updates(DoCollect(s, c))
  {
    HolderKeepsUpdates(s, DoCollect(s, c), c);
  }

  lemma {:induction false} CreateOperationKeepsUpdates(s: State, c: CallId, online: bool)
    requires Updates(s) && Locking(s) && c in s.calls && s.calls[c].phase.Collected?
    ensures Updates(DoCreateOperation(s, c, online))
  {
    HolderKeepsUpdates(s, DoCreateOperation(s, c, online), c);
  }

  lemma {:induction false} SendBatchKeepsUpdates(s: State, c: CallId, batch: set<Uuid>)
    requires Updates(s) && Locking(s) && c in s.calls && s.calls[c].phase.Running? && s.calls[c].phase.inFlight.None?
    requires s.calls[c].phase.online && batch <= s.calls[c].phase.pending.Keys
    ensures Updates(DoSendBatch(s, c, batch))
  {
    SendKeeps(s.store, s.calls[c].phase.pending, batch, s.calls[c].frozen);
    HolderKeepsUpdates(s, DoSendBatch(s, c, batch), c);
  }

  lemma {:induction false} ReceiveErrorKeepsUpdates(s: State, c: CallId, more: bool)
    requires Updates(s) && Locking(s) && c in s.calls && s.calls[c].phase.Running?
    ensures Updates(DoReceiveError(s, c, more)) && DoReceiveError(s, c, more).store == s.store
  {
    HolderKeepsUpdates(s, DoReceiveError(s, c, more), c);
  }

  lemma {:induction false} ReceiveSuccessKeepsUpdates(s: State, c: CallId, saved: set<Uuid>,
                                                      retrieved: map<Uuid, Body>, more: bool)
    requires Updates(s) && Locking(s) && c in s.calls && s.calls[c].phase.Running? && s.calls[c].phase.inFlight.Some?
    requires saved <= s.calls[c].phase.inFlight.value.Keys
    ensures Updates(DoReceiveSuccess(s, c, saved, retrieved, more))
  {
    var phase := s.calls[c].phase;
    SuccessKeeps(s.store, phase.inFlight.value, saved, retrieved, phase.pending, s.calls[c].frozen);
    HolderKeepsUpdates(s, DoReceiveSuccess(s, c, saved, retrieved, more), c);
  }

  lemma {:induction false} RunOfflineKeepsUpdates(s: State, c: CallId, synced: set<Uuid>)
    requires Updates(s) && Locking(s) && c in s.calls && s.calls[c].phase.Running?
    requires !s.calls[c].phase.online
    ensures Updates(DoRunOffline(s, c, synced))
  {
    OfflineKeeps(s.store, s.calls[c].phase.pending, synced, s.calls[c].frozen);
    HolderKeepsUpdates(s, DoRunOffline(s, c, synced), c);
  }

  lemma {:induction false} FailKeepsUpdates(s: State, c: CallId)
    requires Updates(s) && Locking(s) && c in s.calls && s.calls[c].phase.Running?
    ensures Updates(DoFail(s, c))
  {
    HolderKeepsUpdates(s, DoFail(s, c), c);
  }

  lemma {:induction false} DiscardKeeps(store: Store, uuids: set<Uuid>)
    requires Stored(store)
    ensures Stored(store.(items := store.items - uuids))
  {
  }

  lemma {:induction false} CompleteKeepsUpdates(s: State, c: CallId)
    requires Updates(s) && Locking(s) && c in s.calls && s.calls[c].phase.Running?
    ensures Updates(DoComplete(s, c))
  {
    DiscardKeeps(s.store, s.calls[c].neverSyncedDeleted);
    HolderKeepsUpdates(s, DoComplete(s, c), c);
  }
}
