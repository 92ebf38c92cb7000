/** What one step does to the items: what becomes of an item that waits, appears, or was sent. */
module SyncStore {
  import opened Wrappers
  import opened SyncModel
  import opened SyncLocking
  import opened SyncUpdates

  /** The edit is still there, waiting to be uploaded. */
  predicate Waits(store: Store, u: Uuid, body: Body, index: Option<nat>) {
    u in store.items && store.items[u].dirty && store.items[u].body == body && store.items[u].dirtyIndex == index
  }

  /** The edit was acknowledged: the item is gone only if it was deleted. */
  predicate IsAcknowledged(store: Store, u: Uuid, body: Body) {
    && u in store.acked && store.acked[u].body == body && (store.acked[u].byServer || u in store.offline)
    && if u in store.items then store.items[u].body == body else body.Tombstone?
  }

  predicate DeletionAcknowledged(store: Store, u: Uuid) {
    u in store.acked && store.acked[u].body.Tombstone?
  }

  /** The item has left the collection although nobody has acknowledged its deletion. */
  predicate Lost(store: Store, u: Uuid) {
    u !in store.items && !DeletionAcknowledged(store, u)
  }

  /** An operation completes whose call had collected the item as created and deleted without ever being synced. */
  predicate Drops(s: State, a: Action, u: Uuid) {
    a.Finish? && Enabled(s, a) && !s.error && u in s.calls[a.c].neverSyncedDeleted
  }

  predicate Touches(a: Action, u: Uuid) {
    (a.Edit? || a.CreateItem?) && a.uuid == u
  }

  // ----- The store after a step

  function StoreAfter(s: State, a: Action): Store
    requires Enabled(s, a)
  {
    match a
    case Stamp(c) => s.store.(items := StampItems(s.store.items, s.calls[c].items, s.calls[c].frozen))
    case SendBatch(_, batch) => AfterSend(s.store, batch)
    case ReceiveSuccess(c, saved, retrieved, _) =>
      AfterSuccess(s.store, s.calls[c].phase.inFlight.value, saved, retrieved)
    case RunOffline(c, synced) => AfterOffline(s.store, s.calls[c].phase.pending, synced)
    case Finish(c) =>
      if s.error then s.store else s.store.(items := s.store.items - s.calls[c].neverSyncedDeleted)
    case Edit(u, body) => Edited(s.store, u, body)
    case CreateItem(u, body, dirty) => Created(s.store, u, body, dirty)
    case _ => s.store
  }

  lemma {:induction false} SyncKeepsStore(s: State, options: Options)
    ensures SyncOrSkip(s, options).store == s.store
  {
  }

  lemma {:induction false} SyncAgainKeepsStore(s: State)
    ensures SyncAgain(s).store == s.store
  {
    if s.spawnQueue != [] {
      var spawn := s.spawnQueue[0].(strategy := ForceSpawnNew);
      SyncKeepsStore(PopSpawn(s), spawn);
      SyncKeepsStore(SyncOrSkip(PopSpawn(s), spawn), DEFAULT_OPTIONS);
    } else {
      SyncKeepsStore(s, DEFAULT_OPTIONS);
    }
  }

  lemma {:induction false} ContinueKeepsStore(s: State, c: CallId)
    requires c in s.calls && s.calls[c].phase.Finishing?
    ensures DoContinue(s, c).store == s.store
  {
    SyncAgainKeepsStore(SetPhase(s, c, SyncModel.Resolving));
  }

  lemma {:induction false} EnterKeepsStore(s: State, c: CallId)
    requires c in s.calls && s.calls[c].phase.Preparing?
    ensures DoEnterOrDefer(s, c).store == s.store
  {
    DeferKeepsTheRest(SetPhase(s, c, Ended), c, s.calls[c].options);
  }

  lemma {:induction false} SyncAfterDownloadKeepsStore(s: State, c: CallId)
    requires c in s.calls
    ensures SyncOrSkip(SetPhase(s, c, SyncModel.Resolving), DEFAULT_OPTIONS).store == s.store
  {
    SyncKeepsStore(SetPhase(s, c, SyncModel.Resolving), DEFAULT_OPTIONS);
  }

  lemma {:induction false} InsideStore(s: State, a: Action)
    requires Enabled(s, a) && InsideOperation(a)
    ensures Next(s, a).store == StoreAfter(s, a)
  {
  }

  /** Only sending, saving, stamping, completing and local changes touch the store. */
  lemma {:induction false} StoreOfStep(s: State, a: Action)
    requires Enabled(s, a)
    ensures Next(s, a).store == StoreAfter(s, a)
  {
    if InsideOperation(a) {
      InsideStore(s, a);
    } else {
      match a
      case Sync(options) => SyncKeepsStore(s, options);
      case EnterOrDefer(c) => EnterKeepsStore(s, c);
      case Stamp(c) => assert DoStamp(s, c).store == StoreAfter(s, a);
      case Finish(c) => assert DoFinish(s, c).store == StoreAfter(s, a);
      case Continue(c) => ContinueKeepsStore(s, c);
      case SyncAfterDownload(c) => SyncAfterDownloadKeepsStore(s, c);
      case Resolve(c) => assert DoResolve(s, c).store == s.store;
      case Edit(_, _) =>
      case CreateItem(_, _, _) =>
      case LoadDatabase =>
      case SetClientLock(_) =>
    }
  }

  // ----- An item that waits

  /** The item has a number that was given after this dirty index was read. */
  predicate ChangedSince(item: Item, frozen: nat) {
    item.dirtyIndex.Some? && item.dirtyIndex.value > frozen
  }

  lemma {:induction false} SuccessOutcome(store: Store, batch: map<Uuid, Body>, saved: set<Uuid>,
                                          retrieved: map<Uuid, Body>, frozen: nat, u: Uuid)
    requires AllInStep(store.items, batch, frozen) && saved <= batch.Keys
    requires u in store.items && store.items[u].dirty
    ensures var t := AfterSuccess(store, batch, saved, retrieved);
      if u in saved && !ChangedSince(store.items[u], frozen) then IsAcknowledged(t, u, store.items[u].body)
      else Waits(t, u, store.items[u].body, store.items[u].dirtyIndex)
  {
    var incoming := Retrieved(store.items, retrieved);
    assert u !in incoming;
    assert u in Emit(store.items, incoming);
    if u in saved && !ChangedSince(store.items[u], frozen) {
      CleanAfterSave(store.items[u], batch[u], frozen);
    }
  }

  lemma {:induction false} OfflineOutcome(store: Store, batch: map<Uuid, Body>, synced: set<Uuid>,
                                          frozen: nat, u: Uuid)
    requires AllInStep(store.items, batch, frozen) && u in store.items && store.items[u].dirty
    ensures var t := AfterOffline(store, batch, synced);
      if u in batch && !ChangedSince(store.items[u], frozen) then IsAcknowledged(t, u, store.items[u].body)
      else Waits(t, u, store.items[u].body, store.items[u].dirtyIndex)
  {
    if u in batch && !ChangedSince(store.items[u], frozen) {
      CleanAfterSave(store.items[u], batch[u], frozen);
    }
  }

  /** What becomes of a dirty item that a step does not edit. */
  ghost predicate Outcome(s: State, t: State, a: Action, u: Uuid)
    requires u in s.store.items
  {
    var item := s.store.items[u];
    || Waits(t.store, u, item.body, item.dirtyIndex)
    || IsAcknowledged(t.store, u, item.body)
    || Drops(s, a, u)
  }

  lemma {:induction false} ItemOutcome(s: State, a: Action, u: Uuid)
    requires Updates(s) && Enabled(s, a) && !Touches(a, u)
    requires u in s.store.items && s.store.items[u].dirty
    ensures var item := s.store.items[u]; var store := StoreAfter(s, a);
      || Waits(store, u, item.body, item.dirtyIndex)
      || IsAcknowledged(store, u, item.body)
      || (Drops(s, a, u) && u !in store.items)
  {
    if a.ReceiveSuccess? {
      SuccessOutcome(s.store, s.calls[a.c].phase.inFlight.value, a.saved, a.retrieved, s.calls[a.c].frozen, u);
    } else if a.RunOffline? {
      OfflineOutcome(s.store, s.calls[a.c].phase.pending, a.synced, s.calls[a.c].frozen, u);
    }
  }

  /** After any step, a dirty item waits as it was, or is acknowledged, or was dropped. */
  lemma {:induction false} EditSurvivesStep(s: State, a: Action, u: Uuid)
    requires Updates(s) && Enabled(s, a) && !Touches(a, u)
    requires u in s.store.items && s.store.items[u].dirty
    ensures Outcome(s, Next(s, a), a, u)
  {
    StoreOfStep(s, a);
    ItemOutcome(s, a, u);
  }

  /** A live item that waits leaves the collection exactly when a call that took it for never synced completes. */
  lemma {:induction false} LiveEditGoneIff(s: State, a: Action, u: Uuid)
    requires Updates(s) && Enabled(s, a) && !Touches(a, u)
    requires u in s.store.items && s.store.items[u].dirty && s.store.items[u].body.Live?
    ensures u !in Next(s, a).store.items <==> Drops(s, a, u)
  {
    StoreOfStep(s, a);
    ItemOutcome(s, a, u);
  }

  /** A deletion that waits unacknowledged is lost exactly when a call that took it for never synced completes. */
  lemma {:induction false} DeletionLostNowIff(s: State, a: Action, u: Uuid)
    requires Updates(s) && Enabled(s, a) && !Touches(a, u) && !DeletionAcknowledged(s.store, u)
    requires u in s.store.items && s.store.items[u].dirty && s.store.items[u].body.Tombstone?
    ensures Lost(Next(s, a).store, u) <==> Drops(s, a, u)
  {
    StoreOfStep(s, a);
    ItemOutcome(s, a, u);
  }

  /** Only an edit makes an item dirty: one that is dirty was so before, with the same content. */
  lemma {:induction false} DirtyBefore(s: State, a: Action, u: Uuid)
    requires Updates(s) && Enabled(s, a) && !Touches(a, u)
    requires u in StoreAfter(s, a).items && StoreAfter(s, a).items[u].dirty
    ensures var item := StoreAfter(s, a).items[u]; Waits(s.store, u, item.body, item.dirtyIndex)
  {
    if a.ReceiveSuccess? {
      var phase := s.calls[a.c].phase;
      DirtyBeforeSuccess(s.store, phase.inFlight.value, a.saved, a.retrieved, s.calls[a.c].frozen, u);
    } else if a.RunOffline? {
      DirtyBeforeOffline(s.store, s.calls[a.c].phase.pending, a.synced, s.calls[a.c].frozen, u);
    }
  }

  lemma {:induction false} DirtyBeforeSuccess(store: Store, batch: map<Uuid, Body>, saved: set<Uuid>,
                                              retrieved: map<Uuid, Body>, frozen: nat, u: Uuid)
    requires AllInStep(store.items, batch, frozen) && saved <= batch.Keys
    requires var t := AfterSuccess(store, batch, saved, retrieved); u in t.items && t.items[u].dirty
    ensures var item := AfterSuccess(store, batch, saved, retrieved).items[u];
      Waits(store, u, item.body, item.dirtyIndex)
  {
  }

  lemma {:induction false} DirtyBeforeOffline(store: Store, batch: map<Uuid, Body>, synced: set<Uuid>,
                                              frozen: nat, u: Uuid)
    requires AllInStep(store.items, batch, frozen)
    requires var t := AfterOffline(store, batch, synced); u in t.items && t.items[u].dirty
    ensures var item := AfterOffline(store, batch, synced).items[u]; Waits(store, u, item.body, item.dirtyIndex)
  {
  }

  // ----- An item that was sent

  lemma {:induction false} SuccessVanishes(store: Store, batch: map<Uuid, Body>, saved: set<Uuid>,
                                           retrieved: map<Uuid, Body>, frozen: nat, u: Uuid)
    requires AllInStep(store.items, batch, frozen) && saved <= batch.Keys
    requires u in store.items || DeletionAcknowledged(store, u)
    ensures var t := AfterSuccess(store, batch, saved, retrieved); u in t.items || DeletionAcknowledged(t, u)
  {
    if u in store.items && store.items[u].dirty {
      SuccessOutcome(store, batch, saved, retrieved, frozen, u);
    }
  }

  lemma {:induction false} OfflineVanishes(store: Store, batch: map<Uuid, Body>, synced: set<Uuid>,
                                           frozen: nat, u: Uuid)
    requires AllInStep(store.items, batch, frozen)
    requires u in store.items || DeletionAcknowledged(store, u)
    ensures var t := AfterOffline(store, batch, synced); u in t.items || DeletionAcknowledged(t, u)
  {
    if u in store.items && store.items[u].dirty {
      OfflineOutcome(store, batch, synced, frozen, u);
    }
  }

  lemma {:induction false} VanishesStep(s: State, a: Action, u: Uuid)
    requires Updates(s) && Enabled(s, a)
    requires u in s.store.items || DeletionAcknowledged(s.store, u)
    ensures u in StoreAfter(s, a).items || DeletionAcknowledged(StoreAfter(s, a), u) || Drops(s, a, u)
  {
    if a.ReceiveSuccess? {
      var phase := s.calls[a.c].phase;
      SuccessVanishes(s.store, phase.inFlight.value, a.saved, a.retrieved, s.calls[a.c].frozen, u);
    } else if a.RunOffline? {
      OfflineVanishes(s.store, s.calls[a.c].phase.pending, a.synced, s.calls[a.c].frozen, u);
    }
  }

  /** Only items that are in the collection are sent. */
  lemma {:induction false} SentIsThere(s: State, a: Action, u: Uuid)
    requires Updates(s) && Enabled(s, a) && u !in s.store.sent && u in StoreAfter(s, a).sent
    ensures u in s.store.items
  {
    if a.RunOffline? || a.SendBatch? {
      assert AllInStep(s.store.items, s.calls[a.c].phase.pending, s.calls[a.c].frozen);
    }
  }
}
