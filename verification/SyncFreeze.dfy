/** The freeze: an item is still dirty after it was saved exactly when it was edited after its call was made. */
module SyncFreeze {
  import opened SyncModel
  import opened SyncLocking
  import opened SyncUpdates
  import opened SyncStore
  import opened SyncCalls
  import opened SyncSurvival
  import opened SyncTheorems
  import opened SyncOutcomes

  /** Action `i` edits the item when the call is there already. */
  ghost predicate EditsAt(actions: seq<Action>, i: nat, c: CallId, u: Uuid) {
    Happens(actions, i) && actions[i].Edit? && actions[i].uuid == u && c in At(actions, i).calls
  }

  ghost predicate EditedSince(actions: seq<Action>, n: nat, c: CallId, u: Uuid) {
    exists i: nat :: i < n && EditsAt(actions, i, c, u)
  }

  /** What a call has collected and not yet seen saved. */
  function Tracked(call: Call): set<Uuid> {
    if call.phase.Collected? || call.phase.Running? then Uploading(call.phase) else call.items
  }

  lemma {:induction false} TrackedIsDirty(s: State, c: CallId, u: Uuid)
    requires Updates(s) && c in s.calls && HoldsLock(s.calls[c]) && u in Tracked(s.calls[c])
    ensures u in s.store.items && s.store.items[u].dirty && s.calls[c].frozen <= s.store.dirtyIndex
  {
    assert Follows(s.store, s.calls[c]);
  }

  // ----- One step

  ghost predicate CallFrozen(before: Call, after: Call) {
    after.frozen == before.frozen && (HoldsLock(after) ==> HoldsLock(before) && Tracked(after) <= Tracked(before))
  }

  /** Calls keep the index they have frozen and track no more; a new call freezes the index of now. */
  ghost predicate KeepsFrozen(s: State, t: State) {
    && (forall c :: c in s.calls ==> c in t.calls && CallFrozen(s.calls[c], t.calls[c]))
    && (forall c :: c in t.calls && c !in s.calls ==> t.calls[c].frozen == s.store.dirtyIndex)
  }

  lemma {:induction false} OneCallFrozen(s: State, t: State, c: CallId)
    requires c in s.calls && c in t.calls && t.calls == s.calls[c := t.calls[c]]
    requires CallFrozen(s.calls[c], t.calls[c])
    ensures KeepsFrozen(s, t)
  {
  }

  lemma {:induction false} StartedFreeze(s: State, c: CallId, t: State)
    requires c in s.calls && OnlyStarts(SetPhase(s, c, SyncModel.Resolving), t)
    ensures KeepsFrozen(s, t)
  {
  }

  lemma {:induction false} ContinueFreezes(s: State, c: CallId)
    requires Locking(s) && Enabled(s, Continue(c))
    ensures KeepsFrozen(s, DoContinue(s, c))
  {
    if s.calls[c].phase.ranMode == Default {
      ContinueOnlyStarts(s, c);
      StartedFreeze(s, c, DoContinue(s, c));
    } else {
      OneCallFrozen(s, DoContinue(s, c), c);
    }
  }

  lemma {:induction false} BeginFreezes(s: State, c: CallId)
    requires c in s.calls && s.calls[c].phase == Preparing(true)
    ensures KeepsFrozen(s, DoEnterOrDefer(s, c))
  {
    OneCallFrozen(s, DoEnterOrDefer(s, c), c);
  }

  lemma {:induction false} EnterFreezes(s: State, c: CallId)
    requires c in s.calls && s.calls[c].phase.Preparing?
    ensures KeepsFrozen(s, DoEnterOrDefer(s, c))
  {
    if s.calls[c].phase.executes {
      BeginFreezes(s, c);
    } else {
      var ended := SetPhase(s, c, SyncModel.Ended);
      OneCallFrozen(s, ended, c);
      DeferKeepsTheRest(ended, c, s.calls[c].options);
    }
  }

  lemma {:induction false} InsideTracksNoMore(s: State, a: Action)
    requires Enabled(s, a) && InsideOperation(a) && a.c in Next(s, a).calls && Carrying(Next(s, a).calls[a.c])
    ensures Tracked(Next(s, a).calls[a.c]) <= Tracked(s.calls[a.c])
  {
    match a
    case Collect(c) => CollectUploadsNoMore(s, c);
    case CreateOperation(c, online) => LaunchUploadsNoMore(s, c, online);
    case SendBatch(c, batch) => SendUploadsNoMore(s, c, batch);
    case ReceiveError(c, more) => ErrorUploadsNoMore(s, c, more);
    case ReceiveSuccess(c, saved, retrieved, more) => SuccessUploadsNoMore(s, c, saved, retrieved, more);
    case RunOffline(c, synced) => OfflineUploadsNoMore(s, c, synced);
  }

  lemma {:induction false} StampFreezes(s: State, c: CallId)
    requires Enabled(s, Stamp(c))
    ensures KeepsFrozen(s, DoStamp(s, c))
  {
    OneCallFrozen(s, DoStamp(s, c), c);
  }

  lemma {:induction false} FinishFreezes(s: State, c: CallId)
    requires Enabled(s, Finish(c))
    ensures KeepsFrozen(s, DoFinish(s, c))
  {
    OneCallFrozen(s, DoFinish(s, c), c);
  }

  lemma {:induction false} ResolveFreezes(s: State, c: CallId)
    requires Enabled(s, Resolve(c))
    ensures KeepsFrozen(s, DoResolve(s, c))
  {
    OneCallFrozen(s, DoResolve(s, c), c);
  }

  lemma {:induction false} AfterDownloadFreezes(s: State, c: CallId)
    requires Locking(s) && Enabled(s, SyncAfterDownload(c))
    ensures KeepsFrozen(s, Next(s, SyncAfterDownload(c)))
  {
    AfterDownloadOnlyStarts(s, c);
    StartedFreeze(s, c, Next(s, SyncAfterDownload(c)));
  }

  lemma {:induction false} InsideFreezes(s: State, a: Action)
    requires Enabled(s, a) && InsideOperation(a)
    ensures KeepsFrozen(s, Next(s, a))
  {
    InsideOperationSteps(s, a);
    InsideTracksNoMore(s, a);
    OneCallFrozen(s, Next(s, a), a.c);
  }

  lemma {:induction false} StepFreezes(s: State, a: Action)
    requires Locking(s) && Enabled(s, a)
    ensures KeepsFrozen(s, Next(s, a))
  {
    if InsideOperation(a) {
      InsideFreezes(s, a);
    } else if OutsideCalls(a) {
      OutsideSteps(s, a);
    } else {
      match a
      case Sync(options) => SyncOnlyStarts(s, options);
      case EnterOrDefer(c) => EnterFreezes(s, c);
      case Stamp(c) => StampFreezes(s, c);
      case Finish(c) => FinishFreezes(s, c);
      case Continue(c) => ContinueFreezes(s, c);
      case SyncAfterDownload(c) => AfterDownloadFreezes(s, c);
      case Resolve(c) => ResolveFreezes(s, c);
    }
  }

  // ----- Whole runs

  lemma {:induction false} CallsStayThere(actions: seq<Action>, i: nat, n: nat, c: CallId)
    requires i <= n <= |actions| && c in At(actions, i).calls
    ensures c in At(actions, n).calls
  {
    if i < n {
      CallsStayThere(actions, i, n - 1, c);
      RunStep(actions, n - 1);
      RunKeepsInv(actions[..n - 1]);
      if Enabled(At(actions, n - 1), actions[n - 1]) {
        StepFreezes(At(actions, n - 1), actions[n - 1]);
      }
    }
  }

  lemma {:induction false} EditedOneMore(actions: seq<Action>, n: nat, c: CallId, u: Uuid)
    ensures EditedSince(actions, n + 1, c, u) <==>
      || EditedSince(actions, n, c, u)
      || EditsAt(actions, n, c, u)
  {
    if i: nat :| i < n + 1 && EditsAt(actions, i, c, u) {
      assert i < n || EditsAt(actions, n, c, u);
    }
  }

  /** Nothing was edited since a call that is only just made. */
  lemma {:induction false} NotEditedYet(actions: seq<Action>, n: nat, c: CallId, u: Uuid)
    requires n < |actions| && c !in At(actions, n).calls
    ensures !EditedSince(actions, n + 1, c, u)
  {
    if i: nat :| i < n + 1 && EditsAt(actions, i, c, u) {
      CallsStayThere(actions, i, n, c);
    }
  }

  /** The call holds the lock and tracks the item. */
  ghost predicate Tracks(s: State, c: CallId, u: Uuid) {
    c in s.calls && HoldsLock(s.calls[c]) && u in Tracked(s.calls[c]) && u in s.store.items
  }

  lemma {:induction false} TrackedBefore(actions: seq<Action>, n: nat, c: CallId, u: Uuid)
    requires n < |actions| && Tracks(At(actions, n + 1), c, u) && c in At(actions, n).calls
    ensures Tracks(At(actions, n), c, u)
    ensures At(actions, n).calls[c].frozen == At(actions, n + 1).calls[c].frozen <= At(actions, n).store.dirtyIndex
  {
    RunStep(actions, n);
    RunKeepsInv(actions[..n]);
    if Enabled(At(actions, n), actions[n]) {
      StepFreezes(At(actions, n), actions[n]);
    }
    TrackedIsDirty(At(actions, n), c, u);
  }

  /** For whoever holds the lock, the frozen index tells the edits before the call from those after it. */
  lemma {:induction false} FrozenIndexTells(actions: seq<Action>, n: nat, c: CallId, u: Uuid)
    requires n <= |actions| && Tracks(At(actions, n), c, u)
    ensures ChangedSince(At(actions, n).store.items[u], At(actions, n).calls[c].frozen)
      <==> EditedSince(actions, n, c, u)
  {
    if n > 0 {
      if c in At(actions, n - 1).calls {
        TrackedBefore(actions, n - 1, c, u);
        FrozenIndexTells(actions, n - 1, c, u);
        IndexMovesOn(actions, n - 1, c, u);
        EditedOneMore(actions, n - 1, c, u);
      } else {
        NotEditedYet(actions, n - 1, c, u);
        NewCallIsAhead(actions, n - 1, c, u);
      }
    }
  }

  lemma {:induction false} NewCallIsAhead(actions: seq<Action>, n: nat, c: CallId, u: Uuid)
    requires n < |actions| && c !in At(actions, n).calls && Tracks(At(actions, n + 1), c, u)
    ensures !ChangedSince(At(actions, n + 1).store.items[u], At(actions, n + 1).calls[c].frozen)
  {
    RunStep(actions, n);
    RunKeepsInv(actions[..n]);
    StepFreezes(At(actions, n), actions[n]);
    NewCallKeepsStore(At(actions, n), actions[n], c);
  }

  /** An edit gives the item an index beyond the frozen one; any other step leaves the index of a dirty item alone. */
  lemma {:induction false} StepMovesIndex(s: State, a: Action, u: Uuid, frozen: nat)
    requires Inv(s) && Enabled(s, a) && frozen <= s.store.dirtyIndex && !a.CreateItem?
    requires u in s.store.items && u in StoreAfter(s, a).items && StoreAfter(s, a).items[u].dirty
    ensures ChangedSince(StoreAfter(s, a).items[u], frozen) <==>
      (a.Edit? && a.uuid == u) || ChangedSince(s.store.items[u], frozen)
  {
    if !Touches(a, u) {
      DirtyBefore(s, a, u);
    }
  }

  lemma {:induction false} CreatedIsOther(s: State, a: Action, u: Uuid)
    requires Enabled(s, a) && a.CreateItem? && u in s.store.items
    ensures u in StoreAfter(s, a).items && StoreAfter(s, a).items[u] == s.store.items[u]
  {
  }

  lemma {:induction false} IndexMovesOn(actions: seq<Action>, n: nat, c: CallId, u: Uuid)
    requires n < |actions| && Tracks(At(actions, n), c, u) && Tracks(At(actions, n + 1), c, u)
    requires At(actions, n).calls[c].frozen == At(actions, n + 1).calls[c].frozen <= At(actions, n).store.dirtyIndex
    ensures ChangedSince(At(actions, n + 1).store.items[u], At(actions, n + 1).calls[c].frozen) <==>
      || EditsAt(actions, n, c, u)
      || ChangedSince(At(actions, n).store.items[u], At(actions, n).calls[c].frozen)
  {
    var s, a := At(actions, n), actions[n];
    RunStep(actions, n);
    if Enabled(s, a) {
      StoreOfStep(s, a);
      TrackedAtIsDirty(actions, n + 1, c, u);
      RunKeepsInv(actions[..n]);
      if a.CreateItem? {
        CreatedIsOther(s, a, u);
      } else {
        StepMovesIndex(s, a, u, s.calls[c].frozen);
      }
    }
  }

  lemma {:induction false} TrackedAtIsDirty(actions: seq<Action>, n: nat, c: CallId, u: Uuid)
    requires n <= |actions| && Tracks(At(actions, n), c, u)
    ensures At(actions, n).store.items[u].dirty
  {
    RunKeepsInv(actions[..n]);
    TrackedIsDirty(At(actions, n), c, u);
  }

  lemma {:induction false} SuccessClears(store: Store, batch: map<Uuid, Body>, saved: set<Uuid>,
                                         retrieved: map<Uuid, Body>, frozen: nat, u: Uuid)
    requires AllInStep(store.items, batch, frozen) && saved <= batch.Keys && u in saved
    requires !ChangedSince(store.items[u], frozen)
    ensures var t := AfterSuccess(store, batch, saved, retrieved); u in t.items ==> !t.items[u].dirty
  {
  }

  /** What an answer makes of an item that it says is saved. */
  ghost predicate SavedAs(before: Store, after: Store, u: Uuid, changed: bool)
    requires u in before.items
  {
    var body := before.items[u].body;
    if changed then u in after.items && after.items[u].dirty && after.items[u].body == body
    else IsAcknowledged(after, u, body) && (u in after.items ==> !after.items[u].dirty)
  }

  lemma {:induction false} SuccessSaves(store: Store, batch: map<Uuid, Body>, saved: set<Uuid>,
                                        retrieved: map<Uuid, Body>, frozen: nat, u: Uuid)
    requires AllInStep(store.items, batch, frozen) && saved <= batch.Keys && u in saved
    ensures SavedAs(store, AfterSuccess(store, batch, saved, retrieved), u, ChangedSince(store.items[u], frozen))
  {
    SuccessOutcome(store, batch, saved, retrieved, frozen, u);
    if !ChangedSince(store.items[u], frozen) {
      SuccessClears(store, batch, saved, retrieved, frozen, u);
    }
  }

  /**
   What the server has saved is still dirty exactly when it was edited after the call was made that uploaded it,
   however the edits fell between the steps; otherwise its present content is acknowledged.
   */
  lemma {:induction false} SavedIsDirtyIff(actions: seq<Action>, j: nat, u: Uuid)
    requires Happens(actions, j) && actions[j].ReceiveSuccess? && u in actions[j].saved
    ensures u in At(actions, j).store.items && At(actions, j).store.items[u].dirty
    ensures SavedAs(At(actions, j).store, At(actions, j + 1).store, u, EditedSince(actions, j, actions[j].c, u))
  {
    var s, a := At(actions, j), actions[j];
    RunStep(actions, j);
    RunKeepsInv(actions[..j]);
    assert Follows(s.store, s.calls[a.c]);
    TrackedIsDirty(s, a.c, u);
    FrozenIndexTells(actions, j, a.c, u);
    SuccessSaves(s.store, s.calls[a.c].phase.inFlight.value, a.saved, a.retrieved, s.calls[a.c].frozen, u);
    StoreOfStep(s, a);
  }

  lemma {:induction false} OfflineSaves(store: Store, batch: map<Uuid, Body>, synced: set<Uuid>, frozen: nat, u: Uuid)
    requires AllInStep(store.items, batch, frozen) && u in batch
    ensures SavedAs(store, AfterOffline(store, batch, synced), u, ChangedSince(store.items[u], frozen))
  {
    OfflineOutcome(store, batch, synced, frozen, u);
  }

  /** The same for what an offline operation has saved, which is all that it carries. */
  lemma {:induction false} SavedOfflineIsDirtyIff(actions: seq<Action>, j: nat, u: Uuid)
    requires Happens(actions, j) && actions[j].RunOffline?
    requires u in At(actions, j).calls[actions[j].c].phase.pending
    ensures u in At(actions, j).store.items && At(actions, j).store.items[u].dirty
    ensures SavedAs(At(actions, j).store, At(actions, j + 1).store, u, EditedSince(actions, j, actions[j].c, u))
  {
    var s, a := At(actions, j), actions[j];
    RunStep(actions, j);
    RunKeepsInv(actions[..j]);
    assert Follows(s.store, s.calls[a.c]);
    TrackedIsDirty(s, a.c, u);
    FrozenIndexTells(actions, j, a.c, u);
    OfflineSaves(s.store, s.calls[a.c].phase.pending, a.synced, s.calls[a.c].frozen, u);
    StoreOfStep(s, a);
  }
}
