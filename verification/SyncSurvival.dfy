/** What becomes of a local edit: it waits, it is acknowledged, or it is dropped, and exactly when that is. */
module SyncSurvival {
  import opened Wrappers
  import opened SyncModel
  import opened SyncLocking
  import opened SyncUpdates
  import opened SyncStore
  import opened SyncCalls
  import opened SyncSpawns
  import opened SyncTheorems

  /** While the lock holder has set an item aside, nothing but its end changes, acknowledges or drops that item. */
  lemma {:induction false} SetAsideWaits(s: State, a: Action, u: Uuid, c: CallId)
    requires Updates(s) && Locking(s) && AllApart(s) && Enabled(s, a) && !Touches(a, u)
    requires u in s.store.items && s.store.items[u].dirty
    requires c in s.calls && HoldsLock(s.calls[c]) && u in s.calls[c].neverSyncedDeleted && a != Finish(c)
    ensures Waits(StoreAfter(s, a), u, s.store.items[u].body, s.store.items[u].dirtyIndex)
    ensures DeletionAcknowledged(StoreAfter(s, a), u) <==> DeletionAcknowledged(s.store, u)
  {
    if a.ReceiveSuccess? {
      assert a.c == c && Apart(s.calls[c]);
      SuccessOutcome(s.store, s.calls[c].phase.inFlight.value, a.saved, a.retrieved, s.calls[c].frozen, u);
    } else if a.RunOffline? {
      assert a.c == c && Apart(s.calls[c]);
      OfflineOutcome(s.store, s.calls[c].phase.pending, a.synced, s.calls[c].frozen, u);
    }
  }

  // ----- Whole runs

  /** The state before action `i` of a run. */
  function At(actions: seq<Action>, i: nat): State
    requires i <= |actions|
  {
    Run(actions[..i])
  }

  lemma {:induction false} RunStep(actions: seq<Action>, i: nat)
    requires i < |actions|
    ensures At(actions, i + 1) ==
      if Enabled(At(actions, i), actions[i]) then Next(At(actions, i), actions[i]) else At(actions, i)
  {
    assert actions[..i + 1][..i] == actions[..i];
  }

  lemma {:induction false} RunKeepsApart(actions: seq<Action>, i: nat)
    requires i <= |actions|
    ensures AllApart(At(actions, i))
  {
    if i > 0 {
      RunKeepsApart(actions, i - 1);
      RunStep(actions, i - 1);
      if Enabled(At(actions, i - 1), actions[i - 1]) {
        RunKeepsInv(actions[..i - 1]);
        RunKeepsSpawning(actions[..i - 1]);
        StepAdvances(At(actions, i - 1), actions[i - 1]);
      }
    }
  }

  ghost predicate Untouched(actions: seq<Action>, i: nat, u: Uuid) {
    forall j :: i <= j < |actions| ==> !Touches(actions[j], u)
  }

  ghost predicate AcknowledgedBetween(actions: seq<Action>, i: nat, n: nat, u: Uuid, body: Body) {
    exists j :: i < j <= n && j <= |actions| && IsAcknowledged(At(actions, j).store, u, body)
  }

  ghost predicate DroppedBetween(actions: seq<Action>, i: nat, n: nat, u: Uuid) {
    exists j :: i <= j < n && j < |actions| && Drops(At(actions, j), actions[j], u)
  }

  lemma {:induction false} EditSurvivesUntil(actions: seq<Action>, i: nat, n: nat, u: Uuid,
                                             body: Body, index: Option<nat>)
    requires i <= n <= |actions| && Untouched(actions, i, u)
    requires Waits(At(actions, i).store, u, body, index)
    ensures || Waits(At(actions, n).store, u, body, index)
            || AcknowledgedBetween(actions, i, n, u, body)
            || DroppedBetween(actions, i, n, u)
  {
    if i < n {
      EditSurvivesUntil(actions, i, n - 1, u, body, index);
      if Waits(At(actions, n - 1).store, u, body, index) {
        EditSurvivesOneMore(actions, n - 1, u, body, index);
      }
    }
  }

  lemma {:induction false} EditSurvivesOneMore(actions: seq<Action>, i: nat, u: Uuid, body: Body, index: Option<nat>)
    requires i < |actions| && !Touches(actions[i], u) && Waits(At(actions, i).store, u, body, index)
    ensures || Waits(At(actions, i + 1).store, u, body, index)
            || IsAcknowledged(At(actions, i + 1).store, u, body)
            || Drops(At(actions, i), actions[i], u)
  {
    RunStep(actions, i);
    if Enabled(At(actions, i), actions[i]) {
      RunKeepsInv(actions[..i]);
      EditSurvivesStep(At(actions, i), actions[i], u);
    }
  }

  lemma {:induction false} EditWaits(store: Store, u: Uuid, body: Body)
    requires u in store.items
    ensures Waits(Edited(store, u, body), u, body, Some(store.dirtyIndex + 1))
  {
  }

  /**
   The last edit of an item, wherever it falls in a run, still waits at the end, or its content was
   acknowledged, or a completing operation dropped the item as created and deleted without a sync.
   */
  lemma {:induction false} EditIsNotLost(actions: seq<Action>, i: nat, u: Uuid, body: Body)
    requires i < |actions| && actions[i] == Edit(u, body) && Enabled(At(actions, i), actions[i])
    requires Untouched(actions, i + 1, u)
    ensures || Waits(Run(actions).store, u, body, Some(At(actions, i).store.dirtyIndex + 1))
            || AcknowledgedBetween(actions, i + 1, |actions|, u, body)
            || DroppedBetween(actions, i + 1, |actions|, u)
  {
    RunStep(actions, i);
    EditWaits(At(actions, i).store, u, body);
    EditSurvivesUntil(actions, i + 1, |actions|, u, body, Some(At(actions, i).store.dirtyIndex + 1));
    assert actions[..|actions|] == actions;
  }

  // ----- Items that were sent

  /** A completing call dropped the item, which has been gone and unacknowledged ever since. */
  ghost predicate LostSince(actions: seq<Action>, j: nat, n: nat, u: Uuid) {
    && j < n <= |actions| && Drops(At(actions, j), actions[j], u)
    && forall k :: j < k <= n ==> Lost(At(actions, k).store, u)
  }

  lemma {:induction false} LostInStep(s: State, a: Action, u: Uuid)
    requires Updates(s) && Enabled(s, a) && u in StoreAfter(s, a).sent && Lost(StoreAfter(s, a), u)
    ensures (u in s.store.sent && Lost(s.store, u)) || Drops(s, a, u)
  {
    if !Lost(s.store, u) {
      VanishesStep(s, a, u);
    } else if u !in s.store.sent {
      SentIsThere(s, a, u);
    }
  }

  lemma {:induction false} SentItemStays(actions: seq<Action>, n: nat, u: Uuid)
    requires n <= |actions| && u in At(actions, n).store.sent && Lost(At(actions, n).store, u)
    ensures exists j :: LostSince(actions, j, n, u)
  {
    if n > 0 {
      var s, a := At(actions, n - 1), actions[n - 1];
      RunStep(actions, n - 1);
      if Enabled(s, a) {
        RunKeepsInv(actions[..n - 1]);
        StoreOfStep(s, a);
        LostInStep(s, a, u);
      }
      if u in s.store.sent && Lost(s.store, u) {
        SentItemStays(actions, n - 1, u);
        var j :| LostSince(actions, j, n - 1, u);
        assert LostSince(actions, j, n, u);
      } else {
        assert LostSince(actions, n - 1, n, u);
      }
    }
  }

  /**
   An item that was ever sent, at any point of any run: while it is in the collection it is dirty or its
   content is acknowledged; once it is gone, its deletion is acknowledged, or a completing call that had
   set it aside dropped it and it has been gone and unacknowledged ever since.
   */
  lemma {:induction false} NoLostUpdate(actions: seq<Action>, u: Uuid)
    requires u in Run(actions).store.sent
    ensures var store := Run(actions).store;
      if u in store.items then store.items[u].dirty || IsAcknowledged(store, u, store.items[u].body)
      else DeletionAcknowledged(store, u) || exists j :: LostSince(actions, j, |actions|, u)
  {
    RunKeepsInv(actions);
    assert actions[..|actions|] == actions;
    if Lost(Run(actions).store, u) {
      SentItemStays(actions, |actions|, u);
    }
  }

  // ----- When a live edit is lost

  /** At action `j` the waiting edit disappears from the collection. */
  ghost predicate LostAt(actions: seq<Action>, j: nat, u: Uuid, body: Body, index: Option<nat>) {
    && j < |actions| && Waits(At(actions, j).store, u, body, index)
    && u !in At(actions, j + 1).store.items
  }

  /** A call that had set the item aside before action `i` completes without error at action `j`. */
  ghost predicate CompletesWithout(actions: seq<Action>, i: nat, j: nat, c: CallId, u: Uuid) {
    && i <= j < |actions| && actions[j] == Finish(c) && Enabled(At(actions, j), actions[j]) && !At(actions, j).error
    && c in At(actions, i).calls && u in At(actions, i).calls[c].neverSyncedDeleted
  }

  lemma {:induction false} RunCallsGoOn(actions: seq<Action>, i: nat)
    requires i < |actions|
    ensures CallsGoOn(At(actions, i), At(actions, i + 1))
  {
    RunStep(actions, i);
    if Enabled(At(actions, i), actions[i]) {
      RunKeepsInv(actions[..i]);
      RunKeepsSpawning(actions[..i]);
      StepAdvances(At(actions, i), actions[i]);
    }
  }

  lemma {:induction false} WaitedBefore(actions: seq<Action>, i: nat, j: nat, u: Uuid,
                                        body: Body, index: Option<nat>)
    requires i <= j <= |actions| && Untouched(actions, i, u) && Waits(At(actions, j).store, u, body, index)
    ensures Waits(At(actions, i).store, u, body, index)
    decreases j - i
  {
    if i < j {
      WaitedOneBefore(actions, j - 1, u, body, index);
      WaitedBefore(actions, i, j - 1, u, body, index);
    }
  }

  lemma {:induction false} WaitedOneBefore(actions: seq<Action>, i: nat, u: Uuid, body: Body, index: Option<nat>)
    requires i < |actions| && !Touches(actions[i], u) && Waits(At(actions, i + 1).store, u, body, index)
    ensures Waits(At(actions, i).store, u, body, index)
  {
    RunStep(actions, i);
    if Enabled(At(actions, i), actions[i]) {
      RunKeepsInv(actions[..i]);
      StoreOfStep(At(actions, i), actions[i]);
      DirtyBefore(At(actions, i), actions[i], u);
    }
  }

  /** While a live item waits, no call sets it aside: one that has it set aside had so from the start. */
  lemma {:induction false} SetAsideBefore(actions: seq<Action>, i: nat, j: nat, u: Uuid, c: CallId,
                                          body: Body, index: Option<nat>)
    requires i <= j <= |actions| && Untouched(actions, i, u)
    requires Waits(At(actions, j).store, u, body, index) && body.Live?
    requires c in At(actions, j).calls && u in At(actions, j).calls[c].neverSyncedDeleted
    ensures c in At(actions, i).calls && u in At(actions, i).calls[c].neverSyncedDeleted
    decreases j - i
  {
    if i < j {
      WaitedBefore(actions, j - 1, j, u, body, index);
      RunCallsGoOn(actions, j - 1);
      SetAsideBefore(actions, i, j - 1, u, c, body, index);
    }
  }

  /** A call that holds the lock has held it, with the same items set aside, ever since it was made. */
  lemma {:induction false} HeldSince(actions: seq<Action>, i: nat, j: nat, c: CallId)
    requires i <= j <= |actions| && c in At(actions, i).calls
    ensures c in At(actions, j).calls
    ensures At(actions, j).calls[c].neverSyncedDeleted == At(actions, i).calls[c].neverSyncedDeleted
    ensures HoldsLock(At(actions, j).calls[c]) ==> HoldsLock(At(actions, i).calls[c])
    decreases j - i
  {
    if i < j {
      HeldSince(actions, i, j - 1, c);
      RunCallsGoOn(actions, j - 1);
    }
  }

  /** Until the call that set the item aside ends, the item waits. */
  lemma {:induction false} WaitsForCall(actions: seq<Action>, i: nat, k: nat, j: nat, u: Uuid, c: CallId,
                                        body: Body, index: Option<nat>)
    requires i <= k <= j <= |actions| && Untouched(actions, i, u)
    requires Waits(At(actions, i).store, u, body, index)
    requires c in At(actions, i).calls && u in At(actions, i).calls[c].neverSyncedDeleted
    requires c in At(actions, j).calls && HoldsLock(At(actions, j).calls[c])
    ensures Waits(At(actions, k).store, u, body, index)
    ensures DeletionAcknowledged(At(actions, k).store, u) <==> DeletionAcknowledged(At(actions, i).store, u)
    decreases k - i
  {
    if i < k {
      WaitsForCall(actions, i, k - 1, j, u, c, body, index);
      HeldSince(actions, i, k - 1, c);
      HeldSince(actions, k - 1, j, c);
      RunCallsGoOn(actions, k - 1);
      HeldSince(actions, k, j, c);
      WaitsOneMore(actions, k - 1, u, c, body, index);
    }
  }

  lemma {:induction false} WaitsOneMore(actions: seq<Action>, i: nat, u: Uuid, c: CallId,
                                        body: Body, index: Option<nat>)
    requires i < |actions| && !Touches(actions[i], u) && Waits(At(actions, i).store, u, body, index)
    requires c in At(actions, i).calls && HoldsLock(At(actions, i).calls[c])
    requires u in At(actions, i).calls[c].neverSyncedDeleted
    requires c in At(actions, i + 1).calls && HoldsLock(At(actions, i + 1).calls[c])
    ensures Waits(At(actions, i + 1).store, u, body, index)
    ensures DeletionAcknowledged(At(actions, i + 1).store, u) <==> DeletionAcknowledged(At(actions, i).store, u)
  {
    RunStep(actions, i);
    var s, a := At(actions, i), actions[i];
    if Enabled(s, a) {
      RunKeepsInv(actions[..i]);
      RunKeepsApart(actions, i);
      if a == Finish(c) {
        FinishReleases(s, c);
      }
      StoreOfStep(s, a);
      SetAsideWaits(s, a, u, c);
    }
  }

  lemma {:induction false} FinishReleases(s: State, c: CallId)
    requires c in s.calls && s.calls[c].phase.Running?
    ensures c in DoFinish(s, c).calls && !HoldsLock(DoFinish(s, c).calls[c])
  {
  }

  lemma {:induction false} LostOnlyIf(actions: seq<Action>, i: nat, j: nat, u: Uuid, body: Body, index: Option<nat>)
    requires i <= j && Untouched(actions, i, u) && body.Live? && LostAt(actions, j, u, body, index)
    ensures actions[j].Finish? && CompletesWithout(actions, i, j, actions[j].c, u)
  {
    var s, a := At(actions, j), actions[j];
    RunStep(actions, j);
    RunKeepsInv(actions[..j]);
    LiveEditGoneIff(s, a, u);
    SetAsideBefore(actions, i, j, u, a.c, body, index);
  }

  lemma {:induction false} LostIf(actions: seq<Action>, i: nat, j: nat, c: CallId, u: Uuid,
                                  body: Body, index: Option<nat>)
    requires i <= |actions| && Untouched(actions, i, u) && body.Live?
    requires Waits(At(actions, i).store, u, body, index) && CompletesWithout(actions, i, j, c, u)
    ensures LostAt(actions, j, u, body, index)
  {
    HeldSince(actions, i, j, c);
    WaitsForCall(actions, i, j, j, u, c, body, index);
    RunStep(actions, j);
    RunKeepsInv(actions[..j]);
    LiveEditGoneIff(At(actions, j), actions[j], u);
  }

  /**
   A live item that waits, with no later edit, is lost in the rest of the run exactly when a call that
   took it for created and deleted without a sync, before it was revived, completes without error.
   */
  lemma {:induction false} LiveEditLostIff(actions: seq<Action>, i: nat, u: Uuid, body: Body, index: Option<nat>)
    requires i <= |actions| && Untouched(actions, i, u) && body.Live?
    requires Waits(At(actions, i).store, u, body, index)
    ensures (exists j :: i <= j && LostAt(actions, j, u, body, index)) <==>
            (exists j, c :: CompletesWithout(actions, i, j, c, u))
  {
    if j :| i <= j && LostAt(actions, j, u, body, index) {
      LostOnlyIf(actions, i, j, u, body, index);
    }
    if j, c :| CompletesWithout(actions, i, j, c, u) {
      LostIf(actions, i, j, c, u, body, index);
    }
  }

  // ----- When a deletion is lost

  /** At action `j` the waiting deletion disappears without an acknowledgement. */
  ghost predicate DeletionLostAt(actions: seq<Action>, j: nat, u: Uuid, index: Option<nat>) {
    && j < |actions| && Waits(At(actions, j).store, u, Tombstone, index)
    && !DeletionAcknowledged(At(actions, j).store, u) && Lost(At(actions, j + 1).store, u)
  }

  /**
   From moment `m` on, when its deletion is unacknowledged, a call has the item set aside: since before
   action `i`, or because the call is made at that moment and finds the item dirty, never synced and
   deleted. The call completes without error at action `j`.
   */
  ghost predicate CompletesAside(actions: seq<Action>, i: nat, m: nat, j: nat, c: CallId, u: Uuid) {
    && i <= m && CompletesWithout(actions, m, j, c, u) && !DeletionAcknowledged(At(actions, m).store, u)
    && (m > i ==> c !in At(actions, m - 1).calls && u in NeverSyncedDeleted(At(actions, m - 1).store.items))
  }

  /** Only starting a sync makes calls, and that leaves the store alone. */
  lemma {:induction false} NewCallKeepsStore(s: State, a: Action, c: CallId)
    requires Enabled(s, a) && c !in s.calls && c in Next(s, a).calls
    ensures Next(s, a).store == s.store
  {
    StoreOfStep(s, a);
    if InsideOperation(a) {
      InsideOperationSteps(s, a);
    } else if OutsideCalls(a) {
      OutsideSteps(s, a);
    } else if a.Stamp? {
      StampMovesOn(s, a.c);
    } else if a.Finish? {
      FailMovesOn(s, a.c);
      CompleteMovesOn(s, a.c);
    }
  }

  /** The moment from which a call is there, not looking further back than action `i`. */
  lemma {:induction false} ThereSince(actions: seq<Action>, i: nat, j: nat, c: CallId) returns (m: nat)
    requires i <= j <= |actions| && c in At(actions, j).calls
    ensures i <= m <= j && c in At(actions, m).calls && (m > i ==> c !in At(actions, m - 1).calls)
    decreases j - i
  {
    if i < j && c in At(actions, j - 1).calls {
      m := ThereSince(actions, i, j - 1, c);
    } else {
      m := j;
    }
  }

  lemma {:induction false} DeletionLostOnlyIf(actions: seq<Action>, i: nat, j: nat, u: Uuid, index: Option<nat>)
    returns (m: nat, c: CallId)
    requires i <= j && Untouched(actions, i, u) && DeletionLostAt(actions, j, u, index)
    ensures CompletesAside(actions, i, m, j, c, u)
  {
    var s, a := At(actions, j), actions[j];
    RunStep(actions, j);
    RunKeepsInv(actions[..j]);
    DeletionLostNowIff(s, a, u);
    c := a.c;
    m := ThereSince(actions, i, j, c);
    HeldSince(actions, m, j, c);
    WaitedBefore(actions, m, j, u, Tombstone, index);
    WaitsForCall(actions, m, j, j, u, c, Tombstone, index);
    if m > i {
      RunCallsGoOn(actions, m - 1);
    }
  }

  /** A deletion that is set aside by a new call waits just after that, as it did all the time. */
  lemma {:induction false} WaitsWhenSetAside(actions: seq<Action>, i: nat, m: nat, c: CallId, u: Uuid,
                                             index: Option<nat>)
    requires i < m <= |actions| && Untouched(actions, i, u) && Waits(At(actions, i).store, u, Tombstone, index)
    requires c !in At(actions, m - 1).calls && c in At(actions, m).calls
    requires u in NeverSyncedDeleted(At(actions, m - 1).store.items)
    ensures Waits(At(actions, m).store, u, Tombstone, index)
  {
    var item := At(actions, m - 1).store.items[u];
    WaitedBefore(actions, i, m - 1, u, item.body, item.dirtyIndex);
    RunStep(actions, m - 1);
    NewCallKeepsStore(At(actions, m - 1), actions[m - 1], c);
  }

  lemma {:induction false} DeletionLostIf(actions: seq<Action>, i: nat, m: nat, j: nat, c: CallId, u: Uuid,
                                          index: Option<nat>)
    requires i <= |actions| && Untouched(actions, i, u) && Waits(At(actions, i).store, u, Tombstone, index)
    requires CompletesAside(actions, i, m, j, c, u)
    ensures DeletionLostAt(actions, j, u, index)
  {
    if m > i {
      WaitsWhenSetAside(actions, i, m, c, u, index);
    }
    HeldSince(actions, m, j, c);
    WaitsForCall(actions, m, j, j, u, c, Tombstone, index);
    RunStep(actions, j);
    RunKeepsInv(actions[..j]);
    DeletionLostNowIff(At(actions, j), actions[j], u);
  }

  /**
   A deletion that waits, with no later edit, is lost in the rest of the run exactly when a call that took
   it for created and deleted without a sync, while it was unacknowledged, completes without error.
   */
  lemma {:induction false} DeletionLostIff(actions: seq<Action>, i: nat, u: Uuid, index: Option<nat>)
    requires i <= |actions| && Untouched(actions, i, u) && Waits(At(actions, i).store, u, Tombstone, index)
    ensures (exists j :: i <= j && DeletionLostAt(actions, j, u, index)) <==>
            (exists m, j, c :: CompletesAside(actions, i, m, j, c, u))
  {
    if j :| i <= j && DeletionLostAt(actions, j, u, index) {
      var m, c := DeletionLostOnlyIf(actions, i, j, u, index);
    }
    if m, j, c :| CompletesAside(actions, i, m, j, c, u) {
      DeletionLostIf(actions, i, m, j, c, u, index);
    }
  }
}
