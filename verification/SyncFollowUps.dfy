/** What a call starts when it is through, and that nothing that is dirty or deferred is left without a sync. */
module SyncFollowUps {
  import opened SyncModel
  import opened SyncLocking
  import opened SyncSurvival

  ghost predicate SomethingDirty(s: State) {
    exists u :: u in s.store.items && s.store.items[u].dirty
  }

  ghost predicate LockIsFree(s: State) {
    forall c :: c in s.calls ==> !HoldsLock(s.calls[c])
  }

  /** The call was made with these options; what is dirty it will upload, or has set aside. */
  ghost predicate Starts(s: State, t: State, c: CallId, options: Options, takesLock: bool) {
    && c !in s.calls && c in t.calls
    && t.calls[c].options == options && t.calls[c].phase == Preparing(takesLock)
    && t.calls[c].frozen == s.store.dirtyIndex
    && forall u :: u in t.calls[c].items || u in t.calls[c].neverSyncedDeleted <==>
         u in s.store.items && s.store.items[u].dirty
  }

  lemma {:induction false} SyncStarts(s: State, options: Options)
    requires Locking(s) && !s.clientLocked
    ensures var t := SyncOrSkip(s, options); var c := s.nextCall;
      && Starts(s, t, c, options, s.databaseLoaded && LockIsFree(s))
      && t.calls == s.calls[c := t.calls[c]] && t.nextCall == c + 1 && Locking(t)
      && t.store == s.store && t.spawnQueue == s.spawnQueue && t.resolveQueue == s.resolveQueue
      && t.databaseLoaded == s.databaseLoaded && t.clientLocked == s.clientLocked
  {
    var call := PerformSync(s, options).calls[s.nextCall];
    assert call.items == DirtyItems(s.store.items) - call.neverSyncedDeleted;
    CallTakesLockIff(s, options);
    SyncKeepsLocking(s, options);
  }

  /** The options of the first call that is started. */
  function FollowUp(s: State): Options {
    if s.spawnQueue != [] then Options(s.spawnQueue[0].mode, ForceSpawnNew) else DEFAULT_OPTIONS
  }

  lemma {:induction false} DirtyIff(s: State)
    ensures DirtyItems(s.store.items) != {} <==> SomethingDirty(s)
  {
    if SomethingDirty(s) {
      var u :| u in s.store.items && s.store.items[u].dirty;
      assert u in DirtyItems(s.store.items);
    }
  }

  /**
   A call is started exactly when a request waits in one of the two queues or some item is dirty, and a second
   one exactly when a request forces a sync of its own and some item is dirty. The first one takes the lock if
   the database is loaded and the lock is free; the second one never does.
   */
  ghost predicate FollowsUp(s: State, t: State) {
    var n := s.nextCall;
    && (n in t.calls <==> s.spawnQueue != [] || s.resolveQueue != [] || SomethingDirty(s))
    && (n + 1 in t.calls <==> s.spawnQueue != [] && SomethingDirty(s))
    && (forall d :: d in t.calls ==> d in s.calls || d == n || d == n + 1)
    && (n in t.calls ==> Starts(s, t, n, FollowUp(s), s.databaseLoaded && LockIsFree(s)))
    && (n + 1 in t.calls ==> Starts(s, t, n + 1, DEFAULT_OPTIONS, false))
    && t.spawnQueue == (if s.spawnQueue == [] then [] else s.spawnQueue[1..]) && t.resolveQueue == s.resolveQueue
  }

  lemma {:induction false} AgainWithoutSpawn(s: State)
    requires Locking(s) && !s.clientLocked && s.spawnQueue == []
    ensures FollowsUp(s, SyncAgain(s)) && OthersStay(s, SyncAgain(s))
  {
    DirtyIff(s);
    SyncStarts(s, DEFAULT_OPTIONS);
  }

  ghost predicate OthersStay(s: State, t: State) {
    forall d :: d in s.calls ==> d in t.calls && t.calls[d] == s.calls[d]
  }

  /** The sync that a popped request forces, and what the state still is then. */
  lemma {:induction false} SpawnStarts(s: State) returns (t: State)
    requires Locking(s) && !s.clientLocked && s.spawnQueue != []
    ensures t == SyncOrSkip(PopSpawn(s), s.spawnQueue[0].(strategy := ForceSpawnNew))
    ensures Starts(s, t, s.nextCall, FollowUp(s), s.databaseLoaded && LockIsFree(s))
    ensures t.calls == s.calls[s.nextCall := t.calls[s.nextCall]] && t.nextCall == s.nextCall + 1 && Locking(t)
    ensures t.store == s.store && t.spawnQueue == s.spawnQueue[1..] && t.resolveQueue == s.resolveQueue
    ensures t.databaseLoaded == s.databaseLoaded && !t.clientLocked
  {
    var popped := PopSpawn(s);
    assert Locking(popped) && (LockIsFree(popped) <==> LockIsFree(s));
    SyncStarts(popped, FollowUp(s));
    t := SyncOrSkip(popped, FollowUp(s));
  }

  /** A sync that is started right after another one finds the lock taken, or no database. */
  lemma {:induction false} SecondStarts(s: State, t: State, options: Options)
    requires Starts(s, t, s.nextCall, options, s.databaseLoaded && LockIsFree(s)) && Locking(t) && !t.clientLocked
    requires t.calls == s.calls[s.nextCall := t.calls[s.nextCall]] && t.nextCall == s.nextCall + 1
    requires t.store == s.store && t.databaseLoaded == s.databaseLoaded && s.nextCall + 1 !in s.calls
    ensures var v := SyncOrSkip(t, DEFAULT_OPTIONS);
      && Starts(s, v, s.nextCall + 1, DEFAULT_OPTIONS, false)
      && v.calls == t.calls[s.nextCall + 1 := v.calls[s.nextCall + 1]]
      && v.spawnQueue == t.spawnQueue && v.resolveQueue == t.resolveQueue
  {
    SyncStarts(t, DEFAULT_OPTIONS);
    if s.databaseLoaded {
      assert !LockIsFree(t) by {
        if !LockIsFree(s) {
          var d :| d in s.calls && HoldsLock(s.calls[d]);
          assert HoldsLock(t.calls[d]);
        } else {
          assert HoldsLock(t.calls[s.nextCall]);
        }
      }
    }
  }

  lemma {:induction false} AgainWithSpawn(s: State)
    requires Locking(s) && !s.clientLocked && s.spawnQueue != []
    ensures FollowsUp(s, SyncAgain(s)) && OthersStay(s, SyncAgain(s))
  {
    var spawned := SpawnStarts(s);
    assert SomethingDirty(spawned) <==> SomethingDirty(s);
    DirtyIff(spawned);
    DirtyIff(s);
    if SomethingDirty(s) {
      SecondStarts(s, spawned, FollowUp(s));
    }
  }

  /** With another phase of one call that does not hold the lock, the same is started. */
  lemma {:induction false} SameFollowUps(s: State, c: CallId, phase: Phase, t: State)
    requires c in s.calls && !HoldsLock(s.calls[c]) && !HoldsLock(s.calls[c].(phase := phase))
    requires FollowsUp(SetPhase(s, c, phase), t)
    ensures FollowsUp(s, t)
  {
    var u := SetPhase(s, c, phase);
    assert SomethingDirty(u) <==> SomethingDirty(s);
    SameLock(s, c, phase);
  }

  lemma {:induction false} SameLock(s: State, c: CallId, phase: Phase)
    requires c in s.calls && !HoldsLock(s.calls[c]) && !HoldsLock(s.calls[c].(phase := phase))
    ensures LockIsFree(SetPhase(s, c, phase)) <==> LockIsFree(s)
  {
    var u := SetPhase(s, c, phase);
    forall d | d in s.calls ensures HoldsLock(u.calls[d]) <==> HoldsLock(s.calls[d]) {
    }
  }

  /** After an operation that was no download-first one, with the client unlocked. */
  lemma {:induction false} ContinueFollowsUp(s: State, c: CallId)
    requires Locking(s) && Enabled(s, Continue(c)) && s.calls[c].phase.ranMode == Default && !s.clientLocked
    ensures FollowsUp(s, Next(s, Continue(c)))
    ensures OthersStay(s.(calls := s.calls[c := s.calls[c].(phase := SyncModel.Resolving)]), Next(s, Continue(c)))
  {
    var resolving := SetPhase(s, c, SyncModel.Resolving);
    PhaseKeepsLocking(s, c, SyncModel.Resolving);
    if s.spawnQueue == [] {
      AgainWithoutSpawn(resolving);
    } else {
      AgainWithSpawn(resolving);
    }
    SameFollowUps(s, c, SyncModel.Resolving, SyncAgain(resolving));
  }

  /** A download-first operation that was online is remembered for good, and its call goes on to sync again. */
  lemma {:induction false} DownloadIsRemembered(s: State, c: CallId)
    requires Enabled(s, Continue(c)) && s.calls[c].phase.ranMode == DownloadFirst
    ensures var t := Next(s, Continue(c));
      && (t.completedDownloadFirst <==> s.completedDownloadFirst || s.calls[c].phase.wasOnline)
      && Enabled(t, SyncAfterDownload(c)) && t.calls.Keys == s.calls.Keys
  {
  }

  /** After a download-first operation another sync follows in any case; it takes the lock if that is free. */
  lemma {:induction false} DownloadFollowsUp(s: State, c: CallId)
    requires Locking(s) && Enabled(s, SyncAfterDownload(c)) && !s.clientLocked
    ensures var t := Next(s, SyncAfterDownload(c)); var n := s.nextCall;
      && t.calls.Keys == s.calls.Keys + {n} && t.calls[c].phase == SyncModel.Resolving
      && Starts(s, t, n, DEFAULT_OPTIONS, s.databaseLoaded && LockIsFree(s))
  {
    var resolving := SetPhase(s, c, SyncModel.Resolving);
    PhaseKeepsLocking(s, c, SyncModel.Resolving);
    SameLock(s, c, SyncModel.Resolving);
    SyncStarts(resolving, DEFAULT_OPTIONS);
  }

  /** With the client locked nothing is started; a request that forces a sync leaves its queue all the same. */
  lemma {:induction false} LockedClientStartsNothing(s: State, c: CallId)
    requires Enabled(s, Continue(c)) && s.calls[c].phase.ranMode == Default && s.clientLocked
    ensures var t := Next(s, Continue(c));
      && t.calls == s.calls[c := s.calls[c].(phase := SyncModel.Resolving)]
      && t.spawnQueue == (if s.spawnQueue == [] then [] else s.spawnQueue[1..]) && t.resolveQueue == s.resolveQueue
  {
  }

  lemma {:induction false} LockedAgainStartsNothing(s: State)
    requires s.clientLocked
    ensures SyncAgain(s).calls == s.calls && SyncAgain(s).clientLocked
  {
    if s.spawnQueue != [] {
      assert SyncOrSkip(PopSpawn(s), s.spawnQueue[0].(strategy := ForceSpawnNew)) == PopSpawn(s);
    }
  }

  lemma {:induction false} LockedContinueStartsNothing(s: State, c: CallId)
    requires Enabled(s, Continue(c)) && s.clientLocked
    ensures DoContinue(s, c).calls.Keys == s.calls.Keys && DoContinue(s, c).clientLocked
  {
    if s.calls[c].phase.ranMode == Default {
      LockedAgainStartsNothing(SetPhase(s, c, SyncModel.Resolving));
    }
  }

  lemma {:induction false} LockedControlMakesNoCall(s: State, a: Action)
    requires Enabled(s, a) && s.clientLocked && !InsideOperation(a) && !OutsideCalls(a)
    ensures Next(s, a).calls.Keys == s.calls.Keys && Next(s, a).clientLocked
  {
    match a
    case Sync(options) =>
    case EnterOrDefer(c) => DeferKeepsTheRest(SetPhase(s, c, Ended), c, s.calls[c].options);
    case Stamp(c) => StampMovesAlone(s, c);
    case Finish(c) => FinishMovesAlone(s, c);
    case Continue(c) => LockedContinueStartsNothing(s, c);
    case SyncAfterDownload(c) =>
    case Resolve(c) => ResolveMovesAlone(s, c);
  }

  lemma {:induction false} LockedStepMakesNoCall(s: State, a: Action)
    requires Enabled(s, a) && s.clientLocked
    ensures Next(s, a).calls.Keys == s.calls.Keys && (!a.SetClientLock? ==> Next(s, a).clientLocked)
  {
    if InsideOperation(a) {
      InsideOperationSteps(s, a);
    } else if OutsideCalls(a) {
      OutsideSteps(s, a);
    } else {
      LockedControlMakesNoCall(s, a);
    }
  }

  /** From the moment the client is locked until it is unlocked, no call is started. */
  lemma {:induction false} NoCallsWhileLocked(actions: seq<Action>, i: nat, n: nat)
    requires i < n <= |actions| && actions[i] == SetClientLock(true)
    requires forall j :: i < j < n ==> !actions[j].SetClientLock?
    ensures At(actions, n).clientLocked && At(actions, n).calls.Keys == At(actions, i).calls.Keys
  {
    RunStep(actions, n - 1);
    if i + 1 < n {
      NoCallsWhileLocked(actions, i, n - 1);
      if Enabled(At(actions, n - 1), actions[n - 1]) {
        LockedStepMakesNoCall(At(actions, n - 1), actions[n - 1]);
      }
    }
  }

  /** A call that holds the lock begins its operation with the requests that are waiting by then. */
  lemma {:induction false} HolderBegins(s: State, c: CallId)
    requires Enabled(s, EnterOrDefer(c)) && HoldsLock(s.calls[c])
    ensures var t := Next(s, EnterOrDefer(c));
      && t.calls == s.calls[c := s.calls[c].(phase := Beginning, inTime := s.resolveQueue)]
      && t.resolveQueue == s.resolveQueue && t.spawnQueue == s.spawnQueue
  {
  }

  /** A call that does not hold the lock ends; its request waits in the queue of its strategy, behind the others. */
  lemma {:induction false} DeferredWaits(s: State, c: CallId)
    requires Enabled(s, EnterOrDefer(c)) && !HoldsLock(s.calls[c])
    ensures var t := Next(s, EnterOrDefer(c)); var options := s.calls[c].options;
      && t.calls == s.calls[c := s.calls[c].(phase := Ended)]
      && t.resolveQueue == s.resolveQueue + (if options.strategy == ResolveOnNext then [s.nextRequest] else [])
      && t.spawnQueue == s.spawnQueue + (if options.strategy == ForceSpawnNew then [options] else [])
  {
    DeferJoins(SetPhase(s, c, Ended), c, s.calls[c].options);
  }

  lemma {:induction false} DeferJoins(s: State, c: CallId, options: Options)
    ensures var t := DeferRequest(s, c, options);
      && t.calls == s.calls
      && t.resolveQueue == s.resolveQueue + (if options.strategy == ResolveOnNext then [s.nextRequest] else [])
      && t.spawnQueue == s.spawnQueue + (if options.strategy == ForceSpawnNew then [options] else [])
  {
    match options.strategy
    case ResolveOnNext => assert DeferRequest(s, c, options) == QueueRequest(s);
    case ForceSpawnNew => assert DeferRequest(s, c, options) == QueueSpawn(s, c, options);
  }
}
