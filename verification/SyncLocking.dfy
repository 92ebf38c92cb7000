/** Mutual exclusion: what every step of the sync protocol keeps about the lock. */
module SyncLocking {
  import opened Wrappers
  import opened SyncModel

  /** The operation is in flight: between `setDidBegin` and `setDidEnd`. */
  predicate InFlight(call: Call) {
    call.phase.Beginning? || call.phase.Stamped? || call.phase.Collected? || call.phase.Running?
  }

  /** Between acquiring and releasing the lock. */
  predicate HoldsLock(call: Call) {
    call.phase == Preparing(true) || InFlight(call)
  }

  /** The call has claimed its in-time requests and has not settled them yet. */
  predicate Carries(call: Call) {
    || call.phase.Stamped? || call.phase.Collected? || call.phase.Running?
    || call.phase.Finishing? || call.phase.Downloaded? || call.phase.Resolving?
  }

  ghost predicate Locking(s: State) {
    && (forall c :: c in s.calls ==> c < s.nextCall)
    && (forall c :: c in s.calls ==> (HoldsLock(s.calls[c]) <==> s.holder == Some(c)))
    && (s.holder.Some? ==> s.holder.value in s.calls)
    && (s.syncLock <==> s.holder.Some?)
    && (s.syncing <==> s.holder.Some? && InFlight(s.calls[s.holder.value]))
  }

  ghost predicate SameControl(s: State, t: State) {
    && t.syncLock == s.syncLock && t.syncing == s.syncing && t.holder == s.holder
    && t.nextCall == s.nextCall && t.nextRequest == s.nextRequest
    && t.resolveQueue == s.resolveQueue && t.completedDownloadFirst == s.completedDownloadFirst
  }

  ghost predicate LogsLaunch(log: seq<Event>, log': seq<Event>, c: CallId) {
    log' != [] && log'[..|log'| - 1] == log && log'[|log'| - 1].Launched? && log'[|log'| - 1].call == c
  }

  /** A step inside a running operation: only the phase of its own call moves on. */
  ghost predicate OperationStep(s: State, t: State, c: CallId) {
    && SameControl(s, t) && t.clientLocked == s.clientLocked
    && c in s.calls && t.calls.Keys == s.calls.Keys
    && t.calls == s.calls[c := s.calls[c].(phase := t.calls[c].phase)]
    && InFlight(s.calls[c]) && Carries(s.calls[c]) && InFlight(t.calls[c]) && Carries(t.calls[c])
    && (t.log == s.log || LogsLaunch(s.log, t.log, c))
  }

  /** A step outside every call. */
  ghost predicate OutsideStep(s: State, t: State) {
    SameControl(s, t) && t.calls == s.calls && t.log == s.log && t.error == s.error
  }

  predicate InsideOperation(a: Action) {
    a.Collect? || a.CreateOperation? || a.SendBatch? || a.ReceiveError? || a.ReceiveSuccess? || a.RunOffline?
  }

  predicate OutsideCalls(a: Action) {
    a.Edit? || a.CreateItem? || a.LoadDatabase? || a.SetClientLock?
  }

  lemma {:induction false} CollectSteps(s: State, c: CallId)
    requires Enabled(s, Collect(c))
    ensures OperationStep(s, DoCollect(s, c), c)
  {
  }

  lemma {:induction false} CreateOperationSteps(s: State, c: CallId, online: bool)
    requires Enabled(s, CreateOperation(c, online))
    ensures OperationStep(s, DoCreateOperation(s, c, online), c)
  {
  }

  lemma {:induction false} SendBatchSteps(s: State, c: CallId, batch: set<Uuid>)
    requires Enabled(s, SendBatch(c, batch))
    ensures OperationStep(s, DoSendBatch(s, c, batch), c)
  {
  }

  lemma {:induction false} ReceiveErrorSteps(s: State, c: CallId, more: bool)
    requires Enabled(s, ReceiveError(c, more))
    ensures OperationStep(s, DoReceiveError(s, c, more), c)
  {
  }

  lemma {:induction false} ReceiveSuccessSteps(s: State, c: CallId, saved: set<Uuid>, retrieved: map<Uuid, Body>,
                                               more: bool)
    requires Enabled(s, ReceiveSuccess(c, saved, retrieved, more))
    ensures OperationStep(s, DoReceiveSuccess(s, c, saved, retrieved, more), c)
  {
  }

  lemma {:induction false} RunOfflineSteps(s: State, c: CallId, synced: set<Uuid>)
    requires Enabled(s, RunOffline(c, synced))
    ensures OperationStep(s, DoRunOffline(s, c, synced), c)
  {
  }

  lemma {:induction false} InsideOperationSteps(s: State, a: Action)
    requires Enabled(s, a) && InsideOperation(a)
    ensures OperationStep(s, Next(s, a), a.c)
  {
    match a
    case Collect(c) => CollectSteps(s, c);
    case CreateOperation(c, online) => CreateOperationSteps(s, c, online);
    case SendBatch(c, batch) => SendBatchSteps(s, c, batch);
    case ReceiveError(c, more) => ReceiveErrorSteps(s, c, more);
    case ReceiveSuccess(c, saved, retrieved, more) => ReceiveSuccessSteps(s, c, saved, retrieved, more);
    case RunOffline(c, synced) => RunOfflineSteps(s, c, synced);
  }

  lemma {:induction false} OutsideSteps(s: State, a: Action)
    requires Enabled(s, a) && OutsideCalls(a)
    ensures OutsideStep(s, Next(s, a))
  {
  }

  /** Deferring touches only the queues and the log. */
  lemma {:induction false} DeferKeepsTheRest(s: State, c: CallId, options: Options)
    ensures var t := DeferRequest(s, c, options);
      && t.calls == s.calls && t.store == s.store && t.error == s.error && t.clientLocked == s.clientLocked
      && t.nextRequest >= s.nextRequest
  {
    match options.strategy
    case ResolveOnNext => assert QueueRequest(s).calls == s.calls && QueueRequest(s).store == s.store;
    case ForceSpawnNew => assert QueueSpawn(s, c, options).calls == s.calls;
  }

  /** Calls may have been started, each with the index of now and not past its first await; nothing else is touched. */
  ghost predicate OnlyStarts(s: State, t: State) {
    && t.error == s.error && t.log == s.log && t.store == s.store
    && t.completedDownloadFirst == s.completedDownloadFirst
    && t.resolveQueue == s.resolveQueue && t.nextRequest == s.nextRequest
    && t.clientLocked == s.clientLocked && t.databaseLoaded == s.databaseLoaded
    && (forall c :: c in s.calls ==> c in t.calls && t.calls[c] == s.calls[c])
    && (forall c :: c in t.calls && c !in s.calls ==>
          t.calls[c].phase.Preparing? && t.calls[c].frozen == s.store.dirtyIndex)
  }

  lemma {:induction false} OnlyStartsTwice(s: State, t: State, v: State)
    requires OnlyStarts(s, t) && OnlyStarts(t, v)
    ensures OnlyStarts(s, v)
  {
  }

  /** One call moves on, with the lock or without, and starts nothing. */
  ghost predicate MovesAlone(s: State, t: State, c: CallId) {
    && c in s.calls && c in t.calls && t.calls == s.calls[c := t.calls[c]]
    && t.error == s.error && t.clientLocked == s.clientLocked && t.nextRequest == s.nextRequest
  }

  lemma {:induction false} StampMovesAlone(s: State, c: CallId)
    requires Enabled(s, Stamp(c))
    ensures MovesAlone(s, DoStamp(s, c), c) && DoStamp(s, c).calls[c].phase == SyncModel.Stamped
    ensures DoStamp(s, c).log == s.log
  {
  }

  lemma {:induction false} FinishMovesAlone(s: State, c: CallId)
    requires Enabled(s, Finish(c))
    ensures MovesAlone(s, DoFinish(s, c), c) && DoFinish(s, c).resolveQueue == s.resolveQueue
    ensures DoFinish(s, c).calls[c].phase.Ended? || DoFinish(s, c).calls[c].phase.Finishing?
  {
  }

  lemma {:induction false} ResolveMovesAlone(s: State, c: CallId)
    requires Enabled(s, Resolve(c))
    ensures MovesAlone(s, DoResolve(s, c), c) && DoResolve(s, c).resolveQueue == s.resolveQueue
    ensures DoResolve(s, c).calls[c].phase.Ended?
  {
  }

  // ----- Every step keeps the locking invariant

  lemma {:induction false} OperationStepKeepsLocking(s: State, t: State, c: CallId)
    requires Locking(s) && OperationStep(s, t, c)
    ensures Locking(t)
  {
  }

  lemma {:induction false} SyncKeepsLocking(s: State, options: Options)
    requires Locking(s)
    ensures Locking(SyncOrSkip(s, options))
  {
  }

  /** A new call takes the lock exactly when the database is loaded and no other call holds it. */
  lemma {:induction false} CallTakesLockIff(s: State, options: Options)
    requires Locking(s)
    ensures var t := PerformSync(s, options); var c := s.nextCall;
      && c !in s.calls && t.calls == s.calls[c := t.calls[c]] && t.calls[c].options == options
      && (HoldsLock(t.calls[c]) <==> s.databaseLoaded && forall d :: d in s.calls ==> !HoldsLock(s.calls[d]))
      && (t.syncLock <==> exists d :: d in t.calls && HoldsLock(t.calls[d]))
  {
    var t := PerformSync(s, options);
    SyncKeepsLocking(s.(clientLocked := false), options);
    assert Locking(t);
    if s.syncLock {
      assert HoldsLock(s.calls[s.holder.value]);
    }
    if t.syncLock {
      assert HoldsLock(t.calls[t.holder.value]);
    }
  }

  /**
   The first spawned request leaves the queue. It starts a call of its own mode exactly when the client
   is not locked, and that call runs an operation exactly when the lock is free; otherwise it will be deferred anew.
   */
  lemma {:induction false} PoppedRequestStarts(s: State)
    requires Locking(s) && s.spawnQueue != []
    ensures var t := SyncOrSkip(PopSpawn(s), s.spawnQueue[0].(strategy := ForceSpawnNew)); var c := s.nextCall;
      && t.spawnQueue == s.spawnQueue[1..]
      && (c in t.calls <==> !s.clientLocked)
      && (c in t.calls ==>
            && t.calls[c].options == Options(s.spawnQueue[0].mode, ForceSpawnNew)
            && (HoldsLock(t.calls[c]) <==>
                  s.databaseLoaded && forall d :: d in s.calls ==> !HoldsLock(s.calls[d])))
  {
    assert Locking(PopSpawn(s));
    CallTakesLockIff(PopSpawn(s), s.spawnQueue[0].(strategy := ForceSpawnNew));
  }

  lemma {:induction false} BeginKeepsLocking(s: State, c: CallId)
    requires Locking(s) && c in s.calls && s.calls[c].phase == Preparing(true)
    ensures Locking(DoEnterOrDefer(s, c))
  {
  }

  lemma {:induction false} QueueKeepsLocking(s: State)
    requires Locking(s)
    ensures Locking(QueueRequest(s))
  {
  }

  lemma {:induction false} StampKeepsLocking(s: State, c: CallId)
    requires Locking(s) && c in s.calls && s.calls[c].phase.Beginning?
    ensures Locking(DoStamp(s, c))
  {
  }

  lemma {:induction false} FailKeepsLocking(s: State, c: CallId)
    requires Locking(s) && c in s.calls && s.calls[c].phase.Running?
    ensures Locking(DoFail(s, c))
  {
  }

  lemma {:induction false} CompleteKeepsLocking(s: State, c: CallId)
    requires Locking(s) && c in s.calls && s.calls[c].phase.Running?
    ensures Locking(DoComplete(s, c))
  {
  }

  /** Leaving one phase after the operation for another does not touch the lock. */
  lemma {:induction false} PhaseKeepsLocking(s: State, c: CallId, phase: Phase)
    requires Locking(s) && c in s.calls
    requires !HoldsLock(s.calls[c]) && !HoldsLock(s.calls[c].(phase := phase))
    ensures Locking(SetPhase(s, c, phase))
  {
  }

  // ----- Starting calls

  lemma {:induction false} SyncOnlyStarts(s: State, options: Options)
    requires Locking(s)
    ensures OnlyStarts(s, SyncOrSkip(s, options)) && Locking(SyncOrSkip(s, options))
  {
    SyncKeepsLocking(s, options);
  }

  lemma {:induction false} AgainOnlyStarts(s: State)
    requires Locking(s)
    ensures OnlyStarts(s, SyncAgain(s))
  {
    if s.spawnQueue != [] {
      var popped, spawn := PopSpawn(s), s.spawnQueue[0].(strategy := ForceSpawnNew);
      assert Locking(popped) && OnlyStarts(s, popped);
      SyncOnlyStarts(popped, spawn);
      OnlyStartsTwice(s, popped, SyncOrSkip(popped, spawn));
      SyncOnlyStarts(SyncOrSkip(popped, spawn), DEFAULT_OPTIONS);
      OnlyStartsTwice(s, SyncOrSkip(popped, spawn), SyncOrSkip(SyncOrSkip(popped, spawn), DEFAULT_OPTIONS));
    } else {
      SyncOnlyStarts(s, DEFAULT_OPTIONS);
    }
  }

  /** A call that is through with its operation goes on to settle its requests, and may start others. */
  lemma {:induction false} ContinueOnlyStarts(s: State, c: CallId)
    requires Locking(s) && Enabled(s, Continue(c)) && s.calls[c].phase.ranMode == Default
    ensures OnlyStarts(SetPhase(s, c, SyncModel.Resolving), Next(s, Continue(c)))
  {
    PhaseKeepsLocking(s, c, SyncModel.Resolving);
    AgainOnlyStarts(SetPhase(s, c, SyncModel.Resolving));
  }

  lemma {:induction false} AfterDownloadOnlyStarts(s: State, c: CallId)
    requires Locking(s) && Enabled(s, SyncAfterDownload(c))
    ensures OnlyStarts(SetPhase(s, c, SyncModel.Resolving), Next(s, SyncAfterDownload(c)))
  {
    PhaseKeepsLocking(s, c, SyncModel.Resolving);
    SyncOnlyStarts(SetPhase(s, c, SyncModel.Resolving), DEFAULT_OPTIONS);
  }
}
