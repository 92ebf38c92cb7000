/** When a deferred request is left without anybody to serve it. */
module SyncStranding {
  import opened Lists
  import opened SyncModel
  import opened SyncLocking
  import opened SyncFollowUps
  import SyncLosses
  import opened SyncRequests
  import opened SyncSurvival
  import opened SyncTheorems

  /** The call will still look at the queue: it holds the lock, or has yet to decide what to start. */
  predicate Looks(call: Call) {
    HoldsLock(call) || call.phase.Finishing? || call.phase.Downloaded?
  }

  ghost predicate SomebodyLooks(s: State) {
    exists c :: c in s.calls && Looks(s.calls[c])
  }

  /** The client is ready to sync, and this step is not the end of an operation that failed. */
  ghost predicate Smooth(s: State, a: Action) {
    s.databaseLoaded && !s.clientLocked && !(a.Finish? && s.error)
  }

  // ----- One step

  lemma {:induction false} SyncGetsLock(s: State, options: Options)
    requires Locking(s) && s.databaseLoaded && !s.clientLocked
    ensures SomebodyLooks(SyncOrSkip(s, options))
  {
    var t := SyncOrSkip(s, options);
    SyncStarts(s, options);
    if LockIsFree(s) {
      assert Looks(t.calls[s.nextCall]);
    } else {
      var d :| d in s.calls && HoldsLock(s.calls[d]);
      assert Looks(t.calls[d]);
    }
  }

  lemma {:induction false} StartedLooks(s: State, t: State, options: Options)
    requires Starts(s, t, s.nextCall, options, s.databaseLoaded && LockIsFree(s)) && s.databaseLoaded
    requires forall d :: d in s.calls && HoldsLock(s.calls[d]) ==> d in t.calls && HoldsLock(t.calls[d])
    ensures SomebodyLooks(t)
  {
    if LockIsFree(s) {
      assert Looks(t.calls[s.nextCall]);
    } else {
      var d :| d in s.calls && HoldsLock(s.calls[d]);
      assert Looks(t.calls[d]);
    }
  }

  lemma {:induction false} ContinueLooks(s: State, c: CallId)
    requires Locking(s) && Enabled(s, Continue(c)) && Smooth(s, Continue(c)) && s.resolveQueue != []
    ensures SomebodyLooks(Next(s, Continue(c)))
  {
    var t := Next(s, Continue(c));
    if s.calls[c].phase.ranMode == DownloadFirst {
      assert Looks(t.calls[c]);
    } else {
      ContinueFollowsUp(s, c);
      StartedLooks(s, t, FollowUp(s));
    }
  }

  lemma {:induction false} AfterDownloadLooks(s: State, c: CallId)
    requires Locking(s) && Enabled(s, SyncAfterDownload(c)) && Smooth(s, SyncAfterDownload(c))
    ensures SomebodyLooks(Next(s, SyncAfterDownload(c)))
  {
    PhaseKeepsLocking(s, c, SyncModel.Resolving);
    SyncGetsLock(SetPhase(s, c, SyncModel.Resolving), DEFAULT_OPTIONS);
  }

  lemma {:induction false} EnterLooks(s: State, c: CallId)
    requires Enabled(s, EnterOrDefer(c)) && SomebodyLooks(s)
    ensures SomebodyLooks(Next(s, EnterOrDefer(c)))
  {
    var d :| d in s.calls && Looks(s.calls[d]);
    if HoldsLock(s.calls[c]) {
      HolderBegins(s, c);
    } else {
      DeferredWaits(s, c);
    }
    assert Looks(Next(s, EnterOrDefer(c)).calls[d]);
  }

  lemma {:induction false} InsideLooks(s: State, a: Action)
    requires Enabled(s, a) && InsideOperation(a)
    ensures SomebodyLooks(Next(s, a))
  {
    InsideOperationSteps(s, a);
    assert Looks(Next(s, a).calls[a.c]);
  }

  /** As long as requests wait and somebody looks at the queue, somebody goes on looking. */
  lemma {:induction false} StepLooks(s: State, a: Action)
    requires Locking(s) && Enabled(s, a) && Smooth(s, a) && s.resolveQueue != [] && SomebodyLooks(s)
    ensures SomebodyLooks(Next(s, a))
  {
    if InsideOperation(a) {
      InsideLooks(s, a);
    } else if OutsideCalls(a) {
      OutsideSteps(s, a);
    } else {
      var d :| d in s.calls && Looks(s.calls[d]);
      match a
      case Sync(options) => SyncGetsLock(s, options);
      case EnterOrDefer(c) => EnterLooks(s, c);
      case Stamp(c) => assert Looks(DoStamp(s, c).calls[c]);
      case Finish(c) => assert Looks(DoFinish(s, c).calls[c]);
      case Continue(c) => ContinueLooks(s, c);
      case SyncAfterDownload(c) => AfterDownloadLooks(s, c);
      case Resolve(c) => assert Looks(DoResolve(s, c).calls[d]);
    }
  }

  /** Whoever has an operation to run or a sync to start still looks at the queue. */
  lemma {:induction false} LooksToMove(s: State, a: Action)
    requires Enabled(s, a) && !OutsideCalls(a) && !a.Sync? && !a.EnterOrDefer? && !a.Resolve?
    ensures SomebodyLooks(s)
  {
    assert Looks(s.calls[a.c]);
  }

  /** Once nobody looks, nobody will, unless a sync is asked for; and whatever waits goes on waiting. */
  lemma {:induction false} StepStrands(s: State, a: Action)
    requires Enabled(s, a) && !a.Sync? && !SomebodyLooks(s)
    ensures !SomebodyLooks(Next(s, a)) && s.resolveQueue <= Next(s, a).resolveQueue
  {
    if OutsideCalls(a) {
      OutsideSteps(s, a);
    } else if a.EnterOrDefer? {
      DeferStrands(s, a.c);
    } else if a.Resolve? {
      ResolveMovesAlone(s, a.c);
    } else {
      LooksToMove(s, a);
    }
  }

  lemma {:induction false} DeferStrands(s: State, c: CallId)
    requires Enabled(s, EnterOrDefer(c)) && !SomebodyLooks(s)
    ensures var t := Next(s, EnterOrDefer(c)); !SomebodyLooks(t) && s.resolveQueue <= t.resolveQueue
  {
    var t := Next(s, EnterOrDefer(c));
    assert !Looks(s.calls[c]);
    DeferredWaits(s, c);
  }

  // ----- The queue

  lemma {:induction false} EnterJoins(s: State, c: CallId, r: RequestId)
    requires Enabled(s, EnterOrDefer(c)) && r in Next(s, EnterOrDefer(c)).resolveQueue
    ensures r in s.resolveQueue || r == s.nextRequest
  {
    if HoldsLock(s.calls[c]) {
      HolderBegins(s, c);
    } else {
      DeferredWaits(s, c);
    }
  }

  lemma {:induction false} StampTakesOut(s: State, c: CallId)
    requires Requests(s) && Enabled(s, Stamp(c))
    ensures forall r :: r in DoStamp(s, c).resolveQueue ==> r in s.resolveQueue
  {
    SubtractDistinct(s.resolveQueue, s.calls[c].inTime);
  }

  /** Only a new request joins the queue. */
  lemma {:induction false} QueueJoins(s: State, a: Action, r: RequestId)
    requires Inv(s) && Enabled(s, a) && r in Next(s, a).resolveQueue
    ensures r in s.resolveQueue || (a.EnterOrDefer? && r == s.nextRequest)
  {
    if InsideOperation(a) {
      InsideOperationSteps(s, a);
    } else if OutsideCalls(a) {
      OutsideSteps(s, a);
    } else {
      match a
      case Sync(options) => SyncOnlyStarts(s, options);
      case EnterOrDefer(c) => EnterJoins(s, c, r);
      case Stamp(c) => StampTakesOut(s, c);
      case Finish(c) => FinishMovesAlone(s, c);
      case Continue(c) => ContinueKeepsQueue(s, c);
      case SyncAfterDownload(c) => AfterDownloadOnlyStarts(s, c);
      case Resolve(c) => ResolveMovesAlone(s, c);
    }
  }

  lemma {:induction false} ContinueKeepsQueue(s: State, c: CallId)
    requires Locking(s) && Enabled(s, Continue(c))
    ensures DoContinue(s, c).resolveQueue == s.resolveQueue && DoContinue(s, c).nextRequest == s.nextRequest
  {
    if s.calls[c].phase.ranMode == Default {
      ContinueOnlyStarts(s, c);
    }
  }

  // ----- Whole runs

  ghost predicate SmoothFrom(actions: seq<Action>, i: nat) {
    forall j :: i <= j < |actions| ==> Smooth(At(actions, j), actions[j])
  }

  lemma {:induction false} EnterNumbers(s: State, c: CallId)
    requires Enabled(s, EnterOrDefer(c))
    ensures DoEnterOrDefer(s, c).nextRequest >= s.nextRequest
  {
    DeferKeepsTheRest(SetPhase(s, c, Ended), c, s.calls[c].options);
  }

  lemma {:induction false} StepNumbers(s: State, a: Action)
    requires Locking(s) && Enabled(s, a)
    ensures Next(s, a).nextRequest >= s.nextRequest
  {
    if InsideOperation(a) {
      InsideOperationSteps(s, a);
    } else if OutsideCalls(a) {
      OutsideSteps(s, a);
    } else {
      match a
      case Sync(options) => SyncOnlyStarts(s, options);
      case EnterOrDefer(c) => EnterNumbers(s, c);
      case Stamp(c) => StampMovesAlone(s, c);
      case Finish(c) => FinishMovesAlone(s, c);
      case Continue(c) => ContinueKeepsQueue(s, c);
      case SyncAfterDownload(c) => AfterDownloadOnlyStarts(s, c);
      case Resolve(c) => ResolveMovesAlone(s, c);
    }
  }

  lemma {:induction false} NumbersGrow(actions: seq<Action>, i: nat, n: nat)
    requires i <= n <= |actions|
    ensures At(actions, i).nextRequest <= At(actions, n).nextRequest
  {
    if i < n {
      NumbersGrow(actions, i, n - 1);
      RunStep(actions, n - 1);
      RunKeepsInv(actions[..n - 1]);
      if Enabled(At(actions, n - 1), actions[n - 1]) {
        StepNumbers(At(actions, n - 1), actions[n - 1]);
      }
    }
  }

  lemma {:induction false} WaitedOneMore(actions: seq<Action>, i: nat, n: nat, r: RequestId)
    requires i <= n < |actions| && r in At(actions, i).resolveQueue && r in At(actions, n + 1).resolveQueue
    ensures r in At(actions, n).resolveQueue
  {
    RunKeepsInv(actions[..i]);
    RunKeepsInv(actions[..n]);
    NumbersGrow(actions, i, n);
    RunStep(actions, n);
    if Enabled(At(actions, n), actions[n]) {
      QueueJoins(At(actions, n), actions[n], r);
    }
  }

  lemma {:induction false} LooksOneMore(actions: seq<Action>, n: nat)
    requires n < |actions| && Smooth(At(actions, n), actions[n])
    requires At(actions, n).resolveQueue != [] && SomebodyLooks(At(actions, n))
    ensures SomebodyLooks(At(actions, n + 1))
  {
    RunKeepsInv(actions[..n]);
    RunStep(actions, n);
    if Enabled(At(actions, n), actions[n]) {
      StepLooks(At(actions, n), actions[n]);
    }
  }

  /**
   A request that waits while somebody still looks at the queue is not stranded: as long as it waits, and the
   client stays unlocked and no operation fails, there is somebody who will look.
   */
  lemma {:induction false} NobodyIsStranded(actions: seq<Action>, i: nat, n: nat, r: RequestId)
    requires i <= n <= |actions| && SmoothFrom(actions, i)
    requires r in At(actions, i).resolveQueue && SomebodyLooks(At(actions, i))
    ensures r in At(actions, n).resolveQueue ==> SomebodyLooks(At(actions, n))
  {
    if i < n && r in At(actions, n).resolveQueue {
      WaitedOneMore(actions, i, n - 1, r);
      NobodyIsStranded(actions, i, n - 1, r);
      LooksOneMore(actions, n - 1);
    }
  }

  ghost predicate NoSyncBetween(actions: seq<Action>, i: nat, n: nat) {
    forall j :: i <= j < n && j < |actions| ==> !actions[j].Sync?
  }

  lemma {:induction false} StaysStranded(actions: seq<Action>, i: nat, n: nat, r: RequestId)
    requires i <= n <= |actions| && NoSyncBetween(actions, i, n)
    requires r in At(actions, i).resolveQueue && !SomebodyLooks(At(actions, i))
    ensures r in At(actions, n).resolveQueue && !SomebodyLooks(At(actions, n))
  {
    if i < n {
      StaysStranded(actions, i, n - 1, r);
      RunStep(actions, n - 1);
      if Enabled(At(actions, n - 1), actions[n - 1]) {
        StepStrands(At(actions, n - 1), actions[n - 1]);
      }
    }
  }

  /**
   When every call has come to rest, with no other sync asked for since the request was queued, the request is
   still waiting exactly when nobody was looking at the queue any more at the time it was queued.
   */
  lemma {:induction false} StrandedIff(actions: seq<Action>, i: nat, r: RequestId)
    requires i <= |actions| && SmoothFrom(actions, i) && NoSyncBetween(actions, i, |actions|)
    requires r in At(actions, i).resolveQueue && !SomebodyLooks(Run(actions))
    ensures r in Run(actions).resolveQueue <==> !SomebodyLooks(At(actions, i))
  {
    assert actions[..|actions|] == actions;
    if SomebodyLooks(At(actions, i)) {
      NobodyIsStranded(actions, i, |actions|, r);
    } else {
      StaysStranded(actions, i, |actions|, r);
    }
  }

  // ----- A request that comes too late

  /** Two calls and no items: the first call is on its way, the second one was made while it held the lock. */
  ghost predicate Two(s: State) {
    && s.databaseLoaded && !s.clientLocked && !s.error && s.store.items.Keys == {}
    && s.resolveQueue == [] && s.spawnQueue == [] && s.calls.Keys == {0, 1} && s.nextRequest == 0
    && s.calls[0].options == DEFAULT_OPTIONS && s.calls[1].options == DEFAULT_OPTIONS
    && s.calls[1].phase == Preparing(false)
  }

  const TWO_CALLS: seq<Action> := [LoadDatabase] + [Sync(DEFAULT_OPTIONS)] + [Sync(DEFAULT_OPTIONS)]

  /** The operation of the first call, offline, from its beginning to its end. */
  const OPERATION: seq<Action> :=
    TWO_CALLS + [EnterOrDefer(0)] + [Stamp(0)] + [Collect(0)] + [CreateOperation(0, false)] + [RunOffline(0, {})]

  const FIRST_CALL: seq<Action> := OPERATION + [Finish(0)] + [Continue(0)] + [Resolve(0)]

  /** Only then is the second call through with its preparations, and deferred. */
  const LATE_DEFERRAL: seq<Action> := FIRST_CALL + [EnterOrDefer(1)]

  lemma {:induction false} FirstCall(s: State)
    requires s == Initial().(databaseLoaded := true)
    ensures var t := PerformSync(s, DEFAULT_OPTIONS);
      && t.databaseLoaded && !t.clientLocked && !t.error && t.store.items.Keys == {} && t.syncLock
      && t.resolveQueue == [] && t.spawnQueue == [] && t.calls.Keys == {0} && t.nextCall == 1 && t.nextRequest == 0
      && t.calls[0].options == DEFAULT_OPTIONS && t.calls[0].phase == Preparing(true)
  {
  }

  lemma {:induction false} SecondCall(s: State)
    requires s.databaseLoaded && !s.clientLocked && !s.error && s.store.items.Keys == {} && s.syncLock
    requires s.resolveQueue == [] && s.spawnQueue == [] && s.calls.Keys == {0} && s.nextCall == 1 && s.nextRequest == 0
    requires s.calls[0].options == DEFAULT_OPTIONS
    ensures var t := PerformSync(s, DEFAULT_OPTIONS); Two(t) && t.calls[0] == s.calls[0]
  {
  }

  lemma {:induction false} TwoCalls()
    ensures Two(Run(TWO_CALLS)) && Run(TWO_CALLS).calls[0].phase == Preparing(true)
  {
    var loaded := [LoadDatabase];
    SyncLosses.DatabaseIsLoaded();
    FirstCall(Run(loaded));
    SyncLosses.RunOne(loaded, Sync(DEFAULT_OPTIONS));
    SecondCall(Run(loaded + [Sync(DEFAULT_OPTIONS)]));
    SyncLosses.RunOne(loaded + [Sync(DEFAULT_OPTIONS)], Sync(DEFAULT_OPTIONS));
  }

  lemma {:induction false} CallBegins(before: seq<Action>)
    requires Two(Run(before)) && Run(before).calls[0].phase == Preparing(true)
    ensures var s := Run(before + [EnterOrDefer(0)]); Two(s) && s.calls[0].phase.Beginning? && s.calls[0].inTime == []
  {
    SyncLosses.RunOne(before, EnterOrDefer(0));
  }

  lemma {:induction false} CallCollects(before: seq<Action>)
    requires Two(Run(before)) && Run(before).calls[0].phase.Beginning? && Run(before).calls[0].inTime == []
    ensures var s := Run(before + [Stamp(0)] + [Collect(0)]); Two(s) && s.calls[0].phase.Collected?
  {
    SyncLosses.RunOne(before, Stamp(0));
    SyncLosses.RunOne(before + [Stamp(0)], Collect(0));
  }

  lemma {:induction false} FirstOperation()
    ensures Two(Run(OPERATION)) && Enabled(Run(OPERATION), Finish(0)) && Run(OPERATION).calls[0].phase.mode == Default
  {
    TwoCalls();
    CallBegins(TWO_CALLS);
    CallCollects(TWO_CALLS + [EnterOrDefer(0)]);
    OfflineRuns(TWO_CALLS + [EnterOrDefer(0)] + [Stamp(0)] + [Collect(0)]);
  }

  lemma {:induction false} OfflineRuns(before: seq<Action>)
    requires Two(Run(before)) && Run(before).calls[0].phase.Collected?
    ensures var s := Run(before + [CreateOperation(0, false)] + [RunOffline(0, {})]);
      Two(s) && Enabled(s, Finish(0)) && s.calls[0].phase.mode == Default
  {
    SyncLosses.RunOne(before, CreateOperation(0, false));
    SyncLosses.RunOne(before + [CreateOperation(0, false)], RunOffline(0, {}));
  }

  lemma {:induction false} CallFinishes(before: seq<Action>)
    requires Two(Run(before)) && Enabled(Run(before), Finish(0)) && Run(before).calls[0].phase.mode == Default
    ensures var s := Run(before + [Finish(0)]);
      Two(s) && s.calls[0].phase.Finishing? && s.calls[0].phase.ranMode == Default
  {
    SyncLosses.RunOne(before, Finish(0));
  }

  lemma {:induction false} CallContinues(before: seq<Action>)
    requires Two(Run(before)) && Run(before).calls[0].phase.Finishing? && Run(before).calls[0].phase.ranMode == Default
    ensures var s := Run(before + [Continue(0)]); Two(s) && s.calls[0].phase.Resolving?
  {
    assert DirtyItems(Run(before).store.items) == {};
    SyncLosses.RunOne(before, Continue(0));
  }

  lemma {:induction false} FirstCallEnds()
    ensures Two(Run(FIRST_CALL)) && Run(FIRST_CALL).calls[0].phase.Ended?
  {
    FirstOperation();
    CallFinishes(OPERATION);
    CallContinues(OPERATION + [Finish(0)]);
    SyncLosses.RunOne(OPERATION + [Finish(0)] + [Continue(0)], Resolve(0));
  }

  /** Without any error, all calls have ended, and the request that the second one left behind waits. */
  lemma {:induction false} LateDeferralIsStranded()
    ensures var s := Run(LATE_DEFERRAL);
      && (forall c :: c in s.calls ==> s.calls[c].phase.Ended?) && !SomebodyLooks(s)
      && s.resolveQueue == [0] && !s.error && !s.clientLocked && s.databaseLoaded
  {
    FirstCallEnds();
    SyncLosses.RunOne(FIRST_CALL, EnterOrDefer(1));
  }
}
