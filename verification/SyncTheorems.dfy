/** The guarantees of the sync protocol over every run, that is over every list of steps. */
module SyncTheorems {
  import opened SyncModel
  import opened SyncLocking
  import opened SyncRequests
  import opened SyncTrace
  import opened SyncUpdates

  ghost predicate Inv(s: State) {
    Locking(s) && Requests(s) && Ordering(s) && Exclusion(s) && Downloads(s) && Updates(s)
  }

  ghost predicate Idle(s: State, t: State) {
    t.log == s.log && t.syncing == s.syncing && (s.syncing ==> t.holder == s.holder)
  }

  // ----- Every kind of step keeps the invariant

  lemma {:induction false} InsideKeepsInv(s: State, a: Action)
    requires Inv(s) && Enabled(s, a) && InsideOperation(a)
    ensures Inv(Next(s, a))
  {
    var t := Next(s, a);
    InsideOperationSteps(s, a);
    OperationStepKeepsLocking(s, t, a.c);
    OperationStepKeepsRequests(s, t, a.c);
    OperationStepKeepsOrdering(s, t, a.c);
    OperationStepKeepsExclusion(s, t, a.c);
    InsideKeepsDownloads(s, a);
    InsideKeepsUpdates(s, a);
  }

  lemma {:induction false} OperationStepKeepsExclusion(s: State, t: State, c: CallId)
    requires Exclusion(s) && Locking(s) && Locking(t) && OperationStep(s, t, c)
    ensures Exclusion(t)
  {
    var more := if t.log == s.log then [] else [t.log[|s.log|]];
    assert t.log == s.log + more;
    IdleStepKeepsExclusion(s, t, more);
  }

  lemma {:induction false} InsideKeepsDownloads(s: State, a: Action)
    requires Downloads(s) && Enabled(s, a) && InsideOperation(a)
    ensures Downloads(Next(s, a))
  {
    match a
    case Collect(c) => QuietStepKeepsDownloads(s, DoCollect(s, c), c);
    case CreateOperation(c, online) => CreateOperationKeepsDownloads(s, c, online);
    case SendBatch(c, batch) => SendBatchKeepsDownloads(s, c, batch);
    case ReceiveError(c, more) => ResponseKeepsDownloads(s, DoReceiveError(s, c, more), c, more);
    case ReceiveSuccess(c, saved, retrieved, more) => ReceiveSuccessKeepsDownloads(s, c, saved, retrieved, more);
    case RunOffline(c, synced) => RunOfflineKeepsDownloads(s, c, synced);
  }

  lemma {:induction false} ReceiveSuccessKeepsDownloads(s: State, c: CallId, saved: set<Uuid>,
                                                        retrieved: map<Uuid, Body>, more: bool)
    requires Downloads(s) && c in s.calls && s.calls[c].phase.Running? && s.calls[c].phase.inFlight.Some?
    ensures Downloads(DoReceiveSuccess(s, c, saved, retrieved, more))
  {
    ResponseKeepsDownloads(s, DoReceiveSuccess(s, c, saved, retrieved, more), c, more);
  }

  lemma {:induction false} InsideKeepsUpdates(s: State, a: Action)
    requires Updates(s) && Locking(s) && Enabled(s, a) && InsideOperation(a)
    ensures Updates(Next(s, a))
  {
    match a
    case Collect(c) => CollectKeepsUpdates(s, c);
    case CreateOperation(c, online) => CreateOperationKeepsUpdates(s, c, online);
    case SendBatch(c, batch) => SendBatchKeepsUpdates(s, c, batch);
    case ReceiveError(c, more) => ReceiveErrorKeepsUpdates(s, c, more);
    case ReceiveSuccess(c, saved, retrieved, more) => ReceiveSuccessKeepsUpdates(s, c, saved, retrieved, more);
    case RunOffline(c, synced) => RunOfflineKeepsUpdates(s, c, synced);
  }

  lemma {:induction false} OutsideKeepsInv(s: State, a: Action)
    requires Inv(s) && Enabled(s, a) && OutsideCalls(a)
    ensures Inv(Next(s, a))
  {
    OutsideSteps(s, a);
    OutsideKeepsUpdates(s, a);
    OutsideStepKeepsInv(s, Next(s, a));
  }

  lemma {:induction false} OutsideStepKeepsInv(s: State, t: State)
    requires Inv(s) && OutsideStep(s, t) && Updates(t)
    ensures Inv(t)
  {
    OutsideStepKeepsRequests(s, t);
    QuietStepKeepsOrdering(s, t);
    assert t.log == s.log + [];
    IdleStepKeepsExclusion(s, t, []);
    QuietStepKeepsDownloads(s, t, s.nextCall);
  }

  lemma {:induction false} SyncKeepsInv(s: State, options: Options)
    requires Inv(s)
    ensures Inv(SyncOrSkip(s, options))
  {
    var t := SyncOrSkip(s, options);
    SyncKeepsLocking(s, options);
    SyncKeepsRequests(s, options);
    SyncKeepsOrdering(s, options);
    assert t.log == s.log + [];
    IdleStepKeepsExclusion(s, t, []);
    SyncKeepsDownloads(s, options);
    SyncKeepsUpdates(s, options);
  }

  lemma {:induction false} BeginKeepsInv(s: State, c: CallId)
    requires Inv(s) && c in s.calls && s.calls[c].phase == Preparing(true)
    ensures Inv(DoEnterOrDefer(s, c))
  {
    BeginKeepsLocking(s, c);
    BeginKeepsRequests(s, c);
    BeginKeepsOrdering(s, c);
    BeginKeepsExclusion(s, c);
    BeginKeepsDownloads(s, c);
    BeginKeepsUpdates(s, c);
  }

  lemma {:induction false} QueueKeepsInv(s: State)
    requires Inv(s)
    ensures Inv(QueueRequest(s))
  {
    var t := QueueRequest(s);
    QueueKeepsLocking(s);
    QueueKeepsRequests(s);
    QueueKeepsOrdering(s);
    IdleStepKeepsExclusion(s, t, [Queued(s.nextRequest)]);
    QueueKeepsDownloads(s);
    IdleKeepsUpdates(s, t);
  }

  lemma {:induction false} SpawnKeepsInv(s: State, t: State)
    requires Inv(s) && OutsideStep(s, t) && t.store == s.store
    ensures Inv(t)
  {
    IdleKeepsUpdates(s, t);
    OutsideStepKeepsInv(s, t);
  }

  lemma {:induction false} DeferKeepsInv(s: State, c: CallId, options: Options)
    requires Inv(s)
    ensures Inv(DeferRequest(s, c, options))
  {
    match options.strategy
    case ResolveOnNext => QueueKeepsInv(s);
    case ForceSpawnNew => SpawnKeepsInv(s, QueueSpawn(s, c, options));
  }

  lemma {:induction false} EnterKeepsInv(s: State, c: CallId)
    requires Inv(s) && c in s.calls && s.calls[c].phase.Preparing?
    ensures Inv(DoEnterOrDefer(s, c))
  {
    if s.calls[c].phase.executes {
      BeginKeepsInv(s, c);
    } else {
      QuietPhaseKeepsInv(s, c, Ended);
      DeferKeepsInv(SetPhase(s, c, Ended), c, s.calls[c].options);
    }
  }

  /** A call that has nothing to do with the lock moves on, carrying the same requests. */
  lemma {:induction false} QuietPhaseKeepsInv(s: State, c: CallId, phase: Phase)
    requires Inv(s) && c in s.calls && !HoldsLock(s.calls[c]) && !HoldsLock(s.calls[c].(phase := phase))
    requires Carries(s.calls[c]) <==> Carries(s.calls[c].(phase := phase))
    requires !phase.Finishing?
    ensures Inv(SetPhase(s, c, phase))
  {
    var t := SetPhase(s, c, phase);
    PhaseKeepsLocking(s, c, phase);
    PhaseKeepsRequests(s, c, phase);
    QuietStepKeepsOrdering(s, t);
    QuietPhaseKeepsTrace(s, t, c, phase);
    IdleKeepsUpdates(s, t);
  }

  lemma {:induction false} StampKeepsInv(s: State, c: CallId)
    requires Inv(s) && c in s.calls && s.calls[c].phase.Beginning?
    ensures Inv(DoStamp(s, c))
  {
    var t := DoStamp(s, c);
    StampKeepsLocking(s, c);
    StampKeepsRequests(s, c);
    StampKeepsOrdering(s, c);
    QuietPhaseKeepsTrace(s, t, c, SyncModel.Stamped);
    StampKeepsUpdates(s, c);
  }

  lemma {:induction false} QuietPhaseKeepsTrace(s: State, t: State, c: CallId, phase: Phase)
    requires Inv(s) && Locking(t) && c in s.calls && !phase.Running? && !phase.Finishing?
    requires t.calls == s.calls[c := s.calls[c].(phase := phase)] && Idle(s, t)
    requires t.completedDownloadFirst == s.completedDownloadFirst
    ensures Exclusion(t) && Downloads(t)
  {
    assert t.log == s.log + [];
    IdleStepKeepsExclusion(s, t, []);
    QuietStepKeepsDownloads(s, t, c);
  }

  lemma {:induction false} FinishKeepsInv(s: State, c: CallId)
    requires Inv(s) && c in s.calls && s.calls[c].phase.Running?
    ensures Inv(DoFinish(s, c))
  {
    if s.error {
      FailKeepsInv(s, c);
    } else {
      CompleteKeepsInv(s, c);
    }
  }

  lemma {:induction false} FailKeepsInv(s: State, c: CallId)
    requires Inv(s) && c in s.calls && s.calls[c].phase.Running?
    ensures Inv(DoFail(s, c))
  {
    FailKeepsLocking(s, c);
    FailKeepsRequests(s, c);
    FailKeepsOrdering(s, c);
    FailKeepsExclusion(s, c);
    FailKeepsDownloads(s, c);
    FailKeepsUpdates(s, c);
  }

  lemma {:induction false} CompleteKeepsInv(s: State, c: CallId)
    requires Inv(s) && c in s.calls && s.calls[c].phase.Running?
    ensures Inv(DoComplete(s, c))
  {
    CompleteKeepsLocking(s, c);
    CompleteKeepsRequests(s, c);
    CompleteKeepsOrdering(s, c);
    CompleteKeepsExclusion(s, c);
    CompleteKeepsDownloads(s, c);
    CompleteKeepsUpdates(s, c);
  }

  lemma {:induction false} SyncAgainKeepsInv(s: State)
    requires Inv(s)
    ensures Inv(SyncAgain(s))
  {
    if s.spawnQueue != [] {
      var popped := PopSpawn(s);
      var spawn := s.spawnQueue[0].(strategy := ForceSpawnNew);
      SpawnKeepsInv(s, popped);
      SyncKeepsInv(popped, spawn);
      SyncKeepsInv(SyncOrSkip(popped, spawn), DEFAULT_OPTIONS);
    } else {
      SyncKeepsInv(s, DEFAULT_OPTIONS);
    }
  }

  lemma {:induction false} DownloadedKeepsInv(s: State, c: CallId)
    requires Inv(s) && c in s.calls && s.calls[c].phase.Finishing? && s.calls[c].phase.ranMode == DownloadFirst
    ensures Inv(DoContinue(s, c))
  {
    QuietPhaseKeepsInv(s, c, SyncModel.Downloaded);
    DownloadedKeepsDownloads(s, c);
    FlagKeepsInv(SetPhase(s, c, SyncModel.Downloaded), s.completedDownloadFirst || s.calls[c].phase.wasOnline);
  }

  lemma {:induction false} FlagKeepsInv(s: State, completed: bool)
    requires Inv(s) && Downloads(s.(completedDownloadFirst := completed))
    ensures Inv(s.(completedDownloadFirst := completed))
  {
    var t := s.(completedDownloadFirst := completed);
    assert Claims(t) == Claims(s);
    SameClaims(s, t);
    QuietStepKeepsOrdering(s, t);
    IdleKeepsUpdates(s, t);
  }

  lemma {:induction false} ContinueKeepsInv(s: State, c: CallId)
    requires Inv(s) && c in s.calls && s.calls[c].phase.Finishing?
    ensures Inv(DoContinue(s, c))
  {
    if s.calls[c].phase.ranMode == DownloadFirst {
      DownloadedKeepsInv(s, c);
    } else {
      QuietPhaseKeepsInv(s, c, SyncModel.Resolving);
      SyncAgainKeepsInv(SetPhase(s, c, SyncModel.Resolving));
    }
  }

  lemma {:induction false} ResolveKeepsLocking(s: State, c: CallId)
    requires Locking(s) && c in s.calls && s.calls[c].phase.Resolving?
    ensures Locking(DoResolve(s, c))
  {
  }

  lemma {:induction false} ResolveKeepsRequests(s: State, c: CallId)
    requires Requests(s) && c in s.calls && s.calls[c].phase.Resolving?
    ensures Requests(DoResolve(s, c))
  {
    SettleKeepsRequests(s, c, DoResolve(s, c), true);
  }

  lemma {:induction false} ResolveKeepsExclusion(s: State, c: CallId)
    requires Exclusion(s) && Locking(s) && c in s.calls && s.calls[c].phase.Resolving? && Locking(DoResolve(s, c))
    ensures Exclusion(DoResolve(s, c))
  {
    IdleStepKeepsExclusion(s, DoResolve(s, c), Settle(s.calls[c].inTime, c, true));
  }

  lemma {:induction false} ResolveKeepsUpdates(s: State, c: CallId)
    requires Updates(s) && c in s.calls && s.calls[c].phase.Resolving?
    ensures Updates(DoResolve(s, c))
  {
    IdleKeepsUpdates(s, DoResolve(s, c));
  }

  lemma {:induction false} ResolveKeepsInv(s: State, c: CallId)
    requires Inv(s) && c in s.calls && s.calls[c].phase.Resolving?
    ensures Inv(DoResolve(s, c))
  {
    ResolveKeepsLocking(s, c);
    ResolveKeepsRequests(s, c);
    ResolveKeepsOrdering(s, c);
    ResolveKeepsExclusion(s, c);
    ResolveKeepsDownloads(s, c);
    ResolveKeepsUpdates(s, c);
  }

  lemma {:induction false} StepKeepsInv(s: State, a: Action)
    requires Inv(s) && Enabled(s, a)
    ensures Inv(Next(s, a))
  {
    if InsideOperation(a) {
      InsideKeepsInv(s, a);
    } else if OutsideCalls(a) {
      OutsideKeepsInv(s, a);
    } else {
      match a
      case Sync(options) => SyncKeepsInv(s, options);
      case EnterOrDefer(c) => EnterKeepsInv(s, c);
      case Stamp(c) => StampKeepsInv(s, c);
      case Finish(c) => FinishKeepsInv(s, c);
      case Continue(c) => ContinueKeepsInv(s, c);
      case SyncAfterDownload(c) =>
        QuietPhaseKeepsInv(s, c, SyncModel.Resolving);
        SyncKeepsInv(SetPhase(s, c, SyncModel.Resolving), DEFAULT_OPTIONS);
      case Resolve(c) => ResolveKeepsInv(s, c);
    }
  }

  lemma {:induction false} InitialInv()
    ensures Inv(Initial())
  {
    assert Claims(Initial()) == {};
  }

  lemma {:induction false} RunKeepsInv(actions: seq<Action>)
    ensures Inv(Run(actions))
  {
    if actions == [] {
      InitialInv();
    } else {
      var n := |actions| - 1;
      RunKeepsInv(actions[..n]);
      if Enabled(Run(actions[..n]), actions[n]) {
        StepKeepsInv(Run(actions[..n]), actions[n]);
      }
    }
  }

  // ----- The guarantees

  /** At most one call is between acquiring and releasing the lock, and the flags say so exactly. */
  lemma {:induction false} MutualExclusion(actions: seq<Action>)
    ensures var s := Run(actions);
      && (forall c, d :: c in s.calls && d in s.calls && HoldsLock(s.calls[c]) && HoldsLock(s.calls[d]) ==> c == d)
      && (s.syncLock <==> exists c :: c in s.calls && HoldsLock(s.calls[c]))
      && (s.syncing <==> exists c :: c in s.calls && InFlight(s.calls[c]))
      && (s.syncing ==> s.syncLock)
  {
    RunKeepsInv(actions);
  }

  /** No operation begins before the one that began earlier has ended. */
  lemma {:induction false} NoOverlappingOperations(actions: seq<Action>, i: nat, j: nat, c: CallId, d: CallId)
    requires i < j < |Run(actions).log|
    requires Run(actions).log[i] == Began(c) && Run(actions).log[j] == Began(d)
    ensures exists k :: i < k < j && Ends(Run(actions).log[k], c)
  {
    RunKeepsInv(actions);
    FirstEndsBeforeSecondBegins(Run(actions).log, i, j, c, d);
  }

  datatype Place = InQueue | InBatchOf(call: CallId) | ResolvedBy(call: CallId) | DroppedBy(call: CallId)

  ghost predicate IsAt(s: State, r: RequestId, place: Place) {
    match place
    case InQueue => r in s.resolveQueue
    case InBatchOf(c) => c in s.calls && Carries(s.calls[c]) && r in s.calls[c].inTime
    case ResolvedBy(c) => Resolved(r, c) in s.log
    case DroppedBy(c) => Dropped(r, c) in s.log
  }

  /** Every request ever deferred is in exactly one place, and it is settled at most once. */
  lemma {:induction false} RequestsAreConserved(actions: seq<Action>, r: RequestId)
    requires r < Run(actions).nextRequest
    ensures exists place :: IsAt(Run(actions), r, place)
    ensures forall p, q :: IsAt(Run(actions), r, p) && IsAt(Run(actions), r, q) ==> p == q
    ensures SettledOnce(Run(actions).log)
  {
    RunKeepsInv(actions);
    var s := Run(actions);
    if r in s.resolveQueue {
      assert IsAt(s, r, InQueue);
    } else if Claimed(Claims(s), r) {
      var c: CallId :| (c, r) in Claims(s);
      assert IsAt(s, r, InBatchOf(c));
    } else {
      var i :| 0 <= i < |s.log| && Settles(s.log[i], r);
      assert IsAt(s, r, if s.log[i].Resolved? then ResolvedBy(s.log[i].caller) else DroppedBy(s.log[i].caller));
    }
    forall p, q | IsAt(s, r, p) && IsAt(s, r, q) ensures p == q {
      OnlyOnePlace(s, r, p, q);
    }
  }

  lemma {:induction false} OnlyOnePlace(s: State, r: RequestId, p: Place, q: Place)
    requires Requests(s) && IsAt(s, r, p) && IsAt(s, r, q)
    ensures p == q
  {
    PlaceIsSettledOrNot(s, r, p);
    PlaceIsSettledOrNot(s, r, q);
    if p.InBatchOf? {
      assert (p.call, r) in Claims(s);
    }
    if q.InBatchOf? {
      assert (q.call, r) in Claims(s);
    }
  }

  lemma {:induction false} PlaceIsSettledOrNot(s: State, r: RequestId, p: Place)
    requires Requests(s) && IsAt(s, r, p)
    ensures Settled(s.log, r) <==> p.ResolvedBy? || p.DroppedBy?
  {
    match p
    case InQueue =>
    case InBatchOf(c) => assert (c, r) in Claims(s);
    case ResolvedBy(c) =>
      var i :| 0 <= i < |s.log| && s.log[i] == Resolved(r, c);
      assert Settles(s.log[i], r);
    case DroppedBy(c) =>
      var i :| 0 <= i < |s.log| && s.log[i] == Dropped(r, c);
      assert Settles(s.log[i], r);
  }

  /**
   A request is resolved only by a call whose operation began after the request was queued and
   completed without error; it is dropped only by such a call whose operation failed.
   */
  lemma {:induction false} RequestsAreServedInOrder(actions: seq<Action>, i: nat)
    requires i < |Run(actions).log|
    ensures var log := Run(actions).log;
      && (log[i].Resolved? ==>
            Chain(log[..i], Queued(log[i].request), Began(log[i].caller), Completed(log[i].caller)))
      && (log[i].Dropped? ==>
            Chain(log[..i], Queued(log[i].request), Began(log[i].caller), Failed(log[i].caller)))
  {
    RunKeepsInv(actions);
    assert SettledInOrder(Run(actions).log, i);
  }

  /** An online operation that carries uploads comes after a completed online one without uploads. */
  lemma {:induction false} DownloadComesFirst(actions: seq<Action>, i: nat)
    requires i < |Run(actions).log| && Run(actions).log[i].Launched?
    requires Run(actions).log[i].online && Run(actions).log[i].carries
    ensures exists c :: Precedes(Run(actions).log[..i], Launched(c, true, false), Completed(c))
  {
    RunKeepsInv(actions);
    assert DownloadedFirst(Run(actions).log[..i]);
  }
}
