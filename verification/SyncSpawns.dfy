/**
 Requests that force a sync of their own: in which order they are popped, which call serves each of them,
 and how each is settled in the end.
 */
module SyncSpawns {
  import opened Wrappers
  import opened Lists
  import opened SyncModel
  import opened SyncLocking
  import opened SyncCalls
  import SyncTheorems

  // ----- The queue

  ghost predicate SpawnsInOrder(s: State) {
    s.spawns.queued == s.spawns.popped + s.spawnQueue && |s.spawns.servers| == |s.spawns.popped|
  }

  lemma {:induction false} QueueSpawnKeepsOrder(s: State, c: CallId, options: Options)
    requires SpawnsInOrder(s)
    ensures SpawnsInOrder(QueueSpawn(s, c, options))
  {
    ConcatAssociates(s.spawns.popped, s.spawnQueue, [options]);
  }

  lemma {:induction false} PopSpawnKeepsOrder(s: State)
    requires SpawnsInOrder(s) && s.spawnQueue != []
    ensures SpawnsInOrder(PopSpawn(s))
  {
    ConcatAssociates(s.spawns.popped, [s.spawnQueue[0]], s.spawnQueue[1..]);
    assert s.spawnQueue == [s.spawnQueue[0]] + s.spawnQueue[1..];
  }

  // ----- How calls end

  /** A call that has ended was deferred, failed or completed; one that waited for the next sync may be neither. */
  predicate OneOutcome(call: Call, joined: bool, failed: bool, completed: bool) {
    if call.phase.Preparing? || InFlight(call) then !joined && !failed && !completed
    else if call.phase.Ended? then
      && !(joined && failed) && !(joined && completed) && !(failed && completed)
      && (call.options.strategy == ForceSpawnNew ==> joined || failed || completed)
    else !joined && !failed && completed
  }

  ghost predicate Outcomes(s: State) {
    && (forall c :: c in s.calls ==>
          OneOutcome(s.calls[c], c in s.spawns.joined, Failed(c) in s.log, Completed(c) in s.log))
    && (forall c :: c !in s.calls ==> c !in s.spawns.joined && Failed(c) !in s.log && Completed(c) !in s.log)
  }

  /** What is logged says nothing about how other calls ended. */
  ghost predicate OnlyEnds(more: seq<Event>, c: CallId) {
    forall d :: d != c ==> Failed(d) !in more && Completed(d) !in more
  }

  lemma {:induction false} OutcomesKept(s: State, t: State, c: CallId, more: seq<Event>)
    requires Outcomes(s) && t.log == s.log + more && OnlyEnds(more, c)
    requires c in t.calls && t.calls == s.calls[c := t.calls[c]]
    requires forall d :: d != c ==> (d in t.spawns.joined <==> d in s.spawns.joined)
    requires OneOutcome(t.calls[c], c in t.spawns.joined, Failed(c) in t.log, Completed(c) in t.log)
    ensures Outcomes(t)
  {
    forall d | d != c ensures Failed(d) in t.log <==> Failed(d) in s.log {
      assert Failed(d) !in more;
    }
    forall d | d != c ensures Completed(d) in t.log <==> Completed(d) in s.log {
      assert Completed(d) !in more;
    }
  }

  /** One call moves on without ending. */
  lemma {:induction false} QuietOutcomes(s: State, t: State, c: CallId, more: seq<Event>)
    requires Outcomes(s) && t.log == s.log + more && t.spawns.joined == s.spawns.joined
    requires forall e :: e in more ==> !e.Failed? && !e.Completed?
    requires c in s.calls && c in t.calls && t.calls == s.calls[c := t.calls[c]]
    requires t.calls[c].options == s.calls[c].options
    requires forall j, f, d :: OneOutcome(s.calls[c], j, f, d) ==> OneOutcome(t.calls[c], j, f, d)
    ensures Outcomes(t)
  {
    assert Failed(c) in t.log <==> Failed(c) in s.log;
    assert Completed(c) in t.log <==> Completed(c) in s.log;
    OutcomesKept(s, t, c, more);
  }

  // ----- Which call serves which request

  /** A request has at most one call, and a call that is deferred joins the queue behind the request it serves. */
  ghost predicate Serving(s: State) {
    var servers, joined := s.spawns.servers, s.spawns.joined;
    && (forall k :: 0 <= k < |servers| && servers[k].Some? ==>
          servers[k].value in s.calls && s.calls[servers[k].value].options.strategy == ForceSpawnNew)
    && (forall k, l :: 0 <= k < l < |servers| && servers[k].Some? ==> servers[l] != servers[k])
    && (forall c :: c in joined ==> c in s.calls && s.calls[c].phase.Ended? && joined[c] < |s.spawns.queued|)
    && (forall c, d :: c in joined && d in joined && joined[c] == joined[d] ==> c == d)
    && (forall k :: 0 <= k < |servers| && servers[k].Some? && servers[k].value in joined ==>
          k < joined[servers[k].value])
  }

  ghost predicate Spawning(s: State) {
    SpawnsInOrder(s) && Outcomes(s) && Serving(s)
  }

  ghost predicate SameSpawns(s: State, t: State) {
    t.spawnQueue == s.spawnQueue && t.spawns == s.spawns
  }

  /** Calls keep their options, and those that have ended stay as they are. */
  ghost predicate CallsStay(s: State, t: State) {
    forall c :: c in s.calls ==>
      c in t.calls && t.calls[c].options == s.calls[c].options && (s.calls[c].phase.Ended? ==> t.calls[c] == s.calls[c])
  }

  lemma {:induction false} SameServing(s: State, t: State)
    requires Serving(s) && SameSpawns(s, t) && CallsStay(s, t)
    ensures Serving(t)
  {
  }

  // ----- Every step

  /** Requests are only added, and a call that has ended neither changes nor joins the queue any more. */
  ghost predicate SpawnsGrow(s: State, t: State) {
    && s.spawns.servers <= t.spawns.servers && |s.spawns.queued| <= |t.spawns.queued| && CallsStay(s, t)
    && (forall c :: c in s.calls && s.calls[c].phase.Ended? ==>
          && (c in t.spawns.joined <==> c in s.spawns.joined)
          && (c in s.spawns.joined ==> t.spawns.joined[c] == s.spawns.joined[c]))
  }

  lemma {:induction false} GrowTwice(s: State, t: State, v: State)
    requires SpawnsGrow(s, t) && SpawnsGrow(t, v)
    ensures SpawnsGrow(s, v)
  {
  }

  lemma {:induction false} OneCallGrows(s: State, t: State, c: CallId)
    requires SameSpawns(s, t) && c in s.calls && c in t.calls && t.calls == s.calls[c := t.calls[c]]
    requires t.calls[c].options == s.calls[c].options && !s.calls[c].phase.Ended?
    ensures SpawnsGrow(s, t)
  {
  }

  lemma {:induction false} SyncGrows(s: State, options: Options)
    requires Locking(s)
    ensures SpawnsGrow(s, SyncOrSkip(s, options))
  {
  }

  /**
   The invariant holds again, nothing that was settled is touched, and calls go on: a call keeps what it
   set aside, uploads none of it, and never gets the lock back.
   */
  ghost predicate Advances(s: State, t: State) {
    Spawning(t) && SpawnsGrow(s, t) && Onward(s, t)
  }

  lemma {:induction false} AdvancesTwice(s: State, t: State, v: State)
    requires Advances(s, t) && Advances(t, v) && t.store == s.store
    ensures Advances(s, v)
  {
    GrowTwice(s, t, v);
    OnwardTwice(s, t, v);
  }

  lemma {:induction false} QuietAdvances(s: State, t: State, c: CallId, more: seq<Event>)
    requires Spawning(s) && SameSpawns(s, t) && t.log == s.log + more
    requires forall e :: e in more ==> !e.Failed? && !e.Completed?
    requires c in s.calls && c in t.calls && t.calls == s.calls[c := t.calls[c]]
    requires t.calls[c].options == s.calls[c].options && !s.calls[c].phase.Ended?
    requires forall j, f, d :: OneOutcome(s.calls[c], j, f, d) ==> OneOutcome(t.calls[c], j, f, d)
    requires Onward(s, t)
    ensures Advances(s, t)
  {
    QuietOutcomes(s, t, c, more);
    OneCallGrows(s, t, c);
    SameServing(s, t);
  }

  lemma {:induction false} InsideAdvances(s: State, a: Action)
    requires Spawning(s) && Enabled(s, a) && InsideOperation(a)
    ensures Advances(s, Next(s, a))
  {
    var t := Next(s, a);
    InsideOperationSteps(s, a);
    InsideIsSameSpawns(s, a);
    var more := if t.log == s.log then [] else [t.log[|s.log|]];
    assert t.log == s.log + more;
    InsideGoesOn(s, a);
    QuietAdvances(s, t, a.c, more);
  }

  lemma {:induction false} InsideIsSameSpawns(s: State, a: Action)
    requires Enabled(s, a) && InsideOperation(a)
    ensures SameSpawns(s, Next(s, a))
  {
  }

  lemma {:induction false} OutsideAdvances(s: State, a: Action)
    requires Spawning(s) && Enabled(s, a) && OutsideCalls(a)
    ensures Advances(s, Next(s, a))
  {
    OutsideSteps(s, a);
    OutsideIsSameSpawns(s, a);
    assert Outcomes(Next(s, a));
    SameServing(s, Next(s, a));
  }

  lemma {:induction false} OutsideIsSameSpawns(s: State, a: Action)
    requires Enabled(s, a) && OutsideCalls(a)
    ensures SameSpawns(s, Next(s, a))
  {
  }

  lemma {:induction false} SyncAdvances(s: State, options: Options)
    requires Spawning(s) && Locking(s)
    ensures Advances(s, SyncOrSkip(s, options))
  {
    var t := SyncOrSkip(s, options);
    SyncGrows(s, options);
    SyncGoesOn(s, options);
    if !s.clientLocked {
      assert s.nextCall !in s.calls && t.log == s.log + [];
      OutcomesKept(s, t, s.nextCall, []);
    }
    SameServing(s, t);
  }

  lemma {:induction false} PoppedKeepsOutcomes(s: State, options: Options)
    requires Outcomes(s) && Locking(s) && s.spawnQueue != []
    ensures Outcomes(SyncOrSkip(PopSpawn(s), options))
  {
    var t := SyncOrSkip(PopSpawn(s), options);
    assert Outcomes(PopSpawn(s));
    if !s.clientLocked {
      assert s.nextCall !in s.calls && t.log == s.log + [];
      OutcomesKept(PopSpawn(s), t, s.nextCall, []);
    }
  }

  /** The popped request gets a call that serves no other request. */
  lemma {:induction false} PoppedKeepsServing(s: State, options: Options)
    requires Serving(s) && Outcomes(s) && Locking(s) && s.spawnQueue != [] && options.strategy == ForceSpawnNew
    ensures Serving(SyncOrSkip(PopSpawn(s), options))
  {
    var t := SyncOrSkip(PopSpawn(s), options);
    assert CallsStay(s, t) by {
      SyncStays(PopSpawn(s), options);
    }
    NewServer(s, t, if s.clientLocked then None else Some(s.nextCall));
  }

  lemma {:induction false} SyncStays(s: State, options: Options)
    requires Locking(s)
    ensures CallsStay(s, SyncOrSkip(s, options))
  {
  }

  lemma {:induction false} NewServer(s: State, t: State, server: Option<CallId>)
    requires Serving(s) && CallsStay(s, t) && t.spawns.servers == s.spawns.servers + [server]
    requires t.spawns.joined == s.spawns.joined && t.spawns.queued == s.spawns.queued
    requires server.Some? ==>
               && server.value !in s.calls && server.value in t.calls
               && t.calls[server.value].options.strategy == ForceSpawnNew
    ensures Serving(t)
  {
  }

  lemma {:induction false} PoppedAdvances(s: State)
    requires Spawning(s) && Locking(s) && s.spawnQueue != []
    ensures var t := SyncOrSkip(PopSpawn(s), s.spawnQueue[0].(strategy := ForceSpawnNew));
      Advances(s, t) && t.store == s.store && Locking(t)
  {
    var popped, options := PopSpawn(s), s.spawnQueue[0].(strategy := ForceSpawnNew);
    PopSpawnKeepsOrder(s);
    PoppedKeepsOutcomes(s, options);
    PoppedKeepsServing(s, options);
    assert SpawnsGrow(s, popped) && Onward(s, popped) && Locking(popped);
    SyncKeepsLocking(popped, options);
    SyncGrows(popped, options);
    SyncGoesOn(popped, options);
    GrowTwice(s, popped, SyncOrSkip(popped, options));
    OnwardTwice(s, popped, SyncOrSkip(popped, options));
  }

  lemma {:induction false} SyncAgainAdvances(s: State)
    requires Spawning(s) && Locking(s)
    ensures Advances(s, SyncAgain(s))
  {
    if s.spawnQueue != [] {
      var t := SyncOrSkip(PopSpawn(s), s.spawnQueue[0].(strategy := ForceSpawnNew));
      PoppedAdvances(s);
      SyncAdvances(t, DEFAULT_OPTIONS);
      AdvancesTwice(s, t, SyncOrSkip(t, DEFAULT_OPTIONS));
    } else {
      SyncAdvances(s, DEFAULT_OPTIONS);
    }
  }

  /** The call ends and its request joins the resolve queue. */
  lemma {:induction false} QueueAdvances(s: State, c: CallId)
    requires Spawning(s) && c in s.calls && s.calls[c].phase.Preparing?
    requires s.calls[c].options.strategy == ResolveOnNext
    ensures Advances(s, QueueRequest(SetPhase(s, c, Ended)))
  {
    var t := QueueRequest(SetPhase(s, c, Ended));
    MovingOn(s, t, c);
    assert OnlyEnds([Queued(s.nextRequest)], c);
    OutcomesKept(s, t, c, [Queued(s.nextRequest)]);
    OneCallGrows(s, t, c);
    SameServing(s, t);
  }

  /** The call ends and its request joins the spawn queue, behind every request that was ever popped. */
  lemma {:induction false} JoinAdvances(s: State, c: CallId)
    requires Spawning(s) && c in s.calls && s.calls[c].phase.Preparing?
    ensures Advances(s, QueueSpawn(SetPhase(s, c, Ended), c, s.calls[c].options))
  {
    var quiet := SetPhase(s, c, Ended);
    var t := QueueSpawn(quiet, c, s.calls[c].options);
    QueueSpawnKeepsOrder(quiet, c, s.calls[c].options);
    assert t.log == s.log + [];
    OutcomesKept(s, t, c, []);
    MovingOn(s, t, c);
    assert SpawnsGrow(s, t);
    JoinKeepsServing(s, t, c);
  }

  lemma {:induction false} JoinKeepsServing(s: State, t: State, c: CallId)
    requires Serving(s) && CallsStay(s, t) && |s.spawns.servers| <= |s.spawns.queued|
    requires c in t.calls && t.calls[c].phase.Ended? && c !in s.spawns.joined
    requires t.spawns.servers == s.spawns.servers && |t.spawns.queued| == |s.spawns.queued| + 1
    requires t.spawns.joined == s.spawns.joined[c := |s.spawns.queued|]
    ensures Serving(t)
  {
  }

  lemma {:induction false} BeginAdvances(s: State, c: CallId)
    requires Spawning(s) && c in s.calls && s.calls[c].phase == Preparing(true)
    ensures Advances(s, DoEnterOrDefer(s, c))
  {
    BeginMovesOn(s, c);
    MovingOn(s, DoEnterOrDefer(s, c), c);
    QuietAdvances(s, DoEnterOrDefer(s, c), c, [Began(c)]);
  }

  lemma {:induction false} EnterAdvances(s: State, c: CallId)
    requires Spawning(s) && c in s.calls && s.calls[c].phase.Preparing?
    ensures Advances(s, DoEnterOrDefer(s, c))
  {
    if s.calls[c].phase.executes {
      BeginAdvances(s, c);
    } else {
      match s.calls[c].options.strategy
      case ResolveOnNext => QueueAdvances(s, c);
      case ForceSpawnNew => JoinAdvances(s, c);
    }
  }

  lemma {:induction false} SettleEndsNobody(requests: seq<RequestId>, c: CallId, resolve: bool)
    ensures forall e :: e in Settle(requests, c, resolve) ==> !e.Failed? && !e.Completed?
  {
  }

  lemma {:induction false} StampAdvances(s: State, c: CallId)
    requires Spawning(s) && c in s.calls && s.calls[c].phase.Beginning?
    ensures Advances(s, DoStamp(s, c))
  {
    assert DoStamp(s, c).log == s.log + [];
    StampMovesOn(s, c);
    MovingOn(s, DoStamp(s, c), c);
    QuietAdvances(s, DoStamp(s, c), c, []);
  }

  lemma {:induction false} FailAdvances(s: State, c: CallId)
    requires Spawning(s) && c in s.calls && s.calls[c].phase.Running?
    ensures Advances(s, DoFail(s, c))
  {
    var more := [Failed(c)] + Settle(s.calls[c].inTime, c, false);
    SettleEndsNobody(s.calls[c].inTime, c, false);
    assert DoFail(s, c).log == s.log + more && more[0] == Failed(c);
    assert Failed(c) in more && Completed(c) !in more;
    OutcomesKept(s, DoFail(s, c), c, more);
    OneCallGrows(s, DoFail(s, c), c);
    FailMovesOn(s, c);
    MovingOn(s, DoFail(s, c), c);
    SameServing(s, DoFail(s, c));
  }

  lemma {:induction false} CompleteAdvances(s: State, c: CallId)
    requires Spawning(s) && c in s.calls && s.calls[c].phase.Running?
    ensures Advances(s, DoComplete(s, c))
  {
    OutcomesKept(s, DoComplete(s, c), c, [Completed(c)]);
    OneCallGrows(s, DoComplete(s, c), c);
    CompleteMovesOn(s, c);
    MovingOn(s, DoComplete(s, c), c);
    SameServing(s, DoComplete(s, c));
  }

  lemma {:induction false} PhaseAdvances(s: State, c: CallId, phase: Phase)
    requires Spawning(s) && c in s.calls && (s.calls[c].phase.Finishing? || s.calls[c].phase.Downloaded?)
    requires phase.Downloaded? || phase.Resolving?
    ensures Advances(s, SetPhase(s, c, phase))
  {
    assert SetPhase(s, c, phase).log == s.log + [];
    PhaseMovesOn(s, c, phase);
    MovingOn(s, SetPhase(s, c, phase), c);
    QuietAdvances(s, SetPhase(s, c, phase), c, []);
  }

  lemma {:induction false} DownloadedAdvances(s: State, c: CallId)
    requires Spawning(s) && c in s.calls && s.calls[c].phase.Finishing? && s.calls[c].phase.ranMode == DownloadFirst
    ensures Advances(s, DoContinue(s, c))
  {
    assert DoContinue(s, c).log == s.log + [];
    DownloadedMovesOn(s, c);
    MovingOn(s, DoContinue(s, c), c);
    QuietAdvances(s, DoContinue(s, c), c, []);
  }

  lemma {:induction false} ContinueAdvances(s: State, c: CallId)
    requires Spawning(s) && Locking(s) && c in s.calls && s.calls[c].phase.Finishing?
    ensures Advances(s, DoContinue(s, c))
  {
    if s.calls[c].phase.ranMode == DownloadFirst {
      DownloadedAdvances(s, c);
    } else {
      var resolving := SetPhase(s, c, SyncModel.Resolving);
      PhaseAdvances(s, c, SyncModel.Resolving);
      PhaseKeepsLocking(s, c, SyncModel.Resolving);
      SyncAgainAdvances(resolving);
      AdvancesTwice(s, resolving, SyncAgain(resolving));
    }
  }

  lemma {:induction false} AfterDownloadAdvances(s: State, c: CallId)
    requires Spawning(s) && Locking(s) && c in s.calls && s.calls[c].phase.Downloaded?
    ensures Advances(s, SyncOrSkip(SetPhase(s, c, SyncModel.Resolving), DEFAULT_OPTIONS))
  {
    var resolving := SetPhase(s, c, SyncModel.Resolving);
    PhaseAdvances(s, c, SyncModel.Resolving);
    PhaseKeepsLocking(s, c, SyncModel.Resolving);
    SyncAdvances(resolving, DEFAULT_OPTIONS);
    AdvancesTwice(s, resolving, SyncOrSkip(resolving, DEFAULT_OPTIONS));
  }

  lemma {:induction false} ResolveAdvances(s: State, c: CallId)
    requires Spawning(s) && c in s.calls && s.calls[c].phase.Resolving?
    ensures Advances(s, DoResolve(s, c))
  {
    SettleEndsNobody(s.calls[c].inTime, c, true);
    ResolveMovesOn(s, c);
    MovingOn(s, DoResolve(s, c), c);
    QuietAdvances(s, DoResolve(s, c), c, Settle(s.calls[c].inTime, c, true));
  }

  lemma {:induction false} StepAdvances(s: State, a: Action)
    requires Spawning(s) && Locking(s) && Enabled(s, a)
    ensures Advances(s, Next(s, a))
  {
    if InsideOperation(a) {
      InsideAdvances(s, a);
    } else if OutsideCalls(a) {
      OutsideAdvances(s, a);
    } else {
      match a
      case Sync(options) => SyncAdvances(s, options);
      case EnterOrDefer(c) => EnterAdvances(s, c);
      case Stamp(c) => StampAdvances(s, c);
      case Finish(c) =>
        if s.error {
          FailAdvances(s, c);
        } else {
          CompleteAdvances(s, c);
        }
      case Continue(c) => ContinueAdvances(s, c);
      case SyncAfterDownload(c) => AfterDownloadAdvances(s, c);
      case Resolve(c) => ResolveAdvances(s, c);
    }
  }

  // ----- The settlement of a request

  /** The request that the call for request `k` was deferred as, if it was. */
  predicate Rejoins(s: State, k: nat, c: CallId) {
    c in s.spawns.joined && k < s.spawns.joined[c] < |s.spawns.queued|
  }

  /**
   The promise of a request is resolved when the promise of its call is, and at once when the client was
   locked. The promise of a call is resolved when the call ends; if it was deferred, with its new request.
   */
  predicate Settled(s: State, k: nat)
    decreases |s.spawns.queued| - k
  {
    && k < |s.spawns.servers|
    && match s.spawns.servers[k]
       case None => true
       case Some(c) =>
         && c in s.calls && s.calls[c].phase.Ended?
         && (Rejoins(s, k, c) ==> Settled(s, s.spawns.joined[c]))
  }

  /** The call that was started last for a request, following its deferrals. */
  function LastCall(s: State, k: nat): Option<CallId>
    decreases |s.spawns.queued| - k
  {
    if k >= |s.spawns.servers| then None
    else
      match s.spawns.servers[k]
      case None => None
      case Some(c) => if Rejoins(s, k, c) then LastCall(s, s.spawns.joined[c]) else Some(c)
  }

  /** The last call ran an operation of its own to the end, or it has not ended yet. */
  lemma {:induction false} LastCallEnds(s: State, k: nat)
    requires Spawning(s) && LastCall(s, k).Some?
    ensures var c := LastCall(s, k).value;
      && c in s.calls && c !in s.spawns.joined && (Settled(s, k) <==> s.calls[c].phase.Ended?)
      && (Settled(s, k) ==> (Failed(c) in s.log <==> Completed(c) !in s.log))
    decreases |s.spawns.queued| - k
  {
    var c := s.spawns.servers[k].value;
    if Rejoins(s, k, c) {
      LastCallEnds(s, s.spawns.joined[c]);
    } else {
      assert OneOutcome(s.calls[c], c in s.spawns.joined, Failed(c) in s.log, Completed(c) in s.log);
    }
  }

  lemma {:induction false} SettledStays(s: State, t: State, k: nat)
    requires Spawning(s) && SpawnsGrow(s, t) && Settled(s, k)
    ensures Settled(t, k) && LastCall(t, k) == LastCall(s, k)
    decreases |s.spawns.queued| - k
  {
    assert t.spawns.servers[k] == s.spawns.servers[k];
    if s.spawns.servers[k].Some? {
      var c := s.spawns.servers[k].value;
      if Rejoins(s, k, c) {
        SettledStays(s, t, s.spawns.joined[c]);
      }
    }
  }

  /** Resolved because a sync of its own, or of the request it was deferred as, has completed. */
  ghost predicate ResolvedBySync(s: State, k: nat, c: CallId) {
    Settled(s, k) && LastCall(s, k) == Some(c) && Completed(c) in s.log
  }

  // ----- Every run

  lemma {:induction false} RunKeepsSpawning(actions: seq<Action>)
    ensures Spawning(Run(actions))
  {
    if actions != [] {
      var n := |actions| - 1;
      RunKeepsSpawning(actions[..n]);
      SyncTheorems.RunKeepsInv(actions[..n]);
      if Enabled(Run(actions[..n]), actions[n]) {
        StepAdvances(Run(actions[..n]), actions[n]);
      }
    }
  }

  /** Spawn requests are popped one by one, in the order in which they were queued. */
  lemma {:induction false} SpawnsArePoppedInOrder(actions: seq<Action>)
    ensures SpawnsInOrder(Run(actions))
  {
    RunKeepsSpawning(actions);
  }

  /**
   A spawned request is resolved by a completed sync exactly when the last call started for it, following
   deferrals, has ended and did not fail. Otherwise its promise is pending, or was resolved without a sync
   because the client was locked, or was resolved although the operation failed.
   */
  lemma {:induction false} SpawnIsServedIff(actions: seq<Action>, k: nat)
    requires k < |Run(actions).spawns.queued|
    ensures var s := Run(actions); var last := LastCall(s, k);
      && (last.Some? ==> last.value in s.calls && (Settled(s, k) <==> s.calls[last.value].phase.Ended?))
      && ((exists c :: ResolvedBySync(s, k, c)) <==>
            last.Some? && s.calls[last.value].phase.Ended? && Failed(last.value) !in s.log)
      && (Settled(s, k) && last.Some? ==> (Failed(last.value) in s.log <==> Completed(last.value) !in s.log))
  {
    RunKeepsSpawning(actions);
    var s := Run(actions);
    if LastCall(s, k).Some? {
      LastCallEnds(s, k);
      if Settled(s, k) && Completed(LastCall(s, k).value) in s.log {
        assert ResolvedBySync(s, k, LastCall(s, k).value);
      }
    }
  }

  /** Once settled, a request stays settled, by the same call, whatever happens later. */
  lemma {:induction false} SettlementIsFinal(actions: seq<Action>, n: nat, k: nat)
    requires n <= |actions| && Settled(Run(actions[..n]), k)
    ensures Settled(Run(actions), k) && LastCall(Run(actions), k) == LastCall(Run(actions[..n]), k)
  {
    var last := |actions| - 1;
    if n <= last {
      assert actions[..last][..n] == actions[..n];
      SettlementIsFinal(actions[..last], n, k);
      if Enabled(Run(actions[..last]), actions[last]) {
        RunKeepsSpawning(actions[..last]);
        SyncTheorems.RunKeepsInv(actions[..last]);
        StepAdvances(Run(actions[..last]), actions[last]);
        SettledStays(Run(actions[..last]), Next(Run(actions[..last]), actions[last]), k);
      }
    } else {
      assert actions[..n] == actions;
    }
  }
}
