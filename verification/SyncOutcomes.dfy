/**
 How operations end, told by what was done: an operation completes or fails by the last answer it got.
 What the log says about completed operations is meant in this sense.
 */
module SyncOutcomes {
  import opened Wrappers
  import opened SyncModel
  import opened SyncLocking
  import opened SyncTrace
  import opened SyncSpawns
  import opened SyncSurvival
  import opened SyncTheorems

  predicate IsAnswer(a: Action, c: CallId) {
    (a.ReceiveError? || a.ReceiveSuccess? || a.RunOffline?) && a.c == c
  }

  ghost predicate Happens(actions: seq<Action>, i: nat) {
    i < |actions| && Enabled(At(actions, i), actions[i])
  }

  /** Of the answers to call `c` before moment `n`, action `k` was the last. */
  ghost predicate LastAnswer(actions: seq<Action>, k: nat, n: nat, c: CallId) {
    && k < n <= |actions| && Happens(actions, k) && IsAnswer(actions[k], c)
    && forall i :: k < i < n && Happens(actions, i) ==> !IsAnswer(actions[i], c)
  }

  /** At action `j` the operation of call `c` ends, after an answer that was an error or was none. */
  ghost predicate EndsAt(actions: seq<Action>, j: nat, c: CallId, failed: bool) {
    && Happens(actions, j) && actions[j] == Finish(c)
    && exists k: nat :: LastAnswer(actions, k, j, c) && (actions[k].ReceiveError? <==> failed)
  }

  // ----- One step

  predicate DoneRunning(s: State, c: CallId) {
    c in s.calls && s.calls[c].phase.Running? && s.calls[c].phase.done
  }

  /** What is to be uploaded has been collected, and the operation has not ended. */
  predicate Carrying(call: Call) {
    call.phase.Collected? || call.phase.Running?
  }

  /** A call that carries something has carried it before, just so. */
  ghost predicate CarriersStay(s: State, t: State) {
    forall c :: c in t.calls && Carrying(t.calls[c]) ==> c in s.calls && t.calls[c] == s.calls[c]
  }

  lemma {:induction false} StartedCarryNothing(s: State, c: CallId, t: State)
    requires c in s.calls && OnlyStarts(SetPhase(s, c, SyncModel.Resolving), t)
    ensures CarriersStay(s, t) && t.error == s.error && t.log == s.log
  {
  }

  lemma {:induction false} ContinueKeepsError(s: State, c: CallId)
    requires Locking(s) && Enabled(s, Continue(c))
    ensures CarriersStay(s, DoContinue(s, c)) && DoContinue(s, c).error == s.error && DoContinue(s, c).log == s.log
  {
    if s.calls[c].phase.ranMode == Default {
      ContinueOnlyStarts(s, c);
      StartedCarryNothing(s, c, DoContinue(s, c));
    }
  }

  lemma {:induction false} AfterDownloadKeepsError(s: State, c: CallId)
    requires Locking(s) && Enabled(s, SyncAfterDownload(c))
    ensures var t := Next(s, SyncAfterDownload(c)); CarriersStay(s, t) && t.error == s.error && t.log == s.log
  {
    AfterDownloadOnlyStarts(s, c);
    StartedCarryNothing(s, c, Next(s, SyncAfterDownload(c)));
  }

  lemma {:induction false} EndedCarriesNothing(s: State, c: CallId, t: State)
    requires c in s.calls && t.calls == SetPhase(s, c, Ended).calls
    ensures CarriersStay(s, t)
  {
  }

  lemma {:induction false} EnterKeepsError(s: State, c: CallId)
    requires c in s.calls && s.calls[c].phase.Preparing?
    ensures CarriersStay(s, DoEnterOrDefer(s, c)) && DoEnterOrDefer(s, c).error == s.error
  {
    if !s.calls[c].phase.executes {
      DeferKeepsTheRest(SetPhase(s, c, Ended), c, s.calls[c].options);
      EndedCarriesNothing(s, c, DoEnterOrDefer(s, c));
    }
  }

  /** Inside an operation only an answer sets the error flag, and only an answer is the last thing to do. */
  lemma {:induction false} InsideAnswers(s: State, a: Action, c: CallId)
    requires Locking(s) && Enabled(s, a) && InsideOperation(a) && DoneRunning(Next(s, a), c)
    ensures if IsAnswer(a, c) then Next(s, a).error == a.ReceiveError?
            else DoneRunning(s, c) && Next(s, a).error == s.error
  {
    InsideOperationSteps(s, a);
    assert s.holder == Some(a.c);
  }

  lemma {:induction false} AloneKeepsError(s: State, t: State, c: CallId)
    requires MovesAlone(s, t, c) && !Carrying(t.calls[c])
    ensures CarriersStay(s, t)
  {
  }

  /** Outside an operation the error flag stays, and nobody starts to carry anything. */
  lemma {:induction false} OutsideKeepsError(s: State, a: Action)
    requires Locking(s) && Enabled(s, a) && !InsideOperation(a)
    ensures Next(s, a).error == s.error && CarriersStay(s, Next(s, a))
  {
    if OutsideCalls(a) {
      OutsideSteps(s, a);
    } else {
      match a
      case Sync(options) => SyncOnlyStarts(s, options);
      case EnterOrDefer(c) => EnterKeepsError(s, c);
      case Stamp(c) =>
        StampMovesAlone(s, c);
        AloneKeepsError(s, DoStamp(s, c), c);
      case Finish(c) =>
        FinishMovesAlone(s, c);
        AloneKeepsError(s, DoFinish(s, c), c);
      case Continue(c) => ContinueKeepsError(s, c);
      case SyncAfterDownload(c) => AfterDownloadKeepsError(s, c);
      case Resolve(c) =>
        ResolveMovesAlone(s, c);
        AloneKeepsError(s, DoResolve(s, c), c);
    }
  }

  /** After an operation has ended, none is running. */
  lemma {:induction false} FinishLeavesNobody(s: State, c: CallId, d: CallId)
    requires Locking(s) && Enabled(s, Finish(c))
    ensures !DoneRunning(Next(s, Finish(c)), d)
  {
    assert s.holder == Some(c);
  }

  /** An operation that has nothing left to do has had an answer, and the error flag is about the last one. */
  lemma {:induction false} StepAnswers(s: State, a: Action, c: CallId)
    requires Locking(s) && Enabled(s, a) && DoneRunning(Next(s, a), c)
    ensures if IsAnswer(a, c) then Next(s, a).error == a.ReceiveError?
            else DoneRunning(s, c) && Next(s, a).error == s.error
  {
    if InsideOperation(a) {
      InsideAnswers(s, a, c);
    } else {
      OutsideKeepsError(s, a);
      if a.Finish? {
        FinishLeavesNobody(s, a.c, c);
      }
    }
  }

  predicate IsEnd(e: Event) {
    e.Completed? || e.Failed?
  }

  lemma {:induction false} FinishLogsEnd(s: State, c: CallId, e: Event)
    requires Enabled(s, Finish(c)) && IsEnd(e)
    ensures e in DoFinish(s, c).log <==> e in s.log || (c == e.call && s.error == e.Failed?)
  {
    SettleEndsNobody(s.calls[c].inTime, c, false);
  }

  lemma {:induction false} EnterLogsNoEnd(s: State, c: CallId, e: Event)
    requires c in s.calls && s.calls[c].phase.Preparing? && IsEnd(e)
    ensures e in DoEnterOrDefer(s, c).log <==> e in s.log
  {
    if !s.calls[c].phase.executes {
      DeferLogsNoEnd(SetPhase(s, c, Ended), c, s.calls[c].options, e);
    }
  }

  lemma {:induction false} DeferLogsNoEnd(s: State, c: CallId, options: Options, e: Event)
    requires IsEnd(e)
    ensures e in DeferRequest(s, c, options).log <==> e in s.log
  {
    match options.strategy
    case ResolveOnNext => assert QueueRequest(s).log == s.log + [Queued(s.nextRequest)];
    case ForceSpawnNew => assert QueueSpawn(s, c, options).log == s.log;
  }

  /** Only the step that finishes an operation logs an end, and by the error flag. */
  lemma {:induction false} StepLogsEnd(s: State, a: Action, e: Event)
    requires Locking(s) && Enabled(s, a) && IsEnd(e)
    ensures e in Next(s, a).log <==> e in s.log || (a == Finish(e.call) && s.error == e.Failed?)
  {
    if InsideOperation(a) {
      InsideOperationSteps(s, a);
      LaunchIsNoEnd(s.log, Next(s, a).log, a.c, e);
    } else if OutsideCalls(a) {
      OutsideSteps(s, a);
    } else {
      match a
      case Sync(options) => SyncOnlyStarts(s, options);
      case EnterOrDefer(c) => EnterLogsNoEnd(s, c, e);
      case Stamp(c) => StampMovesAlone(s, c);
      case Finish(c) => FinishLogsEnd(s, c, e);
      case Continue(c) => ContinueKeepsError(s, c);
      case SyncAfterDownload(c) => AfterDownloadKeepsError(s, c);
      case Resolve(c) => SettleEndsNobody(s.calls[c].inTime, c, true);
    }
  }

  lemma {:induction false} LaunchIsNoEnd(log: seq<Event>, log': seq<Event>, c: CallId, e: Event)
    requires IsEnd(e) && (log' == log || LogsLaunch(log, log', c))
    ensures e in log' <==> e in log
  {
    if log' != log {
      assert log' == log + [log'[|log'| - 1]];
    }
  }

  // ----- Whole runs

  lemma {:induction false} LastAnswerStays(actions: seq<Action>, k: nat, n: nat, c: CallId)
    requires n < |actions| && LastAnswer(actions, k, n, c)
    requires Happens(actions, n) ==> !IsAnswer(actions[n], c)
    ensures LastAnswer(actions, k, n + 1, c)
  {
  }

  lemma {:induction false} AnsweredBy(actions: seq<Action>, n: nat, c: CallId) returns (k: nat)
    requires n <= |actions| && DoneRunning(At(actions, n), c)
    ensures LastAnswer(actions, k, n, c) && (actions[k].ReceiveError? <==> At(actions, n).error)
  {
    var s, a := At(actions, n - 1), actions[n - 1];
    RunStep(actions, n - 1);
    RunKeepsInv(actions[..n - 1]);
    if Enabled(s, a) {
      StepAnswers(s, a, c);
    }
    if Enabled(s, a) && IsAnswer(a, c) {
      k := n - 1;
    } else {
      k := AnsweredBy(actions, n - 1, c);
      LastAnswerStays(actions, k, n - 1, c);
    }
  }

  lemma {:induction false} LastAnswerIsUnique(actions: seq<Action>, k: nat, l: nat, n: nat, c: CallId)
    requires LastAnswer(actions, k, n, c) && LastAnswer(actions, l, n, c)
    ensures k == l
  {
  }

  /** The operation ends by the error flag, which is about its last answer. */
  lemma {:induction false} FinishEnds(actions: seq<Action>, j: nat, c: CallId, failed: bool)
    requires Happens(actions, j) && actions[j] == Finish(c)
    ensures EndsAt(actions, j, c, failed) <==> At(actions, j).error == failed
  {
    var k := AnsweredBy(actions, j, c);
    if EndsAt(actions, j, c, failed) {
      var l: nat :| LastAnswer(actions, l, j, c) && (actions[l].ReceiveError? <==> failed);
      LastAnswerIsUnique(actions, k, l, j, c);
    }
  }

  ghost predicate EndedBefore(actions: seq<Action>, n: nat, c: CallId, failed: bool) {
    exists j: nat :: j < n && EndsAt(actions, j, c, failed)
  }

  function End(c: CallId, failed: bool): Event {
    if failed then Failed(c) else Completed(c)
  }

  lemma {:induction false} LoggedIff(actions: seq<Action>, n: nat, c: CallId, failed: bool)
    requires n <= |actions|
    ensures End(c, failed) in At(actions, n).log <==> EndedBefore(actions, n, c, failed)
  {
    if n > 0 {
      var s, a := At(actions, n - 1), actions[n - 1];
      LoggedIff(actions, n - 1, c, failed);
      RunStep(actions, n - 1);
      RunKeepsInv(actions[..n - 1]);
      if Enabled(s, a) {
        StepLogsEnd(s, a, End(c, failed));
        if a == Finish(c) {
          FinishEnds(actions, n - 1, c, failed);
        }
      }
      EndedOneMore(actions, n - 1, c, failed);
    }
  }

  lemma {:induction false} EndedOneMore(actions: seq<Action>, n: nat, c: CallId, failed: bool)
    ensures EndedBefore(actions, n + 1, c, failed) <==>
      EndedBefore(actions, n, c, failed) || EndsAt(actions, n, c, failed)
  {
    if j: nat :| j < n + 1 && EndsAt(actions, j, c, failed) {
      assert j < n || EndsAt(actions, n, c, failed);
    }
  }

  /** The operation of the call ended in this run, its last answer being an error, or being none. */
  ghost predicate EndedIn(actions: seq<Action>, c: CallId, failed: bool) {
    exists j: nat :: EndsAt(actions, j, c, failed)
  }

  /** Completed means: it ended after an answer without error. Failed means: after an error. */
  lemma {:induction false} EndedIff(actions: seq<Action>, c: CallId)
    ensures Completed(c) in Run(actions).log <==> EndedIn(actions, c, false)
    ensures Failed(c) in Run(actions).log <==> EndedIn(actions, c, true)
  {
    assert actions[..|actions|] == actions;
    forall failed: bool ensures End(c, failed) in Run(actions).log <==> EndedIn(actions, c, failed) {
      LoggedIff(actions, |actions|, c, failed);
      if j: nat :| EndsAt(actions, j, c, failed) {
        assert j < |actions| && EndedBefore(actions, |actions|, c, failed);
      }
    }
    assert End(c, false) == Completed(c) && End(c, true) == Failed(c);
  }

  /** The operation of a call ends once. */
  lemma {:induction false} EndsOnce(actions: seq<Action>, i: nat, j: nat, c: CallId, failed: bool, failed': bool)
    requires EndsAt(actions, i, c, failed) && EndsAt(actions, j, c, failed')
    ensures i == j && failed == failed'
  {
    EndsFirst(actions, i, j, c, failed);
    EndsFirst(actions, j, i, c, failed');
    FinishEnds(actions, i, c, failed);
    FinishEnds(actions, i, c, failed');
  }

  lemma {:induction false} EndsFirst(actions: seq<Action>, i: nat, j: nat, c: CallId, failed: bool)
    requires EndsAt(actions, i, c, failed) && Happens(actions, j) && actions[j] == Finish(c)
    ensures j <= i
  {
    if i < j {
      LoggedIff(actions, j, c, failed);
      RunKeepsSpawning(actions[..j]);
    }
  }

  // ----- What follows for requests and uploads

  lemma {:induction false} ChainMeans(log: seq<Event>, a: Event, b: Event, c: Event)
    requires Chain(log, a, b, c)
    ensures c in log && Precedes(log, a, b)
  {
    var k :| 0 <= k < |log| && log[k] == c && Precedes(log[..k], a, b);
    PrecedesGrows(log[..k], log[k..], a, b);
    assert log[..k] + log[k..] == log;
  }

  /**
   A request is resolved only by a call whose operation began after the request was queued and ended
   without error; it is dropped only by such a call whose operation ended with one.
   */
  lemma {:induction false} SettledByOutcome(actions: seq<Action>, i: nat)
    requires i < |Run(actions).log| && (Run(actions).log[i].Resolved? || Run(actions).log[i].Dropped?)
    ensures var log := Run(actions).log; var c := log[i].caller;
      && Precedes(log[..i], Queued(log[i].request), Began(c)) && EndedIn(actions, c, log[i].Dropped?)
  {
    var log := Run(actions).log;
    var c := log[i].caller;
    var end := End(c, log[i].Dropped?);
    RequestsAreServedInOrder(actions, i);
    ChainMeans(log[..i], Queued(log[i].request), Began(c), end);
    assert end in log;
    EndedIff(actions, c);
  }

  /** Uploads come only after an online operation without uploads that ended without error. */
  lemma {:induction false} UploadsFollowDownload(actions: seq<Action>, i: nat) returns (c: CallId)
    requires i < |Run(actions).log| && Run(actions).log[i].Launched?
    requires Run(actions).log[i].online && Run(actions).log[i].carries
    ensures Precedes(Run(actions).log[..i], Launched(c, true, false), Completed(c)) && EndedIn(actions, c, false)
  {
    var log := Run(actions).log;
    DownloadComesFirst(actions, i);
    c :| Precedes(log[..i], Launched(c, true, false), Completed(c));
    var j :| 0 <= j < i && log[..i][j] == Completed(c);
    assert log[j] == Completed(c);
    EndedIff(actions, c);
  }

  /** A request that forces a sync of its own is served exactly when its last call ended without error. */
  lemma {:induction false} SpawnIsServedBySuccessIff(actions: seq<Action>, k: nat)
    requires k < |Run(actions).spawns.queued|
    ensures var s := Run(actions); var last := LastCall(s, k);
      (exists c :: ResolvedBySync(s, k, c)) <==>
        last.Some? && last.value in s.calls && s.calls[last.value].phase.Ended? && EndedIn(actions, last.value, false)
  {
    var s := Run(actions);
    SpawnIsServedIff(actions, k);
    if LastCall(s, k).Some? {
      EndedIff(actions, LastCall(s, k).value);
    }
  }
}
