/** What the steps keep about the order of events: who began, ended and was resolved when. */
module SyncTrace {
  import opened Wrappers
  import opened Lists
  import opened SyncModel
  import opened SyncLocking

  ghost predicate Precedes(log: seq<Event>, a: Event, b: Event) {
    exists j :: 0 <= j < |log| && log[j] == b && a in log[..j]
  }

  ghost predicate Chain(log: seq<Event>, a: Event, b: Event, c: Event) {
    exists k :: 0 <= k < |log| && log[k] == c && Precedes(log[..k], a, b)
  }

  lemma {:induction false} PrecedesGrows(log: seq<Event>, more: seq<Event>, a: Event, b: Event)
    requires Precedes(log, a, b)
    ensures Precedes(log + more, a, b)
  {
    var j :| 0 <= j < |log| && log[j] == b && a in log[..j];
    assert (log + more)[j] == b && (log + more)[..j] == log[..j];
  }

  lemma {:induction false} ChainGrows(log: seq<Event>, more: seq<Event>, a: Event, b: Event, c: Event)
    requires Chain(log, a, b, c)
    ensures Chain(log + more, a, b, c)
  {
    var k :| 0 <= k < |log| && log[k] == c && Precedes(log[..k], a, b);
    assert (log + more)[k] == c && (log + more)[..k] == log[..k];
  }

  lemma {:induction false} PrecedesNow(log: seq<Event>, a: Event, b: Event)
    requires a in log
    ensures Precedes(log + [b], a, b)
  {
    assert (log + [b])[|log|] == b && (log + [b])[..|log|] == log;
  }

  lemma {:induction false} ChainNow(log: seq<Event>, a: Event, b: Event, c: Event)
    requires Precedes(log, a, b)
    ensures Chain(log + [c], a, b, c)
  {
    assert (log + [c])[|log|] == c && (log + [c])[..|log|] == log;
  }

  // ----- Requests are settled only by an operation that began after them and ended

  /** A settled request was queued before its operation began, and that operation ended before it. */
  ghost predicate SettledInOrder(log: seq<Event>, i: nat)
    requires i < |log|
  {
    && (log[i].Resolved? ==>
          Chain(log[..i], Queued(log[i].request), Began(log[i].caller), Completed(log[i].caller)))
    && (log[i].Dropped? ==>
          Chain(log[..i], Queued(log[i].request), Began(log[i].caller), Failed(log[i].caller)))
  }

  ghost predicate HistoryInOrder(log: seq<Event>) {
    forall i :: 0 <= i < |log| ==> SettledInOrder(log, i)
  }

  ghost predicate BatchBefore(log: seq<Event>, batch: seq<RequestId>, c: CallId) {
    forall r :: r in batch ==> Precedes(log, Queued(r), Began(c))
  }

  ghost predicate BatchServed(log: seq<Event>, batch: seq<RequestId>, c: CallId, end: Event) {
    forall r :: r in batch ==> Chain(log, Queued(r), Began(c), end)
  }

  ghost predicate Ordering(s: State) {
    && (forall r :: r in s.resolveQueue ==> Queued(r) in s.log)
    && (forall c :: c in s.calls && InFlight(s.calls[c]) ==> BatchBefore(s.log, s.calls[c].inTime, c))
    && (forall c :: c in s.calls && Carries(s.calls[c]) && !InFlight(s.calls[c]) ==>
          BatchServed(s.log, s.calls[c].inTime, c, Completed(c)))
    && HistoryInOrder(s.log)
  }

  lemma {:induction false} BatchGrows(log: seq<Event>, more: seq<Event>, batch: seq<RequestId>, c: CallId, end: Event)
    ensures BatchBefore(log, batch, c) ==> BatchBefore(log + more, batch, c)
    ensures BatchServed(log, batch, c, end) ==> BatchServed(log + more, batch, c, end)
  {
    forall r | r in batch && Precedes(log, Queued(r), Began(c)) ensures Precedes(log + more, Queued(r), Began(c)) {
      PrecedesGrows(log, more, Queued(r), Began(c));
    }
    forall r | r in batch && Chain(log, Queued(r), Began(c), end) ensures Chain(log + more, Queued(r), Began(c), end) {
      ChainGrows(log, more, Queued(r), Began(c), end);
    }
  }

  lemma {:induction false} HistoryGrows(log: seq<Event>, more: seq<Event>)
    requires HistoryInOrder(log)
    requires forall e :: e in more ==> !e.Resolved? && !e.Dropped?
    ensures HistoryInOrder(log + more)
  {
    var all := log + more;
    forall i | 0 <= i < |all| ensures SettledInOrder(all, i) {
      if i < |log| {
        assert all[..i] == log[..i] && SettledInOrder(log, i);
      } else {
        assert all[i] == more[i - |log|];
      }
    }
  }

  /** The log grows by events that settle nothing, and no call enters a stricter phase. */
  lemma {:induction false} OrderingGrows(s: State, t: State, more: seq<Event>)
    requires Ordering(s) && t.log == s.log + more
    requires forall e :: e in more ==> !e.Resolved? && !e.Dropped?
    requires forall r :: r in t.resolveQueue ==> r in s.resolveQueue || Queued(r) in more
    requires forall c :: c in t.calls && (InFlight(t.calls[c]) || Carries(t.calls[c])) ==>
               c in s.calls && t.calls[c].inTime == s.calls[c].inTime
               && (InFlight(t.calls[c]) ==> InFlight(s.calls[c]))
               && (Carries(t.calls[c]) && !InFlight(t.calls[c]) ==> Carries(s.calls[c]) && !InFlight(s.calls[c]))
    ensures Ordering(t)
  {
    HistoryGrows(s.log, more);
    forall c | c in t.calls && (InFlight(t.calls[c]) || Carries(t.calls[c]))
      ensures InFlight(t.calls[c]) ==> BatchBefore(t.log, t.calls[c].inTime, c)
      ensures Carries(t.calls[c]) && !InFlight(t.calls[c]) ==> BatchServed(t.log, t.calls[c].inTime, c, Completed(c))
    {
      BatchGrows(s.log, more, t.calls[c].inTime, c, Completed(c));
    }
  }

  lemma {:induction false} OperationStepKeepsOrdering(s: State, t: State, c: CallId)
    requires Ordering(s) && OperationStep(s, t, c)
    ensures Ordering(t)
  {
    if t.log == s.log {
      assert t.log == s.log + [];
      OrderingGrows(s, t, []);
    } else {
      assert t.log == s.log + [t.log[|s.log|]];
      OrderingGrows(s, t, [t.log[|s.log|]]);
    }
  }

  lemma {:induction false} QuietStepKeepsOrdering(s: State, t: State)
    requires Ordering(s) && t.log == s.log && t.resolveQueue == s.resolveQueue
    requires forall c :: c in t.calls && (InFlight(t.calls[c]) || Carries(t.calls[c])) ==>
               c in s.calls && t.calls[c].inTime == s.calls[c].inTime
               && (InFlight(t.calls[c]) <==> InFlight(s.calls[c])) && (Carries(t.calls[c]) <==> Carries(s.calls[c]))
    ensures Ordering(t)
  {
    assert t.log == s.log + [];
    OrderingGrows(s, t, []);
  }

  lemma {:induction false} SyncKeepsOrdering(s: State, options: Options)
    requires Ordering(s)
    ensures Ordering(SyncOrSkip(s, options))
  {
    QuietStepKeepsOrdering(s, SyncOrSkip(s, options));
  }

  lemma {:induction false} BeginKeepsOrdering(s: State, c: CallId)
    requires Ordering(s) && c in s.calls && s.calls[c].phase == Preparing(true)
    ensures Ordering(DoEnterOrDefer(s, c))
  {
    var call := s.calls[c].(inTime := s.resolveQueue, phase := Beginning);
    forall r | r in s.resolveQueue ensures Precedes(s.log + [Began(c)], Queued(r), Began(c)) {
      PrecedesNow(s.log, Queued(r), Began(c));
    }
    CallJoins(s, DoEnterOrDefer(s, c), c, call, Began(c));
  }

  /** One event is logged, and one call takes its place in the order. */
  lemma {:induction false} CallJoins(s: State, t: State, c: CallId, call: Call, e: Event)
    requires Ordering(s) && t.log == s.log + [e] && !e.Resolved? && !e.Dropped?
    requires t.resolveQueue == s.resolveQueue && t.calls == s.calls[c := call]
    requires InFlight(call) ==> BatchBefore(t.log, call.inTime, c)
    requires Carries(call) && !InFlight(call) ==> BatchServed(t.log, call.inTime, c, Completed(c))
    ensures Ordering(t)
  {
    HistoryGrows(s.log, [e]);
    forall d | d in s.calls && d != c
      ensures InFlight(s.calls[d]) ==> BatchBefore(t.log, s.calls[d].inTime, d)
      ensures Carries(s.calls[d]) && !InFlight(s.calls[d]) ==> BatchServed(t.log, s.calls[d].inTime, d, Completed(d))
    {
      BatchGrows(s.log, [e], s.calls[d].inTime, d, Completed(d));
    }
  }

  lemma {:induction false} QueueKeepsOrdering(s: State)
    requires Ordering(s)
    ensures Ordering(QueueRequest(s))
  {
    OrderingGrows(s, QueueRequest(s), [Queued(s.nextRequest)]);
  }

  lemma {:induction false} StampKeepsOrdering(s: State, c: CallId)
    requires Ordering(s) && c in s.calls && s.calls[c].phase.Beginning? && Distinct(s.resolveQueue)
    ensures Ordering(DoStamp(s, c))
  {
    var t := DoStamp(s, c);
    SubtractDistinct(s.resolveQueue, s.calls[c].inTime);
    assert t.log == s.log + [];
    OrderingGrows(s, t, []);
  }

  lemma {:induction false} SettlingKeepsHistory(log: seq<Event>, batch: seq<RequestId>, c: CallId, resolve: bool)
    requires HistoryInOrder(log)
    requires BatchServed(log, batch, c, if resolve then Completed(c) else Failed(c))
    ensures HistoryInOrder(log + Settle(batch, c, resolve))
  {
    var more := Settle(batch, c, resolve);
    var all := log + more;
    var end := if resolve then Completed(c) else Failed(c);
    forall i | 0 <= i < |all| ensures SettledInOrder(all, i) {
      if i < |log| {
        assert all[..i] == log[..i] && SettledInOrder(log, i);
      } else {
        var r := batch[i - |log|];
        assert r in batch;
        assert all[i] == more[i - |log|] && all[..i] == log + more[..i - |log|];
        ChainGrows(log, more[..i - |log|], Queued(r), Began(c), end);
      }
    }
  }

  /** The call ends and settles what it carries. */
  lemma {:induction false} SettleKeepsOrdering(s: State, c: CallId, t: State, resolve: bool)
    requires Ordering(s) && c in s.calls && t.resolveQueue == s.resolveQueue
    requires BatchServed(s.log, s.calls[c].inTime, c, if resolve then Completed(c) else Failed(c))
    requires t.log == s.log + Settle(s.calls[c].inTime, c, resolve)
    requires t.calls == s.calls[c := s.calls[c].(phase := Ended)]
    ensures Ordering(t)
  {
    SettlingKeepsHistory(s.log, s.calls[c].inTime, c, resolve);
    forall d | d in t.calls && (InFlight(t.calls[d]) || Carries(t.calls[d]))
      ensures InFlight(t.calls[d]) ==> BatchBefore(t.log, t.calls[d].inTime, d)
      ensures Carries(t.calls[d]) && !InFlight(t.calls[d]) ==> BatchServed(t.log, t.calls[d].inTime, d, Completed(d))
    {
      BatchGrows(s.log, Settle(s.calls[c].inTime, c, resolve), t.calls[d].inTime, d, Completed(d));
    }
  }

  lemma {:induction false} BatchEnds(log: seq<Event>, batch: seq<RequestId>, c: CallId, end: Event)
    requires BatchBefore(log, batch, c)
    ensures BatchServed(log + [end], batch, c, end)
  {
    forall r | r in batch ensures Chain(log + [end], Queued(r), Began(c), end) {
      ChainNow(log, Queued(r), Began(c), end);
    }
  }

  lemma {:induction false} FailKeepsOrdering(s: State, c: CallId)
    requires Ordering(s) && c in s.calls && s.calls[c].phase.Running?
    ensures Ordering(DoFail(s, c))
  {
    var call := s.calls[c].(phase := Ended);
    var failed := s.(calls := s.calls[c := call], log := s.log + [Failed(c)]);
    CallJoins(s, failed, c, call, Failed(c));
    BatchEnds(s.log, call.inTime, c, Failed(c));
    SettleKeepsOrdering(failed, c, DoFail(s, c), false);
  }

  lemma {:induction false} CompleteKeepsOrdering(s: State, c: CallId)
    requires Ordering(s) && c in s.calls && s.calls[c].phase.Running?
    ensures Ordering(DoComplete(s, c))
  {
    var t := DoComplete(s, c);
    BatchEnds(s.log, s.calls[c].inTime, c, Completed(c));
    CallJoins(s, t, c, t.calls[c], Completed(c));
  }

  lemma {:induction false} ResolveKeepsOrdering(s: State, c: CallId)
    requires Ordering(s) && c in s.calls && s.calls[c].phase.Resolving?
    ensures Ordering(DoResolve(s, c))
  {
    SettleKeepsOrdering(s, c, DoResolve(s, c), true);
  }

  // ----- One operation at a time

  function Tick(running: Option<CallId>, e: Event): Option<CallId> {
    match e
    case Began(c) => Some(c)
    case Completed(c) => None
    case Failed(c) => None
    case _ => running
  }

  /** The operation that is in flight after the events of the log. */
  function Running(log: seq<Event>): Option<CallId> {
    if log == [] then None else Tick(Running(log[..|log| - 1]), log[|log| - 1])
  }

  predicate Ends(e: Event, c: CallId) {
    e == Completed(c) || e == Failed(c)
  }

  /** No operation begins while another is in flight, and only the one in flight ends. */
  predicate Fits(running: Option<CallId>, e: Event) {
    && (e.Began? ==> running == None)
    && (e.Completed? || e.Failed? ==> running == Some(e.call))
  }

  predicate OneAtATime(log: seq<Event>) {
    log == [] ||
    (Fits(Running(log[..|log| - 1]), log[|log| - 1]) && OneAtATime(log[..|log| - 1]))
  }

  ghost predicate Exclusion(s: State) {
    && OneAtATime(s.log)
    && Running(s.log) == (if s.holder.Some? && s.holder.value in s.calls && InFlight(s.calls[s.holder.value])
                          then s.holder else None)
  }

  lemma {:induction false} Append(log: seq<Event>, e: Event)
    ensures Running(log + [e]) == Tick(Running(log), e)
    ensures OneAtATime(log + [e]) <==> Fits(Running(log), e) && OneAtATime(log)
  {
    assert (log + [e])[..|log|] == log;
  }

  lemma {:induction false} AppendIdle(log: seq<Event>, more: seq<Event>)
    requires forall e :: e in more ==> e.Queued? || e.Launched? || e.Resolved? || e.Dropped?
    ensures Running(log + more) == Running(log)
    ensures OneAtATime(log + more) <==> OneAtATime(log)
  {
    if more == [] {
      assert log + more == log;
    } else {
      var n := |more| - 1;
      AppendIdle(log, more[..n]);
      assert log + more == log + more[..n] + [more[n]];
      Append(log + more[..n], more[n]);
    }
  }

  lemma {:induction false} IdleStepKeepsExclusion(s: State, t: State, more: seq<Event>)
    requires Exclusion(s) && Locking(s) && Locking(t) && t.log == s.log + more
    requires forall e :: e in more ==> e.Queued? || e.Launched? || e.Resolved? || e.Dropped?
    requires s.syncing == t.syncing && (s.syncing ==> t.holder == s.holder)
    ensures Exclusion(t)
  {
    AppendIdle(s.log, more);
  }

  lemma {:induction false} BeginKeepsExclusion(s: State, c: CallId)
    requires Exclusion(s) && Locking(s) && c in s.calls && s.calls[c].phase == Preparing(true)
    ensures Exclusion(DoEnterOrDefer(s, c))
  {
    Append(s.log, Began(c));
  }

  lemma {:induction false} FailKeepsExclusion(s: State, c: CallId)
    requires Exclusion(s) && Locking(s) && c in s.calls && s.calls[c].phase.Running?
    ensures Exclusion(DoFail(s, c))
  {
    assert s.holder == Some(c);
    Append(s.log, Failed(c));
    AppendIdle(s.log + [Failed(c)], Settle(s.calls[c].inTime, c, false));
  }

  lemma {:induction false} CompleteKeepsExclusion(s: State, c: CallId)
    requires Exclusion(s) && Locking(s) && c in s.calls && s.calls[c].phase.Running?
    ensures Exclusion(DoComplete(s, c))
  {
    assert s.holder == Some(c);
    Append(s.log, Completed(c));
  }

  lemma {:induction false} StaysInFlight(log: seq<Event>, i: nat, j: nat, c: CallId)
    requires OneAtATime(log) && i < j <= |log| && log[i] == Began(c)
    requires forall k :: i < k < j ==> !Ends(log[k], c)
    ensures Running(log[..j]) == Some(c) && OneAtATime(log[..j])
    decreases |log|, j
  {
    if j < |log| {
      assert log[..|log| - 1][..j] == log[..j];
      StaysInFlight(log[..|log| - 1], i, j, c);
    } else {
      assert log[..j] == log;
      if i + 1 < j {
        StaysInFlight(log[..j - 1], i, j - 1, c);
        assert log[..j - 1][..j - 1] == log[..j - 1];
      }
    }
  }

  /** Between the beginnings of two operations the first one ended. */
  lemma {:induction false} FirstEndsBeforeSecondBegins(log: seq<Event>, i: nat, j: nat, c: CallId, d: CallId)
    requires OneAtATime(log) && i < j < |log| && log[i] == Began(c) && log[j] == Began(d)
    ensures exists k :: i < k < j && Ends(log[k], c)
  {
    if forall k :: i < k < j ==> !Ends(log[k], c) {
      PrefixOneAtATime(log, j + 1);
      assert log[..j + 1][..j] == log[..j];
      StaysInFlight(log, i, j, c);
    }
  }

  lemma {:induction false} PrefixOneAtATime(log: seq<Event>, n: nat)
    requires OneAtATime(log) && n <= |log|
    ensures OneAtATime(log[..n])
  {
    if n < |log| {
      PrefixOneAtATime(log[..|log| - 1], n);
      assert log[..|log| - 1][..n] == log[..n];
    } else {
      assert log[..n] == log;
    }
  }

  // ----- The first online operation that completes carries no uploads

  /** An online operation without uploads was launched and completed. */
  ghost predicate DownloadedFirst(log: seq<Event>) {
    exists c :: Precedes(log, Launched(c, true, false), Completed(c))
  }

  ghost predicate UploadsAfterDownload(log: seq<Event>) {
    forall i :: 0 <= i < |log| && log[i].Launched? && log[i].online && log[i].carries ==> DownloadedFirst(log[..i])
  }

  ghost predicate CallDownloads(log: seq<Event>, c: CallId, call: Call) {
    match call.phase
    case Running(online, mode, carries, pending, inFlight, done) =>
      && (online ==> Launched(c, true, carries) in log)
      && (mode == DownloadFirst ==> !carries)
      && (!carries ==> pending == map[] && (inFlight.Some? ==> inFlight.value == map[]))
    case Finishing(wasOnline, ranMode) =>
      wasOnline && ranMode == DownloadFirst ==> Precedes(log, Launched(c, true, false), Completed(c))
    case _ => true
  }

  ghost predicate Downloads(s: State) {
    && (s.completedDownloadFirst ==> DownloadedFirst(s.log))
    && UploadsAfterDownload(s.log)
    && (forall c :: c in s.calls ==> CallDownloads(s.log, c, s.calls[c]))
  }

  lemma {:induction false} DownloadedGrows(log: seq<Event>, more: seq<Event>)
    requires DownloadedFirst(log)
    ensures DownloadedFirst(log + more)
  {
    var c :| Precedes(log, Launched(c, true, false), Completed(c));
    PrecedesGrows(log, more, Launched(c, true, false), Completed(c));
  }

  lemma {:induction false} UploadsGrow(log: seq<Event>, more: seq<Event>)
    requires UploadsAfterDownload(log)
    requires forall e :: e in more && e.Launched? && e.online && e.carries ==> DownloadedFirst(log)
    ensures UploadsAfterDownload(log + more)
  {
    var all := log + more;
    forall i | 0 <= i < |all| && all[i].Launched? && all[i].online && all[i].carries ensures DownloadedFirst(all[..i]) {
      if i < |log| {
        assert all[..i] == log[..i] && all[i] == log[i];
      } else {
        assert all[i] == more[i - |log|] && all[..i] == log + more[..i - |log|];
        DownloadedGrows(log, more[..i - |log|]);
      }
    }
  }

  lemma {:induction false} CallGrows(log: seq<Event>, more: seq<Event>, c: CallId, call: Call)
    requires CallDownloads(log, c, call)
    ensures CallDownloads(log + more, c, call)
  {
    if Precedes(log, Launched(c, true, false), Completed(c)) {
      PrecedesGrows(log, more, Launched(c, true, false), Completed(c));
    }
  }

  /** The log grows, and only the given call changes. */
  lemma {:induction false} DownloadsGrow(s: State, t: State, more: seq<Event>, c: CallId)
    requires Downloads(s) && t.log == s.log + more
    requires forall e :: e in more && e.Launched? && e.online && e.carries ==> DownloadedFirst(s.log)
    requires t.completedDownloadFirst ==> s.completedDownloadFirst || DownloadedFirst(s.log)
    requires forall d :: d in t.calls && d != c ==> d in s.calls && t.calls[d] == s.calls[d]
    requires c in t.calls ==> CallDownloads(t.log, c, t.calls[c])
    ensures Downloads(t)
  {
    UploadsGrow(s.log, more);
    if t.completedDownloadFirst {
      DownloadedGrows(s.log, more);
    }
    forall d | d in t.calls ensures CallDownloads(t.log, d, t.calls[d]) {
      if d != c {
        CallGrows(s.log, more, d, s.calls[d]);
      }
    }
  }

  lemma {:induction false} QuietStepKeepsDownloads(s: State, t: State, c: CallId)
    requires Downloads(s) && t.log == s.log && t.completedDownloadFirst == s.completedDownloadFirst
    requires forall d :: d in t.calls && d != c ==> d in s.calls && t.calls[d] == s.calls[d]
    requires c in t.calls ==> CallDownloads(s.log, c, t.calls[c])
    ensures Downloads(t)
  {
    assert t.log == s.log + [];
    DownloadsGrow(s, t, [], c);
  }

  lemma {:induction false} SyncKeepsDownloads(s: State, options: Options)
    requires Downloads(s)
    ensures Downloads(SyncOrSkip(s, options))
  {
    QuietStepKeepsDownloads(s, SyncOrSkip(s, options), s.nextCall);
  }

  lemma {:induction false} BeginKeepsDownloads(s: State, c: CallId)
    requires Downloads(s) && c in s.calls && s.calls[c].phase == Preparing(true)
    ensures Downloads(DoEnterOrDefer(s, c))
  {
    DownloadsGrow(s, DoEnterOrDefer(s, c), [Began(c)], c);
  }

  lemma {:induction false} QueueKeepsDownloads(s: State)
    requires Downloads(s)
    ensures Downloads(QueueRequest(s))
  {
    EventKeepsDownloads(s, QueueRequest(s), Queued(s.nextRequest));
  }

  lemma {:induction false} EventKeepsDownloads(s: State, t: State, e: Event)
    requires Downloads(s) && t.log == s.log + [e] && !e.Launched?
    requires t.calls == s.calls && t.completedDownloadFirst == s.completedDownloadFirst
    ensures Downloads(t)
  {
    UploadsGrow(s.log, [e]);
    if s.completedDownloadFirst {
      DownloadedGrows(s.log, [e]);
    }
    forall d | d in t.calls ensures CallDownloads(t.log, d, t.calls[d]) {
      CallGrows(s.log, [e], d, s.calls[d]);
    }
  }

  lemma {:induction false} CreateOperationKeepsDownloads(s: State, c: CallId, online: bool)
    requires Downloads(s) && c in s.calls && s.calls[c].phase.Collected?
    ensures Downloads(DoCreateOperation(s, c, online))
  {
    var t := DoCreateOperation(s, c, online);
    var launched := t.log[|s.log|];
    assert t.log == s.log + [launched];
    assert t.log[|s.log|] == launched;
    DownloadsGrow(s, t, [launched], c);
  }

  lemma {:induction false} SendBatchKeepsDownloads(s: State, c: CallId, batch: set<Uuid>)
    requires Downloads(s) && c in s.calls && s.calls[c].phase.Running? && batch <= s.calls[c].phase.pending.Keys
    ensures Downloads(DoSendBatch(s, c, batch))
  {
    assert CallDownloads(s.log, c, s.calls[c]);
    QuietStepKeepsDownloads(s, DoSendBatch(s, c, batch), c);
  }

  lemma {:induction false} ResponseKeepsDownloads(s: State, t: State, c: CallId, more: bool)
    requires Downloads(s) && c in s.calls && s.calls[c].phase.Running?
    requires t.log == s.log && t.completedDownloadFirst == s.completedDownloadFirst
    requires t.calls == s.calls[c := s.calls[c].(phase := AfterResponse(s.calls[c].phase, more))]
    ensures Downloads(t)
  {
    assert CallDownloads(s.log, c, s.calls[c]);
    QuietStepKeepsDownloads(s, t, c);
  }

  lemma {:induction false} RunOfflineKeepsDownloads(s: State, c: CallId, synced: set<Uuid>)
    requires Downloads(s) && c in s.calls && s.calls[c].phase.Running?
    ensures Downloads(DoRunOffline(s, c, synced))
  {
    assert CallDownloads(s.log, c, s.calls[c]);
    QuietStepKeepsDownloads(s, DoRunOffline(s, c, synced), c);
  }

  lemma {:induction false} FailKeepsDownloads(s: State, c: CallId)
    requires Downloads(s) && c in s.calls && s.calls[c].phase.Running?
    ensures Downloads(DoFail(s, c))
  {
    var more := [Failed(c)] + Settle(s.calls[c].inTime, c, false);
    assert DoFail(s, c).log == s.log + more;
    DownloadsGrow(s, DoFail(s, c), more, c);
  }

  lemma {:induction false} CompleteKeepsDownloads(s: State, c: CallId)
    requires Downloads(s) && c in s.calls && s.calls[c].phase.Running?
    ensures Downloads(DoComplete(s, c))
  {
    var t := DoComplete(s, c);
    CallCompletes(s.log, c, s.calls[c], t.calls[c]);
    DownloadsGrow(s, t, [Completed(c)], c);
  }

  lemma {:induction false} CallCompletes(log: seq<Event>, c: CallId, call: Call, call': Call)
    requires CallDownloads(log, c, call) && call.phase.Running?
    requires call'.phase == Finishing(call.phase.online, call.phase.mode)
    ensures CallDownloads(log + [Completed(c)], c, call')
  {
    if Launched(c, true, false) in log {
      PrecedesNow(log, Launched(c, true, false), Completed(c));
    }
  }

  /** The call that completed the download-first sync sets the flag. */
  lemma {:induction false} DownloadedKeepsDownloads(s: State, c: CallId)
    requires Downloads(s) && c in s.calls && s.calls[c].phase.Finishing? && s.calls[c].phase.ranMode == DownloadFirst
    ensures Downloads(DoContinue(s, c))
  {
    var t := DoContinue(s, c);
    assert CallDownloads(s.log, c, s.calls[c]);
    assert t.log == s.log + [];
    DownloadsGrow(s, t, [], c);
  }

  lemma {:induction false} ResolveKeepsDownloads(s: State, c: CallId)
    requires Downloads(s) && c in s.calls && s.calls[c].phase.Resolving?
    ensures Downloads(DoResolve(s, c))
  {
    DownloadsGrow(s, DoResolve(s, c), Settle(s.calls[c].inTime, c, true), c);
  }
}
