/** What the steps keep about calls: what they collected, set aside and upload, and that they hold the lock once. */
module SyncCalls {
  import opened SyncModel
  import opened SyncLocking

  /** A call keeps what it set aside and never gets the lock back; a new call sets aside what is doomed now. */
  ghost predicate CallsGoOn(s: State, t: State) {
    && (forall c :: c in s.calls ==>
          && c in t.calls && t.calls[c].neverSyncedDeleted == s.calls[c].neverSyncedDeleted
          && (HoldsLock(t.calls[c]) ==> HoldsLock(s.calls[c])))
    && (forall c :: c in t.calls && c !in s.calls ==>
          t.calls[c].neverSyncedDeleted == NeverSyncedDeleted(s.store.items))
  }

  function Uploading(phase: Phase): set<Uuid> {
    match phase
    case Collected(uploads) => uploads.Keys
    case Running(_, _, _, pending, inFlight, _) =>
      pending.Keys + if inFlight.Some? then inFlight.value.Keys else {}
    case _ => {}
  }

  ghost predicate Apart(call: Call) {
    call.items !! call.neverSyncedDeleted && Uploading(call.phase) <= call.items
  }

  ghost predicate AllApart(s: State) {
    forall c :: c in s.calls ==> Apart(s.calls[c])
  }

  /** Calls go on, and as before no call uploads what it set aside. */
  ghost predicate Onward(s: State, t: State) {
    CallsGoOn(s, t) && (AllApart(s) ==> AllApart(t))
  }

  lemma {:induction false} OnwardTwice(s: State, t: State, v: State)
    requires Onward(s, t) && Onward(t, v) && t.store == s.store
    ensures Onward(s, v)
  {
  }

  /** One call moves to a phase in which it uploads nothing. */
  ghost predicate MovesOn(s: State, t: State, c: CallId) {
    && c in s.calls && c in t.calls && t.calls == s.calls[c := t.calls[c]]
    && t.calls[c].items == s.calls[c].items && t.calls[c].neverSyncedDeleted == s.calls[c].neverSyncedDeleted
    && (HoldsLock(t.calls[c]) ==> HoldsLock(s.calls[c])) && Uploading(t.calls[c].phase) == {}
  }

  lemma {:induction false} MovingOn(s: State, t: State, c: CallId)
    requires MovesOn(s, t, c)
    ensures Onward(s, t)
  {
    if AllApart(s) {
      assert Apart(s.calls[c]);
    }
  }

  lemma {:induction false} BeginMovesOn(s: State, c: CallId)
    requires c in s.calls && s.calls[c].phase == Preparing(true)
    ensures MovesOn(s, DoEnterOrDefer(s, c), c)
  {
  }

  lemma {:induction false} StampMovesOn(s: State, c: CallId)
    requires c in s.calls && s.calls[c].phase.Beginning?
    ensures MovesOn(s, DoStamp(s, c), c)
  {
  }

  lemma {:induction false} FailMovesOn(s: State, c: CallId)
    requires c in s.calls && s.calls[c].phase.Running?
    ensures MovesOn(s, DoFail(s, c), c)
  {
  }

  lemma {:induction false} CompleteMovesOn(s: State, c: CallId)
    requires c in s.calls && s.calls[c].phase.Running?
    ensures MovesOn(s, DoComplete(s, c), c)
  {
  }

  lemma {:induction false} ResolveMovesOn(s: State, c: CallId)
    requires c in s.calls
    ensures MovesOn(s, DoResolve(s, c), c)
  {
  }

  lemma {:induction false} PhaseMovesOn(s: State, c: CallId, phase: Phase)
    requires c in s.calls && !HoldsLock(s.calls[c].(phase := phase)) && Uploading(phase) == {}
    ensures MovesOn(s, SetPhase(s, c, phase), c)
  {
  }

  lemma {:induction false} DownloadedMovesOn(s: State, c: CallId)
    requires c in s.calls && s.calls[c].phase.Finishing? && s.calls[c].phase.ranMode == DownloadFirst
    ensures MovesOn(s, DoContinue(s, c), c)
  {
  }

  lemma {:induction false} SyncGoesOn(s: State, options: Options)
    requires Locking(s)
    ensures Onward(s, SyncOrSkip(s, options)) && SyncOrSkip(s, options).store == s.store
  {
  }

  lemma {:induction false} InsideUploadsNoMore(s: State, a: Action)
    requires Enabled(s, a) && InsideOperation(a) && a.c in Next(s, a).calls
    requires Uploading(s.calls[a.c].phase) <= s.calls[a.c].items
    ensures Uploading(Next(s, a).calls[a.c].phase) <= s.calls[a.c].items
  {
    match a
    case Collect(c) => CollectUploadsNoMore(s, c);
    case CreateOperation(c, online) => LaunchUploadsNoMore(s, c, online);
    case SendBatch(c, batch) => SendUploadsNoMore(s, c, batch);
    case ReceiveError(c, more) => ErrorUploadsNoMore(s, c, more);
    case ReceiveSuccess(c, saved, retrieved, more) => SuccessUploadsNoMore(s, c, saved, retrieved, more);
    case RunOffline(c, synced) => OfflineUploadsNoMore(s, c, synced);
  }

  lemma {:induction false} CollectUploadsNoMore(s: State, c: CallId)
    requires c in s.calls
    ensures Uploading(DoCollect(s, c).calls[c].phase) <= s.calls[c].items
  {
  }

  lemma {:induction false} ErrorUploadsNoMore(s: State, c: CallId, more: bool)
    requires c in s.calls && s.calls[c].phase.Running?
    ensures Uploading(DoReceiveError(s, c, more).calls[c].phase) <= Uploading(s.calls[c].phase)
  {
  }

  lemma {:induction false} SuccessUploadsNoMore(s: State, c: CallId, saved: set<Uuid>, retrieved: map<Uuid, Body>,
                                                more: bool)
    requires c in s.calls && s.calls[c].phase.Running? && s.calls[c].phase.inFlight.Some?
    ensures Uploading(DoReceiveSuccess(s, c, saved, retrieved, more).calls[c].phase) <= Uploading(s.calls[c].phase)
  {
  }

  lemma {:induction false} LaunchUploadsNoMore(s: State, c: CallId, online: bool)
    requires c in s.calls && s.calls[c].phase.Collected?
    ensures Uploading(DoCreateOperation(s, c, online).calls[c].phase) <= Uploading(s.calls[c].phase)
  {
  }

  lemma {:induction false} SendUploadsNoMore(s: State, c: CallId, batch: set<Uuid>)
    requires c in s.calls && s.calls[c].phase.Running?
    ensures Uploading(DoSendBatch(s, c, batch).calls[c].phase) <= Uploading(s.calls[c].phase)
  {
  }

  lemma {:induction false} OfflineUploadsNoMore(s: State, c: CallId, synced: set<Uuid>)
    requires c in s.calls && s.calls[c].phase.Running?
    ensures Uploading(DoRunOffline(s, c, synced).calls[c].phase) <= Uploading(s.calls[c].phase)
  {
  }

  lemma {:induction false} InsideGoesOn(s: State, a: Action)
    requires Enabled(s, a) && InsideOperation(a)
    ensures Onward(s, Next(s, a))
  {
    InsideOperationSteps(s, a);
    if AllApart(s) {
      assert Apart(s.calls[a.c]);
      InsideUploadsNoMore(s, a);
    }
  }
}
