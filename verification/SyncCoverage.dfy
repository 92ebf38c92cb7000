/** What an operation uploads, what it makes of items that are not dirty, and what is never set aside. */
module SyncCoverage {
  import opened SyncModel
  import opened SyncLocking
  import opened SyncUpdates
  import opened SyncStore
  import opened SyncSurvival
  import opened SyncTheorems
  import opened SyncOutcomes

  // ----- Everything that was collected is sent

  /** What a call has collected it has sent or is still to send, unless its operation only downloads. */
  predicate Covered(sent: set<Uuid>, call: Call) {
    match call.phase
    case Collected(uploads) => uploads.Keys == call.items
    case Running(online, mode, carries, pending, inFlight, done) =>
      && (mode == Default ==> call.items <= pending.Keys + sent)
      && (done ==> pending.Keys == {})
      && (inFlight.Some? ==> inFlight.value.Keys <= sent)
    case _ => true
  }

  ghost predicate AllCovered(s: State) {
    forall c :: c in s.calls ==> Covered(s.store.sent, s.calls[c])
  }

  lemma {:induction false} SentGrows(s: State, a: Action)
    requires Enabled(s, a)
    ensures s.store.sent <= Next(s, a).store.sent
  {
    StoreOfStep(s, a);
  }

  lemma {:induction false} CollectCovers(s: State, c: CallId)
    requires Updates(s) && Locking(s) && Enabled(s, Collect(c))
    ensures Covered(s.store.sent, DoCollect(s, c).calls[c])
  {
    assert Follows(s.store, s.calls[c]);
  }

  lemma {:induction false} LaunchCovers(s: State, c: CallId, online: bool)
    requires Enabled(s, CreateOperation(c, online)) && Covered(s.store.sent, s.calls[c])
    ensures Covered(s.store.sent, DoCreateOperation(s, c, online).calls[c])
  {
  }

  lemma {:induction false} SendCovers(s: State, c: CallId, batch: set<Uuid>)
    requires Enabled(s, SendBatch(c, batch)) && Covered(s.store.sent, s.calls[c])
    ensures Covered(DoSendBatch(s, c, batch).store.sent, DoSendBatch(s, c, batch).calls[c])
  {
  }

  lemma {:induction false} OfflineCovers(s: State, c: CallId, synced: set<Uuid>)
    requires Enabled(s, RunOffline(c, synced)) && Covered(s.store.sent, s.calls[c])
    ensures Covered(DoRunOffline(s, c, synced).store.sent, DoRunOffline(s, c, synced).calls[c])
  {
  }

  lemma {:induction false} ErrorCovers(s: State, c: CallId, more: bool)
    requires Enabled(s, ReceiveError(c, more)) && Covered(s.store.sent, s.calls[c])
    ensures Covered(s.store.sent, DoReceiveError(s, c, more).calls[c])
  {
  }

  lemma {:induction false} SuccessCovers(s: State, c: CallId, saved: set<Uuid>, retrieved: map<Uuid, Body>, more: bool)
    requires Enabled(s, ReceiveSuccess(c, saved, retrieved, more)) && Covered(s.store.sent, s.calls[c])
    ensures Covered(s.store.sent, DoReceiveSuccess(s, c, saved, retrieved, more).calls[c])
  {
  }

  lemma {:induction false} CoveredMore(sent: set<Uuid>, sent': set<Uuid>, call: Call)
    requires Covered(sent, call) && sent <= sent'
    ensures Covered(sent', call)
  {
  }

  lemma {:induction false} InsideCovers(s: State, a: Action)
    requires Updates(s) && Locking(s) && AllCovered(s) && Enabled(s, a) && InsideOperation(a)
    ensures a.c in Next(s, a).calls && Covered(Next(s, a).store.sent, Next(s, a).calls[a.c])
  {
    InsideOperationSteps(s, a);
    SentGrows(s, a);
    assert Covered(s.store.sent, s.calls[a.c]);
    var sent, sent' := s.store.sent, Next(s, a).store.sent;
    match a
    case Collect(c) =>
      CollectCovers(s, c);
      CoveredMore(sent, sent', DoCollect(s, c).calls[c]);
    case CreateOperation(c, online) =>
      LaunchCovers(s, c, online);
      CoveredMore(sent, sent', DoCreateOperation(s, c, online).calls[c]);
    case SendBatch(c, batch) => SendCovers(s, c, batch);
    case ReceiveError(c, more) =>
      ErrorCovers(s, c, more);
      CoveredMore(sent, sent', DoReceiveError(s, c, more).calls[c]);
    case ReceiveSuccess(c, saved, retrieved, more) =>
      SuccessCovers(s, c, saved, retrieved, more);
      CoveredMore(sent, sent', DoReceiveSuccess(s, c, saved, retrieved, more).calls[c]);
    case RunOffline(c, synced) => OfflineCovers(s, c, synced);
  }

  lemma {:induction false} CarriersCovered(s: State, t: State)
    requires AllCovered(s) && CarriersStay(s, t) && s.store.sent <= t.store.sent
    ensures AllCovered(t)
  {
    forall c | c in t.calls ensures Covered(t.store.sent, t.calls[c]) {
      if Carrying(t.calls[c]) {
        CoveredMore(s.store.sent, t.store.sent, t.calls[c]);
      }
    }
  }

  lemma {:induction false} StepCovers(s: State, a: Action)
    requires Updates(s) && Locking(s) && AllCovered(s) && Enabled(s, a)
    ensures AllCovered(Next(s, a))
  {
    SentGrows(s, a);
    if InsideOperation(a) {
      InsideOperationSteps(s, a);
      InsideCovers(s, a);
    } else {
      OutsideKeepsError(s, a);
      CarriersCovered(s, Next(s, a));
    }
  }

  lemma {:induction false} RunCovers(actions: seq<Action>, n: nat)
    requires n <= |actions|
    ensures AllCovered(At(actions, n))
  {
    if n > 0 {
      RunCovers(actions, n - 1);
      RunStep(actions, n - 1);
      RunKeepsInv(actions[..n - 1]);
      if Enabled(At(actions, n - 1), actions[n - 1]) {
        StepCovers(At(actions, n - 1), actions[n - 1]);
      }
    }
  }

  /** When an operation that does not only download ends, every item that its call collected has been sent. */
  lemma {:induction false} EverythingCollectedIsSent(actions: seq<Action>, j: nat, c: CallId)
    requires Happens(actions, j) && actions[j] == Finish(c) && At(actions, j).calls[c].phase.mode == Default
    ensures At(actions, j).calls[c].items <= At(actions, j).store.sent
  {
    RunCovers(actions, j);
    assert Covered(At(actions, j).store.sent, At(actions, j).calls[c]);
  }

  /**
   An operation only downloads when its call asked for that, or is online before a download has completed. Any
   other carries each item that its call collected, with its present content unless it was edited since.
   */
  lemma {:induction false} LaunchCarriesAll(actions: seq<Action>, j: nat, c: CallId, online: bool)
    requires Happens(actions, j) && actions[j] == CreateOperation(c, online)
    ensures c in At(actions, j).calls && c in At(actions, j + 1).calls
    ensures var s, t := At(actions, j), At(actions, j + 1); var phase := t.calls[c].phase;
      && phase.Running? && phase.online == online && phase.inFlight.None? && !phase.done
      && (phase.mode == DownloadFirst <==>
            s.calls[c].options.mode == DownloadFirst || (online && !s.completedDownloadFirst))
      && phase.pending.Keys == (if phase.mode == Default then s.calls[c].items else {})
      && AllInStep(t.store.items, phase.pending, s.calls[c].frozen)
  {
    RunCovers(actions, j);
    RunKeepsInv(actions[..j]);
    RunStep(actions, j);
    var s := At(actions, j);
    assert Covered(s.store.sent, s.calls[c]) && Follows(s.store, s.calls[c]);
  }

  /** A batch leaves what is pending and is on its way, still in step with the items. */
  lemma {:induction false} BatchIsOnItsWay(actions: seq<Action>, j: nat, c: CallId, batch: set<Uuid>)
    requires Happens(actions, j) && actions[j] == SendBatch(c, batch)
    ensures c in At(actions, j).calls && c in At(actions, j + 1).calls
    ensures var before := At(actions, j).calls[c].phase; var t := At(actions, j + 1); var phase := t.calls[c].phase;
      && before.Running? && phase.Running? && phase.inFlight.Some? && phase.inFlight.value.Keys == batch
      && phase.pending.Keys == before.pending.Keys - batch && !phase.done
      && AllInStep(t.store.items, phase.inFlight.value, t.calls[c].frozen)
  {
    RunStep(actions, j);
    RunKeepsInv(actions[..j]);
    var s := At(actions, j);
    assert Follows(s.store, s.calls[c]);
    SendKeeps(s.store, s.calls[c].phase.pending, batch, s.calls[c].frozen);
  }

  /** Only online operations have batches on their way. */
  lemma {:induction false} OnlineInFlight(actions: seq<Action>, j: nat, c: CallId)
    requires j <= |actions| && c in At(actions, j).calls && At(actions, j).calls[c].phase.Running?
    ensures var phase := At(actions, j).calls[c].phase; phase.online || phase.inFlight.None?
  {
    RunKeepsInv(actions[..j]);
    assert Follows(At(actions, j).store, At(actions, j).calls[c]);
  }

  /** Nothing is left to do for the operation, or there is another batch to send, possibly an empty one. */
  ghost predicate EndsOrGoesOn(t: State, c: CallId, ends: bool) {
    if ends then Enabled(t, Finish(c)) && !Enabled(t, SendBatch(c, {}))
    else !Enabled(t, Finish(c)) && Enabled(t, SendBatch(c, {}))
  }

  lemma {:induction false} ResponseEndsIff(t: State, c: CallId, phase: Phase, more: bool)
    requires phase.Running? && phase.online && c in t.calls && t.calls[c].phase == AfterResponse(phase, more)
    ensures EndsOrGoesOn(t, c, phase.pending.Keys == {} && !more)
  {
    assert phase.pending == map[] <==> phase.pending.Keys == {};
  }

  lemma {:induction false} SuccessMovesOn(s: State, c: CallId, saved: set<Uuid>, retrieved: map<Uuid, Body>, more: bool)
    requires Enabled(s, ReceiveSuccess(c, saved, retrieved, more))
    ensures var t := DoReceiveSuccess(s, c, saved, retrieved, more);
      c in t.calls && t.calls[c].phase == AfterResponse(s.calls[c].phase, more)
  {
  }

  lemma {:induction false} OfflineEnds(s: State, c: CallId, synced: set<Uuid>)
    requires Enabled(s, RunOffline(c, synced)) && s.calls[c].phase.inFlight.None?
    ensures EndsOrGoesOn(DoRunOffline(s, c, synced), c, true)
  {
  }

  /** After an answer the operation ends if nothing is pending and the server has no more; otherwise it goes on. */
  lemma {:induction false} AnswerEndsIff(actions: seq<Action>, j: nat, c: CallId)
    requires Happens(actions, j) && IsAnswer(actions[j], c)
    ensures c in At(actions, j).calls && At(actions, j).calls[c].phase.Running?
    ensures EndsOrGoesOn(At(actions, j + 1), c,
      actions[j].RunOffline? || (At(actions, j).calls[c].phase.pending.Keys == {} && !actions[j].more))
  {
    RunStep(actions, j);
    OnlineInFlight(actions, j, c);
    match actions[j]
    case ReceiveError(_, more) => ResponseEndsIff(At(actions, j + 1), c, At(actions, j).calls[c].phase, more);
    case ReceiveSuccess(_, saved, retrieved, more) =>
      SuccessMovesOn(At(actions, j), c, saved, retrieved, more);
      ResponseEndsIff(At(actions, j + 1), c, At(actions, j).calls[c].phase, more);
    case RunOffline(_, synced) => OfflineEnds(At(actions, j), c, synced);
  }

  // ----- What the server has saved is never set aside again

  predicate Known(store: Store, u: Uuid) {
    u in store.sent && (u in store.items ==> !store.items[u].neverSynced)
  }

  lemma {:induction false} KnownStays(s: State, a: Action, u: Uuid)
    requires Enabled(s, a) && Known(s.store, u)
    ensures Known(Next(s, a).store, u)
  {
    StoreOfStep(s, a);
    SentGrows(s, a);
  }

  lemma {:induction false} SavedIsKnown(s: State, c: CallId, saved: set<Uuid>, retrieved: map<Uuid, Body>, more: bool,
                                        u: Uuid)
    requires AllCovered(s) && Enabled(s, ReceiveSuccess(c, saved, retrieved, more)) && u in saved
    ensures Known(DoReceiveSuccess(s, c, saved, retrieved, more).store, u)
  {
    assert Covered(s.store.sent, s.calls[c]);
  }

  lemma {:induction false} KnownFrom(actions: seq<Action>, i: nat, n: nat, u: Uuid)
    requires i <= n <= |actions| && Known(At(actions, i).store, u)
    ensures Known(At(actions, n).store, u)
  {
    if i < n {
      KnownFrom(actions, i, n - 1, u);
      RunStep(actions, n - 1);
      if Enabled(At(actions, n - 1), actions[n - 1]) {
        KnownStays(At(actions, n - 1), actions[n - 1], u);
      }
    }
  }

  /** Once the server has saved an item, no later call sets it aside, so its deletion will be uploaded. */
  lemma {:induction false} SavedIsNeverSetAside(actions: seq<Action>, i: nat, n: nat, u: Uuid)
    requires Happens(actions, i) && actions[i].ReceiveSuccess? && u in actions[i].saved && i < n <= |actions|
    ensures u !in NeverSyncedDeleted(At(actions, n).store.items)
  {
    var a := actions[i];
    RunCovers(actions, i);
    RunStep(actions, i);
    SavedIsKnown(At(actions, i), a.c, a.saved, a.retrieved, a.more, u);
    KnownFrom(actions, i + 1, n, u);
  }

  // ----- What is downloaded

  /** An item without local changes takes what was retrieved for it and is acknowledged; the others stay. */
  lemma {:induction false} RetrievedOutcome(s: State, a: Action, u: Uuid)
    requires Updates(s) && Locking(s) && Enabled(s, a) && a.ReceiveSuccess?
    requires u in s.store.items ==> !s.store.items[u].dirty
    ensures var t := Next(s, a).store;
      if u !in a.retrieved then
        && (u in t.items <==> u in s.store.items) && (u in t.items ==> t.items[u] == s.store.items[u])
        && (u in t.acked <==> u in s.store.acked) && (u in t.acked ==> t.acked[u] == s.store.acked[u])
      else
        && (u in t.items <==> a.retrieved[u].Live?) && u in t.acked && t.acked[u] == Ack(a.retrieved[u], true)
        && (u in t.items ==> t.items[u].body == a.retrieved[u] && !t.items[u].dirty && !t.items[u].neverSynced)
  {
    assert Follows(s.store, s.calls[a.c]);
  }
}
