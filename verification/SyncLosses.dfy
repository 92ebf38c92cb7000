/** Two runs in which something is lost, step by step: a revived note, and the deletion of a note that was sent. */
module SyncLosses {
  import opened Wrappers
  import opened SyncModel
  import opened SyncStore

  // ----- Doing steps one by one

  /** The rest of the run from a given state. */
  function RunFrom(s: State, actions: seq<Action>): State
    decreases |actions|
  {
    if actions == [] then s
    else RunFrom(if Enabled(s, actions[0]) then Next(s, actions[0]) else s, actions[1..])
  }

  lemma {:induction false} RunContinues(before: seq<Action>, actions: seq<Action>)
    ensures Run(before + actions) == RunFrom(Run(before), actions)
    decreases |actions|
  {
    if actions == [] {
      assert before + actions == before;
    } else {
      var one := before + [actions[0]];
      assert one[..|before|] == before;
      assert before + actions == one + actions[1..];
      RunContinues(one, actions[1..]);
    }
  }

  lemma {:induction false} RunOne(before: seq<Action>, a: Action)
    requires Enabled(Run(before), a)
    ensures Run(before + [a]) == Next(Run(before), a)
  {
    assert (before + [a])[..|before|] == before;
  }

  lemma {:induction false} FromStep(s: State, a: Action, actions: seq<Action>)
    requires Enabled(s, a)
    ensures RunFrom(s, [a] + actions) == RunFrom(Next(s, a), actions)
  {
    assert ([a] + actions)[1..] == actions;
  }

  // ----- One note

  /** The note `u`, if there is one, is dirty, never synced and of this content; nothing else is dirty. */
  ghost predicate Only(store: Store, u: Uuid, note: Option<Body>) {
    && !DeletionAcknowledged(store, u)
    && (forall v :: v in store.items && store.items[v].dirty ==> v == u)
    && match note
       case None => u !in store.items
       case Some(body) =>
         u in store.items && store.items[u].dirty && store.items[u].neverSynced && store.items[u].body == body
  }

  ghost predicate Ready(s: State, u: Uuid, note: Option<Body>) {
    s.databaseLoaded && !s.clientLocked && Only(s.store, u, note)
  }

  /** Nobody holds the lock. */
  ghost predicate Free(s: State, u: Uuid, note: Option<Body>) {
    Ready(s, u, note) && !s.syncLock && !s.syncing
  }

  function Uploads(u: Uuid, note: Option<Body>): set<Uuid> {
    if note.Some? && note.value.Live? then {u} else {}
  }

  function Doomed(u: Uuid, note: Option<Body>): set<Uuid> {
    if note.Some? && note.value.Tombstone? then {u} else {}
  }

  /** The call `c` was made for the note as it was then. */
  ghost predicate Called(s: State, c: CallId, u: Uuid, note: Option<Body>) {
    && c in s.calls && s.calls[c].options == DEFAULT_OPTIONS
    && s.calls[c].items == Uploads(u, note) && s.calls[c].neverSyncedDeleted == Doomed(u, note)
  }

  lemma {:induction false} Starts(s: State, u: Uuid, note: Option<Body>)
    requires Free(s, u, note)
    ensures var t := SyncOrSkip(s, DEFAULT_OPTIONS); var c := s.nextCall;
      && Ready(t, u, note) && Called(t, c, u, note) && t.calls[c].phase == Preparing(true)
      && t.store == s.store && t.nextCall == c + 1 && t.completedDownloadFirst == s.completedDownloadFirst
  {
    assert NeverSyncedDeleted(s.store.items) == Doomed(u, note);
    assert DirtyItems(s.store.items) - Doomed(u, note) == Uploads(u, note);
  }

  // ----- One operation for it

  ghost predicate Same(s: State, t: State) {
    && t.nextCall == s.nextCall && t.completedDownloadFirst == s.completedDownloadFirst
    && t.store.dirtyIndex == s.store.dirtyIndex
  }

  lemma {:induction false} Begins(s: State, c: CallId, u: Uuid, note: Option<Body>)
    requires Ready(s, u, note) && Called(s, c, u, note) && s.calls[c].phase == Preparing(true)
    ensures var t := DoEnterOrDefer(s, c);
      && Ready(t, u, note) && Called(t, c, u, note) && t.calls[c].phase == Beginning
      && Same(s, t) && t.store == s.store
  {
  }

  lemma {:induction false} Stamps(s: State, c: CallId, u: Uuid, note: Option<Body>)
    requires Ready(s, u, note) && Called(s, c, u, note)
    ensures var t := DoStamp(s, c);
      && Ready(t, u, note) && Called(t, c, u, note) && t.calls[c].phase == SyncModel.Stamped
      && Same(s, t) && t.store.sent == s.store.sent
  {
  }

  lemma {:induction false} Collects(s: State, c: CallId, u: Uuid, note: Option<Body>)
    requires Ready(s, u, note) && Called(s, c, u, note)
    ensures var t := DoCollect(s, c);
      && Ready(t, u, note) && Called(t, c, u, note) && Same(s, t) && t.store == s.store
      && t.calls[c].phase.Collected? && t.calls[c].phase.uploads.Keys == Uploads(u, note)
  {
  }

  /** The operation is under way, with all that it carries still to be sent. */
  ghost predicate Launched(s: State, c: CallId, u: Uuid, note: Option<Body>) {
    && Ready(s, u, note) && Called(s, c, u, note) && s.calls[c].phase.Running?
    && s.calls[c].phase.online && s.calls[c].phase.pending.Keys == Uploads(u, note)
    && s.calls[c].phase.inFlight.None? && !s.calls[c].phase.done
    && s.calls[c].phase.mode == if s.completedDownloadFirst then Default else DownloadFirst
  }

  lemma {:induction false} Launches(s: State, c: CallId, u: Uuid, note: Option<Body>)
    requires Ready(s, u, note) && Called(s, c, u, note)
    requires s.calls[c].phase.Collected? && s.calls[c].phase.uploads.Keys == Uploads(u, note)
    requires s.completedDownloadFirst || Uploads(u, note) == {}
    ensures var t := DoCreateOperation(s, c, true); Launched(t, c, u, note) && Same(s, t) && t.store == s.store
  {
  }

  /** All that the operation carries is on its way to the server. */
  ghost predicate InTransit(s: State, c: CallId, u: Uuid, note: Option<Body>) {
    && Ready(s, u, note) && Called(s, c, u, note) && s.calls[c].phase.Running?
    && s.calls[c].phase.online && s.calls[c].phase.pending == map[]
    && s.calls[c].phase.inFlight.Some? && s.calls[c].phase.inFlight.value.Keys == Uploads(u, note)
    && s.calls[c].phase.mode == if s.completedDownloadFirst then Default else DownloadFirst
  }

  lemma {:induction false} Sends(s: State, c: CallId, u: Uuid, note: Option<Body>)
    requires Launched(s, c, u, note)
    ensures var t := DoSendBatch(s, c, Uploads(u, note));
      InTransit(t, c, u, note) && Same(s, t) && t.store.sent == s.store.sent + Uploads(u, note)
  {
    assert s.calls[c].phase.pending - Uploads(u, note) == map[];
  }

  function Operation(c: CallId, batch: set<Uuid>): seq<Action> {
    [EnterOrDefer(c), Stamp(c), Collect(c), CreateOperation(c, true), SendBatch(c, batch)]
  }

  lemma {:induction false} Prepares(s: State, c: CallId, u: Uuid, note: Option<Body>, rest: seq<Action>)
    returns (t: State)
    requires Ready(s, u, note) && Called(s, c, u, note) && s.calls[c].phase == Preparing(true)
    ensures RunFrom(s, [EnterOrDefer(c)] + ([Stamp(c)] + ([Collect(c)] + rest))) == RunFrom(t, rest)
    ensures Ready(t, u, note) && Called(t, c, u, note) && Same(s, t) && t.store.sent == s.store.sent
    ensures t.calls[c].phase.Collected? && t.calls[c].phase.uploads.Keys == Uploads(u, note)
  {
    var began := DoEnterOrDefer(s, c);
    Begins(s, c, u, note);
    FromStep(s, EnterOrDefer(c), [Stamp(c)] + ([Collect(c)] + rest));
    var stamped := DoStamp(began, c);
    Stamps(began, c, u, note);
    FromStep(began, Stamp(c), [Collect(c)] + rest);
    t := DoCollect(stamped, c);
    Collects(stamped, c, u, note);
    FromStep(stamped, Collect(c), rest);
  }

  lemma {:induction false} Operates(s: State, c: CallId, u: Uuid, note: Option<Body>)
    requires Ready(s, u, note) && Called(s, c, u, note) && s.calls[c].phase == Preparing(true)
    requires s.completedDownloadFirst || Uploads(u, note) == {}
    ensures var t := RunFrom(s, Operation(c, Uploads(u, note)));
      InTransit(t, c, u, note) && Same(s, t) && t.store.sent == s.store.sent + Uploads(u, note)
  {
    var send := SendBatch(c, Uploads(u, note));
    var rest := [CreateOperation(c, true)] + ([send] + []);
    assert Operation(c, Uploads(u, note)) == [EnterOrDefer(c)] + ([Stamp(c)] + ([Collect(c)] + rest));
    var collected := Prepares(s, c, u, note, rest);
    Launches(collected, c, u, note);
    FromStep(collected, CreateOperation(c, true), [send] + []);
    var launched := DoCreateOperation(collected, c, true);
    Sends(launched, c, u, note);
    FromStep(launched, send, []);
  }

  // ----- How it ends

  /** Ready to complete, with the note as it was. */
  lemma {:induction false} Succeeds(s: State, c: CallId, u: Uuid, note: Option<Body>, retrieved: map<Uuid, Body>)
    requires InTransit(s, c, u, note) && Uploads(u, note) == {} && (note.None? ==> u !in retrieved)
    ensures var t := DoReceiveSuccess(s, c, {}, retrieved, false);
      && Ready(t, u, note) && Called(t, c, u, note) && Enabled(t, Finish(c)) && !t.error
      && Same(s, t) && t.store.sent == s.store.sent && t.calls[c].phase.mode == s.calls[c].phase.mode
      && t.calls[c].phase.online
  {
  }

  /** The answer is lost: the operation fails, the lock is free again, and the note is as it was. */
  lemma {:induction false} Fails(s: State, c: CallId, u: Uuid, note: Option<Body>)
    requires InTransit(s, c, u, note)
    ensures var t := DoReceiveError(s, c, false); var v := DoFinish(t, c);
      && Enabled(t, Finish(c)) && Free(v, u, note) && Same(s, v) && v.store == s.store
  {
  }

  /** The completing call drops what it set aside, and nobody acknowledged it. */
  lemma {:induction false} Discards(s: State, c: CallId, u: Uuid, note: Option<Body>)
    requires Ready(s, u, note) && Called(s, c, u, Some(Tombstone)) && Enabled(s, Finish(c)) && !s.error
    ensures var t := DoFinish(s, c); Lost(t.store, u) && t.store.sent == s.store.sent
  {
  }

  lemma {:induction false} Downloads(s: State, c: CallId, u: Uuid)
    requires Ready(s, u, None) && Called(s, c, u, None) && Enabled(s, Finish(c)) && !s.error
    requires s.calls[c].phase.online && s.calls[c].phase.mode == DownloadFirst
    ensures var t := DoFinish(s, c);
      && Enabled(t, Continue(c)) && Free(DoContinue(t, c), u, None) && DoContinue(t, c).completedDownloadFirst
      && DoContinue(t, c).nextCall == s.nextCall && DoContinue(t, c).store.sent == s.store.sent
  {
  }

  // ----- A sync that has sent what it carries

  function Syncing(c: CallId, batch: set<Uuid>): seq<Action> {
    [Sync(DEFAULT_OPTIONS)] + Operation(c, batch)
  }

  lemma {:induction false} SyncSends(before: seq<Action>, u: Uuid, note: Option<Body>)
    requires Free(Run(before), u, note) && (Run(before).completedDownloadFirst || Uploads(u, note) == {})
    ensures var s := Run(before); var c := s.nextCall; var t := Run(before + Syncing(c, Uploads(u, note)));
      && InTransit(t, c, u, note) && t.nextCall == c + 1 && t.completedDownloadFirst == s.completedDownloadFirst
      && t.store.dirtyIndex == s.store.dirtyIndex && t.store.sent == s.store.sent + Uploads(u, note)
  {
    var c := Run(before).nextCall;
    var called := before + [Sync(DEFAULT_OPTIONS)];
    RunOne(before, Sync(DEFAULT_OPTIONS));
    Starts(Run(before), u, note);
    RunContinues(called, Operation(c, Uploads(u, note)));
    Operates(Run(called), c, u, note);
    assert before + Syncing(c, Uploads(u, note)) == called + Operation(c, Uploads(u, note));
  }

  lemma {:induction false} Creates(s: State, u: Uuid)
    requires Free(s, u, None)
    ensures var t := s.(store := Created(s.store, u, Live("a"), true)); Free(t, u, Some(Live("a"))) && Same(s, t)
  {
  }

  lemma {:induction false} Edits(s: State, u: Uuid, note: Body, body: Body)
    requires Ready(s, u, Some(note))
    ensures var t := s.(store := Edited(s.store, u, body));
      Ready(t, u, Some(body)) && Waits(t.store, u, body, Some(s.store.dirtyIndex + 1))
  {
  }

  // ----- A revived note is lost

  /** A note is created and deleted before its first sync. */
  const DELETED_UNSYNCED: seq<Action> :=
    [LoadDatabase] + [CreateItem(0, Live("a"), true)] + [Edit(0, Tombstone)]

  /** Its first sync sets it aside, and the server answers, whatever it has to offer. */
  function SetAside(retrieved: map<Uuid, Body>): seq<Action> {
    DELETED_UNSYNCED + Syncing(0, {}) + [ReceiveSuccess(0, {}, retrieved, false)]
  }

  function Revival(retrieved: map<Uuid, Body>): seq<Action> {
    SetAside(retrieved) + [Edit(0, Live("b"))]
  }

  lemma {:induction false} DatabaseIsLoaded()
    ensures Run([LoadDatabase]) == Initial().(databaseLoaded := true)
  {
    RunOne([], LoadDatabase);
    assert [] + [LoadDatabase] == [LoadDatabase];
  }

  lemma {:induction false} NoteIsDeleted()
    ensures var s := Run(DELETED_UNSYNCED); Free(s, 0, Some(Tombstone)) && s.nextCall == 0 && s.store.dirtyIndex == 1
  {
    var loaded := [LoadDatabase];
    var created := loaded + [CreateItem(0, Live("a"), true)];
    DatabaseIsLoaded();
    RunOne(loaded, CreateItem(0, Live("a"), true));
    Creates(Run(loaded), 0);
    RunOne(created, Edit(0, Tombstone));
    Edits(Run(created), 0, Live("a"), Tombstone);
  }

  lemma {:induction false} NoteIsSetAside(retrieved: map<Uuid, Body>)
    ensures var s := Run(SetAside(retrieved));
      && Ready(s, 0, Some(Tombstone)) && Called(s, 0, 0, Some(Tombstone)) && Enabled(s, Finish(0)) && !s.error
      && s.store.dirtyIndex == 1
  {
    var sent := DELETED_UNSYNCED + Syncing(0, {});
    NoteIsDeleted();
    SyncSends(DELETED_UNSYNCED, 0, Some(Tombstone));
    RunOne(sent, ReceiveSuccess(0, {}, retrieved, false));
    Succeeds(Run(sent), 0, 0, Some(Tombstone), retrieved);
  }

  lemma {:induction false} RevivalIsLost(before: seq<Action>, c: CallId, u: Uuid)
    requires Ready(Run(before), u, Some(Tombstone)) && Called(Run(before), c, u, Some(Tombstone))
    requires Enabled(Run(before), Finish(c)) && !Run(before).error
    ensures var run := before + [Edit(u, Live("b"))];
      && Waits(Run(run).store, u, Live("b"), Some(Run(before).store.dirtyIndex + 1))
      && Enabled(Run(run), Finish(c)) && u !in Run(run + [Finish(c)]).store.items
  {
    var run := before + [Edit(u, Live("b"))];
    RunOne(before, Edit(u, Live("b")));
    Edits(Run(before), u, Tombstone, Live("b"));
    RunOne(run, Finish(c));
    Discards(Run(run), c, u, Some(Live("b")));
  }

  /** Revived while its operation is under way, the note waits when the call completes, and then is gone. */
  lemma {:induction false} RevivedEditIsLost(retrieved: map<Uuid, Body>)
    ensures Waits(Run(Revival(retrieved)).store, 0, Live("b"), Some(2))
    ensures Enabled(Run(Revival(retrieved)), Finish(0))
    ensures 0 !in Run(Revival(retrieved) + [Finish(0)]).store.items
  {
    NoteIsSetAside(retrieved);
    RevivalIsLost(SetAside(retrieved), 0, 0);
  }

  // ----- The deletion of a note that was sent is lost

  /** A note is created and uploaded, but the answer of the server is lost. */
  function FailedUpload(before: seq<Action>, c: CallId, u: Uuid): seq<Action> {
    before + [CreateItem(u, Live("a"), true)] + Syncing(c, {u}) + [ReceiveError(c, false)] + [Finish(c)]
  }

  /** The note is deleted, and another sync runs to the end of its operation. */
  function Deletion(before: seq<Action>, c: CallId, u: Uuid, retrieved: map<Uuid, Body>): seq<Action> {
    before + [Edit(u, Tombstone)] + Syncing(c, {}) + [ReceiveSuccess(c, {}, retrieved, false)]
  }

  lemma {:induction false} NoteIsSent(before: seq<Action>, u: Uuid)
    requires var s := Run(before); Free(s, u, None) && u !in s.store.sent && s.completedDownloadFirst
    ensures var s := Run(before);
      var t := Run(before + [CreateItem(u, Live("a"), true)] + Syncing(s.nextCall, {u}));
      && InTransit(t, s.nextCall, u, Some(Live("a"))) && u in t.store.sent && t.nextCall == s.nextCall + 1
      && t.completedDownloadFirst
  {
    RunOne(before, CreateItem(u, Live("a"), true));
    Creates(Run(before), u);
    SyncSends(before + [CreateItem(u, Live("a"), true)], u, Some(Live("a")));
  }

  lemma {:induction false} AnswerIsLost(before: seq<Action>, c: CallId, u: Uuid)
    requires InTransit(Run(before), c, u, Some(Live("a")))
    ensures var s, t := Run(before), Run(before + [ReceiveError(c, false)] + [Finish(c)]);
      Free(t, u, Some(Live("a"))) && Same(s, t) && t.store == s.store
  {
    RunOne(before, ReceiveError(c, false));
    Fails(Run(before), c, u, Some(Live("a")));
    RunOne(before + [ReceiveError(c, false)], Finish(c));
  }

  lemma {:induction false} UploadFails(before: seq<Action>, u: Uuid)
    requires var s := Run(before); Free(s, u, None) && u !in s.store.sent && s.completedDownloadFirst
    ensures var s := Run(before); var t := Run(FailedUpload(before, s.nextCall, u));
      Free(t, u, Some(Live("a"))) && u in t.store.sent && t.nextCall == s.nextCall + 1
  {
    var c := Run(before).nextCall;
    NoteIsSent(before, u);
    AnswerIsLost(before + [CreateItem(u, Live("a"), true)] + Syncing(c, {u}), c, u);
  }

  lemma {:induction false} DeletionIsSetAside(before: seq<Action>, u: Uuid)
    requires Free(Run(before), u, Some(Live("a"))) && u in Run(before).store.sent
    ensures var s := Run(before); var t := Run(before + [Edit(u, Tombstone)] + Syncing(s.nextCall, {}));
      && InTransit(t, s.nextCall, u, Some(Tombstone)) && u in t.store.sent
  {
    RunOne(before, Edit(u, Tombstone));
    Edits(Run(before), u, Live("a"), Tombstone);
    SyncSends(before + [Edit(u, Tombstone)], u, Some(Tombstone));
  }

  lemma {:induction false} DeletionIsDropped(before: seq<Action>, c: CallId, u: Uuid, retrieved: map<Uuid, Body>)
    requires InTransit(Run(before), c, u, Some(Tombstone)) && u in Run(before).store.sent
    ensures var run := before + [ReceiveSuccess(c, {}, retrieved, false)];
      && Only(Run(run).store, u, Some(Tombstone)) && Enabled(Run(run), Finish(c))
      && u in Run(run + [Finish(c)]).store.sent && Lost(Run(run + [Finish(c)]).store, u)
  {
    var run := before + [ReceiveSuccess(c, {}, retrieved, false)];
    RunOne(before, ReceiveSuccess(c, {}, retrieved, false));
    Succeeds(Run(before), c, u, Some(Tombstone), retrieved);
    RunOne(run, Finish(c));
    Discards(Run(run), c, u, Some(Tombstone));
  }

  lemma {:induction false} DeletionIsLost(before: seq<Action>, u: Uuid, retrieved: map<Uuid, Body>)
    requires Free(Run(before), u, Some(Live("a"))) && u in Run(before).store.sent
    ensures var c := Run(before).nextCall; var run := Deletion(before, c, u, retrieved);
      && Only(Run(run).store, u, Some(Tombstone)) && Enabled(Run(run), Finish(c))
      && u in Run(run + [Finish(c)]).store.sent && Lost(Run(run + [Finish(c)]).store, u)
  {
    var c := Run(before).nextCall;
    DeletionIsSetAside(before, u);
    DeletionIsDropped(before + [Edit(u, Tombstone)] + Syncing(c, {}), c, u, retrieved);
  }

  /**
   From any state with a completed download and an idle service: a note whose upload gets no answer, and
   which is deleted then, waits for the deletion to be uploaded, and is gone, unacknowledged, after the next sync.
   */
  lemma {:induction false} SentDeletionIsLost(before: seq<Action>, u: Uuid, retrieved: map<Uuid, Body>)
    requires var s := Run(before); Free(s, u, None) && u !in s.store.sent && s.completedDownloadFirst
    ensures var c := Run(before).nextCall; var run := Deletion(FailedUpload(before, c, u), c + 1, u, retrieved);
      && Only(Run(run).store, u, Some(Tombstone)) && Enabled(Run(run), Finish(c + 1))
      && u in Run(run + [Finish(c + 1)]).store.sent && Lost(Run(run + [Finish(c + 1)]).store, u)
  {
    UploadFails(before, u);
    DeletionIsLost(FailedUpload(before, Run(before).nextCall, u), u, retrieved);
  }

  // ----- Such a state is reached by a first sync

  function FirstSync(retrieved: map<Uuid, Body>): seq<Action> {
    [LoadDatabase] + Syncing(0, {}) + [ReceiveSuccess(0, {}, retrieved, false)] + [Finish(0)] + [Continue(0)]
  }

  lemma {:induction false} FirstSyncCompletes(retrieved: map<Uuid, Body>, u: Uuid)
    requires u !in retrieved
    ensures var s := Run(FirstSync(retrieved));
      Free(s, u, None) && u !in s.store.sent && s.completedDownloadFirst && s.nextCall == 1
  {
    var sent := [LoadDatabase] + Syncing(0, {});
    var answered := sent + [ReceiveSuccess(0, {}, retrieved, false)];
    DatabaseIsLoaded();
    SyncSends([LoadDatabase], u, None);
    RunOne(sent, ReceiveSuccess(0, {}, retrieved, false));
    Succeeds(Run(sent), 0, u, None, retrieved);
    RunOne(answered, Finish(0));
    Downloads(Run(answered), 0, u);
    RunOne(answered + [Finish(0)], Continue(0));
  }

  /** The whole run, from the start. */
  lemma {:induction false} SentDeletionCanBeLost(retrieved: map<Uuid, Body>, later: map<Uuid, Body>)
    requires 0 !in retrieved
    ensures var run := Deletion(FailedUpload(FirstSync(retrieved), 1, 0), 2, 0, later);
      && Only(Run(run).store, 0, Some(Tombstone)) && Enabled(Run(run), Finish(2))
      && 0 in Run(run + [Finish(2)]).store.sent && Lost(Run(run + [Finish(2)]).store, 0)
  {
    FirstSyncCompletes(retrieved, 0);
    SentDeletionIsLost(FirstSync(retrieved), 0, later);
  }
}
