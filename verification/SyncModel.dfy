/**
 The sync protocol as a state machine. An async call of `performSync` runs in stretches between
 awaits; every stretch is one atomic step, so a list of steps is one interleaving of any number
 of calls with local edits and server answers.
 */
module SyncModel {
  import opened Wrappers
  import opened Lists

  type Uuid = nat
  type CallId = nat
  type RequestId = nat

  datatype Body = Live(text: string) | Tombstone

  /** `syncIndex` is the item's `globalDirtyIndexAtLastSync`. */
  datatype Item = Item(body: Body, dirty: bool, dirtyIndex: Option<nat>, syncIndex: Option<nat>, neverSynced: bool)

  datatype Mode = Default | DownloadFirst

  datatype Strategy = ResolveOnNext | ForceSpawnNew

  datatype Options = Options(mode: Mode, strategy: Strategy)

  /** Where a call of `performSync` is suspended. */
  datatype Phase =
    | Preparing(executes: bool)
    | Beginning
    | Stamped
    | Collected(uploads: map<Uuid, Body>)
    | Running(online: bool, mode: Mode, carries: bool,
              pending: map<Uuid, Body>, inFlight: Option<map<Uuid, Body>>, done: bool)
    | Finishing(wasOnline: bool, ranMode: Mode)
    | Downloaded
    | Resolving
    | Ended

  datatype Call = Call(options: Options, items: set<Uuid>, frozen: nat, neverSyncedDeleted: set<Uuid>,
                       inTime: seq<RequestId>, phase: Phase)

  datatype Ack = Ack(body: Body, byServer: bool)

  /**
   The local items and the global dirty index. The history part remembers which items were ever
   sent, what was last acknowledged for each, and which were ever saved by an offline operation.
   */
  datatype Store = Store(items: map<Uuid, Item>, dirtyIndex: nat,
                         sent: set<Uuid>, acked: map<Uuid, Ack>, offline: set<Uuid>)

  /** What happened so far. Only the theorems read it; no step depends on it. */
  datatype Event =
    | Queued(request: RequestId)
    | Began(call: CallId)
    | Launched(call: CallId, online: bool, carries: bool)
    | Completed(call: CallId)
    | Failed(call: CallId)
    | Resolved(request: RequestId, caller: CallId)
    | Dropped(request: RequestId, caller: CallId)

  /**
   The requests that force a sync of their own: all that were queued, those that were popped, the call
   that was started for each popped one, if any, and which request a call joined the queue as.
   */
  datatype Spawns = Spawns(queued: seq<Options>, popped: seq<Options>, servers: seq<Option<CallId>>,
                           joined: map<CallId, nat>)

  datatype State = State(
    syncLock: bool,
    syncing: bool,
    error: bool,
    databaseLoaded: bool,
    clientLocked: bool,
    completedDownloadFirst: bool,
    resolveQueue: seq<RequestId>,
    spawnQueue: seq<Options>,
    calls: map<CallId, Call>,
    nextCall: nat,
    nextRequest: nat,
    store: Store,
    // History: the owner of the lock, the spawn requests, and the events.
    holder: Option<CallId>,
    spawns: Spawns,
    log: seq<Event>)

  const UP_DOWN_LIMIT: nat := 150

  const DEFAULT_OPTIONS := Options(Default, ResolveOnNext)

  function Initial(): State {
    State(false, false, false, false, false, false, [], [], map[], 0, 0,
          Store(map[], 0, {}, map[], {}), None, Spawns([], [], [], map[]), [])
  }

  datatype Action =
    | Sync(options: Options)
    | EnterOrDefer(c: CallId)
    | Stamp(c: CallId)
    | Collect(c: CallId)
    | CreateOperation(c: CallId, online: bool)
    | SendBatch(c: CallId, batch: set<Uuid>)
    | ReceiveError(c: CallId, more: bool)
    | ReceiveSuccess(c: CallId, saved: set<Uuid>, retrieved: map<Uuid, Body>, more: bool)
    | RunOffline(c: CallId, synced: set<Uuid>)
    | Finish(c: CallId)
    | Continue(c: CallId)
    | SyncAfterDownload(c: CallId)
    | Resolve(c: CallId)
    | Edit(uuid: Uuid, body: Body)
    | CreateItem(uuid: Uuid, body: Body, dirty: bool)
    | LoadDatabase
    | SetClientLock(locked: bool)

  // ----- Items

  function DirtyItems(items: map<Uuid, Item>): set<Uuid> {
    set u | u in items && items[u].dirty
  }

  function NeverSyncedDeleted(items: map<Uuid, Item>): set<Uuid> {
    set u | u in items && items[u].dirty && items[u].neverSynced && items[u].body.Tombstone?
  }

  function Latest(items: map<Uuid, Item>, uuids: set<Uuid>): map<Uuid, Body> {
    map u | u in uuids && u in items :: items[u].body
  }

  /** A saved item stays dirty exactly when its dirty index exceeds the index it was stamped with. */
  predicate StillDirty(item: Item) {
    item.dirtyIndex.Some? && item.syncIndex.Some? && item.dirtyIndex.value > item.syncIndex.value
  }

  /** A deleted item with nothing left to upload is discarded from the collection. */
  predicate Discardable(item: Item) {
    item.body.Tombstone? && !item.dirty
  }

  function Emit(items: map<Uuid, Item>, changes: map<Uuid, Item>): map<Uuid, Item> {
    map u | u in items.Keys + changes.Keys && !(u in changes && Discardable(changes[u])) ::
      if u in changes then changes[u] else items[u]
  }

  function StampItems(items: map<Uuid, Item>, uuids: set<Uuid>, frozen: nat): map<Uuid, Item> {
    map u | u in items ::
      if u in uuids then items[u].(syncIndex := Some(frozen)) else items[u]
  }

  /** What saving makes of the saved items; those in `synced` count as synced from then on. */
  function Saved(items: map<Uuid, Item>, saved: set<Uuid>, synced: set<Uuid>): map<Uuid, Item> {
    map u | u in saved && u in items ::
      items[u].(dirty := StillDirty(items[u]), neverSynced := items[u].neverSynced && u !in synced)
  }

  /** A retrieved item replaces the local copy unless the local copy is dirty. */
  function Retrieved(items: map<Uuid, Item>, retrieved: map<Uuid, Body>): map<Uuid, Item> {
    map u | u in retrieved && !(u in items && items[u].dirty) ::
      Item(retrieved[u], false, None, None, false)
  }

  function AckRetrieved(acked: map<Uuid, Ack>, incoming: map<Uuid, Item>): map<Uuid, Ack> {
    map u | u in acked.Keys + incoming.Keys :: if u in incoming then Ack(incoming[u].body, true) else acked[u]
  }

  function AckSaved(acked: map<Uuid, Ack>, batch: map<Uuid, Body>, saved: set<Uuid>, byServer: bool): map<Uuid, Ack> {
    map u | u in acked.Keys + (saved * batch.Keys) ::
      if u in saved && u in batch then Ack(batch[u], byServer) else acked[u]
  }

  // ----- The store under the steps

  function Edited(store: Store, u: Uuid, body: Body): Store
    requires u in store.items
  {
    var index := store.dirtyIndex + 1;
    store.(items := store.items[u := store.items[u].(body := body, dirty := true, dirtyIndex := Some(index))],
           dirtyIndex := index)
  }

  function Created(store: Store, u: Uuid, body: Body, dirty: bool): Store {
    store.(items := store.items[u := Item(body, dirty, None, None, true)])
  }

  function AfterSend(store: Store, batch: set<Uuid>): Store {
    store.(sent := store.sent + batch)
  }

  /** The response is resolved against one snapshot: retrieved items first, then saved items. */
  function AfterSuccess(store: Store, batch: map<Uuid, Body>, saved: set<Uuid>, retrieved: map<Uuid, Body>): Store {
    var incoming := Retrieved(store.items, retrieved);
    store.(items := Emit(Emit(store.items, incoming), Saved(store.items, saved, saved)),
           acked := AckSaved(AckRetrieved(store.acked, incoming), batch, saved, true))
  }

  /** Whether an item that was only saved offline counts as synced is left open. */
  function AfterOffline(store: Store, batch: map<Uuid, Body>, synced: set<Uuid>): Store {
    store.(items := Emit(store.items, Saved(store.items, batch.Keys, synced)),
           sent := store.sent + batch.Keys,
           acked := AckSaved(store.acked, batch, batch.Keys, false),
           offline := store.offline + batch.Keys)
  }

  // ----- Steps of a call

  function SetCall(s: State, c: CallId, call: Call): State {
    s.(calls := s.calls[c := call])
  }

  function SetPhase(s: State, c: CallId, phase: Phase): State
    requires c in s.calls
  {
    SetCall(s, c, s.calls[c].(phase := phase))
  }

  /** Up to the first await: `configureSyncLock` and the synchronous part of `prepareForSync`. */
  function PerformSync(s: State, options: Options): State {
    var executes := !s.syncLock && s.databaseLoaded && !s.syncing;
    var doomed := NeverSyncedDeleted(s.store.items);
    var collected := DirtyItems(s.store.items) - doomed;
    var call := Call(options, collected, s.store.dirtyIndex, doomed, [], Preparing(executes));
    SetCall(s, s.nextCall, call).(
      nextCall := s.nextCall + 1,
      syncLock := s.syncLock || executes,
      holder := if executes then Some(s.nextCall) else s.holder)
  }

  function SyncOrSkip(s: State, options: Options): State {
    if s.clientLocked then s else PerformSync(s, options)
  }

  function QueueRequest(s: State): State {
    s.(resolveQueue := s.resolveQueue + [s.nextRequest],
       nextRequest := s.nextRequest + 1,
       log := s.log + [Queued(s.nextRequest)])
  }

  function QueueSpawn(s: State, c: CallId, options: Options): State {
    s.(spawnQueue := s.spawnQueue + [options],
       spawns := s.spawns.(queued := s.spawns.queued + [options], joined := s.spawns.joined[c := |s.spawns.queued|]))
  }

  /** The call that is about to be started for a popped request is the next one, unless the client is locked. */
  function PopSpawn(s: State): State
    requires s.spawnQueue != []
  {
    s.(spawnQueue := s.spawnQueue[1..],
       spawns := s.spawns.(popped := s.spawns.popped + [s.spawnQueue[0]],
                           servers := s.spawns.servers + [if s.clientLocked then None else Some(s.nextCall)]))
  }

  function DeferRequest(s: State, c: CallId, options: Options): State {
    match options.strategy
    case ResolveOnNext => QueueRequest(s)
    case ForceSpawnNew => QueueSpawn(s, c, options)
  }

  /** After `prepareForSync`: take the in-time requests, then defer or begin the operation. */
  function DoEnterOrDefer(s: State, c: CallId): State
    requires c in s.calls && s.calls[c].phase.Preparing?
  {
    var call := s.calls[c];
    if call.phase.executes then
      SetCall(s, c, call.(inTime := s.resolveQueue, phase := Beginning)).(syncing := true, log := s.log + [Began(c)])
    else
      DeferRequest(SetPhase(s, c, Ended), c, call.options)
  }

  /** After `SyncWillBegin`: claim the in-time requests and stamp the collected items. */
  function DoStamp(s: State, c: CallId): State
    requires c in s.calls
  {
    SetPhase(s, c, Stamped).(
      resolveQueue := Subtract(s.resolveQueue, s.calls[c].inTime),
      store := s.store.(items := StampItems(s.store.items, s.calls[c].items, s.calls[c].frozen)))
  }

  /** After the stamps are emitted: read the latest version of the collected items. */
  function DoCollect(s: State, c: CallId): State
    requires c in s.calls
  {
    SetPhase(s, c, Collected(Latest(s.store.items, s.calls[c].items)))
  }

  function UsedMode(s: State, options: Options, online: bool): Mode {
    if online && !s.completedDownloadFirst then DownloadFirst else options.mode
  }

  function DoCreateOperation(s: State, c: CallId, online: bool): State
    requires c in s.calls && s.calls[c].phase.Collected?
  {
    var call := s.calls[c];
    var mode := UsedMode(s, call.options, online);
    var uploads := if mode == Default then call.phase.uploads else map[];
    var carries := uploads != map[];
    SetPhase(s, c, Running(online, mode, carries, uploads, None, false)).(
      log := s.log + [Launched(c, online, carries)])
  }

  function Part(pending: map<Uuid, Body>, batch: set<Uuid>): map<Uuid, Body> {
    map u | u in pending && u in batch :: pending[u]
  }

  function DoSendBatch(s: State, c: CallId, batch: set<Uuid>): State
    requires c in s.calls && s.calls[c].phase.Running?
  {
    var phase := s.calls[c].phase;
    SetPhase(s, c, phase.(pending := phase.pending - batch, inFlight := Some(Part(phase.pending, batch)))).(
      store := AfterSend(s.store, batch))
  }

  function AfterResponse(phase: Phase, more: bool): Phase
    requires phase.Running?
  {
    phase.(inFlight := None, done := phase.pending == map[] && !more)
  }

  function DoReceiveError(s: State, c: CallId, more: bool): State
    requires c in s.calls && s.calls[c].phase.Running?
  {
    SetPhase(s, c, AfterResponse(s.calls[c].phase, more)).(error := true)
  }

  function DoReceiveSuccess(s: State, c: CallId, saved: set<Uuid>, retrieved: map<Uuid, Body>, more: bool): State
    requires c in s.calls && s.calls[c].phase.Running? && s.calls[c].phase.inFlight.Some?
  {
    var phase := s.calls[c].phase;
    SetPhase(s, c, AfterResponse(phase, more)).(
      error := false,
      store := AfterSuccess(s.store, phase.inFlight.value, saved, retrieved))
  }

  /** An offline operation saves everything it carries at once. */
  function DoRunOffline(s: State, c: CallId, synced: set<Uuid>): State
    requires c in s.calls && s.calls[c].phase.Running?
  {
    var phase := s.calls[c].phase;
    SetPhase(s, c, phase.(pending := map[], done := true)).(
      error := false,
      store := AfterOffline(s.store, phase.pending, synced))
  }

  function Settle(requests: seq<RequestId>, c: CallId, resolve: bool): seq<Event> {
    Map(requests, r => if resolve then Resolved(r, c) else Dropped(r, c))
  }

  /** The operation ended with an error: release the lock and give up without resolving anybody. */
  function DoFail(s: State, c: CallId): State
    requires c in s.calls
  {
    SetPhase(s, c, Ended).(
      syncLock := false, syncing := false, holder := None,
      log := s.log + [Failed(c)] + Settle(s.calls[c].inTime, c, false))
  }

  /** The operation ended well: release the lock and drop the items that were created and deleted unsynced. */
  function DoComplete(s: State, c: CallId): State
    requires c in s.calls && s.calls[c].phase.Running?
  {
    var call := s.calls[c];
    SetPhase(s, c, Finishing(call.phase.online, call.phase.mode)).(
      syncLock := false, syncing := false, holder := None,
      store := s.store.(items := s.store.items - call.neverSyncedDeleted),
      log := s.log + [Completed(c)])
  }

  function DoFinish(s: State, c: CallId): State
    requires c in s.calls && s.calls[c].phase.Running?
  {
    if s.error then DoFail(s, c) else DoComplete(s, c)
  }

  /** `potentiallySyncAgainAfterSyncCompletion`, once nothing was downloaded first. */
  function SyncAgain(s: State): State {
    if s.spawnQueue != [] then
      var spawned := SyncOrSkip(PopSpawn(s), s.spawnQueue[0].(strategy := ForceSpawnNew));
      if DirtyItems(s.store.items) != {} then SyncOrSkip(spawned, DEFAULT_OPTIONS) else spawned
    else if s.resolveQueue != [] || DirtyItems(s.store.items) != {} then SyncOrSkip(s, DEFAULT_OPTIONS)
    else s
  }

  /** `potentiallySyncAgainAfterSyncCompletion` up to its first await. */
  function DoContinue(s: State, c: CallId): State
    requires c in s.calls && s.calls[c].phase.Finishing?
  {
    var phase := s.calls[c].phase;
    if phase.ranMode == DownloadFirst then
      SetPhase(s, c, Downloaded).(completedDownloadFirst := s.completedDownloadFirst || phase.wasOnline)
    else
      SyncAgain(SetPhase(s, c, Resolving))
  }

  function DoResolve(s: State, c: CallId): State
    requires c in s.calls
  {
    SetPhase(s, c, Ended).(log := s.log + Settle(s.calls[c].inTime, c, true))
  }

  // ----- The machine

  predicate Enabled(s: State, a: Action) {
    match a
    case Sync(_) => true
    case EnterOrDefer(c) => c in s.calls && s.calls[c].phase.Preparing?
    case Stamp(c) => c in s.calls && s.calls[c].phase.Beginning?
    case Collect(c) => c in s.calls && s.calls[c].phase.Stamped?
    case CreateOperation(c, _) => c in s.calls && s.calls[c].phase.Collected?
    case SendBatch(c, batch) =>
      && c in s.calls && s.calls[c].phase.Running?
      && var p := s.calls[c].phase;
      p.online && p.inFlight.None? && !p.done && batch <= p.pending.Keys && |batch| <= UP_DOWN_LIMIT
    case ReceiveError(c, _) => c in s.calls && s.calls[c].phase.Running? && s.calls[c].phase.inFlight.Some?
    case ReceiveSuccess(c, saved, _, _) =>
      && c in s.calls && s.calls[c].phase.Running? && s.calls[c].phase.inFlight.Some?
      && saved <= s.calls[c].phase.inFlight.value.Keys
    case RunOffline(c, _) =>
      c in s.calls && s.calls[c].phase.Running? && !s.calls[c].phase.online && !s.calls[c].phase.done
    case Finish(c) =>
      c in s.calls && s.calls[c].phase.Running? && s.calls[c].phase.done && s.calls[c].phase.inFlight.None?
    case Continue(c) => c in s.calls && s.calls[c].phase.Finishing?
    case SyncAfterDownload(c) => c in s.calls && s.calls[c].phase.Downloaded?
    case Resolve(c) => c in s.calls && s.calls[c].phase.Resolving?
    case Edit(u, _) => u in s.store.items
    case CreateItem(u, _, _) => u !in s.store.items && u !in s.store.sent
    case LoadDatabase => true
    case SetClientLock(_) => true
  }

  function Next(s: State, a: Action): State
    requires Enabled(s, a)
  {
    match a
    case Sync(options) => SyncOrSkip(s, options)
    case EnterOrDefer(c) => DoEnterOrDefer(s, c)
    case Stamp(c) => DoStamp(s, c)
    case Collect(c) => DoCollect(s, c)
    case CreateOperation(c, online) => DoCreateOperation(s, c, online)
    case SendBatch(c, batch) => DoSendBatch(s, c, batch)
    case ReceiveError(c, more) => DoReceiveError(s, c, more)
    case ReceiveSuccess(c, saved, retrieved, more) => DoReceiveSuccess(s, c, saved, retrieved, more)
    case RunOffline(c, synced) => DoRunOffline(s, c, synced)
    case Finish(c) => DoFinish(s, c)
    case Continue(c) => DoContinue(s, c)
    case SyncAfterDownload(c) => SyncOrSkip(SetPhase(s, c, Resolving), DEFAULT_OPTIONS)
    case Resolve(c) => DoResolve(s, c)
    case Edit(u, body) => s.(store := Edited(s.store, u, body))
    case CreateItem(u, body, dirty) => s.(store := Created(s.store, u, body, dirty))
    case LoadDatabase => s.(databaseLoaded := true)
    case SetClientLock(locked) => s.(clientLocked := locked)
  }

  /** The state after a list of steps; a step that is not enabled when its turn comes does nothing. */
  function Run(actions: seq<Action>): State
  {
    if actions == [] then Initial()
    else
      var s := Run(actions[..|actions| - 1]);
      var a := actions[|actions| - 1];
      if Enabled(s, a) then Next(s, a) else s
  }
}
