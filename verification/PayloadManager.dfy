/**
 The payload manager: a queue of emits that is drained in order although observers may emit while
 they are being notified. What a notification provokes is carried by the emit itself, as a finite
 tree, so that every finitely re-entrant set of observers is covered.
 */
module PayloadManager {
  import opened Wrappers
  import opened Lists
  import opened PayloadModel
  import opened Sorting

  /** `reactions[k]` is what the `k`-th notified observer emits from inside its callback. */
  datatype Emit = Emit(emits: seq<Payload>, ignored: Option<seq<Payload>>, reactions: seq<Reaction>)

  datatype Reaction = Reaction(emits: seq<Emit>)

  datatype Observer = Observer(id: nat, types: set<ContentType>, priority: int)

  datatype ChangeData = ChangeData(delta: Delta, ignored: seq<Payload>)

  datatype Callback = Callback(observer: nat, data: ChangeData)

  // ----- The size of a tree of emits

  function Size(e: Emit): nat
    decreases e, 0
  {
    1 + ReactionsSize(e.reactions)
  }

  function ReactionsSize(reactions: seq<Reaction>): nat
    decreases reactions, 0
  {
    if reactions == [] then 0 else EmitsSize(reactions[0].emits) + ReactionsSize(reactions[1..])
  }

  function EmitsSize(emits: seq<Emit>): nat
    decreases emits, 0
  {
    if emits == [] then 0 else Size(emits[0]) + EmitsSize(emits[1..])
  }

  lemma {:induction false} SingleSize(e: Emit)
    ensures EmitsSize([e]) == Size(e)
  {
  }

  lemma {:induction false} SingleReactionSize(r: Reaction)
    ensures ReactionsSize([r]) == EmitsSize(r.emits)
  {
  }

  lemma {:induction false} EmitsSizeAppend(a: seq<Emit>, b: seq<Emit>)
    ensures EmitsSize(a + b) == EmitsSize(a) + EmitsSize(b)
  {
    if a == [] {
      assert a + b == b;
    } else {
      assert (a + b)[1..] == a[1..] + b;
      EmitsSizeAppend(a[1..], b);
    }
  }

  // ----- What is queued, applied, notified and resolved

  /** An emit with nothing in it is not queued. */
  predicate Skipped(e: Emit) {
    e.emits == [] && e.ignored == Some([])
  }

  function Queued(emits: seq<Emit>): seq<Emit> {
    if emits == [] then []
    else Queued(emits[..|emits| - 1]) + if Skipped(emits[|emits| - 1]) then [] else [emits[|emits| - 1]]
  }

  /** An emit that brings or ignores anything is queued; emits keep their order, and the others are left out. */
  lemma {:induction false} QueuedAre(emits: seq<Emit>, e: Emit)
    ensures e in Queued(emits) <==> e in emits && (e.emits != [] || e.ignored != Some([]))
    ensures (forall x :: x in emits ==> x.emits != [] || x.ignored != Some([])) ==> Queued(emits) == emits
  {
    if emits != [] {
      QueuedAre(emits[..|emits| - 1], e);
      assert emits == emits[..|emits| - 1] + [emits[|emits| - 1]];
    }
  }

  /** The emits that the first `n` observers provoke, in the order they are made. */
  function Provoked(reactions: seq<Reaction>, n: nat): seq<Emit> {
    if n == 0 then []
    else Provoked(reactions, n - 1) + if n <= |reactions| then Queued(reactions[n - 1].emits) else []
  }

  lemma {:induction false} QueuedSize(emits: seq<Emit>)
    ensures EmitsSize(Queued(emits)) <= EmitsSize(emits)
  {
    if emits != [] {
      var earlier, e := emits[..|emits| - 1], emits[|emits| - 1];
      QueuedSize(earlier);
      assert emits == earlier + [e];
      EmitsSizeAppend(earlier, [e]);
      if Skipped(e) {
        assert Queued(emits) == Queued(earlier);
      } else {
        assert Queued(emits) == Queued(earlier) + [e];
        EmitsSizeAppend(Queued(earlier), [e]);
      }
    }
  }

  lemma {:induction false} ReactionsSizeAppend(a: seq<Reaction>, b: seq<Reaction>)
    ensures ReactionsSize(a + b) == ReactionsSize(a) + ReactionsSize(b)
  {
    if a == [] {
      assert a + b == b;
    } else {
      assert (a + b)[1..] == a[1..] + b;
      ReactionsSizeAppend(a[1..], b);
    }
  }

  lemma {:induction false} ProvokedSize(reactions: seq<Reaction>, n: nat)
    ensures n <= |reactions| ==> EmitsSize(Provoked(reactions, n)) <= ReactionsSize(reactions[..n])
    ensures n > |reactions| ==> Provoked(reactions, n) == Provoked(reactions, |reactions|)
  {
    if 0 < n {
      ProvokedSize(reactions, n - 1);
      if n <= |reactions| {
        ProvokedSizeStep(reactions, n);
      }
    }
  }

  lemma {:induction false} ProvokedSizeStep(reactions: seq<Reaction>, n: nat)
    requires 0 < n <= |reactions|
    requires EmitsSize(Provoked(reactions, n - 1)) <= ReactionsSize(reactions[..n - 1])
    ensures EmitsSize(Provoked(reactions, n)) <= ReactionsSize(reactions[..n])
  {
    ReactionAddsSize(Provoked(reactions, n - 1), reactions[..n - 1], reactions[n - 1]);
    assert reactions[..n] == reactions[..n - 1] + [reactions[n - 1]];
  }

  lemma {:induction false} ReactionAddsSize(before: seq<Emit>, earlier: seq<Reaction>, r: Reaction)
    requires EmitsSize(before) <= ReactionsSize(earlier)
    ensures EmitsSize(before + Queued(r.emits)) <= ReactionsSize(earlier + [r])
  {
    QueuedSize(r.emits);
    EmitsSizeAppend(before, Queued(r.emits));
    ReactionsSizeAppend(earlier, [r]);
    SingleReactionSize(r);
  }

  /** Draining a queue: the first emit provokes others, which join the end. */
  function Drained(queue: seq<Emit>, observers: nat): seq<Emit>
    decreases EmitsSize(queue)
  {
    if queue == [] then []
    else
      ProvokedLess(queue, observers);
      var provoked := Provoked(queue[0].reactions, observers);
      provoked + Drained(queue[1..] + provoked, observers)
  }

  lemma {:induction false} ProvokedLess(queue: seq<Emit>, observers: nat)
    requires queue != []
    ensures EmitsSize(queue[1..] + Provoked(queue[0].reactions, observers)) < EmitsSize(queue)
  {
    var reactions := queue[0].reactions;
    var n := if observers <= |reactions| then observers else |reactions|;
    ProvokedSize(reactions, n);
    ProvokedSize(reactions, observers);
    EmitsSizeAppend(queue[1..], Provoked(reactions, observers));
    assert reactions == reactions[..n] + reactions[n..];
    ReactionsSizeAppend(reactions[..n], reactions[n..]);
  }

  /** What the emits provoke, one after the other. */
  function AllProvoked(emits: seq<Emit>, observers: nat): seq<Emit> {
    if emits == [] then [] else Provoked(emits[0].reactions, observers) + AllProvoked(emits[1..], observers)
  }

  /** What is drained after the queue is exactly what the queue and the drained emits provoke, in that order. */
  lemma {:induction false} NothingProvokedIsLost(queue: seq<Emit>, observers: nat)
    ensures Drained(queue, observers) == AllProvoked(queue + Drained(queue, observers), observers)
    decreases EmitsSize(queue)
  {
    if queue != [] {
      ProvokedLess(queue, observers);
      var provoked := Provoked(queue[0].reactions, observers);
      var rest := queue[1..] + provoked;
      var later := Drained(rest, observers);
      NothingProvokedIsLost(rest, observers);
      TailAfterPop([], queue, provoked + later);
      ConcatAssociates(queue[1..], provoked, later);
      assert queue + (provoked + later) == [queue[0]] + (rest + later);
      FirstProvokes(queue[0], rest + later, observers);
    }
  }

  lemma {:induction false} FirstProvokes(e: Emit, emits: seq<Emit>, observers: nat)
    ensures AllProvoked([e] + emits, observers) == Provoked(e.reactions, observers) + AllProvoked(emits, observers)
  {
    assert ([e] + emits)[1..] == emits;
  }

  datatype Folded = Folded(collection: Collection, deltas: seq<ChangeData>)

  /** Applying the emits one after the other, in the order they were queued. */
  function FoldEmits(collection: Collection, emits: seq<Emit>): (r: Folded)
    ensures |r.deltas| == |emits|
  {
    if emits == [] then Folded(collection, [])
    else
      var before := FoldEmits(collection, emits[..|emits| - 1]);
      var e := emits[|emits| - 1];
      var applied := Apply(before.collection, e.emits);
      Folded(applied.collection, before.deltas + [ChangeData(applied.delta, IgnoredOf(e))])
  }

  function IgnoredOf(e: Emit): seq<Payload> {
    if e.ignored.Some? then e.ignored.value else []
  }

  // ----- Observers

  predicate Earlier(a: Observer, b: Observer) {
    a.priority <= b.priority
  }

  function InOrder(observers: seq<Observer>): seq<Observer> {
    Sort(observers, Earlier)
  }

  function WantedData(o: Observer, d: ChangeData): ChangeData {
    ChangeData(Delta(Wanted(o.types, d.delta.changed), Wanted(o.types, d.delta.inserted),
                     Wanted(o.types, d.delta.discarded), Wanted(o.types, d.delta.unerrored)),
               Wanted(o.types, d.ignored))
  }

  function CallbackFor(o: Observer, d: ChangeData): Callback {
    Callback(o.id, WantedData(o, d))
  }

  function Round(observers: seq<Observer>, d: ChangeData): (r: seq<Callback>)
    ensures |r| == |observers|
    ensures forall k :: 0 <= k < |r| ==> r[k] == CallbackFor(observers[k], d)
  {
    seq(|observers|, k requires 0 <= k < |observers| => CallbackFor(observers[k], d))
  }

  /** One round of callbacks per emit, in the order of the emits. */
  function Rounds(observers: seq<Observer>, deltas: seq<ChangeData>): seq<Callback> {
    if deltas == [] then []
    else Rounds(observers, deltas[..|deltas| - 1]) + Round(observers, deltas[|deltas| - 1])
  }

  function Results(d: ChangeData): seq<Payload> {
    d.delta.changed + d.delta.inserted + d.delta.discarded
  }

  function AllResults(deltas: seq<ChangeData>): seq<seq<Payload>> {
    if deltas == [] then [] else AllResults(deltas[..|deltas| - 1]) + [Results(deltas[|deltas| - 1])]
  }

  function SeenBy(callbacks: seq<Callback>, id: nat): seq<ChangeData> {
    if callbacks == [] then []
    else
      var c := callbacks[|callbacks| - 1];
      SeenBy(callbacks[..|callbacks| - 1], id) + if c.observer == id then [c.data] else []
  }

  lemma {:induction false} SeenByAppend(a: seq<Callback>, b: seq<Callback>, id: nat)
    ensures SeenBy(a + b, id) == SeenBy(a, id) + SeenBy(b, id)
  {
    if b == [] {
      assert a + b == a;
    } else {
      assert (a + b)[..|a + b| - 1] == a + b[..|b| - 1];
      SeenByAppend(a, b[..|b| - 1], id);
    }
  }

  ghost predicate DistinctIds(observers: seq<Observer>) {
    forall i, j :: 0 <= i < j < |observers| ==> observers[i].id != observers[j].id
  }

  ghost predicate DistinctCallbacks(callbacks: seq<Callback>) {
    forall i, j :: 0 <= i < j < |callbacks| ==> callbacks[i].observer != callbacks[j].observer
  }

  lemma {:induction false} SeenOnce(callbacks: seq<Callback>, k: nat, n: nat)
    requires DistinctCallbacks(callbacks) && k < |callbacks| && n <= |callbacks|
    ensures SeenBy(callbacks[..n], callbacks[k].observer) == if k < n then [callbacks[k].data] else []
  {
    if n > 0 {
      SeenOnce(callbacks, k, n - 1);
      assert callbacks[..n] == callbacks[..n - 1] + [callbacks[n - 1]];
      SeenNext(callbacks[..n - 1], callbacks[n - 1], callbacks[k].observer);
    }
  }

  lemma {:induction false} SeenNext(callbacks: seq<Callback>, c: Callback, id: nat)
    ensures SeenBy(callbacks + [c], id) == SeenBy(callbacks, id) + if c.observer == id then [c.data] else []
  {
    assert (callbacks + [c])[..|callbacks|] == callbacks;
  }

  /** What one observer should see: its part of every delta, in order. */
  function Expected(o: Observer, deltas: seq<ChangeData>): (r: seq<ChangeData>)
    ensures |r| == |deltas|
  {
    if deltas == [] then []
    else Expected(o, deltas[..|deltas| - 1]) + [WantedData(o, deltas[|deltas| - 1])]
  }

  /** Every observer gets exactly one callback per emit, in the order of the emits. */
  lemma {:induction false} EveryObserverSeesEveryEmitInOrder(observers: seq<Observer>, deltas: seq<ChangeData>, k: nat)
    requires DistinctIds(observers) && k < |observers|
    ensures SeenBy(Rounds(observers, deltas), observers[k].id) == Expected(observers[k], deltas)
  {
    if deltas != [] {
      var n := |deltas| - 1;
      EveryObserverSeesEveryEmitInOrder(observers, deltas[..n], k);
      OneCallbackPerRound(observers, deltas[n], k);
      SeenByAppend(Rounds(observers, deltas[..n]), Round(observers, deltas[n]), observers[k].id);
    }
  }

  lemma {:induction false} OneCallbackPerRound(observers: seq<Observer>, d: ChangeData, k: nat)
    requires DistinctIds(observers) && k < |observers|
    ensures SeenBy(Round(observers, d), observers[k].id) == [WantedData(observers[k], d)]
  {
    var round := Round(observers, d);
    assert round[k] == CallbackFor(observers[k], d);
    SeenOnce(round, k, |round|);
    assert round[..|round|] == round;
  }

  // ----- What the emits say

  lemma {:induction false} FoldNext(collection: Collection, emits: seq<Emit>)
    requires emits != []
    ensures var before := FoldEmits(collection, emits[..|emits| - 1]);
      var deltas := FoldEmits(collection, emits).deltas;
      && deltas[..|emits| - 1] == before.deltas
      && deltas[|emits| - 1] ==
           ChangeData(Apply(before.collection, emits[|emits| - 1].emits).delta, IgnoredOf(emits[|emits| - 1]))
  {
  }

  /** Delta `k` comes from the payloads of emit `k`, applied to what the earlier emits have left. */
  lemma {:induction false} DeltaOfEmit(collection: Collection, emits: seq<Emit>, k: nat)
    requires k < |emits|
    ensures FoldEmits(collection, emits).deltas[k] ==
      ChangeData(Apply(FoldEmits(collection, emits[..k]).collection, emits[k].emits).delta, IgnoredOf(emits[k]))
  {
    var n := |emits| - 1;
    FoldNext(collection, emits);
    if k < n {
      DeltaOfEmit(collection, emits[..n], k);
      assert emits[..n][..k] == emits[..k];
      assert FoldEmits(collection, emits).deltas[..n][k] == FoldEmits(collection, emits).deltas[k];
    }
  }

  lemma {:induction false} AllResultsAt(deltas: seq<ChangeData>, k: nat)
    requires k < |deltas|
    ensures |AllResults(deltas)| == |deltas| && AllResults(deltas)[k] == Results(deltas[k])
  {
    var n := |deltas| - 1;
    if k < n {
      AllResultsAt(deltas[..n], k);
    } else if n > 0 {
      AllResultsAt(deltas[..n], 0);
    }
  }

  /** Every emit is resolved with exactly those of its payloads that are not corrupt, each as often as it came. */
  lemma {:induction false} ResolvedWithItsPayloads(collection: Collection, emits: seq<Emit>, k: nat)
    requires k < |emits|
    ensures var resolved := AllResults(FoldEmits(collection, emits).deltas);
      |resolved| == |emits| && multiset(resolved[k]) == multiset(Intact(emits[k].emits))
  {
    var deltas := FoldEmits(collection, emits).deltas;
    AllResultsAt(deltas, k);
    DeltaOfEmit(collection, emits, k);
    DeltaPartitionsBatch(FoldEmits(collection, emits[..k]).collection, emits[k].emits);
    var d := deltas[k].delta;
    assert multiset(Results(deltas[k])) == multiset(d.changed) + multiset(d.inserted) + multiset(d.discarded);
  }

  lemma {:induction false} ExpectedAt(o: Observer, deltas: seq<ChangeData>, k: nat)
    requires k < |deltas|
    ensures Expected(o, deltas)[k] == WantedData(o, deltas[k])
  {
    if k < |deltas| - 1 {
      ExpectedAt(o, deltas[..|deltas| - 1], k);
    }
  }

  ghost predicate OfItsTypes(o: Observer, p: Payload) {
    "*" in o.types || p.contentType in o.types
  }

  lemma {:induction false} WantedMembers(o: Observer, d: ChangeData, p: Payload)
    ensures var told := WantedData(o, d);
      && (InDelta(told.delta, p) <==> InDelta(d.delta, p) && OfItsTypes(o, p))
      && (p in told.delta.discarded <==> p in d.delta.discarded && OfItsTypes(o, p))
      && (p in told.delta.unerrored <==> p in d.delta.unerrored && OfItsTypes(o, p))
      && (p in told.ignored <==> p in d.ignored && OfItsTypes(o, p))
  {
    FilterMembers(d.delta.changed, IsWanted(o.types));
    FilterMembers(d.delta.inserted, IsWanted(o.types));
    FilterMembers(d.delta.discarded, IsWanted(o.types));
    FilterMembers(d.delta.unerrored, IsWanted(o.types));
    FilterMembers(d.ignored, IsWanted(o.types));
  }

  lemma {:induction false} InsertKeepsIds(observers: seq<Observer>, o: Observer)
    requires DistinctIds(observers) && forall p :: p in observers ==> p.id != o.id
    ensures DistinctIds(Insert(observers, o, Earlier))
  {
    if observers != [] && !Earlier(observers[|observers| - 1], o) {
      var n := |observers| - 1;
      InsertKeepsIds(observers[..n], o);
      InsertMembers(observers[..n], o, Earlier);
      forall p | p in Insert(observers[..n], o, Earlier) ensures p.id != observers[n].id {
        if p != o {
          assert p in observers[..n];
        }
      }
    }
  }

  lemma {:induction false} OrderKeepsIds(observers: seq<Observer>)
    requires DistinctIds(observers)
    ensures DistinctIds(InOrder(observers))
  {
    if observers != [] {
      var n := |observers| - 1;
      OrderKeepsIds(observers[..n]);
      SortMembers(observers[..n], Earlier);
      InsertKeepsIds(InOrder(observers[..n]), observers[n]);
    }
  }

  /**
   At emit `k` an observer is told of exactly those payloads of the emit that are not corrupt and are of its content
   types, as discarded if they are deleted for good, and of the ignored ones of its types.
   */
  lemma {:induction false} ObserverIsToldOfItsTypes(observers: seq<Observer>, o: Observer, collection: Collection,
                                                    emits: seq<Emit>, k: nat, p: Payload)
    requires DistinctIds(observers) && o in observers && k < |emits|
    ensures var seen := SeenBy(Rounds(InOrder(observers), FoldEmits(collection, emits).deltas), o.id);
      && |seen| == |emits|
      && (InDelta(seen[k].delta, p) <==>
            p in emits[k].emits && p.uuid != "" && p.contentType != "" && OfItsTypes(o, p))
      && (p in seen[k].delta.discarded ==> p.kind == Deleted && p.discardable)
      && (p in seen[k].delta.changed + seen[k].delta.inserted ==> !(p.kind == Deleted && p.discardable))
      && (p in seen[k].ignored <==> emits[k].ignored.Some? && p in emits[k].ignored.value && OfItsTypes(o, p))
  {
    var deltas := FoldEmits(collection, emits).deltas;
    OrderKeepsIds(observers);
    SortMembers(observers, Earlier);
    var i :| 0 <= i < |InOrder(observers)| && InOrder(observers)[i] == o;
    EveryObserverSeesEveryEmitInOrder(InOrder(observers), deltas, i);
    ExpectedAt(o, deltas, k);
    DeltaOfEmit(collection, emits, k);
    WantedMembers(o, deltas[k], p);
    DeltaMembers(FoldEmits(collection, emits[..k]).collection, emits[k].emits, p);
    KeptMembers(o, deltas[k], p);
  }

  lemma {:induction false} KeptMembers(o: Observer, d: ChangeData, p: Payload)
    ensures p in WantedData(o, d).delta.changed ==> p in d.delta.changed
    ensures p in WantedData(o, d).delta.inserted ==> p in d.delta.inserted
  {
    FilterMembers(d.delta.changed, IsWanted(o.types));
    FilterMembers(d.delta.inserted, IsWanted(o.types));
  }

  /** In every round, whoever has the lower priority number is called first. */
  lemma {:induction false} CalledByPriority(observers: seq<Observer>, a: Observer, b: Observer, d: ChangeData)
    returns (i: nat, j: nat)
    requires a in observers && b in observers && a.priority < b.priority
    ensures i < j < |Round(InOrder(observers), d)|
    ensures Round(InOrder(observers), d)[i].observer == a.id && Round(InOrder(observers), d)[j].observer == b.id
  {
    SortMembers(observers, Earlier);
    SortSorts(observers, Earlier);
    var ordered := InOrder(observers);
    i :| i < |ordered| && ordered[i] == a;
    j :| j < |ordered| && ordered[j] == b;
    assert j < i ==> Earlier(ordered[j], ordered[i]);
  }

  // ----- The manager

  class PayloadManager {
    var collection: Collection
    var emitQueue: seq<Emit>
    var changeObservers: seq<Observer>

    ghost const initial: Collection
    /** Every emit ever queued, those that left the queue, every callback, and what each emit was resolved with. */
    ghost var queued: seq<Emit>
    ghost var done: seq<Emit>
    ghost var callbacks: seq<Callback>
    ghost var resolved: seq<seq<Payload>>

    /** The state is the one after the emits that left the queue, in the order they were queued. */
    ghost predicate Processed()
      reads this
    {
      var folded := FoldEmits(initial, done);
      && collection == folded.collection
      && callbacks == Rounds(InOrder(changeObservers), folded.deltas)
      && resolved == AllResults(folded.deltas)
    }

    ghost predicate Valid()
      reads this
    {
      queued == done + emitQueue && Processed()
    }

    /** Whatever was emitted, every emit that left the queue was resolved with its own payloads. */
    lemma {:induction false} ValidResolves()
      requires Valid()
      ensures |resolved| == |done|
      ensures forall k :: 0 <= k < |done| ==> multiset(resolved[k]) == multiset(Intact(done[k].emits))
    {
      forall k | 0 <= k < |done|
        ensures |resolved| == |done| && multiset(resolved[k]) == multiset(Intact(done[k].emits))
      {
        ResolvedWithItsPayloads(initial, done, k);
      }
    }

    constructor (observers: seq<Observer>, initial: Collection)
      ensures Valid() && emitQueue == [] && queued == []
      ensures this.initial == initial && changeObservers == observers
    {
      this.collection, this.initial, this.changeObservers := initial, initial, observers;
      this.emitQueue, this.queued, this.done, this.callbacks, this.resolved := [], [], [], [], [];
    }

    /**
     From outside, the queue is drained before the call returns; from inside a callback the emit
     only joins the queue.
     */
    method EmitDeltaEmit(e: Emit)
      requires emitQueue == [] ==> Valid()
      modifies this
      ensures changeObservers == old(changeObservers)
      ensures e.emits == [] && e.ignored == Some([]) ==>
        emitQueue == old(emitQueue) && queued == old(queued) && collection == old(collection)
        && callbacks == old(callbacks) && resolved == old(resolved) && done == old(done)
      ensures (e.emits != [] || e.ignored != Some([])) && old(emitQueue) != [] ==>
        emitQueue == old(emitQueue) + [e] && queued == old(queued) + [e] && collection == old(collection)
        && callbacks == old(callbacks) && resolved == old(resolved) && done == old(done)
      ensures (e.emits != [] || e.ignored != Some([])) && old(emitQueue) == [] ==>
        Valid() && emitQueue == []
        && queued == old(queued) + [e] + Drained([e], |old(changeObservers)|)
      decreases Size(e), 6
    {
      if |e.emits| == 0 && e.ignored.Some? && |e.ignored.value| == 0 {
        return;
      }
      emitQueue := emitQueue + [e];
      queued := queued + [e];
      if |emitQueue| == 1 {
        assert emitQueue == [e];
        SingleSize(e);
        PopQueue();
      }
    }

    method PopQueue()
      requires Valid() && emitQueue != []
      modifies this
      ensures Valid() && emitQueue == [] && changeObservers == old(changeObservers)
      ensures queued == old(queued) + Drained(old(emitQueue), |old(changeObservers)|)
      decreases EmitsSize(emitQueue), 5
    {
      ghost var before := emitQueue;
      ghost var n := |changeObservers|;
      ProvokedLess(before, n);
      ProcessFirst();
      ConcatAssociates(old(queued), Provoked(before[0].reactions, n), Drained(emitQueue, n));
      if |emitQueue| > 0 {
        PopQueue();
      }
    }

    /** Apply the first emit, notify everybody, take it off the queue and resolve it. */
    method ProcessFirst()
      requires Valid() && emitQueue != []
      modifies this
      ensures Valid() && changeObservers == old(changeObservers)
      ensures var provoked := Provoked(old(emitQueue)[0].reactions, |old(changeObservers)|);
        emitQueue == old(emitQueue)[1..] + provoked && queued == old(queued) + provoked
      decreases EmitsSize(emitQueue), 4
    {
      var first := emitQueue[0];
      ghost var before := emitQueue;
      ghost var provoked := Provoked(first.reactions, |changeObservers|);

      var delta := ApplyPayloads(first.emits);
      var data := ChangeData(delta, if first.ignored.Some? then first.ignored.value else []);
      NotifyChangeObservers(first, data);

      TailAfterPop(done, before, provoked);
      ConcatAssociates(done, before, provoked);
      ResolveFirst(first, data);
    }

    /** Take the emit off the queue and resolve it with what it changed. */
    method ResolveFirst(first: Emit, data: ChangeData)
      requires emitQueue != [] && emitQueue[0] == first && queued == done + emitQueue
      requires var folded := FoldEmits(initial, done);
        && Applied(collection, data.delta) == Apply(folded.collection, first.emits) && data.ignored == IgnoredOf(first)
        && callbacks == Rounds(InOrder(changeObservers), folded.deltas) + Round(InOrder(changeObservers), data)
        && resolved == AllResults(folded.deltas)
      modifies this`emitQueue, this`resolved, this`done
      ensures Valid() && emitQueue == old(emitQueue)[1..]
    {
      HeadLeaves(done, emitQueue);
      RemoveFromQueue(first);
      resolved := resolved + [data.delta.changed + data.delta.inserted + data.delta.discarded];
      done := done + [first];
      ProcessedGrows(old(done), first, data);
    }

    method RemoveFromQueue(first: Emit)
      requires emitQueue != [] && emitQueue[0] == first
      modifies this`emitQueue
      ensures emitQueue == old(emitQueue)[1..]
    {
      emitQueue := RemoveFirst(emitQueue, first);
    }

    lemma {:induction false} ProcessedGrows(earlier: seq<Emit>, first: Emit, data: ChangeData)
      requires done == earlier + [first]
      requires var folded := FoldEmits(initial, earlier);
        && Applied(collection, data.delta) == Apply(folded.collection, first.emits) && data.ignored == IgnoredOf(first)
        && callbacks == Rounds(InOrder(changeObservers), folded.deltas) + Round(InOrder(changeObservers), data)
        && resolved == AllResults(folded.deltas) + [Results(data)]
      ensures Processed()
    {
      var folded := FoldEmits(initial, earlier);
      assert done[..|done| - 1] == earlier;
      assert (folded.deltas + [data])[..|folded.deltas|] == folded.deltas;
    }

    /** The loop that fills the four lists of the delta while it updates the collection. */
    method ApplyPayloads(applyPayloads: seq<Payload>) returns (delta: Delta)
      modifies this`collection
      ensures Applied(collection, delta) == Apply(old(collection), applyPayloads)
    {
      var changed, inserted, discarded, unerrored := [], [], [], [];
      for i := 0 to |applyPayloads|
        invariant Applied(collection, Delta(changed, inserted, discarded, unerrored)) ==
          Apply(old(collection), applyPayloads[..i])
      {
        var apply := applyPayloads[i];
        assert applyPayloads[..i + 1][..i] == applyPayloads[..i];
        if apply.uuid == "" || apply.contentType == "" {
          continue;
        }
        if apply.kind == Deleted && apply.discardable {
          collection := collection - {apply.uuid};
          discarded := discarded + [apply];
        } else {
          var known := apply.uuid in collection;
          var unerrors := known && collection[apply.uuid].kind == Encrypted && apply.kind == Decrypted;
          collection := collection[apply.uuid := apply];
          if known {
            changed := changed + [apply];
            if unerrors {
              unerrored := unerrored + [apply];
            }
          } else {
            inserted := inserted + [apply];
          }
        }
      }
      assert applyPayloads[..|applyPayloads|] == applyPayloads;
      delta := Delta(changed, inserted, discarded, unerrored);
    }

    /** Every observer is called once; what it emits from inside its callback joins the queue. */
    method NotifyChangeObservers(first: Emit, data: ChangeData)
      requires emitQueue != []
      modifies this
      ensures collection == old(collection) && resolved == old(resolved) && done == old(done)
      ensures changeObservers == old(changeObservers)
      ensures callbacks == old(callbacks) + Round(InOrder(changeObservers), data)
      ensures emitQueue == old(emitQueue) + Provoked(first.reactions, |changeObservers|)
      ensures queued == old(queued) + Provoked(first.reactions, |changeObservers|)
      decreases Size(first), 3
    {
      var observers := SortByPriority();
      CallEach(observers, first, data);
    }

    method SortByPriority() returns (observers: seq<Observer>)
      ensures observers == InOrder(changeObservers) && |observers| == |changeObservers|
    {
      observers := InOrder(changeObservers);
      SortLength(changeObservers, Earlier);
    }

    method CallEach(observers: seq<Observer>, first: Emit, data: ChangeData)
      requires emitQueue != []
      modifies this
      ensures collection == old(collection) && resolved == old(resolved) && done == old(done)
      ensures changeObservers == old(changeObservers)
      ensures callbacks == old(callbacks) + Round(observers, data)
      ensures emitQueue == old(emitQueue) + Provoked(first.reactions, |observers|)
      ensures queued == old(queued) + Provoked(first.reactions, |observers|)
      decreases Size(first), 2
    {
      ghost var round := Round(observers, data);
      for k := 0 to |observers|
        invariant collection == old(collection) && resolved == old(resolved) && done == old(done)
        invariant changeObservers == old(changeObservers)
        invariant callbacks == old(callbacks) + round[..k]
        invariant emitQueue == old(emitQueue) + Provoked(first.reactions, k)
        invariant queued == old(queued) + Provoked(first.reactions, k)
      {
        callbacks := callbacks + [CallbackFor(observers[k], data)];
        assert round[..k + 1] == round[..k] + [round[k]];
        ConcatAssociates(old(callbacks), round[..k], [round[k]]);
        ghost var more := Provoked(first.reactions, k);
        if k < |first.reactions| {
          React(first, k);
          ConcatAssociates(old(queued), more, Queued(first.reactions[k].emits));
          ConcatAssociates(old(emitQueue), more, Queued(first.reactions[k].emits));
        } else {
          assert Provoked(first.reactions, k + 1) == more;
        }
      }
      assert round[..|observers|] == round;
    }

    /** The emits that one observer makes from inside its callback. */
    method React(first: Emit, k: nat)
      requires emitQueue != [] && k < |first.reactions|
      modifies this
      ensures collection == old(collection) && resolved == old(resolved) && done == old(done)
      ensures changeObservers == old(changeObservers)
      ensures callbacks == old(callbacks)
      ensures emitQueue == old(emitQueue) + Queued(first.reactions[k].emits)
      ensures queued == old(queued) + Queued(first.reactions[k].emits)
      decreases Size(first), 1
    {
      var emits := first.reactions[k].emits;
      for i := 0 to |emits|
        invariant collection == old(collection) && resolved == old(resolved) && done == old(done)
        invariant changeObservers == old(changeObservers)
        invariant callbacks == old(callbacks)
        invariant emitQueue == old(emitQueue) + Queued(emits[..i])
        invariant queued == old(queued) + Queued(emits[..i])
      {
        ReactionIsSmaller(first, k, i);
        assert emits[..i + 1][..i] == emits[..i];
        EmitDeltaEmit(emits[i]);
      }
      assert emits[..|emits|] == emits;
    }
  }

  lemma {:induction false} ReactionIsSmaller(e: Emit, k: nat, i: nat)
    requires k < |e.reactions| && i < |e.reactions[k].emits|
    ensures Size(e.reactions[k].emits[i]) < Size(e)
  {
    var r, emits := e.reactions, e.reactions[k].emits;
    assert r == r[..k] + ([r[k]] + r[k + 1..]);
    ReactionsSizeAppend(r[..k], [r[k]] + r[k + 1..]);
    assert emits == emits[..i] + ([emits[i]] + emits[i + 1..]);
    EmitsSizeAppend(emits[..i], [emits[i]] + emits[i + 1..]);
  }
}
