/**
 From an emit of the payload manager to what a stream consumer shows. The item manager is an observer of
 every content type; it is fed the deltas that the payload manager computes from its own collection.
 */
module Pipeline {
  import opened Lists
  import opened PayloadModel
  import opened PayloadManager
  import opened ItemStream

  function BatchesOf(emits: seq<Emit>): seq<seq<Payload>> {
    if emits == [] then [] else BatchesOf(emits[..|emits| - 1]) + [emits[|emits| - 1].emits]
  }

  /** The mirror after a list of notifications. */
  function FedMirror(mirror: Collection, seen: seq<ChangeData>): Collection {
    if seen == [] then mirror
    else Mirror(FedMirror(mirror, seen[..|seen| - 1]), seen[|seen| - 1].delta)
  }

  /** The consumer of a stream after the same notifications. */
  function FedView(view: Collection, types: set<ContentType>, seen: seq<ChangeData>): Collection {
    if seen == [] then view
    else AfterEmit(FedView(view, types, seen[..|seen| - 1]), types, seen[|seen| - 1].delta)
  }

  // ----- An observer of every type sees every delta whole

  lemma {:induction false} AnyTypeWantsAll(o: Observer, s: seq<Payload>)
    requires ANY_TYPE in o.types
    ensures Wanted(o.types, s) == s
  {
    FilterAll(s, IsWanted(o.types));
  }

  lemma {:induction false} AnyTypeSeesDelta(o: Observer, d: ChangeData)
    requires ANY_TYPE in o.types
    ensures WantedData(o, d) == d
  {
    AnyTypeWantsAll(o, d.delta.changed);
    AnyTypeWantsAll(o, d.delta.inserted);
    AnyTypeWantsAll(o, d.delta.discarded);
    AnyTypeWantsAll(o, d.delta.unerrored);
    AnyTypeWantsAll(o, d.ignored);
  }

  lemma {:induction false} AnyTypeSeesAll(o: Observer, deltas: seq<ChangeData>)
    requires ANY_TYPE in o.types
    ensures Expected(o, deltas) == deltas
  {
    if deltas != [] {
      var n := |deltas| - 1;
      AnyTypeSeesAll(o, deltas[..n]);
      AnyTypeSeesDelta(o, deltas[n]);
      ExpectedLast(o, deltas, deltas[n]);
      assert deltas == deltas[..n] + [deltas[n]];
    }
  }

  lemma {:induction false} ExpectedLast(o: Observer, deltas: seq<ChangeData>, last: ChangeData)
    requires deltas != [] && WantedData(o, deltas[|deltas| - 1]) == last
    ensures Expected(o, deltas) == Expected(o, deltas[..|deltas| - 1]) + [last]
  {
  }

  // ----- The deltas of the manager are those of the batches

  /** Folding emits is applying their batches, and what is fed along the way is what the batches give. */
  lemma {:induction false} FoldIsCollected(initial: Collection, types: set<ContentType>, emits: seq<Emit>)
    ensures var folded := FoldEmits(initial, emits);
      && folded.collection == Collected(initial, BatchesOf(emits))
      && FedMirror(initial, folded.deltas) == Mirrored(initial, BatchesOf(emits))
      && FedView(GetItems(initial, types), types, folded.deltas) == Streamed(initial, types, BatchesOf(emits))
  {
    if emits != [] {
      var n := |emits| - 1;
      var before := FoldEmits(initial, emits[..n]);
      var d := ChangeData(Apply(before.collection, emits[n].emits).delta, IgnoredOf(emits[n]));
      FoldIsCollected(initial, types, emits[..n]);
      FedNext(initial, GetItems(initial, types), types, before.deltas, d);
      BatchesNext(initial, types, BatchesOf(emits[..n]), emits[n].emits);
    }
  }

  lemma {:induction false} FedNext(mirror: Collection, view: Collection, types: set<ContentType>,
                                   seen: seq<ChangeData>, d: ChangeData)
    ensures FedMirror(mirror, seen + [d]) == Mirror(FedMirror(mirror, seen), d.delta)
    ensures FedView(view, types, seen + [d]) == AfterEmit(FedView(view, types, seen), types, d.delta)
  {
    assert (seen + [d])[..|seen|] == seen;
  }

  lemma {:induction false} BatchesNext(initial: Collection, types: set<ContentType>, batches: seq<seq<Payload>>,
                                       batch: seq<Payload>)
    ensures var applied := Apply(Collected(initial, batches), batch);
      && Collected(initial, batches + [batch]) == applied.collection
      && Mirrored(initial, batches + [batch]) == Mirror(Mirrored(initial, batches), applied.delta)
      && Streamed(initial, types, batches + [batch]) ==
           AfterEmit(Streamed(initial, types, batches), types, applied.delta)
  {
    assert (batches + [batch])[..|batches|] == batches;
  }

  lemma {:induction false} BatchesAreAsMany(emits: seq<Emit>)
    ensures |BatchesOf(emits)| == |emits|
  {
    if emits != [] {
      BatchesAreAsMany(emits[..|emits| - 1]);
    }
  }

  /**
   At every point of every drain, whatever re-entrant emits joined it: a mirror and a stream consumer that
   are fed what an observer of every type has seen equal the manager's own collection and its items.
   */
  lemma {:induction false} ObserverStaysInStep(manager: PayloadManager, k: nat, types: set<ContentType>)
    requires manager.Valid()
    requires DistinctIds(InOrder(manager.changeObservers)) && k < |InOrder(manager.changeObservers)|
    requires ANY_TYPE in InOrder(manager.changeObservers)[k].types
    requires Stable(manager.initial, BatchesOf(manager.done))
    ensures var seen := SeenBy(manager.callbacks, InOrder(manager.changeObservers)[k].id);
      && FedMirror(manager.initial, seen) == manager.collection
      && FedView(GetItems(manager.initial, types), types, seen) == GetItems(manager.collection, types)
  {
    var observers := InOrder(manager.changeObservers);
    var folded := FoldEmits(manager.initial, manager.done);
    EveryObserverSeesEveryEmitInOrder(observers, folded.deltas, k);
    AnyTypeSeesAll(observers[k], folded.deltas);
    FoldIsCollected(manager.initial, types, manager.done);
    StreamAlwaysShowsItsItems(manager.initial, types, BatchesOf(manager.done));
  }

  // ----- The item manager, fed one delta after the other

  lemma {:induction false} StableNeverEscapes(collection: Collection, batches: seq<seq<Payload>>,
                                              types: set<ContentType>, p: Payload)
    requires batches != [] && Stable(collection, batches) && p in Last(batches)
    ensures !Escapes(Collected(collection, batches[..|batches| - 1]), types, p)
  {
  }

  lemma {:induction false} StablePrefix(collection: Collection, batches: seq<seq<Payload>>, n: nat)
    requires Stable(collection, batches) && n <= |batches|
    ensures Stable(collection, batches[..n])
  {
    if n < |batches| {
      StablePrefix(collection, batches[..|batches| - 1], n);
      assert batches[..|batches| - 1][..n] == batches[..n];
    } else {
      assert batches[..n] == batches;
    }
  }

  /** The notifications of a stable run, delivered one after the other, keep the mirror and every stream in step. */
  method DeliverAll(items: ItemManager, deltas: seq<ChangeData>, ghost initial: Collection, ghost emits: seq<Emit>)
    requires items.InSync() && items.collection == initial
    requires deltas == FoldEmits(initial, emits).deltas && Stable(initial, BatchesOf(emits))
    modifies items
    ensures items.InSync() && items.collection == FoldEmits(initial, emits).collection
    ensures |items.observers| == |old(items.observers)|
    ensures forall k :: 0 <= k < |items.observers| ==> items.observers[k].types == old(items.observers)[k].types
  {
    ghost var batches := BatchesOf(emits);
    BatchesAreAsMany(emits);
    for n := 0 to |deltas|
      invariant items.InSync() && items.collection == Collected(initial, batches[..n])
      invariant |items.observers| == |old(items.observers)|
      invariant forall k :: 0 <= k < |items.observers| ==> items.observers[k].types == old(items.observers)[k].types
    {
      DeltaOfBatch(initial, emits, n);
      NextBatchIsStable(initial, batches, n);
      items.OnEmit(deltas[n].delta, Collected(initial, batches[..n]), batches[n]);
    }
    assert batches[..|deltas|] == batches;
    FoldIsCollected(initial, {}, emits);
  }

  lemma {:induction false} DeltaOfBatch(initial: Collection, emits: seq<Emit>, n: nat)
    requires n < |emits| == |BatchesOf(emits)|
    ensures FoldEmits(initial, emits).deltas[n].delta
         == Apply(Collected(initial, BatchesOf(emits)[..n]), BatchesOf(emits)[n]).delta
  {
    var last := |emits| - 1;
    BatchesAreAsMany(emits[..last]);
    if n < last {
      DeltaOfBatch(initial, emits[..last], n);
      assert BatchesOf(emits)[..n] == BatchesOf(emits[..last])[..n];
    } else {
      FoldIsCollected(initial, {}, emits[..last]);
      assert BatchesOf(emits)[..n] == BatchesOf(emits[..last]);
    }
  }

  lemma {:induction false} NextBatchIsStable(initial: Collection, batches: seq<seq<Payload>>, n: nat)
    requires Stable(initial, batches) && n < |batches|
    ensures DistinctUuids(batches[n])
    ensures forall types, p :: p in batches[n] ==> !Escapes(Collected(initial, batches[..n]), types, p)
    ensures Collected(initial, batches[..n + 1]) == Apply(Collected(initial, batches[..n]), batches[n]).collection
  {
    var upTo := batches[..n + 1];
    StablePrefix(initial, batches, n + 1);
    assert upTo[..n] == batches[..n] && Last(upTo) == batches[n];
    forall types, p | p in batches[n] ensures !Escapes(Collected(initial, batches[..n]), types, p) {
      StableNeverEscapes(initial, upTo, types, p);
    }
  }
}
