/**
 The item manager mirrors the master collection and feeds streams. A stream consumer that upserts
 what was changed or inserted and deletes what was removed always shows exactly the decrypted items
 of its content types.
 */
module ItemStream {
  import opened Lists
  import opened PayloadModel

  /** `getItems` */
  function GetItems(collection: Collection, types: set<ContentType>): Collection {
    map u | u in collection && collection[u].kind == Decrypted && Wants(types, collection[u]) :: collection[u]
  }

  /** What the observers of the item manager are told. */
  datatype UiDelta = UiDelta(changed: seq<Payload>, inserted: seq<Payload>, removed: seq<Payload>)

  function IsOfKind(kind: Kind): Payload -> bool {
    (p: Payload) => p.kind == kind
  }

  function OfKind(s: seq<Payload>, kind: Kind): seq<Payload> {
    Filter(s, IsOfKind(kind))
  }

  /** Deleted items and items that became encrypted count as removed; new encrypted items are not shown. */
  function UiAdjusted(d: Delta): UiDelta {
    UiDelta(OfKind(d.changed, Decrypted),
            OfKind(d.inserted, Decrypted),
            d.discarded + OfKind(d.changed, Deleted) + OfKind(d.inserted, Deleted) + OfKind(d.changed, Encrypted))
  }

  function ForTypes(ui: UiDelta, types: set<ContentType>): UiDelta {
    UiDelta(Wanted(types, ui.changed), Wanted(types, ui.inserted), Wanted(types, ui.removed))
  }

  /** The consumer at the end of a stream. */
  function Consume(view: Collection, ui: UiDelta): Collection {
    Upsert(Upsert(view, ui.changed), ui.inserted) - Uuids(ui.removed)
  }

  function AfterEmit(view: Collection, types: set<ContentType>, d: Delta): Collection {
    Consume(view, ForTypes(UiAdjusted(d), types))
  }

  lemma {:induction false} UpsertNone(view: Collection, s: seq<Payload>, u: Uuid)
    requires forall p :: p in s ==> p.uuid != u
    ensures SameAt(Upsert(view, s), view, u)
  {
    if s != [] {
      UpsertNone(view, s[..|s| - 1], u);
    }
  }

  lemma {:induction false} UpsertOnly(view: Collection, s: seq<Payload>, p: Payload)
    requires p in s && forall q :: q in s && q.uuid == p.uuid ==> q == p
    ensures p.uuid in Upsert(view, s) && Upsert(view, s)[p.uuid] == p
  {
    var n := |s| - 1;
    if s[n].uuid != p.uuid {
      assert p in s[..n];
      UpsertOnly(view, s[..n], p);
    }
  }

  /** The one payload that a batch without repeated uuids has for `u`, seen through the delta. */
  ghost predicate Sole(d: Delta, u: Uuid, own: seq<Payload>, known: bool) {
    if own == [] then
      forall p :: InDelta(d, p) ==> p.uuid != u
    else
      && |own| == 1 && own[0].uuid == u
      && (forall p :: InDelta(d, p) && p.uuid == u ==> p == own[0])
      && (own[0] in d.discarded <==> Discards(own[0]))
      && (own[0] in d.changed <==> !Discards(own[0]) && known)
      && (own[0] in d.inserted <==> !Discards(own[0]) && !known)
  }

  lemma {:induction false} DistinctBatchIsSole(collection: Collection, batch: seq<Payload>, u: Uuid)
    requires DistinctUuids(batch)
    ensures Sole(Apply(collection, batch).delta, u, For(batch, u), u in collection)
  {
    var d := Apply(collection, batch).delta;
    var own := For(batch, u);
    AtMostOne(batch, u);
    FilterMembers(batch, IsFor(u));
    forall p ensures InDelta(d, p) && p.uuid == u <==> p in own {
      DeltaMembers(collection, batch, p);
    }
    if own != [] {
      assert own[0] in own && own == [own[0]];
      ListsOfSole(collection, batch, own[0]);
    }
  }

  lemma {:induction false} ListsOfSole(collection: Collection, batch: seq<Payload>, p: Payload)
    requires For(batch, p.uuid) == [p]
    ensures var d := Apply(collection, batch).delta;
      && (p in d.discarded <==> Discards(p))
      && (p in d.changed <==> !Discards(p) && p.uuid in collection)
      && (p in d.inserted <==> !Discards(p) && p.uuid !in collection)
  {
    var d := Apply(collection, batch).delta;
    var u := p.uuid;
    assert p in For(batch, u);
    FilterMembers(batch, IsFor(u));
    DeltaMembers(collection, batch, p);
    DeltaForUuid(collection, batch, u);
    FilterMembers(d.changed, IsOf(u));
    FilterMembers(d.inserted, IsOf(u));
    assert [p][1..] == [] && [p][..0] == [];
    assert AnyDiscards([p]) <==> Discards(p);
    assert p in Of(d.changed, u) <==> p in d.changed;
    assert p in Of(d.inserted, u) <==> p in d.inserted;
  }

  /** The stream misses an item that leaves its content types. */
  predicate Escapes(collection: Collection, types: set<ContentType>, p: Payload) {
    && !Corrupt(p) && p.uuid in collection && collection[p.uuid].kind == Decrypted
    && Wants(types, collection[p.uuid]) && !Wants(types, p)
  }

  lemma {:induction false} ToldMembers(d: Delta, types: set<ContentType>)
    ensures var told := ForTypes(UiAdjusted(d), types);
      && (forall p :: p in told.changed <==> p in d.changed && p.kind == Decrypted && Wants(types, p))
      && (forall p :: p in told.inserted <==> p in d.inserted && p.kind == Decrypted && Wants(types, p))
      && (forall p :: p in told.removed <==> IsRemoved(d, p) && Wants(types, p))
  {
    var ui := UiAdjusted(d);
    FilterMembers(d.changed, IsOfKind(Decrypted));
    FilterMembers(d.inserted, IsOfKind(Decrypted));
    FilterMembers(ui.changed, IsWanted(types));
    FilterMembers(ui.inserted, IsWanted(types));
    FilterMembers(ui.removed, IsWanted(types));
    forall p ensures p in ui.removed <==> IsRemoved(d, p) {
      RemovedMembers(d, p);
    }
  }

  predicate IsRemoved(d: Delta, p: Payload) {
    || p in d.discarded
    || (p in d.changed && (p.kind == Deleted || p.kind == Encrypted))
    || (p in d.inserted && p.kind == Deleted)
  }

  lemma {:induction false} RemovedMembers(d: Delta, p: Payload)
    ensures p in UiAdjusted(d).removed <==> IsRemoved(d, p)
  {
    FilterMembers(d.changed, IsOfKind(Deleted));
    FilterMembers(d.inserted, IsOfKind(Deleted));
    FilterMembers(d.changed, IsOfKind(Encrypted));
  }

  lemma {:induction false} ConsumeAt(view: Collection, types: set<ContentType>, d: Delta, u: Uuid, own: seq<Payload>,
                                     known: bool)
    requires Sole(d, u, own, known)
    ensures var r := AfterEmit(view, types, d);
      if own == [] || !Wants(types, own[0]) || (own[0].kind == Encrypted && !known) then SameAt(r, view, u)
      else if own[0].kind == Decrypted then u in r && r[u] == own[0]
      else u !in r
  {
    var ui := UiAdjusted(d);
    var told := ForTypes(ui, types);
    ToldMembers(d, types);
    RemovedAt(told, u);
    if own != [] && own[0] in told.inserted {
      UpsertOnly(Upsert(view, told.changed), told.inserted, own[0]);
    } else {
      UpsertNone(Upsert(view, told.changed), told.inserted, u);
      if own != [] && own[0] in told.changed {
        UpsertOnly(view, told.changed, own[0]);
      } else {
        UpsertNone(view, told.changed, u);
      }
    }
  }

  lemma {:induction false} RemovedAt(ui: UiDelta, u: Uuid)
    ensures u in Uuids(ui.removed) <==> exists p :: p in ui.removed && p.uuid == u
  {
  }

  lemma {:induction false} StreamAt(collection: Collection, types: set<ContentType>, batch: seq<Payload>, u: Uuid)
    requires DistinctUuids(batch)
    ensures SameAt(AfterEmit(GetItems(collection, types), types, Apply(collection, batch).delta),
                   GetItems(Apply(collection, batch).collection, types), u)
      <==> (For(batch, u) == [] || !Escapes(collection, types, For(batch, u)[0]))
  {
    var own := For(batch, u);
    DistinctBatchIsSole(collection, batch, u);
    MasterKeepsLast(collection, batch, u);
    ConsumeAt(GetItems(collection, types), types, Apply(collection, batch).delta, u, own, u in collection);
    if own != [] {
      FirstFor(batch, u);
    }
  }

  /**
   A stream that shows its items before an emit shows its items after it exactly when no payload of
   the emit takes a shown item out of the content types of the stream.
   */
  lemma {:induction false} StreamStaysInSyncIff(collection: Collection, types: set<ContentType>, batch: seq<Payload>)
    requires DistinctUuids(batch)
    ensures AfterEmit(GetItems(collection, types), types, Apply(collection, batch).delta)
              == GetItems(Apply(collection, batch).collection, types)
      <==> forall p :: p in batch ==> !Escapes(collection, types, p)
  {
    var a := AfterEmit(GetItems(collection, types), types, Apply(collection, batch).delta);
    var b := GetItems(Apply(collection, batch).collection, types);
    forall u ensures SameAt(a, b, u) <==> (For(batch, u) == [] || !Escapes(collection, types, For(batch, u)[0])) {
      StreamAt(collection, types, batch, u);
    }
    SameEverywhere(a, b);
    if a == b {
      forall p | p in batch ensures !Escapes(collection, types, p) {
        assert SameAt(a, b, p.uuid);
        AtMostOne(batch, p.uuid);
        FilterMembers(batch, IsFor(p.uuid));
        if !Corrupt(p) {
          assert p in For(batch, p.uuid);
        }
      }
    }
    if forall p :: p in batch ==> !Escapes(collection, types, p) {
      forall u ensures SameAt(a, b, u) {
        if For(batch, u) != [] {
          FirstFor(batch, u);
        }
      }
    }
  }

  // ----- Whole runs

  /** Emits with distinct uuids that keep the content type of every known item. */
  ghost predicate Stable(collection: Collection, batches: seq<seq<Payload>>) {
    batches == [] ||
    (&& Stable(collection, batches[..|batches| - 1])
     && DistinctUuids(Last(batches))
     && forall p :: p in Last(batches) && !Corrupt(p) && p.uuid in Collected(collection, batches[..|batches| - 1]) ==>
          Collected(collection, batches[..|batches| - 1])[p.uuid].contentType == p.contentType)
  }

  /** The master collection after some emits. */
  function Collected(collection: Collection, batches: seq<seq<Payload>>): Collection {
    if batches == [] then collection
    else Apply(Collected(collection, batches[..|batches| - 1]), Last(batches)).collection
  }

  /** The mirror of the item manager after the same emits. */
  function Mirrored(collection: Collection, batches: seq<seq<Payload>>): Collection {
    if batches == [] then collection
    else Mirror(Mirrored(collection, batches[..|batches| - 1]),
                Apply(Collected(collection, batches[..|batches| - 1]), Last(batches)).delta)
  }

  /** A consumer that got the initial push and then the same emits. */
  function Streamed(collection: Collection, types: set<ContentType>, batches: seq<seq<Payload>>): Collection {
    if batches == [] then GetItems(collection, types)
    else AfterEmit(Streamed(collection, types, batches[..|batches| - 1]), types,
                   Apply(Collected(collection, batches[..|batches| - 1]), Last(batches)).delta)
  }

  /** At every point of every stable run, both mirrors agree with the master collection. */
  lemma {:induction false} StreamAlwaysShowsItsItems(collection: Collection, types: set<ContentType>,
                                                     batches: seq<seq<Payload>>)
    requires Stable(collection, batches)
    ensures Mirrored(collection, batches) == Collected(collection, batches)
    ensures Streamed(collection, types, batches) == GetItems(Collected(collection, batches), types)
  {
    if batches != [] {
      var earlier := batches[..|batches| - 1];
      StreamAlwaysShowsItsItems(collection, types, earlier);
      MirrorAgreesOnDistinctBatch(Collected(collection, earlier), Last(batches));
      StreamStaysInSyncIff(Collected(collection, earlier), types, Last(batches));
    }
  }

  // ----- The item manager

  datatype Stream = Stream(types: set<ContentType>, view: Collection)

  class ItemManager {
    var collection: Collection
    var observers: seq<Stream>

    constructor (collection: Collection)
      ensures this.collection == collection && observers == []
    {
      this.collection, this.observers := collection, [];
    }

    ghost predicate InSync()
      reads this
    {
      forall k :: 0 <= k < |observers| ==> observers[k].view == GetItems(collection, observers[k].types)
    }

    /** Register an observer, then push the present items as inserted. */
    method StreamItems(types: set<ContentType>)
      requires InSync()
      modifies this`observers
      ensures InSync() && |observers| == |old(observers)| + 1
      ensures observers[..|old(observers)|] == old(observers) && observers[|old(observers)|].types == types
    {
      observers := observers + [Stream(types, map[])];
      var matches := GetItems(collection, types);
      observers := observers[|observers| - 1 := Stream(types, matches)];
    }

    /** The observer of the payload manager: update the mirror, then tell every stream. */
    method SetPayloads(d: Delta)
      modifies this
      ensures collection == Mirror(old(collection), d)
      ensures |observers| == |old(observers)|
      ensures forall k :: 0 <= k < |observers| ==>
        observers[k] == Stream(old(observers)[k].types, AfterEmit(old(observers)[k].view, old(observers)[k].types, d))
    {
      collection := Upsert(Upsert(collection, d.changed), d.inserted) - Uuids(d.discarded);
      var ui := UiAdjusted(d);
      var frozenObservers := observers;
      for k := 0 to |frozenObservers|
        invariant |observers| == |frozenObservers|
        invariant collection == Mirror(old(collection), d)
        invariant forall i :: 0 <= i < k ==>
          observers[i] ==
            Stream(frozenObservers[i].types, AfterEmit(frozenObservers[i].view, frozenObservers[i].types, d))
        invariant forall i :: k <= i < |observers| ==> observers[i] == frozenObservers[i]
      {
        var stream := frozenObservers[k];
        var told := ForTypes(ui, stream.types);
        if told.changed == [] && told.inserted == [] && told.removed == [] {
          assert Consume(stream.view, told) == stream.view;
          continue;
        }
        observers := observers[k := Stream(stream.types, Consume(stream.view, told))];
      }
    }

    /**
     The notification of one emit: the delta comes from the master collection, which the mirror equals
     before it and equals again after it, as do all streams.
     */
    method OnEmit(d: Delta, ghost master: Collection, ghost batch: seq<Payload>)
      requires InSync() && collection == master
      requires DistinctUuids(batch) && d == Apply(master, batch).delta
      requires forall k, p :: 0 <= k < |observers| && p in batch ==> !Escapes(master, observers[k].types, p)
      modifies this
      ensures InSync() && collection == Apply(master, batch).collection
      ensures |observers| == |old(observers)|
      ensures forall k :: 0 <= k < |observers| ==> observers[k].types == old(observers)[k].types
    {
      MirrorAgreesOnDistinctBatch(master, batch);
      forall k | 0 <= k < |observers| {
        StreamStaysInSyncIff(master, observers[k].types, batch);
      }
      SetPayloads(d);
    }
  }
}
