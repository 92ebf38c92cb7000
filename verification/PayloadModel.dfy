/** How a batch of payloads changes the master collection, and what a mirror can learn from its delta. */
module PayloadModel {
  import opened Lists

  type Uuid = string
  type ContentType = string

  datatype Kind = Decrypted | Encrypted | Deleted

  datatype Payload = Payload(uuid: Uuid, contentType: ContentType, kind: Kind, discardable: bool, body: string)

  type Collection = map<Uuid, Payload>

  datatype Delta =
    Delta(changed: seq<Payload>, inserted: seq<Payload>, discarded: seq<Payload>, unerrored: seq<Payload>)

  datatype Applied = Applied(collection: Collection, delta: Delta)

  predicate Corrupt(p: Payload) {
    p.uuid == "" || p.contentType == ""
  }

  predicate Discards(p: Payload) {
    p.kind == Deleted && p.discardable
  }

  function ApplyOne(before: Applied, p: Payload): Applied {
    var Applied(collection, delta) := before;
    if Corrupt(p) then before
    else if Discards(p) then
      Applied(collection - {p.uuid}, delta.(discarded := delta.discarded + [p]))
    else if p.uuid !in collection then
      Applied(collection[p.uuid := p], delta.(inserted := delta.inserted + [p]))
    else
      var unerrors := collection[p.uuid].kind == Encrypted && p.kind == Decrypted;
      Applied(collection[p.uuid := p],
              delta.(changed := delta.changed + [p],
                     unerrored := delta.unerrored + if unerrors then [p] else []))
  }

  const NO_DELTA := Delta([], [], [], [])

  /** `applyPayloads`: one payload after the other. */
  function Apply(collection: Collection, batch: seq<Payload>): Applied {
    if batch == [] then Applied(collection, NO_DELTA)
    else ApplyOne(Apply(collection, batch[..|batch| - 1]), batch[|batch| - 1])
  }

  // ----- The lists of the delta partition the batch

  predicate IsIntact(p: Payload) {
    !Corrupt(p)
  }

  function Intact(batch: seq<Payload>): seq<Payload> {
    Filter(batch, IsIntact)
  }

  ghost predicate Partitions(d: Delta, intact: multiset<Payload>) {
    && multiset(d.changed) + multiset(d.inserted) + multiset(d.discarded) == intact
    && multiset(d.unerrored) <= multiset(d.changed)
    && (forall p :: p in d.discarded ==> Discards(p))
    && (forall p :: p in d.changed ==> !Discards(p))
    && (forall p :: p in d.inserted ==> !Discards(p))
    && (forall p :: p in d.unerrored ==> p.kind == Decrypted)
  }

  lemma {:induction false} ApplyOnePartitions(before: Applied, p: Payload, intact: multiset<Payload>)
    requires Partitions(before.delta, intact) && !Corrupt(p)
    ensures Partitions(ApplyOne(before, p).delta, intact + multiset{p})
  {
    var d, d' := before.delta, ApplyOne(before, p).delta;
    if Discards(p) {
      assert d'.changed == d.changed && d'.inserted == d.inserted;
      assert multiset(d'.discarded) == multiset(d.discarded) + multiset{p};
    } else if p.uuid !in before.collection {
      assert d'.changed == d.changed && d'.discarded == d.discarded;
      assert multiset(d'.inserted) == multiset(d.inserted) + multiset{p};
    } else {
      assert d'.inserted == d.inserted && d'.discarded == d.discarded;
      assert multiset(d'.changed) == multiset(d.changed) + multiset{p};
      assert d'.unerrored == d.unerrored || d'.unerrored == d.unerrored + [p];
    }
  }

  /** Every non-corrupt payload is in exactly one of the three lists; the unerrored ones were changed. */
  lemma {:induction false} DeltaPartitionsBatch(collection: Collection, batch: seq<Payload>)
    ensures Partitions(Apply(collection, batch).delta, multiset(Intact(batch)))
  {
    if batch != [] {
      var n := |batch| - 1;
      DeltaPartitionsBatch(collection, batch[..n]);
      FilterLast(batch, IsIntact);
      if !Corrupt(batch[n]) {
        ApplyOnePartitions(Apply(collection, batch[..n]), batch[n], multiset(Intact(batch[..n])));
      }
    }
  }

  predicate InDelta(d: Delta, p: Payload) {
    p in d.changed || p in d.inserted || p in d.discarded
  }

  /** The lists of the delta hold the non-corrupt payloads, and the discards are in the third. */
  lemma {:induction false} DeltaMembers(collection: Collection, batch: seq<Payload>, p: Payload)
    ensures var d := Apply(collection, batch).delta;
      && (InDelta(d, p) <==> p in batch && !Corrupt(p))
      && (p in d.discarded ==> Discards(p))
      && (p in d.changed || p in d.inserted ==> !Discards(p))
  {
    var d := Apply(collection, batch).delta;
    DeltaPartitionsBatch(collection, batch);
    FilterMembers(batch, IsIntact);
    assert p in Intact(batch) <==> p in batch && IsIntact(p);
    assert p in multiset(d.changed) + multiset(d.inserted) + multiset(d.discarded) <==> p in multiset(Intact(batch));
  }

  // ----- What the batch says about one uuid

  function IsOf(u: Uuid): Payload -> bool {
    (p: Payload) => p.uuid == u
  }

  function IsFor(u: Uuid): Payload -> bool {
    (p: Payload) => !Corrupt(p) && p.uuid == u
  }

  function Of(s: seq<Payload>, u: Uuid): seq<Payload> {
    Filter(s, IsOf(u))
  }

  /** The payloads of a batch that apply to one uuid, in order. */
  function For(batch: seq<Payload>, u: Uuid): seq<Payload> {
    Filter(batch, IsFor(u))
  }

  lemma {:induction false} FirstFor(batch: seq<Payload>, u: Uuid)
    requires For(batch, u) != []
    ensures var p := For(batch, u)[0]; p in batch && !Corrupt(p) && p.uuid == u
  {
    FilterMembers(batch, IsFor(u));
    assert For(batch, u)[0] in For(batch, u);
  }

  function Last<T>(s: seq<T>): T
    requires s != []
  {
    s[|s| - 1]
  }

  predicate AnyDiscards(s: seq<Payload>) {
    s != [] && (Discards(Last(s)) || AnyDiscards(s[..|s| - 1]))
  }

  /** The master collection ends up with the last payload for each uuid. */
  ghost predicate AtIs(collection: Collection, u: Uuid, before: Collection, own: seq<Payload>) {
    if own == [] then (u in collection <==> u in before) && (u in before ==> collection[u] == before[u])
    else if Discards(Last(own)) then u !in collection
    else u in collection && collection[u] == Last(own)
  }

  lemma {:induction false} MasterKeepsLast(collection: Collection, batch: seq<Payload>, u: Uuid)
    ensures AtIs(Apply(collection, batch).collection, u, collection, For(batch, u))
  {
    if batch != [] {
      var n := |batch| - 1;
      MasterKeepsLast(collection, batch[..n], u);
      FilterLast(batch, IsFor(u));
      MasterStep(Apply(collection, batch[..n]), batch[n], u, collection, For(batch[..n], u));
    }
  }

  lemma {:induction false} MasterStep(now: Applied, p: Payload, u: Uuid, before: Collection, own: seq<Payload>)
    requires AtIs(now.collection, u, before, own)
    ensures AtIs(ApplyOne(now, p).collection, u, before, own + if !Corrupt(p) && p.uuid == u then [p] else [])
  {
    if Corrupt(p) || p.uuid != u {
      assert own + [] == own;
    } else {
      assert Last(own + [p]) == p;
    }
  }

  lemma {:induction false} OfAppend(s: seq<Payload>, p: Payload, u: Uuid)
    ensures Of(s + [p], u) == Of(s, u) + if p.uuid == u then [p] else []
  {
    FilterAppend(s, [p], IsOf(u));
  }

  /** How the lists of a delta talk about one uuid whose payloads are `own`. */
  predicate ListsAt(changed: seq<Payload>, inserted: seq<Payload>, discarded: seq<Payload>, known: bool,
                    own: seq<Payload>)
  {
    && (discarded != [] <==> AnyDiscards(own))
    && (own == [] ==> changed == [] && inserted == [])
    && (own != [] && !AnyDiscards(own) && known ==> changed == own && inserted == [])
    && (own != [] && !AnyDiscards(own) && !known ==> changed == own[1..] && inserted == [own[0]])
  }

  predicate DeltaAt(d: Delta, u: Uuid, known: bool, own: seq<Payload>) {
    ListsAt(Of(d.changed, u), Of(d.inserted, u), Of(d.discarded, u), known, own)
  }

  lemma {:induction false} ListsGrow(changed: seq<Payload>, inserted: seq<Payload>, discarded: seq<Payload>,
                                     known: bool, own: seq<Payload>, p: Payload)
    requires ListsAt(changed, inserted, discarded, known, own)
    ensures Discards(p) ==> ListsAt(changed, inserted, discarded + [p], known, own + [p])
    ensures !Discards(p) && (if own == [] then !known else Discards(Last(own))) ==>
      ListsAt(changed, inserted + [p], discarded, known, own + [p])
    ensures !Discards(p) && (if own == [] then known else !Discards(Last(own))) ==>
      ListsAt(changed + [p], inserted, discarded, known, own + [p])
  {
    assert (own + [p])[..|own|] == own;
    if own != [] {
      assert (own + [p])[1..] == own[1..] + [p];
    }
  }

  lemma {:induction false} DeltaForUuid(collection: Collection, batch: seq<Payload>, u: Uuid)
    ensures DeltaAt(Apply(collection, batch).delta, u, u in collection, For(batch, u))
  {
    if batch != [] {
      var n := |batch| - 1;
      DeltaForUuid(collection, batch[..n], u);
      MasterKeepsLast(collection, batch[..n], u);
      FilterLast(batch, IsFor(u));
      DeltaForUuidStep(Apply(collection, batch[..n]), batch[n], u, u in collection, For(batch[..n], u));
    }
  }

  lemma {:induction false} DeltaForUuidStep(before: Applied, p: Payload, u: Uuid, known: bool, own: seq<Payload>)
    requires DeltaAt(before.delta, u, known, own)
    requires u in before.collection <==> if own == [] then known else !Discards(Last(own))
    ensures DeltaAt(ApplyOne(before, p).delta, u, known, own + if !Corrupt(p) && p.uuid == u then [p] else [])
  {
    if Corrupt(p) || p.uuid != u {
      OtherUuidStep(before, p, u);
      assert own + [] == own;
    } else {
      OwnUuidStep(before, p, known, own);
    }
  }

  lemma {:induction false} OtherUuidStep(before: Applied, p: Payload, u: Uuid)
    requires Corrupt(p) || p.uuid != u
    ensures var d, d' := before.delta, ApplyOne(before, p).delta;
      Of(d'.changed, u) == Of(d.changed, u) && Of(d'.inserted, u) == Of(d.inserted, u)
      && Of(d'.discarded, u) == Of(d.discarded, u)
  {
    if !Corrupt(p) {
      OfAppend(before.delta.changed, p, u);
      OfAppend(before.delta.inserted, p, u);
      OfAppend(before.delta.discarded, p, u);
    }
  }

  lemma {:induction false} OwnUuidStep(before: Applied, p: Payload, known: bool, own: seq<Payload>)
    requires !Corrupt(p) && DeltaAt(before.delta, p.uuid, known, own)
    requires p.uuid in before.collection <==> if own == [] then known else !Discards(Last(own))
    ensures DeltaAt(ApplyOne(before, p).delta, p.uuid, known, own + [p])
  {
    var d, u := before.delta, p.uuid;
    OfAppend(d.changed, p, u);
    OfAppend(d.inserted, p, u);
    OfAppend(d.discarded, p, u);
    ListsGrow(Of(d.changed, u), Of(d.inserted, u), Of(d.discarded, u), known, own, p);
  }

  /** Payload `i` for the uuid brings decrypted what was encrypted until then. */
  predicate Unerrors(collection: Collection, u: Uuid, own: seq<Payload>, i: nat)
    requires i < |own|
  {
    && own[i].kind == Decrypted
    && if i == 0 then u in collection && collection[u].kind == Encrypted else own[i - 1].kind == Encrypted
  }

  ghost predicate UnerrorsAs(collection: Collection, own: seq<Payload>, p: Payload) {
    exists i: nat :: i < |own| && own[i] == p && Unerrors(collection, p.uuid, own, i)
  }

  lemma {:induction false} UnerrorsNext(collection: Collection, own: seq<Payload>, q: Payload, p: Payload)
    ensures UnerrorsAs(collection, own + [q], p) <==>
      UnerrorsAs(collection, own, p) || (q == p && Unerrors(collection, p.uuid, own + [q], |own|))
  {
    var all := own + [q];
    forall i: nat | i < |own| ensures Unerrors(collection, p.uuid, all, i) <==> Unerrors(collection, p.uuid, own, i) {
    }
    if i: nat :| i < |own| && own[i] == p && Unerrors(collection, p.uuid, own, i) {
      assert all[i] == p && Unerrors(collection, p.uuid, all, i);
    }
    if i: nat :| i < |all| && all[i] == p && Unerrors(collection, p.uuid, all, i) {
      assert i < |own| ==> own[i] == p && Unerrors(collection, p.uuid, own, i);
    }
    assert all[|own|] == q;
  }

  /** A payload is listed as unerrored exactly when it brings decrypted what was encrypted until then. */
  lemma {:induction false} UnerroredIff(collection: Collection, batch: seq<Payload>, p: Payload)
    ensures p in Apply(collection, batch).delta.unerrored <==> UnerrorsAs(collection, For(batch, p.uuid), p)
  {
    if batch != [] {
      var n := |batch| - 1;
      UnerroredIff(collection, batch[..n], p);
      MasterKeepsLast(collection, batch[..n], p.uuid);
      FilterLast(batch, IsFor(p.uuid));
      UnerroredStep(collection, Apply(collection, batch[..n]), For(batch[..n], p.uuid), batch[n], p);
    }
  }

  lemma {:induction false} UnerroredStep(collection: Collection, before: Applied, own: seq<Payload>, q: Payload,
                                         p: Payload)
    requires p in before.delta.unerrored <==> UnerrorsAs(collection, own, p)
    requires AtIs(before.collection, p.uuid, collection, own)
    ensures p in ApplyOne(before, q).delta.unerrored <==>
      UnerrorsAs(collection, own + if !Corrupt(q) && q.uuid == p.uuid then [q] else [], p)
  {
    if Corrupt(q) || q.uuid != p.uuid {
      assert own + [] == own;
    } else {
      UnerrorsNext(collection, own, q, p);
    }
  }

  // ----- Replaying the delta on a copy

  function Upsert(collection: Collection, s: seq<Payload>): Collection {
    if s == [] then collection else Upsert(collection, s[..|s| - 1])[Last(s).uuid := Last(s)]
  }

  function Uuids(s: seq<Payload>): set<Uuid> {
    set p | p in s :: p.uuid
  }

  /** `ItemCollection`: upsert changed, then inserted, then remove discarded. */
  function Mirror(collection: Collection, d: Delta): Collection {
    Upsert(Upsert(collection, d.changed), d.inserted) - Uuids(d.discarded)
  }

  lemma {:induction false} UpsertAt(collection: Collection, s: seq<Payload>, u: Uuid)
    ensures var r := Upsert(collection, s);
      if Of(s, u) == [] then (u in r <==> u in collection) && (u in collection ==> r[u] == collection[u])
      else u in r && r[u] == Last(Of(s, u))
  {
    if s != [] {
      var n := |s| - 1;
      UpsertAt(collection, s[..n], u);
      FilterLast(s, IsOf(u));
    }
  }

  /** When the mirror cannot go wrong about a uuid, judging from the batch and the collection alone. */
  ghost predicate Harmless(known: bool, own: seq<Payload>) {
    own == [] ||
    (if AnyDiscards(own) then Discards(Last(own)) else known || own[0] == Last(own))
  }

  ghost predicate SameAt(a: Collection, b: Collection, u: Uuid) {
    (u in a <==> u in b) && (u in a ==> a[u] == b[u])
  }

  lemma {:induction false} MirrorAt(collection: Collection, batch: seq<Payload>, u: Uuid)
    ensures SameAt(Mirror(collection, Apply(collection, batch).delta), Apply(collection, batch).collection, u)
      <==> Harmless(u in collection, For(batch, u))
  {
    var d := Apply(collection, batch).delta;
    var own := For(batch, u);
    MasterKeepsLast(collection, batch, u);
    DeltaForUuid(collection, batch, u);
    UpsertAt(collection, d.changed, u);
    UpsertAt(Upsert(collection, d.changed), d.inserted, u);
    FilterMembers(d.discarded, IsOf(u));
    if Of(d.discarded, u) != [] {
      assert Of(d.discarded, u)[0] in d.discarded && u in Uuids(d.discarded);
    }
  }

  /**
   The mirror that is fed the delta equals the master collection exactly when no uuid of the batch
   is revived after a discard, and none is inserted and then changed to something else.
   */
  lemma {:induction false} MirrorAgreesIff(collection: Collection, batch: seq<Payload>)
    ensures Mirror(collection, Apply(collection, batch).delta) == Apply(collection, batch).collection
      <==> forall u :: Harmless(u in collection, For(batch, u))
  {
    var a := Mirror(collection, Apply(collection, batch).delta);
    var b := Apply(collection, batch).collection;
    forall u ensures SameAt(a, b, u) <==> Harmless(u in collection, For(batch, u)) {
      MirrorAt(collection, batch, u);
    }
    SameEverywhere(a, b);
  }

  lemma {:induction false} SameEverywhere(a: Collection, b: Collection)
    ensures a == b <==> forall u :: SameAt(a, b, u)
  {
    if forall u :: SameAt(a, b, u) {
      forall u ensures u in a <==> u in b {
        assert SameAt(a, b, u);
      }
      forall u | u in a ensures a[u] == b[u] {
        assert SameAt(a, b, u);
      }
    }
  }

  /** A new item that is emitted twice in one batch leaves the mirror with the older content. */
  lemma {:induction false} MirrorGoesStale(first: Payload, second: Payload)
    requires first.uuid == second.uuid && first != second
    requires !Corrupt(first) && !Corrupt(second) && !Discards(first) && !Discards(second)
    ensures Mirror(map[], Apply(map[], [first, second]).delta) != Apply(map[], [first, second]).collection
  {
    var batch := [first, second];
    FilterAll(batch, IsFor(first.uuid));
    assert !Harmless(false, For(batch, first.uuid));
    MirrorAgreesIff(map[], batch);
  }

  // ----- Batches without repeated uuids

  ghost predicate DistinctUuids(s: seq<Payload>) {
    forall i, j :: 0 <= i < j < |s| ==> s[i].uuid != s[j].uuid
  }

  lemma {:induction false} LastUuidIsNew(s: seq<Payload>)
    requires DistinctUuids(s) && s != []
    ensures forall p :: p in s[..|s| - 1] ==> p.uuid != Last(s).uuid
  {
  }

  lemma {:induction false} AtMostOne(s: seq<Payload>, u: Uuid)
    requires DistinctUuids(s)
    ensures |For(s, u)| <= 1
  {
    if s != [] {
      var n := |s| - 1;
      AtMostOne(s[..n], u);
      LastUuidIsNew(s);
      FilterLast(s, IsFor(u));
      FilterMembers(s[..n], IsFor(u));
      if For(s[..n], u) != [] {
        assert For(s[..n], u)[0] in s[..n];
      }
    }
  }

  /** One operation of a replay. */
  datatype Replayed = Put(payload: Payload) | Drop(payload: Payload)

  function Redo(collection: Collection, op: Replayed): Collection {
    match op
    case Put(p) => collection[p.uuid := p]
    case Drop(p) => collection - {p.uuid}
  }

  function Replay(collection: Collection, ops: seq<Replayed>): Collection {
    if ops == [] then collection else Redo(Replay(collection, ops[..|ops| - 1]), Last(ops))
  }

  function Ops(d: Delta): seq<Replayed> {
    Map(d.changed + d.inserted, p => Put(p)) + Map(d.discarded, p => Drop(p))
  }

  ghost predicate DistinctOps(ops: seq<Replayed>) {
    forall i, j :: 0 <= i < j < |ops| ==> ops[i].payload.uuid != ops[j].payload.uuid
  }

  ghost predicate ReplayedAt(r: Collection, collection: Collection, ops: seq<Replayed>, u: Uuid) {
    && (forall op :: op in ops && op.payload.uuid == u ==> if op.Put? then u in r && r[u] == op.payload else u !in r)
    && ((forall op :: op in ops ==> op.payload.uuid != u) ==> SameAt(r, collection, u))
  }

  lemma {:induction false} ReplayAt(collection: Collection, ops: seq<Replayed>, u: Uuid)
    requires DistinctOps(ops)
    ensures ReplayedAt(Replay(collection, ops), collection, ops, u)
  {
    if ops != [] {
      var n := |ops| - 1;
      ReplayAt(collection, ops[..n], u);
      assert ops == ops[..n] + [ops[n]];
      RedoAt(Replay(collection, ops[..n]), collection, ops[..n], ops[n], u);
    }
  }

  lemma {:induction false} RedoAt(before: Collection, collection: Collection, ops: seq<Replayed>, op: Replayed, u: Uuid)
    requires ReplayedAt(before, collection, ops, u)
    requires forall o :: o in ops ==> o.payload.uuid != op.payload.uuid
    ensures ReplayedAt(Redo(before, op), collection, ops + [op], u)
  {
    assert op in ops + [op];
    if op.payload.uuid != u {
      assert SameAt(Redo(before, op), before, u);
    }
  }

  lemma {:induction false} OpsMembers(d: Delta, op: Replayed)
    ensures op in Ops(d) <==>
      if op.Put? then op.payload in d.changed || op.payload in d.inserted else op.payload in d.discarded
  {
    var kept := d.changed + d.inserted;
    var puts, drops := Map(kept, q => Put(q)), Map(d.discarded, q => Drop(q));
    assert op in Ops(d) <==> op in puts || op in drops;
    PutsMembers(kept, puts, op);
    DropsMembers(d.discarded, drops, op);
  }

  lemma {:induction false} PutsMembers(s: seq<Payload>, puts: seq<Replayed>, op: Replayed)
    requires |puts| == |s| && forall i :: 0 <= i < |s| ==> puts[i] == Put(s[i])
    ensures op in puts <==> op.Put? && op.payload in s
  {
    if op.Put? && op.payload in s {
      var i :| 0 <= i < |s| && s[i] == op.payload;
      assert puts[i] == op;
    }
  }

  lemma {:induction false} DropsMembers(s: seq<Payload>, drops: seq<Replayed>, op: Replayed)
    requires |drops| == |s| && forall i :: 0 <= i < |s| ==> drops[i] == Drop(s[i])
    ensures op in drops <==> op.Drop? && op.payload in s
  {
    if op.Drop? && op.payload in s {
      var i :| 0 <= i < |s| && s[i] == op.payload;
      assert drops[i] == op;
    }
  }

  /** Without repeated uuids, the batch decides what happens to each uuid. */
  lemma {:induction false} OpsOfBatch(collection: Collection, batch: seq<Payload>, op: Replayed)
    ensures op in Ops(Apply(collection, batch).delta)
      <==> op.payload in batch && !Corrupt(op.payload) && (op.Drop? <==> Discards(op.payload))
  {
    OpsMembers(Apply(collection, batch).delta, op);
    DeltaMembers(collection, batch, op.payload);
  }

  lemma {:induction false} OpsAreDistinct(collection: Collection, batch: seq<Payload>, ops: seq<Replayed>)
    requires DistinctUuids(batch) && multiset(ops) == multiset(Ops(Apply(collection, batch).delta))
    ensures DistinctOps(ops)
  {
    var d := Apply(collection, batch).delta;
    DeltaPartitionsBatch(collection, batch);
    IntactKeepsUuidsDistinct(batch);
    var all := d.changed + d.inserted + d.discarded;
    assert multiset(all) == multiset(Intact(batch));
    SameUuidsDistinct(Intact(batch), all);
    var listed := Ops(d);
    forall i, j | 0 <= i < j < |listed| ensures listed[i].payload.uuid != listed[j].payload.uuid {
      assert listed[i].payload == all[i] && listed[j].payload == all[j];
    }
    SameOpsDistinct(listed, ops);
  }

  lemma {:induction false} IntactKeepsUuidsDistinct(s: seq<Payload>)
    requires DistinctUuids(s)
    ensures DistinctUuids(Intact(s))
  {
    if s != [] {
      IntactKeepsUuidsDistinct(s[..|s| - 1]);
      LastUuidIsNew(s);
      FilterLast(s, IsIntact);
      FilterMembers(s[..|s| - 1], IsIntact);
    }
  }

  /** A rearrangement of payloads without repeated uuids has none either. */
  lemma {:induction false} SameUuidsDistinct(s: seq<Payload>, t: seq<Payload>)
    requires DistinctUuids(s) && multiset(s) == multiset(t)
    ensures DistinctUuids(t)
  {
    forall i, j | 0 <= i < j < |t| ensures t[i].uuid != t[j].uuid {
      assert t[i] in multiset(t) && t[j] in multiset(t);
      assert t[i] in s && t[j] in s;
      OccursOnce(s, t[i]);
      if t[i] == t[j] {
        OccursTwice(t, i, j);
      }
    }
  }

  lemma {:induction false} SameOpsDistinct(s: seq<Replayed>, t: seq<Replayed>)
    requires DistinctOps(s) && multiset(s) == multiset(t)
    ensures DistinctOps(t)
  {
    forall i, j | 0 <= i < j < |t| ensures t[i].payload.uuid != t[j].payload.uuid {
      assert t[i] in multiset(t) && t[j] in multiset(t);
      assert t[i] in s && t[j] in s;
      OccursOnce(s, t[i]);
      if t[i] == t[j] {
        OccursTwice(t, i, j);
      }
    }
  }

  /** Without repeated uuids, replaying the delta on a copy gives the master collection, in any order. */
  lemma {:induction false} ReplayInAnyOrder(collection: Collection, batch: seq<Payload>, ops: seq<Replayed>)
    requires DistinctUuids(batch)
    requires multiset(ops) == multiset(Ops(Apply(collection, batch).delta))
    ensures Replay(collection, ops) == Apply(collection, batch).collection
  {
    OpsAreDistinct(collection, batch, ops);
    forall op ensures op in ops <==> op in Ops(Apply(collection, batch).delta) {
      assert op in multiset(ops) <==> op in ops;
    }
    forall u ensures SameAt(Replay(collection, ops), Apply(collection, batch).collection, u) {
      ReplayAgreesAt(collection, batch, ops, u);
    }
    SameEverywhere(Replay(collection, ops), Apply(collection, batch).collection);
  }

  lemma {:induction false} ReplayAgreesAt(collection: Collection, batch: seq<Payload>, ops: seq<Replayed>, u: Uuid)
    requires DistinctUuids(batch) && DistinctOps(ops)
    requires forall op :: op in ops <==> op in Ops(Apply(collection, batch).delta)
    ensures SameAt(Replay(collection, ops), Apply(collection, batch).collection, u)
  {
    ReplayAt(collection, ops, u);
    MasterKeepsLast(collection, batch, u);
    AtMostOne(batch, u);
    var own := For(batch, u);
    FilterMembers(batch, IsFor(u));
    if own == [] {
      forall op | op in ops ensures op.payload.uuid != u {
        OpsOfBatch(collection, batch, op);
        assert op.payload.uuid == u ==> op.payload in own;
      }
    } else {
      var p := own[0];
      var op := if Discards(p) then Drop(p) else Put(p);
      assert p in own && Last(own) == p;
      OpsOfBatch(collection, batch, op);
      assert op in ops;
    }
  }

  /** In particular the mirror of the item manager agrees. */
  lemma {:induction false} MirrorAgreesOnDistinctBatch(collection: Collection, batch: seq<Payload>)
    requires DistinctUuids(batch)
    ensures Mirror(collection, Apply(collection, batch).delta) == Apply(collection, batch).collection
  {
    forall u ensures Harmless(u in collection, For(batch, u)) {
      AtMostOne(batch, u);
    }
    MirrorAgreesIff(collection, batch);
  }

  // ----- Content types

  const ANY_TYPE: ContentType := "*"

  predicate Wants(types: set<ContentType>, p: Payload) {
    ANY_TYPE in types || p.contentType in types
  }

  function IsWanted(types: set<ContentType>): Payload -> bool {
    (p: Payload) => Wants(types, p)
  }

  function Wanted(types: set<ContentType>, s: seq<Payload>): seq<Payload> {
    Filter(s, IsWanted(types))
  }
}
