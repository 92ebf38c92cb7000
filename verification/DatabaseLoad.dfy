/** Loading the local database: items keys first, then everything else in batches, by priority and newest first. */
module DatabaseLoad {
  import opened Lists
  import opened Slices
  import opened Sorting
  import opened Wrappers

  datatype ContentType = ItemsKey | UserPrefs | Component | Theme | Other(name: string)

  datatype Form = Decrypted | Encrypted | Deleted

  datatype Payload = Payload(uuid: nat, contentType: ContentType, serverUpdatedAt: int, form: Form, content: string)

  /** A stored record; one that no payload can be made from is dropped. */
  datatype Raw = Readable(payload: Payload) | Unreadable

  // ----- The order of loading

  /** The list of the sync service. The order of loading is stated for any list. */
  const LOCAL_LOAD_PRIORITY: seq<ContentType> := [ItemsKey, UserPrefs, Component, Theme]

  function IndexOf(list: seq<ContentType>, contentType: ContentType): int {
    if list == [] then -1
    else if list[0] == contentType then 0
    else
      var i := IndexOf(list[1..], contentType);
      if i == -1 then -1 else i + 1
  }

  /** The place in the list; types that are not in it come after all that are. */
  function Priority(list: seq<ContentType>, contentType: ContentType): int {
    var i := IndexOf(list, contentType);
    if i == -1 then |list| else i
  }

  /** The comparator of the sort: negative when `a` goes first. */
  function Compare(list: seq<ContentType>, a: Payload, b: Payload): int {
    var dateResult := b.serverUpdatedAt - a.serverUpdatedAt;
    var aPriority, bPriority := Priority(list, a.contentType), Priority(list, b.contentType);
    if aPriority == bPriority then dateResult
    else if aPriority < bPriority then -1
    else 1
  }

  function LoadsBefore(list: seq<ContentType>): (Payload, Payload) -> bool {
    (a: Payload, b: Payload) => Compare(list, a, b) <= 0
  }

  /** The content type stands in the list, and not before this place. */
  ghost predicate FirstAt(list: seq<ContentType>, contentType: ContentType, i: nat) {
    i < |list| && list[i] == contentType && contentType !in list[..i]
  }

  lemma {:induction false} InPrefix(list: seq<ContentType>, i: nat, n: nat)
    requires i < n <= |list|
    ensures list[i] in list[..n]
  {
    assert list[..n][i] == list[i];
  }

  lemma {:induction false} IndexIsFirst(list: seq<ContentType>, contentType: ContentType)
    ensures if contentType in list then IndexOf(list, contentType) >= 0
              && FirstAt(list, contentType, IndexOf(list, contentType))
            else IndexOf(list, contentType) == -1
  {
    if list != [] && list[0] != contentType {
      IndexIsFirst(list[1..], contentType);
      assert forall t :: t in list <==> t == list[0] || t in list[1..];
      if contentType in list {
        var i := IndexOf(list[1..], contentType);
        assert list[..i + 1] == [list[0]] + list[1..][..i];
      }
    }
  }

  /** Somebody's type first stands in the list before any place of the other's. */
  ghost predicate StandsBefore(list: seq<ContentType>, a: ContentType, b: ContentType) {
    exists i: nat :: FirstAt(list, a, i) && b !in list[..i] && a != b
  }

  /**
   For any list: types in the order in which they first stand in it, those that are missing last and all
   together, and within a type, or among the missing ones, from the newest to the oldest.
   */
  lemma {:induction false} LoadsBeforeIff(list: seq<ContentType>, a: Payload, b: Payload)
    ensures LoadsBefore(list)(a, b) <==>
      || StandsBefore(list, a.contentType, b.contentType)
      || ((a.contentType == b.contentType || (a.contentType !in list && b.contentType !in list))
          && a.serverUpdatedAt >= b.serverUpdatedAt)
  {
    IndexIsFirst(list, a.contentType);
    IndexIsFirst(list, b.contentType);
    var i, j := IndexOf(list, a.contentType), IndexOf(list, b.contentType);
    if i >= 0 && a.contentType != b.contentType {
      assert b.contentType !in list[..i] ==> StandsBefore(list, a.contentType, b.contentType);
      assert b.contentType in list[..i] <==> 0 <= j < i by {
        if b.contentType in list[..i] {
          var k :| 0 <= k < i && list[..i][k] == b.contentType;
          assert list[k] == b.contentType;
        }
      }
    }
    if StandsBefore(list, a.contentType, b.contentType) {
      var k: nat :| FirstAt(list, a.contentType, k) && b.contentType !in list[..k];
      SameFirst(list, a.contentType, i, k);
    }
  }

  lemma {:induction false} SameFirst(list: seq<ContentType>, contentType: ContentType, i: nat, k: nat)
    requires FirstAt(list, contentType, i) && FirstAt(list, contentType, k)
    ensures i == k
  {
    if i < k {
      InPrefix(list, i, k);
    } else if k < i {
      InPrefix(list, k, i);
    }
  }

  function Rank(contentType: ContentType): nat {
    match contentType
    case ItemsKey => 0
    case UserPrefs => 1
    case Component => 2
    case Theme => 3
    case Other(_) => 4
  }

  /** The list of the service: items keys, preferences, components, themes, then all the rest. */
  lemma {:induction false} LocalOrder(a: Payload, b: Payload)
    ensures LoadsBefore(LOCAL_LOAD_PRIORITY)(a, b) <==>
      || Rank(a.contentType) < Rank(b.contentType)
      || (Rank(a.contentType) == Rank(b.contentType) && a.serverUpdatedAt >= b.serverUpdatedAt)
  {
    PriorityIsRank(a.contentType);
    PriorityIsRank(b.contentType);
  }

  lemma {:induction false} PriorityIsRank(contentType: ContentType)
    ensures Priority(LOCAL_LOAD_PRIORITY, contentType) == Rank(contentType)
  {
    var one, two, three := [Theme], [Component, Theme], [UserPrefs, Component, Theme];
    assert one[1..] == [] && two[1..] == one && three[1..] == two && LOCAL_LOAD_PRIORITY[1..] == three;
    assert IndexOf(one, contentType) == if contentType.Theme? then 0 else -1;
    assert IndexOf(two, contentType) == if contentType.Component? then 0 else if contentType.Theme? then 1 else -1;
    assert IndexOf(three, contentType) ==
      if contentType.UserPrefs? || contentType.Component? || contentType.Theme? then Rank(contentType) - 1 else -1;
  }

  lemma {:induction false} LoadsBeforeOrders(list: seq<ContentType>)
    ensures TotalPreorder(LoadsBefore(list))
  {
  }

  // ----- Picking payloads out, in order

  function Constructed(raw: seq<Raw>): seq<Payload> {
    if raw == [] then []
    else
      var n := |raw| - 1;
      match raw[n]
      case Readable(payload) => Constructed(raw[..n]) + [payload]
      case Unreadable => Constructed(raw[..n])
  }

  predicate IsItemsKey(p: Payload) {
    p.contentType.ItemsKey?
  }

  predicate IsNotItemsKey(p: Payload) {
    !IsItemsKey(p)
  }

  predicate IsDecrypted(p: Payload) {
    p.form.Decrypted?
  }

  predicate IsEncrypted(p: Payload) {
    p.form.Encrypted?
  }

  predicate IsNonencrypted(p: Payload) {
    !IsEncrypted(p)
  }

  /** `decryptSplit`: one result for each payload; what cannot be decrypted comes back encrypted. */
  function DecryptSplit(decrypt: Payload -> Payload, payloads: seq<Payload>): seq<Payload> {
    if payloads == [] then [] else [decrypt(payloads[0])] + DecryptSplit(decrypt, payloads[1..])
  }

  // ----- What is emitted

  function KeysEmission(decrypt: Payload -> Payload, keys: seq<Payload>): seq<Payload> {
    Filter(keys, IsDecrypted) + DecryptSplit(decrypt, Filter(keys, IsEncrypted))
  }

  function BatchEmission(decrypt: Payload -> Payload, batch: seq<Payload>): seq<Payload> {
    Filter(batch, IsNonencrypted) + DecryptSplit(decrypt, Filter(batch, IsEncrypted))
  }

  /** Slices of `size` payloads, the last one possibly shorter. */
  function Batches(payloads: seq<Payload>, size: nat): seq<seq<Payload>>
    requires size > 0
  {
    if payloads == [] then []
    else
      var n := Min(size, |payloads|);
      [payloads[..n]] + Batches(payloads[n..], size)
  }

  function EmitAll(decrypt: Payload -> Payload, batches: seq<seq<Payload>>): seq<seq<Payload>> {
    if batches == [] then [] else [BatchEmission(decrypt, batches[0])] + EmitAll(decrypt, batches[1..])
  }

  function NumBatches(count: nat, size: nat): nat
    requires size > 0
  {
    (count + size - 1) / size
  }

  lemma {:induction false} Monotone(a: nat, b: nat, size: nat)
    requires a <= b
    ensures a * size <= b * size
  {
    assert (b - a) * size >= 0;
    assert b * size == a * size + (b - a) * size;
  }

  lemma {:induction false} Quotient(count: nat, size: nat)
    requires size > 0
    ensures NumBatches(count, size) * size < count + size <= NumBatches(count, size) * size + size
  {
  }

  /** The rounded-up quotient is the number of starting positions inside the list. */
  lemma {:induction false} NumBatchesIff(count: nat, size: nat, k: nat)
    requires size > 0
    ensures k < NumBatches(count, size) <==> k * size < count
  {
    var m := NumBatches(count, size);
    Quotient(count, size);
    if k < m {
      Monotone(k + 1, m, size);
      assert (k + 1) * size == k * size + size;
    } else {
      Monotone(m, k, size);
    }
  }

  function Sorted(list: seq<ContentType>, raw: seq<Raw>): seq<Payload> {
    Sort(Constructed(raw), LoadsBefore(list))
  }

  function Others(list: seq<ContentType>, raw: seq<Raw>): seq<Payload> {
    Filter(Sorted(list, raw), IsNotItemsKey)
  }

  /** Everything one load emits; an empty database emits nothing at all. */
  function Load(decrypt: Payload -> Payload, list: seq<ContentType>, raw: seq<Raw>, size: nat): seq<seq<Payload>>
    requires size > 0
  {
    if raw == [] then []
    else
      [KeysEmission(decrypt, Filter(Sorted(list, raw), IsItemsKey))]
      + EmitAll(decrypt, Batches(Others(list, raw), size))
  }

  // ----- Each payload is emitted once

  /** What becomes of one payload: only a deleted items key is not emitted. */
  predicate IsEmittedAs(decrypt: Payload -> Payload, p: Payload, e: Payload) {
    !(p.contentType.ItemsKey? && p.form.Deleted?) && e == if p.form.Encrypted? then decrypt(p) else p
  }

  /** How many of the payloads are to be emitted as `e`. */
  function Times(decrypt: Payload -> Payload, payloads: seq<Payload>, e: Payload): nat {
    if payloads == [] then 0
    else (if IsEmittedAs(decrypt, payloads[0], e) then 1 else 0) + Times(decrypt, payloads[1..], e)
  }

  lemma {:induction false} TimesAppend(decrypt: Payload -> Payload, s: seq<Payload>, t: seq<Payload>, e: Payload)
    ensures Times(decrypt, s + t, e) == Times(decrypt, s, e) + Times(decrypt, t, e)
  {
    if s == [] {
      assert s + t == t;
    } else {
      assert (s + t)[1..] == s[1..] + t;
      TimesAppend(decrypt, s[1..], t, e);
    }
  }

  lemma {:induction false} TimesInsert(decrypt: Payload -> Payload, s: seq<Payload>, x: Payload, e: Payload,
                                       le: (Payload, Payload) -> bool)
    ensures Times(decrypt, Insert(s, x, le), e) == Times(decrypt, s, e) + Times(decrypt, [x], e)
  {
    TimesAppend(decrypt, s, [x], e);
    if s != [] {
      var n := |s| - 1;
      TimesAppend(decrypt, s[..n], [s[n]], e);
      assert s == s[..n] + [s[n]];
      TimesInsert(decrypt, s[..n], x, e, le);
      TimesAppend(decrypt, Insert(s[..n], x, le), [s[n]], e);
    } else {
      assert [] + [x] == [x];
    }
  }

  lemma {:induction false} TimesSort(decrypt: Payload -> Payload, s: seq<Payload>, e: Payload,
                                     le: (Payload, Payload) -> bool)
    ensures Times(decrypt, Sort(s, le), e) == Times(decrypt, s, e)
  {
    if s != [] {
      var n := |s| - 1;
      TimesSort(decrypt, s[..n], e, le);
      TimesInsert(decrypt, Sort(s[..n], le), s[n], e, le);
      TimesAppend(decrypt, s[..n], [s[n]], e);
      assert s == s[..n] + [s[n]];
    }
  }

  lemma {:induction false} TimesSplit(decrypt: Payload -> Payload, s: seq<Payload>, e: Payload)
    ensures Times(decrypt, Filter(s, IsItemsKey), e) + Times(decrypt, Filter(s, IsNotItemsKey), e)
         == Times(decrypt, s, e)
  {
    if s != [] {
      TimesSplit(decrypt, s[1..], e);
      if IsItemsKey(s[0]) {
        assert Filter(s, IsItemsKey) == [s[0]] + Filter(s[1..], IsItemsKey);
        assert Filter(s, IsNotItemsKey) == Filter(s[1..], IsNotItemsKey);
      } else {
        assert Filter(s, IsItemsKey) == Filter(s[1..], IsItemsKey);
        assert Filter(s, IsNotItemsKey) == [s[0]] + Filter(s[1..], IsNotItemsKey);
      }
    }
  }

  lemma {:induction false} KeysCount(decrypt: Payload -> Payload, keys: seq<Payload>, e: Payload)
    requires forall p :: p in keys ==> IsItemsKey(p)
    ensures Count(Filter(keys, IsDecrypted), e) + Count(DecryptSplit(decrypt, Filter(keys, IsEncrypted)), e)
         == Times(decrypt, keys, e)
  {
    if keys != [] {
      assert IsItemsKey(keys[0]);
      KeysCount(decrypt, keys[1..], e);
      FilterFirst(keys, IsDecrypted);
      FilterFirst(keys, IsEncrypted);
    }
  }

  lemma {:induction false} BatchCount(decrypt: Payload -> Payload, batch: seq<Payload>, e: Payload)
    requires forall p :: p in batch ==> IsNotItemsKey(p)
    ensures Count(Filter(batch, IsNonencrypted), e) + Count(DecryptSplit(decrypt, Filter(batch, IsEncrypted)), e)
         == Times(decrypt, batch, e)
  {
    if batch != [] {
      assert IsNotItemsKey(batch[0]);
      BatchCount(decrypt, batch[1..], e);
      FilterFirst(batch, IsNonencrypted);
      FilterFirst(batch, IsEncrypted);
    }
  }

  lemma {:induction false} FilterFirst(s: seq<Payload>, p: Payload -> bool)
    requires s != []
    ensures Filter(s, p) == if p(s[0]) then [s[0]] + Filter(s[1..], p) else Filter(s[1..], p)
  {
  }

  lemma {:induction false} BatchesCount(decrypt: Payload -> Payload, payloads: seq<Payload>, size: nat, e: Payload)
    requires size > 0 && forall p :: p in payloads ==> IsNotItemsKey(p)
    ensures Count(Flatten(EmitAll(decrypt, Batches(payloads, size))), e) == Times(decrypt, payloads, e)
    decreases |payloads|
  {
    if payloads != [] {
      var n := Min(size, |payloads|);
      var first, rest := payloads[..n], payloads[n..];
      assert payloads == first + rest;
      BatchesCount(decrypt, rest, size, e);
      EmissionCount(decrypt, first, e);
      TimesAppend(decrypt, first, rest, e);
      BatchesStart(payloads, size);
      EmitFirstCount(decrypt, first, Batches(rest, size), e);
    }
  }

  lemma {:induction false} EmitFirstCount(decrypt: Payload -> Payload, batch: seq<Payload>,
                                          rest: seq<seq<Payload>>, e: Payload)
    ensures Count(Flatten(EmitAll(decrypt, [batch] + rest)), e)
         == Count(BatchEmission(decrypt, batch), e) + Count(Flatten(EmitAll(decrypt, rest)), e)
  {
    EmitFirst(decrypt, batch, rest);
    FlattenFirstCount(BatchEmission(decrypt, batch), EmitAll(decrypt, rest), e);
  }

  lemma {:induction false} EmissionCount(decrypt: Payload -> Payload, batch: seq<Payload>, e: Payload)
    requires forall p :: p in batch ==> IsNotItemsKey(p)
    ensures Count(BatchEmission(decrypt, batch), e) == Times(decrypt, batch, e)
  {
    BatchCount(decrypt, batch, e);
    CountAppend(Filter(batch, IsNonencrypted), DecryptSplit(decrypt, Filter(batch, IsEncrypted)), e);
  }

  lemma {:induction false} EmitFirst(decrypt: Payload -> Payload, batch: seq<Payload>, rest: seq<seq<Payload>>)
    ensures EmitAll(decrypt, [batch] + rest) == [BatchEmission(decrypt, batch)] + EmitAll(decrypt, rest)
  {
    assert ([batch] + rest)[1..] == rest;
  }

  lemma {:induction false} FlattenFirstCount(first: seq<Payload>, rest: seq<seq<Payload>>, e: Payload)
    ensures Count(Flatten([first] + rest), e) == Count(first, e) + Count(Flatten(rest), e)
  {
    assert ([first] + rest)[1..] == rest;
    CountAppend(first, Flatten(rest), e);
  }

  /** Every payload that could be made, except the deleted items keys, is emitted exactly once. */
  lemma {:induction false} EachIsEmittedOnce(decrypt: Payload -> Payload, list: seq<ContentType>, raw: seq<Raw>,
                                             size: nat, e: Payload)
    requires size > 0
    ensures Count(Flatten(Load(decrypt, list, raw, size)), e) == Times(decrypt, Constructed(raw), e)
  {
    if raw != [] {
      var keys := Filter(Sorted(list, raw), IsItemsKey);
      TimesSort(decrypt, Constructed(raw), e, LoadsBefore(list));
      TimesSplit(decrypt, Sorted(list, raw), e);
      FilterMembers(Sorted(list, raw), IsItemsKey);
      FilterMembers(Sorted(list, raw), IsNotItemsKey);
      KeysCount(decrypt, keys, e);
      CountAppend(Filter(keys, IsDecrypted), DecryptSplit(decrypt, Filter(keys, IsEncrypted)), e);
      BatchesCount(decrypt, Others(list, raw), size, e);
      FlattenFirstCount(KeysEmission(decrypt, keys), EmitAll(decrypt, Batches(Others(list, raw), size)), e);
    }
  }

  // ----- In which order

  /** Decryption changes neither the identity nor the type nor the date of a payload. */
  ghost predicate Lawful(decrypt: Payload -> Payload) {
    forall p :: decrypt(p).uuid == p.uuid && decrypt(p).contentType == p.contentType
                && decrypt(p).serverUpdatedAt == p.serverUpdatedAt
  }

  lemma {:induction false} DecryptSplitTypes(decrypt: Payload -> Payload, payloads: seq<Payload>, keys: bool)
    requires Lawful(decrypt) && forall p :: p in payloads ==> IsItemsKey(p) == keys
    ensures forall p :: p in DecryptSplit(decrypt, payloads) ==> IsItemsKey(p) == keys
  {
    if payloads != [] {
      DecryptSplitTypes(decrypt, payloads[1..], keys);
      var rest := DecryptSplit(decrypt, payloads[1..]);
      assert payloads[0] in payloads;
      forall p | p in DecryptSplit(decrypt, payloads) ensures IsItemsKey(p) == keys {
        assert p == decrypt(payloads[0]) || p in rest;
      }
    }
  }

  lemma {:induction false} EmitAllAt(decrypt: Payload -> Payload, batches: seq<seq<Payload>>, i: nat)
    requires i < |batches|
    ensures |EmitAll(decrypt, batches)| == |batches|
    ensures EmitAll(decrypt, batches)[i] ==
      Filter(batches[i], IsNonencrypted) + DecryptSplit(decrypt, Filter(batches[i], IsEncrypted))
  {
    if i > 0 {
      EmitAllAt(decrypt, batches[1..], i - 1);
    } else if |batches| > 1 {
      EmitAllAt(decrypt, batches[1..], 0);
    }
  }

  lemma {:induction false} BatchesHold(payloads: seq<Payload>, size: nat, i: nat)
    requires size > 0 && i < |Batches(payloads, size)|
    ensures 0 < |Batches(payloads, size)[i]| <= size
    ensures forall p :: p in Batches(payloads, size)[i] ==> p in payloads
    decreases |payloads|
  {
    if payloads != [] && i > 0 {
      var n := Min(size, |payloads|);
      BatchesHold(payloads[n..], size, i - 1);
    }
  }

  /** The batches are the payloads themselves, cut into pieces. */
  lemma {:induction false} BatchesCover(payloads: seq<Payload>, size: nat)
    requires size > 0
    ensures Flatten(Batches(payloads, size)) == payloads
    decreases |payloads|
  {
    if payloads != [] {
      var n := Min(size, |payloads|);
      BatchesCover(payloads[n..], size);
      var rest := Batches(payloads[n..], size);
      assert Batches(payloads, size) == [payloads[..n]] + rest;
      assert ([payloads[..n]] + rest)[1..] == rest;
      assert payloads[..n] + payloads[n..] == payloads;
    }
  }

  /** The first emission holds the items keys, and only it does. */
  lemma {:induction false} KeysComeFirst(decrypt: Payload -> Payload, list: seq<ContentType>, raw: seq<Raw>,
                                         size: nat, i: nat, p: Payload)
    requires Lawful(decrypt) && size > 0
    requires i < |Load(decrypt, list, raw, size)| && p in Load(decrypt, list, raw, size)[i]
    ensures p.contentType == ItemsKey <==> i == 0
  {
    FilterMembers(Sorted(list, raw), IsItemsKey);
    FilterMembers(Sorted(list, raw), IsNotItemsKey);
    if i == 0 {
      var keys := Filter(Sorted(list, raw), IsItemsKey);
      FilterMembers(keys, IsDecrypted);
      FilterMembers(keys, IsEncrypted);
      DecryptSplitTypes(decrypt, Filter(keys, IsEncrypted), true);
    } else {
      var batches := Batches(Others(list, raw), size);
      assert Load(decrypt, list, raw, size)[1..] == EmitAll(decrypt, batches);
      EmissionsAreAsMany(decrypt, batches);
      EmitAllAt(decrypt, batches, i - 1);
      BatchesHold(Others(list, raw), size, i - 1);
      FilterMembers(batches[i - 1], IsNonencrypted);
      FilterMembers(batches[i - 1], IsEncrypted);
      DecryptSplitTypes(decrypt, Filter(batches[i - 1], IsEncrypted), false);
    }
  }

  lemma {:induction false} BatchesAreAsMany(payloads: seq<Payload>, size: nat)
    requires size > 0
    ensures |Batches(payloads, size)| == NumBatches(|payloads|, size)
    decreases |payloads|
  {
    if payloads != [] {
      var n := Min(size, |payloads|);
      BatchesAreAsMany(payloads[n..], size);
      OneBatchMore(|payloads|, size);
    } else {
      NumBatchesIff(0, size, 0);
    }
  }

  lemma {:induction false} OneBatchMore(count: nat, size: nat)
    requires size > 0 && count > 0
    ensures NumBatches(count, size) == 1 + NumBatches(count - Min(size, count), size)
  {
    var m := NumBatches(count, size);
    var rest := count - Min(size, count);
    NumBatchesIff(count, size, 0);
    NumBatchesIff(count, size, m);
    NumBatchesIff(rest, size, m - 1);
    if m > 1 {
      NumBatchesIff(count, size, m - 1);
      NumBatchesIff(rest, size, m - 2);
      assert (m - 1) * size == (m - 2) * size + size;
    }
    assert m * size == (m - 1) * size + size;
  }

  /**
   A load of anything at all makes one emission for the items keys, those that are not encrypted first, and one for
   each batch of the others.
   */
  lemma {:induction false} LoadEmissions(decrypt: Payload -> Payload, list: seq<ContentType>, raw: seq<Raw>, size: nat)
    requires size > 0
    ensures |Load(decrypt, list, raw, size)| ==
      if raw == [] then 0 else 1 + (|Others(list, raw)| + size - 1) / size
    ensures raw != [] ==> var keys := Filter(Sorted(list, raw), IsItemsKey);
      Load(decrypt, list, raw, size)[0] == Filter(keys, IsDecrypted) + DecryptSplit(decrypt, Filter(keys, IsEncrypted))
  {
    EmissionsAreAsMany(decrypt, Batches(Others(list, raw), size));
    BatchesAreAsMany(Others(list, raw), size);
  }

  lemma {:induction false} EmissionsAreAsMany(decrypt: Payload -> Payload, batches: seq<seq<Payload>>)
    ensures |EmitAll(decrypt, batches)| == |batches|
  {
    if batches != [] {
      EmissionsAreAsMany(decrypt, batches[1..]);
    }
  }

  lemma {:induction false} FilterSorted(list: seq<ContentType>, s: seq<Payload>, p: Payload -> bool)
    requires SortedBy(s, LoadsBefore(list))
    ensures SortedBy(Filter(s, p), LoadsBefore(list))
  {
    if s != [] {
      FilterSorted(list, s[1..], p);
      FilterMembers(s[1..], p);
      var rest := Filter(s[1..], p);
      forall j | 0 <= j < |rest| ensures LoadsBefore(list)(s[0], rest[j]) {
        assert rest[j] in s[1..];
        var k :| 0 <= k < |s[1..]| && s[1..][k] == rest[j];
        assert LoadsBefore(list)(s[0], s[k + 1]);
      }
    }
  }

  lemma {:induction false} SortedAcross(list: seq<ContentType>, payloads: seq<Payload>, n: nat, a: Payload, b: Payload)
    requires n <= |payloads| && SortedBy(payloads, LoadsBefore(list)) && a in payloads[..n] && b in payloads[n..]
    ensures LoadsBefore(list)(a, b)
  {
    var k :| 0 <= k < n && payloads[..n][k] == a;
    var l :| 0 <= l < |payloads| - n && payloads[n..][l] == b;
    assert LoadsBefore(list)(payloads[k], payloads[n + l]);
  }

  lemma {:induction false} SortedBatches(list: seq<ContentType>, payloads: seq<Payload>, size: nat, i: nat, j: nat,
                                         a: Payload, b: Payload)
    requires size > 0 && SortedBy(payloads, LoadsBefore(list)) && i < j < |Batches(payloads, size)|
    requires a in Batches(payloads, size)[i] && b in Batches(payloads, size)[j]
    ensures LoadsBefore(list)(a, b)
    decreases |payloads|
  {
    var n := Min(size, |payloads|);
    var rest := Batches(payloads[n..], size);
    assert Batches(payloads, size) == [payloads[..n]] + rest;
    if i > 0 {
      SortedBatches(list, payloads[n..], size, i - 1, j - 1, a, b);
    } else {
      BatchesHold(payloads[n..], size, j - 1);
      SortedAcross(list, payloads, n, a, b);
    }
  }

  /** A payload as it was stored, before the emission may have decrypted it. */
  lemma {:induction false} StoredAs(decrypt: Payload -> Payload, batch: seq<Payload>, e: Payload) returns (p: Payload)
    requires Lawful(decrypt) && e in BatchEmission(decrypt, batch)
    ensures p in batch && e.contentType == p.contentType && e.serverUpdatedAt == p.serverUpdatedAt
  {
    FilterMembers(batch, IsNonencrypted);
    FilterMembers(batch, IsEncrypted);
    if e in Filter(batch, IsNonencrypted) {
      p := e;
    } else {
      p := DecryptedFrom(decrypt, Filter(batch, IsEncrypted), e);
    }
  }

  lemma {:induction false} DecryptedFrom(decrypt: Payload -> Payload, payloads: seq<Payload>, e: Payload)
    returns (p: Payload)
    requires e in DecryptSplit(decrypt, payloads)
    ensures p in payloads && e == decrypt(p)
  {
    if e == decrypt(payloads[0]) {
      p := payloads[0];
    } else {
      p := DecryptedFrom(decrypt, payloads[1..], e);
    }
  }

  lemma {:induction false} LaterEmission(decrypt: Payload -> Payload, list: seq<ContentType>, raw: seq<Raw>,
                                         size: nat, i: nat)
    requires size > 0 && 0 < i < |Load(decrypt, list, raw, size)|
    ensures i - 1 < |Batches(Others(list, raw), size)|
    ensures Load(decrypt, list, raw, size)[i] == BatchEmission(decrypt, Batches(Others(list, raw), size)[i - 1])
  {
    var batches := Batches(Others(list, raw), size);
    assert Load(decrypt, list, raw, size)[1..] == EmitAll(decrypt, batches);
    EmissionsAreAsMany(decrypt, batches);
    EmitAllAt(decrypt, batches, i - 1);
  }

  /** After the items keys, emissions go by priority, then from the newest to the oldest payload. */
  lemma {:induction false} EmissionsInOrder(decrypt: Payload -> Payload, list: seq<ContentType>, raw: seq<Raw>,
                                            size: nat, i: nat, j: nat, a: Payload, b: Payload)
    requires Lawful(decrypt) && size > 0 && 1 <= i < j < |Load(decrypt, list, raw, size)|
    requires a in Load(decrypt, list, raw, size)[i] && b in Load(decrypt, list, raw, size)[j]
    ensures LoadsBefore(list)(a, b)
  {
    LaterEmission(decrypt, list, raw, size, i);
    LaterEmission(decrypt, list, raw, size, j);
    var p := StoredAs(decrypt, Batches(Others(list, raw), size)[i - 1], a);
    var q := StoredAs(decrypt, Batches(Others(list, raw), size)[j - 1], b);
    BatchesInOrder(list, raw, size, i - 1, j - 1, p, q);
  }

  /** A payload in an earlier batch comes before every payload of a later one. */
  lemma {:induction false} BatchesInOrder(list: seq<ContentType>, raw: seq<Raw>, size: nat, i: nat, j: nat,
                                          a: Payload, b: Payload)
    requires size > 0 && i < j < |Batches(Others(list, raw), size)|
    requires a in Batches(Others(list, raw), size)[i] && b in Batches(Others(list, raw), size)[j]
    ensures LoadsBefore(list)(a, b)
  {
    LoadsBeforeOrders(list);
    SortSorts(Constructed(raw), LoadsBefore(list));
    FilterSorted(list, Sorted(list, raw), IsNotItemsKey);
    SortedBatches(list, Others(list, raw), size, i, j, a, b);
  }

  // ----- The load itself

  datatype LoadError = AlreadyLoaded

  class DatabaseLoader {
    var databaseLoaded: bool
    var emitted: seq<seq<Payload>>
    const loadBatchSize: nat
    const localLoadPriority: seq<ContentType>
    const decrypt: Payload -> Payload

    constructor (loadBatchSize: nat, localLoadPriority: seq<ContentType>, decrypt: Payload -> Payload)
      ensures !databaseLoaded && emitted == []
      ensures this.loadBatchSize == loadBatchSize && this.decrypt == decrypt
      ensures this.localLoadPriority == localLoadPriority
    {
      databaseLoaded, emitted := false, [];
      this.loadBatchSize, this.localLoadPriority, this.decrypt := loadBatchSize, localLoadPriority, decrypt;
    }

    method EmitPayloads(payloads: seq<Payload>)
      modifies this`emitted
      ensures emitted == old(emitted) + [payloads]
    {
      emitted := emitted + [payloads];
    }

    method ProcessItemsKeysFirst(itemsKeys: seq<Payload>)
      modifies this`emitted
      ensures emitted == old(emitted) + [KeysEmission(decrypt, itemsKeys)]
    {
      var encrypted := Filter(itemsKeys, IsEncrypted);
      var originallyDecrypted := Filter(itemsKeys, IsDecrypted);
      EmitPayloads(originallyDecrypted + DecryptSplit(decrypt, encrypted));
    }

    method LoadDatabasePayloads(raw: seq<Raw>) returns (r: Result<(), LoadError>)
      requires loadBatchSize > 0
      modifies this
      ensures r == if old(databaseLoaded) then Err(AlreadyLoaded) else Ok(())
      ensures databaseLoaded
      ensures emitted == old(emitted) + if r.Ok? then Load(decrypt, localLoadPriority, raw, loadBatchSize) else []
    {
      if databaseLoaded {
        return Err(AlreadyLoaded);
      }
      if raw == [] {
        databaseLoaded := true;
        return Ok(());
      }
      var unsorted := Construct(raw);
      var payloads := Sort(unsorted, LoadsBefore(localLoadPriority));
      var itemsKeys := Filter(payloads, IsItemsKey);
      SubtractKeys(payloads);
      payloads := Subtract(payloads, itemsKeys);
      ProcessItemsKeysFirst(itemsKeys);
      LoadInBatches(payloads);
      ConcatAssociates(old(emitted), [KeysEmission(decrypt, itemsKeys)],
                       EmitAll(decrypt, Batches(payloads, loadBatchSize)));
      databaseLoaded := true;
      return Ok(());
    }

    /** Records that no payload can be made from are dropped. */
    method Construct(raw: seq<Raw>) returns (payloads: seq<Payload>)
      ensures payloads == Constructed(raw)
    {
      payloads := [];
      for i := 0 to |raw|
        invariant payloads == Constructed(raw[..i])
      {
        assert raw[..i + 1][..i] == raw[..i];
        if raw[i].Readable? {
          payloads := payloads + [raw[i].payload];
        }
      }
      assert raw[..|raw|] == raw;
    }

    method LoadInBatches(payloads: seq<Payload>)
      requires loadBatchSize > 0
      modifies this`emitted
      ensures emitted == old(emitted) + EmitAll(decrypt, Batches(payloads, loadBatchSize))
    {
      var payloadCount := |payloads|;
      var numBatches := NumBatches(payloadCount, loadBatchSize);
      for batchIndex := 0 to numBatches
        invariant emitted + EmitAll(decrypt, Batches(Left(payloads, loadBatchSize, batchIndex), loadBatchSize))
               == old(emitted) + EmitAll(decrypt, Batches(payloads, loadBatchSize))
      {
        StartIs(loadBatchSize, batchIndex);
        StartInside(payloadCount, loadBatchSize, batchIndex);
        EmitSlice(payloads, batchIndex, batchIndex * loadBatchSize);
      }
      NothingLeft(payloads, loadBatchSize);
    }

    method EmitSlice(payloads: seq<Payload>, batchIndex: nat, currentPosition: nat)
      requires loadBatchSize > 0 && currentPosition == Start(loadBatchSize, batchIndex) < |payloads|
      modifies this`emitted
      ensures emitted + EmitAll(decrypt, Batches(Left(payloads, loadBatchSize, batchIndex + 1), loadBatchSize))
           == old(emitted) + EmitAll(decrypt, Batches(Left(payloads, loadBatchSize, batchIndex), loadBatchSize))
    {
      LeftAt(payloads, loadBatchSize, batchIndex);
      EmitBetween(payloads, currentPosition, Left(payloads, loadBatchSize, batchIndex),
                  Left(payloads, loadBatchSize, batchIndex + 1));
    }

    method EmitBetween(payloads: seq<Payload>, currentPosition: nat, ghost here: seq<Payload>, ghost left: seq<Payload>)
      requires loadBatchSize > 0 && currentPosition < |payloads| && here == payloads[currentPosition..]
      requires left == payloads[Min(currentPosition + loadBatchSize, |payloads|)..]
      modifies this`emitted
      ensures emitted + EmitAll(decrypt, Batches(left, loadBatchSize))
           == old(emitted) + EmitAll(decrypt, Batches(here, loadBatchSize))
    {
      NextBatch(payloads, loadBatchSize, currentPosition, here, left, decrypt, emitted);
      EmitBatch(payloads[currentPosition..Min(currentPosition + loadBatchSize, |payloads|)]);
    }

    method EmitBatch(batch: seq<Payload>)
      modifies this`emitted
      ensures emitted == old(emitted) + [BatchEmission(decrypt, batch)]
    {
      var encrypted: seq<Payload> := [];
      var nonencrypted: seq<Payload> := [];
      for i := 0 to |batch|
        invariant emitted == old(emitted)
        invariant encrypted == Filter(batch[..i], IsEncrypted)
        invariant nonencrypted == Filter(batch[..i], IsNonencrypted)
      {
        FilterNext(batch, i, IsEncrypted);
        FilterNext(batch, i, IsNonencrypted);
        if IsEncrypted(batch[i]) {
          encrypted := encrypted + [batch[i]];
        } else {
          nonencrypted := nonencrypted + [batch[i]];
        }
      }
      assert batch[..|batch|] == batch;
      EmitPayloads(nonencrypted + DecryptSplit(decrypt, encrypted));
    }
  }

  /** What the first `k` batches leave over. */
  function Left(payloads: seq<Payload>, size: nat, k: nat): seq<Payload> {
    if k == 0 then payloads
    else
      var left := Left(payloads, size, k - 1);
      left[Min(size, |left|)..]
  }

  lemma {:induction false} StartIs(size: nat, k: nat)
    ensures Start(size, k) == k * size
  {
    if k > 0 {
      StartIs(size, k - 1);
      assert k * size == (k - 1) * size + size;
    }
  }

  lemma {:induction false} StartInside(count: nat, size: nat, k: nat)
    requires size > 0
    ensures k < NumBatches(count, size) <==> Start(size, k) < count
  {
    NumBatchesIff(count, size, k);
    StartIs(size, k);
  }

  lemma {:induction false} LeftIs(payloads: seq<Payload>, size: nat, k: nat)
    ensures Left(payloads, size, k) == payloads[Min(Start(size, k), |payloads|)..]
  {
    if k > 0 {
      LeftIs(payloads, size, k - 1);
    }
  }

  lemma {:induction false} LeftAt(payloads: seq<Payload>, size: nat, k: nat)
    requires Start(size, k) < |payloads|
    ensures Left(payloads, size, k) == payloads[Start(size, k)..]
    ensures Left(payloads, size, k + 1) == payloads[Min(Start(size, k) + size, |payloads|)..]
  {
    LeftIs(payloads, size, k);
    LeftIs(payloads, size, k + 1);
  }

  lemma {:induction false} NothingLeft(payloads: seq<Payload>, size: nat)
    requires size > 0
    ensures Left(payloads, size, NumBatches(|payloads|, size)) == []
  {
    StartInside(|payloads|, size, NumBatches(|payloads|, size));
    LeftIs(payloads, size, NumBatches(|payloads|, size));
  }

  lemma {:induction false} NextBatch(payloads: seq<Payload>, size: nat, position: nat, here: seq<Payload>,
                                     left: seq<Payload>, decrypt: Payload -> Payload, emitted: seq<seq<Payload>>)
    requires size > 0 && position < |payloads| && here == payloads[position..]
    requires left == payloads[Min(position + size, |payloads|)..]
    ensures var batch := payloads[position..Min(position + size, |payloads|)];
      emitted + EmitAll(decrypt, Batches(here, size))
        == emitted + [BatchEmission(decrypt, batch)] + EmitAll(decrypt, Batches(left, size))
  {
    var batch := payloads[position..Min(position + size, |payloads|)];
    BatchesStart(here, size);
    assert here[..Min(size, |here|)] == batch && here[Min(size, |here|)..] == left;
    EmitFirst(decrypt, batch, Batches(left, size));
    ConcatAssociates(emitted, [BatchEmission(decrypt, batch)], EmitAll(decrypt, Batches(left, size)));
  }

  lemma {:induction false} BatchesStart(payloads: seq<Payload>, size: nat)
    requires size > 0 && payloads != []
    ensures var n := Min(size, |payloads|);
      Batches(payloads, size) == [payloads[..n]] + Batches(payloads[n..], size)
  {
  }

  /** Subtracting the items keys leaves what is not an items key, in order. */
  lemma {:induction false} SubtractKeys(s: seq<Payload>)
    ensures Subtract(s, Filter(s, IsItemsKey)) == Filter(s, IsNotItemsKey)
  {
    if s != [] {
      SubtractKeys(s[1..]);
      var keys := Filter(s[1..], IsItemsKey);
      if IsItemsKey(s[0]) {
        assert ([s[0]] + keys)[1..] == keys;
      } else {
        FilterMembers(s[1..], IsItemsKey);
        SubtractSkips(s[0], s[1..], keys);
        assert [s[0]] + s[1..] == s;
      }
    }
  }

  lemma {:induction false} SubtractSkips(x: Payload, s: seq<Payload>, t: seq<Payload>)
    requires x !in t
    ensures Subtract([x] + s, t) == [x] + Subtract(s, t)
    decreases |t|
  {
    if t != [] {
      assert ([x] + s)[1..] == s;
      SubtractSkips(x, RemoveFirst(s, t[0]), t[1..]);
    }
  }
}
