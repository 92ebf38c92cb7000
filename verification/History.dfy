/** The session history of notes: what is recorded, and which revisions an optimization keeps. */
module History {
  import opened Lists
  import opened Wrappers

  type Uuid = nat

  /** `id` counts the observed changes; `deltaSize` and `operationVector` are fixed when the entry is made. */
  datatype Entry = Entry(id: nat, content: string, deltaSize: nat, operationVector: int) {
    predicate IsSameAsEntry(that: Entry) {
      content == that.content
    }

    predicate IsDiscardable() {
      content == ""
    }

    predicate IsSignificant() {
      deltaSize > LARGE_ENTRY_DELTA_THRESHOLD
    }

    predicate IsLargeDeletion() {
      IsSignificant() && operationVector == -1
    }
  }

  const DEFAULT_ITEM_REVISIONS_THRESHOLD := 20
  const LARGE_ENTRY_DELTA_THRESHOLD := 25

  // ----- Optimization, newest entry first

  /** The documented rules: newest, oldest, significant, or just older than a significant deletion. */
  predicate IsKept(entries: seq<Entry>, i: nat)
    requires i < |entries|
  {
    i == 0 || i == |entries| - 1 || entries[i].IsSignificant() || entries[i - 1].IsLargeDeletion()
  }

  function KeptIndices(entries: seq<Entry>, k: nat): seq<nat>
    requires k <= |entries|
  {
    if k == 0 then []
    else
      var before := KeptIndices(entries, k - 1);
      if IsKept(entries, k - 1) then before + [k - 1] else before
  }

  ghost predicate Within(indices: seq<nat>, n: nat) {
    forall j :: 0 <= j < |indices| ==> indices[j] < n
  }

  function At(entries: seq<Entry>, indices: seq<nat>): (r: seq<Entry>)
    requires Within(indices, |entries|)
    ensures |r| == |indices| && forall j :: 0 <= j < |r| ==> r[j] == entries[indices[j]]
  {
    if indices == [] then []
    else At(entries, indices[..|indices| - 1]) + [entries[indices[|indices| - 1]]]
  }

  ghost predicate Increasing(indices: seq<nat>) {
    forall i, j :: 0 <= i < j < |indices| ==> indices[i] < indices[j]
  }

  lemma {:induction false} KeptIndicesAre(entries: seq<Entry>, k: nat)
    requires k <= |entries|
    ensures forall i: nat :: i in KeptIndices(entries, k) <==> i < k && IsKept(entries, i)
    ensures Increasing(KeptIndices(entries, k)) && Within(KeptIndices(entries, k), |entries|)
  {
    if k > 0 {
      KeptIndicesAre(entries, k - 1);
      var before := KeptIndices(entries, k - 1);
      forall i: nat ensures i in KeptIndices(entries, k) <==> i < k && IsKept(entries, i) {
        assert i in before + [k - 1] <==> i in before || i == k - 1;
      }
      forall i, j | 0 <= i < j < |KeptIndices(entries, k)|
        ensures KeptIndices(entries, k)[i] < KeptIndices(entries, k)[j]
      {
        if j == |before| {
          assert before[i] in before;
        }
      }
    }
  }

  /** The kept ones among the first `k` entries. */
  function Kept(entries: seq<Entry>, k: nat): seq<Entry>
    requires k <= |entries|
  {
    if k == 0 then []
    else if IsKept(entries, k - 1) then Kept(entries, k - 1) + [entries[k - 1]]
    else Kept(entries, k - 1)
  }

  lemma {:induction false} KeptAt(entries: seq<Entry>, k: nat)
    requires k <= |entries| && Within(KeptIndices(entries, k), |entries|)
    ensures Kept(entries, k) == At(entries, KeptIndices(entries, k))
  {
    if k > 0 {
      KeptIndicesAre(entries, k - 1);
      KeptAt(entries, k - 1);
      var before := KeptIndices(entries, k - 1);
      assert IsKept(entries, k - 1) ==> (before + [k - 1])[..|before|] == before;
    }
  }

  function Optimized(entries: seq<Entry>): seq<Entry> {
    if |entries| <= DEFAULT_ITEM_REVISIONS_THRESHOLD then entries else Kept(entries, |entries|)
  }

  lemma {:induction false} PickedMembers(entries: seq<Entry>, indices: seq<nat>, i: nat)
    requires Distinct(entries) && Within(indices, |entries|) && i < |entries|
    ensures entries[i] in At(entries, indices) <==> i in indices
  {
    var r := At(entries, indices);
    if entries[i] in r {
      var j :| 0 <= j < |r| && r[j] == entries[i];
      assert indices[j] == i;
    }
    if i in indices {
      var j :| 0 <= j < |indices| && indices[j] == i;
      assert r[j] == entries[i];
    }
  }

  lemma {:induction false} KeptStay(entries: seq<Entry>, i: nat)
    requires Distinct(entries) && i < |entries|
    ensures entries[i] in Kept(entries, |entries|) <==> IsKept(entries, i)
  {
    KeptIndicesAre(entries, |entries|);
    KeptAt(entries, |entries|);
    PickedMembers(entries, KeptIndices(entries, |entries|), i);
  }

  /**
   Up to twenty entries all stay. Of more, an entry stays exactly when it is the newest or the oldest, or brings a
   difference of more than 25 characters, or is just older than one that takes more than 25 characters away.
   */
  lemma {:induction false} OptimizedKeepsExactly(entries: seq<Entry>, i: nat)
    requires Distinct(entries) && i < |entries|
    ensures entries[i] in Optimized(entries) <==>
      || |entries| <= 20 || i == 0 || i == |entries| - 1 || entries[i].deltaSize > 25
      || (entries[i - 1].deltaSize > 25 && entries[i - 1].operationVector == -1)
  {
    if |entries| > 20 {
      KeptStay(entries, i);
    }
  }

  /** What is kept stays in order. */
  lemma {:induction false} OptimizedKeepsOrder(entries: seq<Entry>) returns (indices: seq<nat>)
    ensures Increasing(indices) && Within(indices, |entries|)
    ensures Optimized(entries) == At(entries, indices)
  {
    if |entries| > DEFAULT_ITEM_REVISIONS_THRESHOLD {
      KeptIndicesAre(entries, |entries|);
      KeptAt(entries, |entries|);
      indices := KeptIndices(entries, |entries|);
    } else {
      indices := seq(|entries|, i => i);
      assert At(entries, indices) == entries;
    }
  }

  lemma {:induction false} AllKept(entries: seq<Entry>, k: nat)
    requires k <= |entries| && forall i: nat :: i < |entries| ==> IsKept(entries, i)
    ensures Kept(entries, k) == entries[..k]
  {
    if k > 0 {
      AllKept(entries, k - 1);
    }
  }

  lemma {:induction false} Neighbour(indices: seq<nat>, j: nat)
    requires Increasing(indices) && j < |indices| && indices[j] > 0 && indices[j] - 1 in indices
    ensures j > 0 && indices[j - 1] == indices[j] - 1
  {
    var l :| 0 <= l < |indices| && indices[l] == indices[j] - 1;
    assert l < j;
    assert indices[l] < indices[l + 1] <= indices[j];
  }

  /** A kept entry is kept again among the kept ones: its reason is still beside it. */
  lemma {:induction false} KeptAgain(entries: seq<Entry>, indices: seq<nat>, j: nat)
    requires |entries| > 0 && indices == KeptIndices(entries, |entries|) && j < |indices|
    requires Within(indices, |entries|)
    ensures IsKept(At(entries, indices), j)
  {
    KeptIndicesAre(entries, |entries|);
    var i := indices[j];
    assert i in indices && indices[|indices| - 1] in indices;
    assert j > 0 ==> indices[0] < i;
    assert j < |indices| - 1 ==> i < indices[|indices| - 1];
    if 0 < i < |entries| - 1 && !entries[i].IsSignificant() {
      assert i - 1 in indices;
      Neighbour(indices, j);
    }
  }

  lemma {:induction false} OptimizedTwice(entries: seq<Entry>)
    ensures Optimized(Optimized(entries)) == Optimized(entries)
  {
    var r := Optimized(entries);
    if |entries| > DEFAULT_ITEM_REVISIONS_THRESHOLD && |r| > DEFAULT_ITEM_REVISIONS_THRESHOLD {
      KeptIndicesAre(entries, |entries|);
      KeptAt(entries, |entries|);
      forall j: nat | j < |r| ensures IsKept(r, j) {
        KeptAgain(entries, KeptIndices(entries, |entries|), j);
      }
      AllKept(r, |r|);
    }
  }

  // ----- Recording

  /** What one observed change does to the history of its note and to the entry staged for it. */
  function Record(history: seq<Entry>, staged: Option<Entry>, current: Entry): (seq<Entry>, Option<Entry>) {
    if current.IsDiscardable() then (history, staged)
    else if staged == None || staged.value.IsSameAsEntry(current) then (history, Some(current))
    else if history != [] && staged.value.IsSameAsEntry(history[0]) then (history, Some(current))
    else (Optimized([staged.value] + history), Some(current))
  }

  function RecordAll(observed: seq<Entry>): (seq<Entry>, Option<Entry>) {
    if observed == [] then ([], None)
    else
      var earlier := RecordAll(observed[..|observed| - 1]);
      Record(earlier.0, earlier.1, observed[|observed| - 1])
  }

  /** The last of each stretch of equal values that is over, newest first; blank notes are not looked at. */
  function Completed(observed: seq<Entry>): seq<Entry> {
    if observed == [] then []
    else
      var n := |observed| - 1;
      var last := Latest(observed[..n]);
      if observed[n].content == "" || last == None || last.value.content == observed[n].content
      then Completed(observed[..n])
      else [last.value] + Completed(observed[..n])
  }

  function Latest(observed: seq<Entry>): Option<Entry> {
    if observed == [] then None
    else
      var n := |observed| - 1;
      if observed[n].content == "" then Latest(observed[..n]) else Some(observed[n])
  }

  /** The staged entry is the latest change; it differs from the newest revision. */
  lemma {:induction false} LatestIsStaged(observed: seq<Entry>)
    ensures RecordAll(observed).1 == Latest(observed)
    ensures Completed(observed) != [] ==>
      Latest(observed).Some? && Latest(observed).value.content != Completed(observed)[0].content
  {
    if observed != [] {
      LatestIsStaged(observed[..|observed| - 1]);
    }
  }

  /** Up to the threshold the history is exactly the list of values that have since been replaced. */
  lemma {:induction false} HistoryIsCompleted(observed: seq<Entry>)
    requires |Completed(observed)| <= 20
    ensures RecordAll(observed).0 == Completed(observed)
  {
    if observed != [] {
      HistoryIsCompleted(observed[..|observed| - 1]);
      LatestIsStaged(observed[..|observed| - 1]);
    }
  }

  lemma {:induction false} OptimizedKeepsNewest(entries: seq<Entry>)
    requires entries != []
    ensures Optimized(entries) != [] && Optimized(entries)[0] == entries[0]
  {
    if |entries| > DEFAULT_ITEM_REVISIONS_THRESHOLD {
      KeptStartsWithNewest(entries, |entries|);
    }
  }

  lemma {:induction false} KeptStartsWithNewest(entries: seq<Entry>, k: nat)
    requires 0 < k <= |entries|
    ensures Kept(entries, k) != [] && Kept(entries, k)[0] == entries[0]
  {
    if k > 1 {
      KeptStartsWithNewest(entries, k - 1);
    }
  }

  /** However many changes there were, the staged entry never repeats the newest revision. */
  lemma {:induction false} StagedIsNoRevision(observed: seq<Entry>)
    ensures var (history, staged) := RecordAll(observed);
      && (staged == None ==> history == [])
      && (staged.Some? && history != [] ==> staged.value.content != history[0].content)
  {
    if observed != [] {
      var earlier := RecordAll(observed[..|observed| - 1]);
      StagedIsNoRevision(observed[..|observed| - 1]);
      if earlier.1.Some? {
        OptimizedKeepsNewest([earlier.1.value] + earlier.0);
      }
    }
  }

  /** After any number of changes there is nothing left to optimize. */
  lemma {:induction false} HistoryIsOptimized(observed: seq<Entry>)
    ensures Optimized(RecordAll(observed).0) == RecordAll(observed).0
  {
    if observed != [] {
      var earlier := RecordAll(observed[..|observed| - 1]);
      HistoryIsOptimized(observed[..|observed| - 1]);
      if earlier.1.Some? {
        OptimizedTwice([earlier.1.value] + earlier.0);
      }
    }
  }

  // ----- Whatever is optimized away, history is never invented, repeated or reordered

  ghost predicate NewestFirst(history: seq<Entry>) {
    forall i, j :: 0 <= i < j < |history| ==> history[i].id > history[j].id
  }

  ghost predicate Numbered(observed: seq<Entry>) {
    forall i, j :: 0 <= i < j < |observed| ==> observed[i].id < observed[j].id
  }

  ghost predicate Faithful(history: seq<Entry>, staged: Option<Entry>, observed: seq<Entry>) {
    && NewestFirst(history)
    && (forall e :: e in history ==> e in observed && e.content != "")
    && (history != [] ==> staged.Some?)
    && (staged.Some? ==> staged.value in observed && staged.value.content != "")
    && (forall e :: e in history ==> e.id < staged.value.id)
  }

  lemma {:induction false} PickedFaithful(history: seq<Entry>, indices: seq<nat>)
    requires NewestFirst(history) && Increasing(indices) && Within(indices, |history|)
    ensures NewestFirst(At(history, indices)) && forall e :: e in At(history, indices) ==> e in history
  {
    var r := At(history, indices);
    forall i, j | 0 <= i < j < |r| ensures r[i].id > r[j].id {
      assert indices[i] < indices[j];
    }
  }

  lemma {:induction false} OptimizedFaithful(history: seq<Entry>)
    requires NewestFirst(history)
    ensures NewestFirst(Optimized(history)) && forall e :: e in Optimized(history) ==> e in history
  {
    var indices := OptimizedKeepsOrder(history);
    PickedFaithful(history, indices);
  }

  lemma {:induction false} RecordKeepsFaithful(history: seq<Entry>, staged: Option<Entry>, observed: seq<Entry>,
                                               current: Entry)
    requires Faithful(history, staged, observed) && forall e :: e in observed ==> e.id < current.id
    ensures var r := Record(history, staged, current); Faithful(r.0, r.1, observed + [current])
  {
    if staged.Some? {
      OptimizedFaithful([staged.value] + history);
    }
  }

  lemma {:induction false} HistoryIsFaithful(observed: seq<Entry>)
    requires Numbered(observed)
    ensures Faithful(RecordAll(observed).0, RecordAll(observed).1, observed)
  {
    if observed != [] {
      var n := |observed| - 1;
      HistoryIsFaithful(observed[..n]);
      var earlier := RecordAll(observed[..n]);
      RecordKeepsFaithful(earlier.0, earlier.1, observed[..n], observed[n]);
      assert observed == observed[..n] + [observed[n]];
    }
  }
}
