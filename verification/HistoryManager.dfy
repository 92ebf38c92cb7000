/** The history manager: two maps that change with every change of a note. */
module HistoryManager {
  import opened Lists
  import opened Wrappers
  import opened History

  datatype Change = Change(uuid: Uuid, content: string)

  function Of(entries: map<Uuid, seq<Entry>>, u: Uuid): seq<Entry> {
    if u in entries then entries[u] else []
  }

  function Contents(entries: seq<Entry>): seq<string> {
    if entries == [] then [] else Contents(entries[..|entries| - 1]) + [entries[|entries| - 1].content]
  }

  /** The values that a list of changes brings for one note. */
  function Values(changes: seq<Change>, u: Uuid): seq<string> {
    if changes == [] then []
    else
      var n := |changes| - 1;
      if changes[n].uuid == u then Values(changes[..n], u) + [changes[n].content] else Values(changes[..n], u)
  }

  lemma {:induction false} StagedIsNew(observed: seq<Entry>)
    requires Numbered(observed) && RecordAll(observed).1.Some?
    ensures Distinct([RecordAll(observed).1.value] + RecordAll(observed).0)
  {
    HistoryIsFaithful(observed);
    var entries := [RecordAll(observed).1.value] + RecordAll(observed).0;
    forall i, j | 0 <= i < j < |entries| ensures entries[i] != entries[j] {
      assert entries[i].id > entries[j].id;
    }
  }

  ghost predicate IsRecord(history: seq<Entry>, staged: Option<Entry>, observed: seq<Entry>, next: nat) {
    (history, staged) == RecordAll(observed) && Numbered(observed) && forall e :: e in observed ==> e.id < next
  }

  lemma {:induction false} NextRecord(history: seq<Entry>, staged: Option<Entry>, observed: seq<Entry>, current: Entry)
    requires IsRecord(history, staged, observed, current.id)
    ensures var r := Record(history, staged, current); IsRecord(r.0, r.1, observed + [current], current.id + 1)
  {
    assert (observed + [current])[..|observed|] == observed;
  }

  lemma {:induction false} SameRecord(history: seq<Entry>, staged: Option<Entry>, observed: seq<Entry>, next: nat)
    requires IsRecord(history, staged, observed, next)
    ensures IsRecord(history, staged, observed, next + 1)
  {
  }

  function StagedIn(staging: map<Uuid, Entry>, u: Uuid): Option<Entry> {
    if u in staging then Some(staging[u]) else None
  }

  ghost predicate RecordedIn(history: map<Uuid, seq<Entry>>, staging: map<Uuid, Entry>,
                             observed: map<Uuid, seq<Entry>>, next: nat, u: Uuid) {
    IsRecord(Of(history, u), StagedIn(staging, u), Of(observed, u), next)
  }

  lemma {:induction false} ObservedNext(history: map<Uuid, seq<Entry>>, staging: map<Uuid, Entry>,
                                        observed: map<Uuid, seq<Entry>>, next: nat, u: Uuid, current: Entry, x: Uuid)
    requires IsRecord(Of(history, u), StagedIn(staging, u), Of(observed, u) + [current], next + 1)
    requires x != u ==> RecordedIn(history, staging, observed, next, x)
    ensures RecordedIn(history, staging, observed[u := Of(observed, u) + [current]], next + 1, x)
  {
    var observed' := observed[u := Of(observed, u) + [current]];
    if x != u {
      assert Of(observed', x) == Of(observed, x);
      SameRecord(Of(history, x), StagedIn(staging, x), Of(observed, x), next);
    } else {
      assert Of(observed', x) == Of(observed, u) + [current];
    }
  }

  ghost predicate AllRecordedIn(history: map<Uuid, seq<Entry>>, staging: map<Uuid, Entry>,
                                observed: map<Uuid, seq<Entry>>, next: nat) {
    forall u :: RecordedIn(history, staging, observed, next, u)
  }

  lemma {:induction false} AllObservedNext(history: map<Uuid, seq<Entry>>, staging: map<Uuid, Entry>,
                                           observed: map<Uuid, seq<Entry>>, next: nat, u: Uuid, current: Entry,
                                           observed': map<Uuid, seq<Entry>>, next': nat)
    requires IsRecord(Of(history, u), StagedIn(staging, u), Of(observed, u) + [current], next + 1)
    requires forall x :: x != u ==> RecordedIn(history, staging, observed, next, x)
    requires observed' == observed[u := Of(observed, u) + [current]] && next' == next + 1
    ensures AllRecordedIn(history, staging, observed', next')
  {
    forall x ensures RecordedIn(history, staging, observed', next', x) {
      ObservedNext(history, staging, observed, next, u, current, x);
    }
  }

  /** Size and direction of the difference between a content and a revision, if there is one. */
  type Compare = (string, Option<Entry>) -> (nat, int)

  function Newest(history: seq<Entry>): Option<Entry> {
    if history == [] then None else Some(history[0])
  }

  /** The entry was measured against the newest revision that recording the earlier values had given. */
  ghost predicate MeasuredAt(compare: Compare, observed: seq<Entry>, i: nat)
    requires i < |observed|
  {
    (observed[i].deltaSize, observed[i].operationVector)
      == compare(observed[i].content, Newest(RecordAll(observed[..i]).0))
  }

  ghost predicate Measured(compare: Compare, observed: seq<Entry>) {
    forall i :: 0 <= i < |observed| ==> MeasuredAt(compare, observed, i)
  }

  lemma {:induction false} MeasuredNext(compare: Compare, observed: seq<Entry>, current: Entry)
    requires Measured(compare, observed)
    requires (current.deltaSize, current.operationVector) == compare(current.content, Newest(RecordAll(observed).0))
    ensures Measured(compare, observed + [current])
  {
    var all := observed + [current];
    forall i | 0 <= i < |all| ensures MeasuredAt(compare, all, i) {
      if i < |observed| {
        assert all[..i] == observed[..i] && MeasuredAt(compare, observed, i);
      } else {
        assert all[..i] == observed;
      }
    }
  }

  ghost predicate AllMeasured(compare: Compare, observed: map<Uuid, seq<Entry>>) {
    forall u :: Measured(compare, Of(observed, u))
  }

  lemma {:induction false} AllMeasuredNext(compare: Compare, observed: map<Uuid, seq<Entry>>, u: Uuid, current: Entry)
    requires AllMeasured(compare, observed) && Measured(compare, Of(observed, u) + [current])
    ensures AllMeasured(compare, observed[u := Of(observed, u) + [current]])
  {
    var observed' := observed[u := Of(observed, u) + [current]];
    forall x ensures Measured(compare, Of(observed', x)) {
      assert x != u ==> Of(observed', x) == Of(observed, x);
    }
  }

  class HistoryManager {
    var history: map<Uuid, seq<Entry>>
    var historyStaging: map<Uuid, Entry>
    var nextId: nat
    const compare: Compare
    ghost var observed: map<Uuid, seq<Entry>>

    constructor (compare: Compare)
      ensures Valid() && this.compare == compare && forall u :: Of(observed, u) == []
    {
      this.history, this.historyStaging, this.nextId, this.compare := map[], map[], 0, compare;
      this.observed := map[];
    }

    function Staged(u: Uuid): Option<Entry>
      reads this
    {
      StagedIn(historyStaging, u)
    }

    /**
     The two maps hold for each note what recording its observed values one by one gives, and each value was
     measured against what was the newest revision when it was observed.
     */
    ghost predicate Valid()
      reads this
    {
      AllRecordedIn(history, historyStaging, observed, nextId) && AllMeasured(compare, observed)
    }

    ghost predicate Recorded(u: Uuid)
      reads this
    {
      RecordedIn(history, historyStaging, observed, nextId, u)
    }

    method OptimizeHistoryForItem(uuid: Uuid)
      requires Distinct(Of(history, uuid))
      modifies this`history
      ensures history == if uuid in old(history) then old(history)[uuid := Optimized(old(history)[uuid])]
                         else old(history)
    {
      var entries := Of(history, uuid);
      if |entries| <= DEFAULT_ITEM_REVISIONS_THRESHOLD {
        return;
      }
      var keepEntries := EntriesToKeep(entries);
      var filtered := FilterKept(entries, keepEntries);
      history := history[uuid := filtered];
    }

    method FilterKept(entries: seq<Entry>, keepEntries: seq<Entry>) returns (filtered: seq<Entry>)
      requires Keeps(entries, 0, keepEntries)
      ensures filtered == Kept(entries, |entries|)
    {
      filtered := [];
      for i := 0 to |entries|
        invariant filtered == Kept(entries, i)
      {
        if entries[i] in keepEntries {
          filtered := filtered + [entries[i]];
        }
      }
    }

    /** Walks from the oldest entry to the newest; an entry passed over may be kept for the sake of the next one. */
    method EntriesToKeep(entries: seq<Entry>) returns (keepEntries: seq<Entry>)
      requires Distinct(entries) && entries != []
      ensures Keeps(entries, 0, keepEntries)
    {
      keepEntries := [];
      for index := |entries| downto 0
        invariant Keeps(entries, index, keepEntries)
      {
        var isSignificant := index == 0 || index == |entries| - 1 || entries[index].IsSignificant();
        keepEntries := ProcessEntry(entries, keepEntries, index, isSignificant);
      }
    }

    method ProcessEntry(entries: seq<Entry>, keepEntries: seq<Entry>, index: nat, keep: bool)
      returns (r: seq<Entry>)
      requires Distinct(entries) && index < |entries| && Keeps(entries, index + 1, keepEntries)
      requires keep <==> index == 0 || index == |entries| - 1 || entries[index].IsSignificant()
      ensures Keeps(entries, index, r)
    {
      if !keep {
        RemoveAbsent(keepEntries, entries[index]);
        return RemoveFirst(keepEntries, entries[index]);
      }
      r := [entries[index]] + keepEntries;
      if entries[index].IsLargeDeletion() && index + 1 < |entries| {
        r := [entries[index + 1]] + r;
      }
    }

    method RecordNewHistoryForItems(items: seq<Change>)
      requires Valid()
      modifies this
      ensures Valid()
      ensures forall u :: Contents(Of(observed, u)) == Contents(Of(old(observed), u)) + Values(items, u)
    {
      for i := 0 to |items|
        invariant Valid()
        invariant forall u :: Contents(Of(observed, u)) == Contents(Of(old(observed), u)) + Values(items[..i], u)
      {
        ghost var before := observed;
        var current := RecordNewHistoryForItem(items[i]);
        forall u ensures Contents(Of(observed, u)) == Contents(Of(old(observed), u)) + Values(items[..i + 1], u) {
          ContentsNext(Of(before, u), current);
          ValuesNext(items, i, u, Contents(Of(old(observed), u)));
        }
      }
      assert items[..|items|] == items;
    }

    method RecordNewHistoryForItem(item: Change) returns (current: Entry)
      requires Valid()
      modifies this
      ensures Valid() && current.content == item.content
      ensures forall u :: Of(observed, u) == Of(old(observed), u) + (if u == item.uuid then [current] else [])
    {
      var u := item.uuid;
      var itemHistory := Of(history, u);
      var latestEntry := if itemHistory == [] then None else Some(itemHistory[0]);
      var (size, vector) := compare(item.content, latestEntry);
      current := Entry(nextId, item.content, size, vector);
      assert Recorded(u);
      NextRecord(itemHistory, Staged(u), Of(observed, u), current);
      MeasuredNext(compare, Of(observed, u), current);
      StageOrRecord(u, current);
      forall x | x != u ensures RecordedIn(history, historyStaging, observed, nextId, x) {
        assert old(Recorded(x)) && Of(history, x) == old(Of(history, x)) && Staged(x) == old(Staged(x));
      }
      Observe(u, current);
    }

    /** The value has been looked at; the next entry gets the next number. */
    method Observe(u: Uuid, current: Entry)
      requires IsRecord(Of(history, u), Staged(u), Of(observed, u) + [current], nextId + 1)
      requires forall x :: x != u ==> RecordedIn(history, historyStaging, observed, nextId, x)
      requires AllMeasured(compare, observed) && Measured(compare, Of(observed, u) + [current])
      modifies this`observed, this`nextId
      ensures Valid() && observed == old(observed)[u := Of(old(observed), u) + [current]]
    {
      observed := observed[u := Of(observed, u) + [current]];
      nextId := nextId + 1;
      AllMeasuredNext(compare, old(observed), u, current);
      AllObservedNext(history, historyStaging, old(observed), old(nextId), u, current, observed, nextId);
    }

    /** Every change is staged first; what was staged is recorded once it has been replaced. */
    method StageOrRecord(u: Uuid, current: Entry)
      requires Recorded(u)
      modifies this`history, this`historyStaging
      ensures (Of(history, u), Staged(u)) == Record(old(Of(history, u)), old(Staged(u)), current)
      ensures forall x :: x != u ==> Of(history, x) == old(Of(history, x)) && Staged(x) == old(Staged(x))
    {
      if current.IsDiscardable() {
        return;
      }
      var itemHistory := Of(history, u);
      var stagedEntry := Staged(u);
      historyStaging := historyStaging[u := current];
      if stagedEntry == None || stagedEntry.value.IsSameAsEntry(current) {
        return;
      }
      if itemHistory != [] && stagedEntry.value.IsSameAsEntry(itemHistory[0]) {
        return;
      }
      StagedIsNew(Of(observed, u));
      AddRevision(u, stagedEntry.value);
    }

    method AddRevision(u: Uuid, entry: Entry)
      requires Distinct([entry] + Of(history, u))
      modifies this`history
      ensures history == old(history)[u := Optimized([entry] + Of(old(history), u))]
    {
      history := history[u := [entry] + Of(history, u)];
      OptimizeHistoryForItem(u);
    }
  }

  function ValueFor(item: Change, u: Uuid): seq<string> {
    if item.uuid == u then [item.content] else []
  }

  lemma {:induction false} ContentsNext(observed: seq<Entry>, current: Entry)
    ensures Contents(observed + [current]) == Contents(observed) + [current.content]
    ensures observed + [] == observed
  {
    assert (observed + [current])[..|observed|] == observed;
  }

  lemma {:induction false} ValuesNext(items: seq<Change>, i: nat, u: Uuid, before: seq<string>)
    requires i < |items|
    ensures before + Values(items[..i + 1], u) == (before + Values(items[..i], u)) + ValueFor(items[i], u)
  {
    assert items[..i + 1][..i] == items[..i];
  }

  ghost predicate Keeps(entries: seq<Entry>, index: nat, keepEntries: seq<Entry>) {
    forall i :: 0 <= i < |entries| ==> (entries[i] in keepEntries <==> KeptSoFar(entries, index, i))
  }

  /** What the walk has decided about entry `i` once it has passed all entries from `index` on. */
  ghost predicate KeptSoFar(entries: seq<Entry>, index: nat, i: nat)
    requires i < |entries|
  {
    && i >= index
    && (i == 0 || i == |entries| - 1 || entries[i].IsSignificant()
        || (i - 1 >= index && entries[i - 1].IsLargeDeletion()))
  }
}
