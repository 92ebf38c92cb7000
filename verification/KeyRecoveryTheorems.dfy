/** What a run of the recovery queue keeps, and that it ends. */
module KeyRecoveryTheorems {
  import opened Lists
  import opened Wrappers
  import opened KeyRecoveryModel

  // ----- Picking out the entries for one root key

  lemma {:induction false} SelectCounts(queue: seq<QueueItem>, params: KeyParams, e: QueueItem)
    ensures Count(queue, e) == Count(Select(queue, params, true), e) + Count(Select(queue, params, false), e)
    ensures |queue| == |Select(queue, params, true)| + |Select(queue, params, false)|
  {
    if queue != [] {
      var matching := queue[0].keyParams.Compare(params);
      SelectCounts(queue[1..], params, e);
      assert Select(queue, params, matching) == [queue[0]] + Select(queue[1..], params, matching);
      assert Select(queue, params, !matching) == Select(queue[1..], params, !matching);
      CountAppend([queue[0]], Select(queue[1..], params, matching), e);
    }
  }

  /** The matching entries are those with the parameters that a root key is computed from. */
  lemma {:induction false} SelectIff(queue: seq<QueueItem>, params: KeyParams, matching: bool, e: QueueItem)
    ensures e in Select(queue, params, matching) <==>
      && e in queue
      && ((e.keyParams.version == params.version && e.keyParams.derivation == params.derivation) <==> matching)
  {
    FilterMembers(queue, Matches(params, matching));
  }

  /** Two selected entries stand in the order in which they were queued. */
  lemma {:induction false} SelectKeepsOrder(queue: seq<QueueItem>, params: KeyParams, matching: bool, i: nat, j: nat)
    returns (k: nat, l: nat)
    requires i < j < |Select(queue, params, matching)|
    ensures k < l < |queue|
    ensures queue[k] == Select(queue, params, matching)[i] && queue[l] == Select(queue, params, matching)[j]
  {
    var n := |queue| - 1;
    var earlier := Select(queue[..n], params, matching);
    FilterLast(queue, Matches(params, matching));
    if j < |earlier| {
      k, l := SelectKeepsOrder(queue[..n], params, matching, i, j);
    } else {
      l := n;
      FilterMembers(queue[..n], Matches(params, matching));
      assert earlier[i] in earlier;
      k :| 0 <= k < n && queue[..n][k] == earlier[i];
    }
  }

  // ----- One turn

  /** A wrong password leaves the queue as it was, with what arrived meanwhile at its end. */
  lemma {:induction false} FailureKeepsQueue(s: Recovery, server: Option<KeyParams>, answer: Answer)
    requires s.queue != [] && answer.verdict == Failed
    ensures Turn(s, server, answer) == s.(queue := s.queue + answer.before + answer.after)
  {
    var queue := [s.queue[0]] + (s.queue + answer.before) + answer.after;
    assert queue[1..] == s.queue + answer.before + answer.after;
  }

  /** Closing the prompt gives up its entry and ends the run. */
  lemma {:induction false} AbortDropsHead(s: Recovery, server: Option<KeyParams>, answer: Answer)
    requires s.queue != [] && answer.verdict == Aborted
    ensures Turn(s, server, answer) == s.(queue := s.queue[1..] + answer.before + answer.after,
                                          processing := false, abandoned := s.abandoned + [s.queue[0]])
  {
    var queue := s.queue + answer.before + answer.after;
    assert queue[1..] == s.queue[1..] + answer.before + answer.after;
  }

  /** A correct password takes every entry it fits, its own among them, and leaves the others in order. */
  lemma {:induction false} SuccessTakesMatching(s: Recovery, server: Option<KeyParams>, answer: Answer)
    requires s.queue != [] && answer.verdict == Succeeded && Distinct(s.queue + answer.before + answer.after)
    ensures var t := Turn(s, server, answer); var joined := s.queue + answer.before;
      && t.queue == Select(joined, s.queue[0].keyParams, false) + answer.after
      && t.taken == s.taken + Select(joined, s.queue[0].keyParams, true)
      && s.queue[0] in Select(joined, s.queue[0].keyParams, true)
      && t.abandoned == s.abandoned && t.processing == s.processing
  {
    var head := s.queue[0];
    var joined := s.queue + answer.before;
    FilterMembers(joined, Matches(head.keyParams, true));
    FilterMembers(joined, Matches(head.keyParams, false));
    assert joined[0] == head;
    var all := s.queue + answer.before + answer.after;
    forall i | 0 <= i < |answer.after| ensures answer.after[i] != head {
      assert all[|joined| + i] == answer.after[i] && all[0] == head;
    }
    RemoveAbsent(Select(joined, head.keyParams, false) + answer.after, head);
  }

  // ----- The root key

  lemma {:induction false} TurnReplaces(s: Recovery, server: Option<KeyParams>, answer: Answer)
    requires s.queue != []
    ensures var replace := answer.verdict == Succeeded && Replaces(s.queue[0], s.clientParams, server, s.validKeys);
      && Turn(s, server, answer).replacements == s.replacements + (if replace then 1 else 0)
      && Turn(s, server, answer).clientParams == if replace then Some(s.queue[0].keyParams) else s.clientParams
  {
  }

  /** Once the local parameters agree with the server's, they stay; a replacement makes them agree. */
  lemma {:induction false} TurnAndRootKey(s: Recovery, server: Option<KeyParams>, answer: Answer)
    requires s.queue != []
    ensures var t := Turn(s, server, answer);
      if t.replacements == s.replacements then t.clientParams == s.clientParams
      else
        && t.replacements == s.replacements + 1
        && server.Some? && s.clientParams.Some? && t.clientParams.Some?
        && !s.clientParams.value.Compare(server.value) && t.clientParams.value.Compare(server.value)
        && t.clientParams.value.version >= s.clientParams.value.version
        && (forall date :: date in s.validKeys ==> date < s.queue[0].createdAt)
  {
    TurnReplaces(s, server, answer);
    ReplacesIff(s.queue[0], s.clientParams, server, s.validKeys);
  }

  ghost predicate Agrees(client: Option<KeyParams>, server: Option<KeyParams>) {
    client.Some? && server.Some? && client.value.Compare(server.value)
  }

  /** One run sets the root key at most once, and never if it agrees with the server at the start. */
  lemma {:induction false} RootKeyReplacedAtMostOnce(s: Recovery, server: Option<KeyParams>, answers: seq<Answer>)
    ensures var t := ProcessQueue(s, server, answers);
      && s.replacements <= t.replacements
      && t.replacements <= s.replacements + (if Agrees(s.clientParams, server) then 0 else 1)
      && (t.replacements == s.replacements ==> t.clientParams == s.clientParams)
      && (t.replacements > s.replacements ==> Agrees(t.clientParams, server))
    decreases |answers|
  {
    if s.processing && s.queue != [] && answers != [] {
      TurnAndRootKey(s, server, answers[0]);
      RootKeyReplacedAtMostOnce(Turn(s, server, answers[0]), server, answers[1..]);
    }
  }

  lemma {:induction false} RootKeyVersionNeverDrops(s: Recovery, server: Option<KeyParams>, answers: seq<Answer>)
    requires s.clientParams.Some?
    ensures var t := ProcessQueue(s, server, answers);
      t.clientParams.Some? && t.clientParams.value.version >= s.clientParams.value.version
    decreases |answers|
  {
    if s.processing && s.queue != [] && answers != [] {
      TurnAndRootKey(s, server, answers[0]);
      RootKeyVersionNeverDrops(Turn(s, server, answers[0]), server, answers[1..]);
    }
  }

  // ----- Where entries go

  /** What one turn takes off the queue. */
  function Gone(s: Recovery, answer: Answer): seq<QueueItem>
    requires s.queue != []
  {
    match answer.verdict
    case Failed => []
    case Aborted => [s.queue[0]]
    case Succeeded => Select(s.queue + answer.before, s.queue[0].keyParams, true)
  }

  lemma {:induction false} SumCounts(queue: seq<QueueItem>, before: seq<QueueItem>, after: seq<QueueItem>, e: QueueItem)
    ensures Count(queue + before + after, e) == Count(queue, e) + Count(before, e) + Count(after, e)
  {
    CountAppend(queue, before, e);
    CountAppend(queue + before, after, e);
  }

  lemma {:induction false} HeadCounts(queue: seq<QueueItem>, e: QueueItem)
    requires queue != []
    ensures Count(queue[1..], e) + Count([queue[0]], e) == Count(queue, e)
  {
    assert queue == [queue[0]] + queue[1..];
  }

  lemma {:induction false} MatchingCounts(queue: seq<QueueItem>, before: seq<QueueItem>, after: seq<QueueItem>,
                                          params: KeyParams, e: QueueItem)
    ensures Count(Select(queue + before, params, false) + after, e) + Count(Select(queue + before, params, true), e)
         == Count(queue, e) + Count(before, e) + Count(after, e)
  {
    SelectCounts(queue + before, params, e);
    CountAppend(queue, before, e);
    CountAppend(Select(queue + before, params, false), after, e);
  }

  lemma {:induction false} TurnCounts(s: Recovery, server: Option<KeyParams>, answer: Answer, e: QueueItem)
    requires s.queue != [] && Distinct(s.queue + answer.before + answer.after)
    ensures Count(Turn(s, server, answer).queue, e) + Count(Gone(s, answer), e)
         == Count(s.queue, e) + Count(answer.before, e) + Count(answer.after, e)
  {
    if answer.verdict == Failed {
      FailureKeepsQueue(s, server, answer);
      SumCounts(s.queue, answer.before, answer.after, e);
    } else if answer.verdict == Aborted {
      AbortDropsHead(s, server, answer);
      SumCounts(s.queue[1..], answer.before, answer.after, e);
      HeadCounts(s.queue, e);
    } else {
      SuccessTakesMatching(s, server, answer);
      MatchingCounts(s.queue, answer.before, answer.after, s.queue[0].keyParams, e);
    }
  }

  lemma {:induction false} TurnKeepsAccount(s: Recovery, server: Option<KeyParams>, answer: Answer, e: QueueItem)
    requires s.queue != [] && Distinct(s.queue + answer.before + answer.after)
    ensures Count(Turn(s, server, answer).taken, e) + Count(Turn(s, server, answer).abandoned, e)
         == Count(s.taken, e) + Count(s.abandoned, e) + Count(Gone(s, answer), e)
  {
    if answer.verdict == Succeeded {
      SuccessTakesMatching(s, server, answer);
      CountAppend(s.taken, Gone(s, answer), e);
    } else {
      CountAppend(s.abandoned, Gone(s, answer), e);
      assert s.abandoned + [] == s.abandoned;
    }
  }

  /** Every turn that does not end in a wrong password makes the queue shorter. */
  lemma {:induction false} TurnShortens(s: Recovery, server: Option<KeyParams>, answer: Answer)
    requires s.queue != [] && Distinct(s.queue + answer.before + answer.after)
    ensures |Turn(s, server, answer).queue| + |Gone(s, answer)| == |s.queue| + |answer.before| + |answer.after|
    ensures Gone(s, answer) == [] <==> answer.verdict == Failed
  {
    if answer.verdict == Failed {
      FailureKeepsQueue(s, server, answer);
    } else if answer.verdict == Aborted {
      AbortDropsHead(s, server, answer);
    } else {
      SuccessTakesMatching(s, server, answer);
      SelectCounts(s.queue + answer.before, s.queue[0].keyParams, s.queue[0]);
    }
  }

  /** Arrivals are new entries. */
  ghost predicate Fresh(queue: seq<QueueItem>, answers: seq<Answer>) {
    Distinct(queue + Arrivals(answers))
  }

  lemma {:induction false} TurnKeepsFresh(s: Recovery, server: Option<KeyParams>, answers: seq<Answer>)
    requires s.queue != [] && answers != [] && Fresh(s.queue, answers)
    ensures Distinct(s.queue + answers[0].before + answers[0].after)
    ensures Fresh(Turn(s, server, answers[0]).queue, answers[1..])
  {
    var joined := s.queue + answers[0].before + answers[0].after;
    var all := s.queue + Arrivals(answers);
    assert all == joined + Arrivals(answers[1..]);
    assert joined == all[..|joined|];
    var left := Turn(s, server, answers[0]).queue + Arrivals(answers[1..]);
    DistinctCountedOnce(all);
    forall e: QueueItem ensures Count(left, e) <= 1 {
      TurnCounts(s, server, answers[0], e);
      ArrivalsCount(answers, e);
      CountAppend(s.queue, Arrivals(answers), e);
      CountAppend(Turn(s, server, answers[0]).queue, Arrivals(answers[1..]), e);
      assert Count(all, e) <= 1;
    }
    CountedOnceDistinct(left);
  }

  lemma {:induction false} ArrivalsCount(answers: seq<Answer>, e: QueueItem)
    requires answers != []
    ensures Count(Arrivals(answers), e)
         == Count(answers[0].before, e) + Count(answers[0].after, e) + Count(Arrivals(answers[1..]), e)
  {
    CountAppend(answers[0].before, answers[0].after, e);
    CountAppend(answers[0].before + answers[0].after, Arrivals(answers[1..]), e);
  }

  /** Every entry ever queued is still queued, was taken by a correct password, or was given up with its prompt. */
  lemma {:induction false} EntriesAreConserved(s: Recovery, server: Option<KeyParams>, answers: seq<Answer>,
                                               e: QueueItem)
    requires Fresh(s.queue, answers)
    ensures var t := ProcessQueue(s, server, answers);
      Count(t.queue, e) + Count(t.taken, e) + Count(t.abandoned, e)
        + Count(Arrivals(Unused(s, server, answers)), e)
      == Count(s.queue, e) + Count(s.taken, e) + Count(s.abandoned, e) + Count(Arrivals(answers), e)
    decreases |answers|
  {
    if s.processing && s.queue != [] && answers != [] {
      TurnKeepsFresh(s, server, answers);
      TurnCounts(s, server, answers[0], e);
      TurnKeepsAccount(s, server, answers[0], e);
      ArrivalsCount(answers, e);
      EntriesAreConserved(Turn(s, server, answers[0]), server, answers[1..], e);
    }
  }

  // ----- The run ends

  function RightOrClosed(answers: seq<Answer>): nat {
    if answers == [] then 0
    else (if answers[0].verdict == Failed then 0 else 1) + RightOrClosed(answers[1..])
  }

  /** More prompts that did not end in a wrong password than there were entries: by then the run is over. */
  lemma {:induction false} RunEnds(s: Recovery, server: Option<KeyParams>, answers: seq<Answer>)
    requires Fresh(s.queue, answers)
    requires RightOrClosed(answers) > |s.queue| + |Arrivals(answers)|
    ensures !ProcessQueue(s, server, answers).processing
    decreases |answers|
  {
    if s.processing && s.queue != [] {
      TurnKeepsFresh(s, server, answers);
      TurnShortens(s, server, answers[0]);
      RunEnds(Turn(s, server, answers[0]), server, answers[1..]);
    }
  }

  // ----- What is uploaded again

  lemma {:induction false} DecryptedFlags(matching: seq<QueueItem>, client: Option<KeyParams>,
                                          server: Option<KeyParams>, decryptable: set<nat>)
    ensures forall r :: r in Decrypted(matching, client, server, decryptable) <==>
      r.item in matching && r.item.id in decryptable && r.dirty == NeedsResync(client, server, r.item.keyParams)
  {
    if matching != [] {
      DecryptedFlags(matching[..|matching| - 1], client, server, decryptable);
      assert matching == matching[..|matching| - 1] + [matching[|matching| - 1]];
    }
  }

  /** The keys recovered in one turn are marked as dirty all or none: all if and only if the root key agrees with
      the server and the password was for other parameters; so never when it replaces the root key. */
  lemma {:induction false} DirtyIff(s: Recovery, server: Option<KeyParams>, answer: Answer, r: Recovered)
    requires s.queue != [] && answer.verdict == Succeeded
    requires r in Turn(s, server, answer).recovered[|s.recovered|..]
    ensures r.dirty <==> Agrees(s.clientParams, server) && !s.queue[0].keyParams.Compare(server.value)
    ensures r.dirty ==> Turn(s, server, answer).replacements == s.replacements
  {
    var head := s.queue[0];
    var joined := s.queue + answer.before;
    var replace := Replaces(head, s.clientParams, server, s.validKeys);
    var client := if replace then Some(head.keyParams) else s.clientParams;
    var matching := Select(joined, head.keyParams, true);
    FilterMembers(joined, Matches(head.keyParams, true));
    DecryptedFlags(matching, client, server, answer.decryptable);
    assert Turn(s, server, answer).recovered[|s.recovered|..]
        == Decrypted(matching, client, server, answer.decryptable);
  }

  // ----- What is taken off the queue is emitted

  function IsReadable(decryptable: set<nat>): QueueItem -> bool {
    (item: QueueItem) => item.id in decryptable
  }

  function ItemOf(r: Recovered): QueueItem {
    r.item
  }

  function Items(keys: seq<Recovered>): (r: seq<QueueItem>)
    ensures |r| == |keys|
  {
    Map(keys, ItemOf)
  }

  lemma {:induction false} DecryptedItems(matching: seq<QueueItem>, client: Option<KeyParams>,
                                          server: Option<KeyParams>, decryptable: set<nat>)
    ensures Items(Decrypted(matching, client, server, decryptable)) == Filter(matching, IsReadable(decryptable))
  {
    if matching != [] {
      var n := |matching| - 1;
      DecryptedItems(matching[..n], client, server, decryptable);
      FilterLast(matching, IsReadable(decryptable));
      var earlier := Decrypted(matching[..n], client, server, decryptable);
      var more := Decrypted(matching, client, server, decryptable);
      assert |more| == |earlier| + 1 ==> Items(more) == Items(earlier) + [more[|earlier|].item];
    }
  }

  /** What a turn adds to the entries taken, and to the keys emitted. */
  function NewlyTaken(s: Recovery, t: Recovery): seq<QueueItem> {
    if |s.taken| <= |t.taken| then t.taken[|s.taken|..] else []
  }

  function NewlyRecovered(s: Recovery, t: Recovery): seq<Recovered> {
    if |s.recovered| <= |t.recovered| then t.recovered[|s.recovered|..] else []
  }

  /** Of the entries taken in a turn exactly those that decrypt are emitted, each once and in the order of the queue. */
  lemma {:induction false} TakenAreRecovered(s: Recovery, server: Option<KeyParams>, answer: Answer)
    requires s.queue != []
    ensures var t := Turn(s, server, answer);
      && t.taken == s.taken + NewlyTaken(s, t) && t.recovered == s.recovered + NewlyRecovered(s, t)
      && Items(NewlyRecovered(s, t)) == Filter(NewlyTaken(s, t), IsReadable(answer.decryptable))
  {
    var t := Turn(s, server, answer);
    if answer.verdict == Succeeded {
      var head, joined := s.queue[0], s.queue + answer.before;
      var matching := Select(joined, head.keyParams, true);
      var replace := Replaces(head, s.clientParams, server, s.validKeys);
      var client := if replace then Some(head.keyParams) else s.clientParams;
      assert NewlyTaken(s, t) == matching;
      assert NewlyRecovered(s, t) == Decrypted(matching, client, server, answer.decryptable);
      DecryptedItems(matching, client, server, answer.decryptable);
    } else {
      assert NewlyTaken(s, t) == [] && NewlyRecovered(s, t) == [];
    }
  }

  lemma {:induction false} FilterCounts(items: seq<QueueItem>, decryptable: set<nat>, e: QueueItem)
    ensures Count(Filter(items, IsReadable(decryptable)), e) == if e.id in decryptable then Count(items, e) else 0
  {
    if items != [] {
      FilterCounts(items[1..], decryptable, e);
    }
  }

  lemma {:induction false} ItemsAppend(a: seq<Recovered>, b: seq<Recovered>)
    ensures Items(a + b) == Items(a) + Items(b)
  {
  }

  /** Whether an entry could be decrypted, had its turn come. */
  ghost predicate AlwaysReadable(answers: seq<Answer>, e: QueueItem, readable: bool) {
    forall i :: 0 <= i < |answers| ==> (e.id in answers[i].decryptable <==> readable)
  }

  lemma {:induction false} TurnRecovers(s: Recovery, server: Option<KeyParams>, answer: Answer, e: QueueItem)
    requires s.queue != []
    ensures var t := Turn(s, server, answer);
      Count(Items(t.recovered), e) - Count(Items(s.recovered), e) ==
        if e.id in answer.decryptable then Count(t.taken, e) - Count(s.taken, e) else 0
  {
    var t := Turn(s, server, answer);
    TakenAreRecovered(s, server, answer);
    ItemsAppend(s.recovered, NewlyRecovered(s, t));
    CountAppend(Items(s.recovered), Items(NewlyRecovered(s, t)), e);
    CountAppend(s.taken, NewlyTaken(s, t), e);
    FilterCounts(NewlyTaken(s, t), answer.decryptable, e);
  }

  /** Over a run an entry that can be decrypted is emitted as often as it is taken, and one that cannot never. */
  lemma {:induction false} EntriesAreRecovered(s: Recovery, server: Option<KeyParams>, answers: seq<Answer>,
                                               e: QueueItem, readable: bool)
    requires AlwaysReadable(answers, e, readable)
    ensures var t := ProcessQueue(s, server, answers);
      Count(Items(t.recovered), e) - Count(Items(s.recovered), e) ==
        if readable then Count(t.taken, e) - Count(s.taken, e) else 0
    decreases |answers|
  {
    if s.processing && s.queue != [] && answers != [] {
      TurnRecovers(s, server, answers[0], e);
      EntriesAreRecovered(Turn(s, server, answers[0]), server, answers[1..], e, readable);
    }
  }

  // ----- The root key is replaced only by a newer one

  lemma {:induction false} DatesMembers(keys: seq<Recovered>, date: nat)
    ensures date in Dates(keys) <==> exists r :: r in keys && r.item.createdAt == date
  {
    if keys != [] {
      var n := |keys| - 1;
      DatesMembers(keys[..n], date);
      assert keys == keys[..n] + [keys[n]];
    }
  }

  /** The dates that a later replacement must exceed: all that were known before, and those of the emitted keys. */
  lemma {:induction false} TurnLearnsDates(s: Recovery, server: Option<KeyParams>, answer: Answer, date: nat)
    requires s.queue != []
    ensures var t := Turn(s, server, answer);
      date in t.validKeys <==>
        date in s.validKeys || exists r :: r in NewlyRecovered(s, t) && r.item.createdAt == date
  {
    var t := Turn(s, server, answer);
    TakenAreRecovered(s, server, answer);
    DatesMembers(NewlyRecovered(s, t), date);
    if answer.verdict == Succeeded {
      var head, joined := s.queue[0], s.queue + answer.before;
      var replace := Replaces(head, s.clientParams, server, s.validKeys);
      var client := if replace then Some(head.keyParams) else s.clientParams;
      var emitted := Decrypted(Select(joined, head.keyParams, true), client, server, answer.decryptable);
      assert NewlyRecovered(s, t) == emitted && t.validKeys == s.validKeys + Dates(emitted);
    } else {
      assert NewlyRecovered(s, t) == [] && t.validKeys == s.validKeys;
    }
  }

  /** Every key ever emitted counts among the dates, if those before this run did. */
  ghost predicate DatesKnown(s: Recovery) {
    forall r :: r in s.recovered ==> r.item.createdAt in s.validKeys
  }

  lemma {:induction false} TurnKeepsDates(s: Recovery, server: Option<KeyParams>, answer: Answer)
    requires s.queue != [] && DatesKnown(s)
    ensures DatesKnown(Turn(s, server, answer))
  {
    var t := Turn(s, server, answer);
    TakenAreRecovered(s, server, answer);
    forall r | r in t.recovered ensures r.item.createdAt in t.validKeys {
      TurnLearnsDates(s, server, answer, r.item.createdAt);
      assert r in s.recovered || r in NewlyRecovered(s, t);
    }
  }

  lemma {:induction false} RunKeepsDates(s: Recovery, server: Option<KeyParams>, answers: seq<Answer>)
    requires DatesKnown(s)
    ensures DatesKnown(ProcessQueue(s, server, answers))
    decreases |answers|
  {
    if s.processing && s.queue != [] && answers != [] {
      TurnKeepsDates(s, server, answers[0]);
      RunKeepsDates(Turn(s, server, answers[0]), server, answers[1..]);
    }
  }

  /** After any run, an entry that replaces the root key is newer than every key emitted so far. */
  lemma {:induction false} ReplacedByTheNewest(s: Recovery, server: Option<KeyParams>, answers: seq<Answer>,
                                               next: Answer, r: Recovered)
    requires DatesKnown(s) && ProcessQueue(s, server, answers).queue != []
    requires var u := ProcessQueue(s, server, answers); Turn(u, server, next).replacements > u.replacements
    requires r in ProcessQueue(s, server, answers).recovered
    ensures r.item.createdAt < ProcessQueue(s, server, answers).queue[0].createdAt
  {
    RunKeepsDates(s, server, answers);
    TurnAndRootKey(ProcessQueue(s, server, answers), server, next);
  }
}
