/** The service that works the recovery queue off, prompt by prompt. */
module KeyRecoveryService {
  import opened Lists
  import opened Wrappers
  import opened KeyRecoveryModel

  /** An items key that does not decrypt; keys without embedded parameters cannot be recovered. */
  datatype EncryptedKey = EncryptedKey(id: nat, createdAt: nat, embedded: Option<KeyParams>)

  function Queued(keys: seq<EncryptedKey>): seq<QueueItem> {
    if keys == [] then []
    else
      var n := |keys| - 1;
      var earlier := Queued(keys[..n]);
      match keys[n].embedded
      case None => earlier
      case Some(params) => earlier + [QueueItem(keys[n].id, keys[n].createdAt, params)]
  }

  /** The entry that a key gives; it has one exactly when its parameters are embedded. */
  ghost predicate Gives(key: EncryptedKey, item: QueueItem) {
    key.embedded == Some(item.keyParams) && key.id == item.id && key.createdAt == item.createdAt
  }

  lemma {:induction false} QueuedAre(keys: seq<EncryptedKey>, item: QueueItem)
    ensures item in Queued(keys) <==> exists key :: key in keys && Gives(key, item)
  {
    if keys != [] {
      var n := |keys| - 1;
      QueuedAre(keys[..n], item);
      if key :| key in keys && Gives(key, item) {
        assert key in keys[..n] || key == keys[n];
      }
      if item in Queued(keys) && item !in Queued(keys[..n]) {
        assert Gives(keys[n], item);
      }
    }
  }

  /** Two entries stand in the order of their keys. */
  lemma {:induction false} QueuedInOrder(keys: seq<EncryptedKey>, i: nat, j: nat) returns (k: nat, l: nat)
    requires i < j < |Queued(keys)|
    ensures k < l < |keys| && Gives(keys[k], Queued(keys)[i]) && Gives(keys[l], Queued(keys)[j])
  {
    var n := |keys| - 1;
    if j < |Queued(keys[..n])| {
      k, l := QueuedInOrder(keys[..n], i, j);
    } else {
      l := n;
      assert Queued(keys[..n])[i] in Queued(keys[..n]);
      QueuedAre(keys[..n], Queued(keys[..n])[i]);
      var key :| key in keys[..n] && Gives(key, Queued(keys[..n])[i]);
      k :| 0 <= k < n && keys[..n][k] == key;
    }
  }

  class KeyRecoveryService {
    var decryptionQueue: seq<QueueItem>
    var isProcessingQueue: bool
    var clientParams: Option<KeyParams>
    var validKeys: seq<nat>
    ghost var replacements: nat
    ghost var taken: seq<QueueItem>
    ghost var abandoned: seq<QueueItem>
    ghost var recovered: seq<Recovered>

    constructor (clientParams: Option<KeyParams>, validKeys: seq<nat>)
      ensures View() == Recovery([], false, clientParams, validKeys, 0, [], [], [])
    {
      decryptionQueue, isProcessingQueue := [], false;
      this.clientParams, this.validKeys := clientParams, validKeys;
      replacements, taken, abandoned, recovered := 0, [], [], [];
    }

    ghost function View(): Recovery
      reads this
    {
      Recovery(decryptionQueue, isProcessingQueue, clientParams, validKeys, replacements, taken, abandoned, recovered)
    }

    method AddKeysToQueue(keys: seq<EncryptedKey>)
      modifies this
      ensures View() == old(View()).(queue := old(decryptionQueue) + Queued(keys))
    {
      for i := 0 to |keys|
        invariant View() == old(View()).(queue := old(decryptionQueue) + Queued(keys[..i]))
      {
        assert keys[..i + 1][..i] == keys[..i];
        if keys[i].embedded.Some? {
          var queueItem := QueueItem(keys[i].id, keys[i].createdAt, keys[i].embedded.value);
          ConcatAssociates(old(decryptionQueue), Queued(keys[..i]), [queueItem]);
          decryptionQueue := decryptionQueue + [queueItem];
        }
      }
      assert keys[..|keys|] == keys;
    }

    method ReaddQueueItem(queueItem: QueueItem)
      modifies this
      ensures View() == old(View()).(queue := [queueItem] + old(decryptionQueue))
    {
      decryptionQueue := [queueItem] + decryptionQueue;
    }

    method RemoveElementsFromQueueForMatchingKeyParams(params: KeyParams) returns (matching: seq<QueueItem>)
      modifies this
      ensures matching == Select(old(decryptionQueue), params, true)
      ensures View() == old(View()).(queue := Select(old(decryptionQueue), params, false))
    {
      matching := [];
      var nonmatching := [];
      for i := 0 to |decryptionQueue|
        invariant View() == old(View())
        invariant matching == Select(decryptionQueue[..i], params, true)
        invariant nonmatching == Select(decryptionQueue[..i], params, false)
      {
        FilterNext(decryptionQueue, i, Matches(params, true));
        FilterNext(decryptionQueue, i, Matches(params, false));
        if decryptionQueue[i].keyParams.Compare(params) {
          matching := matching + [decryptionQueue[i]];
        } else {
          nonmatching := nonmatching + [decryptionQueue[i]];
        }
      }
      assert decryptionQueue[..|decryptionQueue|] == decryptionQueue;
      decryptionQueue := nonmatching;
    }

    method HandleDecryptionOfAllKeysMatchingCorrectRootKey(params: KeyParams, replacesRootKey: bool,
                                                           server: Option<KeyParams>, decryptable: set<nat>)
      modifies this
      ensures View() == Handle(old(View()), params, replacesRootKey, server, decryptable)
    {
      if replacesRootKey {
        clientParams := Some(params);
        replacements := replacements + 1;
      }
      var matching := RemoveElementsFromQueueForMatchingKeyParams(params);
      taken := taken + matching;
      var decrypted := Decrypt(matching, server, decryptable);
      validKeys := validKeys + Dates(decrypted);
      recovered := recovered + decrypted;
    }

    /** Marks what the server must have again, decrypts, and keeps what did decrypt. */
    method Decrypt(matching: seq<QueueItem>, server: Option<KeyParams>, decryptable: set<nat>)
      returns (decrypted: seq<Recovered>)
      ensures decrypted == Decrypted(matching, clientParams, server, decryptable)
    {
      decrypted := [];
      var clientParamsMatchServer := clientParams.Some? && server.Some? && clientParams.value.Compare(server.value);
      for i := 0 to |matching|
        invariant decrypted == Decrypted(matching[..i], clientParams, server, decryptable)
      {
        assert matching[..i + 1][..i] == matching[..i];
        var needsResync := clientParamsMatchServer && !server.value.Compare(matching[i].keyParams);
        if matching[i].id in decryptable {
          decrypted := decrypted + [Recovered(matching[i], needsResync)];
        }
      }
      assert matching[..|matching|] == matching;
    }

    /** Entries that arrive while a prompt is open join the end of the queue. */
    method Join(arrivals: seq<QueueItem>)
      modifies this
      ensures View() == old(View()).(queue := old(decryptionQueue) + arrivals)
    {
      decryptionQueue := decryptionQueue + arrivals;
    }

    method ProcessQueueItem(queueItem: QueueItem, server: Option<KeyParams>, answer: Answer)
      requires decryptionQueue != [] && queueItem == decryptionQueue[0]
      modifies this
      ensures View() == KeyRecoveryModel.ProcessQueueItem(old(View()), server, answer)
    {
      var replaceLocalRootKeyWithResult := Replaces(queueItem, clientParams, server, validKeys);
      Join(answer.before);
      if answer.verdict == Failed {
        ReaddQueueItem(queueItem);
      } else if answer.verdict == Succeeded {
        HandleDecryptionOfAllKeysMatchingCorrectRootKey(
          queueItem.keyParams, replaceLocalRootKeyWithResult, server, answer.decryptable);
      }
    }

    /** Works the queue off until it is empty or a prompt is closed, or the user has not answered yet. */
    method ProcessQueue(server: Option<KeyParams>, answers: seq<Answer>)
      requires isProcessingQueue
      modifies this
      ensures View() == KeyRecoveryModel.ProcessQueue(old(View()), server, answers)
    {
      for i := 0 to |answers|
        invariant isProcessingQueue
        invariant KeyRecoveryModel.ProcessQueue(View(), server, answers[i..])
               == KeyRecoveryModel.ProcessQueue(old(View()), server, answers)
      {
        if decryptionQueue == [] {
          isProcessingQueue := false;
          return;
        }
        NextTurn(View(), server, answers, i);
        var aborted := ProcessHead(server, answers[i]);
        if aborted {
          return;
        }
      }
      if decryptionQueue == [] {
        isProcessingQueue := false;
      }
    }

    method ProcessHead(server: Option<KeyParams>, answer: Answer) returns (aborted: bool)
      requires decryptionQueue != []
      modifies this
      ensures View() == Turn(old(View()), server, answer)
      ensures aborted <==> answer.verdict == Aborted
    {
      var queueItem := decryptionQueue[0];
      ProcessQueueItem(queueItem, server, answer);
      aborted := answer.verdict == Aborted;
      LeaveItem(queueItem, answer);
    }

    method LeaveItem(queueItem: QueueItem, answer: Answer)
      modifies this
      ensures View() == Leave(old(View()), queueItem, answer)
    {
      Join(answer.after);
      decryptionQueue := RemoveFirst(decryptionQueue, queueItem);
      if answer.verdict == Aborted {
        isProcessingQueue := false;
        abandoned := abandoned + [queueItem];
      }
    }
  }
}
