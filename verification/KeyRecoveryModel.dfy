/** Recovering items keys with the passwords the user remembers: the rule for the root key, and the queue. */
module KeyRecoveryModel {
  import opened Lists
  import opened Sorting
  import opened Wrappers

  /** Two parameter sets compare as equal when they agree in what a root key is computed from. */
  datatype KeyParams = KeyParams(version: nat, derivation: nat, others: nat) {
    predicate Compare(that: KeyParams) {
      version == that.version && derivation == that.derivation
    }
  }

  /** One entry of the queue; ids tell entries apart, also two for one items key. */
  datatype QueueItem = QueueItem(id: nat, createdAt: nat, keyParams: KeyParams)

  // ----- When the local root key may be replaced

  predicate NewestFirst(a: nat, b: nat) {
    a >= b
  }

  /** `serverKeyParamsAreSafe` */
  predicate ServerKeyParamsAreSafe(server: KeyParams, client: KeyParams) {
    server.version >= client.version
  }

  /** Compares with the newest of the decrypted items keys, whose dates are `validKeys`. */
  predicate NewerThanAll(createdAt: nat, validKeys: seq<nat>) {
    var newest := Sort(validKeys, NewestFirst);
    newest == [] || createdAt > newest[0]
  }

  lemma {:induction false} NewerThanAllIff(createdAt: nat, validKeys: seq<nat>)
    ensures NewerThanAll(createdAt, validKeys) <==> forall date :: date in validKeys ==> date < createdAt
  {
    SortSorts(validKeys, NewestFirst);
    SortMembers(validKeys, NewestFirst);
    var newest := Sort(validKeys, NewestFirst);
    if newest != [] {
      assert newest[0] in newest;
      forall date | date in newest ensures date <= newest[0] {
        var i :| 0 <= i < |newest| && newest[i] == date;
        assert i == 0 || NewestFirst(newest[0], newest[i]);
      }
    }
  }

  /** The decision of `KeyRecoveryOperation.run`. */
  predicate Replaces(item: QueueItem, client: Option<KeyParams>, server: Option<KeyParams>, validKeys: seq<nat>) {
    && server.Some? && client.Some?
    && !client.value.Compare(server.value)
    && item.keyParams.Compare(server.value)
    && ServerKeyParamsAreSafe(server.value, client.value)
    && NewerThanAll(item.createdAt, validKeys)
  }

  /** The root key is replaced exactly when it differs from the server's, and the entry speaks for the server. */
  lemma {:induction false} ReplacesIff(item: QueueItem, client: Option<KeyParams>, server: Option<KeyParams>,
                                       validKeys: seq<nat>)
    ensures Replaces(item, client, server, validKeys) <==>
      && server.Some? && client.Some?
      && (client.value.version != server.value.version || client.value.derivation != server.value.derivation)
      && item.keyParams.version == server.value.version && item.keyParams.derivation == server.value.derivation
      && item.keyParams.version >= client.value.version
      && forall date :: date in validKeys ==> date < item.createdAt
  {
    NewerThanAllIff(item.createdAt, validKeys);
  }

  // ----- The queue

  datatype Verdict = Aborted | Failed | Succeeded

  /** How one prompt ends, and which entries join the queue before and after it is acted upon. */
  datatype Answer = Answer(verdict: Verdict, before: seq<QueueItem>, after: seq<QueueItem>, decryptable: set<nat>)

  /** An items key that was emitted, and whether it was marked as dirty. */
  datatype Recovered = Recovered(item: QueueItem, dirty: bool)

  /** The service, with what its prompts have led to: the entries taken by a correct password, those given up
      because the user closed the prompt, the items keys emitted, and how often the root key was set. */
  datatype Recovery = Recovery(
    queue: seq<QueueItem>,
    processing: bool,
    clientParams: Option<KeyParams>,
    validKeys: seq<nat>,
    replacements: nat,
    taken: seq<QueueItem>,
    abandoned: seq<QueueItem>,
    recovered: seq<Recovered>)

  function Matches(params: KeyParams, matching: bool): QueueItem -> bool {
    (item: QueueItem) => item.keyParams.Compare(params) == matching
  }

  /** `removeElementsFromQueueForMatchingKeyParams`: the entries that match, or those that do not. */
  function Select(queue: seq<QueueItem>, params: KeyParams, matching: bool): seq<QueueItem> {
    Filter(queue, Matches(params, matching))
  }

  function Dates(keys: seq<Recovered>): seq<nat> {
    if keys == [] then [] else Dates(keys[..|keys| - 1]) + [keys[|keys| - 1].item.createdAt]
  }

  predicate NeedsResync(client: Option<KeyParams>, server: Option<KeyParams>, params: KeyParams) {
    && client.Some? && server.Some? && client.value.Compare(server.value)
    && !server.value.Compare(params)
  }

  /** The matching entries that do decrypt, in order; those the server has under old parameters become dirty. */
  function Decrypted(matching: seq<QueueItem>, client: Option<KeyParams>, server: Option<KeyParams>,
                     decryptable: set<nat>): seq<Recovered>
  {
    if matching == [] then []
    else
      var n := |matching| - 1;
      var earlier := Decrypted(matching[..n], client, server, decryptable);
      if matching[n].id in decryptable
      then earlier + [Recovered(matching[n], NeedsResync(client, server, matching[n].keyParams))]
      else earlier
  }

  /** `handleDecryptionOfAllKeysMatchingCorrectRootKey`, for a root key with the given parameters. */
  function Handle(s: Recovery, params: KeyParams, replace: bool, server: Option<KeyParams>, decryptable: set<nat>)
    : Recovery
  {
    var client := if replace then Some(params) else s.clientParams;
    var emitted := Decrypted(Select(s.queue, params, true), client, server, decryptable);
    s.(queue := Select(s.queue, params, false),
       clientParams := client,
       validKeys := s.validKeys + Dates(emitted),
       replacements := s.replacements + if replace then 1 else 0,
       taken := s.taken + Select(s.queue, params, true),
       recovered := s.recovered + emitted)
  }

  /** `processQueueItem` */
  function ProcessQueueItem(s: Recovery, server: Option<KeyParams>, answer: Answer): Recovery
    requires s.queue != []
  {
    var head := s.queue[0];
    var joined := s.(queue := s.queue + answer.before);
    match answer.verdict
    case Aborted => joined
    case Failed => joined.(queue := [head] + joined.queue)
    case Succeeded =>
      Handle(joined, head.keyParams, Replaces(head, s.clientParams, server, s.validKeys), server, answer.decryptable)
  }

  /** What the loop does with the entry it has processed. */
  function Leave(s: Recovery, head: QueueItem, answer: Answer): Recovery {
    var left := s.(queue := RemoveFirst(s.queue + answer.after, head));
    if answer.verdict == Aborted then left.(processing := false, abandoned := s.abandoned + [head]) else left
  }

  /** One turn of the loop of `processQueue`. */
  function Turn(s: Recovery, server: Option<KeyParams>, answer: Answer): Recovery
    requires s.queue != []
  {
    Leave(ProcessQueueItem(s, server, answer), s.queue[0], answer)
  }

  /** `processQueue`, for as long as the user answers. */
  function ProcessQueue(s: Recovery, server: Option<KeyParams>, answers: seq<Answer>): Recovery
    decreases |answers|
  {
    if !s.processing then s
    else if s.queue == [] then s.(processing := false)
    else if answers == [] then s
    else ProcessQueue(Turn(s, server, answers[0]), server, answers[1..])
  }

  function Arrivals(answers: seq<Answer>): seq<QueueItem> {
    if answers == [] then [] else answers[0].before + answers[0].after + Arrivals(answers[1..])
  }

  /** The answers that are not asked for, because the run is over before. */
  function Unused(s: Recovery, server: Option<KeyParams>, answers: seq<Answer>): seq<Answer>
    decreases |answers|
  {
    if !s.processing || s.queue == [] || answers == [] then answers
    else Unused(Turn(s, server, answers[0]), server, answers[1..])
  }

  lemma {:induction false} NextTurn(s: Recovery, server: Option<KeyParams>, answers: seq<Answer>, i: nat)
    requires s.processing && s.queue != [] && i < |answers|
    ensures ProcessQueue(s, server, answers[i..])
         == ProcessQueue(Turn(s, server, answers[i]), server, answers[i + 1..])
  {
    assert answers[i..][1..] == answers[i + 1..];
  }
}
