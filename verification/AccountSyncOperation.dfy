/** An online sync operation: many round trips, each uploading at most one batch. */
module AccountSyncOperation {
  import opened Wrappers
  import opened Lists
  import opened Slices

  const SYNC_UP_DOWN_LIMIT: nat := 150

  type Token = Option<string>

  datatype Response = Response(lastSyncToken: Token, paginationToken: Token)

  datatype Request<P> = Request(payloads: seq<P>, lastSyncToken: Token, paginationToken: Token, limit: nat)

  /** An empty token counts as no token. */
  predicate Present(token: Token) {
    token.Some? && token.value != ""
  }

  /** The batch of round trip `k`. */
  function Batch<P>(pending: seq<P>, k: nat): seq<P> {
    pending[Min(Start(SYNC_UP_DOWN_LIMIT, k), |pending|)..Min(Start(SYNC_UP_DOWN_LIMIT, k + 1), |pending|)]
  }

  /** Nothing is left to upload or download after round trip `k`. */
  predicate DoneAfter<P>(pending: seq<P>, serve: nat -> Response, first: nat, k: nat) {
    |pending| <= Start(SYNC_UP_DOWN_LIMIT, k + 1) && !Present(serve(first + k).paginationToken)
  }

  /** What round trip `k` asks for, when the earlier answers start at number `first`. */
  function RequestAt<P>(pending: seq<P>, lastSyncToken: Token, paginationToken: Token,
                        serve: nat -> Response, first: nat, k: nat): Request<P> {
    if k == 0 then Request(Batch(pending, 0), lastSyncToken, paginationToken, SYNC_UP_DOWN_LIMIT)
    else
      var previous := serve(first + k - 1);
      Request(Batch(pending, k), previous.lastSyncToken, previous.paginationToken, SYNC_UP_DOWN_LIMIT)
  }

  function Answers(serve: nat -> Response, first: nat, n: nat): seq<Response> {
    seq(n, k requires 0 <= k => serve(first + k))
  }

  lemma {:induction false} AnswersGrow(serve: nat -> Response, first: nat, n: nat)
    ensures [serve(first)] + Answers(serve, first + 1, n) == Answers(serve, first, n + 1)
    ensures [serve(first)] == Answers(serve, first, 1)
  {
    var a, b := [serve(first)] + Answers(serve, first + 1, n), Answers(serve, first, n + 1);
    forall k | 0 <= k < n + 1 ensures a[k] == b[k] {
      if k > 0 {
        assert serve(first + 1 + (k - 1)) == serve(first + k);
      }
    }
  }

  function Batches<P>(pending: seq<P>, n: nat): seq<seq<P>> {
    seq(n, k requires 0 <= k => Batch(pending, k))
  }

  /** The batches sent are a partition of the payloads, in order. */
  lemma {:induction false} BatchesConcatenate<P>(pending: seq<P>, n: nat)
    ensures Flatten(Batches(pending, n)) == pending[..Min(Start(SYNC_UP_DOWN_LIMIT, n), |pending|)]
    ensures forall k | 0 <= k < n :: |Batches(pending, n)[k]| <= SYNC_UP_DOWN_LIMIT
  {
    if n > 0 {
      BatchesConcatenate(pending, n - 1);
      assert Batches(pending, n) == Batches(pending, n - 1) + [Batch(pending, n - 1)];
      FlattenAppend(Batches(pending, n - 1), Batch(pending, n - 1));
    }
  }

  /** Removes the first `n` elements one by one. */
  method SubtractFromArray<P(==)>(s: seq<P>, n: nat) returns (r: seq<P>)
    requires n <= |s|
    ensures r == s[n..]
  {
    r := Subtract(s, s[..n]);
    SubtractPrefix(s, n);
  }

  class AccountSyncOperation<P(==, !new)> {
    const payloads: seq<P>
    var pendingPayloads: seq<P>
    var responses: seq<Response>
    var lastSyncToken: Token
    var paginationToken: Token
    /** Every request made through the API service. */
    ghost var requests: seq<Request<P>>

    ghost predicate Valid()
      reads this
    {
      && |pendingPayloads| <= |payloads| && pendingPayloads == payloads[|payloads| - |pendingPayloads|..]
      && |responses| == |requests|
      && Flatten(Uploads(requests)) == payloads[..|payloads| - |pendingPayloads|]
    }

    /** The leading payloads that were popped so far. */
    ghost function Popped(): seq<P>
      requires Valid()
      reads this
    {
      payloads[..|payloads| - |pendingPayloads|]
    }

    constructor (payloads: seq<P>, lastSyncToken: Token, paginationToken: Token)
      ensures Valid() && this.payloads == payloads && Popped() == [] && requests == []
      ensures this.lastSyncToken == lastSyncToken && this.paginationToken == paginationToken
    {
      this.payloads, this.pendingPayloads := payloads, payloads;
      this.lastSyncToken, this.paginationToken := lastSyncToken, paginationToken;
      this.responses, this.requests := [], [];
    }

    method PopPayloads(count: nat) returns (popped: seq<P>)
      requires Valid()
      modifies this`pendingPayloads
      ensures |pendingPayloads| <= |payloads| && pendingPayloads == payloads[|payloads| - |pendingPayloads|..]
      ensures old(pendingPayloads) == popped + pendingPayloads && |popped| == Min(count, |old(pendingPayloads)|)
      ensures payloads[..|payloads| - |pendingPayloads|] == old(Popped()) + popped
    {
      ghost var before := pendingPayloads;
      var n := Min(count, |pendingPayloads|);
      popped := pendingPayloads[..n];
      pendingPayloads := SubtractFromArray(pendingPayloads, n);
      TailOfTail(payloads, |payloads| - |before|, n);
    }

    /** `payloadsSavedOrSaving` */
    function PayloadsSavedOrSaving(): seq<P>
      reads this
    {
      Difference(payloads, pendingPayloads)
    }

    /** At any point of a run, what counts as saved or saving is exactly what was sent so far. */
    lemma {:induction false} SavedOrSavingIsWhatWasSent()
      requires Valid() && Distinct(payloads)
      ensures PayloadsSavedOrSaving() == Flatten(Uploads(requests))
    {
      SavedOrSavingIsPopped(payloads, |payloads| - |pendingPayloads|);
    }

    predicate Done()
      reads this
    {
      |pendingPayloads| == 0 && !Present(paginationToken)
    }

    /** One round trip: pop a batch, ask the server, keep the tokens it answers with. */
    method RoundTrip(serve: nat -> Response)
      requires Valid()
      modifies this
      ensures Valid()
      ensures requests == old(requests) +
        [Request(Batch(old(pendingPayloads), 0), old(lastSyncToken), old(paginationToken), SYNC_UP_DOWN_LIMIT)]
      ensures responses == old(responses) + [serve(|old(responses)|)]
      ensures lastSyncToken == serve(|old(responses)|).lastSyncToken
      ensures paginationToken == serve(|old(responses)|).paginationToken
      ensures pendingPayloads == old(pendingPayloads)[Min(SYNC_UP_DOWN_LIMIT, |old(pendingPayloads)|)..]
    {
      var popped := PopPayloads(SYNC_UP_DOWN_LIMIT);
      UploadsGrow(requests, Request(popped, lastSyncToken, paginationToken, SYNC_UP_DOWN_LIMIT));
      requests := requests + [Request(popped, lastSyncToken, paginationToken, SYNC_UP_DOWN_LIMIT)];
      var response := serve(|responses|);
      responses := responses + [response];
      lastSyncToken := response.lastSyncToken;
      paginationToken := response.paginationToken;
    }

    /**
     Runs to the end against any server whose answers stop carrying pagination tokens after `last`.
     The requests are exactly those of the specification, and there is no round trip too many.
     */
    method Run(serve: nat -> Response, ghost last: nat) returns (ghost made: seq<Request<P>>)
      requires Valid()
      requires forall k :: last <= k ==> !Present(serve(k).paginationToken)
      modifies this
      ensures Valid() && Done() && Popped() == payloads
      ensures requests == old(requests) + made && made != []
      ensures Transcript(old(pendingPayloads), old(lastSyncToken), old(paginationToken), serve, |old(requests)|, made)
      ensures responses == old(responses) + Answers(serve, |old(responses)|, |made|)
      decreases |pendingPayloads| + if |requests| < last then last - |requests| else 0
    {
      ghost var before, asked0, answered := pendingPayloads, requests, responses;
      ghost var first := |requests|;
      ghost var asked := Request(Batch(before, 0), lastSyncToken, paginationToken, SYNC_UP_DOWN_LIMIT);
      RoundTrip(serve);
      made := [asked];
      AnswersGrow(serve, first, 0);
      if Done() {
        TranscriptEnds(before, old(lastSyncToken), old(paginationToken), serve, first);
      } else {
        ghost var rest := pendingPayloads;
        ghost var later := Run(serve, last);
        TranscriptGrows(before, old(lastSyncToken), old(paginationToken), serve, first, rest, later);
        AnswersGrow(serve, first, |later|);
        ConcatAssociates(asked0, [asked], later);
        ConcatAssociates(answered, [serve(first)], Answers(serve, first + 1, |later|));
        made := [asked] + later;
      }
    }
  }

  /** The requests made are the ones specified, and only the last one leaves nothing to do. */
  ghost predicate Transcript<P>(pending: seq<P>, lastSyncToken: Token, paginationToken: Token,
                                serve: nat -> Response, first: nat, made: seq<Request<P>>) {
    && (forall k :: 0 <= k < |made| ==> made[k] == RequestAt(pending, lastSyncToken, paginationToken, serve, first, k))
    && (forall k :: 0 <= k < |made| ==> (DoneAfter(pending, serve, first, k) <==> k == |made| - 1))
  }

  function Uploads<P>(made: seq<Request<P>>): seq<seq<P>> {
    seq(|made|, k requires 0 <= k < |made| => made[k].payloads)
  }

  lemma {:induction false} UploadsGrow<P>(made: seq<Request<P>>, request: Request<P>)
    ensures Flatten(Uploads(made + [request])) == Flatten(Uploads(made)) + request.payloads
  {
    assert Uploads(made + [request]) == Uploads(made) + [request.payloads];
    FlattenAppend(Uploads(made), request.payloads);
  }

  /** Whatever the server answers, a complete run uploads every payload once, in order and in small batches. */
  lemma {:induction false} RunUploadsEverythingOnce<P>(pending: seq<P>, lastSyncToken: Token, paginationToken: Token,
                                                       serve: nat -> Response, first: nat, made: seq<Request<P>>)
    requires made != [] && Transcript(pending, lastSyncToken, paginationToken, serve, first, made)
    ensures Flatten(Uploads(made)) == pending
    ensures forall k :: 0 <= k < |made| ==> |made[k].payloads| <= 150 && made[k].limit == 150
    ensures forall k :: 0 < k < |made| ==>
      made[k].lastSyncToken == serve(first + k - 1).lastSyncToken
      && made[k].paginationToken == serve(first + k - 1).paginationToken
  {
    var n := |made|;
    assert DoneAfter(pending, serve, first, n - 1);
    forall k | 0 <= k < n ensures Uploads(made)[k] == Batches(pending, n)[k] {
      assert made[k] == RequestAt(pending, lastSyncToken, paginationToken, serve, first, k);
    }
    assert Uploads(made) == Batches(pending, n);
    BatchesConcatenate(pending, n);
    assert pending[..|pending|] == pending;
  }

  /** The first `k` requests have sent a leading part; a batch that leaves something is full. */
  lemma {:induction false} SentSoFar<P>(pending: seq<P>, lastSyncToken: Token, paginationToken: Token,
                                        serve: nat -> Response, first: nat, made: seq<Request<P>>, k: nat)
    requires k <= |made| && Transcript(pending, lastSyncToken, paginationToken, serve, first, made)
    ensures Flatten(Uploads(made[..k])) == pending[..Min(Start(SYNC_UP_DOWN_LIMIT, k), |pending|)]
  {
    var sent := made[..k];
    forall i | 0 <= i < k ensures Uploads(sent)[i] == Batches(pending, k)[i] {
      assert sent[i] == made[i] == RequestAt(pending, lastSyncToken, paginationToken, serve, first, i);
    }
    assert Uploads(sent) == Batches(pending, k);
    BatchesConcatenate(pending, k);
  }

  lemma {:induction false} FullUntilLast<P>(pending: seq<P>, k: nat)
    ensures pending[..Min(Start(SYNC_UP_DOWN_LIMIT, k + 1), |pending|)] != pending <==>
      Start(SYNC_UP_DOWN_LIMIT, k + 1) < |pending|
    ensures Start(SYNC_UP_DOWN_LIMIT, k + 1) < |pending| ==> |Batch(pending, k)| == 150
  {
    var n := Min(Start(SYNC_UP_DOWN_LIMIT, k + 1), |pending|);
    assert n == |pending| ==> pending[..n] == pending;
    assert Start(SYNC_UP_DOWN_LIMIT, k + 1) == Start(SYNC_UP_DOWN_LIMIT, k) + 150;
  }

  /**
   The run goes on after a round trip exactly when payloads are left or the server has answered with a pagination
   token that is not empty; and as long as payloads are left, batches are full.
   */
  lemma {:induction false} RunGoesOnIff<P>(pending: seq<P>, lastSyncToken: Token, paginationToken: Token,
                                           serve: nat -> Response, first: nat, made: seq<Request<P>>, k: nat)
    requires k < |made| && Transcript(pending, lastSyncToken, paginationToken, serve, first, made)
    ensures k + 1 < |made| <==>
      Flatten(Uploads(made[..k + 1])) != pending || serve(first + k).paginationToken !in {None, Some("")}
    ensures Flatten(Uploads(made[..k + 1])) != pending ==> |made[k].payloads| == 150
    ensures made[0].lastSyncToken == lastSyncToken && made[0].paginationToken == paginationToken
  {
    SentSoFar(pending, lastSyncToken, paginationToken, serve, first, made, k + 1);
    FullUntilLast(pending, k);
    assert DoneAfter(pending, serve, first, k) <==> k == |made| - 1;
    assert made[k] == RequestAt(pending, lastSyncToken, paginationToken, serve, first, k);
    assert made[0] == RequestAt(pending, lastSyncToken, paginationToken, serve, first, 0);
  }

  lemma {:induction false} TranscriptEnds<P>(pending: seq<P>, lastSyncToken: Token, paginationToken: Token,
                                             serve: nat -> Response, first: nat)
    requires DoneAfter(pending, serve, first, 0)
    ensures Transcript(pending, lastSyncToken, paginationToken, serve, first,
              [Request(Batch(pending, 0), lastSyncToken, paginationToken, SYNC_UP_DOWN_LIMIT)])
  {
  }

  lemma {:induction false} TranscriptGrows<P>(pending: seq<P>, lastSyncToken: Token, paginationToken: Token,
                                              serve: nat -> Response, first: nat,
                                              rest: seq<P>, later: seq<Request<P>>)
    requires rest == pending[Min(SYNC_UP_DOWN_LIMIT, |pending|)..] && later != []
    requires !DoneAfter(pending, serve, first, 0)
    requires Transcript(rest, serve(first).lastSyncToken, serve(first).paginationToken, serve, first + 1, later)
    ensures Transcript(pending, lastSyncToken, paginationToken, serve, first,
              [Request(Batch(pending, 0), lastSyncToken, paginationToken, SYNC_UP_DOWN_LIMIT)] + later)
  {
    var made := [Request(Batch(pending, 0), lastSyncToken, paginationToken, SYNC_UP_DOWN_LIMIT)] + later;
    forall k | 1 <= k < |made|
      ensures made[k] == RequestAt(pending, lastSyncToken, paginationToken, serve, first, k)
      ensures DoneAfter(pending, serve, first, k) <==> k == |made| - 1
    {
      BatchShifts(pending, rest, k - 1);
      assert made[k] == later[k - 1];
      RequestShifts(pending, rest, lastSyncToken, paginationToken, serve, first, k);
    }
  }

  lemma {:induction false} RequestShifts<P>(pending: seq<P>, rest: seq<P>, lastSyncToken: Token, paginationToken: Token,
                                            serve: nat -> Response, first: nat, k: nat)
    requires k >= 1 && Batch(rest, k - 1) == Batch(pending, k)
    requires |rest| <= Start(SYNC_UP_DOWN_LIMIT, k) <==> |pending| <= Start(SYNC_UP_DOWN_LIMIT, k + 1)
    ensures RequestAt(rest, serve(first).lastSyncToken, serve(first).paginationToken, serve, first + 1, k - 1)
         == RequestAt(pending, lastSyncToken, paginationToken, serve, first, k)
    ensures DoneAfter(rest, serve, first + 1, k - 1) <==> DoneAfter(pending, serve, first, k)
  {
    assert serve(first + 1 + (k - 1)) == serve(first + k);
    assert k > 1 ==> serve(first + 1 + (k - 2)) == serve(first + k - 1);
  }

  lemma {:induction false} TailOfTail<P>(s: seq<P>, i: nat, n: nat)
    requires i + n <= |s|
    ensures s[i..][n..] == s[i + n..]
    ensures s[..i + n] == s[..i] + s[i..][..n]
    ensures s[i..] == s[i..][..n] + s[i + n..]
  {
  }

  /** What counts as saved or in flight is exactly what was popped, for payloads without repetitions. */
  lemma {:induction false} SavedOrSavingIsPopped<P(!new)>(payloads: seq<P>, n: nat)
    requires n <= |payloads| && Distinct(payloads)
    ensures Difference(payloads, payloads[n..]) == payloads[..n]
  {
    forall x | x in payloads[..n] ensures x !in payloads[n..] {
      var i :| 0 <= i < n && payloads[i] == x;
    }
    DifferenceIsPrefix(payloads, n);
  }

  /** Dropping the first batch shifts the numbering of the others by one. */
  lemma {:induction false} BatchShifts<P>(pending: seq<P>, rest: seq<P>, k: nat)
    requires rest == pending[Min(SYNC_UP_DOWN_LIMIT, |pending|)..]
    ensures Batch(rest, k) == Batch(pending, k + 1)
    ensures |rest| <= Start(SYNC_UP_DOWN_LIMIT, k + 1) <==> |pending| <= Start(SYNC_UP_DOWN_LIMIT, k + 2)
  {
    var m := Min(SYNC_UP_DOWN_LIMIT, |pending|);
    var a, b := Min(Start(SYNC_UP_DOWN_LIMIT, k), |rest|), Min(Start(SYNC_UP_DOWN_LIMIT, k + 1), |rest|);
    assert Start(SYNC_UP_DOWN_LIMIT, k + 1) == Start(SYNC_UP_DOWN_LIMIT, k) + SYNC_UP_DOWN_LIMIT;
    assert Start(SYNC_UP_DOWN_LIMIT, k + 2) == Start(SYNC_UP_DOWN_LIMIT, k + 1) + SYNC_UP_DOWN_LIMIT;
    SliceOfTail(pending, m, a, b);
  }

  lemma {:induction false} SliceOfTail<P>(s: seq<P>, m: nat, a: nat, b: nat)
    requires a <= b && m + b <= |s|
    ensures s[m..][a..b] == s[m + a..m + b]
  {
  }
}
