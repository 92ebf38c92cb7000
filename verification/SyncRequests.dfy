/** Deferred requests are conserved: none is lost, duplicated or settled twice. */
module SyncRequests {
  import opened Lists
  import opened SyncModel
  import opened SyncLocking

  type Claim = (CallId, RequestId)

  predicate Settles(e: Event, r: RequestId) {
    (e.Resolved? || e.Dropped?) && e.request == r
  }

  ghost predicate Settled(log: seq<Event>, r: RequestId) {
    exists i :: 0 <= i < |log| && Settles(log[i], r)
  }

  ghost predicate SettledOnce(log: seq<Event>) {
    forall i, j, r: RequestId :: 0 <= i < j < |log| && Settles(log[i], r) ==> !Settles(log[j], r)
  }

  /** Which call has claimed which request and not settled it yet. */
  ghost function Claims(s: State): set<Claim> {
    set c, r | c in s.calls && Carries(s.calls[c]) && r in s.calls[c].inTime :: (c, r)
  }

  ghost predicate Claimed(claims: set<Claim>, r: RequestId) {
    exists c: CallId :: (c, r) in claims
  }

  /** The part of the invariant that is about requests only. */
  ghost predicate Conserved(queue: seq<RequestId>, next: nat, claims: set<Claim>, log: seq<Event>) {
    && Distinct(queue)
    && (forall r: RequestId :: r in queue ==> r < next && !Settled(log, r) && !Claimed(claims, r))
    && (forall c: CallId, r: RequestId :: (c, r) in claims ==> r < next && !Settled(log, r))
    && (forall c: CallId, d: CallId, r: RequestId :: (c, r) in claims && (d, r) in claims ==> c == d)
    && (forall r: RequestId :: Settled(log, r) ==> r < next)
    && (forall r: RequestId :: r < next ==> r in queue || Claimed(claims, r) || Settled(log, r))
    && SettledOnce(log)
  }

  /** The in-time batches of the calls, which must fit the queue until they are claimed. */
  ghost predicate Batches(s: State) {
    && (forall c :: c in s.calls && (s.calls[c].phase.Beginning? || Carries(s.calls[c])) ==>
          Distinct(s.calls[c].inTime))
    && (forall c :: c in s.calls && s.calls[c].phase.Beginning? ==>
          forall r :: r in s.calls[c].inTime ==> r in s.resolveQueue)
  }

  ghost predicate Requests(s: State) {
    Conserved(s.resolveQueue, s.nextRequest, Claims(s), s.log) && Batches(s)
  }

  // ----- The log

  lemma {:induction false} SettledAppend(log: seq<Event>, more: seq<Event>, r: RequestId)
    ensures Settled(log + more, r) <==> Settled(log, r) || Settled(more, r)
  {
    if Settled(log, r) {
      var i :| 0 <= i < |log| && Settles(log[i], r);
      assert Settles((log + more)[i], r);
    }
    if Settled(more, r) {
      var i :| 0 <= i < |more| && Settles(more[i], r);
      assert Settles((log + more)[|log| + i], r);
    }
  }

  ghost predicate SameSettled(log: seq<Event>, log': seq<Event>) {
    && (forall r: RequestId :: Settled(log', r) <==> Settled(log, r))
    && (SettledOnce(log) ==> SettledOnce(log'))
  }

  lemma {:induction false} Unsettling(log: seq<Event>, e: Event)
    requires !e.Resolved? && !e.Dropped?
    ensures SameSettled(log, log + [e])
  {
    forall r: RequestId ensures Settled(log + [e], r) <==> Settled(log, r) {
      SettledAppend(log, [e], r);
    }
  }

  lemma {:induction false} SettlingOnce(log: seq<Event>, more: seq<Event>)
    requires SettledOnce(log) && SettledOnce(more)
    requires forall r: RequestId :: Settled(more, r) ==> !Settled(log, r)
    ensures SettledOnce(log + more)
  {
    var all := log + more;
    forall i, j, r: RequestId | 0 <= i < j < |all| && Settles(all[i], r) ensures !Settles(all[j], r) {
      if i < |log| <= j {
        assert Settled(log, r);
        assert all[j] == more[j - |log|];
      } else if i >= |log| {
        assert all[i] == more[i - |log|] && all[j] == more[j - |log|];
      }
    }
  }

  lemma {:induction false} SettleSettles(batch: seq<RequestId>, c: CallId, resolve: bool)
    requires Distinct(batch)
    ensures SettledOnce(Settle(batch, c, resolve))
    ensures forall r: RequestId :: Settled(Settle(batch, c, resolve), r) <==> r in batch
  {
    var more := Settle(batch, c, resolve);
    forall r: RequestId ensures Settled(more, r) <==> r in batch {
      if r in batch {
        var i :| 0 <= i < |batch| && batch[i] == r;
        assert Settles(more[i], r);
      }
    }
  }

  // ----- Conservation on the abstract picture

  lemma {:induction false} SameLogConserves(queue: seq<RequestId>, next: nat, claims: set<Claim>, log: seq<Event>,
                                            log': seq<Event>)
    requires Conserved(queue, next, claims, log) && SameSettled(log, log')
    ensures Conserved(queue, next, claims, log')
  {
  }

  lemma {:induction false} QueueConserves(queue: seq<RequestId>, next: nat, claims: set<Claim>, log: seq<Event>)
    requires Conserved(queue, next, claims, log)
    ensures Conserved(queue + [next], next + 1, claims, log + [Queued(next)])
  {
    Unsettling(log, Queued(next));
    var queue' := queue + [next];
    assert next !in queue;
    assert !Claimed(claims, next);
    forall r: RequestId | r in queue' ensures r < next + 1 && !Settled(log, r) && !Claimed(claims, r) {
      assert r in queue || r == next;
    }
    assert queue'[|queue|] == next;
    assert forall r: RequestId :: r in queue ==> r in queue';
  }

  lemma {:induction false} ClaimConserves(queue: seq<RequestId>, next: nat, claims: set<Claim>, log: seq<Event>,
                                          c: CallId, batch: seq<RequestId>)
    requires Conserved(queue, next, claims, log)
    requires forall r :: r in batch ==> r in queue
    ensures Conserved(Subtract(queue, batch), next, claims + (set r | r in batch :: (c, r)), log)
  {
    SubtractDistinct(queue, batch);
    var claims' := claims + (set r | r in batch :: (c, r));
    forall r: RequestId ensures Claimed(claims', r) <==> Claimed(claims, r) || r in batch {
      if Claimed(claims, r) {
        var d: CallId :| (d, r) in claims;
        assert (d, r) in claims';
      }
      if r in batch {
        assert (c, r) in claims';
      }
    }
    forall x: CallId, y: CallId, r: RequestId | (x, r) in claims' && (y, r) in claims' ensures x == y {
      if r in batch {
        assert !Claimed(claims, r);
      }
    }
  }

  lemma {:induction false} SettleConserves(queue: seq<RequestId>, next: nat, claims: set<Claim>, log: seq<Event>,
                                           c: CallId, batch: seq<RequestId>, resolve: bool)
    requires Conserved(queue, next, claims, log) && Distinct(batch)
    requires forall r: RequestId :: (c, r) in claims <==> r in batch
    ensures Conserved(queue, next, claims - (set r | r in batch :: (c, r)), log + Settle(batch, c, resolve))
  {
    var more := Settle(batch, c, resolve);
    var claims' := claims - (set r | r in batch :: (c, r));
    SettleSettles(batch, c, resolve);
    SettlingOnce(log, more);
    forall r: RequestId ensures Settled(log + more, r) <==> Settled(log, r) || r in batch {
      SettledAppend(log, more, r);
    }
    forall r: RequestId ensures Claimed(claims', r) <==> Claimed(claims, r) && r !in batch {
      if Claimed(claims, r) && r !in batch {
        var d: CallId :| (d, r) in claims;
        assert (d, r) in claims';
      }
      if Claimed(claims', r) {
        var d: CallId :| (d, r) in claims';
        assert (d, r) in claims;
      }
    }
    forall r: RequestId | r in queue ensures r !in batch {
      assert r in batch ==> (c, r) in claims;
    }
  }

  // ----- Every step keeps the request invariant

  lemma {:induction false} SameClaims(s: State, t: State)
    requires Requests(s)
    requires t.resolveQueue == s.resolveQueue && t.nextRequest == s.nextRequest && SameSettled(s.log, t.log)
    requires Claims(t) == Claims(s) && Batches(t)
    ensures Requests(t)
  {
    SameLogConserves(s.resolveQueue, s.nextRequest, Claims(s), s.log, t.log);
  }

  lemma {:induction false} LaunchSettlesNothing(log: seq<Event>, log': seq<Event>, c: CallId)
    requires log' == log || LogsLaunch(log, log', c)
    ensures SameSettled(log, log')
  {
    if log' != log {
      assert log' == log + [log'[|log|]];
      Unsettling(log, log'[|log|]);
    }
  }

  lemma {:induction false} OperationStepKeepsRequests(s: State, t: State, c: CallId)
    requires Requests(s) && OperationStep(s, t, c)
    ensures Requests(t)
  {
    LaunchSettlesNothing(s.log, t.log, c);
    assert Claims(t) == Claims(s);
    SameClaims(s, t);
  }

  lemma {:induction false} OutsideStepKeepsRequests(s: State, t: State)
    requires Requests(s) && OutsideStep(s, t)
    ensures Requests(t)
  {
    assert Claims(t) == Claims(s);
  }

  lemma {:induction false} SyncKeepsRequests(s: State, options: Options)
    requires Requests(s) && Locking(s)
    ensures Requests(SyncOrSkip(s, options))
  {
    var t := SyncOrSkip(s, options);
    assert s.nextCall !in s.calls;
    assert Claims(t) == Claims(s);
    SameClaims(s, t);
  }

  /** The call moves between phases that carry the same requests. */
  lemma {:induction false} PhaseKeepsRequests(s: State, c: CallId, phase: Phase)
    requires Requests(s) && c in s.calls && !phase.Beginning? && !s.calls[c].phase.Beginning?
    requires Carries(s.calls[c]) <==> Carries(s.calls[c].(phase := phase))
    ensures Requests(SetPhase(s, c, phase))
  {
    assert Claims(SetPhase(s, c, phase)) == Claims(s);
  }

  lemma {:induction false} BeginKeepsRequests(s: State, c: CallId)
    requires Requests(s) && c in s.calls && s.calls[c].phase == Preparing(true)
    ensures Requests(DoEnterOrDefer(s, c))
  {
    var t := DoEnterOrDefer(s, c);
    assert Claims(t) == Claims(s);
    Unsettling(s.log, Began(c));
    SameClaims(s, t);
  }

  lemma {:induction false} QueueKeepsRequests(s: State)
    requires Requests(s)
    ensures Requests(QueueRequest(s))
  {
    var t := QueueRequest(s);
    assert Claims(t) == Claims(s);
    QueueConserves(s.resolveQueue, s.nextRequest, Claims(s), s.log);
    assert t.resolveQueue == s.resolveQueue + [s.nextRequest];
  }

  lemma {:induction false} ClaimsAfterStamp(s: State, c: CallId, t: State)
    requires c in s.calls && s.calls[c].phase.Beginning? && t.calls == s.calls[c := s.calls[c].(phase := Stamped)]
    ensures Claims(t) == Claims(s) + (set r | r in s.calls[c].inTime :: (c, r))
  {
  }

  lemma {:induction false} StampKeepsRequests(s: State, c: CallId)
    requires Requests(s) && c in s.calls && s.calls[c].phase.Beginning?
    requires forall d :: d in s.calls && s.calls[d].phase.Beginning? ==> d == c
    ensures Requests(DoStamp(s, c))
  {
    var t := DoStamp(s, c);
    var batch := s.calls[c].inTime;
    ClaimsAfterStamp(s, c, t);
    ClaimConserves(s.resolveQueue, s.nextRequest, Claims(s), s.log, c, batch);
    assert t.resolveQueue == Subtract(s.resolveQueue, batch) && t.nextRequest == s.nextRequest && t.log == s.log;
    assert Batches(t);
  }

  /** The call ends and settles what it carries. */
  lemma {:induction false} SettleKeepsRequests(s: State, c: CallId, t: State, resolve: bool)
    requires Requests(s) && c in s.calls && Carries(s.calls[c])
    requires t.resolveQueue == s.resolveQueue && t.nextRequest == s.nextRequest
    requires t.log == s.log + Settle(s.calls[c].inTime, c, resolve)
    requires t.calls == s.calls[c := s.calls[c].(phase := Ended)]
    ensures Requests(t)
  {
    var batch := s.calls[c].inTime;
    assert Claims(t) == Claims(s) - (set r | r in batch :: (c, r));
    SettleConserves(s.resolveQueue, s.nextRequest, Claims(s), s.log, c, batch, resolve);
  }

  lemma {:induction false} FailKeepsRequests(s: State, c: CallId)
    requires Requests(s) && c in s.calls && s.calls[c].phase.Running?
    ensures Requests(DoFail(s, c))
  {
    var failed := s.(log := s.log + [Failed(c)]);
    Unsettling(s.log, Failed(c));
    assert Claims(failed) == Claims(s);
    SameClaims(s, failed);
    SettleKeepsRequests(failed, c, DoFail(s, c), false);
  }

  lemma {:induction false} CompleteKeepsRequests(s: State, c: CallId)
    requires Requests(s) && c in s.calls && s.calls[c].phase.Running?
    ensures Requests(DoComplete(s, c))
  {
    var t := DoComplete(s, c);
    Unsettling(s.log, Completed(c));
    assert Claims(t) == Claims(s);
    SameClaims(s, t);
  }
}
