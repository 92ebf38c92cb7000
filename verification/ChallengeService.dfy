/** The challenges that are running, and how values reach them. */
module ChallengeService {
  import opened Lists
  import opened Wrappers
  import opened ChallengeModel
  import opened ChallengeOperations

  datatype ChallengeError = NoValues | NoOperation | NoObservers

  /** Running operations and observers by challenge id, and the operations that were deleted, as they were then. */
  datatype Challenges = Challenges(
    running: map<nat, Operation>,
    observers: map<nat, seq<nat>>,
    ended: seq<Operation>)

  type Outcome = (Challenges, Option<ChallengeError>)

  /** The operation is now `op`; one that has finished is deleted, and then its observers are. */
  function Settle(s: Challenges, id: nat, op: Operation): Outcome {
    if !op.IsFinished() then (s.(running := s.running[id := op]), None)
    else
      (Challenges(s.running - {id}, s.observers - {id}, s.ended + [op]),
       if id in s.observers then None else Some(NoObservers))
  }

  /** How an operation takes a submission. */
  type Step = (Operation, Submission) -> Operation

  /** One turn for one value; only values that are validated can finish an operation. */
  function SubmitOne(step: Step, s: Challenges, id: nat, submission: Submission): Outcome {
    if id !in s.running then (s, Some(NoOperation))
    else
      var op := step(s.running[id], submission);
      if submission.Checked? then Settle(s, id, op) else (s.(running := s.running[id := op]), None)
  }

  /** The loop of `submitValuesForChallenge`, left at the first error. */
  function SubmitAll(step: Step, s: Challenges, id: nat, submissions: seq<Submission>): Outcome {
    if submissions == [] then (s, None)
    else
      var n := |submissions| - 1;
      var earlier := SubmitAll(step, s, id, submissions[..n]);
      if earlier.1.Some? then earlier else SubmitOne(step, earlier.0, id, submissions[n])
  }

  lemma {:induction false} ErrorStays(step: Step, s: Challenges, id: nat, before: seq<Submission>,
                                      more: seq<Submission>)
    requires SubmitAll(step, s, id, before).1.Some?
    ensures SubmitAll(step, s, id, before + more) == SubmitAll(step, s, id, before)
  {
    if more == [] {
      assert before + more == before;
    } else {
      var n := |more| - 1;
      ErrorStays(step, s, id, before, more[..n]);
      assert (before + more)[..|before| + n] == before + more[..n];
    }
  }

  /** Each turn goes on from the one before, and an error ends the loop. */
  lemma {:induction false} SubmitNext(step: Step, s: Challenges, id: nat, submissions: seq<Submission>, i: nat)
    requires i < |submissions| && SubmitAll(step, s, id, submissions[..i]).1 == None
    ensures SubmitAll(step, s, id, submissions[..i + 1])
         == SubmitOne(step, SubmitAll(step, s, id, submissions[..i]).0, id, submissions[i])
    ensures SubmitAll(step, s, id, submissions[..i + 1]).1.Some? ==>
      SubmitAll(step, s, id, submissions) == SubmitAll(step, s, id, submissions[..i + 1])
  {
    assert submissions[..i + 1][..i] == submissions[..i];
    if SubmitAll(step, s, id, submissions[..i + 1]).1.Some? {
      ErrorStays(step, s, id, submissions[..i + 1], submissions[i + 1..]);
      assert submissions[..i + 1] + submissions[i + 1..] == submissions;
    }
  }

  /** A value that is not validated never ends an operation; it only reaches it. */
  lemma {:induction false} UncheckedEndsNothing(s: Challenges, id: nat, value: Value)
    requires id in s.running
    ensures var t := SubmitOne(After, s, id, Unchecked(value));
      t == (s.(running := s.running[id := t.0.running[id]]), None) && id in t.0.running
      && t.0.running[id].validValues == s.running[id].validValues
  {
  }

  // ----- The life of an operation

  /** A value that is not validated finishes nothing. */
  ghost predicate UncheckedFinishNothing(step: Step) {
    forall op: Operation, value: Value ::
      step(op, Unchecked(value)).IsFinished() ==> op.IsFinished()
  }

  lemma {:induction false} OperationsAllow()
    ensures UncheckedFinishNothing(After)
  {
  }

  ghost predicate Unfinished(step: Step, op: Operation, submissions: seq<Submission>) {
    forall j: nat :: j <= |submissions| ==> !Fold(step, op, submissions[..j]).IsFinished()
  }

  lemma {:induction false} PrefixUnfinished(step: Step, op: Operation, submissions: seq<Submission>)
    requires submissions != [] && Unfinished(step, op, submissions)
    ensures Unfinished(step, op, submissions[..|submissions| - 1])
    ensures !Fold(step, op, submissions).IsFinished()
  {
    var n := |submissions| - 1;
    forall j: nat | j <= n ensures !Fold(step, op, submissions[..n][..j]).IsFinished() {
      assert submissions[..n][..j] == submissions[..j];
    }
    assert submissions[..n + 1] == submissions;
  }

  /** An operation runs on for as long as it is not finished. */
  lemma {:induction false} RunsOn(step: Step, s: Challenges, id: nat, submissions: seq<Submission>)
    requires id in s.running && Unfinished(step, s.running[id], submissions)
    ensures SubmitAll(step, s, id, submissions)
         == (s.(running := s.running[id := Fold(step, s.running[id], submissions)]), None)
  {
    var op := Fold(step, s.running[id], submissions);
    if submissions == [] {
      assert s.running == s.running[id := op];
    } else {
      var n := |submissions| - 1;
      var was := Fold(step, s.running[id], submissions[..n]);
      PrefixUnfinished(step, s.running[id], submissions);
      RunsOn(step, s, id, submissions[..n]);
      assert s.running[id := was][id := op] == s.running[id := op];
    }
  }

  /** The submission that finishes an operation has it deleted, with its observers. */
  lemma {:induction false} EndsWhenFinished(step: Step, s: Challenges, id: nat, before: seq<Submission>,
                                            last: Submission)
    requires UncheckedFinishNothing(step) && id in s.running && Unfinished(step, s.running[id], before)
    requires Fold(step, s.running[id], before + [last]).IsFinished()
    ensures SubmitAll(step, s, id, before + [last]) ==
      (Challenges(s.running - {id}, s.observers - {id}, s.ended + [Fold(step, s.running[id], before + [last])]),
       if id in s.observers then None else Some(NoObservers))
  {
    RunsOn(step, s, id, before);
    assert (before + [last])[..|before|] == before;
    assert before[..|before|] == before;
    var op := Fold(step, s.running[id], before);
    assert last.Checked?;
    assert s.running[id := op] - {id} == s.running - {id};
  }

  /** Whatever is submitted after that finds no operation. */
  lemma {:induction false} NothingAfterTheEnd(step: Step, s: Challenges, id: nat, before: seq<Submission>,
                                              last: Submission, more: seq<Submission>)
    requires UncheckedFinishNothing(step) && id in s.running && Unfinished(step, s.running[id], before)
    requires Fold(step, s.running[id], before + [last]).IsFinished() && more != []
    ensures SubmitAll(step, s, id, before + [last] + more) ==
      (SubmitAll(step, s, id, before + [last]).0, Some(if id in s.observers then NoOperation else NoObservers))
  {
    EndsWhenFinished(step, s, id, before, last);
    var ended := before + [last];
    if id in s.observers {
      NotFound(step, s, id, ended, more[0]);
      ErrorStays(step, s, id, ended + [more[0]], more[1..]);
      assert ended + [more[0]] + more[1..] == ended + more;
    } else {
      ErrorStays(step, s, id, ended, more);
    }
  }

  lemma {:induction false} NotFound(step: Step, s: Challenges, id: nat, before: seq<Submission>, submission: Submission)
    requires SubmitAll(step, s, id, before).1 == None && id !in SubmitAll(step, s, id, before).0.running
    ensures SubmitAll(step, s, id, before + [submission]) == (SubmitAll(step, s, id, before).0, Some(NoOperation))
  {
    assert (before + [submission])[..|before|] == before;
  }

  lemma {:induction false} FinishedIsDeleted(step: Step, s: Challenges, id: nat, submissions: seq<Submission>)
    requires UncheckedFinishNothing(step) && id in s.running && !s.running[id].IsFinished()
    requires Fold(step, s.running[id], submissions).IsFinished()
    ensures id !in SubmitAll(step, s, id, submissions).0.running
    decreases |submissions|
  {
    var n := |submissions| - 1;
    if Unfinished(step, s.running[id], submissions[..n]) {
      assert submissions == submissions[..n] + [submissions[n]];
      EndsWhenFinished(step, s, id, submissions[..n], submissions[n]);
    } else {
      var j: nat :| j <= n && Fold(step, s.running[id], submissions[..n][..j]).IsFinished();
      FinishedIsDeleted(step, s, id, submissions[..n][..j]);
      StaysDeleted(step, s, id, submissions[..n][..j], submissions[j..]);
      assert submissions == submissions[..n][..j] + submissions[j..];
    }
  }

  lemma {:induction false} StaysDeleted(step: Step, s: Challenges, id: nat, before: seq<Submission>,
                                        more: seq<Submission>)
    requires id !in SubmitAll(step, s, id, before).0.running
    ensures id !in SubmitAll(step, s, id, before + more).0.running
  {
    if more == [] {
      assert before + more == before;
    } else {
      var n := |more| - 1;
      StaysDeleted(step, s, id, before, more[..n]);
      assert (before + more)[..|before| + n] == before + more[..n];
    }
  }

  lemma {:induction false} ErrorMeansGone(step: Step, s: Challenges, id: nat, submissions: seq<Submission>)
    requires SubmitAll(step, s, id, submissions).1.Some?
    ensures id !in SubmitAll(step, s, id, submissions).0.running
  {
    var n := |submissions| - 1;
    if SubmitAll(step, s, id, submissions[..n]).1.Some? {
      ErrorMeansGone(step, s, id, submissions[..n]);
    }
  }

  lemma {:induction false} NobodyThere(step: Step, s: Challenges, id: nat, submissions: seq<Submission>)
    requires id !in s.running
    ensures SubmitAll(step, s, id, submissions) == (s, if submissions == [] then None else Some(NoOperation))
  {
    if submissions != [] {
      NobodyThere(step, s, id, submissions[..|submissions| - 1]);
    }
  }

  /** The last of all the values is the last of the second call. */
  lemma {:induction false} LastOfBoth(step: Step, s: Challenges, id: nat, before: seq<Submission>,
                                      more: seq<Submission>, last: Submission)
    ensures var earlier := SubmitAll(step, s, id, before + more);
      SubmitAll(step, s, id, before + (more + [last])) ==
        if earlier.1.Some? then earlier else SubmitOne(step, earlier.0, id, last)
  {
    assert (before + (more + [last]))[..|before| + |more|] == before + more;
  }

  lemma {:induction false} SecondGoesOn(step: Step, s: Challenges, id: nat, before: seq<Submission>,
                                        more: seq<Submission>)
    requires SubmitAll(step, s, id, before).1 == None
    ensures SubmitAll(step, s, id, before + more) == SubmitAll(step, SubmitAll(step, s, id, before).0, id, more)
  {
    if more == [] {
      assert before + more == before;
    } else {
      var n := |more| - 1;
      SecondGoesOn(step, s, id, before, more[..n]);
      LastOfBoth(step, s, id, before, more[..n], more[n]);
      assert more == more[..n] + [more[n]];
    }
  }

  /**
   Two calls, one after the other, leave the state that one call with all the values leaves, also when
   the first ends in an error. They report the same error unless the first call has failed.
   */
  lemma {:induction false} SubmissionsAddUp(step: Step, s: Challenges, id: nat, before: seq<Submission>,
                                            more: seq<Submission>)
    ensures var first := SubmitAll(step, s, id, before); var second := SubmitAll(step, first.0, id, more);
      && SubmitAll(step, s, id, before + more).0 == second.0
      && SubmitAll(step, s, id, before + more).1 == if first.1.Some? then first.1 else second.1
  {
    var first := SubmitAll(step, s, id, before);
    if first.1.Some? {
      ErrorStays(step, s, id, before, more);
      ErrorMeansGone(step, s, id, before);
      NobodyThere(step, first.0, id, more);
    } else {
      SecondGoesOn(step, s, id, before, more);
    }
  }

  lemma {:induction false} ValidStaysValid(submissions: seq<Submission>, k: nat)
    requires k <= |submissions|
    ensures forall v :: v in ValidOnes(submissions[..k]) ==> v in ValidOnes(submissions)
  {
    var n := |submissions| - 1;
    if k <= n {
      assert submissions[..n][..k] == submissions[..k];
      ValidStaysValid(submissions[..n], k);
    } else {
      assert submissions[..k] == submissions;
    }
  }

  /** As long as some prompt lacks a valid value, or two prompts are of one kind, no prefix finishes. */
  lemma {:induction false} UnfinishedUntilValid(challenge: Challenge, submissions: seq<Submission>)
    requires Answers(challenge, submissions)
    requires !(Distinct(Kinds(challenge.prompts)) && AllValid(challenge.prompts, submissions))
    ensures Unfinished(After, Begin(challenge), submissions)
  {
    forall j: nat | j <= |submissions| ensures !Run(challenge, submissions[..j]).IsFinished() {
      FinishedIff(challenge, submissions[..j]);
      ValidStaysValid(submissions, j);
      if AllValid(challenge.prompts, submissions[..j]) {
        forall p | p in challenge.prompts ensures Has(ValidOnes(submissions), p.validation, KindOf) {
          var v :| v in ValidOnes(submissions[..j]) && KindOf(v) == p.validation;
          assert v in ValidOnes(submissions);
        }
      }
    }
  }

  /** The service lets go of a challenge exactly when its prompts are of distinct kinds and all had valid values. */
  lemma {:induction false} DeletedIffAllValid(s: Challenges, challenge: Challenge, submissions: seq<Submission>)
    requires challenge.id in s.running && s.running[challenge.id] == Begin(challenge) && challenge.prompts != []
    requires Answers(challenge, submissions)
    ensures challenge.id !in SubmitAll(After, s, challenge.id, submissions).0.running <==>
      Distinct(Kinds(challenge.prompts)) && AllValid(challenge.prompts, submissions)
  {
    if !(Distinct(Kinds(challenge.prompts)) && AllValid(challenge.prompts, submissions)) {
      UnfinishedUntilValid(challenge, submissions);
      RunsOn(After, s, challenge.id, submissions);
    } else {
      FinishedIff(challenge, submissions);
      OperationsAllow();
      FinishedIsDeleted(After, s, challenge.id, submissions);
    }
  }

  // ----- The service as it is kept

  class ChallengeService {
    var challengeOperations: map<nat, ChallengeOperation>
    var challengeObservers: map<nat, seq<nat>>
    ghost var ended: seq<Operation>

    constructor ()
      ensures Valid() && View() == Challenges(map[], map[], [])
    {
      challengeOperations, challengeObservers, ended := map[], map[], [];
    }

    /** Every operation is registered under the id of its challenge. */
    ghost predicate Registered()
      reads this`challengeOperations
    {
      forall id :: id in challengeOperations ==> challengeOperations[id].challenge.id == id
    }

    ghost predicate Waiting(id: nat)
      requires id in challengeOperations
      reads this`challengeOperations, challengeOperations.Values
    {
      challengeOperations[id].IsFinished() ==> challengeOperations[id].challenge.prompts == []
    }

    /** Every registered operation is still waiting for values. */
    ghost predicate Valid()
      reads this`challengeOperations, challengeOperations.Values
    {
      Registered() && forall id :: id in challengeOperations ==> Waiting(id)
    }

    ghost function Running(): map<nat, Operation>
      reads this`challengeOperations, challengeOperations.Values
    {
      map id | id in challengeOperations :: challengeOperations[id].View()
    }

    ghost function View(): Challenges
      reads this, challengeOperations.Values
    {
      Challenges(Running(), challengeObservers, ended)
    }

    method CreateOrGetChallengeOperation(challenge: Challenge) returns (operation: ChallengeOperation)
      requires Valid()
      modifies this`challengeOperations
      ensures Valid() && challenge.id in challengeOperations && challengeOperations[challenge.id] == operation
      ensures challenge.id in old(challengeOperations) ==> challengeOperations == old(challengeOperations)
      ensures challenge.id !in old(challengeOperations) ==>
        fresh(operation) && Running() == old(Running())[challenge.id := Begin(challenge)]
    {
      if challenge.id in challengeOperations {
        return challengeOperations[challenge.id];
      }
      operation := new ChallengeOperation(challenge);
      challengeOperations := challengeOperations[challenge.id := operation];
    }

    method AddChallengeObserver(challengeId: nat, observer: nat)
      requires Valid()
      modifies this`challengeObservers
      ensures Valid()
      ensures challengeObservers == old(challengeObservers)[challengeId :=
        (if challengeId in old(challengeObservers) then old(challengeObservers)[challengeId] else []) + [observer]]
    {
      var observers := if challengeId in challengeObservers then challengeObservers[challengeId] else [];
      challengeObservers := challengeObservers[challengeId := observers + [observer]];
    }

    method DeleteChallengeOperation(operation: ChallengeOperation)
      requires Registered() && operation in challengeOperations.Values
      modifies this`challengeOperations, this`ended
      ensures Registered() && challengeOperations == old(challengeOperations) - {operation.challenge.id}
      ensures ended == old(ended) + [operation.View()]
    {
      challengeOperations := challengeOperations - {operation.challenge.id};
      ended := ended + [operation.View()];
    }

    method SetValidationStatusForChallenge(id: nat, value: Value, valid: bool, artifacts: Artifacts)
      returns (error: Option<ChallengeError>)
      requires Valid()
      modifies this, challengeOperations.Values
      ensures Valid() && Fewer(challengeOperations, old(challengeOperations))
      ensures (View(), error) == SubmitOne(After, old(View()), id, Checked(value, valid, artifacts))
    {
      if id !in challengeOperations {
        return Some(NoOperation);
      }
      ghost var before := View();
      assert before.running[id] == challengeOperations[id].View();
      SetValueStatus(id, value, valid, artifacts);
      ghost var op := challengeOperations[id].View();
      error := SettleOperation(id);
      SettleOnce(before, id, op);
    }

    method SetValueStatus(id: nat, value: Value, valid: bool, artifacts: Artifacts)
      requires Registered() && id in challengeOperations
      requires forall other :: other in challengeOperations ==> Waiting(other)
      modifies challengeOperations[id]
      ensures Registered() && forall other :: other in challengeOperations && other != id ==> Waiting(other)
      ensures challengeOperations[id].View() == WithStatus(old(challengeOperations[id].View()), value, valid, artifacts)
      ensures View() == old(View()).(running := old(Running())[id := challengeOperations[id].View()])
    {
      challengeOperations[id].SetValueStatus(value, valid, artifacts);
    }

    method SettleOperation(id: nat) returns (error: Option<ChallengeError>)
      requires Registered() && id in challengeOperations
      requires forall other :: other in challengeOperations && other != id ==> Waiting(other)
      modifies this
      ensures Valid() && Fewer(challengeOperations, old(challengeOperations))
      ensures (View(), error) == Settle(old(View()), id, old(challengeOperations[id].View()))
    {
      var operation := challengeOperations[id];
      ghost var before := Running();
      if !operation.IsFinished() {
        assert before == before[id := operation.View()];
        return None;
      }
      DeleteChallengeOperation(operation);
      assert Running() == before - {id};
      if id !in challengeObservers {
        assert challengeObservers - {id} == challengeObservers;
        return Some(NoObservers);
      }
      challengeObservers := challengeObservers - {id};
      return None;
    }

    /** Validation is awaited value by value; `submissions` holds the values with what it finds. */
    method SubmitValuesForChallenge(id: nat, submissions: seq<Submission>) returns (error: Option<ChallengeError>)
      requires Valid()
      modifies this, challengeOperations.Values
      ensures Valid()
      ensures submissions == [] ==> error == Some(NoValues) && View() == old(View())
      ensures submissions != [] ==> (View(), error) == SubmitAll(After, old(View()), id, submissions)
    {
      if submissions == [] {
        return Some(NoValues);
      }
      for i := 0 to |submissions|
        invariant Valid() && Fewer(challengeOperations, old(challengeOperations))
        invariant (View(), None) == SubmitAll(After, old(View()), id, submissions[..i])
      {
        error := SubmitValue(id, submissions[i]);
        SubmitNext(After, old(View()), id, submissions, i);
        if error.Some? {
          return;
        }
      }
      assert submissions[..|submissions|] == submissions;
      return None;
    }

    method SubmitValue(id: nat, submission: Submission) returns (error: Option<ChallengeError>)
      requires Valid()
      modifies this, challengeOperations.Values
      ensures Valid() && Fewer(challengeOperations, old(challengeOperations))
      ensures (View(), error) == SubmitOne(After, old(View()), id, submission)
    {
      match submission
      case Checked(value, valid, artifacts) =>
        error := SetValidationStatusForChallenge(id, value, valid, artifacts);
      case Unchecked(value) =>
        if id !in challengeOperations {
          return Some(NoOperation);
        }
        challengeOperations[id].AddNonvalidatedValue(value);
        assert Running() == old(Running())[id := challengeOperations[id].View()];
        return None;
    }
  }

  lemma {:induction false} SettleOnce(s: Challenges, id: nat, op: Operation)
    ensures Settle(s.(running := s.running[id := op]), id, op) == Settle(s, id, op)
  {
    assert s.running[id := op][id := op] == s.running[id := op];
    assert s.running[id := op] - {id} == s.running - {id};
  }

  ghost predicate Fewer(now: map<nat, ChallengeOperation>, before: map<nat, ChallengeOperation>) {
    forall id :: id in now ==> id in before && now[id] == before[id]
  }
}
