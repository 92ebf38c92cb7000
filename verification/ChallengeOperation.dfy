/** One challenge: the values submitted for its prompts, and the callbacks they set off. */
module ChallengeOperations {
  import opened Lists
  import opened Wrappers
  import opened ChallengeModel

  datatype Challenge = Challenge(id: nat, prompts: seq<Prompt>)

  type Artifacts = map<string, string>

  datatype Response = Response(values: seq<Value>, artifacts: Artifacts)

  datatype Call =
    | OnValidValue(value: Value)
    | OnInvalidValue(value: Value)
    | OnNonvalidatedSubmit(response: Response)
    | OnComplete(response: Response)

  /** The state of an operation, with the callbacks made so far. */
  datatype Operation = Operation(
    challenge: Challenge,
    nonvalidatedValues: seq<Value>,
    validValues: seq<Value>,
    invalidValues: seq<Value>,
    artifacts: Artifacts,
    calls: seq<Call>)
  {
    predicate IsFinished() {
      |validValues| == |challenge.prompts|
    }
  }

  function Begin(challenge: Challenge): Operation {
    Operation(challenge, [], [], [], map[], [])
  }

  predicate IsNonvalidated(p: Prompt) {
    !p.Validates()
  }

  function NonvalidatedPrompts(prompts: seq<Prompt>): seq<Prompt> {
    Filter(prompts, IsNonvalidated)
  }

  function Notify(op: Operation, call: Call): Operation {
    op.(calls := op.calls + [call])
  }

  function WithStatus(op: Operation, value: Value, valid: bool, artifacts: Artifacts): Operation {
    var op' :=
      if valid then op.(validValues := Upsert(op.validValues, value, KindOf), artifacts := op.artifacts + artifacts)
      else op.(invalidValues := Upsert(op.invalidValues, value, KindOf), artifacts := op.artifacts + artifacts);
    if op'.IsFinished() then Notify(op', OnComplete(Response(op'.validValues, op'.artifacts)))
    else Notify(op', if valid then OnValidValue(value) else OnInvalidValue(value))
  }

  function AfterSubmit(op: Operation): Operation {
    Notify(op, OnNonvalidatedSubmit(Response(op.nonvalidatedValues, op.artifacts))).(nonvalidatedValues := [])
  }

  function WithNonvalidated(op: Operation, value: Value): Operation {
    var op' := op.(nonvalidatedValues := Upsert(op.nonvalidatedValues, value, IdOf));
    if |op'.nonvalidatedValues| == |NonvalidatedPrompts(op.challenge.prompts)| then AfterSubmit(op') else op'
  }

  // ----- Any sequence of submissions

  datatype Submission =
    | Checked(value: Value, valid: bool, artifacts: Artifacts)
    | Unchecked(value: Value)

  function After(op: Operation, submission: Submission): Operation {
    match submission
    case Checked(value, valid, artifacts) => WithStatus(op, value, valid, artifacts)
    case Unchecked(value) => WithNonvalidated(op, value)
  }

  function Run(challenge: Challenge, submissions: seq<Submission>): Operation {
    Fold(After, Begin(challenge), submissions)
  }

  /** The values that were found to be valid, as they came. */
  function ValidOnes(submissions: seq<Submission>): seq<Value> {
    if submissions == [] then []
    else
      var n := |submissions| - 1;
      var earlier := ValidOnes(submissions[..n]);
      if submissions[n].Checked? && submissions[n].valid then earlier + [submissions[n].value] else earlier
  }

  /** The values that were found to be invalid, as they came. */
  function InvalidOnes(submissions: seq<Submission>): seq<Value> {
    if submissions == [] then []
    else
      var n := |submissions| - 1;
      var earlier := InvalidOnes(submissions[..n]);
      if submissions[n].Checked? && !submissions[n].valid then earlier + [submissions[n].value] else earlier
  }

  /** What the checks have produced, the later for a key replacing the earlier. */
  function Merged(submissions: seq<Submission>): Artifacts {
    if submissions == [] then map[]
    else
      var n := |submissions| - 1;
      Merged(submissions[..n]) + if submissions[n].Checked? then submissions[n].artifacts else map[]
  }

  /** The values of prompts without validation since the last response was sent. */
  function Unsent(challenge: Challenge, submissions: seq<Submission>): seq<Value> {
    if submissions == [] then []
    else
      var n := |submissions| - 1;
      var earlier := Unsent(challenge, submissions[..n]);
      match submissions[n]
      case Checked(_, _, _) => earlier
      case Unchecked(value) =>
        if |Latest(earlier + [value], IdOf)| == |NonvalidatedPrompts(challenge.prompts)| then [] else earlier + [value]
  }

  /** Every submission answers a prompt of the challenge. */
  ghost predicate Answers(challenge: Challenge, submissions: seq<Submission>) {
    forall i :: 0 <= i < |submissions| ==>
      && submissions[i].value.prompt in challenge.prompts
      && (submissions[i].Unchecked? <==> !submissions[i].value.prompt.Validates())
  }

  /** The operation holds what the submissions come to. */
  ghost predicate KeepsLatest(op: Operation, challenge: Challenge, submissions: seq<Submission>) {
    && op.challenge == challenge
    && op.validValues == Latest(ValidOnes(submissions), KindOf)
    && op.invalidValues == Latest(InvalidOnes(submissions), KindOf)
    && op.artifacts == Merged(submissions)
    && op.nonvalidatedValues == Latest(Unsent(challenge, submissions), IdOf)
  }

  lemma {:induction false} LatestNext<K>(submitted: seq<Value>, v: Value, key: Value -> K)
    ensures Latest(submitted + [v], key) == Upsert(Latest(submitted, key), v, key)
  {
    assert (submitted + [v])[..|submitted|] == submitted;
  }

  lemma {:induction false} CheckedKeepsLatest(op: Operation, challenge: Challenge, submissions: seq<Submission>,
                                              value: Value, valid: bool, artifacts: Artifacts)
    requires KeepsLatest(op, challenge, submissions)
    ensures KeepsLatest(WithStatus(op, value, valid, artifacts), challenge,
                        submissions + [Checked(value, valid, artifacts)])
  {
    CheckedAdds(challenge, submissions, value, valid, artifacts);
    WithStatusSets(op, value, valid, artifacts);
    LatestNext(if valid then ValidOnes(submissions) else InvalidOnes(submissions), value, KindOf);
  }

  lemma {:induction false} CheckedAdds(challenge: Challenge, submissions: seq<Submission>, value: Value, valid: bool,
                                       artifacts: Artifacts)
    ensures var all := submissions + [Checked(value, valid, artifacts)];
      && ValidOnes(all) == (if valid then ValidOnes(submissions) + [value] else ValidOnes(submissions))
      && InvalidOnes(all) == (if valid then InvalidOnes(submissions) else InvalidOnes(submissions) + [value])
      && Merged(all) == Merged(submissions) + artifacts && Unsent(challenge, all) == Unsent(challenge, submissions)
  {
    var all := submissions + [Checked(value, valid, artifacts)];
    assert all[..|submissions|] == submissions;
  }

  lemma {:induction false} WithStatusSets(op: Operation, value: Value, valid: bool, artifacts: Artifacts)
    ensures var t := WithStatus(op, value, valid, artifacts);
      && t.validValues == (if valid then Upsert(op.validValues, value, KindOf) else op.validValues)
      && t.invalidValues == (if valid then op.invalidValues else Upsert(op.invalidValues, value, KindOf))
      && t.artifacts == op.artifacts + artifacts
      && t.nonvalidatedValues == op.nonvalidatedValues && t.challenge == op.challenge
  {
  }

  lemma {:induction false} UncheckedKeepsLatest(op: Operation, challenge: Challenge, submissions: seq<Submission>,
                                                value: Value)
    requires KeepsLatest(op, challenge, submissions)
    ensures KeepsLatest(WithNonvalidated(op, value), challenge, submissions + [Unchecked(value)])
  {
    var all := submissions + [Unchecked(value)];
    assert all[..|submissions|] == submissions;
    assert ValidOnes(all) == ValidOnes(submissions) && InvalidOnes(all) == InvalidOnes(submissions);
    assert Merged(all) == Merged(submissions);
    LatestNext(Unsent(challenge, submissions), value, IdOf);
  }

  lemma {:induction false} RunKeepsLatest(challenge: Challenge, submissions: seq<Submission>)
    ensures KeepsLatest(Run(challenge, submissions), challenge, submissions)
  {
    if submissions != [] {
      var n := |submissions| - 1;
      var op := Run(challenge, submissions[..n]);
      RunKeepsLatest(challenge, submissions[..n]);
      assert submissions == submissions[..n] + [submissions[n]];
      match submissions[n]
      case Checked(value, valid, artifacts) =>
        CheckedKeepsLatest(op, challenge, submissions[..n], value, valid, artifacts);
      case Unchecked(value) => UncheckedKeepsLatest(op, challenge, submissions[..n], value);
    }
  }

  function Kinds(prompts: seq<Prompt>): (r: seq<Validation>)
    ensures |r| == |prompts| && forall i :: 0 <= i < |r| ==> r[i] == prompts[i].validation
  {
    if prompts == [] then [] else Kinds(prompts[..|prompts| - 1]) + [prompts[|prompts| - 1].validation]
  }

  function Ids(prompts: seq<Prompt>): (r: seq<nat>)
    ensures |r| == |prompts| && forall i :: 0 <= i < |r| ==> r[i] == prompts[i].id
  {
    if prompts == [] then [] else Ids(prompts[..|prompts| - 1]) + [prompts[|prompts| - 1].id]
  }

  function Keys<K>(values: seq<Value>, key: Value -> K): (r: seq<K>)
    ensures |r| == |values| && forall i :: 0 <= i < |r| ==> r[i] == key(values[i])
  {
    if values == [] then [] else Keys(values[..|values| - 1], key) + [key(values[|values| - 1])]
  }

  lemma {:induction false} KeysHas<K(!new)>(values: seq<Value>, k: K, key: Value -> K)
    ensures k in Keys(values, key) <==> Has(values, k, key)
  {
    if Has(values, k, key) {
      var v :| v in values && key(v) == k;
      var i :| 0 <= i < |values| && values[i] == v;
      assert Keys(values, key)[i] == k;
    }
  }

  /** As many latest values as there are keys to answer: the keys are distinct and all are answered. */
  lemma {:induction false} CountIff<K(!new)>(submitted: seq<Value>, key: Value -> K, all: seq<K>)
    requires forall k :: Has(submitted, k, key) ==> k in all
    ensures |Latest(submitted, key)| == |all| <==> Distinct(all) && forall k :: k in all ==> Has(submitted, k, key)
  {
    LatestHasOnePerKey(submitted, key);
    var some := Keys(Latest(submitted, key), key);
    forall k ensures k in some <==> Has(submitted, k, key) {
      KeysHas(Latest(submitted, key), k, key);
      LatestHas(submitted, k, key);
    }
    Pigeonhole(some, all);
  }

  lemma {:induction false} ValidOnesAnswer(challenge: Challenge, submissions: seq<Submission>)
    requires Answers(challenge, submissions)
    ensures forall v :: v in ValidOnes(submissions) ==> v.prompt in challenge.prompts
  {
    if submissions != [] {
      ValidOnesAnswer(challenge, submissions[..|submissions| - 1]);
    }
  }

  lemma {:induction false} KindsAre(prompts: seq<Prompt>, p: Prompt)
    requires p in prompts
    ensures p.validation in Kinds(prompts) && p.id in Ids(prompts)
  {
    var i :| 0 <= i < |prompts| && prompts[i] == p;
    assert Kinds(prompts)[i] == p.validation && Ids(prompts)[i] == p.id;
  }

  ghost predicate AllValid(prompts: seq<Prompt>, submissions: seq<Submission>) {
    forall p :: p in prompts ==> Has(ValidOnes(submissions), p.validation, KindOf)
  }

  /** Through exactly when no two prompts are of one kind and each has had a valid value. */
  lemma {:induction false} FinishedIff(challenge: Challenge, submissions: seq<Submission>)
    requires Answers(challenge, submissions)
    ensures Run(challenge, submissions).IsFinished() <==>
      Distinct(Kinds(challenge.prompts)) && AllValid(challenge.prompts, submissions)
  {
    var valid, all := ValidOnes(submissions), Kinds(challenge.prompts);
    RunKeepsLatest(challenge, submissions);
    ValidOnesAnswer(challenge, submissions);
    forall k | Has(valid, k, KindOf) ensures k in all {
      var v :| v in valid && KindOf(v) == k;
      KindsAre(challenge.prompts, v.prompt);
    }
    CountIff(valid, KindOf, all);
    forall p | p in challenge.prompts ensures p.validation in all {
      KindsAre(challenge.prompts, p);
    }
  }

  /**
   A value that was checked tells the observer one thing: with it the challenge is through, and the response holds the
   latest valid value of each kind; or else that the value is valid, or that it is not.
   */
  lemma {:induction false} CheckTells(challenge: Challenge, submissions: seq<Submission>, value: Value, valid: bool,
                                      artifacts: Artifacts)
    requires Answers(challenge, submissions + [Checked(value, valid, artifacts)])
    ensures var all := submissions + [Checked(value, valid, artifacts)];
      Run(challenge, all).calls == Run(challenge, submissions).calls + [
        if Distinct(Kinds(challenge.prompts)) && AllValid(challenge.prompts, all)
        then OnComplete(Response(Latest(ValidOnes(all), KindOf), Merged(all)))
        else if valid then OnValidValue(value)
        else OnInvalidValue(value)]
  {
    var all := submissions + [Checked(value, valid, artifacts)];
    assert all[..|submissions|] == submissions;
    FinishedIff(challenge, all);
    RunKeepsLatest(challenge, all);
  }

  /** Submission `i` is the last check that produced something for the key. */
  ghost predicate LastFor(submissions: seq<Submission>, i: nat, k: string) {
    && i < |submissions| && submissions[i].Checked? && k in submissions[i].artifacts
    && forall j :: i < j < |submissions| && submissions[j].Checked? ==> k !in submissions[j].artifacts
  }

  /** The artifacts are those of all checks, and the last one for a key counts. */
  lemma {:induction false} MergedAt(submissions: seq<Submission>, k: string)
    ensures k in Merged(submissions) <==> exists i: nat :: LastFor(submissions, i, k)
    ensures forall i: nat :: LastFor(submissions, i, k) ==> Merged(submissions)[k] == submissions[i].artifacts[k]
  {
    if submissions != [] {
      var n := |submissions| - 1;
      MergedAt(submissions[..n], k);
      if submissions[n].Checked? && k in submissions[n].artifacts {
        assert LastFor(submissions, n, k);
      } else {
        forall i: nat ensures LastFor(submissions, i, k) <==> LastFor(submissions[..n], i, k) {
          LastForStays(submissions, i, k);
        }
      }
    }
  }

  lemma {:induction false} LastForStays(submissions: seq<Submission>, i: nat, k: string)
    requires submissions != []
    requires var last := submissions[|submissions| - 1]; !(last.Checked? && k in last.artifacts)
    ensures LastFor(submissions, i, k) <==> LastFor(submissions[..|submissions| - 1], i, k)
  {
    var n := |submissions| - 1;
    if LastFor(submissions, i, k) {
      forall j | i < j < n && submissions[..n][j].Checked? ensures k !in submissions[..n][j].artifacts {
        assert submissions[j] == submissions[..n][j];
      }
    }
    if LastFor(submissions[..n], i, k) {
      forall j | i < j < |submissions| && submissions[j].Checked? ensures k !in submissions[j].artifacts {
        assert j < n ==> submissions[..n][j] == submissions[j];
      }
    }
  }

  const TWO_PASSCODES: Challenge := Challenge(0, [Prompt(0, LocalPasscode), Prompt(1, LocalPasscode)])

  /** Two prompts for the passcode, both answered with a valid value: the challenge is still not through. */
  lemma {:induction false} TwoPasscodesNeverFinish(first: string, second: string)
    ensures var submissions := [Checked(Value(TWO_PASSCODES.prompts[0], first), true, map[]),
                                Checked(Value(TWO_PASSCODES.prompts[1], second), true, map[])];
      && AllValid(TWO_PASSCODES.prompts, submissions) && !Run(TWO_PASSCODES, submissions).IsFinished()
  {
    var one := Checked(Value(TWO_PASSCODES.prompts[0], first), true, map[]);
    var two := Checked(Value(TWO_PASSCODES.prompts[1], second), true, map[]);
    assert [one, two][..1] == [one] && [one][..0] == [];
    assert ValidOnes([one]) == ValidOnes([]) + [one.value];
    assert ValidOnes([one, two]) == ValidOnes([one]) + [two.value];
    assert one.value in ValidOnes([one, two]) && KindOf(one.value) == LocalPasscode;
    assert Kinds(TWO_PASSCODES.prompts)[0] == Kinds(TWO_PASSCODES.prompts)[1];
    FinishedIff(TWO_PASSCODES, [one, two]);
  }

  // ----- Prompts without validation

  lemma {:induction false} UnsentAnswers(challenge: Challenge, submissions: seq<Submission>)
    requires Answers(challenge, submissions)
    ensures forall v :: v in Unsent(challenge, submissions) ==> v.prompt in NonvalidatedPrompts(challenge.prompts)
  {
    if submissions != [] {
      UnsentAnswers(challenge, submissions[..|submissions| - 1]);
      FilterMembers(challenge.prompts, IsNonvalidated);
    }
  }

  ghost predicate AllAnswered(prompts: seq<Prompt>, values: seq<Value>) {
    forall p :: p in NonvalidatedPrompts(prompts) ==> Has(values, p.id, IdOf)
  }

  /** A response is sent exactly when every prompt without validation has a value since the last response. */
  lemma {:induction false} SubmitsIff(challenge: Challenge, submissions: seq<Submission>, value: Value)
    requires Answers(challenge, submissions + [Unchecked(value)])
    requires Distinct(Ids(NonvalidatedPrompts(challenge.prompts)))
    ensures var op := Run(challenge, submissions);
      var values := Unsent(challenge, submissions) + [value];
      WithNonvalidated(op, value).calls ==
        if AllAnswered(challenge.prompts, values)
        then op.calls + [OnNonvalidatedSubmit(Response(Latest(values, IdOf), op.artifacts))]
        else op.calls
  {
    var op := Run(challenge, submissions);
    var earlier := Unsent(challenge, submissions);
    var values := earlier + [value];
    var prompts := NonvalidatedPrompts(challenge.prompts);
    RunKeepsLatest(challenge, submissions);
    assert values[..|earlier|] == earlier;
    assert Upsert(op.nonvalidatedValues, value, IdOf) == Latest(values, IdOf);
    NextAnswers(challenge, submissions, value);
    UnsentAnswers(challenge, submissions);
    forall k | Has(values, k, IdOf) ensures k in Ids(prompts) {
      var v :| v in values && IdOf(v) == k;
      KindsAre(prompts, v.prompt);
    }
    CountIff(values, IdOf, Ids(prompts));
    forall p | p in prompts ensures p.id in Ids(prompts) {
      KindsAre(prompts, p);
    }
  }

  lemma {:induction false} NextAnswers(challenge: Challenge, submissions: seq<Submission>, value: Value)
    requires Answers(challenge, submissions + [Unchecked(value)])
    ensures Answers(challenge, submissions) && value.prompt in NonvalidatedPrompts(challenge.prompts)
  {
    var all := submissions + [Unchecked(value)];
    assert forall i :: 0 <= i < |submissions| ==> all[i] == submissions[i];
    assert all[|submissions|] == Unchecked(value);
    FilterMembers(challenge.prompts, IsNonvalidated);
  }

  /** The response holds one value for each of these prompts, the latest. */
  lemma {:induction false} ResponseHasLatestValues(prompts: seq<Prompt>, values: seq<Value>,
                                                   p: Prompt) returns (v: Value)
    requires AllAnswered(prompts, values) && p in NonvalidatedPrompts(prompts)
    ensures v in Latest(values, IdOf) && v.prompt.id == p.id && IsLatest(values, v, IdOf)
    ensures forall w :: w in Latest(values, IdOf) && w.prompt.id == p.id ==> w == v
  {
    LatestHas(values, p.id, IdOf);
    v :| v in Latest(values, IdOf) && IdOf(v) == p.id;
    LatestIsLatest(values, IdOf);
    LatestHasOnePerKey(values, IdOf);
  }

  // ----- The operation as it is kept

  class ChallengeOperation {
    const challenge: Challenge
    var nonvalidatedValues: seq<Value>
    var validValues: seq<Value>
    var invalidValues: seq<Value>
    var artifacts: Artifacts
    var calls: seq<Call>

    constructor (challenge: Challenge)
      ensures View() == Begin(challenge)
    {
      this.challenge := challenge;
      nonvalidatedValues, validValues, invalidValues, artifacts, calls := [], [], [], map[], [];
    }

    function View(): Operation
      reads this
    {
      Operation(challenge, nonvalidatedValues, validValues, invalidValues, artifacts, calls)
    }

    method Complete(response: Option<Response>)
      modifies this
      ensures View() == Notify(old(View()),
        OnComplete(if response.Some? then response.value else Response(old(validValues), old(artifacts))))
    {
      var r := if response.Some? then response.value else Response(validValues, artifacts);
      calls := calls + [OnComplete(r)];
    }

    method NonvalidatedSubmit()
      modifies this
      ensures View() == AfterSubmit(old(View()))
    {
      calls := calls + [OnNonvalidatedSubmit(Response(nonvalidatedValues, artifacts))];
      nonvalidatedValues := [];
    }

    predicate IsFinished()
      reads this
    {
      |validValues| == |challenge.prompts|
    }

    method AddNonvalidatedValue(value: Value)
      modifies this
      ensures View() == WithNonvalidated(old(View()), value)
    {
      FindAndPush(nonvalidatedValues, value, IdOf);
      var matching := Find(nonvalidatedValues, value.prompt.id, IdOf);
      if matching.Some? {
        nonvalidatedValues := RemoveFirst(nonvalidatedValues, matching.value);
      }
      nonvalidatedValues := nonvalidatedValues + [value];
      if |nonvalidatedValues| == |NonvalidatedPrompts(challenge.prompts)| {
        NonvalidatedSubmit();
      }
    }

    method SetValueStatus(value: Value, valid: bool, artifacts: Artifacts)
      modifies this
      ensures View() == WithStatus(old(View()), value, valid, artifacts)
    {
      var valuesArray := if valid then validValues else invalidValues;
      FindAndPush(valuesArray, value, KindOf);
      var matching := Find(valuesArray, value.prompt.validation, KindOf);
      if matching.Some? {
        valuesArray := RemoveFirst(valuesArray, matching.value);
      }
      valuesArray := valuesArray + [value];
      if valid {
        validValues := valuesArray;
      } else {
        invalidValues := valuesArray;
      }
      this.artifacts := this.artifacts + artifacts;
      if IsFinished() {
        Complete(None);
      } else {
        calls := calls + [if valid then OnValidValue(value) else OnInvalidValue(value)];
      }
    }
  }
}
