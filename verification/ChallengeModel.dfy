/** What a challenge operation collects, and when it is through. */
module ChallengeModel {
  import opened Lists
  import opened Wrappers

  datatype Validation = NoValidation | LocalPasscode | AccountPassword | Biometric | ProtectionSessionDuration

  datatype Prompt = Prompt(id: nat, validation: Validation) {
    predicate Validates() {
      validation != NoValidation
    }
  }

  datatype Value = Value(prompt: Prompt, content: string)

  function KindOf(v: Value): Validation {
    v.prompt.validation
  }

  function IdOf(v: Value): nat {
    v.prompt.id
  }

  // ----- Lists with one value per key, the latest

  function Find<K(==)>(values: seq<Value>, k: K, key: Value -> K): Option<Value> {
    if values == [] then None
    else if key(values[0]) == k then Some(values[0])
    else Find(values[1..], k, key)
  }

  /** Replaces the value that has the same key, and puts the new one at the end. */
  function Upsert<K(==)>(values: seq<Value>, v: Value, key: Value -> K): seq<Value> {
    if values == [] then [v]
    else if key(values[0]) == key(v) then values[1..] + [v]
    else [values[0]] + Upsert(values[1..], v, key)
  }

  function Latest<K(==)>(submitted: seq<Value>, key: Value -> K): seq<Value> {
    if submitted == [] then []
    else Upsert(Latest(submitted[..|submitted| - 1], key), submitted[|submitted| - 1], key)
  }

  ghost predicate OnePerKey<K(!new)>(values: seq<Value>, key: Value -> K) {
    forall i, j :: 0 <= i < j < |values| ==> key(values[i]) != key(values[j])
  }

  ghost predicate Has<K(!new)>(values: seq<Value>, k: K, key: Value -> K) {
    exists v :: v in values && key(v) == k
  }

  /** Taking out the match that is found, and pushing the new value, is what the operation does. */
  lemma {:induction false} FindAndPush<K>(values: seq<Value>, v: Value, key: Value -> K)
    ensures var matching := Find(values, key(v), key);
      Upsert(values, v, key) == (if matching.Some? then RemoveFirst(values, matching.value) else values) + [v]
  {
    if values != [] && key(values[0]) != key(v) {
      FindAndPush(values[1..], v, key);
      FindsKey(values[1..], key(v), key);
    }
  }

  lemma {:induction false} FindsKey<K>(values: seq<Value>, k: K, key: Value -> K)
    ensures Find(values, k, key).Some? ==> key(Find(values, k, key).value) == k
  {
    if values != [] {
      FindsKey(values[1..], k, key);
    }
  }

  lemma {:induction false} UpsertReplaces<K(!new)>(values: seq<Value>, v: Value, key: Value -> K)
    requires OnePerKey(values, key)
    ensures OnePerKey(Upsert(values, v, key), key)
    ensures forall x :: x in Upsert(values, v, key) <==> x == v || (x in values && key(x) != key(v))
  {
    if values != [] {
      var rest := values[1..];
      assert forall x :: x in values <==> x == values[0] || x in rest;
      assert forall x :: x in rest ==> key(x) != key(values[0]);
      if key(values[0]) != key(v) {
        UpsertReplaces(rest, v, key);
      }
    }
  }

  lemma {:induction false} LatestHasOnePerKey<K(!new)>(submitted: seq<Value>, key: Value -> K)
    ensures OnePerKey(Latest(submitted, key), key)
  {
    if submitted != [] {
      var n := |submitted| - 1;
      LatestHasOnePerKey(submitted[..n], key);
      UpsertReplaces(Latest(submitted[..n], key), submitted[n], key);
    }
  }

  /** `v` is the last value submitted for its key. */
  ghost predicate IsLatest<K(!new)>(submitted: seq<Value>, v: Value, key: Value -> K) {
    exists i :: 0 <= i < |submitted| && submitted[i] == v
             && forall j :: i < j < |submitted| ==> key(submitted[j]) != key(v)
  }

  lemma {:induction false} IsLatestNext<K(!new)>(submitted: seq<Value>, w: Value, v: Value, key: Value -> K)
    ensures IsLatest(submitted + [w], v, key) <==> v == w || (IsLatest(submitted, v, key) && key(v) != key(w))
  {
    var all := submitted + [w];
    if IsLatest(all, v, key) && v != w {
      var i :| 0 <= i < |all| && all[i] == v && forall j :: i < j < |all| ==> key(all[j]) != key(v);
      assert key(all[|submitted|]) != key(v);
      assert submitted[i] == v;
      forall j | i < j < |submitted| ensures key(submitted[j]) != key(v) {
        assert all[j] == submitted[j];
      }
    }
    if v == w {
      assert all[|submitted|] == v;
    } else if IsLatest(submitted, v, key) && key(v) != key(w) {
      var i :| 0 <= i < |submitted| && submitted[i] == v
            && forall j :: i < j < |submitted| ==> key(submitted[j]) != key(v);
      assert all[i] == v;
      forall j | i < j < |all| ensures key(all[j]) != key(v) {
        assert j < |submitted| ==> all[j] == submitted[j];
      }
    }
  }

  lemma {:induction false} LatestIsLatest<K(!new)>(submitted: seq<Value>, key: Value -> K)
    ensures forall v :: v in Latest(submitted, key) <==> IsLatest(submitted, v, key)
  {
    if submitted != [] {
      var n := |submitted| - 1;
      LatestIsLatest(submitted[..n], key);
      LatestHasOnePerKey(submitted[..n], key);
      UpsertReplaces(Latest(submitted[..n], key), submitted[n], key);
      assert submitted == submitted[..n] + [submitted[n]];
      forall v ensures v in Latest(submitted, key) <==> IsLatest(submitted, v, key) {
        IsLatestNext(submitted[..n], submitted[n], v, key);
      }
    }
  }

  /** A key is present as soon as any value was submitted for it. */
  lemma {:induction false} LatestHas<K(!new)>(submitted: seq<Value>, k: K, key: Value -> K)
    ensures Has(Latest(submitted, key), k, key) <==> Has(submitted, k, key)
  {
    if submitted != [] {
      var n := |submitted| - 1;
      LatestHas(submitted[..n], k, key);
      LatestHasOnePerKey(submitted[..n], key);
      UpsertReplaces(Latest(submitted[..n], key), submitted[n], key);
      assert submitted == submitted[..n] + [submitted[n]];
      if Has(submitted, k, key) {
        if key(submitted[n]) == k {
          assert submitted[n] in Latest(submitted, key);
        } else {
          var v :| v in submitted[..n] && key(v) == k;
          var w :| w in Latest(submitted[..n], key) && key(w) == k;
          assert w in Latest(submitted, key);
        }
      }
      if Has(Latest(submitted, key), k, key) {
        var v :| v in Latest(submitted, key) && key(v) == k;
        if v != submitted[n] {
          assert v in Latest(submitted[..n], key);
        }
      }
    }
  }

  // ----- Pigeonhole

  function Elements<T>(s: seq<T>): set<T> {
    set x | x in s
  }

  lemma {:induction false} ElementsCount<T(!new)>(s: seq<T>)
    ensures |Elements(s)| <= |s|
    ensures |Elements(s)| == |s| <==> Distinct(s)
  {
    if s != [] {
      var n := |s| - 1;
      ElementsCount(s[..n]);
      assert s == s[..n] + [s[n]];
      if s[n] in s[..n] {
        assert Elements(s) == Elements(s[..n]);
        var i :| 0 <= i < n && s[i] == s[n];
      } else {
        assert Elements(s) == Elements(s[..n]) + {s[n]};
      }
    }
  }

  lemma {:induction false} SubsetCount<T>(a: set<T>, b: set<T>)
    requires a <= b
    ensures |a| <= |b| && (|a| == |b| <==> a == b)
  {
    assert b == a + (b - a);
    assert |b| == |a| + |b - a|;
    if |b - a| == 0 {
      assert b - a == {};
    }
  }

  /** A list without duplicates drawn from `all` is as long as `all` exactly when that has none and is used up. */
  lemma {:induction false} Pigeonhole<T(!new)>(some: seq<T>, all: seq<T>)
    requires Distinct(some) && forall x :: x in some ==> x in all
    ensures |some| == |all| <==> Distinct(all) && forall x :: x in all ==> x in some
  {
    ElementsCount(some);
    ElementsCount(all);
    assert Elements(some) <= Elements(all);
    SubsetCount(Elements(some), Elements(all));
    if forall x :: x in all ==> x in some {
      assert Elements(some) == Elements(all);
    }
    if Elements(some) == Elements(all) {
      forall x | x in all ensures x in some {
        assert x in Elements(all);
      }
    }
  }
}
