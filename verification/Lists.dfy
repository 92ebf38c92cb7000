/**
 The array helpers the client takes from its utility package, on sequences.
 Elements are compared by value; callers that rely on object identity require distinct elements.
 */
module Lists {

  ghost predicate Distinct<T(!new)>(s: seq<T>) {
    forall i, j :: 0 <= i < j < |s| ==> s[i] != s[j]
  }

  /** `removeFromArray`: drops the first match, does nothing if there is none. */
  function RemoveFirst<T(==)>(s: seq<T>, x: T): seq<T> {
    if s == [] then []
    else if s[0] == x then s[1..]
    else [s[0]] + RemoveFirst(s[1..], x)
  }

  /** `subtractFromArray`: removes the elements of `t` one after the other. */
  function Subtract<T(==)>(s: seq<T>, t: seq<T>): seq<T>
    decreases |t|
  {
    if t == [] then s else Subtract(RemoveFirst(s, t[0]), t[1..])
  }

  lemma {:induction false} RemoveAbsent<T>(s: seq<T>, x: T)
    requires x !in s
    ensures RemoveFirst(s, x) == s
  {
    if s != [] {
      RemoveAbsent(s[1..], x);
    }
  }

  function Count<T(==)>(s: seq<T>, x: T): nat {
    if s == [] then 0 else (if s[0] == x then 1 else 0) + Count(s[1..], x)
  }

  lemma {:induction false} CountAppend<T>(s: seq<T>, t: seq<T>, x: T)
    ensures Count(s + t, x) == Count(s, x) + Count(t, x)
  {
    if s == [] {
      assert s + t == t;
    } else {
      assert (s + t)[1..] == s[1..] + t;
      CountAppend(s[1..], t, x);
    }
  }

  lemma {:induction false} CountIn<T>(s: seq<T>, x: T)
    ensures Count(s, x) > 0 <==> x in s
  {
    if s != [] {
      CountIn(s[1..], x);
    }
  }

  lemma {:induction false} OccursOnce<T(!new)>(s: seq<T>, x: T)
    requires Distinct(s)
    ensures multiset(s)[x] <= 1
  {
    if s != [] {
      var n := |s| - 1;
      OccursOnce(s[..n], x);
      assert s == s[..n] + [s[n]];
      assert s[n] !in s[..n];
    }
  }

  lemma {:induction false} OccursTwice<T>(s: seq<T>, i: nat, j: nat)
    requires i < j < |s| && s[i] == s[j]
    ensures multiset(s)[s[i]] >= 2
  {
    assert s == s[..j] + s[j..];
    assert s[..j][i] == s[i] && s[j..][0] == s[i];
  }

  ghost predicate CountedOnce<T(!new)>(s: seq<T>) {
    forall x :: Count(s, x) <= 1
  }

  lemma {:induction false} DistinctCountedOnce<T(!new)>(s: seq<T>)
    requires Distinct(s)
    ensures CountedOnce(s)
  {
    if s != [] {
      var rest := s[1..];
      forall i, j | 0 <= i < j < |rest| ensures rest[i] != rest[j] {
        assert s[i + 1] != s[j + 1];
      }
      DistinctCountedOnce(rest);
      forall x ensures Count(s, x) <= 1 {
        assert Count(rest, x) <= 1;
        CountIn(rest, x);
        if x in rest {
          var j :| 0 <= j < |rest| && rest[j] == x;
          assert s[j + 1] != s[0];
        }
      }
    }
  }

  lemma {:induction false} CountsTwice<T>(s: seq<T>, i: nat, j: nat)
    requires i < j < |s| && s[i] == s[j]
    ensures Count(s, s[i]) > 1
  {
    if i == 0 {
      CountIn(s[1..], s[0]);
      assert s[1..][j - 1] == s[0];
    } else {
      CountsTwice(s[1..], i - 1, j - 1);
    }
  }

  lemma {:induction false} CountedOnceDistinct<T(!new)>(s: seq<T>)
    requires CountedOnce(s)
    ensures Distinct(s)
  {
    forall i, j | 0 <= i < j < |s| ensures s[i] != s[j] {
      assert Count(s, s[i]) <= 1;
      if s[i] == s[j] {
        CountsTwice(s, i, j);
      }
    }
  }

  function Filter<T>(s: seq<T>, p: T -> bool): seq<T> {
    if s == [] then []
    else if p(s[0]) then [s[0]] + Filter(s[1..], p)
    else Filter(s[1..], p)
  }

  lemma {:induction false} FilterMembers<T(!new)>(s: seq<T>, p: T -> bool)
    ensures forall x :: x in Filter(s, p) <==> x in s && p(x)
  {
    if s != [] {
      FilterMembers(s[1..], p);
    }
  }

  function Map<T, U>(s: seq<T>, f: T -> U): (r: seq<U>)
    ensures |r| == |s| && forall i :: 0 <= i < |s| ==> r[i] == f(s[i])
  {
    seq(|s|, i requires 0 <= i < |s| => f(s[i]))
  }

  function Flatten<T>(ss: seq<seq<T>>): seq<T> {
    if ss == [] then [] else ss[0] + Flatten(ss[1..])
  }

  /** What a state becomes under a list of events, the first event first. */
  function Fold<S, A>(step: (S, A) -> S, s: S, events: seq<A>): S {
    if events == [] then s
    else step(Fold(step, s, events[..|events| - 1]), events[|events| - 1])
  }

  lemma {:induction false} FoldAppend<S, A>(step: (S, A) -> S, s: S, before: seq<A>, events: seq<A>)
    ensures Fold(step, s, before + events) == Fold(step, Fold(step, s, before), events)
  {
    if events == [] {
      assert before + events == before;
    } else {
      var n := |events| - 1;
      FoldAppend(step, s, before, events[..n]);
      assert (before + events)[..|before| + n] == before + events[..n];
    }
  }

  lemma {:induction false} FlattenAppend<T>(ss: seq<seq<T>>, s: seq<T>)
    ensures Flatten(ss + [s]) == Flatten(ss) + s
  {
    if ss == [] {
      assert ss + [s] == [s];
      assert Flatten([s]) == s + Flatten<T>([]);
    } else {
      assert (ss + [s])[1..] == ss[1..] + [s];
      FlattenAppend(ss[1..], s);
    }
  }

  lemma {:induction false} FilterAppend<T(!new)>(s: seq<T>, t: seq<T>, p: T -> bool)
    ensures Filter(s + t, p) == Filter(s, p) + Filter(t, p)
  {
    if s == [] {
      assert s + t == t;
    } else {
      assert (s + t)[1..] == s[1..] + t;
      FilterAppend(s[1..], t, p);
    }
  }

  /** What one more element adds at the end. */
  lemma {:induction false} FilterNext<T(!new)>(s: seq<T>, i: nat, p: T -> bool)
    requires i < |s|
    ensures Filter(s[..i + 1], p) == Filter(s[..i], p) + if p(s[i]) then [s[i]] else []
  {
    FilterAppend(s[..i], [s[i]], p);
    assert s[..i + 1] == s[..i] + [s[i]];
  }

  lemma {:induction false} FilterLast<T(!new)>(s: seq<T>, p: T -> bool)
    requires s != []
    ensures Filter(s, p) == Filter(s[..|s| - 1], p) + if p(s[|s| - 1]) then [s[|s| - 1]] else []
  {
    FilterNext(s, |s| - 1, p);
    assert s[..|s|] == s;
  }

  lemma {:induction false} FilterAll<T(!new)>(s: seq<T>, p: T -> bool)
    requires forall x :: x in s ==> p(x)
    ensures Filter(s, p) == s
  {
    if s != [] {
      FilterAll(s[1..], p);
    }
  }

  lemma {:induction false} FilterLength<T(!new)>(s: seq<T>, p: T -> bool)
    ensures |Filter(s, p)| <= |s|
    ensures (exists x :: x in s && !p(x)) ==> |Filter(s, p)| < |s|
  {
    if s != [] {
      FilterLength(s[1..], p);
    }
  }

  lemma {:induction false} RemoveDistinct<T(!new)>(s: seq<T>, x: T)
    requires Distinct(s)
    ensures Distinct(RemoveFirst(s, x))
    ensures forall y :: y in RemoveFirst(s, x) <==> y in s && y != x
  {
    if s != [] {
      var rest := s[1..];
      assert forall y :: y in s <==> y == s[0] || y in rest;
      assert s[0] !in rest;
      if s[0] != x {
        RemoveDistinct(rest, x);
      }
    }
  }

  /** Taking a list out of one without duplicates leaves the rest, still without duplicates. */
  lemma {:induction false} SubtractDistinct<T(!new)>(s: seq<T>, t: seq<T>)
    requires Distinct(s)
    ensures Distinct(Subtract(s, t))
    ensures forall x :: x in Subtract(s, t) <==> x in s && x !in t
    decreases |t|
  {
    if t != [] {
      RemoveDistinct(s, t[0]);
      SubtractDistinct(RemoveFirst(s, t[0]), t[1..]);
      assert forall x :: x in t <==> x == t[0] || x in t[1..];
    }
  }

  /** `arrayByDifference`: the elements of `s` that are not in `t`. */
  function Difference<T(==, !new)>(s: seq<T>, t: seq<T>): seq<T> {
    Filter(s, x => x !in t)
  }

  /** Subtracting a leading part drops it, whatever repetitions there are. */
  lemma {:induction false} SubtractPrefix<T>(s: seq<T>, n: nat)
    requires n <= |s|
    ensures Subtract(s, s[..n]) == s[n..]
  {
    if n > 0 {
      assert RemoveFirst(s, s[..n][0]) == s[1..];
      assert s[..n][1..] == s[1..][..n - 1];
      SubtractPrefix(s[1..], n - 1);
      assert s[1..][n - 1..] == s[n..];
    }
  }

  lemma {:induction false} FilterNone<T(!new)>(s: seq<T>, p: T -> bool)
    requires forall x :: x in s ==> !p(x)
    ensures Filter(s, p) == []
  {
    if s != [] {
      FilterNone(s[1..], p);
    }
  }

  /** The difference with a trailing part is the leading part exactly when the two share no element. */
  lemma {:induction false} DifferenceIsPrefix<T(!new)>(s: seq<T>, n: nat)
    requires n <= |s|
    ensures Difference(s, s[n..]) == s[..n] <==> forall x :: x in s[..n] ==> x !in s[n..]
  {
    var p := x => x !in s[n..];
    assert s == s[..n] + s[n..];
    FilterAppend(s[..n], s[n..], p);
    FilterNone(s[n..], p);
    if forall x :: x in s[..n] ==> p(x) {
      FilterAll(s[..n], p);
    }
    if exists x :: x in s[..n] && !p(x) {
      FilterLength(s[..n], p);
    }
  }

  lemma {:induction false} ConcatAssociates<T>(a: seq<T>, b: seq<T>, c: seq<T>)
    ensures (a + b) + c == a + (b + c)
  {
  }

  /** The head of a queue leaves for the history. */
  lemma {:induction false} HeadLeaves<T>(history: seq<T>, queue: seq<T>)
    requires queue != []
    ensures history + queue == (history + [queue[0]]) + queue[1..]
  {
  }

  /** The head of a queue leaves for the history while others join the end. */
  lemma {:induction false} TailAfterPop<T>(history: seq<T>, queue: seq<T>, joining: seq<T>)
    requires queue != []
    ensures (history + queue) + joining == (history + [queue[0]]) + (queue[1..] + joining)
    ensures (queue + joining)[1..] == queue[1..] + joining
  {
  }
}
