/** The parent relation of tags: walking it, and keeping it free of cycles. */
module TagForest {
  import opened Wrappers

  type Uuid = nat

  datatype Tag = Tag(title: string, parent: Option<Uuid>)

  type Tags = map<Uuid, Tag>

  /** The id reached by following `n` parent pointers; the last one may name a tag that is missing. */
  ghost function Up(tags: Tags, u: Uuid, n: nat): Option<Uuid> {
    if n == 0 then Some(u)
    else
      var v := Up(tags, u, n - 1);
      if v.Some? && v.value in tags then tags[v.value].parent else None
  }

  ghost predicate StrictAncestor(tags: Tags, a: Uuid, u: Uuid) {
    exists n: nat :: n > 0 && Up(tags, u, n) == Some(a)
  }

  ghost predicate Acyclic(tags: Tags) {
    forall u: Uuid, n: nat :: n > 0 ==> Up(tags, u, n) != Some(u)
  }

  lemma {:induction false} UpAdds(tags: Tags, u: Uuid, m: nat, n: nat)
    requires Up(tags, u, m).Some?
    ensures Up(tags, u, m + n) == Up(tags, Up(tags, u, m).value, n)
  {
    if n > 0 {
      UpAdds(tags, u, m, n - 1);
    }
  }

  lemma {:induction false} UpShorter(tags: Tags, u: Uuid, m: nat, n: nat)
    requires m <= n && Up(tags, u, n).Some?
    ensures Up(tags, u, m).Some? && (m < n ==> Up(tags, u, m).value in tags)
  {
    if m < n {
      UpShorter(tags, u, m, n - 1);
    }
  }

  // ----- Changes that keep the relation acyclic

  /** Every parent pointer of `tags'` is one of `tags`. */
  ghost predicate FewerParents(tags: Tags, tags': Tags) {
    forall u :: u in tags' && tags'[u].parent.Some? ==> u in tags && tags[u].parent == tags'[u].parent
  }

  lemma {:induction false} UpWithFewerParents(tags: Tags, tags': Tags, u: Uuid, n: nat)
    requires FewerParents(tags, tags') && Up(tags', u, n).Some?
    ensures Up(tags, u, n) == Up(tags', u, n)
  {
    if n > 0 {
      UpWithFewerParents(tags, tags', u, n - 1);
    }
  }

  /** Deleting tags and dropping parents never makes a cycle. */
  lemma {:induction false} FewerParentsKeepAcyclic(tags: Tags, tags': Tags)
    requires Acyclic(tags) && FewerParents(tags, tags')
    ensures Acyclic(tags')
  {
    forall u: Uuid, n: nat | n > 0 ensures Up(tags', u, n) != Some(u) {
      if Up(tags', u, n) == Some(u) {
        UpWithFewerParents(tags, tags', u, n);
      }
    }
  }

  function WithParent(tags: Tags, c: Uuid, p: Uuid): Tags
    requires c in tags
  {
    tags[c := tags[c].(parent := Some(p))]
  }

  /** A walk that does not pass through `c` is not affected by what `c` points to. */
  lemma {:induction false} UpAvoiding(tags: Tags, tags': Tags, c: Uuid, u: Uuid, n: nat)
    requires forall x :: x != c ==> (x in tags <==> x in tags') && (x in tags ==> tags[x].parent == tags'[x].parent)
    requires forall k: nat :: k < n ==> Up(tags', u, k) != Some(c)
    ensures Up(tags, u, n) == Up(tags', u, n)
  {
    if n > 0 {
      UpAvoiding(tags, tags', c, u, n - 1);
      assert Up(tags', u, n - 1) != Some(c);
    }
  }

  /** A walk that reaches `c` does so without passing through it before. */
  lemma {:induction false} FirstVisit(tags: Tags, u: Uuid, c: Uuid, n: nat) returns (m: nat)
    requires Up(tags, u, n) == Some(c)
    ensures m <= n && Up(tags, u, m) == Some(c)
    ensures forall k: nat :: k < m ==> Up(tags, u, k) != Some(c)
  {
    if k: nat :| k < n && Up(tags, u, k) == Some(c) {
      m := FirstVisit(tags, u, c, k);
    } else {
      m := n;
    }
  }

  /** Taking a parent that is neither the tag itself nor one of its descendants makes no cycle. */
  lemma {:induction false} WithParentKeepsAcyclic(tags: Tags, c: Uuid, p: Uuid)
    requires Acyclic(tags) && c in tags && p != c && !StrictAncestor(tags, c, p)
    ensures Acyclic(WithParent(tags, c, p))
  {
    var tags' := WithParent(tags, c, p);
    forall u: Uuid, n: nat | n > 0 ensures Up(tags', u, n) != Some(u) {
      if Up(tags', u, n) == Some(u) {
        if k: nat :| k < n && Up(tags', u, k) == Some(c) {
          UpAdds(tags', u, k, n - k);
          UpAdds(tags', c, n - k, k);
          assert Up(tags', c, n) == Some(c);
          NoWayBack(tags, c, p, n);
        } else {
          UpAvoiding(tags, tags', c, u, n);
        }
      }
    }
  }

  lemma {:induction false} NoWayBack(tags: Tags, c: Uuid, p: Uuid, n: nat)
    requires c in tags && p != c && !StrictAncestor(tags, c, p) && n > 0
    ensures Up(WithParent(tags, c, p), c, n) != Some(c)
  {
    var tags' := WithParent(tags, c, p);
    if Up(tags', c, n) == Some(c) {
      assert Up(tags', c, 0) == Some(c);
      assert Up(tags', c, 1) == Some(p);
      UpAdds(tags', c, 1, n - 1);
      var m := FirstVisit(tags', p, c, n - 1);
      assert Up(tags', p, 0) == Some(p);
      assert m > 0;
      UpAvoiding(tags, tags', c, p, m);
      assert false;
    }
  }

  // ----- The walk up

  /** The strict ancestors of `u` that exist, from the root down. */
  ghost predicate IsChain(tags: Tags, u: Uuid, chain: seq<Uuid>) {
    && (forall i :: 0 <= i < |chain| ==> chain[i] in tags && Up(tags, u, |chain| - i) == Some(chain[i]))
    && var above := Up(tags, u, |chain| + 1);
       above.None? || above.value !in tags
  }

  lemma {:induction false} ChainReaches(tags: Tags, u: Uuid, chain: seq<Uuid>, n: nat)
    requires IsChain(tags, u, chain) && 0 < n <= |chain|
    ensures Up(tags, u, n) == Some(chain[|chain| - n]) && chain[|chain| - n] in tags
  {
    var i := |chain| - n;
    assert Up(tags, u, |chain| - i) == Some(chain[i]);
  }

  lemma {:induction false} ChainIsUnique(tags: Tags, u: Uuid, a: seq<Uuid>, b: seq<Uuid>)
    requires IsChain(tags, u, a) && IsChain(tags, u, b)
    ensures a == b
  {
    if |a| == |b| {
      forall i | 0 <= i < |a| ensures a[i] == b[i] {
        ChainReaches(tags, u, a, |a| - i);
        ChainReaches(tags, u, b, |a| - i);
      }
    } else if |a| < |b| {
      ChainReaches(tags, u, b, |a| + 1);
    } else {
      ChainReaches(tags, u, a, |b| + 1);
    }
  }

  /** A fresh id names no tag and is no parent. */
  ghost predicate Below(tags: Tags, next: Uuid) {
    forall u :: u in tags ==> u < next && (tags[u].parent.Some? ==> tags[u].parent.value < next)
  }

  lemma {:induction false} NothingAbove(tags: Tags, u: Uuid, k: nat, a: Uuid)
    requires k > 0 && Up(tags, u, k) == None && forall i: nat :: 0 < i < k ==> Up(tags, u, i) != Some(a)
    ensures !StrictAncestor(tags, a, u)
  {
    forall n: nat | n > 0 ensures Up(tags, u, n) != Some(a) {
      if n >= k && Up(tags, u, n) == Some(a) {
        UpShorter(tags, u, k, n);
      }
    }
  }

  /** A new tag, childless as yet, may be put anywhere. */
  lemma {:induction false} NewTagKeepsAcyclic(tags: Tags, next: Uuid, tag: Tag)
    requires Acyclic(tags) && Below(tags, next) && tag.parent != Some(next)
    ensures Acyclic(tags[next := tag])
  {
    var alone := tags[next := tag.(parent := None)];
    FewerParentsKeepAcyclic(tags, alone);
    if tag.parent.Some? {
      NewTagHasNoDescendants(alone, next, tag.parent.value);
      WithParentKeepsAcyclic(alone, next, tag.parent.value);
      assert WithParent(alone, next, tag.parent.value) == tags[next := tag];
    } else {
      assert alone == tags[next := tag];
    }
  }

  lemma {:induction false} NewTagHasNoDescendants(tags: Tags, u: Uuid, x: Uuid)
    requires forall v :: v in tags ==> tags[v].parent != Some(u)
    ensures !StrictAncestor(tags, u, x)
  {
    forall n: nat | n > 0 ensures Up(tags, x, n) != Some(u) {
    }
  }
}
