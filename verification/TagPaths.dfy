/** Finding the tag at the end of a path of titles, creating the tags that are missing. */
module TagPaths {
  import opened Wrappers
  import opened TagForest
  import opened TagTitles

  /** What the host supplies: lower case, and which of several matching tags is displayed first. */
  datatype Host = Host(lower: string -> string, first: Tags -> Uuid) {
    ghost predicate Lawful() {
      && (forall s :: Simple(lower(s)) <==> Simple(s))
      && (forall m: Tags :: m != map[] ==> first(m) in m)
    }

    predicate SameTitle(a: string, b: string) {
      lower(a) == lower(b)
    }
  }

  datatype Forest = Forest(tags: Tags, next: Uuid) {
    ghost predicate Valid() {
      Acyclic(tags) && Below(tags, next)
    }
  }

  function Matching(host: Host, tags: Tags, title: string, parent: Option<Uuid>): Tags {
    map u | u in tags && tags[u].parent == parent && host.SameTitle(tags[u].title, title) :: tags[u]
  }

  /** `findTagByTitleAndParent`; a parent that is missing has no children. */
  function Found(host: Host, tags: Tags, title: string, parent: Option<Uuid>): Option<Uuid> {
    var matching := Matching(host, tags, title, parent);
    if matching == map[] || (parent.Some? && parent.value !in tags) then None else Some(host.first(matching))
  }

  /** `findOrCreateTagByTitle`, for a parent that exists. */
  function FindOrCreate(host: Host, f: Forest, title: string, parent: Option<Uuid>): (Forest, Uuid) {
    match Found(host, f.tags, title, parent)
    case Some(u) => (f, u)
    case None => (Forest(f.tags[f.next := Tag(title, parent)], f.next + 1), f.next)
  }

  /** `findOrCreateTagParentChain`; no tag results from an empty path. */
  function FindOrCreateChain(host: Host, f: Forest, titles: seq<string>): (Forest, Option<Uuid>) {
    if titles == [] then (f, None)
    else
      var upper := FindOrCreateChain(host, f, titles[..|titles| - 1]);
      var last := FindOrCreate(host, upper.0, titles[|titles| - 1], upper.1);
      (last.0, Some(last.1))
  }

  /** From a tag at the top level down to `u`, the titles are those given, ignoring case. */
  ghost predicate Spells(host: Host, tags: Tags, u: Uuid, titles: seq<string>)
    decreases |titles|
  {
    && titles != []
    && u in tags
    && host.SameTitle(tags[u].title, titles[|titles| - 1])
    && if |titles| == 1 then tags[u].parent == None
       else tags[u].parent.Some? && Spells(host, tags, tags[u].parent.value, titles[..|titles| - 1])
  }

  // ----- What spelling says about the walk up

  lemma {:induction false} SpellsUp(host: Host, tags: Tags, u: Uuid, titles: seq<string>, n: nat)
    requires Spells(host, tags, u, titles) && n < |titles|
    ensures Up(tags, u, n).Some?
    ensures Spells(host, tags, Up(tags, u, n).value, titles[..|titles| - n])
  {
    if n == 0 {
      assert titles[..|titles|] == titles;
    } else {
      SpellsUp(host, tags, u, titles, n - 1);
      assert titles[..|titles| - (n - 1)][..|titles| - n] == titles[..|titles| - n];
    }
  }

  lemma {:induction false} SpellsEnds(host: Host, tags: Tags, u: Uuid, titles: seq<string>)
    requires Spells(host, tags, u, titles)
    ensures Up(tags, u, |titles|) == None
  {
    SpellsUp(host, tags, u, titles, |titles| - 1);
  }

  /** A tag has one depth. */
  lemma {:induction false} DepthIsUnique(host: Host, tags: Tags, u: Uuid, a: seq<string>, b: seq<string>)
    requires Spells(host, tags, u, a) && Spells(host, tags, u, b)
    ensures |a| == |b|
  {
    SpellsEnds(host, tags, u, a);
    SpellsEnds(host, tags, u, b);
    if |a| < |b| {
      SpellsUp(host, tags, u, b, |a|);
    } else if |b| < |a| {
      SpellsUp(host, tags, u, a, |b|);
    }
  }

  /** The long title of a tag, that is its parent chain and itself, reads as `titles` part by part. */
  lemma {:induction false} SpellsLongTitle(host: Host, tags: Tags, u: Uuid, titles: seq<string>, chain: seq<Uuid>)
    requires Spells(host, tags, u, titles) && IsChain(tags, u, chain)
    ensures |chain| + 1 == |titles|
    ensures forall i :: 0 <= i < |titles| ==>
      (chain + [u])[i] in tags && host.SameTitle(tags[(chain + [u])[i]].title, titles[i])
  {
    SpellsEnds(host, tags, u, titles);
    if |chain| + 1 < |titles| {
      SpellsUp(host, tags, u, titles, |chain| + 1);
    } else if |titles| <= |chain| {
      ChainReaches(tags, u, chain, |titles|);
    }
    forall i | 0 <= i < |titles|
      ensures (chain + [u])[i] in tags && host.SameTitle(tags[(chain + [u])[i]].title, titles[i])
    {
      var n := |titles| - 1 - i;
      SpellsUp(host, tags, u, titles, n);
      assert Up(tags, u, 0) == Some(u);
      assert Up(tags, u, n) == Some((chain + [u])[i]);
    }
  }

  ghost predicate AllSimple(titles: seq<string>) {
    forall title :: title in titles ==> Simple(title)
  }

  /** A tag whose title holds a dot is nowhere on a path of simple titles. */
  lemma {:induction false} DottedIsNoAncestor(host: Host, tags: Tags, u: Uuid, titles: seq<string>, dotted: Uuid)
    requires host.Lawful() && Spells(host, tags, u, titles) && AllSimple(titles)
    requires dotted in tags && !Simple(tags[dotted].title)
    ensures u != dotted && !StrictAncestor(tags, dotted, u)
  {
    assert titles[|titles| - 1] in titles;
    assert Simple(host.lower(titles[|titles| - 1]));
    forall n: nat | n > 0 ensures Up(tags, u, n) != Some(dotted) {
      if n < |titles| {
        SpellsUp(host, tags, u, titles, n);
        var part := titles[..|titles| - n];
        assert part[|part| - 1] in titles;
        assert Simple(host.lower(part[|part| - 1]));
      } else if Up(tags, u, n) == Some(dotted) {
        SpellsEnds(host, tags, u, titles);
        UpShorter(tags, u, |titles|, n);
      }
    }
  }

  /** Only a change to a tag on the path could change what it spells. */
  lemma {:induction false} SpellsStill(host: Host, tags: Tags, tags': Tags, u: Uuid, titles: seq<string>)
    requires host.Lawful() && Spells(host, tags, u, titles) && AllSimple(titles)
    requires forall x :: x in tags && Simple(tags[x].title) ==> x in tags' && tags'[x] == tags[x]
    ensures Spells(host, tags', u, titles)
    decreases |titles|
  {
    assert titles[|titles| - 1] in titles;
    assert Simple(host.lower(titles[|titles| - 1]));
    assert Simple(tags[u].title);
    if |titles| > 1 {
      SpellsStill(host, tags, tags', tags[u].parent.value, titles[..|titles| - 1]);
    }
  }

  lemma {:induction false} SpellsInExtension(host: Host, tags: Tags, tags': Tags, u: Uuid, titles: seq<string>)
    requires Spells(host, tags, u, titles)
    requires forall x :: x in tags ==> x in tags' && tags'[x] == tags[x]
    ensures Spells(host, tags', u, titles)
    decreases |titles|
  {
    if |titles| > 1 {
      SpellsInExtension(host, tags, tags', tags[u].parent.value, titles[..|titles| - 1]);
    }
  }

  // ----- What find-or-create does

  /** Existing tags stay as they are; the new ones have fresh ids and titles from the list. */
  ghost predicate Grows(f: Forest, g: Forest, titles: seq<string>) {
    && f.next <= g.next
    && (forall u :: u in f.tags ==> u in g.tags && g.tags[u] == f.tags[u])
    && (forall u :: u in g.tags && u !in f.tags ==> f.next <= u && g.tags[u].title in titles)
    && (f.next == g.next ==> f == g)
  }

  lemma {:induction false} FindOrCreateGrows(host: Host, f: Forest, title: string, parent: Option<Uuid>)
    requires host.Lawful() && f.Valid() && (parent.Some? ==> parent.value in f.tags)
    ensures var r := FindOrCreate(host, f, title, parent);
      && r.0.Valid() && Grows(f, r.0, [title])
      && r.1 in r.0.tags && r.0.tags[r.1].parent == parent && host.SameTitle(r.0.tags[r.1].title, title)
  {
    var matching := Matching(host, f.tags, title, parent);
    if matching == map[] {
      NewTagKeepsAcyclic(f.tags, f.next, Tag(title, parent));
    } else {
      assert host.first(matching) in matching;
    }
  }

  /** The result spells the path, and the tags that were there are left alone. */
  lemma {:induction false} ChainSpells(host: Host, f: Forest, titles: seq<string>)
    requires host.Lawful() && f.Valid()
    ensures var r := FindOrCreateChain(host, f, titles);
      && r.0.Valid() && Grows(f, r.0, titles)
      && (titles != [] ==> r.1.Some? && Spells(host, r.0.tags, r.1.value, titles))
      && (titles == [] ==> r == (f, None))
  {
    if titles != [] {
      var above := titles[..|titles| - 1];
      var title := titles[|titles| - 1];
      ChainSpells(host, f, above);
      var upper := FindOrCreateChain(host, f, above);
      FindOrCreateGrows(host, upper.0, title, upper.1);
      if above != [] {
        var last := FindOrCreate(host, upper.0, title, upper.1);
        SpellsInExtension(host, upper.0.tags, last.0.tags, upper.1.value, above);
      }
    }
  }

  lemma {:induction false} ChainNext(host: Host, f: Forest, titles: seq<string>, i: nat)
    requires host.Lawful() && f.Valid() && i < |titles|
    ensures var upper := FindOrCreateChain(host, f, titles[..i]);
      && (upper.1.Some? ==> upper.1.value in upper.0.tags)
      && var last := FindOrCreate(host, upper.0, titles[i], upper.1);
         FindOrCreateChain(host, f, titles[..i + 1]) == (last.0, Some(last.1))
  {
    ChainSpells(host, f, titles[..i]);
    assert titles[..i + 1][..i] == titles[..i];
  }

  // ----- When nothing has to be created

  /** A tag is created exactly when the parent has no child of that title, ignoring case. */
  lemma {:induction false} CreatesNothingIff(host: Host, f: Forest, title: string, parent: Option<Uuid>)
    requires host.Lawful() && f.Valid() && (parent.Some? ==> parent.value in f.tags)
    ensures FindOrCreate(host, f, title, parent).0 == f <==>
      exists u :: u in f.tags && f.tags[u].parent == parent && host.lower(f.tags[u].title) == host.lower(title)
  {
    var matching := Matching(host, f.tags, title, parent);
    if u :| u in f.tags && f.tags[u].parent == parent && host.lower(f.tags[u].title) == host.lower(title) {
      assert u in matching;
    }
    if matching != map[] {
      assert host.first(matching) in matching;
    }
  }

  /** No two tags under one parent have the same title, ignoring case. */
  ghost predicate TitlesUnique(host: Host, tags: Tags) {
    forall u, v :: u in tags && v in tags && u != v && tags[u].parent == tags[v].parent ==>
      !host.SameTitle(tags[u].title, tags[v].title)
  }

  lemma {:induction false} SpeltOnce(host: Host, tags: Tags, u: Uuid, v: Uuid, titles: seq<string>)
    requires TitlesUnique(host, tags) && Spells(host, tags, u, titles) && Spells(host, tags, v, titles)
    ensures u == v
    decreases |titles|
  {
    if |titles| > 1 {
      SpeltOnce(host, tags, tags[u].parent.value, tags[v].parent.value, titles[..|titles| - 1]);
    }
  }

  /** A path that is there is followed to its end, and nothing is created. */
  lemma {:induction false} PathIsFound(host: Host, f: Forest, u: Uuid, titles: seq<string>)
    requires host.Lawful() && f.Valid() && TitlesUnique(host, f.tags) && Spells(host, f.tags, u, titles)
    ensures FindOrCreateChain(host, f, titles) == (f, Some(u))
    decreases |titles|
  {
    var above := titles[..|titles| - 1];
    if |titles| > 1 {
      PathIsFound(host, f, f.tags[u].parent.value, above);
    }
    var last := FindOrCreate(host, f, titles[|titles| - 1], f.tags[u].parent);
    CreatesNothingIff(host, f, titles[|titles| - 1], f.tags[u].parent);
    FindOrCreateGrows(host, f, titles[|titles| - 1], f.tags[u].parent);
    assert last.1 == u;
  }

  /** Where titles are unique among siblings: the path is created only if it is not there in full. */
  lemma {:induction false} PathIsThereIff(host: Host, f: Forest, titles: seq<string>)
    requires host.Lawful() && f.Valid() && TitlesUnique(host, f.tags) && titles != []
    ensures FindOrCreateChain(host, f, titles).0 == f ==> exists u :: Spells(host, f.tags, u, titles)
    ensures (exists u :: Spells(host, f.tags, u, titles)) ==> FindOrCreateChain(host, f, titles).0 == f
  {
    if u :| Spells(host, f.tags, u, titles) {
      PathIsFound(host, f, u, titles);
    }
    ChainSpells(host, f, titles);
    var r := FindOrCreateChain(host, f, titles);
    assert r.0 == f ==> Spells(host, f.tags, r.1.value, titles);
  }

  // ----- A second call finds what the first one left

  lemma {:induction false} FindsAgain(host: Host, f: Forest, title: string, parent: Option<Uuid>)
    requires host.Lawful() && f.Valid() && (parent.Some? ==> parent.value in f.tags)
    ensures var r := FindOrCreate(host, f, title, parent); FindOrCreate(host, r.0, title, parent) == r
  {
    var matching := Matching(host, f.tags, title, parent);
    if matching == map[] {
      var r := FindOrCreate(host, f, title, parent);
      var again := Matching(host, r.0.tags, title, parent);
      assert again.Keys == {f.next} by {
        assert f.next in again;
        forall u | u in again && u !in matching ensures u == f.next {
        }
      }
      assert f.next in again;
      assert host.first(again) in again;
    }
  }

  lemma {:induction false} FoundElsewhere(host: Host, f: Forest, title: string, parent: Option<Uuid>, tag: Tag)
    requires f.Valid() && (parent.Some? ==> parent.value in f.tags) && tag.parent != parent
    ensures Found(host, f.tags[f.next := tag], title, parent) == Found(host, f.tags, title, parent)
  {
    assert Matching(host, f.tags[f.next := tag], title, parent) == Matching(host, f.tags, title, parent);
  }

  /** A new tag at least as deep as the end of a known path is not on the way to it. */
  lemma {:induction false} FindsThePathStill(host: Host, f: Forest, titles: seq<string>, tag: Tag, place: seq<string>)
    requires host.Lawful() && f.Valid() && FindOrCreateChain(host, f, titles).0 == f
    requires tag.parent.Some? && Spells(host, f.tags, tag.parent.value, place) && |titles| <= |place|
    ensures var g := Forest(f.tags[f.next := tag], f.next + 1);
      FindOrCreateChain(host, g, titles) == (g, FindOrCreateChain(host, f, titles).1)
  {
    if titles != [] {
      var above := titles[..|titles| - 1];
      var title := titles[|titles| - 1];
      ChainSpells(host, f, above);
      var upper := FindOrCreateChain(host, f, above);
      FindOrCreateGrows(host, upper.0, title, upper.1);
      assert upper.0 == f;
      FindsThePathStill(host, f, above, tag, place);
      if above != [] && upper.1 == tag.parent {
        DepthIsUnique(host, f.tags, upper.1.value, above, place);
        assert false;
      }
      FoundElsewhere(host, f, title, upper.1, tag);
    }
  }

  /** Adding the last tag of a path leaves the rest of the path as found. */
  lemma {:induction false} UpperPathStays(host: Host, f: Forest, above: seq<string>, title: string, p: Option<Uuid>)
    requires host.Lawful() && f.Valid() && FindOrCreateChain(host, f, above) == (f, p)
    ensures var g := FindOrCreate(host, f, title, p).0; FindOrCreateChain(host, g, above) == (g, p)
  {
    var g := FindOrCreate(host, f, title, p).0;
    if g != f {
      var tag := Tag(title, p);
      assert g == Forest(f.tags[f.next := tag], f.next + 1);
      if above != [] {
        ChainSpells(host, f, above);
        FindsThePathStill(host, f, above, tag, above);
      }
    }
  }

  /** The second call creates nothing and returns the same tag. */
  lemma {:induction false} ChainFindsAgain(host: Host, f: Forest, titles: seq<string>)
    requires host.Lawful() && f.Valid()
    ensures var r := FindOrCreateChain(host, f, titles); FindOrCreateChain(host, r.0, titles) == r
  {
    if titles != [] {
      var above := titles[..|titles| - 1];
      var title := titles[|titles| - 1];
      ChainFindsAgain(host, f, above);
      ChainSpells(host, f, above);
      var upper := FindOrCreateChain(host, f, above);
      UpperPathStays(host, upper.0, above, title, upper.1);
      FindsAgain(host, upper.0, title, upper.1);
    }
  }
}
