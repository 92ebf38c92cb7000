/** The tags of the item manager, and the operations on them. */
module TagManagement {
  import opened Wrappers
  import opened TagForest
  import opened TagPaths

  datatype TagError = ParentOfItself | AncestorOfItself | MissingTag | InvalidParent | InvalidHierarchy

  class TagManager {
    var tags: Tags
    var nextUuid: Uuid
    const host: Host

    constructor (tags: Tags, nextUuid: Uuid, host: Host)
      requires Acyclic(tags) && Below(tags, nextUuid)
      ensures View() == Forest(tags, nextUuid) && this.host == host && Valid()
    {
      this.tags, this.nextUuid, this.host := tags, nextUuid, host;
    }

    function View(): Forest
      reads this
    {
      Forest(tags, nextUuid)
    }

    ghost predicate Valid()
      reads this
    {
      View().Valid()
    }

    /** Both loops below visit every tag at most once, because the relation is acyclic. */
    lemma {:induction false} NotVisited(u: Uuid, k: nat, p: Uuid)
      requires Valid() && Up(tags, u, k) == Some(p)
      ensures forall i: nat :: i < k ==> Up(tags, u, i) != Some(p)
    {
      forall i: nat | i < k ensures Up(tags, u, i) != Some(p) {
        if Up(tags, u, i) == Some(p) {
          UpAdds(tags, u, i, k - i);
        }
      }
    }

    /** `getTagParentChain` */
    method GetTagParentChain(u: Uuid) returns (chain: seq<Uuid>)
      requires Valid()
      ensures u !in tags ==> chain == []
      ensures u in tags ==> IsChain(tags, u, chain)
    {
      chain := [];
      if u !in tags {
        return;
      }
      var parentId := tags[u].parent;
      ghost var visited: set<Uuid> := {};
      assert Up(tags, u, 0) == Some(u);
      while parentId.Some?
        invariant parentId == Up(tags, u, |chain| + 1)
        invariant forall i :: 0 <= i < |chain| ==> chain[i] in tags && Up(tags, u, |chain| - i) == Some(chain[i])
        invariant visited <= tags.Keys
        invariant forall v :: v in visited ==> exists k: nat :: 0 < k <= |chain| && Up(tags, u, k) == Some(v)
        decreases tags.Keys - visited, parentId.Some?
      {
        var parent := parentId.value;
        if parent !in tags {
          return;
        }
        NotVisited(u, |chain| + 1, parent);
        assert parent !in visited;
        visited := visited + {parent};
        chain := [parent] + chain;
        assert Up(tags, u, |chain|) == Some(parent);
        parentId := tags[parent].parent;
      }
    }

    /** `isTagAncestor` is exactly strict reachability through parents. */
    method IsTagAncestor(ancestor: Uuid, child: Uuid) returns (r: bool)
      requires Valid()
      ensures r <==> StrictAncestor(tags, ancestor, child)
    {
      assert Up(tags, child, 0) == Some(child);
      if child !in tags {
        assert Up(tags, child, 1) == None;
        NothingAbove(tags, child, 1, ancestor);
        return false;
      }
      var parentId := tags[child].parent;
      ghost var k: nat := 1;
      ghost var visited: set<Uuid> := {};
      while parentId.Some?
        invariant k > 0 && parentId == Up(tags, child, k)
        invariant forall i: nat :: 0 < i < k ==> Up(tags, child, i) != Some(ancestor)
        invariant visited <= tags.Keys
        invariant forall v :: v in visited ==> exists i: nat :: 0 < i < k && Up(tags, child, i) == Some(v)
        decreases tags.Keys - visited, parentId.Some?
      {
        if parentId.value == ancestor {
          return true;
        }
        var parent := parentId.value;
        if parent !in tags {
          NothingAbove(tags, child, k + 1, ancestor);
          return false;
        }
        NotVisited(child, k, parent);
        assert parent !in visited;
        visited := visited + {parent};
        assert Up(tags, child, k) == Some(parent);
        parentId := tags[parent].parent;
        k := k + 1;
      }
      NothingAbove(tags, child, k, ancestor);
      return false;
    }

    method IsValidTagParent(parent: Uuid, child: Uuid) returns (r: bool)
      requires Valid()
      ensures r <==> parent != child && !StrictAncestor(tags, child, parent)
    {
      if parent == child {
        return false;
      }
      var isAncestor := IsTagAncestor(child, parent);
      return !isAncestor;
    }

    method SetTagParent(parent: Uuid, child: Uuid) returns (r: Result<Uuid, TagError>)
      requires Valid() && parent < nextUuid
      modifies this`tags
      ensures Valid()
      ensures r == if parent == child then Err(ParentOfItself)
                   else if StrictAncestor(old(tags), child, parent) then Err(AncestorOfItself)
                   else if child !in old(tags) then Err(MissingTag) else Ok(child)
      ensures tags == if child in old(tags) && r.Ok?
                      then old(tags)[child := Tag(old(tags)[child].title, Some(parent))] else old(tags)
    {
      if parent == child {
        return Err(ParentOfItself);
      }
      var isAncestor := IsTagAncestor(child, parent);
      if isAncestor {
        return Err(AncestorOfItself);
      }
      if child !in tags {
        return Err(MissingTag);
      }
      WithParentKeepsAcyclic(tags, child, parent);
      tags := WithParent(tags, child, parent);
      return Ok(child);
    }

    /** Only a parent that exists is unset. */
    method UnsetTagParent(child: Uuid)
      requires Valid()
      modifies this`tags
      ensures Valid()
      ensures tags ==
        if child in old(tags) && old(tags)[child].parent.Some? && old(tags)[child].parent.value in old(tags)
        then old(tags)[child := old(tags)[child].(parent := None)] else old(tags)
    {
      if child in tags && tags[child].parent.Some? && tags[child].parent.value in tags {
        UnsetParent(child);
      }
    }

    /** `changeTag` with the mutator that drops the parent. */
    method UnsetParent(child: Uuid)
      requires Valid() && child in tags
      modifies this`tags
      ensures Valid() && tags == old(tags)[child := old(tags)[child].(parent := None)]
    {
      FewerParentsKeepAcyclic(tags, tags[child := tags[child].(parent := None)]);
      tags := tags[child := tags[child].(parent := None)];
    }

    /** A parent that is missing is noticed only after the tag was created at the top level. */
    method CreateTag(title: string, parent: Option<Uuid>) returns (r: Result<Uuid, TagError>)
      requires Valid() && (parent.Some? ==> parent.value < nextUuid)
      modifies this
      ensures Valid() && nextUuid == old(nextUuid) + 1
      ensures r == if parent.Some? && parent.value !in old(tags) then Err(InvalidParent) else Ok(old(nextUuid))
      ensures tags == old(tags)[old(nextUuid) := Tag(title, if r.Ok? then parent else None)]
    {
      var newTag := nextUuid;
      ghost var before := tags;
      NewTagKeepsAcyclic(tags, newTag, Tag(title, None));
      tags, nextUuid := tags[newTag := Tag(title, None)], nextUuid + 1;
      if parent.Some? {
        if parent.value !in tags {
          return Err(InvalidParent);
        }
        NewTagKeepsAcyclic(before, newTag, Tag(title, parent));
        tags := WithParent(tags, newTag, parent.value);
        assert tags == before[newTag := Tag(title, parent)];
      }
      return Ok(newTag);
    }

    method FindOrCreateTagByTitle(title: string, parent: Option<Uuid>) returns (r: Result<Uuid, TagError>)
      requires Valid() && host.Lawful() && (parent.Some? ==> parent.value < nextUuid)
      modifies this
      ensures Valid()
      ensures if parent.Some? && parent.value !in old(tags)
              then r == Err(InvalidParent) && tags == old(tags)[old(nextUuid) := Tag(title, None)]
              else r.Ok? && (View(), r.value) == FindOrCreate(host, old(View()), title, parent)
    {
      var tag := Found(host, tags, title, parent);
      if tag.Some? {
        return Ok(tag.value);
      }
      r := CreateTag(title, parent);
    }

    method FindOrCreateTagParentChain(titles: seq<string>) returns (r: Result<Uuid, TagError>)
      requires Valid() && host.Lawful()
      modifies this
      ensures Valid()
      ensures titles == [] ==> r == Err(InvalidHierarchy) && View() == old(View())
      ensures titles != [] ==> r.Ok? && (View(), Some(r.value)) == FindOrCreateChain(host, old(View()), titles)
    {
      var current: Option<Uuid> := None;
      var i := 0;
      while i < |titles|
        invariant i <= |titles| && Valid()
        invariant (View(), current) == FindOrCreateChain(host, old(View()), titles[..i])
        invariant i > 0 ==> current.Some?
      {
        ChainNext(host, old(View()), titles, i);
        var found := FindOrCreateTagByTitle(titles[i], current);
        current := Some(found.value);
        i := i + 1;
      }
      assert titles[..i] == titles;
      if current == None {
        return Err(InvalidHierarchy);
      }
      return Ok(current.value);
    }

    /** `changeItem` with a mutator that sets the title and the parent, with no check for ancestors. */
    method MoveUnder(u: Uuid, title: string, parent: Uuid)
      requires Valid() && u in tags && parent < nextUuid
      requires parent != u && !StrictAncestor(tags, u, parent)
      modifies this`tags
      ensures Valid() && tags == old(tags)[u := Tag(title, Some(parent))]
    {
      MovingKeepsAcyclic(tags, u, title, parent);
      tags := tags[u := Tag(title, Some(parent))];
    }

    /** Deleting a tag also drops it as the parent of others, one tag after the other. */
    method DeleteTag(u: Uuid)
      requires Valid()
      modifies this`tags
      ensures Valid()
      ensures tags.Keys == old(tags).Keys - {u}
      ensures forall v :: v in tags ==>
        && tags[v].title == old(tags)[v].title
        && tags[v].parent == if u in old(tags) && old(tags)[v].parent == Some(u) then None else old(tags)[v].parent
    {
      if u !in tags {
        return;
      }
      ghost var before := tags;
      tags := tags - {u};
      FewerParentsKeepAcyclic(before, tags);
      var children := set v | v in tags && tags[v].parent == Some(u);
      while children != {}
        invariant Valid() && tags.Keys == before.Keys - {u} && children <= tags.Keys
        invariant forall v :: v in tags ==> tags[v] == if v in children then before[v] else Released(before[v], u)
        decreases children
      {
        var child :| child in children;
        UnsetParent(child);
        children := children - {child};
      }
    }
  }

  function Released(tag: Tag, u: Uuid): Tag {
    if tag.parent == Some(u) then tag.(parent := None) else tag
  }

  lemma {:induction false} MovingKeepsAcyclic(tags: Tags, u: Uuid, title: string, parent: Uuid)
    requires Acyclic(tags) && u in tags && parent != u && !StrictAncestor(tags, u, parent)
    ensures Acyclic(tags[u := Tag(title, Some(parent))])
  {
    WithParentKeepsAcyclic(tags, u, parent);
    FewerParentsKeepAcyclic(WithParent(tags, u, parent), tags[u := Tag(title, Some(parent))]);
  }
}
