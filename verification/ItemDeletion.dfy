/** Deleting several items at once, their tasks interleaved, and letting go of every reference to them. */
module ItemDeletion {

  type Uuid = nat

  /** A deleted item stays in the collection until it is synced. */
  datatype Item = Decrypted(content: string, references: seq<Uuid>) | Encrypted | Deleted

  type Items = map<Uuid, Item>

  /** One call of `setItemToBeDeleted` past its first await: the items it has still to visit. */
  datatype Task = Task(deleted: Uuid, referencing: seq<Uuid>)

  function Without(references: seq<Uuid>, gone: set<Uuid>): seq<Uuid> {
    if references == [] then []
    else (if references[0] in gone then [] else [references[0]]) + Without(references[1..], gone)
  }

  ghost predicate References(items: Items, v: Uuid, u: Uuid) {
    v in items && items[v].Decrypted? && u in items[v].references
  }

  /** What a visit does: items that are gone or undecryptable by now are passed over. */
  function Visit(items: Items, v: Uuid, u: Uuid): Items {
    if v in items && items[v].Decrypted?
    then items[v := items[v].(references := Without(items[v].references, {u}))]
    else items
  }

  function AfterDeletion(items: Items, gone: set<Uuid>): Items {
    map v | v in items ::
      if v in gone then Deleted
      else if items[v].Decrypted? then items[v].(references := Without(items[v].references, gone))
      else items[v]
  }

  ghost function Known(uuids: seq<Uuid>, items: Items): set<Uuid> {
    set u | u in uuids && u in items
  }

  lemma {:induction false} KnownNext(uuids: seq<Uuid>, i: nat, items: Items)
    requires i < |uuids|
    ensures Known(uuids[..i + 1], items) ==
            if uuids[i] in items then Known(uuids[..i], items) + {uuids[i]} else Known(uuids[..i], items)
  {
    assert uuids[..i + 1] == uuids[..i] + [uuids[i]];
  }

  // ----- Dropping references

  lemma {:induction false} WithoutMembers(references: seq<Uuid>, gone: set<Uuid>)
    ensures forall r :: r in Without(references, gone) <==> r in references && r !in gone
  {
    if references != [] {
      WithoutMembers(references[1..], gone);
    }
  }

  lemma {:induction false} WithoutTwice(references: seq<Uuid>, u: Uuid, gone: set<Uuid>)
    requires u in gone
    ensures Without(Without(references, {u}), gone) == Without(references, gone)
  {
    if references != [] {
      WithoutTwice(references[1..], u, gone);
      if references[0] != u {
        assert Without(references, {u})[1..] == Without(references[1..], {u});
      } else {
        assert Without(references, {u}) == Without(references[1..], {u});
      }
    }
  }

  lemma {:induction false} WithoutMore(references: seq<Uuid>, others: seq<Uuid>, gone: set<Uuid>, u: Uuid)
    requires Without(references, gone) == Without(others, gone)
    ensures Without(references, gone + {u}) == Without(others, gone + {u})
  {
    WithoutInStages(references, gone, u);
    WithoutInStages(others, gone, u);
  }

  lemma {:induction false} WithoutInStages(references: seq<Uuid>, gone: set<Uuid>, u: Uuid)
    ensures Without(references, gone + {u}) == Without(Without(references, gone), {u})
  {
    if references != [] {
      WithoutInStages(references[1..], gone, u);
      if references[0] in gone {
        assert Without(references, gone) == Without(references[1..], gone);
      } else {
        assert Without(references, gone)[1..] == Without(references[1..], gone);
      }
    }
  }

  lemma {:induction false} WithoutNothing(references: seq<Uuid>, gone: set<Uuid>)
    requires forall r :: r in references ==> r !in gone
    ensures Without(references, gone) == references
  {
    if references != [] {
      assert references[0] in references;
      WithoutNothing(references[1..], gone);
    }
  }

  // ----- What holds between any two steps

  ghost predicate WillVisit(tasks: seq<Task>, u: Uuid, v: Uuid) {
    exists k :: 0 <= k < |tasks| && tasks[k].deleted == u && v in tasks[k].referencing
  }

  /** A survivor differs from what it was at most by references that are gone. */
  ghost predicate Survives(was: Item, now: Item, gone: set<Uuid>) {
    if was.Decrypted? && now.Decrypted?
    then was.content == now.content && Without(now.references, gone) == Without(was.references, gone)
    else now == was
  }

  ghost predicate Deleting(before: Items, items: Items, tasks: seq<Task>, gone: set<Uuid>) {
    && items.Keys == before.Keys && gone <= items.Keys
    && (forall v :: v in items && v in gone ==> items[v] == Deleted)
    && (forall v :: v in items && v !in gone ==> Survives(before[v], items[v], gone))
    && (forall v, u :: u in gone && References(items, v, u) ==> WillVisit(tasks, u, v))
    && (forall k :: 0 <= k < |tasks| ==> tasks[k].deleted in gone)
  }

  /** The first stretch of a task: the referencing ids are taken before the item is marked as deleted. */
  lemma {:induction false} BeginKeeps(before: Items, items: Items, tasks: seq<Task>, gone: set<Uuid>, u: Uuid,
                                      captured: seq<Uuid>)
    requires Deleting(before, items, tasks, gone) && u in items
    requires forall v :: References(items, v, u) ==> v in captured
    ensures Deleting(before, items[u := Deleted], tasks + [Task(u, captured)], gone + {u})
  {
    var items' := items[u := Deleted];
    var tasks' := tasks + [Task(u, captured)];
    forall v | v in items' && v !in gone + {u} ensures Survives(before[v], items'[v], gone + {u}) {
      if before[v].Decrypted? && items[v].Decrypted? {
        WithoutMore(items[v].references, before[v].references, gone, u);
      }
    }
    forall v, x | x in gone + {u} && References(items', v, x) ensures WillVisit(tasks', x, v) {
      assert References(items, v, x);
      if x in gone {
        var k :| 0 <= k < |tasks| && tasks[k].deleted == x && v in tasks[k].referencing;
        assert tasks'[k] == tasks[k];
      } else {
        assert tasks'[|tasks|] == Task(u, captured);
      }
    }
  }

  function Next(tasks: seq<Task>, k: nat): seq<Task>
    requires k < |tasks| && tasks[k].referencing != []
  {
    tasks[k := tasks[k].(referencing := tasks[k].referencing[1..])]
  }

  /** Any later stretch, of any of the tasks. */
  lemma {:induction false} VisitKeeps(before: Items, items: Items, tasks: seq<Task>, gone: set<Uuid>, k: nat)
    requires Deleting(before, items, tasks, gone) && k < |tasks| && tasks[k].referencing != []
    ensures Deleting(before, Visit(items, tasks[k].referencing[0], tasks[k].deleted), Next(tasks, k), gone)
  {
    var v, u := tasks[k].referencing[0], tasks[k].deleted;
    var items', tasks' := Visit(items, v, u), Next(tasks, k);
    if v in items && items[v].Decrypted? {
      WithoutTwice(items[v].references, u, gone);
      WithoutMembers(items[v].references, {u});
    }
    forall w, x | x in gone && References(items', w, x) ensures WillVisit(tasks', x, w) {
      assert References(items, w, x);
      var j :| 0 <= j < |tasks| && tasks[j].deleted == x && w in tasks[j].referencing;
      assert tasks'[j].deleted == x && w in tasks'[j].referencing;
    }
  }

  /** Once every task is through, the result depends on neither the order nor the interleaving. */
  lemma {:induction false} DeletionIsComplete(before: Items, items: Items, tasks: seq<Task>, gone: set<Uuid>)
    requires Deleting(before, items, tasks, gone)
    requires forall k :: 0 <= k < |tasks| ==> tasks[k].referencing == []
    ensures items == AfterDeletion(before, gone)
  {
    forall v | v in items ensures items[v] == AfterDeletion(before, gone)[v] {
      if v !in gone && items[v].Decrypted? {
        assert Survives(before[v], items[v], gone);
        forall r | r in items[v].references ensures r !in gone {
          if r in gone {
            assert References(items, v, r);
            assert false;
          }
        }
        WithoutNothing(items[v].references, gone);
      }
    }
  }

  /** Afterwards no decrypted item references a deleted one, and all other references are in place. */
  lemma {:induction false} NoDanglingReferences(items: Items, gone: set<Uuid>, v: Uuid, r: Uuid)
    requires v in items && v !in gone && items[v].Decrypted?
    ensures AfterDeletion(items, gone)[v].Decrypted?
    ensures r in AfterDeletion(items, gone)[v].references <==> r in items[v].references && r !in gone
  {
    WithoutMembers(items[v].references, gone);
  }

  class ItemManager {
    var items: Items

    constructor (items: Items)
      ensures this.items == items
    {
      this.items := items;
    }

    /** `uuidsThatReferenceUuid`, in no particular order. */
    method UuidsThatReference(u: Uuid) returns (r: seq<Uuid>)
      ensures forall v :: References(items, v, u) <==> v in r
    {
      r := [];
      var left := items.Keys;
      while left != {}
        invariant left <= items.Keys
        invariant forall v :: v in r <==> References(items, v, u) && v !in left
        decreases left
      {
        var v :| v in left;
        if items[v].Decrypted? && u in items[v].references {
          r := r + [v];
        }
        left := left - {v};
      }
    }

    /** The first stretch of every task, up to its first await, one task after the other. */
    method BeginAll(uuids: seq<Uuid>) returns (tasks: seq<Task>)
      modifies this
      ensures Deleting(old(items), items, tasks, Known(uuids, old(items)))
    {
      tasks := [];
      ghost var gone: set<Uuid> := {};
      for i := 0 to |uuids|
        invariant Deleting(old(items), items, tasks, gone) && gone == Known(uuids[..i], old(items))
      {
        var u := uuids[i];
        KnownNext(uuids, i, old(items));
        var referencing := UuidsThatReference(u);
        if u in items {
          BeginKeeps(old(items), items, tasks, gone, u, referencing);
          items, tasks, gone := items[u := Deleted], tasks + [Task(u, referencing)], gone + {u};
        }
      }
      assert uuids[..|uuids|] == uuids;
    }

    /** All tasks begin; from then on any task may take the next turn. */
    method SetItemsToBeDeleted(uuids: seq<Uuid>)
      modifies this
      ensures items == AfterDeletion(old(items), Known(uuids, old(items)))
    {
      ghost var gone := Known(uuids, items);
      var tasks := BeginAll(uuids);
      while exists k :: 0 <= k < |tasks| && tasks[k].referencing != []
        invariant Deleting(old(items), items, tasks, gone)
        decreases Turns(tasks)
      {
        var k :| 0 <= k < |tasks| && tasks[k].referencing != [];
        VisitKeeps(old(items), items, tasks, gone, k);
        FewerTurns(tasks, k);
        items, tasks := Visit(items, tasks[k].referencing[0], tasks[k].deleted), Next(tasks, k);
      }
      DeletionIsComplete(old(items), items, tasks, gone);
    }
  }

  ghost function Turns(tasks: seq<Task>): nat {
    if tasks == [] then 0 else |tasks[0].referencing| + Turns(tasks[1..])
  }

  lemma {:induction false} FewerTurns(tasks: seq<Task>, k: nat)
    requires k < |tasks| && tasks[k].referencing != []
    ensures Turns(Next(tasks, k)) + 1 == Turns(tasks)
  {
    if k > 0 {
      FewerTurns(tasks[1..], k - 1);
      assert Next(tasks, k)[1..] == Next(tasks[1..], k - 1);
    } else {
      assert Next(tasks, k)[1..] == tasks[1..];
    }
  }
}
