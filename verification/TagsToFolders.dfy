/** The migration that turns dots in tag titles into folders. */
module TagsToFolders {
  import opened Lists
  import opened Wrappers
  import opened TagForest
  import opened TagTitles
  import opened TagPaths
  import opened TagManagement

  predicate Migratable(tag: Tag) {
    tag.parent == None && |Split(tag.title)| > 1 && "" !in Split(tag.title)
  }

  function Upper(parts: seq<string>): seq<string>
    requires parts != []
  {
    parts[..|parts| - 1]
  }

  function Last(parts: seq<string>): string
    requires parts != []
  {
    parts[|parts| - 1]
  }

  /** What one turn of the loop does for `u`, which was `tag` when the run began. */
  function Migrate(host: Host, f: Forest, u: Uuid, tag: Tag): Forest {
    if !Migratable(tag) then f
    else
      var parts := Split(tag.title);
      var r := FindOrCreateChain(host, f, Upper(parts));
      r.0.(tags := r.0.tags[u := Tag(Last(parts), r.1)])
  }

  function MigrateAll(host: Host, f: Forest, order: seq<Uuid>): Forest
    requires forall u :: u in order ==> u in f.tags
  {
    if order == [] then f
    else
      var u := order[|order| - 1];
      Migrate(host, MigrateAll(host, f, order[..|order| - 1]), u, f.tags[u])
  }

  // ----- What a run has achieved once the tags in `done` had their turn

  /** The tag keeps its last part as title, and its long title is its old title, part by part. */
  ghost predicate InFolder(host: Host, tags: Tags, u: Uuid, oldTitle: string) {
    && Spells(host, tags, u, Split(oldTitle))
    && tags[u].title == Last(Split(oldTitle))
  }

  ghost predicate Migrated(host: Host, f: Forest, g: Forest, done: seq<Uuid>) {
    && g.Valid()
    && (forall u :: u in f.tags ==> u in g.tags)
    && (forall u :: u in f.tags && !(u in done && Migratable(f.tags[u])) ==> g.tags[u] == f.tags[u])
    && (forall u :: u in f.tags && u in done && Migratable(f.tags[u]) ==> InFolder(host, g.tags, u, f.tags[u].title))
    && (forall u :: u in g.tags && u !in f.tags ==> Simple(g.tags[u].title))
  }

  /** A tag with a dot in its title goes under the end of a path of simple titles: no cycle, and it spells the rest. */
  lemma {:induction false} PutUnder(host: Host, tags: Tags, u: Uuid, parts: seq<string>, p: Uuid)
    requires host.Lawful() && Acyclic(tags) && u in tags && !Simple(tags[u].title)
    requires |parts| > 1 && AllSimple(parts) && Spells(host, tags, p, Upper(parts))
    ensures var tags' := tags[u := Tag(Last(parts), Some(p))];
      p != u && Acyclic(tags') && Spells(host, tags', u, parts)
  {
    assert AllSimple(Upper(parts)) by {
      assert forall part :: part in Upper(parts) ==> part in parts;
    }
    DottedIsNoAncestor(host, tags, p, Upper(parts), u);
    MovingKeepsAcyclic(tags, u, Last(parts), p);
    SpellsStill(host, tags, tags[u := Tag(Last(parts), Some(p))], p, Upper(parts));
  }

  /** One turn for one migratable tag, seen on its own. */
  lemma {:induction false} MigrateOne(host: Host, g: Forest, u: Uuid)
    requires host.Lawful() && g.Valid() && u in g.tags && Migratable(g.tags[u])
    ensures var h := Migrate(host, g, u, g.tags[u]);
      && h.Valid() && InFolder(host, h.tags, u, g.tags[u].title)
      && (forall x :: x in g.tags && x != u ==> x in h.tags && h.tags[x] == g.tags[x])
      && (forall x :: x in h.tags && x !in g.tags ==> Simple(h.tags[x].title))
  {
    var parts := Split(g.tags[u].title);
    PartsAreSimple(g.tags[u].title);
    SplitSimple(g.tags[u].title);
    ChainSpells(host, g, Upper(parts));
    var r := FindOrCreateChain(host, g, Upper(parts));
    assert forall part :: part in Upper(parts) ==> part in parts;
    assert r.1 == Some(r.1.value) && r.1.value in r.0.tags;
    PutUnder(host, r.0.tags, u, parts, r.1.value);
  }

  lemma {:induction false} InFolderStill(host: Host, tags: Tags, tags': Tags, u: Uuid, title: string)
    requires host.Lawful() && InFolder(host, tags, u, title)
    requires forall x :: x in tags && Simple(tags[x].title) ==> x in tags' && tags'[x] == tags[x]
    ensures InFolder(host, tags', u, title)
  {
    PartsAreSimple(title);
    assert Last(Split(title)) in Split(title);
    SpellsStill(host, tags, tags', u, Split(title));
  }

  lemma {:induction false} MigrateKeepsMigrated(host: Host, f: Forest, g: Forest, done: seq<Uuid>, u: Uuid)
    requires host.Lawful() && Migrated(host, f, g, done) && u in f.tags && u !in done
    ensures Migrated(host, f, Migrate(host, g, u, f.tags[u]), done + [u])
  {
    var h := Migrate(host, g, u, f.tags[u]);
    if Migratable(f.tags[u]) {
      MigrateOne(host, g, u);
      SplitSimple(f.tags[u].title);
      forall x | x in f.tags && x in done && Migratable(f.tags[x])
        ensures InFolder(host, h.tags, x, f.tags[x].title)
      {
        InFolderStill(host, g.tags, h.tags, x, f.tags[x].title);
      }
    }
  }

  /** Meaning is preserved, whatever the order in which the tags are visited. */
  lemma {:induction false} MigrationPreservesMeaning(host: Host, f: Forest, order: seq<Uuid>)
    requires host.Lawful() && f.Valid() && Distinct(order) && forall u :: u in order ==> u in f.tags
    ensures Migrated(host, f, MigrateAll(host, f, order), order)
  {
    if order != [] {
      var done := order[..|order| - 1];
      MigrationPreservesMeaning(host, f, done);
      MigrateKeepsMigrated(host, f, MigrateAll(host, f, done), done, order[|order| - 1]);
      assert done + [order[|order| - 1]] == order;
    }
  }

  // ----- What the user sees of it

  ghost predicate Visits(order: seq<Uuid>, tags: Tags) {
    Distinct(order) && forall u :: u in order <==> u in tags
  }

  lemma {:induction false} LongTitleIsOldTitle(host: Host, f: Forest, order: seq<Uuid>, u: Uuid, chain: seq<Uuid>)
    requires host.Lawful() && f.Valid() && Visits(order, f.tags)
    requires u in f.tags && Migratable(f.tags[u]) && IsChain(MigrateAll(host, f, order).tags, u, chain)
    ensures var tags := MigrateAll(host, f, order).tags; var parts := Split(f.tags[u].title);
      && |chain| + 1 == |parts|
      && (forall i :: 0 <= i < |chain| ==> chain[i] in tags && host.SameTitle(tags[chain[i]].title, parts[i]))
      && u in tags && tags[u].title == parts[|chain|]
  {
    MigrationPreservesMeaning(host, f, order);
    var tags := MigrateAll(host, f, order).tags;
    SpellsLongTitle(host, tags, u, Split(f.tags[u].title), chain);
    assert forall i :: 0 <= i < |chain| ==> (chain + [u])[i] == chain[i];
  }

  lemma {:induction false} NothingLeftToMigrate(host: Host, f: Forest, order: seq<Uuid>)
    requires host.Lawful() && f.Valid() && Visits(order, f.tags)
    ensures forall u :: u in MigrateAll(host, f, order).tags ==> !Migratable(MigrateAll(host, f, order).tags[u])
  {
    MigrationPreservesMeaning(host, f, order);
    var g := MigrateAll(host, f, order);
    forall u | u in g.tags ensures !Migratable(g.tags[u]) {
      if u !in f.tags {
        SplitSimple(g.tags[u].title);
      } else if Migratable(f.tags[u]) {
        assert InFolder(host, g.tags, u, f.tags[u].title);
      }
    }
  }

  lemma {:induction false} NothingToDo(host: Host, f: Forest, order: seq<Uuid>)
    requires forall u :: u in order ==> u in f.tags && !Migratable(f.tags[u])
    ensures MigrateAll(host, f, order) == f
  {
    if order != [] {
      NothingToDo(host, f, order[..|order| - 1]);
    }
  }

  lemma {:induction false} SecondRunChangesNothing(host: Host, f: Forest, order: seq<Uuid>, again: seq<Uuid>)
    requires host.Lawful() && f.Valid() && Visits(order, f.tags)
    requires Visits(again, MigrateAll(host, f, order).tags)
    ensures MigrateAll(host, MigrateAll(host, f, order), again) == MigrateAll(host, f, order)
  {
    NothingLeftToMigrate(host, f, order);
    NothingToDo(host, MigrateAll(host, f, order), again);
  }

  // ----- Whether the migration says it still applies

  predicate IsApplicable(tags: Tags) {
    exists u :: u in tags && !Simple(tags[u].title) && tags[u].parent == None
  }

  /** It goes on saying so exactly when a top-level title has a dot with nothing on one side of it. */
  lemma {:induction false} ApplicableAfterRunIff(host: Host, f: Forest, order: seq<Uuid>)
    requires host.Lawful() && f.Valid() && Visits(order, f.tags)
    ensures IsApplicable(MigrateAll(host, f, order).tags) <==>
      exists u :: u in f.tags && f.tags[u].parent == None && !Simple(f.tags[u].title) && "" in Split(f.tags[u].title)
  {
    MigrationPreservesMeaning(host, f, order);
    NothingLeftToMigrate(host, f, order);
    var g := MigrateAll(host, f, order);
    if u :| u in g.tags && !Simple(g.tags[u].title) && g.tags[u].parent == None {
      SplitSimple(g.tags[u].title);
      assert u in f.tags && g.tags[u] == f.tags[u];
    }
    if u :| u in f.tags && f.tags[u].parent == None && !Simple(f.tags[u].title) && "" in Split(f.tags[u].title) {
      assert g.tags[u] == f.tags[u];
    }
  }

  const DOUBLE_DOT: Forest := Forest(map[0 := Tag("a..b", None)], 1)

  /** A top-level tag `a..b` is skipped by the run, and the migration counts as applicable before and after it. */
  lemma {:induction false} DoubleDotStaysApplicable(host: Host)
    ensures MigrateAll(host, DOUBLE_DOT, [0]) == DOUBLE_DOT && IsApplicable(DOUBLE_DOT.tags)
  {
    assert "a..b" == "a" + [DELIMITER] + ".b" && ".b" == "" + [DELIMITER] + "b";
    SplitOff("a", ".b");
    SplitOff("", "b");
    SplitSimple("b");
    assert [0][..0] == [];
    assert "" in Split("a..b");
    assert DELIMITER in DOUBLE_DOT.tags[0].title by {
      assert "a..b"[1] == DELIMITER;
    }
  }

  method IsApplicableToCurrentData(manager: TagManager) returns (r: bool)
    ensures r <==> IsApplicable(manager.tags)
  {
    var left := manager.tags.Keys;
    while left != {}
      invariant left <= manager.tags.Keys
      invariant forall u :: u in manager.tags && u !in left ==>
        Simple(manager.tags[u].title) || manager.tags[u].parent.Some?
      decreases left
    {
      var u :| u in left;
      if DELIMITER in manager.tags[u].title && manager.tags[u].parent == None {
        return true;
      }
      left := left - {u};
    }
    return false;
  }

  /** The run itself; `sortedTags` lists the tags as they were sorted by title when it began. */
  method Run(manager: TagManager, sortedTags: seq<Uuid>)
    requires manager.Valid() && manager.host.Lawful() && Visits(sortedTags, manager.tags)
    modifies manager
    ensures manager.Valid()
    ensures manager.View() == MigrateAll(manager.host, old(manager.View()), sortedTags)
  {
    var tags := manager.tags;
    ghost var f := manager.View();
    ghost var host := manager.host;
    var i := 0;
    while i < |sortedTags|
      invariant i <= |sortedTags| && manager.Valid()
      invariant manager.View() == MigrateAll(host, f, sortedTags[..i])
    {
      var u := sortedTags[i];
      MigrationPreservesMeaning(host, f, sortedTags[..i]);
      assert sortedTags[..i + 1][..i] == sortedTags[..i];
      MigrateNext(manager, u, tags[u]);
      i := i + 1;
    }
    assert sortedTags[..i] == sortedTags;
  }

  method MigrateNext(manager: TagManager, u: Uuid, tag: Tag)
    requires manager.Valid() && manager.host.Lawful() && u in manager.tags && manager.tags[u] == tag
    modifies manager
    ensures manager.Valid() && manager.View() == Migrate(manager.host, old(manager.View()), u, tag)
  {
    var hierarchy := Split(tag.title);
    var hasParent := tag.parent.Some?;
    var hasUnsupportedTitle := "" in hierarchy;
    if hasParent || |hierarchy| == 1 || hasUnsupportedTitle {
      return;
    }
    var parents, newTitle := Upper(hierarchy), Last(hierarchy);
    ChainSpells(manager.host, manager.View(), parents);
    var parent := manager.FindOrCreateTagParentChain(parents);
    PartsAreSimple(tag.title);
    SplitSimple(tag.title);
    assert forall part :: part in parents ==> part in hierarchy;
    DottedIsNoAncestor(manager.host, manager.tags, parent.value, parents, u);
    manager.MoveUnder(u, newTitle, parent.value);
  }
}
