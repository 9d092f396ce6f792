/** Diff write-back of memory stores and wikis: the runner's staging and syncing
    (session-runner/runner.py) and the control plane's diff-aware upserts (control-plane/src/repo.ts). */
module WriteBack {
  import opened Wrappers
  import opened Sessions
  import opened FileRows

  /** A memory store or a wiki; the two are written back alike. */
  datatype Area = MemoryOf(store: Id) | WikiOf(wiki: Id)

  function At(area: Area, path: string): Slot {
    match area case MemoryOf(store) => MemorySlot(store, path) case WikiOf(wiki) => WikiSlot(wiki, path)
  }

  type Tree = map<string, string>

  /** An uploaded file the diff names. */
  datatype Change = Change(path: string, id: Id, content: string)

  predicate DistinctPaths(changes: seq<Change>) {
    forall i, j :: 0 <= i < j < |changes| ==> changes[i].path != changes[j].path && changes[i].id != changes[j].id
  }

  function Paths(changes: seq<Change>): set<string> { set c | c in changes :: c.path }
  function Ids(changes: seq<Change>): set<Id> { set c | c in changes :: c.id }
  function PathSet(paths: seq<string>): set<string> { set p | p in paths }

  // ---------------------------------------------------------------------------------------
  // The runner's side: the diff of the staged baseline and the pod's tree

  /** The hashes of what was staged.  Hashing is taken as injective. */
  function Baseline(staged: Tree, digest: string -> string): map<string, string> {
    map p | p in staged :: digest(staged[p])
  }

  ghost predicate Injective(digest: string -> string) { forall a, b :: digest(a) == digest(b) ==> a == b }

  /** New or changed against what was staged. */
  predicate Touched(staged: Tree, pod: Tree, path: string) {
    path in pod && !(path in staged && staged[path] == pod[path])
  }

  /** A diff as the runner makes it: what changed with its new content, and what is gone. */
  ghost predicate IsDiff(before: Tree, pod: Tree, changes: seq<Change>, deletes: seq<string>) {
    && DistinctPaths(changes)
    && (forall p :: p in Paths(changes) <==> Touched(before, pod, p))
    && (forall c <- changes :: c.path in pod && c.content == pod[c.path])
    && (forall p :: p in deletes <==> p in before && p !in pod)
  }

  /** Walks the pod's tree once, uploading what changed; `ids` are the ids the uploads come back with. */
  method SyncBack(baseline: map<string, string>, staged: seq<string>, pod: Tree, walk: seq<string>,
                  digest: string -> string, ids: nat -> Id, ghost before: Tree)
    returns (changes: seq<Change>, deletes: seq<string>)
    requires Injective(digest) && baseline == Baseline(before, digest)
    requires forall p :: p in staged <==> p in baseline
    requires forall p :: p in walk <==> p in pod
    requires forall i, j :: 0 <= i < j < |walk| ==> walk[i] != walk[j]
    requires forall i: nat, j: nat :: i < j ==> ids(i) != ids(j)
    ensures IsDiff(before, pod, changes, deletes)
  {
    changes := [];
    for i := 0 to |walk|
      invariant DistinctPaths(changes)
      invariant forall c <- changes :: c.id in IdsBelow(ids, |changes|)
      invariant forall c <- changes :: c.path in walk[..i] && c.path in pod && c.content == pod[c.path]
      invariant forall p :: p in Paths(changes) <==> p in walk[..i] && Touched(before, pod, p)
    {
      var path := walk[i];
      assert path in walk && walk[..i+1] == walk[..i] + [path];
      var data := pod[path];
      if !(path in baseline && baseline[path] == digest(data)) {
        OneMoreChange(changes, Change(path, ids(|changes|), data), ids);
        changes := changes + [Change(path, ids(|changes|), data)];
      }
    }
    assert walk[..|walk|] == walk;
    deletes := Missing(staged, pod);
  }

  method Missing(staged: seq<string>, pod: Tree) returns (deletes: seq<string>)
    ensures forall p :: p in deletes <==> p in staged && p !in pod
  {
    deletes := [];
    for i := 0 to |staged|
      invariant forall p :: p in deletes <==> p in staged[..i] && p !in pod
    {
      assert staged[..i+1] == staged[..i] + [staged[i]];
      if staged[i] !in pod {
        deletes := deletes + [staged[i]];
      }
    }
    assert staged[..|staged|] == staged;
  }

  ghost function IdsBelow(ids: nat -> Id, n: nat): set<Id> { set i: nat | i < n :: ids(i) }

  lemma OneMoreChange(changes: seq<Change>, c: Change, ids: nat -> Id)
    requires DistinctPaths(changes) && c.path !in Paths(changes) && c.id == ids(|changes|)
    requires forall d <- changes :: d.id in IdsBelow(ids, |changes|)
    requires forall i: nat, j: nat :: i < j ==> ids(i) != ids(j)
    ensures DistinctPaths(changes + [c]) && Paths(changes + [c]) == Paths(changes) + {c.path}
    ensures forall d <- changes + [c] :: d.id in IdsBelow(ids, |changes| + 1)
  {
    forall d <- changes ensures d.id != c.id && d.path != c.path && d.id in IdsBelow(ids, |changes| + 1) {
      var i: nat :| i < |changes| && d.id == ids(i);
    }
    assert ids(|changes|) in IdsBelow(ids, |changes| + 1);
  }

  // ---------------------------------------------------------------------------------------
  // The control plane's side: upserts and the ids they orphan

  function Upserted(entries: map<Slot, Id>, area: Area, changes: seq<Change>): map<Slot, Id> {
    if changes == [] then entries
    else
      var c := changes[|changes|-1];
      Upserted(entries, area, changes[..|changes|-1])[At(area, c.path) := c.id]
  }

  function ReplacedIds(entries: map<Slot, Id>, area: Area, changes: seq<Change>): seq<Id> {
    if changes == [] then []
    else
      var c, before := changes[|changes|-1], Upserted(entries, area, changes[..|changes|-1]);
      ReplacedIds(entries, area, changes[..|changes|-1])
      + if At(area, c.path) in before && before[At(area, c.path)] != c.id then [before[At(area, c.path)]] else []
  }

  function RemovedIds(entries: map<Slot, Id>, area: Area, deletes: seq<string>): seq<Id> {
    if deletes == [] then []
    else
      var path := deletes[|deletes|-1];
      RemovedIds(entries, area, deletes[..|deletes|-1])
      + if At(area, path) in entries && path !in deletes[..|deletes|-1] then [entries[At(area, path)]] else []
  }

  function Slots(area: Area, paths: set<string>): set<Slot> { set p | p in paths :: At(area, p) }

  function AfterUpsert(entries: map<Slot, Id>, area: Area, changes: seq<Change>, deletes: seq<string>): map<Slot, Id> {
    Upserted(entries, area, changes) - Slots(area, PathSet(deletes))
  }

  function Orphaned(entries: map<Slot, Id>, area: Area, changes: seq<Change>, deletes: seq<string>): seq<Id> {
    ReplacedIds(entries, area, changes) + RemovedIds(Upserted(entries, area, changes), area, deletes)
  }

  class EntryTable {
    var entries: map<Slot, Id>

    constructor ()
      ensures entries == map[]
    {
      entries := map[];
    }

    method Upsert(area: Area, changes: seq<Change>, deletes: seq<string>) returns (orphaned: seq<Id>)
      modifies this
      ensures entries == AfterUpsert(old(entries), area, changes, deletes)
      ensures orphaned == Orphaned(old(entries), area, changes, deletes)
    {
      orphaned := [];
      for i := 0 to |changes|
        invariant entries == Upserted(old(entries), area, changes[..i])
        invariant orphaned == ReplacedIds(old(entries), area, changes[..i])
      {
        var c, slot := changes[i], At(area, changes[i].path);
        assert changes[..i+1][..i] == changes[..i];
        if slot in entries && entries[slot] != c.id {
          orphaned := orphaned + [entries[slot]];
        }
        entries := entries[slot := c.id];
      }
      assert changes[..|changes|] == changes;
      if deletes != [] {
        ghost var upserted := entries;
        for i := 0 to |deletes|
          invariant entries == upserted
          invariant orphaned == ReplacedIds(old(entries), area, changes) + RemovedIds(upserted, area, deletes[..i])
        {
          assert deletes[..i+1][..i] == deletes[..i];
          if At(area, deletes[i]) in entries && deletes[i] !in deletes[..i] {
            orphaned := orphaned + [entries[At(area, deletes[i])]];
          }
        }
        assert deletes[..|deletes|] == deletes;
        entries := entries - Slots(area, PathSet(deletes));
      } else {
        assert entries - Slots(area, PathSet(deletes)) == entries;
      }
    }
  }

  // ---------------------------------------------------------------------------------------
  // What an upsert does to the table

  lemma LastIsApart(area: Area, changes: seq<Change>)
    requires changes != [] && DistinctPaths(changes)
    ensures var rest, c := changes[..|changes|-1], changes[|changes|-1];
            && DistinctPaths(rest) && changes == rest + [c]
            && c.path !in Paths(rest) && Paths(changes) == Paths(rest) + {c.path}
            && At(area, c.path) !in Slots(area, Paths(rest))
            && Slots(area, Paths(changes)) == Slots(area, Paths(rest)) + {At(area, c.path)}
            && forall d <- rest :: d.path != c.path
  {
    var rest, c := changes[..|changes|-1], changes[|changes|-1];
    assert changes == rest + [c];
    forall d <- rest ensures d.path != c.path {
      var i :| 0 <= i < |rest| && rest[i] == d;
      assert changes[i] == d;
    }
  }

  lemma {:induction false} UpsertedAt(entries: map<Slot, Id>, area: Area, changes: seq<Change>)
    requires DistinctPaths(changes)
    ensures forall c <- changes :: At(area, c.path) in Upserted(entries, area, changes)
              && Upserted(entries, area, changes)[At(area, c.path)] == c.id
    ensures forall slot :: slot !in Slots(area, Paths(changes)) ==>
              (slot in Upserted(entries, area, changes) <==> slot in entries)
              && (slot in entries ==> Upserted(entries, area, changes)[slot] == entries[slot])
  {
    hide DistinctPaths, Paths, Slots;
    if changes == [] {
      assert Slots(area, Paths(changes)) == {} by { NoSlots(area); }
    } else {
      LastIsApart(area, changes);
      UpsertedAt(entries, area, changes[..|changes|-1]);
    }
  }

  lemma NoSlots(area: Area)
    ensures Slots(area, Paths([])) == {}
  {
  }

  /** No two slots hold the same id. */
  predicate OneSlotEach(entries: map<Slot, Id>) {
    forall a <- entries, b <- entries :: entries[a] == entries[b] ==> a == b
  }

  /** What the runner sends: each path once, ids no entry holds yet, and no path both changed and deleted. */
  ghost predicate CleanDiff(entries: map<Slot, Id>, changes: seq<Change>, deletes: seq<string>) {
    && DistinctPaths(changes)
    && (forall c <- changes :: c.id !in entries.Values)
    && PathSet(deletes) !! Paths(changes)
  }

  lemma {:induction false} ReplacedExactly(entries: map<Slot, Id>, area: Area, changes: seq<Change>, id: Id)
    requires DistinctPaths(changes) && forall c <- changes :: c.id !in entries.Values
    ensures id in ReplacedIds(entries, area, changes)
            <==> exists p <- Paths(changes) :: At(area, p) in entries && entries[At(area, p)] == id
  {
    if changes != [] {
      var rest, c := changes[..|changes|-1], changes[|changes|-1];
      ReplacedExactly(entries, area, rest, id);
      LastIsApart(area, changes);
      UpsertedAt(entries, area, rest);
      assert c in changes;
      hide DistinctPaths, Paths, Slots, Upserted;
    }
  }

  lemma {:induction false} RemovedExactly(entries: map<Slot, Id>, area: Area, deletes: seq<string>, id: Id)
    ensures id in RemovedIds(entries, area, deletes)
            <==> exists p <- deletes :: At(area, p) in entries && entries[At(area, p)] == id
  {
    if deletes != [] {
      var rest, path := deletes[..|deletes|-1], deletes[|deletes|-1];
      RemovedExactly(entries, area, rest, id);
      assert deletes == rest + [path];
    }
  }

  /** The orphans returned are exactly the ids the table held before and holds no more. */
  lemma OrphansAreExact(entries: map<Slot, Id>, area: Area, changes: seq<Change>, deletes: seq<string>, id: Id)
    requires OneSlotEach(entries) && CleanDiff(entries, changes, deletes)
    ensures id in Orphaned(entries, area, changes, deletes)
            <==> id in entries.Values && id !in AfterUpsert(entries, area, changes, deletes).Values
  {
    var upserted, after := Upserted(entries, area, changes), AfterUpsert(entries, area, changes, deletes);
    UpsertedAt(entries, area, changes);
    ReplacedExactly(entries, area, changes, id);
    RemovedExactly(upserted, area, deletes, id);
    if id in entries.Values {
      var slot :| slot in entries && entries[slot] == id;
      if slot in Slots(area, Paths(changes)) {
        HeldNowhereElse(entries, area, changes, deletes, slot);
      } else if slot in Slots(area, PathSet(deletes)) {
        HeldNowhereElse(entries, area, changes, deletes, slot);
      } else {
        assert after[slot] == id;
      }
    }
  }

  lemma HeldNowhereElse(entries: map<Slot, Id>, area: Area, changes: seq<Change>, deletes: seq<string>, slot: Slot)
    requires OneSlotEach(entries) && CleanDiff(entries, changes, deletes) && slot in entries
    requires slot in Slots(area, Paths(changes)) || slot in Slots(area, PathSet(deletes))
    ensures entries[slot] !in AfterUpsert(entries, area, changes, deletes).Values
  {
    var after := AfterUpsert(entries, area, changes, deletes);
    UpsertedAt(entries, area, changes);
    forall other <- after ensures after[other] != entries[slot] {
      if other in Slots(area, Paths(changes)) {
        var p :| p in Paths(changes) && At(area, p) == other;
        var c :| c in changes && c.path == p;
      }
    }
  }

  // ---------------------------------------------------------------------------------------
  // The whole write-back: uploads, upsert, purge of the orphans

  function PutChange(w: World, area: Area, c: Change, now: int): World {
    var key := EntryKey(At(area, c.path));
    w.(objects := w.objects[key := Object(c.content, now)],
       rows := w.rows[c.id := Row(key, EntryKind(At(area, c.path)), None, now)])
  }

  function Uploaded(w: World, area: Area, changes: seq<Change>, now: int): World {
    if changes == [] then w else PutChange(Uploaded(w, area, changes[..|changes|-1], now), area, changes[|changes|-1], now)
  }

  function WithEntries(w: World, area: Area, changes: seq<Change>, deletes: seq<string>): World {
    w.(entries := AfterUpsert(w.entries, area, changes, deletes))
  }

  ghost function Synced(w: World, area: Area, changes: seq<Change>, deletes: seq<string>, now: int): World {
    var uploaded := Uploaded(w, area, changes, now);
    var upserted := WithEntries(uploaded, area, changes, deletes);
    RunAll(upserted, Purge(upserted, Orphaned(uploaded.entries, area, changes, deletes)))
  }

  /** Every entry's file is stored under the entry's own path. */
  ghost predicate KeyedByPath(w: World) {
    Sound(w) && forall slot <- w.entries :: w.rows[w.entries[slot]].key == EntryKey(slot)
  }

  /** What a reader of the area finds at a path. */
  function ContentAt(w: World, slot: Slot): Option<string> {
    if slot in w.entries && w.entries[slot] in w.rows && w.rows[w.entries[slot]].key in w.objects
    then Some(w.objects[w.rows[w.entries[slot]].key].content)
    else None
  }

  predicate NewIds(w: World, changes: seq<Change>) { forall c <- changes :: c.id !in w.rows }

  /** The rows of `changes` are in the table, and no other row has changed. */
  ghost predicate RowsIn(w: World, after: World, area: Area, changes: seq<Change>) {
    && (forall c <- changes :: c.id in after.rows && after.rows[c.id].key == EntryKey(At(area, c.path)))
    && (forall id <- w.rows :: id in after.rows && after.rows[id] == w.rows[id])
    && (forall id <- after.rows :: id in w.rows || id in Ids(changes))
  }

  /** Their contents are in the store, and no other path's content has changed. */
  ghost predicate ObjectsIn(w: World, after: World, area: Area, changes: seq<Change>) {
    && (forall c <- changes ::
          EntryKey(At(area, c.path)) in after.objects && after.objects[EntryKey(At(area, c.path))].content == c.content)
    && (forall key <- w.objects :: key in after.objects)
    && (forall slot :: slot !in Slots(area, Paths(changes)) && EntryKey(slot) in w.objects ==>
          after.objects[EntryKey(slot)] == w.objects[EntryKey(slot)])
  }

  ghost predicate UploadsIn(w: World, after: World, area: Area, changes: seq<Change>) {
    && after.entries == w.entries && after.skills == w.skills
    && RowsIn(w, after, area, changes) && ObjectsIn(w, after, area, changes)
  }

  lemma {:induction false} UploadedHolds(w: World, area: Area, changes: seq<Change>, now: int)
    requires DistinctPaths(changes) && NewIds(w, changes)
    ensures UploadsIn(w, Uploaded(w, area, changes, now), area, changes)
  {
    hide UploadsIn, DistinctPaths;
    if changes == [] {
      NothingUploaded(w, area);
    } else {
      var rest := changes[..|changes|-1];
      LastIsApart(area, changes);
      UploadedHolds(w, area, rest, now);
      OneMoreUpload(w, Uploaded(w, area, rest, now), area, changes, now);
    }
  }

  lemma NothingUploaded(w: World, area: Area)
    ensures UploadsIn(w, w, area, [])
  {
  }

  lemma UploadsAreSound(w: World, after: World, area: Area, changes: seq<Change>)
    requires Sound(w) && UploadsIn(w, after, area, changes)
    ensures Sound(after)
  {
    forall id <- after.rows ensures after.rows[id].key in after.objects {
      if id !in w.rows {
        var c :| c in changes && c.id == id;
      }
    }
  }

  lemma IdsAreApart(changes: seq<Change>)
    requires changes != [] && DistinctPaths(changes)
    ensures var rest, c := changes[..|changes|-1], changes[|changes|-1];
            Ids(changes) == Ids(rest) + {c.id} && c.id !in Ids(rest) && forall d <- rest :: d.id in Ids(rest)
  {
    assert changes == changes[..|changes|-1] + [changes[|changes|-1]];
  }

  lemma OneMoreUpload(w: World, before: World, area: Area, changes: seq<Change>, now: int)
    requires changes != [] && DistinctPaths(changes) && NewIds(w, changes)
    requires UploadsIn(w, before, area, changes[..|changes|-1])
    ensures UploadsIn(w, PutChange(before, area, changes[|changes|-1], now), area, changes)
  {
    hide RowsIn, ObjectsIn, DistinctPaths;
    OneMoreRow(w, before, area, changes, now);
    OneMoreObject(w, before, area, changes, now);
  }

  lemma OneMoreRow(w: World, before: World, area: Area, changes: seq<Change>, now: int)
    requires changes != [] && DistinctPaths(changes) && NewIds(w, changes)
    requires RowsIn(w, before, area, changes[..|changes|-1])
    ensures RowsIn(w, PutChange(before, area, changes[|changes|-1], now), area, changes)
  {
    var c := changes[|changes|-1];
    IdsAreApart(changes);
    assert changes == changes[..|changes|-1] + [c];
    hide Ids, DistinctPaths;
    assert c in changes && c.id !in before.rows;
  }

  lemma OneMoreObject(w: World, before: World, area: Area, changes: seq<Change>, now: int)
    requires changes != [] && DistinctPaths(changes)
    requires ObjectsIn(w, before, area, changes[..|changes|-1])
    ensures ObjectsIn(w, PutChange(before, area, changes[|changes|-1], now), area, changes)
  {
    LastIsApart(area, changes);
    hide Paths, Slots, DistinctPaths;
  }

  /** After the upsert every entry still has its own path's file. */
  lemma UpsertKeepsKeys(w: World, uploaded: World, area: Area, changes: seq<Change>, deletes: seq<string>)
    requires KeyedByPath(w) && UploadsIn(w, uploaded, area, changes) && DistinctPaths(changes)
    ensures KeyedByPath(WithEntries(uploaded, area, changes, deletes))
  {
    hide UploadsIn, Upserted, DistinctPaths;
    UploadsAreSound(w, uploaded, area, changes);
    SameEntries(w, uploaded, area, changes);
    var after := WithEntries(uploaded, area, changes, deletes);
    forall slot <- after.entries ensures after.entries[slot] in after.rows && after.rows[after.entries[slot]].key == EntryKey(slot) {
      EntryKeepsKey(w, uploaded, area, changes, slot);
    }
  }

  lemma SameEntries(w: World, uploaded: World, area: Area, changes: seq<Change>)
    requires UploadsIn(w, uploaded, area, changes)
    ensures uploaded.entries == w.entries
  {
  }

  lemma EntryKeepsKey(w: World, uploaded: World, area: Area, changes: seq<Change>, slot: Slot)
    requires KeyedByPath(w) && UploadsIn(w, uploaded, area, changes) && DistinctPaths(changes)
    requires slot in Upserted(w.entries, area, changes)
    ensures var id := Upserted(w.entries, area, changes)[slot];
            id in uploaded.rows && uploaded.rows[id].key == EntryKey(slot)
  {
    UpsertedAt(w.entries, area, changes);
    hide ObjectsIn, Upserted, DistinctPaths;
    if slot in Slots(area, Paths(changes)) {
      var p :| p in Paths(changes) && At(area, p) == slot;
      var c :| c in changes && c.path == p;
    }
  }

  lemma UpsertedReads(w: World, area: Area, changes: seq<Change>, deletes: seq<string>, now: int, slot: Slot)
    requires KeyedByPath(w) && CleanDiff(w.entries, changes, deletes) && NewIds(w, changes)
    ensures var after := WithEntries(Uploaded(w, area, changes, now), area, changes, deletes);
            && KeyedByPath(after)
            && (forall c <- changes :: slot == At(area, c.path) ==> ContentAt(after, slot) == Some(c.content))
            && (slot in Slots(area, PathSet(deletes)) ==> ContentAt(after, slot) == None)
            && (slot !in Slots(area, Paths(changes)) && slot !in Slots(area, PathSet(deletes)) ==>
                  ContentAt(after, slot) == ContentAt(w, slot))
  {
    hide Uploaded, Upserted, DistinctPaths;
    UploadedHolds(w, area, changes, now);
    UpsertKeepsKeys(w, Uploaded(w, area, changes, now), area, changes, deletes);
    UpsertedAt(w.entries, area, changes);
    forall c <- changes | slot == At(area, c.path) ensures slot !in Slots(area, PathSet(deletes)) {
      assert c.path in Paths(changes);
    }
  }

  /** Entries pin their rows, so purging other ids changes nothing a reader of any area finds. */
  lemma PurgeKeepsReads(w: World, ids: seq<Id>, slot: Slot)
    requires KeyedByPath(w)
    ensures var after := RunAll(w, Purge(w, ids));
            KeyedByPath(after) && ContentAt(after, slot) == ContentAt(w, slot)
  {
    var after := RunAll(w, Purge(w, ids));
    PurgePurges(w, ids);
    hide RunAll, Purge;
    if slot in w.entries {
      assert Pinned(w, w.entries[slot]);
      RowClaims(after, w.entries[slot]);
    }
    forall other <- w.entries ensures w.entries[other] in after.rows { assert Pinned(w, w.entries[other]); }
  }

  /** At every path the write-back leaves exactly what the diff says, and elsewhere what was there;
      every entry still has its own path's file, and no row dangles. */
  lemma SyncWritesTheDiff(w: World, area: Area, changes: seq<Change>, deletes: seq<string>, now: int, slot: Slot)
    requires KeyedByPath(w) && CleanDiff(w.entries, changes, deletes) && NewIds(w, changes)
    ensures var after := Synced(w, area, changes, deletes, now);
            && KeyedByPath(after)
            && (forall c <- changes :: slot == At(area, c.path) ==> ContentAt(after, slot) == Some(c.content))
            && (slot in Slots(area, PathSet(deletes)) ==> ContentAt(after, slot) == None)
            && (slot !in Slots(area, Paths(changes)) && slot !in Slots(area, PathSet(deletes)) ==>
                  ContentAt(after, slot) == ContentAt(w, slot))
  {
    hide KeyedByPath, Purge, RunAll, Slots, Paths, Orphaned, WithEntries, Uploaded, ContentAt, CleanDiff;
    UpsertedReads(w, area, changes, deletes, now, slot);
    var uploaded := Uploaded(w, area, changes, now);
    var upserted := WithEntries(uploaded, area, changes, deletes);
    PurgeKeepsReads(upserted, Orphaned(uploaded.entries, area, changes, deletes), slot);
  }

  function Lookup(tree: Tree, path: string): Option<string> { if path in tree then Some(tree[path]) else None }

  /** Path by path: where the area still holds what was staged, it comes to hold what the pod holds;
      a path the session neither staged nor wrote keeps whatever anyone has put there. */
  lemma SyncYieldsPodTree(w: World, area: Area, before: Tree, pod: Tree, changes: seq<Change>, deletes: seq<string>, now: int, p: string)
    requires KeyedByPath(w) && NewIds(w, changes) && IsDiff(before, pod, changes, deletes)
    ensures var after := Synced(w, area, changes, deletes, now);
            && (ContentAt(w, At(area, p)) == Lookup(before, p) ==> ContentAt(after, At(area, p)) == Lookup(pod, p))
            && (p !in before && p !in pod ==> ContentAt(after, At(area, p)) == ContentAt(w, At(area, p)))
            && (p in before && p in pod && before[p] == pod[p] ==> ContentAt(after, At(area, p)) == ContentAt(w, At(area, p)))
  {
    DiffIsClean(w, before, pod, changes, deletes);
    SyncWritesTheDiff(w, area, changes, deletes, now, At(area, p));
    hide Synced, KeyedByPath, CleanDiff, ContentAt, DistinctPaths;
    SlotsOfPaths(area, Paths(changes), p);
    SlotsOfPaths(area, PathSet(deletes), p);
    if p in Paths(changes) {
      var c :| c in changes && c.path == p;
    }
  }

  lemma SlotsOfPaths(area: Area, paths: set<string>, p: string)
    ensures At(area, p) in Slots(area, paths) <==> p in paths
  {
  }

  lemma DiffIsClean(w: World, before: Tree, pod: Tree, changes: seq<Change>, deletes: seq<string>)
    requires KeyedByPath(w) && NewIds(w, changes) && IsDiff(before, pod, changes, deletes)
    ensures CleanDiff(w.entries, changes, deletes)
  {
    hide DistinctPaths;
    assert forall id <- w.entries.Values :: id in w.rows;
  }

  /** The rows a write-back leaves are old ones or its own uploads. */
  lemma SyncAddsOnlyItsIds(w: World, area: Area, changes: seq<Change>, deletes: seq<string>, now: int)
    requires KeyedByPath(w) && CleanDiff(w.entries, changes, deletes) && NewIds(w, changes)
    ensures forall id <- Synced(w, area, changes, deletes, now).rows :: id in w.rows || id in Ids(changes)
  {
    UploadedHolds(w, area, changes, now);
    UpsertKeepsKeys(w, Uploaded(w, area, changes, now), area, changes, deletes);
    var uploaded := Uploaded(w, area, changes, now);
    var upserted := WithEntries(uploaded, area, changes, deletes);
    PurgePurges(upserted, Orphaned(uploaded.entries, area, changes, deletes));
    hide Uploaded, Purge, RunAll, Orphaned, AfterUpsert, ContentAt, CleanDiff;
  }

  /** What a diff makes of a path that read `was`. */
  ghost function DiffAt(area: Area, changes: seq<Change>, deletes: seq<string>, slot: Slot, was: Option<string>): Option<string> {
    if c :| c in changes && At(area, c.path) == slot then Some(c.content)
    else if slot in Slots(area, PathSet(deletes)) then None
    else was
  }

  lemma SyncReads(w: World, area: Area, changes: seq<Change>, deletes: seq<string>, now: int, slot: Slot)
    requires KeyedByPath(w) && CleanDiff(w.entries, changes, deletes) && NewIds(w, changes)
    ensures ContentAt(Synced(w, area, changes, deletes, now), slot) == DiffAt(area, changes, deletes, slot, ContentAt(w, slot))
  {
    SyncWritesTheDiff(w, area, changes, deletes, now, slot);
    hide Synced, ContentAt, KeyedByPath, CleanDiff;
  }

  lemma NextDiffIsClean(w: World, area: Area, now: int, changes1: seq<Change>, deletes1: seq<string>,
                        changes2: seq<Change>, deletes2: seq<string>)
    requires KeyedByPath(w) && NewIds(w, changes1) && NewIds(w, changes2)
    requires DistinctPaths(changes1) && DistinctPaths(changes2) && Ids(changes1) !! Ids(changes2)
    requires PathSet(deletes1) !! Paths(changes1) && PathSet(deletes2) !! Paths(changes2)
    ensures CleanDiff(w.entries, changes1, deletes1)
    ensures var middle := Synced(w, area, changes1, deletes1, now);
            KeyedByPath(middle) && NewIds(middle, changes2) && CleanDiff(middle.entries, changes2, deletes2)
  {
    hide DistinctPaths, Synced, Paths, PathSet, ContentAt;
    assert forall id <- w.entries.Values :: id in w.rows;
    SyncAddsOnlyItsIds(w, area, changes1, deletes1, now);
    SyncWritesTheDiff(w, area, changes1, deletes1, now, At(area, ""));
    var middle := Synced(w, area, changes1, deletes1, now);
    assert forall id <- middle.entries.Values :: id in middle.rows;
    assert forall c <- changes2 :: c.id in Ids(changes2);
  }

  /** Two sessions' diffs of one area that share no path, and whose uploads share no id, may be
      applied in either order: every reader then finds the same. */
  lemma DisjointDiffsCommute(w: World, area: Area, now: int, slot: Slot,
                             changes1: seq<Change>, deletes1: seq<string>, changes2: seq<Change>, deletes2: seq<string>)
    requires KeyedByPath(w) && NewIds(w, changes1) && NewIds(w, changes2)
    requires DistinctPaths(changes1) && DistinctPaths(changes2) && Ids(changes1) !! Ids(changes2)
    requires PathSet(deletes1) !! Paths(changes1) && PathSet(deletes2) !! Paths(changes2)
    requires Paths(changes1) + PathSet(deletes1) !! Paths(changes2) + PathSet(deletes2)
    ensures ContentAt(Synced(Synced(w, area, changes1, deletes1, now), area, changes2, deletes2, now), slot)
            == ContentAt(Synced(Synced(w, area, changes2, deletes2, now), area, changes1, deletes1, now), slot)
  {
    hide Synced, DistinctPaths, ContentAt, KeyedByPath, NewIds, CleanDiff, DiffAt;
    NextDiffIsClean(w, area, now, changes1, deletes1, changes2, deletes2);
    NextDiffIsClean(w, area, now, changes2, deletes2, changes1, deletes1);
    SyncReads(w, area, changes1, deletes1, now, slot);
    SyncReads(w, area, changes2, deletes2, now, slot);
    SyncReads(Synced(w, area, changes1, deletes1, now), area, changes2, deletes2, now, slot);
    SyncReads(Synced(w, area, changes2, deletes2, now), area, changes1, deletes1, now, slot);
    DiffsApart(area, slot, changes1, deletes1, changes2, deletes2, ContentAt(w, slot));
  }

  lemma DiffsApart(area: Area, slot: Slot, changes1: seq<Change>, deletes1: seq<string>,
                   changes2: seq<Change>, deletes2: seq<string>, was: Option<string>)
    requires Paths(changes1) + PathSet(deletes1) !! Paths(changes2) + PathSet(deletes2)
    ensures DiffAt(area, changes2, deletes2, slot, DiffAt(area, changes1, deletes1, slot, was))
            == DiffAt(area, changes1, deletes1, slot, DiffAt(area, changes2, deletes2, slot, was))
  {
    forall c <- changes1, d <- changes2 ensures c.path != d.path {
      assert c.path in Paths(changes1) && d.path in Paths(changes2);
    }
  }

  // ---------------------------------------------------------------------------------------
  // A write-back is a run of file operations, so a crash inside it leaves no dangling row

  function UploadOp(area: Area, c: Change, now: int): Op {
    Store(c.id, EntryKey(At(area, c.path)), EntryKind(At(area, c.path)), None, c.content, now)
  }

  /** One upload is the operation of storing a file. */
  lemma UploadIsStore(w: World, area: Area, c: Change, now: int)
    ensures RunAll(w, Script(w, UploadOp(area, c, now))) == PutChange(w, area, c, now)
  {
    var slot := At(area, c.path);
    var put, insert := PutObject(EntryKey(slot), Object(c.content, now)), InsertRow(c.id, Row(EntryKey(slot), EntryKind(slot), None, now));
    assert Script(w, UploadOp(area, c, now)) == [put, insert];
    TwoActions(w, put, insert);
  }

  function Assignments(area: Area, changes: seq<Change>): (out: seq<Assignment>)
    ensures |out| == |changes|
    ensures forall i :: 0 <= i < |changes| ==> out[i] == Assignment(At(area, changes[i].path), changes[i].id)
  {
    seq(|changes|, i requires 0 <= i < |changes| => Assignment(At(area, changes[i].path), changes[i].id))
  }

  function CallbackOp(entries: map<Slot, Id>, area: Area, changes: seq<Change>, deletes: seq<string>): Op {
    ChangeEntries(Assignments(area, changes), Slots(area, PathSet(deletes)), Orphaned(entries, area, changes, deletes))
  }

  lemma {:induction false} AssignUpserts(w: World, area: Area, changes: seq<Change>)
    ensures RunAll(w, Assign(Assignments(area, changes))) == w.(entries := Upserted(w.entries, area, changes))
  {
    if changes != [] {
      var rest, c := changes[..|changes|-1], changes[|changes|-1];
      AssignUpserts(w, area, rest);
      assert Assignments(area, changes)[..|changes|-1] == Assignments(area, rest);
      Joined(w, Assign(Assignments(area, rest)), [SetEntry(At(area, c.path), c.id)]);
      OneAction(RunAll(w, Assign(Assignments(area, rest))), SetEntry(At(area, c.path), c.id));
    }
  }

  /** The callback's part of it, upserts and purge, is the operation of changing entries. */
  lemma CallbackIsChange(w: World, area: Area, changes: seq<Change>, deletes: seq<string>, now: int)
    ensures var uploaded := Uploaded(w, area, changes, now);
            var op := CallbackOp(uploaded.entries, area, changes, deletes);
            RunAll(uploaded, Script(uploaded, op)) == Synced(w, area, changes, deletes, now)
  {
    hide Uploaded, Purge, Orphaned, Assign, Upserted, RunAll, Assignments, Slots, PathSet;
    var uploaded := Uploaded(w, area, changes, now);
    var slots, orphaned := Slots(area, PathSet(deletes)), Orphaned(uploaded.entries, area, changes, deletes);
    var op := CallbackOp(uploaded.entries, area, changes, deletes);
    var assign := Assign(Assignments(area, changes));
    var first := Writes(uploaded, op);
    AssignUpserts(uploaded, area, changes);
    Joined(uploaded, assign, [DropEntries(slots)]);
    OneAction(RunAll(uploaded, assign), DropEntries(slots));
    assert assign + [] == assign;
    assert RunAll(uploaded, first) == WithEntries(uploaded, area, changes, deletes);
    var middle := Purge(RunAll(uploaded, first), orphaned);
    Joined(uploaded, first, middle);
    assert first + middle + [] == first + middle;
  }

  lemma {:induction false} UpsertedValues(entries: map<Slot, Id>, area: Area, changes: seq<Change>, slot: Slot)
    requires slot in Upserted(entries, area, changes)
    ensures Upserted(entries, area, changes)[slot] in entries.Values + Ids(changes)
  {
    if changes != [] {
      var rest, c := changes[..|changes|-1], changes[|changes|-1];
      assert changes == rest + [c];
      if slot != At(area, c.path) { UpsertedValues(entries, area, rest, slot); }
    }
  }

  lemma {:induction false} ReplacedWereHeld(entries: map<Slot, Id>, area: Area, changes: seq<Change>, id: Id)
    requires id in ReplacedIds(entries, area, changes)
    ensures id in entries.Values + Ids(changes)
  {
    var rest, c := changes[..|changes|-1], changes[|changes|-1];
    assert changes == rest + [c];
    if id in ReplacedIds(entries, area, rest) {
      ReplacedWereHeld(entries, area, rest, id);
    } else {
      UpsertedValues(entries, area, rest, At(area, c.path));
    }
  }

  lemma OrphansWereHeld(entries: map<Slot, Id>, area: Area, changes: seq<Change>, deletes: seq<string>, id: Id)
    requires id in Orphaned(entries, area, changes, deletes)
    ensures id in entries.Values + Ids(changes)
  {
    hide Upserted;
    if id in ReplacedIds(entries, area, changes) {
      ReplacedWereHeld(entries, area, changes, id);
    } else {
      RemovedExactly(Upserted(entries, area, changes), area, deletes, id);
      var p :| p in deletes && At(area, p) in Upserted(entries, area, changes) && Upserted(entries, area, changes)[At(area, p)] == id;
      UpsertedValues(entries, area, changes, At(area, p));
    }
  }

  /** That operation meets what is asked of one. */
  lemma CallbackIsPosed(w: World, area: Area, changes: seq<Change>, deletes: seq<string>, now: int)
    requires DistinctPaths(changes) && NewIds(w, changes)
    ensures var uploaded := Uploaded(w, area, changes, now);
            WellPosed(uploaded, CallbackOp(uploaded.entries, area, changes, deletes))
  {
    hide Uploaded, DistinctPaths, Orphaned, Slots, ObjectsIn;
    var uploaded := Uploaded(w, area, changes, now);
    UploadedHolds(w, area, changes, now);
    var assignments := Assignments(area, changes);
    forall id <- Orphaned(uploaded.entries, area, changes, deletes)
      ensures id in uploaded.entries.Values || exists a <- assignments :: a.id == id
    {
      OrphansWereHeld(uploaded.entries, area, changes, deletes, id);
      if id in Ids(changes) {
        var c :| c in changes && c.id == id;
        var i :| 0 <= i < |changes| && changes[i] == c;
        assert assignments[i].id == id;
      }
    }
  }

  /** The uploads, each with both its writes. */
  function Stores(area: Area, changes: seq<Change>, now: int): seq<Attempt> {
    if changes == [] then []
    else Stores(area, changes[..|changes|-1], now) + [Attempt(UploadOp(area, changes[|changes|-1], now), 2)]
  }

  /** A write-back that dies after `cut` writes of its step `k`: the steps are the uploads, one by one,
      and then the callback. */
  function CutAt(entries: map<Slot, Id>, area: Area, changes: seq<Change>, deletes: seq<string>, now: int, k: nat, cut: nat): seq<Attempt>
    requires k <= |changes|
  {
    Stores(area, changes[..k], now)
    + [Attempt(if k < |changes| then UploadOp(area, changes[k], now) else CallbackOp(entries, area, changes, deletes), cut)]
  }

  lemma OneMoreAttempt(w: World, attempts: seq<Attempt>, a: Attempt)
    requires Runs(w, attempts) && WellPosed(After(w, attempts), a.op)
    ensures Runs(w, attempts + [a]) && After(w, attempts + [a]) == AfterAttempt(After(w, attempts), a)
  {
    hide WellPosed, AfterAttempt;
    assert (attempts + [a])[..|attempts|] == attempts;
  }

  lemma FirstChanges(w: World, changes: seq<Change>, k: nat)
    requires DistinctPaths(changes) && NewIds(w, changes) && k <= |changes|
    ensures DistinctPaths(changes[..k]) && NewIds(w, changes[..k])
    ensures k < |changes| ==> changes[k].id !in w.rows && changes[k].id !in Ids(changes[..k])
  {
  }

  /** The next upload's id is new when the ones before it are in. */
  lemma UploadIsPosed(w: World, area: Area, changes: seq<Change>, now: int, k: nat)
    requires DistinctPaths(changes) && NewIds(w, changes) && k < |changes|
    ensures WellPosed(Uploaded(w, area, changes[..k], now), UploadOp(area, changes[k], now))
  {
    hide Uploaded, DistinctPaths, ObjectsIn, Ids;
    FirstChanges(w, changes, k);
    UploadedHolds(w, area, changes[..k], now);
  }

  lemma WholeUpload(w: World, area: Area, c: Change, now: int)
    requires c.id !in w.rows
    ensures AfterAttempt(w, Attempt(UploadOp(area, c, now), 2)) == PutChange(w, area, c, now)
  {
    hide PutChange, RunAll;
    UploadIsStore(w, area, c, now);
    assert |Script(w, UploadOp(area, c, now))| == 2;
  }

  lemma {:induction false} StoresUpload(w: World, area: Area, changes: seq<Change>, now: int)
    requires DistinctPaths(changes) && NewIds(w, changes)
    ensures Runs(w, Stores(area, changes, now)) && After(w, Stores(area, changes, now)) == Uploaded(w, area, changes, now)
  {
    hide DistinctPaths, NewIds, AfterAttempt, PutChange, UploadOp;
    if changes != [] {
      var rest, c := changes[..|changes|-1], changes[|changes|-1];
      FirstChanges(w, changes, |rest|);
      StoresUpload(w, area, rest, now);
      UploadIsPosed(w, area, changes, now, |rest|);
      OneMoreAttempt(w, Stores(area, rest, now), Attempt(UploadOp(area, c, now), 2));
      UploadOpIsNew(Uploaded(w, area, rest, now), area, c, now);
      WholeUpload(Uploaded(w, area, rest, now), area, c, now);
    }
  }

  lemma UploadOpIsNew(w: World, area: Area, c: Change, now: int)
    requires WellPosed(w, UploadOp(area, c, now))
    ensures c.id !in w.rows
  {
  }

  /** A write-back is a run of file operations, wherever it dies; so no row is left without its object,
      and one that does not die leaves what Synced says. */
  lemma CrashedWriteBackIsSound(w: World, area: Area, changes: seq<Change>, deletes: seq<string>, now: int, k: nat, cut: nat)
    requires Sound(w) && DistinctPaths(changes) && NewIds(w, changes) && k <= |changes|
    ensures var attempts := CutAt(w.entries, area, changes, deletes, now, k, cut);
      && Runs(w, attempts) && Sound(After(w, attempts))
      && (k == |changes| && cut >= |Script(Uploaded(w, area, changes, now), CallbackOp(w.entries, area, changes, deletes))| ==>
            After(w, attempts) == Synced(w, area, changes, deletes, now))
  {
    hide DistinctPaths, NewIds, Sound, Stores, UploadOp, Uploaded, Orphaned, Assignments, Slots, WellPosed, Script, Synced, Runs, After;
    var first := changes[..k];
    var attempts := CutAt(w.entries, area, changes, deletes, now, k, cut);
    FirstChanges(w, changes, k);
    StoresUpload(w, area, first, now);
    if k < |changes| {
      UploadIsPosed(w, area, changes, now, k);
    } else {
      assert first == changes;
      CallbackIsPosed(w, area, changes, deletes, now);
      UploadsKeepEntries(w, area, changes, now);
      CallbackIsChange(w, area, changes, deletes, now);
    }
    OneMoreAttempt(w, Stores(area, first, now), attempts[|attempts|-1]);
    NoRowEverDangles(w, attempts);
  }

  lemma {:induction false} UploadsKeepEntries(w: World, area: Area, changes: seq<Change>, now: int)
    ensures Uploaded(w, area, changes, now).entries == w.entries
  {
    if changes != [] { UploadsKeepEntries(w, area, changes[..|changes|-1], now); }
  }
}
