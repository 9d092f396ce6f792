/** The file routes as they run: repo.ts, skill-upload.ts, session-delete.ts and maintenance.ts.  Each
    method performs the script of its operation. */
module FileStore {
  import opened Wrappers
  import opened Sessions
  import opened FileRows

  class FileService {
    var rows: map<Id, Row>
    var objects: map<Key, Object>
    var checkpoints: map<Id, Option<Id>>
    var skills: map<Id, Manifest>
    var entries: map<Slot, Id>

    function View(): World
      reads this
    {
      World(rows, objects, checkpoints, skills, entries)
    }

    constructor ()
      ensures View() == World(map[], map[], map[], map[], map[]) && Sound(View())
    {
      rows, objects, checkpoints, skills, entries := map[], map[], map[], map[], map[];
    }

    method Put(key: Key, content: string, now: int)
      modifies this`objects
      ensures View() == Do(old(View()), PutObject(key, Object(content, now)))
      ensures objects == old(objects)[key := Object(content, now)]
    {
      objects := objects[key := Object(content, now)];
    }

    method Del(key: Key)
      modifies this`objects
      ensures View() == Do(old(View()), DropObject(key))
      ensures objects == old(objects) - {key}
    {
      objects := objects - {key};
    }

    method CreateFileRecord(id: Id, row: Row)
      modifies this`rows
      ensures View() == Do(old(View()), InsertRow(id, row))
      ensures rows == old(rows)[id := row]
    {
      rows := rows[id := row];
    }

    /** The key comes back when the row is gone and no other row has it. */
    method DeleteFileRecordById(id: Id) returns (key: Option<Key>)
      modifies this`rows
      ensures View() == if id !in old(rows) || Pinned(old(View()), id) then old(View()) else Do(old(View()), DropRow(id))
      ensures key == if id !in old(rows) || Pinned(old(View()), id) || SharedKey(old(View()), id) then None else Some(old(rows)[id].key)
    {
      if id !in rows || Pinned(View(), id) {
        return None;
      }
      key := if SharedKey(View(), id) then None else Some(rows[id].key);
      rows := rows - {id};
    }

    method PurgeFiles(ids: seq<Id>) returns (dropped: nat)
      modifies this`rows, this`objects
      ensures View() == RunAll(old(View()), Purge(old(View()), ids))
      ensures Sound(old(View())) ==> Sound(View()) && |objects| + dropped == |old(objects)|
    {
      hide Purge, PurgeOne, PurgedOne, RunAll, Pinned, SharedKey, Do, Sound;
      dropped := 0;
      ghost var start := View();
      assert RunAll(start, Purge(start, ids)) == RunAll(View(), Purge(View(), ids[0..])) by { assert ids[0..] == ids; }
      for i := 0 to |ids|
        invariant RunAll(start, Purge(start, ids)) == RunAll(View(), Purge(View(), ids[i..]))
        invariant Sound(start) ==> Sound(View()) && |objects| + dropped == |start.objects|
      {
        ghost var before := View();
        PurgeNext(before, ids, i);
        PurgeOneWorld(before, ids[i]);
        var key := DeleteFileRecordById(ids[i]);
        if key.Some? {
          Del(key.value);
          dropped := dropped + 1;
        }
        DeletedIsPurged(before, ids[i]);
        assert View() == PurgedOne(before, ids[i]);
        if Sound(before) {
          PurgedOnePurges(before, ids[i]);
          ObjectsCounted(before, ids[i]);
        }
      }
      assert ids[|ids|..] == [];
      EmptyPurge(View());
    }

    /** The object before the row. */
    method Upload(id: Id, key: Key, kind: Kind, owner: Option<Id>, content: string, now: int)
      modifies this`rows, this`objects
      ensures View() == RunAll(old(View()), Script(old(View()), Store(id, key, kind, owner, content, now)))
      ensures objects == old(objects)[key := Object(content, now)] && rows == old(rows)[id := Row(key, kind, owner, now)]
    {
      ghost var op := Store(id, key, kind, owner, content, now);
      ghost var before := View();
      OwnWritesOnly(before, op);
      TwoActions(before, PutObject(key, Object(content, now)), InsertRow(id, Row(key, kind, owner, now)));
      hide RunAll, Script;
      Put(key, content, now);
      CreateFileRecord(id, Row(key, kind, owner, now));
    }

    /** Every file put and recorded, then the manifest swapped, then the old version purged. */
    method StoreSkillPackage(skill: Id, files: seq<File>, now: int)
      requires files != []
      modifies this
      ensures View() == RunAll(old(View()), Script(old(View()), StoreSkill(skill, files, now)))
    {
      hide RunAll, PutFiles, Purge, Script, Primary;
      ghost var op := StoreSkill(skill, files, now);
      ghost var start := View();
      ghost var publish := PublishSkill(skill, files, now);
      NoFilesPut(start, skill, now);
      for i := 0 to |files|
        invariant View() == RunAll(start, PutFiles(skill, files[..i], now))
        invariant skills == old(skills)
      {
        var f := files[i];
        PutOneMore(start, skill, files, i, now);
        Put(FileKeyOf(skill, f), f.content, now);
        CreateFileRecord(f.id, FileRowOf(skill, f, now));
      }
      assert files[..|files|] == files;
      PublishEnds(start, skill, files, now);
      var previous := Replaced(View(), skill);
      assert previous == Replaced(start, skill);
      skills := skills[skill := Manifest(Primary(files), FileIds(files))];
      assert View() == RunAll(start, publish);
      UploadScript(start, op);
      Joined(start, publish, Purge(View(), previous));
      var _ := PurgeFiles(previous);
    }

    /** Deletes, of the keys listed, the objects no row claims. */
    method DropUnclaimedObjects(keys: seq<Key>)
      modifies this`objects
      ensures View() == RunAll(old(View()), DropUnclaimed(old(View()), keys))
    {
      hide RunAll, DropUnclaimed, Claimed, Do;
      NothingDropped(View());
      for i := 0 to |keys|
        invariant View() == RunAll(old(View()), DropUnclaimed(old(View()), keys[..i]))
      {
        DropNext(old(View()), keys, i);
        if !Claimed(View(), keys[i]) {
          Del(keys[i]);
        }
      }
      assert keys[..|keys|] == keys;
    }

    /** The session's rows and the session in two statements, then the objects no row claims. */
    method DeleteSessionFully(session: Id, keys: seq<Key>)
      requires WellPosed(View(), DeleteSession(session, keys))
      modifies this
      ensures View() == RunAll(old(View()), Script(old(View()), DeleteSession(session, keys)))
    {
      hide RunAll, Script, DropUnclaimed, Pinned, WellPosed;
      SessionScript(View(), DeleteSession(session, keys));
      var ids := set id | id in rows && rows[id].session == Some(session) && rows[id].kind != Memory && rows[id].kind != Wiki;
      assert ids == SessionRows(View(), session);
      if exists id <- ids :: Pinned(View(), id) {
        return;
      }
      rows := rows - ids;
      checkpoints, rows := checkpoints - {session}, Detached(rows, session);
      DropUnclaimedObjects(keys);
    }

    /** Deletes the old objects of the listing that no row claims. */
    method SweepObjects(listing: seq<Key>, cutoff: int) returns (dropped: nat)
      modifies this`objects
      ensures View() == RunAll(old(View()), Sweep(old(View()), listing, cutoff))
      ensures |objects| + dropped == |old(objects)|
    {
      hide RunAll, Sweep, Claimed;
      dropped := 0;
      EmptySweep(View(), cutoff);
      for i := 0 to |listing|
        invariant View() == RunAll(old(View()), Sweep(old(View()), listing[..i], cutoff))
        invariant |objects| + dropped == |old(objects)|
      {
        SweepNext(old(View()), listing, i, cutoff);
        if listing[i] in objects && objects[listing[i]].modified <= cutoff {
          if !Claimed(View(), listing[i]) {
            DroppedCount(objects, listing[i]);
            Del(listing[i]);
            dropped := dropped + 1;
          }
        }
      }
      assert listing[..|listing|] == listing;
    }

    /** Purges the orphans, then sweeps the objects no row claims; counts the rows and the objects. */
    method RunGc(orphans: seq<Id>, listing: seq<Key>, cutoff: int) returns (rowCount: nat, objectCount: nat)
      requires Sound(View()) && Listed(View(), Collect(orphans, listing, cutoff))
      modifies this`rows, this`objects
      ensures View() == RunAll(old(View()), Script(old(View()), Collect(orphans, listing, cutoff)))
      ensures rowCount == |orphans| && |objects| + objectCount == |old(objects)|
      ensures Sound(View())
      ensures forall key <- objects :: objects[key].modified <= cutoff ==> Claimed(View(), key)
      ensures forall id <- old(rows) ::
        id in rows <==> InUse(old(View()), id) || old(rows)[id].created >= cutoff || Pinned(old(View()), id)
      ensures forall id <- rows ::
        && id in old(rows) && rows[id] == old(rows)[id]
        && rows[id].key in old(objects) && rows[id].key in objects && objects[rows[id].key] == old(objects)[rows[id].key]
    {
      hide RunAll, Purge, Sweep, Script, Listed, InUse, Pinned, Claimed;
      ghost var start := View();
      CollectIsExact(start, Collect(orphans, listing, cutoff));
      EmptyFirst(start, Collect(orphans, listing, cutoff));
      rowCount := |orphans|;
      objectCount := PurgeFiles(orphans);
      Joined(start, Purge(start, orphans), Sweep(View(), listing, cutoff));
      var swept := SweepObjects(listing, cutoff);
      objectCount := objectCount + swept;
    }
  }

  lemma DroppedCount(objects: map<Key, Object>, key: Key)
    requires key in objects
    ensures |objects - {key}| + 1 == |objects|
  {
    var rest := objects - {key};
    assert objects.Keys == rest.Keys + {key};
    assert |objects| == |objects.Keys| && |rest| == |rest.Keys|;
  }

  /** In a sound world a purge deletes an object that is there. */
  lemma ObjectsCounted(w: World, id: Id)
    requires Sound(w)
    ensures |PurgedOne(w, id).objects| + (if id in w.rows && !Pinned(w, id) && !SharedKey(w, id) then 1 else 0) == |w.objects|
  {
    hide Pinned, SharedKey;
    if id in w.rows { DroppedCount(w.objects, w.rows[id].key); }
  }

  lemma PurgeNext(w: World, ids: seq<Id>, i: nat)
    requires i < |ids|
    ensures RunAll(w, Purge(w, ids[i..])) == RunAll(RunAll(w, PurgeOne(w, ids[i])), Purge(RunAll(w, PurgeOne(w, ids[i])), ids[i+1..]))
  {
    hide PurgeOne, RunAll;
    assert ids[i..][1..] == ids[i+1..];
    Joined(w, PurgeOne(w, ids[i]), Purge(RunAll(w, PurgeOne(w, ids[i])), ids[i+1..]));
  }

  lemma EmptyPurge(w: World)
    ensures RunAll(w, Purge(w, [])) == w
  {
  }

  lemma DeletedIsPurged(w: World, id: Id)
    ensures id in w.rows && !Pinned(w, id) && !SharedKey(w, id) ==>
              Do(Do(w, DropRow(id)), DropObject(w.rows[id].key)) == PurgedOne(w, id)
    ensures id in w.rows && !Pinned(w, id) && SharedKey(w, id) ==> Do(w, DropRow(id)) == PurgedOne(w, id)
    ensures id !in w.rows || Pinned(w, id) ==> w == PurgedOne(w, id)
  {
  }

  /** An upload writes nothing but its object and its row. */
  lemma OwnWritesOnly(w: World, op: Op)
    requires op.Store?
    ensures Script(w, op) == [PutObject(op.key, Object(op.content, op.now)), InsertRow(op.id, Row(op.key, op.kind, op.owner, op.now))]
  {
  }

  lemma NoFilesPut(w: World, skill: Id, now: int)
    ensures RunAll(w, PutFiles(skill, [], now)) == w
  {
  }

  lemma PutOneMore(w: World, skill: Id, files: seq<File>, i: nat, now: int)
    requires i < |files|
    ensures var f := files[i];
            RunAll(w, PutFiles(skill, files[..i+1], now))
            == Do(Do(RunAll(w, PutFiles(skill, files[..i], now)), PutObject(FileKeyOf(skill, f), Object(f.content, now))),
                  InsertRow(f.id, FileRowOf(skill, f, now)))
  {
    hide RunAll, Do;
    var f := files[i];
    var put, insert := PutObject(FileKeyOf(skill, f), Object(f.content, now)), InsertRow(f.id, FileRowOf(skill, f, now));
    assert files[..i+1][..i] == files[..i];
    Joined(w, PutFiles(skill, files[..i], now), [put, insert]);
    TwoActions(RunAll(w, PutFiles(skill, files[..i], now)), put, insert);
  }

  lemma PublishEnds(w: World, skill: Id, files: seq<File>, now: int)
    requires files != []
    ensures RunAll(w, PublishSkill(skill, files, now))
            == Do(RunAll(w, PutFiles(skill, files, now)), SetSkill(skill, Manifest(Primary(files), FileIds(files))))
  {
    hide PutFiles, Do, Primary, FileIds;
    var set_ := SetSkill(skill, Manifest(Primary(files), FileIds(files)));
    Joined(w, PutFiles(skill, files, now), [set_]);
    var middle := RunAll(w, PutFiles(skill, files, now));
    assert RunAll(middle, [set_]) == RunAll(Do(middle, set_), []);
  }

  ghost predicate SessionIsPinned(w: World, session: Id) { exists id <- SessionRows(w, session) :: Pinned(w, id) }

  /** A deletion in closed form: nothing when a foreign key holds one of the rows. */
  lemma SessionScript(w: World, op: Op)
    requires op.DeleteSession? && WellPosed(w, op)
    ensures var middle := Do(Do(w, DropRows(SessionRows(w, op.session))), DropSession(op.session));
            RunAll(w, Script(w, op)) ==
              if SessionIsPinned(w, op.session) then w else RunAll(middle, DropUnclaimed(middle, op.keys))
  {
    hide Pinned, DropUnclaimed, Claimed, RunAll, Do;
    var drop, end := DropRows(SessionRows(w, op.session)), DropSession(op.session);
    var first := Writes(w, op);
    assert Purge(RunAll(w, first), []) == [] && first + [] == first;
    if SessionIsPinned(w, op.session) {
      NoWrites(w);
      SessionKeysAreClaimed(w, op);
    } else {
      TwoActions(w, drop, end);
      var middle := Do(Do(w, drop), end);
      Joined(w, first, DropUnclaimed(middle, op.keys));
    }
  }

  lemma NoWrites(w: World)
    ensures RunAll(w, []) == w
  {
  }

  lemma SessionKeysAreClaimed(w: World, op: Op)
    requires op.DeleteSession? && WellPosed(w, op)
    ensures DropUnclaimed(w, op.keys) == []
  {
    forall key <- op.keys ensures Claimed(w, key) {
      var id :| id in SessionRows(w, op.session) && w.rows[id].key == key;
      RowClaims(w, id);
    }
    hide Claimed, WellPosed;
    AllClaimed(w, op.keys);
  }

  lemma {:induction false} AllClaimed(w: World, keys: seq<Key>)
    requires forall key <- keys :: Claimed(w, key)
    ensures DropUnclaimed(w, keys) == []
  {
    hide Claimed;
    if keys != [] {
      assert keys[|keys|-1] in keys;
      AllClaimed(w, keys[..|keys|-1]);
    }
  }

  lemma DropNext(w: World, keys: seq<Key>, i: nat)
    requires i < |keys|
    ensures var before := RunAll(w, DropUnclaimed(w, keys[..i]));
            before.rows == w.rows
            && (RunAll(w, DropUnclaimed(w, keys[..i+1]))
                == if Claimed(before, keys[i]) then before else Do(before, DropObject(keys[i])))
  {
    hide RunAll, Claimed;
    var key := keys[i];
    var before := RunAll(w, DropUnclaimed(w, keys[..i]));
    assert keys[..i+1][..i] == keys[..i];
    DropUnclaimedIsUnclaimed(w, keys[..i]);
    UnclaimedDropsAreSafe(w, DropUnclaimed(w, keys[..i]));
    SweepLeavesClaims(w, before, key);
    var more := if Claimed(w, key) then [] else [DropObject(key)];
    assert DropUnclaimed(w, keys[..i+1]) == DropUnclaimed(w, keys[..i]) + more;
    Joined(w, DropUnclaimed(w, keys[..i]), more);
    OneDrop(before, key);
  }

  lemma NothingDropped(w: World)
    ensures RunAll(w, DropUnclaimed(w, [])) == w
  {
  }

  lemma EmptySweep(w: World, cutoff: int)
    ensures RunAll(w, Sweep(w, [], cutoff)) == w
  {
  }

  lemma SweepNext(w: World, listing: seq<Key>, i: nat, cutoff: int)
    requires i < |listing|
    ensures var before := RunAll(w, Sweep(w, listing[..i], cutoff));
            && before.rows == w.rows
            && RunAll(w, Sweep(w, listing[..i+1], cutoff))
               == if Stale(before, listing[i], cutoff) then Do(before, DropObject(listing[i])) else before
  {
    hide RunAll, Claimed;
    var key := listing[i];
    var before := RunAll(w, Sweep(w, listing[..i], cutoff));
    assert listing[..i+1][..i] == listing[..i];
    SweepIsUnclaimed(w, listing[..i], cutoff);
    UnclaimedDropsAreSafe(w, Sweep(w, listing[..i], cutoff));
    SweepLeavesClaims(w, before, key);
    var more := if Stale(w, key, cutoff) then [DropObject(key)] else [];
    assert Sweep(w, listing[..i+1], cutoff) == Sweep(w, listing[..i], cutoff) + more;
    Joined(w, Sweep(w, listing[..i], cutoff), more);
    OneDrop(before, key);
    assert key !in before.objects ==> before.objects - {key} == before.objects;
  }

  lemma OneDrop(w: World, key: Key)
    ensures RunAll(w, [DropObject(key)]) == Do(w, DropObject(key)) && RunAll(w, []) == w
  {
    assert RunAll(w, [DropObject(key)]) == RunAll(Do(w, DropObject(key)), []);
  }

  lemma SweepLeavesClaims(w: World, before: World, key: Key)
    requires before == w.(objects := before.objects)
    ensures Claimed(before, key) <==> Claimed(w, key)
  {
  }
}
