/** What the file operations leave when they run to their end, said of the tables and the store alone. */
module FileEffects {
  import opened Wrappers
  import opened Sessions
  import opened FileRows
  import FileStore

  /** The rows of `ids` are gone unless a foreign key still holds them, each object with the last row that
      had its key; every other row and object is as it was. */
  ghost predicate RowsGone(w: World, after: World, ids: set<Id>) {
    && (forall id <- w.rows :: id in after.rows <==> id !in ids || HeldByKey(after, id))
    && (forall id <- after.rows :: id in w.rows && after.rows[id] == w.rows[id])
    && (forall key <- w.objects :: key in after.objects <==> HasRow(after, key) || !HasRow(w, key))
    && (forall key <- after.objects :: key in w.objects && after.objects[key] == w.objects[key])
  }

  /** An entry or a skill's main file refers to the row. */
  predicate HeldByKey(w: World, id: Id) {
    (exists slot <- w.entries :: w.entries[slot] == id) || (exists skill <- w.skills :: w.skills[skill].primary == id)
  }

  predicate HasRow(w: World, key: Key) { exists id <- w.rows :: w.rows[id].key == key }

  lemma PurgedRowsAreGone(w: World, after: World, ids: set<Id>)
    requires Purged(w, after, ids)
    ensures RowsGone(w, after, ids) && after.entries == w.entries && after.skills == w.skills && after.checkpoints == w.checkpoints
  {
    forall key ensures Claimed(after, key) <==> HasRow(after, key) {}
    forall key ensures Claimed(w, key) <==> HasRow(w, key) {}
    forall id ensures Pinned(w, id) <==> HeldByKey(after, id) { SameHolders(w, after, id); }
    hide Claimed, HasRow, Pinned, HeldByKey;
  }

  lemma SameHolders(w: World, after: World, id: Id)
    requires after.entries == w.entries && after.skills == w.skills
    ensures Pinned(w, id) <==> HeldByKey(after, id)
  {
  }

  /** An operation that ends in a purge: its writes, and then the rows to purge gone. */
  lemma WritesThenPurge(w: World, op: Op)
    requires Sound(w) && WellPosed(w, op) && !op.DeleteSession? && !op.Collect?
    ensures var middle, after := RunAll(w, Writes(w, op)), RunAll(w, Script(w, op));
            && RowsGone(middle, after, SetOf(ToPurge(w, op)))
            && after.entries == middle.entries && after.skills == middle.skills && after.checkpoints == middle.checkpoints
            && Sound(after)
  {
    hide Writes, ToPurge, Purge, RunAll, Sound, AllSafe, Purged, RowsGone;
    var first := Writes(w, op);
    var middle := RunAll(w, first);
    WritesAreSafe(w, op);
    CrashAnywhereIsSound(w, first, |first|);
    assert first[..|first|] == first;
    PurgePurges(middle, ToPurge(w, op));
    Joined(w, first, Purge(middle, ToPurge(w, op)));
    assert first + Purge(middle, ToPurge(w, op)) + [] == first + Purge(middle, ToPurge(w, op));
    PurgedRowsAreGone(middle, RunAll(middle, Purge(middle, ToPurge(w, op))), SetOf(ToPurge(w, op)));
  }

  // ---------------------------------------------------------------------------------------
  // Entries

  /** Saving an entry points it at the new file, which holds the content; the file it held before goes
      unless something else holds it, and its object stays, being the new one's. */
  lemma EntrySaved(w: World, op: Op)
    requires Sound(w) && op.SaveEntry? && op.id !in w.rows
    ensures var after := RunAll(w, Script(w, op));
      && after.entries == w.entries[op.slot := op.id] && after.skills == w.skills && after.checkpoints == w.checkpoints
      && op.id in after.rows && after.rows[op.id].key == EntryKey(op.slot)
      && after.rows[op.id].kind == (if op.slot.MemorySlot? then Memory else Wiki)
      && EntryKey(op.slot) in after.objects && after.objects[EntryKey(op.slot)] == Object(op.content, op.now)
      && (forall id <- w.rows :: id in after.rows <==> !(op.slot in w.entries && w.entries[op.slot] == id) || HeldByKey(after, id))
      && (forall id <- after.rows :: id == op.id || (id in w.rows && after.rows[id] == w.rows[id]))
  {
    hide RunAll, Script, Sound, Do;
    WritesThenPurge(w, op);
    EntryWrites(w, op);
    var middle, after := RunAll(w, Writes(w, op)), RunAll(w, Script(w, op));
    EntryMiddle(w, op, middle);
    EntryAfter(w, op, middle, after);
  }

  lemma EntryWrites(w: World, op: Op)
    requires op.SaveEntry?
    ensures var key := EntryKey(op.slot);
      RunAll(w, Writes(w, op)) == Do(Do(Do(w, PutObject(key, Object(op.content, op.now))), InsertRow(op.id, Row(key, EntryKind(op.slot), None, op.now))),
                                     SetEntry(op.slot, op.id))
  {
    hide Do, RunAll;
    var key := EntryKey(op.slot);
    var put, insert, point := PutObject(key, Object(op.content, op.now)), InsertRow(op.id, Row(key, EntryKind(op.slot), None, op.now)), SetEntry(op.slot, op.id);
    assert Writes(w, op) == [put, insert] + [point];
    Joined(w, [put, insert], [point]);
    TwoActions(w, put, insert);
    OneAction(Do(Do(w, put), insert), point);
  }

  lemma EntryMiddle(w: World, op: Op, middle: World)
    requires op.SaveEntry? && op.id !in w.rows
    requires var key := EntryKey(op.slot);
      middle == Do(Do(Do(w, PutObject(key, Object(op.content, op.now))), InsertRow(op.id, Row(key, EntryKind(op.slot), None, op.now))),
                   SetEntry(op.slot, op.id))
    ensures middle.entries == w.entries[op.slot := op.id] && middle.skills == w.skills && middle.checkpoints == w.checkpoints
    ensures middle.rows == w.rows[op.id := Row(EntryKey(op.slot), EntryKind(op.slot), None, op.now)]
    ensures middle.objects == w.objects[EntryKey(op.slot) := Object(op.content, op.now)]
    ensures HeldByKey(middle, op.id)
  {
    assert middle.entries[op.slot] == op.id;
  }

  lemma EntryAfter(w: World, op: Op, middle: World, after: World)
    requires op.SaveEntry? && op.id !in w.rows && RowsGone(middle, after, SetOf(ToPurge(w, op)))
    requires after.entries == middle.entries && after.skills == middle.skills
    requires middle.entries == w.entries[op.slot := op.id]
    requires middle.rows == w.rows[op.id := Row(EntryKey(op.slot), EntryKind(op.slot), None, op.now)]
    requires middle.objects == w.objects[EntryKey(op.slot) := Object(op.content, op.now)]
    ensures op.id in after.rows && after.rows[op.id] == middle.rows[op.id]
    ensures EntryKey(op.slot) in after.objects && after.objects[EntryKey(op.slot)] == Object(op.content, op.now)
    ensures forall id <- w.rows :: id in after.rows <==> !(op.slot in w.entries && w.entries[op.slot] == id) || HeldByKey(after, id)
    ensures forall id <- after.rows :: id == op.id || (id in w.rows && after.rows[id] == w.rows[id])
  {
    assert after.entries[op.slot] == op.id;
    assert HeldByKey(after, op.id);
    assert HasRow(after, EntryKey(op.slot));
  }

  /** Removing an entry takes its file along, unless something else holds it. */
  lemma EntryRemoved(w: World, op: Op)
    requires Sound(w) && op.RemoveEntry?
    ensures var after := RunAll(w, Script(w, op));
      && after.entries == w.entries - {op.slot} && after.skills == w.skills && after.checkpoints == w.checkpoints
      && RowsGone(w.(entries := w.entries - {op.slot}), after, if op.slot in w.entries then {w.entries[op.slot]} else {})
  {
    hide RunAll, Script, Sound, RowsGone;
    WritesThenPurge(w, op);
    OneAction(w, DropEntry(op.slot));
    SetOfHeld(w, op.slot);
  }

  lemma SetOfHeld(w: World, slot: Slot)
    ensures SetOf(Held(w, slot)) == if slot in w.entries then {w.entries[slot]} else {}
  {
  }

  // ---------------------------------------------------------------------------------------
  // Checkpoints

  /** A session's new checkpoint is stored, and the one it replaces, a different file, goes. */
  lemma CheckpointMoved(w: World, op: Op)
    requires Sound(w) && op.MoveCheckpoint?
    ensures var after := RunAll(w, Script(w, op));
      && after.entries == w.entries && after.skills == w.skills
      && after.checkpoints == (if op.session in w.checkpoints then w.checkpoints[op.session := Some(op.file)] else w.checkpoints)
      && RowsGone(w.(checkpoints := after.checkpoints), after,
                  set id | id in w.rows && id != op.file && op.session in w.checkpoints && w.checkpoints[op.session] == Some(id))
  {
    hide RunAll, Script, Sound, RowsGone;
    WritesThenPurge(w, op);
    OneAction(w, SetCheckpoint(op.session, op.file));
    OnlyRowsGo(RunAll(w, Writes(w, op)), RunAll(w, Script(w, op)), SetOf(ToPurge(w, op)),
               set id | id in w.rows && id != op.file && op.session in w.checkpoints && w.checkpoints[op.session] == Some(id));
  }

  lemma OnlyRowsGo(w: World, after: World, ids: set<Id>, ids': set<Id>)
    requires RowsGone(w, after, ids) && forall id <- w.rows :: id in ids <==> id in ids'
    ensures RowsGone(w, after, ids')
  {
    hide HeldByKey, HasRow;
  }

  // ---------------------------------------------------------------------------------------
  // Sessions

  /** The files a session takes along when it is deleted: its own, but not what it wrote to a memory or
      a wiki. */
  ghost function OwnFiles(w: World, session: Id): set<Id> {
    set id | id in w.rows && w.rows[id].session == Some(session) && w.rows[id].kind in {Upload, Output, Checkpoint, Skill}
  }

  lemma OwnFilesAre(w: World, session: Id)
    ensures OwnFiles(w, session) == SessionRows(w, session)
    ensures SessionIsHeld(w, session) <==> exists id <- SessionRows(w, session) :: Pinned(w, id)
  {
    forall id ensures Pinned(w, id) <==> HeldByKey(w, id) {}
    hide Pinned, HeldByKey;
    assert OwnFiles(w, session) == SessionRows(w, session);
  }

  ghost predicate SessionIsHeld(w: World, session: Id) { exists id <- OwnFiles(w, session) :: HeldByKey(w, id) }

  /** The session and its own files are gone, what it wrote elsewhere stays without an owner, and an
      object of its files stays exactly when another row has its key. */
  ghost predicate SessionGone(w: World, after: World, session: Id) {
    && after.entries == w.entries && after.skills == w.skills && after.checkpoints == w.checkpoints - {session}
    && after.rows.Keys == w.rows.Keys - OwnFiles(w, session)
    && (forall id <- after.rows ::
          after.rows[id] == if w.rows[id].session == Some(session) then w.rows[id].(session := None) else w.rows[id])
    && (forall key <- after.objects :: key in w.objects && after.objects[key] == w.objects[key])
    && (forall key <- w.objects :: key in after.objects <==> HasRow(after, key) || !exists id <- OwnFiles(w, session) :: w.rows[id].key == key)
  }

  /** Deleting a session takes it and its own files, or nothing when a foreign key holds one of them. */
  lemma SessionDeleted(w: World, op: Op)
    requires op.DeleteSession? && WellPosed(w, op)
    ensures var after := RunAll(w, Script(w, op));
      if SessionIsHeld(w, op.session) then after == w else SessionGone(w, after, op.session)
  {
    hide RunAll, Script, SessionRows, Pinned, HeldByKey, DropUnclaimed, SessionGone, WellPosed, Do;
    OwnFilesAre(w, op.session);
    FileStore.SessionScript(w, op);
    if !SessionIsHeld(w, op.session) {
      var middle := Do(Do(w, DropRows(OwnFiles(w, op.session))), DropSession(op.session));
      DropsUnclaimed(middle, op.keys);
      KeysOfSession(w, op);
      SessionMiddle(w, op, middle, RunAll(middle, DropUnclaimed(middle, op.keys)));
    }
  }

  lemma KeysOfSession(w: World, op: Op)
    requires op.DeleteSession? && WellPosed(w, op)
    ensures forall key :: key in op.keys <==> exists id <- OwnFiles(w, op.session) :: w.rows[id].key == key
  {
    OwnFilesAre(w, op.session);
  }

  /** What dropping the unclaimed of some keys leaves. */
  lemma {:induction false} DropsUnclaimed(w: World, keys: seq<Key>)
    ensures var after := RunAll(w, DropUnclaimed(w, keys));
      && after == w.(objects := after.objects)
      && forall key :: key in after.objects <==> key in w.objects && (key !in keys || HasRow(w, key))
    ensures forall key <- RunAll(w, DropUnclaimed(w, keys)).objects :: RunAll(w, DropUnclaimed(w, keys)).objects[key] == w.objects[key]
  {
    hide RunAll, Claimed, HasRow;
    if keys == [] {
      FileStore.NoWrites(w);
    } else {
      var rest, key := keys[..|keys|-1], keys[|keys|-1];
      DropsUnclaimed(w, rest);
      RowOrClaim(w, key);
      assert keys == rest + [key];
      var more := if Claimed(w, key) then [] else [DropObject(key)];
      Joined(w, DropUnclaimed(w, rest), more);
      FileStore.NoWrites(RunAll(w, DropUnclaimed(w, rest)));
      OneAction(RunAll(w, DropUnclaimed(w, rest)), DropObject(key));
    }
  }

  lemma RowOrClaim(w: World, key: Key)
    ensures Claimed(w, key) <==> HasRow(w, key)
  {
  }

  lemma SessionMiddle(w: World, op: Op, middle: World, after: World)
    requires op.DeleteSession? && middle == Do(Do(w, DropRows(OwnFiles(w, op.session))), DropSession(op.session))
    requires after == middle.(objects := after.objects)
    requires forall key :: key in after.objects <==> key in middle.objects && (key !in op.keys || HasRow(middle, key))
    requires forall key <- after.objects :: after.objects[key] == middle.objects[key]
    requires forall key :: key in op.keys <==> exists id <- OwnFiles(w, op.session) :: w.rows[id].key == key
    ensures SessionGone(w, after, op.session)
  {
    forall key ensures HasRow(after, key) <==> HasRow(middle, key) {}
    hide HasRow, OwnFiles;
  }

  // ---------------------------------------------------------------------------------------
  // Skills and single files

  /** Deleting a skill takes all its files along. */
  lemma SkillDeleted(w: World, op: Op)
    requires Sound(w) && op.DeleteSkill?
    ensures var after := RunAll(w, Script(w, op));
      && after.entries == w.entries && after.skills == w.skills - {op.skill} && after.checkpoints == w.checkpoints
      && RowsGone(w.(skills := w.skills - {op.skill}), after,
                  set id | id in w.rows && op.skill in w.skills && (id == w.skills[op.skill].primary || id in w.skills[op.skill].files))
  {
    hide RunAll, Script, Sound, RowsGone;
    WritesThenPurge(w, op);
    OneAction(w, DropSkill(op.skill));
    OnlyRowsGo(RunAll(w, Writes(w, op)), RunAll(w, Script(w, op)), SetOf(ToPurge(w, op)),
               set id | id in w.rows && op.skill in w.skills && (id == w.skills[op.skill].primary || id in w.skills[op.skill].files));
  }

  /** Deleting a file takes its row unless a foreign key holds it, and its object with its last row. */
  lemma FileDeleted(w: World, op: Op)
    requires Sound(w) && op.DeleteFile?
    ensures var after := RunAll(w, Script(w, op));
      && after.entries == w.entries && after.skills == w.skills && after.checkpoints == w.checkpoints
      && RowsGone(w, after, {op.id})
  {
    hide RunAll, Sound, RowsGone;
    WritesThenPurge(w, op);
    FileStore.NoWrites(w);
    assert SetOf([op.id]) == {op.id};
  }

  /** The path is SKILL.md, whatever the case of its letters. */
  predicate IsManifest(path: string) {
    var name := "skill.md";
    |path| == |name| && forall i :: 0 <= i < |path| ==>
      path[i] == name[i] || ('A' <= path[i] <= 'Z' && path[i] as int + 32 == name[i] as int)
  }

  lemma ManifestIs(f: File)
    ensures IsSkillMd(f) <==> IsManifest(f.path)
  {
    var name, lower := "skill.md", Lower(f.path);
    assert lower == name <==> |lower| == |name| && forall i :: 0 <= i < |name| ==> lower[i] == name[i];
  }

  /** The main file of a package is its first SKILL.md, or its first file when there is none. */
  lemma {:induction false} MainFile(files: seq<File>) returns (k: nat)
    requires files != []
    ensures k < |files| && Primary(files) == files[k].id
    ensures (exists f <- files :: IsManifest(f.path)) ==> IsManifest(files[k].path) && forall j :: 0 <= j < k ==> !IsManifest(files[j].path)
    ensures !(exists f <- files :: IsManifest(f.path)) ==> k == 0
  {
    hide IsSkillMd, IsManifest;
    forall f ensures IsSkillMd(f) <==> IsManifest(f.path) { ManifestIs(f); }
    if exists f <- files :: IsSkillMd(f) {
      k := FirstManifest(files);
    } else {
      k := 0;
    }
  }

  lemma {:induction false} FirstManifest(files: seq<File>) returns (k: nat)
    requires exists f <- files :: IsSkillMd(f)
    ensures k < |files| && FirstPrimary(files) == files[k].id && IsSkillMd(files[k]) && forall j :: 0 <= j < k ==> !IsSkillMd(files[j])
  {
    hide IsSkillMd;
    if IsSkillMd(files[0]) {
      k := 0;
    } else {
      assert files == [files[0]] + files[1..];
      var k' := FirstManifest(files[1..]);
      k := k' + 1;
      assert forall j :: 0 < j < k ==> files[j] == files[1..][j-1];
    }
  }
}
