/** File rows against stored objects: the shared-key delete rule of control-plane/src/repo.ts, the
    routes that put, replace and delete files (agents-api.ts, skill-upload.ts, session-delete.ts), and
    garbage collection (maintenance.ts).  Every operation is a script of writes, so that a crash is a
    prefix of it. */
module FileRows {
  import opened Wrappers
  import opened Sessions

  datatype Kind = Upload | Output | Checkpoint | Skill | Memory | Wiki
  datatype Slot = MemorySlot(store: Id, path: string) | WikiSlot(wiki: Id, path: string)
  datatype Key = FileKey(id: Id) | CheckpointKey(session: Id, id: Id) | SkillKey(skill: Id, path: string) | EntryKey(slot: Slot)

  datatype Row = Row(key: Key, kind: Kind, session: Option<Id>, created: int)
  datatype Object = Object(content: string, modified: int)

  /** A skill's SKILL.md file and all its files. */
  datatype Manifest = Manifest(primary: Id, files: seq<Id>)

  datatype World = World(
    rows: map<Id, Row>,
    objects: map<Key, Object>,
    checkpoints: map<Id, Option<Id>>,
    skills: map<Id, Manifest>,
    entries: map<Slot, Id>)

  /** A row that a foreign key keeps from being deleted. */
  predicate Pinned(w: World, id: Id) {
    (exists slot <- w.entries :: w.entries[slot] == id) || (exists s <- w.skills :: w.skills[s].primary == id)
  }

  predicate Claimed(w: World, key: Key) { exists id <- w.rows :: w.rows[id].key == key }

  predicate SharedKey(w: World, id: Id)
    requires id in w.rows
  {
    exists other <- w.rows :: other != id && w.rows[other].key == w.rows[id].key
  }

  /** No file row dangles, and neither does any foreign key to one. */
  ghost predicate Sound(w: World) {
    && (forall id <- w.rows :: w.rows[id].key in w.objects)
    && (forall slot <- w.entries :: w.entries[slot] in w.rows)
    && (forall s <- w.skills :: w.skills[s].primary in w.rows)
  }

  // ---------------------------------------------------------------------------------------
  // Single writes

  datatype Action =
    | PutObject(key: Key, object_: Object)
    | InsertRow(id: Id, row: Row)
    | DropRow(id: Id)
    | DropRows(ids: set<Id>)
    | DropObject(key: Key)
    | AddSession(session: Id)
    | SetCheckpoint(session: Id, file: Id)
    | DropSession(session: Id)
    | SetSkill(skill: Id, manifest: Manifest)
    | DropSkill(skill: Id)
    | SetEntry(slot: Slot, id: Id)
    | DropEntry(slot: Slot)
    | DropEntries(slots: set<Slot>)

  function Detached(rows: map<Id, Row>, session: Id): (out: map<Id, Row>)
    ensures out.Keys == rows.Keys && forall id <- rows :: out[id].key == rows[id].key
  {
    map id | id in rows :: if rows[id].session == Some(session) then rows[id].(session := None) else rows[id]
  }

  function Do(w: World, a: Action): World {
    match a
    case PutObject(key, o) => w.(objects := w.objects[key := o])
    case InsertRow(id, row) => w.(rows := w.rows[id := row])
    case DropRow(id) => w.(rows := w.rows - {id})
    case DropRows(ids) => w.(rows := w.rows - ids)
    case DropObject(key) => w.(objects := w.objects - {key})
    case AddSession(session) => w.(checkpoints := w.checkpoints[session := None])
    case SetCheckpoint(session, file) =>
      if session in w.checkpoints then w.(checkpoints := w.checkpoints[session := Some(file)]) else w
    case DropSession(session) => w.(checkpoints := w.checkpoints - {session}, rows := Detached(w.rows, session))
    case SetSkill(skill, manifest) => w.(skills := w.skills[skill := manifest])
    case DropSkill(skill) => w.(skills := w.skills - {skill})
    case SetEntry(slot, id) => w.(entries := w.entries[slot := id])
    case DropEntry(slot) => w.(entries := w.entries - {slot})
    case DropEntries(slots) => w.(entries := w.entries - slots)
  }

  /** What makes a write keep the world sound. */
  ghost predicate Safe(w: World, a: Action) {
    match a
    case InsertRow(id, row) => id !in w.rows && row.key in w.objects
    case DropRow(id) => !Pinned(w, id)
    case DropRows(ids) => forall id <- ids :: !Pinned(w, id)
    case DropObject(key) => !Claimed(w, key)
    case SetSkill(_, manifest) => manifest.primary in w.rows
    case SetEntry(_, id) => id in w.rows
    case _ => true
  }

  lemma SafeKeepsSound(w: World, a: Action)
    requires Sound(w) && Safe(w, a)
    ensures Sound(Do(w, a))
  {
  }

  // ---------------------------------------------------------------------------------------
  // Scripts

  function RunAll(w: World, script: seq<Action>): World
    decreases |script|
  {
    if script == [] then w else RunAll(Do(w, script[0]), script[1..])
  }

  ghost predicate AllSafe(w: World, script: seq<Action>)
    decreases |script|
  {
    script == [] || (Safe(w, script[0]) && AllSafe(Do(w, script[0]), script[1..]))
  }

  lemma {:induction false} Joined(w: World, a: seq<Action>, b: seq<Action>)
    ensures RunAll(w, a + b) == RunAll(RunAll(w, a), b)
    ensures AllSafe(w, a + b) <==> AllSafe(w, a) && AllSafe(RunAll(w, a), b)
    decreases |a|
  {
    hide Do, Safe;
    if a == [] {
      assert a + b == b;
    } else {
      assert (a + b)[0] == a[0] && (a + b)[1..] == a[1..] + b;
      Joined(Do(w, a[0]), a[1..], b);
    }
  }

  /** A crash after any number of a safe script's writes leaves a sound world. */
  lemma {:induction false} CrashAnywhereIsSound(w: World, script: seq<Action>, cut: nat)
    requires Sound(w) && AllSafe(w, script) && cut <= |script|
    ensures Sound(RunAll(w, script[..cut]))
    decreases |script|
  {
    hide Do, Safe, Sound;
    if cut > 0 {
      SafeKeepsSound(w, script[0]);
      assert script[..cut][1..] == script[1..][..cut-1];
      CrashAnywhereIsSound(Do(w, script[0]), script[1..], cut - 1);
    }
  }

  // ---------------------------------------------------------------------------------------
  // The operations

  /** Delete a row; the object goes too when no other row has its key. */
  ghost function PurgeOne(w: World, id: Id): seq<Action> {
    if id !in w.rows || Pinned(w, id) then []
    else [DropRow(id)] + if SharedKey(w, id) then [] else [DropObject(w.rows[id].key)]
  }

  ghost function Purge(w: World, ids: seq<Id>): seq<Action>
    decreases |ids|
  {
    if ids == [] then []
    else PurgeOne(w, ids[0]) + Purge(RunAll(w, PurgeOne(w, ids[0])), ids[1..])
  }

  datatype File = File(path: string, id: Id, content: string)

  function PutFiles(skill: Id, files: seq<File>, now: int): seq<Action> {
    if files == [] then []
    else
      PutFiles(skill, files[..|files|-1], now)
      + var f := files[|files|-1];
        [PutObject(FileKeyOf(skill, f), Object(f.content, now)), InsertRow(f.id, FileRowOf(skill, f, now))]
  }

  function FileIds(files: seq<File>): (ids: seq<Id>)
    ensures |ids| == |files| && forall i :: 0 <= i < |files| ==> ids[i] == files[i].id
  {
    seq(|files|, i requires 0 <= i < |files| => files[i].id)
  }

  function LowerChar(c: char): char {
    if 'A' <= c <= 'Z' then (c as int - 'A' as int + 'a' as int) as char else c
  }

  function Lower(s: string): string { seq(|s|, i requires 0 <= i < |s| => LowerChar(s[i])) }

  predicate IsSkillMd(f: File) { Lower(f.path) == "skill.md" }

  /** The SKILL.md entry, whatever its case, or the first. */
  function Primary(files: seq<File>): Id
    requires files != []
  {
    if exists f <- files :: IsSkillMd(f) then FirstPrimary(files) else files[0].id
  }

  function FirstPrimary(files: seq<File>): Id
    requires exists f <- files :: IsSkillMd(f)
  {
    if IsSkillMd(files[0]) then files[0].id else FirstPrimary(files[1..])
  }

  /** The ids a skill's new version replaces. */
  function Replaced(w: World, skill: Id): seq<Id> {
    if skill in w.skills then w.skills[skill].files + [w.skills[skill].primary] else []
  }

  function PublishSkill(skill: Id, files: seq<File>, now: int): seq<Action>
    requires files != []
  {
    PutFiles(skill, files, now) + [SetSkill(skill, Manifest(Primary(files), FileIds(files)))]
  }

  /** The rows a session's deletion takes along: not memory, not wiki. */
  ghost function SessionRows(w: World, session: Id): set<Id> {
    set id | id in w.rows && w.rows[id].session == Some(session) && w.rows[id].kind != Memory && w.rows[id].kind != Wiki
  }

  ghost function DropUnclaimed(w: World, keys: seq<Key>): seq<Action> {
    if keys == [] then []
    else DropUnclaimed(w, keys[..|keys|-1]) + if Claimed(w, keys[|keys|-1]) then [] else [DropObject(keys[|keys|-1])]
  }

  /** Rows whose owner is gone or that nothing references, created before the cutoff. */
  predicate Orphan(w: World, id: Id, cutoff: int)
    requires id in w.rows
  {
    var row := w.rows[id];
    row.created < cutoff
    && match row.kind
       case Checkpoint =>
         row.session.None? || row.session.value !in w.checkpoints || w.checkpoints[row.session.value] != Some(id)
       case Skill => forall s <- w.skills :: w.skills[s].primary != id && id !in w.skills[s].files
       case Memory => forall slot <- w.entries :: slot.MemorySlot? ==> w.entries[slot] != id
       case Wiki => forall slot <- w.entries :: slot.WikiSlot? ==> w.entries[slot] != id
       case Upload => false
       case Output => false
  }

  /** The objects the second step of a collection deletes, over a listing of the store. */
  ghost function Sweep(w: World, listing: seq<Key>, cutoff: int): seq<Action> {
    if listing == [] then []
    else
      var key := listing[|listing|-1];
      Sweep(w, listing[..|listing|-1], cutoff)
      + if key in w.objects && w.objects[key].modified <= cutoff && !Claimed(w, key) then [DropObject(key)] else []
  }

  /** An entry is pointed at a file. */
  datatype Assignment = Assignment(slot: Slot, id: Id)

  function Assign(assignments: seq<Assignment>): seq<Action> {
    if assignments == [] then []
    else
      var a := assignments[|assignments|-1];
      Assign(assignments[..|assignments|-1]) + [SetEntry(a.slot, a.id)]
  }

  /** ChangeEntries is the write-back callback after its uploads, one upsert after another, and also
      the deletion of a whole memory store or wiki, with nothing but entries to drop. */
  datatype Op =
    | Store(id: Id, key: Key, kind: Kind, owner: Option<Id>, content: string, now: int)
    | SaveEntry(slot: Slot, id: Id, content: string, now: int)
    | RemoveEntry(slot: Slot)
    | ChangeEntries(assignments: seq<Assignment>, dropped: set<Slot>, orphaned: seq<Id>)
    | DeleteFile(id: Id)
    | StoreSkill(skill: Id, files: seq<File>, now: int)
    | DeleteSkill(skill: Id)
    | CreateSession(session: Id)
    | MoveCheckpoint(session: Id, file: Id)
    | DeleteSession(session: Id, keys: seq<Key>)
    | Collect(orphans: seq<Id>, listing: seq<Key>, cutoff: int)

  function EntryKind(slot: Slot): Kind { if slot.MemorySlot? then Memory else Wiki }

  function Held(w: World, slot: Slot): seq<Id> { if slot in w.entries then [w.entries[slot]] else [] }

  function HeldCheckpoint(w: World, session: Id, file: Id): seq<Id> {
    if session in w.checkpoints && w.checkpoints[session].Some? && w.checkpoints[session].value != file
    then [w.checkpoints[session].value] else []
  }

  /** The owner's writes, then the ids to purge. */
  ghost function Writes(w: World, op: Op): seq<Action>
    requires op.StoreSkill? ==> op.files != []
  {
    match op
    case Store(id, key, kind, owner, content, now) =>
      [PutObject(key, Object(content, now)), InsertRow(id, Row(key, kind, owner, now))]
    case SaveEntry(slot, id, content, now) =>
      [PutObject(EntryKey(slot), Object(content, now)), InsertRow(id, Row(EntryKey(slot), EntryKind(slot), None, now)),
       SetEntry(slot, id)]
    case RemoveEntry(slot) => [DropEntry(slot)]
    case ChangeEntries(assignments, dropped, _) => Assign(assignments) + if dropped == {} then [] else [DropEntries(dropped)]
    case DeleteFile(_) => []
    case StoreSkill(skill, files, now) => PublishSkill(skill, files, now)
    case DeleteSkill(skill) => [DropSkill(skill)]
    case CreateSession(session) => [AddSession(session)]
    case MoveCheckpoint(session, file) => [SetCheckpoint(session, file)]
    case DeleteSession(session, _) =>
      if exists id <- SessionRows(w, session) :: Pinned(w, id) then []
      else [DropRows(SessionRows(w, session)), DropSession(session)]
    case Collect(_, _, _) => []
  }

  ghost function ToPurge(w: World, op: Op): seq<Id> {
    match op
    case SaveEntry(slot, _, _, _) => Held(w, slot)
    case RemoveEntry(slot) => Held(w, slot)
    case ChangeEntries(_, _, orphaned) => orphaned
    case DeleteFile(id) => [id]
    case StoreSkill(skill, _, _) => Replaced(w, skill)
    case DeleteSkill(skill) => Replaced(w, skill)
    case MoveCheckpoint(session, file) => HeldCheckpoint(w, session, file)
    case Collect(orphans, _, _) => orphans
    case _ => []
  }

  /** The objects to look at last: of the rows a session took along, or of the whole store. */
  ghost function Trailing(w: World, op: Op): seq<Action> {
    match op
    case DeleteSession(_, keys) => DropUnclaimed(w, keys)
    case Collect(_, listing, cutoff) => Sweep(w, listing, cutoff)
    case _ => []
  }

  ghost function Script(w: World, op: Op): seq<Action>
    requires op.StoreSkill? ==> op.files != []
  {
    var first := Writes(w, op);
    var middle := Purge(RunAll(w, first), ToPurge(w, op));
    first + middle + Trailing(RunAll(w, first + middle), op)
  }

  /** New rows and sessions get new ids; entries are pointed at files that have a row, and the ids to
      purge are some that entries held or came to hold; a deleted session's keys are those of the rows it takes along. */
  ghost predicate WellPosed(w: World, op: Op) {
    match op
    case CreateSession(session) => session !in w.checkpoints
    case ChangeEntries(assignments, _, orphaned) =>
      && (forall a <- assignments :: a.id in w.rows)
      && (forall id <- orphaned :: id in w.entries.Values || exists a <- assignments :: a.id == id)
    case DeleteSession(session, keys) => forall key :: key in keys <==> exists id <- SessionRows(w, session) :: w.rows[id].key == key
    case Store(id, _, _, _, _, _) => id !in w.rows
    case SaveEntry(_, id, _, _) => id !in w.rows
    case StoreSkill(_, files, _) =>
      && files != [] && (forall f <- files :: f.id !in w.rows)
      && (forall i, j :: 0 <= i < j < |files| ==> files[i].id != files[j].id && files[i].path != files[j].path)
    case _ => true
  }

  // ---------------------------------------------------------------------------------------
  // No operation, cut anywhere, leaves a dangling row

  lemma PurgeOneIsSafe(w: World, id: Id)
    ensures AllSafe(w, PurgeOne(w, id))
  {
    if id in w.rows && !Pinned(w, id) {
      var after := Do(w, DropRow(id));
      if !SharedKey(w, id) {
        assert !Claimed(after, w.rows[id].key);
      }
    }
  }

  lemma {:induction false} PurgeIsSafe(w: World, ids: seq<Id>)
    ensures AllSafe(w, Purge(w, ids))
    decreases |ids|
  {
    hide PurgeOne, Safe, Do;
    if ids != [] {
      var one := PurgeOne(w, ids[0]);
      PurgeOneIsSafe(w, ids[0]);
      PurgeIsSafe(RunAll(w, one), ids[1..]);
      Joined(w, one, Purge(RunAll(w, one), ids[1..]));
    }
  }

  function FileKeyOf(skill: Id, f: File): Key { SkillKey(skill, f.path) }
  function FileRowOf(skill: Id, f: File, now: int): Row { Row(SkillKey(skill, f.path), Skill, None, now) }

  /** File `f` has its row and its content. */
  predicate FileIn(w: World, skill: Id, f: File, now: int) {
    && f.id in w.rows && w.rows[f.id] == FileRowOf(skill, f, now)
    && FileKeyOf(skill, f) in w.objects && w.objects[FileKeyOf(skill, f)] == Object(f.content, now)
  }

  /** What putting a package's files adds, and that it adds nothing else. */
  ghost predicate FilesPut(w: World, after: World, skill: Id, files: seq<File>, now: int) {
    && after.entries == w.entries && after.skills == w.skills && after.checkpoints == w.checkpoints
    && (forall f <- files :: FileIn(after, skill, f, now))
    && (forall id <- w.rows :: id in after.rows && after.rows[id] == w.rows[id])
    && (forall id <- after.rows :: id in w.rows || id in FileIds(files))
  }

  predicate FreshFiles(w: World, files: seq<File>) {
    && (forall f <- files :: f.id !in w.rows)
    && (forall i, j :: 0 <= i < j < |files| ==> files[i].id != files[j].id && files[i].path != files[j].path)
  }

  lemma {:induction false} PutFilesPuts(w: World, skill: Id, files: seq<File>, now: int)
    requires FreshFiles(w, files)
    ensures AllSafe(w, PutFiles(skill, files, now))
    ensures FilesPut(w, RunAll(w, PutFiles(skill, files, now)), skill, files, now)
  {
    hide FilesPut, Do, Safe, RunAll, AllSafe;
    if files == [] {
      NothingPut(w, skill, now);
    } else {
      var rest, f := files[..|files|-1], files[|files|-1];
      PutFilesPuts(w, skill, rest, now);
      var before := RunAll(w, PutFiles(skill, rest, now));
      var put, insert := PutObject(FileKeyOf(skill, f), Object(f.content, now)), InsertRow(f.id, FileRowOf(skill, f, now));
      assert files == rest + [f];
      Joined(w, PutFiles(skill, rest, now), [put, insert]);
      TwoActions(before, put, insert);
      AddFile(w, before, skill, rest, f, now);
    }
  }

  lemma NothingPut(w: World, skill: Id, now: int)
    ensures AllSafe(w, []) && FilesPut(w, RunAll(w, []), skill, [], now)
  {
  }

  lemma TwoActions(w: World, a: Action, b: Action)
    ensures RunAll(w, [a, b]) == Do(Do(w, a), b)
    ensures AllSafe(w, [a, b]) <==> Safe(w, a) && Safe(Do(w, a), b)
  {
    hide Do, Safe;
    assert [a, b][0] == a && [a, b][1..] == [b] && [b][0] == b && [b][1..] == [];
    assert RunAll(Do(w, a), [b]) == RunAll(Do(Do(w, a), b), []);
    assert AllSafe(Do(w, a), [b]) <==> Safe(Do(w, a), b) && AllSafe(Do(Do(w, a), b), []);
  }

  lemma FreshAgainst(w: World, rest: seq<File>, f: File)
    requires FreshFiles(w, rest + [f])
    ensures FreshFiles(w, rest) && f.id !in w.rows && f.id !in FileIds(rest)
    ensures forall g <- rest :: g.id != f.id && g.path != f.path
    ensures forall id <- FileIds(rest + [f]) :: id in FileIds(rest) || id == f.id
    ensures forall id <- FileIds(rest) :: id in FileIds(rest + [f])
    ensures f.id in FileIds(rest + [f])
  {
    var files := rest + [f];
    assert f in files && files[|rest|] == f;
    forall g <- rest ensures g.id != f.id && g.path != f.path && g in files {
      var i :| 0 <= i < |rest| && rest[i] == g;
      assert files[i] == g;
    }
    forall id <- FileIds(rest) ensures id != f.id {
      var i :| 0 <= i < |rest| && FileIds(rest)[i] == id;
      assert rest[i] in rest;
    }
    assert FileIds(files) == FileIds(rest) + [f.id];
    forall i, j | 0 <= i < j < |rest| ensures rest[i].id != rest[j].id && rest[i].path != rest[j].path {
      assert files[i] == rest[i] && files[j] == rest[j];
    }
  }

  lemma AddFile(w: World, before: World, skill: Id, rest: seq<File>, f: File, now: int)
    requires FreshFiles(w, rest + [f]) && FilesPut(w, before, skill, rest, now)
    ensures var put, insert := PutObject(FileKeyOf(skill, f), Object(f.content, now)), InsertRow(f.id, FileRowOf(skill, f, now));
            && Safe(before, put) && Safe(Do(before, put), insert)
            && FilesPut(w, Do(Do(before, put), insert), skill, rest + [f], now)
  {
    FreshAgainst(w, rest, f);
    hide FreshFiles, FileIds;
  }

  // ---------------------------------------------------------------------------------------
  // Purging leaves every other row and its object alone

  function SetOf(ids: seq<Id>): set<Id> { set id | id in ids }

  /** Rows outside `ids` and their objects are untouched; owners are too; what is gone is gone whole. */
  ghost predicate Purged(w: World, after: World, ids: set<Id>) {
    && after.entries == w.entries && after.skills == w.skills && after.checkpoints == w.checkpoints
    && (forall id <- after.rows :: id in w.rows && after.rows[id] == w.rows[id])
    && (forall key <- after.objects :: key in w.objects && after.objects[key] == w.objects[key])
    && (forall id <- w.rows :: id in after.rows <==> id !in ids || Pinned(w, id))
    && (forall key <- w.objects :: key in after.objects <==> Claimed(after, key) || !Claimed(w, key))
  }

  /** A purge of one row, in closed form. */
  ghost function PurgedOne(w: World, id: Id): World {
    if id !in w.rows || Pinned(w, id) then w
    else if SharedKey(w, id) then w.(rows := w.rows - {id})
    else w.(rows := w.rows - {id}, objects := w.objects - {w.rows[id].key})
  }

  lemma ClaimedWithout(w: World, after: World, id: Id, key: Key)
    requires id in w.rows && after.rows == w.rows - {id}
    ensures Claimed(after, key) <==> Claimed(w, key) && (key == w.rows[id].key ==> SharedKey(w, id))
  {
    if Claimed(w, key) && (key == w.rows[id].key ==> SharedKey(w, id)) {
      var other :| other in w.rows && other != id && w.rows[other].key == key;
      assert other in after.rows;
    }
  }

  lemma OtherShares(w: World, id: Id, other: Id)
    requires id in w.rows && other in w.rows && other != id && w.rows[other].key == w.rows[id].key
    ensures SharedKey(w, id)
  {
  }

  lemma PurgedOnePurges(w: World, id: Id)
    requires Sound(w)
    ensures Sound(PurgedOne(w, id)) && Purged(w, PurgedOne(w, id), {id})
  {
    hide Claimed, SharedKey;
    if id in w.rows && !Pinned(w, id) {
      forall key ensures Claimed(PurgedOne(w, id), key) <==> Claimed(w, key) && (key == w.rows[id].key ==> SharedKey(w, id)) {
        ClaimedWithout(w, PurgedOne(w, id), id, key);
      }
      forall other <- w.rows ensures Claimed(w, w.rows[other].key) { RowClaims(w, other); }
      forall other <- w.rows | other != id && w.rows[other].key == w.rows[id].key ensures SharedKey(w, id) {
        OtherShares(w, id, other);
      }
    }
  }

  lemma PurgeOneWorld(w: World, id: Id)
    ensures RunAll(w, PurgeOne(w, id)) == PurgedOne(w, id)
  {
    hide Pinned, SharedKey;
    if id in w.rows && !Pinned(w, id) {
      TwoActions(w, DropRow(id), DropObject(w.rows[id].key));
      assert [DropRow(id)] + [] == [DropRow(id)];
      assert [DropRow(id)] + [DropObject(w.rows[id].key)] == [DropRow(id), DropObject(w.rows[id].key)];
      assert RunAll(w, [DropRow(id)]) == RunAll(Do(w, DropRow(id)), []);
    }
  }

  lemma PurgedClaims(w: World, after: World, ids: set<Id>, key: Key)
    requires Purged(w, after, ids) && Claimed(after, key)
    ensures Claimed(w, key)
  {
    var i :| i in after.rows && after.rows[i].key == key;
    assert i in w.rows;
  }

  lemma PurgedTwice(w: World, middle: World, after: World, ids: set<Id>, id: Id)
    requires Purged(w, middle, {id}) && Purged(middle, after, ids)
    ensures Purged(w, after, ids + {id})
  {
    forall key | key in w.objects ensures key in after.objects <==> Claimed(after, key) || !Claimed(w, key) {
      if Claimed(after, key) { PurgedClaims(middle, after, ids, key); }
      if Claimed(middle, key) { PurgedClaims(w, middle, {id}, key); }
    }
    hide Claimed;
  }

  lemma {:induction false} PurgePurges(w: World, ids: seq<Id>)
    requires Sound(w)
    ensures Sound(RunAll(w, Purge(w, ids))) && Purged(w, RunAll(w, Purge(w, ids)), SetOf(ids))
    decreases |ids|
  {
    hide Purged, Sound, PurgeOne, PurgedOne, RunAll;
    if ids == [] {
      assert SetOf(ids) == {};
      NothingPurged(w);
    } else {
      var one := PurgeOne(w, ids[0]);
      var middle := RunAll(w, one);
      PurgeOneWorld(w, ids[0]);
      PurgedOnePurges(w, ids[0]);
      PurgePurges(middle, ids[1..]);
      Joined(w, one, Purge(middle, ids[1..]));
      PurgedTwice(w, middle, RunAll(middle, Purge(middle, ids[1..])), SetOf(ids[1..]), ids[0]);
      assert SetOf(ids[1..]) + {ids[0]} == SetOf(ids);
    }
  }

  lemma NothingPurged(w: World)
    ensures RunAll(w, []) == w && Purged(w, w, {})
  {
  }

  // ---------------------------------------------------------------------------------------
  // Deleting unclaimed objects

  ghost predicate OnlyUnclaimed(w: World, script: seq<Action>) {
    forall a <- script :: a.DropObject? && !Claimed(w, a.key)
  }

  function DroppedKeys(script: seq<Action>): set<Key> { set a | a in script && a.DropObject? :: a.key }

  lemma {:induction false} UnclaimedDropsAreSafe(w: World, script: seq<Action>)
    requires OnlyUnclaimed(w, script)
    ensures AllSafe(w, script) && RunAll(w, script) == w.(objects := w.objects - DroppedKeys(script))
    decreases |script|
  {
    if script == [] {
      assert w.objects - DroppedKeys(script) == w.objects;
    } else {
      var a, after := script[0], Do(w, script[0]);
      assert a in script;
      UnclaimedDropsAreSafe(after, script[1..]);
      assert DroppedKeys(script) == {a.key} + DroppedKeys(script[1..]);
      assert w.objects - DroppedKeys(script) == after.objects - DroppedKeys(script[1..]);
    }
  }

  /** Old enough and claimed by no row. */
  predicate Stale(w: World, key: Key, cutoff: int) {
    key in w.objects && w.objects[key].modified <= cutoff && !Claimed(w, key)
  }

  lemma {:induction false} SweepIsUnclaimed(w: World, listing: seq<Key>, cutoff: int)
    ensures OnlyUnclaimed(w, Sweep(w, listing, cutoff))
    ensures forall key :: key in DroppedKeys(Sweep(w, listing, cutoff)) <==> key in listing && Stale(w, key, cutoff)
  {
    hide Sweep, Stale, DroppedKeys, OnlyUnclaimed;
    if listing == [] {
      NothingSwept(w, cutoff);
    } else {
      var rest, key := listing[..|listing|-1], listing[|listing|-1];
      SweepIsUnclaimed(w, rest, cutoff);
      assert listing == rest + [key];
      var more := if Stale(w, key, cutoff) then [DropObject(key)] else [];
      SweepOneMore(w, rest, key, cutoff);
      DroppedConcat(Sweep(w, rest, cutoff), more);
      DroppedOne(key);
      BothUnclaimed(w, Sweep(w, rest, cutoff), more);
    }
  }

  lemma NothingSwept(w: World, cutoff: int)
    ensures OnlyUnclaimed(w, Sweep(w, [], cutoff)) && DroppedKeys(Sweep(w, [], cutoff)) == {}
  {
  }

  lemma SweepOneMore(w: World, rest: seq<Key>, key: Key, cutoff: int)
    ensures var more := if Stale(w, key, cutoff) then [DropObject(key)] else [];
            Sweep(w, rest + [key], cutoff) == Sweep(w, rest, cutoff) + more && OnlyUnclaimed(w, more)
  {
    hide Claimed;
    assert (rest + [key])[..|rest|] == rest;
  }

  lemma BothUnclaimed(w: World, a: seq<Action>, b: seq<Action>)
    requires OnlyUnclaimed(w, a) && OnlyUnclaimed(w, b)
    ensures OnlyUnclaimed(w, a + b)
  {
    hide Claimed;
  }

  lemma DroppedConcat(a: seq<Action>, b: seq<Action>)
    ensures DroppedKeys(a + b) == DroppedKeys(a) + DroppedKeys(b)
  {
  }

  lemma DroppedOne(key: Key)
    ensures DroppedKeys([DropObject(key)]) == {key} && DroppedKeys([]) == {}
  {
    assert DropObject(key) in [DropObject(key)];
  }

  lemma {:induction false} DropUnclaimedIsUnclaimed(w: World, keys: seq<Key>)
    ensures OnlyUnclaimed(w, DropUnclaimed(w, keys))
  {
    hide Claimed;
    if keys != [] { DropUnclaimedIsUnclaimed(w, keys[..|keys|-1]); }
  }

  // ---------------------------------------------------------------------------------------
  // Every script is safe

  lemma {:induction false} PrimaryIsAFile(files: seq<File>)
    requires files != []
    ensures exists f <- files :: f.id == Primary(files)
  {
    if exists f <- files :: IsSkillMd(f) {
      FirstPrimaryIsAFile(files);
    } else {
      assert files[0] in files;
    }
  }

  lemma {:induction false} FirstPrimaryIsAFile(files: seq<File>)
    requires exists f <- files :: IsSkillMd(f)
    ensures exists f <- files :: f.id == FirstPrimary(files)
  {
    if !IsSkillMd(files[0]) {
      FirstPrimaryIsAFile(files[1..]);
      var f :| f in files[1..] && f.id == FirstPrimary(files[1..]);
      assert f in files;
    }
  }

  lemma PublishIsSafe(w: World, skill: Id, files: seq<File>, now: int)
    requires files != [] && FreshFiles(w, files)
    ensures AllSafe(w, PublishSkill(skill, files, now))
    ensures RunAll(w, PublishSkill(skill, files, now))
            == Do(RunAll(w, PutFiles(skill, files, now)), SetSkill(skill, Manifest(Primary(files), FileIds(files))))
  {
    hide PutFiles, Primary, FileIds;
    var put := PutFiles(skill, files, now);
    var set_ := SetSkill(skill, Manifest(Primary(files), FileIds(files)));
    PutFilesPuts(w, skill, files, now);
    PrimaryIsAFile(files);
    Joined(w, put, [set_]);
    var middle := RunAll(w, put);
    assert RunAll(middle, [set_]) == RunAll(Do(middle, set_), []);
    assert AllSafe(Do(middle, set_), []);
  }

  lemma {:induction false} AssignIsSafe(w: World, assignments: seq<Assignment>)
    requires forall a <- assignments :: a.id in w.rows
    ensures AllSafe(w, Assign(assignments)) && RunAll(w, Assign(assignments)).rows == w.rows
  {
    if assignments != [] {
      var rest, a := assignments[..|assignments|-1], assignments[|assignments|-1];
      AssignIsSafe(w, rest);
      Joined(w, Assign(rest), [SetEntry(a.slot, a.id)]);
      OneAction(RunAll(w, Assign(rest)), SetEntry(a.slot, a.id));
      assert a in assignments;
    }
  }

  lemma DropEntriesIsSafe(w: World, assignments: seq<Assignment>, dropped: set<Slot>)
    requires AllSafe(w, Assign(assignments))
    ensures AllSafe(w, Assign(assignments) + [DropEntries(dropped)]) && AllSafe(w, Assign(assignments) + [])
  {
    hide Assign;
    Joined(w, Assign(assignments), [DropEntries(dropped)]);
    OneAction(RunAll(w, Assign(assignments)), DropEntries(dropped));
    assert Assign(assignments) + [] == Assign(assignments);
  }

  lemma OneAction(w: World, a: Action)
    ensures RunAll(w, [a]) == Do(w, a) && (AllSafe(w, [a]) <==> Safe(w, a))
  {
    hide Do, Safe;
    assert RunAll(w, [a]) == RunAll(Do(w, a), []);
    assert AllSafe(w, [a]) <==> Safe(w, a) && AllSafe(Do(w, a), []);
  }

  lemma WritesAreSafe(w: World, op: Op)
    requires WellPosed(w, op)
    ensures AllSafe(w, Writes(w, op))
  {
    hide Pinned, PublishSkill, SessionRows;
    var script := Writes(w, op);
    match op
    case Store(_, _, _, _, _, _) =>
      TwoActions(w, script[0], script[1]);
      assert script == [script[0], script[1]];
    case SaveEntry(_, _, _, _) =>
      assert script == [script[0], script[1]] + [script[2]];
      TwoActions(w, script[0], script[1]);
      Joined(w, [script[0], script[1]], [script[2]]);
      var middle := RunAll(w, [script[0], script[1]]);
      assert AllSafe(Do(middle, script[2]), []);
    case ChangeEntries(assignments, dropped, _) =>
      AssignIsSafe(w, assignments);
      DropEntriesIsSafe(w, assignments, dropped);
    case StoreSkill(skill, files, now) =>
      PublishIsSafe(w, skill, files, now);
    case DeleteSession(_, _) =>
      if script != [] {
        TwoActions(w, script[0], script[1]);
        assert script == [script[0], script[1]];
      }
    case RemoveEntry(_) => assert AllSafe(Do(w, script[0]), []);
    case DeleteSkill(_) => assert AllSafe(Do(w, script[0]), []);
    case CreateSession(_) => assert AllSafe(Do(w, script[0]), []);
    case MoveCheckpoint(_, _) => assert AllSafe(Do(w, script[0]), []);
    case DeleteFile(_) =>
    case Collect(_, _, _) =>
  }

  lemma ScriptIsSafe(w: World, op: Op)
    requires WellPosed(w, op)
    ensures AllSafe(w, Script(w, op))
  {
    hide Writes, ToPurge, Safe, Do, RunAll, AllSafe, Claimed;
    var first := Writes(w, op);
    var middle := Purge(RunAll(w, first), ToPurge(w, op));
    var after := RunAll(w, first + middle);
    WritesAreSafe(w, op);
    PurgeIsSafe(RunAll(w, first), ToPurge(w, op));
    Joined(w, first, middle);
    TrailingIsUnclaimed(after, op);
    UnclaimedDropsAreSafe(after, Trailing(after, op));
    Joined(w, first + middle, Trailing(after, op));
  }

  lemma TrailingIsUnclaimed(w: World, op: Op)
    ensures OnlyUnclaimed(w, Trailing(w, op))
  {
    match op
    case DeleteSession(_, keys) => DropUnclaimedIsUnclaimed(w, keys);
    case Collect(_, listing, cutoff) => SweepIsUnclaimed(w, listing, cutoff);
    case _ =>
  }

  // ---------------------------------------------------------------------------------------
  // Runs

  /** One operation, cut off after `cut` writes (a later cut than there are writes is no crash). */
  datatype Attempt = Attempt(op: Op, cut: nat)

  ghost function AfterAttempt(w: World, a: Attempt): World
    requires WellPosed(w, a.op)
  {
    var script := Script(w, a.op);
    RunAll(w, if a.cut < |script| then script[..a.cut] else script)
  }

  ghost predicate Runs(w: World, attempts: seq<Attempt>)
    decreases |attempts|, 0
  {
    attempts == [] || (Runs(w, attempts[..|attempts|-1])
                       && WellPosed(After(w, attempts[..|attempts|-1]), attempts[|attempts|-1].op))
  }

  ghost function After(w: World, attempts: seq<Attempt>): World
    requires Runs(w, attempts)
    decreases |attempts|, 1
  {
    if attempts == [] then w else AfterAttempt(After(w, attempts[..|attempts|-1]), attempts[|attempts|-1])
  }

  lemma AttemptKeepsSound(w: World, a: Attempt)
    requires Sound(w) && WellPosed(w, a.op)
    ensures Sound(AfterAttempt(w, a))
  {
    hide Script, Sound, RunAll;
    var script := Script(w, a.op);
    ScriptIsSafe(w, a.op);
    CrashAnywhereIsSound(w, script, if a.cut < |script| then a.cut else |script|);
    assert script[..|script|] == script;
  }

  /** Over any run of operations, each crashing at any of its writes or not at all, every file row's
      object is in the store, and so is every row an entry or a skill needs. */
  lemma {:induction false} NoRowEverDangles(w: World, attempts: seq<Attempt>)
    requires Sound(w) && Runs(w, attempts)
    ensures Sound(After(w, attempts))
  {
    hide AfterAttempt, Sound, WellPosed;
    if attempts != [] {
      NoRowEverDangles(w, attempts[..|attempts|-1]);
      AttemptKeepsSound(After(w, attempts[..|attempts|-1]), attempts[|attempts|-1]);
    }
  }

  // ---------------------------------------------------------------------------------------
  // What an uncrashed garbage collection leaves

  /** The orphans as listed, and a listing of the store made after they were purged. */
  ghost predicate Listed(w: World, op: Op) {
    && op.Collect?
    && (forall id :: id in op.orphans <==> id in w.rows && Orphan(w, id, op.cutoff))
    && forall key <- w.objects :: key in op.listing
  }

  /** Somebody still needs the row: a user's own upload or output, the checkpoint its session stores, a
      file a skill's manifest names, a file an entry of its own kind holds. */
  ghost predicate InUse(w: World, id: Id)
    requires id in w.rows
  {
    var row := w.rows[id];
    || row.kind == Upload || row.kind == Output
    || (row.kind == Checkpoint && exists session <- w.checkpoints :: row.session == Some(session) && w.checkpoints[session] == Some(id))
    || (row.kind == Skill && exists skill <- w.skills :: id == w.skills[skill].primary || id in w.skills[skill].files)
    || (row.kind == Memory && exists slot <- w.entries :: slot.MemorySlot? && w.entries[slot] == id)
    || (row.kind == Wiki && exists slot <- w.entries :: slot.WikiSlot? && w.entries[slot] == id)
  }

  lemma OrphanIff(w: World, id: Id, cutoff: int)
    requires id in w.rows
    ensures Orphan(w, id, cutoff) <==> w.rows[id].created < cutoff && !InUse(w, id)
  {
  }

  /** Every object older than the grace period is claimed by a row; a row stays exactly when it is in
      use, younger than the grace period, or held by a foreign key; and what stays is as it was, with
      its object. */
  lemma CollectIsExact(w: World, op: Op)
    requires Sound(w) && Listed(w, op)
    ensures var after := RunAll(w, Script(w, op));
            && Sound(after)
            && (forall key <- after.objects :: after.objects[key].modified <= op.cutoff ==> Claimed(after, key))
            && (forall id <- w.rows :: id in after.rows <==> InUse(w, id) || w.rows[id].created >= op.cutoff || Pinned(w, id))
            && (forall id <- after.rows ::
                  id in w.rows && after.rows[id] == w.rows[id]
                  && w.rows[id].key in after.objects && after.objects[w.rows[id].key] == w.objects[w.rows[id].key])
            && after.checkpoints == w.checkpoints && after.skills == w.skills && after.entries == w.entries
  {
    hide Orphan, InUse, Pinned, RunAll, Stale, Claimed, Purge, Sweep, Script;
    forall id <- w.rows ensures Orphan(w, id, op.cutoff) <==> w.rows[id].created < op.cutoff && !InUse(w, id) {
      OrphanIff(w, id, op.cutoff);
    }
    var purge := Purge(w, op.orphans);
    var middle := RunAll(w, purge);
    PurgePurges(w, op.orphans);
    EmptyFirst(w, op);
    Joined(w, purge, Sweep(middle, op.listing, op.cutoff));
    SweepLeaves(middle, op.listing, op.cutoff);
    var after := RunAll(w, Script(w, op));
    forall key <- after.objects | after.objects[key].modified <= op.cutoff ensures Claimed(after, key) {
      assert key in w.objects;
      StaleOrClaimed(middle, key, op.cutoff);
    }
    forall id <- middle.rows ensures Claimed(middle, middle.rows[id].key) { RowClaims(middle, id); }
    forall id <- middle.rows ensures !Stale(middle, middle.rows[id].key, op.cutoff) { StaleOrClaimed(middle, middle.rows[id].key, op.cutoff); }
  }

  lemma RowClaims(w: World, id: Id)
    requires id in w.rows
    ensures Claimed(w, w.rows[id].key)
  {
  }

  lemma StaleOrClaimed(w: World, key: Key, cutoff: int)
    requires key in w.objects
    ensures w.objects[key].modified <= cutoff ==> (Stale(w, key, cutoff) <==> !Claimed(w, key))
    ensures Claimed(w, key) ==> !Stale(w, key, cutoff)
  {
  }

  /** A sweep over a listing that misses nothing removes exactly the stale objects. */
  lemma SweepLeaves(w: World, listing: seq<Key>, cutoff: int)
    requires forall key <- w.objects :: key in listing
    ensures var after := RunAll(w, Sweep(w, listing, cutoff));
            && after == w.(objects := after.objects)
            && (forall key <- after.objects :: key in w.objects && after.objects[key] == w.objects[key])
            && (forall key <- w.objects :: key in after.objects <==> !Stale(w, key, cutoff))
            && (forall key :: Claimed(after, key) <==> Claimed(w, key))
  {
    hide Stale, RunAll;
    SweepIsUnclaimed(w, listing, cutoff);
    UnclaimedDropsAreSafe(w, Sweep(w, listing, cutoff));
    hide DroppedKeys;
  }

  lemma EmptyFirst(w: World, op: Op)
    requires op.Collect?
    ensures Script(w, op) == Purge(w, op.orphans) + Sweep(RunAll(w, Purge(w, op.orphans)), op.listing, op.cutoff)
  {
    hide Purge, Sweep;
    assert [] + Purge(w, op.orphans) == Purge(w, op.orphans);
  }

  // ---------------------------------------------------------------------------------------
  // Re-uploading a skill

  /** A skill's package put and published, before the old version is purged. */
  lemma PublishedSkill(w: World, skill: Id, files: seq<File>, now: int)
    requires Sound(w) && files != [] && FreshFiles(w, files)
    ensures var published := RunAll(w, PublishSkill(skill, files, now));
            && Sound(published)
            && skill in published.skills && published.skills[skill] == Manifest(Primary(files), FileIds(files))
            && (forall f <- files :: FileIn(published, skill, f, now))
            && (forall id <- w.rows :: id in published.rows && published.rows[id] == w.rows[id])
  {
    hide PutFiles, PublishSkill, Primary, RunAll, AllSafe, FreshFiles;
    PutFilesPuts(w, skill, files, now);
    PublishIsSafe(w, skill, files, now);
    var publish := PublishSkill(skill, files, now);
    AllOf(w, publish);
    CrashAnywhereIsSound(w, publish, |publish|);
  }

  /** After an uncrashed upload, whether or not the skill existed: the manifest lists the new files,
      each has its row and its own content, and what is left of the version before is only what a
      foreign key still holds.  Purging the old rows never takes an object a new row has overwritten. */
  lemma StoreSkillReplaces(w: World, op: Op)
    requires Sound(w) && op.StoreSkill? && WellPosed(w, op)
    requires forall id <- Replaced(w, op.skill) :: id !in FileIds(op.files)
    ensures var after := RunAll(w, Script(w, op));
            && op.skill in after.skills && after.skills[op.skill] == Manifest(Primary(op.files), FileIds(op.files))
            && (forall f <- op.files :: FileIn(after, op.skill, f, op.now))
            && (forall id <- Replaced(w, op.skill) :: id in after.rows ==> Pinned(after, id))
            && (forall id <- w.rows :: id !in Replaced(w, op.skill) ==> id in after.rows && after.rows[id] == w.rows[id])
  {
    hide Sound, PutFiles, PublishSkill, Purge, RunAll, AllSafe, Replaced, Primary, Script, FileIn;
    var files, old_ := op.files, Replaced(w, op.skill);
    var publish := PublishSkill(op.skill, files, op.now);
    var published := RunAll(w, publish);
    PublishedSkill(w, op.skill, files, op.now);
    PurgePurges(published, old_);
    UploadScript(w, op);
    Joined(w, publish, Purge(published, old_));
    var after := RunAll(published, Purge(published, old_));
    forall f <- files ensures FileIn(after, op.skill, f, op.now) {
      PurgeKeepsFile(published, after, old_, op.skill, files, f, op.now);
    }
    hide FileIds, Claimed;
    assert forall id :: Pinned(after, id) <==> Pinned(published, id);
  }

  lemma AllOf(w: World, script: seq<Action>)
    ensures script[..|script|] == script
  {
  }

  lemma UploadScript(w: World, op: Op)
    requires op.StoreSkill? && op.files != []
    ensures var publish := PublishSkill(op.skill, op.files, op.now);
            Script(w, op) == publish + Purge(RunAll(w, publish), Replaced(w, op.skill))
  {
    hide Purge, PublishSkill, Replaced;
    var publish := PublishSkill(op.skill, op.files, op.now);
    var script := publish + Purge(RunAll(w, publish), Replaced(w, op.skill));
    assert script + [] == script;
  }

  lemma PurgeKeepsFile(w: World, after: World, ids: seq<Id>, skill: Id, files: seq<File>, f: File, now: int)
    requires Purged(w, after, SetOf(ids)) && FileIn(w, skill, f, now) && f in files
    requires forall id <- ids :: id !in FileIds(files)
    ensures FileIn(after, skill, f, now)
  {
    var i :| 0 <= i < |files| && files[i] == f;
    assert FileIds(files)[i] == f.id;
    assert f.id in after.rows;
    assert Claimed(after, FileKeyOf(skill, f));
  }
}
