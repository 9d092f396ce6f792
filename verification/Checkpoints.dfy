/** The status callback of one session with its checkpoint file: setSessionStatus and startTurn in
    control-plane/src/repo.ts, the callback route in control-plane/src/agents-api.ts. */
module Checkpoints {
  import opened Wrappers
  import opened Sessions

  type FileId = string

  datatype SessionRow = SessionRow(status: Status, turns: nat, sdk: Option<Id>, checkpoint: Option<FileId>)

  /** What a runner reports when its turn ends.  `turn` is absent on reports of old images. */
  datatype Report = Report(status: Status, sdk: Option<Id>, checkpoint: Option<FileId>, turn: Option<nat>)

  predicate Applies(row: SessionRow, r: Report) {
    r.turn.None? || row.turns <= r.turn.value
  }

  function Coalesce<T>(new_: Option<T>, old_: Option<T>): Option<T> {
    if new_.Some? then new_ else old_
  }

  function Updated(row: SessionRow, r: Report): SessionRow {
    if Applies(row, r)
    then SessionRow(r.status, row.turns, Coalesce(r.sdk, row.sdk), Coalesce(r.checkpoint, row.checkpoint))
    else row
  }

  /** The file the callback deletes afterwards: the checkpoint an applied report replaced, or the
      checkpoint of a rejected one. */
  function Reclaimed(row: SessionRow, r: Report): Option<FileId> {
    if Applies(row, r)
    then if r.checkpoint.Some? && row.checkpoint.Some? && row.checkpoint != r.checkpoint then row.checkpoint else None
    else r.checkpoint
  }

  class SessionStore {
    var row: SessionRow
    var files: set<FileId>

    constructor ()
      ensures row == SessionRow(Queued, 0, None, None) && files == {}
    {
      row, files := SessionRow(Queued, 0, None, None), {};
    }

    method SetSessionStatus(r: Report) returns (replaced: Option<FileId>, applied: bool)
      modifies this`row
      ensures row == Updated(old(row), r) && applied == Applies(old(row), r)
      ensures replaced == if applied then Reclaimed(old(row), r) else None
    {
      replaced := None;
      if r.checkpoint.Some? {
        var prev := row.checkpoint;
        if prev.Some? && prev != r.checkpoint { replaced := prev; }
      }
      applied := r.turn.None? || row.turns <= r.turn.value;
      if applied {
        row := row.(status := r.status, sdk := Coalesce(r.sdk, row.sdk), checkpoint := Coalesce(r.checkpoint, row.checkpoint));
      } else {
        replaced := None;
      }
    }

    /** The callback route; both deletions are best effort, `reaped` says whether they happen. */
    method StatusCallback(r: Report, reaped: bool) returns (applied: bool)
      modifies this
      ensures row == Updated(old(row), r) && applied == Applies(old(row), r)
      ensures applied <==> r.turn.None? || r.turn.value >= old(row).turns
      ensures !applied ==> row == old(row)
      ensures applied ==>
        && row.status == r.status && row.turns == old(row).turns
        && row.sdk == (if r.sdk.Some? then r.sdk else old(row).sdk)
        && row.checkpoint == (if r.checkpoint.Some? then r.checkpoint else old(row).checkpoint)
      ensures forall f <- old(files) :: f !in files <==>
        reaped && if applied then old(row).checkpoint == Some(f) && row.checkpoint != Some(f) else r.checkpoint == Some(f)
      ensures files <= old(files)
      ensures files == if reaped && Reclaimed(old(row), r).Some? then old(files) - {Reclaimed(old(row), r).value} else old(files)
    {
      var replaced;
      replaced, applied := SetSessionStatus(r);
      if replaced.Some? && reaped { files := files - {replaced.value}; }
      if !applied && r.checkpoint.Some? && reaped { files := files - {r.checkpoint.value}; }
    }

    /** `seen` is the status the message was accepted on, read before. */
    method StartTurn(seen: Status) returns (turn: Option<nat>)
      modifies this`row
      ensures turn.Some? <==> seen == Idle || seen == Failed
      ensures row == if turn.Some? then old(row).(status := Queued, turns := old(row).turns + 1) else old(row)
      ensures turn.Some? ==> turn.value == row.turns
    {
      if seen != Idle && seen != Failed { return None; }
      row := row.(status := Queued, turns := row.turns + 1);
      return Some(row.turns);
    }
  }

  // ---------------------------------------------------------------------------------------
  // Runs of one session

  /** `made` says which turn's pod uploaded a file, `applied` which files a report has stored,
      `producer` which turn produced the stored checkpoint; `doomed` files are to be deleted. */
  datatype State = State(
    row: SessionRow, files: set<FileId>, doomed: set<FileId>,
    made: map<FileId, nat>, applied: set<FileId>, producer: nat)

  const FRESH := State(SessionRow(Queued, 0, None, None), {}, {}, map[], {}, 0)

  datatype Step =
    | NextTurn
    | Interrupted
    | Upload(file: FileId, turn: nat)
    | Deliver(report: Report)
    | Reap(file: FileId)

  /** Reports carry the turn of the pod that sends them and only a checkpoint that pod uploaded;
      a pod uploads one checkpoint.  Any report may be delivered again, at any time.  A turn is counted
      whatever the status has become since the message was accepted. */
  predicate Enabled(st: State, step: Step) {
    match step
    case NextTurn => true
    case Interrupted => true
    case Upload(f, turn) => f !in st.made && turn <= st.row.turns && turn !in st.made.Values
    case Deliver(r) =>
      r.turn.Some? && r.turn.value <= st.row.turns
      && (r.checkpoint.Some? ==> r.checkpoint.value in st.made && st.made[r.checkpoint.value] == r.turn.value)
    case Reap(f) => f in st.doomed
  }

  function Apply(st: State, step: Step): State {
    match step
    case NextTurn => st.(row := st.row.(status := Queued, turns := st.row.turns + 1))
    case Interrupted => st.(row := st.row.(status := Idle))
    case Upload(f, turn) => st.(files := st.files + {f}, made := st.made[f := turn])
    case Deliver(r) =>
      var gone := Reclaimed(st.row, r);
      var stored := Applies(st.row, r) && r.checkpoint.Some?;
      st.(row := Updated(st.row, r),
          doomed := if gone.Some? then st.doomed + {gone.value} else st.doomed,
          applied := if stored then st.applied + {r.checkpoint.value} else st.applied,
          producer := if stored && r.turn.Some? then r.turn.value else st.producer)
    case Reap(f) => st.(files := st.files - {f}, doomed := st.doomed - {f})
  }

  predicate Runs(steps: seq<Step>) {
    steps == [] || (Runs(steps[..|steps|-1]) && Enabled(After(steps[..|steps|-1]), steps[|steps|-1]))
  }

  function After(steps: seq<Step>): State {
    if steps == [] then FRESH else Apply(After(steps[..|steps|-1]), steps[|steps|-1])
  }

  /** The stored checkpoint can be restored: its file row is there, and nobody is about to delete it. */
  predicate Restorable(st: State) {
    st.row.checkpoint.Some? ==> st.row.checkpoint.value in st.files && st.row.checkpoint.value !in st.doomed
  }

  // ---------------------------------------------------------------------------------------
  // The turn guard

  /** Delivering an applied report again within its turn is idempotent and deletes nothing. */
  lemma SameTurnRedeliveryIsIdempotent(row: SessionRow, r: Report)
    requires Applies(row, r)
    ensures Updated(Updated(row, r), r) == Updated(row, r)
    ensures Reclaimed(Updated(row, r), r) == None
  {
  }

  /** The steps that can matter to the row: neither a report the guard rejects nor a reaping. */
  function Effective(steps: seq<Step>): seq<Step> {
    if steps == [] then []
    else
      var before, step := steps[..|steps|-1], steps[|steps|-1];
      Effective(before)
      + if step.Reap? || (step.Deliver? && !Applies(After(before).row, step.report)) then [] else [step]
  }

  predicate SameRow(a: State, b: State) { a.row == b.row && a.made == b.made && a.applied == b.applied && a.producer == b.producer }

  lemma EffectiveStep(a: State, b: State, step: Step)
    requires SameRow(a, b) && Enabled(a, step)
    ensures step.Reap? || (step.Deliver? && !Applies(a.row, step.report)) ==> SameRow(Apply(a, step), b)
    ensures !step.Reap? ==> Enabled(b, step) && SameRow(Apply(a, step), Apply(b, step))
  {
  }

  /** A stale pod's reports can be struck out of any run: what is left is a run that ends with the same
      status, turn, checkpoint and sdk id, and with the same producer of the checkpoint. */
  lemma {:induction false} StaleReportsDoNotMatter(steps: seq<Step>)
    requires Runs(steps)
    ensures Runs(Effective(steps)) && SameRow(After(steps), After(Effective(steps)))
  {
    hide Apply, Enabled, SameRow, Applies;
    if steps == [] {
      NothingHappened();
    } else {
      var before, step := steps[..|steps|-1], steps[|steps|-1];
      StaleReportsDoNotMatter(before);
      EffectiveStep(After(before), After(Effective(before)), step);
      var kept := Effective(before);
      assert (kept + [step])[..|kept|] == kept && kept + [] == kept;
    }
  }

  lemma NothingHappened()
    ensures SameRow(After([]), After([]))
  {
  }

  lemma StepKeepsProducer(st: State, step: Step)
    requires Enabled(st, step) && st.producer <= st.row.turns
    ensures st.producer <= Apply(st, step).producer <= Apply(st, step).row.turns
  {
  }

  /** The turn that produced the stored checkpoint never decreases, whatever is redelivered. */
  lemma {:induction false} ProducerNeverDecreases(steps: seq<Step>, k: nat)
    requires Runs(steps) && k <= |steps|
    ensures Runs(steps[..k])
    ensures After(steps[..k]).producer <= After(steps).producer <= After(steps).row.turns
  {
    if k == |steps| {
      assert steps[..k] == steps;
      if steps != [] {
        ProducerNeverDecreases(steps[..k-1], k - 1);
        StepKeepsProducer(After(steps[..k-1]), steps[k-1]);
      }
    } else {
      var before := steps[..|steps|-1];
      assert before[..k] == steps[..k];
      ProducerNeverDecreases(before, k);
      StepKeepsProducer(After(before), steps[|steps|-1]);
    }
  }

  // ---------------------------------------------------------------------------------------
  // The stored checkpoint's file

  /** Files are deleted only after their turn is over. */
  ghost predicate FilesSound(st: State) {
    && (forall f <- st.made :: st.made[f] <= st.row.turns)
    && (forall f <- st.made, g <- st.made :: st.made[f] == st.made[g] ==> f == g)
    && (forall f <- st.doomed :: f in st.made)
    && (forall f <- st.made :: f in st.doomed || f !in st.files ==> st.made[f] < st.row.turns)
    && (st.row.checkpoint.Some? ==> st.row.checkpoint.value in st.made && st.row.checkpoint.value in st.applied)
  }

  lemma StepKeepsFilesSound(st: State, step: Step)
    requires Enabled(st, step) && FilesSound(st)
    ensures FilesSound(Apply(st, step))
  {
  }

  /** Exactly when a delivery keeps the stored checkpoint restorable: a rejected report must not
      be the one that stored it. */
  lemma DeliveryKeepsRestorableIff(st: State, r: Report)
    requires Enabled(st, Deliver(r)) && FilesSound(st) && Restorable(st)
    ensures Restorable(Apply(st, Deliver(r)))
       <==> (Applies(st.row, r) || r.checkpoint.None? || r.checkpoint != st.row.checkpoint)
  {
  }

  lemma OthersKeepRestorable(st: State, step: Step)
    requires Enabled(st, step) && FilesSound(st) && Restorable(st) && !step.Deliver?
    ensures Restorable(Apply(st, step))
  {
  }

  /** The report is rejected and names the checkpoint that is stored. */
  predicate Loses(st: State, step: Step) {
    step.Deliver? && !Applies(st.row, step.report) && step.report.checkpoint.Some? && step.report.checkpoint == st.row.checkpoint
  }

  /** No delivery of the run is of that kind. */
  predicate NoLoss(steps: seq<Step>) {
    steps == [] || (NoLoss(steps[..|steps|-1]) && !Loses(After(steps[..|steps|-1]), steps[|steps|-1]))
  }

  lemma {:induction false} RunsKeepFilesSound(steps: seq<Step>)
    requires Runs(steps)
    ensures FilesSound(After(steps))
  {
    hide Apply, Enabled;
    if steps == [] {
      assert FilesSound(FRESH);
    } else {
      RunsKeepFilesSound(steps[..|steps|-1]);
      StepKeepsFilesSound(After(steps[..|steps|-1]), steps[|steps|-1]);
    }
  }

  lemma StepKeepsRestorableIff(st: State, step: Step)
    requires Enabled(st, step) && FilesSound(st) && Restorable(st)
    ensures Restorable(Apply(st, step)) <==> !Loses(st, step)
  {
    hide Apply, Enabled, FilesSound, Restorable;
    if step.Deliver? { DeliveryKeepsRestorableIff(st, step.report); } else { OthersKeepRestorable(st, step); }
  }

  /** In any run at all, the stored checkpoint can be restored at every moment exactly when no delivery
      is a rejected report that names the checkpoint stored just then. */
  lemma {:induction false} CheckpointStaysRestorable(steps: seq<Step>)
    requires Runs(steps)
    ensures (forall k :: 0 <= k <= |steps| ==> Restorable(After(steps[..k]))) <==> NoLoss(steps)
  {
    hide Restorable, Loses, FilesSound, Apply, Enabled;
    assert steps[..|steps|] == steps;
    if steps == [] {
      FreshIsRestorable();
    } else {
      var before, step := steps[..|steps|-1], steps[|steps|-1];
      CheckpointStaysRestorable(before);
      RunsKeepFilesSound(before);
      assert forall k :: 0 <= k <= |before| ==> before[..k] == steps[..k];
      assert before[..|before|] == before;
      if Restorable(After(before)) { StepKeepsRestorableIff(After(before), step); }
    }
  }

  lemma FreshIsRestorable()
    ensures Restorable(After([]))
  {
  }

  /** The late redelivery does lose it: an applied report that arrives again in the next turn is
      taken for a stale pod's salvage, and the stored checkpoint is deleted. */
  lemma LateRedeliveryLosesCheckpoint()
    ensures exists steps :: (
      Runs(steps) && After(steps).row.checkpoint == Some("f") && "f" in After(steps).made && "f" !in After(steps).files)
  {
    var r := Report(Idle, None, Some("f"), Some(0));
    var steps := [Upload("f", 0), Deliver(r), NextTurn, Deliver(r), Reap("f")];
    assert steps[..4] == [Upload("f", 0), Deliver(r), NextTurn, Deliver(r)];
    assert steps[..4][..3] == [Upload("f", 0), Deliver(r), NextTurn];
    assert steps[..4][..3][..2] == [Upload("f", 0), Deliver(r)];
    assert steps[..4][..3][..2][..1] == [Upload("f", 0)];
    assert steps[..4][..3][..2][..1][..0] == [];
    assert After([Upload("f", 0)]).files == {"f"};
    assert Runs([Upload("f", 0)]);
    assert Runs([Upload("f", 0), Deliver(r)]);
    assert Runs([Upload("f", 0), Deliver(r), NextTurn]);
    assert Runs([Upload("f", 0), Deliver(r), NextTurn, Deliver(r)]);
    assert Runs(steps);
  }
}
