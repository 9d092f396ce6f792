/** A session's event log: appendEvents in control-plane/src/repo.ts, and the runner's at-least-once
    posts (post and emit in session-runner/runner.py). */
module EventLog {
  import opened Selections
  import opened Wrappers
  import opened Sessions

  /** The route's own events are "user" and "session.waiting"; everything else is the runner's.
      An empty uid is no uid. */
  datatype Event = Event(kind: string, payload: string, uid: string) {
    predicate FromRunner() { kind != "user" && kind != "session.waiting" }
  }

  datatype Row = Row(number: nat, event: Event)

  predicate HasUid(rows: seq<Row>, uid: string) { exists r <- rows :: r.event.uid == uid }

  /** Gap-free from 1, each uid at most once. */
  ghost predicate ValidLog(rows: seq<Row>) {
    && (forall i :: 0 <= i < |rows| ==> rows[i].number == i + 1)
    && (forall i, j :: 0 <= i < j < |rows| && rows[i].event.uid != "" ==> rows[i].event.uid != rows[j].event.uid)
  }

  /** The events of a batch the table does not hold yet. */
  function Unseen(rows: seq<Row>, events: seq<Event>): seq<Event> {
    if events == [] then []
    else
      (if events[0].uid != "" && HasUid(rows, events[0].uid) then [] else [events[0]]) + Unseen(rows, events[1..])
  }

  ghost predicate DistinctUids(events: seq<Event>) {
    forall i, j :: 0 <= i < j < |events| && events[i].uid != "" ==> events[i].uid != events[j].uid
  }

  /** Numbered on from the log's end. */
  function Numbered(events: seq<Event>, last: nat): (rows: seq<Row>)
    ensures |rows| == |events|
    ensures forall i :: 0 <= i < |events| ==> rows[i] == Row(last + 1 + i, events[i])
  {
    seq(|events|, i requires 0 <= i < |events| => Row(last + 1 + i, events[i]))
  }

  /** The log after a batch: the unseen events in order, or nothing when two of them share a uid and
      the unique index rolls the batch back. */
  ghost function Appended(rows: seq<Row>, events: seq<Event>): seq<Row> {
    var unseen := Unseen(rows, events);
    if DistinctUids(unseen) then rows + Numbered(unseen, |rows|) else rows
  }

  lemma {:induction false} UnseenAreNew(rows: seq<Row>, events: seq<Event>)
    ensures forall e <- Unseen(rows, events) :: e in events && (e.uid != "" ==> !HasUid(rows, e.uid))
  {
    if events != [] { UnseenAreNew(rows, events[1..]); }
  }

  /** Every event with a uid is in the log after a batch that was not rolled back. */
  lemma {:induction false} UnseenMissesNone(rows: seq<Row>, events: seq<Event>, e: Event)
    requires e in events
    ensures e in Unseen(rows, events) || (e.uid != "" && HasUid(rows, e.uid))
  {
    if e != events[0] { UnseenMissesNone(rows, events[1..], e); }
  }

  lemma {:induction false} UnseenTwice(rows: seq<Row>, longer: seq<Row>, events: seq<Event>)
    requires forall e <- events :: e.uid != "" && HasUid(longer, e.uid)
    ensures Unseen(longer, events) == []
  {
    if events != [] {
      assert events[0] in events;
      UnseenTwice(rows, longer, events[1..]);
    }
  }

  /** Without a uid, or with one that the table does not hold. */
  function IsNew(rows: seq<Row>): Event -> bool { (e: Event) => e.uid == "" || forall r <- rows :: r.event.uid != e.uid }

  predicate SameEvent(a: Event, b: Event) { a == b }

  lemma UnseenNext(rows: seq<Row>, e: Event, rest: seq<Event>)
    ensures var all := [e] + rest;
      if IsNew(rows)(e) then |Unseen(rows, all)| == 1 + |Unseen(rows, rest)| && SameEvent(Unseen(rows, all)[0], e) && Unseen(rows, all)[1..] == Unseen(rows, rest)
      else Unseen(rows, all) == Unseen(rows, rest)
  {
    assert ([e] + rest)[1..] == rest;
  }

  /** What a batch adds is, in order and one for one, its events that are new to the table. */
  lemma {:induction false} UnseenAre(rows: seq<Row>, events: seq<Event>) returns (at: seq<nat>)
    ensures Selects(Unseen(rows, events), events, at, SameEvent, IsNew(rows))
  {
    if events == [] {
      at := [];
    } else {
      hide Unseen, IsNew, SameEvent, Behind, Selects;
      var e, rest := events[0], events[1..];
      var later := UnseenAre(rows, rest);
      assert events == [e] + rest;
      UnseenNext(rows, e, rest);
      at := Behind(later, IsNew(rows)(e));
      SelectsBehind(e, rest, Unseen(rows, events), Unseen(rows, rest), later, SameEvent, IsNew(rows));
    }
  }

  /** A batch adds, numbered on and in order, exactly its events without a uid or with one that the log does
      not hold yet, unless two of those share one: then it adds nothing. */
  lemma AppendAdds(rows: seq<Row>, events: seq<Event>) returns (at: seq<nat>)
    ensures Picks(at, |events|)
    ensures forall p: nat | p < |events| :: p in at <==> events[p].uid == "" || forall r <- rows :: r.event.uid != events[p].uid
    ensures if exists i, j :: 0 <= i < j < |at| && events[at[i]].uid == events[at[j]].uid != ""
            then Appended(rows, events) == rows
            else |Appended(rows, events)| == |rows| + |at| && rows <= Appended(rows, events)
                 && forall i :: 0 <= i < |at| ==> Appended(rows, events)[|rows| + i] == Row(|rows| + i + 1, events[at[i]])
  {
    hide Unseen;
    at := UnseenAre(rows, events);
    assert forall i :: 0 <= i < |at| ==> SameEvent(Unseen(rows, events)[i], events[at[i]]);
  }

  /** Any batch keeps the log gap-free and each uid single, and only ever extends it. */
  lemma AppendKeepsLog(rows: seq<Row>, events: seq<Event>)
    requires ValidLog(rows)
    ensures ValidLog(Appended(rows, events)) && rows <= Appended(rows, events)
  {
    hide Unseen;
    var unseen, after := Unseen(rows, events), Appended(rows, events);
    UnseenAreNew(rows, events);
    if DistinctUids(unseen) {
      forall i, j | 0 <= i < j < |after| && after[i].event.uid != "" ensures after[i].event.uid != after[j].event.uid {
        if i < |rows| <= j {
          assert after[j].event in unseen;
          assert after[i] in rows;
        } else if |rows| <= i {
          assert unseen[i - |rows|].uid != unseen[j - |rows|].uid;
        }
      }
    }
  }

  /** A batch posted again changes nothing. */
  lemma RepostIsIgnored(rows: seq<Row>, events: seq<Event>)
    requires forall e <- events :: e.uid != ""
    requires DistinctUids(events)
    ensures Appended(Appended(rows, events), events) == Appended(rows, events)
    ensures forall e <- events :: HasUid(Appended(rows, events), e.uid)
  {
    hide Unseen;
    var unseen, after := Unseen(rows, events), Appended(rows, events);
    UnseenIsDistinct(rows, events);
    forall e <- events ensures HasUid(after, e.uid) {
      UnseenMissesNone(rows, events, e);
      if e in unseen {
        var i :| 0 <= i < |unseen| && unseen[i] == e;
        assert after[|rows| + i].event == e;
        assert after[|rows| + i] in after;
      } else {
        var r :| r in rows && r.event.uid == e.uid;
        assert r in after;
      }
    }
    UnseenTwice(rows, after, events);
    assert after + Numbered([], |after|) == after;
  }

  lemma {:induction false} UnseenIsDistinct(rows: seq<Row>, events: seq<Event>)
    requires DistinctUids(events)
    ensures DistinctUids(Unseen(rows, events))
  {
    if events != [] {
      var rest := Unseen(rows, events[1..]);
      UnseenIsDistinct(rows, events[1..]);
      UnseenAreNew(rows, events[1..]);
      if Unseen(rows, events) != rest {
        forall e <- rest ensures events[0].uid != "" ==> e.uid != events[0].uid {
          var j :| 0 <= j < |events[1..]| && events[1..][j] == e;
          assert events[j + 1] == e;
        }
      }
    }
  }

  // ---------------------------------------------------------------------------------------
  // The table, and posts with retries

  /** What becomes of one attempt to post. */
  datatype Attempt = Unsent | ReplyLost | Acknowledged

  const ATTEMPTS: nat := 4

  predicate Reached(net: seq<Attempt>) { exists a <- net :: a != Unsent }

  /** The unique index refuses exactly the event that repeats a uid of its own batch. */
  lemma IndexHolds(rows: seq<Row>, events: seq<Event>, i: nat)
    requires i < |Unseen(rows, events)| && DistinctUids(Unseen(rows, events)[..i])
    ensures var unseen := Unseen(rows, events);
            var inserted := rows + Numbered(unseen[..i], |rows|);
            && inserted + [Row(|rows| + i + 1, unseen[i])] == rows + Numbered(unseen[..i+1], |rows|)
            && if unseen[i].uid != "" && HasUid(inserted, unseen[i].uid) then !DistinctUids(unseen)
               else DistinctUids(unseen[..i+1])
  {
    hide Unseen, HasUid, DistinctUids;
    var unseen := Unseen(rows, events);
    UnseenAreNew(rows, events);
    assert unseen[i] in unseen;
    InsertedHave(rows, unseen, i);
    OneMoreDistinct(unseen, i);
    assert Numbered(unseen[..i+1], |rows|) == Numbered(unseen[..i], |rows|) + [Row(|rows| + i + 1, unseen[i])];
  }

  lemma InsertedHave(rows: seq<Row>, unseen: seq<Event>, i: nat)
    requires i < |unseen| && (unseen[i].uid != "" ==> !HasUid(rows, unseen[i].uid))
    ensures unseen[i].uid != "" ==>
      (HasUid(rows + Numbered(unseen[..i], |rows|), unseen[i].uid) <==> exists k :: 0 <= k < i && unseen[k].uid == unseen[i].uid)
  {
    var uid, added := unseen[i].uid, Numbered(unseen[..i], |rows|);
    if uid != "" && HasUid(rows + added, uid) {
      var r :| r in rows + added && r.event.uid == uid;
      assert r in added;
      var k :| 0 <= k < i && added[k] == r;
      assert unseen[k].uid == uid;
    }
    if k :| 0 <= k < i && unseen[k].uid == uid {
      assert added[k] in rows + added;
    }
  }

  lemma OneMoreDistinct(unseen: seq<Event>, i: nat)
    requires i < |unseen| && DistinctUids(unseen[..i])
    ensures unseen[i].uid != "" && (exists k :: 0 <= k < i && unseen[k].uid == unseen[i].uid) ==> !DistinctUids(unseen)
    ensures unseen[i].uid == "" || !(exists k :: 0 <= k < i && unseen[k].uid == unseen[i].uid) ==> DistinctUids(unseen[..i+1])
  {
    assert forall k :: 0 <= k < i ==> unseen[..i][k] == unseen[k] == unseen[..i+1][k];
  }

  lemma OneIsDistinct(e: Event)
    ensures DistinctUids([e]) && !Reached([])
  {
  }

  lemma ReachedNext(net: seq<Attempt>, k: nat)
    requires k < |net|
    ensures Reached(net[..k+1]) <==> Reached(net[..k]) || net[k] != Unsent
  {
    assert net[..k+1] == net[..k] + [net[k]];
    if Reached(net[..k]) {
      var a :| a in net[..k] && a != Unsent;
      assert a in net[..k+1];
    } else if net[k] != Unsent {
      assert net[k] in net[..k+1];
    }
  }

  lemma AckReaches(net: seq<Attempt>, k: nat)
    requires k <= |net|
    ensures Acknowledged in net[..k] ==> Reached(net[..k]) && Reached(net) && Acknowledged in net
  {
    assert forall a <- net[..k] :: a in net;
  }

  class EventTable {
    var rows: seq<Row>
    var status: Status

    ghost predicate Valid()
      reads this
    {
      ValidLog(rows)
    }

    constructor ()
      ensures Valid() && rows == [] && status == Queued
    {
      rows, status := [], Queued;
    }

    /** One transaction; None is a roll-back. */
    method AppendEvents(events: seq<Event>) returns (last: Option<nat>)
      requires Valid()
      modifies this
      ensures Valid() && rows == Appended(old(rows), events)
      ensures last.Some? <==> DistinctUids(Unseen(old(rows), events))
      ensures last.Some? ==> last.value == |rows|
      ensures status == if last.Some? && old(status) == Queued && exists e <- events :: e.kind != "user" && e.kind != "session.waiting"
                        then Running else old(status)
    {
      hide ValidLog, Unseen, HasUid;
      AppendKeepsLog(rows, events);
      var unseen := Unseen(rows, events);
      var inserted := rows;
      var number := |rows|;
      for i := 0 to |unseen|
        invariant rows == old(rows) && status == old(status) && number == |rows| + i
        invariant inserted == rows + Numbered(unseen[..i], |rows|)
        invariant DistinctUids(unseen[..i])
      {
        IndexHolds(rows, events, i);
        if unseen[i].uid != "" && HasUid(inserted, unseen[i].uid) {
          return None;
        }
        number := number + 1;
        inserted := inserted + [Row(number, unseen[i])];
      }
      assert unseen[..|unseen|] == unseen;
      rows := inserted;
      if status == Queued && exists e <- events :: e.FromRunner() {
        status := Running;
      }
      last := Some(number);
    }

    /** Posts one event up to four times.  However often it arrives it is logged once, and the post
        returns normally only when it is in the log. */
    method Emit(e: Event, net: seq<Attempt>) returns (ok: bool)
      requires Valid() && e.uid != "" && |net| == ATTEMPTS
      modifies this
      ensures Valid()
      ensures ok <==> Acknowledged in net
      ensures rows == if Reached(net) then Appended(old(rows), [e]) else old(rows)
      ensures ok ==> HasUid(rows, e.uid)
    {
      hide Appended, ValidLog, Reached, HasUid, Unseen, DistinctUids;
      ok := false;
      var attempt := 0;
      OneIsDistinct(e);
      assert net[..0] == [];
      RepostIsIgnored(rows, [e]);
      ghost var once := Appended(rows, [e]);
      while attempt < ATTEMPTS && !ok
        invariant Valid() && attempt <= ATTEMPTS
        invariant rows == if Reached(net[..attempt]) then once else old(rows)
        invariant ok <==> Acknowledged in net[..attempt]
      {
        ReachedNext(net, attempt);
        if net[attempt] != Unsent {
          var _ := AppendEvents([e]);
        }
        ok := net[attempt] == Acknowledged;
        attempt := attempt + 1;
      }
      AckReaches(net, attempt);
      assert attempt == |net| ==> net[..attempt] == net;
    }
  }

  // ---------------------------------------------------------------------------------------
  // Any interleaving of posts, delayed and repeated deliveries, and events of others

  /** `started` emits have begun, one after the other; `returned` are those that came back. */
  datatype State = State(rows: seq<Row>, started: nat, returned: set<nat>)

  /** Deliver: a request of a started emit reaches the server, whenever and however often.  Return:
      the latest emit sees a response, which only a delivery sends.  Other: a batch from
      anyone else, the control plane or another turn's pod, with uids of its own or none. */
  datatype Step = Start | Deliver(k: nat) | Return | Other(events: seq<Event>)

  predicate Emits(emits: seq<Event>) {
    && (forall e <- emits :: e.uid != "")
    && forall i, j :: 0 <= i < j < |emits| ==> emits[i].uid != emits[j].uid
  }

  predicate Enabled(emits: seq<Event>, st: State, step: Step) {
    match step
    case Start => st.started < |emits|
    case Deliver(k) => k < st.started <= |emits|
    case Return => 0 < st.started <= |emits| && HasUid(st.rows, emits[st.started-1].uid)
    case Other(events) => forall e <- events, f <- emits :: e.uid != f.uid
  }

  ghost function Apply(emits: seq<Event>, st: State, step: Step): State
    requires Enabled(emits, st, step)
  {
    match step
    case Start => st.(started := st.started + 1)
    case Deliver(k) => st.(rows := Appended(st.rows, [emits[k]]))
    case Return => st.(returned := st.returned + {st.started - 1})
    case Other(events) => st.(rows := Appended(st.rows, events))
  }

  ghost predicate Runs(emits: seq<Event>, steps: seq<Step>)
    decreases |steps|, 0
  {
    steps == [] || (Runs(emits, steps[..|steps|-1]) && Enabled(emits, After(emits, steps[..|steps|-1]), steps[|steps|-1]))
  }

  ghost function After(emits: seq<Event>, steps: seq<Step>): State
    requires Runs(emits, steps)
    decreases |steps|, 1
  {
    if steps == [] then State([], 0, {})
    else Apply(emits, After(emits, steps[..|steps|-1]), steps[|steps|-1])
  }

  ghost predicate OnlyStarted(emits: seq<Event>, st: State) {
    && st.started <= |emits|
    && (forall r <- st.rows, f <- emits :: r.event.uid == f.uid ==> r.event in emits[..st.started])
    && forall k <- st.returned :: k < st.started && HasUid(st.rows, emits[k].uid)
  }

  ghost predicate Precedes(rows: seq<Row>, e: Event, f: Event) {
    forall p, q :: 0 <= p < |rows| && 0 <= q < |rows| && rows[p].event == e && rows[q].event == f ==> p < q
  }

  /** An emit that returned stands before every later one. */
  ghost predicate InOrder(emits: seq<Event>, st: State)
    requires st.started <= |emits|
  {
    forall j, k :: j in st.returned && j < k < st.started ==> Precedes(st.rows, emits[j], emits[k])
  }

  ghost predicate Sound(emits: seq<Event>, st: State) {
    ValidLog(st.rows) && OnlyStarted(emits, st) && InOrder(emits, st)
  }

  lemma DeliverOne(rows: seq<Row>, e: Event)
    requires e.uid != ""
    ensures Appended(rows, [e]) == if HasUid(rows, e.uid) then rows else rows + [Row(|rows| + 1, e)]
  {
    hide HasUid;
    assert [e][1..] == [];
    assert Unseen(rows, [e]) == if HasUid(rows, e.uid) then [] else [e];
    assert rows + Numbered([], |rows|) == rows;
    assert Numbered([e], |rows|) == [Row(|rows| + 1, e)];
  }

  lemma PrecedesGrows(rows: seq<Row>, more: seq<Row>, e: Event, f: Event)
    requires Precedes(rows, e, f) && forall r <- more :: r.event != e
    ensures Precedes(rows + more, e, f)
  {
    forall p | |rows| <= p < |rows + more| ensures (rows + more)[p].event != e {
      assert (rows + more)[p] in more;
    }
  }

  /** Rows none of which is a returned emit's are added at the end. */
  lemma GrowthKeepsOrder(emits: seq<Event>, st: State, more: seq<Row>)
    requires st.started <= |emits| && InOrder(emits, st)
    requires forall j <- st.returned :: j < st.started && HasUid(st.rows, emits[j].uid)
    requires forall j <- st.returned, r <- more :: r.event != emits[j]
    ensures InOrder(emits, st.(rows := st.rows + more))
    ensures forall j <- st.returned :: HasUid(st.rows + more, emits[j].uid)
  {
    hide Precedes;
    forall j, k | j in st.returned && j < k < st.started ensures Precedes(st.rows + more, emits[j], emits[k]) {
      PrecedesGrows(st.rows, more, emits[j], emits[k]);
    }
    forall j <- st.returned ensures HasUid(st.rows + more, emits[j].uid) {
      var r :| r in st.rows && r.event.uid == emits[j].uid;
      assert r in st.rows + more;
    }
  }

  lemma DeliverKeepsSound(emits: seq<Event>, st: State, k: nat)
    requires Emits(emits) && Sound(emits, st) && k < st.started
    ensures Sound(emits, Apply(emits, st, Deliver(k)))
  {
    hide ValidLog, Appended, InOrder;
    var e := emits[k];
    DeliverOne(st.rows, e);
    AppendKeepsLog(st.rows, [e]);
    if !HasUid(st.rows, e.uid) {
      assert e in emits[..st.started];
      GrowthKeepsOrder(emits, st, [Row(|st.rows| + 1, e)]);
    }
  }

  lemma OtherKeepsSound(emits: seq<Event>, st: State, events: seq<Event>)
    requires Emits(emits) && Sound(emits, st) && forall e <- events, f <- emits :: e.uid != f.uid
    ensures Sound(emits, Apply(emits, st, Other(events)))
  {
    hide Unseen, ValidLog, InOrder;
    AppendKeepsLog(st.rows, events);
    UnseenAreNew(st.rows, events);
    var more := Numbered(Unseen(st.rows, events), |st.rows|);
    forall r <- more, f <- emits ensures r.event.uid != f.uid {
      var i :| 0 <= i < |more| && more[i] == r;
      assert r.event == Unseen(st.rows, events)[i];
      assert r.event in Unseen(st.rows, events);
    }
    forall j <- st.returned ensures emits[j] in emits {}
    GrowthKeepsOrder(emits, st, more);
  }

  lemma StartAndReturnKeepSound(emits: seq<Event>, st: State, step: Step)
    requires Emits(emits) && Sound(emits, st) && Enabled(emits, st, step) && (step.Start? || step.Return?)
    ensures Sound(emits, Apply(emits, st, step))
  {
    hide ValidLog, HasUid, Precedes;
    var after := Apply(emits, st, step);
    if step.Start? {
      assert forall e <- emits[..st.started] :: e in emits[..after.started];
      forall j | j in st.returned ensures Precedes(st.rows, emits[j], emits[st.started]) {
        AbsentIsPreceded(emits, st, emits[j], st.started);
      }
    }
  }

  lemma AbsentIsPreceded(emits: seq<Event>, st: State, e: Event, k: nat)
    requires Emits(emits) && OnlyStarted(emits, st) && st.started <= k < |emits|
    ensures Precedes(st.rows, e, emits[k])
  {
    forall q | 0 <= q < |st.rows| ensures st.rows[q].event != emits[k] {
      assert st.rows[q] in st.rows && emits[k] in emits;
    }
  }

  /** Over every run the log holds each uid at most once, numbered 1..n without gaps, and the emits
      that returned are in it in emit order. */
  lemma {:induction false} EmitsAppearOnceInOrder(emits: seq<Event>, steps: seq<Step>)
    requires Emits(emits) && Runs(emits, steps)
    ensures Sound(emits, After(emits, steps))
  {
    hide Sound, Apply;
    if steps == [] {
      EmptyIsSound(emits);
    } else {
      var before, step := After(emits, steps[..|steps|-1]), steps[|steps|-1];
      EmitsAppearOnceInOrder(emits, steps[..|steps|-1]);
      match step
      case Deliver(k) => DeliverKeepsSound(emits, before, k);
      case Other(events) => OtherKeepsSound(emits, before, events);
      case _ => StartAndReturnKeepSound(emits, before, step);
    }
  }

  lemma EmptyIsSound(emits: seq<Event>)
    ensures Sound(emits, State([], 0, {}))
  {
  }
}
