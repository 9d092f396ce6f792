/** What the ledger keeps over whole runs of serialized ticks and settles. */
module CostRuns {
  import opened Wrappers
  import opened CostLedger

  function Run(ledger: seq<Entry>, accruals: seq<Accrual>): seq<Entry> {
    if accruals == [] then ledger else Accrue(Run(ledger, accruals[..|accruals|-1]), accruals[|accruals|-1])
  }

  /** A tick lists each deployment and each session once; a settle lists one session. */
  predicate ListsOnce(a: Accrual) {
    && (forall i, j :: 0 <= i < j < |a.deployments| ==> a.deployments[i].name != a.deployments[j].name)
    && (forall i, j :: 0 <= i < j < |a.turns| ==> a.turns[i].sessionId != a.turns[j].sessionId)
  }

  // ---------------------------------------------------------------------------------------
  // No double billing

  /** Two entries of one subject: the earlier is paid before the later starts, unless they are
      the real and the billed side of one and the same span. */
  predicate Apart(e: Entry, f: Entry) {
    e.subject == f.subject ==>
      || e.tsMs <= f.StartMs()
      || (e.kind != f.kind && e.tsMs == f.tsMs && e.seconds == f.seconds)
  }

  ghost predicate NoDoubleBilling(ledger: seq<Entry>) {
    && (forall i, j :: 0 <= i < j < |ledger| ==> Apart(ledger[i], ledger[j]))
    && (forall e <- ledger :: 1000 * e.seconds <= GAP_CAP_MS)
  }

  ghost predicate PairwiseApart(es: seq<Entry>) {
    forall i, j :: 0 <= i < j < |es| ==> Apart(es[i], es[j])
  }

  lemma PairwiseConcat(a: seq<Entry>, b: seq<Entry>)
    requires PairwiseApart(a) && PairwiseApart(b)
    requires forall e <- a, f <- b :: Apart(e, f)
    ensures PairwiseApart(a + b)
  {
  }

  lemma {:induction false} DeploymentsApart(nowMs: int, cfg: Config, ds: seq<DeploymentObs>, wm: map<Subject, int>)
    requires forall i, j :: 0 <= i < j < |ds| ==> ds[i].name != ds[j].name
    ensures PairwiseApart(AllDeploymentEntries(nowMs, cfg, ds, wm))
  {
    if ds != [] {
      var before := ds[..|ds|-1];
      var d := ds[|ds|-1];
      DeploymentsApart(nowMs, cfg, before, wm);
      DeploymentEntryWellFormed(nowMs, cfg, d, wm);
      forall e, f | e in AllDeploymentEntries(nowMs, cfg, before, wm) && f in DeploymentEntries(nowMs, cfg, d, wm)
        ensures Apart(e, f)
      {
        FromDeployment(nowMs, cfg, before, wm, e);
        var d' :| d' in before && e in DeploymentEntries(nowMs, cfg, d', wm);
        DeploymentEntryWellFormed(nowMs, cfg, d', wm);
      }
      PairwiseConcat(AllDeploymentEntries(nowMs, cfg, before, wm), DeploymentEntries(nowMs, cfg, d, wm));
    }
  }

  lemma {:induction false} TurnsApart(nowMs: int, cfg: Config, ts: seq<TurnObs>, wm: map<Subject, int>, mode: Mode)
    requires forall i, j :: 0 <= i < j < |ts| ==> ts[i].sessionId != ts[j].sessionId
    ensures PairwiseApart(AllTurnEntries(nowMs, cfg, ts, wm, mode))
  {
    if ts != [] {
      var before := ts[..|ts|-1];
      var t := ts[|ts|-1];
      TurnsApart(nowMs, cfg, before, wm, mode);
      TurnEntryWellFormed(nowMs, cfg, t, wm, mode);
      forall e, f | e in AllTurnEntries(nowMs, cfg, before, wm, mode) && f in TurnEntries(nowMs, cfg, t, wm, mode)
        ensures Apart(e, f)
      {
        FromTurn(nowMs, cfg, before, wm, mode, e);
        var t' :| t' in before && e in TurnEntries(nowMs, cfg, t', wm, mode);
        TurnEntryWellFormed(nowMs, cfg, t', wm, mode);
      }
      PairwiseConcat(AllTurnEntries(nowMs, cfg, before, wm, mode), TurnEntries(nowMs, cfg, t, wm, mode));
    }
  }

  lemma SubjectsOfKinds(a: Accrual, wm: map<Subject, int>)
    ensures forall e <- AllDeploymentEntries(a.nowMs, a.cfg, a.deployments, wm) :: e.subject.Deployment?
    ensures forall e <- AllTurnEntries(a.nowMs, a.cfg, a.turns, wm, a.mode) :: e.subject.Session?
  {
    hide QuantizeSec, RawMs, Cost, PoolPriceOf, DeploymentPriceOf, EnvPriceOf, SessionPriceOf;
    forall e | e in AllDeploymentEntries(a.nowMs, a.cfg, a.deployments, wm) ensures e.subject.Deployment? {
      FromDeployment(a.nowMs, a.cfg, a.deployments, wm, e);
    }
    forall e | e in AllTurnEntries(a.nowMs, a.cfg, a.turns, wm, a.mode) ensures e.subject.Session? {
      FromTurn(a.nowMs, a.cfg, a.turns, wm, a.mode, e);
    }
  }

  lemma AccrualsApart(a: Accrual, wm: map<Subject, int>)
    requires ListsOnce(a)
    ensures PairwiseApart(Accruals(a.nowMs, a.cfg, a.deployments, a.turns, wm, a.mode))
  {
    DeploymentsApart(a.nowMs, a.cfg, a.deployments, wm);
    TurnsApart(a.nowMs, a.cfg, a.turns, wm, a.mode);
    SubjectsOfKinds(a, wm);
    PairwiseConcat(AllDeploymentEntries(a.nowMs, a.cfg, a.deployments, wm),
                   AllTurnEntries(a.nowMs, a.cfg, a.turns, wm, a.mode));
  }

  lemma AccrueKeepsNoDoubleBilling(ledger: seq<Entry>, a: Accrual)
    requires NoDoubleBilling(ledger) && ListsOnce(a)
    ensures NoDoubleBilling(Accrue(ledger, a))
  {
    if NeedsTime(a.cfg.settings) {
      var wm := Watermarks(ledger);
      var added := Accruals(a.nowMs, a.cfg, a.deployments, a.turns, wm, a.mode);
      AccrualsApart(a, wm);
      AccrualsWellFormed(a.nowMs, a.cfg, a.deployments, a.turns, wm, a.mode);
      forall e, f | e in ledger && f in added ensures Apart(e, f) {
        assert WellFormed(f, wm);
        WatermarkIsLatest(ledger, f.subject);
      }
      assert PairwiseApart(ledger);
      PairwiseConcat(ledger, added);
      forall e | e in ledger + added ensures 1000 * e.seconds <= GAP_CAP_MS {
        if e in added { assert WellFormed(e, wm); }
      }
    }
  }

  /** Any run, any clock, any settings: no instant of a subject is billed twice for one kind,
      and no single entry exceeds the gap cap. */
  lemma {:induction false} NoDoubleBillingOverRuns(accruals: seq<Accrual>)
    requires forall a <- accruals :: ListsOnce(a)
    ensures NoDoubleBilling(Run([], accruals))
  {
    if accruals != [] {
      NoDoubleBillingOverRuns(accruals[..|accruals|-1]);
      AccrueKeepsNoDoubleBilling(Run([], accruals[..|accruals|-1]), accruals[|accruals|-1]);
    }
  }

  /** The same, said about instants: two entries of one subject and kind share no instant. */
  lemma InstantBilledOnce(accruals: seq<Accrual>, i: nat, j: nat, instantMs: int)
    requires forall a <- accruals :: ListsOnce(a)
    requires var l := Run([], accruals);
      i < |l| && j < |l| && i != j && l[i].subject == l[j].subject && l[i].kind == l[j].kind
    ensures var l := Run([], accruals);
      !(l[i].StartMs() <= instantMs < l[i].tsMs && l[j].StartMs() <= instantMs < l[j].tsMs)
  {
    NoDoubleBillingOverRuns(accruals);
    var l := Run([], accruals);
    assert if i < j then Apart(l[i], l[j]) else Apart(l[j], l[i]);
  }

  /** Skipping the computation when no time-based toggle is on loses nothing. */
  lemma GuardLosesNothing(a: Accrual, wm: map<Subject, int>)
    requires !NeedsTime(a.cfg.settings)
    ensures Accruals(a.nowMs, a.cfg, a.deployments, a.turns, wm, a.mode) == []
  {
    var es := Accruals(a.nowMs, a.cfg, a.deployments, a.turns, wm, a.mode);
    if es != [] {
      if es[0] in AllDeploymentEntries(a.nowMs, a.cfg, a.deployments, wm) {
        FromDeployment(a.nowMs, a.cfg, a.deployments, wm, es[0]);
      } else {
        FromTurn(a.nowMs, a.cfg, a.turns, wm, a.mode, es[0]);
      }
    }
  }

  // ---------------------------------------------------------------------------------------
  // Started-minute exactness

  /** Whether an accrual writes entries of this kind for this turn. */
  predicate Charges(cfg: Config, t: TurnObs, kind: Kind) {
    match kind
    case EnvPod => EnvPriceOf(cfg, t).Some?
    case SessionTime => SessionPriceOf(cfg, t).Some?
    case _ => false
  }

  function Seconds(e: Entry, id: Id, kind: Kind): nat {
    if e.subject == Session(id) && e.kind == kind then e.seconds else 0
  }

  /** Seconds of one kind a session has in the ledger. */
  function BilledSeconds(ledger: seq<Entry>, id: Id, kind: Kind): nat {
    if ledger == [] then 0
    else BilledSeconds(ledger[..|ledger|-1], id, kind) + Seconds(ledger[|ledger|-1], id, kind)
  }

  /** Where the next span of this turn starts. */
  function PaidThrough(ledger: seq<Entry>, id: Id, anchorMs: int): int {
    var wm := Watermarks(ledger);
    if Session(id) in wm && wm[Session(id)] >= anchorMs then wm[Session(id)] else anchorMs
  }

  function CeilMinutes(ms: int): int { (ms + (MINUTE_MS - 1)) / MINUTE_MS }

  lemma {:induction false} BilledSecondsConcat(a: seq<Entry>, b: seq<Entry>, id: Id, kind: Kind)
    ensures BilledSeconds(a + b, id, kind) == BilledSeconds(a, id, kind) + BilledSeconds(b, id, kind)
  {
    if b == [] {
      assert a + b == a;
    } else {
      BilledSecondsConcat(a, b[..|b|-1], id, kind);
      assert (a + b)[..|a + b|-1] == a + b[..|b|-1];
    }
  }

  lemma {:induction false} NoSeconds(es: seq<Entry>, id: Id, kind: Kind)
    requires forall e <- es :: e.subject != Session(id)
    ensures BilledSeconds(es, id, kind) == 0
  {
    if es != [] { NoSeconds(es[..|es|-1], id, kind); }
  }

  lemma SecondsOfSingle(e: Entry, id: Id, kind: Kind)
    ensures BilledSeconds([e], id, kind) == Seconds(e, id, kind)
  {
    assert [e][..0] == [];
  }

  lemma SecondsOfOwnTurn(nowMs: int, cfg: Config, t: TurnObs, wm: map<Subject, int>, mode: Mode, kind: Kind)
    requires Charges(cfg, t, kind)
    ensures BilledSeconds(TurnEntries(nowMs, cfg, t, wm, mode), t.sessionId, kind) == TurnSeconds(nowMs, t, wm, mode)
  {
    hide QuantizeSec, RawMs, EnvPriceOf, SessionPriceOf;
    var own := TurnEntries(nowMs, cfg, t, wm, mode);
    if |own| == 2 {
      assert own == [own[0]] + [own[1]];
      BilledSecondsConcat([own[0]], [own[1]], t.sessionId, kind);
      SecondsOfSingle(own[1], t.sessionId, kind);
    }
    if |own| > 0 { SecondsOfSingle(own[0], t.sessionId, kind); }
  }

  lemma OthersLeaveNoEntry(nowMs: int, cfg: Config, ts: seq<TurnObs>, wm: map<Subject, int>, mode: Mode, id: Id)
    requires forall t <- ts :: t.sessionId != id
    ensures forall e <- AllTurnEntries(nowMs, cfg, ts, wm, mode) :: e.subject != Session(id)
  {
    forall e | e in AllTurnEntries(nowMs, cfg, ts, wm, mode) ensures e.subject != Session(id) {
      FromTurn(nowMs, cfg, ts, wm, mode, e);
      var t :| t in ts && e in TurnEntries(nowMs, cfg, t, wm, mode);
      TurnEntryWellFormed(nowMs, cfg, t, wm, mode);
    }
  }

  /** Among many turns listed once, only this turn's entries concern its session. */
  lemma {:induction false} SecondsOfTurn(nowMs: int, cfg: Config, ts: seq<TurnObs>, wm: map<Subject, int>, mode: Mode,
                                         k: nat, kind: Kind)
    requires k < |ts| && Charges(cfg, ts[k], kind)
    requires forall i, j :: 0 <= i < j < |ts| ==> ts[i].sessionId != ts[j].sessionId
    ensures BilledSeconds(AllTurnEntries(nowMs, cfg, ts, wm, mode), ts[k].sessionId, kind)
         == TurnSeconds(nowMs, ts[k], wm, mode)
  {
    hide TurnEntries, TurnSeconds;
    var before, t, id := ts[..|ts|-1], ts[|ts|-1], ts[k].sessionId;
    var others, own := AllTurnEntries(nowMs, cfg, before, wm, mode), TurnEntries(nowMs, cfg, t, wm, mode);
    BilledSecondsConcat(others, own, id, kind);
    if k == |ts| - 1 {
      OthersLeaveNoEntry(nowMs, cfg, before, wm, mode, id);
      NoSeconds(others, id, kind);
      SecondsOfOwnTurn(nowMs, cfg, t, wm, mode, kind);
    } else {
      SecondsOfTurn(nowMs, cfg, before, wm, mode, k, kind);
      TurnEntryWellFormed(nowMs, cfg, t, wm, mode);
      NoSeconds(own, id, kind);
    }
  }

  /** One accrual of a charged turn: what it bills is exactly how far paid-through moves. */
  lemma AccrueMovesPaidThrough(ledger: seq<Entry>, a: Accrual, id: Id, anchorMs: int, kind: Kind)
    requires Lists(a, id, anchorMs, kind)
    ensures var sec := QuantizeSec(RawMs(a.nowMs, PaidThrough(ledger, id, anchorMs)), a.mode);
      && BilledSeconds(Accrue(ledger, a), id, kind) == BilledSeconds(ledger, id, kind) + sec
      && PaidThrough(Accrue(ledger, a), id, anchorMs) == PaidThrough(ledger, id, anchorMs) + 1000 * sec
  {
    hide Watermarks, AllDeploymentEntries, AllTurnEntries, BilledSeconds, QuantizeSec, RawMs;
    var wm := Watermarks(ledger);
    var k :| 0 <= k < |a.turns| && a.turns[k].sessionId == id
             && a.turns[k].startedAtMs == Some(anchorMs) && Charges(a.cfg, a.turns[k], kind);
    var ds := AllDeploymentEntries(a.nowMs, a.cfg, a.deployments, wm);
    var ts := AllTurnEntries(a.nowMs, a.cfg, a.turns, wm, a.mode);
    SubjectsOfKinds(a, wm);
    NoSeconds(ds, id, kind);
    SecondsOfTurn(a.nowMs, a.cfg, a.turns, wm, a.mode, k, kind);
    BilledSecondsConcat(ds, ts, id, kind);
    BilledSecondsConcat(ledger, ds + ts, id, kind);
    WatermarkAfter(ledger, a, k, kind);
  }

  lemma EntriesOfSession(ledger: seq<Entry>, a: Accrual, k: nat, e: Entry)
    requires ListsOnce(a) && k < |a.turns| && NeedsTime(a.cfg.settings)
    requires e.subject == Session(a.turns[k].sessionId)
    ensures e in Accrue(ledger, a)
       <==> e in ledger || e in TurnEntries(a.nowMs, a.cfg, a.turns[k], Watermarks(ledger), a.mode)
  {
    hide TurnEntries, AllTurnEntries, AllDeploymentEntries, Watermarks;
    var wm := Watermarks(ledger);
    SubjectsOfKinds(a, wm);
    TurnEntriesOf(a.nowMs, a.cfg, a.turns, wm, a.mode, k);
    if e in Accrue(ledger, a) && e !in ledger {
      FromTurn(a.nowMs, a.cfg, a.turns, wm, a.mode, e);
      var j :| 0 <= j < |a.turns| && e in TurnEntries(a.nowMs, a.cfg, a.turns[j], wm, a.mode);
      TurnEntryWellFormed(a.nowMs, a.cfg, a.turns[j], wm, a.mode);
    }
  }

  /** The session's new watermark is the timestamp of the entries just written for it. */
  lemma WatermarkAfter(ledger: seq<Entry>, a: Accrual, k: nat, kind: Kind)
    requires ListsOnce(a) && k < |a.turns| && Charges(a.cfg, a.turns[k], kind)
    ensures var wm, t := Watermarks(ledger), a.turns[k];
      var sec, from := TurnSeconds(a.nowMs, t, wm, a.mode), SpanFrom(Lookup(wm, Session(t.sessionId)), t.startedAtMs);
      Lookup(Watermarks(Accrue(ledger, a)), Session(t.sessionId))
        == if sec > 0 then Some(from.value + 1000 * sec) else Lookup(wm, Session(t.sessionId))
  {
    hide Accrue, Watermarks, QuantizeSec, RawMs, Price;
    var wm, t, after := Watermarks(ledger), a.turns[k], Accrue(ledger, a);
    var subject, own := Session(t.sessionId), TurnEntries(a.nowMs, a.cfg, t, wm, a.mode);
    assert NeedsTime(a.cfg.settings);
    forall e: Entry | e.subject == subject ensures e in after <==> e in ledger || e in own {
      EntriesOfSession(ledger, a, k, e);
    }
    WatermarkIsLatest(ledger, subject);
    WatermarkIsLatest(after, subject);
    TurnEntryWellFormed(a.nowMs, a.cfg, t, wm, a.mode);
    if own != [] {
      assert own[0] in own && own[0].subject == subject;
    }
  }

  /** An accrual that does not list the session: a settle of another one, or a tick that could not
      read its job. */
  predicate Spares(a: Accrual, id: Id) { forall t <- a.turns :: t.sessionId != id }

  /** A stretch of the accrual chain during one turn.  An accrual either does not list the session,
      whatever its mode and clock, or is a tick that lists and charges it and comes at most the gap
      cap after the last one that did; the first of those at most the gap cap after the anchor. */
  predicate TicksOver(run: seq<Accrual>, id: Id, anchorMs: int, kind: Kind) {
    run == [] ||
    (var before, a := run[..|run|-1], run[|run|-1];
     && TicksOver(before, id, anchorMs, kind)
     && (Spares(a, id)
         || (a.mode == Tick && Lists(a, id, anchorMs, kind)
             && LastTime(before, id, anchorMs) <= a.nowMs <= LastTime(before, id, anchorMs) + GAP_CAP_MS)))
  }

  /** When the session was last listed, or the anchor. */
  function LastTime(run: seq<Accrual>, id: Id, anchorMs: int): int {
    if run == [] then anchorMs
    else if Spares(run[|run|-1], id) then LastTime(run[..|run|-1], id, anchorMs)
    else run[|run|-1].nowMs
  }

  predicate Lists(a: Accrual, id: Id, anchorMs: int, kind: Kind) {
    && ListsOnce(a)
    && exists k :: 0 <= k < |a.turns| && a.turns[k].sessionId == id
                   && a.turns[k].startedAtMs == Some(anchorMs) && Charges(a.cfg, a.turns[k], kind)
  }

  /** An accrual that does not list a session leaves its bill and its paid-through mark alone. */
  lemma SparedIsUntouched(ledger: seq<Entry>, a: Accrual, id: Id, anchorMs: int, kind: Kind)
    requires Spares(a, id)
    ensures BilledSeconds(Accrue(ledger, a), id, kind) == BilledSeconds(ledger, id, kind)
    ensures PaidThrough(Accrue(ledger, a), id, anchorMs) == PaidThrough(ledger, id, anchorMs)
  {
    hide Watermarks, AllDeploymentEntries, AllTurnEntries, BilledSeconds;
    var wm := Watermarks(ledger);
    if NeedsTime(a.cfg.settings) {
      var added := Accruals(a.nowMs, a.cfg, a.deployments, a.turns, wm, a.mode);
      SubjectsOfKinds(a, wm);
      OthersLeaveNoEntry(a.nowMs, a.cfg, a.turns, wm, a.mode, id);
      NoSeconds(added, id, kind);
      BilledSecondsConcat(ledger, added, id, kind);
      SameWatermark(ledger, added, Session(id));
    }
  }

  lemma SameWatermark(ledger: seq<Entry>, added: seq<Entry>, subject: Subject)
    requires forall e <- added :: e.subject != subject
    ensures Lookup(Watermarks(ledger + added), subject) == Lookup(Watermarks(ledger), subject)
  {
    hide Watermarks;
    WatermarkIsLatest(ledger, subject);
    WatermarkIsLatest(ledger + added, subject);
    assert forall e <- ledger :: e in ledger + added;
    assert forall e: Entry | e.subject == subject :: e in ledger + added ==> e in ledger;
  }

  lemma TickArithmetic(nowMs: int, fromMs: int)
    requires fromMs <= nowMs < fromMs + GAP_CAP_MS + MINUTE_MS
    ensures 0 <= nowMs - (fromMs + 1000 * QuantizeSec(RawMs(nowMs, fromMs), Tick)) < MINUTE_MS
  {
  }

  lemma WholeMinutes(billed: int, rawMs: nat, mode: Mode)
    requires billed % 60 == 0
    ensures (billed + QuantizeSec(rawMs, mode)) % 60 == 0
  {
  }

  /** After any such run: whole minutes are billed from the anchor on, and less than one minute
      of the elapsed time is still unbilled. */
  lemma {:induction false} TicksLeaveLessThanAMinute(ledger: seq<Entry>, run: seq<Accrual>, id: Id, anchorMs: int, kind: Kind)
    requires PaidThrough(ledger, id, anchorMs) == anchorMs
    requires TicksOver(run, id, anchorMs, kind)
    ensures var after := Run(ledger, run);
      var paid, billed := PaidThrough(after, id, anchorMs), BilledSeconds(after, id, kind) - BilledSeconds(ledger, id, kind);
      && 0 <= LastTime(run, id, anchorMs) - paid < MINUTE_MS
      && paid == anchorMs + 1000 * billed
      && billed >= 0 && billed % 60 == 0
  {
    hide QuantizeSec, PaidThrough, BilledSeconds, Accrue, RawMs, Spares, Lists;
    if run != [] {
      var before, a := run[..|run|-1], run[|run|-1];
      TicksLeaveLessThanAMinute(ledger, before, id, anchorMs, kind);
      var soFar := Run(ledger, before);
      if Spares(a, id) {
        SparedIsUntouched(soFar, a, id, anchorMs, kind);
      } else {
        AccrueMovesPaidThrough(soFar, a, id, anchorMs, kind);
        TickArithmetic(a.nowMs, PaidThrough(soFar, id, anchorMs));
        WholeMinutes(BilledSeconds(soFar, id, kind) - BilledSeconds(ledger, id, kind),
                     RawMs(a.nowMs, PaidThrough(soFar, id, anchorMs)), a.mode);
      }
    }
  }

  lemma SettleArithmetic(endMs: int, anchorMs: int, fromMs: int, billed: nat)
    requires billed % 60 == 0 && fromMs == anchorMs + 1000 * billed <= endMs
    ensures billed + QuantizeSec(RawMs(endMs, fromMs), Settle) == 60 * CeilMinutes(endMs - anchorMs)
       <==> endMs - fromMs <= GAP_CAP_MS
  {
    var minutes := billed / 60;
    assert endMs - anchorMs == minutes * MINUTE_MS + (endMs - fromMs);
    assert CeilMinutes(endMs - anchorMs) == minutes + CeilMinutes(endMs - fromMs);
  }

  /** The settle completes the bill: the started minutes from the anchor to the end of the turn,
      whatever the tick schedule was.  That is so exactly when the time since paid-through fits
      the gap cap; a longer gap is cut to the cap. */
  lemma SettleBillsStartedMinutes(ledger: seq<Entry>, run: seq<Accrual>, settle: Accrual, id: Id, anchorMs: int, kind: Kind)
    requires PaidThrough(ledger, id, anchorMs) == anchorMs
    requires TicksOver(run, id, anchorMs, kind)
    requires settle.mode == Settle && Lists(settle, id, anchorMs, kind)
    requires settle.nowMs >= LastTime(run, id, anchorMs)
    ensures BilledSeconds(Accrue(Run(ledger, run), settle), id, kind) - BilledSeconds(ledger, id, kind)
              == 60 * CeilMinutes(settle.nowMs - anchorMs)
            <==> settle.nowMs - PaidThrough(Run(ledger, run), id, anchorMs) <= GAP_CAP_MS
  {
    hide QuantizeSec, RawMs, PaidThrough, BilledSeconds, Accrue, CeilMinutes, TicksOver, LastTime, Lists;
    var ticked := Run(ledger, run);
    TicksLeaveLessThanAMinute(ledger, run, id, anchorMs, kind);
    AccrueMovesPaidThrough(ticked, settle, id, anchorMs, kind);
    SettleArithmetic(settle.nowMs, anchorMs, PaidThrough(ticked, id, anchorMs),
                     BilledSeconds(ticked, id, kind) - BilledSeconds(ledger, id, kind));
  }

  /** A turn whose ticks come at most 120 s apart and which settles within a minute of the last
      one is billed its started minutes, independently of when the ticks came and of what else was
      accrued in between. */
  lemma StartedMinuteExact(ledger: seq<Entry>, run: seq<Accrual>, settle: Accrual, id: Id, anchorMs: int, kind: Kind)
    requires PaidThrough(ledger, id, anchorMs) == anchorMs
    requires TicksOver(run, id, anchorMs, kind)
    requires settle.mode == Settle && Lists(settle, id, anchorMs, kind)
    requires LastTime(run, id, anchorMs) <= settle.nowMs <= LastTime(run, id, anchorMs) + MINUTE_MS
    ensures BilledSeconds(Accrue(Run(ledger, run), settle), id, kind) - BilledSeconds(ledger, id, kind)
         == 60 * CeilMinutes(settle.nowMs - anchorMs)
  {
    hide TicksOver, LastTime, Lists, Accrue, BilledSeconds, PaidThrough, CeilMinutes;
    SettleBillsStartedMinutes(ledger, run, settle, id, anchorMs, kind);
    TicksLeaveLessThanAMinute(ledger, run, id, anchorMs, kind);
  }

  // ---------------------------------------------------------------------------------------
  // Repeated settles

  /** Nothing at or before paid-through is billed again, whatever the anchor, mode or prices. */
  lemma PaidTimeIsNotBilledAgain(ledger: seq<Entry>, a: Accrual, id: Id, kind: Kind)
    requires Session(id) in Watermarks(ledger) && a.nowMs <= Watermarks(ledger)[Session(id)]
    ensures BilledSeconds(Accrue(ledger, a), id, kind) == BilledSeconds(ledger, id, kind)
  {
    hide Watermarks, AllDeploymentEntries, AllTurnEntries, Cost, EnvPriceOf, SessionPriceOf, BilledSeconds;
    var wm := Watermarks(ledger);
    if NeedsTime(a.cfg.settings) {
      var added := Accruals(a.nowMs, a.cfg, a.deployments, a.turns, wm, a.mode);
      SubjectsOfKinds(a, wm);
      forall e | e in added ensures e.subject != Session(id) {
        if e in AllTurnEntries(a.nowMs, a.cfg, a.turns, wm, a.mode) {
          FromTurn(a.nowMs, a.cfg, a.turns, wm, a.mode, e);
          var t :| t in a.turns && e in TurnEntries(a.nowMs, a.cfg, t, wm, a.mode);
          TurnEntryWellFormed(a.nowMs, a.cfg, t, wm, a.mode);
        }
      }
      NoSeconds(added, id, kind);
      BilledSecondsConcat(ledger, added, id, kind);
    }
  }

  /** A settle pays past its own `now` (when the gap cap does not cut it), so any accrual up to
      the paid-through mark, a repeated settle in particular, adds nothing. */
  lemma SettleTwiceAddsNothing(ledger: seq<Entry>, settle: Accrual, id: Id, anchorMs: int, kind: Kind, again: Accrual)
    requires settle.mode == Settle && Lists(settle, id, anchorMs, kind)
    requires PaidThrough(ledger, id, anchorMs) < settle.nowMs <= PaidThrough(ledger, id, anchorMs) + GAP_CAP_MS
    requires again.nowMs <= PaidThrough(Accrue(ledger, settle), id, anchorMs)
    ensures settle.nowMs <= PaidThrough(Accrue(ledger, settle), id, anchorMs) < settle.nowMs + MINUTE_MS
    ensures BilledSeconds(Accrue(Accrue(ledger, settle), again), id, kind) == BilledSeconds(Accrue(ledger, settle), id, kind)
  {
    AccrueMovesPaidThrough(ledger, settle, id, anchorMs, kind);
    assert PaidThrough(Accrue(ledger, settle), id, anchorMs) > anchorMs;
    PaidTimeIsNotBilledAgain(Accrue(ledger, settle), again, id, kind);
  }
}
