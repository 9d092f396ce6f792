/** Time-cost accrual: control-plane/src/costs.ts (computeAccruals) and
    control-plane/src/cost-sampler.ts (serialized ticks and settles over the ledger).

    Times are integer milliseconds, money is `real`.  The settings and the price list may
    change between any two accruals, so both are parameters. */
module CostLedger {
  import opened Wrappers

  type Id = string

  datatype Settings = Settings(
    enabled: bool, trackPoolCosts: bool, trackEnvCosts: bool,
    billing: bool, billSessionTime: bool, billDeploymentTime: bool)

  datatype Per = Minute | Hour | Day | Month | Year | OtherUnit
  datatype TimePrice = TimePrice(amount: real, per: Per)
  datatype PriceKind = PoolPrice | DeploymentPrice | EnvironmentPrice
  datatype PriceRow = PriceRow(
    kind: PriceKind, ref: Id,
    realPodTime: Option<TimePrice>, billedPodTime: Option<TimePrice>, billedSessionTime: Option<TimePrice>)

  /** What the administrator configured at the moment of one accrual. */
  datatype Config = Config(settings: Settings, prices: seq<PriceRow>)

  datatype DeploymentObs = DeploymentObs(name: Id, pool: Option<Id>, readyReplicas: int)
  datatype TurnObs = TurnObs(sessionId: Id, environmentId: Option<Id>, startedAtMs: Option<int>)

  datatype Subject = Deployment(name: Id) | Session(id: Id)
  datatype Kind = PoolPod | DeploymentTime | EnvPod | SessionTime

  datatype Entry = Entry(
    kind: Kind, subject: Subject, seconds: nat, replicas: int,
    realCost: Option<real>, billedCost: Option<real>, tsMs: int)
  {
    function StartMs(): int { tsMs - 1000 * seconds }
  }

  datatype Mode = Tick | Settle

  const GAP_CAP_MS: nat := 120_000
  const MINUTE_MS: nat := 60_000

  // ---------------------------------------------------------------------------------------
  // Rates, spans and quanta

  /** Money per second; a negative amount or an unknown unit costs nothing. */
  function RatePerSecond(p: TimePrice): (r: real)
    ensures r >= 0.0
  {
    if !(p.amount >= 0.0) then 0.0
    else match p.per
      case Minute => p.amount / 60.0
      case Hour => p.amount / 3600.0
      case Day => p.amount / 86_400.0
      case Month => p.amount / 2_592_000.0
      case Year => p.amount / 31_536_000.0
      case OtherUnit => 0.0
  }

  /** `rate` taken `n` times: a product, unfolded as a sum so that the solver meets no product of
      two unknowns (TimesIsProduct says it is the product). */
  function Times(rate: real, n: nat): (r: real)
    ensures rate >= 0.0 ==> r >= 0.0
    ensures n == 0 ==> r == 0.0
  {
    if n == 0 then 0.0 else Times(rate, n - 1) + rate
  }

  lemma {:induction false} TimesIsProduct(rate: real, n: nat)
    ensures Times(rate, n) == rate * (n as real)
  {
    if n > 0 { TimesIsProduct(rate, n - 1); }
  }

  function Price(prices: seq<PriceRow>, kind: PriceKind, ref: Option<Id>): Option<PriceRow> {
    if ref.None? || prices == [] then None
    else if prices[0].kind == kind && prices[0].ref == ref.value then Some(prices[0])
    else Price(prices[1..], kind, ref)
  }

  /** A span starts at the later of the watermark and the pod-start anchor. */
  function SpanFrom(watermark: Option<int>, anchor: Option<int>): Option<int> {
    match (watermark, anchor)
    case (Some(w), Some(a)) => Some(if w >= a then w else a)
    case (Some(w), None) => Some(w)
    case (None, _) => anchor
  }

  function RawMs(nowMs: int, fromMs: int): nat {
    var elapsed := if nowMs > fromMs then nowMs - fromMs else 0;
    if elapsed < GAP_CAP_MS then elapsed else GAP_CAP_MS
  }

  function QuantizeSec(rawMs: nat, mode: Mode): nat {
    match mode
    case Tick => rawMs / MINUTE_MS * 60
    case Settle => (rawMs + (MINUTE_MS - 1)) / MINUTE_MS * 60
  }

  function Lookup(wm: map<Subject, int>, subject: Subject): Option<int> {
    if subject in wm then Some(wm[subject]) else None
  }

  // ---------------------------------------------------------------------------------------
  // The entries one observation yields

  function PoolPriceOf(cfg: Config, d: DeploymentObs): Option<TimePrice> {
    var row := Price(cfg.prices, PoolPrice, d.pool);
    if cfg.settings.enabled && cfg.settings.trackPoolCosts && row.Some? then row.value.realPodTime else None
  }

  function DeploymentPriceOf(cfg: Config, d: DeploymentObs): Option<TimePrice> {
    var row := Price(cfg.prices, DeploymentPrice, Some(d.name));
    if cfg.settings.billing && cfg.settings.billDeploymentTime && row.Some? then row.value.billedPodTime else None
  }

  function EnvPriceOf(cfg: Config, t: TurnObs): Option<TimePrice> {
    var row := Price(cfg.prices, EnvironmentPrice, t.environmentId);
    if cfg.settings.enabled && cfg.settings.trackEnvCosts && row.Some? then row.value.realPodTime else None
  }

  function SessionPriceOf(cfg: Config, t: TurnObs): Option<TimePrice> {
    var row := Price(cfg.prices, EnvironmentPrice, t.environmentId);
    if cfg.settings.billing && cfg.settings.billSessionTime && row.Some? then row.value.billedSessionTime else None
  }

  /** Rate times replicas times seconds, when a price applies. */
  function Cost(price: Option<TimePrice>, replicas: nat, sec: nat): (c: Option<real>)
    ensures c.Some? <==> price.Some?
    ensures c.Some? ==> c.value >= 0.0
    ensures c.Some? && sec == 0 ==> c.value == 0.0
  {
    if price.None? then None else Some(Times(Times(RatePerSecond(price.value), replicas), sec))
  }

  lemma CostIsTimes(price: TimePrice, replicas: nat, sec: nat)
    ensures Cost(Some(price), replicas, sec).value == RatePerSecond(price) * (replicas as real) * (sec as real)
  {
    TimesIsProduct(RatePerSecond(price), replicas);
    TimesIsProduct(Times(RatePerSecond(price), replicas), sec);
  }

  /** The seconds of a price's unit; an unknown one has none. */
  function UnitSeconds(per: Per): nat {
    match per
    case Minute => 60
    case Hour => 3600
    case Day => 86_400
    case Month => 2_592_000
    case Year => 31_536_000
    case OtherUnit => 0
  }

  /** What `seconds` of `replicas` cost at the price: the unit's seconds cost its amount, and a negative
      amount or an unknown unit costs nothing. */
  predicate Buys(p: TimePrice, replicas: int, seconds: nat, cost: real) {
    if p.amount >= 0.0 && p.per != OtherUnit
    then cost * (UnitSeconds(p.per) as real) == p.amount * (replicas as real) * (seconds as real)
    else cost == 0.0
  }

  lemma RateOfUnit(p: TimePrice)
    ensures p.amount >= 0.0 && p.per != OtherUnit ==> RatePerSecond(p) * (UnitSeconds(p.per) as real) == p.amount
    ensures !(p.amount >= 0.0 && p.per != OtherUnit) ==> RatePerSecond(p) == 0.0
  {
  }

  lemma ScaledOut(rate: real, n: real, sec: real, unit: real, amount: real)
    requires rate * unit == amount
    ensures rate * n * sec * unit == amount * n * sec
  {
    Swapped(rate, n, unit);
    Swapped(rate * n, sec, unit);
  }

  lemma Swapped(a: real, b: real, c: real)
    ensures a * b * c == a * c * b
  {
  }

  lemma NothingTimes(rate: real, n: real, sec: real)
    requires rate == 0.0
    ensures rate * n * sec == 0.0
  {
  }

  /** The ledger charges the configured amount for each unit, per replica, for the seconds of the span. */
  lemma CostIsProduct(price: TimePrice, replicas: nat, sec: nat)
    ensures Buys(price, replicas, sec, Cost(Some(price), replicas, sec).value)
  {
    hide RatePerSecond, Cost, UnitSeconds;
    CostIsTimes(price, replicas, sec);
    RateOfUnit(price);
    if price.amount >= 0.0 && price.per != OtherUnit {
      ScaledOut(RatePerSecond(price), replicas as real, sec as real, UnitSeconds(price.per) as real, price.amount);
    } else {
      NothingTimes(RatePerSecond(price), replicas as real, sec as real);
    }
  }

  /** A real-cost and a billed-cost entry over the same span, each only when its price applies. */
  function EntryPair(realKind: Kind, billedKind: Kind, subject: Subject, sec: nat, replicas: int, tsMs: int,
                     realCost: Option<real>, billedCost: Option<real>): seq<Entry>
  {
    (if realCost.None? then [] else [Entry(realKind, subject, sec, replicas, realCost, None, tsMs)])
    + (if billedCost.None? then [] else [Entry(billedKind, subject, sec, replicas, None, billedCost, tsMs)])
  }

  /** Deployments have no settle: they always floor.  A ready deployment without a watermark
      plants zero-second rows at `now`, so that the next tick has something to accrue from. */
  function DeploymentEntries(nowMs: int, cfg: Config, d: DeploymentObs, wm: map<Subject, int>): seq<Entry> {
    var watermark := Lookup(wm, Deployment(d.name));
    if d.readyReplicas <= 0 then []
    else if watermark.None? then
      EntryPair(PoolPod, DeploymentTime, Deployment(d.name), 0, d.readyReplicas, nowMs,
                Cost(PoolPriceOf(cfg, d), d.readyReplicas, 0), Cost(DeploymentPriceOf(cfg, d), d.readyReplicas, 0))
    else
      var sec := QuantizeSec(RawMs(nowMs, watermark.value), Tick);
      if sec == 0 then [] else
        EntryPair(PoolPod, DeploymentTime, Deployment(d.name), sec, d.readyReplicas, watermark.value + sec * 1000,
                  Cost(PoolPriceOf(cfg, d), d.readyReplicas, sec), Cost(DeploymentPriceOf(cfg, d), d.readyReplicas, sec))
  }

  function TurnEntries(nowMs: int, cfg: Config, t: TurnObs, wm: map<Subject, int>, mode: Mode): seq<Entry> {
    var from := SpanFrom(Lookup(wm, Session(t.sessionId)), t.startedAtMs);
    if from.None? then [] else
      var sec := QuantizeSec(RawMs(nowMs, from.value), mode);
      if sec == 0 then [] else
        EntryPair(EnvPod, SessionTime, Session(t.sessionId), sec, 1, from.value + sec * 1000,
                  Cost(EnvPriceOf(cfg, t), 1, sec), Cost(SessionPriceOf(cfg, t), 1, sec))
  }

  function AllDeploymentEntries(nowMs: int, cfg: Config, ds: seq<DeploymentObs>, wm: map<Subject, int>): seq<Entry> {
    if ds == [] then []
    else AllDeploymentEntries(nowMs, cfg, ds[..|ds|-1], wm) + DeploymentEntries(nowMs, cfg, ds[|ds|-1], wm)
  }

  function AllTurnEntries(nowMs: int, cfg: Config, ts: seq<TurnObs>, wm: map<Subject, int>, mode: Mode): seq<Entry> {
    if ts == [] then []
    else AllTurnEntries(nowMs, cfg, ts[..|ts|-1], wm, mode) + TurnEntries(nowMs, cfg, ts[|ts|-1], wm, mode)
  }

  function Accruals(nowMs: int, cfg: Config, ds: seq<DeploymentObs>, ts: seq<TurnObs>, wm: map<Subject, int>, mode: Mode)
    : seq<Entry>
  {
    AllDeploymentEntries(nowMs, cfg, ds, wm) + AllTurnEntries(nowMs, cfg, ts, wm, mode)
  }

  /** What one entry adds to a session's billed total. */
  function Charge(e: Entry, id: Id): real {
    if e.kind == SessionTime && e.subject == Session(id) && e.billedCost.Some? then e.billedCost.value else 0.0
  }

  /** Session-time money in a stretch of ledger. */
  function Billed(entries: seq<Entry>, id: Id): real {
    if entries == [] then 0.0 else Billed(entries[..|entries|-1], id) + Charge(entries[|entries|-1], id)
  }

  lemma {:induction false} BilledConcat(a: seq<Entry>, b: seq<Entry>, id: Id)
    ensures Billed(a + b, id) == Billed(a, id) + Billed(b, id)
  {
    if b == [] {
      assert a + b == a;
    } else {
      BilledConcat(a, b[..|b|-1], id);
      assert (a + b)[..|a + b|-1] == a + b[..|b|-1];
    }
  }

  lemma BilledSingle(e: Entry, id: Id)
    ensures Billed([e], id) == Charge(e, id)
  {
    assert [e][..0] == [];
  }

  lemma BilledAtMostOne(es: seq<Entry>, id: Id)
    requires |es| <= 1
    ensures Billed(es, id) == if es == [] then 0.0 else Charge(es[0], id)
  {
    hide Charge;
    if es != [] {
      assert es == [es[0]];
      BilledSingle(es[0], id);
    } else {
      assert es == [];
    }
  }

  lemma BilledPair(realKind: Kind, billedKind: Kind, subject: Subject, sec: nat, replicas: int, tsMs: int,
                   realCost: Option<real>, billedCost: Option<real>, id: Id)
    requires realKind != SessionTime
    ensures Billed(EntryPair(realKind, billedKind, subject, sec, replicas, tsMs, realCost, billedCost), id)
         == if billedKind == SessionTime && subject == Session(id) && billedCost.Some? then billedCost.value else 0.0
  {
    hide Billed;
    var first := if realCost.None? then [] else [Entry(realKind, subject, sec, replicas, realCost, None, tsMs)];
    var second := if billedCost.None? then [] else [Entry(billedKind, subject, sec, replicas, None, billedCost, tsMs)];
    BilledConcat(first, second, id);
    BilledAtMostOne(first, id);
    BilledAtMostOne(second, id);
  }

  lemma DeploymentBillsNoSession(nowMs: int, cfg: Config, d: DeploymentObs, wm: map<Subject, int>, id: Id)
    ensures Billed(DeploymentEntries(nowMs, cfg, d, wm), id) == 0.0
  {
    hide Billed, EntryPair, Cost, PoolPriceOf, DeploymentPriceOf, QuantizeSec, RawMs;
    NothingBilled(id);
    var watermark := Lookup(wm, Deployment(d.name));
    if d.readyReplicas > 0 {
      var sec := if watermark.None? then 0 else QuantizeSec(RawMs(nowMs, watermark.value), Tick);
      var tsMs := if watermark.None? then nowMs else watermark.value + sec * 1000;
      BilledPair(PoolPod, DeploymentTime, Deployment(d.name), sec, d.readyReplicas, tsMs,
                 Cost(PoolPriceOf(cfg, d), d.readyReplicas, sec), Cost(DeploymentPriceOf(cfg, d), d.readyReplicas, sec), id);
    }
  }

  lemma NothingBilled(id: Id)
    ensures Billed([], id) == 0.0
  {
  }

  lemma {:induction false} DeploymentsBillNoSession(nowMs: int, cfg: Config, ds: seq<DeploymentObs>, wm: map<Subject, int>, id: Id)
    ensures Billed(AllDeploymentEntries(nowMs, cfg, ds, wm), id) == 0.0
  {
    hide Billed, DeploymentEntries;
    if ds == [] {
      NothingBilled(id);
    } else {
      var before, own := AllDeploymentEntries(nowMs, cfg, ds[..|ds|-1], wm), DeploymentEntries(nowMs, cfg, ds[|ds|-1], wm);
      DeploymentsBillNoSession(nowMs, cfg, ds[..|ds|-1], wm, id);
      DeploymentBillsNoSession(nowMs, cfg, ds[|ds|-1], wm, id);
      BilledConcat(before, own, id);
    }
  }

  function TurnSeconds(nowMs: int, t: TurnObs, wm: map<Subject, int>, mode: Mode): nat {
    var from := SpanFrom(Lookup(wm, Session(t.sessionId)), t.startedAtMs);
    if from.None? then 0 else QuantizeSec(RawMs(nowMs, from.value), mode)
  }

  function TurnCharge(nowMs: int, cfg: Config, t: TurnObs, wm: map<Subject, int>, mode: Mode, id: Id): real {
    var sec := TurnSeconds(nowMs, t, wm, mode);
    var cost := Cost(SessionPriceOf(cfg, t), 1, sec);
    if t.sessionId == id && cost.Some? && sec > 0 then cost.value else 0.0
  }

  lemma BilledOfTurn(nowMs: int, cfg: Config, t: TurnObs, wm: map<Subject, int>, mode: Mode, id: Id)
    ensures Billed(TurnEntries(nowMs, cfg, t, wm, mode), id)
         == TurnCharge(nowMs, cfg, t, wm, mode, id)
  {
    hide Cost, EnvPriceOf, SessionPriceOf, QuantizeSec, RawMs, EntryPair, SpanFrom;
    var from := SpanFrom(Lookup(wm, Session(t.sessionId)), t.startedAtMs);
    var sec := TurnSeconds(nowMs, t, wm, mode);
    if from.Some? {
      BilledPair(EnvPod, SessionTime, Session(t.sessionId), sec, 1, from.value + sec * 1000,
                 Cost(EnvPriceOf(cfg, t), 1, sec), Cost(SessionPriceOf(cfg, t), 1, sec), id);
    }
  }

  /** The per-session totals handed to the session rows are exactly what the new entries bill. */
  ghost predicate Tallies(sessionBilled: map<Id, real>, entries: seq<Entry>) {
    forall id :: Billed(entries, id) == if id in sessionBilled then sessionBilled[id] else 0.0
  }

  function AddCharge(sessionBilled: map<Id, real>, id: Id, cost: real): map<Id, real> {
    sessionBilled[id := (if id in sessionBilled then sessionBilled[id] else 0.0) + cost]
  }

  lemma TallyTurn(before: seq<Entry>, sessionBilled: map<Id, real>,
                  nowMs: int, cfg: Config, t: TurnObs, wm: map<Subject, int>, mode: Mode)
    requires Tallies(sessionBilled, before)
    ensures Tallies(if TurnSeconds(nowMs, t, wm, mode) > 0 && SessionPriceOf(cfg, t).Some?
                    then AddCharge(sessionBilled, t.sessionId, Cost(SessionPriceOf(cfg, t), 1, TurnSeconds(nowMs, t, wm, mode)).value)
                    else sessionBilled,
                    before + TurnEntries(nowMs, cfg, t, wm, mode))
  {
    forall id ensures Billed(before + TurnEntries(nowMs, cfg, t, wm, mode), id)
                   == Billed(before, id) + TurnCharge(nowMs, cfg, t, wm, mode, id)
    {
      BilledConcat(before, TurnEntries(nowMs, cfg, t, wm, mode), id);
      BilledOfTurn(nowMs, cfg, t, wm, mode, id);
    }
  }

  // ---------------------------------------------------------------------------------------
  // computeAccruals

  lemma NoObservations(nowMs: int, cfg: Config, wm: map<Subject, int>, mode: Mode)
    ensures AllDeploymentEntries(nowMs, cfg, [], wm) == [] && AllTurnEntries(nowMs, cfg, [], wm, mode) == []
    ensures Tallies(map[], [])
  {
  }

  lemma OneMoreDeployment(nowMs: int, cfg: Config, ds: seq<DeploymentObs>, wm: map<Subject, int>, i: nat)
    requires i < |ds|
    ensures AllDeploymentEntries(nowMs, cfg, ds[..i+1], wm)
         == AllDeploymentEntries(nowMs, cfg, ds[..i], wm) + DeploymentEntries(nowMs, cfg, ds[i], wm)
  {
    hide DeploymentEntries;
    assert ds[..i+1][..i] == ds[..i];
  }

  lemma OneMoreTurn(nowMs: int, cfg: Config, ts: seq<TurnObs>, wm: map<Subject, int>, mode: Mode, i: nat)
    requires i < |ts|
    ensures AllTurnEntries(nowMs, cfg, ts[..i+1], wm, mode)
         == AllTurnEntries(nowMs, cfg, ts[..i], wm, mode) + TurnEntries(nowMs, cfg, ts[i], wm, mode)
  {
    hide TurnEntries;
    assert ts[..i+1][..i] == ts[..i];
  }

  method AccrueDeployments(nowMs: int, cfg: Config, deployments: seq<DeploymentObs>, watermarks: map<Subject, int>)
    returns (entries: seq<Entry>)
    ensures entries == AllDeploymentEntries(nowMs, cfg, deployments, watermarks)
  {
    hide PoolPriceOf, DeploymentPriceOf, QuantizeSec, RawMs, Cost, EntryPair, AllDeploymentEntries;
    NoObservations(nowMs, cfg, watermarks, Tick);
    entries := [];
    for i := 0 to |deployments|
      invariant entries == AllDeploymentEntries(nowMs, cfg, deployments[..i], watermarks)
    {
      var d := deployments[i];
      OneMoreDeployment(nowMs, cfg, deployments, watermarks, i);
      if d.readyReplicas <= 0 { continue; }
      var watermark := Lookup(watermarks, Deployment(d.name));
      var from := SpanFrom(watermark, None);
      var sec := if from.None? then 0 else QuantizeSec(RawMs(nowMs, from.value), Tick);
      var realCost := Cost(PoolPriceOf(cfg, d), d.readyReplicas, sec);
      var billedCost := Cost(DeploymentPriceOf(cfg, d), d.readyReplicas, sec);
      if from.None? || sec == 0 {
        if watermark.None? {
          entries := entries + EntryPair(PoolPod, DeploymentTime, Deployment(d.name), 0, d.readyReplicas, nowMs,
                                         realCost, billedCost);
        }
        continue;
      }
      entries := entries + EntryPair(PoolPod, DeploymentTime, Deployment(d.name), sec, d.readyReplicas,
                                     from.value + sec * 1000, realCost, billedCost);
    }
    assert deployments[..|deployments|] == deployments;
  }

  method AccrueTurns(nowMs: int, cfg: Config, turns: seq<TurnObs>, watermarks: map<Subject, int>, mode: Mode)
    returns (entries: seq<Entry>, sessionBilled: map<Id, real>)
    ensures entries == AllTurnEntries(nowMs, cfg, turns, watermarks, mode)
    ensures Tallies(sessionBilled, entries)
  {
    hide EnvPriceOf, SessionPriceOf, QuantizeSec, RawMs, Cost, EntryPair, AllTurnEntries, Tallies, SpanFrom;
    NoObservations(nowMs, cfg, watermarks, mode);
    entries, sessionBilled := [], map[];
    for i := 0 to |turns|
      invariant entries == AllTurnEntries(nowMs, cfg, turns[..i], watermarks, mode)
      invariant Tallies(sessionBilled, entries)
    {
      var t := turns[i];
      OneMoreTurn(nowMs, cfg, turns, watermarks, mode, i);
      TallyTurn(entries, sessionBilled, nowMs, cfg, t, watermarks, mode);
      var from := SpanFrom(Lookup(watermarks, Session(t.sessionId)), t.startedAtMs);
      var sec := if from.None? then 0 else QuantizeSec(RawMs(nowMs, from.value), mode);
      if sec == 0 { continue; }
      var tsMs := from.value + sec * 1000;
      var realCost, billedCost := Cost(EnvPriceOf(cfg, t), 1, sec), Cost(SessionPriceOf(cfg, t), 1, sec);
      var rows := EntryPair(EnvPod, SessionTime, Session(t.sessionId), sec, 1, tsMs, realCost, billedCost);
      entries := entries + rows;
      if billedCost.Some? {
        sessionBilled := AddCharge(sessionBilled, t.sessionId, billedCost.value);
      }
    }
    assert turns[..|turns|] == turns;
  }

  method ComputeAccruals(nowMs: int, cfg: Config, deployments: seq<DeploymentObs>, turns: seq<TurnObs>,
                         watermarks: map<Subject, int>, mode: Mode)
    returns (entries: seq<Entry>, sessionBilled: map<Id, real>)
    ensures entries == Accruals(nowMs, cfg, deployments, turns, watermarks, mode)
    ensures Tallies(sessionBilled, entries)
  {
    var fixedCosts := AccrueDeployments(nowMs, cfg, deployments, watermarks);
    var turnCosts;
    turnCosts, sessionBilled := AccrueTurns(nowMs, cfg, turns, watermarks, mode);
    entries := fixedCosts + turnCosts;
    forall id ensures Billed(entries, id) == Billed(turnCosts, id) {
      DeploymentsBillNoSession(nowMs, cfg, deployments, watermarks, id);
      BilledConcat(fixedCosts, turnCosts, id);
    }
  }

  // ---------------------------------------------------------------------------------------
  // What every new entry satisfies

  /** Whole minutes up to the gap cap, starting no earlier than the subject's watermark, with
      exactly the one cost column its kind owns, and that cost not negative. */
  ghost predicate WellFormed(e: Entry, wm: map<Subject, int>) {
    && (e.seconds == 0 || e.seconds == 60 || e.seconds == 120)
    && (e.subject in wm ==> wm[e.subject] <= e.StartMs())
    && e.subject.Session? == (e.kind == EnvPod || e.kind == SessionTime)
    && (if e.kind == PoolPod || e.kind == EnvPod
        then e.realCost.Some? && e.billedCost.None? && e.realCost.value >= 0.0
        else e.realCost.None? && e.billedCost.Some? && e.billedCost.value >= 0.0)
    && (e.seconds == 0 ==> e.subject.Deployment? && (e.realCost == Some(0.0) || e.billedCost == Some(0.0)))
  }

  lemma DeploymentEntryWellFormed(nowMs: int, cfg: Config, d: DeploymentObs, wm: map<Subject, int>)
    ensures forall e <- DeploymentEntries(nowMs, cfg, d, wm) :: WellFormed(e, wm) && e.subject == Deployment(d.name)
  {
  }

  lemma TurnEntryWellFormed(nowMs: int, cfg: Config, t: TurnObs, wm: map<Subject, int>, mode: Mode)
    ensures forall e <- TurnEntries(nowMs, cfg, t, wm, mode) :: WellFormed(e, wm) && e.subject == Session(t.sessionId)
  {
  }

  /** Row `k` is the first of the price list for this resource. */
  predicate FirstRow(prices: seq<PriceRow>, kind: PriceKind, ref: Option<Id>, k: nat) {
    && k < |prices| && ref == Some(prices[k].ref) && prices[k].kind == kind
    && forall j :: 0 <= j < k ==> prices[j].kind != kind || ref != Some(prices[j].ref)
  }

  lemma {:induction false} PriceIsFirst(prices: seq<PriceRow>, kind: PriceKind, ref: Option<Id>)
    ensures forall k: nat :: FirstRow(prices, kind, ref, k) ==> Price(prices, kind, ref) == Some(prices[k])
    ensures Price(prices, kind, ref).Some? ==> exists k: nat :: FirstRow(prices, kind, ref, k)
    decreases |prices|
  {
    if prices != [] && ref.Some? {
      if prices[0].kind == kind && prices[0].ref == ref.value {
        assert FirstRow(prices, kind, ref, 0);
      } else {
        PriceIsFirst(prices[1..], kind, ref);
        forall k: nat | FirstRow(prices, kind, ref, k) ensures k > 0 && FirstRow(prices[1..], kind, ref, k - 1) {
        }
        if Price(prices, kind, ref).Some? {
          var k: nat :| FirstRow(prices[1..], kind, ref, k);
          assert FirstRow(prices, kind, ref, k + 1);
        }
      }
    }
  }

  function Amount(e: Entry): real {
    if e.realCost.Some? then e.realCost.value else if e.billedCost.Some? then e.billedCost.value else 0.0
  }

  /** There is an entry of this kind exactly when it is due, switched on and priced, and it costs what
      the price says for its seconds. */
  ghost predicate Charged(es: seq<Entry>, kind: Kind, due: bool, on: bool, price: Option<TimePrice>, replicas: int) {
    && ((exists e <- es :: e.kind == kind) <==> due && on && price.Some?)
    && (forall e <- es | e.kind == kind :: e.replicas == replicas && price.Some? && Buys(price.value, replicas, e.seconds, Amount(e)))
  }

  lemma PairIsCharged(realKind: Kind, billedKind: Kind, subject: Subject, sec: nat, replicas: nat, tsMs: int,
                      realPrice: Option<TimePrice>, billedPrice: Option<TimePrice>)
    requires realKind != billedKind
    ensures var es := EntryPair(realKind, billedKind, subject, sec, replicas, tsMs,
                                Cost(realPrice, replicas, sec), Cost(billedPrice, replicas, sec));
      Charged(es, realKind, true, true, realPrice, replicas) && Charged(es, billedKind, true, true, billedPrice, replicas)
  {
    hide Cost, Buys;
    var es := EntryPair(realKind, billedKind, subject, sec, replicas, tsMs, Cost(realPrice, replicas, sec), Cost(billedPrice, replicas, sec));
    if realPrice.Some? {
      CostIsProduct(realPrice.value, replicas, sec);
      assert es[0].kind == realKind;
    }
    if billedPrice.Some? {
      CostIsProduct(billedPrice.value, replicas, sec);
      assert es[|es|-1].kind == billedKind;
    }
  }

  /** Where the next span of a turn starts: at the later of what is paid through and the pod's start. */
  predicate StartsAt(t: TurnObs, wm: map<Subject, int>, from: int) {
    var paid := Lookup(wm, Session(t.sessionId));
    && (paid == Some(from) || t.startedAtMs == Some(from))
    && (paid.Some? ==> paid.value <= from) && (t.startedAtMs.Some? ==> t.startedAtMs.value <= from)
  }

  /** The seconds billed of a stretch: whole minutes passed, or on a settle started, and two at most. */
  predicate Takes(elapsedMs: int, mode: Mode, seconds: nat) {
    match mode
    case Tick => seconds == if elapsedMs < 60_000 then 0 else if elapsedMs < 120_000 then 60 else 120
    case Settle => seconds == if elapsedMs <= 0 then 0 else if elapsedMs <= 60_000 then 60 else 120
  }

  lemma QuantumTakes(nowMs: int, fromMs: int, mode: Mode)
    ensures Takes(nowMs - fromMs, mode, QuantizeSec(RawMs(nowMs, fromMs), mode))
  {
  }

  /** A whole minute has passed, or on a settle any time at all. */
  ghost predicate TurnIsDue(nowMs: int, t: TurnObs, wm: map<Subject, int>, mode: Mode) {
    exists from :: StartsAt(t, wm, from) && if mode == Tick then nowMs - from >= 60_000 else nowMs > from
  }

  lemma SpanStarts(t: TurnObs, wm: map<Subject, int>)
    ensures var from := SpanFrom(Lookup(wm, Session(t.sessionId)), t.startedAtMs);
            forall f :: StartsAt(t, wm, f) <==> from == Some(f)
  {
  }

  lemma TurnSecondsAreDue(nowMs: int, t: TurnObs, wm: map<Subject, int>, mode: Mode)
    ensures TurnSeconds(nowMs, t, wm, mode) > 0 <==> TurnIsDue(nowMs, t, wm, mode)
  {
    hide QuantizeSec, RawMs, StartsAt, SpanFrom;
    SpanStarts(t, wm);
    var from := SpanFrom(Lookup(wm, Session(t.sessionId)), t.startedAtMs);
    if from.Some? {
      QuantumTakes(nowMs, from.value, mode);
      assert StartsAt(t, wm, from.value);
    }
  }

  /** A turn's entries start where its paid time ends and take the minutes due, at most two. */
  lemma TurnSpans(nowMs: int, cfg: Config, t: TurnObs, wm: map<Subject, int>, mode: Mode)
    ensures forall e <- TurnEntries(nowMs, cfg, t, wm, mode) ::
      e.seconds > 0 && StartsAt(t, wm, e.StartMs()) && Takes(nowMs - e.StartMs(), mode, e.seconds)
  {
    hide QuantizeSec, RawMs, StartsAt, SpanFrom, EnvPriceOf, SessionPriceOf, Cost, Takes;
    SpanStarts(t, wm);
    var from := SpanFrom(Lookup(wm, Session(t.sessionId)), t.startedAtMs);
    if from.Some? { QuantumTakes(nowMs, from.value, mode); }
  }

  lemma TurnPrices(cfg: Config, t: TurnObs)
    ensures forall k: nat :: FirstRow(cfg.prices, EnvironmentPrice, t.environmentId, k) ==>
      && EnvPriceOf(cfg, t) == (if cfg.settings.enabled && cfg.settings.trackEnvCosts then cfg.prices[k].realPodTime else None)
      && SessionPriceOf(cfg, t) == (if cfg.settings.billing && cfg.settings.billSessionTime then cfg.prices[k].billedSessionTime else None)
    ensures (forall k: nat :: !FirstRow(cfg.prices, EnvironmentPrice, t.environmentId, k)) ==>
              EnvPriceOf(cfg, t) == None && SessionPriceOf(cfg, t) == None
  {
    hide Price, FirstRow;
    PriceIsFirst(cfg.prices, EnvironmentPrice, t.environmentId);
  }

  /** A turn that is due is charged, of the environment's first price row, the real pod price and the
      billed session price, each where its settings are on and it is set; without a row, nothing. */
  lemma TurnCharges(nowMs: int, cfg: Config, t: TurnObs, wm: map<Subject, int>, mode: Mode)
    ensures var es, due := TurnEntries(nowMs, cfg, t, wm, mode), TurnIsDue(nowMs, t, wm, mode);
      && (forall k: nat | FirstRow(cfg.prices, EnvironmentPrice, t.environmentId, k) ::
            && Charged(es, EnvPod, due, cfg.settings.enabled && cfg.settings.trackEnvCosts, cfg.prices[k].realPodTime, 1)
            && Charged(es, SessionTime, due, cfg.settings.billing && cfg.settings.billSessionTime, cfg.prices[k].billedSessionTime, 1))
      && ((forall k: nat :: !FirstRow(cfg.prices, EnvironmentPrice, t.environmentId, k)) ==> es == [])
  {
    hide EnvPriceOf, SessionPriceOf, TurnEntries, Buys, FirstRow, TurnIsDue;
    TurnPrices(cfg, t);
    TurnIsCharged(nowMs, cfg, t, wm, mode);
  }

  lemma TurnIsCharged(nowMs: int, cfg: Config, t: TurnObs, wm: map<Subject, int>, mode: Mode)
    ensures var es, due := TurnEntries(nowMs, cfg, t, wm, mode), TurnIsDue(nowMs, t, wm, mode);
      && Charged(es, EnvPod, due, true, EnvPriceOf(cfg, t), 1) && Charged(es, SessionTime, due, true, SessionPriceOf(cfg, t), 1)
      && (EnvPriceOf(cfg, t).None? && SessionPriceOf(cfg, t).None? ==> es == [])
  {
    hide EnvPriceOf, SessionPriceOf, QuantizeSec, RawMs, Cost, Buys, TurnIsDue;
    TurnSecondsAreDue(nowMs, t, wm, mode);
    var from := SpanFrom(Lookup(wm, Session(t.sessionId)), t.startedAtMs);
    if from.Some? {
      var sec := QuantizeSec(RawMs(nowMs, from.value), mode);
      PairIsCharged(EnvPod, SessionTime, Session(t.sessionId), sec, 1, from.value + sec * 1000, EnvPriceOf(cfg, t), SessionPriceOf(cfg, t));
    }
  }

  lemma DeploymentPrices(cfg: Config, d: DeploymentObs)
    ensures forall k: nat :: FirstRow(cfg.prices, PoolPrice, d.pool, k) ==>
      PoolPriceOf(cfg, d) == if cfg.settings.enabled && cfg.settings.trackPoolCosts then cfg.prices[k].realPodTime else None
    ensures (forall k: nat :: !FirstRow(cfg.prices, PoolPrice, d.pool, k)) ==> PoolPriceOf(cfg, d) == None
    ensures forall k: nat :: FirstRow(cfg.prices, DeploymentPrice, Some(d.name), k) ==>
      DeploymentPriceOf(cfg, d) == if cfg.settings.billing && cfg.settings.billDeploymentTime then cfg.prices[k].billedPodTime else None
    ensures (forall k: nat :: !FirstRow(cfg.prices, DeploymentPrice, Some(d.name), k)) ==> DeploymentPriceOf(cfg, d) == None
  {
    hide Price, FirstRow;
    PriceIsFirst(cfg.prices, PoolPrice, d.pool);
    PriceIsFirst(cfg.prices, DeploymentPrice, Some(d.name));
  }

  /** A deployment is due when it runs and has never been seen or a whole minute has passed. */
  predicate DeploymentIsDue(nowMs: int, d: DeploymentObs, wm: map<Subject, int>) {
    d.readyReplicas > 0 && (Deployment(d.name) in wm ==> nowMs - wm[Deployment(d.name)] >= 60_000)
  }

  /** A deployment that is due is charged its pool's real price and its own billed price, of the first
      row for each, where the settings are on and the price is set. */
  lemma DeploymentCharges(nowMs: int, cfg: Config, d: DeploymentObs, wm: map<Subject, int>)
    ensures var es, due := DeploymentEntries(nowMs, cfg, d, wm), DeploymentIsDue(nowMs, d, wm);
      && (forall k: nat | FirstRow(cfg.prices, PoolPrice, d.pool, k) ::
            Charged(es, PoolPod, due, cfg.settings.enabled && cfg.settings.trackPoolCosts, cfg.prices[k].realPodTime, d.readyReplicas))
      && ((forall k: nat :: !FirstRow(cfg.prices, PoolPrice, d.pool, k)) ==> forall e <- es :: e.kind != PoolPod)
      && (forall k: nat | FirstRow(cfg.prices, DeploymentPrice, Some(d.name), k) ::
            Charged(es, DeploymentTime, due, cfg.settings.billing && cfg.settings.billDeploymentTime, cfg.prices[k].billedPodTime, d.readyReplicas))
      && ((forall k: nat :: !FirstRow(cfg.prices, DeploymentPrice, Some(d.name), k)) ==> forall e <- es :: e.kind != DeploymentTime)
  {
    hide PoolPriceOf, DeploymentPriceOf, DeploymentEntries, DeploymentIsDue, Buys, FirstRow;
    DeploymentPrices(cfg, d);
    DeploymentIsCharged(nowMs, cfg, d, wm);
  }

  lemma DeploymentIsCharged(nowMs: int, cfg: Config, d: DeploymentObs, wm: map<Subject, int>)
    ensures var es, due := DeploymentEntries(nowMs, cfg, d, wm), DeploymentIsDue(nowMs, d, wm);
      && Charged(es, PoolPod, due, true, PoolPriceOf(cfg, d), d.readyReplicas)
      && Charged(es, DeploymentTime, due, true, DeploymentPriceOf(cfg, d), d.readyReplicas)
  {
    hide PoolPriceOf, DeploymentPriceOf, QuantizeSec, RawMs, Cost, Buys;
    var watermark := Lookup(wm, Deployment(d.name));
    if d.readyReplicas > 0 {
      if watermark.None? {
        PairIsCharged(PoolPod, DeploymentTime, Deployment(d.name), 0, d.readyReplicas, nowMs, PoolPriceOf(cfg, d), DeploymentPriceOf(cfg, d));
      } else {
        var sec := QuantizeSec(RawMs(nowMs, watermark.value), Tick);
        QuantumTakes(nowMs, watermark.value, Tick);
        PairIsCharged(PoolPod, DeploymentTime, Deployment(d.name), sec, d.readyReplicas, watermark.value + sec * 1000,
                      PoolPriceOf(cfg, d), DeploymentPriceOf(cfg, d));
      }
    }
  }

  /** A deployment's entries start at its watermark and take the whole minutes passed, at most two; the
      first sighting plants rows of no length at the present. */
  lemma DeploymentSpans(nowMs: int, cfg: Config, d: DeploymentObs, wm: map<Subject, int>)
    ensures forall e <- DeploymentEntries(nowMs, cfg, d, wm) ::
      if Deployment(d.name) in wm
      then e.seconds > 0 && e.StartMs() == wm[Deployment(d.name)] && Takes(nowMs - e.StartMs(), Tick, e.seconds)
      else e.seconds == 0 && e.tsMs == nowMs
  {
    hide QuantizeSec, RawMs, PoolPriceOf, DeploymentPriceOf, Cost, Takes;
    if Deployment(d.name) in wm { QuantumTakes(nowMs, wm[Deployment(d.name)], Tick); }
  }

  lemma {:induction false} FromDeployment(nowMs: int, cfg: Config, ds: seq<DeploymentObs>, wm: map<Subject, int>, e: Entry)
    requires e in AllDeploymentEntries(nowMs, cfg, ds, wm)
    ensures exists d <- ds :: e in DeploymentEntries(nowMs, cfg, d, wm)
  {
    if e !in DeploymentEntries(nowMs, cfg, ds[|ds|-1], wm) {
      FromDeployment(nowMs, cfg, ds[..|ds|-1], wm, e);
    }
  }

  lemma {:induction false} FromTurn(nowMs: int, cfg: Config, ts: seq<TurnObs>, wm: map<Subject, int>, mode: Mode, e: Entry)
    requires e in AllTurnEntries(nowMs, cfg, ts, wm, mode)
    ensures exists t <- ts :: e in TurnEntries(nowMs, cfg, t, wm, mode)
  {
    if e !in TurnEntries(nowMs, cfg, ts[|ts|-1], wm, mode) {
      FromTurn(nowMs, cfg, ts[..|ts|-1], wm, mode, e);
    }
  }

  lemma {:induction false} DeploymentEntriesOf(nowMs: int, cfg: Config, ds: seq<DeploymentObs>, wm: map<Subject, int>, k: nat)
    requires k < |ds|
    ensures forall e <- DeploymentEntries(nowMs, cfg, ds[k], wm) :: e in AllDeploymentEntries(nowMs, cfg, ds, wm)
  {
    if k < |ds| - 1 { DeploymentEntriesOf(nowMs, cfg, ds[..|ds|-1], wm, k); }
  }

  lemma {:induction false} TurnEntriesOf(nowMs: int, cfg: Config, ts: seq<TurnObs>, wm: map<Subject, int>, mode: Mode, k: nat)
    requires k < |ts|
    ensures forall e <- TurnEntries(nowMs, cfg, ts[k], wm, mode) :: e in AllTurnEntries(nowMs, cfg, ts, wm, mode)
  {
    if k < |ts| - 1 { TurnEntriesOf(nowMs, cfg, ts[..|ts|-1], wm, mode, k); }
  }

  /** The new entries are those of every deployment and every turn observed, and no others. */
  lemma AccrualsAreAll(nowMs: int, cfg: Config, ds: seq<DeploymentObs>, ts: seq<TurnObs>, wm: map<Subject, int>, mode: Mode, e: Entry)
    ensures e in Accruals(nowMs, cfg, ds, ts, wm, mode)
       <==> (exists d <- ds :: e in DeploymentEntries(nowMs, cfg, d, wm)) || (exists t <- ts :: e in TurnEntries(nowMs, cfg, t, wm, mode))
  {
    hide DeploymentEntries, TurnEntries;
    if e in AllDeploymentEntries(nowMs, cfg, ds, wm) { FromDeployment(nowMs, cfg, ds, wm, e); }
    if e in AllTurnEntries(nowMs, cfg, ts, wm, mode) { FromTurn(nowMs, cfg, ts, wm, mode, e); }
    forall k | 0 <= k < |ds| && e in DeploymentEntries(nowMs, cfg, ds[k], wm) ensures e in AllDeploymentEntries(nowMs, cfg, ds, wm) {
      DeploymentEntriesOf(nowMs, cfg, ds, wm, k);
    }
    forall k | 0 <= k < |ts| && e in TurnEntries(nowMs, cfg, ts[k], wm, mode) ensures e in AllTurnEntries(nowMs, cfg, ts, wm, mode) {
      TurnEntriesOf(nowMs, cfg, ts, wm, mode, k);
    }
  }

  lemma AccrualsWellFormed(nowMs: int, cfg: Config, ds: seq<DeploymentObs>, ts: seq<TurnObs>, wm: map<Subject, int>, mode: Mode)
    ensures forall e <- Accruals(nowMs, cfg, ds, ts, wm, mode) :: WellFormed(e, wm)
  {
    forall e | e in Accruals(nowMs, cfg, ds, ts, wm, mode) ensures WellFormed(e, wm) {
      if e in AllDeploymentEntries(nowMs, cfg, ds, wm) {
        FromDeployment(nowMs, cfg, ds, wm, e);
        var d :| d in ds && e in DeploymentEntries(nowMs, cfg, d, wm);
        DeploymentEntryWellFormed(nowMs, cfg, d, wm);
      } else {
        FromTurn(nowMs, cfg, ts, wm, mode, e);
        var t :| t in ts && e in TurnEntries(nowMs, cfg, t, wm, mode);
        TurnEntryWellFormed(nowMs, cfg, t, wm, mode);
      }
    }
  }

  lemma {:induction false} NonNegative(entries: seq<Entry>, id: Id)
    requires forall e <- entries :: e.billedCost.Some? ==> e.billedCost.value >= 0.0
    ensures Billed(entries, id) >= 0.0
  {
    if entries != [] { NonNegative(entries[..|entries|-1], id); }
  }

  // ---------------------------------------------------------------------------------------
  // The ledger and one serialized accrual

  /** Per subject, the latest timestamp of its entries. */
  function Watermarks(entries: seq<Entry>): map<Subject, int> {
    if entries == [] then map[] else Raise(Watermarks(entries[..|entries|-1]), entries[|entries|-1])
  }

  function Raise(wm: map<Subject, int>, e: Entry): map<Subject, int> {
    wm[e.subject := if e.subject in wm && wm[e.subject] > e.tsMs then wm[e.subject] else e.tsMs]
  }

  /** A subject has a watermark exactly when it has an entry, and it is the largest timestamp. */
  lemma {:induction false} WatermarkIsLatest(entries: seq<Entry>, s: Subject)
    ensures s in Watermarks(entries) <==> exists e <- entries :: e.subject == s
    ensures s in Watermarks(entries) ==>
      && (exists e <- entries :: e.subject == s && e.tsMs == Watermarks(entries)[s])
      && (forall e <- entries :: e.subject == s ==> e.tsMs <= Watermarks(entries)[s])
  {
    if entries != [] {
      var before, last := entries[..|entries|-1], entries[|entries|-1];
      WatermarkIsLatest(before, s);
      assert forall e :: e in entries <==> e in before || e == last;
    }
  }

  predicate NeedsTime(s: Settings) {
    || (s.enabled && (s.trackPoolCosts || s.trackEnvCosts))
    || (s.billing && (s.billSessionTime || s.billDeploymentTime))
  }

  /** One tick or one settle, with what it observed. */
  datatype Accrual = Accrual(nowMs: int, cfg: Config, deployments: seq<DeploymentObs>, turns: seq<TurnObs>, mode: Mode)

  function Accrue(ledger: seq<Entry>, a: Accrual): seq<Entry> {
    if NeedsTime(a.cfg.settings)
    then ledger + Accruals(a.nowMs, a.cfg, a.deployments, a.turns, Watermarks(ledger), a.mode)
    else ledger
  }

  lemma {:induction false} NoneBilled(entries: seq<Entry>, id: Id)
    requires forall e <- entries :: e.subject != Session(id)
    ensures Billed(entries, id) == 0.0
  {
    if entries != [] { NoneBilled(entries[..|entries|-1], id); }
  }

  /** The cost_entries table and the billed_cost column of the session rows. */
  class CostStore {
    var entries: seq<Entry>
    var billedCost: map<Id, real>

    /** Every session's accumulated total is the sum of its session-time entries. */
    ghost predicate Valid()
      reads this
    {
      forall id <- billedCost :: billedCost[id] == Billed(entries, id)
    }

    constructor ()
      ensures Valid() && entries == [] && billedCost == map[]
    {
      entries, billedCost := [], map[];
    }

    /** A new session's row; no entry can be its own yet. */
    method AddSession(id: Id)
      requires Valid() && id !in billedCost && forall e <- entries :: e.subject != Session(id)
      modifies this`billedCost
      ensures Valid() && billedCost == old(billedCost)[id := 0.0]
    {
      NoneBilled(entries, id);
      billedCost := billedCost[id := 0.0];
    }

    method CostWatermarks() returns (wm: map<Subject, int>)
      ensures wm == Watermarks(entries)
    {
      wm := map[];
      for i := 0 to |entries|
        invariant wm == Watermarks(entries[..i])
      {
        var e := entries[i];
        assert entries[..i+1][..i] == entries[..i];
        wm := Raise(wm, e);
      }
      assert entries[..|entries|] == entries;
    }

    method InsertCostEntries(drafts: seq<Entry>)
      modifies this`entries
      ensures entries == old(entries) + drafts
    {
      for i := 0 to |drafts|
        invariant entries == old(entries) + drafts[..i]
      {
        entries := entries + [drafts[i]];
      }
    }

    /** Bumps a session row; a row that is gone, or an amount of zero, changes nothing. */
    method AddSessionBilledCost(id: Id, amount: real)
      modifies this`billedCost
      ensures billedCost == if amount > 0.0 && id in old(billedCost)
                            then old(billedCost)[id := old(billedCost)[id] + amount] else old(billedCost)
    {
      if amount > 0.0 && id in billedCost {
        billedCost := billedCost[id := billedCost[id] + amount];
      }
    }

    method RunAccrual(a: Accrual)
      requires Valid()
      modifies this
      ensures Valid()
      ensures entries == Accrue(old(entries), a)
      ensures billedCost.Keys == old(billedCost.Keys)
    {
      var watermarks := CostWatermarks();
      if !NeedsTime(a.cfg.settings) { return; }
      ghost var ledger := entries;
      var drafts, sessionBilled := ComputeAccruals(a.nowMs, a.cfg, a.deployments, a.turns, watermarks, a.mode);
      forall id { BilledConcat(ledger, drafts, id); }
      forall id ensures Billed(drafts, id) >= 0.0 {
        AccrualsWellFormed(a.nowMs, a.cfg, a.deployments, a.turns, watermarks, a.mode);
        NonNegative(drafts, id);
      }
      InsertCostEntries(drafts);
      var todo := sessionBilled.Keys;
      while todo != {}
        invariant todo <= sessionBilled.Keys
        invariant entries == ledger + drafts
        invariant billedCost.Keys == old(billedCost.Keys)
        invariant forall id <- billedCost ::
            billedCost[id] == Billed(ledger, id) + if id in sessionBilled && id !in todo then sessionBilled[id] else 0.0
      {
        var id :| id in todo;
        assert sessionBilled[id] == Billed(drafts, id);
        AddSessionBilledCost(id, sessionBilled[id]);
        todo := todo - {id};
      }
    }
  }
}
