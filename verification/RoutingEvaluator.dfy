/** Routing as the gateway runs it, helm-charts/files/custom_callbacks.py (_evaluate_routing), and what
    the control plane's static analysis promises about it. */
module RoutingEvaluator {
  import opened Wrappers
  import opened Routing

  /** The cached target table: the phase of each local deployment, and the external endpoints. */
  datatype Targets = Targets(phases: map<string, string>, external: set<string>) {
    predicate Has(name: string) { name in phases || name in external }

    predicate Up(name: string) { name in external || (name in phases && phases[name] in {"Ready", "Idle"}) }
  }

  datatype Answer<T> = Got(value: T) | Raised

  datatype CostSettings = CostSettings(tracking: bool, billing: bool)

  /** Everything a condition asks the world.  Spend, usage and the dice are asked anew by each
      condition (rule, position); a classifier is asked by name. */
  datatype World = World(
    settings: Answer<CostSettings>,
    spent: (nat, nat) -> Answer<Option<real>>,
    used: (nat, nat) -> Answer<Option<int>>,
    estimate: int,
    clock: string -> Option<(nat, nat)>,
    dice: (nat, nat) -> real,
    labels: string -> Option<string>)

  /** Half-open on the day's minutes; from > to wraps overnight; a bad timezone never matches. */
  predicate InWindow(days: set<nat>, from: nat, to: nat, now: Option<(nat, nat)>) {
    match now
    case None => false
    case Some((day, minute)) =>
      && (days == {} || day in days)
      && if from <= to then from <= minute < to else minute >= from || minute < to
  }

  /** Whether condition `j` of rule `i` succeeds; an error is a failure. */
  predicate Holds(c: Condition, target: string, i: nat, j: nat, t: Targets, w: World) {
    match c
    case Cost(ledger, op, threshold, _) =>
      && w.settings.Got?
      && (ledger == Billed ==> w.settings.value.billing)
      && (ledger == Real ==> w.settings.value.tracking)
      && w.spent(i, j).Got? && w.spent(i, j).value.Some?
      && if op == Below then w.spent(i, j).value.value < threshold else w.spent(i, j).value.value >= threshold
    case Tokens(op, count, _) =>
      && w.used(i, j).Got? && w.used(i, j).value.Some?
      && if op == Below then w.used(i, j).value.value < count else w.used(i, j).value.value >= count
    case Context(size, tokens) => if size == AtMost then w.estimate <= tokens else w.estimate > tokens
    case Available => t.Up(target)
    case Time(days, from, to, tz) => InWindow(days, from, to, w.clock(tz))
    case Split(percent) => w.dice(i, j) * 100.0 < percent
    case Classify(deployment, _, wanted) => w.labels(deployment).Some? && w.labels(deployment).value in wanted
  }

  predicate Matches(spec: Spec, i: nat, t: Targets, w: World)
    requires i < |spec.rules|
  {
    var r := spec.rules[i];
    t.Has(r.target) && forall j :: 0 <= j < |r.conditions| ==> Holds(r.conditions[j], r.target, i, j, t, w)
  }

  datatype Verdict = Route(target: string, rule: Option<nat>) | Rejected | Unavailable(target: string)

  /** The terminal as it stands, and the terminal against a loaded table. */
  function Verbatim(terminal: Terminal): Verdict {
    if terminal.RouteTo? then Route(terminal.target, None) else Rejected
  }

  function AtTerminal(terminal: Terminal, t: Targets): Verdict {
    if terminal.RouteTo? && !t.Has(terminal.target) then Unavailable(terminal.target) else Verbatim(terminal)
  }

  /** First match from rule `i` on. */
  function DecidedFrom(spec: Spec, i: nat, t: Targets, w: World): Verdict
    requires i <= |spec.rules|
    decreases |spec.rules| - i
  {
    if i == |spec.rules| then AtTerminal(spec.terminal, t)
    else if Matches(spec, i, t, w) then Route(spec.rules[i].target, Some(i))
    else DecidedFrom(spec, i + 1, t, w)
  }

  function Decided(spec: Spec, targets: Option<Targets>, w: World): Verdict {
    match targets
    case None => Verbatim(spec.terminal)
    case Some(t) => DecidedFrom(spec, 0, t, w)
  }

  // ---------------------------------------------------------------------------------------
  // The log

  datatype RuleVerdict = MissingTarget | NoMatch | Matched
  datatype LogCondition = LogCondition(condition: Condition, ok: bool)
  datatype LogEntry = LogEntry(rule: nat, target: string, verdict: RuleVerdict, conditions: seq<LogCondition>)

  /** `conditions` are rule `i`'s own up to its first failure, each with how it came out. */
  predicate FaithfulConditions(spec: Spec, i: nat, t: Targets, w: World, conditions: seq<LogCondition>)
    requires i < |spec.rules|
  {
    var r := spec.rules[i];
    && |conditions| <= |r.conditions|
    && (forall j :: 0 <= j < |conditions| ==>
          conditions[j] == LogCondition(r.conditions[j], Holds(r.conditions[j], r.target, i, j, t, w)))
    && (forall j :: 0 <= j < |conditions| - 1 ==> conditions[j].ok)
    && (|conditions| < |r.conditions| ==> conditions != [] && !conditions[|conditions|-1].ok)
  }

  predicate FaithfulEntry(spec: Spec, i: nat, t: Targets, w: World, e: LogEntry)
    requires i < |spec.rules|
  {
    && e.rule == i && e.target == spec.rules[i].target
    && if !t.Has(e.target) then e.verdict == MissingTarget && e.conditions == []
       else FaithfulConditions(spec, i, t, w, e.conditions)
            && e.verdict == if forall c <- e.conditions :: c.ok then Matched else NoMatch
  }

  /** Consecutive rules from 0 to the first match, or to the end. */
  predicate FaithfulLog(spec: Spec, t: Targets, w: World, log: seq<LogEntry>) {
    && |log| <= |spec.rules|
    && (forall i :: 0 <= i < |log| ==> FaithfulEntry(spec, i, t, w, log[i]))
    && (forall i :: 0 <= i < |log| - 1 ==> !log[i].verdict.Matched?)
    && (|log| < |spec.rules| ==> log != [] && log[|log|-1].verdict.Matched?)
  }

  /** The verdict a reader of the log comes to, given the terminal and the table. */
  function Replay(log: seq<LogEntry>, terminal: Terminal, t: Targets): Verdict {
    if log == [] then AtTerminal(terminal, t)
    else if log[0].verdict.Matched? then Route(log[0].target, Some(log[0].rule))
    else Replay(log[1..], terminal, t)
  }

  lemma MatchedIffMatches(spec: Spec, i: nat, t: Targets, w: World, e: LogEntry)
    requires i < |spec.rules| && FaithfulEntry(spec, i, t, w, e)
    ensures e.verdict.Matched? <==> Matches(spec, i, t, w)
  {
    hide Holds;
    if t.Has(e.target) {
      if forall c <- e.conditions :: c.ok {
        forall j | 0 <= j < |spec.rules[i].conditions|
          ensures Holds(spec.rules[i].conditions[j], e.target, i, j, t, w)
        {
          assert e.conditions[j] in e.conditions;
        }
      } else {
        var c :| c in e.conditions && !c.ok;
        var j :| 0 <= j < |e.conditions| && e.conditions[j] == c;
        assert !Holds(spec.rules[i].conditions[j], e.target, i, j, t, w);
      }
    }
  }

  /** The log alone gives the verdict. */
  lemma {:induction false} ReplayFrom(spec: Spec, t: Targets, w: World, log: seq<LogEntry>, i: nat)
    requires FaithfulLog(spec, t, w, log) && i <= |log|
    requires i == |log| ==> |log| == |spec.rules|
    ensures Replay(log[i..], spec.terminal, t) == DecidedFrom(spec, i, t, w)
    decreases |log| - i
  {
    hide FaithfulEntry, Matches;
    if i < |log| {
      MatchedIffMatches(spec, i, t, w, log[i]);
      if !log[i].verdict.Matched? {
        assert log[i..][1..] == log[i+1..];
        ReplayFrom(spec, t, w, log, i + 1);
      } else {
        assert log[i].target == spec.rules[i].target && log[i].rule == i by { EntryNamesRule(spec, i, t, w, log[i]); }
      }
    }
  }

  lemma EntryNamesRule(spec: Spec, i: nat, t: Targets, w: World, e: LogEntry)
    requires i < |spec.rules| && FaithfulEntry(spec, i, t, w, e)
    ensures e.target == spec.rules[i].target && e.rule == i
  {
  }

  lemma LogTellsVerdict(spec: Spec, t: Targets, w: World, log: seq<LogEntry>)
    requires FaithfulLog(spec, t, w, log)
    ensures Replay(log, spec.terminal, t) == Decided(spec, Some(t), w)
  {
    assert log[0..] == log;
    ReplayFrom(spec, t, w, log, 0);
  }

  /** Rule `k` is chosen exactly when it is the least one whose target exists and whose conditions
      all succeed. */
  lemma {:induction false} ChosenIsFirstMatch(spec: Spec, i: nat, k: nat, t: Targets, w: World)
    requires i <= k < |spec.rules|
    ensures DecidedFrom(spec, i, t, w) == Route(spec.rules[k].target, Some(k))
            <==> Matches(spec, k, t, w) && forall j :: i <= j < k ==> !Matches(spec, j, t, w)
    decreases k - i
  {
    hide Matches;
    if Matches(spec, i, t, w) || i == k {
      ChosenIsNoEarlier(spec, i + 1, t, w);
    } else {
      ChosenIsFirstMatch(spec, i + 1, k, t, w);
      assert (forall j :: i <= j < k ==> !Matches(spec, j, t, w)) <==> forall j :: i + 1 <= j < k ==> !Matches(spec, j, t, w);
    }
  }

  lemma {:induction false} ChosenIsNoEarlier(spec: Spec, i: nat, t: Targets, w: World)
    requires i <= |spec.rules|
    ensures var v := DecidedFrom(spec, i, t, w); v.Route? && v.rule.Some? ==> i <= v.rule.value < |spec.rules|
    decreases |spec.rules| - i
  {
    hide Matches;
    if i < |spec.rules| { ChosenIsNoEarlier(spec, i + 1, t, w); }
  }

  /** The terminal decides exactly when no rule matches. */
  lemma {:induction false} TerminalIffNoMatch(spec: Spec, i: nat, t: Targets, w: World)
    requires i <= |spec.rules|
    ensures DecidedFrom(spec, i, t, w) == AtTerminal(spec.terminal, t)
            <==> forall k :: i <= k < |spec.rules| ==> !Matches(spec, k, t, w)
    ensures (exists k :: i <= k < |spec.rules| && Matches(spec, k, t, w)) ==> DecidedFrom(spec, i, t, w).Route?
    decreases |spec.rules| - i
  {
    hide Matches;
    if i < |spec.rules| {
      TerminalIffNoMatch(spec, i + 1, t, w);
    }
  }

  /** Where no rule matches, a routing terminal routes to its target if that exists, and is unavailable if
      not; a rejecting one rejects.  With an unknown table it stands unchecked. */
  lemma TerminalDecides(spec: Spec, t: Targets, w: World)
    requires forall k :: 0 <= k < |spec.rules| ==> !Matches(spec, k, t, w)
    ensures Decided(spec, Some(t), w) ==
      match spec.terminal
      case Reject => Rejected
      case RouteTo(target) => if target in t.phases || target in t.external then Route(target, None) else Unavailable(target)
    ensures Decided(spec, None, w) ==
      match spec.terminal
      case Reject => Rejected
      case RouteTo(target) => Route(target, None)
  {
    TerminalIffNoMatch(spec, 0, t, w);
  }

  // ---------------------------------------------------------------------------------------
  // The evaluator

  /** The verdicts of the classifiers asked so far, and the order they were asked in. */
  ghost predicate CacheIsSound(cache: map<string, Option<string>>, asked: seq<string>, w: World) {
    Distinct(asked) && (forall d :: d in asked <==> d in cache) && forall d <- cache :: cache[d] == w.labels(d)
  }

  method CheckCondition(c: Condition, target: string, i: nat, j: nat, t: Targets, w: World,
                        cache: map<string, Option<string>>, asked: seq<string>)
    returns (ok: bool, cache': map<string, Option<string>>, asked': seq<string>)
    requires CacheIsSound(cache, asked, w)
    ensures CacheIsSound(cache', asked', w) && asked <= asked'
    ensures ok <==> Holds(c, target, i, j, t, w)
  {
    cache', asked', ok := cache, asked, false;
    match c {
      case Cost(ledger, op, threshold, _) =>
        if w.settings.Raised? { return; }
        if ledger == Billed && !w.settings.value.billing { return; }
        if ledger == Real && !w.settings.value.tracking { return; }
        match w.spent(i, j) {
          case Got(Some(spent)) => ok := if op == Below then spent < threshold else spent >= threshold;
          case _ =>
        }
      case Tokens(op, count, _) =>
        match w.used(i, j) {
          case Got(Some(used)) => ok := if op == Below then used < count else used >= count;
          case _ =>
        }
      case Context(size, tokens) => ok := if size == AtMost then w.estimate <= tokens else w.estimate > tokens;
      case Available => ok := (target in t.phases && t.phases[target] in ["Ready", "Idle"]) || target in t.external;
      case Time(days, from, to, tz) => ok := MatchTime(days, from, to, w.clock(tz));
      case Split(percent) => ok := w.dice(i, j) * 100.0 < percent;
      case Classify(deployment, _, wanted) =>
        if deployment !in cache {
          cache' := cache[deployment := w.labels(deployment)];
          asked' := asked + [deployment];
        }
        var answer := cache'[deployment];
        ok := answer.Some? && answer.value in wanted;
    }
  }

  method MatchTime(days: set<nat>, from: nat, to: nat, now: Option<(nat, nat)>) returns (ok: bool)
    ensures ok <==> InWindow(days, from, to, now)
  {
    if now.None? { return false; }
    var (day, minute) := now.value;
    if days != {} && day !in days { return false; }
    ok := if from <= to then from <= minute && minute < to else minute >= from || minute < to;
  }

  // ---------------------------------------------------------------------------------------
  // What the conditions mean

  /** A spend condition on a ledger that is kept, with the spend known, compares it with the threshold,
      and the two comparisons exclude each other; on a ledger that is off, or unknown, neither holds. */
  lemma SpendConditions(ledger: Ledger, threshold: real, window: Window, target: string, i: nat, j: nat, t: Targets, w: World)
    ensures var below, atLeast := Cost(ledger, Below, threshold, window), Cost(ledger, AtLeast, threshold, window);
      var kept := w.settings.Got? && (if ledger == Billed then w.settings.value.billing else w.settings.value.tracking);
      match w.spent(i, j)
      case Got(Some(spent)) =>
        && (Holds(below, target, i, j, t, w) <==> kept && spent < threshold)
        && (Holds(atLeast, target, i, j, t, w) <==> kept && !(spent < threshold))
      case _ => !Holds(below, target, i, j, t, w) && !Holds(atLeast, target, i, j, t, w)
  {
  }

  lemma TokenConditions(count: int, window: Window, target: string, i: nat, j: nat, t: Targets, w: World)
    ensures var below, atLeast := Tokens(Below, count, window), Tokens(AtLeast, count, window);
      match w.used(i, j)
      case Got(Some(used)) =>
        && (Holds(below, target, i, j, t, w) <==> used < count)
        && (Holds(atLeast, target, i, j, t, w) <==> !(used < count))
      case _ => !Holds(below, target, i, j, t, w) && !Holds(atLeast, target, i, j, t, w)
  {
  }

  /** A window and its reverse share the day between them: at each minute of a day they cover exactly one
      of the two holds; outside their days and in a zone that is not known neither does. */
  lemma WindowsShareTheDay(days: set<nat>, from: nat, to: nat, tz: string, target: string, i: nat, j: nat, t: Targets, w: World)
    requires from != to
    ensures var forth, back := Time(days, from, to, tz), Time(days, to, from, tz);
      match w.clock(tz)
      case Some((day, minute)) =>
        if days == {} || day in days
        then (Holds(forth, target, i, j, t, w) <==> !Holds(back, target, i, j, t, w))
             && (from < to ==> (Holds(forth, target, i, j, t, w) <==> from <= minute < to))
        else !Holds(forth, target, i, j, t, w) && !Holds(back, target, i, j, t, w)
      case None => !Holds(forth, target, i, j, t, w) && !Holds(back, target, i, j, t, w)
  {
  }

  /** The other conditions: the estimate against the limit, a target that is up, the dice against the
      percentage, and the classifier's label among those wanted. */
  lemma OtherConditions(tokens: int, percent: real, deployment: string, labels: set<string>, wanted: set<string>,
                        target: string, i: nat, j: nat, t: Targets, w: World)
    ensures Holds(Context(AtMost, tokens), target, i, j, t, w) <==> w.estimate <= tokens
    ensures Holds(Context(Above, tokens), target, i, j, t, w) <==> !(w.estimate <= tokens)
    ensures Holds(Available, target, i, j, t, w)
       <==> target in t.external || (target in t.phases && (t.phases[target] == "Ready" || t.phases[target] == "Idle"))
    ensures Holds(Split(percent), target, i, j, t, w) <==> 100.0 * w.dice(i, j) < percent
    ensures Holds(Classify(deployment, labels, wanted), target, i, j, t, w)
       <==> exists answer <- wanted :: w.labels(deployment) == Some(answer)
  {
  }

  method CheckRule(spec: Spec, i: nat, t: Targets, w: World, cache: map<string, Option<string>>, asked: seq<string>)
    returns (entry: LogEntry, cache': map<string, Option<string>>, asked': seq<string>)
    requires i < |spec.rules| && CacheIsSound(cache, asked, w)
    ensures FaithfulEntry(spec, i, t, w, entry)
    ensures CacheIsSound(cache', asked', w) && asked <= asked'
  {
    hide Holds, CacheIsSound;
    cache', asked' := cache, asked;
    var rule := spec.rules[i];
    if !t.Has(rule.target) {
      return LogEntry(i, rule.target, MissingTarget, []), cache', asked';
    }
    var conditions: seq<LogCondition> := [];
    var matched := true;
    var j := 0;
    while j < |rule.conditions| && matched
      invariant j == |conditions| <= |rule.conditions|
      invariant CacheIsSound(cache', asked', w) && asked <= asked'
      invariant forall k :: 0 <= k < |conditions| ==>
        conditions[k] == LogCondition(rule.conditions[k], Holds(rule.conditions[k], rule.target, i, k, t, w))
      invariant forall k :: 0 <= k < |conditions| - 1 ==> conditions[k].ok
      invariant if matched then forall c <- conditions :: c.ok else conditions != [] && !conditions[|conditions|-1].ok
    {
      var ok;
      ok, cache', asked' := CheckCondition(rule.conditions[j], rule.target, i, j, t, w, cache', asked');
      conditions := conditions + [LogCondition(rule.conditions[j], ok)];
      matched := ok;
      j := j + 1;
    }
    assert !matched ==> conditions[|conditions|-1] in conditions;
    entry := LogEntry(i, rule.target, if matched then Matched else NoMatch, conditions);
  }

  /** With a loaded table the verdict is the first match, the log is faithful, and no classifier is
      asked twice.  With an unknown table the terminal stands, and nothing is checked. */
  method EvaluateRouting(spec: Spec, targets: Option<Targets>, w: World)
    returns (verdict: Verdict, log: seq<LogEntry>, asked: seq<string>)
    ensures verdict == Decided(spec, targets, w)
    ensures targets.None? ==> log == [] && asked == []
    ensures targets.Some? ==> FaithfulLog(spec, targets.value, w, log)
    ensures targets.Some? ==> verdict == Replay(log, spec.terminal, targets.value)
    ensures Distinct(asked)
  {
    hide FaithfulEntry, Matches, Replay;
    log, asked := [], [];
    if targets.None? {
      return Verbatim(spec.terminal), log, asked;
    }
    var t := targets.value;
    var cache: map<string, Option<string>> := map[];
    for i := 0 to |spec.rules|
      invariant |log| == i && CacheIsSound(cache, asked, w)
      invariant forall k :: 0 <= k < i ==> FaithfulEntry(spec, k, t, w, log[k]) && !log[k].verdict.Matched?
      invariant Decided(spec, targets, w) == DecidedFrom(spec, i, t, w)
    {
      var entry;
      entry, cache, asked := CheckRule(spec, i, t, w, cache, asked);
      MatchedIffMatches(spec, i, t, w, entry);
      EntryNamesRule(spec, i, t, w, entry);
      log := log + [entry];
      if entry.verdict.Matched? {
        LogTellsVerdict(spec, t, w, log);
        return Route(entry.target, Some(i)), log, asked;
      }
    }
    LogTellsVerdict(spec, t, w, log);
    verdict := AtTerminal(spec.terminal, t);
  }

  // ---------------------------------------------------------------------------------------
  // Static analysis against evaluation

  ghost predicate NamesAreProper(ctx: TargetCtx) { !ctx.Has("") }

  lemma {:induction false} DecidedIsReachable(spec: Spec, i: nat, t: Targets, w: World)
    requires i <= |spec.rules| && forall r <- spec.rules :: r.target != ""
    ensures !DecidedFrom(spec, i, t, w).Rejected? ==> Reachable(spec, DecidedFrom(spec, i, t, w).target)
    ensures DecidedFrom(spec, i, t, w).Route? ==> t.Has(DecidedFrom(spec, i, t, w).target)
    decreases |spec.rules| - i
  {
    if i < |spec.rules| {
      assert spec.rules[i] in spec.rules;
      DecidedIsReachable(spec, i + 1, t, w);
    }
  }

  /** Whatever the table and the world, a validated routing lands only on a reachable target, and the
      session's window cap is no more than that target's known window. */
  lemma RoutedTargetIsCovered(spec: Spec, ctx: TargetCtx, fleet: Fleet, phase: RoutingPhase, targets: Option<Targets>, w: World)
    requires Valid(spec, ctx) && NamesAreProper(ctx) && Resolves(spec, fleet, phase)
    ensures var verdict := Decided(spec, targets, w);
            verdict.Route? ==>
              && Reachable(spec, verdict.target)
              && (fleet.KnownWindow(verdict.target).Some? ==>
                    phase.contextTokens.Some? && phase.contextTokens.value <= fleet.KnownWindow(verdict.target).value)
  {
    hide Matches;
    forall r <- spec.rules ensures r.target != "" { assert ValidRule(r, ctx); }
    if targets.Some? {
      DecidedIsReachable(spec, 0, targets.value, w);
    }
  }

  /** The table the gateway has loaded names what the control plane knows. */
  ghost predicate Agrees(t: Targets, fleet: Fleet) {
    t.phases.Keys == fleet.local.Keys && t.external == fleet.external.Keys
  }

  /** A routing the gate fails would not have routed any request, whatever the conditions say. */
  lemma GateFailsOnlyTheHopeless(spec: Spec, ctx: TargetCtx, fleet: Fleet, phase: RoutingPhase, t: Targets, w: World)
    requires Valid(spec, ctx) && NamesAreProper(ctx) && Resolves(spec, fleet, phase) && Agrees(t, fleet)
    requires Decide(Table(phase)) == Fail
    ensures !Decided(spec, Some(t), w).Route?
  {
    hide Matches;
    forall r <- spec.rules ensures r.target != "" { assert ValidRule(r, ctx); }
    DecidedIsReachable(spec, 0, t, w);
  }

  /** Nor is a routing the gate lets through hopeless: in a world where the conditions are met it
      routes, unless it has no target at all. */
  lemma GateLaunchesTheHopeful(spec: Spec, ctx: TargetCtx, fleet: Fleet, phase: RoutingPhase, t: Targets, w: World)
    requires Valid(spec, ctx) && NamesAreProper(ctx) && Resolves(spec, fleet, phase) && Agrees(t, fleet)
    requires spec.rules != [] || spec.terminal.RouteTo?
    requires forall i, j :: 0 <= i < |spec.rules| && 0 <= j < |spec.rules[i].conditions| ==>
               Holds(spec.rules[i].conditions[j], spec.rules[i].target, i, j, t, w)
    ensures Decide(Table(phase)) == Fail <==> !Decided(spec, Some(t), w).Route?
  {
    hide Holds, Valid, CapIsLeast;
    TerminalIffNoMatch(spec, 0, t, w);
    if Decide(Table(phase)) == Fail {
      GateFailsOnlyTheHopeless(spec, ctx, fleet, phase, t, w);
    } else {
      var n := LiveTarget(spec, ctx, fleet, phase);
      if r :| r in spec.rules && r.target == n {
        var k :| 0 <= k < |spec.rules| && spec.rules[k] == r;
        assert Matches(spec, k, t, w);
      }
    }
  }

  lemma LiveTarget(spec: Spec, ctx: TargetCtx, fleet: Fleet, phase: RoutingPhase) returns (n: string)
    requires Valid(spec, ctx) && NamesAreProper(ctx) && Resolves(spec, fleet, phase)
    requires spec.rules != [] || spec.terminal.RouteTo?
    requires Decide(Table(phase)) == Launch
    ensures Reachable(spec, n) && fleet.Live(n)
  {
    hide ValidCondition, CapIsLeast;
    var first := if spec.rules != [] then spec.rules[0].target else spec.terminal.target;
    if spec.rules != [] { assert ValidRule(spec.rules[0], ctx); }
    assert Reachable(spec, first);
    n :| Reachable(spec, n) && fleet.Live(n);
  }

  /** With an unknown table a dead routing does route, to a target that is gone. */
  lemma UnknownTableRoutesTheDead(gone: string, w: World)
    ensures var spec := Spec([], RouteTo(gone));
            && Dead(spec, Fleet(map[], map[]))
            && Decided(spec, None, w) == Route(gone, None)
  {
    assert Reachable(Spec([], RouteTo(gone)), gone);
  }
}
