/** Routing tables as the control plane sees them: control-plane/src/routing-rules.ts (validation and
    reachable targets), the routing branch of modelPhase in main.ts, and gateDecision in launch-gate.ts. */
module Routing {
  import opened Wrappers

  datatype Ledger = Billed | Real
  datatype SpendOp = Below | AtLeast
  datatype SizeOp = AtMost | Above
  datatype Window = Month | Day | Rolling(hours: int)

  datatype Condition =
    | Cost(ledger: Ledger, op: SpendOp, threshold: real, window: Window)
    | Tokens(op: SpendOp, count: int, window: Window)
    | Context(size: SizeOp, tokens: int)
    | Available
    | Time(days: set<nat>, from: nat, to: nat, tz: string)
    | Split(percent: real)
    | Classify(deployment: string, labels: set<string>, wanted: set<string>)

  datatype Rule = Rule(conditions: seq<Condition>, target: string)
  datatype Terminal = RouteTo(target: string) | Reject
  datatype Spec = Spec(rules: seq<Rule>, terminal: Terminal)

  /** The names that exist: local deployments and external endpoints. */
  datatype TargetCtx = TargetCtx(local: set<string>, external: set<string>, zones: set<string>) {
    predicate Has(name: string) { name in local || name in external }
  }

  // ---------------------------------------------------------------------------------------
  // Validation

  predicate ValidWindow(w: Window) { w.Rolling? ==> 1 <= w.hours <= 8760 }

  predicate ValidCondition(c: Condition, ctx: TargetCtx) {
    match c
    case Cost(_, _, threshold, window) => threshold >= 0.0 && ValidWindow(window)
    case Tokens(_, count, window) => count >= 0 && ValidWindow(window)
    case Context(_, tokens) => tokens >= 1
    case Available => true
    case Time(_, from, to, tz) => from < 1440 && to < 1440 && tz in ctx.zones
    case Split(percent) => 0.0 < percent <= 100.0
    case Classify(deployment, labels, wanted) =>
      && ctx.Has(deployment)
      && 1 <= |labels| <= 8 && (forall k <- labels :: 1 <= |k| <= 32)
      && wanted != {} && wanted <= labels
  }

  predicate ValidRule(r: Rule, ctx: TargetCtx) {
    ctx.Has(r.target) && |r.conditions| <= 10 && forall c <- r.conditions :: ValidCondition(c, ctx)
  }

  predicate Valid(spec: Spec, ctx: TargetCtx) {
    && |spec.rules| <= 50
    && (forall r <- spec.rules :: ValidRule(r, ctx))
    && (spec.terminal.RouteTo? ==> ctx.Has(spec.terminal.target))
  }

  datatype Problem =
    | TooManyRules
    | UnknownTarget(rule: nat)
    | TooManyConditions(rule: nat)
    | BadCondition(rule: nat, condition: nat)
    | UnknownTerminal

  /** The test of one condition, in the order of the route. */
  method ConditionError(c: Condition, ctx: TargetCtx) returns (bad: bool)
    ensures bad <==> !ValidCondition(c, ctx)
  {
    match c {
      case Cost(_, _, threshold, window) =>
        if threshold < 0.0 { return true; }
        bad := WindowError(window);
      case Tokens(_, count, window) =>
        if count < 0 { return true; }
        bad := WindowError(window);
      case Context(_, tokens) => bad := tokens < 1;
      case Available => bad := false;
      case Time(_, from, to, tz) =>
        if from > 1439 || to > 1439 { return true; }
        bad := tz !in ctx.zones;
      case Split(percent) => bad := percent <= 0.0 || percent > 100.0;
      case Classify(deployment, labels, wanted) =>
        if deployment !in ctx.local && deployment !in ctx.external { return true; }
        if labels == {} || |labels| > 8 { return true; }
        var todo := labels;
        while todo != {}
          invariant todo <= labels && forall k <- labels - todo :: 1 <= |k| <= 32
        {
          var k :| k in todo;
          if k == "" || |k| > 32 { return true; }
          todo := todo - {k};
        }
        bad := wanted == {} || exists m <- wanted :: m !in labels;
    }
  }

  method WindowError(w: Window) returns (bad: bool)
    ensures bad <==> !ValidWindow(w)
  {
    bad := false;
    match w {
      case Rolling(hours) => bad := hours < 1 || hours > 8760;
      case _ =>
    }
  }

  /** None exactly for a well-formed table; otherwise the first problem in reading order. */
  method ValidateRouting(spec: Spec, ctx: TargetCtx) returns (problem: Option<Problem>)
    ensures problem.None? <==> Valid(spec, ctx)
    ensures problem.Some? && problem.value.BadCondition? ==>
              var i, j := problem.value.rule, problem.value.condition;
              && i < |spec.rules| && j < |spec.rules[i].conditions| && !ValidCondition(spec.rules[i].conditions[j], ctx)
              && (forall r <- spec.rules[..i] :: ValidRule(r, ctx))
              && (forall c <- spec.rules[i].conditions[..j] :: ValidCondition(c, ctx))
  {
    if |spec.rules| > 50 {
      return Some(TooManyRules);
    }
    for i := 0 to |spec.rules|
      invariant forall r <- spec.rules[..i] :: ValidRule(r, ctx)
    {
      var r := spec.rules[i];
      assert r in spec.rules;
      if !ctx.Has(r.target) {
        return Some(UnknownTarget(i));
      }
      if |r.conditions| > 10 {
        return Some(TooManyConditions(i));
      }
      for j := 0 to |r.conditions|
        invariant forall c <- r.conditions[..j] :: ValidCondition(c, ctx)
      {
        var bad := ConditionError(r.conditions[j], ctx);
        if bad {
          assert r.conditions[j] in r.conditions;
          return Some(BadCondition(i, j));
        }
      }
    }
    problem := if spec.terminal.RouteTo? && !ctx.Has(spec.terminal.target) then Some(UnknownTerminal) else None;
  }

  // ---------------------------------------------------------------------------------------
  // Reachable targets

  /** Every target a request can land on: named by a rule, or by a terminal that routes. */
  ghost predicate Reachable(spec: Spec, name: string) {
    || (name != "" && exists r <- spec.rules :: r.target == name)
    || (spec.terminal.RouteTo? && spec.terminal.target == name)
  }

  predicate Distinct(names: seq<string>) {
    forall i, j :: 0 <= i < j < |names| ==> names[i] != names[j]
  }

  function Added(names: seq<string>, name: string): (out: seq<string>)
    requires Distinct(names)
    ensures Distinct(out) && forall n :: n in out <==> n in names || n == name
  {
    if name in names then names else names + [name]
  }

  method ReachableTargets(spec: Spec) returns (names: seq<string>)
    ensures Distinct(names)
    ensures forall n :: n in names <==> Reachable(spec, n)
  {
    names := [];
    for i := 0 to |spec.rules|
      invariant Distinct(names)
      invariant forall n :: n in names <==> n != "" && exists r <- spec.rules[..i] :: r.target == n
    {
      var r := spec.rules[i];
      assert spec.rules[..i+1] == spec.rules[..i] + [r];
      if r.target != "" {
        names := Added(names, r.target);
      }
    }
    assert spec.rules[..|spec.rules|] == spec.rules;
    if spec.terminal.RouteTo? {
      names := Added(names, spec.terminal.target);
    }
  }

  method ReachableLocalTargets(spec: Spec, localNames: set<string>) returns (names: seq<string>)
    requires "" !in localNames
    ensures Distinct(names)
    ensures forall n :: n in names <==> n in localNames && Reachable(spec, n)
  {
    names := [];
    for i := 0 to |spec.rules|
      invariant Distinct(names)
      invariant forall n :: n in names <==> n in localNames && exists r <- spec.rules[..i] :: r.target == n
    {
      var r := spec.rules[i];
      assert spec.rules[..i+1] == spec.rules[..i] + [r];
      if r.target in localNames {
        names := Added(names, r.target);
      }
    }
    assert spec.rules[..|spec.rules|] == spec.rules;
    if spec.terminal.RouteTo? && spec.terminal.target in localNames {
      names := Added(names, spec.terminal.target);
    }
  }

  // ---------------------------------------------------------------------------------------
  // How a routing resolves for a session

  /** What the control plane knows: each local deployment's served window and each external
      endpoint's declared one, where they are known. */
  datatype Fleet = Fleet(local: map<string, Option<nat>>, external: map<string, Option<nat>>) {
    predicate Live(name: string) { name in local || name in external }

    /** A deployment shadows an endpoint of the same name, and a served window of 0 is not one. */
    function KnownWindow(name: string): Option<nat> {
      if name in local then (if local[name] == Some(0) then None else local[name])
      else if name in external then external[name]
      else None
    }
  }

  datatype RoutingPhase = RoutingPhase(contextTokens: Option<nat>, deadTargets: Option<seq<string>>)

  /** `min` is the least known window among `names`; None if none of them has one. */
  ghost predicate LeastWindow(fleet: Fleet, names: set<string>, min: Option<nat>) {
    match min
    case None => forall n <- names :: fleet.KnownWindow(n).None?
    case Some(m) =>
      && (exists n <- names :: fleet.KnownWindow(n) == Some(m))
      && (forall n <- names :: fleet.KnownWindow(n).Some? ==> m <= fleet.KnownWindow(n).value)
  }

  function Lower(min: Option<nat>, window: Option<nat>): Option<nat> {
    if window.Some? && (min.None? || window.value < min.value) then window else min
  }

  lemma LowerKeepsLeast(fleet: Fleet, names: set<string>, min: Option<nat>, name: string)
    requires LeastWindow(fleet, names, min)
    ensures LeastWindow(fleet, names + {name}, Lower(min, fleet.KnownWindow(name)))
  {
    if min.Some? && Lower(min, fleet.KnownWindow(name)) == min {
      var n :| n in names && fleet.KnownWindow(n) == min;
      assert n in names + {name};
    } else if fleet.KnownWindow(name).Some? {
      assert name in names + {name};
    }
  }

  ghost function Names(names: seq<string>): set<string> { set n | n in names }

  method LocalWindow(fleet: Fleet, locals: seq<string>) returns (min: Option<nat>)
    requires forall n <- locals :: n in fleet.local
    ensures LeastWindow(fleet, Names(locals), min)
  {
    min := None;
    for i := 0 to |locals|
      invariant LeastWindow(fleet, Names(locals[..i]), min)
    {
      LowerKeepsLeast(fleet, Names(locals[..i]), min, locals[i]);
      assert Names(locals[..i+1]) == Names(locals[..i]) + {locals[i]};
      var c := fleet.local[locals[i]];
      min := Lower(min, if c == Some(0) then None else c);
    }
    assert locals[..|locals|] == locals;
  }

  /** Folds the external endpoints among `all` in; the local ones have been counted already. */
  method ExternalWindow(fleet: Fleet, all: seq<string>, locals: seq<string>, min0: Option<nat>)
    returns (min: Option<nat>, liveExternal: bool)
    requires LeastWindow(fleet, Names(locals), min0)
    requires forall n :: n in locals <==> n in all && n in fleet.local
    ensures LeastWindow(fleet, Names(all), min)
    ensures liveExternal <==> exists n <- all :: n !in fleet.local && n in fleet.external
  {
    min, liveExternal := min0, false;
    for i := 0 to |all|
      invariant LeastWindow(fleet, Names(locals) + Names(all[..i]), min)
      invariant liveExternal <==> exists n <- all[..i] :: n !in fleet.local && n in fleet.external
    {
      ghost var seen := Names(locals) + Names(all[..i]);
      assert Names(locals) + Names(all[..i+1]) == seen + {all[i]};
      if all[i] in fleet.local {
        assert seen + {all[i]} == seen;
        continue;
      }
      LowerKeepsLeast(fleet, seen, min, all[i]);
      if all[i] in fleet.external {
        liveExternal := true;
        min := Lower(min, fleet.external[all[i]]);
      }
    }
    assert all[..|all|] == all;
    assert Names(locals) + Names(all) == Names(all);
  }

  /** The cap is at most every known window of a reachable target, and is one of them. */
  ghost predicate CapIsLeast(spec: Spec, fleet: Fleet, cap: Option<nat>) {
    && (forall n :: Reachable(spec, n) && fleet.KnownWindow(n).Some? ==>
          cap.Some? && cap.value <= fleet.KnownWindow(n).value)
    && (cap.Some? ==> exists n :: Reachable(spec, n) && fleet.KnownWindow(n) == cap)
  }

  /** Dead: the table names targets and none of them exists any more. */
  ghost predicate Dead(spec: Spec, fleet: Fleet) {
    (exists n :: Reachable(spec, n)) && forall n :: Reachable(spec, n) ==> !fleet.Live(n)
  }

  ghost predicate Resolves(spec: Spec, fleet: Fleet, phase: RoutingPhase) {
    && CapIsLeast(spec, fleet, phase.contextTokens)
    && (phase.deadTargets.Some? <==> Dead(spec, fleet))
    && (phase.deadTargets.Some? ==> forall n :: n in phase.deadTargets.value <==> Reachable(spec, n))
  }

  method ModelPhase(spec: Spec, fleet: Fleet) returns (phase: RoutingPhase)
    requires "" !in fleet.local
    ensures Resolves(spec, fleet, phase)
  {
    hide Reachable;
    var locals := ReachableLocalTargets(spec, fleet.local.Keys);
    var min := LocalWindow(fleet, locals);
    var all := ReachableTargets(spec);
    var liveExternal;
    min, liveExternal := ExternalWindow(fleet, all, locals, min);
    phase := RoutingPhase(min, if |all| > 0 && |locals| == 0 && !liveExternal then Some(all) else None);
    assert forall n :: n in Names(all) <==> Reachable(spec, n);
    assert |locals| == 0 || locals[0] in locals;
    assert |all| == 0 || all[0] in all;
  }

  datatype Resolved = Unknown | External | Table(phase: RoutingPhase) | Local(phaseName: string)
  datatype GateDecision = Launch | Wait(phase: string) | Fail

  function Decide(resolved: Resolved): GateDecision {
    match resolved
    case Unknown => Launch
    case External => Launch
    case Table(phase) => if phase.deadTargets.Some? && phase.deadTargets.value != [] then Fail else Launch
    case Local(name) =>
      var phase := if name == "" then "Pending" else name;
      if phase == "Ready" then Launch else if phase == "Failed" then Fail else Wait(phase)
  }

  /** A local deployment launches exactly when it is ready, is failed for exactly when it has failed, and
      otherwise is waited for in its phase, which is pending where it has none. */
  lemma GateOnPhase(name: string)
    ensures Decide(Local(name)) == Launch <==> name == "Ready"
    ensures Decide(Local(name)) == Fail <==> name == "Failed"
    ensures name != "Ready" && name != "Failed" ==> Decide(Local(name)) == Wait(if name == "" then "Pending" else name)
    ensures Decide(Unknown) == Launch && Decide(External) == Launch
  {
  }
}
