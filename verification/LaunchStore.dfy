/** The control plane's launch actions over its tables, in the imperative form of repo.ts,
    session-actions.ts, launch-gate.ts, writer-queue.ts and reconciler.ts.  Each atomic action is
    one step of Launches; an action made of several is a run of steps. */
module LaunchStore {
  import opened Wrappers
  import opened Sessions
  import opened Launches
  import LaunchSafety

  lemma {:induction false} Chained(st: State, first: seq<Step>, second: seq<Step>)
    requires Runs(st, first) && Runs(After(st, first), second)
    ensures Runs(st, first + second) && After(st, first + second) == After(After(st, first), second)
    decreases |second|
  {
    hide Enabled, Apply;
    if second == [] {
      assert first + second == first;
    } else {
      var all := first + second;
      Chained(st, first, second[..|second|-1]);
      assert all[..|all|-1] == first + second[..|second|-1] && all[|all|-1] == second[|second|-1];
    }
  }

  /** Runs one after the other. */
  function Flat(parts: seq<seq<Step>>): seq<Step> {
    if parts == [] then [] else Flat(parts[..|parts|-1]) + parts[|parts|-1]
  }

  /** What a release of the agent's queue does: it takes a claim and starts it, or there is none to take. */
  ghost predicate Released(st: State, agent: Id, ok: bool, steps: seq<Step>) {
    || (steps == [] && forall id :: !Enabled(st, ClaimWriter(agent, id)))
    || (exists id <- st.pending ::
          Enabled(st, ClaimWriter(agent, id)) && steps == [ClaimWriter(agent, id), RunStart(TokenOf(st, id), ok)])
  }

  /** The agent's slot is free and somebody waits for it. */
  predicate Due(st: State, agent: Id) {
    !SlotHeld(st, agent, None) && exists id <- st.pending :: st.pending[id].key == WriterKey(agent)
  }

  lemma ReleasedIff(st: State, agent: Id, ok: bool, steps: seq<Step>)
    requires Released(st, agent, ok, steps)
    ensures steps != [] <==> Due(st, agent)
  {
    hide SlotHeld;
    if Due(st, agent) {
      var waiting :| waiting in st.pending && st.pending[waiting].key == WriterKey(agent);
      LaunchSafety.FreeSlotIsReleased(st, agent, waiting);
    }
  }

  /** Who waits for an agent's slot is a session of that agent. */
  predicate QueuesOwn(st: State) {
    forall id <- st.pending :: st.pending[id].key.WriterKey? ==> id in st.sessions && st.sessions[id].agent == st.pending[id].key.agent
  }

  /** So it is in every state that any run reaches. */
  lemma {:induction false} QueuesStayOwn(steps: seq<Step>)
    requires Runs(INITIAL, steps)
    ensures QueuesOwn(After(INITIAL, steps))
  {
    hide Apply, Enabled;
    if steps == [] {
      assert QueuesOwn(INITIAL);
    } else {
      QueuesStayOwn(steps[..|steps|-1]);
      StepKeepsQueuesOwn(After(INITIAL, steps[..|steps|-1]), steps[|steps|-1]);
    }
  }

  lemma StepKeepsQueuesOwn(st: State, step: Step)
    requires Enabled(st, step) && QueuesOwn(st)
    ensures QueuesOwn(Apply(st, step))
  {
    hide SlotHeld, RowsOf;
  }

  lemma ClaimAndStart(st: State, agent: Id, id: Id, ok: bool)
    requires Enabled(st, ClaimWriter(agent, id))
    ensures var claimed, start := Apply(st, ClaimWriter(agent, id)), RunStart(TokenOf(st, id), ok);
            && Enabled(claimed, start) && Apply(claimed, start).pending == st.pending - {id}
            && Apply(claimed, start).sessions.Keys == st.sessions.Keys
            && forall other <- st.sessions ::
                 && Apply(claimed, start).sessions[other].agent == st.sessions[other].agent
                 && (other != id ==> Apply(claimed, start).sessions[other] == st.sessions[other])
  {
  }

  lemma TwoSteps(st: State, first: Step, second: Step)
    requires Runs(st, [first, second])
    ensures Enabled(st, first) && Enabled(Apply(st, first), second)
    ensures After(st, [first, second]) == Apply(Apply(st, first), second)
  {
    hide Enabled, Apply;
    assert [first, second][..1] == [first] && [first][..0] == [];
    assert Runs(st, [first]);
    assert Runs(st, []) && After(st, []) == st;
  }

  /** Another agent's release changes nothing about who is due. */
  lemma ReleaseLeavesOthers(st: State, agent: Id, ok: bool, steps: seq<Step>, other: Id)
    requires Runs(st, steps) && Released(st, agent, ok, steps) && QueuesOwn(st) && other != agent
    ensures QueuesOwn(After(st, steps)) && (Due(After(st, steps), other) <==> Due(st, other))
  {
    hide Apply;
    if steps != [] {
      var id :| id in st.pending && Enabled(st, ClaimWriter(agent, id)) && steps == [ClaimWriter(agent, id), RunStart(TokenOf(st, id), ok)];
      TwoSteps(st, ClaimWriter(agent, id), RunStart(TokenOf(st, id), ok));
      ClaimAndStart(st, agent, id, ok);
      SlotIsOthers(st, After(st, steps), other, id);
      assert forall i <- st.pending :: st.pending[i].key == WriterKey(other) ==> i in After(st, steps).pending;
    }
  }

  lemma SlotIsOthers(st: State, after: State, agent: Id, id: Id)
    requires id in st.sessions && st.sessions[id].agent != agent && after.pending == st.pending - {id}
    requires after.sessions.Keys == st.sessions.Keys
    requires forall s <- st.sessions :: after.sessions[s].agent == st.sessions[s].agent && (s != id ==> after.sessions[s] == st.sessions[s])
    ensures SlotHeld(after, agent, None) <==> SlotHeld(st, agent, None)
  {
  }

  /** Part `i` is a release of the agent, where the parts before it have left off. */
  ghost predicate ReleasedAt(st: State, agent: Id, ok: bool, parts: seq<seq<Step>>, i: nat)
    requires i < |parts|
  {
    && Runs(st, Flat(parts[..i])) && Runs(st, Flat(parts[..i+1]))
    && Released(After(st, Flat(parts[..i])), agent, ok, parts[i])
  }

  /** Releases of the agents, one after the other. */
  ghost predicate Sweep(st: State, agents: seq<Id>, ok: nat -> bool, parts: seq<seq<Step>>) {
    |parts| == |agents| && forall i :: 0 <= i < |agents| ==> ReleasedAt(st, agents[i], ok(i), parts, i)
  }

  lemma OneMoreRelease(st: State, agents: seq<Id>, ok: nat -> bool, parts: seq<seq<Step>>, agent: Id, more: seq<Step>)
    requires Sweep(st, agents, ok, parts) && Runs(st, Flat(parts)) && Runs(After(st, Flat(parts)), more)
    requires Released(After(st, Flat(parts)), agent, ok(|agents|), more)
    ensures Sweep(st, agents + [agent], ok, parts + [more])
    ensures Runs(st, Flat(parts + [more])) && After(st, Flat(parts + [more])) == After(After(st, Flat(parts)), more)
  {
    hide Released, Runs, After;
    var longer, n := parts + [more], |parts|;
    assert longer[..n] == parts && longer[..n+1] == longer;
    Chained(st, Flat(parts), more);
    forall j | 0 <= j < n ensures ReleasedAt(st, agents[j], ok(j), longer, j) {
      assert ReleasedAt(st, agents[j], ok(j), parts, j);
      assert longer[..j] == parts[..j] && longer[..j+1] == parts[..j+1];
    }
  }

  lemma NoRelease(st: State, ok: nat -> bool)
    ensures Runs(st, Flat([])) && After(st, Flat([])) == st && Sweep(st, [], ok, [])
  {
  }

  /** Whoever was not among the first `n` is due after them exactly when it was at the start. */
  lemma {:induction false} SweepLeavesOthers(st: State, agents: seq<Id>, ok: nat -> bool, parts: seq<seq<Step>>, n: nat, agent: Id)
    requires Sweep(st, agents, ok, parts) && QueuesOwn(st) && n <= |agents| && agent !in agents[..n]
    ensures Runs(st, Flat(parts[..n])) && QueuesOwn(After(st, Flat(parts[..n])))
    ensures Due(After(st, Flat(parts[..n])), agent) <==> Due(st, agent)
  {
    hide Released, Due, QueuesOwn, Enabled, Apply;
    if n > 0 {
      assert ReleasedAt(st, agents[n-1], ok(n - 1), parts, n - 1);
      assert agents[..n] == agents[..n-1] + [agents[n-1]] && parts[..n][..n-1] == parts[..n-1];
      SweepLeavesOthers(st, agents, ok, parts, n - 1, agent);
      Unchained(st, Flat(parts[..n-1]), parts[n-1]);
      ReleaseLeavesOthers(After(st, Flat(parts[..n-1])), agents[n-1], ok(n - 1), parts[n-1], agent);
    }
  }

  lemma {:induction false} Unchained(st: State, first: seq<Step>, second: seq<Step>)
    requires Runs(st, first + second)
    ensures Runs(st, first) && Runs(After(st, first), second) && After(st, first + second) == After(After(st, first), second)
    decreases |second|
  {
    hide Enabled, Apply;
    if second == [] {
      assert first + second == first;
    } else {
      var all := first + second;
      assert all[..|all|-1] == first + second[..|second|-1] && all[|all|-1] == second[|second|-1];
      Unchained(st, first, second[..|second|-1]);
    }
  }

  /** A sweep releases exactly the agents that were due when it began, each once, in whatever order. */
  lemma SweepReleasesTheDue(st: State, agents: seq<Id>, ok: nat -> bool, parts: seq<seq<Step>>, i: nat)
    requires Sweep(st, agents, ok, parts) && QueuesOwn(st)
    requires i < |agents| && agents[i] !in agents[..i]
    ensures parts[i] != [] <==> Due(st, agents[i])
  {
    hide Released, Due, QueuesOwn, Enabled, Apply;
    assert ReleasedAt(st, agents[i], ok(i), parts, i);
    SweepLeavesOthers(st, agents, ok, parts, i, agents[i]);
    ReleasedIff(After(st, Flat(parts[..i])), agents[i], ok(i), parts[i]);
  }

  /** The launches parked on a model. */
  ghost function ParkedOn(st: State, model: Id): set<Token> { set id | id in RowsOf(st, model) :: TokenOf(st, id) }

  ghost function SessionsOf(tokens: set<Token>): set<Id> { set t | t in tokens :: t.session }

  /** The launch is parked on the model. */
  predicate ParkedOnModel(pending: map<Id, Row>, t: Token, model: Id) {
    t.session in pending && pending[t.session].key == ModelKey(model) && pending[t.session].turn == t.turn
  }

  /** These sessions have failed, the others are as they were. */
  function WithFailed(sessions: map<Id, Session>, ids: set<Id>): (out: map<Id, Session>)
    ensures out.Keys == sessions.Keys
    ensures forall id <- sessions :: out[id] == if id in ids then sessions[id].(status := Failed) else sessions[id]
  {
    map id | id in sessions :: if id in ids then sessions[id].(status := Failed) else sessions[id]
  }

  lemma OneMoreFailed(sessions: map<Id, Session>, rows: set<Token>, todo: set<Token>, broken: set<Token>, token: Token)
    requires token in todo && todo <= rows
    ensures var before := WithFailed(sessions, SessionsOf((rows - todo) * broken));
            WithFailed(sessions, SessionsOf((rows - (todo - {token})) * broken))
            == if token !in broken || token.session !in sessions then before
               else before[token.session := before[token.session].(status := Failed)]
  {
    var failed, after := (rows - todo) * broken, (rows - (todo - {token})) * broken;
    assert after == failed + if token in broken then {token} else {};
    assert SessionsOf(failed + {token}) == SessionsOf(failed) + {token.session};
  }

  lemma NothingReleased(st: State, model: Id)
    ensures Runs(st, []) && After(st, []) == st && Enabled(st, ClaimModel(model))
    ensures WithFailed(st.sessions, SessionsOf({})) == st.sessions
  {
    assert SessionsOf({}) == {};
  }

  lemma StartIsEnabled(st: State, token: Token, ok: bool)
    requires Start(token) in st.calls
    ensures Enabled(st, RunStart(token, ok))
  {
  }

  lemma RowsAre(st: State, model: Id)
    ensures RowsOf(st, model) == ParkedIds(st.pending, model) == SessionsOf(ParkedOn(st, model))
  {
    forall id | id in RowsOf(st, model) ensures id in SessionsOf(ParkedOn(st, model)) {
      assert TokenOf(st, id) in ParkedOn(st, model);
    }
  }

  lemma StartEffect(st: State, token: Token, ok: bool)
    requires Enabled(st, RunStart(token, ok))
    ensures var after := Apply(st, RunStart(token, ok));
            after.pending == st.pending && after.calls == st.calls - {Start(token)} && after.started == st.started + [token]
  {
  }

  lemma AbandonEffect(st: State, token: Token)
    requires Enabled(st, RunAbandon(token))
    ensures var after := Apply(st, RunAbandon(token));
            && after.pending == st.pending && after.calls == st.calls - {Abandon(token)} && after.started == st.started
            && after.sessions.Keys == st.sessions.Keys
            && forall id <- st.sessions ::
                 after.sessions[id] == if id == token.session then st.sessions[id].(status := Failed) else st.sessions[id]
  {
  }

  lemma OneMoreStarted(started: seq<Token>, from: nat, rows: set<Token>, todo: set<Token>, token: Token)
    requires from <= |started| && token in todo && todo <= rows && multiset(started[from..]) == multiset(rows - todo)
    ensures multiset((started + [token])[from..]) == multiset(rows - (todo - {token}))
  {
    assert (started + [token])[from..] == started[from..] + [token];
    assert rows - (todo - {token}) == (rows - todo) + {token};
  }

  /** What the periodic sweep does with the launches parked on a model. */
  datatype Verdict = Release | KeepWaiting | FailAll

  ghost function ParkedIds(pending: map<Id, Row>, model: Id): set<Id> {
    set id | id in pending && pending[id].key == ModelKey(model)
  }

  ghost function BrokenIds(pending: map<Id, Row>, model: Id, broken: set<Token>): set<Id> {
    SessionsOf(set t | t in broken && ParkedOnModel(pending, t, model))
  }

  /** Parked on a model of the list for which the sweep decides so. */
  predicate SweptTo(pending: map<Id, Row>, t: Token, models: seq<Id>, decide: Id -> Verdict, verdict: Verdict) {
    t.session in pending && pending[t.session].turn == t.turn
    && pending[t.session].key.ModelKey? && pending[t.session].key.model in models && decide(pending[t.session].key.model) == verdict
  }

  /** The sessions a sweep fails: parked on a model to fail, or released with a start that throws. */
  ghost function FailedBySweep(pending: map<Id, Row>, models: seq<Id>, decide: Id -> Verdict, broken: set<Token>): set<Id> {
    set id | id in pending && FailsInSweep(pending[id], id, models, decide, broken)
  }

  predicate FailsInSweep(row: Row, id: Id, models: seq<Id>, decide: Id -> Verdict, broken: set<Token>) {
    row.key.ModelKey? && row.key.model in models
    && (decide(row.key.model) == FailAll || (decide(row.key.model) == Release && Token(id, row.turn) in broken))
  }

  /** The rows of the models decided are gone, the others are there. */
  ghost predicate Left(was: map<Id, Row>, now: map<Id, Row>, models: seq<Id>, decide: Id -> Verdict) {
    && (forall id <- was ::
          id in now <==> !(was[id].key.ModelKey? && was[id].key.model in models && decide(was[id].key.model) != KeepWaiting))
    && (forall id <- now :: id in was && now[id] == was[id])
  }

  lemma NothingSwept(st: State, decide: Id -> Verdict, broken: set<Token>)
    ensures Runs(st, []) && After(st, []) == st && Left(st.pending, st.pending, [], decide)
    ensures FailedBySweep(st.pending, [], decide, broken) == {} && WithFailed(st.sessions, {}) == st.sessions
    ensures forall t :: !SweptTo(st.pending, t, [], decide, Release)
  {
  }

  /** What one more model adds to the sweep. */
  lemma SweptNext(was: map<Id, Row>, now: map<Id, Row>, models: seq<Id>, model: Id, decide: Id -> Verdict, broken: set<Token>)
    requires Left(was, now, models, decide)
    ensures forall t :: SweptTo(was, t, models + [model], decide, Release)
                   <==> SweptTo(was, t, models, decide, Release) || (decide(model) == Release && ParkedOnModel(now, t, model))
    ensures FailedBySweep(was, models + [model], decide, broken)
         == FailedBySweep(was, models, decide, broken)
            + match decide(model)
              case KeepWaiting => {}
              case Release => BrokenIds(now, model, broken)
              case FailAll => ParkedIds(now, model)
  {
    BrokenIdsAre(now, model, broken);
    hide BrokenIds;
  }

  lemma BrokenIdsAre(pending: map<Id, Row>, model: Id, broken: set<Token>)
    ensures forall id :: id in BrokenIds(pending, model, broken)
                    <==> id in pending && pending[id].key == ModelKey(model) && Token(id, pending[id].turn) in broken
  {
    forall id | id in pending && pending[id].key == ModelKey(model) && Token(id, pending[id].turn) in broken
      ensures id in BrokenIds(pending, model, broken)
    {
      assert Token(id, pending[id].turn) in set t | t in broken && ParkedOnModel(pending, t, model);
    }
  }

  lemma BrokenIdsFrom(pending: map<Id, Row>, model: Id, broken: set<Token>, tokens: set<Token>)
    requires tokens == set t | t in broken && ParkedOnModel(pending, t, model)
    ensures SessionsOf(tokens) == BrokenIds(pending, model, broken)
  {
  }

  lemma SameElements<T>(s: seq<T>, elements: set<T>)
    requires multiset(s) == multiset(elements)
    ensures forall t :: t in s <==> t in elements
  {
    assert forall t :: t in s <==> t in multiset(s);
  }

  lemma LeftNext(was: map<Id, Row>, now: map<Id, Row>, after: map<Id, Row>, models: seq<Id>, model: Id, decide: Id -> Verdict)
    requires Left(was, now, models, decide)
    requires if decide(model) == KeepWaiting then after == now else after == now - ParkedIds(now, model)
    ensures Left(was, after, models + [model], decide)
  {
  }

  lemma RowsGone(st: State, was: map<Id, Row>, models: seq<Id>, decide: Id -> Verdict)
    requires Left(was, st.pending, models, decide)
    ensures forall model <- models :: decide(model) != KeepWaiting ==> RowsOf(st, model) == {}
  {
    assert forall id <- st.pending :: id in was && st.pending[id] == was[id];
  }

  lemma FailedTwice(sessions: map<Id, Session>, a: set<Id>, b: set<Id>)
    ensures WithFailed(WithFailed(sessions, a), b) == WithFailed(sessions, a + b)
    ensures WithFailed(sessions, a + {}) == WithFailed(sessions, a)
  {
    assert a + {} == a;
  }

  class ControlPlane {
    var sessions: map<Id, Session>
    var pending: map<Id, Row>
    var clock: nat
    ghost var calls: set<Call>
    ghost var granted: set<Token>
    ghost var started: seq<Token>

    ghost function View(): State
      reads this
    {
      State(sessions, pending, clock, calls, granted, started)
    }

    constructor ()
      ensures View() == INITIAL
    {
      sessions, pending, clock := map[], map[], 0;
      calls, granted, started := {}, {}, [];
    }

    method CreateSession(id: Id, agent: Id, writer: bool)
      requires id !in sessions
      modifies this
      ensures View() == Apply(old(View()), Create(id, agent, writer))
      ensures sessions == old(sessions)[id := Session(agent, writer, Queued, 0)]
    {
      sessions := sessions[id := Session(agent, writer, Queued, 0)];
      calls := calls + {Gate(Token(id, 0))};
    }

    /** Only idle and failed sessions accept a message; the answer is the new turn.  `seen` is the
        status read before, None if there was no session; the increment itself has no such test. */
    method StartTurn(id: Id, seen: Option<Status>) returns (turn: Option<nat>)
      modifies this
      ensures turn.Some? <==> id in old(sessions) && seen in {Some(Idle), Some(Failed)}
      ensures turn.Some? ==> View() == Apply(old(View()), Message(id)) && turn.value == sessions[id].turns
      ensures turn.None? ==> View() == old(View())
      ensures turn.Some? ==>
        && turn.value == old(sessions)[id].turns + 1
        && sessions == old(sessions)[id := old(sessions)[id].(turns := turn.value, status := Queued)]
    {
      if seen != Some(Idle) && seen != Some(Failed) { return None; }
      if id !in sessions { return None; }
      var s := sessions[id];
      sessions := sessions[id := s.(turns := s.turns + 1, status := Queued)];
      calls := calls + {Gate(Token(id, s.turns + 1))};
      return Some(s.turns + 1);
    }

    method WriterSlotHeld(agent: Id, except: Option<Id>) returns (held: bool)
      ensures held == SlotHeld(View(), agent, except)
      ensures held <==> exists id <- sessions ::
        && sessions[id].agent == agent && sessions[id].status in {Queued, Running} && except != Some(id)
        && !(id in pending && pending[id].key.WriterKey?)
    {
      held := false;
      var todo := sessions.Keys;
      while todo != {}
        invariant todo <= sessions.Keys
        invariant held <==> exists id <- sessions.Keys - todo ::
            sessions[id].agent == agent && InFlight(sessions[id].status)
            && except != Some(id) && !WriterParked(View(), id)
      {
        var id :| id in todo;
        var s := sessions[id];
        var parked := id in pending && pending[id].key.WriterKey?;
        if s.agent == agent && InFlight(s.status) && except != Some(id) && !parked { held := true; }
        todo := todo - {id};
      }
    }

    method AddPendingLaunch(token: Token, key: Key)
      modifies this`pending, this`clock
      ensures View() == Park(old(View()), token, key)
      ensures pending == old(pending)[token.session := Row(key, token.turn, old(clock))] && clock == old(clock) + 1
    {
      pending := pending[token.session := Row(key, token.turn, clock)];
      clock := clock + 1;
    }

    method SetSessionStatus(id: Id, status: Status)
      modifies this`sessions
      ensures View() == SetStatus(old(View()), id, status)
      ensures sessions == if id in old(sessions) then old(sessions)[id := old(sessions)[id].(status := status)] else old(sessions)
    {
      if id in sessions { sessions := sessions[id := sessions[id].(status := status)]; }
    }

    /** The writer gate: park behind another session of the agent, or pass. */
    method WriterGate(token: Token) returns (parked: bool)
      requires Enabled(View(), RunGate(token))
      modifies this
      ensures View() == Apply(old(View()), RunGate(token))
      ensures parked == (old(sessions)[token.session].writer
                         && SlotHeld(old(View()), old(sessions)[token.session].agent, Some(token.session)))
      ensures sessions == old(sessions) && started == old(started)
      ensures parked ==> pending == old(pending)[token.session := Row(WriterKey(old(sessions)[token.session].agent), token.turn, old(clock))]
      ensures !parked ==> pending == old(pending) && clock == old(clock)
    {
      var s := sessions[token.session];
      parked := false;
      if s.writer {
        parked := WriterSlotHeld(s.agent, Some(token.session));
      }
      calls := calls - {Gate(token)};
      if parked {
        AddPendingLaunch(token, WriterKey(s.agent));
      } else {
        calls := calls + {Model(token)};
        granted := granted + {token};
      }
    }

    /** The model gate: start the pod, park on the deployment, or fail the session. */
    method ModelGate(token: Token, decision: Decision)
      requires Enabled(View(), RunModel(token, decision))
      modifies this
      ensures View() == Apply(old(View()), RunModel(token, decision))
      ensures decision == Go ==> started == old(started) + [token] && sessions == old(sessions) && pending == old(pending)
      ensures decision.Wait? ==>
        && pending == old(pending)[token.session := Row(ModelKey(decision.model), token.turn, old(clock))]
        && sessions == old(sessions) && started == old(started)
      ensures decision == Reject ==>
        && sessions == (if token.session in old(sessions)
                        then old(sessions)[token.session := old(sessions)[token.session].(status := Failed)] else old(sessions))
        && pending == old(pending) && started == old(started)
    {
      calls := calls - {Model(token)};
      match decision {
        case Go => started := started + [token];
        case Wait(model) => AddPendingLaunch(token, ModelKey(model));
        case Reject => SetSessionStatus(token.session, Failed);
      }
    }

    /** Both gates of one launch, with nothing in between.  It ends in one of four ways: parked for the
        slot, parked on the deployment, started, or failed. */
    method GatedLaunch(token: Token, decision: Decision) returns (ghost steps: seq<Step>)
      requires Enabled(View(), RunGate(token))
      modifies this
      ensures Runs(old(View()), steps) && View() == After(old(View()), steps)
      ensures steps == [RunGate(token)] || steps == [RunGate(token), RunModel(token, decision)]
      ensures |steps| == 1 <==> (old(sessions)[token.session].writer
                                 && SlotHeld(old(View()), old(sessions)[token.session].agent, Some(token.session)))
      ensures |steps| == 1 ==>
        && pending == old(pending)[token.session := Row(WriterKey(old(sessions)[token.session].agent), token.turn, old(clock))]
        && sessions == old(sessions) && started == old(started)
      ensures |steps| == 2 && decision == Go ==>
        started == old(started) + [token] && sessions == old(sessions) && pending == old(pending)
      ensures |steps| == 2 && decision.Wait? ==>
        && pending == old(pending)[token.session := Row(ModelKey(decision.model), token.turn, old(clock))]
        && sessions == old(sessions) && started == old(started)
      ensures |steps| == 2 && decision == Reject ==>
        && sessions == old(sessions)[token.session := old(sessions)[token.session].(status := Failed)]
        && pending == old(pending) && started == old(started)
    {
      hide Apply, SlotHeld;
      Extend(View(), [], RunGate(token));
      steps := [RunGate(token)];
      var parked := WriterGate(token);
      if parked { return; }
      assert Model(token) in calls by { PassedGate(old(View()), token); }
      Extend(old(View()), steps, RunModel(token, decision));
      steps := steps + [RunModel(token, decision)];
      ModelGate(token, decision);
    }

    /** DELETE … WHERE model = …: all rows of the deployment at once. */
    method TakePendingLaunches(model: Id) returns (rows: set<Token>)
      modifies this
      ensures View() == Apply(old(View()), ClaimModel(model))
      ensures rows == ParkedOn(old(View()), model)
      ensures pending == old(pending) - RowsOf(old(View()), model) && started == old(started) && sessions == old(sessions)
      ensures forall t :: t in rows <==> ParkedOnModel(old(pending), t, model)
      ensures forall t <- rows :: Start(t) in calls
    {
      var ids := set id | id in pending && pending[id].key == ModelKey(model);
      rows := set id | id in ids :: Token(id, pending[id].turn);
      calls := calls + (set id | id in ids :: Start(Token(id, pending[id].turn)));
      pending := pending - ids;
    }

    /** startSession of a claimed launch; an error fails the session. */
    method StartClaimed(token: Token, ok: bool)
      requires Enabled(View(), RunStart(token, ok))
      modifies this
      ensures View() == Apply(old(View()), RunStart(token, ok))
      ensures started == old(started) + [token] && pending == old(pending)
      ensures sessions == if !ok && token.session in old(sessions)
                          then old(sessions)[token.session := old(sessions)[token.session].(status := Failed)] else old(sessions)
    {
      calls := calls - {Start(token)};
      started := started + [token];
      if !ok { SetSessionStatus(token.session, Failed); }
    }

    /** Everything parked on a deployment that became routable is started, each launch once; `broken`
        are the launches whose startSession throws. */
    method ReleasePendingForModel(model: Id, broken: set<Token>) returns (count: nat, ghost steps: seq<Step>)
      modifies this
      ensures Runs(old(View()), steps) && View() == After(old(View()), steps)
      ensures pending == old(pending) - RowsOf(old(View()), model)
      ensures |started| == |old(started)| + count && old(started) <= started
      ensures multiset(started[|old(started)|..]) == multiset(ParkedOn(old(View()), model))
      ensures pending == old(pending) - ParkedIds(old(pending), model)
      ensures forall t :: t in started[|old(started)|..] <==> ParkedOnModel(old(pending), t, model)
      ensures sessions == WithFailed(old(sessions), BrokenIds(old(pending), model, broken))
    {
      hide Apply, SlotHeld, Oldest, RowsOf, ParkedOn, WithFailed, SessionsOf, Enabled, Runs, After;
      NothingReleased(View(), model);
      Extend(View(), [], ClaimModel(model));
      steps := [] + [ClaimModel(model)];
      var rows := TakePendingLaunches(model);
      count := 0;
      var todo := rows;
      assert (rows - todo) * broken == {};
      while todo != {}
        invariant Runs(old(View()), steps) && View() == After(old(View()), steps)
        invariant todo <= rows && forall t <- todo :: Start(t) in calls
        invariant pending == old(pending) - RowsOf(old(View()), model)
        invariant |started| == |old(started)| + count && old(started) <= started
        invariant multiset(started[|old(started)|..]) == multiset(rows - todo)
        invariant sessions == WithFailed(old(sessions), SessionsOf((rows - todo) * broken))
      {
        var token :| token in todo;
        var ok := token !in broken;
        OneMoreFailed(old(sessions), rows, todo, broken, token);
        StartIsEnabled(View(), token, ok);
        Extend(old(View()), steps, RunStart(token, ok));
        StartEffect(View(), token, ok);
        OneMoreStarted(started, |old(started)|, rows, todo, token);
        steps := steps + [RunStart(token, ok)];
        StartClaimed(token, ok);
        todo := todo - {token};
        count := count + 1;
      }
      assert (rows - todo) * broken == set t | t in broken && ParkedOnModel(old(pending), t, model);
      assert rows - todo == rows;
      RowsAre(old(View()), model);
      SameElements(started[|old(started)|..], rows);
      BrokenIdsFrom(old(pending), model, broken, (rows - todo) * broken);
    }

    /** DELETE … WHERE model = …, to fail what was parked. */
    method TakePendingToFail(model: Id) returns (rows: set<Token>)
      modifies this
      ensures View() == Apply(old(View()), ClaimModelToFail(model))
      ensures rows == ParkedOn(old(View()), model)
      ensures pending == old(pending) - RowsOf(old(View()), model) && started == old(started) && sessions == old(sessions)
      ensures forall t :: t in rows <==> ParkedOnModel(old(pending), t, model)
      ensures forall t <- rows :: Abandon(t) in calls
    {
      var ids := set id | id in pending && pending[id].key == ModelKey(model);
      rows := set id | id in ids :: Token(id, pending[id].turn);
      calls := calls + (set id | id in ids :: Abandon(Token(id, pending[id].turn)));
      pending := pending - ids;
    }

    /** Fails one session that was waiting. */
    method FailWaiting(token: Token)
      requires Enabled(View(), RunAbandon(token))
      modifies this
      ensures View() == Apply(old(View()), RunAbandon(token))
      ensures token.session in sessions ==>
        sessions == old(sessions)[token.session := old(sessions)[token.session].(status := Failed)]
    {
      calls := calls - {Abandon(token)};
      SetSessionStatus(token.session, Failed);
    }

    /** Everything parked on a deployment that failed or is gone is failed instead. */
    method FailPendingForModel(model: Id) returns (ghost steps: seq<Step>)
      modifies this
      ensures Runs(old(View()), steps) && View() == After(old(View()), steps)
      ensures pending == old(pending) - RowsOf(old(View()), model) && started == old(started)
      ensures sessions.Keys == old(sessions.Keys)
      ensures forall id <- old(sessions) ::
        sessions[id] == if id in SessionsOf(ParkedOn(old(View()), model)) then old(sessions)[id].(status := Failed) else old(sessions)[id]
      ensures pending == old(pending) - ParkedIds(old(pending), model)
      ensures sessions == WithFailed(old(sessions), ParkedIds(old(pending), model))
    {
      hide Apply, SlotHeld, Oldest, RowsOf, ParkedOn;
      Extend(View(), [], ClaimModelToFail(model));
      steps := [ClaimModelToFail(model)];
      var rows := TakePendingToFail(model);
      var todo := rows;
      ghost var done: set<Token> := {};
      while todo != {}
        invariant Runs(old(View()), steps) && View() == After(old(View()), steps)
        invariant done + todo == rows && forall t <- todo :: Abandon(t) in calls
        invariant pending == old(pending) - RowsOf(old(View()), model) && started == old(started)
        invariant sessions.Keys == old(sessions.Keys)
        invariant forall id <- sessions ::
          sessions[id] == if id in SessionsOf(done) then old(sessions)[id].(status := Failed) else old(sessions)[id]
      {
        var token :| token in todo;
        Extend(old(View()), steps, RunAbandon(token));
        AbandonEffect(View(), token);
        steps := steps + [RunAbandon(token)];
        FailWaiting(token);
        assert SessionsOf(done + {token}) == SessionsOf(done) + {token.session};
        todo, done := todo - {token}, done + {token};
      }
      assert done == rows;
      RowsAre(old(View()), model);
    }

    /** The periodic sweep over the models that launches wait for: each is released, failed or left.
        `models` is the list read at the start; writer queues are not among them.  What was parked on a
        model to release is started, what was parked on one to fail is failed, and nothing else. */
    method SweepPendingLaunches(models: seq<Id>, decide: Id -> Verdict, broken: set<Token>) returns (ghost steps: seq<Step>)
      modifies this
      ensures Runs(old(View()), steps) && View() == After(old(View()), steps)
      ensures forall model <- models :: decide(model) != KeepWaiting ==> RowsOf(View(), model) == {}
      ensures forall id <- old(pending) ::
        id in pending <==> !(old(pending)[id].key.ModelKey? && old(pending)[id].key.model in models
                             && decide(old(pending)[id].key.model) != KeepWaiting)
      ensures forall id <- pending :: id in old(pending) && pending[id] == old(pending)[id]
      ensures old(started) <= started
      ensures forall t :: t in started[|old(started)|..] <==> SweptTo(old(pending), t, models, decide, Release)
      ensures sessions == WithFailed(old(sessions), FailedBySweep(old(pending), models, decide, broken))
    {
      hide Apply, Enabled, Runs, After, RowsOf, WithFailed, FailedBySweep, SweptTo;
      steps := [];
      NothingSwept(View(), decide, broken);
      for i := 0 to |models|
        invariant Runs(old(View()), steps) && View() == After(old(View()), steps)
        invariant Left(old(pending), pending, models[..i], decide)
        invariant old(started) <= started
        invariant forall t :: t in started[|old(started)|..] <==> SweptTo(old(pending), t, models[..i], decide, Release)
        invariant sessions == WithFailed(old(sessions), FailedBySweep(old(pending), models[..i], decide, broken))
      {
        assert models[..i+1] == models[..i] + [models[i]];
        ghost var more := [];
        ghost var was, had := pending, started;
        SweptNext(old(pending), pending, models[..i], models[i], decide, broken);
        match decide(models[i]) {
          case KeepWaiting =>
            NothingSwept(View(), decide, broken);
          case Release =>
            var _, released := ReleasePendingForModel(models[i], broken);
            more := released;
            assert started[|old(started)|..] == had[|old(started)|..] + started[|had|..];
            FailedTwice(old(sessions), FailedBySweep(old(pending), models[..i], decide, broken), BrokenIds(was, models[i], broken));
          case FailAll =>
            var failed := FailPendingForModel(models[i]);
            more := failed;
            FailedTwice(old(sessions), FailedBySweep(old(pending), models[..i], decide, broken), ParkedIds(was, models[i]));
        }
        LeftNext(old(pending), was, pending, models[..i], models[i], decide);
        Chained(old(View()), steps, more);
        steps := steps + more;
      }
      assert models[..|models|] == models;
      RowsGone(View(), old(pending), models, decide);
    }

    /** The longest waiting session of the agent, but only when its slot is free. */
    method TakeNextWriterLaunch(agent: Id) returns (next: Option<Token>)
      modifies this
      ensures next.Some? ==>
        var step := ClaimWriter(agent, next.value.session);
        Enabled(old(View()), step) && View() == Apply(old(View()), step)
        && next.value == TokenOf(old(View()), next.value.session)
        && pending == old(pending) - {next.value.session} && sessions == old(sessions) && started == old(started)
      ensures next.None? ==> View() == old(View()) && forall id :: !Enabled(old(View()), ClaimWriter(agent, id))
    {
      var held := WriterSlotHeld(agent, None);
      if held { return None; }
      var todo := set id | id in pending && pending[id].key == WriterKey(agent);
      assert forall id :: Oldest(View(), agent, id) ==> id in todo;
      if todo == {} { return None; }
      ghost var queue := todo;
      var oldest :| oldest in todo;
      todo := todo - {oldest};
      while todo != {}
        invariant oldest in queue && todo <= queue
        invariant forall id <- queue - todo :: pending[oldest].createdAt <= pending[id].createdAt
      {
        var id :| id in todo;
        if pending[id].createdAt < pending[oldest].createdAt { oldest := id; }
        todo := todo - {id};
      }
      var token := Token(oldest, pending[oldest].turn);
      pending := pending - {oldest};
      calls := calls + {Start(token)};
      granted := granted + {token};
      return Some(token);
    }

    /** At most one parked writer session of the agent is started. */
    method ReleaseWriterQueue(agent: Id, ok: bool) returns (ghost steps: seq<Step>)
      modifies this
      ensures Runs(old(View()), steps) && View() == After(old(View()), steps)
      ensures Released(old(View()), agent, ok, steps)
      ensures steps == [] ==> View() == old(View())
      ensures steps != [] ==>
        && steps[0].ClaimWriter? && steps[0].id in old(pending)
        && var id := steps[0].id;
           && pending == old(pending) - {id} && started == old(started) + [Token(id, old(pending)[id].turn)]
           && sessions == if !ok && id in old(sessions) then old(sessions)[id := old(sessions)[id].(status := Failed)] else old(sessions)
    {
      steps := [];
      var next := TakeNextWriterLaunch(agent);
      if next.None? { return; }
      var id := next.value.session;
      Extend(old(View()), [], ClaimWriter(agent, id));
      steps := [ClaimWriter(agent, id)];
      Extend(old(View()), steps, RunStart(next.value, ok));
      steps := steps + [RunStart(next.value, ok)];
      StartClaimed(next.value, ok);
    }

    /** One release for every agent with a queue, each where the ones before have left off; `ok` says
        which starts succeed. */
    method SweepWriterQueues(agents: seq<Id>, ok: nat -> bool) returns (ghost parts: seq<seq<Step>>)
      modifies this
      ensures Runs(old(View()), Flat(parts)) && View() == After(old(View()), Flat(parts))
      ensures Sweep(old(View()), agents, ok, parts)
    {
      hide Apply, Enabled, Released, Sweep, Flat, Runs, After;
      NoRelease(View(), ok);
      parts := [];
      for i := 0 to |agents|
        invariant Runs(old(View()), Flat(parts)) && View() == After(old(View()), Flat(parts))
        invariant |parts| == i && Sweep(old(View()), agents[..i], ok, parts)
      {
        var more := ReleaseWriterQueue(agents[i], ok(i));
        OneMoreRelease(old(View()), agents[..i], ok, parts, agents[i], more);
        assert agents[..i] + [agents[i]] == agents[..i+1];
        parts := parts + [more];
      }
      assert agents[..|agents|] == agents;
    }

    /** The runner's status callback with its turn guard. */
    method StatusPost(token: Token, status: Status) returns (applied: bool)
      requires Enabled(View(), Post(token, status))
      modifies this`sessions
      ensures View() == Apply(old(View()), Post(token, status))
      ensures applied <==> token.turn >= old(sessions)[token.session].turns
      ensures sessions == if applied then old(sessions)[token.session := old(sessions)[token.session].(status := status)] else old(sessions)
    {
      applied := sessions[token.session].turns <= token.turn;
      if applied { SetSessionStatus(token.session, status); }
    }

    /** The first event of a runner's makes a queued session running. */
    method RunnerReports(token: Token)
      requires Enabled(View(), RunnerEvent(token))
      modifies this`sessions
      ensures View() == Apply(old(View()), RunnerEvent(token))
      ensures sessions == if old(sessions)[token.session].status == Queued
                          then old(sessions)[token.session := old(sessions)[token.session].(status := Running)] else old(sessions)
    {
      if sessions[token.session].status == Queued { SetSessionStatus(token.session, Running); }
    }

    /** A child session that its parent has closed takes no more messages. */
    method LockSession(id: Id)
      requires Enabled(View(), Lock(id))
      modifies this`sessions
      ensures View() == Apply(old(View()), Lock(id))
      ensures sessions == old(sessions)[id := old(sessions)[id].(status := Completed)]
    {
      SetSessionStatus(id, Completed);
    }

    /** From the console: stop, un-park, idle. */
    method InterruptSession(id: Id)
      requires id in sessions
      modifies this
      ensures View() == Apply(Apply(old(View()), Unpark(id)), Interrupt(id))
      ensures pending == old(pending) - {id} && sessions == old(sessions)[id := old(sessions)[id].(status := Idle)] && started == old(started)
    {
      pending := pending - {id};
      SetSessionStatus(id, Idle);
    }

    /** From the public API: stop, idle; a row stays where it is. */
    method ApiInterruptSession(id: Id)
      requires id in sessions
      modifies this`sessions
      ensures View() == Apply(old(View()), Interrupt(id))
      ensures sessions == old(sessions)[id := old(sessions)[id].(status := Idle)]
    {
      SetSessionStatus(id, Idle);
    }

    /** Sessions that look in flight but whose job is gone are failed; parked ones are spared. */
    method SweepZombieSessions(lost: set<Id>) returns (ghost steps: seq<Step>)
      modifies this
      ensures Runs(old(View()), steps) && View() == After(old(View()), steps)
      ensures sessions.Keys == old(sessions.Keys)
      ensures forall id <- old(sessions) ::
        sessions[id] == if InFlight(old(sessions)[id].status) && id !in old(pending) && id in lost
                        then old(sessions)[id].(status := Failed) else old(sessions)[id]
    {
      steps := [];
      ghost var stuck := set id | id in sessions && InFlight(sessions[id].status) && id !in pending;
      var todo := set id | id in sessions && InFlight(sessions[id].status) && id !in pending;
      while todo != {}
        invariant todo <= stuck && sessions.Keys == old(sessions.Keys) && pending == old(pending)
        invariant Runs(old(View()), steps) && View() == After(old(View()), steps)
        invariant forall id <- sessions ::
          sessions[id] == if id in stuck && id !in todo && id in lost
                          then old(sessions)[id].(status := Failed) else old(sessions)[id]
      {
        var id :| id in todo;
        if id in lost {
          Extend(old(View()), steps, Reconcile(id));
          steps := steps + [Reconcile(id)];
          SetSessionStatus(id, Failed);
        }
        todo := todo - {id};
      }
    }
  }

  lemma PassedGate(st: State, token: Token)
    requires Enabled(st, RunGate(token))
    requires !(st.sessions[token.session].writer && SlotHeld(st, st.sessions[token.session].agent, Some(token.session)))
    ensures Model(token) in Apply(st, RunGate(token)).calls
  {
  }
}
