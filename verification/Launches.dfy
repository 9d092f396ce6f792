/** Sessions, turns and launches: control-plane/src/session-actions.ts (gatedLaunch), repo.ts
    (startTurn, setSessionStatus, pending_launches), writer-queue.ts, launch-gate.ts and
    reconciler.ts as one state machine.  A step is one atomic action of the database; calls that
    are still between two such actions are part of the state. */
module Launches {
  import opened Wrappers
  import opened Sessions

  datatype Session = Session(agent: Id, writer: bool, status: Status, turns: nat)

  /** A launch is for one turn of one session. */
  datatype Token = Token(session: Id, turn: nat)

  /** The `model` column of pending_launches: a deployment name, or `wq:<agent>`. */
  datatype Key = ModelKey(model: Id) | WriterKey(agent: Id)
  datatype Row = Row(key: Key, turn: nat, createdAt: nat)

  /** A launch in progress: before the writer gate, between the two gates, claimed from
      pending_launches to be started, or claimed to be failed. */
  datatype Call = Gate(token: Token) | Model(token: Token) | Start(token: Token) | Abandon(token: Token)

  /** `granted` and `started` are histories: the tokens let past the writer gate, and every call
      of the orchestrator's startSession. */
  datatype State = State(
    sessions: map<Id, Session>, pending: map<Id, Row>, clock: nat,
    calls: set<Call>, granted: set<Token>, started: seq<Token>)

  const INITIAL := State(map[], map[], 0, {}, {}, [])

  datatype Decision = Go | Wait(model: Id) | Reject

  datatype Step =
    | Create(id: Id, agent: Id, writer: bool)
    | Message(id: Id)
    | RunGate(token: Token)
    | RunModel(token: Token, decision: Decision)
    | ClaimModel(model: Id)
    | ClaimModelToFail(model: Id)
    | ClaimWriter(agent: Id, id: Id)
    | RunStart(token: Token, ok: bool)
    | RunAbandon(token: Token)
    | Post(token: Token, status: Status)
    | RunnerEvent(token: Token)
    | Unpark(id: Id)
    | Interrupt(id: Id)
    | Reconcile(id: Id)
    | Lock(id: Id)

  // ---------------------------------------------------------------------------------------
  // The steps

  predicate WriterParked(st: State, id: Id) {
    id in st.pending && st.pending[id].key.WriterKey?
  }

  /** An in-flight session of the agent, other than `except`, that is not waiting for the slot. */
  predicate SlotHeld(st: State, agent: Id, except: Option<Id>) {
    exists id <- st.sessions ::
      st.sessions[id].agent == agent && InFlight(st.sessions[id].status)
      && except != Some(id) && !WriterParked(st, id)
  }

  /** The first session parked for the agent's slot. */
  predicate Oldest(st: State, agent: Id, id: Id) {
    && id in st.pending && st.pending[id].key == WriterKey(agent)
    && forall other <- st.pending ::
         st.pending[other].key == WriterKey(agent) ==> st.pending[id].createdAt <= st.pending[other].createdAt
  }

  function SetStatus(st: State, id: Id, status: Status): State {
    if id in st.sessions then st.(sessions := st.sessions[id := st.sessions[id].(status := status)]) else st
  }

  function Park(st: State, token: Token, key: Key): State {
    st.(pending := st.pending[token.session := Row(key, token.turn, st.clock)], clock := st.clock + 1)
  }

  function RowsOf(st: State, model: Id): set<Id> {
    set id | id in st.pending && st.pending[id].key == ModelKey(model)
  }

  function TokenOf(st: State, id: Id): Token
    requires id in st.pending
  {
    Token(id, st.pending[id].turn)
  }

  /** An interrupt from the console un-parks the session first, one from the public API does not.
      A message's increment does not look at the status again: whoever sends it has read an idle or
      failed session before, and other steps may have come in between. */
  predicate Enabled(st: State, step: Step) {
    match step
    case Create(id, _, _) => id !in st.sessions
    case Message(id) => id in st.sessions
    case RunGate(t) => Gate(t) in st.calls && t.session in st.sessions
    case RunModel(t, _) => Model(t) in st.calls
    case ClaimModel(_) => true
    case ClaimModelToFail(_) => true
    case ClaimWriter(agent, id) => !SlotHeld(st, agent, None) && Oldest(st, agent, id)
    case RunStart(t, _) => Start(t) in st.calls
    case RunAbandon(t) => Abandon(t) in st.calls
    case Post(t, status) => t in st.started && t.session in st.sessions && (status == Idle || status == Failed || status == Completed)
    case RunnerEvent(t) => t in st.started && t.session in st.sessions
    case Unpark(id) => id in st.sessions
    case Interrupt(id) => id in st.sessions
    case Reconcile(id) => id in st.sessions && InFlight(st.sessions[id].status) && id !in st.pending
    case Lock(id) => id in st.sessions && (st.sessions[id].status == Idle || st.sessions[id].status == Failed)
  }

  function Apply(st: State, step: Step): State
    requires Enabled(st, step)
  {
    match step
    case Create(id, agent, writer) =>
      st.(sessions := st.sessions[id := Session(agent, writer, Queued, 0)], calls := st.calls + {Gate(Token(id, 0))})
    case Message(id) =>
      var s := st.sessions[id];
      st.(sessions := st.sessions[id := s.(status := Queued, turns := s.turns + 1)],
          calls := st.calls + {Gate(Token(id, s.turns + 1))})
    case RunGate(t) =>
      var s := st.sessions[t.session];
      var rest := st.(calls := st.calls - {Gate(t)});
      if s.writer && SlotHeld(st, s.agent, Some(t.session)) then Park(rest, t, WriterKey(s.agent))
      else rest.(calls := rest.calls + {Model(t)}, granted := st.granted + {t})
    case RunModel(t, decision) =>
      var rest := st.(calls := st.calls - {Model(t)});
      (match decision
       case Go => rest.(started := st.started + [t])
       case Wait(model) => Park(rest, t, ModelKey(model))
       case Reject => SetStatus(rest, t.session, Failed))
    case ClaimModel(model) =>
      st.(pending := st.pending - RowsOf(st, model),
          calls := st.calls + (set id | id in RowsOf(st, model) :: Start(TokenOf(st, id))))
    case ClaimModelToFail(model) =>
      st.(pending := st.pending - RowsOf(st, model),
          calls := st.calls + (set id | id in RowsOf(st, model) :: Abandon(TokenOf(st, id))))
    case ClaimWriter(agent, id) =>
      st.(pending := st.pending - {id}, calls := st.calls + {Start(TokenOf(st, id))},
          granted := st.granted + {TokenOf(st, id)})
    case RunStart(t, ok) =>
      var rest := st.(calls := st.calls - {Start(t)}, started := st.started + [t]);
      if ok then rest else SetStatus(rest, t.session, Failed)
    case RunAbandon(t) => SetStatus(st.(calls := st.calls - {Abandon(t)}), t.session, Failed)
    case Post(t, status) =>
      // The turn guard: a report of an older turn changes nothing.
      if st.sessions[t.session].turns <= t.turn then SetStatus(st, t.session, status) else st
    case RunnerEvent(t) =>
      if st.sessions[t.session].status == Queued then SetStatus(st, t.session, Running) else st
    case Unpark(id) => st.(pending := st.pending - {id})
    case Interrupt(id) => SetStatus(st, id, Idle)
    case Reconcile(id) => SetStatus(st, id, Failed)
    case Lock(id) => SetStatus(st, id, Completed)
  }

  /** A run from `st`: every step enabled where it is taken. */
  predicate Runs(st: State, steps: seq<Step>)
    decreases |steps|, 0
  {
    steps == [] || (Runs(st, steps[..|steps|-1]) && Enabled(After(st, steps[..|steps|-1]), steps[|steps|-1]))
  }

  function After(st: State, steps: seq<Step>): State
    requires Runs(st, steps)
    decreases |steps|, 1
  {
    if steps == [] then st else Apply(After(st, steps[..|steps|-1]), steps[|steps|-1])
  }

  lemma Extend(st: State, steps: seq<Step>, step: Step)
    requires Runs(st, steps) && Enabled(After(st, steps), step)
    ensures Runs(st, steps + [step])
    ensures After(st, steps + [step]) == Apply(After(st, steps), step)
  {
    assert (steps + [step])[..|steps|] == steps;
  }
}
