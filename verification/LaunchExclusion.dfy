/** The assumption behind writer exclusion is exact: a step that is not orderly can be carried on, by
    orderly steps alone, to two pods of one writer agent. */
module LaunchExclusion {
  import opened Wrappers
  import opened Sessions
  import opened Launches
  import opened LaunchSafety

  ghost predicate Reaches(st: State, steps: seq<Step>) {
    OrderlyFrom(st, steps) && exists a, b :: Collide(After(st, steps), a, b)
  }

  /** Some orderly run from here ends with two pods of one writer agent. */
  ghost predicate CanCollide(st: State) { exists steps :: Reaches(st, steps) }

  // ---------------------------------------------------------------------------------------
  // Runs from their first step

  lemma {:induction false} Prepend(st: State, step: Step, steps: seq<Step>)
    requires Enabled(st, step) && Orderly(st, step) && OrderlyFrom(Apply(st, step), steps)
    ensures OrderlyFrom(st, [step] + steps) && After(st, [step] + steps) == After(Apply(st, step), steps)
    decreases |steps|
  {
    hide Enabled, Orderly, Apply;
    var all := [step] + steps;
    if steps == [] {
      assert all == [step] && all[..0] == [];
      assert Runs(st, []) && OrderlyFrom(st, []) && After(st, []) == st;
    } else {
      Prepend(st, step, steps[..|steps|-1]);
      assert all[..|all|-1] == [step] + steps[..|steps|-1] && all[|all|-1] == steps[|steps|-1];
    }
  }

  /** One orderly step before a state that can collide. */
  lemma Before(st: State, step: Step)
    requires Enabled(st, step) && Orderly(st, step) && CanCollide(Apply(st, step))
    ensures CanCollide(st)
  {
    hide Enabled, Orderly, Apply, OrderlyFrom, Collide;
    var steps :| Reaches(Apply(st, step), steps);
    Prepend(st, step, steps);
    assert Reaches(st, [step] + steps);
  }

  lemma Now(st: State, a: Id, b: Id)
    requires Collide(st, a, b)
    ensures CanCollide(st)
  {
    hide Collide;
    assert After(st, []) == st;
    assert Reaches(st, []);
  }

  // ---------------------------------------------------------------------------------------
  // The last steps

  /** No session of the agent is in flight, but for these. */
  predicate Alone(st: State, agent: Id, ids: set<Id>) {
    forall id <- st.sessions :: st.sessions[id].agent == agent && id !in ids ==> !InFlight(st.sessions[id].status)
  }

  /** A session that finds the slot free goes through both gates. */
  lemma GoesThrough(st: State, id: Id)
    requires Writer(st, id) && Gate(Token(id, st.sessions[id].turns)) in st.calls
    requires !SlotHeld(st, st.sessions[id].agent, Some(id))
    ensures var t := Token(id, st.sessions[id].turns);
            var granted := Apply(st, RunGate(t));
            && Enabled(granted, RunModel(t, Go))
            && Apply(granted, RunModel(t, Go))
               == st.(calls := st.calls - {Gate(t)} - {Model(t)}, granted := st.granted + {t}, started := st.started + [t])
  {
    hide SlotHeld;
    var t := Token(id, st.sessions[id].turns);
    assert st.calls - {Gate(t)} + {Model(t)} - {Model(t)} == st.calls - {Gate(t)} - {Model(t)};
  }

  lemma PassesGates(st: State, id: Id)
    requires Writer(st, id) && Gate(Token(id, st.sessions[id].turns)) in st.calls
    requires !SlotHeld(st, st.sessions[id].agent, Some(id))
    requires var t := Token(id, st.sessions[id].turns);
      CanCollide(st.(calls := st.calls - {Gate(t)} - {Model(t)}, granted := st.granted + {t}, started := st.started + [t]))
    ensures CanCollide(st)
  {
    hide CanCollide, Apply, SlotHeld;
    var t := Token(id, st.sessions[id].turns);
    GoesThrough(st, id);
    Before(Apply(st, RunGate(t)), RunModel(t, Go));
    Before(st, RunGate(t));
  }

  /** A writer that takes its turn with its queue row left behind does not count as holding the slot,
      so a new session starts beside it. */
  lemma ParkedAndRunning(st: State, x: Id)
    requires Writer(st, x) && InFlight(st.sessions[x].status) && WriterParked(st, x)
    requires PodForCurrentTurn(st, x) && Alone(st, st.sessions[x].agent, {x}) && st.pending.Keys <= st.sessions.Keys
    ensures CanCollide(st)
  {
    hide CanCollide;
    var y := FreshId(st.sessions.Keys);
    var agent := st.sessions[x].agent;
    var created := Apply(st, Create(y, agent, true));
    assert !SlotHeld(created, agent, Some(y));
    var t := Token(y, 0);
    var over := created.(calls := created.calls - {Gate(t)} - {Model(t)}, granted := created.granted + {t}, started := created.started + [t]);
    assert Collide(over, x, y);
    Now(over, x, y);
    PassesGates(created, y);
    Before(st, Create(y, agent, true));
  }

  lemma ParkedTakesTurn(st: State, x: Id)
    requires Writer(st, x) && InFlight(st.sessions[x].status) && WriterParked(st, x)
    requires Gate(Token(x, st.sessions[x].turns)) in st.calls
    requires Alone(st, st.sessions[x].agent, {x}) && st.pending.Keys <= st.sessions.Keys
    ensures CanCollide(st)
  {
    hide CanCollide;
    var t := Token(x, st.sessions[x].turns);
    assert !SlotHeld(st, st.sessions[x].agent, Some(x));
    var over := st.(calls := st.calls - {Gate(t)} - {Model(t)}, granted := st.granted + {t}, started := st.started + [t]);
    ParkedAndRunning(over, x);
    PassesGates(st, x);
  }

  /** A gate of a session that is no longer in flight parks it behind another; when it then gets a
      message, the row stays. */
  lemma LateGate(st: State, x: Id, turn: nat)
    requires Writer(st, x) && Accepts(st.sessions[x].status) && x !in st.pending && Gate(Token(x, turn)) in st.calls
    requires Alone(st, st.sessions[x].agent, {}) && st.pending.Keys <= st.sessions.Keys
    ensures CanCollide(st)
  {
    hide CanCollide;
    var y := FreshId(st.sessions.Keys);
    var agent := st.sessions[x].agent;
    var created := Apply(st, Create(y, agent, true));
    var t := Token(y, 0);
    assert !SlotHeld(created, agent, Some(y));
    var started := created.(calls := created.calls - {Gate(t)} - {Model(t)}, granted := created.granted + {t}, started := created.started + [t]);
    LateGateParks(started, x, turn, y);
    PassesGates(created, y);
    Before(st, Create(y, agent, true));
  }

  lemma LateGateParks(st: State, x: Id, turn: nat, y: Id)
    requires Writer(st, x) && Accepts(st.sessions[x].status) && x !in st.pending && Gate(Token(x, turn)) in st.calls
    requires y != x && y in st.sessions && st.sessions[y] == Session(st.sessions[x].agent, true, Queued, 0)
    requires y !in st.pending && Token(y, 0) in st.started
    requires Alone(st, st.sessions[x].agent, {y}) && st.pending.Keys <= st.sessions.Keys
    ensures CanCollide(st)
  {
    hide CanCollide;
    var agent := st.sessions[x].agent;
    assert SlotHeld(st, agent, Some(x));
    var parked := Apply(st, RunGate(Token(x, turn)));
    var ended := Apply(parked, Post(Token(y, 0), Idle));
    var asked := Apply(ended, Message(x));
    assert WriterParked(parked, x) && ended.pending == parked.pending == asked.pending;
    ParkedTakesTurn(asked, x);
    Before(ended, Message(x));
    Before(parked, Post(Token(y, 0), Idle));
    Before(st, RunGate(Token(x, turn)));
  }

  lemma FreshId(ids: set<Id>) returns (id: Id)
    ensures id !in ids
  {
    var n := LongerThan(ids);
    id := seq(n, _ => 'x');
  }

  lemma {:induction false} LongerThan(ids: set<Id>) returns (n: nat)
    ensures forall id <- ids :: |id| < n
  {
    if ids == {} {
      n := 0;
    } else {
      var id :| id in ids;
      var m := LongerThan(ids - {id});
      n := if m > |id| then m else |id| + 1;
      assert forall other <- ids :: other == id || other in ids - {id};
    }
  }

  // ---------------------------------------------------------------------------------------
  // Whoever else is in flight can be brought to rest first

  function Others(st: State, agent: Id, x: Id): set<Id> {
    set id | id in st.sessions && id != x && st.sessions[id].agent == agent && InFlight(st.sessions[id].status)
  }

  function Gates(st: State): set<Call> { set c | c in st.calls && c.Gate? }

  /** `x` has a gate still to run, and is either out of flight with no row, or in flight for just that
      turn with its queue row left behind. */
  predicate Ready(st: State, x: Id, turn: nat) {
    && Writer(st, x) && Gate(Token(x, turn)) in st.calls && st.pending.Keys <= st.sessions.Keys
    && ((Accepts(st.sessions[x].status) && x !in st.pending)
        || (InFlight(st.sessions[x].status) && WriterParked(st, x) && turn == st.sessions[x].turns))
  }

  /** The step that brings a call nearer to its end, and to failure. */
  function Onward(c: Call): Step {
    match c
    case Gate(t) => RunGate(t)
    case Model(t) => RunModel(t, Reject)
    case Start(t) => RunStart(t, false)
    case Abandon(t) => RunAbandon(t)
  }

  /** Running another session's call leaves `x` ready and makes progress. */
  lemma OnwardKeepsReady(st: State, x: Id, turn: nat, c: Call)
    requires Ready(st, x, turn) && c in st.calls && c.token.session != x && c.token.session in st.sessions
    ensures Enabled(st, Onward(c)) && Orderly(st, Onward(c))
    ensures var after := Apply(st, Onward(c));
      && Ready(after, x, turn) && after.sessions[x] == st.sessions[x]
      && Others(after, st.sessions[x].agent, x) <= Others(st, st.sessions[x].agent, x)
      && (if c.Gate? then Gates(after) == Gates(st) - {c} else Gates(after) == Gates(st) && after.calls == st.calls - {c})
  {
    hide SlotHeld;
  }

  function Ended(st: State, z: Id): State
    requires z in st.sessions
  {
    Apply(Apply(st, Unpark(z)), Interrupt(z))
  }

  lemma InterruptKeepsReady(st: State, x: Id, turn: nat, z: Id)
    requires Ready(st, x, turn) && z != x && z in st.sessions
    ensures var after := Ended(st, z);
      && Ready(after, x, turn) && after.sessions[x] == st.sessions[x]
      && Others(after, st.sessions[x].agent, x) == Others(st, st.sessions[x].agent, x) - {z}
  {
  }

  lemma Smaller<T>(a: set<T>, b: set<T>)
    requires a <= b
    ensures |a| < |b| || a == b
  {
    if a != b {
      var x :| x in b && x !in a;
      Subset(a, b - {x});
    }
  }

  lemma {:induction false} Subset<T>(a: set<T>, b: set<T>)
    requires a <= b
    ensures |a| <= |b|
  {
    if a != {} {
      var x :| x in a;
      Subset(a - {x}, b - {x});
    }
  }

  lemma {:induction false} ReadyCollides(st: State, x: Id, turn: nat)
    requires Ready(st, x, turn)
    ensures CanCollide(st)
    decreases |Others(st, st.sessions[x].agent, x)|, |Gates(st)|, |st.calls|
  {
    hide CanCollide, Apply;
    var agent := st.sessions[x].agent;
    var others := Others(st, agent, x);
    if others == {} {
      ReadyAloneCollides(st, x, turn);
    } else {
      var z :| z in others;
      if c :| c in st.calls && c.token.session == z {
        OnwardKeepsReady(st, x, turn, c);
        Smaller(Others(Apply(st, Onward(c)), agent, x), others);
        ReadyCollides(Apply(st, Onward(c)), x, turn);
        Before(st, Onward(c));
      } else {
        InterruptKeepsReady(st, x, turn, z);
        ReadyCollides(Ended(st, z), x, turn);
        EndedBefore(st, z);
      }
    }
  }

  lemma EndedBefore(st: State, z: Id)
    requires z in st.sessions && !Calling(st, z) && CanCollide(Ended(st, z))
    ensures CanCollide(st)
  {
    hide CanCollide;
    Before(Apply(st, Unpark(z)), Interrupt(z));
    Before(st, Unpark(z));
  }

  lemma ReadyAloneCollides(st: State, x: Id, turn: nat)
    requires Ready(st, x, turn) && Others(st, st.sessions[x].agent, x) == {}
    ensures CanCollide(st)
  {
    hide CanCollide;
    assert forall id <- st.sessions | st.sessions[id].agent == st.sessions[x].agent && id != x ::
      InFlight(st.sessions[id].status) ==> id in Others(st, st.sessions[x].agent, x);
    if Accepts(st.sessions[x].status) {
      LateGate(st, x, turn);
    } else {
      ParkedTakesTurn(st, x);
    }
  }

  // ---------------------------------------------------------------------------------------
  // From a disorderly step to a ready session

  /** A failing call of `x` puts it out of flight, whatever turn the call was for. */
  lemma FailingCall(st: State, x: Id, turn: nat, c: Call)
    requires Writer(st, x) && c in st.calls && c.token.session == x && !c.Gate?
    requires Gate(Token(x, turn)) in st.calls && x !in st.pending && st.pending.Keys <= st.sessions.Keys
    ensures CanCollide(st)
  {
    hide CanCollide, SlotHeld;
    ReadyCollides(Apply(st, Onward(c)), x, turn);
    Before(st, Onward(c));
  }

  /** Out of flight with a call still in progress: by its own gate, or by a new turn's. */
  lemma StrayCall(st: State, x: Id, c: Call)
    requires Writer(st, x) && Accepts(st.sessions[x].status) && x !in st.pending && st.pending.Keys <= st.sessions.Keys
    requires c in st.calls && c.token.session == x
    ensures CanCollide(st)
  {
    hide CanCollide;
    if c.Gate? {
      assert c == Gate(Token(x, c.token.turn));
      ReadyCollides(st, x, c.token.turn);
    } else {
      FailingCall(Apply(st, Message(x)), x, st.sessions[x].turns + 1, c);
      Before(st, Message(x));
    }
  }

  /** A session with a gate to run and a model row left behind. */
  lemma StrayRow(st: State, x: Id, turn: nat, model: Id)
    requires Writer(st, x) && Gate(Token(x, turn)) in st.calls && st.pending.Keys <= st.sessions.Keys
    requires x in st.pending && st.pending[x].key == ModelKey(model)
    ensures CanCollide(st)
  {
    hide CanCollide;
    var claimed := Apply(st, ClaimModel(model));
    assert x in RowsOf(st, model);
    FailingCall(claimed, x, turn, Start(TokenOf(st, x)));
    Before(st, ClaimModel(model));
  }

  /** Two gates of one session. */
  lemma TwoGates(st: State, x: Id, turn: nat)
    requires Writer(st, x) && InFlight(st.sessions[x].status) && x !in st.pending && st.pending.Keys <= st.sessions.Keys
    requires Gate(Token(x, turn)) in st.calls && Gate(Token(x, st.sessions[x].turns)) in st.calls && turn != st.sessions[x].turns
    ensures CanCollide(st)
  {
    hide CanCollide;
    var agent, t := st.sessions[x].agent, Token(x, turn);
    var after := Apply(st, RunGate(t));
    if SlotHeld(st, agent, Some(x)) {
      ReadyCollides(after, x, st.sessions[x].turns);
    } else {
      FailingCall(after, x, st.sessions[x].turns, Model(t));
    }
    Before(st, RunGate(t));
  }

  lemma KeysAreSessions(st: State)
    requires TokensUnique(st)
    ensures st.pending.Keys <= st.sessions.Keys
  {
    forall id <- st.pending ensures id in st.sessions { assert Places(st, TokenOf(st, id)) > 0; }
  }

  /** A writer with a call in progress has no row. */
  lemma CallsHaveNoRow(st: State, c: Call)
    requires LaunchInvariant(st) && c in st.calls && Writer(st, c.token.session)
    ensures c.token.session !in st.pending
  {
    hide OneWriter, GrantsSound;
    assert Places(st, c.token) <= 1;
  }

  lemma DisorderlyEndCollides(st: State, step: Step, id: Id)
    requires LaunchInvariant(st) && Enabled(st, step) && !Orderly(st, step)
    requires step == Interrupt(id) || step == Reconcile(id)
    ensures CanCollide(Apply(st, step))
  {
    hide CanCollide, GrantsSound, OneWriter;
    KeysAreSessions(st);
    if c :| c in st.calls && c.token.session == id {
      CallsHaveNoRow(st, c);
      StrayCall(Apply(st, step), id, c);
    } else {
      LeftParked(Apply(st, step), id);
    }
  }

  /** A writer out of flight whose row was left behind, with no other call in progress. */
  lemma LeftParked(st: State, x: Id)
    requires Writer(st, x) && Accepts(st.sessions[x].status) && x in st.pending && st.pending.Keys <= st.sessions.Keys
    ensures CanCollide(st)
  {
    hide CanCollide;
    var asked, turn := Apply(st, Message(x)), st.sessions[x].turns + 1;
    match st.pending[x].key {
      case ModelKey(model) => StrayRow(asked, x, turn, model);
      case WriterKey(_) => ReadyCollides(asked, x, turn);
    }
    Before(st, Message(x));
  }

  lemma DisorderlyMessageCollides(st: State, id: Id)
    requires LaunchInvariant(st) && Enabled(st, Message(id)) && !Orderly(st, Message(id))
    ensures CanCollide(Apply(st, Message(id)))
  {
    hide CanCollide, TokensUnique, GrantsSound, OneWriter;
    KeysAreSessions(st);
    var after, turn := Apply(st, Message(id)), st.sessions[id].turns + 1;
    if c :| c in st.calls && c.token.session == id {
      CallsHaveNoRow(st, c);
      if c.Gate? {
        assert c == Gate(Token(id, st.sessions[id].turns));
        TwoGates(after, id, st.sessions[id].turns);
      } else {
        FailingCall(after, id, turn, c);
      }
    } else {
      match st.pending[id].key
      case ModelKey(model) => StrayRow(after, id, turn, model);
      case WriterKey(_) => ReadyCollides(after, id, turn);
    }
  }

  lemma OrderlyIsSafe(st: State, step: Step)
    requires LaunchInvariant(st) && Enabled(st, step) && Orderly(st, step)
    ensures !CanCollide(Apply(st, step))
  {
    hide LaunchInvariant, Apply, Enabled, Orderly, Collide;
    StepKeepsInvariant(st, step);
    if steps :| Reaches(Apply(st, step), steps) {
      OrderlyStepsKeepInvariant(Apply(st, step), steps);
      var a, b :| Collide(After(Apply(st, step), steps), a, b);
      InvariantExcludes(After(Apply(st, step), steps), a, b);
    }
  }

  /** From any state the orderly runs reach: a step is orderly exactly when no orderly continuation
      ends with two pods of one writer agent.  So a reconcile of a writer breaks exclusion exactly
      while one of its launch calls is in progress, in whatever phase, and an interrupt or a raced
      message exactly while a launch of its is in progress or parked. */
  lemma OrderlyIffExclusive(st: State, step: Step)
    requires LaunchInvariant(st) && Enabled(st, step)
    ensures Orderly(st, step) <==> !CanCollide(Apply(st, step))
  {
    hide CanCollide, LaunchInvariant, Apply, Enabled;
    if Orderly(st, step) {
      OrderlyIsSafe(st, step);
    } else {
      match step
      case Interrupt(id) => DisorderlyEndCollides(st, step, id);
      case Reconcile(id) => DisorderlyEndCollides(st, step, id);
      case Message(id) => DisorderlyMessageCollides(st, id);
    }
  }
}
