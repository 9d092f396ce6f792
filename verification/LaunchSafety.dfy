/** Safety of launches over every interleaving. */
module LaunchSafety {
  import opened Wrappers
  import opened Sessions
  import opened Launches

  // ---------------------------------------------------------------------------------------
  // Every token is in at most one place

  function Count(b: bool): nat { if b then 1 else 0 }

  function InCalls(st: State, t: Token): nat {
    Count(Gate(t) in st.calls) + Count(Model(t) in st.calls) + Count(Start(t) in st.calls) + Count(Abandon(t) in st.calls)
  }

  function InPending(st: State, t: Token): nat {
    Count(t.session in st.pending && st.pending[t.session].turn == t.turn)
  }

  /** How often a token occurs among the calls in progress, the parked rows and the starts. */
  function Places(st: State, t: Token): nat {
    InCalls(st, t) + InPending(st, t) + multiset(st.started)[t]
  }

  predicate Issued(st: State, t: Token) {
    t.session in st.sessions && t.turn <= st.sessions[t.session].turns
  }

  /** A token, issued by createSession or by one increment of `turns`, is held once at most. */
  ghost predicate TokensUnique(st: State) {
    forall t {:trigger Places(st, t)} :: Places(st, t) <= 1 && (Places(st, t) > 0 ==> Issued(st, t))
  }

  predicate IsClaim(step: Step) { step.ClaimModel? || step.ClaimModelToFail? || step.ClaimWriter? }

  lemma ClaimKeepsPlaces(st: State, step: Step, t: Token)
    requires Enabled(st, step) && TokensUnique(st) && IsClaim(step)
    ensures Places(Apply(st, step), t) <= 1
    ensures Places(Apply(st, step), t) > 0 ==> Issued(Apply(st, step), t)
  {
    hide SlotHeld;
    assert Places(st, t) <= 1 && (Places(st, t) > 0 ==> Issued(st, t));
  }

  /** The steps that only touch session rows, and an interrupt's un-parking. */
  predicate IsOutside(step: Step) {
    step.Post? || step.RunnerEvent? || step.Unpark? || step.Interrupt? || step.Reconcile? || step.Lock?
  }

  lemma OutsideKeepsPlaces(st: State, step: Step, t: Token)
    requires Enabled(st, step) && TokensUnique(st) && IsOutside(step)
    ensures Places(Apply(st, step), t) <= 1
    ensures Places(Apply(st, step), t) > 0 ==> Issued(Apply(st, step), t)
  {
    hide SlotHeld, RowsOf;
    assert Places(st, t) <= 1 && (Places(st, t) > 0 ==> Issued(st, t));
  }

  lemma IssueKeepsPlaces(st: State, step: Step, t: Token)
    requires Enabled(st, step) && TokensUnique(st) && (step.Create? || step.Message?)
    ensures Places(Apply(st, step), t) <= 1
    ensures Places(Apply(st, step), t) > 0 ==> Issued(Apply(st, step), t)
  {
    hide SlotHeld, RowsOf;
    assert Places(st, t) <= 1 && (Places(st, t) > 0 ==> Issued(st, t));
  }

  lemma GateKeepsPlaces(st: State, step: Step, t: Token)
    requires Enabled(st, step) && TokensUnique(st) && step.RunGate?
    ensures Places(Apply(st, step), t) <= 1
    ensures Places(Apply(st, step), t) > 0 ==> Issued(Apply(st, step), t)
  {
    hide SlotHeld, RowsOf;
    assert Places(st, t) <= 1 && (Places(st, t) > 0 ==> Issued(st, t));
  }

  lemma ModelKeepsPlaces(st: State, step: Step, t: Token)
    requires Enabled(st, step) && TokensUnique(st) && step.RunModel?
    ensures Places(Apply(st, step), t) <= 1
    ensures Places(Apply(st, step), t) > 0 ==> Issued(Apply(st, step), t)
  {
    hide SlotHeld, RowsOf;
    assert Places(st, t) <= 1 && (Places(st, t) > 0 ==> Issued(st, t));
  }

  lemma StartKeepsPlaces(st: State, step: Step, t: Token)
    requires Enabled(st, step) && TokensUnique(st) && step.RunStart?
    ensures Places(Apply(st, step), t) <= 1
    ensures Places(Apply(st, step), t) > 0 ==> Issued(Apply(st, step), t)
  {
    hide SlotHeld, RowsOf;
    assert Places(st, t) <= 1 && (Places(st, t) > 0 ==> Issued(st, t));
  }

  lemma AbandonKeepsPlaces(st: State, step: Step, t: Token)
    requires Enabled(st, step) && TokensUnique(st) && step.RunAbandon?
    ensures Places(Apply(st, step), t) <= 1
    ensures Places(Apply(st, step), t) > 0 ==> Issued(Apply(st, step), t)
  {
    hide SlotHeld, RowsOf;
    assert Places(st, t) <= 1 && (Places(st, t) > 0 ==> Issued(st, t));
  }

  lemma StepKeepsTokens(st: State, step: Step)
    requires Enabled(st, step) && TokensUnique(st)
    ensures TokensUnique(Apply(st, step))
  {
    hide Apply, Places, Issued, Enabled;
    forall t ensures Places(Apply(st, step), t) <= 1 && (Places(Apply(st, step), t) > 0 ==> Issued(Apply(st, step), t)) {
      if IsClaim(step) { ClaimKeepsPlaces(st, step, t); }
      else if IsOutside(step) { OutsideKeepsPlaces(st, step, t); }
      else if step.Create? || step.Message? { IssueKeepsPlaces(st, step, t); }
      else if step.RunGate? { GateKeepsPlaces(st, step, t); }
      else if step.RunModel? { ModelKeepsPlaces(st, step, t); }
      else if step.RunStart? { StartKeepsPlaces(st, step, t); }
      else { AbandonKeepsPlaces(st, step, t); }
    }
  }

  lemma {:induction false} TokensStayUnique(steps: seq<Step>)
    requires Runs(INITIAL, steps)
    ensures TokensUnique(After(INITIAL, steps))
  {
    if steps != [] {
      TokensStayUnique(steps[..|steps|-1]);
      StepKeepsTokens(After(INITIAL, steps[..|steps|-1]), steps[|steps|-1]);
    }
  }

  /** At most one startSession per session and turn, in every interleaving of direct launches,
      releases, sweeps, posts and interrupts. */
  lemma OneStartPerTurn(steps: seq<Step>, i: nat, j: nat)
    requires Runs(INITIAL, steps)
    requires i < |After(INITIAL, steps).started| && j < |After(INITIAL, steps).started| && i != j
    ensures After(INITIAL, steps).started[i] != After(INITIAL, steps).started[j]
  {
    TokensStayUnique(steps);
    var st := After(INITIAL, steps);
    assert Places(st, st.started[i]) <= 1;
    if st.started[i] == st.started[j] { TwiceCounted(st.started, i, j); }
  }

  lemma {:induction false} TwiceCounted(s: seq<Token>, i: nat, j: nat)
    requires i < |s| && j < |s| && i != j && s[i] == s[j]
    ensures multiset(s)[s[i]] >= 2
  {
    var lo, hi := if i < j then i else j, if i < j then j else i;
    assert s == s[..hi] + [s[hi]] + s[hi+1..];
    assert s[lo] in s[..hi];
    assert multiset(s) == multiset(s[..hi]) + multiset{s[hi]} + multiset(s[hi+1..]);
  }

  // ---------------------------------------------------------------------------------------
  // One writer at a time

  predicate Calling(st: State, id: Id) { exists c <- st.calls :: c.token.session == id }

  predicate Accepts(s: Status) { s == Idle || s == Failed }

  /** The environment assumption, on writer sessions only: nobody interrupts or reconciles one while
      a launch call of its is still between two database actions, nobody interrupts one that is still
      parked, and no message that raced another takes a turn while one is being launched or is parked. */
  predicate Orderly(st: State, step: Step) {
    match step
    case Interrupt(id) => id in st.sessions && st.sessions[id].writer ==> !Calling(st, id) && id !in st.pending
    case Reconcile(id) => id in st.sessions && st.sessions[id].writer ==> !Calling(st, id)
    case Message(id) =>
      id in st.sessions && st.sessions[id].writer && !Accepts(st.sessions[id].status) ==> !Calling(st, id) && id !in st.pending
    case _ => true
  }

  predicate Current(st: State, t: Token) {
    t.session in st.sessions && t.turn == st.sessions[t.session].turns && InFlight(st.sessions[t.session].status)
  }

  predicate Writer(st: State, id: Id) { id in st.sessions && st.sessions[id].writer }

  /** A writer's calls in progress and parked row belong to its current turn, and it is in flight. */
  ghost predicate LaunchesCurrent(st: State) {
    && (forall c <- st.calls :: Writer(st, c.token.session) ==> Current(st, c.token))
    && (forall id <- st.pending :: Writer(st, id) ==> Current(st, TokenOf(st, id)))
  }

  /** A row waits for the slot exactly before its token is granted, and is its session's own agent's. */
  predicate RowSound(st: State, id: Id)
    requires id in st.pending
  {
    && (st.pending[id].key.WriterKey? <==> TokenOf(st, id) !in st.granted)
    && (st.pending[id].key.WriterKey? ==>
          id in st.sessions && st.sessions[id].writer && st.pending[id].key.agent == st.sessions[id].agent)
  }

  /** Who has passed the writer gate: a token is granted exactly from the gate's grant, or its
      release from the queue, on. */
  ghost predicate GrantsSound(st: State) {
    && (forall t <- st.granted :: Issued(st, t))
    && (forall t <- st.started :: t in st.granted)
    && (forall c <- st.calls :: c.Gate? <==> c.token !in st.granted)
    && (forall id <- st.pending :: RowSound(st, id))
  }

  predicate Passed(st: State, id: Id)
    requires id in st.sessions
  {
    Token(id, st.sessions[id].turns) in st.granted
  }

  predicate Writing(st: State, id: Id) {
    id in st.sessions && st.sessions[id].writer && InFlight(st.sessions[id].status) && Passed(st, id)
  }

  ghost predicate OneWriter(st: State) {
    forall a <- st.sessions, b <- st.sessions ::
      a != b && st.sessions[a].agent == st.sessions[b].agent ==> !(Writing(st, a) && Writing(st, b))
  }

  ghost predicate LaunchInvariant(st: State) {
    TokensUnique(st) && LaunchesCurrent(st) && GrantsSound(st) && OneWriter(st)
  }

  lemma KeptCallStaysCurrent(st: State, step: Step, c: Call)
    requires Enabled(st, step) && Orderly(st, step) && LaunchInvariant(st)
    requires c in st.calls && c in Apply(st, step).calls
    ensures Writer(Apply(st, step), c.token.session) ==> Current(Apply(st, step), c.token)
  {
    hide SlotHeld, OneWriter, RowsOf;
    assert Places(st, c.token) <= 1;
  }

  /** The steps that begin a call or carry one on. */
  predicate Adds(step: Step) {
    step.Create? || step.Message? || step.RunGate? || IsClaim(step)
  }

  lemma OnlyThoseAdd(st: State, step: Step)
    requires Enabled(st, step) && !Adds(step)
    ensures Apply(st, step).calls <= st.calls
  {
  }

  lemma NewCallIsCurrent(st: State, step: Step, c: Call)
    requires Enabled(st, step) && Orderly(st, step) && LaunchInvariant(st) && Adds(step)
    requires c !in st.calls && c in Apply(st, step).calls
    ensures Writer(Apply(st, step), c.token.session) ==> Current(Apply(st, step), c.token)
  {
    hide SlotHeld, OneWriter, GrantsSound, TokensUnique;
    if step.ClaimModel? {
      var id :| id in RowsOf(st, step.model) && c == Start(TokenOf(st, id));
    } else if step.ClaimModelToFail? {
      var id :| id in RowsOf(st, step.model) && c == Abandon(TokenOf(st, id));
    }
  }

  lemma CallsStayCurrent(st: State, step: Step, c: Call)
    requires Enabled(st, step) && Orderly(st, step) && LaunchInvariant(st)
    requires c in Apply(st, step).calls
    ensures Writer(Apply(st, step), c.token.session) ==> Current(Apply(st, step), c.token)
  {
    hide Apply, Enabled, Orderly, LaunchInvariant, Writer, Current, Adds;
    if !Adds(step) { OnlyThoseAdd(st, step); }
    if c in st.calls { KeptCallStaysCurrent(st, step, c); } else { NewCallIsCurrent(st, step, c); }
  }

  lemma RowsStayCurrent(st: State, step: Step, id: Id)
    requires Enabled(st, step) && Orderly(st, step) && LaunchInvariant(st)
    requires id in Apply(st, step).pending
    ensures Writer(Apply(st, step), id) ==> Current(Apply(st, step), TokenOf(Apply(st, step), id))
  {
    hide SlotHeld, OneWriter;
    assert Places(st, TokenOf(Apply(st, step), id)) <= 1;
  }

  lemma CallGrantsStaySound(st: State, step: Step, c: Call)
    requires Enabled(st, step) && Orderly(st, step) && LaunchInvariant(st)
    requires c in Apply(st, step).calls
    ensures c.Gate? <==> c.token !in Apply(st, step).granted
  {
    hide SlotHeld, OneWriter;
    assert Places(st, c.token) <= 1;
  }

  lemma GateRowsAreSound(st: State, step: Step, id: Id)
    requires Enabled(st, step) && LaunchInvariant(st) && step.RunGate?
    requires id in Apply(st, step).pending
    ensures RowSound(Apply(st, step), id)
  {
    hide SlotHeld, OneWriter, LaunchesCurrent;
    assert Places(st, TokenOf(Apply(st, step), id)) <= 1;
  }

  lemma OtherRowsStaySound(st: State, step: Step, id: Id)
    requires Enabled(st, step) && LaunchInvariant(st) && !step.RunGate?
    requires id in Apply(st, step).pending
    ensures RowSound(Apply(st, step), id)
  {
    hide SlotHeld, OneWriter, LaunchesCurrent;
    assert Places(st, TokenOf(Apply(st, step), id)) <= 1;
  }

  lemma RowGrantsStaySound(st: State, step: Step, id: Id)
    requires Enabled(st, step) && LaunchInvariant(st)
    requires id in Apply(st, step).pending
    ensures RowSound(Apply(st, step), id)
  {
    hide Enabled, Apply, LaunchInvariant, RowSound;
    if step.RunGate? { GateRowsAreSound(st, step, id); } else { OtherRowsStaySound(st, step, id); }
  }

  lemma GrantedStaysIssued(st: State, step: Step, t: Token)
    requires Enabled(st, step) && Orderly(st, step) && LaunchInvariant(st) && t in Apply(st, step).granted
    ensures Issued(Apply(st, step), t)
  {
    hide SlotHeld, OneWriter, LaunchesCurrent, Orderly;
    assert Places(st, t) > 0 ==> Issued(st, t);
  }

  lemma StartedStaysGranted(st: State, step: Step, t: Token)
    requires Enabled(st, step) && Orderly(st, step) && LaunchInvariant(st) && t in Apply(st, step).started
    ensures t in Apply(st, step).granted
  {
    hide SlotHeld, OneWriter, LaunchesCurrent, TokensUnique, Orderly;
  }

  lemma GrantsStaySound(st: State, step: Step)
    requires Enabled(st, step) && Orderly(st, step) && LaunchInvariant(st)
    ensures GrantsSound(Apply(st, step))
  {
    hide Apply, Enabled, Orderly, TokensUnique, LaunchesCurrent, OneWriter, Issued;
    var st' := Apply(st, step);
    forall t | t in st'.granted ensures Issued(st', t) { GrantedStaysIssued(st, step, t); }
    forall t | t in st'.started ensures t in st'.granted { StartedStaysGranted(st, step, t); }
    forall c | c in st'.calls ensures c.Gate? <==> c.token !in st'.granted {
      CallGrantsStaySound(st, step, c);
    }
    forall id | id in st'.pending ensures RowSound(st', id) { RowGrantsStaySound(st, step, id); }
  }

  /** A grant leaves its session the only writing one; nothing else makes a session write. */
  lemma OneWriterStays(st: State, step: Step)
    requires Enabled(st, step) && Orderly(st, step) && LaunchInvariant(st)
    ensures OneWriter(Apply(st, step))
  {
    var st' := Apply(st, step);
    forall a, b | a in st'.sessions && b in st'.sessions && a != b && st'.sessions[a].agent == st'.sessions[b].agent
      ensures !(Writing(st', a) && Writing(st', b))
    {
      if Writing(st', a) && Writing(st', b) {
        WriterWasKnown(st, step, a);
        WriterWasKnown(st, step, b);
        if !Writing(st, a) { NewWriterWasAlone(st, step, a, b); }
        if !Writing(st, b) { NewWriterWasAlone(st, step, b, a); }
      }
    }
  }

  lemma WriterWasKnown(st: State, step: Step, id: Id)
    requires Enabled(st, step) && LaunchInvariant(st) && Writing(Apply(st, step), id)
    ensures id in st.sessions && st.sessions[id].agent == Apply(st, step).sessions[id].agent
  {
    hide SlotHeld, OneWriter;
  }

  lemma NewWriterWasAlone(st: State, step: Step, a: Id, b: Id)
    requires Enabled(st, step) && Orderly(st, step) && LaunchInvariant(st)
    requires a in st.sessions && b in st.sessions && a != b && st.sessions[a].agent == st.sessions[b].agent
    requires Writing(Apply(st, step), a) && !Writing(st, a)
    ensures !Writing(Apply(st, step), b)
  {
  }

  lemma StepKeepsInvariant(st: State, step: Step)
    requires Enabled(st, step) && Orderly(st, step) && LaunchInvariant(st)
    ensures LaunchInvariant(Apply(st, step))
  {
    hide Apply, Enabled, Orderly;
    StepKeepsTokens(st, step);
    forall c | c in Apply(st, step).calls ensures Writer(Apply(st, step), c.token.session) ==> Current(Apply(st, step), c.token) {
      CallsStayCurrent(st, step, c);
    }
    forall id | id in Apply(st, step).pending
      ensures Writer(Apply(st, step), id) ==> Current(Apply(st, step), TokenOf(Apply(st, step), id))
    {
      RowsStayCurrent(st, step, id);
    }
    GrantsStaySound(st, step);
    OneWriterStays(st, step);
  }

  /** A run from `st` every step of which is orderly. */
  predicate OrderlyFrom(st: State, steps: seq<Step>)
    decreases |steps|
  {
    && Runs(st, steps)
    && (steps == [] || (OrderlyFrom(st, steps[..|steps|-1]) && Orderly(After(st, steps[..|steps|-1]), steps[|steps|-1])))
  }

  predicate OrderlyRun(steps: seq<Step>) { OrderlyFrom(INITIAL, steps) }

  lemma {:induction false} OrderlyStepsKeepInvariant(st: State, steps: seq<Step>)
    requires LaunchInvariant(st) && OrderlyFrom(st, steps)
    ensures LaunchInvariant(After(st, steps))
    decreases |steps|
  {
    hide LaunchInvariant, Apply, Enabled, Orderly;
    if steps != [] {
      OrderlyStepsKeepInvariant(st, steps[..|steps|-1]);
      StepKeepsInvariant(After(st, steps[..|steps|-1]), steps[|steps|-1]);
    }
  }

  lemma OrderlyRunsKeepInvariant(steps: seq<Step>)
    requires OrderlyRun(steps)
    ensures LaunchInvariant(After(INITIAL, steps))
  {
    assert LaunchInvariant(INITIAL);
    hide LaunchInvariant;
    OrderlyStepsKeepInvariant(INITIAL, steps);
  }

  /** A pod is running for the session's current turn, which nobody has ended yet. */
  predicate PodForCurrentTurn(st: State, id: Id) {
    id in st.sessions && InFlight(st.sessions[id].status) && Token(id, st.sessions[id].turns) in st.started
  }

  /** Two writer sessions of one agent, each with a pod for its current turn. */
  predicate Collide(st: State, a: Id, b: Id) {
    && a != b && Writer(st, a) && Writer(st, b) && st.sessions[a].agent == st.sessions[b].agent
    && PodForCurrentTurn(st, a) && PodForCurrentTurn(st, b)
  }

  lemma PodsAreOfWriters(st: State, id: Id)
    requires GrantsSound(st)
    ensures Writer(st, id) && PodForCurrentTurn(st, id) ==> Writing(st, id)
  {
  }

  lemma InvariantExcludes(st: State, a: Id, b: Id)
    requires LaunchInvariant(st)
    ensures !Collide(st, a, b)
  {
    hide TokensUnique, LaunchesCurrent, PodForCurrentTurn, Writing;
    PodsAreOfWriters(st, a);
    PodsAreOfWriters(st, b);
  }

  /** Writer exclusion: in every reachable state of every orderly interleaving, at most one
      session of a writer agent is in flight past the writer gate, and so at most one has a pod. */
  lemma WriterExclusion(steps: seq<Step>, a: Id, b: Id)
    requires OrderlyRun(steps)
    ensures var st := After(INITIAL, steps);
      && !Collide(st, a, b)
      && (a in st.sessions && b in st.sessions && a != b && st.sessions[a].agent == st.sessions[b].agent ==>
            !(Writing(st, a) && Writing(st, b)))
  {
    OrderlyRunsKeepInvariant(steps);
    InvariantExcludes(After(INITIAL, steps), a, b);
  }

  /** A session waiting for the writer slot is in flight and has no pod for its current turn. */
  lemma QueuedWriterHasNoPod(steps: seq<Step>, id: Id)
    requires OrderlyRun(steps) && WriterParked(After(INITIAL, steps), id)
    ensures var st := After(INITIAL, steps);
      id in st.sessions && InFlight(st.sessions[id].status) && !PodForCurrentTurn(st, id)
  {
    OrderlyRunsKeepInvariant(steps);
  }

  // ---------------------------------------------------------------------------------------
  // The queue moves

  lemma {:induction false} SmallestExists(st: State, ids: set<Id>) returns (id: Id)
    requires ids != {} && forall i <- ids :: i in st.pending
    ensures id in ids && forall i <- ids :: st.pending[id].createdAt <= st.pending[i].createdAt
  {
    var first :| first in ids;
    var rest := ids - {first};
    assert forall i <- ids :: i == first || i in rest;
    id := first;
    if rest != {} {
      var other := SmallestExists(st, rest);
      if st.pending[other].createdAt < st.pending[first].createdAt { id := other; }
    }
  }

  /** Whenever the slot is free and somebody waits for it, a release is enabled, and it is the
      longest waiting session that it takes. */
  lemma FreeSlotIsReleased(st: State, agent: Id, waiting: Id)
    requires waiting in st.pending && st.pending[waiting].key == WriterKey(agent) && !SlotHeld(st, agent, None)
    ensures exists id :: Enabled(st, ClaimWriter(agent, id))
    ensures forall id :: Enabled(st, ClaimWriter(agent, id)) ==> st.pending[id].createdAt <= st.pending[waiting].createdAt
  {
    var queue := set i | i in st.pending && st.pending[i].key == WriterKey(agent);
    assert waiting in queue;
    var id := SmallestExists(st, queue);
    assert Enabled(st, ClaimWriter(agent, id));
  }

  /** A row is as it was, or has been parked since. */
  ghost predicate Aged(before: State, after: State) {
    && before.clock <= after.clock
    && forall id <- after.pending ::
         && after.pending[id].createdAt < after.clock
         && ((id in before.pending && after.pending[id] == before.pending[id]) || before.clock <= after.pending[id].createdAt)
  }

  lemma StepAges(start: State, st: State, step: Step)
    requires Enabled(st, step) && Aged(start, st)
    ensures Aged(start, Apply(st, step))
  {
    hide SlotHeld;
  }

  lemma {:induction false} RunAges(st: State, steps: seq<Step>)
    requires Runs(st, steps) && forall id <- st.pending :: st.pending[id].createdAt < st.clock
    ensures Aged(st, After(st, steps))
    decreases |steps|
  {
    hide Apply, Enabled;
    if steps != [] {
      RunAges(st, steps[..|steps|-1]);
      StepAges(st, After(st, steps[..|steps|-1]), steps[|steps|-1]);
    }
  }

  /** The queue is served in the order of parking: while a session waits that was parked for the slot
      before another was, the other is not released. */
  lemma ServedInOrder(before: seq<Step>, steps: seq<Step>, agent: Id, first: Id, second: Id)
    requires Runs(INITIAL, before) && Runs(After(INITIAL, before), steps)
    requires var then_, now := After(INITIAL, before), After(After(INITIAL, before), steps);
      && first in then_.pending && first in now.pending && now.pending[first] == then_.pending[first]
      && now.pending[first].key == WriterKey(agent)
      && second in now.pending && !(second in then_.pending && now.pending[second] == then_.pending[second])
    ensures !Enabled(After(After(INITIAL, before), steps), ClaimWriter(agent, second))
  {
    hide Apply, SlotHeld;
    RunAges(INITIAL, before);
    RunAges(After(INITIAL, before), steps);
  }

  // ---------------------------------------------------------------------------------------
  // The assumption is needed

  /** x and y write for one agent; `rows` is what is parked. */
  function TwoWriters(x: Session, y: Session, granted: set<Token>, started: seq<Token>): State {
    State(map["x" := x, "y" := y], map["y" := Row(WriterKey("a"), 0, 0)], 1, {}, granted, started)
  }

  lemma FirstWriterStarts() returns (steps: seq<Step>)
    ensures Runs(INITIAL, steps)
    ensures After(INITIAL, steps)
         == State(map["x" := Session("a", true, Queued, 0)], map[], 0, {}, {Token("x", 0)}, [Token("x", 0)])
  {
    var t := Token("x", 0);
    var x := Session("a", true, Queued, 0);
    steps := [];
    Extend(INITIAL, steps, Create("x", "a", true));
    steps := steps + [Create("x", "a", true)];
    assert After(INITIAL, steps) == State(map["x" := x], map[], 0, {Gate(t)}, {}, []);
    Extend(INITIAL, steps, RunGate(t));
    steps := steps + [RunGate(t)];
    assert After(INITIAL, steps) == State(map["x" := x], map[], 0, {Model(t)}, {t}, []);
    Extend(INITIAL, steps, RunModel(t, Go));
    steps := steps + [RunModel(t, Go)];
  }

  lemma SecondWriterArrives() returns (steps: seq<Step>)
    ensures Runs(INITIAL, steps)
    ensures var x := Session("a", true, Queued, 0);
      After(INITIAL, steps) == State(map["x" := x, "y" := x], map[], 0, {Gate(Token("y", 0))}, {Token("x", 0)}, [Token("x", 0)])
  {
    steps := FirstWriterStarts();
    Extend(INITIAL, steps, Create("y", "a", true));
    steps := steps + [Create("y", "a", true)];
  }

  lemma SecondWriterParksInterrupted() returns (steps: seq<Step>)
    ensures Runs(INITIAL, steps)
    ensures After(INITIAL, steps) == TwoWriters(Session("a", true, Queued, 0), Session("a", true, Idle, 0),
                                                {Token("x", 0)}, [Token("x", 0)])
  {
    var x0, t, x := Token("x", 0), Token("y", 0), Session("a", true, Queued, 0);
    steps := SecondWriterArrives();
    Extend(INITIAL, steps, Interrupt("y"));
    steps := steps + [Interrupt("y")];
    var interrupted := State(map["x" := x, "y" := x.(status := Idle)], map[], 0, {Gate(t)}, {x0}, [x0]);
    assert After(INITIAL, steps) == interrupted;
    assert "x" in interrupted.sessions && SlotHeld(interrupted, "a", Some("y"));
    Extend(INITIAL, steps, RunGate(t));
    steps := steps + [RunGate(t)];
  }

  lemma SecondWriterParks() returns (steps: seq<Step>)
    ensures Runs(INITIAL, steps)
    ensures After(INITIAL, steps) == TwoWriters(Session("a", true, Queued, 0), Session("a", true, Queued, 0),
                                                {Token("x", 0)}, [Token("x", 0)])
  {
    steps := SecondWriterArrives();
    var both := After(INITIAL, steps);
    assert "x" in both.sessions && SlotHeld(both, "a", Some("y"));
    Extend(INITIAL, steps, RunGate(Token("y", 0)));
    steps := steps + [RunGate(Token("y", 0))];
  }

  /** The three steps of an unhindered turn, one state after the other. */
  lemma TurnSteps(st: State, id: Id)
    requires st.calls == {} && id in st.sessions && Enabled(st, Message(id))
    requires !SlotHeld(st, st.sessions[id].agent, Some(id))
    ensures var s := st.sessions[id].(status := Queued, turns := st.sessions[id].turns + 1);
      var t := Token(id, s.turns);
      var asked := Apply(st, Message(id));
      && Enabled(asked, RunGate(t))
      && var granted := Apply(asked, RunGate(t));
         && Enabled(granted, RunModel(t, Go))
         && Apply(granted, RunModel(t, Go)) == st.(sessions := st.sessions[id := s], granted := st.granted + {t},
                                                   started := st.started + [t])
  {
    var s := st.sessions[id].(status := Queued, turns := st.sessions[id].turns + 1);
    var t := Token(id, s.turns);
    var asked := Apply(st, Message(id));
    assert asked == st.(sessions := st.sessions[id := s], calls := {Gate(t)});
    SlotStaysFree(st, asked, id);
    hide SlotHeld;
    var granted := Apply(asked, RunGate(t));
    assert granted == asked.(calls := {Model(t)}, granted := st.granted + {t});
  }

  lemma SlotStaysFree(st: State, asked: State, id: Id)
    requires id in st.sessions && !SlotHeld(st, st.sessions[id].agent, Some(id))
    requires asked.pending == st.pending && asked.sessions.Keys == st.sessions.Keys
    requires forall other <- st.sessions :: other != id ==> asked.sessions[other] == st.sessions[other]
    ensures !SlotHeld(asked, st.sessions[id].agent, Some(id))
  {
  }

  /** A new turn of a session gets past both gates when nobody counts as holding the slot. */
  lemma TurnStarts(steps: seq<Step>, id: Id) returns (longer: seq<Step>)
    requires Runs(INITIAL, steps) && After(INITIAL, steps).calls == {}
    requires Enabled(After(INITIAL, steps), Message(id))
    requires !SlotHeld(After(INITIAL, steps), After(INITIAL, steps).sessions[id].agent, Some(id))
    ensures Runs(INITIAL, longer) && steps <= longer
    ensures var st := After(INITIAL, steps);
      var s := st.sessions[id].(status := Queued, turns := st.sessions[id].turns + 1);
      After(INITIAL, longer) == st.(sessions := st.sessions[id := s], granted := st.granted + {Token(id, s.turns)},
                                    started := st.started + [Token(id, s.turns)])
  {
    hide Apply, SlotHeld;
    var st := After(INITIAL, steps);
    var t := Token(id, st.sessions[id].turns + 1);
    TurnSteps(st, id);
    Extend(INITIAL, steps, Message(id));
    longer := steps + [Message(id)];
    Extend(INITIAL, longer, RunGate(t));
    longer := longer + [RunGate(t)];
    Extend(INITIAL, longer, RunModel(t, Go));
    longer := longer + [RunModel(t, Go)];
  }

  /** x ends its turn, y takes one with its queue row left behind, and then x takes one beside it. */
  lemma BothTakeTurns(steps: seq<Step>) returns (longer: seq<Step>)
    requires Runs(INITIAL, steps)
    requires After(INITIAL, steps) == TwoWriters(Session("a", true, Queued, 0), Session("a", true, Idle, 0),
                                                 {Token("x", 0)}, [Token("x", 0)])
    ensures Runs(INITIAL, longer) && steps <= longer && Collide(After(INITIAL, longer), "x", "y")
  {
    hide Apply, Runs;
    Extend(INITIAL, steps, Post(Token("x", 0), Idle));
    longer := steps + [Post(Token("x", 0), Idle)];
    XEnds();
    longer := TurnStarts(longer, "y");
    longer := TurnStarts(longer, "x");
  }

  /** Interrupting a session before its writer gate has run leaves a queue row on an idle session;
      its next turn then takes the slot with the row still there, and a third gate, which does not
      count queued sessions, lets a second writer start beside it. */
  lemma InterruptBeforeGateBreaksExclusion() returns (steps: seq<Step>)
    ensures Runs(INITIAL, steps) && Collide(After(INITIAL, steps), "x", "y")
  {
    steps := SecondWriterParksInterrupted();
    steps := BothTakeTurns(steps);
  }

  /** The public API's interrupt, which leaves the row of a parked session, does the same with nothing
      in progress at all. */
  lemma ApiInterruptBreaksExclusion() returns (steps: seq<Step>, k: nat)
    ensures Runs(INITIAL, steps) && Collide(After(INITIAL, steps), "x", "y")
    ensures k < |steps| && steps[k] == Interrupt("y")
    ensures var before := steps[..k];
      Runs(INITIAL, before) && After(INITIAL, before).calls == {} && WriterParked(After(INITIAL, before), "y")
  {
    hide Runs, Apply, Collide;
    var parked := SecondWriterParks();
    k := |parked|;
    Extend(INITIAL, parked, Interrupt("y"));
    YIsInterrupted();
    steps := BothTakeTurns(parked + [Interrupt("y")]);
    assert steps[..k] == (parked + [Interrupt("y")])[..k] == parked;
  }

  lemma YIsInterrupted()
    ensures var st := TwoWriters(Session("a", true, Queued, 0), Session("a", true, Queued, 0), {Token("x", 0)}, [Token("x", 0)]);
      Enabled(st, Interrupt("y")) && Apply(st, Interrupt("y"))
        == TwoWriters(Session("a", true, Queued, 0), Session("a", true, Idle, 0), {Token("x", 0)}, [Token("x", 0)])
  {
  }

  lemma XEnds()
    ensures var st := TwoWriters(Session("a", true, Queued, 0), Session("a", true, Idle, 0), {Token("x", 0)}, [Token("x", 0)]);
      Enabled(st, Post(Token("x", 0), Idle)) && Apply(st, Post(Token("x", 0), Idle))
        == TwoWriters(Session("a", true, Idle, 0), Session("a", true, Idle, 0), {Token("x", 0)}, [Token("x", 0)])
  {
  }
}
