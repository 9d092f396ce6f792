/** The agentic loop over a session's transcript: session-runner/devproof_runner/query.py, with the
    compaction rule of compact.py and the transcript file of session.py. */
module AgentLoop {
  import opened Selections
  import opened Wrappers
  import opened Transcript

  /** `chars` is the serialized length of a message (est_chars), `staticChars` that of the system
      prompt and the tool list, `summaryPrompt` the wording of the request for a summary. */
  datatype Settings = Settings(
    window: nat, staticChars: nat, chars: Message -> nat, tools: bool, maxTurns: nat, summaryPrompt: string)

  function CharsOf(s: Settings, ms: seq<Message>): nat
    decreases |ms|
  {
    if ms == [] then 0 else CharsOf(s, ms[..|ms|-1]) + s.chars(ms[|ms|-1])
  }

  function Estimate(s: Settings, ms: seq<Message>): nat { (s.staticChars + CharsOf(s, ms)) / 4 }

  /** More than 80% of the window, and at least three messages. */
  predicate ShouldCompact(window: nat, estimate: nat, count: nat) {
    count >= 3 && 5 * estimate > 4 * window
  }

  predicate Full(s: Settings, ms: seq<Message>) { ShouldCompact(s.window, Estimate(s, ms), |ms|) }

  // ---------------------------------------------------------------------------------------
  // Degraded compaction: drop the older half until the history fits

  function Dropped(ms: seq<Message>, n: nat): seq<Message>
    decreases n
  {
    if n == 0 then ms else Dropped(DroppedOldest(ms), n - 1)
  }

  /** What the loop can no longer shed once it is down to three messages. */
  function Residue(ms: seq<Message>): seq<Message>
    requires |ms| >= 2
  {
    [NOTE] + ms[|ms|-2..]
  }

  /** Checkable before the loop starts. */
  predicate CanFit(s: Settings, ms: seq<Message>) {
    !Full(s, ms) || !PlainUser(ms[|ms|-2]) || !Full(s, Residue(ms))
  }

  lemma {:induction false} CharsOfConcat(s: Settings, a: seq<Message>, b: seq<Message>)
    ensures CharsOf(s, a + b) == CharsOf(s, a) + CharsOf(s, b)
  {
    if b == [] {
      assert a + b == a;
    } else {
      CharsOfConcat(s, a, b[..|b|-1]);
      assert (a + b)[..|a+b|-1] == a + b[..|b|-1];
    }
  }

  /** A shorter suffix behind the note is no fuller. */
  lemma SuffixIsNoFuller(s: Settings, ms: seq<Message>, j: nat, k: nat)
    requires j <= k <= |ms|
    ensures Full(s, [NOTE] + ms[k..]) ==> Full(s, [NOTE] + ms[j..])
  {
    assert ms[j..] == ms[j..k] + ms[k..];
    CharsOfConcat(s, ms[j..k], ms[k..]);
    CharsOfConcat(s, [NOTE], ms[j..]);
    CharsOfConcat(s, [NOTE], ms[k..]);
  }

  /** One drop keeps the last two messages when the first of them is a plain user message; the
      residue is then the same, and at three messages it is all there is. */
  lemma DropKeepsResidue(ms: seq<Message>)
    requires |ms| >= 3 && PlainUser(ms[|ms|-2])
    ensures |DroppedOldest(ms)| >= 3 && PlainUser(DroppedOldest(ms)[|DroppedOldest(ms)|-2])
    ensures Residue(DroppedOldest(ms)) == Residue(ms)
    ensures |ms| == 3 ==> DroppedOldest(ms) == Residue(ms)
  {
    var k := DropOldestShape(ms);
    var kept := DroppedOldest(ms);
    assert kept[|kept|-2..] == ms[|ms|-2..];
  }

  lemma DropKeepsUnplain(ms: seq<Message>)
    requires |ms| >= 3 && !PlainUser(ms[|ms|-2])
    ensures |DroppedOldest(ms)| < |ms|
    ensures |DroppedOldest(ms)| >= 3 ==> !PlainUser(DroppedOldest(ms)[|DroppedOldest(ms)|-2])
  {
    var k := DropOldestShape(ms);
  }

  lemma DropKeepsCanFit(s: Settings, ms: seq<Message>)
    requires Full(s, ms) && CanFit(s, ms)
    ensures CanFit(s, DroppedOldest(ms))
    ensures |ms| == 3 ==> !Full(s, DroppedOldest(ms))
    ensures |ms| > 3 ==> |DroppedOldest(ms)| < |ms|
  {
    var k := DropOldestShape(ms);
    if PlainUser(ms[|ms|-2]) {
      DropKeepsResidue(ms);
    } else {
      DropKeepsUnplain(ms);
    }
  }

  /** The history the loop ends with. */
  function Shed(s: Settings, ms: seq<Message>): seq<Message>
    requires CanFit(s, ms)
    decreases if Full(s, ms) then |ms| + 1 else 0
  {
    if !Full(s, ms) then ms
    else
      DropKeepsCanFit(s, ms);
      Shed(s, DroppedOldest(ms))
  }

  /** A plain user message in second-to-last place is never shed, so if the note and the last two
      messages are too much, no number of drops helps. */
  lemma {:induction false} NeverFits(s: Settings, ms: seq<Message>, n: nat)
    requires Full(s, ms) && PlainUser(ms[|ms|-2]) && Full(s, Residue(ms))
    ensures Full(s, Dropped(ms, n))
    decreases n
  {
    if n > 0 {
      DropKeepsResidue(ms);
      var k := DropOldestShape(ms);
      SuffixIsNoFuller(s, ms, k, |ms| - 2);
      NeverFits(s, DroppedOldest(ms), n - 1);
    }
  }

  lemma {:induction false} ShedIsDropped(s: Settings, ms: seq<Message>) returns (n: nat)
    requires CanFit(s, ms)
    ensures Shed(s, ms) == Dropped(ms, n) && !Full(s, Dropped(ms, n))
    ensures forall i :: 0 <= i < n ==> Full(s, Dropped(ms, i))
    decreases if Full(s, ms) then |ms| + 1 else 0
  {
    if !Full(s, ms) {
      n := 0;
    } else {
      DropKeepsCanFit(s, ms);
      var k := ShedIsDropped(s, DroppedOldest(ms));
      n := k + 1;
      assert forall i :: 0 < i < n ==> Dropped(ms, i) == Dropped(DroppedOldest(ms), i - 1);
    }
  }

  /** The degraded loop ends exactly when the history fits already, or its second-to-last message is
      not a plain user message, or the note and the last two messages fit. */
  lemma DegradedTerminatesIff(s: Settings, ms: seq<Message>)
    ensures CanFit(s, ms) <==> exists n: nat :: !Full(s, Dropped(ms, n))
  {
    if CanFit(s, ms) {
      var n := ShedIsDropped(s, ms);
    } else {
      forall n: nat ensures Full(s, Dropped(ms, n)) { NeverFits(s, ms, n); }
    }
  }

  /** The condition is needed: this history is left unchanged by drop_oldest for ever. */
  lemma PlainPairIsFixedPoint(plain: Message, last: Message, n: nat)
    requires PlainUser(plain)
    ensures Dropped([NOTE, plain, last], n) == [NOTE, plain, last]
    decreases n
  {
    var ms := [NOTE, plain, last];
    DropKeepsResidue(ms);
    assert Residue(ms) == ms;
    if n > 0 { PlainPairIsFixedPoint(plain, last, n - 1); }
  }

  method DegradedCompact(s: Settings, ms: seq<Message>) returns (kept: seq<Message>)
    requires CanFit(s, ms)
    ensures kept == Shed(s, ms) && !Full(s, kept)
    ensures ValidTranscript(ms) ==> ValidTranscript(kept)
  {
    kept := ms;
    while |kept| > 2 && ShouldCompact(s.window, Estimate(s, kept), |kept|)
      invariant CanFit(s, kept) && Shed(s, kept) == Shed(s, ms)
      invariant ValidTranscript(ms) ==> ValidTranscript(kept)
      decreases if Full(s, kept) then |kept| + 1 else 0
    {
      DropKeepsCanFit(s, kept);
      if ValidTranscript(kept) { DropOldestKeepsValid(kept); }
      kept := DropOldest(kept);
    }
  }

  lemma {:induction false} ShedKeepsValid(s: Settings, ms: seq<Message>)
    requires CanFit(s, ms) && ValidTranscript(ms)
    ensures ValidTranscript(Shed(s, ms)) && (ms != [] ==> Shed(s, ms) != [])
    decreases if Full(s, ms) then |ms| + 1 else 0
  {
    if Full(s, ms) {
      DropKeepsCanFit(s, ms);
      DropOldestKeepsValid(ms);
      ShedKeepsValid(s, DroppedOldest(ms));
    }
  }

  // ---------------------------------------------------------------------------------------
  // The query loop

  /** What the outside world answers in one round: the summary call (its text, stripped; None: it
      failed), the model call (None: it failed), the tools in order, and the ids minted for tool uses without one. */
  datatype Round = Round(summary: Option<string>, reply: Option<seq<ReplyBlock>>, outputs: nat -> Output, mint: nat -> string)

  /** What the loop does to the outside: a request, or a replacement of the transcript file. */
  datatype Event = Asked(messages: seq<Message>, tools: bool) | Saved(messages: seq<Message>)

  function Minted(content: seq<ReplyBlock>, mint: nat -> string): (out: seq<ReplyBlock>)
    ensures |out| == |content|
  {
    seq(|content|, i requires 0 <= i < |content| =>
      if content[i].ToolUseBlock? && content[i].id == "" then content[i].(id := mint(i)) else content[i])
  }

  function Outputs(r: Round, n: nat): (out: seq<Output>)
    ensures |out| == n
  {
    seq(n, i requires 0 <= i < n => r.outputs(i))
  }

  function Summary(text: string): string { if text == "" then "(summary unavailable)" else text }

  /** The history a full history is replaced by; None when the degraded loop never ends. */
  function Compacted(s: Settings, ms: seq<Message>, summary: Option<string>): Option<seq<Message>> {
    match summary
    case Some(text) => Some(CompactedHistory(Summary(text)))
    case None => if CanFit(s, ms) then Some(Shed(s, ms)) else None
  }

  /** The history the model is asked with, after compaction where it is due. */
  function Ready(s: Settings, ms: seq<Message>, r: Round): Option<seq<Message>> {
    if Full(s, ms) then Compacted(s, ms, r.summary) else Some(ms)
  }

  /** The requests and saves made before the model is asked. */
  function CompactionEvents(s: Settings, ms: seq<Message>, r: Round): seq<Event> {
    if !Full(s, ms) then []
    else
      [Asked(Textified(ms) + [UserText(s.summaryPrompt)], false)]
      + match Compacted(s, ms, r.summary) case None => [] case Some(kept) => [Saved(kept)]
  }

  function Request(s: Settings, ms: seq<Message>): Event {
    Asked(if s.tools then ms else Textified(ms), s.tools)
  }

  /** The history after the model's reply and the results of its tool calls. */
  function Answered(s: Settings, ms: seq<Message>, r: Round): seq<Message>
    requires r.reply.Some?
  {
    var content := Minted(r.reply.value, r.mint);
    ms + Turn(content, Outputs(r, |ToolUses(content)|), s.window)
  }

  predicate WantsTools(r: Round)
    requires r.reply.Some?
  {
    ToolUses(Minted(r.reply.value, r.mint)) != []
  }

  function ExchangeEvents(s: Settings, ready: seq<Message>, r: Round): seq<Event> {
    [Request(s, ready)] + if r.reply.None? then [] else [Saved(Answered(s, ready, r))]
  }

  function RoundEvents(s: Settings, ms: seq<Message>, r: Round): seq<Event> {
    CompactionEvents(s, ms, r)
    + match Ready(s, ms, r) case None => [] case Some(ready) => ExchangeEvents(s, ready, r)
  }

  /** The model answered and wants tools, so there is another round. */
  predicate Continues(s: Settings, ms: seq<Message>, r: Round) {
    Ready(s, ms, r).Some? && r.reply.Some? && WantsTools(r)
  }

  function Next(s: Settings, ms: seq<Message>, r: Round): seq<Message> {
    if Ready(s, ms, r).Some? && r.reply.Some? then Answered(s, Ready(s, ms, r).value, r) else ms
  }

  /** Everything the loop does from history `ms` on; a script that runs out is a runner that died. */
  function LoopEvents(s: Settings, ms: seq<Message>, rounds: seq<Round>, turns: nat): seq<Event>
    decreases |rounds|
  {
    hide *;
    if rounds == [] || turns >= s.maxTurns then []
    else
      RoundEvents(s, ms, rounds[0])
      + if Continues(s, ms, rounds[0]) then LoopEvents(s, Next(s, ms, rounds[0]), rounds[1..], turns + 1) else []
  }

  function QueryEvents(s: Settings, loaded: seq<Message>, prompt: string, rounds: seq<Round>): seq<Event> {
    var ms := loaded + [UserText(prompt)];
    [Saved(ms)] + LoopEvents(s, ms, rounds, 0)
  }

  // ---------------------------------------------------------------------------------------
  // What a round asks and saves

  /** By estimate the history takes at most 80% of the window, or it is too short to compact. */
  predicate Fits(s: Settings, ms: seq<Message>) {
    |ms| <= 2 || 100 * ((s.staticChars + CharsOf(s, ms)) / 4) <= 80 * s.window
  }

  lemma {:induction false} ShedFits(s: Settings, ms: seq<Message>)
    requires CanFit(s, ms)
    ensures Fits(s, Shed(s, ms))
    decreases if Full(s, ms) then |ms| + 1 else 0
  {
    hide CharsOf;
    if Full(s, ms) {
      DropKeepsCanFit(s, ms);
      ShedFits(s, DroppedOldest(ms));
    }
  }

  /** A history that fits is asked with as it is; one that does not is compacted first, and what the
      model is then asked with fits. */
  lemma RequestFits(s: Settings, ms: seq<Message>, r: Round)
    ensures Fits(s, ms) ==> Ready(s, ms, r) == Some(ms) && CompactionEvents(s, ms, r) == []
    ensures !Fits(s, ms) ==> CompactionEvents(s, ms, r) != []
    ensures Ready(s, ms, r).Some? ==> Fits(s, Ready(s, ms, r).value)
  {
    hide CharsOf, Shed, CanFit, CompactedHistory, Textified, UserText;
    if Full(s, ms) {
      if r.summary.Some? {
        OneMessage(Summary(r.summary.value));
      } else if CanFit(s, ms) {
        ShedFits(s, ms);
      }
    }
  }

  lemma OneMessage(summary: string)
    ensures |CompactedHistory(summary)| == 1
  {
    hide CompactedText;
  }

  /** A summary takes the place of the whole history; an empty one is said to be missing. */
  lemma SummaryReplaces(s: Settings, ms: seq<Message>, text: string) returns (before: string, after: string)
    ensures Compacted(s, ms, Some(text)) == Some([UserText(before + (if text == "" then "(summary unavailable)" else text) + after)])
  {
    hide CompactedHistory, UserText;
    before, after := SummaryIsKept(Summary(text));
  }

  /** Only a tool use without an id gets one; everything else is as the model sent it. */
  lemma MintedKeeps(content: seq<ReplyBlock>, mint: nat -> string, i: nat)
    requires i < |content|
    ensures content[i].ToolUseBlock? && content[i].id == "" ==>
              Minted(content, mint)[i] == ToolUseBlock(mint(i), content[i].name, content[i].input)
    ensures !(content[i].ToolUseBlock? && content[i].id == "") ==> Minted(content, mint)[i] == content[i]
  {
  }

  /** A round that is answered adds the reply to the history, block for block, and with tool calls a
      message that gives each call its own output. */
  lemma AnsweredSays(s: Settings, ms: seq<Message>, r: Round) returns (at: seq<nat>, calls: seq<nat>)
    requires r.reply.Some?
    ensures var content, after := Minted(r.reply.value, r.mint), Answered(s, ms, r);
      && |after| == |ms| + (if calls == [] then 1 else 2) && after[..|ms|] == ms
      && IsReply(after[|ms|], content, at)
      && Picks(calls, |content|) && (forall p: nat | p < |content| :: p in calls <==> content[p].ToolUseBlock?)
      && (calls != [] ==>
            && after[|ms|+1].role == User && |after[|ms|+1].content| == |calls|
            && forall i: nat | i < |calls| ::
                 IsResult(after[|ms|+1].content[i], content[calls[i]], r.outputs(i), s.window))
  {
    hide KeptBlocks, Says, CapResult, Minted, SerializeAssistant, SerializeResults, ToolUses, Carries;
    var content := Minted(r.reply.value, r.mint);
    var uses := ToolUses(content);
    at := ReplySays(content);
    calls := ToolUsesAre(content);
    ToolUsesAreUses(content);
    ResultsSay(uses, Outputs(r, |uses|), s.window);
  }

  // ---------------------------------------------------------------------------------------
  // Every save is paired, every request without tools is tool-free

  ghost predicate Sound(e: Event) {
    match e
    case Saved(ms) => ValidTranscript(ms) && ms != []
    case Asked(ms, tools) => if tools then ValidTranscript(ms) else NoToolBlocks(ms)
  }

  ghost predicate AllSound(events: seq<Event>) { forall e <- events :: Sound(e) }

  lemma CompactedKeepsValid(s: Settings, ms: seq<Message>, summary: Option<string>)
    requires ValidTranscript(ms) && ms != []
    ensures Compacted(s, ms, summary).Some? ==>
              ValidTranscript(Compacted(s, ms, summary).value) && Compacted(s, ms, summary).value != []
  {
    hide CanFit, Shed, ValidTranscript, CompactedText, Summary;
    if summary.Some? {
      CompactedIsValid(Summary(summary.value));
    } else if CanFit(s, ms) {
      ShedKeepsValid(s, ms);
    }
  }

  lemma ToolFreeWithPrompt(ms: seq<Message>, text: string)
    requires NoToolBlocks(ms)
    ensures NoToolBlocks(ms + [UserText(text)])
  {
  }

  lemma ReadyKeepsValid(s: Settings, ms: seq<Message>, r: Round)
    requires ValidTranscript(ms) && ms != []
    ensures Ready(s, ms, r).Some? ==> ValidTranscript(Ready(s, ms, r).value) && Ready(s, ms, r).value != []
  {
    hide Full, Compacted, ValidTranscript;
    CompactedKeepsValid(s, ms, r.summary);
  }

  lemma CompactionIsSound(s: Settings, ms: seq<Message>, r: Round)
    requires ValidTranscript(ms) && ms != []
    ensures AllSound(CompactionEvents(s, ms, r))
  {
    hide Full, Compacted, ValidTranscript, NoToolBlocks, UserText, Textified;
    CompactedKeepsValid(s, ms, r.summary);
    ToolFreeWithPrompt(Textified(ms), s.summaryPrompt);
  }

  lemma AnsweredIsValid(s: Settings, ms: seq<Message>, r: Round)
    requires ValidTranscript(ms) && ms != [] && r.reply.Some?
    ensures ValidTranscript(Answered(s, ms, r)) && Answered(s, ms, r) != []
  {
    var content := Minted(r.reply.value, r.mint);
    AppendTurn(ms, content, Outputs(r, |ToolUses(content)|), s.window);
  }

  lemma RoundIsSound(s: Settings, ms: seq<Message>, r: Round)
    requires ValidTranscript(ms) && ms != []
    ensures AllSound(RoundEvents(s, ms, r))
    ensures Ready(s, ms, r).Some? && r.reply.Some? ==> ValidTranscript(Next(s, ms, r)) && Next(s, ms, r) != []
  {
    hide Full, Ready, CompactionEvents, Answered, ValidTranscript, NoToolBlocks, Textified;
    CompactionIsSound(s, ms, r);
    ReadyKeepsValid(s, ms, r);
    if Ready(s, ms, r).Some? && r.reply.Some? {
      AnsweredIsValid(s, Ready(s, ms, r).value, r);
    }
  }

  lemma {:induction false} LoopIsSound(s: Settings, ms: seq<Message>, rounds: seq<Round>, turns: nat)
    requires ValidTranscript(ms) && ms != []
    ensures AllSound(LoopEvents(s, ms, rounds, turns))
    decreases |rounds|
  {
    hide RoundEvents, Next, Ready, WantsTools, ValidTranscript, Sound;
    if rounds != [] && turns < s.maxTurns {
      RoundIsSound(s, ms, rounds[0]);
      if Continues(s, ms, rounds[0]) {
        LoopIsSound(s, Next(s, ms, rounds[0]), rounds[1..], turns + 1);
      }
    }
  }

  /** Whatever the model and the tools answer, every transcript saved is paired and headed by a plain
      user message, every request with tools carries such a transcript, and every request without
      tools carries no tool block. */
  lemma QueryIsSound(s: Settings, loaded: seq<Message>, prompt: string, rounds: seq<Round>)
    requires ValidTranscript(loaded)
    ensures AllSound(QueryEvents(s, loaded, prompt, rounds))
  {
    hide LoopEvents, ValidTranscript;
    AppendPrompt(loaded, prompt);
    LoopIsSound(s, loaded + [UserText(prompt)], rounds, 0);
  }

  // ---------------------------------------------------------------------------------------
  // Crashes and resumes

  function FileAfter(file: Option<seq<Message>>, events: seq<Event>): Option<seq<Message>> {
    if events == [] then file
    else
      var last := events[|events|-1];
      if last.Saved? then Some(last.messages) else FileAfter(file, events[..|events|-1])
  }

  /** A missing or unreadable file starts an empty history. */
  function Loaded(file: Option<seq<Message>>, readable: bool): seq<Message> {
    if file.Some? && readable then file.value else []
  }

  /** One life of a runner on the session: it resumes, runs, and is gone after `cut` events (a later
      cut than there are events is a run to the end). */
  datatype Life = Life(settings: Settings, readable: bool, prompt: string, rounds: seq<Round>, cut: nat)

  function AfterLife(file: Option<seq<Message>>, life: Life): Option<seq<Message>> {
    var events := QueryEvents(life.settings, Loaded(file, life.readable), life.prompt, life.rounds);
    FileAfter(file, if life.cut < |events| then events[..life.cut] else events)
  }

  function AfterLives(file: Option<seq<Message>>, lives: seq<Life>): Option<seq<Message>> {
    hide AfterLife;
    if lives == [] then file else AfterLife(AfterLives(file, lives[..|lives|-1]), lives[|lives|-1])
  }

  ghost predicate ValidFile(file: Option<seq<Message>>) { file.Some? ==> ValidTranscript(file.value) }

  lemma {:induction false} FileAfterSound(file: Option<seq<Message>>, events: seq<Event>)
    requires ValidFile(file) && AllSound(events)
    ensures ValidFile(FileAfter(file, events))
  {
    if events != [] {
      assert Sound(events[|events|-1]);
      FileAfterSound(file, events[..|events|-1]);
    }
  }

  lemma LifeKeepsPaired(file: Option<seq<Message>>, life: Life)
    requires ValidFile(file)
    ensures ValidFile(AfterLife(file, life))
  {
    hide QueryEvents, FileAfter, Sound;
    var loaded := Loaded(file, life.readable);
    var events := QueryEvents(life.settings, loaded, life.prompt, life.rounds);
    QueryIsSound(life.settings, loaded, life.prompt, life.rounds);
    FileAfterSound(file, if life.cut < |events| then events[..life.cut] else events);
  }

  /** Over any number of lives, each cut off anywhere and each resuming from what the one before
      left, the transcript file stays paired. */
  lemma {:induction false} FileStaysPaired(lives: seq<Life>)
    ensures ValidFile(AfterLives(None, lives))
  {
    hide AfterLife, ValidTranscript;
    if lives != [] {
      var before, life := AfterLives(None, lives[..|lives|-1]), lives[|lives|-1];
      FileStaysPaired(lives[..|lives|-1]);
      LifeKeepsPaired(before, life);
    }
  }

  // ---------------------------------------------------------------------------------------
  // The loop itself

  /** How a round ends the query, if it does. */
  function RoundOutcome(s: Settings, ms: seq<Message>, r: Round): Option<Outcome> {
    if Ready(s, ms, r).None? then Some(Hung)
    else if r.reply.None? then Some(ErrorDuringExecution)
    else if WantsTools(r) then None
    else Some(Success)
  }

  /** The loop's events from round `turns` of the script on, one round at a time. */
  lemma LoopUnfolds(s: Settings, ms: seq<Message>, rounds: seq<Round>, turns: nat)
    requires turns <= |rounds|
    ensures LoopEvents(s, ms, rounds[turns..], turns) ==
            if turns == |rounds| || turns >= s.maxTurns then []
            else if Continues(s, ms, rounds[turns])
            then RoundEvents(s, ms, rounds[turns]) + LoopEvents(s, Next(s, ms, rounds[turns]), rounds[turns+1..], turns + 1)
            else RoundEvents(s, ms, rounds[turns])
  {
    hide RoundEvents, Continues, Next;
    if turns < |rounds| {
      assert rounds[turns..][1..] == rounds[turns+1..];
    }
  }

  lemma {:induction false} FileAfterConcat(file: Option<seq<Message>>, a: seq<Event>, b: seq<Event>)
    ensures FileAfter(file, a + b) == FileAfter(FileAfter(file, a), b)
  {
    if b == [] {
      assert a + b == a;
    } else {
      assert (a + b)[..|a+b|-1] == a + b[..|b|-1];
      FileAfterConcat(file, a, b[..|b|-1]);
    }
  }

  lemma FileAfterSave(file: Option<seq<Message>>, ms: seq<Message>)
    ensures FileAfter(file, [Saved(ms)]) == Some(ms)
  {
  }

  /** Hung: the degraded loop never ends.  Died: the script ran out. */
  datatype Outcome = Success | ErrorMaxTurns | ErrorDuringExecution | Hung | Died

  /** The outcome as the last event tells it, with the file's length and the number of replies: a final
      answer was saved; results, or just the prompt, were saved and nothing was asked any more; or a
      request was left unanswered, the one for the whole history or the one for a summary of it. */
  function Told(s: Settings, last: Event, file: seq<Message>, turns: nat): Outcome {
    match last
    case Saved(ms) =>
      if ms != [] && ms[|ms|-1].role == Assistant then Success
      else if turns >= s.maxTurns then ErrorMaxTurns
      else Died
    case Asked(ms, _) => if |ms| == |file| then ErrorDuringExecution else Hung
  }

  /** The rounds behind an outcome: `turns` replies, all but a final answer with tool calls, and then
      what broke the loop. */
  predicate Explains(s: Settings, rounds: seq<Round>, turns: nat, outcome: Outcome) {
    && turns <= |rounds|
    && (forall i :: 0 <= i < turns ==> rounds[i].reply.Some? && (WantsTools(rounds[i]) <==> i < turns - 1 || outcome != Success))
    && match outcome
       case Success => 0 < turns <= s.maxTurns
       case ErrorMaxTurns => turns == s.maxTurns
       case ErrorDuringExecution => turns < |rounds| && turns < s.maxTurns && rounds[turns].reply.None?
       case Hung => turns < |rounds| && turns < s.maxTurns && rounds[turns].summary.None?
       case Died => turns == |rounds| && turns < s.maxTurns
  }

  /** Saved last, by a round that goes on or before the first: the history ends with a user message. */
  predicate Open(last: Event, ms: seq<Message>) {
    last == Saved(ms) && ms != [] && ms[|ms|-1].role == User
  }

  lemma AnsweredEnds(s: Settings, ms: seq<Message>, r: Round)
    requires r.reply.Some?
    ensures var after := Answered(s, ms, r);
            after != [] && after[|after|-1].role == if WantsTools(r) then User else Assistant
  {
    hide KeptBlocks, CapResult;
  }

  lemma ExchangeTells(s: Settings, ready: seq<Message>, r: Round, turns: nat)
    ensures var events := ExchangeEvents(s, ready, r);
            var file, last := FileAfter(Some(ready), events), events[|events|-1];
            && (r.reply.None? ==> file == Some(ready) && Told(s, last, ready, turns) == ErrorDuringExecution)
            && (r.reply.Some? ==> file == Some(Answered(s, ready, r)) && last == Saved(Answered(s, ready, r)))
  {
    hide Answered;
    var events := ExchangeEvents(s, ready, r);
    assert events[..0] == [];
    assert events[0] == Request(s, ready);
    if r.reply.None? {
      assert FileAfter(Some(ready), events) == FileAfter(Some(ready), events[..0]);
    }
  }

  /** Before the request the file holds the history that it is made from, or the one that hangs. */
  lemma CompactionTells(s: Settings, ms: seq<Message>, r: Round, turns: nat)
    ensures var events, ready := CompactionEvents(s, ms, r), Ready(s, ms, r);
            && FileAfter(Some(ms), events) == Some(if ready.Some? then ready.value else ms)
            && (ready.None? ==> r.summary.None? && events != [] && Told(s, events[|events|-1], ms, turns) == Hung)
  {
    hide Full, CanFit, Shed, CompactedHistory, Summary, UserText;
    var events := CompactionEvents(s, ms, r);
    if Ready(s, ms, r).None? {
      assert events[..0] == [];
      assert FileAfter(Some(ms), events) == FileAfter(Some(ms), events[..0]);
    }
  }

  /** The end of a round tells how it ended. */
  lemma RoundTells(s: Settings, ms: seq<Message>, r: Round, turns: nat)
    ensures var events, outcome := RoundEvents(s, ms, r), RoundOutcome(s, ms, r);
            var file := FileAfter(Some(ms), events);
            && events != [] && file.Some?
            && (outcome.Some? ==> Told(s, events[|events|-1], file.value, turns) == outcome.value)
            && (outcome.None? ==> file == Some(Next(s, ms, r)) && Open(events[|events|-1], Next(s, ms, r)))
            && (outcome == Some(Hung) ==> r.summary.None?)
  {
    hide FileAfter, CompactionEvents, Ready, Answered, ExchangeEvents, WantsTools;
    CompactionTells(s, ms, r, turns);
    ExchangeIsNotEmpty(s, ms, r);
    if Ready(s, ms, r).Some? {
      var ready := Ready(s, ms, r).value;
      ExchangeIsNotEmpty(s, ready, r);
      ExchangeTells(s, ready, r, turns);
      FileAfterConcat(Some(ms), CompactionEvents(s, ms, r), ExchangeEvents(s, ready, r));
      if r.reply.Some? { AnsweredEnds(s, ready, r); }
    } else {
      assert CompactionEvents(s, ms, r) + [] == CompactionEvents(s, ms, r);
    }
  }

  lemma ExchangeIsNotEmpty(s: Settings, ready: seq<Message>, r: Round)
    ensures ExchangeEvents(s, ready, r) != []
  {
  }

  lemma TextIsPlain(text: string)
    ensures PlainUser(UserText(text))
  {
  }

  lemma RequestIsNoSave(s: Settings, ms: seq<Message>)
    ensures Request(s, ms).Asked?
  {
  }

  lemma FailedCallRound(s: Settings, ms: seq<Message>, down: Round)
    requires down.reply == None && |ms| <= 2
    ensures RoundEvents(s, ms, down) == [Request(s, ms)] && !Continues(s, ms, down)
  {
    hide Request, Estimate, Answered, WantsTools, Compacted, Textified, UserText;
  }

  lemma FailedCallEvents(s: Settings, ms: seq<Message>, down: Round)
    requires s.maxTurns >= 1 && down.reply == None && |ms| <= 2
    ensures LoopEvents(s, ms, [down], 0) == [Request(s, ms)]
  {
    hide Request, RoundEvents, Continues;
    FailedCallRound(s, ms, down);
    assert [down][0] == down;
  }

  /** A prompt whose model call fails stays in the file, so the next prompt finds it there. */
  lemma FailedCallKeepsPrompt(s: Settings, file: Option<seq<Message>>, prompt: string, down: Round)
    requires s.maxTurns >= 1 && down.reply == None && |Loaded(file, true)| <= 1
    ensures AfterLife(file, Life(s, true, prompt, [down], 2)) == Some(Loaded(file, true) + [UserText(prompt)])
  {
    hide Request, LoopEvents, UserText, Loaded;
    var ms := Loaded(file, true) + [UserText(prompt)];
    FailedCallEvents(s, ms, down);
    assert ([Saved(ms)] + [Request(s, ms)])[..1] == [Saved(ms)];
    FileAfterSave(file, ms);
    RequestIsNoSave(s, ms);
  }

  function TwoFailedPrompts(s: Settings, a: string, b: string, down: Round): seq<Life> {
    [Life(s, true, a, [down], 2), Life(s, true, b, [down], 2)]
  }

  /** The endless loop is reachable: two prompts whose model calls failed, then a third that makes
      the history too full while the summary call fails as well. */
  lemma FailedPromptsHang(s: Settings, a: string, b: string, c: string, down: Round, file: Option<seq<Message>>)
    requires s.maxTurns >= 1 && down.reply == None && down.summary == None
    requires Full(s, [UserText(a), UserText(b), UserText(c)]) && Full(s, [NOTE, UserText(b), UserText(c)])
    requires file == AfterLives(None, TwoFailedPrompts(s, a, b, down))
    ensures RoundOutcome(s, Loaded(file, true) + [UserText(c)], down) == Some(Hung)
  {
    hide AfterLife, Full, CharsOf, UserText;
    var lives := TwoFailedPrompts(s, a, b, down);
    FailedCallKeepsPrompt(s, None, a, down);
    assert [] + [UserText(a)] == [UserText(a)];
    FailedCallKeepsPrompt(s, Some([UserText(a)]), b, down);
    assert lives[..1] == [lives[0]] && lives[..1][..0] == [];
    assert AfterLives(None, lives[..1]) == Some([UserText(a)]);
    assert file == Some([UserText(a)] + [UserText(b)]);
    TextIsPlain(b);
    var ms := [UserText(a)] + [UserText(b)] + [UserText(c)];
    assert ms == [UserText(a), UserText(b), UserText(c)];
    assert Residue(ms) == [NOTE, UserText(b), UserText(c)];
  }

  /** A runner's hold on one session: the transcript file, the messages in memory and their length,
      counted as they are appended. */
  class AgentSession {
    const s: Settings
    var file: Option<seq<Message>>
    var messages: seq<Message>
    var msgChars: nat
    ghost var events: seq<Event>

    ghost predicate Valid()
      reads this
    {
      msgChars == CharsOf(s, messages)
    }

    constructor (s: Settings, file: Option<seq<Message>>)
      ensures Valid() && this.s == s && this.file == file && events == []
    {
      this.s, this.file := s, file;
      messages, msgChars, events := [], 0, [];
    }

    method LoadOrCreate(readable: bool)
      modifies this`messages, this`msgChars
      ensures Valid() && messages == Loaded(file, readable)
    {
      messages := if file.Some? && readable then file.value else [];
      msgChars := CharsOf(s, messages);
    }

    method Append(m: Message)
      requires Valid()
      modifies this`messages, this`msgChars
      ensures Valid() && messages == old(messages) + [m]
    {
      messages := messages + [m];
      msgChars := msgChars + s.chars(m);
    }

    /** The file is replaced as a whole. */
    method Save()
      modifies this`file, this`events
      ensures file == Some(messages)
      ensures events == old(events) + [Saved(messages)]
    {
      file := Some(messages);
      events := events + [Saved(messages)];
    }

    ghost method Ask(messages: seq<Message>, tools: bool)
      modifies this`events
      ensures events == old(events) + [Asked(messages, tools)]
    {
      events := events + [Asked(messages, tools)];
    }

    /** Replaces a full history; `ok` is false when the degraded loop would run for ever. */
    method Compact(r: Round) returns (ok: bool)
      requires Valid() && Full(s, messages)
      modifies this
      ensures Valid()
      ensures ok <==> Compacted(s, old(messages), r.summary).Some?
      ensures ok ==> messages == Compacted(s, old(messages), r.summary).value
      ensures events == old(events) + CompactionEvents(s, old(messages), r)
      ensures file == FileAfter(old(file), CompactionEvents(s, old(messages), r))
    {
      hide Full, Textified, UserText, CompactedHistory, Shed, CanFit, CharsOf, ValidTranscript, Summary;
      Ask(Textified(messages) + [UserText(s.summaryPrompt)], false);
      ok := true;
      match r.summary {
        case Some(text) =>
          messages := CompactedHistory(Summary(text));
        case None =>
          ok := CanFit(s, messages);
          if ok {
            messages := DegradedCompact(s, messages);
          }
      }
      if ok {
        msgChars := CharsOf(s, messages);
        Save();
      }
    }

    /** Appends the reply, and with tool calls their results, in one save. */
    method Answer(r: Round) returns (wantsTools: bool)
      requires Valid() && r.reply.Some?
      modifies this
      ensures Valid() && messages == Answered(s, old(messages), r) && wantsTools == WantsTools(r)
      ensures file == Some(messages) && events == old(events) + [Saved(messages)]
    {
      hide CharsOf, SerializeAssistant, SerializeResults, Minted;
      var content := Minted(r.reply.value, r.mint);
      var uses := ToolUses(content);
      ToolUsesAreUses(content);
      Append(SerializeAssistant(content));
      wantsTools := uses != [];
      if wantsTools {
        Append(SerializeResults(uses, Outputs(r, |uses|), s.window));
      }
      Save();
      assert messages == Answered(s, old(messages), r);
    }

    method MakeReady(r: Round) returns (ok: bool)
      requires Valid()
      modifies this
      ensures Valid()
      ensures ok <==> Ready(s, old(messages), r).Some?
      ensures ok ==> messages == Ready(s, old(messages), r).value
      ensures events == old(events) + CompactionEvents(s, old(messages), r)
      ensures file == FileAfter(old(file), CompactionEvents(s, old(messages), r))
    {
      hide Textified, UserText, CompactedHistory, Compacted, CharsOf;
      ok := true;
      if ShouldCompact(s.window, (s.staticChars + msgChars) / 4, |messages|) {
        ok := Compact(r);
      }
    }

    /** The request, and the reply with its tool results. */
    method Exchange(r: Round) returns (outcome: Option<Outcome>)
      requires Valid()
      modifies this
      ensures Valid()
      ensures events == old(events) + ExchangeEvents(s, old(messages), r)
      ensures file == FileAfter(old(file), ExchangeEvents(s, old(messages), r))
      ensures r.reply.None? <==> outcome == Some(ErrorDuringExecution)
      ensures r.reply.Some? ==> outcome == (if WantsTools(r) then None else Some(Success)) && messages == Answered(s, old(messages), r)
    {
      hide Textified, Answered, CharsOf, WantsTools;
      Ask(if s.tools then messages else Textified(messages), s.tools);
      if r.reply.None? {
        return Some(ErrorDuringExecution);
      }
      var wantsTools := Answer(r);
      outcome := if wantsTools then None else Some(Success);
    }

    /** One round: compaction where it is due, the request, the reply. */
    method RunRound(r: Round) returns (outcome: Option<Outcome>)
      requires Valid()
      modifies this
      ensures Valid()
      ensures events == old(events) + RoundEvents(s, old(messages), r)
      ensures file == FileAfter(old(file), RoundEvents(s, old(messages), r))
      ensures outcome == RoundOutcome(s, old(messages), r)
      ensures outcome.None? <==> Continues(s, old(messages), r)
      ensures outcome.None? ==> messages == Next(s, old(messages), r)
    {
      hide Ready, Answered, CharsOf, WantsTools, CompactionEvents, ExchangeEvents, FileAfter;
      var ok := MakeReady(r);
      if !ok {
        assert CompactionEvents(s, old(messages), r) + [] == CompactionEvents(s, old(messages), r);
        return Some(Hung);
      }
      FileAfterConcat(old(file), CompactionEvents(s, old(messages), r), ExchangeEvents(s, messages, r));
      outcome := Exchange(r);
    }

    /** The whole query.  Its outcome is the one its last event tells, and the one the rounds explain. */
    method Query(readable: bool, prompt: string, rounds: seq<Round>) returns (outcome: Outcome, turns: nat)
      modifies this
      ensures Valid()
      ensures events == old(events) + QueryEvents(s, Loaded(old(file), readable), prompt, rounds)
      ensures file == FileAfter(old(file), QueryEvents(s, Loaded(old(file), readable), prompt, rounds))
      ensures turns <= s.maxTurns && (outcome == ErrorMaxTurns ==> turns == s.maxTurns)
      ensures events != [] && file.Some? && outcome == Told(s, events[|events|-1], file.value, turns)
      ensures Explains(s, rounds, turns, outcome)
    {
      hide LoopEvents, RoundEvents, Ready, WantsTools, Continues, Next, CharsOf, UserText, FileAfter, Told, Open;
      LoadOrCreate(readable);
      Append(UserText(prompt));
      Save();
      ghost var loaded, done := Loaded(old(file), readable), [Saved(messages)];
      FileAfterSave(old(file), messages);
      PromptIsOpen(loaded, prompt);
      assert rounds[0..] == rounds;
      turns := 0;
      while turns < s.maxTurns
        invariant Valid() && turns <= |rounds| && turns <= s.maxTurns
        invariant events == old(events) + done && done != []
        invariant file == FileAfter(old(file), done) == Some(messages) && Open(done[|done|-1], messages)
        invariant done + LoopEvents(s, messages, rounds[turns..], turns) == QueryEvents(s, loaded, prompt, rounds)
        invariant forall i :: 0 <= i < turns ==> rounds[i].reply.Some? && WantsTools(rounds[i])
        decreases s.maxTurns - turns
      {
        LoopUnfolds(s, messages, rounds, turns);
        if turns == |rounds| {
          assert done + [] == done;
          OpenTells(s, done[|done|-1], messages, turns);
          outcome := Died;
          return;
        }
        var r := rounds[turns];
        ghost var more := RoundEvents(s, messages, r);
        FileAfterConcat(old(file), done, more);
        RoundTells(s, messages, r, turns);
        RoundTells(s, messages, r, turns + 1);
        RoundContinues(s, messages, r);
        var ended := RunRound(r);
        done := done + more;
        if ended.Some? {
          outcome := ended.value;
          if outcome == Success {
            turns := turns + 1;
          }
          return;
        }
        turns := turns + 1;
      }
      LoopUnfolds(s, messages, rounds, turns);
      assert done + [] == done;
      OpenTells(s, done[|done|-1], messages, turns);
      outcome := ErrorMaxTurns;
    }
  }

  lemma PromptIsOpen(loaded: seq<Message>, prompt: string)
    ensures Open(Saved(loaded + [UserText(prompt)]), loaded + [UserText(prompt)])
  {
  }

  lemma OpenTells(s: Settings, last: Event, ms: seq<Message>, turns: nat)
    requires Open(last, ms)
    ensures Told(s, last, ms, turns) == if turns >= s.maxTurns then ErrorMaxTurns else Died
  {
  }

  /** How a round's outcome shows in what the world answered. */
  lemma RoundContinues(s: Settings, ms: seq<Message>, r: Round)
    ensures var outcome := RoundOutcome(s, ms, r);
            && (outcome.None? ==> r.reply.Some? && WantsTools(r))
            && (outcome == Some(Success) ==> r.reply.Some? && !WantsTools(r))
            && (outcome == Some(ErrorDuringExecution) ==> r.reply.None?)
            && outcome != Some(Died) && outcome != Some(ErrorMaxTurns)
  {
  }
}
