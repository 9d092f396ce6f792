/** The agent loop's transcript: session-runner/devproof_runner/query.py (serializers, _textified)
    and compact.py.  JSON text is a string; a message's serialized length is a parameter. */
module Transcript {
  import opened Selections
  import opened Wrappers

  datatype Role = User | Assistant

  /** A tool result is a string, or structured blocks of which only the JSON text and whether an
      image is among them matter here. */
  datatype Content = Str(text: string) | Structured(json: string, hasImage: bool)

  datatype Block =
    | Text(text: string)
    | ToolUse(id: string, name: string, input: string)
    | ToolResult(id: string, content: Content, isError: bool)

  datatype Message = Message(role: Role, content: seq<Block>)

  /** The blocks of a model reply, with tool ids already minted. */
  datatype ReplyBlock =
    | TextBlock(text: string)
    | ThinkingBlock(thinking: string)
    | ToolUseBlock(id: string, name: string, input: string)

  datatype Output = Output(content: Content, isError: bool)

  function UserText(text: string): Message { Message(User, [Text(text)]) }

  // ---------------------------------------------------------------------------------------
  // Pairing

  function UseIds(content: seq<Block>): seq<string> {
    if content == [] then []
    else (if content[0].ToolUse? then [content[0].id] else []) + UseIds(content[1..])
  }

  function ResultIds(content: seq<Block>): seq<string> {
    if content == [] then []
    else (if content[0].ToolResult? then [content[0].id] else []) + ResultIds(content[1..])
  }

  function Uses(m: Message): seq<string> { UseIds(m.content) }
  function Results(m: Message): seq<string> { ResultIds(m.content) }

  /** Message `i` and its neighbours: tool uses are answered by the very next message, results
      answer the one before, with exactly the same ids. */
  predicate PairedAt(ms: seq<Message>, i: int)
    requires 0 <= i < |ms|
  {
    && (Uses(ms[i]) != [] ==>
          ms[i].role == Assistant && i + 1 < |ms| && ms[i+1].role == User && Results(ms[i+1]) == Uses(ms[i]))
    && (Results(ms[i]) != [] ==> i > 0 && Uses(ms[i-1]) == Results(ms[i]))
  }

  ghost predicate Paired(ms: seq<Message>) {
    forall i :: 0 <= i < |ms| ==> PairedAt(ms, i)
  }

  predicate PlainUser(m: Message) {
    m.role == User && forall b <- m.content :: !b.ToolResult?
  }

  /** What every saved transcript is: paired, and headed by a plain user message. */
  ghost predicate ValidTranscript(ms: seq<Message>) {
    Paired(ms) && (ms != [] ==> PlainUser(ms[0]))
  }

  predicate NoToolBlocks(ms: seq<Message>) {
    forall m <- ms, b <- m.content :: b.Text?
  }

  lemma {:induction false} PlainHasNoResults(content: seq<Block>)
    requires forall b <- content :: !b.ToolResult?
    ensures ResultIds(content) == []
  {
    if content != [] {
      assert content[0] in content;
      PlainHasNoResults(content[1..]);
    }
  }

  lemma {:induction false} TextHasNoUses(content: seq<Block>)
    requires forall b <- content :: b.Text?
    ensures UseIds(content) == [] && ResultIds(content) == []
  {
    if content != [] {
      assert content[0] in content;
      TextHasNoUses(content[1..]);
    }
  }

  // ---------------------------------------------------------------------------------------
  // Serializers

  function KeptBlocks(content: seq<ReplyBlock>): seq<Block> {
    if content == [] then []
    else
      (match content[0]
       case TextBlock(text) => if text == "" then [] else [Text(text)]
       case ThinkingBlock(_) => []
       case ToolUseBlock(id, name, input) => [ToolUse(id, name, input)])
      + KeptBlocks(content[1..])
  }

  /** Thinking and empty text are dropped; a reply that leaves nothing says so. */
  function SerializeAssistant(content: seq<ReplyBlock>): Message {
    var blocks := KeptBlocks(content);
    Message(Assistant, if blocks == [] then [Text("(no output)")] else blocks)
  }

  function ToolUses(content: seq<ReplyBlock>): seq<ReplyBlock> {
    if content == [] then []
    else (if content[0].ToolUseBlock? then [content[0]] else []) + ToolUses(content[1..])
  }

  function Decimal(n: nat): string {
    (if n < 10 then "" else Decimal(n / 10)) + [(n % 10) as char + '0']
  }

  function CapResult(c: Content, window: nat): Content {
    if c.Str? && |c.text| > window
    then Str(c.text[..window] + "\n... [tool result truncated at " + Decimal(window) + " chars]")
    else c
  }

  /** One result per tool use, in order. */
  function SerializeResults(uses: seq<ReplyBlock>, outputs: seq<Output>, window: nat): Message
    requires |uses| == |outputs| && forall u <- uses :: u.ToolUseBlock?
  {
    Message(User, seq(|uses|, i requires 0 <= i < |uses| =>
      ToolResult(uses[i].id, CapResult(outputs[i].content, window), outputs[i].isError)))
  }

  lemma {:induction false} ToolUsesAreUses(content: seq<ReplyBlock>)
    ensures forall u <- ToolUses(content) :: u.ToolUseBlock?
  {
    if content != [] { ToolUsesAreUses(content[1..]); }
  }

  lemma IdsOfPrepended(b: Block, rest: seq<Block>)
    ensures UseIds([b] + rest) == (if b.ToolUse? then [b.id] else []) + UseIds(rest)
    ensures ResultIds([b] + rest) == (if b.ToolResult? then [b.id] else []) + ResultIds(rest)
  {
    assert ([b] + rest)[1..] == rest;
  }

  lemma {:induction false} KeptBlocksIds(content: seq<ReplyBlock>)
    ensures UseIds(KeptBlocks(content)) == Ids(ToolUses(content))
    ensures ResultIds(KeptBlocks(content)) == []
  {
    if content != [] {
      KeptBlocksIds(content[1..]);
      var rest := KeptBlocks(content[1..]);
      match content[0]
      case TextBlock(text) =>
        if text == "" {
          assert KeptBlocks(content) == rest;
        } else {
          IdsOfPrepended(Text(text), rest);
        }
        assert ToolUses(content) == ToolUses(content[1..]);
      case ThinkingBlock(_) =>
        assert KeptBlocks(content) == rest;
        assert ToolUses(content) == ToolUses(content[1..]);
      case ToolUseBlock(id, name, input) =>
        IdsOfPrepended(ToolUse(id, name, input), rest);
        assert ToolUses(content)[1..] == ToolUses(content[1..]);
    }
  }

  function Ids(uses: seq<ReplyBlock>): seq<string> {
    if uses == [] then [] else (if uses[0].ToolUseBlock? then [uses[0].id] else []) + Ids(uses[1..])
  }

  lemma {:induction false} ResultIdsOf(uses: seq<ReplyBlock>, outputs: seq<Output>, window: nat)
    requires |uses| == |outputs| && forall u <- uses :: u.ToolUseBlock?
    ensures Results(SerializeResults(uses, outputs, window)) == Ids(uses)
    ensures Uses(SerializeResults(uses, outputs, window)) == []
  {
    var content := SerializeResults(uses, outputs, window).content;
    if uses != [] {
      ResultIdsOf(uses[1..], outputs[1..], window);
      assert content[1..] == SerializeResults(uses[1..], outputs[1..], window).content;
    }
  }

  /** The serialized reply carries exactly the tool uses of the reply, and its results message
      answers exactly those, so the two are a pair. */
  lemma ReplyAndResultsPair(content: seq<ReplyBlock>, outputs: seq<Output>, window: nat)
    requires |ToolUses(content)| == |outputs|
    ensures forall u <- ToolUses(content) :: u.ToolUseBlock?
    ensures Uses(SerializeAssistant(content)) == Ids(ToolUses(content)) && Results(SerializeAssistant(content)) == []
    ensures Results(SerializeResults(ToolUses(content), outputs, window)) == Uses(SerializeAssistant(content))
    ensures Uses(SerializeResults(ToolUses(content), outputs, window)) == []
  {
    ToolUsesAreUses(content);
    KeptBlocksIds(content);
    ResultIdsOf(ToolUses(content), outputs, window);
    TextHasNoUses([Text("(no output)")]);
  }

  // ---------------------------------------------------------------------------------------
  // What the serialized messages say

  /** A block of a reply as the transcript has it: a text with its text, a tool use with its id, name
      and input. */
  predicate Says(b: Block, r: ReplyBlock) {
    match r
    case TextBlock(text) => b.Text? && b.text == text
    case ThinkingBlock(_) => false
    case ToolUseBlock(id, name, input) => b.ToolUse? && b.id == id && b.name == name && b.input == input
  }

  /** Something for the transcript: a text that is not empty, or a tool use. */
  predicate Tells(r: ReplyBlock) { r.ToolUseBlock? || (r.TextBlock? && r.text != "") }

  lemma KeptIs(r: ReplyBlock, rest: seq<ReplyBlock>)
    ensures var all := [r] + rest;
      if Tells(r)
      then |KeptBlocks(all)| == 1 + |KeptBlocks(rest)| && Says(KeptBlocks(all)[0], r) && KeptBlocks(all)[1..] == KeptBlocks(rest)
      else KeptBlocks(all) == KeptBlocks(rest)
  {
    assert ([r] + rest)[1..] == rest;
  }

  /** The blocks kept are, in order and one for one, the texts that are not empty and the tool uses. */
  lemma {:induction false} KeptBlocksSay(content: seq<ReplyBlock>) returns (at: seq<nat>)
    ensures Selects(KeptBlocks(content), content, at, Says, Tells)
  {
    hide KeptBlocks, Says, Tells, Behind, Selects;
    if content == [] {
      at := [];
      NothingSelected();
    } else {
      var r, rest := content[0], content[1..];
      var later := KeptBlocksSay(rest);
      assert content == [r] + rest;
      KeptIs(r, rest);
      at := Behind(later, Tells(r));
      SelectsBehind(r, rest, KeptBlocks(content), KeptBlocks(rest), later, Says, Tells);
    }
  }

  lemma NothingSelected()
    ensures Selects(KeptBlocks([]), [], [], Says, Tells) && Selects(ToolUses([]), [], [], Same, IsTool)
  {
  }

  /** The message says, in order, exactly the reply's texts that are not empty and its tool uses; and
      that there was no output exactly when there are none. */
  ghost predicate IsReply(m: Message, content: seq<ReplyBlock>, at: seq<nat>) {
    && Picks(at, |content|)
    && (forall p: nat | p < |content| :: p in at <==> content[p].ToolUseBlock? || (content[p].TextBlock? && content[p].text != ""))
    && m.role == Assistant
    && (if at == [] then m.content == [Text("(no output)")]
        else |m.content| == |at| && forall i :: 0 <= i < |at| ==> Says(m.content[i], content[at[i]]))
  }

  lemma ReplySays(content: seq<ReplyBlock>) returns (at: seq<nat>)
    ensures IsReply(SerializeAssistant(content), content, at)
  {
    hide KeptBlocks, Says;
    at := KeptBlocksSay(content);
  }

  predicate Same(b: ReplyBlock, r: ReplyBlock) { b == r }
  predicate IsTool(r: ReplyBlock) { r.ToolUseBlock? }

  lemma UsesAre(r: ReplyBlock, rest: seq<ReplyBlock>)
    ensures var all := [r] + rest;
      if IsTool(r) then |ToolUses(all)| == 1 + |ToolUses(rest)| && Same(ToolUses(all)[0], r) && ToolUses(all)[1..] == ToolUses(rest)
      else ToolUses(all) == ToolUses(rest)
  {
    assert ([r] + rest)[1..] == rest;
  }

  /** The tool uses of a reply, in order. */
  lemma {:induction false} ToolUsesAre(content: seq<ReplyBlock>) returns (at: seq<nat>)
    ensures Selects(ToolUses(content), content, at, Same, IsTool)
  {
    hide ToolUses, Same, IsTool, Behind, Selects;
    if content == [] {
      at := [];
      NothingSelected();
    } else {
      var r, rest := content[0], content[1..];
      var later := ToolUsesAre(rest);
      assert content == [r] + rest;
      UsesAre(r, rest);
      at := Behind(later, IsTool(r));
      SelectsBehind(r, rest, ToolUses(content), ToolUses(rest), later, Same, IsTool);
    }
  }

  /** A tool's output as the transcript has it: unchanged if structured or no longer than the window,
      and otherwise its first `window` characters and a mark that it was cut there. */
  predicate Carries(c: Content, output: Content, window: nat) {
    if output.Str? && |output.text| > window
    then c.Str? && c.text == output.text[..window] + "\n... [tool result truncated at " + Decimal(window) + " chars]"
    else c == output
  }

  /** The block answers this tool use with this output. */
  predicate IsResult(b: Block, use: ReplyBlock, output: Output, window: nat) {
    && use.ToolUseBlock? && b.ToolResult? && b.id == use.id && b.isError == output.isError
    && Carries(b.content, output.content, window)
  }

  /** The results message answers tool use `i` with its own output and error flag. */
  lemma ResultsSay(uses: seq<ReplyBlock>, outputs: seq<Output>, window: nat)
    requires |uses| == |outputs| && forall u <- uses :: u.ToolUseBlock?
    ensures var m := SerializeResults(uses, outputs, window);
      && m.role == User && |m.content| == |uses|
      && forall i :: 0 <= i < |uses| ==> IsResult(m.content[i], uses[i], outputs[i], window)
  {
    hide Decimal;
  }

  /** The number a string of decimal digits writes. */
  function Read(s: string): int {
    if s == "" then 0 else 10 * Read(s[..|s|-1]) + (s[|s|-1] as int - '0' as int)
  }

  lemma DigitReads(d: nat)
    requires d < 10
    ensures '0' <= d as char + '0' <= '9' && (d as char + '0') as int - '0' as int == d
  {
  }

  lemma ReadNext(s: string, d: char)
    ensures Read(s + [d]) == 10 * Read(s) + (d as int - '0' as int)
  {
    assert (s + [d])[..|s|] == s;
  }

  lemma DecimalIs(n: nat)
    ensures Decimal(n) == (if n < 10 then "" else Decimal(n / 10)) + [(n % 10) as char + '0']
  {
  }

  /** The mark names the window in decimal digits. */
  lemma {:induction false} DecimalReads(n: nat)
    ensures Read(Decimal(n)) == n && forall c <- Decimal(n) :: '0' <= c <= '9'
    decreases n
  {
    hide Decimal, Read;
    DecimalIs(n);
    DigitReads(n % 10);
    var front := if n < 10 then "" else Decimal(n / 10);
    if n >= 10 { DecimalReads(n / 10); } else { NothingRead(); }
    ReadNext(front, (n % 10) as char + '0');
  }

  lemma NothingRead()
    ensures Read("") == 0
  {
  }

  // ---------------------------------------------------------------------------------------
  // Requests without tools

  function Prefix(s: string, n: nat): string { if |s| <= n then s else s[..n] }

  function TextifiedBlock(b: Block): Block {
    match b
    case Text(_) => b
    case ToolUse(_, name, input) => Text("[tool call " + name + ": " + Prefix(input, 500) + "]")
    case ToolResult(_, content, _) =>
      var text := match content
        case Str(text) => text
        case Structured(json, hasImage) => if hasImage then "[image omitted]" else json;
      Text("[tool result: " + Prefix(text, 1000) + "]")
  }

  /** History with its tool blocks rewritten as plain text. */
  function Textified(ms: seq<Message>): (out: seq<Message>)
    ensures |out| == |ms|
    ensures NoToolBlocks(out)
    ensures forall i :: 0 <= i < |ms| ==> out[i].role == ms[i].role && |out[i].content| == |ms[i].content|
    ensures forall i, j :: 0 <= i < |ms| && 0 <= j < |ms[i].content| && ms[i].content[j].Text? ==>
      out[i].content[j] == ms[i].content[j]
  {
    seq(|ms|, i requires 0 <= i < |ms| =>
      Message(ms[i].role, seq(|ms[i].content|, j requires 0 <= j < |ms[i].content| => TextifiedBlock(ms[i].content[j]))))
  }

  /** `text` up to its first `n` characters. */
  predicate Begins(head: string, text: string, n: nat) {
    head <= text && |head| == if |text| < n then |text| else n
  }

  /** What is left of a tool call is its name and the first 500 characters of its input; of a result, the
      first 1000 of its text or JSON, and of an image nothing. */
  lemma TextifiedSays(ms: seq<Message>, i: nat, j: nat) returns (head: string)
    requires i < |ms| && j < |ms[i].content|
    ensures var b, out := ms[i].content[j], Textified(ms)[i].content[j];
      && (b.ToolUse? ==> Begins(head, b.input, 500) && out == Text("[tool call " + b.name + ": " + head + "]"))
      && (b.ToolResult? ==> out == Text("[tool result: " + head + "]"))
      && (b.ToolResult? && b.content.Str? ==> Begins(head, b.content.text, 1000))
      && (b.ToolResult? && b.content.Structured? ==> if b.content.hasImage then head == "[image omitted]" else Begins(head, b.content.json, 1000))
  {
    match ms[i].content[j] {
      case Text(_) => head := "";
      case ToolUse(_, _, input) => head := Prefix(input, 500);
      case ToolResult(_, Str(text), _) => head := Prefix(text, 1000);
      case ToolResult(_, Structured(json, hasImage), _) =>
        head := if hasImage then "[image omitted]" else Prefix(json, 1000);
    }
  }

  // ---------------------------------------------------------------------------------------
  // Compaction

  const NOTE := UserText("[Earlier conversation history was dropped to fit the context window.]")

  function CompactedText(summary: string): string {
    "Continuing an in-progress session; earlier context was compacted. Summary of the work so far:\n\n"
    + summary + "\n\nContinue the task from here."
  }

  function CompactedHistory(summary: string): seq<Message> {
    [UserText(CompactedText(summary))]
  }

  lemma SummaryStandsIn(summary: string) returns (before: string, after: string)
    ensures CompactedText(summary) == before + summary + after
  {
    before := "Continuing an in-progress session; earlier context was compacted. Summary of the work so far:\n\n";
    after := "\n\nContinue the task from here.";
  }

  /** A compacted history is one plain user message, and the summary stands in it. */
  lemma SummaryIsKept(summary: string) returns (before: string, after: string)
    ensures CompactedHistory(summary) == [UserText(before + summary + after)] && PlainUser(CompactedHistory(summary)[0])
  {
    hide CompactedText;
    before, after := SummaryStandsIn(summary);
  }

  /** The suffix from the first plain user message on. */
  function Aligned(ms: seq<Message>): seq<Message> {
    if ms == [] || PlainUser(ms[0]) then ms else Aligned(ms[1..])
  }

  function DroppedOldest(ms: seq<Message>): seq<Message> {
    [NOTE] + Aligned(ms[|ms|/2..])
  }

  method DropOldest(ms: seq<Message>) returns (kept: seq<Message>)
    ensures kept == DroppedOldest(ms)
  {
    var keep := ms[|ms|/2..];
    while keep != [] && !PlainUser(keep[0])
      invariant Aligned(keep) == Aligned(ms[|ms|/2..])
    {
      keep := keep[1..];
    }
    kept := [NOTE] + keep;
  }

  lemma {:induction false} AlignedIsSuffix(ms: seq<Message>) returns (k: nat)
    ensures k <= |ms| && Aligned(ms) == ms[k..]
    ensures k < |ms| ==> PlainUser(ms[k])
    ensures forall j :: 0 <= j < k ==> !PlainUser(ms[j])
  {
    if ms == [] || PlainUser(ms[0]) {
      k := 0;
    } else {
      var k' := AlignedIsSuffix(ms[1..]);
      k := k' + 1;
      assert ms[1..][k'..] == ms[k..];
      assert forall j :: 0 < j < k ==> ms[j] == ms[1..][j-1];
    }
  }

  /** drop_oldest yields the note and a suffix that starts on a plain user message; what it skips
      of the younger half has none.  It shrinks from four messages on, and at three exactly when
      the second is not a plain user message. */
  lemma DropOldestShape(ms: seq<Message>) returns (k: nat)
    requires |ms| >= 2
    ensures |ms| / 2 <= k <= |ms| && DroppedOldest(ms) == [NOTE] + ms[k..]
    ensures k < |ms| ==> PlainUser(ms[k])
    ensures forall j :: |ms| / 2 <= j < k ==> !PlainUser(ms[j])
    ensures |ms| >= 4 ==> |DroppedOldest(ms)| < |ms|
    ensures |ms| == 3 ==> (|DroppedOldest(ms)| < 3 <==> !PlainUser(ms[1]))
  {
    var half := ms[|ms|/2..];
    var k' := AlignedIsSuffix(half);
    k := |ms| / 2 + k';
    assert half[k'..] == ms[k..];
    assert forall j :: |ms| / 2 <= j < k ==> ms[j] == half[j - |ms|/2];
  }

  lemma PairedSuffix(ms: seq<Message>, k: nat)
    requires Paired(ms) && k <= |ms| && (k < |ms| ==> PlainUser(ms[k]))
    ensures Paired(ms[k..])
  {
    var suffix := ms[k..];
    forall i | 0 <= i < |suffix| ensures PairedAt(suffix, i) {
      assert PairedAt(ms, i + k);
      if i == 0 { PlainHasNoResults(ms[k].content); }
    }
  }

  lemma PairedBehindPlain(m: Message, ms: seq<Message>)
    requires PlainUser(m) && Uses(m) == [] && Paired(ms)
    requires ms != [] ==> Results(ms[0]) == []
    ensures Paired([m] + ms)
  {
    PlainHasNoResults(m.content);
    forall i | 0 <= i < |[m] + ms| ensures PairedAt([m] + ms, i) {
      if i > 0 { assert PairedAt(ms, i - 1); }
    }
  }

  lemma DropOldestKeepsValid(ms: seq<Message>)
    requires ValidTranscript(ms) && |ms| >= 2
    ensures ValidTranscript(DroppedOldest(ms))
  {
    var k := DropOldestShape(ms);
    PairedSuffix(ms, k);
    TextHasNoUses(NOTE.content);
    if k < |ms| { PlainHasNoResults(ms[k].content); }
    PairedBehindPlain(NOTE, ms[k..]);
  }

  lemma CompactedIsValid(summary: string)
    ensures ValidTranscript(CompactedHistory(summary))
  {
    hide CompactedText;
    OneTextIsValid(CompactedHistory(summary));
  }

  lemma OneTextIsValid(ms: seq<Message>)
    requires |ms| == 1 && ms[0].role == User && |ms[0].content| == 1 && ms[0].content[0].Text?
    ensures ValidTranscript(ms)
  {
    TextHasNoUses(ms[0].content);
  }

  lemma AppendPrompt(ms: seq<Message>, text: string)
    requires ValidTranscript(ms)
    ensures ValidTranscript(ms + [UserText(text)])
  {
    var longer := ms + [UserText(text)];
    TextHasNoUses(UserText(text).content);
    forall i | 0 <= i < |longer| ensures PairedAt(longer, i) {
      if i < |ms| { assert PairedAt(ms, i); }
    }
  }

  /** What one model turn appends: the reply, and the results when it asked for tools. */
  function Turn(content: seq<ReplyBlock>, outputs: seq<Output>, window: nat): seq<Message>
    requires |ToolUses(content)| == |outputs|
  {
    ToolUsesAreUses(content);
    [SerializeAssistant(content)]
    + if ToolUses(content) == [] then [] else [SerializeResults(ToolUses(content), outputs, window)]
  }

  lemma AppendTurn(ms: seq<Message>, content: seq<ReplyBlock>, outputs: seq<Output>, window: nat)
    requires ValidTranscript(ms) && ms != [] && |ToolUses(content)| == |outputs|
    ensures ValidTranscript(ms + Turn(content, outputs, window))
  {
    ReplyAndResultsPair(content, outputs, window);
    var longer := ms + Turn(content, outputs, window);
    if ToolUses(content) != [] {
      assert Ids(ToolUses(content)) != [];
    }
    forall i | 0 <= i < |longer| ensures PairedAt(longer, i) {
      if i < |ms| { assert PairedAt(ms, i); }
    }
  }
}
