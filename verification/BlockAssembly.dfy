/** Streaming replies: the SSE framing and block assembly of session-runner/devproof_runner/client.py.
    JSON decoding is a parameter. */
module BlockAssembly {
  import opened Selections
  import opened Wrappers

  // ---------------------------------------------------------------------------------------
  // Lines to frames

  predicate Space(c: char) { c == ' ' || c == '\t' || c == '\n' || c == '\r' }

  function StripLeft(s: string): string {
    if s != "" && Space(s[0]) then StripLeft(s[1..]) else s
  }

  function StripRight(s: string): string {
    if s != "" && Space(s[|s|-1]) then StripRight(s[..|s|-1]) else s
  }

  function Strip(s: string): string { StripRight(StripLeft(s)) }

  predicate Blank(s: string) { forall c <- s :: Space(c) }

  predicate IsData(line: string) { "data:" <= line }

  function DataOf(line: string): string
    requires IsData(line)
  {
    StripLeft(line[5..])
  }

  function Joined(lines: seq<string>): string {
    if lines == [] then ""
    else if |lines| == 1 then lines[0]
    else Joined(lines[..|lines|-1]) + "\n" + lines[|lines|-1]
  }

  /** The data fields of a block of lines. */
  function Fields(lines: seq<string>): seq<string> {
    if lines == [] then []
    else Fields(lines[..|lines|-1]) + if IsData(lines[|lines|-1]) then [DataOf(lines[|lines|-1])] else []
  }

  /** The lines after the last blank one. */
  function Open(lines: seq<string>): seq<string> {
    if lines == [] || Blank(lines[|lines|-1]) then [] else Open(lines[..|lines|-1]) + [lines[|lines|-1]]
  }

  /** A blank line dispatches the data fields since the blank line before, if there are any; what no
      blank line follows is never dispatched (section 9.2.6 of the WHATWG HTML Living Standard). */
  function Dispatched(lines: seq<string>): seq<string> {
    if lines == [] then []
    else
      var before := lines[..|lines|-1];
      Dispatched(before)
      + if Blank(lines[|lines|-1]) && Fields(Open(before)) != [] then [Joined(Fields(Open(before)))] else []
  }

  lemma DataIsNotBlank(line: string)
    requires IsData(line)
    ensures !Blank(line)
  {
    assert line[0] in line;
  }

  method Frames(lines: seq<string>) returns (frames: seq<string>)
    ensures frames == Dispatched(lines)
  {
    frames := [];
    var data: seq<string> := [];
    for i := 0 to |lines|
      invariant frames == Dispatched(lines[..i]) && data == Fields(Open(lines[..i]))
    {
      var line := lines[i];
      assert lines[..i+1][..i] == lines[..i];
      if IsData(line) {
        DataIsNotBlank(line);
        OpenGrows(lines[..i], line);
        data := data + [DataOf(line)];
        continue;
      }
      if !Blank(line) {
        OpenGrows(lines[..i], line);
        continue;
      }
      if data == [] {
        continue;
      }
      frames := frames + [Joined(data)];
      data := [];
    }
    assert lines[..|lines|] == lines;
  }

  lemma OpenGrows(lines: seq<string>, line: string)
    requires !Blank(line)
    ensures Fields(Open(lines + [line])) == Fields(Open(lines)) + if IsData(line) then [DataOf(line)] else []
    ensures Dispatched(lines + [line]) == Dispatched(lines)
  {
    assert (lines + [line])[..|lines|] == lines;
    assert (Open(lines) + [line])[..|Open(lines)|] == Open(lines);
  }

  function DataLine(payload: string): string { "data: " + payload }

  /** The lines of a payload. */
  function Lines(payload: string): (lines: seq<string>)
    ensures lines != []
  {
    if payload == "" then [""]
    else
      var c, before := payload[|payload|-1], Lines(payload[..|payload|-1]);
      if c == '\n' then before + [""] else before[..|before|-1] + [before[|before|-1] + [c]]
  }

  function DataLines(lines: seq<string>): (out: seq<string>)
    ensures |out| == |lines| && forall i :: 0 <= i < |lines| ==> out[i] == DataLine(lines[i])
  {
    seq(|lines|, i requires 0 <= i < |lines| => DataLine(lines[i]))
  }

  /** The wire form of payloads: a data line for each line of one, and a blank line after it. */
  function Encoded(payloads: seq<string>): seq<string> {
    if payloads == [] then []
    else Encoded(payloads[..|payloads|-1]) + DataLines(Lines(payloads[|payloads|-1])) + [""]
  }

  lemma DataLineCarries(p: string)
    requires p == "" || !Space(p[0])
    ensures IsData(DataLine(p)) && DataOf(DataLine(p)) == p && !Blank(DataLine(p))
  {
    assert DataLine(p)[5..] == " " + p && (" " + p)[0] == ' ' && (" " + p)[1..] == p;
    assert StripLeft(" " + p) == StripLeft(p);
    DataIsNotBlank(DataLine(p));
  }

  lemma JoinedSnoc(lines: seq<string>, l: string)
    ensures Joined(lines + [l]) == if lines == [] then l else Joined(lines) + "\n" + l
  {
    assert (lines + [l])[..|lines|] == lines;
  }

  /** A payload's lines, joined again, are the payload. */
  lemma {:induction false} LinesJoin(payload: string)
    ensures Joined(Lines(payload)) == payload
  {
    if payload != "" {
      var c, rest := payload[|payload|-1], payload[..|payload|-1];
      var before := Lines(rest);
      LinesJoin(rest);
      assert payload == rest + [c];
      if c == '\n' {
        JoinedSnoc(before, "");
        assert rest + "\n" + "" == payload;
      } else {
        var front, last := before[..|before|-1], before[|before|-1];
        assert before == front + [last];
        JoinedSnoc(front, last);
        JoinedSnoc(front, last + [c]);
        if front != [] { assert Joined(front) + "\n" + (last + [c]) == Joined(front) + "\n" + last + [c]; }
      }
    }
  }

  /** Every line of the payload is empty or begins with something else than white space. */
  predicate Plain(payload: string) { forall l <- Lines(payload) :: l == "" || !Space(l[0]) }

  /** Payloads whose lines do not begin with white space come back as they went in, however many lines
      they have. */
  lemma {:induction false} FramingRoundTrip(payloads: seq<string>)
    requires forall p <- payloads :: Plain(p)
    ensures Dispatched(Encoded(payloads)) == payloads && Open(Encoded(payloads)) == []
  {
    hide Dispatched, Open, DataLine, Space, Plain, Lines, DataLines;
    if payloads == [] {
      NoPayloads();
    } else {
      var p := payloads[|payloads|-1];
      assert p in payloads;
      FramingRoundTrip(payloads[..|payloads|-1]);
      PayloadDispatches(Encoded(payloads[..|payloads|-1]), p);
      assert payloads[..|payloads|-1] + [p] == payloads;
    }
  }

  lemma NoPayloads()
    ensures Dispatched(Encoded([])) == [] && Open(Encoded([])) == []
  {
  }

  /** Data lines wait, one behind the other, for the blank line. */
  lemma {:induction false} LinesWait(before: seq<string>, lines: seq<string>)
    requires Open(before) == [] && forall l <- lines :: l == "" || !Space(l[0])
    ensures Fields(Open(before + DataLines(lines))) == lines && Dispatched(before + DataLines(lines)) == Dispatched(before)
  {
    hide DataLine, DataOf, IsData, Space, Dispatched, Open;
    if lines == [] {
      assert before + DataLines(lines) == before;
    } else {
      var rest, l := lines[..|lines|-1], lines[|lines|-1];
      assert l in lines && forall r <- rest :: r in lines;
      LinesWait(before, rest);
      DataLineCarries(l);
      OpenGrows(before + DataLines(rest), DataLine(l));
      assert before + DataLines(lines) == before + DataLines(rest) + [DataLine(l)];
    }
  }

  lemma PayloadDispatches(before: seq<string>, p: string)
    requires Open(before) == [] && Plain(p)
    ensures var after := before + DataLines(Lines(p)) + [""];
            Dispatched(after) == Dispatched(before) + [p] && Open(after) == []
  {
    hide DataLine, Space, Lines, DataLines, Dispatched, Open, Fields;
    LinesWait(before, Lines(p));
    LinesJoin(p);
    BlankDispatches(before + DataLines(Lines(p)), Lines(p));
  }

  lemma BlankDispatches(lines: seq<string>, fields: seq<string>)
    requires Fields(Open(lines)) == fields != []
    ensures Dispatched(lines + [""]) == Dispatched(lines) + [Joined(fields)] && Open(lines + [""]) == []
  {
    hide Fields;
    assert (lines + [""])[..|lines|] == lines;
  }

  // ---------------------------------------------------------------------------------------
  // Blocks

  datatype Kind = TextKind | ToolUseKind | ThinkingKind | RedactedKind

  datatype Delta = TextDelta(text: string) | ThinkingDelta(text: string) | SignatureDelta(text: string) | JsonDelta(text: string) | OtherDelta

  /** A block as it builds up. */
  datatype Draft = Draft(kind: Kind, text: string, thinking: string, signature: string, id: string, name: string, json: string)

  datatype Json = Obj(source: string) | JsonString(value: string) | OtherJson(source: string)

  datatype Input = Object_(json: Json) | RawText(raw: string) | RawValue(json: Json)

  datatype Block = Text(text: string) | Thinking(thinking: string, signature: string) | ToolUse(id: string, name: string, input: Input)

  function Applied(b: Draft, d: Delta): Draft {
    match d
    case TextDelta(text) => b.(text := b.text + text)
    case ThinkingDelta(text) => b.(thinking := b.thinking + text)
    case SignatureDelta(text) => b.(signature := b.signature + text)
    case JsonDelta(text) => b.(json := b.json + text)
    case OtherDelta => b
  }

  function AllApplied(b: Draft, ds: seq<Delta>): Draft {
    if ds == [] then b else Applied(AllApplied(b, ds[..|ds|-1]), ds[|ds|-1])
  }

  /** Tool input arrives as JSON, sometimes encoded twice; what does not decode to an object is kept raw. */
  function ToolInput(decode: string -> Option<Json>, json: string): Input {
    var raw := Strip(json);
    if raw == "" then Object_(Obj("{}"))
    else
      match decode(raw)
      case None => RawText(raw)
      case Some(JsonString(inner)) =>
        (match decode(inner)
         case None => RawText(raw)
         case Some(value) => if value.Obj? then Object_(value) else RawValue(value))
      case Some(value) => if value.Obj? then Object_(value) else RawValue(value)
  }

  /** None for a redacted block. */
  function Finished(decode: string -> Option<Json>, b: Draft): Option<Block> {
    match b.kind
    case ToolUseKind => Some(ToolUse(b.id, b.name, ToolInput(decode, b.json)))
    case ThinkingKind => Some(Thinking(b.thinking, b.signature))
    case RedactedKind => None
    case TextKind => Some(Text(b.text))
  }

  /** Redacted blocks and blank text are dropped. */
  function Kept(decode: string -> Option<Json>, b: Draft): seq<Block> {
    match Finished(decode, b)
    case None => []
    case Some(block) => if block.Text? && Blank(block.text) then [] else [block]
  }

  class BlockBuilder {
    var draft: Draft

    constructor (start: Draft)
      ensures draft == start
    {
      draft := start;
    }

    method Apply(d: Delta)
      modifies this
      ensures draft == Applied(old(draft), d)
    {
      match d {
        case TextDelta(text) => draft := draft.(text := draft.text + text);
        case ThinkingDelta(text) => draft := draft.(thinking := draft.thinking + text);
        case SignatureDelta(text) => draft := draft.(signature := draft.signature + text);
        case JsonDelta(text) => draft := draft.(json := draft.json + text);
        case OtherDelta =>
      }
    }
  }

  // ---------------------------------------------------------------------------------------
  // Events

  /** A start without an index takes the number of starts before it. */
  datatype Event =
    | Start(index: Option<int>, block: Draft)
    | BlockDelta(at: int, delta: Delta)
    | Stop
    | Error(retryable: bool)
    | Other

  function IndexOf(index: Option<int>, before: nat): int {
    match index case Some(i) => i case None => before
  }

  /** The starts of a stream, in order. */
  function Starts(events: seq<Event>): seq<(int, Draft)> {
    if events == [] then []
    else
      var before := Starts(events[..|events|-1]);
      match events[|events|-1]
      case Start(index, block) => before + [(IndexOf(index, |before|), block)]
      case _ => before
  }

  function Order(starts: seq<(int, Draft)>): seq<int> { seq(|starts|, i requires 0 <= i < |starts| => starts[i].0) }

  /** The deltas meant for block `index`: those after its start. */
  function OwnDeltas(events: seq<Event>, index: int): seq<Delta> {
    if events == [] then []
    else
      var e, before := events[|events|-1], events[..|events|-1];
      match e
      case BlockDelta(at, delta) =>
        OwnDeltas(before, index) + if at == index && at in Order(Starts(before)) then [delta] else []
      case _ => OwnDeltas(before, index)
  }

  /** Filter and fold: each start with its own deltas, in start order. */
  function Assembled(decode: string -> Option<Json>, events: seq<Event>, starts: seq<(int, Draft)>): seq<Block> {
    if starts == [] then []
    else
      var (index, block) := starts[|starts|-1];
      Assembled(decode, events, starts[..|starts|-1]) + Kept(decode, AllApplied(block, OwnDeltas(events, index)))
  }

  predicate DistinctStarts(starts: seq<(int, Draft)>) {
    forall i, j :: 0 <= i < j < |starts| ==> starts[i].0 != starts[j].0
  }

  /** The drafts as they stand: a start puts a new one at its index, a delta goes to the one there. */
  function Drafts(events: seq<Event>): map<int, Draft> {
    if events == [] then map[]
    else
      var before := Drafts(events[..|events|-1]);
      match events[|events|-1]
      case Start(_, block) => before[Starts(events)[|Starts(events)|-1].0 := block]
      case BlockDelta(at, delta) => if at in before then before[at := Applied(before[at], delta)] else before
      case _ => before
  }

  predicate AllIn(order: seq<int>, drafts: map<int, Draft>) { forall k :: 0 <= k < |order| ==> order[k] in drafts }

  /** What the drafts at these indices come to. */
  function Collected(decode: string -> Option<Json>, drafts: map<int, Draft>, order: seq<int>): seq<Block>
    requires AllIn(order, drafts)
  {
    if order == [] then []
    else Collected(decode, drafts, order[..|order|-1]) + Kept(decode, drafts[order[|order|-1]])
  }

  lemma {:induction false} DraftsAtStarts(events: seq<Event>)
    ensures forall i :: i in Order(Starts(events)) <==> i in Drafts(events)
    ensures AllIn(Order(Starts(events)), Drafts(events))
  {
    if events != [] {
      var before, e := events[..|events|-1], events[|events|-1];
      DraftsAtStarts(before);
      if e.Start? {
        assert Order(Starts(events)) == Order(Starts(before)) + [Starts(events)[|Starts(events)|-1].0];
      }
    }
  }

  /** With no index started twice, the draft at each start is its block with its own deltas applied. */
  lemma {:induction false} DraftsAreFolds(events: seq<Event>, k: nat)
    requires DistinctStarts(Starts(events)) && k < |Starts(events)|
    ensures var (index, block) := Starts(events)[k];
            index in Drafts(events) && Drafts(events)[index] == AllApplied(block, OwnDeltas(events, index))
  {
    hide Applied, Drafts, Starts;
    NoEvents();
    var before, e := events[..|events|-1], events[|events|-1];
    var starts, index := Starts(events), Starts(events)[k].0;
    assert events == before + [e];
    EventAdded(before, e);
    StartsGrow(before, e);
    DraftsAtStarts(before);
    if e.Start? && k == |starts| - 1 {
      assert forall j :: 0 <= j < k ==> Order(Starts(before))[j] == starts[j].0;
      NoDeltasBeforeStart(before, index);
    } else {
      DraftsAreFolds(before, k);
      assert index == Order(Starts(before))[k];
      assert OwnDeltas(before, index) + [] == OwnDeltas(before, index);
      if e.BlockDelta? && e.at == index {
        assert (OwnDeltas(before, index) + [e.delta])[..|OwnDeltas(before, index)|] == OwnDeltas(before, index);
      }
    }
  }

  lemma StartsGrow(before: seq<Event>, e: Event)
    ensures Starts(before) <= Starts(before + [e])
    ensures |Starts(before + [e])| == |Starts(before)| + if e.Start? then 1 else 0
    ensures e.Start? ==> Starts(before + [e])[|Starts(before)|] == (IndexOf(e.index, |Starts(before)|), e.block)
    ensures DistinctStarts(Starts(before + [e])) ==> DistinctStarts(Starts(before))
  {
    assert (before + [e])[..|before|] == before;
  }

  lemma {:induction false} NoDeltasBeforeStart(events: seq<Event>, index: int)
    requires index !in Order(Starts(events))
    ensures OwnDeltas(events, index) == []
  {
    if events != [] {
      var before := events[..|events|-1];
      assert Order(Starts(before)) <= Order(Starts(events));
      NoDeltasBeforeStart(before, index);
    }
  }

  /** Assembly through shared mutable drafts is filter-and-fold, however the frames interleave. */
  lemma AssemblyIsFilterAndFold(decode: string -> Option<Json>, events: seq<Event>)
    requires DistinctStarts(Starts(events))
    ensures AllIn(Order(Starts(events)), Drafts(events))
    ensures Collected(decode, Drafts(events), Order(Starts(events))) == Assembled(decode, events, Starts(events))
  {
    DraftsAtStarts(events);
    CollectedUpTo(decode, events, |Starts(events)|);
    assert Starts(events)[..|Starts(events)|] == Starts(events);
  }

  lemma {:induction false} CollectedUpTo(decode: string -> Option<Json>, events: seq<Event>, k: nat)
    requires DistinctStarts(Starts(events)) && k <= |Starts(events)|
    requires AllIn(Order(Starts(events)), Drafts(events))
    ensures AllIn(Order(Starts(events)[..k]), Drafts(events))
    ensures Collected(decode, Drafts(events), Order(Starts(events)[..k])) == Assembled(decode, events, Starts(events)[..k])
  {
    hide Kept, AllApplied, Drafts, OwnDeltas;
    var starts := Starts(events);
    assert Order(starts[..k]) <= Order(starts);
    if k > 0 {
      CollectedUpTo(decode, events, k - 1);
      DraftsAreFolds(events, k - 1);
      assert starts[..k][..k-1] == starts[..k-1] && Order(starts[..k])[..k-1] == Order(starts[..k-1]);
    }
  }

  lemma {:induction false} SameDeltasAssembleAlike(decode: string -> Option<Json>, a: seq<Event>, b: seq<Event>, starts: seq<(int, Draft)>)
    requires forall s <- starts :: OwnDeltas(a, s.0) == OwnDeltas(b, s.0)
    ensures Assembled(decode, a, starts) == Assembled(decode, b, starts)
  {
    if starts != [] {
      assert starts[|starts|-1] in starts;
      SameDeltasAssembleAlike(decode, a, b, starts[..|starts|-1]);
    }
  }

  /** The condition is needed: a second start at an index loses the first block and repeats the second. */
  lemma RepeatedStartLosesABlock(decode: string -> Option<Json>, first: Draft, second: Draft)
    ensures var events := [Start(Some(0), first), Start(Some(0), second)];
            && Order(Starts(events)) == [0, 0] && Drafts(events) == map[0 := second]
  {
    var one, two := [Start(Some(0), first)], [Start(Some(0), first), Start(Some(0), second)];
    assert one[..0] == [] && two[..1] == one;
    assert Starts(one) == [(0, first)] && Starts(two) == [(0, first), (0, second)];
    assert Drafts(one) == map[0 := first];
  }

  // ---------------------------------------------------------------------------------------
  // The parser

  predicate Ends(e: Event) { e.Stop? || e.Error? }

  /** The stream up to the event that ends it. */
  function Heard(events: seq<Event>): seq<Event> {
    if events == [] || Ends(events[0]) then [] else [events[0]] + Heard(events[1..])
  }

  lemma {:induction false} HeardUpTo(events: seq<Event>, k: nat)
    requires k <= |events| && (forall e <- events[..k] :: !Ends(e)) && (k < |events| ==> Ends(events[k]))
    ensures Heard(events) == events[..k]
  {
    if k > 0 {
      assert events[0] in events[..k] && forall e <- events[1..][..k-1] :: e in events[..k];
      HeardUpTo(events[1..], k - 1);
    }
  }

  datatype Reply = Content(blocks: seq<Block>) | Failed(retryable: bool)

  /** What a stream comes to. */
  function Parsed(decode: string -> Option<Json>, events: seq<Event>): Reply {
    var heard := Heard(events);
    DraftsAtStarts(heard);
    HeardIsPrefix(events);
    if |heard| < |events| && events[|heard|].Error? then Failed(events[|heard|].retryable)
    else Content(Collected(decode, Drafts(heard), Order(Starts(heard))))
  }

  lemma {:induction false} HeardIsPrefix(events: seq<Event>)
    ensures |Heard(events)| <= |events| && Heard(events) == events[..|Heard(events)|]
  {
    if events != [] && !Ends(events[0]) { HeardIsPrefix(events[1..]); }
  }

  /** One builder object per index, each holding its draft. */
  ghost predicate Building(builders: map<int, BlockBuilder>, drafts: map<int, Draft>)
    reads set i | i in builders :: builders[i]
  {
    && builders.Keys == drafts.Keys
    && (forall i <- builders, j <- builders :: i != j ==> builders[i] != builders[j])
    && (forall i <- builders :: builders[i].draft == drafts[i])
  }

  /** Reads the stream to its end; an error event fails the reply, and otherwise the blocks are what
      the drafts come to in start order. */
  method ParseStream(decode: string -> Option<Json>, events: seq<Event>) returns (reply: Reply)
    ensures reply == Parsed(decode, events)
  {
    hide Applied, Collected, Starts, Drafts, Heard;
    NoEvents();
    var builders: map<int, BlockBuilder> := map[];
    var order: seq<int> := [];
    var i := 0;
    while i < |events| && !Ends(events[i])
      invariant 0 <= i <= |events| && forall e <- events[..i] :: !Ends(e)
      invariant order == Order(Starts(events[..i])) && Building(builders, Drafts(events[..i]))
      invariant forall j <- builders :: fresh(builders[j])
    {
      ghost var before := events[..i];
      assert events[..i+1] == before + [events[i]];
      EventAdded(before, events[i]);
      match events[i] {
        case Start(index, block) =>
          var next := IndexOf(index, |order|);
          var builder := new BlockBuilder(block);
          builders := builders[next := builder];
          order := order + [next];
        case BlockDelta(at, delta) =>
          if at in builders {
            builders[at].Apply(delta);
          }
        case _ =>
      }
      i := i + 1;
    }
    HeardUpTo(events, i);
    DraftsAtStarts(events[..i]);
    if i < |events| && events[i].Error? {
      return Failed(events[i].retryable);
    }
    var blocks := FinishAll(decode, builders, order, Drafts(events[..i]));
    reply := Content(blocks);
  }

  method FinishAll(decode: string -> Option<Json>, builders: map<int, BlockBuilder>, order: seq<int>, ghost drafts: map<int, Draft>)
    returns (blocks: seq<Block>)
    requires Building(builders, drafts) && AllIn(order, drafts)
    ensures blocks == Collected(decode, drafts, order)
  {
    hide Kept;
    blocks := [];
    for k := 0 to |order|
      invariant blocks == Collected(decode, drafts, order[..k])
    {
      var upTo := order[..k+1];
      assert upTo[..|upTo|-1] == order[..k] && upTo[|upTo|-1] == order[k] && order[k] in drafts;
      assert builders[order[k]].draft == drafts[order[k]];
      blocks := blocks + Kept(decode, builders[order[k]].draft);
    }
    assert order[..|order|] == order;
  }

  lemma NoEvents()
    ensures Starts([]) == [] && Drafts([]) == map[] && Order([]) == []
  {
  }

  lemma EventAdded(before: seq<Event>, e: Event)
    ensures var after, order, drafts := before + [e], Order(Starts(before)), Drafts(before);
            && (e.Start? ==>
                  && Order(Starts(after)) == order + [IndexOf(e.index, |order|)]
                  && Drafts(after) == drafts[IndexOf(e.index, |order|) := e.block])
            && (!e.Start? ==> Order(Starts(after)) == order)
            && (e.BlockDelta? ==> Drafts(after) == if e.at in drafts then drafts[e.at := Applied(drafts[e.at], e.delta)] else drafts)
            && (!e.Start? && !e.BlockDelta? ==> Drafts(after) == drafts)
  {
    assert (before + [e])[..|before|] == before;
  }

  // ---------------------------------------------------------------------------------------
  // Interleaving

  /** Two streams whose blocks start alike, each at an index of its own, and bring each block the same
      deltas parse to the same reply, wherever the deltas of different blocks stand. */
  lemma InterleavingIsIrrelevant(decode: string -> Option<Json>, a: seq<Event>, b: seq<Event>)
    requires !Parsed(decode, a).Failed? && !Parsed(decode, b).Failed?
    requires var starts := Starts(Heard(a));
      && DistinctStarts(starts) && starts == Starts(Heard(b))
      && forall s <- starts :: OwnDeltas(Heard(a), s.0) == OwnDeltas(Heard(b), s.0)
    ensures Parsed(decode, a) == Parsed(decode, b)
  {
    hide Starts, Drafts, Heard, OwnDeltas, Assembled;
    AssemblyIsFilterAndFold(decode, Heard(a));
    AssemblyIsFilterAndFold(decode, Heard(b));
    SameDeltasAssembleAlike(decode, Heard(a), Heard(b), Starts(Heard(a)));
  }

  /** Two neighbouring deltas of different blocks change places. */
  function Swapped(events: seq<Event>, k: nat): seq<Event>
    requires k + 1 < |events|
  {
    events[..k] + [events[k+1], events[k]] + events[k+2..]
  }

  /** Each delta finds its own draft, whichever of the two comes first. */
  lemma SwapHere(events: seq<Event>, d: Event, e: Event)
    requires d.BlockDelta? && e.BlockDelta? && d.at != e.at
    ensures Starts(events + [d, e]) == Starts(events + [e, d])
    ensures Drafts(events + [d, e]) == Drafts(events + [e, d])
  {
    hide Applied;
    assert events + [d, e] == (events + [d]) + [e] && events + [e, d] == (events + [e]) + [d];
    DeltaAdded(events, d);
    DeltaAdded(events, e);
    DeltaAdded(events + [d], e);
    DeltaAdded(events + [e], d);
    hide Starts, Drafts;
  }

  lemma DeltaAdded(events: seq<Event>, e: Event)
    requires e.BlockDelta?
    ensures Starts(events + [e]) == Starts(events)
    ensures var drafts := Drafts(events);
            Drafts(events + [e]) == if e.at in drafts then drafts[e.at := Applied(drafts[e.at], e.delta)] else drafts
  {
    assert (events + [e])[..|events|] == events;
  }

  /** What follows does not tell two such streams apart. */
  lemma {:induction false} SameAfter(a: seq<Event>, b: seq<Event>, rest: seq<Event>)
    requires Starts(a) == Starts(b) && Drafts(a) == Drafts(b)
    ensures Starts(a + rest) == Starts(b + rest) && Drafts(a + rest) == Drafts(b + rest)
  {
    if rest == [] {
      assert a + rest == a && b + rest == b;
    } else {
      var before := rest[..|rest|-1];
      SameAfter(a, b, before);
      assert (a + rest)[..|a+rest|-1] == a + before && (b + rest)[..|b+rest|-1] == b + before;
    }
  }

  lemma SwapKeepsDrafts(events: seq<Event>, k: nat)
    requires k + 1 < |events| && events[k].BlockDelta? && events[k+1].BlockDelta? && events[k].at != events[k+1].at
    ensures Starts(Swapped(events, k)) == Starts(events) && Drafts(Swapped(events, k)) == Drafts(events)
  {
    hide Starts, Drafts;
    assert events == events[..k] + [events[k], events[k+1]] + events[k+2..];
    SwapHere(events[..k], events[k], events[k+1]);
    SameAfter(events[..k] + [events[k], events[k+1]], events[..k] + [events[k+1], events[k]], events[k+2..]);
  }

  /** Nothing heard ends the stream, and the event after it does. */
  lemma {:induction false} HeardStops(events: seq<Event>)
    ensures forall e <- Heard(events) :: !Ends(e)
    ensures |Heard(events)| < |events| ==> Ends(events[|Heard(events)|])
  {
    if events != [] && !Ends(events[0]) { HeardStops(events[1..]); }
  }

  /** A swap stays on one side of the event that ends the stream. */
  lemma SwapIsHeard(events: seq<Event>, k: nat)
    requires k + 1 < |events| && events[k].BlockDelta? && events[k+1].BlockDelta?
    ensures var n := |Heard(events)|;
            && Heard(Swapped(events, k)) == (if k + 1 < n then Swapped(Heard(events), k) else Heard(events))
            && (n < |events| ==> Swapped(events, k)[n] == events[n])
  {
    hide Heard, Swapped;
    var n := |Heard(events)|;
    HeardIsPrefix(events);
    HeardStops(events);
    SwapsApart(events, k, n);
    HeardUpTo(Swapped(events, k), n);
  }

  lemma SwapsApart(events: seq<Event>, k: nat, n: nat)
    requires k + 1 < |events| && n <= |events| && (n < |events| ==> n != k && n != k + 1)
    ensures var other := Swapped(events, k);
      && |other| == |events| && (forall e <- other[..n] :: e in events[..n]) && (n < |events| ==> other[n] == events[n])
      && other[..n] == if k + 1 < n then Swapped(events[..n], k) else events[..n]
  {
    var other := Swapped(events, k);
    if k + 1 < n {
      assert other[..n] == Swapped(events[..n], k);
    } else {
      assert other[..n] == events[..n];
    }
  }

  /** Swapping neighbouring deltas of different blocks changes no reply: not of a stream that stops, of
      one that breaks off, or of one that fails, and not where two blocks start at one index. */
  lemma SwapIsIrrelevant(decode: string -> Option<Json>, events: seq<Event>, k: nat)
    requires k + 1 < |events| && events[k].BlockDelta? && events[k+1].BlockDelta? && events[k].at != events[k+1].at
    ensures Parsed(decode, Swapped(events, k)) == Parsed(decode, events)
  {
    hide Starts, Drafts, Heard, Collected, Swapped;
    SwapIsHeard(events, k);
    HeardIsPrefix(events);
    SwapKeepsLength(events, k);
    if k + 1 < |Heard(events)| {
      SwapKeepsLength(Heard(events), k);
      SwapKeepsDrafts(Heard(events), k);
    }
  }

  lemma SwapKeepsLength(events: seq<Event>, k: nat)
    requires k + 1 < |events|
    ensures |Swapped(events, k)| == |events|
  {
  }

  /** How many blocks the events start. */
  function StartCount(events: seq<Event>): nat {
    if events == [] then 0 else StartCount(events[..|events|-1]) + if events[|events|-1].Start? then 1 else 0
  }

  /** A start is listed under its own index, or under the number of the starts before it. */
  lemma {:induction false} StartsAre(events: seq<Event>)
    ensures |Starts(events)| == StartCount(events)
    ensures forall p: nat :: p < |events| && events[p].Start? ==>
      var k := StartCount(events[..p]);
      k < |Starts(events)| && Starts(events)[k] == (if events[p].index.Some? then events[p].index.value else k, events[p].block)
  {
    if events != [] {
      var before, e := events[..|events|-1], events[|events|-1];
      StartsAre(before);
      forall p: nat | p < |events| && events[p].Start?
        ensures var k := StartCount(events[..p]);
          k < |Starts(events)| && Starts(events)[k] == (if events[p].index.Some? then events[p].index.value else k, events[p].block)
      {
        if p < |before| { assert events[..p] == before[..p] && before[p] == events[p]; }
      }
    }
  }

  /** The reply fails exactly when an error comes before any stop, and says whether that may be retried; and
      what counts for it is what comes before the first of either. */
  lemma ReplyFailsIff(decode: string -> Option<Json>, events: seq<Event>) returns (n: nat)
    ensures n <= |events| && (n < |events| ==> events[n].Stop? || events[n].Error?)
    ensures forall j :: 0 <= j < n ==> !events[j].Stop? && !events[j].Error?
    ensures Parsed(decode, events).Failed? <==> n < |events| && events[n].Error?
    ensures Parsed(decode, events).Failed? ==> Parsed(decode, events).retryable == events[n].retryable
    ensures Heard(events) == events[..n]
  {
    hide Heard, Collected, Drafts, Starts;
    n := |Heard(events)|;
    HeardIsPrefix(events);
    HeardStops(events);
    forall j | 0 <= j < n ensures !events[j].Stop? && !events[j].Error? {
      assert events[j] == Heard(events)[j] && Heard(events)[j] in Heard(events);
    }
  }

  // ---------------------------------------------------------------------------------------
  // What the blocks hold

  /** What a delta adds to the text, the thinking, the signature and the tool input of its block. */
  function TextPart(d: Delta): string { if d.TextDelta? then d.text else "" }
  function ThinkingPart(d: Delta): string { if d.ThinkingDelta? then d.text else "" }
  function SignaturePart(d: Delta): string { if d.SignatureDelta? then d.text else "" }
  function JsonPart(d: Delta): string { if d.JsonDelta? then d.text else "" }

  /** The parts of the deltas, one after the other as they arrive. */
  function Gathered(ds: seq<Delta>, part: Delta -> string): string {
    if ds == [] then "" else part(ds[0]) + Gathered(ds[1..], part)
  }

  lemma {:induction false} GatheredSnoc(ds: seq<Delta>, d: Delta, part: Delta -> string)
    ensures Gathered(ds + [d], part) == Gathered(ds, part) + part(d)
  {
    if ds == [] {
      assert [d][1..] == [] && part(d) + "" == part(d);
    } else {
      assert (ds + [d])[1..] == ds[1..] + [d];
      GatheredSnoc(ds[1..], d, part);
    }
  }

  /** A block's draft holds what its start brought, followed by the deltas of each kind in the order they
      came; its kind, id and name are the start's. */
  lemma {:induction false} DraftHolds(b: Draft, ds: seq<Delta>)
    ensures AllApplied(b, ds) ==
      Draft(b.kind, b.text + Gathered(ds, TextPart), b.thinking + Gathered(ds, ThinkingPart),
            b.signature + Gathered(ds, SignaturePart), b.id, b.name, b.json + Gathered(ds, JsonPart))
  {
    hide Gathered, Applied, TextPart, ThinkingPart, SignaturePart, JsonPart;
    if ds == [] {
      NothingGathered(b);
    } else {
      var before, d := ds[..|ds|-1], ds[|ds|-1];
      assert ds == before + [d];
      DraftHolds(b, before);
      GatheredSnoc(before, d, TextPart);
      GatheredSnoc(before, d, ThinkingPart);
      GatheredSnoc(before, d, SignaturePart);
      GatheredSnoc(before, d, JsonPart);
      AppliedAppends(AllApplied(b, before), d);
      LaterParts(b, before, d);
    }
  }

  lemma NothingGathered(b: Draft)
    ensures b == Draft(b.kind, b.text + Gathered([], TextPart), b.thinking + Gathered([], ThinkingPart),
                       b.signature + Gathered([], SignaturePart), b.id, b.name, b.json + Gathered([], JsonPart))
  {
    assert b.text + "" == b.text && b.thinking + "" == b.thinking && b.signature + "" == b.signature && b.json + "" == b.json;
  }

  lemma Grouped(a: string, b: string, c: string)
    ensures (a + b) + c == a + (b + c)
  {
  }

  lemma LaterParts(b: Draft, before: seq<Delta>, d: Delta)
    ensures (b.text + Gathered(before, TextPart)) + TextPart(d) == b.text + (Gathered(before, TextPart) + TextPart(d))
    ensures (b.thinking + Gathered(before, ThinkingPart)) + ThinkingPart(d) == b.thinking + (Gathered(before, ThinkingPart) + ThinkingPart(d))
    ensures (b.signature + Gathered(before, SignaturePart)) + SignaturePart(d)
         == b.signature + (Gathered(before, SignaturePart) + SignaturePart(d))
    ensures (b.json + Gathered(before, JsonPart)) + JsonPart(d) == b.json + (Gathered(before, JsonPart) + JsonPart(d))
  {
    hide *;
    Grouped(b.text, Gathered(before, TextPart), TextPart(d));
    Grouped(b.thinking, Gathered(before, ThinkingPart), ThinkingPart(d));
    Grouped(b.signature, Gathered(before, SignaturePart), SignaturePart(d));
    Grouped(b.json, Gathered(before, JsonPart), JsonPart(d));
  }

  lemma AppliedAppends(b: Draft, d: Delta)
    ensures Applied(b, d) == Draft(b.kind, b.text + TextPart(d), b.thinking + ThinkingPart(d), b.signature + SignaturePart(d),
                                   b.id, b.name, b.json + JsonPart(d))
  {
    assert b.text + "" == b.text && b.thinking + "" == b.thinking && b.signature + "" == b.signature && b.json + "" == b.json;
  }

  /** What is stripped off is white space, at both ends and as much as there is. */
  lemma StripIs(s: string) returns (i: nat, j: nat)
    ensures i <= j <= |s| && Strip(s) == s[i..j] && Blank(s[..i]) && Blank(s[j..])
    ensures i < j ==> !Space(s[i]) && !Space(s[j-1])
  {
    i := StripLeftIs(s);
    var k := StripRightIs(s[i..]);
    j := i + k;
    assert s[i..][..k] == s[i..j] && s[i..][k..] == s[j..];
  }

  lemma {:induction false} StripLeftIs(s: string) returns (i: nat)
    ensures i <= |s| && StripLeft(s) == s[i..] && Blank(s[..i]) && (i < |s| ==> !Space(s[i]))
  {
    if s != "" && Space(s[0]) {
      var i' := StripLeftIs(s[1..]);
      i := i' + 1;
      assert s[..i] == [s[0]] + s[1..][..i'];
    } else {
      i := 0;
    }
  }

  lemma {:induction false} StripRightIs(s: string) returns (k: nat)
    ensures k <= |s| && StripRight(s) == s[..k] && Blank(s[k..]) && (k > 0 ==> !Space(s[k-1]))
  {
    if s != "" && Space(s[|s|-1]) {
      k := StripRightIs(s[..|s|-1]);
      assert s[k..] == s[..|s|-1][k..] + [s[|s|-1]];
    } else {
      k := |s|;
    }
  }

  /** The value of a JSON text, or of the text inside it when it is a string. */
  function Unquoted(decode: string -> Option<Json>, raw: string): Option<Json> {
    match decode(raw)
    case Some(JsonString(inner)) => decode(inner)
    case value => value
  }

  /** The input of a tool use whose JSON came as `json`: an object if it is one, and nothing lost if not. */
  predicate IsInput(decode: string -> Option<Json>, json: string, input: Input) {
    var raw := Strip(json);
    if raw == "" then input == Object_(Obj("{}"))
    else
      match Unquoted(decode, raw)
      case None => input == RawText(raw)
      case Some(value) => input == if value.Obj? then Object_(value) else RawValue(value)
  }

  /** The block is what a start and its deltas come to. */
  predicate Holds(decode: string -> Option<Json>, block: Block, start: Draft, ds: seq<Delta>) {
    match start.kind
    case TextKind => block == Text(start.text + Gathered(ds, TextPart))
    case ThinkingKind => block == Thinking(start.thinking + Gathered(ds, ThinkingPart), start.signature + Gathered(ds, SignaturePart))
    case ToolUseKind =>
      block.ToolUse? && block.id == start.id && block.name == start.name && IsInput(decode, start.json + Gathered(ds, JsonPart), block.input)
    case RedactedKind => false
  }

  /** Nothing is left of a redacted block, and of a text that is blank in the end. */
  predicate LeavesNothing(start: Draft, ds: seq<Delta>) {
    start.kind == RedactedKind || (start.kind == TextKind && Blank(start.text + Gathered(ds, TextPart)))
  }

  lemma KeptHolds(decode: string -> Option<Json>, start: Draft, ds: seq<Delta>)
    ensures var kept := Kept(decode, AllApplied(start, ds));
      if LeavesNothing(start, ds) then kept == [] else |kept| == 1 && Holds(decode, kept[0], start, ds)
  {
    hide AllApplied, Gathered, Blank, Strip;
    DraftHolds(start, ds);
  }

  /** The blocks are, in start order, one for each start that leaves something, at the positions `at`;
      each holds its start's content followed by its own deltas. */
  ghost predicate BlocksHold(decode: string -> Option<Json>, events: seq<Event>, starts: seq<(int, Draft)>, blocks: seq<Block>, at: seq<nat>) {
    && Picks(at, |starts|) && |blocks| == |at|
    && (forall p: nat | p < |starts| :: p in at <==> !LeavesNothing(starts[p].1, OwnDeltas(events, starts[p].0)))
    && (forall i :: 0 <= i < |at| ==> Holds(decode, blocks[i], starts[at[i]].1, OwnDeltas(events, starts[at[i]].0)))
  }

  lemma OneMoreStart(decode: string -> Option<Json>, events: seq<Event>, starts: seq<(int, Draft)>, last: (int, Draft),
                     blocks: seq<Block>, kept: seq<Block>, at: seq<nat>)
    requires BlocksHold(decode, events, starts, blocks, at)
    requires var ds := OwnDeltas(events, last.0);
      if LeavesNothing(last.1, ds) then kept == [] else |kept| == 1 && Holds(decode, kept[0], last.1, ds)
    ensures BlocksHold(decode, events, starts + [last], blocks + kept, if kept == [] then at else at + [|starts|])
  {
    hide Holds, LeavesNothing, OwnDeltas;
    var longer, more := starts + [last], if kept == [] then at else at + [|starts|];
    assert |starts| !in at;
    forall p: nat | p < |longer| ensures p in more <==> !LeavesNothing(longer[p].1, OwnDeltas(events, longer[p].0)) {
      if p < |starts| { assert longer[p] == starts[p]; }
    }
    forall i | 0 <= i < |more| ensures Holds(decode, (blocks + kept)[i], longer[more[i]].1, OwnDeltas(events, longer[more[i]].0)) {
      if i < |at| { assert more[i] == at[i] && longer[at[i]] == starts[at[i]]; }
    }
  }

  lemma {:induction false} AssembledHolds(decode: string -> Option<Json>, events: seq<Event>, starts: seq<(int, Draft)>) returns (at: seq<nat>)
    ensures BlocksHold(decode, events, starts, Assembled(decode, events, starts), at)
  {
    hide Holds, LeavesNothing, Kept, AllApplied, OwnDeltas;
    if starts == [] {
      at := [];
    } else {
      var before, last := starts[..|starts|-1], starts[|starts|-1];
      var earlier := AssembledHolds(decode, events, before);
      hide BlocksHold;
      var kept := Kept(decode, AllApplied(last.1, OwnDeltas(events, last.0)));
      KeptHolds(decode, last.1, OwnDeltas(events, last.0));
      OneMoreStart(decode, events, before, last, Assembled(decode, events, before), kept, earlier);
      at := if kept == [] then earlier else earlier + [|before|];
      assert before + [last] == starts;
    }
  }

  /** What a reply is made of, whatever the order its deltas arrive in. */
  lemma ReplyHolds(decode: string -> Option<Json>, events: seq<Event>) returns (at: seq<nat>)
    requires !Parsed(decode, events).Failed? && DistinctStarts(Starts(Heard(events)))
    ensures BlocksHold(decode, Heard(events), Starts(Heard(events)), Parsed(decode, events).blocks, at)
  {
    hide BlocksHold, Starts, Drafts, Heard, Assembled, Collected;
    AssemblyIsFilterAndFold(decode, Heard(events));
    at := AssembledHolds(decode, Heard(events), Starts(Heard(events)));
  }
}
