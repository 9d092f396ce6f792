/** Reading a session's log over SSE: streamSessionEvents in control-plane/src/session-sse.ts, and the
    reconnecting reader of python-client/devproof/resources.py. */
module EventStream {
  import opened Wrappers
  import opened Sessions
  import opened EventLog

  /** What a status frame shows: `detail` is the tokens, the model and the model's state. */
  datatype Shown = Shown(status: Status, detail: string)

  /** What one turn of the server's loop reads: the log as it stands, the session, None when it is
      gone, and whether a notification has come in meanwhile. */
  datatype Poll = Poll(log: seq<Row>, session: Option<Shown>, notified: bool)

  datatype Frame = Data(row: Row) | StatusFrame(shown: Shown) | KeepAlive | End

  /** Rows numbered above the cursor. */
  function RowsAfter(log: seq<Row>, cursor: nat): seq<Row> {
    if log == [] then []
    else RowsAfter(log[..|log|-1], cursor) + if log[|log|-1].number > cursor then [log[|log|-1]] else []
  }

  function Rows(frames: seq<Frame>): seq<Row> {
    if frames == [] then []
    else Rows(frames[..|frames|-1]) + if frames[|frames|-1].Data? then [frames[|frames|-1].row] else []
  }

  /** `out` is what follows row `cursor` of the log, for some way. */
  ghost predicate RunFrom(log: seq<Row>, cursor: nat, out: seq<Row>) {
    out == [] || (cursor + |out| <= |log| && out == log[cursor..cursor+|out|])
  }

  lemma {:induction false} RowsAfterIsSuffix(log: seq<Row>, cursor: nat)
    requires ValidLog(log)
    ensures RowsAfter(log, cursor) == if cursor <= |log| then log[cursor..] else []
  {
    if log != [] {
      var rest := log[..|log|-1];
      PrefixIsValid(log, rest);
      RowsAfterIsSuffix(rest, cursor);
      assert log[|log|-1].number == |log| && log == rest + [log[|log|-1]];
      hide ValidLog;
      if cursor < |log| {
        assert log[cursor..] == rest[cursor..] + [log[|log|-1]];
      }
    }
  }

  lemma RunsJoin(log: seq<Row>, cursor: nat, a: seq<Row>, b: seq<Row>)
    requires RunFrom(log, cursor, a) && RunFrom(log, cursor + |a|, b)
    ensures RunFrom(log, cursor, a + b)
  {
  }

  lemma RunsCut(log: seq<Row>, cursor: nat, out: seq<Row>, k: nat)
    requires RunFrom(log, cursor, out) && k <= |out|
    ensures RunFrom(log, cursor, out[..k])
  {
  }

  lemma RowsSnoc(frames: seq<Frame>, f: Frame)
    ensures Rows(frames + [f]) == if f.Data? then Rows(frames) + [f.row] else Rows(frames)
  {
    assert (frames + [f])[..|frames|] == frames;
  }

  lemma {:induction false} RowsConcat(a: seq<Frame>, b: seq<Frame>)
    ensures Rows(a + b) == Rows(a) + Rows(b)
  {
    if b == [] {
      assert a + b == a;
    } else {
      RowsConcat(a, b[..|b|-1]);
      assert (a + b)[..|a+b|-1] == a + b[..|b|-1];
    }
  }

  lemma {:induction false} RowsOfPrefix(frames: seq<Frame>, k: nat)
    requires k <= |frames|
    ensures |Rows(frames[..k])| <= |Rows(frames)| && Rows(frames[..k]) == Rows(frames)[..|Rows(frames[..k])|]
  {
    assert frames == frames[..k] + frames[k..];
    RowsConcat(frames[..k], frames[k..]);
  }

  /** Every poll sees the log at some earlier length. */
  ghost predicate Snapshots(log: seq<Row>, polls: seq<Poll>) { forall p <- polls :: p.log <= log }

  lemma PrefixIsValid(log: seq<Row>, shorter: seq<Row>)
    requires ValidLog(log) && shorter <= log
    ensures ValidLog(shorter)
  {
  }

  predicate Terminal(console: bool, session: Option<Shown>) {
    session.None? || session.value.status == Completed || (!console && session.value.status == Failed)
  }

  // ---------------------------------------------------------------------------------------
  // The server

  function DataFrames(rows: seq<Row>): seq<Frame> {
    if rows == [] then [] else DataFrames(rows[..|rows|-1]) + [Data(rows[|rows|-1])]
  }

  /** The cursor after writing these rows: the number of the last one. */
  function Moved(cursor: nat, rows: seq<Row>): nat { if rows == [] then cursor else rows[|rows|-1].number }

  /** A status frame when anything it shows has changed. */
  function StatusFrames(session: Option<Shown>, shown: Option<Shown>): seq<Frame> {
    if session.Some? && session != shown then [StatusFrame(session.value)] else []
  }

  /** A keep-alive, unless the log has already changed again. */
  function Pause(poll: Poll): seq<Frame> { if poll.notified then [] else [KeepAlive] }

  /** What one poll writes, short of the end frame. */
  function PollFrames(poll: Poll, cursor: nat, shown: Option<Shown>): seq<Frame> {
    DataFrames(RowsAfter(poll.log, cursor)) + StatusFrames(poll.session, shown)
  }

  /** Everything written over a connection that asked for what follows `cursor`. */
  function Written(polls: seq<Poll>, console: bool, cursor: nat, shown: Option<Shown>): seq<Frame> {
    if polls == [] then []
    else
      var poll := polls[0];
      PollFrames(poll, cursor, shown)
      + if Terminal(console, poll.session) then [End]
        else Pause(poll) + Written(polls[1..], console, Moved(cursor, RowsAfter(poll.log, cursor)), poll.session)
  }

  lemma WrittenNext(polls: seq<Poll>, n: nat, console: bool, cursor: nat, shown: Option<Shown>, sofar: seq<Frame>)
    requires n < |polls|
    ensures var poll := polls[n];
            sofar + Written(polls[n..], console, cursor, shown)
            == if Terminal(console, poll.session) then sofar + PollFrames(poll, cursor, shown) + [End]
               else sofar + PollFrames(poll, cursor, shown) + Pause(poll)
                    + Written(polls[n+1..], console, Moved(cursor, RowsAfter(poll.log, cursor)), poll.session)
  {
    hide PollFrames, Terminal, Moved, RowsAfter;
    assert polls[n..][0] == polls[n] && polls[n..][1..] == polls[n+1..];
  }

  /** Rows, then a changed status, then `end` on a terminal one; until the reader is gone. */
  method StreamSession(polls: seq<Poll>, console: bool, after: nat) returns (frames: seq<Frame>)
    ensures frames == Written(polls, console, after, None)
  {
    hide Written, PollFrames, RowsAfter, Moved, Terminal;
    frames := [];
    var cursor, n := after, 0;
    var lastShown: Option<Shown> := None;
    assert polls[0..] == polls;
    while n < |polls|
      invariant n <= |polls|
      invariant frames + Written(polls[n..], console, cursor, lastShown) == Written(polls, console, after, None)
    {
      var poll := polls[n];
      WrittenNext(polls, n, console, cursor, lastShown, frames);
      frames, cursor := ServePoll(poll, frames, cursor, lastShown);
      lastShown := poll.session;
      if Terminal(console, poll.session) {
        frames := frames + [End];
        return;
      }
      if !poll.notified {
        frames := frames + [KeepAlive];
      }
      n := n + 1;
    }
    NothingWritten(console, cursor, lastShown);
    assert polls[n..] == [] && frames + [] == frames;
  }

  lemma NothingWritten(console: bool, cursor: nat, shown: Option<Shown>)
    ensures Written([], console, cursor, shown) == []
  {
  }

  /** The rows of one poll, and its status if that has changed. */
  method ServePoll(poll: Poll, frames: seq<Frame>, cursor: nat, lastShown: Option<Shown>) returns (out: seq<Frame>, cursor': nat)
    ensures out == frames + PollFrames(poll, cursor, lastShown)
    ensures cursor' == Moved(cursor, RowsAfter(poll.log, cursor))
  {
    hide RowsAfter, Moved, DataFrames;
    out, cursor' := WriteRows(poll.log, frames, cursor);
    if poll.session.Some? && poll.session != lastShown {
      out := out + [StatusFrame(poll.session.value)];
    }
  }

  /** Writes the rows after the cursor and moves the cursor along. */
  method WriteRows(log: seq<Row>, frames: seq<Frame>, cursor: nat) returns (out: seq<Frame>, cursor': nat)
    ensures out == frames + DataFrames(RowsAfter(log, cursor))
    ensures cursor' == Moved(cursor, RowsAfter(log, cursor))
  {
    hide RowsAfter;
    var rows := RowsAfter(log, cursor);
    out, cursor' := frames, cursor;
    for i := 0 to |rows|
      invariant out == frames + DataFrames(rows[..i]) && cursor' == Moved(cursor, rows[..i])
    {
      assert rows[..i+1][..i] == rows[..i];
      cursor' := rows[i].number;
      out := out + [Data(rows[i])];
    }
    assert rows[..|rows|] == rows;
  }

  // ---------------------------------------------------------------------------------------
  // What a connection carries

  /** The polls that are served: up to the first terminal one. */
  function ServedPolls(polls: seq<Poll>, console: bool): seq<Poll> {
    if polls == [] then []
    else [polls[0]] + if Terminal(console, polls[0].session) then [] else ServedPolls(polls[1..], console)
  }

  lemma {:induction false} RowsOfData(rows: seq<Row>)
    ensures Rows(DataFrames(rows)) == rows
  {
    if rows != [] {
      RowsOfData(rows[..|rows|-1]);
      RowsSnoc(DataFrames(rows[..|rows|-1]), Data(rows[|rows|-1]));
    }
  }

  lemma NoRows(f: Frame)
    requires !f.Data?
    ensures Rows([f]) == []
  {
    assert [f][..0] == [];
  }

  lemma NoRowsInPause(poll: Poll)
    ensures Rows(Pause(poll)) == []
  {
    NoRows(KeepAlive);
  }

  lemma RowsOfPoll(poll: Poll, cursor: nat, shown: Option<Shown>)
    ensures Rows(PollFrames(poll, cursor, shown)) == RowsAfter(poll.log, cursor)
  {
    hide RowsAfter, Rows;
    var rows := RowsAfter(poll.log, cursor);
    RowsOfData(rows);
    RowsConcat(DataFrames(rows), StatusFrames(poll.session, shown));
    EmptyRows();
    if poll.session.Some? { NoRows(StatusFrame(poll.session.value)); }
  }

  lemma EmptyRows()
    ensures Rows([]) == []
  {
  }

  /** What a snapshot holds beyond the cursor is a run of the log and reaches the snapshot's end. */
  lemma SuffixRuns(log: seq<Row>, snapshot: seq<Row>, cursor: nat)
    requires ValidLog(log) && snapshot <= log
    ensures RunFrom(log, cursor, RowsAfter(snapshot, cursor))
    ensures Moved(cursor, RowsAfter(snapshot, cursor)) == cursor + |RowsAfter(snapshot, cursor)|
    ensures cursor + |RowsAfter(snapshot, cursor)| >= |snapshot|
  {
    PrefixIsValid(log, snapshot);
    RowsAfterIsSuffix(snapshot, cursor);
  }

  /** The rows written follow the cursor without a gap or a repeat, and reach as far as every poll
      served saw. */
  lemma {:induction false} WrittenRuns(log: seq<Row>, polls: seq<Poll>, console: bool, cursor: nat, shown: Option<Shown>)
    requires ValidLog(log) && Snapshots(log, polls)
    ensures var rows := Rows(Written(polls, console, cursor, shown));
            RunFrom(log, cursor, rows) && forall p <- ServedPolls(polls, console) :: cursor + |rows| >= |p.log|
    decreases |polls|
  {
    hide RowsAfter, Rows, RunFrom, Terminal, Moved, PollFrames, Pause;
    EmptyRows();
    EmptyRun(log, cursor);
    if polls != [] {
      var poll, rest := polls[0], polls[1..];
      var rows := RowsAfter(poll.log, cursor);
      SuffixRuns(log, poll.log, cursor);
      RowsOfPoll(poll, cursor, shown);
      if Terminal(console, poll.session) {
        RowsConcat(PollFrames(poll, cursor, shown), [End]);
        NoRows(End);
        assert rows + [] == rows;
      } else {
        var later := Written(rest, console, cursor + |rows|, poll.session);
        WrittenRuns(log, rest, console, cursor + |rows|, poll.session);
        RowsConcat(Pause(poll), later);
        NoRowsInPause(poll);
        assert [] + Rows(later) == Rows(later);
        RowsConcat(PollFrames(poll, cursor, shown), Pause(poll) + later);
        RunsJoin(log, cursor, rows, Rows(later));
      }
    }
  }

  lemma EmptyRun(log: seq<Row>, cursor: nat)
    ensures RunFrom(log, cursor, [])
  {
  }

  lemma {:induction false} DataHasNoEnd(rows: seq<Row>)
    ensures End !in DataFrames(rows)
  {
    if rows != [] { DataHasNoEnd(rows[..|rows|-1]); }
  }

  lemma PollHasNoEnd(poll: Poll, cursor: nat, shown: Option<Shown>)
    ensures End !in PollFrames(poll, cursor, shown) + Pause(poll)
  {
    hide RowsAfter, DataFrames;
    DataHasNoEnd(RowsAfter(poll.log, cursor));
  }

  lemma {:induction false} EndAtTerminal(polls: seq<Poll>, console: bool, cursor: nat, shown: Option<Shown>)
    ensures var frames := Written(polls, console, cursor, shown);
            && (End in frames <==> exists p <- polls :: Terminal(console, p.session))
            && (End in frames ==> frames[|frames|-1] == End)
    decreases |polls|
  {
    hide RowsAfter, Terminal, Moved, PollFrames, Pause;
    if polls != [] {
      var poll := polls[0];
      PollHasNoEnd(poll, cursor, shown);
      var frames := Written(polls, console, cursor, shown);
      assert Terminal(console, poll.session) ==> frames == PollFrames(poll, cursor, shown) + [End];
      EndAtTerminal(polls[1..], console, Moved(cursor, RowsAfter(poll.log, cursor)), poll.session);
      assert polls == [poll] + polls[1..];
    }
  }

  /** `end` comes exactly when a poll finds the session gone, completed, or for the public failed; and
      nothing comes after it. */
  lemma EndIffTerminal(polls: seq<Poll>, console: bool, cursor: nat, shown: Option<Shown>)
    ensures var frames := Written(polls, console, cursor, shown);
            && (End in frames <==> exists p <- polls ::
                  p.session.None? || p.session.value.status == Completed || (!console && p.session.value.status == Failed))
            && (End in frames ==> frames[|frames|-1] == End)
  {
    EndAtTerminal(polls, console, cursor, shown);
    hide Written;
  }

  /** The status frames, in order. */
  function Statuses(frames: seq<Frame>): seq<Shown> {
    if frames == [] then []
    else Statuses(frames[..|frames|-1]) + if frames[|frames|-1].StatusFrame? then [frames[|frames|-1].shown] else []
  }

  /** The session as the polls read it, where it is there and differs from what was read before. */
  function Changes(polls: seq<Poll>, before: Option<Shown>): seq<Shown> {
    if polls == [] then []
    else
      (if polls[0].session.Some? && polls[0].session != before then [polls[0].session.value] else [])
      + Changes(polls[1..], polls[0].session)
  }

  lemma StatusesSnoc(frames: seq<Frame>, f: Frame)
    ensures Statuses(frames + [f]) == Statuses(frames) + if f.StatusFrame? then [f.shown] else []
  {
    assert (frames + [f])[..|frames|] == frames;
  }

  lemma {:induction false} StatusesConcat(a: seq<Frame>, b: seq<Frame>)
    ensures Statuses(a + b) == Statuses(a) + Statuses(b)
  {
    if b == [] {
      assert a + b == a;
    } else {
      StatusesConcat(a, b[..|b|-1]);
      assert (a + b)[..|a+b|-1] == a + b[..|b|-1];
    }
  }

  lemma {:induction false} DataShowsNothing(rows: seq<Row>)
    ensures Statuses(DataFrames(rows)) == []
  {
    if rows != [] {
      DataShowsNothing(rows[..|rows|-1]);
      StatusesSnoc(DataFrames(rows[..|rows|-1]), Data(rows[|rows|-1]));
    }
  }

  lemma OneFrameShows(f: Frame)
    ensures Statuses([f]) == (if f.StatusFrame? then [f.shown] else []) && Statuses([]) == []
  {
    assert [f][..0] == [];
  }

  lemma PollShows(poll: Poll, cursor: nat, shown: Option<Shown>)
    ensures Statuses(PollFrames(poll, cursor, shown)) == if poll.session.Some? && poll.session != shown then [poll.session.value] else []
    ensures Statuses(Pause(poll)) == [] && Statuses([End]) == []
  {
    hide RowsAfter, Statuses;
    var rows := RowsAfter(poll.log, cursor);
    DataShowsNothing(rows);
    StatusesConcat(DataFrames(rows), StatusFrames(poll.session, shown));
    OneFrameShows(KeepAlive);
    OneFrameShows(End);
    if poll.session.Some? { OneFrameShows(StatusFrame(poll.session.value)); }
  }

  lemma ChangesNext(polls: seq<Poll>, console: bool, shown: Option<Shown>)
    requires polls != []
    ensures var poll := polls[0];
      Changes(ServedPolls(polls, console), shown)
      == (if poll.session.Some? && poll.session != shown then [poll.session.value] else [])
         + if Terminal(console, poll.session) then [] else Changes(ServedPolls(polls[1..], console), poll.session)
  {
    hide Terminal;
    var served := ServedPolls(polls, console);
    assert served[0] == polls[0];
    assert served[1..] == if Terminal(console, polls[0].session) then [] else ServedPolls(polls[1..], console);
  }

  lemma ShownNext(polls: seq<Poll>, console: bool, cursor: nat, shown: Option<Shown>)
    requires polls != []
    ensures var poll := polls[0];
      Statuses(Written(polls, console, cursor, shown))
      == (if poll.session.Some? && poll.session != shown then [poll.session.value] else [])
         + if Terminal(console, poll.session) then []
           else Statuses(Written(polls[1..], console, Moved(cursor, RowsAfter(poll.log, cursor)), poll.session))
  {
    hide RowsAfter, Statuses, Terminal, Moved, PollFrames, Pause;
    var poll := polls[0];
    PollShows(poll, cursor, shown);
    if Terminal(console, poll.session) {
      StatusesConcat(PollFrames(poll, cursor, shown), [End]);
    } else {
      var later := Written(polls[1..], console, Moved(cursor, RowsAfter(poll.log, cursor)), poll.session);
      StatusesConcat(Pause(poll), later);
      StatusesConcat(PollFrames(poll, cursor, shown), Pause(poll) + later);
    }
  }

  /** A status frame is written exactly where the session has changed since the poll before. */
  lemma {:induction false} StatusesAreChanges(polls: seq<Poll>, console: bool, cursor: nat, shown: Option<Shown>)
    ensures Statuses(Written(polls, console, cursor, shown)) == Changes(ServedPolls(polls, console), shown)
    decreases |polls|
  {
    hide RowsAfter, Statuses, Terminal, Moved, Written, Changes, ServedPolls;
    if polls == [] {
      NothingShown(console, cursor, shown);
    } else {
      var poll, rest := polls[0], polls[1..];
      ShownNext(polls, console, cursor, shown);
      ChangesNext(polls, console, shown);
      StatusesAreChanges(rest, console, Moved(cursor, RowsAfter(poll.log, cursor)), poll.session);
    }
  }

  lemma NothingShown(console: bool, cursor: nat, shown: Option<Shown>)
    ensures Statuses(Written([], console, cursor, shown)) == [] == Changes(ServedPolls([], console), shown)
  {
  }

  // ---------------------------------------------------------------------------------------
  // The reconnecting reader

  /** One connection: the frames that got through, and whether the line then broke (rather than the
      response ending). */
  datatype Connection = Connection(received: seq<Frame>, broken: bool)

  /** The rows of the connections, one after the other. */
  function AllRows(connections: seq<Connection>): seq<Row> {
    if connections == [] then []
    else AllRows(connections[..|connections|-1]) + Rows(connections[|connections|-1].received)
  }

  function Max(a: nat, b: nat): nat { if a >= b then a else b }

  /** The greatest number seen: where the next connection asks from. */
  function Seen(after: nat, rows: seq<Row>): nat {
    if rows == [] then after else Max(Seen(after, rows[..|rows|-1]), rows[|rows|-1].number)
  }

  /** Something the reader notices: a row or a status, not a keep-alive. */
  predicate Heard(received: seq<Frame>) { exists f <- received :: f.Data? || f.StatusFrame? }

  /** Breaks since something was last heard. */
  function Failures(connections: seq<Connection>): nat {
    if connections == [] then 0
    else
      var c := connections[|connections|-1];
      (if Heard(c.received) then 0 else Failures(connections[..|connections|-1])) + if c.broken then 1 else 0
  }

  datatype Ending = Finished | GaveUp | StillReading

  function EndingOf(connections: seq<Connection>): Ending {
    if connections == [] then StillReading
    else if !connections[|connections|-1].broken then Finished
    else if Failures(connections) > 5 then GaveUp
    else StillReading
  }

  /** Reads connection after connection until the response ends or there have been too many failures;
      yields every row received, in order. */
  method Read(after: nat, connections: seq<Connection>) returns (out: seq<Row>, last: nat, ending: Ending, read: nat)
    ensures read <= |connections| && out == AllRows(connections[..read]) && last == Seen(after, out)
    ensures ending == EndingOf(connections[..read])
    ensures ending == StillReading ==> read == |connections|
    ensures forall k :: 0 <= k < read ==> EndingOf(connections[..k]) == StillReading
  {
    hide Rows, Seen;
    NothingSeen(after);
    out, last, ending, read := [], after, StillReading, 0;
    var failures := 0;
    while read < |connections| && ending == StillReading
      invariant read <= |connections| && out == AllRows(connections[..read]) && last == Seen(after, out)
      invariant ending == EndingOf(connections[..read])
      invariant ending == StillReading ==> failures == Failures(connections[..read])
      invariant forall k :: 0 <= k < read ==> EndingOf(connections[..k]) == StillReading
    {
      var c := connections[read];
      assert connections[..read+1][..read] == connections[..read];
      out, last, failures := ReadFrames(c.received, out, last, failures, after);
      read := read + 1;
      if !c.broken {
        ending := Finished;
      } else {
        failures := failures + 1;
        ending := if failures > 5 then GaveUp else StillReading;
      }
    }
  }

  lemma NothingSeen(after: nat)
    ensures Seen(after, []) == after && AllRows([]) == []
  {
  }

  lemma SeenSnoc(after: nat, rows: seq<Row>, row: Row)
    ensures Seen(after, rows + [row]) == Max(Seen(after, rows), row.number)
  {
    assert (rows + [row])[..|rows|] == rows;
  }

  lemma NothingHeard()
    ensures !Heard([])
  {
  }

  lemma HeardNext(received: seq<Frame>, k: nat)
    requires k < |received|
    ensures Heard(received[..k+1]) <==> Heard(received[..k]) || received[k].Data? || received[k].StatusFrame?
  {
    assert received[..k+1] == received[..k] + [received[k]];
    if Heard(received[..k]) {
      var f :| f in received[..k] && (f.Data? || f.StatusFrame?);
      assert f in received[..k+1];
    } else if received[k].Data? || received[k].StatusFrame? {
      assert received[k] in received[..k+1];
    }
  }

  /** The frames of one connection; any row or status clears the count of failures. */
  method ReadFrames(received: seq<Frame>, sofar: seq<Row>, cursor: nat, failed: nat, ghost after: nat)
    returns (out: seq<Row>, last: nat, failures: nat)
    requires cursor == Seen(after, sofar)
    ensures out == sofar + Rows(received) && last == Seen(after, out)
    ensures failures == if Heard(received) then 0 else failed
  {
    hide Rows, Seen, Heard;
    EmptyRows();
    NothingHeard();
    out, last, failures := sofar, cursor, failed;
    for k := 0 to |received|
      invariant out == sofar + Rows(received[..k]) && last == Seen(after, out)
      invariant failures == if Heard(received[..k]) then 0 else failed
    {
      if received[k].Data? || received[k].StatusFrame? {
        failures := 0;
      }
      HeardNext(received, k);
      assert received[..k+1] == received[..k] + [received[k]];
      RowsSnoc(received[..k], received[k]);
      if received[k].Data? {
        SeenSnoc(after, out, received[k].row);
        last := Max(last, received[k].row.number);
        out := out + [received[k].row];
      }
    }
    assert received[..|received|] == received;
  }

  /** Six broken connections in a row, nothing heard on the last five. */
  predicate SixBreaks(connections: seq<Connection>) {
    && |connections| >= 6
    && (forall c <- connections[|connections|-6..] :: c.broken)
    && Silent(connections, 5)
  }

  /** Nothing was heard on the last `n`. */
  predicate Silent(connections: seq<Connection>, n: nat)
    requires n <= |connections|
  {
    forall c <- connections[|connections|-n..] :: !Heard(c.received)
  }

  lemma SilentSnoc(connections: seq<Connection>, n: nat)
    requires 1 <= n <= |connections|
    ensures Silent(connections, n)
            <==> !Heard(connections[|connections|-1].received) && Silent(connections[..|connections|-1], n - 1)
  {
    hide Heard;
    var rest, last := connections[..|connections|-1], connections[|connections|-1];
    assert connections[|connections|-n..] == rest[|rest|-(n-1)..] + [last];
  }

  lemma {:induction false} FailuresAre(connections: seq<Connection>, n: nat)
    requires n >= 1 && forall c <- connections :: c.broken
    ensures Failures(connections) >= n <==> |connections| >= n && Silent(connections, n - 1)
    decreases n
  {
    hide Heard, Silent;
    if connections != [] {
      var rest, last := connections[..|connections|-1], connections[|connections|-1];
      assert connections == rest + [last];
      if n == 1 {
        NoneIsSilent(connections);
      } else {
        FailuresAre(rest, n - 1);
        if |connections| >= n { SilentSnoc(connections, n - 1); }
      }
    }
  }

  lemma NoneIsSilent(connections: seq<Connection>)
    ensures Silent(connections, 0)
  {
  }

  /** The reader, all of whose connections so far broke, gives up exactly after six breaks of which
      the last five brought neither a row nor a status. */
  lemma GivesUpIff(connections: seq<Connection>)
    requires forall c <- connections :: c.broken
    ensures EndingOf(connections) == GaveUp <==> SixBreaks(connections)
  {
    FailuresAre(connections, 6);
    if |connections| >= 6 {
      assert forall c <- connections[|connections|-6..] :: c in connections;
    }
  }

  // ---------------------------------------------------------------------------------------
  // End to end

  /** One visit to the server: what its loop reads, how many frames get through, and whether the line
      breaks when all did and none was `end`. */
  datatype Visit = Visit(polls: seq<Poll>, cut: nat, drops: bool)

  function Through(v: Visit, cursor: nat): Connection {
    var frames := Written(v.polls, false, cursor, None);
    if v.cut < |frames| then Connection(frames[..v.cut], true)
    else Connection(frames, v.drops && End !in frames)
  }

  /** Each connection carries what the server writes to a reader standing where this one then does. */
  ghost predicate Carried(after: nat, visits: seq<Visit>, connections: seq<Connection>) {
    && |visits| == |connections|
    && forall i :: 0 <= i < |visits| ==> connections[i] == Through(visits[i], Seen(after, AllRows(connections[..i])))
  }

  lemma {:induction false} SeenOfRun(log: seq<Row>, after: nat, out: seq<Row>)
    requires ValidLog(log) && RunFrom(log, after, out)
    ensures Seen(after, out) == after + |out|
  {
    if out != [] {
      var rest := out[..|out|-1];
      RunsCut(log, after, out, |rest|);
      SeenOfRun(log, after, rest);
      assert out[|out|-1] == log[after + |rest|];
    }
  }

  lemma ThroughRuns(log: seq<Row>, v: Visit, cursor: nat)
    requires ValidLog(log) && Snapshots(log, v.polls)
    ensures RunFrom(log, cursor, Rows(Through(v, cursor).received))
    ensures !Through(v, cursor).broken ==>
              forall p <- ServedPolls(v.polls, false) :: cursor + |Rows(Through(v, cursor).received)| >= |p.log|
  {
    hide RunFrom, Rows, Written, ServedPolls;
    var frames := Written(v.polls, false, cursor, None);
    WrittenRuns(log, v.polls, false, cursor, None);
    if v.cut < |frames| {
      RowsOfPrefix(frames, v.cut);
      RunsCut(log, cursor, Rows(frames), |Rows(frames[..v.cut])|);
    }
  }

  /** However often the line breaks and wherever, the rows the reader yields are a contiguous,
      duplicate-free run of the log from its start cursor, and when a response ends they reach as far
      as the server saw while serving it. */
  lemma {:induction false} ReaderYieldsARun(log: seq<Row>, after: nat, visits: seq<Visit>, connections: seq<Connection>, read: nat)
    requires ValidLog(log) && (forall v <- visits :: Snapshots(log, v.polls))
    requires Carried(after, visits, connections) && read <= |connections|
    ensures var out := AllRows(connections[..read]);
      && RunFrom(log, after, out) && Seen(after, out) == after + |out|
      && (read > 0 && !connections[read-1].broken ==>
            forall p <- ServedPolls(visits[read-1].polls, false) :: after + |out| >= |p.log|)
  {
    hide RunFrom, Rows, Seen, Through, ServedPolls;
    if read == 0 {
      EmptyRun(log, after);
      NothingSeen(after);
    } else {
      var before := AllRows(connections[..read-1]);
      ReaderYieldsARun(log, after, visits, connections, read - 1);
      assert connections[..read][..read-1] == connections[..read-1];
      assert visits[read-1] in visits;
      ThroughRuns(log, visits[read-1], after + |before|);
      RunsJoin(log, after, before, Rows(connections[read-1].received));
      SeenOfRun(log, after, AllRows(connections[..read]));
    }
  }
}
