/** The streaming exec from end to end: two reader loops that share one stream of lines (cmd/sandboxd/main.go), and the
    two clients that read it, one from transport chunks (sdk/typescript/src/commands.ts), one with a line scanner
    (internal/client/client.go). */
module ExecStream {
  import opened Wrappers
  import opened Json
  import opened ExecEvents

  // --- lines ---

  function Join(chunks: seq<string>): string {
    if chunks == [] then "" else chunks[0] + Join(chunks[1..])
  }

  /** Where the first line ends; the length of the text when there is no line end. */
  function LineEnd(s: string): (k: nat)
    ensures k <= |s| && (k < |s| ==> s[k] == '\n') && forall i | 0 <= i < k :: s[i] != '\n'
  {
    if s == "" || s[0] == '\n' then 0 else 1 + LineEnd(s[1..])
  }

  /** The lines of a text, the unterminated tail last. */
  function Lines(s: string): seq<string>
    decreases |s|
  {
    var k := LineEnd(s);
    if k == |s| then [s] else [s[..k]] + Lines(s[k + 1..])
  }

  lemma LineEndIs(s: string, k: nat)
    requires k <= |s| && (k < |s| ==> s[k] == '\n') && forall i | 0 <= i < k :: s[i] != '\n'
    ensures LineEnd(s) == k
  {
    assert k < |s| ==> s[k] == '\n';
  }

  // --- what reading a stream means ---

  /** Reading goes on with the events seen so far, or has been broken off. */
  datatype Progress = Going(events: seq<ExecEvent>) | Malformed | TooLong

  const START := Going([])

  /** One line; a limit is what the line scanner can hold. */
  function Feed(p: Progress, line: string, limit: Option<nat>): Progress {
    if !p.Going? then p else
    if limit.Some? && Bytes(line) >= limit.value then TooLong else
    if Trim(line) == "" then p else
    var ev := Decode(Trim(line));
    if ev.None? then Malformed else Going(p.events + [ev.value])
  }

  function FeedAll(p: Progress, lines: seq<string>, limit: Option<nat>): Progress
    decreases |lines|
  {
    if lines == [] then p else FeedAll(Feed(p, lines[0], limit), lines[1..], limit)
  }

  lemma {:induction false} BrokenOff(p: Progress, lines: seq<string>, limit: Option<nat>)
    requires !p.Going?
    ensures FeedAll(p, lines, limit) == p
    decreases |lines|
  {
    if lines != [] {
      BrokenOff(p, lines[1..], limit);
    }
  }

  function Datas(events: seq<ExecEvent>, typ: string): seq<string> {
    if events == [] then []
    else Datas(events[..|events| - 1], typ) + if events[|events| - 1].typ == typ then [events[|events| - 1].data] else []
  }

  function LastExit(events: seq<ExecEvent>): Option<ExecEvent> {
    if events == [] then None
    else if events[|events| - 1].typ == EXIT then Some(events[|events| - 1])
    else LastExit(events[..|events| - 1])
  }

  /** Of several exit events the last one counts. */
  lemma {:induction false} LastExitCounts(events: seq<ExecEvent>)
    ensures match LastExit(events)
            case None => forall i | 0 <= i < |events| :: events[i].typ != EXIT
            case Some(x) =>
              exists i :: 0 <= i < |events| && events[i] == x && x.typ == EXIT
                          && forall j | i < j < |events| :: events[j].typ != EXIT
  {
    if events != [] && events[|events| - 1].typ != EXIT {
      var front := events[..|events| - 1];
      LastExitCounts(front);
      if LastExit(front).Some? {
        var i :| 0 <= i < |front| && front[i] == LastExit(front).value && forall j | i < j < |front| :: front[j].typ != EXIT;
        assert events[i] == LastExit(events).value;
      }
    }
  }

  datatype ExecResult = ExecResult(stdout: string, stderr: string, exitCode: int, timedOut: bool, durationMs: int)

  datatype StreamError = BadEvent | LineTooLong | NoExit

  function Outcome(p: Progress): Result<ExecResult, StreamError> {
    match p
    case Malformed => Err(BadEvent)
    case TooLong => Err(LineTooLong)
    case Going(events) =>
      var exit := LastExit(events);
      if exit.None? then Err(NoExit)
      else Ok(ExecResult(Join(Datas(events, STDOUT)), Join(Datas(events, STDERR)), exit.value.exitCode,
                         exit.value.timedOut, exit.value.durationMs))
  }

  lemma {:induction false} JoinAppend(a: seq<string>, b: seq<string>)
    ensures Join(a + b) == Join(a) + Join(b)
  {
    if a == [] {
      assert a + b == b;
    } else {
      assert (a + b)[1..] == a[1..] + b;
      JoinAppend(a[1..], b);
    }
  }

  lemma OneMoreEvent(events: seq<ExecEvent>, ev: ExecEvent)
    ensures forall typ :: Join(Datas(events + [ev], typ)) == Join(Datas(events, typ)) + if ev.typ == typ then ev.data else ""
    ensures LastExit(events + [ev]) == if ev.typ == EXIT then Some(ev) else LastExit(events)
  {
    assert (events + [ev])[..|events|] == events;
    forall typ ensures Join(Datas(events + [ev], typ)) == Join(Datas(events, typ)) + if ev.typ == typ then ev.data else "" {
      JoinAppend(Datas(events, typ), [ev.data]);
      assert [ev.data][1..] == [];
      assert Datas(events, typ) + [] == Datas(events, typ);
    }
  }

  // --- the TypeScript client ---

  /** What the event handler accumulates. */
  class Accumulator {
    var stdout: string
    var stderr: string
    var exit: Option<ExecEvent>
    ghost var events: seq<ExecEvent>

    ghost predicate Valid()
      reads this
    {
      stdout == Join(Datas(events, STDOUT)) && stderr == Join(Datas(events, STDERR)) && exit == LastExit(events)
    }

    constructor ()
      ensures Valid() && events == []
    {
      stdout, stderr, exit, events := "", "", None, [];
    }

    method HandleEvent(ev: ExecEvent)
      requires Valid()
      modifies this
      ensures Valid() && events == old(events) + [ev]
    {
      OneMoreEvent(events, ev);
      if ev.typ == STDOUT {
        stdout := stdout + ev.data;
      } else if ev.typ == STDERR {
        stderr := stderr + ev.data;
      } else if ev.typ == EXIT {
        exit := Some(ev);
      }
      events := events + [ev];
    }

    method Finish() returns (r: Result<ExecResult, StreamError>)
      requires Valid()
      ensures r == Outcome(Going(events))
    {
      if exit.None? {
        return Err(NoExit);
      }
      return Ok(ExecResult(stdout, stderr, exit.value.exitCode, exit.value.timedOut, exit.value.durationMs));
    }
  }

  /** The body arrives in chunks that may end anywhere; a partial line is carried over to the next chunk. */
  method RunStreaming(chunks: seq<string>) returns (r: Result<ExecResult, StreamError>)
    ensures r == Outcome(FeedAll(START, Lines(Join(chunks)), None))
  {
    hide Trim, Decode, Outcome, Bytes;
    ghost var whole := FeedAll(START, Lines(Join(chunks)), None);
    var acc := new Accumulator();
    var buffer := "";
    var i := 0;
    assert "" + Join(chunks[0..]) == Join(chunks);
    while i < |chunks|
      invariant 0 <= i <= |chunks| && fresh(acc) && acc.Valid()
      invariant LineEnd(buffer) == |buffer|
      invariant whole == FeedAll(Going(acc.events), Lines(buffer + Join(chunks[i..])), None)
    {
      ghost var rest := Join(chunks[i + 1..]);
      assert buffer + Join(chunks[i..]) == buffer + chunks[i] + rest;
      buffer := buffer + chunks[i];
      var nl := LineEnd(buffer);
      while nl < |buffer|
        invariant nl == LineEnd(buffer) && fresh(acc) && acc.Valid()
        invariant whole == FeedAll(Going(acc.events), Lines(buffer + rest), None)
        decreases |buffer|
      {
        FirstLine(buffer, rest, nl);
        var line := Trim(buffer[..nl]);
        ghost var before := Going(acc.events);
        buffer := buffer[nl + 1..];
        if line != "" {
          var ev := Decode(line);
          if ev.None? {
            BrokenOff(Malformed, Lines(buffer + rest), None);
            return BadEventError();
          }
          acc.HandleEvent(ev.value);
        }
        nl := LineEnd(buffer);
      }
      i := i + 1;
    }
    assert buffer + Join(chunks[i..]) == buffer;
    assert Lines(buffer) == [buffer];
    assert whole == Feed(Going(acc.events), buffer, None);
    var tail := Trim(buffer);
    if tail != "" {
      var ev := Decode(tail);
      if ev.None? {
        return BadEventError();
      }
      acc.HandleEvent(ev.value);
    }
    r := acc.Finish();
  }

  function BadEventError(): (r: Result<ExecResult, StreamError>)
    ensures r == Outcome(Malformed)
  {
    Err(BadEvent)
  }

  /** A line end within the buffer ends the first line of everything that is still to come. */
  lemma FirstLine(buffer: string, rest: string, nl: nat)
    requires nl == LineEnd(buffer) < |buffer|
    ensures Lines(buffer + rest) == [buffer[..nl]] + Lines(buffer[nl + 1..] + rest)
  {
    var s := buffer + rest;
    LineEndIs(s, nl);
    assert s[..nl] == buffer[..nl];
    assert s[nl + 1..] == buffer[nl + 1..] + rest;
  }

  // --- the Go client ---

  /** The scanner gives up at a line that does not fit its buffer. */
  method ScanStream(stream: string) returns (r: Result<ExecResult, StreamError>)
    ensures r == Outcome(FeedAll(START, Lines(stream), Some(MAX_LINE)))
  {
    hide Trim, Decode, Outcome, Bytes;
    ghost var whole := FeedAll(START, Lines(stream), Some(MAX_LINE));
    var acc := new Accumulator();
    var rest := stream;
    var more := true;
    while more
      invariant fresh(acc) && acc.Valid()
      invariant more ==> whole == FeedAll(Going(acc.events), Lines(rest), Some(MAX_LINE))
      invariant !more ==> whole == Going(acc.events)
      decreases |rest|, more
    {
      var k := LineEnd(rest);
      var line := rest[..k];
      more := k < |rest|;
      ghost var following := if more then Lines(rest[k + 1..]) else [];
      assert more || line == rest;
      assert Lines(rest) == [line] + following;
      assert whole == FeedAll(Feed(Going(acc.events), line, Some(MAX_LINE)), following, Some(MAX_LINE));
      rest := if more then rest[k + 1..] else "";
      if Bytes(line) >= MAX_LINE {
        BrokenOff(TooLong, following, Some(MAX_LINE));
        return TooLongError();
      }
      var text := Trim(line);
      if text != "" {
        var ev := Decode(text);
        if ev.None? {
          BrokenOff(Malformed, following, Some(MAX_LINE));
          return BadEventError();
        }
        acc.HandleEvent(ev.value);
      }
    }
    r := acc.Finish();
  }

  function TooLongError(): (r: Result<ExecResult, StreamError>)
    ensures r == Outcome(TooLong)
  {
    Err(LineTooLong)
  }

  // --- the two clients agree ---

  /** A line that both clients get past. */
  predicate Readable(line: string) {
    Bytes(line) < MAX_LINE && (Trim(line) == "" || Decode(Trim(line)).Some?)
  }

  /** The first line that not both clients get past is too long. */
  ghost predicate Overruns(lines: seq<string>) {
    exists i :: 0 <= i < |lines| && Bytes(lines[i]) >= MAX_LINE && forall j | 0 <= j < i :: Readable(lines[j])
  }

  lemma {:induction false} LimitMatters(p: Progress, lines: seq<string>)
    requires p.Going?
    ensures Overruns(lines) ==> FeedAll(p, lines, Some(MAX_LINE)) == TooLong
    ensures !Overruns(lines) ==> FeedAll(p, lines, Some(MAX_LINE)) == FeedAll(p, lines, None)
    ensures FeedAll(p, lines, None) != TooLong
    decreases |lines|
  {
    if lines != [] {
      var limited, free := Feed(p, lines[0], Some(MAX_LINE)), Feed(p, lines[0], None);
      if Readable(lines[0]) {
        LimitMatters(free, lines[1..]);
        OverrunsLater(lines);
      } else {
        if !limited.Going? {
          BrokenOff(limited, lines[1..], Some(MAX_LINE));
        }
        if !free.Going? {
          BrokenOff(free, lines[1..], None);
        } else {
          LimitMatters(free, lines[1..]);
        }
        OverrunsNow(lines);
      }
    }
  }

  lemma OverrunsLater(lines: seq<string>)
    requires lines != [] && Readable(lines[0])
    ensures Overruns(lines) <==> Overruns(lines[1..])
  {
    if Overruns(lines[1..]) {
      var i :| 0 <= i < |lines[1..]| && Bytes(lines[1..][i]) >= MAX_LINE && forall j | 0 <= j < i :: Readable(lines[1..][j]);
      forall j | 0 <= j < i + 1 ensures Readable(lines[j]) {
        if j > 0 {
          assert lines[j] == lines[1..][j - 1];
        }
      }
      assert Bytes(lines[i + 1]) >= MAX_LINE;
    }
    if Overruns(lines) {
      var i :| 0 <= i < |lines| && Bytes(lines[i]) >= MAX_LINE && forall j | 0 <= j < i :: Readable(lines[j]);
      assert lines[1..][i - 1] == lines[i];
      assert forall j | 0 <= j < i - 1 :: lines[1..][j] == lines[j + 1];
    }
  }

  lemma OverrunsNow(lines: seq<string>)
    requires lines != [] && !Readable(lines[0])
    ensures Overruns(lines) <==> Bytes(lines[0]) >= MAX_LINE
  {
    hide Bytes, Readable;
  }

  /** On any stream at all, blank lines and an unterminated tail included, and for any chunking: the two clients end
      with the same result or the same error, if and only if no line is too long for the scanner before one that
      neither can read. */
  lemma ClientsAgree(stream: string, chunks: seq<string>)
    requires Join(chunks) == stream
    ensures Outcome(FeedAll(START, Lines(stream), Some(MAX_LINE))) == Outcome(FeedAll(START, Lines(Join(chunks)), None))
       <==> !Overruns(Lines(stream))
  {
    hide FeedAll;
    LimitMatters(START, Lines(stream));
  }

  // --- the emitter ---

  /** The body of a response: one line for each event. */
  function Text(events: seq<ExecEvent>): string {
    if events == [] then "" else Text(events[..|events| - 1]) + Encode(events[|events| - 1]) + "\n"
  }

  /** The reads of a pipe that deliver something. */
  function Delivered(pieces: seq<string>): seq<string> {
    if pieces == [] then []
    else Delivered(pieces[..|pieces| - 1]) + if pieces[|pieces| - 1] != "" then [pieces[|pieces| - 1]] else []
  }

  /** The events of both pipes, each pipe's in order, the two interleaved in any way. */
  predicate Interleaving(events: seq<ExecEvent>, out: seq<string>, err: seq<string>) {
    && (forall i | 0 <= i < |events| :: events[i] == Output(STDOUT, events[i].data)
                                        || events[i] == Output(STDERR, events[i].data))
    && Datas(events, STDOUT) == Delivered(out) && Datas(events, STDERR) == Delivered(err)
  }

  /** A body that the emitter can produce from these reads: some interleaving, then the exit event. */
  ghost predicate IsBody(body: string, events: seq<ExecEvent>, out: seq<string>, err: seq<string>, exit: ExecEvent) {
    Interleaving(events, out, err) && exit.typ == EXIT && body == Text(events + [exit])
  }

  /** Two loops, one for each pipe, emit into one body; which of them comes next is left open. Once both pipes are
      drained the exit event follows. */
  method HandleExecStream(out: seq<string>, err: seq<string>, exitCode: int, timedOut: bool, durationMs: int)
    returns (body: string)
    ensures exists events :: IsBody(body, events, out, err, ExecEvent(EXIT, "", exitCode, timedOut, durationMs))
  {
    NothingYet();
    hide Encode, Interleaving, Text;
    body := "";
    ghost var events: seq<ExecEvent> := [];
    var i, j := 0, 0;
    assert out[..0] == [] && err[..0] == [];
    while i < |out| || j < |err|
      invariant 0 <= i <= |out| && 0 <= j <= |err|
      invariant Interleaving(events, out[..i], err[..j]) && body == Text(events)
      decreases |out| - i + |err| - j
    {
      var outFirst: bool := *;
      if i < |out| && (outFirst || j == |err|) {
        OneMoreRead(events, out, i, err[..j]);
        if out[i] != "" {
          body := body + Encode(Output(STDOUT, out[i])) + "\n";
          events := events + [Output(STDOUT, out[i])];
        }
        i := i + 1;
      } else {
        OneMoreError(events, out[..i], err, j);
        if err[j] != "" {
          body := body + Encode(Output(STDERR, err[j])) + "\n";
          events := events + [Output(STDERR, err[j])];
        }
        j := j + 1;
      }
    }
    assert out[..i] == out && err[..j] == err;
    var exit := ExecEvent(EXIT, "", exitCode, timedOut, durationMs);
    MoreText(events, exit);
    body := body + Encode(exit) + "\n";
    assert IsBody(body, events, out, err, exit);
  }

  lemma NothingYet()
    ensures Interleaving([], [], []) && Text([]) == ""
  {
  }

  lemma MoreText(events: seq<ExecEvent>, ev: ExecEvent)
    ensures Text(events + [ev]) == Text(events) + Encode(ev) + "\n"
  {
    assert (events + [ev])[..|events|] == events;
  }

  lemma OneMoreRead(events: seq<ExecEvent>, out: seq<string>, i: nat, err: seq<string>)
    requires i < |out| && Interleaving(events, out[..i], err)
    ensures Interleaving(if out[i] != "" then events + [Output(STDOUT, out[i])] else events, out[..i + 1], err)
    ensures Text(events + [Output(STDOUT, out[i])]) == Text(events) + Encode(Output(STDOUT, out[i])) + "\n"
  {
    hide Encode;
    assert out[..i + 1] == out[..i] + [out[i]];
    assert (events + [Output(STDOUT, out[i])])[..|events|] == events;
    MoreText(events, Output(STDOUT, out[i]));
    assert Delivered(out[..i + 1]) == Delivered(out[..i]) + if out[i] != "" then [out[i]] else [];
  }

  lemma OneMoreError(events: seq<ExecEvent>, out: seq<string>, err: seq<string>, j: nat)
    requires j < |err| && Interleaving(events, out, err[..j])
    ensures Interleaving(if err[j] != "" then events + [Output(STDERR, err[j])] else events, out, err[..j + 1])
    ensures Text(events + [Output(STDERR, err[j])]) == Text(events) + Encode(Output(STDERR, err[j])) + "\n"
  {
    hide Encode;
    assert err[..j + 1] == err[..j] + [err[j]];
    assert (events + [Output(STDERR, err[j])])[..|events|] == events;
    MoreText(events, Output(STDERR, err[j]));
    assert Delivered(err[..j + 1]) == Delivered(err[..j]) + if err[j] != "" then [err[j]] else [];
  }

  // --- end to end ---

  function Encoded(events: seq<ExecEvent>): seq<string> {
    if events == [] then [] else Encoded(events[..|events| - 1]) + [Encode(events[|events| - 1])]
  }

  lemma OneLineEnd(line: string, rest: string)
    requires OneLine(line)
    ensures Lines(line + "\n" + rest) == [line] + Lines(rest)
  {
    var s := line + "\n" + rest;
    LineEndIs(s, |line|);
    assert s[..|line|] == line && s[|line| + 1..] == rest;
  }

  /** The lines of a body are its events, and nothing is left over. */
  lemma {:induction false} TextLines(events: seq<ExecEvent>, rest: string)
    ensures Lines(Text(events) + rest) == Encoded(events) + Lines(rest)
  {
    hide Encode, Lines, OneLine, Text;
    TextFirst(events, rest);
    if events != [] {
      var front, last := events[..|events| - 1], events[|events| - 1];
      var after := Encode(last) + "\n" + rest;
      assert OneLine(Encode(last)) by {
        EncodedIsLine(last);
      }
      TextLines(front, after);
      OneLineEnd(Encode(last), rest);
      Regroup(Encoded(front), [Encode(last)], Lines(rest));
    } else {
      assert Encoded(events) + Lines(rest) == Lines(rest);
    }
  }

  lemma TextFirst(events: seq<ExecEvent>, rest: string)
    ensures if events == [] then Text(events) + rest == rest
            else Text(events) + rest == Text(events[..|events| - 1]) + (Encode(events[|events| - 1]) + "\n" + rest)
  {
    hide Encode;
    if events != [] {
      var front, line := Text(events[..|events| - 1]), Encode(events[|events| - 1]);
      assert Text(events) == front + line + "\n";
      hide Text;
      FourParts(front, line, "\n", rest);
    }
  }

  lemma FourParts(a: string, b: string, c: string, d: string)
    ensures a + b + c + d == a + (b + c + d)
  {
    assert b + c + d == b + (c + d);
    assert a + b + c + d == a + b + (c + d);
  }

  lemma Regroup(a: seq<string>, b: seq<string>, c: seq<string>)
    ensures a + (b + c) == a + b + c
  {
  }

  lemma {:induction false} FeedAllAppend(p: Progress, a: seq<string>, b: seq<string>, limit: Option<nat>)
    ensures FeedAll(p, a + b, limit) == FeedAll(FeedAll(p, a, limit), b, limit)
    decreases |a|
  {
    if a == [] {
      assert a + b == b;
    } else {
      assert (a + b)[1..] == a[1..] + b;
      FeedAllAppend(Feed(p, a[0], limit), a[1..], b, limit);
    }
  }

  lemma FeedEncoded(p: Progress, ev: ExecEvent)
    requires p.Going?
    ensures Feed(p, Encode(ev), None) == Going(p.events + [ev])
  {
    EventRoundTrip(ev);
    EncodedIsLine(ev);
    hide Encode, Decode, Trim;
  }

  lemma {:induction false} FeedText(events: seq<ExecEvent>)
    ensures FeedAll(START, Encoded(events), None) == Going(events)
  {
    hide Encode, Feed;
    if events != [] {
      var front, last := events[..|events| - 1], events[|events| - 1];
      FeedText(front);
      FeedAllAppend(START, Encoded(front), [Encode(last)], None);
      FeedEncoded(Going(front), last);
      assert [Encode(last)][1..] == [];
      assert front + [last] == events;
    }
  }

  lemma FeedTail()
    ensures Lines("") == [""]
    ensures forall p: Progress, limit: Option<nat> | p.Going? && (limit.Some? ==> limit.value > 0) :: FeedAll(p, [""], limit) == p
  {
    assert [""][1..] == [];
  }

  /** However the emitter's loops interleave and however the transport cuts the body: the reader sees exactly the
      emitted events, in order, and the exit event once, last. */
  lemma EventsArrive(body: string, events: seq<ExecEvent>, out: seq<string>, err: seq<string>, exit: ExecEvent,
                     chunks: seq<string>)
    requires IsBody(body, events, out, err, exit) && Join(chunks) == body
    ensures FeedAll(START, Lines(Join(chunks)), None) == Going(events + [exit])
    ensures forall i | 0 <= i < |events| :: events[i].typ != EXIT
  {
    hide Join, Text, Lines, FeedAll, Datas, Delivered;
    TextArrives(events + [exit], chunks);
  }

  lemma TextArrives(events: seq<ExecEvent>, chunks: seq<string>)
    requires Join(chunks) == Text(events)
    ensures FeedAll(START, Lines(Join(chunks)), None) == Going(events)
  {
    hide Join, Text, Encoded, Lines, FeedAll;
    TextLines(events, "");
    assert Text(events) + "" == Text(events);
    FeedText(events);
    FeedTail();
    FeedAllAppend(START, Encoded(events), [""], None);
  }

  lemma {:induction false} JoinDelivered(pieces: seq<string>)
    ensures Join(Delivered(pieces)) == Join(pieces)
  {
    if pieces != [] {
      var front, last := pieces[..|pieces| - 1], pieces[|pieces| - 1];
      JoinDelivered(front);
      JoinAppend(front, [last]);
      JoinAppend(Delivered(front), [last]);
      assert pieces == front + [last];
      assert [last][1..] == [];
      assert Delivered(front) + [] == Delivered(front);
    }
  }

  /** End to end: the client's stdout and stderr are each the reads of that pipe, in order, and the exit fields are
      those of the command; for every interleaving and every chunking. */
  lemma StreamIsFaithful(body: string, events: seq<ExecEvent>, out: seq<string>, err: seq<string>, exit: ExecEvent,
                         chunks: seq<string>)
    requires IsBody(body, events, out, err, exit) && Join(chunks) == body
    ensures Outcome(FeedAll(START, Lines(Join(chunks)), None))
         == Ok(ExecResult(Join(out), Join(err), exit.exitCode, exit.timedOut, exit.durationMs))
  {
    hide FeedAll, Lines, Text, Datas, Delivered, Join, LastExit;
    EventsArrive(body, events, out, err, exit, chunks);
    OneMoreEvent(events, exit);
    JoinDelivered(out);
    JoinDelivered(err);
    assert Join(Datas(events + [exit], STDOUT)) == Join(out) + "" == Join(out);
    assert Join(Datas(events + [exit], STDERR)) == Join(err) + "" == Join(err);
  }

  predicate Int64(n: int) {
    -MAX_INT64 - 1 <= n <= MAX_INT64
  }

  lemma {:induction false} EncodedFits(events: seq<ExecEvent>)
    requires forall ev | ev in events :: ev.typ in {STDOUT, STDERR, EXIT} && Bytes(ev.data) <= READ_SIZE
                                         && Int64(ev.exitCode) && Int64(ev.durationMs)
    ensures forall i | 0 <= i < |Encoded(events)| :: Bytes(Encoded(events)[i]) < MAX_LINE
  {
    if events != [] {
      var front, last := events[..|events| - 1], events[|events| - 1];
      assert last in events;
      EncodedFits(front);
      LineFits(last);
      hide Bytes, Encode;
    }
  }

  lemma {:induction false} DatasAre(events: seq<ExecEvent>, typ: string, ev: ExecEvent)
    requires ev in events && ev.typ == typ
    ensures ev.data in Datas(events, typ)
  {
    assert events == events[..|events| - 1] + [events[|events| - 1]];
    if ev in events[..|events| - 1] {
      DatasAre(events[..|events| - 1], typ, ev);
    }
  }

  lemma {:induction false} DeliveredAre(pieces: seq<string>, data: string)
    requires data in Delivered(pieces)
    ensures data in pieces
  {
    assert pieces == pieces[..|pieces| - 1] + [pieces[|pieces| - 1]];
    if data in Delivered(pieces[..|pieces| - 1]) {
      DeliveredAre(pieces[..|pieces| - 1], data);
    }
  }

  /** No read is larger than the reader's buffer: then the Go client's scanner never rejects a line, and it reports what
      the TypeScript client reports. */
  lemma ScannerIsFaithful(body: string, events: seq<ExecEvent>, out: seq<string>, err: seq<string>, exit: ExecEvent)
    requires IsBody(body, events, out, err, exit) && exit.data == "" && Int64(exit.exitCode) && Int64(exit.durationMs)
    requires forall read | read in out || read in err :: Bytes(read) <= READ_SIZE
    ensures Outcome(FeedAll(START, Lines(body), Some(MAX_LINE)))
         == Ok(ExecResult(Join(out), Join(err), exit.exitCode, exit.timedOut, exit.durationMs))
  {
    hide Text, Lines, FeedAll, Outcome, Interleaving, Encoded, Bytes, Join;
    BodyFits(events, out, err, exit);
    LimitMatters(START, Lines(body));
    OneChunk(body);
    StreamIsFaithful(body, events, out, err, exit, [body]);
  }

  /** Every line of the body fits the scanner. */
  lemma BodyFits(events: seq<ExecEvent>, out: seq<string>, err: seq<string>, exit: ExecEvent)
    requires Interleaving(events, out, err) && exit.typ == EXIT && exit.data == "" && Int64(exit.exitCode)
    requires Int64(exit.durationMs)
    requires forall read | read in out || read in err :: Bytes(read) <= READ_SIZE
    ensures !Overruns(Lines(Text(events + [exit])))
  {
    hide Text, Lines, Interleaving, Encoded, Bytes;
    var all := events + [exit];
    forall ev | ev in all ensures ev.typ in {STDOUT, STDERR, EXIT} && Bytes(ev.data) <= READ_SIZE
                                  && Int64(ev.exitCode) && Int64(ev.durationMs) {
      EventIsSmall(events, out, err, exit, ev);
    }
    EncodedFits(all);
    TextLines(all, "");
    assert Text(all) + "" == Text(all);
    FeedTail();
    NoBytes();
  }

  lemma NoBytes()
    ensures Bytes("") < MAX_LINE
  {
  }

  lemma OneChunk(body: string)
    ensures Join([body]) == body
  {
    assert Join([body]) == body + Join([]);
    assert body + Join([]) == body;
  }

  lemma EventIsSmall(events: seq<ExecEvent>, out: seq<string>, err: seq<string>, exit: ExecEvent, ev: ExecEvent)
    requires Interleaving(events, out, err) && exit.typ == EXIT && exit.data == "" && Int64(exit.exitCode)
    requires Int64(exit.durationMs)
    requires forall read | read in out || read in err :: Bytes(read) <= READ_SIZE
    requires ev in events + [exit]
    ensures ev.typ in {STDOUT, STDERR, EXIT} && Bytes(ev.data) <= READ_SIZE && Int64(ev.exitCode)
    ensures Int64(ev.durationMs)
  {
    if ev in events {
      DatasAre(events, ev.typ, ev);
      if ev.typ == STDOUT {
        DeliveredAre(out, ev.data);
      } else {
        DeliveredAre(err, ev.data);
      }
    }
  }

  // --- a stream that breaks off ---

  /** Where a body is cut: after some of its lines, within the next or right at its end. */
  lemma {:induction false} CutText(events: seq<ExecEvent>, cut: nat) returns (i: nat, k: nat)
    requires cut < |Text(events)|
    ensures i < |events| && k <= |Encode(events[i])|
    ensures Text(events)[..cut] == Text(events[..i]) + Encode(events[i])[..k]
    ensures i == |events| - 1 && k == |Encode(events[i])| <==> cut == |Text(events)| - 1
  {
    hide Encode;
    var front, last := events[..|events| - 1], events[|events| - 1];
    if cut < |Text(front)| {
      i, k := CutText(front, cut);
      assert front[..i] == events[..i];
      assert Text(events)[..cut] == Text(front)[..cut];
    } else {
      i, k := |front|, cut - |Text(front)|;
      assert Text(events) == Text(front) + (Encode(last) + "\n");
      assert (Encode(last) + "\n")[..k] == Encode(last)[..k];
    }
  }

  lemma {:induction false} TrimmedIsPrefix(s: string) returns (k: nat)
    requires s != "" && !IsSpace(s[0])
    ensures 0 < k <= |s| && Trim(s) == s[..k]
  {
    k := TrimmedRight(s);
  }

  lemma {:induction false} TrimmedRight(s: string) returns (k: nat)
    requires s != "" && !IsSpace(s[0])
    ensures 0 < k <= |s| && TrimRight(s) == s[..k]
  {
    k := |s|;
    if IsSpace(s[|s| - 1]) {
      k := TrimmedRight(s[..|s| - 1]);
      assert s[..|s| - 1][..k] == s[..k];
    } else {
      assert s[..k] == s;
    }
  }

  /** A part of a line is no event. */
  lemma BrokenLine(p: Progress, ev: ExecEvent, k: nat)
    requires p.Going? && 0 < k < |Encode(ev)|
    ensures Feed(p, Encode(ev)[..k], None) == Malformed
  {
    assert !IsSpace('{') && Members(ev) != [];
    hide IsSpace, ReadObject, PrintMembers, Members, Trim;
    var line := Encode(ev);
    assert line[..k][0] == '{';
    var m := TrimmedIsPrefix(line[..k]);
    assert line[..k][..m] == line[..m];
    BrokenObject(Members(ev), m);
  }

  lemma PartIsFed(p: Progress, ev: ExecEvent, k: nat)
    requires p.Going? && k <= |Encode(ev)|
    ensures Feed(p, Encode(ev)[..k], None) ==
            if k == 0 then p else if k == |Encode(ev)| then Going(p.events + [ev]) else Malformed
  {
    hide Encode, Decode;
    assert Encode(ev)[..|Encode(ev)|] == Encode(ev);
    EncodedIsLine(ev);
    if k == |Encode(ev)| {
      FeedEncoded(p, ev);
    } else if k > 0 {
      BrokenLine(p, ev, k);
    } else {
      assert Trim("") == "";
      hide Trim;
    }
  }

  lemma NoExitAmong(events: seq<ExecEvent>, out: seq<string>, err: seq<string>)
    requires Interleaving(events, out, err)
    ensures forall i | 0 <= i < |events| :: events[i].typ != EXIT
  {
    hide Datas, Delivered;
  }

  /** Without the whole of its last line the events of a body have no exit among them. */
  lemma NoExitYet(events: seq<ExecEvent>, exit: ExecEvent, n: nat)
    requires n <= |events| && forall i | 0 <= i < |events| :: events[i].typ != EXIT
    ensures LastExit((events + [exit])[..n]) == None
  {
    assert (events + [exit])[..n] == events[..n];
    LastExitCounts(events[..n]);
  }

  lemma PartOfText(events: seq<ExecEvent>, ev: ExecEvent, k: nat)
    requires k <= |Encode(ev)|
    ensures FeedAll(START, Lines(Text(events) + Encode(ev)[..k]), None) == Feed(Going(events), Encode(ev)[..k], None)
  {
    hide Text, Encoded, Feed, Encode;
    var part := Encode(ev)[..k];
    EncodedIsLine(ev);
    LineEndIs(part, k);
    assert Lines(part) == [part];
    TextLines(events, part);
    FeedText(events);
    FeedAllAppend(START, Encoded(events), [part], None);
    assert [part][1..] == [];
  }

  /** A stream that breaks off is never taken for a result: however much of a body arrives, and in whatever chunks, the
      TypeScript client reports the command's result if all but the last line end is there, and an error otherwise; and
      then the Go client reports an error too. */
  lemma CutStreamIsError(body: string, events: seq<ExecEvent>, out: seq<string>, err: seq<string>, exit: ExecEvent, cut: nat,
                         chunks: seq<string>)
    requires IsBody(body, events, out, err, exit) && cut <= |body| && Join(chunks) == body[..cut]
    ensures Outcome(FeedAll(START, Lines(Join(chunks)), None)).Ok? <==> cut >= |body| - 1
    ensures cut < |body| - 1 ==> Outcome(FeedAll(START, Lines(body[..cut]), Some(MAX_LINE))).Err?
  {
    hide Text, Encode, Lines, FeedAll, Feed, Interleaving, Join, Datas, LastExit;
    NoExitAmong(events, out, err);
    var all := events + [exit];
    LimitMatters(START, Lines(body[..cut]));
    if cut == |body| {
      assert body[..cut] == body;
      StreamIsFaithful(body, events, out, err, exit, chunks);
    } else {
      var i, k := CutText(all, cut);
      EncodedIsLine(all[i]);
      PartOfText(all[..i], all[i], k);
      NoExitYet(events, exit, i);
      PartIsFed(Going(all[..i]), all[i], k);
      assert all[..i] + [all[i]] == all[..i + 1];
      if i < |events| {
        NoExitYet(events, exit, i + 1);
      } else {
        assert all[..i + 1] == all;
        OneMoreEvent(events, exit);
      }
    }
  }
}
