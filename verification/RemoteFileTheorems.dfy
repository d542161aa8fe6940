/** What a client of the remote file reader can rely on, however its bytes are cut up on the way. */
module RemoteFileTheorems {
  import opened Wrappers
  import opened RemoteFileReader

  // ----- Lines -----

  ghost predicate NewlineFree(s: bytes) {
    forall i :: 0 <= i < |s| ==> s[i] != Newline
  }

  /** Lines put back together. */
  function Joined(lines: seq<bytes>): bytes {
    if lines == [] then [] else lines[0] + [Newline] + Joined(lines[1..])
  }

  lemma JoinedFirst(line: bytes, lines: seq<bytes>)
    ensures Joined([line] + lines) == line + [Newline] + Joined(lines)
  {
    assert ([line] + lines)[1..] == lines;
  }

  lemma Associative(a: bytes, b: bytes, c: bytes)
    ensures a + b + c == a + (b + c)
  {
  }

  /** The lines and the rest are the input, cut at newlines ... */
  lemma {:induction false} SplitJoins(input: bytes)
    ensures Joined(Lines(input)) + Rest(input) == input
    decreases |input|
  {
    var n := FirstLine(input);
    if n == |input| {
      assert Lines(input) == [] && Joined([]) + input == input;
    } else {
      var line, tail := input[..n], input[n + 1..];
      SplitJoins(tail);
      JoinedFirst(line, Lines(tail));
      Associative(line + [Newline], Joined(Lines(tail)), Rest(tail));
      assert input == line + [Newline] + tail;
    }
  }

  /** ... and at every newline. */
  lemma {:induction false} SplitLeavesNoNewline(input: bytes)
    ensures NewlineFree(Rest(input))
    ensures forall i :: 0 <= i < |Lines(input)| ==> NewlineFree(Lines(input)[i])
    decreases |input|
  {
    var n := FirstLine(input);
    if n < |input| {
      var line, tail := input[..n], input[n + 1..];
      SplitLeavesNoNewline(tail);
      assert NewlineFree(line);
    }
  }

  lemma FirstLineAppend(a: bytes, b: bytes)
    requires FirstLine(a) < |a|
    ensures FirstLine(a + b) == FirstLine(a)
  {
    assert (a + b)[FirstLine(a)] == Newline;
    assert (a + b)[FirstLine(a + b)] == a[FirstLine(a + b)];
  }

  /** Input that arrives later only continues the rest. */
  lemma {:induction false} SplitAppend(a: bytes, b: bytes)
    ensures Lines(a + b) == Lines(a) + Lines(Rest(a) + b)
    ensures Rest(a + b) == Rest(Rest(a) + b)
    decreases |a|
  {
    var n := FirstLine(a);
    if n < |a| {
      FirstLineAppend(a, b);
      assert (a + b)[..n] == a[..n];
      assert (a + b)[n + 1..] == a[n + 1..] + b;
      SplitAppend(a[n + 1..], b);
    }
  }

  lemma {:induction false} ServedAppend(a: seq<bytes>, b: seq<bytes>)
    requires AllLong(a)
    ensures Served(a + b) == a + Served(b)
  {
    if a == [] {
      assert a + b == b;
    } else {
      assert (a + b)[1..] == a[1..] + b;
      ServedAppend(a[1..], b);
    }
  }

  lemma {:induction false} ServedIsAll(lines: seq<bytes>)
    ensures |Served(lines)| == |lines| <==> AllLong(lines)
    ensures AllLong(lines) ==> Served(lines) == lines
  {
    if lines != [] {
      ServedIsAll(lines[1..]);
      if AllLong(lines[1..]) && |lines[0]| >= 2 {
        assert lines == [lines[0]] + lines[1..];
      }
    }
  }

  lemma LongAppend(a: seq<bytes>, b: seq<bytes>)
    requires AllLong(a)
    ensures Served(a + b) == a + Served(b)
    ensures AllLong(a + b) <==> AllLong(b)
    ensures AllLong(b) <==> |Served(b)| == |b|
  {
    ServedAppend(a, b);
    ServedIsAll(b);
    ServedIsAll(a + b);
  }

  lemma {:induction false} RemainingIsRest(input: bytes)
    requires AllLong(Lines(input))
    ensures Remaining(input) == Rest(input)
    decreases |input|
  {
    var n := FirstLine(input);
    if n < |input| {
      assert Lines(input)[0] == input[..n];
      assert Lines(input)[1..] == Lines(input[n + 1..]);
      RemainingIsRest(input[n + 1..]);
    }
  }

  // ----- Answers -----

  /** The lines are requests; they are handled and their responses buffered. */
  function Replied(host: Host, c: Conn, lines: seq<bytes>): Conn
    requires AllLong(lines)
  {
    c.(writeBuffer := c.writeBuffer + Stream(Outcomes(host, c.file, lines)), file := FileAfter(host, c.file, lines))
  }

  lemma FirstServed(input: bytes)
    requires FirstLine(input) < |input|
    ensures
      var line, rest := input[..FirstLine(input)], input[FirstLine(input) + 1..];
      && Lines(input) == [line] + Lines(rest)
      && Served(Lines(input)) == (if |line| < 2 then [] else [line] + Served(Lines(rest)))
      && Remaining(input) == (if |line| < 2 then rest else Remaining(rest))
  {
    var line, rest := input[..FirstLine(input)], input[FirstLine(input) + 1..];
    assert ([line] + Lines(rest))[1..] == Lines(rest);
  }

  lemma FirstReplied(host: Host, c: Conn, line: bytes, lines: seq<bytes>)
    requires |line| >= 2 && AllLong(lines)
    ensures Replied(host, c, [line] + lines) == Replied(host, Handled(host, c, line), lines)
  {
    var (file, outcome) := Handle(host, c.file, line);
    var outcomes := Outcomes(host, file, lines);
    assert ([line] + lines)[1..] == lines && ([outcome] + outcomes)[1..] == outcomes;
    assert c.writeBuffer + (Encode(outcome) + Stream(outcomes)) == c.writeBuffer + Encode(outcome) + Stream(outcomes);
  }

  lemma NothingReplied(host: Host, c: Conn)
    ensures Replied(host, c, []) == c
  {
    assert c.writeBuffer + [] == c.writeBuffer;
  }

  /** Taking the input line by line is replying to its lines up to the first that is too short. */
  lemma {:induction false} AnsweredIsReplied(host: Host, c: Conn)
    requires !c.crashed
    ensures
      var lines := Lines(c.readBuffer);
      Answered(host, c) == Replied(host, c, Served(lines)).(
        crashed := |Served(lines)| < |lines|, readBuffer := Remaining(c.readBuffer))
    decreases |c.readBuffer|
  {
    var input := c.readBuffer;
    var n := FirstLine(input);
    if n == |input| {
      NothingReplied(host, c);
    } else {
      FirstServed(input);
      var line, rest := input[..n], input[n + 1..];
      if n < 2 {
        NothingReplied(host, c);
      } else {
        AnsweredIsReplied(host, Handled(host, c, line).(readBuffer := rest));
        FirstReplied(host, c.(readBuffer := rest), line, Served(Lines(rest)));
      }
    }
  }

  lemma {:induction false} AnswersAppend(host: Host, file: Option<File>, a: seq<bytes>, b: seq<bytes>)
    requires AllLong(a) && AllLong(b)
    ensures FileAfter(host, file, a + b) == FileAfter(host, FileAfter(host, file, a), b)
    ensures Outcomes(host, file, a + b) == Outcomes(host, file, a) + Outcomes(host, FileAfter(host, file, a), b)
    decreases |a|
  {
    if a == [] {
      assert a + b == b;
    } else {
      assert (a + b)[1..] == a[1..] + b;
      AnswersAppend(host, Handle(host, file, a[0]).0, a[1..], b);
    }
  }

  lemma {:induction false} StreamAppend(a: seq<Outcome>, b: seq<Outcome>)
    ensures Stream(a + b) == Stream(a) + Stream(b)
  {
    if a == [] {
      assert a + b == b;
    } else {
      assert (a + b)[1..] == a[1..] + b;
      StreamAppend(a[1..], b);
    }
  }

  // ----- Runs -----

  ghost predicate StepAt(host: Host, states: seq<Conn>, events: seq<Event>, i: nat)
    requires i < |events| && |states| == |events| + 1
  {
    Possible(states[i], events[i]) && states[i + 1] == Step(host, states[i], events[i])
  }

  /** Any order of chunks and partial writes, from a new connection on. */
  ghost predicate IsRun(host: Host, states: seq<Conn>, events: seq<Event>) {
    && |states| == |events| + 1
    && states[0] == Fresh
    && forall i :: 0 <= i < |events| ==> StepAt(host, states, events, i)
  }

  /** Everything the client sent. */
  function Received(events: seq<Event>): bytes {
    if events == [] then [] else
      var last := events[|events| - 1];
      Received(events[..|events| - 1]) + (if last.Chunk? then last.data else [])
  }

  ghost predicate Answers(host: Host, c: Conn, input: bytes) {
    && c.sent + c.writeBuffer == Stream(Outcomes(host, None, Served(Lines(input))))
    && c.file == (if c.open then FileAfter(host, None, Served(Lines(input))) else None)
    && (c.crashed <==> !AllLong(Lines(input)))
    && (!c.crashed ==> c.readBuffer == Rest(input))
  }

  lemma RepliesKeepAnswers(host: Host, c: Conn, earlier: seq<bytes>, lines: seq<bytes>)
    requires AllLong(earlier) && AllLong(lines)
    requires c.sent + c.writeBuffer == Stream(Outcomes(host, None, earlier)) && c.file == FileAfter(host, None, earlier)
    ensures
      var c' := Replied(host, c, lines);
      && c'.sent + c'.writeBuffer == Stream(Outcomes(host, None, earlier + lines))
      && c'.file == FileAfter(host, None, earlier + lines)
  {
    AnswersAppend(host, None, earlier, lines);
    var first, second := Outcomes(host, None, earlier), Outcomes(host, c.file, lines);
    StreamAppend(first, second);
    Associative(c.sent, c.writeBuffer, Stream(second));
  }

  /** What the lines of a new chunk are among all lines. */
  lemma NewLines(input: bytes, data: bytes)
    requires AllLong(Lines(input))
    ensures
      var all, later := Lines(input + data), Lines(Rest(input) + data);
      && Served(all) == Lines(input) + Served(later)
      && (AllLong(all) <==> |Served(later)| == |later|)
      && (AllLong(all) ==> Remaining(Rest(input) + data) == Rest(input + data))
  {
    var earlier, later := Lines(input), Lines(Rest(input) + data);
    SplitAppend(input, data);
    LongAppend(earlier, later);
    if AllLong(later) {
      RemainingIsRest(Rest(input) + data);
    }
  }

  lemma ChunkKeepsAnswers(host: Host, c: Conn, input: bytes, data: bytes)
    requires Answers(host, c, input) && c.open && !c.crashed
    ensures Answers(host, Answered(host, c.(readBuffer := c.readBuffer + data)), input + data)
  {
    ServedIsAll(Lines(input));
    NewLines(input, data);
    AnsweredIsReplied(host, c.(readBuffer := c.readBuffer + data));
    RepliesKeepAnswers(host, c, Lines(input), Served(Lines(c.readBuffer + data)));
  }

  lemma StepKeepsAnswers(host: Host, c: Conn, input: bytes, e: Event)
    requires Answers(host, c, input) && Possible(c, e)
    ensures Answers(host, Step(host, c, e), input + if e.Chunk? then e.data else [])
  {
    match e {
      case Chunk(data) =>
        if data == [] {
          assert input + data == input;
        } else {
          ChunkKeepsAnswers(host, c, input, data);
        }
      case Drain(n) =>
        assert input + [] == input;
        if n > 0 {
          assert c.sent + c.writeBuffer == c.sent + c.writeBuffer[..n] + c.writeBuffer[n..];
        }
    }
  }

  lemma {:induction false} RunAnswers(host: Host, states: seq<Conn>, events: seq<Event>, n: nat)
    requires IsRun(host, states, events) && n <= |events|
    ensures Answers(host, states[n], Received(events[..n]))
  {
    if n > 0 {
      RunAnswers(host, states, events, n - 1);
      assert StepAt(host, states, events, n - 1);
      StepKeepsAnswers(host, states[n - 1], Received(events[..n - 1]), events[n - 1]);
      assert events[..n][..n - 1] == events[..n - 1];
    }
  }

  /**
    Over every run: the bytes sent and those still to send are the responses to exactly the complete lines
    received, in order, up to the first too short; the server goes down if and only if there is such a line; and
    what is kept of the input is what follows the last newline.
   */
  lemma LinesAreAnswered(host: Host, states: seq<Conn>, events: seq<Event>)
    requires IsRun(host, states, events)
    ensures
      var c, input := states[|events|], Received(events);
      && c.sent + c.writeBuffer == Stream(Outcomes(host, None, Served(Lines(input))))
      && c.file == (if c.open then FileAfter(host, None, Served(Lines(input))) else None)
      && (c.crashed <==> !AllLong(Lines(input)))
      && (!c.crashed ==> c.readBuffer == Rest(input))
  {
    RunAnswers(host, states, events, |events|);
    assert events[..|events|] == events;
  }

  /** Two clients who send the same bytes get the same responses, however the bytes are cut up either way. */
  lemma ChunkingDoesNotMatter(
    host: Host, states: seq<Conn>, events: seq<Event>, states': seq<Conn>, events': seq<Event>)
    requires IsRun(host, states, events) && IsRun(host, states', events')
    requires Received(events) == Received(events')
    ensures
      var c, c' := states[|events|], states'[|events'|];
      && c.sent + c.writeBuffer == c'.sent + c'.writeBuffer
      && c.crashed == c'.crashed
      && (!c.crashed ==> c.readBuffer == c'.readBuffer)
      && (c.open && c'.open ==> c.file == c'.file)
  {
    LinesAreAnswered(host, states, events);
    LinesAreAnswered(host, states', events');
  }

  /** A line without even a letter is the end of the server. */
  lemma EmptyLineEndsTheServer(host: Host)
    ensures IsRun(host, [Fresh, Step(host, Fresh, Chunk([Newline]))], [Chunk([Newline])])
    ensures Step(host, Fresh, Chunk([Newline])).crashed
  {
    var input: bytes := [Newline];
    var c := Fresh.(readBuffer := input);
    assert [] + input == input;
    assert FirstLine(input) == 0 && Answered(host, c).crashed;
    assert StepAt(host, [Fresh, Step(host, Fresh, Chunk(input))], [Chunk(input)], 0);
  }

  // ----- Decoding -----

  function Number(s: bytes): (n: nat)
    requires |s| == 4
  {
    s[0] as int * 0x100_0000 + s[1] as int * 0x1_0000 + s[2] as int * 0x100 + s[3]
  }

  lemma NetworkOrderRoundTrip(n: nat)
    requires n < 0x1_0000_0000
    ensures Number(NetworkOrder(n)) == n
    ensures
      var r := NetworkOrder(n);
      r[0] as int * 0x100_0000 + r[1] as int * 0x1_0000 + r[2] as int * 0x100 + r[3] == n
  {
    assert n / 0x1_0000 == n / 0x100 / 0x100;
    assert n / 0x100_0000 == n / 0x100 / 0x100 / 0x100;
  }

  /** How the client reads the response to this request: the outcome and its length, once it is complete. */
  function DecodeOne(line: bytes, stream: bytes): Option<(Outcome, nat)>
    requires |line| >= 2
  {
    if stream == [] then None
    else if stream[0] == Error then Some((Failed, 1))
    else if line[0] == LetterO then Some((Opened, 1))
    else if line[0] == LetterS then Some((Sought, 1))
    else if |stream| < 5 then None
    else
      var n := Number(stream[1..5]);
      if n < 0x8000_0000 && 5 + n <= |stream| then Some((Content(stream[5..5 + n]), 5 + n)) else None
  }

  function Decode(lines: seq<bytes>, stream: bytes): seq<Outcome>
    requires AllLong(lines)
  {
    if lines == [] then [] else
    match DecodeOne(lines[0], stream)
    case None => []
    case Some((outcome, n)) =>
      if n <= |stream| then [outcome] + Decode(lines[1..], stream[n..]) else []
  }

  /** The outcomes a request can have. */
  predicate Fits(line: bytes, outcome: Outcome)
    requires |line| >= 2
  {
    match outcome
    case Failed => true
    case Opened => line[0] == LetterO
    case Sought => line[0] == LetterS
    case Content(_) => line[0] == LetterR
  }

  lemma ContentDecodes(line: bytes, data: block, rest: bytes)
    requires |line| >= 2 && line[0] == LetterR
    ensures DecodeOne(line, Encode(Content(data)) + rest) == Some((Content(data), 5 + |data|))
  {
    var stream := Encode(Content(data)) + rest;
    NetworkOrderRoundTrip(|data|);
    assert stream == [Success] + NetworkOrder(|data|) + data + rest;
    assert stream[1..5] == NetworkOrder(|data|);
    assert stream[5..5 + |data|] == data;
  }

  lemma OneDecodes(line: bytes, outcome: Outcome, rest: bytes)
    requires |line| >= 2 && Fits(line, outcome)
    ensures DecodeOne(line, Encode(outcome) + rest) == Some((outcome, |Encode(outcome)|))
  {
    if outcome.Content? {
      ContentDecodes(line, outcome.data, rest);
    }
  }

  /** A response cut short is recognised as incomplete. */
  lemma CutDoesNotDecode(line: bytes, outcome: Outcome, k: nat)
    requires |line| >= 2 && Fits(line, outcome) && k < |Encode(outcome)|
    ensures DecodeOne(line, Encode(outcome)[..k]) == None
  {
    if outcome.Content? && k >= 5 {
      var stream := Encode(outcome)[..k];
      assert Encode(outcome) == [Success] + NetworkOrder(|outcome.data|) + outcome.data;
      assert stream[1..5] == Encode(outcome)[1..5] == NetworkOrder(|outcome.data|);
      NetworkOrderRoundTrip(|outcome.data|);
    }
  }

  ghost predicate AllFit(lines: seq<bytes>, outcomes: seq<Outcome>)
    requires AllLong(lines)
  {
    |lines| == |outcomes| && forall i :: 0 <= i < |lines| ==> Fits(lines[i], outcomes[i])
  }

  lemma {:induction false} OutcomesFit(host: Host, file: Option<File>, lines: seq<bytes>)
    requires AllLong(lines)
    ensures AllFit(lines, Outcomes(host, file, lines))
    decreases |lines|
  {
    if lines != [] {
      OutcomesFit(host, Handle(host, file, lines[0]).0, lines[1..]);
      var outcomes := Outcomes(host, file, lines);
      forall i | 1 <= i < |lines|
        ensures Fits(lines[i], outcomes[i])
      {
        assert lines[i] == lines[1..][i - 1] && outcomes[i] == outcomes[1..][i - 1];
      }
    }
  }

  lemma CutSum(a: bytes, b: bytes, k: nat)
    requires k <= |a| + |b|
    ensures (a + b)[..k] == if k < |a| then a[..k] else a + b[..k - |a|]
  {
  }

  lemma DecodeFirst(lines: seq<bytes>, outcome: Outcome, rest: bytes)
    requires AllLong(lines) && lines != [] && Fits(lines[0], outcome)
    ensures Decode(lines, Encode(outcome) + rest) == [outcome] + Decode(lines[1..], rest)
  {
    OneDecodes(lines[0], outcome, rest);
    assert (Encode(outcome) + rest)[|Encode(outcome)|..] == rest;
  }

  /** Given the requests, the whole stream decodes to the outcomes, and any beginning of it to a beginning of them. */
  lemma {:induction false} StreamDecodes(lines: seq<bytes>, outcomes: seq<Outcome>, k: nat)
    requires AllLong(lines) && AllFit(lines, outcomes) && k <= |Stream(outcomes)|
    ensures Decode(lines, Stream(outcomes)[..k]) <= outcomes
    ensures k == |Stream(outcomes)| ==> Decode(lines, Stream(outcomes)[..k]) == outcomes
    decreases |lines|
  {
    if lines != [] {
      var first, tail := Encode(outcomes[0]), Stream(outcomes[1..]);
      CutSum(first, tail, k);
      if k < |first| {
        CutDoesNotDecode(lines[0], outcomes[0], k);
      } else {
        DecodeFirst(lines, outcomes[0], tail[..k - |first|]);
        StreamDecodes(lines[1..], outcomes[1..], k - |first|);
      }
    }
  }

  /** At any time in any run, what was sent so far decodes to a beginning of the outcomes, and all of it to all. */
  lemma ClientDecodesOutcomes(host: Host, states: seq<Conn>, events: seq<Event>)
    requires IsRun(host, states, events)
    ensures
      var c, lines := states[|events|], Served(Lines(Received(events)));
      && Decode(lines, c.sent) <= Outcomes(host, None, lines)
      && Decode(lines, c.sent + c.writeBuffer) == Outcomes(host, None, lines)
  {
    LinesAreAnswered(host, states, events);
    var c, lines := states[|events|], Served(Lines(Received(events)));
    var outcomes := Outcomes(host, None, lines);
    OutcomesFit(host, None, lines);
    StreamDecodes(lines, outcomes, |Stream(outcomes)|);
    assert Stream(outcomes)[..|Stream(outcomes)|] == Stream(outcomes);
    StreamDecodes(lines, outcomes, |c.sent|);
    assert Stream(outcomes)[..|c.sent|] == c.sent;
  }

  // ----- Reading a file -----

  /** The contents delivered by these outcomes, put together. */
  function Collected(outcomes: seq<Outcome>): bytes {
    if outcomes == [] then [] else
      (if outcomes[0].Content? then outcomes[0].data else []) + Collected(outcomes[1..])
  }

  lemma SlicesJoin(s: bytes, i: nat, j: nat, k: nat)
    requires i <= j <= k <= |s|
    ensures s[i..j] + s[j..k] == s[i..k]
  {
  }

  lemma OneRead(host: Host, content: bytes, position: nat, line: bytes)
    requires position <= |content| && |line| >= 2 && line[0] == LetterR
    ensures
      var (file, outcome) := Handle(host, Some(File(Regular(content), position)), line);
      var end := position + (if outcome.Content? then |outcome.data| else 0);
      && end <= |content| && file == Some(File(Regular(content), end))
      && (outcome.Content? ==> outcome.data == content[position..end])
      && (outcome == Content([]) ==> end == |content|)
  {
  }

  /** Reads, whatever their sizes and whether they succeed, deliver the file without gap or overlap. */
  lemma {:induction false} ReadsAreContiguous(host: Host, content: bytes, position: nat, lines: seq<bytes>)
    requires position <= |content|
    requires forall i :: 0 <= i < |lines| ==> |lines[i]| >= 2 && lines[i][0] == LetterR
    ensures
      var file := Some(File(Regular(content), position));
      var end := position + |Collected(Outcomes(host, file, lines))|;
      && end <= |content|
      && Collected(Outcomes(host, file, lines)) == content[position..end]
      && FileAfter(host, file, lines) == Some(File(Regular(content), end))
    decreases |lines|
  {
    if lines != [] {
      var file := Some(File(Regular(content), position));
      var (file', outcome) := Handle(host, file, lines[0]);
      OneRead(host, content, position, lines[0]);
      var middle := file'.value.position;
      ReadsAreContiguous(host, content, middle, lines[1..]);
      var end := middle + |Collected(Outcomes(host, file', lines[1..]))|;
      SlicesJoin(content, position, middle, end);
    }
  }

  function Min(a: int, b: int): int {
    if a < b then a else b
  }

  /** The bytes of the content from a position on, at most so many. */
  function Slice(content: bytes, position: nat, size: nat): bytes {
    content[Min(position, |content|)..Min(position + size, |content|)]
  }

  /** Where a seek goes to, from the start, the position or the end; a negative number if nowhere. */
  function Destination(content: bytes, position: nat, offset: int32, whence: int32): int {
    match whence case 0 => offset case 1 => position + offset case 2 => |content| + offset case _ => -1
  }

  /** A read delivers the bytes at the position, moves past them, and the client decodes them. */
  lemma ReadDelivers(host: Host, content: bytes, position: nat, line: bytes, size: int32, rest: bytes)
    requires |line| >= 2 && line[0] == LetterR && host.scanSize(CString(line[2..])) == Some(size) && size > 0
    ensures
      var (file, outcome) := Handle(host, Some(File(Regular(content), position)), line);
      var data := Slice(content, position, size);
      && outcome == Content(data) && file == Some(File(Regular(content), position + |data|))
      && DecodeOne(line, Encode(outcome) + rest) == Some((Content(data), |Encode(outcome)|))
  {
    var outcome := Handle(host, Some(File(Regular(content), position)), line).1;
    assert outcome == Content(Slice(content, position, size));
    OneDecodes(line, outcome, rest);
  }

  /** A seek decides where the next read begins; one that leads nowhere fails, and the read goes on where it was. */
  lemma SeekThenRead(
    host: Host, content: bytes, position: nat, seek: bytes, read: bytes, offset: int32, whence: int32, size: int32)
    requires |seek| >= 2 && seek[0] == LetterS && host.scanSeek(CString(seek[2..])) == Some((offset, whence))
    requires |read| >= 2 && read[0] == LetterR && host.scanSize(CString(read[2..])) == Some(size) && size > 0
    ensures
      var file := Some(File(Regular(content), position));
      var destination := Destination(content, position, offset, whence);
      var start := if destination < 0 then position else destination;
      && |Slice(content, start, size)| <= size
      && Outcomes(host, file, [seek, read])
           == [if destination < 0 then Failed else Sought, Content(Slice(content, start, size))]
      && FileAfter(host, file, [seek, read]) == Some(File(Regular(content), start + |Slice(content, start, size)|))
  {
    var file := Some(File(Regular(content), position));
    var file' := Handle(host, file, seek).0;
    ReadDelivers(host, content, file'.value.position, read, size, []);
    assert [seek, read][1..] == [read] && [read][1..] == [];
    assert Outcomes(host, file', [read]) == [Handle(host, file', read).1];
    assert FileAfter(host, file', [read]) == FileAfter(host, Handle(host, file', read).0, []);
  }

  // ----- Single requests on the wire -----

  /** Without an open file, a seek or a read is answered with 'E'; and so is a request with any other letter, with or
      without a file. */
  lemma RefusedOnTheWire(host: Host, c: Conn, letter: byte, argument: bytes)
    requires c.open && !c.crashed && c.readBuffer == [] && Plain(argument)
    requires letter != 79 && letter != 10 && (letter == 82 || letter == 83 ==> c.file.None?)
    ensures Step(host, c, Chunk([letter, 32] + argument + [10])) == c.(writeBuffer := c.writeBuffer + [69])
  {
    var line: bytes := [letter, 32] + argument;
    assert line[2..] == argument;
    OneRequest(host, c, line);
  }

  /** With an open file, a seek that can be scanned and does not lead before the start is answered with 'O' and moves
      the position there; any other is answered with 'E' and changes nothing. */
  lemma SeekOnTheWire(host: Host, c: Conn, argument: bytes)
    requires c.open && !c.crashed && c.readBuffer == [] && Plain(argument) && c.file.Some?
    ensures
      var c' := Step(host, c, Chunk([83, 32] + argument + [10]));
      var scanned := host.scanSeek(argument);
      var content := match c.file.value.node case Regular(content) => content case Directory => [];
      var destination :=
        if scanned.None? then -1
        else Destination(content, c.file.value.position, scanned.value.0, scanned.value.1);
      if destination < 0 then c' == c.(writeBuffer := c.writeBuffer + [69])
      else c' == c.(writeBuffer := c.writeBuffer + [79], file := Some(File(c.file.value.node, destination)))
  {
    var line: bytes := [83, 32] + argument;
    assert line[2..] == argument;
    OneRequest(host, c, line);
    PlainCString(argument);
  }

  /** With an open file, a read of a size that cannot be scanned or is not positive is answered with 'E'; and so is a
      read of a directory, which is then closed. */
  lemma BadReadOnTheWire(host: Host, c: Conn, argument: bytes)
    requires c.open && !c.crashed && c.readBuffer == [] && Plain(argument) && c.file.Some?
    requires
      || c.file.value.node.Directory? || host.scanSize(argument).None? || host.scanSize(argument).value <= 0
    ensures
      var c' := Step(host, c, Chunk([82, 32] + argument + [10]));
      c' == c.(writeBuffer := c.writeBuffer + [69],
               file := if host.scanSize(argument).Some? && host.scanSize(argument).value > 0 then None else c.file)
  {
    var line: bytes := [82, 32] + argument;
    assert line[2..] == argument;
    OneRequest(host, c, line);
    PlainCString(argument);
  }

  /** With an open file, any other read is answered with 'O', the number of bytes in network order and the bytes at the
      position, which moves past them. */
  lemma ReadOnTheWire(host: Host, c: Conn, argument: bytes, content: bytes, size: int32)
    requires c.open && !c.crashed && c.readBuffer == [] && Plain(argument)
    requires c.file.Some? && c.file.value.node == Regular(content) && host.scanSize(argument) == Some(size) && size > 0
    ensures
      var c' := Step(host, c, Chunk([82, 32] + argument + [10]));
      var data := Slice(content, c.file.value.position, size);
      && |data| <= size
      && c' == c.(writeBuffer := c.writeBuffer + ([79] + NetworkOrder(|data|) + data),
                  file := Some(File(Regular(content), c.file.value.position + |data|)))
  {
    var line: bytes := [82, 32] + argument;
    assert line[2..] == argument;
    OneRequest(host, c, line);
    PlainCString(argument);
    ReadDelivers(host, content, c.file.value.position, line, size, []);
  }

  /** A client that opens a file and reads until it gets nothing more has all of it. */
  lemma ReadToTheEnd(host: Host, path: bytes, content: bytes, lines: seq<bytes>)
    requires path in host.files && host.files[path] == Regular(content)
    requires |lines| >= 2 && AllLong(lines)
    requires lines[0][0] == LetterO && CString(lines[0][2..]) == path
    requires forall i :: 1 <= i < |lines| ==> lines[i][0] == LetterR
    requires Outcomes(host, None, lines)[|lines| - 1] == Content([])
    ensures Collected(Outcomes(host, None, lines)) == content
  {
    var file := Some(File(Regular(content), 0));
    var tail := lines[1..];
    ReadsAreContiguous(host, content, 0, tail);
    LastReadAtEnd(host, content, 0, tail);
    assert Outcomes(host, None, lines)[1..] == Outcomes(host, file, tail);
  }

  lemma {:induction false} LastReadAtEnd(host: Host, content: bytes, position: nat, lines: seq<bytes>)
    requires position <= |content| && lines != []
    requires forall i :: 0 <= i < |lines| ==> |lines[i]| >= 2 && lines[i][0] == LetterR
    requires Outcomes(host, Some(File(Regular(content), position)), lines)[|lines| - 1] == Content([])
    ensures FileAfter(host, Some(File(Regular(content), position)), lines) == Some(File(Regular(content), |content|))
    decreases |lines|
  {
    var file := Some(File(Regular(content), position));
    var (file', outcome) := Handle(host, file, lines[0]);
    OneRead(host, content, position, lines[0]);
    if |lines| > 1 {
      LastReadAtEnd(host, content, file'.value.position, lines[1..]);
    }
  }
}
