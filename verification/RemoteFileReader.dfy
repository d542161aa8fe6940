/**
  The remote file reader: a server that reads requests line by line from a socket and answers into a buffer.

  The socket is what the events say: a chunk of bytes read, a number of bytes written.  Files are a map from paths
  to contents, and the two sscanf calls are partial functions.  A request of fewer than two bytes makes the server
  construct a string from beyond its end: the exception is not caught, and the process ends.
 */
module RemoteFileReader {
  import opened Wrappers

  type byte = x: int | 0 <= x < 256
  type bytes = seq<byte>
  type int32 = x: int | -0x8000_0000 <= x < 0x8000_0000

  /** What one read command can deliver: its size is an int32. */
  type block = s: seq<byte> | |s| < 0x8000_0000

  const Newline: byte := 10
  const LetterE: byte := 69
  const LetterO: byte := 79
  const LetterR: byte := 82
  const LetterS: byte := 83
  const Success: byte := LetterO
  const Error: byte := LetterE

  /** What a path can lead to; a directory can be opened but not read. */
  datatype Node = Regular(content: bytes) | Directory

  datatype File = File(node: Node, position: nat)

  datatype Host = Host(
    files: map<bytes, Node>,
    scanSeek: bytes -> Option<(int32, int32)>,
    scanSize: bytes -> Option<int32>)

  /** What a request comes to. */
  datatype Outcome = Failed | Opened | Sought | Content(data: block)

  // ----- Requests -----

  /** The bytes before the first newline, or all of them. */
  function FirstLine(s: bytes): (n: nat)
    ensures n <= |s|
    ensures forall i :: 0 <= i < n ==> s[i] != Newline
    ensures n < |s| ==> s[n] == Newline
  {
    if s == [] || s[0] == Newline then 0 else 1 + FirstLine(s[1..])
  }

  /** What c_str() shows of a string. */
  function CString(s: bytes): bytes {
    if s == [] || s[0] == 0 then [] else [s[0]] + CString(s[1..])
  }

  /** The complete lines of the input, without their newlines. */
  function Lines(input: bytes): seq<bytes>
    decreases |input|
  {
    var n := FirstLine(input);
    if n == |input| then [] else [input[..n]] + Lines(input[n + 1..])
  }

  /** What follows the last newline. */
  function Rest(input: bytes): bytes
    decreases |input|
  {
    var n := FirstLine(input);
    if n == |input| then input else Rest(input[n + 1..])
  }

  /** The lines before the first that is too short to be a request. */
  function Served(lines: seq<bytes>): (r: seq<bytes>)
    ensures forall i :: 0 <= i < |r| ==> |r[i]| >= 2
    ensures |r| <= |lines|
  {
    if lines == [] || |lines[0]| < 2 then [] else [lines[0]] + Served(lines[1..])
  }

  /** What is left of the input after the last complete line or the first that is too short. */
  function Remaining(input: bytes): bytes
    decreases |input|
  {
    var n := FirstLine(input);
    if n == |input| then input
    else if n < 2 then input[n + 1..]
    else Remaining(input[n + 1..])
  }

  // ----- Files -----

  function OpenFile(host: Host, argument: bytes): (Option<File>, Outcome) {
    var path := CString(argument);
    if path in host.files then (Some(File(host.files[path], 0)), Opened) else (None, Failed)
  }

  function Size(file: File): nat {
    match file.node case Regular(content) => |content| case Directory => 0
  }

  /** lseek: -1 when the whence is unknown or the new position is negative. */
  function Target(file: File, offset: int32, whence: int32): (r: int)
    ensures r >= -1
  {
    var target :=
      if whence == 0 then offset
      else if whence == 1 then file.position + offset
      else if whence == 2 then Size(file) + offset
      else -1;
    if target < 0 then -1 else target
  }

  function SeekFile(host: Host, file: Option<File>, argument: bytes): (Option<File>, Outcome) {
    if file.None? then (file, Failed) else
    match host.scanSeek(CString(argument))
    case None => (file, Failed)
    case Some((offset, whence)) =>
      var target := Target(file.value, offset, whence);
      if target == -1 then (file, Failed) else (Some(file.value.(position := target)), Sought)
  }

  /** The bytes that read gets from this position. */
  function Piece(content: bytes, position: nat, size: int32): (r: block)
    requires size > 0
    ensures |r| <= size
  {
    if position >= |content| then []
    else if position + size <= |content| then content[position..position + size]
    else content[position..]
  }

  function ReadFile(host: Host, file: Option<File>, argument: bytes): (Option<File>, Outcome) {
    if file.None? then (file, Failed) else
    match host.scanSize(CString(argument))
    case None => (file, Failed)
    case Some(size) =>
      if size <= 0 then (file, Failed)
      else if file.value.node.Directory? then (None, Failed)
      else
        var data := Piece(file.value.node.content, file.value.position, size);
        (Some(file.value.(position := file.value.position + |data|)), Content(data))
  }

  /** One request: the file afterwards, and the outcome. */
  function Handle(host: Host, file: Option<File>, line: bytes): (Option<File>, Outcome)
    requires |line| >= 2
  {
    var argument := line[2..];
    if line[0] == LetterO then OpenFile(host, argument)
    else if line[0] == LetterS then SeekFile(host, file, argument)
    else if line[0] == LetterR then ReadFile(host, file, argument)
    else (file, Failed)
  }

  ghost predicate AllLong(lines: seq<bytes>) {
    forall i :: 0 <= i < |lines| ==> |lines[i]| >= 2
  }

  function Outcomes(host: Host, file: Option<File>, lines: seq<bytes>): (r: seq<Outcome>)
    requires AllLong(lines)
    ensures |r| == |lines|
    decreases |lines|
  {
    if lines == [] then [] else
      var (file', outcome) := Handle(host, file, lines[0]);
      [outcome] + Outcomes(host, file', lines[1..])
  }

  function FileAfter(host: Host, file: Option<File>, lines: seq<bytes>): Option<File>
    requires AllLong(lines)
    decreases |lines|
  {
    if lines == [] then file else FileAfter(host, Handle(host, file, lines[0]).0, lines[1..])
  }

  // ----- Responses -----

  /** A 32-bit number in network order. */
  function NetworkOrder(n: nat): (r: bytes)
    requires n < 0x1_0000_0000
    ensures |r| == 4
  {
    [n / 0x100_0000, n / 0x1_0000 % 0x100, n / 0x100 % 0x100, n % 0x100]
  }

  function Encode(outcome: Outcome): bytes {
    match outcome
    case Failed => [Error]
    case Opened => [Success]
    case Sought => [Success]
    case Content(data) => [Success] + NetworkOrder(|data|) + data
  }

  function Stream(outcomes: seq<Outcome>): bytes {
    if outcomes == [] then [] else Encode(outcomes[0]) + Stream(outcomes[1..])
  }

  // ----- Connections -----

  datatype Conn = Conn(
    open: bool, crashed: bool, readBuffer: bytes, writeBuffer: bytes, file: Option<File>, sent: bytes)

  /** Chunk: what read delivered, nothing when it failed.  Drain: what write returned. */
  datatype Event = Chunk(data: bytes) | Drain(written: int)

  const Fresh: Conn := Conn(true, false, [], [], None, [])

  function Closed(c: Conn): Conn {
    c.(open := false, file := None)
  }

  /** One request handled and its response buffered. */
  function Handled(host: Host, c: Conn, line: bytes): Conn
    requires |line| >= 2
  {
    var (file, outcome) := Handle(host, c.file, line);
    c.(file := file, writeBuffer := c.writeBuffer + Encode(outcome))
  }

  /** The buffered input is taken line by line; a line that is too short ends it all. */
  function Answered(host: Host, c: Conn): Conn
    decreases |c.readBuffer|
  {
    var n := FirstLine(c.readBuffer);
    if n == |c.readBuffer| then c else
      var line, rest := c.readBuffer[..n], c.readBuffer[n + 1..];
      if n < 2 then c.(crashed := true, readBuffer := rest)
      else Answered(host, Handled(host, c, line).(readBuffer := rest))
  }

  /** Connections that are closed or crashed are never called again; write never reports more than it was given. */
  predicate Possible(c: Conn, e: Event) {
    && c.open && !c.crashed
    && (e.Drain? ==> e.written <= |c.writeBuffer|)
  }

  function Step(host: Host, c: Conn, e: Event): Conn
    requires Possible(c, e)
  {
    match e
    case Chunk(data) =>
      if data == [] then Closed(c) else Answered(host, c.(readBuffer := c.readBuffer + data))
    case Drain(n) =>
      if n <= 0 then Closed(c)
      else c.(sent := c.sent + c.writeBuffer[..n], writeBuffer := c.writeBuffer[n..])
  }

  // ----- One request on the wire -----

  /** No newline and no NUL: what a C string in a request can be. */
  predicate Plain(s: bytes) {
    forall i :: 0 <= i < |s| ==> s[i] != 10 && s[i] != 0
  }

  lemma {:induction false} PlainCString(s: bytes)
    requires Plain(s)
    ensures CString(s) == s
  {
    if s != [] {
      PlainCString(s[1..]);
      assert s == [s[0]] + s[1..];
    }
  }

  /** A whole request that arrives alone is handled, and nothing of it is left. */
  lemma OneRequest(host: Host, c: Conn, line: bytes)
    requires Possible(c, Chunk(line + [10])) && c.readBuffer == []
    requires |line| >= 2 && forall i :: 0 <= i < |line| ==> line[i] != 10
    ensures Step(host, c, Chunk(line + [10])) == Handled(host, c, line)
  {
    var input: bytes := line + [10];
    assert [] + input == input;
    assert input[|line|] == Newline && forall i :: 0 <= i < |line| ==> input[i] == line[i];
    assert FirstLine(input) == |line|;
    assert input[..|line|] == line && input[|line| + 1..] == [];
    var rest: bytes := [];
    assert FirstLine(rest) == 0;
    assert Answered(host, Handled(host, c.(readBuffer := input), line).(readBuffer := rest)) == Handled(host, c, line);
  }

  /** On the wire: an open request is answered with 'O', and the file is open at its start, if the path leads to
      something; otherwise with 'E', and no file is open. */
  lemma OpenOnTheWire(host: Host, c: Conn, path: bytes)
    requires c.open && !c.crashed && c.readBuffer == [] && Plain(path)
    ensures
      var c' := Step(host, c, Chunk([79, 32] + path + [10]));
      if path in host.files
      then c' == c.(writeBuffer := c.writeBuffer + [79], file := Some(File(host.files[path], 0)))
      else c' == c.(writeBuffer := c.writeBuffer + [69], file := None)
  {
    var line: bytes := [79, 32] + path;
    assert line[2..] == path;
    OneRequest(host, c, line);
    PlainCString(path);
  }

  class Connection {
    const host: Host
    var open: bool
    var crashed: bool
    var readBuffer: bytes
    var writeBuffer: bytes
    var file: Option<File>
    var sent: bytes

    ghost function View(): Conn
      reads this
    {
      Conn(open, crashed, readBuffer, writeBuffer, file, sent)
    }

    constructor (host: Host)
      ensures View() == Fresh && this.host == host
    {
      this.host := host;
      open, crashed, readBuffer, writeBuffer, file, sent := true, false, [], [], None, [];
    }

    method Close()
      modifies this`open, this`file
      ensures View() == Closed(old(View()))
    {
      open := false;
      file := None;
    }

    method Write(written: int) returns (ok: bool)
      requires Possible(View(), Drain(written))
      modifies this
      ensures View() == Step(host, old(View()), Drain(written))
      ensures sent + writeBuffer == old(sent + writeBuffer)
      ensures ok ==> |sent| == |old(sent)| + written
      ensures ok <==> written > 0
      ensures open == ok && (!ok ==> file.None?)
    {
      if written <= 0 {
        Close();
        return false;
      }
      sent := sent + writeBuffer[..written];
      writeBuffer := writeBuffer[written..];
      return true;
    }

    method Read(chunk: bytes) returns (ok: bool)
      requires Possible(View(), Chunk(chunk))
      modifies this
      ensures View() == Step(host, old(View()), Chunk(chunk))
      ensures ok <==> chunk != []
      ensures open == ok && (!ok ==> file.None?)
      ensures old(readBuffer) == [] && |chunk| >= 3 && Plain(chunk[2..|chunk| - 1]) &&
              chunk == [79, 32] + chunk[2..|chunk| - 1] + [10] ==>
                var path := chunk[2..|chunk| - 1];
                && writeBuffer == old(writeBuffer) + (if path in host.files then [79] else [69])
                && file == (if path in host.files then Some(File(host.files[path], 0)) else None)
                && open && !crashed && readBuffer == []
    {
      if readBuffer == [] && |chunk| >= 3 && Plain(chunk[2..|chunk| - 1]) {
        OpenOnTheWire(host, View(), chunk[2..|chunk| - 1]);
      }
      if chunk == [] {
        Close();
        return false;
      }
      readBuffer := readBuffer + chunk;
      Respond();
      return true;
    }

    method Respond()
      requires open && !crashed
      modifies this`crashed, this`readBuffer, this`writeBuffer, this`file
      ensures View() == Answered(host, old(View()))
    {
      var eol := FirstLine(readBuffer);
      while eol != |readBuffer|
        invariant eol == FirstLine(readBuffer) && !crashed
        invariant Answered(host, View()) == Answered(host, old(View()))
        decreases |readBuffer|
      {
        var command := readBuffer[..eol];
        readBuffer := readBuffer[eol + 1..];
        if |command| < 2 {
          crashed := true;
          return;
        }
        Execute(command);
        eol := FirstLine(readBuffer);
      }
    }

    method Execute(command: bytes)
      requires |command| >= 2
      modifies this`file, this`writeBuffer
      ensures View() == Handled(host, old(View()), command)
    {
      var argument := command[2..];
      if command[0] == LetterO {
        OpenCommand(argument);
      } else if command[0] == LetterS {
        SeekCommand(argument);
      } else if command[0] == LetterR {
        ReadCommand(argument);
      } else {
        writeBuffer := writeBuffer + [Error];
      }
    }

    method OpenCommand(argument: bytes)
      modifies this`file, this`writeBuffer
      ensures file == OpenFile(host, argument).0
      ensures writeBuffer == old(writeBuffer) + Encode(OpenFile(host, argument).1)
    {
      file := None;
      var path := CString(argument);
      if path !in host.files {
        writeBuffer := writeBuffer + [Error];
        return;
      }
      file := Some(File(host.files[path], 0));
      writeBuffer := writeBuffer + [Success];
    }

    method SeekCommand(argument: bytes)
      modifies this`file, this`writeBuffer
      ensures file == SeekFile(host, old(file), argument).0
      ensures writeBuffer == old(writeBuffer) + Encode(SeekFile(host, old(file), argument).1)
    {
      if file.None? {
        writeBuffer := writeBuffer + [Error];
        return;
      }
      var scanned := host.scanSeek(CString(argument));
      if scanned.None? {
        writeBuffer := writeBuffer + [Error];
        return;
      }
      var target := Target(file.value, scanned.value.0, scanned.value.1);
      if target == -1 {
        writeBuffer := writeBuffer + [Error];
        return;
      }
      file := Some(file.value.(position := target));
      writeBuffer := writeBuffer + [Success];
    }

    method ReadCommand(argument: bytes)
      modifies this`file, this`writeBuffer
      ensures file == ReadFile(host, old(file), argument).0
      ensures writeBuffer == old(writeBuffer) + Encode(ReadFile(host, old(file), argument).1)
    {
      if file.None? {
        writeBuffer := writeBuffer + [Error];
        return;
      }
      var scanned := host.scanSize(CString(argument));
      if scanned.None? || scanned.value <= 0 {
        writeBuffer := writeBuffer + [Error];
        return;
      }
      if file.value.node.Directory? {
        file := None;
        writeBuffer := writeBuffer + [Error];
        return;
      }
      var data := Piece(file.value.node.content, file.value.position, scanned.value);
      file := Some(file.value.(position := file.value.position + |data|));
      writeBuffer := writeBuffer + [Success];
      writeBuffer := writeBuffer + NetworkOrder(|data|);
      writeBuffer := writeBuffer + data;
    }
  }
}
