/** Files as strings: reading them line by line, each line with its newline, and writing lines one after the other. */
module FileText {

  /** The lines of a file; only the last may lack its newline. */
  function ReadLines(file: string): seq<string>
    decreases |file|
  {
    if file == "" then [] else
      var n := LineLength(file);
      [file[..n]] + ReadLines(file[n..])
  }

  /** The length of the first line, newline included. */
  function LineLength(file: string): (n: nat)
    requires file != ""
    ensures 0 < n <= |file| && (n < |file| ==> file[n - 1] == '\n')
    ensures forall i :: 0 <= i < n - 1 ==> file[i] != '\n'
  {
    if file[0] == '\n' || |file| == 1 then 1 else 1 + LineLength(file[1..])
  }

  function WriteLines(lines: seq<string>): string {
    if lines == [] then "" else lines[0] + WriteLines(lines[1..])
  }

  /** A line with its newline, and one that has none. */
  predicate Ended(line: string) {
    line != "" && line[|line| - 1] == '\n' && forall i :: 0 <= i < |line| - 1 ==> line[i] != '\n'
  }

  predicate Unended(line: string) {
    line != "" && forall i :: 0 <= i < |line| ==> line[i] != '\n'
  }

  /** What reading a file can give. */
  ghost predicate Readable(lines: seq<string>) {
    && (forall i :: 0 <= i < |lines| - 1 ==> Ended(lines[i]))
    && (lines != [] ==> Ended(lines[|lines| - 1]) || Unended(lines[|lines| - 1]))
  }

  lemma Halves(file: string, n: nat)
    requires n <= |file|
    ensures file[..n] + file[n..] == file
  {
  }

  lemma WriteFirst(line: string, rest: seq<string>)
    ensures WriteLines([line] + rest) == line + WriteLines(rest)
  {
    assert ([line] + rest)[1..] == rest;
  }

  /** Writing back what was read gives the file. */
  lemma {:induction false} WriteWhatWasRead(file: string)
    ensures WriteLines(ReadLines(file)) == file
    decreases |file|
  {
    if file != "" {
      var n := LineLength(file);
      WriteWhatWasRead(file[n..]);
      WriteFirst(file[..n], ReadLines(file[n..]));
      Halves(file, n);
    }
  }

  lemma FirstLineIsEnded(file: string, n: nat)
    requires 0 < n <= |file| && (n < |file| ==> file[n - 1] == '\n')
    requires forall i :: 0 <= i < n - 1 ==> file[i] != '\n'
    ensures Ended(file[..n]) || (Unended(file[..n]) && n == |file|)
  {
    var line := file[..n];
    assert forall i :: 0 <= i < n ==> line[i] == file[i];
  }

  lemma {:induction false} ReadIsReadable(file: string)
    ensures Readable(ReadLines(file))
    decreases |file|
  {
    if file != "" {
      var n := LineLength(file);
      FirstLineIsEnded(file, n);
      ReadIsReadable(file[n..]);
      var rest := ReadLines(file[n..]);
      assert ReadLines(file) == [file[..n]] + rest;
    }
  }

  lemma EndedLength(line: string, rest: string)
    requires Ended(line) || (Unended(line) && rest == "")
    ensures LineLength(line + rest) == |line|
  {
    var file := line + rest;
    var n := LineLength(file);
    assert forall i :: 0 <= i < |line| ==> file[i] == line[i];
    assert file[|line| - 1] == line[|line| - 1] && file[n - 1] == (line + rest)[n - 1];
  }

  lemma {:induction false} ReadWhatWasWritten(lines: seq<string>)
    requires Readable(lines)
    ensures ReadLines(WriteLines(lines)) == lines
    decreases |lines|
  {
    if lines != [] {
      var line, rest := lines[0], lines[1..];
      assert forall i :: 0 <= i < |rest| ==> rest[i] == lines[i + 1];
      ReadWhatWasWritten(rest);
      assert rest == [] ==> WriteLines(rest) == "";
      EndedLength(line, WriteLines(rest));
      var file := WriteLines(lines);
      assert file == line + WriteLines(rest);
      assert file[..|line|] == line && file[|line|..] == WriteLines(rest);
      assert lines == [line] + rest;
    }
  }

  /** Lines come back as they were written if and only if only the last lacks its newline. */
  lemma ReadBackIff(lines: seq<string>)
    ensures ReadLines(WriteLines(lines)) == lines <==> Readable(lines)
  {
    if Readable(lines) {
      ReadWhatWasWritten(lines);
    } else {
      ReadIsReadable(WriteLines(lines));
    }
  }

  lemma {:induction false} WriteEnd(lines: seq<string>)
    requires lines != [] && lines[|lines| - 1] != ""
    ensures
      var file, last := WriteLines(lines), lines[|lines| - 1];
      file != "" && file[|file| - 1] == last[|last| - 1]
    decreases |lines|
  {
    if |lines| == 1 {
      assert WriteLines(lines) == lines[0] + WriteLines([]);
    } else {
      WriteEnd(lines[1..]);
    }
  }

  /** A file that ends in a newline has ended lines only. */
  lemma EndedFile(file: string)
    requires file != "" && file[|file| - 1] == '\n'
    ensures forall i :: 0 <= i < |ReadLines(file)| ==> Ended(ReadLines(file)[i])
  {
    var lines := ReadLines(file);
    ReadIsReadable(file);
    WriteWhatWasRead(file);
    WriteEnd(lines);
  }

  /** ... and one that does not has one line that is not: the last. */
  lemma UnendedFile(file: string)
    requires file != "" && file[|file| - 1] != '\n'
    ensures ReadLines(file) != [] && Unended(ReadLines(file)[|ReadLines(file)| - 1])
  {
    ReadIsReadable(file);
    WriteWhatWasRead(file);
    WriteEnd(ReadLines(file));
  }
}
