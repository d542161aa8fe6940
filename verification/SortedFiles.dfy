/**
  Sorting the runs of a file: its lines are read with their newlines, the runs are sorted, and the lines are written one
  after the other.  A last line without a newline that moves up takes its successor onto its own line.
 */
module SortedFiles {
  import opened StableSort
  import opened LineBlocks
  import opened SortedRuns
  import opened FileText

  function SortFile(file: string, inRun: string -> bool, leq: (string, string) -> bool): string {
    WriteLines(SortRuns(ReadLines(file), inRun, leq))
  }

  /** The file ends in a newline, or no line of its last run belongs after its last line. */
  ghost predicate SafeEnd(file: string, inRun: string -> bool, leq: (string, string) -> bool) {
    file == "" || file[|file| - 1] == '\n' ||
    var lines := ReadLines(file);
    forall i :: RunStart(lines, inRun) <= i < |lines| ==> leq(lines[i], lines[|lines| - 1])
  }

  // ----- Rearranged lines -----

  lemma AllEndedStay(lines: seq<string>, sorted: seq<string>)
    requires multiset(sorted) == multiset(lines) && forall i :: 0 <= i < |lines| ==> Ended(lines[i])
    ensures forall i :: 0 <= i < |sorted| ==> Ended(sorted[i])
  {
    forall i | 0 <= i < |sorted|
      ensures Ended(sorted[i])
    {
      assert sorted[i] in multiset(lines);
    }
  }

  lemma WithoutOne(a: multiset<string>, b: multiset<string>, x: string)
    requires a + multiset{x} == b + multiset{x}
    ensures a == b
  {
    assert a == (a + multiset{x}) - multiset{x} && b == (b + multiset{x}) - multiset{x};
  }

  /** Rearranged lines can be read back if the last is still the last. */
  lemma StaysReadable(lines: seq<string>, sorted: seq<string>)
    requires Readable(lines) && lines != [] && multiset(sorted) == multiset(lines)
    requires |sorted| == |lines| && sorted[|lines| - 1] == lines[|lines| - 1]
    ensures Readable(sorted)
  {
    var n := |lines| - 1;
    var init, sortedInit := lines[..n], sorted[..n];
    assert lines == init + [lines[n]] && sorted == sortedInit + [lines[n]];
    assert multiset(lines) == multiset(init) + multiset{lines[n]};
    assert multiset(sorted) == multiset(sortedInit) + multiset{lines[n]};
    WithoutOne(multiset(sortedInit), multiset(init), lines[n]);
    AllEndedStay(init, sortedInit);
  }

  /** ... and only then, if the last has no newline. */
  lemma UnendedStaysLast(lines: seq<string>, sorted: seq<string>)
    requires lines != [] && Unended(lines[|lines| - 1]) && multiset(sorted) == multiset(lines) && Readable(sorted)
    ensures |sorted| == |lines| && sorted[|lines| - 1] == lines[|lines| - 1]
  {
    var x := lines[|lines| - 1];
    assert |multiset(sorted)| == |multiset(lines)|;
    assert x in multiset(sorted);
    var i :| 0 <= i < |sorted| && sorted[i] == x;
    assert !Ended(x);
  }

  // ----- The last line of the sorted file -----

  lemma SortedLast(lines: seq<string>, inRun: string -> bool, leq: (string, string) -> bool)
    requires TotalPreorder(leq) && lines != []
    ensures |SortRuns(lines, inRun, leq)| == |lines|
    ensures SortRuns(lines, inRun, leq)[|lines| - 1] == lines[|lines| - 1]
      <==> forall i :: RunStart(lines, inRun) <= i < |lines| ==> leq(lines[i], lines[|lines| - 1])
  {
    var k, n := RunStart(lines, inRun), |lines| - 1;
    var sorted := SortRuns(lines, inRun, leq);
    SorterRearranges(inRun, leq);
    LastRunIsMapped(lines, inRun, Sorter(leq));
    if k == |lines| {
      OthersStay(lines, inRun, Sorter(leq), n);
    } else {
      var run := lines[k..];
      SortKeepsLastIff(run, leq);
      assert sorted[n] == sorted[k..][n - k] && run[|run| - 1] == lines[n];
      assert forall i :: 0 <= i < |run| ==> run[i] == lines[k + i];
      assert forall i :: k <= i < |lines| ==> lines[i] == run[i - k];
    }
  }

  // ----- Results -----

  lemma SortRunsPermutes(lines: seq<string>, inRun: string -> bool, leq: (string, string) -> bool)
    requires TotalPreorder(leq)
    ensures multiset(SortRuns(lines, inRun, leq)) == multiset(lines) && |SortRuns(lines, inRun, leq)| == |lines|
    ensures SortRuns(SortRuns(lines, inRun, leq), inRun, leq) == SortRuns(lines, inRun, leq)
  {
    SorterRearranges(inRun, leq);
    MapRunsPermutes(lines, inRun, Sorter(leq));
    MapRunsIdempotent(lines, inRun, Sorter(leq));
  }

  lemma SortedIsReadableIff(file: string, inRun: string -> bool, leq: (string, string) -> bool)
    requires TotalPreorder(leq)
    ensures Readable(SortRuns(ReadLines(file), inRun, leq)) <==> SafeEnd(file, inRun, leq)
  {
    var lines := ReadLines(file);
    var sorted := SortRuns(lines, inRun, leq);
    SortRunsPermutes(lines, inRun, leq);
    ReadIsReadable(file);
    if file != "" && file[|file| - 1] == '\n' {
      EndedFile(file);
      AllEndedStay(lines, sorted);
    } else if file != "" {
      UnendedFile(file);
      SortedLast(lines, inRun, leq);
      if sorted[|lines| - 1] == lines[|lines| - 1] {
        StaysReadable(lines, sorted);
      } else if Readable(sorted) {
        UnendedStaysLast(lines, sorted);
      }
    }
  }

  /** The sorted file, read again, has the sorted lines if and only if its end is safe. */
  lemma ReadsBackIff(file: string, inRun: string -> bool, leq: (string, string) -> bool)
    requires TotalPreorder(leq)
    ensures ReadLines(SortFile(file, inRun, leq)) == SortRuns(ReadLines(file), inRun, leq)
      <==> SafeEnd(file, inRun, leq)
  {
    SortedIsReadableIff(file, inRun, leq);
    ReadBackIff(SortRuns(ReadLines(file), inRun, leq));
  }

  /** If its end is not safe, the sorted file ends in a newline, though the file did not. */
  lemma UnsafeEndsInNewline(file: string, inRun: string -> bool, leq: (string, string) -> bool)
    requires TotalPreorder(leq) && !SafeEnd(file, inRun, leq)
    ensures
      var g := SortFile(file, inRun, leq);
      file != "" && file[|file| - 1] != '\n' && g != "" && g[|g| - 1] == '\n'
  {
    var lines := ReadLines(file);
    var sorted := SortRuns(lines, inRun, leq);
    SortRunsPermutes(lines, inRun, leq);
    UnendedFile(file);
    SortedLast(lines, inRun, leq);
    OtherLastIsEnded(file, sorted);
    WriteEnd(sorted);
  }

  lemma OtherLastIsEnded(file: string, sorted: seq<string>)
    requires ReadLines(file) != [] && multiset(sorted) == multiset(ReadLines(file))
    requires |sorted| == |ReadLines(file)| && sorted[|sorted| - 1] != ReadLines(file)[|sorted| - 1]
    ensures Ended(sorted[|sorted| - 1])
  {
    var lines, z := ReadLines(file), sorted[|sorted| - 1];
    ReadIsReadable(file);
    assert z in multiset(lines);
    var i :| 0 <= i < |lines| && lines[i] == z;
  }

  /** The lines of the file are all there, each once, if and only if its end is safe. */
  lemma FilePermutesIff(file: string, inRun: string -> bool, leq: (string, string) -> bool)
    requires TotalPreorder(leq)
    ensures multiset(ReadLines(SortFile(file, inRun, leq))) == multiset(ReadLines(file)) <==> SafeEnd(file, inRun, leq)
  {
    var g := SortFile(file, inRun, leq);
    if SafeEnd(file, inRun, leq) {
      ReadsBackIff(file, inRun, leq);
      SortRunsPermutes(ReadLines(file), inRun, leq);
    } else {
      UnsafeEndsInNewline(file, inRun, leq);
      EndedFile(g);
      UnendedFile(file);
      var lines := ReadLines(file);
      var x := lines[|lines| - 1];
      assert x in multiset(lines) && !Ended(x);
      assert x !in multiset(ReadLines(g));
    }
  }

  /** A file is left as it is if and only if no line of a run is directly followed by one that belongs before it. */
  lemma FileUnchangedIff(file: string, inRun: string -> bool, leq: (string, string) -> bool)
    requires TotalPreorder(leq)
    ensures SortFile(file, inRun, leq) == file <==> forall i: nat :: !OutOfOrderAt(ReadLines(file), inRun, leq, i)
  {
    UnchangedIffInOrder(ReadLines(file), inRun, leq);
    WriteWhatWasRead(file);
    if SafeEnd(file, inRun, leq) {
      ReadsBackIff(file, inRun, leq);
    } else {
      UnsafeEndsInNewline(file, inRun, leq);
    }
  }

  /** Sorting again changes nothing if and only if the first time left no line out of order; so if the end is safe. */
  lemma FileIdempotentIff(file: string, inRun: string -> bool, leq: (string, string) -> bool)
    requires TotalPreorder(leq)
    ensures
      var g := SortFile(file, inRun, leq);
      SortFile(g, inRun, leq) == g <==> forall i: nat :: !OutOfOrderAt(ReadLines(g), inRun, leq, i)
    ensures
      var g := SortFile(file, inRun, leq);
      SafeEnd(file, inRun, leq) ==> SortFile(g, inRun, leq) == g
  {
    FileUnchangedIff(SortFile(file, inRun, leq), inRun, leq);
    if SafeEnd(file, inRun, leq) {
      ReadsBackIff(file, inRun, leq);
      SortRunsPermutes(ReadLines(file), inRun, leq);
    }
  }

  // ----- What goes wrong at an end that is not safe -----

  lemma OneLine(a: string)
    ensures WriteLines([a]) == a
  {
    assert [a][1..] == [] && a + "" == a;
  }

  lemma TwoLines(a: string, b: string)
    ensures WriteLines([a, b]) == a + b
  {
    assert [a, b][1..] == [b];
    OneLine(b);
  }

  lemma ThreeLines(a: string, b: string, c: string)
    ensures WriteLines([a, b, c]) == a + b + c
  {
    assert [a, b, c][1..] == [b, c];
    TwoLines(b, c);
    assert a + (b + c) == a + b + c;
  }

  lemma GluedIsEnded(a: string, b: string)
    requires Unended(a) && Ended(b)
    ensures Ended(a + b)
  {
  }

  lemma SortTwo(a: string, b: string, inRun: string -> bool, leq: (string, string) -> bool)
    requires inRun(a) && inRun(b) && !leq(a, b)
    ensures SortRuns([a, b], inRun, leq) == [b, a]
  {
    MapRunsOfRun([a, b], inRun, Sorter(leq));
    assert [a, b][1..] == [b] && [b][1..] == [];
    assert Sort([b], leq) == [b];
    assert Insert(a, [b], leq) == [b] + Insert(a, [], leq);
  }

  /** Two lines in the wrong order, the last without a newline, become one. */
  lemma LastIsGlued(b: string, a: string, inRun: string -> bool, leq: (string, string) -> bool)
    requires Ended(b) && Unended(a) && inRun(b) && inRun(a) && !leq(b, a)
    ensures SortFile(b + a, inRun, leq) == a + b
    ensures ReadLines(b + a) == [b, a] && ReadLines(a + b) == [a + b]
  {
    TwoLines(b, a);
    TwoLines(a, b);
    ReadWhatWasWritten([b, a]);
    SortTwo(b, a, inRun, leq);
    GluedIsEnded(a, b);
    OneLine(a + b);
    ReadWhatWasWritten([a + b]);
  }

  lemma SortThree(y: string, x: string, inRun: string -> bool, leq: (string, string) -> bool)
    requires inRun(y) && inRun(x) && !leq(y, x) && leq(y, y)
    ensures SortRuns([y, y, x], inRun, leq) == [x, y, y]
  {
    MapRunsOfRun([y, y, x], inRun, Sorter(leq));
    assert [y, y, x][1..] == [y, x] && [y, x][1..] == [x] && [x][1..] == [];
    assert Sort([x], leq) == [x];
    assert Insert(y, [x], leq) == [x] + Insert(y, [], leq);
    assert Sort([y, x], leq) == Insert(y, Sort([x], leq), leq) == [x, y];
    assert [x, y][1..] == [y];
    assert Insert(y, [x, y], leq) == [x] + Insert(y, [y], leq);
    assert Sort([y, y, x], leq) == Insert(y, Sort([y, x], leq), leq);
  }

  /** Three times the same line: the last, without a newline, moves up, is glued to the next, and belongs after it. */
  lemma GluedBelongsLater(x: string, y: string, inRun: string -> bool, leq: (string, string) -> bool)
    requires TotalPreorder(leq) && Unended(x) && Ended(y) && inRun(x) && inRun(y) && inRun(x + y)
    requires !leq(y, x) && !leq(x + y, y)
    ensures SortFile(y + y + x, inRun, leq) == x + y + y && SortFile(x + y + y, inRun, leq) != x + y + y
  {
    assert leq(y, y);
    ThreeLines(y, y, x);
    ThreeLines(x, y, y);
    ReadWhatWasWritten([y, y, x]);
    SortThree(y, x, inRun, leq);
    GluedIsEnded(x, y);
    TwoLines(x + y, y);
    ReadWhatWasWritten([x + y, y]);
    assert OutOfOrderAt([x + y, y], inRun, leq, 0);
    FileUnchangedIff(x + y + y, inRun, leq);
  }
}
