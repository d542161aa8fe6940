/** Texts in which every maximal run of lines of one kind is rearranged and all other lines stay. */
module LineBlocks {

  /** Where the run of lines at the end of the text begins. */
  function RunStart<T>(lines: seq<T>, inRun: T -> bool): (k: nat)
    ensures k <= |lines|
    ensures forall i :: k <= i < |lines| ==> inRun(lines[i])
    ensures k > 0 ==> !inRun(lines[k - 1])
  {
    if lines == [] || !inRun(lines[|lines| - 1]) then |lines| else RunStart(lines[..|lines| - 1], inRun)
  }

  function MapRuns<T>(lines: seq<T>, inRun: T -> bool, f: seq<T> -> seq<T>): seq<T>
    decreases |lines|
  {
    var k := RunStart(lines, inRun);
    if k == 0 then f(lines) else MapRuns(lines[..k - 1], inRun, f) + [lines[k - 1]] + f(lines[k..])
  }

  ghost predicate AllIn<T>(lines: seq<T>, inRun: T -> bool) {
    forall i :: 0 <= i < |lines| ==> inRun(lines[i])
  }

  /** What is done to a run: its lines are rearranged, and doing it again changes nothing. */
  ghost predicate Rearranged<T>(run: seq<T>, f: seq<T> -> seq<T>) {
    multiset(f(run)) == multiset(run) && f(f(run)) == f(run)
  }

  ghost predicate Rearranges<T(!new)>(inRun: T -> bool, f: seq<T> -> seq<T>) {
    forall run :: AllIn(run, inRun) ==> Rearranged(run, f)
  }

  lemma RearrangedRun<T(!new)>(run: seq<T>, inRun: T -> bool, f: seq<T> -> seq<T>)
    requires Rearranges(inRun, f) && AllIn(run, inRun)
    ensures Rearranged(run, f) && |f(run)| == |run| && AllIn(f(run), inRun)
  {
    assert Rearranged(run, f);
    assert |multiset(f(run))| == |multiset(run)|;
    forall i | 0 <= i < |f(run)|
      ensures inRun(f(run)[i])
    {
      assert f(run)[i] in multiset(run);
    }
  }

  /** The run at the end of a text that ends in a run. */
  lemma {:induction false} RunStartOf<T>(before: seq<T>, run: seq<T>, inRun: T -> bool)
    requires AllIn(run, inRun) && (before == [] || !inRun(before[|before| - 1]))
    ensures RunStart(before + run, inRun) == |before|
  {
    var lines := before + run;
    if run == [] {
      assert lines == before;
    } else {
      assert lines[|lines| - 1] == run[|run| - 1];
      assert lines[..|lines| - 1] == before + run[..|run| - 1];
      RunStartOf(before, run[..|run| - 1], inRun);
    }
  }

  /** One more line that stays, and one more run. */
  lemma MapRunsAppend<T>(before: seq<T>, line: T, run: seq<T>, inRun: T -> bool, f: seq<T> -> seq<T>)
    requires AllIn(run, inRun) && !inRun(line)
    ensures MapRuns(before + [line] + run, inRun, f) == MapRuns(before, inRun, f) + [line] + f(run)
  {
    RunStartOf(before + [line], run, inRun);
    var lines := before + [line] + run;
    assert lines[..|before|] == before && lines[|before|] == line && lines[|before| + 1..] == run;
  }

  lemma MapRunsOfRun<T>(run: seq<T>, inRun: T -> bool, f: seq<T> -> seq<T>)
    requires AllIn(run, inRun)
    ensures MapRuns(run, inRun, f) == f(run)
  {
    RunStartOf([], run, inRun);
    assert [] + run == run;
  }

  /** A text grows by a line that stays, or by a run. */
  lemma MapRunsThenLine<T>(before: seq<T>, line: T, inRun: T -> bool, f: seq<T> -> seq<T>)
    requires !inRun(line) && f([]) == []
    ensures MapRuns(before + [line], inRun, f) == MapRuns(before, inRun, f) + [line]
  {
    MapRunsAppend(before, line, [], inRun, f);
    assert before + [line] + [] == before + [line];
  }

  lemma MapRunsThenRun<T>(before: seq<T>, run: seq<T>, inRun: T -> bool, f: seq<T> -> seq<T>)
    requires AllIn(run, inRun) && f([]) == []
    requires before == [] || !inRun(before[|before| - 1])
    ensures MapRuns(before + run, inRun, f) == MapRuns(before, inRun, f) + f(run)
  {
    if before == [] {
      assert before + run == run;
      MapRunsOfRun(run, inRun, f);
      MapRunsOfRun([], inRun, f);
    } else {
      var init, last := before[..|before| - 1], before[|before| - 1];
      assert before == init + [last];
      MapRunsAppend(init, last, run, inRun, f);
      MapRunsThenLine(init, last, inRun, f);
    }
  }

  lemma PrefixThenLine<T>(lines: seq<T>, n: nat, inRun: T -> bool, f: seq<T> -> seq<T>)
    requires n < |lines| && !inRun(lines[n]) && f([]) == []
    ensures MapRuns(lines[..n + 1], inRun, f) == MapRuns(lines[..n], inRun, f) + [lines[n]]
  {
    MapRunsThenLine(lines[..n], lines[n], inRun, f);
    assert lines[..n] + [lines[n]] == lines[..n + 1];
  }

  lemma PrefixThenRun<T>(lines: seq<T>, n: nat, run: seq<T>, inRun: T -> bool, f: seq<T> -> seq<T>)
    requires n <= |lines| && (n == 0 || !inRun(lines[n - 1])) && f([]) == []
    requires run <= lines[n..] && AllIn(run, inRun)
    ensures MapRuns(lines[..n + |run|], inRun, f) == MapRuns(lines[..n], inRun, f) + f(run)
  {
    MapRunsThenRun(lines[..n], run, inRun, f);
    assert lines[..n] + run == lines[..n + |run|];
  }

  lemma PrefixThenBoth<T>(lines: seq<T>, n: nat, m: nat, run: seq<T>, inRun: T -> bool, f: seq<T> -> seq<T>)
    requires n <= |lines| && (n == 0 || !inRun(lines[n - 1])) && f([]) == []
    requires run <= lines[n..] && AllIn(run, inRun) && m == n + |run| < |lines| && !inRun(lines[m])
    ensures MapRuns(lines[..m + 1], inRun, f) == MapRuns(lines[..n], inRun, f) + f(run) + [lines[m]]
  {
    PrefixThenRun(lines, n, run, inRun, f);
    PrefixThenLine(lines, m, inRun, f);
  }

  // ----- Reading line by line -----

  /** After n lines, when the current run began at line k: the output is what the lines before k become. */
  ghost predicate Reading<T>(
    lines: seq<T>, k: nat, n: nat, output: seq<T>, inRun: T -> bool, f: seq<T> -> seq<T>)
  {
    && k <= n <= |lines|
    && (k > 0 ==> !inRun(lines[k - 1]))
    && (forall i :: k <= i < n ==> inRun(lines[i]))
    && output == MapRuns(lines[..k], inRun, f)
  }

  lemma ReadingStarts<T>(lines: seq<T>, inRun: T -> bool, f: seq<T> -> seq<T>)
    requires f([]) == []
    ensures Reading(lines, 0, 0, [], inRun, f)
  {
    assert lines[..0] == [];
    MapRunsOfRun([], inRun, f);
  }

  lemma ReadingOther<T>(lines: seq<T>, k: nat, n: nat, output: seq<T>, inRun: T -> bool, f: seq<T> -> seq<T>)
    requires Reading(lines, k, n, output, inRun, f) && n < |lines| && !inRun(lines[n]) && f([]) == []
    ensures Reading(lines, n + 1, n + 1, output + f(lines[k..n]) + [lines[n]], inRun, f)
  {
    PrefixThenBoth(lines, k, n, lines[k..n], inRun, f);
  }

  lemma ReadingEnds<T>(lines: seq<T>, k: nat, output: seq<T>, inRun: T -> bool, f: seq<T> -> seq<T>)
    requires Reading(lines, k, |lines|, output, inRun, f)
    ensures output == MapRuns(lines[..RunStart(lines, inRun)], inRun, f)
  {
    assert RunStart(lines, inRun) == k;
  }

  // ----- The loop -----

  /** Takes lines of a run from the iterator, which stands at the first of them, up to another line or the end. */
  method TakeRun<T>(infile: seq<T>, start: nat, inRun: T -> bool) returns (run: seq<T>, next: nat, ended: bool)
    requires start < |infile| && inRun(infile[start])
    ensures run <= infile[start..] && AllIn(run, inRun)
    ensures next == start + |run| + (if ended then 0 else 1) <= |infile|
    ensures if ended then next == |infile| else next > 0 && !inRun(infile[next - 1])
  {
    run, next, ended := [], start + 1, false;
    var line := infile[start];
    while inRun(line)
      invariant start < next <= |infile| && line == infile[next - 1] && !ended
      invariant run == infile[start..next - 1] && AllIn(run, inRun)
      decreases |infile| - next
    {
      run := run + [line];
      if next == |infile| {
        ended := true;
        break;
      }
      line := infile[next];
      next := next + 1;
    }
  }

  /** The output for the lines taken so far, with the iterator at the start or behind a line outside the runs. */
  ghost predicate Written<T>(infile: seq<T>, n: nat, outfile: seq<T>, inRun: T -> bool, f: seq<T> -> seq<T>) {
    && n <= |infile| && (n == 0 || !inRun(infile[n - 1]))
    && outfile == MapRuns(infile[..n], inRun, f)
  }

  lemma RunWritten<T>(infile: seq<T>, n: nat, run: seq<T>, outfile: seq<T>, inRun: T -> bool, f: seq<T> -> seq<T>)
    requires Written(infile, n, outfile, inRun, f) && f([]) == []
    requires run <= infile[n..] && AllIn(run, inRun) && n + |run| == |infile|
    ensures outfile + f(run) == MapRuns(infile, inRun, f)
  {
    PrefixThenRun(infile, n, run, inRun, f);
    assert infile[..n + |run|] == infile;
  }

  lemma LineWritten<T>(infile: seq<T>, n: nat, run: seq<T>, outfile: seq<T>, inRun: T -> bool, f: seq<T> -> seq<T>)
    requires Written(infile, n, outfile, inRun, f) && f([]) == []
    requires run <= infile[n..] && AllIn(run, inRun) && n + |run| < |infile| && !inRun(infile[n + |run|])
    ensures Written(infile, n + |run| + 1, outfile + f(run) + [infile[n + |run|]], inRun, f)
  {
    PrefixThenBoth(infile, n, n + |run|, run, inRun, f);
  }

  /** Walks over the lines; a run at the very end is written too. */
  method WriteMapped<T>(infile: seq<T>, inRun: T -> bool, f: seq<T> -> seq<T>) returns (outfile: seq<T>)
    requires f([]) == []
    ensures outfile == MapRuns(infile, inRun, f)
  {
    outfile := [];
    var next := 0;
    while next < |infile|
      invariant 0 <= next && Written(infile, next, outfile, inRun, f)
    {
      var start := next;
      next := next + 1;
      if inRun(infile[start]) {
        var run, ended;
        run, next, ended := TakeRun(infile, start, inRun);
        if ended {
          RunWritten(infile, start, run, outfile, inRun, f);
        } else {
          LineWritten(infile, start, run, outfile, inRun, f);
        }
        outfile := outfile + f(run);
        if ended {
          return;
        }
      } else {
        LineWritten(infile, start, [], outfile, inRun, f);
        assert outfile + f([]) == outfile;
      }
      outfile := outfile + [infile[next - 1]];
    }
    assert infile[..next] == infile;
  }

  // ----- What becomes of a text -----

  /** Cut at the line before its last run. */
  lemma CutAtRun<T>(lines: seq<T>, inRun: T -> bool, f: seq<T> -> seq<T>) returns (before: seq<T>, run: seq<T>)
    requires RunStart(lines, inRun) > 0
    ensures |before| == RunStart(lines, inRun) - 1
    ensures lines == before + [lines[|before|]] + run && AllIn(run, inRun) && !inRun(lines[|before|])
    ensures MapRuns(lines, inRun, f) == MapRuns(before, inRun, f) + [lines[|before|]] + f(run)
  {
    var k := RunStart(lines, inRun);
    before, run := lines[..k - 1], lines[k..];
    assert lines == before + [lines[k - 1]] + run;
  }

  lemma {:induction false} MapRunsPermutes<T(!new)>(lines: seq<T>, inRun: T -> bool, f: seq<T> -> seq<T>)
    requires Rearranges(inRun, f)
    ensures multiset(MapRuns(lines, inRun, f)) == multiset(lines)
    ensures |MapRuns(lines, inRun, f)| == |lines|
    decreases |lines|
  {
    if RunStart(lines, inRun) > 0 {
      var before, run := CutAtRun(lines, inRun, f);
      MapRunsPermutes(before, inRun, f);
      RearrangedRun(run, inRun, f);
      assert multiset(lines) == multiset(before) + multiset{lines[|before|]} + multiset(run);
    } else {
      RearrangedRun(lines, inRun, f);
    }
    assert |multiset(MapRuns(lines, inRun, f))| == |multiset(lines)|;
  }

  lemma {:induction false} MapRunsIdempotent<T(!new)>(lines: seq<T>, inRun: T -> bool, f: seq<T> -> seq<T>)
    requires Rearranges(inRun, f)
    ensures MapRuns(MapRuns(lines, inRun, f), inRun, f) == MapRuns(lines, inRun, f)
    decreases |lines|
  {
    if RunStart(lines, inRun) == 0 {
      RearrangedRun(lines, inRun, f);
      MapRunsOfRun(f(lines), inRun, f);
    } else {
      var before, run := CutAtRun(lines, inRun, f);
      MapRunsIdempotent(before, inRun, f);
      RearrangedRun(run, inRun, f);
      MapRunsAppend(MapRuns(before, inRun, f), lines[|before|], f(run), inRun, f);
    }
  }

  /** Lines outside the runs keep their place, and so do the runs. */
  lemma {:induction false} OthersStay<T(!new)>(lines: seq<T>, inRun: T -> bool, f: seq<T> -> seq<T>, i: nat)
    requires Rearranges(inRun, f) && i < |lines|
    ensures |MapRuns(lines, inRun, f)| == |lines|
    ensures inRun(MapRuns(lines, inRun, f)[i]) <==> inRun(lines[i])
    ensures !inRun(lines[i]) ==> MapRuns(lines, inRun, f)[i] == lines[i]
    decreases |lines|
  {
    MapRunsPermutes(lines, inRun, f);
    if RunStart(lines, inRun) == 0 {
      RearrangedRun(lines, inRun, f);
    } else {
      var before, run := CutAtRun(lines, inRun, f);
      MapRunsPermutes(before, inRun, f);
      RearrangedRun(run, inRun, f);
      if i < |before| {
        OthersStay(before, inRun, f, i);
      } else if i > |before| {
        var j := i - |before| - 1;
        assert lines[i] == run[j] && MapRuns(lines, inRun, f)[i] == f(run)[j];
      }
    }
  }

  /** From i on to j there is a whole run: nothing can be added to it at either side. */
  ghost predicate WholeRun<T>(lines: seq<T>, inRun: T -> bool, i: nat, j: nat) {
    && i <= j <= |lines|
    && (forall k :: i <= k < j ==> inRun(lines[k]))
    && (i > 0 ==> !inRun(lines[i - 1]))
    && (j < |lines| ==> !inRun(lines[j]))
  }

  lemma WholeRunAtEnd<T>(lines: seq<T>, inRun: T -> bool, i: nat, j: nat)
    requires WholeRun(lines, inRun, i, j) && RunStart(lines, inRun) <= j
    ensures i == RunStart(lines, inRun) && j == |lines|
  {
  }

  lemma SliceOfSum<T>(a: seq<T>, x: T, b: seq<T>, i: nat, j: nat)
    requires i <= j <= |a|
    ensures (a + [x] + b)[i..j] == a[i..j]
    ensures (a + [x] + b)[|a| + 1..] == b
  {
  }

  lemma LastRunIsMapped<T(!new)>(lines: seq<T>, inRun: T -> bool, f: seq<T> -> seq<T>)
    requires Rearranges(inRun, f)
    ensures |MapRuns(lines, inRun, f)| == |lines|
    ensures MapRuns(lines, inRun, f)[RunStart(lines, inRun)..] == f(lines[RunStart(lines, inRun)..])
  {
    MapRunsPermutes(lines, inRun, f);
    if RunStart(lines, inRun) == 0 {
      assert lines[0..] == lines && f(lines)[0..] == f(lines);
    } else {
      var before, run := CutAtRun(lines, inRun, f);
      assert run == lines[RunStart(lines, inRun)..];
      MapRunsPermutes(before, inRun, f);
      SliceOfSum(MapRuns(before, inRun, f), lines[|before|], f(run), 0, 0);
    }
  }

  /** Every whole run is rearranged by itself. */
  lemma {:induction false} RunsAreMapped<T(!new)>(lines: seq<T>, inRun: T -> bool, f: seq<T> -> seq<T>, i: nat, j: nat)
    requires Rearranges(inRun, f) && WholeRun(lines, inRun, i, j)
    ensures |MapRuns(lines, inRun, f)| == |lines|
    ensures MapRuns(lines, inRun, f)[i..j] == f(lines[i..j])
    decreases |lines|
  {
    if RunStart(lines, inRun) <= j {
      WholeRunAtEnd(lines, inRun, i, j);
      LastRunIsMapped(lines, inRun, f);
      assert lines[i..j] == lines[i..] && MapRuns(lines, inRun, f)[i..j] == MapRuns(lines, inRun, f)[i..];
    } else {
      var before, run := CutAtRun(lines, inRun, f);
      WholeRunBefore(before, lines[|before|], run, inRun, i, j);
      RunsAreMapped(before, inRun, f, i, j);
      SliceOfSum(before, lines[|before|], run, i, j);
      SliceOfSum(MapRuns(before, inRun, f), lines[|before|], f(run), i, j);
      MapRunsPermutes(lines, inRun, f);
    }
  }

  lemma WholeRunBefore<T>(before: seq<T>, line: T, run: seq<T>, inRun: T -> bool, i: nat, j: nat)
    requires WholeRun(before + [line] + run, inRun, i, j) && j <= |before|
    ensures WholeRun(before, inRun, i, j)
  {
    var lines := before + [line] + run;
    assert forall k :: 0 <= k < |before| ==> before[k] == lines[k];
  }

  // ----- Texts whose last run is dropped -----

  /** Runs are rearranged, other lines stay, and a run at the very end is dropped. */
  function MapClosedRuns<T>(lines: seq<T>, inRun: T -> bool, f: seq<T> -> seq<T>): seq<T> {
    MapRuns(lines[..RunStart(lines, inRun)], inRun, f)
  }

  lemma ClosedEndsInOther<T(!new)>(lines: seq<T>, inRun: T -> bool, f: seq<T> -> seq<T>)
    requires Rearranges(inRun, f)
    ensures |MapClosedRuns(lines, inRun, f)| == RunStart(lines, inRun)
    ensures RunStart(MapClosedRuns(lines, inRun, f), inRun) == RunStart(lines, inRun)
  {
    var k := RunStart(lines, inRun);
    MapRunsPermutes(lines[..k], inRun, f);
    if k > 0 {
      OthersStay(lines[..k], inRun, f, k - 1);
    }
  }

  lemma MapClosedRunsIdempotent<T(!new)>(lines: seq<T>, inRun: T -> bool, f: seq<T> -> seq<T>)
    requires Rearranges(inRun, f)
    ensures MapClosedRuns(MapClosedRuns(lines, inRun, f), inRun, f) == MapClosedRuns(lines, inRun, f)
  {
    var k := RunStart(lines, inRun);
    var mapped := MapClosedRuns(lines, inRun, f);
    ClosedEndsInOther(lines, inRun, f);
    assert mapped[..k] == mapped;
    MapRunsIdempotent(lines[..k], inRun, f);
  }

  lemma ClosedRunsAreMapped<T(!new)>(lines: seq<T>, inRun: T -> bool, f: seq<T> -> seq<T>, i: nat, j: nat)
    requires Rearranges(inRun, f) && WholeRun(lines, inRun, i, j) && j < |lines|
    ensures j < |MapClosedRuns(lines, inRun, f)|
    ensures MapClosedRuns(lines, inRun, f)[i..j] == f(lines[i..j])
  {
    var k := RunStart(lines, inRun);
    assert j < k;
    assert lines[..k][i..j] == lines[i..j];
    RunsAreMapped(lines[..k], inRun, f, i, j);
  }
}
