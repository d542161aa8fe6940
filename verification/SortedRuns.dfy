/** Sorting every maximal run of lines of one kind. */
module SortedRuns {
  import opened StableSort
  import opened LineBlocks

  function Sorter<T>(leq: (T, T) -> bool): seq<T> -> seq<T> {
    (run: seq<T>) => Sort(run, leq)
  }

  function SortRuns<T>(lines: seq<T>, inRun: T -> bool, leq: (T, T) -> bool): seq<T> {
    MapRuns(lines, inRun, Sorter(leq))
  }

  // ----- Results -----

  lemma SorterRearranges<T(!new)>(inRun: T -> bool, leq: (T, T) -> bool)
    requires TotalPreorder(leq)
    ensures Rearranges(inRun, Sorter(leq))
  {
    forall run | AllIn(run, inRun)
      ensures Rearranged(run, Sorter(leq))
    {
      SortPermutes(run, leq);
      SortSorts(run, leq);
      SortOfSorted(Sort(run, leq), leq);
    }
  }

  /** Every whole run holds its own lines, in order, those that compare equal as they were. */
  lemma RunsAreSortedStably<T(!new)>(lines: seq<T>, inRun: T -> bool, leq: (T, T) -> bool, i: nat, j: nat)
    requires TotalPreorder(leq) && WholeRun(lines, inRun, i, j)
    ensures |SortRuns(lines, inRun, leq)| == |lines|
    ensures multiset(SortRuns(lines, inRun, leq)[i..j]) == multiset(lines[i..j])
    ensures InOrder(SortRuns(lines, inRun, leq)[i..j], leq)
    ensures forall x :: Like(SortRuns(lines, inRun, leq)[i..j], x, leq) == Like(lines[i..j], x, leq)
  {
    SorterRearranges(inRun, leq);
    RunsAreMapped(lines, inRun, Sorter(leq), i, j);
    var run := lines[i..j];
    SortPermutes(run, leq);
    SortSorts(run, leq);
    forall x
      ensures Like(Sort(run, leq), x, leq) == Like(run, x, leq)
    {
      SortIsStable(run, x, leq);
    }
  }

  /** A line of a run is directly followed by one that belongs before it. */
  ghost predicate OutOfOrderAt<T>(lines: seq<T>, inRun: T -> bool, leq: (T, T) -> bool, i: nat) {
    i + 1 < |lines| && inRun(lines[i]) && inRun(lines[i + 1]) && !leq(lines[i], lines[i + 1])
  }

  lemma LastRunInOrder<T(!new)>(lines: seq<T>, inRun: T -> bool, leq: (T, T) -> bool)
    requires TotalPreorder(leq) && forall i: nat :: !OutOfOrderAt(lines, inRun, leq, i)
    ensures Sort(lines[RunStart(lines, inRun)..], leq) == lines[RunStart(lines, inRun)..]
  {
    var k := RunStart(lines, inRun);
    var run := lines[k..];
    forall i | 0 <= i < |run| - 1
      ensures leq(run[i], run[i + 1])
    {
      assert !OutOfOrderAt(lines, inRun, leq, k + i);
    }
    forall i, j | 0 <= i < j < |run|
      ensures leq(run[i], run[j])
    {
      NeighboursSuffice(run, leq, i, j);
    }
    SortOfSorted(run, leq);
  }

  lemma {:induction false} InOrderIsUnchanged<T(!new)>(lines: seq<T>, inRun: T -> bool, leq: (T, T) -> bool)
    requires TotalPreorder(leq) && forall i: nat :: !OutOfOrderAt(lines, inRun, leq, i)
    ensures SortRuns(lines, inRun, leq) == lines
    decreases |lines|
  {
    LastRunInOrder(lines, inRun, leq);
    var k := RunStart(lines, inRun);
    if k == 0 {
      assert lines[k..] == lines;
    } else {
      var before := lines[..k - 1];
      forall i: nat
        ensures !OutOfOrderAt(before, inRun, leq, i)
      {
        assert !OutOfOrderAt(lines, inRun, leq, i);
      }
      InOrderIsUnchanged(before, inRun, leq);
      assert lines == before + [lines[k - 1]] + lines[k..];
    }
  }

  /** Two neighbouring lines of this kind belong to one run. */
  lemma RunAround<T>(lines: seq<T>, inRun: T -> bool, i: nat) returns (a: nat, b: nat)
    requires i + 1 < |lines| && inRun(lines[i]) && inRun(lines[i + 1])
    ensures WholeRun(lines, inRun, a, b) && a <= i && i + 1 < b
  {
    a := RunStart(lines[..i + 1], inRun);
    forall k | a <= k <= i
      ensures inRun(lines[k])
    {
      assert lines[k] == lines[..i + 1][k];
    }
    b := i + 2;
    while b < |lines| && inRun(lines[b])
      invariant i + 1 < b <= |lines|
      invariant forall k :: a <= k < b ==> inRun(lines[k])
    {
      b := b + 1;
    }
  }

  lemma SortedIsInOrder<T(!new)>(lines: seq<T>, inRun: T -> bool, leq: (T, T) -> bool, i: nat)
    requires TotalPreorder(leq)
    ensures !OutOfOrderAt(SortRuns(lines, inRun, leq), inRun, leq, i)
  {
    SorterRearranges(inRun, leq);
    MapRunsPermutes(lines, inRun, Sorter(leq));
    if i + 1 < |lines| {
      OthersStay(lines, inRun, Sorter(leq), i);
      OthersStay(lines, inRun, Sorter(leq), i + 1);
      if inRun(lines[i]) && inRun(lines[i + 1]) {
        var a, b := RunAround(lines, inRun, i);
        RunsAreSortedStably(lines, inRun, leq, a, b);
        InOrderWithin(SortRuns(lines, inRun, leq), leq, a, b, i, i + 1);
      }
    }
  }

  /** Nothing changes if and only if every line of a run is in order with the one that follows it. */
  lemma UnchangedIffInOrder<T(!new)>(lines: seq<T>, inRun: T -> bool, leq: (T, T) -> bool)
    requires TotalPreorder(leq)
    ensures SortRuns(lines, inRun, leq) == lines <==> forall i: nat :: !OutOfOrderAt(lines, inRun, leq, i)
  {
    if forall i: nat :: !OutOfOrderAt(lines, inRun, leq, i) {
      InOrderIsUnchanged(lines, inRun, leq);
    } else {
      var i: nat :| OutOfOrderAt(lines, inRun, leq, i);
      SortedIsInOrder(lines, inRun, leq, i);
    }
  }
}
