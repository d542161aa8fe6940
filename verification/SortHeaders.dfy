/** tools/sort-headers.py: every block of include lines is sorted, all other lines stay where they are. */
module SortHeaders {
  import opened StableSort
  import opened LineBlocks
  import opened SortedRuns
  import opened FileText
  import opened SortedFiles

  predicate StartsWith(line: string, prefix: string) {
    prefix <= line
  }

  predicate IsInclude(line: string) {
    StartsWith(line, "#include ") || StartsWith(line, "#import ") || StartsWith(line, "import ")
  }

  /** The line without the first of the three prefixes that it starts with. */
  function Included(line: string): string {
    if StartsWith(line, "#include ") then line[9..]
    else if StartsWith(line, "#import ") then line[8..]
    else if StartsWith(line, "import ") then line[7..]
    else line
  }

  function LowerChar(c: char): char {
    if 'A' <= c <= 'Z' then c - 'A' + 'a' else c
  }

  function Lower(line: string): string {
    seq(|line|, i requires 0 <= i < |line| => LowerChar(line[i]))
  }

  predicate Contains(line: string, part: string) {
    part <= line || (line != "" && Contains(line[1..], part))
  }

  function IncludeCompareKey(line: string): string {
    var name := Included(line);
    if StartsWith(name, "\"sky/engine/config.h\"") then "0"
    else if StartsWith(name, "<windows.h>") then "0"
    else if StartsWith(name, "<atlbase.h>") then "1" + name
    else if StartsWith(name, "<ole2.h>") then "1" + name
    else if StartsWith(name, "<unknwn.h>") then "1" + name
    else if StartsWith(name, "<") then
      if Contains(name, ".h>") then "2" + Lower(name) else "3" + Lower(name)
    else "4" + name
  }

  predicate HeaderLeq(a: string, b: string) {
    StringLeq(IncludeCompareKey(a), IncludeCompareKey(b))
  }

  function Sorted(lines: seq<string>): seq<string> {
    SortRuns(lines, IsInclude, HeaderLeq)
  }

  /** The loop knows only whether a line is an include, and which of two comes first. */
  method SortHeader(infile: seq<string>) returns (outfile: seq<string>)
    ensures outfile == Sorted(infile)
  {
    outfile := WriteMapped(infile, IsInclude, Sorter(HeaderLeq));
  }

  // ----- Results -----

  lemma HeadersAreOrdered()
    ensures TotalPreorder(HeaderLeq)
  {
    StringsAreOrdered();
    forall a, b
      ensures HeaderLeq(a, b) || HeaderLeq(b, a)
    {
      var x, y := IncludeCompareKey(a), IncludeCompareKey(b);
      assert StringLeq(x, y) || StringLeq(y, x);
    }
  }

  /** No line is lost or made up, and sorting again changes nothing. */
  lemma SortedPermutes(lines: seq<string>)
    ensures multiset(Sorted(lines)) == multiset(lines) && |Sorted(lines)| == |lines|
    ensures Sorted(Sorted(lines)) == Sorted(lines)
  {
    HeadersAreOrdered();
    SorterRearranges(IsInclude, HeaderLeq);
    MapRunsPermutes(lines, IsInclude, Sorter(HeaderLeq));
    MapRunsIdempotent(lines, IsInclude, Sorter(HeaderLeq));
  }

  /** Other lines keep their index; at the index of an include there is an include. */
  lemma OtherLinesStay(lines: seq<string>, i: nat)
    requires i < |lines|
    ensures |Sorted(lines)| == |lines|
    ensures IsInclude(Sorted(lines)[i]) <==> IsInclude(lines[i])
    ensures !IsInclude(lines[i]) ==> Sorted(lines)[i] == lines[i]
  {
    HeadersAreOrdered();
    SorterRearranges(IsInclude, HeaderLeq);
    OthersStay(lines, IsInclude, Sorter(HeaderLeq), i);
  }

  /** Every maximal block holds its own lines, in the order of their keys, lines with equal keys as they were. */
  lemma BlocksAreSortedStably(lines: seq<string>, i: nat, j: nat)
    requires WholeRun(lines, IsInclude, i, j)
    ensures |Sorted(lines)| == |lines|
    ensures multiset(Sorted(lines)[i..j]) == multiset(lines[i..j])
    ensures InOrder(Sorted(lines)[i..j], HeaderLeq)
    ensures forall x :: Like(Sorted(lines)[i..j], x, HeaderLeq) == Like(lines[i..j], x, HeaderLeq)
  {
    HeadersAreOrdered();
    RunsAreSortedStably(lines, IsInclude, HeaderLeq, i, j);
  }

  /** A file is reported unchanged if and only if no include is directly followed by one that belongs before it. */
  lemma FileUnchangedIffInOrder(file: string)
    ensures SortedFile(file) == file <==> forall i: nat :: !OutOfOrderAt(ReadLines(file), IsInclude, HeaderLeq, i)
  {
    HeadersAreOrdered();
    FileUnchangedIff(file, IsInclude, HeaderLeq);
  }

  // ----- Files -----

  /** The file that SortHeader writes for a file. */
  function SortedFile(file: string): string {
    SortFile(file, IsInclude, HeaderLeq)
  }

  method SortHeaderFile(infile: string) returns (outfile: string)
    ensures outfile == SortedFile(infile)
  {
    var lines := SortHeader(ReadLines(infile));
    outfile := WriteLines(lines);
  }

  /** The file is empty, ends in a newline or in a line that is no include, or no include of its last block has a
      greater key than its last line. */
  ghost predicate EndsWell(file: string) {
    file == "" || file[|file| - 1] == '\n' ||
    var lines := ReadLines(file);
    lines != [] &&
    var last := lines[|lines| - 1];
    !IsInclude(last) ||
    forall i :: RunStart(lines, IsInclude) <= i < |lines| ==>
      StringLeq(IncludeCompareKey(lines[i]), IncludeCompareKey(last))
  }

  lemma EndsWellIsSafe(file: string)
    ensures EndsWell(file) <==> SafeEnd(file, IsInclude, HeaderLeq)
  {
    if file != "" && file[|file| - 1] != '\n' {
      UnendedFile(file);
    }
  }

  /** The file written, read again, has the sorted lines if and only if the file ends well. */
  lemma FileReadsBackIff(file: string)
    ensures ReadLines(SortedFile(file)) == Sorted(ReadLines(file)) <==> EndsWell(file)
  {
    HeadersAreOrdered();
    EndsWellIsSafe(file);
    ReadsBackIff(file, IsInclude, HeaderLeq);
  }

  /** No line of the file is lost or made up if and only if it ends well; then sorting it again changes nothing. */
  lemma FileSortedPermutes(file: string)
    ensures multiset(ReadLines(SortedFile(file))) == multiset(ReadLines(file)) <==> EndsWell(file)
    ensures EndsWell(file) ==> SortedFile(SortedFile(file)) == SortedFile(file)
  {
    HeadersAreOrdered();
    EndsWellIsSafe(file);
    FilePermutesIff(file, IsInclude, HeaderLeq);
    FileIdempotentIff(file, IsInclude, HeaderLeq);
  }

  /** In general sorting again changes nothing if and only if no include of the file written is followed by one that
      belongs before it. */
  lemma FileSortedIdempotentIff(file: string)
    ensures SortedFile(SortedFile(file)) == SortedFile(file)
      <==> forall i: nat :: !OutOfOrderAt(ReadLines(SortedFile(file)), IsInclude, HeaderLeq, i)
  {
    HeadersAreOrdered();
    FileIdempotentIff(file, IsInclude, HeaderLeq);
  }

  // ----- The order of headers -----

  /** Headers that must come first, Windows headers others rely on, C headers, C++ headers, headers of the project. */
  function Rank(line: string): nat {
    var name := Included(line);
    if StartsWith(name, "\"sky/engine/config.h\"") || StartsWith(name, "<windows.h>") then 0
    else if StartsWith(name, "<atlbase.h>") || StartsWith(name, "<ole2.h>") || StartsWith(name, "<unknwn.h>") then 1
    else if StartsWith(name, "<") then if Contains(name, ".h>") then 2 else 3
    else 4
  }

  lemma KeyShowsRank(line: string)
    ensures IncludeCompareKey(line) != ""
    ensures IncludeCompareKey(line)[0] == '0' + Rank(line) as char
  {
  }

  lemma OrderRespectsRank(a: string, b: string)
    requires HeaderLeq(a, b)
    ensures Rank(a) <= Rank(b)
  {
    KeyShowsRank(a);
    KeyShowsRank(b);
  }

  /** In every block of the result the five kinds of headers follow each other. */
  lemma RanksFollow(lines: seq<string>, i: nat, j: nat, k: nat, l: nat)
    requires WholeRun(lines, IsInclude, i, j) && i <= k < l < j
    ensures |Sorted(lines)| == |lines| && Rank(Sorted(lines)[k]) <= Rank(Sorted(lines)[l])
  {
    BlocksAreSortedStably(lines, i, j);
    InOrderWithin(Sorted(lines), HeaderLeq, i, j, k, l);
    OrderRespectsRank(Sorted(lines)[k], Sorted(lines)[l]);
  }

  lemma SameFirst(c: char, x: string, y: string)
    ensures StringLeq([c] + x, [c] + y) <==> StringLeq(x, y)
  {
    assert ([c] + x)[1..] == x && ([c] + y)[1..] == y;
  }

  /** What decides between headers of one rank: nothing for those that come first, the name as it is for Windows headers
      and headers of the project, the name without regard to case for system headers. */
  ghost predicate NameLeq(rank: nat, x: string, y: string) {
    match rank
    case 0 => true
    case 2 => Lower(x) == Lower(y) || Precedes(Lower(x), Lower(y))
    case 3 => Lower(x) == Lower(y) || Precedes(Lower(x), Lower(y))
    case _ => x == y || Precedes(x, y)
  }

  lemma KeyShowsName(line: string)
    ensures
      var name := Included(line);
      match Rank(line)
      case 0 => IncludeCompareKey(line) == "0"
      case 1 => IncludeCompareKey(line) == ['1'] + name
      case 2 => IncludeCompareKey(line) == ['2'] + Lower(name)
      case 3 => IncludeCompareKey(line) == ['3'] + Lower(name)
      case _ => IncludeCompareKey(line) == ['4'] + name
  {
  }

  /** The same letter, or the same but for its case. */
  ghost predicate SameLetter(c: char, d: char) {
    || c == d
    || ('A' <= c <= 'Z' && d as int == c as int + 32)
    || ('A' <= d <= 'Z' && c as int == d as int + 32)
  }

  /** Lower-casing leaves the same letters and no capital, and forgets nothing but case. */
  lemma LowerForgetsCase(x: string, y: string)
    ensures |Lower(x)| == |x|
    ensures forall i :: 0 <= i < |x| ==> SameLetter(x[i], Lower(x)[i]) && !('A' <= Lower(x)[i] <= 'Z')
    ensures Lower(x) == Lower(y) <==> |x| == |y| && forall i :: 0 <= i < |x| ==> SameLetter(x[i], y[i])
  {
    if Lower(x) == Lower(y) {
      assert |Lower(x)| == |Lower(y)|;
      forall i | 0 <= i < |x|
        ensures SameLetter(x[i], y[i])
      {
        assert Lower(x)[i] == Lower(y)[i];
      }
    }
  }

  /** Of two includes the one of the lower rank comes first, and within a rank the one with the smaller name. */
  lemma HeaderOrder(a: string, b: string)
    ensures HeaderLeq(a, b) <==>
            || Rank(a) < Rank(b)
            || (Rank(a) == Rank(b) && NameLeq(Rank(a), Included(a), Included(b)))
  {
    KeyShowsRank(a);
    KeyShowsRank(b);
    if Rank(a) == Rank(b) {
      var x, y := Included(a), Included(b);
      KeyShowsName(a);
      KeyShowsName(b);
      StringsAscend(x, y);
      StringsAscend(Lower(x), Lower(y));
      match Rank(a) {
        case 0 => StringsAscend("0", "0");
        case 1 => SameFirst('1', x, y);
        case 2 => SameFirst('2', Lower(x), Lower(y));
        case 3 => SameFirst('3', Lower(x), Lower(y));
        case _ => SameFirst('4', x, y);
      }
    }
  }

  /** In every block of the result, headers of one rank are in the order of their names. */
  lemma NamesFollow(lines: seq<string>, i: nat, j: nat, k: nat, l: nat)
    requires WholeRun(lines, IsInclude, i, j) && i <= k < l < j
    ensures |Sorted(lines)| == |lines|
    ensures
      var a, b := Sorted(lines)[k], Sorted(lines)[l];
      Rank(a) == Rank(b) ==> NameLeq(Rank(a), Included(a), Included(b))
  {
    BlocksAreSortedStably(lines, i, j);
    InOrderWithin(Sorted(lines), HeaderLeq, i, j, k, l);
    HeaderOrder(Sorted(lines)[k], Sorted(lines)[l]);
  }

  /** The three forms of an include, and its name. */
  lemma IncludeForms(name: string)
    ensures IsInclude("#include " + name) && Included("#include " + name) == name
    ensures IsInclude("#import " + name) && Included("#import " + name) == name
    ensures IsInclude("import " + name) && Included("import " + name) == name
  {
    var a, b, c := "#include " + name, "#import " + name, "import " + name;
    assert a[2] == 'n' && b[2] == 'm' && c[0] == 'i';
    assert a[9..] == name && b[8..] == name && c[7..] == name;
    assert "#include "[2] == 'n' && "#include "[0] == '#' && "#import "[0] == '#';
  }

  lemma IncludeIsPrefixAndName(line: string)
    ensures IsInclude(line) <==>
            || line == "#include " + Included(line)
            || line == "#import " + Included(line)
            || line == "import " + Included(line)
  {
    assert StartsWith(line, "#include ") ==> line == "#include " + line[9..];
    assert StartsWith(line, "#import ") ==> line == "#import " + line[8..];
    assert StartsWith(line, "import ") ==> line == "import " + line[7..];
  }

  ghost predicate ContainsAt(line: string, part: string, i: nat) {
    i + |part| <= |line| && line[i..i + |part|] == part
  }

  lemma {:induction false} ContainsIff(line: string, part: string)
    ensures Contains(line, part) <==> exists i: nat :: ContainsAt(line, part, i)
  {
    assert part <= line <==> ContainsAt(line, part, 0);
    if line != "" {
      ContainsIff(line[1..], part);
      forall i: nat
        ensures ContainsAt(line[1..], part, i) <==> ContainsAt(line, part, i + 1)
      {
        if i + |part| < |line| {
          assert line[1..][i..i + |part|] == line[i + 1..i + 1 + |part|];
        }
      }
      if i: nat :| ContainsAt(line, part, i) {
        assert i > 0 ==> ContainsAt(line[1..], part, i - 1);
      }
    }
  }

  // ----- A last include without a newline -----

  /** The key of an include of the project, not the one that must come first. */
  lemma ProjectKey(line: string, name: string)
    requires line == "#include " + name && |name| > 1 && name[0] == '"' && name[1] != 's'
    ensures IsInclude(line) && IncludeCompareKey(line) == "4" + name
  {
    assert line[9..] == name;
    var config := "\"sky/engine/config.h\"";
    assert config[1] == 's';
  }

  lemma ProjectOrder(a: string, name: string, b: string, other: string, n: nat)
    requires a == "#include " + name && |name| > 1 && name[0] == '"' && name[1] != 's'
    requires b == "#include " + other && |other| > 1 && other[0] == '"' && other[1] != 's'
    requires n < |name| && n <= |other| && name[..n] == other[..n] && (n < |other| ==> name[n] > other[n])
    ensures !HeaderLeq(a, b)
  {
    ProjectKey(a, name);
    ProjectKey(b, other);
    var x, y := "4" + name, "4" + other;
    assert x[..n + 1] == "4" + name[..n] && y[..n + 1] == "4" + other[..n];
    FirstDifference(x, y, n + 1);
  }

  lemma IncludeEnds(line: string, name: string)
    requires line == "#include " + name
    ensures Ended(name) ==> Ended(line)
    ensures Unended(name) ==> Unended(line)
  {
    assert Unended("#include ");
  }

  /** Two includes in the wrong order, the last without a newline, become one line. */
  lemma LastIncludeIsGlued(b: string, a: string)
    requires b == "#include " + "\"b\"\n" && a == "#include " + "\"a\""
    ensures SortedFile(b + a) == a + b && ReadLines(b + a) == [b, a] && ReadLines(a + b) == [a + b]
  {
    IncludeEnds(b, "\"b\"\n");
    IncludeEnds(a, "\"a\"");
    ProjectOrder(b, "\"b\"\n", a, "\"a\"", 1);
    LastIsGlued(b, a, IsInclude, HeaderLeq);
  }

  /** A project's name without a newline, and the two lines with it. */
  ghost predicate SameName(x: string, y: string, name: string) {
    && Unended(name) && |name| > 1 && name[0] == '"' && name[1] != 's'
    && x == "#include " + name && y == "#include " + (name + "\n")
  }

  lemma EndedIsLater(x: string, y: string, name: string)
    requires SameName(x, y, name)
    ensures IsInclude(x) && IsInclude(y) && Unended(x) && Ended(y) && !HeaderLeq(y, x)
  {
    var ended := name + "\n";
    IncludeEnds(x, name);
    IncludeEnds(y, ended);
    ProjectKey(x, name);
    ProjectKey(y, ended);
    assert ended[..|name|] == name && name[..|name|] == name;
    ProjectOrder(y, ended, x, name, |name|);
  }

  lemma GluedIsLater(x: string, y: string, name: string)
    requires SameName(x, y, name)
    ensures IsInclude(x + y) && !HeaderLeq(x + y, y)
  {
    var ended, glued := name + "\n", name + y;
    assert x + y == "#include " + glued;
    ProjectKey(x + y, glued);
    assert ended[..|name|] == name && glued[..|name|] == name;
    assert ended[|name|] == '\n' && glued[|name|] == y[0] == '#';
    ProjectOrder(x + y, glued, y, ended, |name|);
  }

  /** Three times the same include of a project, the last without a newline: sorting the result again changes it. */
  lemma SortingAgainChanges(x: string, y: string, name: string)
    requires SameName(x, y, name)
    ensures SortedFile(y + y + x) == x + y + y && SortedFile(x + y + y) != x + y + y
  {
    HeadersAreOrdered();
    EndedIsLater(x, y, name);
    GluedIsLater(x, y, name);
    GluedBelongsLater(x, y, IsInclude, HeaderLeq);
  }
}
