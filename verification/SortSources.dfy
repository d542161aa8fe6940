/**
  tools/sort_sources.py: in every list of source files the sources are sorted, each with the comments above it.

  A line is a comment, a source, or something else; what is said here holds for any way to tell them apart, and
  KindOf is the one the tool uses.  Sources and comments that nothing else follows are not written.
 */
module SortSources {
  import opened StableSort
  import opened LineBlocks
  import opened FileText
  import opened SortedFiles

  datatype Kind = Comment | Source | Other

  /** A source with the comments directly above it. */
  datatype Group = Group(line: string, comments: seq<string>)

  /** What has been read and not yet written: sources, and comments below the last of them. */
  datatype Pending = Pending(sources: seq<Group>, comments: seq<string>)

  type Sorter = seq<Group> -> seq<Group>

  // ----- Telling lines apart -----

  predicate IsSpace(c: char) {
    c == ' ' || c == '\t' || c == '\n' || c == '\r' || c as int == 11 || c as int == 12
  }

  function LeadingSpaces(s: string): (n: nat)
    ensures n <= |s|
  {
    if s == "" || !IsSpace(s[0]) then 0 else 1 + LeadingSpaces(s[1..])
  }

  predicate IsComment(line: string) {
    var n := LeadingSpaces(line);
    0 < n < |line| && line[n] == '#'
  }

  predicate IsQuote(c: char) {
    c == '\'' || c == '"'
  }

  const Suffixes := ["c", "cc", "cpp", "h", "mm", "rc", "rc.version", "ico", "def", "release"]

  /** The name ends in a dot and the suffix, and what comes before is on one line. */
  predicate HasSuffix(name: string, suffix: string) {
    && |suffix| < |name|
    && name[|name| - |suffix|..] == suffix && name[|name| - |suffix| - 1] == '.'
    && '\n' !in name[..|name| - |suffix| - 1]
  }

  function WithoutNewline(line: string): string {
    if line != "" && line[|line| - 1] == '\n' then line[..|line| - 1] else line
  }

  /** White space, then a quoted name with one of the suffixes, then a comma. */
  predicate Matches(text: string, suffixes: seq<string>) {
    var n := LeadingSpaces(text);
    && 0 < n && n + 3 <= |text|
    && IsQuote(text[n]) && IsQuote(text[|text| - 2]) && text[|text| - 1] == ','
    && exists i :: 0 <= i < |suffixes| && HasSuffix(text[n + 1..|text| - 2], suffixes[i])
  }

  /** That, and then nothing but perhaps a newline. */
  predicate IsSource(line: string) {
    Matches(WithoutNewline(line), Suffixes)
  }

  function KindOf(line: string): Kind {
    if IsComment(line) then Comment else if IsSource(line) then Source else Other
  }

  // ----- Lists of sources -----

  /** Sources are compared first, then their comments. */
  predicate GroupLeq(g: Group, h: Group) {
    if g.line == h.line then ListLeq(g.comments, h.comments) else StringLeq(g.line, h.line)
  }

  function ByLine(groups: seq<Group>): seq<Group> {
    Sort(groups, GroupLeq)
  }

  function InList(kind: string -> Kind): string -> bool {
    (line: string) => !kind(line).Other?
  }

  function Read(p: Pending, line: string, kind: string -> Kind): Pending {
    if kind(line).Comment? then p.(comments := p.comments + [line])
    else Pending(p.sources + [Group(line, p.comments)], [])
  }

  function Parse(lines: seq<string>, kind: string -> Kind): Pending {
    if lines == [] then Pending([], []) else Read(Parse(lines[..|lines| - 1], kind), lines[|lines| - 1], kind)
  }

  function Print(groups: seq<Group>): seq<string> {
    if groups == [] then [] else groups[0].comments + [groups[0].line] + Print(groups[1..])
  }

  function SortList(kind: string -> Kind, sort: Sorter): seq<string> -> seq<string> {
    (lines: seq<string>) => Print(sort(Parse(lines, kind).sources)) + Parse(lines, kind).comments
  }

  /** Lists are sorted, other lines stay, and a list at the very end is dropped. */
  function Sorted(lines: seq<string>, kind: string -> Kind, sort: Sorter): seq<string> {
    MapClosedRuns(lines, InList(kind), SortList(kind, sort))
  }

  // ----- The loop -----

  method Flush(output: seq<string>, sources: seq<Group>, sort: Sorter) returns (r: seq<string>)
    ensures r == output + Print(sort(sources))
  {
    var sorted := sort(sources);
    r := output;
    for i := 0 to |sorted|
      invariant r + Print(sorted[i..]) == output + Print(sorted)
    {
      assert sorted[i..][1..] == sorted[i + 1..];
      r := r + sorted[i].comments;
      r := r + [sorted[i].line];
    }
    assert sorted[|sorted|..] == [];
  }

  /** Everything before line k is written, and the sources and comments from there to line n are pending. */
  ghost predicate Kept(
    lines: seq<string>, k: nat, n: nat, output: seq<string>, p: Pending, kind: string -> Kind, sort: Sorter)
  {
    Reading(lines, k, n, output, InList(kind), SortList(kind, sort)) && p == Parse(lines[k..n], kind)
  }

  method SortLines(original: seq<string>, kind: string -> Kind, sort: Sorter) returns (output: seq<string>)
    requires sort([]) == []
    ensures output == Sorted(original, kind, sort)
  {
    output := [];
    var comments: seq<string> := [];
    var sources: seq<Group> := [];
    ghost var k: nat := 0;
    NothingRead(original, kind, sort);
    for i := 0 to |original|
      invariant Kept(original, k, i, output, Pending(sources, comments), kind, sort)
    {
      var line := original[i];
      ghost var p := Pending(sources, comments);
      if kind(line).Comment? {
        ReadOne(original, k, i, output, p, p.(comments := p.comments + [line]), kind, sort);
        comments := comments + [line];
      } else if kind(line).Source? {
        ReadOne(original, k, i, output, p, Pending(p.sources + [Group(line, p.comments)], []), kind, sort);
        sources := sources + [Group(line, comments)];
        comments := [];
      } else {
        WroteOne(original, k, i, output, p, kind, sort);
        output := Flush(output, sources, sort);
        sources := [];
        output := output + comments;
        comments := [];
        output := output + [line];
        k := i + 1;
      }
    }
    AllRead(original, k, output, Pending(sources, comments), kind, sort);
  }

  method SortSources(original: seq<string>) returns (output: seq<string>)
    ensures output == Sorted(original, KindOf, ByLine)
  {
    output := SortLines(original, KindOf, ByLine);
  }

  lemma NothingSorted(kind: string -> Kind, sort: Sorter)
    requires sort([]) == []
    ensures SortList(kind, sort)([]) == []
  {
    assert Parse([], kind) == Pending([], []) && Print([]) + [] == [];
  }

  lemma NothingRead(lines: seq<string>, kind: string -> Kind, sort: Sorter)
    requires sort([]) == []
    ensures Kept(lines, 0, 0, [], Pending([], []), kind, sort)
  {
    NothingSorted(kind, sort);
    ReadingStarts(lines, InList(kind), SortList(kind, sort));
    assert lines[0..0] == [];
  }

  lemma AllRead(lines: seq<string>, k: nat, output: seq<string>, p: Pending, kind: string -> Kind, sort: Sorter)
    requires Kept(lines, k, |lines|, output, p, kind, sort)
    ensures output == Sorted(lines, kind, sort)
  {
    ReadingEnds(lines, k, output, InList(kind), SortList(kind, sort));
  }

  lemma ParseNext(lines: seq<string>, k: nat, n: nat, kind: string -> Kind)
    requires k <= n < |lines|
    ensures Parse(lines[k..n + 1], kind) == Read(Parse(lines[k..n], kind), lines[n], kind)
  {
    assert lines[k..n + 1][..n - k] == lines[k..n];
  }

  lemma ReadOne(
    lines: seq<string>, k: nat, n: nat, output: seq<string>, p: Pending, p': Pending,
    kind: string -> Kind, sort: Sorter)
    requires Kept(lines, k, n, output, p, kind, sort) && n < |lines| && !kind(lines[n]).Other?
    requires p' == Read(p, lines[n], kind)
    ensures Kept(lines, k, n + 1, output, p', kind, sort)
  {
    ParseNext(lines, k, n, kind);
  }

  lemma WroteOne(
    lines: seq<string>, k: nat, n: nat, output: seq<string>, p: Pending, kind: string -> Kind, sort: Sorter)
    requires Kept(lines, k, n, output, p, kind, sort) && n < |lines| && kind(lines[n]).Other? && sort([]) == []
    ensures Kept(
      lines, n + 1, n + 1, output + Print(sort(p.sources)) + p.comments + [lines[n]], Pending([], []), kind, sort)
  {
    NothingSorted(kind, sort);
    ReadingOther(lines, k, n, output, InList(kind), SortList(kind, sort));
    Associative(output, Print(sort(p.sources)), p.comments);
    assert lines[n + 1..n + 1] == [];
  }

  lemma Associative(a: seq<string>, b: seq<string>, c: seq<string>)
    ensures a + b + c == a + (b + c)
  {
  }

  // ----- Parsing and printing -----

  ghost predicate AllComments(lines: seq<string>, kind: string -> Kind) {
    forall i :: 0 <= i < |lines| ==> kind(lines[i]).Comment?
  }

  ghost predicate Proper(g: Group, kind: string -> Kind) {
    kind(g.line).Source? && AllComments(g.comments, kind)
  }

  ghost predicate AllProper(groups: seq<Group>, kind: string -> Kind) {
    forall i :: 0 <= i < |groups| ==> Proper(groups[i], kind)
  }

  lemma {:induction false} PrintAppend(a: seq<Group>, b: seq<Group>)
    ensures Print(a + b) == Print(a) + Print(b)
  {
    if a == [] {
      assert a + b == b;
    } else {
      assert (a + b)[1..] == a[1..] + b;
      PrintAppend(a[1..], b);
      Associative(a[0].comments + [a[0].line], Print(a[1..]), Print(b));
    }
  }

  lemma PrintOne(g: Group)
    ensures Print([g]) == g.comments + [g.line]
  {
    assert Print([g]) == g.comments + [g.line] + Print([]);
  }

  lemma {:induction false} ParseIsProper(lines: seq<string>, kind: string -> Kind)
    requires AllIn(lines, InList(kind))
    ensures AllProper(Parse(lines, kind).sources, kind) && AllComments(Parse(lines, kind).comments, kind)
  {
    if lines != [] {
      ParseIsProper(lines[..|lines| - 1], kind);
    }
  }

  /** Printing what was parsed gives the lines back ... */
  lemma {:induction false} PrintParsed(lines: seq<string>, kind: string -> Kind)
    ensures Print(Parse(lines, kind).sources) + Parse(lines, kind).comments == lines
  {
    if lines != [] {
      var init, last := lines[..|lines| - 1], lines[|lines| - 1];
      PrintParsed(init, kind);
      var p := Parse(init, kind);
      assert lines == init + [last];
      if kind(last).Comment? {
        Associative(Print(p.sources), p.comments, [last]);
      } else {
        var g := Group(last, p.comments);
        PrintAppend(p.sources, [g]);
        PrintOne(g);
        Associative(Print(p.sources), p.comments, [last]);
      }
    }
  }

  lemma {:induction false} ParseComments(lines: seq<string>, comments: seq<string>, kind: string -> Kind)
    requires AllComments(comments, kind)
    ensures Parse(lines + comments, kind)
      == Parse(lines, kind).(comments := Parse(lines, kind).comments + comments)
  {
    if comments == [] {
      assert lines + comments == lines;
    } else {
      var init, last := comments[..|comments| - 1], comments[|comments| - 1];
      ParseComments(lines, init, kind);
      assert (lines + comments)[..|lines + comments| - 1] == lines + init;
      assert comments == init + [last];
      Associative(Parse(lines, kind).comments, init, [last]);
    }
  }

  lemma ParseGroup(lines: seq<string>, g: Group, kind: string -> Kind)
    requires Proper(g, kind) && Parse(lines, kind).comments == []
    ensures Parse(lines + (g.comments + [g.line]), kind) == Pending(Parse(lines, kind).sources + [g], [])
  {
    ParseComments(lines, g.comments, kind);
    var all := lines + (g.comments + [g.line]);
    assert all[..|all| - 1] == lines + g.comments;
    assert [] + g.comments == g.comments;
  }

  lemma {:induction false} ParsePrintedGroups(groups: seq<Group>, kind: string -> Kind)
    requires AllProper(groups, kind)
    ensures Parse(Print(groups), kind) == Pending(groups, [])
  {
    if groups != [] {
      var init, last := groups[..|groups| - 1], groups[|groups| - 1];
      assert groups == init + [last];
      ParsePrintedGroups(init, kind);
      PrintAppend(init, [last]);
      PrintOne(last);
      ParseGroup(Print(init), last, kind);
    }
  }

  /** ... and parsing what was printed gives the groups back. */
  lemma ParsePrinted(groups: seq<Group>, comments: seq<string>, kind: string -> Kind)
    requires AllProper(groups, kind) && AllComments(comments, kind)
    ensures Parse(Print(groups) + comments, kind) == Pending(groups, comments)
  {
    ParsePrintedGroups(groups, kind);
    ParseComments(Print(groups), comments, kind);
    assert [] + comments == comments;
  }

  lemma PrintMiddle(a: seq<Group>, g: Group, b: seq<Group>)
    ensures multiset(Print(a + [g] + b)) == multiset(Print([g])) + multiset(Print(a + b))
  {
    PrintAppend(a + [g], b);
    PrintAppend(a, [g]);
    PrintAppend(a, b);
  }

  lemma WithoutMiddle(s: seq<Group>, i: nat)
    requires i < |s|
    ensures s == s[..i] + [s[i]] + s[i + 1..]
    ensures multiset(s[..i] + s[i + 1..]) == multiset(s) - multiset{s[i]}
  {
    assert s == s[..i] + [s[i]] + s[i + 1..];
    assert multiset(s) == multiset(s[..i]) + multiset{s[i]} + multiset(s[i + 1..]);
  }

  lemma {:induction false} PrintPermutes(a: seq<Group>, b: seq<Group>)
    requires multiset(a) == multiset(b)
    ensures multiset(Print(a)) == multiset(Print(b))
    decreases |a|
  {
    if a == [] {
      assert |multiset(b)| == 0;
    } else {
      assert a[0] in multiset(b);
      var i :| 0 <= i < |b| && b[i] == a[0];
      WithoutMiddle(a, 0);
      WithoutMiddle(b, i);
      PrintPermutes(a[..0] + a[1..], b[..i] + b[i + 1..]);
      PrintMiddle(a[..0], a[0], a[1..]);
      PrintMiddle(b[..i], a[0], b[i + 1..]);
    }
  }

  // ----- Results -----

  lemma StillProper(groups: seq<Group>, sorted: seq<Group>, kind: string -> Kind)
    requires multiset(sorted) == multiset(groups) && AllProper(groups, kind)
    ensures AllProper(sorted, kind)
  {
    forall i | 0 <= i < |sorted|
      ensures Proper(sorted[i], kind)
    {
      assert sorted[i] in multiset(groups);
    }
  }

  /** A sorted list parses to the sorted groups: every source still has its comments directly above it. */
  lemma SortedListParses(list: seq<string>, kind: string -> Kind, sort: Sorter)
    requires AllIn(list, InList(kind)) && Rearranged(Parse(list, kind).sources, sort)
    ensures Parse(SortList(kind, sort)(list), kind)
      == Pending(sort(Parse(list, kind).sources), Parse(list, kind).comments)
  {
    var p := Parse(list, kind);
    ParseIsProper(list, kind);
    StillProper(p.sources, sort(p.sources), kind);
    ParsePrinted(sort(p.sources), p.comments, kind);
  }

  lemma ListsAreRearranged(kind: string -> Kind, sort: Sorter)
    requires forall groups :: Rearranged(groups, sort)
    ensures Rearranges(InList(kind), SortList(kind, sort))
  {
    forall list | AllIn(list, InList(kind))
      ensures Rearranged(list, SortList(kind, sort))
    {
      var p := Parse(list, kind);
      assert Rearranged(p.sources, sort);
      SortedListParses(list, kind, sort);
      PrintParsed(list, kind);
      PrintPermutes(sort(p.sources), p.sources);
    }
  }

  lemma GroupsAreOrdered()
    ensures TotalPreorder(GroupLeq) && Antisymmetric(GroupLeq)
  {
    StringsAreOrdered();
    ListsAreOrdered();
  }

  lemma ByLineRearranges(groups: seq<Group>)
    ensures Rearranged(groups, ByLine)
  {
    GroupsAreOrdered();
    SortPermutes(groups, GroupLeq);
    SortSorts(groups, GroupLeq);
    SortOfSorted(Sort(groups, GroupLeq), GroupLeq);
  }

  lemma SourcesAreRearranged(kind: string -> Kind)
    ensures Rearranges(InList(kind), SortList(kind, ByLine))
  {
    forall groups
      ensures Rearranged(groups, ByLine)
    {
      ByLineRearranges(groups);
    }
    ListsAreRearranged(kind, ByLine);
  }

  /** Exactly the lines before the list at the very end are written, each once. */
  lemma LinesWritten(lines: seq<string>, kind: string -> Kind)
    ensures multiset(Sorted(lines, kind, ByLine)) == multiset(lines[..RunStart(lines, InList(kind))])
    ensures |Sorted(lines, kind, ByLine)| == RunStart(lines, InList(kind))
  {
    SourcesAreRearranged(kind);
    MapRunsPermutes(lines[..RunStart(lines, InList(kind))], InList(kind), SortList(kind, ByLine));
  }

  /** The output is a permutation of the input if and only if the input does not end in a comment or a source. */
  lemma PermutesIffClosed(lines: seq<string>, kind: string -> Kind)
    ensures multiset(Sorted(lines, kind, ByLine)) == multiset(lines)
      <==> lines == [] || kind(lines[|lines| - 1]).Other?
  {
    LinesWritten(lines, kind);
    var k := RunStart(lines, InList(kind));
    if lines == [] || kind(lines[|lines| - 1]).Other? {
      assert lines[..k] == lines;
    } else {
      assert |multiset(lines[..k])| == k && |multiset(lines)| == |lines|;
    }
  }

  /** Sorting again changes nothing. */
  lemma SortedIdempotent(lines: seq<string>, kind: string -> Kind)
    ensures Sorted(Sorted(lines, kind, ByLine), kind, ByLine) == Sorted(lines, kind, ByLine)
  {
    SourcesAreRearranged(kind);
    MapClosedRunsIdempotent(lines, InList(kind), SortList(kind, ByLine));
  }

  /** Lines that are neither comments nor sources keep their index. */
  lemma OtherLinesStay(lines: seq<string>, kind: string -> Kind, i: nat)
    requires i < |lines| && kind(lines[i]).Other?
    ensures i < |Sorted(lines, kind, ByLine)| && Sorted(lines, kind, ByLine)[i] == lines[i]
  {
    SourcesAreRearranged(kind);
    LinesWritten(lines, kind);
    assert i < RunStart(lines, InList(kind));
    OthersStay(lines[..RunStart(lines, InList(kind))], InList(kind), SortList(kind, ByLine), i);
  }

  /**
    Every list that something else follows becomes the same sources with the same comments directly above each,
    ordered by source and then by comments; comments below the last source stay below it.
   */
  lemma ListsAreSorted(lines: seq<string>, kind: string -> Kind, i: nat, j: nat)
    requires WholeRun(lines, InList(kind), i, j) && j < |lines|
    ensures j <= |Sorted(lines, kind, ByLine)|
    ensures
      var before, after := Parse(lines[i..j], kind), Parse(Sorted(lines, kind, ByLine)[i..j], kind);
      && multiset(after.sources) == multiset(before.sources)
      && InOrder(after.sources, GroupLeq)
      && after.comments == before.comments
  {
    SourcesAreRearranged(kind);
    ClosedRunsAreMapped(lines, InList(kind), SortList(kind, ByLine), i, j);
    SortedListIsInOrder(lines[i..j], kind);
  }

  lemma SortedListIsInOrder(list: seq<string>, kind: string -> Kind)
    requires AllIn(list, InList(kind))
    ensures
      var before, after := Parse(list, kind), Parse(SortList(kind, ByLine)(list), kind);
      && multiset(after.sources) == multiset(before.sources)
      && InOrder(after.sources, GroupLeq)
      && after.comments == before.comments
  {
    ByLineRearranges(Parse(list, kind).sources);
    SortedListParses(list, kind, ByLine);
    GroupsAreOrdered();
    SortSorts(Parse(list, kind).sources, GroupLeq);
  }

  /** Sources of a list ascend, as in a dictionary; equal ones are in the order of their comments. */
  lemma SourcesAscend(lines: seq<string>, kind: string -> Kind, i: nat, j: nat, k: nat, l: nat)
    requires WholeRun(lines, InList(kind), i, j) && j < |lines|
    requires j <= |Sorted(lines, kind, ByLine)| && k < l < |Parse(Sorted(lines, kind, ByLine)[i..j], kind).sources|
    ensures
      var sources := Parse(Sorted(lines, kind, ByLine)[i..j], kind).sources;
      if sources[k].line == sources[l].line then ListLeq(sources[k].comments, sources[l].comments)
      else Precedes(sources[k].line, sources[l].line)
  {
    ListsAreSorted(lines, kind, i, j);
    var sources := Parse(Sorted(lines, kind, ByLine)[i..j], kind).sources;
    assert GroupLeq(sources[k], sources[l]);
    StringsAscend(sources[k].line, sources[l].line);
  }

  // ----- What the tool takes for comments and sources -----

  lemma {:induction false} SpacesBefore(s: string, n: nat)
    requires n < |s| && !IsSpace(s[n]) && forall k :: 0 <= k < n ==> IsSpace(s[k])
    ensures LeadingSpaces(s) == n
  {
    if n > 0 {
      SpacesBefore(s[1..], n - 1);
    }
  }

  lemma {:induction false} LeadingAreSpaces(s: string)
    ensures forall k :: 0 <= k < LeadingSpaces(s) ==> IsSpace(s[k])
    ensures LeadingSpaces(s) < |s| ==> !IsSpace(s[LeadingSpaces(s)])
  {
    if s != "" && IsSpace(s[0]) {
      LeadingAreSpaces(s[1..]);
      forall k | 0 <= k < LeadingSpaces(s)
        ensures IsSpace(s[k])
      {
        assert k > 0 ==> s[k] == s[1..][k - 1];
      }
    }
  }

  /** A comment: white space, at least one of it, and then a number sign. */
  lemma CommentIff(line: string)
    ensures KindOf(line).Comment? <==>
            exists n :: 0 < n < |line| && line[n] == '#' && forall k :: 0 <= k < n ==> IsSpace(line[k])
  {
    LeadingAreSpaces(line);
    if n :| 0 < n < |line| && line[n] == '#' && forall k :: 0 <= k < n ==> IsSpace(line[k]) {
      SpacesBefore(line, n);
    }
  }

  /** The pattern of a source, read from left to right: n of white space, a quote, anything but a newline up to a dot at
      m, a suffix, a quote and a comma. */
  ghost predicate IsPattern(text: string, n: nat, m: nat, suffix: string) {
    && 0 < n < m && |text| == m + |suffix| + 3
    && (forall k :: 0 <= k < n ==> IsSpace(text[k]))
    && IsQuote(text[n])
    && (forall k :: n < k < m ==> text[k] != '\n')
    && text[m] == '.' && text[m + 1..m + 1 + |suffix|] == suffix
    && IsQuote(text[m + |suffix| + 1]) && text[m + |suffix| + 2] == ','
  }

  /** The name between the quotes, seen from its suffix. */
  lemma NameHasSuffix(text: string, n: nat, m: nat, suffix: string)
    requires 0 < n <= m && |text| == m + |suffix| + 3
    ensures HasSuffix(text[n + 1..|text| - 2], suffix) <==>
            && n < m && text[m] == '.' && text[m + 1..m + 1 + |suffix|] == suffix
            && forall k :: n < k < m ==> text[k] != '\n'
  {
    var name := text[n + 1..|text| - 2];
    if n < m {
      assert name[|name| - |suffix|..] == text[m + 1..m + 1 + |suffix|];
      assert name[|name| - |suffix| - 1] == text[m];
      var body := name[..|name| - |suffix| - 1];
      assert |body| == m - n - 1 && forall k :: n < k < m ==> text[k] == body[k - n - 1];
      assert forall k :: 0 <= k < |body| ==> body[k] == text[n + 1 + k];
    }
  }

  ghost predicate HasPattern(text: string, suffixes: seq<string>) {
    exists n: nat, m: nat, i: nat :: i < |suffixes| && IsPattern(text, n, m, suffixes[i])
  }

  lemma PatternMatches(text: string, suffixes: seq<string>, n: nat, m: nat, i: nat)
    requires i < |suffixes| && IsPattern(text, n, m, suffixes[i])
    ensures Matches(text, suffixes)
  {
    SpacesBefore(text, n);
    NameHasSuffix(text, n, m, suffixes[i]);
  }

  lemma MatchHasPattern(text: string, suffixes: seq<string>)
    requires Matches(text, suffixes)
    ensures HasPattern(text, suffixes)
  {
    LeadingAreSpaces(text);
    var n := LeadingSpaces(text);
    var i :| 0 <= i < |suffixes| && HasSuffix(text[n + 1..|text| - 2], suffixes[i]);
    var m := |text| - 3 - |suffixes[i]|;
    NameHasSuffix(text, n, m, suffixes[i]);
    assert IsPattern(text, n, m, suffixes[i]);
  }

  lemma PatternIsNoComment(line: string, text: string, suffixes: seq<string>)
    requires HasPattern(text, suffixes) && (line == text || line == text + "\n")
    ensures WithoutNewline(line) == text && !IsComment(line)
  {
    var n: nat, m: nat, i: nat :| i < |suffixes| && IsPattern(text, n, m, suffixes[i]);
    SpacesBefore(line, n);
  }

  /** A source: a line that has this pattern, with one of the tool's suffixes, but for a newline at its end. */
  lemma SourceIff(line: string)
    ensures KindOf(line).Source? <==>
            exists text :: (line == text || line == text + "\n") && HasPattern(text, Suffixes)
  {
    if text :| (line == text || line == text + "\n") && HasPattern(text, Suffixes) {
      PatternIsNoComment(line, text, Suffixes);
      var n: nat, m: nat, i: nat :| i < |Suffixes| && IsPattern(text, n, m, Suffixes[i]);
      PatternMatches(text, Suffixes, n, m, i);
    }
    if IsSource(line) {
      var text := WithoutNewline(line);
      assert line == text || line == text + "\n";
      MatchHasPattern(text, Suffixes);
      PatternIsNoComment(line, text, Suffixes);
    }
  }

  /** A file that is nothing but a source, without a closing line, is emptied. */
  lemma UnclosedListIsLost(line: string)
    requires line == "  'a.cc',"
    ensures Sorted([line], KindOf, ByLine) == []
  {
    assert Suffixes[1] == "cc" && line[5..7] == "cc";
    assert IsPattern(line, 2, 4, Suffixes[1]);
    assert HasPattern(line, Suffixes);
    SourceIff(line);
    LinesWritten([line], KindOf);
    assert RunStart([line], InList(KindOf)) == 0;
  }

  // ----- Files -----

  /** What is written reads back as it was written: a last line without a newline stays last, or is dropped. */
  lemma FileReadsBack(file: string, kind: string -> Kind)
    ensures
      var sorted := Sorted(ReadLines(file), kind, ByLine);
      ReadLines(WriteLines(sorted)) == sorted
  {
    var lines := ReadLines(file);
    var k, sorted := RunStart(lines, InList(kind)), Sorted(lines, kind, ByLine);
    ReadIsReadable(file);
    LinesWritten(lines, kind);
    if k > 0 {
      OtherLinesStay(lines, kind, k - 1);
      assert Readable(lines[..k]) && lines[..k][k - 1] == lines[k - 1];
      StaysReadable(lines[..k], sorted);
    }
    ReadWhatWasWritten(sorted);
  }

  /** So for files too: nothing is lost if and only if the last line is neither comment nor source, and sorting twice is
      sorting once. */
  lemma FilePermutesIffClosed(file: string, kind: string -> Kind)
    ensures
      var lines, g := ReadLines(file), WriteLines(Sorted(ReadLines(file), kind, ByLine));
      && (multiset(ReadLines(g)) == multiset(lines) <==> lines == [] || kind(lines[|lines| - 1]).Other?)
      && WriteLines(Sorted(ReadLines(g), kind, ByLine)) == g
  {
    FileReadsBack(file, kind);
    PermutesIffClosed(ReadLines(file), kind);
    SortedIdempotent(ReadLines(file), kind);
  }
}
