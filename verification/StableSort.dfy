/** Python's sorted: a stable sort, which is determined by the order alone; and the order of lists and strings. */
module StableSort {

  ghost predicate TotalPreorder<T(!new)>(leq: (T, T) -> bool) {
    && (forall x, y :: leq(x, y) || leq(y, x))
    && (forall x, y, z :: leq(x, y) && leq(y, z) ==> leq(x, z))
  }

  ghost predicate Antisymmetric<T(!new)>(leq: (T, T) -> bool) {
    forall x, y :: leq(x, y) && leq(y, x) ==> x == y
  }

  ghost predicate InOrder<T>(s: seq<T>, leq: (T, T) -> bool) {
    forall i, j :: 0 <= i < j < |s| ==> leq(s[i], s[j])
  }

  function Insert<T>(x: T, s: seq<T>, leq: (T, T) -> bool): seq<T> {
    if s == [] || leq(x, s[0]) then [x] + s else [s[0]] + Insert(x, s[1..], leq)
  }

  function Sort<T>(s: seq<T>, leq: (T, T) -> bool): seq<T> {
    if s == [] then [] else Insert(s[0], Sort(s[1..], leq), leq)
  }

  /** The elements that are neither before nor after x, in the order of s. */
  function Like<T>(s: seq<T>, x: T, leq: (T, T) -> bool): seq<T> {
    if s == [] then []
    else if leq(s[0], x) && leq(x, s[0]) then [s[0]] + Like(s[1..], x, leq)
    else Like(s[1..], x, leq)
  }

  // ----- The result is sorted, a permutation, and stable -----

  lemma {:induction false} InsertPermutes<T>(x: T, s: seq<T>, leq: (T, T) -> bool)
    ensures multiset(Insert(x, s, leq)) == multiset{x} + multiset(s)
  {
    if s != [] && !leq(x, s[0]) {
      InsertPermutes(x, s[1..], leq);
      assert s == [s[0]] + s[1..];
    }
  }

  lemma {:induction false} SortPermutes<T>(s: seq<T>, leq: (T, T) -> bool)
    ensures multiset(Sort(s, leq)) == multiset(s)
    ensures |Sort(s, leq)| == |s|
  {
    if s != [] {
      SortPermutes(s[1..], leq);
      InsertPermutes(s[0], Sort(s[1..], leq), leq);
      assert s == [s[0]] + s[1..];
    }
    assert |multiset(Sort(s, leq))| == |multiset(s)|;
  }

  lemma InOrderCons<T(!new)>(x: T, s: seq<T>, leq: (T, T) -> bool)
    requires InOrder(s, leq) && TotalPreorder(leq) && (s == [] || leq(x, s[0]))
    ensures InOrder([x] + s, leq)
  {
    forall i, j | 0 <= i < j < |[x] + s|
      ensures leq(([x] + s)[i], ([x] + s)[j])
    {
      if i == 0 && j > 1 {
        assert leq(x, s[0]) && leq(s[0], s[j - 1]);
      }
    }
  }

  lemma {:induction false} InsertSorts<T(!new)>(x: T, s: seq<T>, leq: (T, T) -> bool)
    requires InOrder(s, leq) && TotalPreorder(leq)
    ensures InOrder(Insert(x, s, leq), leq)
  {
    if s == [] || leq(x, s[0]) {
      InOrderCons(x, s, leq);
    } else {
      InsertSorts(x, s[1..], leq);
      assert leq(s[0], Insert(x, s[1..], leq)[0]);
      InOrderCons(s[0], Insert(x, s[1..], leq), leq);
    }
  }

  lemma {:induction false} SortSorts<T(!new)>(s: seq<T>, leq: (T, T) -> bool)
    requires TotalPreorder(leq)
    ensures InOrder(Sort(s, leq), leq)
  {
    if s != [] {
      SortSorts(s[1..], leq);
      InsertSorts(s[0], Sort(s[1..], leq), leq);
    }
  }

  lemma LikeCons<T>(y: T, s: seq<T>, x: T, leq: (T, T) -> bool)
    ensures Like([y] + s, x, leq) == (if leq(y, x) && leq(x, y) then [y] else []) + Like(s, x, leq)
  {
    assert ([y] + s)[1..] == s;
  }

  lemma {:induction false} InsertIsStable<T(!new)>(y: T, s: seq<T>, x: T, leq: (T, T) -> bool)
    requires TotalPreorder(leq)
    ensures Like(Insert(y, s, leq), x, leq) == Like([y] + s, x, leq)
  {
    if s != [] && !leq(y, s[0]) {
      var tail := Insert(y, s[1..], leq);
      InsertIsStable(y, s[1..], x, leq);
      LikeCons(s[0], tail, x, leq);
      LikeCons(y, s, x, leq);
      LikeCons(y, s[1..], x, leq);
      assert s == [s[0]] + s[1..];
      LikeCons(s[0], s[1..], x, leq);
    }
  }

  /** Elements that compare equal keep their order. */
  lemma {:induction false} SortIsStable<T(!new)>(s: seq<T>, x: T, leq: (T, T) -> bool)
    requires TotalPreorder(leq)
    ensures Like(Sort(s, leq), x, leq) == Like(s, x, leq)
  {
    if s != [] {
      var tail := Sort(s[1..], leq);
      SortIsStable(s[1..], x, leq);
      InsertIsStable(s[0], tail, x, leq);
      LikeCons(s[0], tail, x, leq);
      LikeCons(s[0], s[1..], x, leq);
      assert s == [s[0]] + s[1..];
    }
  }

  // ----- There is no other such result -----

  lemma {:induction false} LikeFirst<T(!new)>(s: seq<T>, x: T, leq: (T, T) -> bool)
    requires TotalPreorder(leq) && InOrder(s, leq) && Like(s, x, leq) != []
    ensures s != [] && leq(s[0], x)
    ensures leq(x, s[0]) ==> Like(s, x, leq)[0] == s[0]
  {
    if !(leq(s[0], x) && leq(x, s[0])) {
      LikeFirst(s[1..], x, leq);
      assert leq(s[0], s[1..][0]);
    }
  }

  lemma LikeSelf<T(!new)>(s: seq<T>, leq: (T, T) -> bool)
    requires TotalPreorder(leq) && s != []
    ensures Like(s, s[0], leq) == [s[0]] + Like(s[1..], s[0], leq)
  {
    assert leq(s[0], s[0]);
  }

  lemma SameFirst<T(!new)>(r: seq<T>, s: seq<T>, leq: (T, T) -> bool)
    requires TotalPreorder(leq) && InOrder(r, leq) && InOrder(s, leq) && r != []
    requires forall x :: Like(r, x, leq) == Like(s, x, leq)
    ensures s != [] && r[0] == s[0]
  {
    LikeSelf(r, leq);
    LikeFirst(s, r[0], leq);
    LikeSelf(s, leq);
    LikeFirst(r, s[0], leq);
  }

  lemma {:induction false} SameLikesSame<T(!new)>(r: seq<T>, s: seq<T>, leq: (T, T) -> bool)
    requires TotalPreorder(leq) && InOrder(r, leq) && InOrder(s, leq)
    requires forall x :: Like(r, x, leq) == Like(s, x, leq)
    ensures r == s
  {
    if r == [] {
      if s != [] {
        SameFirst(s, r, leq);
      }
    } else {
      SameFirst(r, s, leq);
      assert r == [r[0]] + r[1..] && s == [s[0]] + s[1..];
      forall x
        ensures Like(r[1..], x, leq) == Like(s[1..], x, leq)
      {
        LikeCons(r[0], r[1..], x, leq);
        LikeCons(s[0], s[1..], x, leq);
        var n := if leq(r[0], x) && leq(x, r[0]) then 1 else 0;
        assert Like(r[1..], x, leq) == Like(r, x, leq)[n..] && Like(s[1..], x, leq) == Like(s, x, leq)[n..];
      }
      SameLikesSame(r[1..], s[1..], leq);
    }
  }

  /** Whatever algorithm sorts stably, its result is this one. */
  lemma StableSortIsUnique<T(!new)>(r: seq<T>, s: seq<T>, leq: (T, T) -> bool)
    requires TotalPreorder(leq) && InOrder(r, leq)
    requires forall x :: Like(r, x, leq) == Like(s, x, leq)
    ensures r == Sort(s, leq)
  {
    SortSorts(s, leq);
    forall x
      ensures Like(r, x, leq) == Like(Sort(s, leq), x, leq)
    {
      SortIsStable(s, x, leq);
    }
    SameLikesSame(r, Sort(s, leq), leq);
  }

  /** What is in order stays as it is. */
  lemma SortOfSorted<T(!new)>(s: seq<T>, leq: (T, T) -> bool)
    requires TotalPreorder(leq) && InOrder(s, leq)
    ensures Sort(s, leq) == s
  {
    StableSortIsUnique(s, s, leq);
  }

  lemma {:induction false} LikeSnoc<T>(s: seq<T>, y: T, x: T, leq: (T, T) -> bool)
    ensures Like(s + [y], x, leq) == Like(s, x, leq) + if leq(y, x) && leq(x, y) then [y] else []
  {
    if s == [] {
      assert s + [y] == [y] + [];
      LikeCons(y, [], x, leq);
    } else {
      LikeSnoc(s[1..], y, x, leq);
      assert s + [y] == [s[0]] + (s[1..] + [y]) && s == [s[0]] + s[1..];
      LikeCons(s[0], s[1..] + [y], x, leq);
      LikeCons(s[0], s[1..], x, leq);
    }
  }

  /** The last element of those like the last element is the last element. */
  lemma LikeLast<T(!new)>(s: seq<T>, x: T, leq: (T, T) -> bool)
    requires s != [] && leq(s[|s| - 1], x) && leq(x, s[|s| - 1])
    ensures Like(s, x, leq) != [] && Like(s, x, leq)[|Like(s, x, leq)| - 1] == s[|s| - 1]
  {
    assert s == s[..|s| - 1] + [s[|s| - 1]];
    LikeSnoc(s[..|s| - 1], s[|s| - 1], x, leq);
  }

  lemma LastIsGreatest<T(!new)>(s: seq<T>, y: T, leq: (T, T) -> bool)
    requires TotalPreorder(leq) && y in s
    ensures |Sort(s, leq)| == |s| && leq(y, Sort(s, leq)[|s| - 1])
  {
    var sorted := Sort(s, leq);
    SortPermutes(s, leq);
    SortSorts(s, leq);
    assert y in multiset(sorted);
    var i :| 0 <= i < |sorted| && sorted[i] == y;
    assert leq(y, y);
  }

  lemma SortKeepsGreatest<T(!new)>(s: seq<T>, leq: (T, T) -> bool)
    requires TotalPreorder(leq) && s != [] && forall i :: 0 <= i < |s| ==> leq(s[i], s[|s| - 1])
    ensures |Sort(s, leq)| == |s| && Sort(s, leq)[|s| - 1] == s[|s| - 1]
  {
    var sorted, x := Sort(s, leq), s[|s| - 1];
    LastIsGreatest(s, x, leq);
    SortPermutes(s, leq);
    assert sorted[|s| - 1] in multiset(s);
    SortIsStable(s, x, leq);
    LikeLast(s, x, leq);
    LikeLast(sorted, x, leq);
  }

  /** Sorting leaves the last element last if and only if nothing belongs after it. */
  lemma SortKeepsLastIff<T(!new)>(s: seq<T>, leq: (T, T) -> bool)
    requires TotalPreorder(leq) && s != []
    ensures |Sort(s, leq)| == |s|
    ensures Sort(s, leq)[|s| - 1] == s[|s| - 1] <==> forall i :: 0 <= i < |s| ==> leq(s[i], s[|s| - 1])
  {
    SortPermutes(s, leq);
    if forall i :: 0 <= i < |s| ==> leq(s[i], s[|s| - 1]) {
      SortKeepsGreatest(s, leq);
    } else {
      var i :| 0 <= i < |s| && !leq(s[i], s[|s| - 1]);
      LastIsGreatest(s, s[i], leq);
    }
  }

  lemma NeighboursSuffice<T(!new)>(s: seq<T>, leq: (T, T) -> bool, i: nat, j: nat)
    requires TotalPreorder(leq) && i < j < |s|
    requires forall k :: 0 <= k < |s| - 1 ==> leq(s[k], s[k + 1])
    ensures leq(s[i], s[j])
  {
    if i + 1 < j {
      NeighboursSuffice(s, leq, i, j - 1);
      assert leq(s[j - 1], s[j - 1 + 1]);
    }
  }

  lemma InOrderWithin<T>(s: seq<T>, leq: (T, T) -> bool, i: nat, j: nat, k: nat, l: nat)
    requires i <= k < l < j <= |s| && InOrder(s[i..j], leq)
    ensures leq(s[k], s[l])
  {
    assert s[i..j][k - i] == s[k] && s[i..j][l - i] == s[l];
  }

  // ----- Lists and strings -----

  /** The first difference decides; a beginning of a list comes before the list. */
  predicate LexLeq<T(==)>(a: seq<T>, b: seq<T>, leq: (T, T) -> bool) {
    a == [] || (b != [] && if a[0] == b[0] then LexLeq(a[1..], b[1..], leq) else leq(a[0], b[0]))
  }

  lemma {:induction false} LexTotal<T(!new)>(a: seq<T>, b: seq<T>, leq: (T, T) -> bool)
    requires TotalPreorder(leq)
    ensures LexLeq(a, b, leq) || LexLeq(b, a, leq)
  {
    if a != [] && b != [] && a[0] == b[0] {
      LexTotal(a[1..], b[1..], leq);
    }
  }

  lemma {:induction false} LexTransitive<T(!new)>(a: seq<T>, b: seq<T>, c: seq<T>, leq: (T, T) -> bool)
    requires TotalPreorder(leq) && Antisymmetric(leq) && LexLeq(a, b, leq) && LexLeq(b, c, leq)
    ensures LexLeq(a, c, leq)
  {
    if a != [] && a[0] == b[0] == c[0] {
      LexTransitive(a[1..], b[1..], c[1..], leq);
    }
  }

  lemma {:induction false} LexAntisymmetric<T(!new)>(a: seq<T>, b: seq<T>, leq: (T, T) -> bool)
    requires Antisymmetric(leq) && LexLeq(a, b, leq) && LexLeq(b, a, leq)
    ensures a == b
  {
    if a != [] {
      assert a[0] == b[0];
      LexAntisymmetric(a[1..], b[1..], leq);
      assert a == [a[0]] + a[1..] && b == [b[0]] + b[1..];
    }
  }

  predicate CharLeq(a: char, b: char) {
    a <= b
  }

  predicate StringLeq(a: string, b: string) {
    LexLeq(a, b, CharLeq)
  }

  lemma StringsAreOrdered()
    ensures TotalPreorder(StringLeq) && Antisymmetric(StringLeq)
  {
    forall a, b
      ensures StringLeq(a, b) || StringLeq(b, a)
    {
      LexTotal(a, b, CharLeq);
    }
    forall a, b | StringLeq(a, b) && StringLeq(b, a)
      ensures a == b
    {
      LexAntisymmetric(a, b, CharLeq);
    }
    forall a, b, c | StringLeq(a, b) && StringLeq(b, c)
      ensures StringLeq(a, c)
    {
      LexTransitive(a, b, c, CharLeq);
    }
  }

  /** The first difference decides. */
  lemma {:induction false} FirstDifference(a: string, b: string, n: nat)
    requires n < |a| && n <= |b| && a[..n] == b[..n] && (n < |b| ==> a[n] > b[n])
    ensures !StringLeq(a, b)
    decreases n
  {
    if n > 0 {
      assert a[0] == a[..n][0] && b[0] == b[..n][0];
      assert a[1..][..n - 1] == a[..n][1..] && b[1..][..n - 1] == b[..n][1..];
      FirstDifference(a[1..], b[1..], n - 1);
    }
  }

  /** a comes before b in a dictionary: it is a proper beginning of b, or smaller where they first differ. */
  ghost predicate Precedes(a: string, b: string) {
    exists n :: 0 <= n <= |a| && n < |b| && a[..n] == b[..n] && (n == |a| || a[n] < b[n])
  }

  lemma {:induction false} OnePrecedes(a: string, b: string)
    requires a != b
    ensures Precedes(a, b) || Precedes(b, a)
  {
    if a == "" || b == "" || a[0] != b[0] {
      assert a[..0] == b[..0];
    } else {
      OnePrecedes(a[1..], b[1..]);
      if Precedes(a[1..], b[1..]) {
        PrecedesLater(a, b);
      } else {
        PrecedesLater(b, a);
      }
    }
  }

  lemma PrecedesLater(a: string, b: string)
    requires a != "" && b != "" && a[0] == b[0] && Precedes(a[1..], b[1..])
    ensures Precedes(a, b)
  {
    var n :| 0 <= n <= |a[1..]| && n < |b[1..]| && a[1..][..n] == b[1..][..n]
      && (n == |a[1..]| || a[1..][n] < b[1..][n]);
    assert a[..n + 1] == [a[0]] + a[1..][..n] && b[..n + 1] == [b[0]] + b[1..][..n];
  }

  /** The order of strings is that of a dictionary. */
  lemma StringsAscend(a: string, b: string)
    ensures StringLeq(a, b) <==> a == b || Precedes(a, b)
  {
    StringsAreOrdered();
    assert StringLeq(a, b) || StringLeq(b, a);
    if Precedes(a, b) {
      var n :| 0 <= n <= |a| && n < |b| && a[..n] == b[..n] && (n == |a| || a[n] < b[n]);
      FirstDifference(b, a, n);
    } else if a != b {
      OnePrecedes(a, b);
      var n :| 0 <= n <= |b| && n < |a| && b[..n] == a[..n] && (n == |b| || b[n] < a[n]);
      FirstDifference(a, b, n);
    }
  }

  predicate ListLeq(a: seq<string>, b: seq<string>) {
    LexLeq(a, b, StringLeq)
  }

  lemma ListsAreOrdered()
    ensures TotalPreorder(ListLeq) && Antisymmetric(ListLeq)
  {
    StringsAreOrdered();
    forall a, b
      ensures ListLeq(a, b) || ListLeq(b, a)
    {
      LexTotal(a, b, StringLeq);
    }
    forall a, b | ListLeq(a, b) && ListLeq(b, a)
      ensures a == b
    {
      LexAntisymmetric(a, b, StringLeq);
    }
    forall a, b, c | ListLeq(a, b) && ListLeq(b, c)
      ensures ListLeq(a, c)
    {
      LexTransitive(a, b, c, StringLeq);
    }
  }
}
