/**
  The transitive hash of a file: a worklist that collects the hashes of the file and of everything it depends on.

  Names of files are numbers, and so are hashes.  What realpath, file_hash and ldd answer is a parameter; the last
  two can fail, and a failure ends the computation.  A file whose hash was seen before is not looked into again.
 */
module TransitiveHash {
  import opened Wrappers

  /** All files there are, by their real paths, all hashes they have, and what the three tools say of them. */
  datatype World = World(
    files: set<nat>,
    hashes: set<nat>,
    realPath: nat -> nat,
    hash: nat -> Option<nat>,
    dependencies: nat -> Option<seq<nat>>)

  /** The world is finite: dependencies lead to its files, and its files have its hashes. */
  ghost predicate Closed(w: World) {
    && (forall f :: f in w.files && w.dependencies(f).Some? ==> Within(w, w.dependencies(f).value))
    && (forall f :: f in w.files && w.hash(f).Some? ==> w.hash(f).value in w.hashes)
  }

  ghost predicate Within(w: World, names: seq<nat>) {
    forall i :: 0 <= i < |names| ==> w.realPath(names[i]) in w.files
  }

  /** The worklist, as a recursion; it ends because a step sees a new hash or shortens the list. */
  ghost function Collect(w: World, toHash: seq<nat>, hashes: set<nat>): Option<set<nat>>
    requires Closed(w) && Within(w, toHash) && hashes <= w.hashes
    decreases |w.hashes - hashes|, |toHash|
  {
    if toHash == [] then Some(hashes) else
      var rest, f := toHash[..|toHash| - 1], w.realPath(toHash[|toHash| - 1]);
      match w.hash(f)
      case None => None
      case Some(h) =>
        if h in hashes then Collect(w, rest, hashes)
        else if w.dependencies(f).None? then None
        else
          OneFewer(w.hashes, hashes, h);
          Collect(w, rest + w.dependencies(f).value, hashes + {h})
  }

  /** A step of the worklist at a file seen before, and at a new one. */
  lemma CollectSeen(w: World, rest: seq<nat>, name: nat, hashes: set<nat>)
    requires Closed(w) && Within(w, rest + [name]) && hashes <= w.hashes
    requires w.hash(w.realPath(name)).Some? && w.hash(w.realPath(name)).value in hashes
    ensures Within(w, rest) && Collect(w, rest + [name], hashes) == Collect(w, rest, hashes)
  {
    var toHash := rest + [name];
    assert toHash[..|toHash| - 1] == rest && toHash[|toHash| - 1] == name;
  }

  lemma CollectNew(w: World, rest: seq<nat>, name: nat, hashes: set<nat>, h: nat, more: seq<nat>)
    requires Closed(w) && Within(w, rest + [name]) && hashes <= w.hashes
    requires w.hash(w.realPath(name)) == Some(h) && h !in hashes && w.dependencies(w.realPath(name)) == Some(more)
    ensures Within(w, rest + more) && h in w.hashes
    ensures Collect(w, rest + [name], hashes) == Collect(w, rest + more, hashes + {h})
  {
    var toHash := rest + [name];
    assert toHash[..|toHash| - 1] == rest && toHash[|toHash| - 1] == name;
    assert w.realPath(toHash[|toHash| - 1]) in w.files;
  }

  lemma OneFewer(all: set<nat>, seen: set<nat>, h: nat)
    requires h in all && h !in seen
    ensures |all - (seen + {h})| < |all - seen|
  {
    assert all - seen == all - (seen + {h}) + {h};
  }

  method CollectHashes(w: World, filename: nat) returns (r: Option<set<nat>>)
    requires Closed(w) && w.realPath(filename) in w.files
    ensures r == Collect(w, [filename], {})
  {
    var hashes: set<nat> := {};
    var toHash := [filename];
    while toHash != []
      invariant Within(w, toHash) && hashes <= w.hashes
      invariant Collect(w, toHash, hashes) == Collect(w, [filename], {})
      decreases |w.hashes - hashes|, |toHash|
    {
      var current := w.realPath(toHash[|toHash| - 1]);
      toHash := toHash[..|toHash| - 1];
      var hash := w.hash(current);
      if hash.None? {
        return None;
      }
      if hash.value in hashes {
        continue;
      }
      OneFewer(w.hashes, hashes, hash.value);
      hashes := hashes + {hash.value};
      var dependencies := w.dependencies(current);
      if dependencies.None? {
        return None;
      }
      toHash := toHash + dependencies.value;
    }
    return Some(hashes);
  }

  // ----- What should be collected -----

  ghost predicate DependsOn(w: World, f: nat, g: nat) {
    w.dependencies(f).Some? && Holds(w, w.dependencies(f).value, g)
  }

  /** One of the names leads to this file. */
  ghost predicate Holds(w: World, names: seq<nat>, f: nat) {
    exists i :: 0 <= i < |names| && w.realPath(names[i]) == f
  }

  /** A chain of dependencies. */
  ghost predicate Chain(w: World, chain: seq<nat>) {
    |chain| > 0 && forall i :: 0 <= i < |chain| - 1 ==> DependsOn(w, chain[i], chain[i + 1])
  }

  ghost predicate Reaches(w: World, f: nat, g: nat) {
    exists chain :: Chain(w, chain) && chain[0] == f && chain[|chain| - 1] == g
  }

  ghost predicate Fails(w: World, f: nat) {
    w.hash(f).None? || w.dependencies(f).None?
  }

  /** Files with the same hash, among those that matter, have dependencies with the same hashes. */
  ghost predicate Faithful(w: World, root: nat) {
    forall f, g :: Reaches(w, root, f) && Reaches(w, root, g) && w.hash(f).Some? && w.hash(f) == w.hash(g) ==>
      SameDependencies(w, f, g)
  }

  ghost predicate SameDependencies(w: World, f: nat, g: nat) {
    && w.dependencies(f).Some? == w.dependencies(g).Some?
    && (forall x :: DependsOn(w, f, x) ==> DependsOnHash(w, g, w.hash(x)))
  }

  ghost predicate DependsOnHash(w: World, f: nat, hash: Option<nat>) {
    exists x :: DependsOn(w, f, x) && w.hash(x) == hash
  }

  lemma ReachesItself(w: World, f: nat)
    ensures Reaches(w, f, f)
  {
    assert Chain(w, [f]) && [f][0] == f;
  }

  lemma ReachesNext(w: World, f: nat, g: nat, h: nat)
    requires Reaches(w, f, g) && DependsOn(w, g, h)
    ensures Reaches(w, f, h)
  {
    var chain :| Chain(w, chain) && chain[0] == f && chain[|chain| - 1] == g;
    var longer := chain + [h];
    assert Chain(w, longer) && longer[0] == f && longer[|longer| - 1] == h;
  }

  // ----- What every step keeps -----

  ghost predicate Seen(w: World, hashes: set<nat>, f: nat) {
    w.hash(f).Some? && w.hash(f).value in hashes
  }

  /** A file that was looked into: its dependencies are seen, or still in the list. */
  ghost predicate Expanded(w: World, root: nat, toHash: seq<nat>, hashes: set<nat>, f: nat) {
    && Reaches(w, root, f) && Seen(w, hashes, f) && w.dependencies(f).Some?
    && forall g :: DependsOn(w, f, g) ==> Seen(w, hashes, g) || Holds(w, toHash, g)
  }

  ghost predicate HashOfOne(w: World, files: set<nat>, h: nat) {
    exists f :: f in files && w.hash(f) == Some(h)
  }

  ghost predicate Inv(w: World, root: nat, toHash: seq<nat>, hashes: set<nat>, expanded: set<nat>) {
    && (forall i :: 0 <= i < |toHash| ==> Reaches(w, root, w.realPath(toHash[i])))
    && (forall f :: f in expanded ==> Expanded(w, root, toHash, hashes, f))
    && (forall h :: h in hashes ==> HashOfOne(w, expanded, h))
    && (Seen(w, hashes, root) || Holds(w, toHash, root))
  }

  /** Taking the last name off the list is right if its file is seen or about to be. */
  lemma StillHeld(w: World, rest: seq<nat>, name: nat, more: seq<nat>, hashes: set<nat>, hashes': set<nat>, g: nat)
    requires hashes <= hashes' && Seen(w, hashes', w.realPath(name))
    requires Seen(w, hashes, g) || Holds(w, rest + [name], g)
    ensures Seen(w, hashes', g) || Holds(w, rest + more, g)
  {
    if !Seen(w, hashes', g) {
      var i :| 0 <= i < |rest + [name]| && w.realPath((rest + [name])[i]) == g;
      assert (rest + more)[i] == rest[i];
    }
  }

  lemma TakeLast(
    w: World, root: nat, rest: seq<nat>, name: nat, more: seq<nat>, hashes: set<nat>, hashes': set<nat>, f: nat)
    requires hashes <= hashes' && Seen(w, hashes', w.realPath(name))
    requires Expanded(w, root, rest + [name], hashes, f)
    ensures Expanded(w, root, rest + more, hashes', f)
  {
    forall g | DependsOn(w, f, g)
      ensures Seen(w, hashes', g) || Holds(w, rest + more, g)
    {
      StillHeld(w, rest, name, more, hashes, hashes', g);
    }
  }

  lemma NameReached(w: World, root: nat, rest: seq<nat>, name: nat, hashes: set<nat>, expanded: set<nat>)
    requires Inv(w, root, rest + [name], hashes, expanded)
    ensures Reaches(w, root, w.realPath(name))
  {
    assert (rest + [name])[|rest|] == name;
  }

  lemma SkipKeepsInv(w: World, root: nat, rest: seq<nat>, name: nat, hashes: set<nat>, expanded: set<nat>)
    requires Inv(w, root, rest + [name], hashes, expanded) && Seen(w, hashes, w.realPath(name))
    ensures Inv(w, root, rest, hashes, expanded)
  {
    assert rest + [] == rest;
    forall f | f in expanded
      ensures Expanded(w, root, rest, hashes, f)
    {
      TakeLast(w, root, rest, name, [], hashes, hashes, f);
    }
    forall i | 0 <= i < |rest|
      ensures Reaches(w, root, w.realPath(rest[i]))
    {
      assert (rest + [name])[i] == rest[i];
    }
    StillHeld(w, rest, name, [], hashes, hashes, root);
  }

  lemma ListReached(
    w: World, root: nat, rest: seq<nat>, name: nat, hashes: set<nat>, expanded: set<nat>, more: seq<nat>, i: nat)
    requires Inv(w, root, rest + [name], hashes, expanded)
    requires w.dependencies(w.realPath(name)) == Some(more) && i < |rest + more|
    ensures Reaches(w, root, w.realPath((rest + more)[i]))
  {
    if i < |rest| {
      assert (rest + [name])[i] == rest[i];
    } else {
      NameReached(w, root, rest, name, hashes, expanded);
      assert (rest + more)[i] == more[i - |rest|];
      ReachesNext(w, root, w.realPath(name), w.realPath(more[i - |rest|]));
    }
  }

  lemma ExpandKeepsInv(
    w: World, root: nat, rest: seq<nat>, name: nat, hashes: set<nat>, expanded: set<nat>, h: nat, more: seq<nat>)
    requires Inv(w, root, rest + [name], hashes, expanded)
    requires w.hash(w.realPath(name)) == Some(h) && w.dependencies(w.realPath(name)) == Some(more)
    ensures Inv(w, root, rest + more, hashes + {h}, expanded + {w.realPath(name)})
  {
    var f := w.realPath(name);
    forall g | g in expanded
      ensures Expanded(w, root, rest + more, hashes + {h}, g)
    {
      TakeLast(w, root, rest, name, more, hashes, hashes + {h}, g);
    }
    NameReached(w, root, rest, name, hashes, expanded);
    forall g | DependsOn(w, f, g)
      ensures Holds(w, rest + more, g)
    {
      var i :| 0 <= i < |more| && w.realPath(more[i]) == g;
      assert (rest + more)[|rest| + i] == more[i];
    }
    forall i | 0 <= i < |rest + more|
      ensures Reaches(w, root, w.realPath((rest + more)[i]))
    {
      ListReached(w, root, rest, name, hashes, expanded, more, i);
    }
    forall k | k in hashes + {h}
      ensures HashOfOne(w, expanded + {f}, k)
    {
      if k in hashes {
        var g :| g in expanded && w.hash(g) == Some(k);
        assert g in expanded + {f};
      } else {
        assert f in expanded + {f};
      }
    }
    StillHeld(w, rest, name, more, hashes, hashes + {h}, root);
  }

  ghost predicate ReachesFailure(w: World, root: nat) {
    exists f :: Reaches(w, root, f) && Fails(w, f)
  }

  /** The worklist ends with every dependency of a file it looked into seen, or at a reachable file that fails. */
  lemma {:induction false} CollectKeepsInv(
    w: World, root: nat, toHash: seq<nat>, hashes: set<nat>, expanded: set<nat>) returns (all: set<nat>)
    requires Closed(w) && Within(w, toHash) && hashes <= w.hashes
    requires Inv(w, root, toHash, hashes, expanded)
    ensures Collect(w, toHash, hashes).Some? ==> Inv(w, root, [], Collect(w, toHash, hashes).value, all)
    ensures Collect(w, toHash, hashes).None? ==> ReachesFailure(w, root)
    decreases |w.hashes - hashes|, |toHash|
  {
    all := expanded;
    if toHash != [] {
      var rest, name := toHash[..|toHash| - 1], toHash[|toHash| - 1];
      var f := w.realPath(name);
      assert toHash == rest + [name];
      if Seen(w, hashes, f) {
        CollectSeen(w, rest, name, hashes);
        SkipKeepsInv(w, root, rest, name, hashes, expanded);
        all := CollectKeepsInv(w, root, rest, hashes, expanded);
      } else if Fails(w, f) {
        NameReached(w, root, rest, name, hashes, expanded);
      } else {
        var h, more := w.hash(f).value, w.dependencies(f).value;
        CollectNew(w, rest, name, hashes, h, more);
        ExpandKeepsInv(w, root, rest, name, hashes, expanded, h, more);
        OneFewer(w.hashes, hashes, h);
        all := CollectKeepsInv(w, root, rest + more, hashes + {h}, expanded + {f});
      }
    }
  }

  lemma StartInv(w: World, filename: nat)
    ensures Inv(w, w.realPath(filename), [filename], {}, {})
  {
    ReachesItself(w, w.realPath(filename));
    assert w.realPath([filename][0]) == w.realPath(filename);
  }

  /** With faithful hashes, what was seen at the end is everything along any chain. */
  lemma {:induction false} ChainIsSeen(
    w: World, root: nat, hashes: set<nat>, expanded: set<nat>, chain: seq<nat>, n: nat)
    requires Inv(w, root, [], hashes, expanded) && Faithful(w, root)
    requires Chain(w, chain) && chain[0] == root && n < |chain|
    ensures Reaches(w, root, chain[n]) && Seen(w, hashes, chain[n]) && w.dependencies(chain[n]).Some?
  {
    if n == 0 {
      ReachesItself(w, root);
    } else {
      ChainIsSeen(w, root, hashes, expanded, chain, n - 1);
      var f := chain[n - 1];
      assert DependsOn(w, f, chain[n]);
      ReachesNext(w, root, f, chain[n]);
      assert HashOfOne(w, expanded, w.hash(f).value);
      var g :| g in expanded && w.hash(g) == w.hash(f);
      assert Expanded(w, root, [], hashes, g);
      assert SameDependencies(w, f, g);
      assert DependsOnHash(w, g, w.hash(chain[n]));
    }
    assert HashOfOne(w, expanded, w.hash(chain[n]).value);
    var g :| g in expanded && w.hash(g) == w.hash(chain[n]);
    assert Expanded(w, root, [], hashes, g);
    assert SameDependencies(w, g, chain[n]);
  }

  // ----- Results -----

  /** Whatever the hashes are: the file's own hash is collected, every other belongs to a file it reaches, and a
      failure comes from such a file. */
  lemma CollectedIsReachable(w: World, filename: nat)
    requires Closed(w) && w.realPath(filename) in w.files
    ensures
      var root, r := w.realPath(filename), Collect(w, [filename], {});
      && (r.None? ==> ReachesFailure(w, root))
      && (r.Some? ==> Seen(w, r.value, root))
      && (r.Some? ==> forall h :: h in r.value ==> exists f :: Reaches(w, root, f) && w.hash(f) == Some(h))
  {
    var root, r := w.realPath(filename), Collect(w, [filename], {});
    StartInv(w, filename);
    var all := CollectKeepsInv(w, root, [filename], {}, {});
    if r.Some? {
      forall h | h in r.value
        ensures exists f :: Reaches(w, root, f) && w.hash(f) == Some(h)
      {
        assert HashOfOne(w, all, h);
        var f :| f in all && w.hash(f) == Some(h);
        assert Expanded(w, root, [], r.value, f);
      }
    }
  }

  /** With faithful hashes exactly the hashes of all reachable files are collected, unless one of them fails. */
  lemma CollectedIsExact(w: World, filename: nat)
    requires Closed(w) && w.realPath(filename) in w.files && Faithful(w, w.realPath(filename))
    ensures
      var root, r := w.realPath(filename), Collect(w, [filename], {});
      && (r.None? <==> ReachesFailure(w, root))
      && (r.Some? ==> forall h :: h in r.value <==> exists f :: Reaches(w, root, f) && w.hash(f) == Some(h))
  {
    var root, r := w.realPath(filename), Collect(w, [filename], {});
    CollectedIsReachable(w, filename);
    StartInv(w, filename);
    var all := CollectKeepsInv(w, root, [filename], {}, {});
    if r.Some? {
      forall f | Reaches(w, root, f)
        ensures !Fails(w, f) && w.hash(f).value in r.value
      {
        var chain :| Chain(w, chain) && chain[0] == root && chain[|chain| - 1] == f;
        ChainIsSeen(w, root, r.value, all, chain, |chain| - 1);
      }
    }
  }

  /** The same files with the same hashes, whose dependencies may be listed in another order or repeated. */
  ghost predicate Reordered(w: World, v: World) {
    && w.files == v.files && w.hashes == v.hashes && w.realPath == v.realPath && w.hash == v.hash
    && (forall f :: w.dependencies(f).Some? == v.dependencies(f).Some?)
    && (forall f, g :: DependsOn(w, f, g) <==> DependsOn(v, f, g))
  }

  lemma ReorderedReaches(w: World, v: World, f: nat, g: nat)
    requires Reordered(w, v) && Reaches(w, f, g)
    ensures Reaches(v, f, g)
  {
    var chain :| Chain(w, chain) && chain[0] == f && chain[|chain| - 1] == g;
    assert Chain(v, chain);
  }

  /** The order in which dependencies are listed does not matter. */
  lemma OrderDoesNotMatter(w: World, v: World, filename: nat)
    requires Closed(w) && Closed(v) && Reordered(w, v)
    requires w.realPath(filename) in w.files && Faithful(w, w.realPath(filename))
    ensures Collect(w, [filename], {}) == Collect(v, [filename], {})
  {
    var root := w.realPath(filename);
    forall f, g
      ensures Reaches(w, f, g) <==> Reaches(v, f, g)
    {
      if Reaches(w, f, g) { ReorderedReaches(w, v, f, g); }
      if Reaches(v, f, g) { ReorderedReaches(v, w, f, g); }
    }
    forall f, g | Reaches(v, root, f) && Reaches(v, root, g) && v.hash(f).Some? && v.hash(f) == v.hash(g)
      ensures SameDependencies(v, f, g)
    {
      assert SameDependencies(w, f, g);
      forall x | DependsOn(v, f, x)
        ensures DependsOnHash(v, g, v.hash(x))
      {
        assert DependsOnHash(w, g, w.hash(x));
      }
    }
    CollectedIsExact(w, filename);
    CollectedIsExact(v, filename);
    var r, q := Collect(w, [filename], {}), Collect(v, [filename], {});
    if r.Some? && q.Some? {
      assert r.value == q.value;
    }
  }

  /** File 0 needs 1 and 2, whose hashes collide; only 2 needs 3. */
  function Colliding(first: nat, second: nat): World {
    World(
      {0, 1, 2, 3},
      {0, 1, 3},
      (f: nat) => f,
      (f: nat) => Some(if f == 2 then 1 else f),
      (f: nat) => Some(if f == 0 then [first, second] else if f == 2 then [3] else []))
  }

  /** Hashes that are not faithful: one order of the dependencies finds the hash of file 3 ... */
  lemma CollisionSeenInTime(w: World)
    requires w == Colliding(1, 2)
    ensures Closed(w) && Collect(w, [0], {}) == Some({0, 1, 3})
  {
    assert [] + [0] == [0] && [] + [1, 2] == [1, 2] && {} + {0} == {0};
    CollectNew(w, [], 0, {}, 0, [1, 2]);
    assert [1] + [2] == [1, 2] && {0} + {1} == {0, 1} && [1] + [3] == [1, 3];
    CollectNew(w, [1], 2, {0}, 1, [3]);
    LastSteps(w);
  }

  lemma LastSteps(w: World)
    requires w == Colliding(1, 2)
    ensures Closed(w) && Collect(w, [1, 3], {0, 1}) == Some({0, 1, 3})
  {
    assert [1] + [3] == [1, 3] && [1] + [] == [1] && {0, 1} + {3} == {0, 1, 3};
    CollectNew(w, [1], 3, {0, 1}, 3, []);
    assert [] + [1] == [1];
    CollectSeen(w, [], 1, {0, 1, 3});
  }

  /** ... and the other loses it ... */
  lemma CollisionLosesHashes(w: World)
    requires w == Colliding(2, 1)
    ensures Closed(w) && Collect(w, [0], {}) == Some({0, 1})
  {
    assert [] + [0] == [0] && [] + [2, 1] == [2, 1] && {} + {0} == {0};
    CollectNew(w, [], 0, {}, 0, [2, 1]);
    assert [2] + [1] == [2, 1] && {0} + {1} == {0, 1} && [2] + [] == [2];
    CollectNew(w, [2], 1, {0}, 1, []);
    assert [] + [2] == [2];
    CollectSeen(w, [], 2, {0, 1});
  }

  /** ... although it should be there. */
  lemma CollisionReachesAll(w: World)
    requires w == Colliding(2, 1)
    ensures Reaches(w, 0, 3) && w.hash(3) == Some(3)
  {
    ReachesItself(w, 0);
    assert DependsOn(w, 0, 2) by { assert w.realPath([2, 1][0]) == 2; }
    ReachesNext(w, 0, 0, 2);
    assert DependsOn(w, 2, 3) by { assert w.realPath([3][0]) == 3; }
    ReachesNext(w, 0, 2, 3);
  }
}
