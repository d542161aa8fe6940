/** What the pump's table and a deadline sweep guarantee, whatever the callbacks do. */
module MessagePumpTheorems {
  import opened Wrappers
  import opened MessagePump

  lemma ListsAppend(clone: seq<Entry>, e: Entry)
    ensures Lists(clone + [e], e.0) && forall h :: Lists(clone, h) ==> Lists(clone + [e], h)
  {
    assert (clone + [e])[|clone|] == e;
    forall h | Lists(clone, h)
      ensures Lists(clone + [e], h)
    {
      var i :| 0 <= i < |clone| && clone[i].0 == h;
      assert (clone + [e])[i].0 == h;
    }
  }

  lemma CopyOne(clone: seq<Entry>, handlers: map<nat, Handler>, rest: set<nat>, h: nat)
    requires CopiesAllBut(clone, handlers, rest) && h in rest && forall g :: g in rest ==> h <= g
    ensures CopiesAllBut(clone + [(h, handlers[h])], handlers, rest - {h})
  {
    ListsAppend(clone, (h, handlers[h]));
    var clone' := clone + [(h, handlers[h])];
    forall i | 0 <= i < |clone'|
      ensures clone'[i].0 in handlers && handlers[clone'[i].0] == clone'[i].1
      ensures forall g :: g in rest - {h} ==> clone'[i].0 < g
    {
      assert i < |clone| ==> clone'[i] == clone[i];
    }
  }

  // ----- Ids -----

  /** Whatever a callback does, ids stay distinct, and a handler id that is gone never comes back. */
  lemma {:induction false} RunKeepsIds(t: Table, ops: seq<Operation>)
    requires Valid(t) && Run(t, ops).Some?
    ensures Valid(Run(t, ops).value) && t.nextId <= Run(t, ops).value.nextId
    ensures forall h, id: nat :: id < t.nextId && Registered(Run(t, ops).value, h, id) ==> Registered(t, h, id)
    ensures forall h :: h in t.handlers && Registered(Run(t, ops).value, h, t.handlers[h].id) ==>
              Run(t, ops).value.handlers[h] == t.handlers[h]
    decreases |ops|
  {
    if ops != [] {
      match ops[0]
      case Add(h, owner, signals, deadline) =>
        RunKeepsIds(Register(t, h, owner, signals, deadline), ops[1..]);
      case Remove(h) => RunKeepsIds(Erase(t, h), ops[1..]);
    }
  }

  lemma {:induction false} SweepKeepsIds(t: Table, clone: seq<Entry>, now: int, script: seq<seq<Operation>>)
    requires Valid(t) && Sweep(t, clone, now, script).Some?
    ensures var t' := Sweep(t, clone, now, script).value.table;
            && Valid(t') && t.nextId <= t'.nextId
            && (forall h, id: nat :: id < t.nextId && Registered(t', h, id) ==> Registered(t, h, id))
            && (forall h :: h in t.handlers && Registered(t', h, t.handlers[h].id) ==> t'.handlers[h] == t.handlers[h])
    decreases |clone|
  {
    if clone != [] {
      var (h, x) := clone[0];
      if Expired(x, now) && Registered(t, h, x.id) {
        RunKeepsIds(t, First(script));
        SweepKeepsIds(Erase(Run(t, First(script)).value, h), clone[1..], now, Rest(script));
      } else {
        SweepKeepsIds(t, clone[1..], now, script);
      }
    }
  }

  // ----- Whom the sweep notifies -----

  /** Never after removal or replacement: an entry that is not registered under its id any more when the
      rest of the sweep begins is not notified in it. */
  lemma {:induction false} GoneIsNotNotified(
    t: Table, clone: seq<Entry>, now: int, script: seq<seq<Operation>>, h: nat, x: Handler)
    requires Valid(t) && Sweep(t, clone, now, script).Some?
    requires x.id < t.nextId && !Registered(t, h, x.id)
    ensures (h, x) !in Sweep(t, clone, now, script).value.notified
    decreases |clone|
  {
    if clone != [] {
      var (g, y) := clone[0];
      if Expired(y, now) && Registered(t, g, y.id) {
        RunKeepsIds(t, First(script));
        GoneIsNotNotified(Erase(Run(t, First(script)).value, g), clone[1..], now, Rest(script), h, x);
      } else {
        GoneIsNotNotified(t, clone[1..], now, script, h, x);
      }
    }
  }

  /** Sweeping two lists in a row: the second part starts with the table that the first part left, and with
      the callbacks that it did not use up. */
  lemma {:induction false} SweepSplit(t: Table, a: seq<Entry>, b: seq<Entry>, now: int, script: seq<seq<Operation>>)
    ensures match Sweep(t, a, now, script)
            case None => Sweep(t, a + b, now, script).None?
            case Some(r) =>
              match Sweep(r.table, b, now, Drop(script, |r.notified|))
              case None => Sweep(t, a + b, now, script).None?
              case Some(q) => Sweep(t, a + b, now, script) == Some(Swept(q.table, r.notified + q.notified))
    decreases |a|
  {
    if a == [] {
      assert a + b == b && Drop(script, 0) == script;
      if Sweep(t, b, now, script).Some? {
        assert [] + Sweep(t, b, now, script).value.notified == Sweep(t, b, now, script).value.notified;
      }
    } else {
      assert (a + b)[0] == a[0] && (a + b)[1..] == a[1..] + b;
      var (h, x) := a[0];
      if Expired(x, now) && Registered(t, h, x.id) {
        if Run(t, First(script)).Some? {
          var t1 := Erase(Run(t, First(script)).value, h);
          SweepSplit(t1, a[1..], b, now, Rest(script));
          if Sweep(t1, a[1..], now, Rest(script)).Some? {
            var r := Sweep(t1, a[1..], now, Rest(script)).value;
            assert Drop(Rest(script), |r.notified|) == Drop(script, |r.notified| + 1);
            if Sweep(r.table, b, now, Drop(script, |r.notified| + 1)).Some? {
              var q := Sweep(r.table, b, now, Drop(script, |r.notified| + 1)).value;
              assert [(h, x)] + (r.notified + q.notified) == ([(h, x)] + r.notified) + q.notified;
            }
          }
        }
      } else {
        SweepSplit(t, a[1..], b, now, script);
      }
    }
  }

  lemma {:induction false} NotifiedAreExpired(t: Table, clone: seq<Entry>, now: int, script: seq<seq<Operation>>)
    requires Sweep(t, clone, now, script).Some?
    ensures forall e :: e in Sweep(t, clone, now, script).value.notified ==>
              e in clone && e.1.deadline != 0 && e.1.deadline < now
    decreases |clone|
  {
    if clone != [] {
      var (h, x) := clone[0];
      if Expired(x, now) && Registered(t, h, x.id) {
        NotifiedAreExpired(Erase(Run(t, First(script)).value, h), clone[1..], now, Rest(script));
      } else {
        NotifiedAreExpired(t, clone[1..], now, script);
      }
    }
  }

  ghost predicate InOrder(entries: seq<Entry>) {
    forall i, j :: 0 <= i < j < |entries| ==> entries[i].0 < entries[j].0
  }

  lemma FirstBelow(clone: seq<Entry>, e: Entry)
    requires clone != [] && InOrder(clone) && e in clone[1..]
    ensures clone[0].0 < e.0
  {
    var m :| 0 <= m < |clone[1..]| && clone[1..][m] == e;
    assert clone[0].0 < clone[m + 1].0;
  }

  /** The entries notified are expired entries of the clone, in the order of the clone. */
  lemma {:induction false} NotifiedInOrder(t: Table, clone: seq<Entry>, now: int, script: seq<seq<Operation>>)
    requires Sweep(t, clone, now, script).Some?
    ensures var notified := Sweep(t, clone, now, script).value.notified;
            && (forall e :: e in notified ==> e in clone && e.1.deadline != 0 && e.1.deadline < now)
            && (InOrder(clone) ==> InOrder(notified))
    decreases |clone|
  {
    NotifiedAreExpired(t, clone, now, script);
    if clone != [] {
      var (h, x) := clone[0];
      if Expired(x, now) && Registered(t, h, x.id) {
        var t1 := Erase(Run(t, First(script)).value, h);
        NotifiedInOrder(t1, clone[1..], now, Rest(script));
        var rest := Sweep(t1, clone[1..], now, Rest(script)).value.notified;
        forall k | 0 <= k < |rest| && InOrder(clone)
          ensures h < rest[k].0
        {
          FirstBelow(clone, rest[k]);
        }
      } else {
        NotifiedInOrder(t, clone[1..], now, script);
      }
    }
  }

  /** Whatever the callbacks do to the table, an entry of the clone is notified exactly if it has expired
      and, when its turn comes, is still registered under the same id. */
  lemma NotifiedIffRegisteredAtItsTurn(t: Table, clone: seq<Entry>, k: nat, now: int, script: seq<seq<Operation>>)
    requires Copies(clone, t) && k < |clone| && Sweep(t, clone, now, script).Some?
    ensures Sweep(t, clone[..k], now, script).Some?
    ensures clone[k] in Sweep(t, clone, now, script).value.notified <==>
            && clone[k].1.deadline != 0 && clone[k].1.deadline < now
            && Registered(Sweep(t, clone[..k], now, script).value.table, clone[k].0, clone[k].1.id)
  {
    var a, b := clone[..k], clone[k..];
    assert clone == a + b;
    SweepSplit(t, a, b, now, script);
    var r := Sweep(t, a, now, script).value;
    NotifiedInOrder(t, a, now, script);
    assert b[0] == clone[k] && clone[k] !in a && clone[k] !in b[1..];
    var script' := Drop(script, |r.notified|);
    if Expired(clone[k].1, now) && Registered(r.table, clone[k].0, clone[k].1.id) {
    } else {
      NotifiedInOrder(r.table, b[1..], now, script');
    }
  }

  /** ... which means that no callback has removed or replaced it since the copy was made. */
  lemma NotNotifiedAfterRemoval(t: Table, clone: seq<Entry>, j: nat, k: nat, now: int, script: seq<seq<Operation>>)
    requires Valid(t) && Copies(clone, t) && j <= k < |clone| && Sweep(t, clone, now, script).Some?
    ensures Sweep(t, clone[..j], now, script).Some?
    ensures !Registered(Sweep(t, clone[..j], now, script).value.table, clone[k].0, clone[k].1.id) ==>
              clone[k] !in Sweep(t, clone, now, script).value.notified
  {
    var a, b := clone[..j], clone[j..];
    assert clone == a + b;
    SweepSplit(t, a, b, now, script);
    var r := Sweep(t, a, now, script).value;
    SweepKeepsIds(t, a, now, script);
    if !Registered(r.table, clone[k].0, clone[k].1.id) {
      NotifiedInOrder(t, a, now, script);
      assert clone[k] !in a;
      GoneIsNotNotified(r.table, b, now, Drop(script, |r.notified|), clone[k].0, clone[k].1);
    }
  }

  // ----- What the sweep leaves -----

  lemma {:induction false} SweepClears(
    t: Table, clone: seq<Entry>, now: int, script: seq<seq<Operation>>, h: nat, x: Handler)
    requires Valid(t) && Sweep(t, clone, now, script).Some?
    requires (h, x) in clone && x.id < t.nextId && Expired(x, now)
    ensures !Registered(Sweep(t, clone, now, script).value.table, h, x.id)
    decreases |clone|
  {
    var (g, y) := clone[0];
    if Expired(y, now) && Registered(t, g, y.id) {
      RunKeepsIds(t, First(script));
      var t1 := Erase(Run(t, First(script)).value, g);
      if (g, y) == (h, x) {
        SweepKeepsIds(t1, clone[1..], now, Rest(script));
      } else {
        SweepClears(t1, clone[1..], now, Rest(script), h, x);
      }
    } else if (g, y) == (h, x) {
      SweepKeepsIds(t, clone[1..], now, script);
    } else {
      SweepClears(t, clone[1..], now, script, h, x);
    }
  }

  /** Every expired handler that is registered after the sweep was added during the sweep. */
  lemma OnlyNewHandlersAreExpired(t: Table, clone: seq<Entry>, now: int, script: seq<seq<Operation>>)
    requires Valid(t) && Copies(clone, t) && Sweep(t, clone, now, script).Some?
    ensures var t' := Sweep(t, clone, now, script).value.table;
            forall h :: h in t'.handlers && t'.handlers[h].deadline != 0 && t'.handlers[h].deadline < now ==>
              t'.handlers[h].id >= t.nextId
  {
    var t' := Sweep(t, clone, now, script).value.table;
    SweepKeepsIds(t, clone, now, script);
    forall h | h in t'.handlers && Expired(t'.handlers[h], now)
      ensures t'.handlers[h].id >= t.nextId
    {
      if t'.handlers[h].id < t.nextId {
        assert Registered(t, h, t'.handlers[h].id);
        assert t'.handlers[h] == t.handlers[h];
        SweepClears(t, clone, now, script, h, t.handlers[h]);
      }
    }
  }

  lemma {:induction false} RunAddsNothing(t: Table, ops: seq<Operation>)
    requires forall j :: 0 <= j < |ops| ==> ops[j].Remove?
    ensures Run(t, ops).Some? && Run(t, ops).value.nextId == t.nextId
    decreases |ops|
  {
    if ops != [] {
      RunAddsNothing(Erase(t, ops[0].handle), ops[1..]);
    }
  }

  lemma {:induction false} SweepAddsNothing(t: Table, clone: seq<Entry>, now: int, script: seq<seq<Operation>>)
    requires AddsNothing(script)
    ensures Sweep(t, clone, now, script).Some? && Sweep(t, clone, now, script).value.table.nextId == t.nextId
    decreases |clone|
  {
    if clone != [] {
      var (h, x) := clone[0];
      if Expired(x, now) && Registered(t, h, x.id) {
        RunAddsNothing(t, First(script));
        SweepAddsNothing(Erase(Run(t, First(script)).value, h), clone[1..], now, Rest(script));
      } else {
        SweepAddsNothing(t, clone[1..], now, script);
      }
    }
  }

  /** If the callbacks add nothing, no expired handler is left. */
  lemma NothingExpiredIsLeft(t: Table, clone: seq<Entry>, now: int, script: seq<seq<Operation>>)
    requires Valid(t) && Copies(clone, t) && AddsNothing(script)
    ensures Sweep(t, clone, now, script).Some?
    ensures var t' := Sweep(t, clone, now, script).value.table;
            forall h :: h in t'.handlers ==> t'.handlers[h].deadline == 0 || t'.handlers[h].deadline >= now
  {
    SweepAddsNothing(t, clone, now, script);
    SweepKeepsIds(t, clone, now, script);
    OnlyNewHandlersAreExpired(t, clone, now, script);
  }

  // ----- Handlers added in a deadline callback -----

  lemma {:induction false} RunKeepsHandler(t: Table, ops: seq<Operation>, g: nat)
    requires Run(t, ops).Some? && g in t.handlers && !Removes(ops, g)
    ensures g in Run(t, ops).value.handlers && Run(t, ops).value.handlers[g] == t.handlers[g]
    decreases |ops|
  {
    if ops != [] {
      assert ops[0] in ops && forall op :: op in ops[1..] ==> op in ops;
      match ops[0]
      case Add(h, owner, signals, deadline) =>
        RunKeepsHandler(Register(t, h, owner, signals, deadline), ops[1..], g);
      case Remove(h) => RunKeepsHandler(Erase(t, h), ops[1..], g);
    }
  }

  /** A handler that is not in the copy, and whose handle no callback removes, is still there after the sweep. */
  lemma {:induction false} StrangerSurvives(t: Table, clone: seq<Entry>, now: int, script: seq<seq<Operation>>, g: nat)
    requires Sweep(t, clone, now, script).Some? && g in t.handlers && NeverRemoves(script, g)
    requires forall i :: 0 <= i < |clone| ==> clone[i].1.id != t.handlers[g].id
    ensures
      var t' := Sweep(t, clone, now, script).value.table;
      g in t'.handlers && t'.handlers[g] == t.handlers[g]
    decreases |clone|
  {
    if clone != [] {
      var (h, x) := clone[0];
      assert x.id != t.handlers[g].id && forall i :: 0 <= i < |clone[1..]| ==> clone[1..][i] == clone[i + 1];
      if Expired(x, now) && Registered(t, h, x.id) {
        assert !Removes(First(script), g) && NeverRemoves(Rest(script), g);
        RunKeepsHandler(t, First(script), g);
        StrangerSurvives(Erase(Run(t, First(script)).value, h), clone[1..], now, Rest(script), g);
      } else {
        StrangerSurvives(t, clone[1..], now, script, g);
      }
    }
  }

  /** A sweep up to the turn of entry k, the turn, and the rest. */
  lemma SweepAroundTurn(t: Table, clone: seq<Entry>, k: nat, now: int, script: seq<seq<Operation>>)
    requires Copies(clone, t) && k < |clone| && Sweep(t, clone, now, script).Some?
    requires clone[k] in Sweep(t, clone, now, script).value.notified
    ensures TableAt(t, clone, k, now, script).Some? && TableAfterCall(t, clone, k, now, script).Some?
    ensures
      var t1 := Erase(TableAfterCall(t, clone, k, now, script).value, clone[k].0);
      var rest := Sweep(t1, clone[k + 1..], now, Rest(CallsAt(t, clone, k, now, script)));
      rest.Some? && rest.value.table == Sweep(t, clone, now, script).value.table
  {
    NotifiedIffRegisteredAtItsTurn(t, clone, k, now, script);
    SweepSplit(t, clone[..k], clone[k..], now, script);
    assert clone == clone[..k] + clone[k..];
    SweepStep(TableAt(t, clone, k, now, script).value, clone, k, now, CallsAt(t, clone, k, now, script));
  }

  /**
    After a deadline callback the pump erases by handle.  Whatever the callbacks do: a handler that the callback of
    entry k has added, and that no later callback removes, is registered after the whole sweep if and only if it
    is not for the entry's own handle.
   */
  lemma ReRegistrationIsLost(t: Table, clone: seq<Entry>, k: nat, now: int, script: seq<seq<Operation>>, g: nat)
    requires Valid(t) && Copies(clone, t) && k < |clone| && Sweep(t, clone, now, script).Some?
    requires clone[k] in Sweep(t, clone, now, script).value.notified
    requires AddedAt(t, clone, k, now, script, g) && NeverRemoves(Rest(CallsAt(t, clone, k, now, script)), g)
    ensures
      var id := TableAfterCall(t, clone, k, now, script).value.handlers[g].id;
      Registered(Sweep(t, clone, now, script).value.table, g, id) <==> g != clone[k].0
  {
    var before, during := TableAt(t, clone, k, now, script).value, TableAfterCall(t, clone, k, now, script).value;
    var calls := CallsAt(t, clone, k, now, script);
    SweepKeepsIds(t, clone[..k], now, script);
    RunKeepsIds(before, First(calls));
    SweepAroundTurn(t, clone, k, now, script);
    var t1 := Erase(during, clone[k].0);
    if g == clone[k].0 {
      SweepKeepsIds(t1, clone[k + 1..], now, Rest(calls));
    } else {
      var later := clone[k + 1..];
      forall i | 0 <= i < |later|
        ensures later[i].1.id != t1.handlers[g].id
      {
        assert later[i] == clone[k + 1 + i];
      }
      StrangerSurvives(t1, later, now, Rest(calls), g);
    }
  }

  /** Handle 7 expires, and its callback registers it again: afterwards it is not registered. */
  lemma ReRegistrationExample(t: Table, clone: seq<Entry>, again: seq<Operation>)
    requires t == Table(map[7 := Handler(1, 1, 10, 0)], 1) && clone == [(7, Handler(1, 1, 10, 0))]
    requires again == [Remove(7), Add(7, 1, 1, 0)]
    ensures Copies(clone, t) && AddedAt(t, clone, 0, 11, [again], 7)
    ensures Sweep(t, clone, 11, [again]).Some? && 7 !in Sweep(t, clone, 11, [again]).value.table.handlers
  {
    assert clone[0].0 == 7 && Lists(clone, 7);
    var t1 := Erase(t, 7);
    assert again[1..] == [Add(7, 1, 1, 0)] && again[1..][1..] == [];
    var t2 := Register(t1, 7, 1, 1, 0);
    assert Run(t1, again[1..]) == Run(t2, []) && Run(t, again) == Some(t2);
    assert clone[..0] == [] && Drop([again], 0) == [again] && First([again]) == again;
    assert TableAt(t, clone, 0, 11, [again]) == Some(t);
    assert clone[1..] == [];
  }

  // ----- WatcherBackend's own callback -----

  lemma HitSplit(clone: seq<Entry>, now: int, h: nat)
    requires clone != []
    ensures Hit(clone, now, h) <==> (clone[0].0 == h && Expired(clone[0].1, now)) || Hit(clone[1..], now, h)
  {
    if Hit(clone[1..], now, h) {
      var i :| 0 <= i < |clone[1..]| && clone[1..][i].0 == h && Expired(clone[1..][i].1, now);
      assert clone[i + 1].0 == h;
    }
    if Hit(clone, now, h) {
      var i :| 0 <= i < |clone| && clone[i].0 == h && Expired(clone[i].1, now);
      assert i > 0 ==> clone[1..][i - 1].0 == h;
    }
  }

  lemma HitIsExpired(t: Table, clone: seq<Entry>, now: int)
    requires Copies(clone, t)
    ensures forall h :: h in t.handlers ==>
              (Hit(clone, now, h) <==> t.handlers[h].deadline != 0 && t.handlers[h].deadline < now)
  {
    forall h | h in t.handlers
      ensures Hit(clone, now, h) <==> Expired(t.handlers[h], now)
    {
      assert Lists(clone, h);
      var i :| 0 <= i < |clone| && clone[i].0 == h;
    }
  }

  /** With that callback the sweep notifies exactly the expired handlers and leaves exactly the others. */
  lemma {:induction false} BackendSweep(t: Table, clone: seq<Entry>, now: int)
    requires forall i, j :: 0 <= i < j < |clone| ==> clone[i].0 < clone[j].0
    requires forall i :: 0 <= i < |clone| ==> clone[i].0 in t.handlers && t.handlers[clone[i].0] == clone[i].1
    ensures Sweep(t, clone, now, BackendScript(clone, now)).Some?
    ensures var r := Sweep(t, clone, now, BackendScript(clone, now)).value;
            && r.notified == ExpiredOf(clone, now)
            && r.table.nextId == t.nextId
            && r.table.handlers == map h | h in t.handlers && !Hit(clone, now, h) :: t.handlers[h]
    decreases |clone|
  {
    if clone != [] {
      var (h, x) := clone[0];
      var rest := clone[1..];
      var script := BackendScript(clone, now);
      assert forall i :: 0 <= i < |rest| ==> rest[i] == clone[i + 1] && h < rest[i].0;
      forall g: nat
        ensures Hit(clone, now, g) <==> (h == g && Expired(x, now)) || Hit(rest, now, g)
      {
        HitSplit(clone, now, g);
      }
      if Expired(x, now) {
        assert First(script) == [Remove(h)] && Rest(script) == BackendScript(rest, now);
        assert [Remove(h)][1..] == [];
        assert Run(t, [Remove(h)]) == Run(Erase(t, h), []);
        assert Erase(Erase(t, h), h) == Erase(t, h);
        BackendSweep(Erase(t, h), rest, now);
      } else {
        assert script == BackendScript(rest, now);
        BackendSweep(t, rest, now);
      }
    }
  }

  /** On the watcher thread, then: exactly the handlers that have not expired remain. */
  lemma BackendSweepOfTable(t: Table, clone: seq<Entry>, now: int)
    requires Copies(clone, t)
    ensures Sweep(t, clone, now, BackendScript(clone, now)).Some?
    ensures Sweep(t, clone, now, BackendScript(clone, now)).value.table ==
            Table(map h | h in t.handlers && (t.handlers[h].deadline == 0 || t.handlers[h].deadline >= now) ::
                    t.handlers[h], t.nextId)
  {
    BackendSweep(t, clone, now);
    HitIsExpired(t, clone, now);
  }

  // ----- A round whose callbacks leave the table alone -----

  lemma {:induction false} QuietSweep(t: Table, clone: seq<Entry>, now: int)
    requires forall i, j :: 0 <= i < j < |clone| ==> clone[i].0 < clone[j].0
    requires forall i :: 0 <= i < |clone| ==> clone[i].0 in t.handlers && t.handlers[clone[i].0] == clone[i].1
    ensures Sweep(t, clone, now, []).Some?
    ensures var r := Sweep(t, clone, now, []).value;
            r.table == Table(map h | h in t.handlers && !Hit(clone, now, h) :: t.handlers[h], t.nextId)
    decreases |clone|
  {
    if clone != [] {
      var (h, x) := clone[0];
      var rest := clone[1..];
      assert forall i :: 0 <= i < |rest| ==> rest[i] == clone[i + 1] && h < rest[i].0;
      forall g: nat
        ensures Hit(clone, now, g) <==> (h == g && Expired(x, now)) || Hit(rest, now, g)
      {
        HitSplit(clone, now, g);
      }
      QuietSweep(if Expired(x, now) then Erase(t, h) else t, rest, now);
    }
  }

  /** The handlers that a round leaves when no callback adds or removes any: an invalid handle goes, and so does every
      handler whose deadline has passed; nothing else. */
  ghost predicate Remains(t: Table, handles: seq<Entry>, wake: Wake, now: int, h: nat) {
    && h in t.handlers
    && (t.handlers[h].deadline == 0 || t.handlers[h].deadline >= now)
    && !(wake.InvalidHandle? && wake.index < |handles| && handles[wake.index].0 == h)
  }

  lemma QuietSweepOfTable(t: Table, clone: seq<Entry>, now: int)
    requires Copies(clone, t)
    ensures Sweep(t, clone, now, []).Some?
    ensures Sweep(t, clone, now, []).value.table ==
            Table(map h | h in t.handlers && (t.handlers[h].deadline == 0 || t.handlers[h].deadline >= now) ::
                    t.handlers[h], t.nextId)
  {
    QuietSweep(t, clone, now);
    HitIsExpired(t, clone, now);
  }

  lemma QuietRound(t: Table, handles: seq<Entry>, wake: Wake, clone: seq<Entry>, now: int)
    requires FirstHalf(t, handles, wake, []).Some? && Copies(clone, FirstHalf(t, handles, wake, []).value)
    ensures Sweep(FirstHalf(t, handles, wake, []).value, clone, now, []).Some?
    ensures
      Sweep(FirstHalf(t, handles, wake, []).value, clone, now, []).value.table ==
      Table(map h | h in t.handlers && Remains(t, handles, wake, now, h) :: t.handlers[h], t.nextId)
  {
    QuietSweepOfTable(FirstHalf(t, handles, wake, []).value, clone, now);
  }

  // ----- What a callback adds is what it asked for -----

  /** A handler in the table was there before or is what some operation asked for. */
  ghost predicate AskedFor(ops: seq<Operation>, h: nat, x: Handler) {
    Add(h, x.owner, x.signals, x.deadline) in ops
  }

  /** Whatever a callback does, a handler with a new id has the owner, signals and deadline of an AddHandler in it; and
      the last thing that was done to a handle is what holds afterwards. */
  lemma {:induction false} AddedAsAsked(t: Table, ops: seq<Operation>)
    requires Run(t, ops).Some?
    ensures
      var t' := Run(t, ops).value;
      forall h :: h in t'.handlers ==>
        (h in t.handlers && t'.handlers[h] == t.handlers[h]) || AskedFor(ops, h, t'.handlers[h])
    ensures ops != [] ==>
      var t', op := Run(t, ops).value, ops[|ops| - 1];
      match op
      case Remove(h) => h !in t'.handlers
      case Add(h, owner, signals, deadline) =>
        h in t'.handlers && t'.handlers[h].owner == owner && t'.handlers[h].signals == signals
        && t'.handlers[h].deadline == deadline
    decreases |ops|
  {
    if ops != [] {
      var rest := ops[1..];
      assert ops[0] in ops && forall op :: op in rest ==> op in ops;
      assert rest != [] ==> rest[|rest| - 1] == ops[|ops| - 1];
      match ops[0]
      case Add(h, owner, signals, deadline) =>
        AddedAsAsked(Register(t, h, owner, signals, deadline), rest);
      case Remove(h) => AddedAsAsked(Erase(t, h), rest);
    }
  }

  // ----- For the loops of the pump -----

  lemma ContinueFromStart(rest: Option<Swept>)
    ensures Continue([], rest) == rest
  {
    if rest.Some? {
      assert [] + rest.value.notified == rest.value.notified;
    }
  }

  lemma ContinueToEnd(notified: seq<Entry>, t: Table)
    ensures Continue(notified, Some(Swept(t, []))) == Some(Swept(t, notified))
  {
    assert notified + [] == notified;
  }

  lemma SweepStep(t: Table, list: seq<Entry>, i: nat, now: int, calls: seq<seq<Operation>>)
    requires i < |list|
    ensures var (h, x) := list[i];
            Sweep(t, list[i..], now, calls) ==
            if Expired(x, now) && Registered(t, h, x.id) then
              match Run(t, First(calls))
              case None => None
              case Some(t1) => Continue([(h, x)], Sweep(Erase(t1, h), list[i + 1..], now, Rest(calls)))
            else Sweep(t, list[i + 1..], now, calls)
  {
    assert list[i..][0] == list[i] && list[i..][1..] == list[i + 1..];
  }

  lemma ContinueTwice(notified: seq<Entry>, e: Entry, rest: Option<Swept>)
    ensures Continue(notified, Continue([e], rest)) == Continue(notified + [e], rest)
  {
    if rest.Some? {
      assert notified + ([e] + rest.value.notified) == (notified + [e]) + rest.value.notified;
    }
  }

  lemma FirstHalfKeepsIds(t: Table, handles: seq<Entry>, wake: Wake, ops: seq<Operation>)
    requires Valid(t) && FirstHalf(t, handles, wake, ops).Some?
    ensures t.nextId <= FirstHalf(t, handles, wake, ops).value.nextId
    ensures wake.InvalidHandle? && wake.index < |handles| && handles[wake.index].1.id < t.nextId ==>
              !Registered(FirstHalf(t, handles, wake, ops).value, handles[wake.index].0, handles[wake.index].1.id)
  {
    match wake
    case ControlPipe =>
    case TimedOut =>
    case ReadyHandle(i) => RunKeepsIds(t, ops);
    case InvalidHandle(i) =>
      if i < |handles| {
        RunKeepsIds(Erase(t, handles[i].0), ops);
      }
  }

  lemma {:induction false} CopiesLength(clone: seq<Entry>, t: Table)
    requires Copies(clone, t)
    ensures |clone| == |t.handlers|
  {
    KeysCounted(clone, t.handlers.Keys);
  }

  lemma {:induction false} KeysCounted(clone: seq<Entry>, keys: set<nat>)
    requires forall i, j :: 0 <= i < j < |clone| ==> clone[i].0 < clone[j].0
    requires forall h :: h in keys <==> Lists(clone, h)
    ensures |clone| == |keys|
  {
    if clone == [] {
      assert keys == {};
    } else {
      var n := |clone| - 1;
      var front, h := clone[..n], clone[n].0;
      assert clone == front + [clone[n]];
      ListsAppend(front, clone[n]);
      forall g: nat
        ensures g in keys - {h} <==> Lists(front, g)
      {
        if g in keys - {h} {
          var i :| 0 <= i < |clone| && clone[i].0 == g;
          assert front[i].0 == g;
        }
      }
      KeysCounted(front, keys - {h});
    }
  }
}
