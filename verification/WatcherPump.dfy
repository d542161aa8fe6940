/**
  The pump of the watcher thread is a MessagePumpMojo.  Handle watching keeps only its set of handles and lets them fire
  one by one; here it is shown that a round of DoInternalWork, with the callbacks of WatcherBackend, does just that.
 */
module WatcherPump {
  import opened Wrappers
  import HandleWatching
  import opened MessagePump
  import opened MessagePumpTheorems

  type Watching = HandleWatching.State

  /** The state of handle watching has this table for its pump. */
  ghost predicate Pumps(s: Watching, t: Table) {
    s.handlers == t.handlers.Keys && s.watches.Keys == t.handlers.Keys
  }

  /** What WaitMany reported, as a step of handle watching. */
  ghost function FireReported(s: Watching, handles: seq<Entry>, wake: Wake): Watching {
    match wake
    case ReadyHandle(i) =>
      if i < |handles| && HandleWatching.CanFire(s, handles[i].0)
      then HandleWatching.Fire(s, handles[i].0, false) else s
    case InvalidHandle(i) =>
      if i < |handles| && HandleWatching.CanFire(s, handles[i].0)
      then HandleWatching.FireInvalid(s, handles[i].0) else s
    case _ => s
  }

  /** The expired handles fire one after the other; each of these is a step of handle watching. */
  ghost predicate AllCanFire(s: Watching, entries: seq<Entry>)
    decreases |entries|
  {
    entries == [] ||
    (HandleWatching.CanFire(s, entries[0].0) && AllCanFire(HandleWatching.Fire(s, entries[0].0, true), entries[1..]))
  }

  ghost function FireAll(s: Watching, entries: seq<Entry>): Watching
    requires AllCanFire(s, entries)
    decreases |entries|
  {
    if entries == [] then s else FireAll(HandleWatching.Fire(s, entries[0].0, true), entries[1..])
  }

  /** The callback of WatcherBackend for a reported handle removes it from the pump. */
  function ReportedCall(handles: seq<Entry>, wake: Wake): seq<Operation> {
    if (wake.ReadyHandle? || wake.InvalidHandle?) && wake.index < |handles| then [Remove(handles[wake.index].0)] else []
  }

  ghost function IdsOf(s: Watching, entries: seq<Entry>): seq<nat>
    requires forall i :: 0 <= i < |entries| ==> entries[i].0 in s.watches
  {
    seq(|entries|, i requires 0 <= i < |entries| => s.watches[entries[i].0].id)
  }

  ghost predicate Distinct(entries: seq<Entry>) {
    forall i, j :: 0 <= i < j < |entries| ==> entries[i].0 != entries[j].0
  }

  ghost function HandlesOf(entries: seq<Entry>): set<nat> {
    set i | 0 <= i < |entries| :: entries[i].0
  }

  lemma OneFires(s: Watching, t: Table, h: nat, expired: bool)
    requires Pumps(s, t) && s.backend.Resting? && h in t.handlers
    ensures HandleWatching.CanFire(s, h)
    ensures Pumps(HandleWatching.Fire(s, h, expired), Erase(t, h))
    ensures Pumps(HandleWatching.FireInvalid(s, h), Erase(t, h))
    ensures
      var s' := HandleWatching.Fire(s, h, expired);
      && s'.backend.Resting? && HandleWatching.FireInvalid(s, h).backend.Resting?
      && s'.watches == s.watches - {h} && s'.notified == s.notified + [s.watches[h].id]
  {
  }

  lemma WithoutBoth(handlers: map<nat, Handler>, h: nat, rest: set<nat>)
    ensures handlers - {h} - rest == handlers - ({h} + rest)
  {
  }

  /** The entries are handles of the table, none of them twice. */
  ghost predicate Listed(t: Table, entries: seq<Entry>) {
    Distinct(entries) && forall i :: 0 <= i < |entries| ==> entries[i].0 in t.handlers
  }

  lemma ListedRest(t: Table, entries: seq<Entry>)
    requires entries != [] && Listed(t, entries)
    ensures Listed(Erase(t, entries[0].0), entries[1..])
  {
    var rest := entries[1..];
    assert forall i :: 0 <= i < |rest| ==> rest[i] == entries[i + 1];
  }

  lemma {:induction false} AllFire(s: Watching, t: Table, entries: seq<Entry>)
    requires Pumps(s, t) && s.backend.Resting? && Listed(t, entries)
    ensures AllCanFire(s, entries)
    ensures Pumps(FireAll(s, entries), Table(t.handlers - HandlesOf(entries), t.nextId))
    decreases |entries|
  {
    if entries == [] {
      assert t.handlers - {} == t.handlers;
    } else {
      var h, rest := entries[0].0, entries[1..];
      OneFires(s, t, h, true);
      ListedRest(t, entries);
      AllFire(HandleWatching.Fire(s, h, true), Erase(t, h), rest);
      HandlesSplit(entries);
      WithoutBoth(t.handlers, h, HandlesOf(rest));
    }
  }

  lemma {:induction false} AllNotify(s: Watching, t: Table, entries: seq<Entry>)
    requires Pumps(s, t) && s.backend.Resting? && Listed(t, entries) && AllCanFire(s, entries)
    ensures FireAll(s, entries).notified == s.notified + IdsOf(s, entries)
    decreases |entries|
  {
    if entries == [] {
      assert s.notified + [] == s.notified;
    } else {
      var h, rest := entries[0].0, entries[1..];
      OneFires(s, t, h, true);
      ListedRest(t, entries);
      var s1 := HandleWatching.Fire(s, h, true);
      AllNotify(s1, Erase(t, h), rest);
      assert IdsOf(s, entries) == [s.watches[h].id] + IdsOf(s1, rest);
      assert s.notified + ([s.watches[h].id] + IdsOf(s1, rest)) == s.notified + [s.watches[h].id] + IdsOf(s1, rest);
    }
  }

  lemma HandlesSplit(entries: seq<Entry>)
    requires entries != []
    ensures HandlesOf(entries) == {entries[0].0} + HandlesOf(entries[1..])
  {
    forall h | h in HandlesOf(entries)
      ensures h in {entries[0].0} + HandlesOf(entries[1..])
    {
      var i :| 0 <= i < |entries| && entries[i].0 == h;
      if i > 0 {
        assert entries[1..][i - 1].0 == h;
      }
    }
    forall h | h in HandlesOf(entries[1..])
      ensures h in HandlesOf(entries)
    {
      var i :| 0 <= i < |entries[1..]| && entries[1..][i].0 == h;
      assert entries[i + 1].0 == h;
    }
  }

  /** What is expired in a copy of the table: distinct handles of the table, the ones that a sweep hits. */
  lemma {:induction false} ExpiredAreHit(clone: seq<Entry>, now: int)
    requires forall i, j :: 0 <= i < j < |clone| ==> clone[i].0 < clone[j].0
    ensures Distinct(ExpiredOf(clone, now))
    ensures forall e :: e in ExpiredOf(clone, now) ==> e in clone
    ensures forall h :: h in HandlesOf(ExpiredOf(clone, now)) <==> Hit(clone, now, h)
    decreases |clone|
  {
    if clone != [] {
      var rest, expired := clone[1..], ExpiredOf(clone, now);
      assert forall i :: 0 <= i < |rest| ==> rest[i] == clone[i + 1] && clone[0].0 < rest[i].0;
      ExpiredAreHit(rest, now);
      var later := ExpiredOf(rest, now);
      forall i | 0 <= i < |later|
        ensures clone[0].0 < later[i].0
      {
        assert later[i] in rest;
      }
      forall h: nat
        ensures h in HandlesOf(expired) <==> Hit(clone, now, h)
      {
        HitSplit(clone, now, h);
        if Expired(clone[0].1, now) {
          assert expired[1..] == later;
          HandlesSplit(expired);
        } else {
          assert expired == later;
        }
      }
    }
  }

  lemma WithoutExpired(handlers: map<nat, Handler>, clone: seq<Entry>, now: int)
    requires forall h :: h in HandlesOf(ExpiredOf(clone, now)) <==> Hit(clone, now, h)
    ensures handlers - HandlesOf(ExpiredOf(clone, now))
      == map h | h in handlers && !Hit(clone, now, h) :: handlers[h]
  {
  }

  /** What the first half of a round does, and the first step. */
  lemma ReportedFires(s: Watching, t: Table, handles: seq<Entry>, wake: Wake)
    requires Pumps(s, t) && s.backend.Resting? && Copies(handles, t)
    requires wake.ReadyHandle? || wake.InvalidHandle? ==> wake.index < |handles|
    ensures FirstHalf(t, handles, wake, ReportedCall(handles, wake)).Some?
    ensures Pumps(FireReported(s, handles, wake), FirstHalf(t, handles, wake, ReportedCall(handles, wake)).value)
    ensures FireReported(s, handles, wake).backend.Resting?
    ensures wake.ReadyHandle? || wake.InvalidHandle? ==> HandleWatching.CanFire(s, handles[wake.index].0)
  {
    if wake.ReadyHandle? || wake.InvalidHandle? {
      var h := handles[wake.index].0;
      OneFires(s, t, h, false);
      assert [Remove(h)][1..] == [];
      assert Run(t, [Remove(h)]) == Some(Erase(t, h));
      assert Run(Erase(t, h), [Remove(h)]) == Run(Erase(Erase(t, h), h), []);
      assert Erase(Erase(t, h), h) == Erase(t, h);
    }
  }

  /** What a sweep over the whole table does: the expired handles fire, each possible when its turn comes. */
  ghost predicate SweepFires(s: Watching, swept: Swept) {
    && AllCanFire(s, swept.notified) && Pumps(FireAll(s, swept.notified), swept.table)
    && (forall i :: 0 <= i < |swept.notified| ==> swept.notified[i].0 in s.watches)
    && FireAll(s, swept.notified).notified == s.notified + IdsOf(s, swept.notified)
  }

  lemma SweepIsAllFires(s: Watching, t: Table, clone: seq<Entry>, now: int)
    requires Pumps(s, t) && s.backend.Resting? && Copies(clone, t)
    ensures Sweep(t, clone, now, BackendScript(clone, now)).Some?
    ensures SweepFires(s, Sweep(t, clone, now, BackendScript(clone, now)).value)
  {
    BackendSweep(t, clone, now);
    ExpiredAreHit(clone, now);
    var expired := ExpiredOf(clone, now);
    forall i | 0 <= i < |expired|
      ensures expired[i].0 in t.handlers
    {
      assert expired[i] in clone;
    }
    AllFire(s, t, expired);
    AllNotify(s, t, expired);
    WithoutExpired(t.handlers, clone, now);
  }

  /**
    A round of DoInternalWork on the watcher thread: the reported handle, if any, fires, and then each expired one, in
    the order of the copy; every one of these is possible when its turn comes; and afterwards the pump's table has
    exactly the handles that handle watching has, and the notifications are those of the watches that fired.
   */
  lemma RoundIsAllFires(s: Watching, t: Table, handles: seq<Entry>, wake: Wake, clone: seq<Entry>, now: int)
    requires Pumps(s, t) && s.backend.Resting? && Copies(handles, t)
    requires wake.ReadyHandle? || wake.InvalidHandle? ==> wake.index < |handles|
    requires
      var middle := FirstHalf(t, handles, wake, ReportedCall(handles, wake));
      middle.Some? ==> Copies(clone, middle.value)
    ensures wake.ReadyHandle? || wake.InvalidHandle? ==> HandleWatching.CanFire(s, handles[wake.index].0)
    ensures
      var middle := FirstHalf(t, handles, wake, ReportedCall(handles, wake));
      && middle.Some?
      && var swept := Sweep(middle.value, clone, now, BackendScript(clone, now));
      swept.Some? && SweepFires(FireReported(s, handles, wake), swept.value)
  {
    ReportedFires(s, t, handles, wake);
    var middle := FirstHalf(t, handles, wake, ReportedCall(handles, wake)).value;
    SweepIsAllFires(FireReported(s, handles, wake), middle, clone, now);
  }

  // ----- Requests -----

  /** StartWatching displaces a watch on the handle, so that AddHandler finds it free, and registers it. */
  lemma StartRegisters(s: Watching, t: Table, owner: nat, signals: nat, deadline: int)
    requires Pumps(s, t) && HandleWatching.CanProcessStart(s)
    ensures
      var h := s.backend.batch[0].watch.handle;
      && h !in Erase(t, h).handlers
      && Pumps(HandleWatching.RemoveAndNotify(s, h), Erase(t, h))
      && Pumps(HandleWatching.ProcessStart(s), Register(Erase(t, h), h, owner, signals, deadline))
  {
    var h := s.backend.batch[0].watch.handle;
    if h !in s.watches {
      assert Erase(t, h) == t;
    }
  }

  /** StopWatching removes the handle it finds, if it finds one. */
  lemma StopRemoves(s: Watching, t: Table)
    requires Pumps(s, t) && HandleWatching.CanProcessStop(s)
    ensures
      var found := HandleWatching.FindHandle(s.watches, s.backend.batch[0].id);
      Pumps(HandleWatching.ProcessStop(s), if found.Some? then Erase(t, found.value) else t)
  {
  }
}
