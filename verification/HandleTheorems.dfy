/** What holds of every run of handle watching. */
module HandleTheorems {
  import opened Wrappers
  import opened HandleWatching
  import opened HandleInvariant
  import opened HandleSteps

  // ----- Every reachable state satisfies the invariant -----

  lemma EraseRequestInv(s: State, c: nat, i: nat)
    requires Inv(s) && CanSearch(s, c) && SearchFinds(s, c, i)
    ensures Inv(EraseRequest(s, c, i))
  {
    var p := s.clients[c].phase;
    TakeOutInv(s, c, i);
    assert PhaseOk(s, c, s.clients[c]);
    FinishInv(TakeOut(s, i, p.id), c, p.watcher, p.id, p.after);
  }

  lemma AwakeInv(s: State, c: nat)
    requires Inv(s) && CanAwake(s, c)
    ensures Inv(Awake(s, c))
  {
    var p := s.clients[c].phase;
    assert PhaseOk(s, c, s.clients[c]);
    FinishInv(s, c, p.watcher, p.id, p.after);
  }

  lemma ProcessStartInv(s: State)
    requires Inv(s) && CanProcessStart(s)
    ensures Inv(ProcessStart(s))
  {
    var h := s.backend.batch[0].watch.handle;
    RemoveAndNotifyInv(s, h);
    InsertInv(RemoveAndNotify(s, h));
  }

  lemma ProcessStopInv(s: State)
    requires Inv(s) && CanProcessStop(s)
    ensures Inv(ProcessStop(s))
  {
    StopWatchInv(s);
    StopWatchSettles(s);
    SignalInv(StopWatch(s, s.backend.batch[0].id));
  }

  /** The backend's map agrees with the pump's table, so it does not matter in which order they are changed. */
  lemma FireRemovesAndNotifies(s: State, h: nat, expired: bool)
    requires PumpOk(s) && CanFire(s, h)
    ensures Fire(s, h, expired) == RemoveAndNotify(s, h) && FireInvalid(s, h) == RemoveAndNotify(s, h)
  {
    var watch := s.watches[h];
    assert (s.handlers - {h}) - {h} == s.handlers - {h};
  }

  lemma FireInv(s: State, h: nat, expired: bool)
    requires Inv(s) && CanFire(s, h)
    ensures Inv(Fire(s, h, expired)) && Inv(FireInvalid(s, h))
  {
    RemoveAndNotifyInv(s, h);
    FireRemovesAndNotifies(s, h, expired);
  }

  lemma ClientStepKeepsInv(s: State, e: ClientEvent)
    requires Inv(s) && ClientEnabled(s, e)
    ensures Inv(ClientApply(s, e))
  {
    match e
    case EStart(c, w, h) => StartInv(s, c, w, h);
    case EReset(c, w, after) => ResetInv(s, c, w, after);
    case ERunTask(c) => RunTaskInv(s, c);
    case EDraw(c) => DrawInv(s, c);
    case EAddStart(c) => AddStartInv(s, c);
    case EPost(c) => PostInv(s, c);
    case EEraseRequest(c, i) => EraseRequestInv(s, c, i);
    case EGiveUpSearch(c) => GiveUpSearchInv(s, c);
    case EAddStop(c) => AddStopInv(s, c);
    case EAwake(c) => AwakeInv(s, c);
  }

  lemma WatcherStepKeepsInv(s: State, e: WatcherEvent)
    requires Inv(s) && WatcherEnabled(s, e)
    ensures Inv(WatcherApply(s, e))
  {
    match e
    case EWake => WakeInv(s);
    case ESwap => SwapInv(s);
    case EProcessStart => ProcessStartInv(s);
    case EProcessStop => ProcessStopInv(s);
    case ERest => RestInv(s);
    case EFire(h, expired) => FireInv(s, h, expired);
    case EFireInvalid(h) => FireInv(s, h, false);
  }

  lemma StepKeepsInv(s: State, e: Event)
    requires Inv(s) && Enabled(s, e)
    ensures Inv(Apply(s, e))
  {
    match e
    case ClientStep(x) => ClientStepKeepsInv(s, x);
    case WatcherStep(x) => WatcherStepKeepsInv(s, x);
  }

  lemma InvAfterStep(run: seq<State>, i: nat)
    requires IsRun(run) && i + 1 < |run| && Inv(run[i])
    ensures Inv(run[i + 1])
  {
    assert StepAt(run, i);
    var e :| Enabled(run[i], e) && run[i + 1] == Apply(run[i], e);
    StepKeepsInv(run[i], e);
  }

  lemma {:induction false} RunKeepsInv(run: seq<State>, i: nat)
    requires IsRun(run) && i < |run|
    ensures Inv(run[i])
  {
    if i == 0 {
      InitInv(run[0]);
    } else {
      RunKeepsInv(run, i - 1);
      InvAfterStep(run, i - 1);
    }
  }

  // ----- Every id is in exactly one place -----

  ghost predicate InFlight(s: State, id: nat) {
    exists c :: 0 <= c < |s.clients| && s.clients[c].phase.Numbered? && s.clients[c].phase.watch.id == id
  }

  ghost predicate InMap(s: State, id: nat) {
    exists h :: h in s.watches && s.watches[h].id == id
  }

  ghost function One(b: bool): nat {
    if b then 1 else 0
  }

  /** The id of every Start is being started, in the request vector, in the batch, in the backend map,
      notified or silently dropped: exactly one of these; and no id is listed twice anywhere. */
  lemma EveryWatchIsInOnePlace(run: seq<State>, i: nat, id: nat)
    requires IsRun(run) && i < |run| && id < |run[i].ids|
    ensures var s := run[i];
            One(InFlight(s, id)) + One(Starts(s.requests, id)) + One(Starts(Batch(s), id)) + One(InMap(s, id))
            + One(id in s.notified) + One(id in s.dropped) == 1
  {
    var s := run[i];
    RunKeepsInv(run, i);
    var place := s.ids[id].place;
    assert InFlight(s, id) <==> place.Flying?;
    assert Starts(s.requests, id) <==> place.Queued?;
    assert Starts(Batch(s), id) <==> place.Batched?;
    assert InMap(s, id) <==> place.Mapped?;
    assert id in s.notified <==> place.Notified?;
    assert id in s.dropped <==> place.Dropped?;
  }

  lemma NobodyIsNotifiedTwice(run: seq<State>, i: nat)
    requires IsRun(run) && i < |run|
    ensures forall a, b :: 0 <= a < b < |run[i].notified| ==> run[i].notified[a] != run[i].notified[b]
    ensures
      var watches := run[i].watches;
      forall h, g :: h in watches && g in watches && watches[h].id == watches[g].id ==> h == g
  {
    var s := run[i];
    RunKeepsInv(run, i);
    forall a, b | 0 <= a < b < |s.notified|
      ensures s.notified[a] != s.notified[b]
    {
      assert At(s.ids, s.notified[a], Notified(a)) && At(s.ids, s.notified[b], Notified(b));
    }
    forall h, g | h in s.watches && g in s.watches && s.watches[h].id == s.watches[g].id
      ensures h == g
    {
      assert At(s.ids, s.watches[h].id, Mapped(h)) && At(s.ids, s.watches[g].id, Mapped(g));
    }
  }

  // ----- Starts issued = the sum over the places -----

  function CountStarts(requests: seq<Request>): nat {
    if requests == [] then 0
    else CountStarts(requests[..|requests| - 1]) + (if requests[|requests| - 1].StartRequest? then 1 else 0)
  }

  function CountNumbered(clients: seq<Client>): nat {
    if clients == [] then 0
    else CountNumbered(clients[..|clients| - 1]) + (if clients[|clients| - 1].phase.Numbered? then 1 else 0)
  }

  datatype Kind = InStart | InVector | InBatch | InTable | Posted | Gone

  function KindOf(p: Place): Kind {
    match p
    case Flying(_) => InStart
    case Queued => InVector
    case Batched => InBatch
    case Mapped(_) => InTable
    case Notified(_) => Posted
    case Dropped => Gone
  }

  ghost function IdsOf(ids: seq<Record>, k: Kind): set<nat> {
    set id: nat | id < |ids| && KindOf(ids[id].place) == k
  }

  lemma {:induction false} StartsCounted(requests: seq<Request>, ids: set<nat>)
    requires forall i, j :: 0 <= i < j < |requests| && requests[i].StartRequest? && requests[j].StartRequest? ==>
               requests[i].watch.id != requests[j].watch.id
    requires forall id :: id in ids <==> Starts(requests, id)
    ensures |ids| == CountStarts(requests)
  {
    if requests == [] {
      assert ids == {};
    } else {
      var n := |requests| - 1;
      var front, last := requests[..n], requests[n];
      var rest := if last.StartRequest? then ids - {last.watch.id} else ids;
      if last.StartRequest? {
        assert StartsAt(requests, n, last.watch.id);
      }
      forall id: nat
        ensures id in rest <==> Starts(front, id)
      {
        if Starts(front, id) {
          var i :| 0 <= i < |front| && StartsAt(front, i, id);
          assert StartsAt(requests, i, id);
        }
        if id in rest {
          var i :| 0 <= i < |requests| && StartsAt(requests, i, id);
          assert StartsAt(front, i, id);
        }
      }
      StartsCounted(front, rest);
    }
  }

  lemma {:induction false} NumberedCounted(clients: seq<Client>, ids: set<nat>)
    requires forall c, d :: 0 <= c < d < |clients| && clients[c].phase.Numbered? && clients[d].phase.Numbered? ==>
               clients[c].phase.watch.id != clients[d].phase.watch.id
    requires forall id :: id in ids <==>
               exists c :: 0 <= c < |clients| && clients[c].phase.Numbered? && clients[c].phase.watch.id == id
    ensures |ids| == CountNumbered(clients)
  {
    if clients == [] {
      assert ids == {};
    } else {
      var n := |clients| - 1;
      var last := clients[n];
      NumberedCounted(clients[..n], if last.phase.Numbered? then ids - {last.phase.watch.id} else ids);
    }
  }

  lemma {:induction false} MapCounted(watches: map<nat, Watch>, ids: set<nat>)
    requires forall h, g :: h in watches && g in watches && watches[h].id == watches[g].id ==> h == g
    requires forall id :: id in ids <==> exists h :: h in watches && watches[h].id == id
    ensures |ids| == |watches|
    decreases |watches|
  {
    if watches.Keys == {} {
      assert ids == {} && |watches.Keys| == 0;
    } else {
      var h :| h in watches;
      var rest := watches - {h};
      assert rest.Keys == watches.Keys - {h};
      assert |rest| == |watches| - 1;
      var others := ids - {watches[h].id};
      forall id: nat
        ensures id in others <==> exists g :: g in rest && rest[g].id == id
      {
        if id in others {
          var g :| g in watches && watches[g].id == id;
          assert g in rest && rest[g].id == id;
        }
        if exists g :: g in rest && rest[g].id == id {
          var g :| g in rest && rest[g].id == id;
          assert g in watches && watches[g].id == id;
        }
      }
      assert watches[h].id in ids;
      MapCounted(rest, others);
    }
  }

  lemma {:induction false} ListCounted(xs: seq<nat>, ids: set<nat>)
    requires forall a, b :: 0 <= a < b < |xs| ==> xs[a] != xs[b]
    requires forall id :: id in ids <==> id in xs
    ensures |ids| == |xs|
  {
    if xs == [] {
      assert ids == {};
    } else {
      ListCounted(xs[..|xs| - 1], ids - {xs[|xs| - 1]});
    }
  }

  lemma {:induction false} RecordsCounted(ids: seq<Record>)
    ensures |ids| == |IdsOf(ids, InStart)| + |IdsOf(ids, InVector)| + |IdsOf(ids, InBatch)|
                     + |IdsOf(ids, InTable)| + |IdsOf(ids, Posted)| + |IdsOf(ids, Gone)|
  {
    if ids != [] {
      var n := |ids| - 1;
      RecordsCounted(ids[..n]);
      OneMore(ids, InStart);
      OneMore(ids, InVector);
      OneMore(ids, InBatch);
      OneMore(ids, InTable);
      OneMore(ids, Posted);
      OneMore(ids, Gone);
    } else {
      assert forall k :: IdsOf(ids, k) == {};
    }
  }

  lemma OneMore(ids: seq<Record>, k: Kind)
    requires ids != []
    ensures |IdsOf(ids, k)| == |IdsOf(ids[..|ids| - 1], k)| + One(KindOf(ids[|ids| - 1].place) == k)
  {
    var n := |ids| - 1;
    var less := IdsOf(ids[..n], k);
    if KindOf(ids[n].place) == k {
      assert IdsOf(ids, k) == less + {n} && n !in less;
    } else {
      assert IdsOf(ids, k) == less;
    }
  }

  lemma PlacesCounted(s: State)
    requires FlyingOk(s.clients, s.ids) && MapOk(s.watches, s.ids)
    ensures |IdsOf(s.ids, InStart)| == CountNumbered(s.clients)
    ensures |IdsOf(s.ids, InTable)| == |s.watches|
  {
    NumberedCounted(s.clients, IdsOf(s.ids, InStart));
    assert forall h, g :: h in s.watches && g in s.watches && s.watches[h].id == s.watches[g].id ==> h == g by {
      assert forall h :: h in s.watches ==> At(s.ids, s.watches[h].id, Mapped(h));
    }
    MapCounted(s.watches, IdsOf(s.ids, InTable));
  }

  lemma QueueCounted(requests: seq<Request>, ids: seq<Record>, place: Place)
    requires QueueOk(requests, ids, place) && (place.Queued? || place.Batched?)
    ensures |IdsOf(ids, KindOf(place))| == CountStarts(requests)
  {
    forall id: nat
      ensures id in IdsOf(ids, KindOf(place)) <==> Starts(requests, id)
    {
      if Starts(requests, id) {
        var i :| 0 <= i < |requests| && StartsAt(requests, i, id);
        assert At(ids, id, place);
      }
    }
    StartsCounted(requests, IdsOf(ids, KindOf(place)));
  }

  lemma SettledCounted(notified: seq<nat>, dropped: set<nat>, ids: seq<Record>)
    requires NotifiedOk(notified, ids) && DroppedOk(dropped, ids)
    ensures |IdsOf(ids, Posted)| == |notified| && |IdsOf(ids, Gone)| == |dropped|
  {
    assert forall a, b :: 0 <= a < b < |notified| ==> notified[a] != notified[b] by {
      assert forall a :: 0 <= a < |notified| ==> At(ids, notified[a], Notified(a));
    }
    ListCounted(notified, IdsOf(ids, Posted));
    assert IdsOf(ids, Gone) == dropped;
  }

  /** The number of ids drawn is the number of starts under way, in the vector and in the batch, of watches
      in the backend's map, of notifications posted and of watches silently dropped. */
  lemma StartsAddUp(run: seq<State>, i: nat)
    requires IsRun(run) && i < |run|
    ensures var s := run[i];
            |s.ids| == CountNumbered(s.clients) + CountStarts(s.requests) + CountStarts(Batch(s)) + |s.watches|
                       + |s.notified| + |s.dropped|
  {
    var s := run[i];
    RunKeepsInv(run, i);
    RecordsCounted(s.ids);
    PlacesCounted(s);
    QueueCounted(s.requests, s.ids, Queued);
    QueueCounted(Batch(s), s.ids, Batched);
    SettledCounted(s.notified, s.dropped, s.ids);
  }

  // ----- Stopping -----

  ghost predicate LaterHistory(s: State, s': State) {
    s.stopped <= s'.stopped && s.ran <= s'.ran && s.notified <= s'.notified
  }

  lemma ClientStepKeepsHistory(s: State, e: ClientEvent)
    requires ClientEnabled(s, e)
    ensures LaterHistory(s, ClientApply(s, e))
  {
  }

  lemma WatcherStepKeepsHistory(s: State, e: WatcherEvent)
    requires WatcherEnabled(s, e)
    ensures LaterHistory(s, WatcherApply(s, e))
  {
  }

  lemma StepKeepsHistory(s: State, e: Event)
    requires Enabled(s, e)
    ensures LaterHistory(s, Apply(s, e))
  {
    match e
    case ClientStep(x) => ClientStepKeepsHistory(s, x);
    case WatcherStep(x) => WatcherStepKeepsHistory(s, x);
  }

  lemma HistoryAfterStep(run: seq<State>, i: nat)
    requires IsRun(run) && i + 1 < |run|
    ensures LaterHistory(run[i], run[i + 1])
  {
    assert StepAt(run, i);
    var e :| Enabled(run[i], e) && run[i + 1] == Apply(run[i], e);
    StepKeepsHistory(run[i], e);
  }

  lemma {:induction false} RunKeepsHistory(run: seq<State>, i: nat, j: nat)
    requires IsRun(run) && i <= j < |run|
    ensures LaterHistory(run[i], run[j])
  {
    if i < j {
      RunKeepsHistory(run, i, j - 1);
      HistoryAfterStep(run, j - 1);
    }
  }

  /** StopWatching returns to thread c: it found the start request in the vector, or the watcher thread signalled its
      event. */
  ghost predicate Returns(s: State, s': State, c: nat) {
    || (CanAwake(s, c) && s' == Awake(s, c))
    || (CanSearch(s, c) && exists k: nat :: SearchFinds(s, c, k) && s' == EraseRequest(s, c, k))
  }

  lemma ReturnEndsWatch(s: State, s': State, c: nat)
    requires Returns(s, s', c)
    ensures |s'.clients| == |s.clients|
    ensures var p := s.clients[c].phase;
            && (if p.after.Abort? then s'.ran == s.ran + [p.id] && s'.stopped == s.stopped
                else s'.ran == s.ran && s'.stopped == s.stopped + {p.id})
            && s'.clients[c].watching == s.clients[c].watching - {p.watcher}
            && s'.clients[c].phase == (if p.after.Restart? then Drawing(p.watcher, p.after.handle) else Ready)
  {
  }

  lemma ReturnLetsGo(s: State, s': State, c: nat)
    requires Inv(s) && Returns(s, s', c)
    ensures Free(s'.ids, s.clients[c].phase.id)
  {
    assert PhaseOk(s, c, s.clients[c]);
    assert HoldersOk(s.clients, s.ids);
  }

  /** When StopWatching(id) returns, id is in neither the vector, the batch nor the backend's map; its callback has run
      with this return if the thread's message loop is going away, and is barred for good otherwise. */
  lemma StopWatchingRemoves(run: seq<State>, i: nat, c: nat)
    requires IsRun(run) && i + 1 < |run| && c < |run[i].clients| && Returns(run[i], run[i + 1], c)
    ensures var id, s := run[i].clients[c].phase.id, run[i + 1];
            id < |s.ids| && !Starts(s.requests, id) && !Starts(Batch(s), id) && !InMap(s, id)
    ensures c < |run[i + 1].clients|
    ensures var p, s, s' := run[i].clients[c].phase, run[i], run[i + 1];
            && (if p.after.Abort? then s'.ran == s.ran + [p.id] && s'.stopped == s.stopped
                else s'.ran == s.ran && s'.stopped == s.stopped + {p.id})
            && s'.clients[c].watching == s.clients[c].watching - {p.watcher}
            && s'.clients[c].phase == (if p.after.Restart? then Drawing(p.watcher, p.after.handle) else Ready)
  {
    var id := run[i].clients[c].phase.id;
    ReturnEndsWatch(run[i], run[i + 1], c);
    RunKeepsInv(run, i);
    ReturnLetsGo(run[i], run[i + 1], c);
    SettledAfter(run, i + 1, id);
    EveryWatchIsInOnePlace(run, i + 1, id);
  }

  lemma SettledAfter(run: seq<State>, i: nat, id: nat)
    requires IsRun(run) && i < |run| && Free(run[i].ids, id)
    ensures id in run[i].notified || id in run[i].dropped
  {
    RunKeepsInv(run, i);
    assert Settled(run[i].ids, id);
  }

  /** Once Stop, a restart or the destructor of a HandleWatcher has returned, the callback given to that
      Start never runs, even if its notification had been posted already; and it never runs twice. */
  lemma StoppedCallbackNeverRuns(run: seq<State>, i: nat, j: nat, id: nat)
    requires IsRun(run) && i <= j < |run|
    ensures id in run[i].stopped ==> id !in run[j].ran
    ensures forall a, b :: 0 <= a < b < |run[j].ran| ==> run[j].ran[a] != run[j].ran[b]
  {
    RunKeepsHistory(run, i, j);
    RunKeepsInv(run, j);
  }

  /** A watch that is not being started and that no HandleWatcher has is over: nothing stays registered. */
  lemma NoWatchLeaks(run: seq<State>, i: nat, id: nat)
    requires IsRun(run) && i < |run| && id < |run[i].ids|
    requires !InFlight(run[i], id)
    requires
      var clients := run[i].clients;
      forall c, w :: 0 <= c < |clients| && w in clients[c].watching ==> clients[c].watching[w] != id
    ensures id in run[i].notified || id in run[i].dropped
  {
    var s := run[i];
    RunKeepsInv(run, i);
    assert s.ids[id].holder.Nobody?;
    assert Settled(s.ids, id);
  }

  // ----- No lost wake-up -----

  /** A non-empty vector always has a processing task pending, or just started, or a thread committed to
      posting one; so a thread blocked in StopWatching has its request in the vector or in the batch. */
  lemma NoLostWakeUp(run: seq<State>, i: nat)
    requires IsRun(run) && i < |run|
    ensures run[i].requests != [] ==> run[i].tasks > 0 || run[i].backend.Woken? || SomeonePosts(run[i])
    ensures
      var clients := run[i].clients;
      forall c :: 0 <= c < |clients| && clients[c].phase.Stopping? && !clients[c].phase.signalled ==>
        StopRequest(clients[c].phase.id, c) in run[i].requests || StopRequest(clients[c].phase.id, c) in Batch(run[i])
  {
    RunKeepsInv(run, i);
    forall c | 0 <= c < |run[i].clients| && run[i].clients[c].phase.Stopping? && !run[i].clients[c].phase.signalled
      ensures StopRequest(run[i].clients[c].phase.id, c) in run[i].requests ||
              StopRequest(run[i].clients[c].phase.id, c) in Batch(run[i])
    {
      assert PhaseOk(run[i], c, run[i].clients[c]);
    }
  }

  // ----- The backend and the pump -----

  /** The backend's map and the pump's table have the same handles, each under its own key; so AddHandler
      never meets a handle that is already registered. */
  lemma BackendAgreesWithPump(run: seq<State>, i: nat)
    requires IsRun(run) && i < |run|
    ensures run[i].handlers == run[i].watches.Keys
    ensures forall h :: h in run[i].watches ==> run[i].watches[h].handle == h
    ensures CanProcessStart(run[i]) ==>
              var h := run[i].backend.batch[0].watch.handle; h !in RemoveAndNotify(run[i], h).handlers
  {
    RunKeepsInv(run, i);
    if CanProcessStart(run[i]) {
      RemoveAndNotifyInv(run[i], run[i].backend.batch[0].watch.handle);
    }
  }
}
