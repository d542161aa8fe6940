/** Every watch ends in a call of the user's callback, or in a stop: nothing in between swallows it. */
module HandleDelivery {
  import opened Wrappers
  import opened HandleWatching
  import opened HandleInvariant
  import opened HandleTheorems

  // ----- What every step keeps -----

  /** A watch that its HandleWatcher has let go of was called back or stopped. */
  ghost predicate EndedOk(ids: seq<Record>, ran: seq<nat>, stopped: set<nat>) {
    forall id :: 0 <= id < |ids| && ids[id].holder.Nobody? ==> id in ran || id in stopped
  }

  /** The thread that a watch notifies is the thread of the HandleWatcher that has it. */
  ghost predicate Owned(ids: seq<Record>, watch: Watch) {
    watch.id < |ids| && ids[watch.id].holder.Held? ==> ids[watch.id].holder.thread == watch.thread
  }

  ghost predicate OwnedRequests(ids: seq<Record>, requests: seq<Request>) {
    forall i :: 0 <= i < |requests| && requests[i].StartRequest? ==> Owned(ids, requests[i].watch)
  }

  ghost predicate OwnedWatches(ids: seq<Record>, watches: map<nat, Watch>) {
    forall h :: h in watches ==> Owned(ids, watches[h])
  }

  ghost predicate OwnersOk(s: State) {
    OwnedRequests(s.ids, s.requests) && OwnedRequests(s.ids, Batch(s)) && OwnedWatches(s.ids, s.watches)
  }

  /** A notification that its HandleWatcher still waits for is on its way to the thread. */
  ghost predicate PostedOk(ids: seq<Record>, clients: seq<Client>) {
    forall id :: 0 <= id < |ids| && ids[id].place.Notified? && ids[id].holder.Held? ==>
      ids[id].holder.thread < |clients| && id in clients[ids[id].holder.thread].tasks
  }

  ghost predicate DeliveryOk(s: State) {
    EndedOk(s.ids, s.ran, s.stopped) && OwnersOk(s) && PostedOk(s.ids, s.clients)
  }

  // ----- Steps that let go of a watch -----

  /** Letting go changes nobody's owner, only that there is one. */
  lemma LettingGo(s: State, ids: seq<Record>)
    requires |ids| == |s.ids|
    requires forall id :: 0 <= id < |ids| ==> ids[id].holder.Nobody? || ids[id].holder == s.ids[id].holder
    requires OwnersOk(s)
    ensures OwnedRequests(ids, s.requests) && OwnedRequests(ids, Batch(s)) && OwnedWatches(ids, s.watches)
  {
  }

  lemma TaskEnds(s: State, c: nat)
    requires EndedOk(s.ids, s.ran, s.stopped) && CanRunTask(s, c)
    ensures EndedOk(RunTask(s, c).ids, RunTask(s, c).ran, RunTask(s, c).stopped)
  {
  }

  lemma TaskIsTaken(s: State, c: nat)
    requires HoldersOk(s.clients, s.ids) && PostedOk(s.ids, s.clients) && CanRunTask(s, c)
    ensures PostedOk(RunTask(s, c).ids, RunTask(s, c).clients)
  {
    var x := s.clients[c];
    var id := x.tasks[0];
    var s' := RunTask(s, c);
    forall d | 0 <= d < |s'.ids| && s'.ids[d].place.Notified? && s'.ids[d].holder.Held?
      ensures s'.ids[d].holder.thread < |s'.clients| && d in s'.clients[s'.ids[d].holder.thread].tasks
    {
      assert d in s.clients[s.ids[d].holder.thread].tasks;
      assert x.tasks == [id] + x.tasks[1..];
    }
  }

  lemma TaskDelivers(s: State, c: nat)
    requires HoldersOk(s.clients, s.ids) && DeliveryOk(s) && CanRunTask(s, c)
    ensures DeliveryOk(RunTask(s, c))
  {
    TaskEnds(s, c);
    TaskIsTaken(s, c);
    LettingGo(s, RunTask(s, c).ids);
  }

  lemma FinishDelivers(s: State, c: nat, w: nat, id: nat, after: After)
    requires DeliveryOk(s) && c < |s.clients|
    ensures DeliveryOk(Finish(s, c, w, id, after))
  {
    LettingGo(s, Finish(s, c, w, id, after).ids);
  }

  lemma TakeOutDelivers(s: State, c: nat, i: nat)
    requires DeliveryOk(s) && CanSearch(s, c) && SearchFinds(s, c, i)
    ensures DeliveryOk(TakeOut(s, i, s.clients[c].phase.id))
  {
  }

  // ----- Steps that notify -----

  lemma NotifyDelivers(s: State, h: nat)
    requires PumpOk(s) && DeliveryOk(s)
    ensures DeliveryOk(RemoveAndNotify(s, h))
  {
    if h in s.watches {
      assert Owned(s.ids, s.watches[h]);
      assert RemoveAndNotify(s, h).watches == s.watches - {h};
    }
  }

  lemma InsertDelivers(s: State)
    requires DeliveryOk(s) && CanProcessStart(s)
    ensures DeliveryOk(Insert(s))
  {
    assert Owned(s.ids, Batch(s)[0].watch);
  }

  lemma StopWatchDelivers(s: State, id: nat)
    requires DeliveryOk(s)
    ensures DeliveryOk(StopWatch(s, id))
  {
  }

  lemma SignalDelivers(s: State)
    requires DeliveryOk(s) && CanProcessStop(s)
    ensures DeliveryOk(Signal(s))
  {
  }

  // ----- Every step -----

  lemma AddStartDelivers(s: State, c: nat)
    requires CanAddStart(s, c) && FlyingOk(s.clients, s.ids) && PhaseOk(s, c, s.clients[c]) && DeliveryOk(s)
    ensures DeliveryOk(AddStart(s, c))
  {
  }

  lemma DrawDelivers(s: State, c: nat)
    requires QueueOk(s.requests, s.ids, Queued) && QueueOk(Batch(s), s.ids, Batched) && MapOk(s.watches, s.ids)
    requires DeliveryOk(s) && CanDraw(s, c)
    ensures DeliveryOk(Draw(s, c))
  {
  }

  lemma AddStopDelivers(s: State, c: nat)
    requires DeliveryOk(s) && CanAddStop(s, c)
    ensures DeliveryOk(AddStop(s, c))
  {
  }

  /** Nothing that matters here changes. */
  lemma NothingToDeliver(s: State, s': State)
    requires DeliveryOk(s) && s'.ids == s.ids && s'.ran == s.ran && s'.stopped == s.stopped
    requires s'.requests == s.requests && s'.backend == s.backend && s'.watches == s.watches
    requires |s'.clients| == |s.clients|
    requires forall c :: 0 <= c < |s.clients| ==> s'.clients[c].tasks == s.clients[c].tasks
    ensures DeliveryOk(s')
  {
  }

  lemma ClientStepDelivers(s: State, e: ClientEvent)
    requires PlacesOk(s) && PhasesOk(s) && HoldersOk(s.clients, s.ids) && DeliveryOk(s) && ClientEnabled(s, e)
    ensures DeliveryOk(ClientApply(s, e))
  {
    match e
    case ERunTask(c) =>
      TaskDelivers(s, c);
    case EEraseRequest(c, i) =>
      var p := s.clients[c].phase;
      TakeOutDelivers(s, c, i);
      FinishDelivers(TakeOut(s, i, p.id), c, p.watcher, p.id, p.after);
    case EAwake(c) =>
      FinishDelivers(s, c, s.clients[c].phase.watcher, s.clients[c].phase.id, s.clients[c].phase.after);
    case EAddStart(c) =>
      AddStartDelivers(s, c);
    case EAddStop(c) =>
      AddStopDelivers(s, c);
    case EDraw(c) =>
      DrawDelivers(s, c);
    case _ =>
      NothingToDeliver(s, ClientApply(s, e));
  }

  lemma WatcherStepDelivers(s: State, e: WatcherEvent)
    requires Inv(s) && DeliveryOk(s) && WatcherEnabled(s, e)
    ensures DeliveryOk(WatcherApply(s, e))
  {
    match e
    case EProcessStart =>
      NotifyDelivers(s, s.backend.batch[0].watch.handle);
      InsertDelivers(RemoveAndNotify(s, s.backend.batch[0].watch.handle));
    case EProcessStop =>
      StopWatchDelivers(s, s.backend.batch[0].id);
      SignalDelivers(StopWatch(s, s.backend.batch[0].id));
    case EFire(h, expired) =>
      NotifyDelivers(s, h);
    case EFireInvalid(h) =>
      NotifyDelivers(s, h);
      FireRemovesAndNotifies(s, h, false);
    case _ =>
  }

  lemma StepDelivers(s: State, e: Event)
    requires Inv(s) && DeliveryOk(s) && Enabled(s, e)
    ensures DeliveryOk(Apply(s, e))
  {
    match e
    case ClientStep(x) => ClientStepDelivers(s, x);
    case WatcherStep(x) => WatcherStepDelivers(s, x);
  }

  lemma DeliveryAfterStep(run: seq<State>, i: nat)
    requires IsRun(run) && i + 1 < |run| && DeliveryOk(run[i])
    ensures DeliveryOk(run[i + 1])
  {
    RunKeepsInv(run, i);
    assert StepAt(run, i);
    var e :| Enabled(run[i], e) && run[i + 1] == Apply(run[i], e);
    StepDelivers(run[i], e);
  }

  lemma InitDelivers(s: State)
    requires Init(s)
    ensures DeliveryOk(s)
  {
  }

  lemma {:induction false} RunKeepsDelivery(run: seq<State>, i: nat)
    requires IsRun(run) && i < |run|
    ensures DeliveryOk(run[i])
  {
    if i == 0 {
      InitDelivers(run[0]);
    } else {
      RunKeepsDelivery(run, i - 1);
      DeliveryAfterStep(run, i - 1);
    }
  }

  // ----- Nothing is swallowed -----

  ghost predicate WatchedBy(x: Client, id: nat) {
    exists w :: w in x.watching && x.watching[w] == id
  }

  /** A watch that is not being started and that no HandleWatcher has any more was called back or stopped; and of
      these two, exactly one. */
  lemma EveryWatchIsCalledOrStopped(run: seq<State>, i: nat, id: nat)
    requires IsRun(run) && i < |run| && id < |run[i].ids|
    ensures
      var s := run[i];
      !InFlight(s, id) && (forall c :: 0 <= c < |s.clients| ==> !WatchedBy(s.clients[c], id)) <==>
      id in s.ran || id in s.stopped
    ensures !(id in run[i].ran && id in run[i].stopped)
  {
    var s := run[i];
    RunKeepsInv(run, i);
    RunKeepsDelivery(run, i);
    assert HoldersOk(s.clients, s.ids);
    if id in s.ran || id in s.stopped {
      assert Free(s.ids, id) && Settled(s.ids, id);
      assert !InFlight(s, id);
    } else if !InFlight(s, id) {
      assert s.ids[id].holder.Held? && !s.ids[id].place.Flying?;
      var Held(c, w) := s.ids[id].holder;
      assert WatchedBy(s.clients[c], id);
    }
  }

  /** A notification that was posted and whose HandleWatcher still has the watch waits in the queue of that
      HandleWatcher's own thread. */
  lemma NotificationIsOnItsWay(run: seq<State>, i: nat, c: nat, id: nat)
    requires IsRun(run) && i < |run| && c < |run[i].clients|
    requires id in run[i].notified && WatchedBy(run[i].clients[c], id)
    ensures id in run[i].clients[c].tasks
  {
    RunKeepsInv(run, i);
    RunKeepsDelivery(run, i);
    assert HoldersOk(run[i].clients, run[i].ids);
  }

  /** A thread that gets to its first task calls the user back exactly if one of its HandleWatchers still has that
      watch, and then that HandleWatcher has let go of it. */
  lemma TaskCallsBack(run: seq<State>, i: nat, c: nat)
    requires IsRun(run) && i < |run| && CanRunTask(run[i], c)
    ensures
      var s, s' := run[i], RunTask(run[i], c);
      var id := s.clients[c].tasks[0];
      && id in s.notified && !WatchedBy(s'.clients[c], id) && s'.stopped == s.stopped
      && s'.ran == (if WatchedBy(s.clients[c], id) then s.ran + [id] else s.ran)
  {
    RunKeepsInv(run, i);
  }

  /** The watch on h, and no other, is over; its notification goes to its thread, and to no other. */
  ghost predicate Notifies(s: State, s': State, h: nat)
    requires h in s.watches
  {
    var watch := s.watches[h];
    && s'.notified == s.notified + [watch.id] && s'.watches == s.watches - {h} && s'.handlers == s.handlers - {h}
    && |s'.clients| == |s.clients|
    && forall c :: 0 <= c < |s.clients| ==>
         s'.clients[c].tasks == if c == watch.thread then s.clients[c].tasks + [watch.id] else s.clients[c].tasks
  }

  lemma RemovalNotifies(s: State, h: nat)
    requires h in s.watches && s.watches[h].thread < |s.clients|
    ensures Notifies(s, RemoveAndNotify(s, h), h)
  {
  }

  lemma WatcherIsNotified(s: State, h: nat, c: nat)
    requires HoldersOk(s.clients, s.ids) && OwnedWatches(s.ids, s.watches) && h in s.watches
    requires c < |s.clients| && WatchedBy(s.clients[c], s.watches[h].id)
    ensures c == s.watches[h].thread
  {
    assert Owned(s.ids, s.watches[h]);
  }

  /** A watch in the backend's map is notified as soon as its handle is ready, invalid or past its deadline: the pump
      can fire, that very watch leaves the map, and the thread whose HandleWatcher has it gets the notification. */
  lemma RegisteredWatchIsNotified(run: seq<State>, i: nat, h: nat, expired: bool)
    requires IsRun(run) && i < |run| && run[i].backend.Resting? && h in run[i].watches
    ensures CanFire(run[i], h) && FireInvalid(run[i], h) == Fire(run[i], h, expired)
    ensures Notifies(run[i], Fire(run[i], h, expired), h)
    ensures forall c :: 0 <= c < |run[i].clients| && WatchedBy(run[i].clients[c], run[i].watches[h].id) ==>
              c == run[i].watches[h].thread
  {
    var s := run[i];
    RunKeepsInv(run, i);
    RunKeepsDelivery(run, i);
    FireRemovesAndNotifies(s, h, expired);
    RemovalNotifies(s, h);
    forall c | 0 <= c < |s.clients| && WatchedBy(s.clients[c], s.watches[h].id)
      ensures c == s.watches[h].thread
    {
      WatcherIsNotified(s, h, c);
    }
  }

  // ----- Stopping -----

  ghost predicate Stops(p: Phase, w: nat, id: nat, after: After) {
    (p.Searching? || p.Adding? || p.Stopping?) && p.watcher == w && p.id == id && p.after == after
  }

  /** Stopping is over: what was to happen after it has happened, or is to happen now. */
  ghost predicate StopEnds(s: State, s': State, c: nat, w: nat, id: nat, after: After)
    requires c < |s.clients| && c < |s'.clients|
  {
    && s'.clients[c].watching == s.clients[c].watching - {w}
    && s'.clients[c].phase == (if after.Restart? then Drawing(w, after.handle) else Ready)
    && (if after.Abort? then s'.ran == s.ran + [id] && s'.stopped == s.stopped
        else s'.ran == s.ran && s'.stopped == s.stopped + {id})
  }

  lemma FinishEnds(s: State, c: nat, w: nat, id: nat, after: After)
    requires c < |s.clients|
    ensures |Finish(s, c, w, id, after).clients| == |s.clients|
    ensures StopEnds(s, Finish(s, c, w, id, after), c, w, id, after)
  {
  }

  lemma OwnStopGoesOn(s: State, e: ClientEvent, w: nat, id: nat, after: After)
    requires ClientEnabled(s, e) && e.c < |s.clients| == |ClientApply(s, e).clients|
    requires Stops(s.clients[e.c].phase, w, id, after)
    ensures
      var s' := ClientApply(s, e);
      Stops(s'.clients[e.c].phase, w, id, after) || StopEnds(s, s', e.c, w, id, after)
  {
    match e
    case EEraseRequest(c, i) => FinishEnds(TakeOut(s, i, id), c, w, id, after);
    case EAwake(c) => FinishEnds(s, c, w, id, after);
    case _ =>
  }

  lemma ClientStopGoesOn(s: State, e: ClientEvent, c: nat, w: nat, id: nat, after: After)
    requires ClientEnabled(s, e) && c < |s.clients| && Stops(s.clients[c].phase, w, id, after)
    ensures |ClientApply(s, e).clients| == |s.clients|
    ensures Stops(ClientApply(s, e).clients[c].phase, w, id, after) || StopEnds(s, ClientApply(s, e), c, w, id, after)
  {
    ClientStepIsOwn(s, e);
    if e.c == c {
      OwnStopGoesOn(s, e, w, id, after);
    } else {
      assert ClientApply(s, e).clients[c] == s.clients[c];
    }
  }

  lemma NotifyKeepsPhases(s: State, h: nat)
    ensures |RemoveAndNotify(s, h).clients| == |s.clients|
    ensures forall c :: 0 <= c < |s.clients| ==> RemoveAndNotify(s, h).clients[c].phase == s.clients[c].phase
  {
  }

  lemma SignalStopGoesOn(s: State, c: nat, w: nat, id: nat, after: After)
    requires CanProcessStop(s) && c < |s.clients| && Stops(s.clients[c].phase, w, id, after)
    ensures |Signal(s).clients| == |s.clients| && Stops(Signal(s).clients[c].phase, w, id, after)
  {
  }

  lemma WatcherStopGoesOn(s: State, e: WatcherEvent, c: nat, w: nat, id: nat, after: After)
    requires WatcherEnabled(s, e) && c < |s.clients| && Stops(s.clients[c].phase, w, id, after)
    ensures |WatcherApply(s, e).clients| == |s.clients|
    ensures Stops(WatcherApply(s, e).clients[c].phase, w, id, after)
  {
    match e
    case EProcessStart => NotifyKeepsPhases(s, s.backend.batch[0].watch.handle);
    case EProcessStop => SignalStopGoesOn(StopWatch(s, s.backend.batch[0].id), c, w, id, after);
    case EFire(h, _) => NotifyKeepsPhases(s, h);
    case EFireInvalid(h) => NotifyKeepsPhases(s.(handlers := s.handlers - {h}), h);
    case _ => assert WatcherApply(s, e).clients == s.clients;
  }

  /** In every step of every run: a stop that is under way goes on for the same HandleWatcher, the same watch and with
      the same end in view, or ends so: the watch let go, the callback run if the message loop is going away and barred
      otherwise, and the new watch begun if there is to be one. */
  lemma StopGoesThrough(run: seq<State>, i: nat, c: nat, w: nat, id: nat, after: After)
    requires IsRun(run) && i + 1 < |run| && c < |run[i].clients| && Stops(run[i].clients[c].phase, w, id, after)
    ensures c < |run[i + 1].clients|
    ensures Stops(run[i + 1].clients[c].phase, w, id, after) || StopEnds(run[i], run[i + 1], c, w, id, after)
  {
    assert StepAt(run, i);
    var e :| Enabled(run[i], e) && run[i + 1] == Apply(run[i], e);
    match e
    case ClientStep(x) => ClientStopGoesOn(run[i], x, c, w, id, after);
    case WatcherStep(x) => WatcherStopGoesOn(run[i], x, c, w, id, after);
  }

  /** Stop, destruction and the end of the message loop begin such a stop, and so does Start on a HandleWatcher that
      has a watch. */
  lemma StopBegins(s: State, c: nat, w: nat, after: After)
    requires c < |s.clients| && s.clients[c].phase.Ready? && w in s.clients[c].watching
    ensures
      if after.Restart?
      then CanStart(s, c) && Stops(Start(s, c, w, after.handle).clients[c].phase, w, s.clients[c].watching[w], after)
      else CanReset(s, c, w, after) && Stops(Reset(s, c, w, after).clients[c].phase, w, s.clients[c].watching[w], after)
  {
  }

  // ----- Tasks for the watcher thread -----

  ghost predicate BeginsToPost(x: Client, x': Client) {
    !Posts(x) && Posts(x')
  }

  ghost predicate HasPosted(x: Client, x': Client) {
    Posts(x) && !Posts(x')
  }

  /** Some thread was to post a task and has now posted it; or found the vector empty and is now to post one. */
  ghost predicate SomeoneHasPosted(s: State, s': State) {
    |s'.clients| == |s.clients| && exists c :: 0 <= c < |s.clients| && HasPosted(s.clients[c], s'.clients[c])
  }

  ghost predicate SomeoneBeginsToPost(s: State, s': State) {
    |s'.clients| == |s.clients| && exists c :: 0 <= c < |s.clients| && BeginsToPost(s.clients[c], s'.clients[c])
  }

  ghost predicate TasksAddUp(s: State, s': State) {
    && s'.tasks == s.tasks + One(SomeoneHasPosted(s, s')) - One(s.backend.Resting? && s'.backend.Woken?)
    && (SomeoneBeginsToPost(s, s') <==> s.requests == [] && s'.requests != [])
  }

  /** A step of thread c changes only thread c. */
  lemma OnlyOneThread(s: State, s': State, c: nat)
    requires c < |s.clients| == |s'.clients| && s'.clients == s.clients[c := s'.clients[c]]
    ensures SomeoneHasPosted(s, s') <==> HasPosted(s.clients[c], s'.clients[c])
    ensures SomeoneBeginsToPost(s, s') <==> BeginsToPost(s.clients[c], s'.clients[c])
  {
  }

  lemma ClientStepIsOwn(s: State, e: ClientEvent)
    requires ClientEnabled(s, e)
    ensures e.c < |s.clients| == |ClientApply(s, e).clients|
    ensures ClientApply(s, e).clients == s.clients[e.c := ClientApply(s, e).clients[e.c]]
    ensures ClientApply(s, e).backend == s.backend
    ensures ClientApply(s, e).tasks == s.tasks + One(e.EPost?)
  {
  }

  lemma ClientPosts(s: State, e: ClientEvent)
    requires ClientEnabled(s, e) && e.c < |s.clients| == |ClientApply(s, e).clients|
    ensures HasPosted(s.clients[e.c], ClientApply(s, e).clients[e.c]) <==> e.EPost?
    ensures BeginsToPost(s.clients[e.c], ClientApply(s, e).clients[e.c])
      <==> s.requests == [] && ClientApply(s, e).requests != []
  {
    match e
    case EEraseRequest(c, i) => assert s.requests != [];
    case EAddStart(c) => assert ClientApply(s, e).requests != [];
    case EAddStop(c) => assert ClientApply(s, e).requests != [];
    case _ => assert ClientApply(s, e).requests == s.requests;
  }

  lemma ClientTasksAddUp(s: State, e: ClientEvent)
    requires ClientEnabled(s, e)
    ensures TasksAddUp(s, ClientApply(s, e))
  {
    ClientStepIsOwn(s, e);
    OnlyOneThread(s, ClientApply(s, e), e.c);
    ClientPosts(s, e);
  }

  ghost predicate SamePosts(clients: seq<Client>, clients': seq<Client>) {
    |clients'| == |clients| && forall c :: 0 <= c < |clients| ==> (Posts(clients'[c]) <==> Posts(clients[c]))
  }

  lemma NotifyPostsNothing(s: State, h: nat)
    ensures
      var s' := RemoveAndNotify(s, h);
      SamePosts(s.clients, s'.clients) && s'.tasks == s.tasks && s'.requests == s.requests && s'.backend == s.backend
  {
  }

  lemma SignalPostsNothing(s: State)
    requires CanProcessStop(s)
    ensures
      var s' := Signal(s);
      SamePosts(s.clients, s'.clients) && s'.tasks == s.tasks && s'.requests == s.requests && s'.backend.Working?
  {
  }

  lemma WatcherTasksAddUp(s: State, e: WatcherEvent)
    requires WatcherEnabled(s, e)
    ensures TasksAddUp(s, WatcherApply(s, e))
  {
    match e
    case EProcessStart => NotifyPostsNothing(s, s.backend.batch[0].watch.handle);
    case EProcessStop => SignalPostsNothing(StopWatch(s, s.backend.batch[0].id));
    case EFire(h, _) => NotifyPostsNothing(s, h);
    case EFireInvalid(h) => NotifyPostsNothing(s.(handlers := s.handlers - {h}), h);
    case _ => assert WatcherApply(s, e).clients == s.clients;
  }

  /** In every step of every run: a processing task is there more exactly when a thread has posted it, and one less
      exactly when the watcher thread starts on it; and a thread is to post one exactly when its request goes into an
      empty vector. */
  lemma TasksArePostedAndTaken(run: seq<State>, i: nat)
    requires IsRun(run) && i + 1 < |run|
    ensures
      var s, s' := run[i], run[i + 1];
      && s'.tasks == s.tasks + One(SomeoneHasPosted(s, s')) - One(s.backend.Resting? && s'.backend.Woken?)
      && (SomeoneBeginsToPost(s, s') <==> s.requests == [] && s'.requests != [])
  {
    assert StepAt(run, i);
    var e :| Enabled(run[i], e) && run[i + 1] == Apply(run[i], e);
    match e
    case ClientStep(x) => ClientTasksAddUp(run[i], x);
    case WatcherStep(x) => WatcherTasksAddUp(run[i], x);
  }

  // ----- Starting -----

  /** A HandleWatcher that has no watch ends up with a request for the handle that it was asked to watch, numbered
      freshly and to be notified on its own thread. */
  lemma StartAsksForItsHandle(s: State, c: nat, w: nat, h: nat)
    requires CanStart(s, c) && w !in s.clients[c].watching
    ensures CanDraw(Start(s, c, w, h), c) && CanAddStart(Draw(Start(s, c, w, h), c), c)
    ensures
      var s' := AddStart(Draw(Start(s, c, w, h), c), c);
      && s'.requests == s.requests + [StartRequest(Watch(|s.ids|, h, c))]
      && s'.clients[c].watching == s.clients[c].watching[w := |s.ids|]
  {
  }

  /** A thread that is to draw an id ends up with a request for the handle it was asked to watch. */
  lemma DrawnAsksForItsHandle(s: State, c: nat, w: nat, h: nat)
    requires c < |s.clients| && s.clients[c].phase == Drawing(w, h)
    ensures CanDraw(s, c) && CanAddStart(Draw(s, c), c)
    ensures AddStart(Draw(s, c), c).requests == s.requests + [StartRequest(Watch(|s.ids|, h, c))]
    ensures AddStart(Draw(s, c), c).clients[c].watching == s.clients[c].watching[w := |s.ids|]
  {
  }
}
