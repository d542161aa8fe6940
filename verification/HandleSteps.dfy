/** Every step of handle watching keeps the invariant. */
module HandleSteps {
  import opened Wrappers
  import opened HandleWatching
  import opened HandleInvariant

  // ----- Moving one id from one place to another -----

  /** The places that an id neither leaves nor enters are not concerned. */
  lemma Elsewhere(s: State, id: nat, place: Place)
    requires PlacesOk(s) && id < |s.ids|
    ensures var ids := s.ids[id := s.ids[id].(place := place)];
            && (!s.ids[id].place.Flying? && !place.Flying? ==> FlyingOk(s.clients, ids))
            && (!s.ids[id].place.Queued? && !place.Queued? ==> QueueOk(s.requests, ids, Queued))
            && (!s.ids[id].place.Batched? && !place.Batched? ==> QueueOk(Batch(s), ids, Batched))
            && (!s.ids[id].place.Mapped? && !place.Mapped? ==> MapOk(s.watches, ids))
            && (!s.ids[id].place.Notified? && !place.Notified? ==> NotifiedOk(s.notified, ids))
            && (!s.ids[id].place.Dropped? && !place.Dropped? ==> DroppedOk(s.dropped, ids))
  {
  }

  lemma SamePlaces(s: State, ids: seq<Record>)
    requires PlacesOk(s) && |ids| == |s.ids| && forall id :: 0 <= id < |ids| ==> ids[id].place == s.ids[id].place
    ensures FlyingOk(s.clients, ids) && QueueOk(s.requests, ids, Queued) && QueueOk(Batch(s), ids, Batched)
    ensures MapOk(s.watches, ids) && NotifiedOk(s.notified, ids) && DroppedOk(s.dropped, ids)
  {
  }

  lemma StartsAppend(requests: seq<Request>, r: Request)
    ensures forall id :: Starts(requests, id) ==> Starts(requests + [r], id)
    ensures r.StartRequest? ==> Starts(requests + [r], r.watch.id)
  {
    forall id | Starts(requests, id)
      ensures Starts(requests + [r], id)
    {
      var i :| 0 <= i < |requests| && StartsAt(requests, i, id);
      assert StartsAt(requests + [r], i, id);
    }
    if r.StartRequest? {
      assert StartsAt(requests + [r], |requests|, r.watch.id);
    }
  }

  lemma StartsErase(requests: seq<Request>, k: nat)
    requires k < |requests|
    ensures forall id :: Starts(requests, id) && !StartsAt(requests, k, id) ==>
              Starts(requests[..k] + requests[k + 1..], id)
  {
    var rest := requests[..k] + requests[k + 1..];
    forall id | Starts(requests, id) && !StartsAt(requests, k, id)
      ensures Starts(rest, id)
    {
      var i :| 0 <= i < |requests| && StartsAt(requests, i, id);
      assert StartsAt(rest, if i < k then i else i - 1, id);
    }
  }

  lemma StartsTail(requests: seq<Request>)
    requires requests != []
    ensures forall id :: Starts(requests, id) && !StartsAt(requests, 0, id) ==> Starts(requests[1..], id)
  {
    StartsErase(requests, 0);
    assert requests[..0] + requests[0 + 1..] == requests[1..];
  }

  lemma FlyingSame(clients: seq<Client>, clients': seq<Client>, ids: seq<Record>)
    requires FlyingOk(clients, ids) && |clients'| == |clients|
    requires forall c :: 0 <= c < |clients| ==> clients'[c].phase == clients[c].phase
    ensures FlyingOk(clients', ids)
  {
  }

  lemma MapRemove(watches: map<nat, Watch>, ids: seq<Record>, h: nat, place: Place)
    requires MapOk(watches, ids) && h in watches && !place.Mapped?
    ensures MapOk(watches - {h}, ids[watches[h].id := ids[watches[h].id].(place := place)])
  {
  }

  lemma NotifiedAppend(notified: seq<nat>, ids: seq<Record>, id: nat)
    requires NotifiedOk(notified, ids) && id < |ids| && !ids[id].place.Notified?
    ensures NotifiedOk(notified + [id], ids[id := ids[id].(place := Notified(|notified|))])
  {
  }

  // ----- Letting go of an id -----

  lemma HoldersLetGo(clients: seq<Client>, ids: seq<Record>, c: nat, w: nat, x: Client)
    requires HoldersOk(clients, ids) && c < |clients| && w in clients[c].watching
    requires Settled(ids, clients[c].watching[w]) && x.watching == clients[c].watching - {w}
    ensures var id := clients[c].watching[w];
            HoldersOk(clients[c := x], ids[id := ids[id].(holder := Nobody)])
  {
    var id := clients[c].watching[w];
    var clients', ids' := clients[c := x], ids[id := ids[id].(holder := Nobody)];
    forall d, v | 0 <= d < |clients'| && v in clients'[d].watching
      ensures clients'[d].watching[v] < |ids'| && ids'[clients'[d].watching[v]].holder == Held(d, v)
      ensures !ids'[clients'[d].watching[v]].place.Flying?
    {
      assert v in clients[d].watching && clients'[d].watching[v] == clients[d].watching[v];
      assert ids[clients[d].watching[v]].holder == Held(d, v) && ids[id].holder == Held(c, w);
    }
  }

  lemma HoldersMove(clients: seq<Client>, clients': seq<Client>, ids: seq<Record>, id: nat, place: Place)
    requires HoldersOk(clients, ids) && |clients'| == |clients|
    requires forall c :: 0 <= c < |clients| ==> clients'[c].watching == clients[c].watching
    requires id < |ids| && !ids[id].place.Flying? && (place.Notified? || place.Dropped?)
    ensures HoldersOk(clients', ids[id := ids[id].(place := place)])
  {
  }

  // ----- Threads that are not concerned by a step -----

  lemma PhaseStays(s: State, s': State, d: nat)
    requires d < |s.clients| && d < |s'.clients| && PhaseOk(s, d, s.clients[d])
    requires s'.clients[d].phase == s.clients[d].phase && s'.clients[d].watching == s.clients[d].watching
    requires |s.ids| <= |s'.ids|
    requires forall id :: Underway(s.ids, id) ==> Underway(s'.ids, id)
    requires forall id :: Settled(s.ids, id) ==> Settled(s'.ids, id)
    requires s.clients[d].phase.Numbered? && s.clients[d].phase.watch.id < |s.ids| ==>
               s'.ids[s.clients[d].phase.watch.id].holder == s.ids[s.clients[d].phase.watch.id].holder
    requires forall id :: StopRequest(id, d) in s.requests || StopRequest(id, d) in Batch(s) ==>
               StopRequest(id, d) in s'.requests || StopRequest(id, d) in Batch(s')
    ensures PhaseOk(s', d, s'.clients[d])
  {
  }

  lemma EraseKeeps(requests: seq<Request>, k: nat, r: Request)
    requires k < |requests| && r in requests && r != requests[k]
    ensures r in requests[..k] + requests[k + 1..] && (k == 0 ==> r in requests[1..])
  {
    var i :| 0 <= i < |requests| && requests[i] == r;
    var rest := requests[..k] + requests[k + 1..];
    assert rest[if i < k then i else i - 1] == r;
    assert k == 0 ==> rest == requests[1..];
  }

  lemma KeepsWake(s: State, s': State)
    requires WakeOk(s)
    requires s'.requests != [] ==> s.requests != []
    requires s.tasks <= s'.tasks && (s.backend.Woken? ==> s'.backend.Woken?)
    requires |s'.clients| == |s.clients|
    requires forall c :: 0 <= c < |s.clients| && Posts(s.clients[c]) ==> Posts(s'.clients[c])
    ensures WakeOk(s')
  {
    if s'.requests != [] && SomeonePosts(s) {
      var c :| 0 <= c < |s.clients| && Posts(s.clients[c]);
      assert Posts(s'.clients[c]);
    }
  }

  ghost predicate CanFinish(s: State, c: nat, w: nat, id: nat, after: After) {
    && c < |s.clients| && Settled(s.ids, id)
    && (|| s.clients[c].phase.Searching?
        || (s.clients[c].phase.Stopping? && s.clients[c].phase.signalled && !s.clients[c].phase.mustPost))
    && s.clients[c].phase.watcher == w && s.clients[c].phase.id == id && s.clients[c].phase.after == after
  }

  lemma StartPlaces(s: State, c: nat, w: nat, h: nat)
    requires PlacesOk(s) && CanStart(s, c)
    ensures PlacesOk(Start(s, c, w, h))
  {
  }

  lemma StartPhases(s: State, c: nat, w: nat, h: nat)
    requires PlacesOk(s) && ThreadsOk(s) && StopsOk(s) && CanStart(s, c)
    ensures PhasesOk(Start(s, c, w, h))
  {
  }

  lemma StartOthers(s: State, c: nat, w: nat, h: nat)
    requires PlacesOk(s) && PumpOk(s) && ThreadsOk(s) && StopsOk(s) && CallbacksOk(s.ran, s.stopped, s.ids)
    requires CanStart(s, c)
    ensures
      var s' := Start(s, c, w, h);
      && TasksOk(s'.clients, s'.ids) && HoldersOk(s'.clients, s'.ids) && StopsOk(s') && PumpOk(s')
      && CallbacksOk(s'.ran, s'.stopped, s'.ids)
  {
  }

  lemma StartInv(s: State, c: nat, w: nat, h: nat)
    requires Inv(s) && CanStart(s, c)
    ensures Inv(Start(s, c, w, h))
  {
    StartPlaces(s, c, w, h);
    StartPhases(s, c, w, h);
    StartOthers(s, c, w, h);
    KeepsWake(s, Start(s, c, w, h));
  }

  lemma ResetPlaces(s: State, c: nat, w: nat, after: After)
    requires PlacesOk(s) && CanReset(s, c, w, after)
    ensures PlacesOk(Reset(s, c, w, after))
  {
  }

  lemma ResetPhases(s: State, c: nat, w: nat, after: After)
    requires PhasesOk(s) && CanReset(s, c, w, after)
    ensures PhasesOk(Reset(s, c, w, after))
  {
  }

  lemma ResetOthers(s: State, c: nat, w: nat, after: After)
    requires PlacesOk(s) && PumpOk(s) && ThreadsOk(s) && StopsOk(s) && CallbacksOk(s.ran, s.stopped, s.ids)
    requires CanReset(s, c, w, after)
    ensures
      var s' := Reset(s, c, w, after);
      && TasksOk(s'.clients, s'.ids) && HoldersOk(s'.clients, s'.ids) && StopsOk(s') && PumpOk(s')
      && CallbacksOk(s'.ran, s'.stopped, s'.ids)
  {
  }

  lemma ResetInv(s: State, c: nat, w: nat, after: After)
    requires Inv(s) && CanReset(s, c, w, after)
    ensures Inv(Reset(s, c, w, after))
  {
    ResetPlaces(s, c, w, after);
    ResetPhases(s, c, w, after);
    ResetOthers(s, c, w, after);
    KeepsWake(s, Reset(s, c, w, after));
  }

  lemma RunTaskPlaces(s: State, c: nat)
    requires PlacesOk(s) && CanRunTask(s, c)
    ensures PlacesOk(RunTask(s, c))
  {
    SamePlaces(s, RunTask(s, c).ids);
  }

  lemma RunTaskPhases(s: State, c: nat)
    requires PlacesOk(s) && ThreadsOk(s) && StopsOk(s) && CanRunTask(s, c)
    ensures PhasesOk(RunTask(s, c))
  {
    var s' := RunTask(s, c);
    forall d: nat | d < |s.clients| && d != c
      ensures PhaseOk(s', d, s'.clients[d])
    {
      PhaseStays(s, s', d);
    }
  }

  lemma RunTaskTasks(s: State, c: nat)
    requires TasksOk(s.clients, s.ids) && CanRunTask(s, c)
    ensures TasksOk(RunTask(s, c).clients, RunTask(s, c).ids)
  {
  }

  lemma RunTaskHolders(s: State, c: nat)
    requires TasksOk(s.clients, s.ids) && HoldersOk(s.clients, s.ids) && CanRunTask(s, c)
    ensures HoldersOk(RunTask(s, c).clients, RunTask(s, c).ids)
  {
    var x := s.clients[c];
    var id := x.tasks[0];
    var s' := RunTask(s, c);
    if exists w :: w in x.watching && x.watching[w] == id {
      var w :| w in x.watching && x.watching[w] == id;
      forall v | v in x.watching && x.watching[v] == id
        ensures v == w
      {
        assert s.ids[x.watching[v]].holder == Held(c, v) && s.ids[x.watching[w]].holder == Held(c, w);
      }
      assert s'.clients[c].watching == x.watching - {w};
      HoldersLetGo(s.clients, s.ids, c, w, s'.clients[c]);
    } else {
      assert s'.clients[c].watching == x.watching;
    }
  }

  lemma RunTaskStops(s: State, c: nat)
    requires StopsOk(s) && CanRunTask(s, c)
    ensures StopsOk(RunTask(s, c))
  {
  }

  lemma RunTaskRest(s: State, c: nat)
    requires PumpOk(s) && FlyingOk(s.clients, s.ids) && ThreadsOk(s) && CallbacksOk(s.ran, s.stopped, s.ids)
    requires CanRunTask(s, c)
    ensures PumpOk(RunTask(s, c)) && CallbacksOk(RunTask(s, c).ran, RunTask(s, c).stopped, RunTask(s, c).ids)
  {
  }

  lemma RunTaskInv(s: State, c: nat)
    requires Inv(s) && CanRunTask(s, c)
    ensures Inv(RunTask(s, c))
  {
    RunTaskPlaces(s, c);
    RunTaskPhases(s, c);
    RunTaskTasks(s, c);
    RunTaskHolders(s, c);
    RunTaskStops(s, c);
    RunTaskRest(s, c);
    KeepsWake(s, RunTask(s, c));
  }

  lemma DrawPlaces(s: State, c: nat)
    requires PlacesOk(s) && CanDraw(s, c)
    ensures PlacesOk(Draw(s, c))
  {
  }

  lemma DrawPhases(s: State, c: nat)
    requires PlacesOk(s) && ThreadsOk(s) && StopsOk(s) && CanDraw(s, c)
    ensures PhasesOk(Draw(s, c))
  {
    var s' := Draw(s, c);
    forall d: nat | d < |s.clients| && d != c
      ensures PhaseOk(s', d, s'.clients[d])
    {
      PhaseStays(s, s', d);
    }
  }

  lemma DrawHolders(s: State, c: nat)
    requires PlacesOk(s) && ThreadsOk(s) && CanDraw(s, c)
    ensures TasksOk(Draw(s, c).clients, Draw(s, c).ids) && HoldersOk(Draw(s, c).clients, Draw(s, c).ids)
  {
  }

  lemma DrawStops(s: State, c: nat)
    requires PlacesOk(s) && ThreadsOk(s) && StopsOk(s) && CanDraw(s, c)
    ensures StopsOk(Draw(s, c))
  {
  }

  lemma DrawRest(s: State, c: nat)
    requires PlacesOk(s) && PumpOk(s) && CallbacksOk(s.ran, s.stopped, s.ids) && CanDraw(s, c)
    ensures PumpOk(Draw(s, c)) && CallbacksOk(Draw(s, c).ran, Draw(s, c).stopped, Draw(s, c).ids)
  {
  }

  lemma DrawInv(s: State, c: nat)
    requires Inv(s) && CanDraw(s, c)
    ensures Inv(Draw(s, c))
  {
    DrawPlaces(s, c);
    DrawPhases(s, c);
    DrawHolders(s, c);
    DrawStops(s, c);
    DrawRest(s, c);
    KeepsWake(s, Draw(s, c));
  }

  lemma AddStartPlaces(s: State, c: nat)
    requires PlacesOk(s) && CanAddStart(s, c)
    ensures PlacesOk(AddStart(s, c))
  {
    var id := s.clients[c].phase.watch.id;
    Elsewhere(s, id, Queued);
    StartsAppend(s.requests, StartRequest(s.clients[c].phase.watch));
  }

  lemma AddStartPhases(s: State, c: nat)
    requires PlacesOk(s) && ThreadsOk(s) && StopsOk(s) && CanAddStart(s, c)
    ensures PhasesOk(AddStart(s, c))
  {
    var s' := AddStart(s, c);
    forall d: nat | d < |s.clients| && d != c
      ensures PhaseOk(s', d, s'.clients[d])
    {
      PhaseStays(s, s', d);
    }
  }

  lemma AddStartTasks(s: State, c: nat)
    requires TasksOk(s.clients, s.ids) && FlyingOk(s.clients, s.ids) && CanAddStart(s, c)
    ensures TasksOk(AddStart(s, c).clients, AddStart(s, c).ids)
  {
  }

  lemma AddStartHolders(s: State, c: nat)
    requires HoldersOk(s.clients, s.ids) && FlyingOk(s.clients, s.ids) && CanAddStart(s, c)
    requires PhaseOk(s, c, s.clients[c])
    ensures HoldersOk(AddStart(s, c).clients, AddStart(s, c).ids)
  {
  }

  lemma AddStartStops(s: State, c: nat)
    requires FlyingOk(s.clients, s.ids) && StopsOk(s) && CanAddStart(s, c)
    ensures StopsOk(AddStart(s, c))
  {
  }

  lemma AddStartRest(s: State, c: nat)
    requires PumpOk(s) && FlyingOk(s.clients, s.ids) && ThreadsOk(s) && CallbacksOk(s.ran, s.stopped, s.ids)
    requires CanAddStart(s, c)
    ensures PumpOk(AddStart(s, c)) && CallbacksOk(AddStart(s, c).ran, AddStart(s, c).stopped, AddStart(s, c).ids)
  {
  }

  lemma AddStartInv(s: State, c: nat)
    requires Inv(s) && CanAddStart(s, c)
    ensures Inv(AddStart(s, c))
  {
    AddStartPlaces(s, c);
    AddStartPhases(s, c);
    AddStartTasks(s, c);
    AddStartHolders(s, c);
    AddStartStops(s, c);
    AddStartRest(s, c);
    assert s.requests == [] ==> Posts(AddStart(s, c).clients[c]);
    if s.requests != [] {
      KeepsWake(s, AddStart(s, c));
    }
  }

  lemma PostPlaces(s: State, c: nat)
    requires PlacesOk(s) && CanPost(s, c)
    ensures PlacesOk(Post(s, c))
  {
  }

  lemma PostPhases(s: State, c: nat)
    requires PlacesOk(s) && ThreadsOk(s) && StopsOk(s) && CanPost(s, c)
    ensures PhasesOk(Post(s, c))
  {
  }

  lemma PostOthers(s: State, c: nat)
    requires PlacesOk(s) && PumpOk(s) && ThreadsOk(s) && StopsOk(s) && CallbacksOk(s.ran, s.stopped, s.ids)
    requires CanPost(s, c)
    ensures
      var s' := Post(s, c);
      && TasksOk(s'.clients, s'.ids) && HoldersOk(s'.clients, s'.ids) && StopsOk(s') && PumpOk(s')
      && CallbacksOk(s'.ran, s'.stopped, s'.ids)
  {
  }

  lemma PostInv(s: State, c: nat)
    requires Inv(s) && CanPost(s, c)
    ensures Inv(Post(s, c))
  {
    PostPlaces(s, c);
    PostPhases(s, c);
    PostOthers(s, c);
  }

  lemma TakeOutPlaces(s: State, c: nat, i: nat)
    requires PlacesOk(s) && CanSearch(s, c) && SearchFinds(s, c, i)
    ensures PlacesOk(TakeOut(s, i, s.clients[c].phase.id))
  {
    Elsewhere(s, s.clients[c].phase.id, Dropped);
    StartsErase(s.requests, i);
  }

  lemma TakeOutPhases(s: State, c: nat, i: nat)
    requires PlacesOk(s) && ThreadsOk(s) && StopsOk(s) && CanSearch(s, c) && SearchFinds(s, c, i)
    ensures PhasesOk(TakeOut(s, i, s.clients[c].phase.id))
  {
    var s' := TakeOut(s, i, s.clients[c].phase.id);
    forall d: nat | d < |s.clients|
      ensures PhaseOk(s', d, s'.clients[d])
    {
      forall id: nat | StopRequest(id, d) in s.requests
        ensures StopRequest(id, d) in s'.requests
      {
        EraseKeeps(s.requests, i, StopRequest(id, d));
      }
      PhaseStays(s, s', d);
    }
  }

  lemma TakeOutHolders(s: State, c: nat, i: nat)
    requires TasksOk(s.clients, s.ids) && HoldersOk(s.clients, s.ids) && QueueOk(s.requests, s.ids, Queued)
    requires CanSearch(s, c) && SearchFinds(s, c, i)
    ensures
      var s' := TakeOut(s, i, s.clients[c].phase.id);
      TasksOk(s'.clients, s'.ids) && HoldersOk(s'.clients, s'.ids)
  {
  }

  lemma TakeOutStops(s: State, c: nat, i: nat)
    requires PlacesOk(s) && PhasesOk(s) && StopsOk(s) && CanSearch(s, c) && SearchFinds(s, c, i)
    ensures StopsOk(TakeOut(s, i, s.clients[c].phase.id))
  {
  }

  lemma TakeOutRest(s: State, c: nat, i: nat)
    requires PumpOk(s) && FlyingOk(s.clients, s.ids) && ThreadsOk(s) && CallbacksOk(s.ran, s.stopped, s.ids)
    requires CanSearch(s, c) && SearchFinds(s, c, i)
    ensures
      var s' := TakeOut(s, i, s.clients[c].phase.id);
      PumpOk(s') && CallbacksOk(s'.ran, s'.stopped, s'.ids)
  {
  }

  lemma TakeOutInv(s: State, c: nat, i: nat)
    requires Inv(s) && CanSearch(s, c) && SearchFinds(s, c, i)
    ensures Inv(TakeOut(s, i, s.clients[c].phase.id))
  {
    TakeOutPlaces(s, c, i);
    TakeOutPhases(s, c, i);
    TakeOutHolders(s, c, i);
    TakeOutStops(s, c, i);
    TakeOutRest(s, c, i);
    KeepsWake(s, TakeOut(s, i, s.clients[c].phase.id));
  }

  lemma FinishPlaces(s: State, c: nat, w: nat, id: nat, after: After)
    requires PlacesOk(s) && CanFinish(s, c, w, id, after)
    ensures PlacesOk(Finish(s, c, w, id, after))
  {
    SamePlaces(s, Finish(s, c, w, id, after).ids);
  }

  lemma FinishPhases(s: State, c: nat, w: nat, id: nat, after: After)
    requires PlacesOk(s) && ThreadsOk(s) && StopsOk(s) && CanFinish(s, c, w, id, after)
    ensures PhasesOk(Finish(s, c, w, id, after))
  {
    var s' := Finish(s, c, w, id, after);
    forall d: nat | d < |s.clients| && d != c
      ensures PhaseOk(s', d, s'.clients[d])
    {
      PhaseStays(s, s', d);
    }
  }

  lemma FinishHolders(s: State, c: nat, w: nat, id: nat, after: After)
    requires TasksOk(s.clients, s.ids) && HoldersOk(s.clients, s.ids) && CanFinish(s, c, w, id, after)
    requires PhaseOk(s, c, s.clients[c])
    ensures
      var s' := Finish(s, c, w, id, after);
      TasksOk(s'.clients, s'.ids) && HoldersOk(s'.clients, s'.ids)
  {
    HoldersLetGo(s.clients, s.ids, c, w, Finish(s, c, w, id, after).clients[c]);
  }

  lemma FinishStops(s: State, c: nat, w: nat, id: nat, after: After)
    requires PlacesOk(s) && PhasesOk(s) && StopsOk(s) && CanFinish(s, c, w, id, after)
    ensures StopsOk(Finish(s, c, w, id, after))
  {
  }

  lemma FinishRest(s: State, c: nat, w: nat, id: nat, after: After)
    requires PumpOk(s) && FlyingOk(s.clients, s.ids) && ThreadsOk(s) && CallbacksOk(s.ran, s.stopped, s.ids)
    requires CanFinish(s, c, w, id, after)
    ensures
      var s' := Finish(s, c, w, id, after);
      PumpOk(s') && CallbacksOk(s'.ran, s'.stopped, s'.ids)
  {
  }

  lemma FinishInv(s: State, c: nat, w: nat, id: nat, after: After)
    requires Inv(s) && CanFinish(s, c, w, id, after)
    ensures Inv(Finish(s, c, w, id, after))
  {
    FinishPlaces(s, c, w, id, after);
    FinishPhases(s, c, w, id, after);
    FinishHolders(s, c, w, id, after);
    FinishStops(s, c, w, id, after);
    FinishRest(s, c, w, id, after);
    KeepsWake(s, Finish(s, c, w, id, after));
  }

  lemma GiveUpSearchPlaces(s: State, c: nat)
    requires PlacesOk(s) && CanSearch(s, c) && SearchFails(s, c)
    ensures PlacesOk(GiveUpSearch(s, c))
  {
  }

  lemma GiveUpSearchPhases(s: State, c: nat)
    requires PlacesOk(s) && ThreadsOk(s) && StopsOk(s) && CanSearch(s, c) && SearchFails(s, c)
    ensures PhasesOk(GiveUpSearch(s, c))
  {
    var s' := GiveUpSearch(s, c);
    forall d: nat | d < |s.clients| && d != c
      ensures PhaseOk(s', d, s'.clients[d])
    {
      PhaseStays(s, s', d);
    }
  }

  lemma GiveUpSearchOthers(s: State, c: nat)
    requires PlacesOk(s) && PumpOk(s) && ThreadsOk(s) && StopsOk(s) && CallbacksOk(s.ran, s.stopped, s.ids)
    requires CanSearch(s, c) && SearchFails(s, c)
    ensures
      var s' := GiveUpSearch(s, c);
      && TasksOk(s'.clients, s'.ids) && HoldersOk(s'.clients, s'.ids) && StopsOk(s') && PumpOk(s')
      && CallbacksOk(s'.ran, s'.stopped, s'.ids)
  {
  }

  lemma GiveUpSearchInv(s: State, c: nat)
    requires Inv(s) && CanSearch(s, c) && SearchFails(s, c)
    ensures Inv(GiveUpSearch(s, c))
  {
    GiveUpSearchPlaces(s, c);
    GiveUpSearchPhases(s, c);
    GiveUpSearchOthers(s, c);
    KeepsWake(s, GiveUpSearch(s, c));
  }

  lemma AddStopPlaces(s: State, c: nat)
    requires PlacesOk(s) && CanAddStop(s, c)
    ensures PlacesOk(AddStop(s, c))
  {
    StartsAppend(s.requests, StopRequest(s.clients[c].phase.id, c));
  }

  lemma AddStopPhases(s: State, c: nat)
    requires PlacesOk(s) && ThreadsOk(s) && StopsOk(s) && CanAddStop(s, c)
    ensures PhasesOk(AddStop(s, c))
  {
    var s' := AddStop(s, c);
    forall d: nat | d < |s.clients| && d != c
      ensures PhaseOk(s', d, s'.clients[d])
    {
      PhaseStays(s, s', d);
    }
  }

  lemma AddStopHolders(s: State, c: nat)
    requires TasksOk(s.clients, s.ids) && HoldersOk(s.clients, s.ids) && CanAddStop(s, c)
    ensures TasksOk(AddStop(s, c).clients, AddStop(s, c).ids) && HoldersOk(AddStop(s, c).clients, AddStop(s, c).ids)
  {
  }

  lemma AddStopStops(s: State, c: nat)
    requires PlacesOk(s) && PhasesOk(s) && StopsOk(s) && CanAddStop(s, c)
    ensures StopsOk(AddStop(s, c))
  {
  }

  lemma AddStopRest(s: State, c: nat)
    requires PumpOk(s) && FlyingOk(s.clients, s.ids) && ThreadsOk(s) && CallbacksOk(s.ran, s.stopped, s.ids)
    requires CanAddStop(s, c)
    ensures PumpOk(AddStop(s, c)) && CallbacksOk(AddStop(s, c).ran, AddStop(s, c).stopped, AddStop(s, c).ids)
  {
  }

  lemma AddStopInv(s: State, c: nat)
    requires Inv(s) && CanAddStop(s, c)
    ensures Inv(AddStop(s, c))
  {
    AddStopPlaces(s, c);
    AddStopPhases(s, c);
    AddStopHolders(s, c);
    AddStopStops(s, c);
    AddStopRest(s, c);
    assert s.requests == [] ==> Posts(AddStop(s, c).clients[c]);
    if s.requests != [] {
      KeepsWake(s, AddStop(s, c));
    }
  }

  lemma WakeInv(s: State)
    requires Inv(s) && CanWake(s)
    ensures Inv(Wake(s))
  {
  }

  lemma SwapPlaces(s: State)
    requires PlacesOk(s) && CanSwap(s)
    ensures PlacesOk(Swap(s))
  {
  }

  lemma SwapPhases(s: State)
    requires PlacesOk(s) && ThreadsOk(s) && StopsOk(s) && CanSwap(s)
    ensures PhasesOk(Swap(s))
  {
    var s' := Swap(s);
    forall d: nat | d < |s.clients|
      ensures PhaseOk(s', d, s'.clients[d])
    {
      PhaseStays(s, s', d);
    }
  }

  lemma SwapHolders(s: State)
    requires TasksOk(s.clients, s.ids) && HoldersOk(s.clients, s.ids) && CanSwap(s)
    ensures TasksOk(Swap(s).clients, Swap(s).ids) && HoldersOk(Swap(s).clients, Swap(s).ids)
  {
  }

  lemma SwapStops(s: State)
    requires PlacesOk(s) && PhasesOk(s) && StopsOk(s) && CanSwap(s)
    ensures StopsOk(Swap(s))
  {
  }

  lemma SwapRest(s: State)
    requires PumpOk(s) && FlyingOk(s.clients, s.ids) && ThreadsOk(s) && CallbacksOk(s.ran, s.stopped, s.ids)
    requires CanSwap(s)
    ensures PumpOk(Swap(s)) && CallbacksOk(Swap(s).ran, Swap(s).stopped, Swap(s).ids)
  {
  }

  lemma SwapInv(s: State)
    requires Inv(s) && CanSwap(s)
    ensures Inv(Swap(s))
  {
    SwapPlaces(s);
    SwapPhases(s);
    SwapHolders(s);
    SwapStops(s);
    SwapRest(s);
  }

  lemma InsertPlaces(s: State)
    requires PlacesOk(s) && CanProcessStart(s) && s.backend.batch[0].watch.handle !in s.watches
    ensures PlacesOk(Insert(s))
  {
    var watch := s.backend.batch[0].watch;
    Elsewhere(s, watch.id, Mapped(watch.handle));
    StartsTail(s.backend.batch);
  }

  lemma InsertPhases(s: State)
    requires PlacesOk(s) && ThreadsOk(s) && StopsOk(s) && CanProcessStart(s)
    requires s.backend.batch[0].watch.handle !in s.watches
    ensures PhasesOk(Insert(s))
  {
    var s' := Insert(s);
    forall d: nat | d < |s.clients|
      ensures PhaseOk(s', d, s'.clients[d])
    {
      forall id: nat | StopRequest(id, d) in s.backend.batch
        ensures StopRequest(id, d) in Batch(s')
      {
        EraseKeeps(s.backend.batch, 0, StopRequest(id, d));
      }
      PhaseStays(s, s', d);
    }
  }

  lemma InsertHolders(s: State)
    requires TasksOk(s.clients, s.ids) && HoldersOk(s.clients, s.ids) && QueueOk(Batch(s), s.ids, Batched)
    requires CanProcessStart(s) && s.backend.batch[0].watch.handle !in s.watches
    ensures TasksOk(Insert(s).clients, Insert(s).ids) && HoldersOk(Insert(s).clients, Insert(s).ids)
  {
  }

  lemma InsertStops(s: State)
    requires PlacesOk(s) && PhasesOk(s) && StopsOk(s) && CanProcessStart(s)
    requires s.backend.batch[0].watch.handle !in s.watches
    ensures StopsOk(Insert(s))
  {
  }

  lemma InsertRest(s: State)
    requires PumpOk(s) && FlyingOk(s.clients, s.ids) && ThreadsOk(s) && CallbacksOk(s.ran, s.stopped, s.ids)
    requires CanProcessStart(s) && s.backend.batch[0].watch.handle !in s.watches
    ensures PumpOk(Insert(s)) && CallbacksOk(Insert(s).ran, Insert(s).stopped, Insert(s).ids)
  {
  }

  lemma InsertInv(s: State)
    requires Inv(s) && CanProcessStart(s) && s.backend.batch[0].watch.handle !in s.watches
    ensures Inv(Insert(s))
  {
    InsertPlaces(s);
    InsertPhases(s);
    InsertHolders(s);
    InsertStops(s);
    InsertRest(s);
    KeepsWake(s, Insert(s));
  }

  lemma StopWatchPlaces(s: State)
    requires PlacesOk(s) && CanProcessStop(s)
    ensures PlacesOk(StopWatch(s, s.backend.batch[0].id))
  {
    var id := s.backend.batch[0].id;
    var found := FindHandle(s.watches, id);
    if found.Some? {
      Elsewhere(s, id, Dropped);
      MapRemove(s.watches, s.ids, found.value, Dropped);
    }
  }

  lemma StopWatchPhases(s: State)
    requires PhasesOk(s) && MapOk(s.watches, s.ids) && CanProcessStop(s)
    ensures PhasesOk(StopWatch(s, s.backend.batch[0].id))
  {
    var s' := StopWatch(s, s.backend.batch[0].id);
    forall d: nat | d < |s.clients|
      ensures PhaseOk(s', d, s'.clients[d])
    {
      PhaseStays(s, s', d);
    }
  }

  lemma StopWatchHolders(s: State)
    requires TasksOk(s.clients, s.ids) && HoldersOk(s.clients, s.ids) && MapOk(s.watches, s.ids) && CanProcessStop(s)
    ensures
      var s' := StopWatch(s, s.backend.batch[0].id);
      TasksOk(s'.clients, s'.ids) && HoldersOk(s'.clients, s'.ids)
  {
  }

  lemma StopWatchStops(s: State)
    requires PlacesOk(s) && PhasesOk(s) && StopsOk(s) && CanProcessStop(s)
    ensures StopsOk(StopWatch(s, s.backend.batch[0].id))
  {
  }

  lemma StopWatchRest(s: State)
    requires PumpOk(s) && FlyingOk(s.clients, s.ids) && ThreadsOk(s) && CallbacksOk(s.ran, s.stopped, s.ids)
    requires CanProcessStop(s)
    ensures
      var s' := StopWatch(s, s.backend.batch[0].id);
      PumpOk(s') && CallbacksOk(s'.ran, s'.stopped, s'.ids)
  {
  }

  lemma StopWatchInv(s: State)
    requires Inv(s) && CanProcessStop(s)
    ensures Inv(StopWatch(s, s.backend.batch[0].id))
  {
    StopWatchPlaces(s);
    StopWatchPhases(s);
    StopWatchHolders(s);
    StopWatchStops(s);
    StopWatchRest(s);
    KeepsWake(s, StopWatch(s, s.backend.batch[0].id));
  }

  lemma StopWatchSettles(s: State)
    requires PlacesOk(s) && PhasesOk(s) && StopsOk(s) && CanProcessStop(s)
    ensures Settled(StopWatch(s, s.backend.batch[0].id).ids, s.backend.batch[0].id)
  {
    var r := s.backend.batch[0];
    assert StopOk(s.clients, Batch(s)[0]);
    assert PhaseOk(s, r.thread, s.clients[r.thread]);
    assert Underway(s.ids, r.id) && !At(s.ids, r.id, Batched);
  }

  lemma SignalPlaces(s: State)
    requires PlacesOk(s) && CanProcessStop(s) && Settled(s.ids, s.backend.batch[0].id)
    ensures PlacesOk(Signal(s))
  {
    StartsTail(s.backend.batch);
  }

  lemma SignalPhases(s: State)
    requires PlacesOk(s) && ThreadsOk(s) && StopsOk(s) && CanProcessStop(s) && Settled(s.ids, s.backend.batch[0].id)
    ensures PhasesOk(Signal(s))
  {
    var s' := Signal(s);
    forall d: nat | d < |s.clients| && d != s.backend.batch[0].thread
      ensures PhaseOk(s', d, s'.clients[d])
    {
      forall id: nat | StopRequest(id, d) in s.backend.batch
        ensures StopRequest(id, d) in Batch(s')
      {
        EraseKeeps(s.backend.batch, 0, StopRequest(id, d));
      }
      PhaseStays(s, s', d);
    }
  }

  lemma SignalOthers(s: State)
    requires PlacesOk(s) && PumpOk(s) && ThreadsOk(s) && StopsOk(s) && CallbacksOk(s.ran, s.stopped, s.ids)
    requires CanProcessStop(s) && Settled(s.ids, s.backend.batch[0].id)
    ensures
      var s' := Signal(s);
      && TasksOk(s'.clients, s'.ids) && HoldersOk(s'.clients, s'.ids) && StopsOk(s') && PumpOk(s')
      && CallbacksOk(s'.ran, s'.stopped, s'.ids)
  {
  }

  lemma SignalInv(s: State)
    requires Inv(s) && CanProcessStop(s) && Settled(s.ids, s.backend.batch[0].id)
    ensures Inv(Signal(s))
  {
    SignalPlaces(s);
    SignalPhases(s);
    SignalOthers(s);
    KeepsWake(s, Signal(s));
  }

  lemma RemoveAndNotifyPlaces(s: State, h: nat)
    requires PlacesOk(s)
    ensures PlacesOk(RemoveAndNotify(s, h))
  {
    if h in s.watches {
      Elsewhere(s, s.watches[h].id, Notified(|s.notified|));
      MapRemove(s.watches, s.ids, h, Notified(|s.notified|));
      NotifiedAppend(s.notified, s.ids, s.watches[h].id);
      FlyingSame(s.clients, RemoveAndNotify(s, h).clients, RemoveAndNotify(s, h).ids);
    }
  }

  lemma RemoveAndNotifyPhases(s: State, h: nat)
    requires PhasesOk(s) && MapOk(s.watches, s.ids)
    ensures PhasesOk(RemoveAndNotify(s, h))
  {
    var s' := RemoveAndNotify(s, h);
    forall d: nat | d < |s.clients|
      ensures PhaseOk(s', d, s'.clients[d])
    {
      PhaseStays(s, s', d);
    }
  }

  lemma RemoveAndNotifyTasks(s: State, h: nat)
    requires TasksOk(s.clients, s.ids) && MapOk(s.watches, s.ids)
    ensures TasksOk(RemoveAndNotify(s, h).clients, RemoveAndNotify(s, h).ids)
  {
  }

  lemma RemoveAndNotifyHolders(s: State, h: nat)
    requires TasksOk(s.clients, s.ids) && HoldersOk(s.clients, s.ids) && MapOk(s.watches, s.ids)
    ensures HoldersOk(RemoveAndNotify(s, h).clients, RemoveAndNotify(s, h).ids)
  {
    if h in s.watches {
      HoldersMove(s.clients, RemoveAndNotify(s, h).clients, s.ids, s.watches[h].id, Notified(|s.notified|));
    }
  }

  lemma RemoveAndNotifyStops(s: State, h: nat)
    requires StopsOk(s) && MapOk(s.watches, s.ids)
    ensures StopsOk(RemoveAndNotify(s, h))
  {
  }

  lemma RemoveAndNotifyRest(s: State, h: nat)
    requires PumpOk(s) && FlyingOk(s.clients, s.ids) && ThreadsOk(s) && CallbacksOk(s.ran, s.stopped, s.ids)
    ensures
      var s' := RemoveAndNotify(s, h);
      PumpOk(s') && CallbacksOk(s'.ran, s'.stopped, s'.ids)
  {
  }

  lemma RemoveAndNotifyInv(s: State, h: nat)
    requires Inv(s)
    ensures Inv(RemoveAndNotify(s, h))
  {
    RemoveAndNotifyPlaces(s, h);
    RemoveAndNotifyPhases(s, h);
    RemoveAndNotifyTasks(s, h);
    RemoveAndNotifyHolders(s, h);
    RemoveAndNotifyStops(s, h);
    RemoveAndNotifyRest(s, h);
    KeepsWake(s, RemoveAndNotify(s, h));
  }

  lemma RestInv(s: State)
    requires Inv(s) && CanRest(s)
    ensures Inv(Rest(s))
  {
    KeepsWake(s, Rest(s));
  }
}
