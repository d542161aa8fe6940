/**
  The operations of the watcher thread and its manager from their first step to their last.  Every step they take is a
  step of the state machine, so what holds of all runs holds here; and the loops are seen to end.  Where a thread has
  to wait in StopWatching, the watcher thread takes its steps, whatever it was doing, and so does a thread that has
  still to post it a task.
 */
module HandleOperations {
  import opened Wrappers
  import opened HandleWatching
  import opened HandleInvariant
  import opened HandleTheorems

  ghost predicate Reached(run: seq<State>, s: State) {
    IsRun(run) && run[|run| - 1] == s
  }

  ghost predicate Next(s: State, s': State) {
    exists e :: Enabled(s, e) && s' == Apply(s, e)
  }

  lemma ReachedInv(run: seq<State>, s: State)
    requires Reached(run, s)
    ensures Inv(s)
  {
    RunKeepsInv(run, |run| - 1);
  }

  lemma ReachedNext(run: seq<State>, s: State, s': State)
    requires Reached(run, s) && Next(s, s')
    ensures Reached(run + [s'], s')
  {
    var longer := run + [s'];
    forall i | 0 <= i < |longer| - 1
      ensures StepAt(longer, i)
    {
      if i < |run| - 1 {
        assert StepAt(run, i);
        assert longer[i] == run[i] && longer[i + 1] == run[i + 1];
      } else {
        assert longer[i] == s && longer[i + 1] == s';
      }
    }
  }

  lemma IsNext(s: State, s': State, e: Event)
    requires Enabled(s, e) && s' == Apply(s, e)
    ensures Next(s, s')
  {
  }

  // ----- GetMojoHandleByWatcherID -----

  /** A walk over the map; the order does not matter. */
  method GetMojoHandleByWatcherID(watches: map<nat, Watch>, id: nat) returns (r: Option<nat>)
    ensures r.Some? ==> r.value in watches && watches[r.value].id == id
    ensures r.None? ==> forall h :: h in watches ==> watches[h].id != id
  {
    var rest := watches.Keys;
    while rest != {}
      invariant rest <= watches.Keys
      invariant forall h :: h in watches && h !in rest ==> watches[h].id != id
      decreases |rest|
    {
      var h :| h in rest;
      if watches[h].id == id {
        return Some(h);
      }
      rest := rest - {h};
    }
    return None;
  }

  /** WatcherBackend::StopWatching, once the handle is known. */
  function StopWatchAt(s: State, id: nat, handle: Option<nat>): State {
    match handle
    case None => s
    case Some(h) =>
      WithPlace(s, id, Dropped).(watches := s.watches - {h}, handlers := s.handlers - {h}, dropped := s.dropped + {id})
  }

  /** Ids do not repeat in the map, so it has at most one handle to find. */
  lemma FoundIsTheOne(s: State, id: nat, handle: Option<nat>)
    requires MapOk(s.watches, s.ids)
    requires handle.Some? ==> handle.value in s.watches && s.watches[handle.value].id == id
    requires handle.None? ==> forall h :: h in s.watches ==> s.watches[h].id != id
    ensures StopWatchAt(s, id, handle) == StopWatch(s, id)
  {
    var found := FindHandle(s.watches, id);
    if handle.Some? && found.Some? {
      assert At(s.ids, id, Mapped(handle.value)) && At(s.ids, id, Mapped(found.value));
    }
  }

  // ----- ProcessRequestsOnBackendThread -----

  /** A client goes on with what it was doing; at most its event was signalled or a task it had to post was posted. */
  ghost predicate GoesOn(x: Client, x': Client) {
    && x'.watching == x.watching
    && match x.phase
       case Posting => x'.phase.Posting? || x'.phase.Ready?
       case Stopping(w, id, after, mustPost, signalled) =>
         && x'.phase.Stopping? && x'.phase.watcher == w && x'.phase.id == id && x'.phase.after == after
         && (x'.phase.mustPost ==> mustPost) && (signalled ==> x'.phase.signalled)
       case _ => x'.phase == x.phase
  }

  ghost predicate AllGoOn(clients: seq<Client>, clients': seq<Client>) {
    |clients'| == |clients| && forall c :: 0 <= c < |clients| ==> GoesOn(clients[c], clients'[c])
  }

  lemma AllGoOnThen(a: seq<Client>, b: seq<Client>, c: seq<Client>)
    requires AllGoOn(a, b) && AllGoOn(b, c)
    ensures AllGoOn(a, c)
  {
    forall i | 0 <= i < |a|
      ensures GoesOn(a[i], c[i])
    {
      assert GoesOn(a[i], b[i]) && GoesOn(b[i], c[i]);
    }
  }

  ghost predicate Processing(s0: State, s: State) {
    && s.backend.Working? && s.requests == s0.requests && s.tasks == s0.tasks
    && |s.ids| == |s0.ids| && AllGoOn(s0.clients, s.clients)
  }

  lemma SwapRound(s: State)
    requires CanSwap(s)
    ensures Next(s, Swap(s))
  {
    IsNext(s, Swap(s), WatcherStep(ESwap));
  }

  lemma StartRound(s0: State, s: State)
    requires Processing(s0, s) && CanProcessStart(s)
    ensures Next(s, ProcessStart(s)) && Processing(s0, ProcessStart(s))
    ensures ProcessStart(s).backend.batch == s.backend.batch[1..]
  {
    IsNext(s, ProcessStart(s), WatcherStep(EProcessStart));
    RemoveGoesOn(s, s.backend.batch[0].watch.handle);
    AllGoOnThen(s0.clients, s.clients, ProcessStart(s).clients);
  }

  lemma RemoveGoesOn(s: State, h: nat)
    ensures
      var s' := RemoveAndNotify(s, h);
      && AllGoOn(s.clients, s'.clients) && s'.requests == s.requests && s'.backend == s.backend && |s'.ids| == |s.ids|
      && s'.tasks == s.tasks
  {
  }

  lemma StopRound(run: seq<State>, s0: State, s: State, handle: Option<nat>)
    requires Reached(run, s) && Processing(s0, s) && CanProcessStop(s)
    requires handle.Some? ==> handle.value in s.watches && s.watches[handle.value].id == s.backend.batch[0].id
    requires handle.None? ==> forall h :: h in s.watches ==> s.watches[h].id != s.backend.batch[0].id
    ensures CanProcessStop(StopWatchAt(s, s.backend.batch[0].id, handle))
    ensures
      var s' := Signal(StopWatchAt(s, s.backend.batch[0].id, handle));
      Next(s, s') && Processing(s0, s') && s'.backend.batch == s.backend.batch[1..]
  {
    ReachedInv(run, s);
    FoundIsTheOne(s, s.backend.batch[0].id, handle);
    IsNext(s, ProcessStop(s), WatcherStep(EProcessStop));
    SignalGoesOn(StopWatchAt(s, s.backend.batch[0].id, handle));
    AllGoOnThen(s0.clients, s.clients, ProcessStop(s).clients);
  }

  lemma SignalGoesOn(s: State)
    requires CanProcessStop(s)
    ensures AllGoOn(s.clients, Signal(s).clients)
  {
  }

  lemma RestRound(s0: State, s: State)
    requires Processing(s0, s) && s.backend.batch == []
    ensures Next(s, Rest(s))
  {
    IsNext(s, Rest(s), WatcherStep(ERest));
  }

  /** With no request left anywhere, every waiting thread has been signalled. */
  lemma AllSignalled(run: seq<State>, s: State)
    requires Reached(run, s) && s.requests == [] && Batch(s) == []
    ensures forall c :: 0 <= c < |s.clients| && s.clients[c].phase.Stopping? ==> s.clients[c].phase.signalled
  {
    NoLostWakeUp(run, |run| - 1);
  }

  // ----- StopWatching -----

  lemma SearchStarts(s: State, c: nat, w: nat)
    requires CanReset(s, c, w, Nothing)
    ensures Next(s, Reset(s, c, w, Nothing)) && CanSearch(Reset(s, c, w, Nothing), c)
  {
    IsNext(s, Reset(s, c, w, Nothing), ClientStep(EReset(c, w, Nothing)));
  }

  lemma EraseRound(s: State, c: nat, i: nat)
    requires CanSearch(s, c) && SearchFinds(s, c, i)
    ensures Next(s, EraseRequest(s, c, i))
  {
    IsNext(s, EraseRequest(s, c, i), ClientStep(EEraseRequest(c, i)));
  }

  /** The thread asks for the stop and, if the vector was empty, posts a processing task. */
  lemma AddStopRounds(s: State, c: nat)
    requires CanSearch(s, c) && SearchFails(s, c)
    ensures
      var s1 := GiveUpSearch(s, c);
      && Next(s, s1) && CanAddStop(s1, c)
      && var s2 := AddStop(s1, c);
      && Next(s1, s2) && (s2.clients[c].phase.mustPost ==> CanPost(s2, c) && Next(s2, Post(s2, c)))
  {
    var s1 := GiveUpSearch(s, c);
    IsNext(s, s1, ClientStep(EGiveUpSearch(c)));
    var s2 := AddStop(s1, c);
    IsNext(s1, s2, ClientStep(EAddStop(c)));
    if s2.clients[c].phase.mustPost {
      IsNext(s2, Post(s2, c), ClientStep(EPost(c)));
    }
  }

  lemma WakeRound(s: State)
    requires CanWake(s)
    ensures Next(s, Wake(s))
  {
    IsNext(s, Wake(s), WatcherStep(EWake));
  }

  lemma AwakeRound(s: State, c: nat)
    requires CanAwake(s, c)
    ensures Next(s, Awake(s, c))
  {
    IsNext(s, Awake(s, c), ClientStep(EAwake(c)));
  }

  /** The vector, which has the request of the waiting thread, has a task or a thread that is about to post one. */
  lemma TaskIsPending(run: seq<State>, s: State, c: nat)
    requires Reached(run, s) && s.backend.Resting? && c < |s.clients|
    requires s.clients[c].phase.Stopping? && !s.clients[c].phase.signalled
    ensures s.tasks > 0 || SomeonePosts(s)
  {
    NoLostWakeUp(run, |run| - 1);
  }

  lemma PostRound(s: State, d: nat)
    requires d < |s.clients| && Posts(s.clients[d])
    ensures CanPost(s, d) && Next(s, Post(s, d)) && AllGoOn(s.clients, Post(s, d).clients)
  {
    IsNext(s, Post(s, d), ClientStep(EPost(d)));
  }

  /** What is not held and not in flight any more is not watched anywhere. */
  ghost predicate NotWatched(s: State, id: nat) {
    !Starts(s.requests, id) && !Starts(Batch(s), id) && !InMap(s, id)
  }

  lemma StoppedIsNotWatched(run: seq<State>, s: State, id: nat)
    requires Reached(run, s) && id < |s.ids| && s.ids[id].holder.Nobody?
    ensures NotWatched(s, id)
  {
    ReachedInv(run, s);
    assert Settled(s.ids, id);
    EveryWatchIsInOnePlace(run, |run| - 1, id);
  }

  lemma WatchedIsDrawn(run: seq<State>, s: State, c: nat, w: nat)
    requires Reached(run, s) && c < |s.clients| && w in s.clients[c].watching
    ensures s.clients[c].watching[w] < |s.ids|
  {
    ReachedInv(run, s);
  }

  class Watchers {
    var s: State
    ghost var run: seq<State>

    ghost predicate Valid()
      reads this
    {
      Reached(run, s)
    }

    constructor (clients: nat)
      ensures Valid() && Init(s) && |s.clients| == clients
    {
      var client := Client(Ready, [], map[]);
      var start := State(seq(clients, i => client), [], 0, Resting, map[], {}, [], [], {}, {}, []);
      s := start;
      run := [start];
    }

    /** One step of the state machine. */
    method Go(s': State)
      requires Valid() && Next(s, s')
      modifies this
      ensures Valid() && s == s'
    {
      ReachedNext(run, s, s');
      s := s';
      run := run + [s'];
    }

    /** The loop over the batch. */
    method WorkThroughBatch()
      requires Valid() && s.backend.Working?
      modifies this
      ensures Valid() && s.backend.Resting? && s.requests == old(s.requests) && s.tasks == old(s.tasks)
      ensures |s.ids| == |old(s.ids)| && AllGoOn(old(s.clients), s.clients)
    {
      while s.backend.batch != []
        invariant Valid() && Processing(old(s), s)
        decreases |s.backend.batch|
      {
        if s.backend.batch[0].StartRequest? {
          StartRound(old(s), s);
          Go(ProcessStart(s));
        } else {
          var id := s.backend.batch[0].id;
          var handle := GetMojoHandleByWatcherID(s.watches, id);
          StopRound(run, old(s), s, handle);
          Go(Signal(StopWatchAt(s, id, handle)));
        }
      }
      RestRound(old(s), s);
      Go(Rest(s));
    }

    /** The vector is swapped out and worked through; afterwards no thread is left waiting. */
    method ProcessRequests()
      requires Valid() && CanSwap(s)
      modifies this
      ensures Valid() && s.backend.Resting? && s.requests == [] && s.tasks == old(s.tasks)
      ensures |s.ids| == |old(s.ids)| && AllGoOn(old(s.clients), s.clients)
      ensures forall c :: 0 <= c < |s.clients| && s.clients[c].phase.Stopping? ==> s.clients[c].phase.signalled
    {
      SwapRound(s);
      Go(Swap(s));
      WorkThroughBatch();
      AllSignalled(run, s);
    }

    /** The search in StopWatching. */
    method FindStart(id: nat) returns (r: Option<nat>)
      ensures r.Some? ==> StartsAt(s.requests, r.value, id)
      ensures r.Some? ==> forall j :: 0 <= j < r.value ==> !StartsAt(s.requests, j, id)
      ensures r.None? ==> forall i :: 0 <= i < |s.requests| ==> !StartsAt(s.requests, i, id)
    {
      for i := 0 to |s.requests|
        invariant forall j :: 0 <= j < i ==> !StartsAt(s.requests, j, id)
      {
        if StartsAt(s.requests, i, id) {
          return Some(i);
        }
      }
      return None;
    }

    /** HandleWatcher::Stop: it returns, and then the watch is gone from everywhere. */
    method Stop(c: nat, w: nat)
      requires Valid() && CanReset(s, c, w, Nothing)
      modifies this
      ensures Valid() && c < |s.clients| && s.clients[c].phase.Ready? && w !in s.clients[c].watching
      ensures NotWatched(s, old(s.clients[c].watching[w])) && old(s.clients[c].watching[w]) in s.stopped
    {
      var id := s.clients[c].watching[w];
      WatchedIsDrawn(run, s, c, w);
      SearchStarts(s, c, w);
      Go(Reset(s, c, w, Nothing));
      var found := FindStart(id);
      if found.Some? {
        EraseRound(s, c, found.value);
        Go(EraseRequest(s, c, found.value));
      } else {
        RequestStop(c);
        Wait(c);
        AwakeRound(s, c);
        Go(Awake(s, c));
      }
      StoppedIsNotWatched(run, s, id);
    }

    /** AddRequest with the stop request. */
    method RequestStop(c: nat)
      requires Valid() && CanSearch(s, c) && SearchFails(s, c)
      modifies this
      ensures Valid() && s.backend == old(s.backend) && |s.ids| == |old(s.ids)|
      ensures s.requests == old(s.requests) + [StopRequest(old(s.clients[c].phase.id), c)]
      ensures s.tasks == old(s.tasks) + if old(s.requests) == [] then 1 else 0
      ensures |s.clients| == |old(s.clients)|
      ensures forall d :: 0 <= d < |s.clients| && d != c ==> s.clients[d] == old(s.clients[d])
      ensures
        var x, x' := old(s.clients[c]), s.clients[c];
        x'.watching == x.watching && x'.phase == Stopping(x.phase.watcher, x.phase.id, x.phase.after, false, false)
    {
      AddStopRounds(s, c);
      Go(GiveUpSearch(s, c));
      Go(AddStop(s, c));
      if s.clients[c].phase.mustPost {
        Go(Post(s, c));
      }
    }

    /** Whoever has still to post a task. */
    method FindPoster() returns (d: nat)
      requires SomeonePosts(s)
      ensures d < |s.clients| && Posts(s.clients[d])
    {
      d := 0;
      while !(s.clients[d].phase.Posting? || (s.clients[d].phase.Stopping? && s.clients[d].phase.mustPost))
        invariant d < |s.clients| && forall c :: 0 <= c < d ==> !Posts(s.clients[c])
        decreases |s.clients| - d
      {
        d := d + 1;
      }
    }

    /** event.Wait(): whatever the watcher thread is doing, it comes to process the request and signals the event. */
    method Wait(c: nat)
      requires Valid() && c < |s.clients| && s.clients[c].phase.Stopping? && !s.clients[c].phase.mustPost
      modifies this
      ensures Valid() && CanAwake(s, c) && |s.ids| == |old(s.ids)| && AllGoOn(old(s.clients), s.clients)
    {
      if s.backend.Working? {
        WorkThroughBatch();
      }
      if s.clients[c].phase.signalled {
        return;
      }
      ghost var middle := s.clients;
      if s.backend.Resting? {
        Rouse(c);
      }
      ghost var roused := s.clients;
      ProcessRequests();
      AllGoOnThen(middle, roused, s.clients);
      AllGoOnThen(old(s.clients), middle, s.clients);
    }

    /** The watcher thread starts on a task that was posted, or that another thread posts now. */
    method Rouse(c: nat)
      requires Valid() && s.backend.Resting? && c < |s.clients|
      requires s.clients[c].phase.Stopping? && !s.clients[c].phase.signalled
      modifies this
      ensures Valid() && CanSwap(s) && |s.ids| == |old(s.ids)| && AllGoOn(old(s.clients), s.clients)
    {
      TaskIsPending(run, s, c);
      if s.tasks == 0 {
        var d := FindPoster();
        PostRound(s, d);
        Go(Post(s, d));
      }
      WakeRound(s);
      Go(Wake(s));
    }
  }
}
