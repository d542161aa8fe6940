/** No standstill of handle watching: a thread in Start or Stop can go on, or waits for one that can. */
module HandleProgress {
  import opened Wrappers
  import opened HandleWatching
  import opened HandleInvariant
  import opened HandleTheorems

  ghost predicate ClientCanStep(s: State, c: nat) {
    exists e :: ClientEnabled(s, e) && e.c == c
  }

  /** A step of the watcher thread towards the requests: not a callback of its pump. */
  ghost predicate WatcherCanStep(s: State) {
    exists e :: WatcherEnabled(s, e) && !e.EFire? && !e.EFireInvalid?
  }

  /** The thread is in event.Wait(). */
  ghost predicate Waits(s: State, c: nat) {
    c < |s.clients| && s.clients[c].phase.Stopping? && !s.clients[c].phase.mustPost && !s.clients[c].phase.signalled
  }

  /** A thread that has still to post a task to the watcher thread can post it. */
  ghost predicate PosterCanStep(s: State) {
    exists d :: 0 <= d < |s.clients| && Posts(s.clients[d]) && ClientCanStep(s, d)
  }

  lemma ClientCan(s: State, e: ClientEvent)
    requires ClientEnabled(s, e)
    ensures ClientCanStep(s, e.c)
  {
  }

  lemma WatcherCan(s: State, e: WatcherEvent)
    requires WatcherEnabled(s, e) && !e.EFire? && !e.EFireInvalid?
    ensures WatcherCanStep(s)
  {
  }

  /** The search in StopWatching finds the first start request, or fails. */
  lemma SearchCanEnd(s: State, c: nat)
    requires CanSearch(s, c)
    ensures ClientCanStep(s, c)
  {
    var id := s.clients[c].phase.id;
    var i := 0;
    while i < |s.requests| && !StartsAt(s.requests, i, id)
      invariant 0 <= i <= |s.requests| && forall j :: 0 <= j < i ==> !StartsAt(s.requests, j, id)
    {
      i := i + 1;
    }
    ClientCan(s, if i < |s.requests| then EEraseRequest(c, i) else EGiveUpSearch(c));
  }

  /** The watcher thread goes on with what it is doing, or has a task, or a thread is about to post it one. */
  lemma WatcherCanGoOn(s: State, c: nat)
    requires Inv(s) && Waits(s, c)
    ensures WatcherCanStep(s) || PosterCanStep(s)
  {
    match s.backend
    case Working(batch) =>
      WatcherCan(s, if batch == [] then ERest else if batch[0].StartRequest? then EProcessStart else EProcessStop);
    case Woken =>
      WatcherCan(s, ESwap);
    case Resting =>
      assert PhaseOk(s, c, s.clients[c]);
      if s.tasks > 0 {
        WatcherCan(s, EWake);
      } else {
        var d :| 0 <= d < |s.clients| && Posts(s.clients[d]);
        ClientCan(s, EPost(d));
      }
  }

  /**
    In every reachable state: a thread in the middle of Start or Stop has a step to take; or it waits for its event, and
    then the watcher thread has a step to take, or rests while another thread is about to post the task that wakes it.
   */
  lemma ThreadsAreNeverStuck(run: seq<State>, i: nat, c: nat)
    requires IsRun(run) && i < |run| && c < |run[i].clients| && !run[i].clients[c].phase.Ready?
    ensures
      var s := run[i];
      ClientCanStep(s, c) || (Waits(s, c) && (WatcherCanStep(s) || PosterCanStep(s)))
  {
    var s := run[i];
    match s.clients[c].phase
    case Drawing(_, _) => ClientCan(s, EDraw(c));
    case Numbered(_, _) => ClientCan(s, EAddStart(c));
    case Posting => ClientCan(s, EPost(c));
    case Searching(_, _, _) => SearchCanEnd(s, c);
    case Adding(_, _, _) => ClientCan(s, EAddStop(c));
    case Stopping(_, _, _, mustPost, signalled) =>
      if mustPost {
        ClientCan(s, EPost(c));
      } else if signalled {
        ClientCan(s, EAwake(c));
      } else {
        RunKeepsInv(run, i);
        WatcherCanGoOn(s, c);
      }
  }
}
