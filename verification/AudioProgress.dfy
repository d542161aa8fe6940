/** No standstill of the audio server: a thread in the middle of something can go on, or waits for one that can. */
module AudioProgress {
  import opened Wrappers
  import opened AudioSystem
  import opened AudioInvariant
  import opened AudioTheorems

  /** The main loop is the thread that runs ReleaseQueue on this link. */
  ghost predicate MainReleases(s: State, l: nat) {
    && l < |s.links| && !s.links[l].stuck.InPop?
    && ((s.main.Flushing? && s.main.current == Some(l)) || s.main == OutClear(s.links[l].output))
  }

  ghost predicate ReleasesIn(e: FlushEvent) {
    e.ERelease? || e.EEnqueue?
  }

  /** A step of the main loop. */
  ghost predicate MainStep(s: State, e: Event) {
    match e
    case FlushStep(x) => ReleasesIn(x) ==> MainReleases(s, x.l)
    case WorkerStep(_) => false
    case MixerStep(_) => false
    case _ => true
  }

  /** A step of the worker that owns the processing lock of output o, and one towards giving its locks back: nothing
      that begins anew in Process. */
  ghost predicate StepOfWorker(s: State, e: Event, o: nat) {
    && o < |s.outputs| && !s.outputs[o].owner.Nobody?
    && match e
       case WorkerStep(x) => x.o == o && (x.ECheck? || x.EPostFinish? || x.ELeave?)
       case MixerStep(x) => x.l < |s.links| && s.links[x.l].output == o && (x.EUnlockKeep? || x.EUnlockPop?)
       case FlushStep(x) => ReleasesIn(x) && x.l < |s.links| && s.links[x.l].output == o && !MainReleases(s, x.l)
       case _ => false
  }

  /** The main loop is waiting for a lock that the worker of output o has. */
  ghost predicate WaitsFor(s: State, o: nat) {
    match s.main
    case Pushing(p, todo) => exists l :: l in todo && l < |s.links| && s.links[l].output == o && s.links[l].stuck.InPop?
    case Flushing(t, todo, current) =>
      current.None? && exists l :: l in todo && l < |s.links| && s.links[l].output == o && s.links[l].lock.Mixer?
    case OutBarrier(x) => x == o
    case Joining(_, x) => x == o
    case _ => false
  }

  /** The main loop is not waiting for a message: it is in an operation, or in the server's Shutdown. */
  ghost predicate Busy(s: State) {
    !s.main.Idle? || s.server.StopTracks? || s.server.StopOutputs? || s.server.StopCleanup?
  }

  ghost predicate MainCanStep(s: State) {
    exists e :: Enabled(s, e) && MainStep(s, e)
  }

  ghost predicate WorkerCanStep(s: State, o: nat) {
    exists e :: Enabled(s, e) && StepOfWorker(s, e, o)
  }

  lemma MainCan(s: State, e: Event)
    requires Enabled(s, e) && MainStep(s, e)
    ensures MainCanStep(s)
  {
  }

  lemma WorkerCan(s: State, e: Event, o: nat)
    requires Enabled(s, e) && StepOfWorker(s, e, o)
    ensures WorkerCanStep(s, o)
  {
  }

  // ----- Workers -----

  /** A mixer that has a link's flush lock can undo it, or is on its way to the cleanup queue. */
  lemma MixerCanUnlock(s: State, l: nat)
    requires Inv(s) && l < |s.links| && s.links[l].lock.Mixer?
    ensures WorkerCanStep(s, s.links[l].output)
  {
    var k := s.links[l];
    assert LockOk(s, k) && ReferenceOk(s, l, k);
    if k.stuck.InPop? {
      WorkerCan(s, FlushStep(EEnqueue(l)), k.output);
    } else {
      WorkerCan(s, MixerStep(EUnlockKeep(l)), k.output);
    }
  }

  /** What is left in a link that nobody refers to can be dropped, or is on its way to the cleanup queue. */
  lemma DestructorCanGoOn(s: State, l: nat)
    requires Inv(s) && l < |s.links| && !s.links[l].inOutput && !Drained(s.links[l])
    ensures !s.links[l].stuck.InPop? && !(s.main.Flushing? && s.main.current == Some(l))
    ensures if s.links[l].stuck.NotStuck? then CanRelease(s, l) else CanEnqueue(s, l)
  {
    var k := s.links[l];
    assert QueueOk(s.packets, k) && LockOk(s, k) && ReferenceOk(s, l, k);
    if k.stuck.NotStuck? {
      assert k.releasing[0] in k.pushed;
    }
  }

  lemma WorkerCanDestroy(s: State, l: nat)
    requires Inv(s) && l < |s.links| && !s.links[l].inOutput && !Drained(s.links[l])
    requires s.links[l].output < |s.outputs| && s.outputs[s.links[l].output].owner.Processing?
    ensures WorkerCanStep(s, s.links[l].output)
  {
    var k := s.links[l];
    DestructorCanGoOn(s, l);
    assert OutputOk(s, k.output, s.outputs[k.output]);
    WorkerCan(s, FlushStep(if k.stuck.NotStuck? then ERelease(l) else EEnqueue(l)), k.output);
  }

  /** A worker that owns a processing lock has a step to take. */
  lemma WorkerIsNeverStuck(s: State, o: nat)
    requires Inv(s) && o < |s.outputs| && !s.outputs[o].owner.Nobody?
    ensures WorkerCanStep(s, o)
  {
    if s.outputs[o].owner.Checking? {
      WorkerCan(s, WorkerStep(ECheck(o)), o);
    } else if s.outputs[o].mustPost {
      WorkerCan(s, WorkerStep(EPostFinish(o)), o);
    } else if CanLeave(s, o) {
      WorkerCan(s, WorkerStep(ELeave(o)), o);
    } else {
      var l :| 0 <= l < |s.links| && s.links[l].output == o
        && !(s.links[l].lock.Free? && (!s.links[l].inOutput ==> Drained(s.links[l])));
      if s.links[l].lock.Mixer? {
        MixerCanUnlock(s, l);
      } else {
        WorkerCanDestroy(s, l);
      }
    }
  }

  // ----- The main loop -----

  /** In the middle of a flush the main loop can go on, or a mixer has the lock that it waits for. */
  lemma FlushCanGoOn(s: State)
    requires Inv(s) && s.main.Flushing?
    ensures MainCanStep(s) || exists o :: WaitsFor(s, o) && WorkerCanStep(s, o)
  {
    if s.main.current.Some? {
      var l := s.main.current.value;
      var k := s.links[l];
      assert QueueOk(s.packets, k);
      if !k.stuck.NotStuck? {
        MainCan(s, FlushStep(EEnqueue(l)));
      } else if k.releasing == [] {
        MainCan(s, FlushStep(EEndSwapOut));
      } else {
        assert k.releasing[0] in k.pushed;
        MainCan(s, FlushStep(ERelease(l)));
      }
    } else if s.main.todo == {} {
      MainCan(s, FlushStep(EEndFlush));
    } else {
      var l :| l in s.main.todo;
      if s.links[l].lock.Free? {
        MainCan(s, FlushStep(ESwapOut(l)));
      } else {
        MixerCanUnlock(s, l);
        assert WaitsFor(s, s.links[l].output);
      }
    }
  }

  lemma PushCanGoOn(s: State)
    requires Inv(s) && s.main.Pushing?
    ensures MainCanStep(s) || exists o :: WaitsFor(s, o) && WorkerCanStep(s, o)
  {
    if s.main.todo == {} {
      MainCan(s, PacketStep(EDropOwnCopy));
    } else {
      var l :| l in s.main.todo;
      if s.links[l].stuck.InPop? {
        assert LockOk(s, s.links[l]);
        MixerCanUnlock(s, l);
        assert WaitsFor(s, s.links[l].output);
      } else {
        MainCan(s, PacketStep(EPush(l)));
      }
    }
  }

  lemma JoinCanGoOn(s: State)
    requires Inv(s) && s.main.Joining?
    ensures MainCanStep(s) || exists o :: WaitsFor(s, o) && WorkerCanStep(s, o)
  {
    var o := s.main.output;
    if s.outputs[o].owner.Nobody? {
      MainCan(s, TrackStep(EAddTrackLink));
    } else {
      WorkerIsNeverStuck(s, o);
      assert WaitsFor(s, o);
    }
  }

  lemma OutputShutdownCanGoOn(s: State)
    requires Inv(s) && (s.main.OutBegin? || s.main.OutBarrier? || s.main.OutWalk? || s.main.OutClear?)
    ensures MainCanStep(s) || exists o :: WaitsFor(s, o) && WorkerCanStep(s, o)
  {
    var o := s.main.output;
    if s.main.OutBegin? {
      MainCan(s, OutputStep(EBeginOutput));
    } else if s.main.OutWalk? {
      MainCan(s, OutputStep(EUnlinkAll));
    } else if s.main.OutBarrier? {
      if s.outputs[o].owner.Nobody? {
        MainCan(s, OutputStep(EPassBarrier));
      } else {
        WorkerIsNeverStuck(s, o);
        assert WaitsFor(s, o);
      }
    } else if CanEndOutput(s) {
      MainCan(s, OutputStep(EEndOutput));
    } else {
      var l :| 0 <= l < |s.links| && s.links[l].output == o && !Drained(s.links[l]);
      assert ReferenceOk(s, l, s.links[l]);
      DestructorCanGoOn(s, l);
      MainCan(s, FlushStep(if s.links[l].stuck.NotStuck? then ERelease(l) else EEnqueue(l)));
    }
  }

  lemma ServerShutdownCanGoOn(s: State)
    requires Inv(s) && s.main.Idle? && (s.server.StopTracks? || s.server.StopOutputs? || s.server.StopCleanup?)
    ensures MainCanStep(s)
  {
    if s.server.StopCleanup? {
      MainCan(s, ServerStep(EBeginCleanup));
    } else if CanStop(s) {
      MainCan(s, ServerStep(EStop));
    } else if s.server.StopTracks? {
      var t :| 0 <= t < |s.tracks| && s.tracks[t].listed;
      assert TrackOk(s, t, s.tracks[t]);
      MainCan(s, TrackStep(EShutdownTrack(t)));
    } else {
      var o :| 0 <= o < |s.outputs| && s.outputs[o].managed;
      MainCan(s, OutputStep(EShutdownOutput(o)));
    }
  }

  lemma ShortOperationCanGoOn(s: State)
    requires Inv(s) && (s.main.Linking? || s.main.Dropping? || s.main.TrackClear? || s.main.Draining?)
    ensures MainCanStep(s)
  {
    match s.main
    case Linking(_) => MainCan(s, TrackStep(EAddOutput));
    case Dropping(_) => MainCan(s, PacketStep(EEnqueueOwn));
    case TrackClear(_, _) => MainCan(s, TrackStep(EEndShutdownTrack));
    case Draining =>
      if s.draining == [] {
        MainCan(s, ServerStep(EEndCleanup));
      } else {
        assert Out(s)[|s.called|] == s.draining[0] && s.draining[0] in Out(s);
        MainCan(s, ServerStep(ECallBack));
      }
  }

  /**
    In every reachable state: if the main loop is in the middle of an operation or of the server's shutdown, one of its
    own steps is possible, or one of the worker that has the lock it waits for.
   */
  lemma MainLoopIsNeverStuck(run: seq<State>, i: nat)
    requires IsRun(run) && i < |run| && Busy(run[i])
    ensures MainCanStep(run[i]) || exists o :: WaitsFor(run[i], o) && WorkerCanStep(run[i], o)
  {
    var s := run[i];
    RunKeepsInv(run, i);
    if s.main.Idle? {
      ServerShutdownCanGoOn(s);
    } else if s.main.Joining? {
      JoinCanGoOn(s);
    } else if s.main.Flushing? {
      FlushCanGoOn(s);
    } else if s.main.Pushing? {
      PushCanGoOn(s);
    } else if s.main.OutBegin? || s.main.OutBarrier? || s.main.OutWalk? || s.main.OutClear? {
      OutputShutdownCanGoOn(s);
    } else {
      ShortOperationCanGoOn(s);
    }
  }

  /** In every reachable state a worker that owns a processing lock can take a step of its own: it waits for nobody. */
  lemma WorkersAreNeverStuck(run: seq<State>, i: nat, o: nat)
    requires IsRun(run) && i < |run| && o < |run[i].outputs| && !run[i].outputs[o].owner.Nobody?
    ensures WorkerCanStep(run[i], o)
  {
    RunKeepsInv(run, i);
    WorkerIsNeverStuck(run[i], o);
  }
}
