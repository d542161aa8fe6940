/** What only certain steps of the audio server do, and what they do for certain. */
module AudioCauses {
  import opened Wrappers
  import opened AudioSystem
  import opened AudioInvariant
  import opened AudioTheorems

  // ----- Cleanup tasks -----

  /** SchedulePacketCleanup posts a task only if none is waiting. */
  ghost predicate OneTask(s: State) {
    s.tasks <= 1 && (s.server.Running? ==> (s.scheduled <==> s.tasks == 1))
  }

  lemma StepKeepsOneTask(s: State, e: Event)
    requires Enabled(s, e) && OneTask(s)
    ensures OneTask(Apply(s, e))
  {
  }

  lemma OneTaskAfterStep(run: seq<State>, i: nat)
    requires IsRun(run) && i + 1 < |run| && OneTask(run[i])
    ensures OneTask(run[i + 1])
  {
    assert StepAt(run, i);
    var e :| Enabled(run[i], e) && run[i + 1] == Apply(run[i], e);
    StepKeepsOneTask(run[i], e);
  }

  /** At most one cleanup task waits in the message loop, and cleanup_scheduled_ says whether one does. */
  lemma {:induction false} OneCleanupTask(run: seq<State>, i: nat)
    requires IsRun(run) && i < |run|
    ensures run[i].tasks <= 1 && (run[i].server.Running? ==> (run[i].scheduled <==> run[i].tasks == 1))
  {
    if i > 0 {
      OneCleanupTask(run, i - 1);
      OneTaskAfterStep(run, i - 1);
    }
  }

  lemma StepPosts(s: State, e: Event)
    requires Enabled(s, e)
    ensures
      var s' := Apply(s, e);
      && (s'.tasks > s.tasks ==> s.server.Running? && !s.scheduled && |s'.queue| == |s.queue| + 1)
      && (s'.tasks < s.tasks ==> s.server.Running? && s'.queue == [] && s'.draining == s.queue)
  {
  }

  /** A cleanup task is posted only before shutdown, by a packet that arrives while none is waiting; and one is taken
      only by a cleanup that has the whole queue before it. */
  lemma CleanupTaskHasACause(run: seq<State>, i: nat)
    requires IsRun(run) && i + 1 < |run|
    ensures
      var s, s' := run[i], run[i + 1];
      && (s'.tasks > s.tasks ==> s.server.Running? && !s.scheduled && |s'.queue| == |s.queue| + 1)
      && (s'.tasks < s.tasks ==> s.server.Running? && s'.queue == [] && s'.draining == s.queue)
  {
    assert StepAt(run, i);
    var e :| Enabled(run[i], e) && run[i + 1] == Apply(run[i], e);
    StepPosts(run[i], e);
  }

  // ----- What a step can do to a link -----

  /** A link is for one track and one output for good; only ReleaseQueue discards; and references go away only where
      the track or the output is shut down, or the mixer finds the track gone. */
  ghost predicate Explained(s: State, e: Event, l: nat, k: Link, k': Link) {
    && k'.track == k.track && k'.output == k.output
    && (k.inTrack && !k'.inTrack ==> e == TrackStep(EShutdownTrack(k.track)) || s.main == OutWalk(k.output))
    && (k.inOutput && !k'.inOutput ==> e == MixerStep(EDropLink(l)) || s.main == OutWalk(k.output))
    && (e == FlushStep(ERelease(l)) || forall p :: Discarded(k', p) ==> Discarded(k, p))
  }

  lemma TrackStepOnLink(s: State, e: TrackEvent, l: nat)
    requires TrackEnabled(s, e) && l < |s.links|
    ensures l < |TrackApply(s, e).links| && Explained(s, TrackStep(e), l, s.links[l], TrackApply(s, e).links[l])
  {
  }

  lemma PacketStepOnLink(s: State, e: PacketEvent, l: nat)
    requires PacketEnabled(s, e) && l < |s.links|
    ensures l < |PacketApply(s, e).links| && Explained(s, PacketStep(e), l, s.links[l], PacketApply(s, e).links[l])
  {
  }

  lemma FlushStepOnLink(s: State, e: FlushEvent, l: nat)
    requires FlushEnabled(s, e) && l < |s.links|
    ensures l < |FlushApply(s, e).links| && Explained(s, FlushStep(e), l, s.links[l], FlushApply(s, e).links[l])
  {
  }

  lemma OutputStepOnLink(s: State, e: OutputEvent, l: nat)
    requires OutputEnabled(s, e) && l < |s.links|
    ensures l < |OutputApply(s, e).links| && Explained(s, OutputStep(e), l, s.links[l], OutputApply(s, e).links[l])
  {
  }

  lemma MixerStepOnLink(s: State, e: MixerEvent, l: nat)
    requires MixerEnabled(s, e) && l < |s.links|
    ensures l < |MixerApply(s, e).links| && Explained(s, MixerStep(e), l, s.links[l], MixerApply(s, e).links[l])
  {
  }

  lemma StepOnLink(s: State, e: Event, l: nat)
    requires Enabled(s, e) && l < |s.links|
    ensures l < |Apply(s, e).links| && Explained(s, e, l, s.links[l], Apply(s, e).links[l])
  {
    match e
    case TrackStep(x) => TrackStepOnLink(s, x, l);
    case PacketStep(x) => PacketStepOnLink(s, x, l);
    case FlushStep(x) => FlushStepOnLink(s, x, l);
    case OutputStep(x) => OutputStepOnLink(s, x, l);
    case MixerStep(x) => MixerStepOnLink(s, x, l);
    case _ => assert Apply(s, e).links == s.links;
  }

  // ----- Flushing -----

  ghost predicate OfTrackOnly(links: seq<Link>, ls: set<nat>, t: nat) {
    forall l :: l in ls && l < |links| ==> links[l].track == t
  }

  /** A flush works on links of its own track. */
  ghost predicate OwnLinks(s: State) {
    s.main.Flushing? ==>
      && OfTrackOnly(s.links, s.main.todo, s.main.track)
      && (s.main.current.Some? ==> OfTrackOnly(s.links, {s.main.current.value}, s.main.track))
  }

  lemma StepKeepsOwnLinks(s: State, e: Event)
    requires Enabled(s, e) && OwnLinks(s)
    ensures OwnLinks(Apply(s, e))
  {
    if s.main.Flushing? && Apply(s, e).main.Flushing? {
      forall l: nat | l < |s.links|
        ensures l < |Apply(s, e).links| && Apply(s, e).links[l].track == s.links[l].track
      {
        StepOnLink(s, e, l);
      }
    }
  }

  lemma OwnLinksAfterStep(run: seq<State>, i: nat)
    requires IsRun(run) && i + 1 < |run| && OwnLinks(run[i])
    ensures OwnLinks(run[i + 1])
  {
    assert StepAt(run, i);
    var e :| Enabled(run[i], e) && run[i + 1] == Apply(run[i], e);
    StepKeepsOwnLinks(run[i], e);
  }

  lemma {:induction false} RunKeepsOwnLinks(run: seq<State>, i: nat)
    requires IsRun(run) && i < |run|
    ensures OwnLinks(run[i])
  {
    if i > 0 {
      RunKeepsOwnLinks(run, i - 1);
      OwnLinksAfterStep(run, i - 1);
    }
  }

  /** A link discards a packet only while its track is being flushed, after its track was shut down, or while its
      output is: no other track's flush and no other output's shutdown touches it. */
  lemma DiscardHasACause(run: seq<State>, i: nat, l: nat, p: nat)
    requires IsRun(run) && i + 1 < |run| && l < |run[i].links| && !Discarded(run[i].links[l], p)
    requires l < |run[i + 1].links| && Discarded(run[i + 1].links[l], p)
    ensures var s, k := run[i], run[i].links[l];
            && k.track < |s.tracks| && k.output < |s.outputs|
            && (|| (s.main.Flushing? && s.main.track == k.track)
                || !s.tracks[k.track].bound
                || s.main == OutClear(k.output))
  {
    var s := run[i];
    RunKeepsInv(run, i);
    RunKeepsOwnLinks(run, i);
    assert StepAt(run, i);
    var e :| Enabled(s, e) && run[i + 1] == Apply(s, e);
    StepOnLink(s, e, l);
    assert ReferenceOk(s, l, s.links[l]);
  }

  // ----- Links, tracks and outputs last -----

  lemma TrackLost(s: State, e: Event, t: nat)
    requires Enabled(s, e) && t < |s.tracks|
    ensures t < |Apply(s, e).tracks|
    ensures s.tracks[t].bound && !Apply(s, e).tracks[t].bound <==>
            s.tracks[t].bound && e == TrackStep(EShutdownTrack(t))
  {
  }

  /** A link in a track's outputs_ stays there, for the same track and output, until its track or its output is shut
      down. */
  lemma LinksLast(run: seq<State>, i: nat, l: nat)
    requires IsRun(run) && i + 1 < |run| && l < |run[i].links| && run[i].links[l].inTrack
    ensures var s, s', k := run[i], run[i + 1], run[i].links[l];
            && l < |s'.links| && k.track < |s'.tracks|
            && s'.links[l].track == k.track && s'.links[l].output == k.output
            && ((s'.links[l].inTrack && s'.links[l].inOutput)
                || s.main == OutWalk(k.output) || !s'.tracks[k.track].bound)
  {
    var s := run[i];
    RunKeepsInv(run, i);
    assert ReferenceOk(s, l, s.links[l]);
    assert StepAt(run, i);
    var e :| Enabled(s, e) && run[i + 1] == Apply(s, e);
    StepOnLink(s, e, l);
    TrackLost(s, e, s.links[l].track);
  }

  lemma StepOnTrack(s: State, e: Event, t: nat)
    requires Enabled(s, e) && MainOk(s) && t < |Apply(s, e).tracks|
    ensures var s' := Apply(s, e);
            if t < |s.tracks|
            then s'.tracks[t].bound <==> s.tracks[t].bound && !(s'.main.TrackClear? && s'.main.track == t)
            else s'.tracks[t].bound && s'.tracks[t].listed
  {
    assert !e.TrackStep? ==> Apply(s, e).tracks == s.tracks;
  }

  /** A new track is bound and listed, and a track stays bound until it is shut down itself. */
  lemma TracksLast(run: seq<State>, i: nat, t: nat)
    requires IsRun(run) && i + 1 < |run| && t < |run[i + 1].tracks|
    ensures var s, s' := run[i], run[i + 1];
            if t < |s.tracks|
            then s'.tracks[t].bound <==> s.tracks[t].bound && !(s'.main.TrackClear? && s'.main.track == t)
            else s'.tracks[t].bound && s'.tracks[t].listed
  {
    RunKeepsInv(run, i);
    assert StepAt(run, i);
    var e :| Enabled(run[i], e) && run[i + 1] == Apply(run[i], e);
    StepOnTrack(run[i], e, t);
  }

  /** A new track is one more, and takes packets, flushes and links at once. */
  lemma NewTrackIsUsable(s: State, o: nat)
    requires CanCreateTrack(s)
    ensures
      var s', t := CreateTrack(s), |s.tracks|;
      && |s'.tracks| == t + 1 && s'.tracks[..t] == s.tracks
      && CanAccept(s', t) && CanBeginFlush(s', t) && CanShutdownTrack(s', t)
      && (o < |s.outputs| && s.outputs[o].managed ==> CanSelectOutput(s', t, o))
  {
  }

  // ----- Mixing -----

  /** A worker that comes for an output that is not shutting down gets into Process, and can lock the front of every
      link of that output: two steps of its own, from any reachable state in which nobody has the processing lock. */
  lemma LiveOutputIsMixed(run: seq<State>, i: nat, o: nat, l: nat)
    requires IsRun(run) && i < |run| && o < |run[i].outputs| && CanEnter(run[i], o)
    requires l < |run[i].links| && run[i].links[l].inOutput && run[i].links[l].output == o
    ensures CanCheck(Enter(run[i], o), o)
    ensures CanLockFront(Check(Enter(run[i], o), o), l) <==> !run[i].outputs[o].shuttingDown
  {
    RunKeepsInv(run, i);
    assert LockOk(run[i], run[i].links[l]);
  }

  ghost predicate BeganWell(s: State) {
    s.main.OutBegin? && s.main.output < |s.outputs| && !s.outputs[s.main.output].shuttingDown ==> s.server.StopOutputs?
  }

  ghost predicate OutputsOk(s: State) {
    forall o :: 0 <= o < |s.outputs| ==> OutputOk(s, o, s.outputs[o])
  }

  lemma OutputStepKeepsBegan(s: State, e: OutputEvent)
    requires OutputsOk(s) && OutputEnabled(s, e) && BeganWell(s)
    ensures BeganWell(OutputApply(s, e))
  {
    if e.EShutdownOutput? {
      assert OutputOk(s, e.o, s.outputs[e.o]);
    }
  }

  lemma WorkerStepKeepsBegan(s: State, e: WorkerEvent)
    requires WorkerEnabled(s, e) && BeganWell(s)
    ensures BeganWell(WorkerApply(s, e))
  {
  }

  lemma StepKeepsBegan(s: State, e: Event)
    requires OutputsOk(s) && Enabled(s, e) && BeganWell(s)
    ensures BeganWell(Apply(s, e))
  {
    match e
    case OutputStep(x) => OutputStepKeepsBegan(s, x);
    case WorkerStep(x) => WorkerStepKeepsBegan(s, x);
    case _ => assert Apply(s, e).outputs == s.outputs;
  }

  lemma BeganAfterStep(run: seq<State>, i: nat)
    requires IsRun(run) && i + 1 < |run| && OutputsOk(run[i]) && BeganWell(run[i])
    ensures BeganWell(run[i + 1])
  {
    assert StepAt(run, i);
    var e :| Enabled(run[i], e) && run[i + 1] == Apply(run[i], e);
    StepKeepsBegan(run[i], e);
  }

  lemma {:induction false} RunKeepsBegan(run: seq<State>, i: nat)
    requires IsRun(run) && i < |run|
    ensures BeganWell(run[i])
  {
    if i > 0 {
      RunKeepsInv(run, i - 1);
      RunKeepsBegan(run, i - 1);
      BeganAfterStep(run, i - 1);
    }
  }

  /** Once the main loop is at the shutdown of an output, or has finished it, no task for it is left: a second one would
      be for an output that is no longer there. */
  ghost predicate Spent(s: State, o: nat) {
    s.server.Running? && o < |s.outputs| && (s.outputs[o].shutDown || Ending(s.main, o)) ==>
      s.outputs[o].finishTasks == 0 && !s.outputs[o].mustPost
  }

  lemma OutputStepKeepsSpent(s: State, e: OutputEvent, o: nat)
    requires OutputsOk(s) && OutputEnabled(s, e) && Spent(s, o)
    ensures Spent(OutputApply(s, e), o)
  {
    if o < |s.outputs| {
      assert OutputOk(s, o, s.outputs[o]);
    }
  }

  lemma WorkerStepKeepsSpent(s: State, e: WorkerEvent, o: nat)
    requires OutputsOk(s) && MainOk(s) && WorkerEnabled(s, e) && Spent(s, o) && BeganWell(s)
    ensures Spent(WorkerApply(s, e), o)
  {
    if o < |s.outputs| {
      assert OutputOk(s, o, s.outputs[o]);
    }
  }

  lemma StepKeepsSpent(s: State, e: Event, o: nat)
    requires OutputsOk(s) && MainOk(s) && Enabled(s, e) && Spent(s, o) && BeganWell(s)
    ensures Spent(Apply(s, e), o)
  {
    match e
    case OutputStep(x) => OutputStepKeepsSpent(s, x, o);
    case WorkerStep(x) => WorkerStepKeepsSpent(s, x, o);
    case _ => assert Apply(s, e).outputs == s.outputs;
  }

  lemma SpentAfterStep(run: seq<State>, i: nat, o: nat)
    requires IsRun(run) && i + 1 < |run| && Inv(run[i]) && BeganWell(run[i]) && Spent(run[i], o)
    ensures Spent(run[i + 1], o)
  {
    assert StepAt(run, i);
    var e :| Enabled(run[i], e) && run[i + 1] == Apply(run[i], e);
    StepKeepsSpent(run[i], e, o);
  }

  lemma {:induction false} FinishTaskIsSpent(run: seq<State>, i: nat, o: nat)
    requires IsRun(run) && i < |run|
    ensures run[i].server.Running? && o < |run[i].outputs| && (run[i].outputs[o].shutDown || Ending(run[i].main, o)) ==>
              run[i].outputs[o].finishTasks == 0 && !run[i].outputs[o].mustPost
  {
    if i > 0 {
      FinishTaskIsSpent(run, i - 1, o);
      RunKeepsInv(run, i - 1);
      RunKeepsBegan(run, i - 1);
      SpentAfterStep(run, i - 1, o);
    }
  }

  /** A worker that calls ShutdownSelf begins the shutdown, if nobody has; its finishing task can then be posted, and
      once the main loop is idle that task begins the rest. */
  lemma ShutdownSelfIsFinished(run: seq<State>, i: nat, o: nat)
    requires IsRun(run) && i < |run| && o < |run[i].outputs|
    requires run[i].outputs[o].owner.Processing? && !run[i].outputs[o].mustPost
    ensures CanShutdownSelf(run[i], o) && ShutdownSelf(run[i], o).outputs[o].shuttingDown
    ensures !run[i].outputs[o].shuttingDown ==>
              && CanPostFinish(ShutdownSelf(run[i], o), o)
              && var s := PostFinish(ShutdownSelf(run[i], o), o);
              && s.outputs[o].finishTasks == 1
              && (s.main.Idle? && s.server.Running? ==> CanShutdownOutput(s, o))
  {
    RunKeepsInv(run, i);
    assert OutputOk(run[i], o, run[i].outputs[o]);
  }

  lemma OutputStepBegins(s: State, e: OutputEvent, o: nat)
    requires OutputEnabled(s, e) && o < |s.outputs| && !s.outputs[o].shuttingDown
    ensures o < |OutputApply(s, e).outputs|
    ensures OutputApply(s, e).outputs[o].shuttingDown ==> s.main == OutBegin(o)
  {
  }

  lemma WorkerStepBegins(s: State, e: WorkerEvent, o: nat)
    requires WorkerEnabled(s, e) && o < |s.outputs| && !s.outputs[o].shuttingDown
    ensures o < |WorkerApply(s, e).outputs|
    ensures WorkerApply(s, e).outputs[o].shuttingDown ==> s.outputs[o].owner.Processing?
  {
  }

  lemma ShutdownBegins(s: State, e: Event, o: nat)
    requires Enabled(s, e) && o < |s.outputs| && !s.outputs[o].shuttingDown
    ensures o < |Apply(s, e).outputs|
    ensures Apply(s, e).outputs[o].shuttingDown ==> s.outputs[o].owner.Processing? || s.main == OutBegin(o)
  {
    match e
    case OutputStep(x) => OutputStepBegins(s, x, o);
    case WorkerStep(x) => WorkerStepBegins(s, x, o);
    case _ => assert Apply(s, e).outputs == s.outputs;
  }

  /** An output begins to shut down only from its own worker in Process, or in the shutdown of the server. */
  lemma ShutdownHasACause(run: seq<State>, i: nat, o: nat)
    requires IsRun(run) && i + 1 < |run| && o < |run[i].outputs| && !run[i].outputs[o].shuttingDown
    ensures o < |run[i + 1].outputs|
    ensures run[i + 1].outputs[o].shuttingDown ==>
              run[i].outputs[o].owner.Processing? || (run[i].server.StopOutputs? && run[i].main == OutBegin(o))
  {
    RunKeepsBegan(run, i);
    assert StepAt(run, i);
    var e :| Enabled(run[i], e) && run[i + 1] == Apply(run[i], e);
    ShutdownBegins(run[i], e, o);
  }
}
