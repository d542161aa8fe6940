/** Every step of the audio server keeps the structural half of the invariant: links, main loop, outputs, tracks. */
module AudioStructureSteps {
  import opened Wrappers
  import opened AudioSystem
  import opened AudioInvariant

  // ----- Structure: steps that change one link -----

  ghost predicate LinkOk(s: State, l: nat)
    requires l < |s.links|
  {
    QueueOk(s.packets, s.links[l]) && LockOk(s, s.links[l]) && FlushedOk(s.links[l]) && ReferenceOk(s, l, s.links[l])
  }

  lemma OneLinkOk(s: State, s': State, l: nat)
    requires LinksOk(s) && l < |s.links| && |s'.links| == |s.links|
    requires forall m :: 0 <= m < |s.links| && m != l ==> s'.links[m] == s.links[m]
    requires |s'.packets| == |s.packets|
    requires forall p :: 0 <= p < |s.packets| ==> s'.packets[p].track == s.packets[p].track
    requires s'.tracks == s.tracks && s'.outputs == s.outputs
    requires s'.main == s.main || (s.main.Pushing? && s'.main.Pushing?)
    requires LinkOk(s', l)
    ensures LinksOk(s')
  {
    forall m | 0 <= m < |s'.links| && m != l
      ensures LinkOk(s', m)
    {
      assert LinkOk(s, m);
    }
  }

  lemma PushStructure(s: State, l: nat)
    requires StructureOk(s) && CanPush(s, l)
    ensures StructureOk(Push(s, l))
  {
    var s' := Push(s, l);
    var k, k' := s.links[l], s'.links[l];
    assert QueueOk(s.packets, k) && LockOk(s, k) && FlushedOk(k) && ReferenceOk(s, l, k);
    assert QueueOk(s'.packets, k') by {
      assert k'.pushed == k'.released + k'.releasing + k'.pending;
      forall i | 0 <= i < |k.pushed|
        ensures k.pushed[i] < s.main.packet
      {
        assert k.pushed[i] in k.pushed;
      }
    }
    OneLinkOk(s, s', l);
  }

  lemma ReleaseQueueOk(s: State, l: nat)
    requires CanRelease(s, l) && QueueOk(s.packets, s.links[l])
    ensures QueueOk(Release(s, l).packets, Release(s, l).links[l])
  {
    var k, k' := s.links[l], Release(s, l).links[l];
    assert k.releasing == [k.releasing[0]] + k.releasing[1..];
    assert k'.pushed == k'.released + k'.releasing + k'.pending;
  }

  lemma ReleaseStructure(s: State, l: nat)
    requires StructureOk(s) && CanRelease(s, l)
    ensures StructureOk(Release(s, l))
  {
    var s' := Release(s, l);
    var k, k' := s.links[l], s'.links[l];
    assert QueueOk(s.packets, k) && LockOk(s, k) && FlushedOk(k) && ReferenceOk(s, l, k);
    ReleaseQueueOk(s, l);
    assert LockOk(s', k') && FlushedOk(k') && ReferenceOk(s', l, k');
    OneLinkOk(s, s', l);
  }

  lemma PopQueueOk(s: State, l: nat)
    requires CanUnlockPop(s, l) && QueueOk(s.packets, s.links[l])
    ensures QueueOk(UnlockPop(s, l).packets, UnlockPop(s, l).links[l])
  {
    var k, k' := s.links[l], UnlockPop(s, l).links[l];
    assert k.pending == [k.pending[0]] + k.pending[1..];
    assert k'.pushed == k'.released + k'.releasing + k'.pending;
  }

  lemma UnlockPopLinkOk(s: State, l: nat)
    requires CanUnlockPop(s, l) && LinkOk(s, l)
    ensures LinkOk(UnlockPop(s, l), l)
  {
    PopQueueOk(s, l);
  }

  lemma UnlockPopStructure(s: State, l: nat)
    requires StructureOk(s) && CanUnlockPop(s, l)
    ensures StructureOk(UnlockPop(s, l))
  {
    assert QueueOk(s.packets, s.links[l]);
    UnlockPopLinkOk(s, l);
    OneLinkOk(s, UnlockPop(s, l), l);
  }

  lemma EnqueueLinkOk(s: State, l: nat)
    requires CanEnqueue(s, l) && LinkOk(s, l)
    ensures LinkOk(Enqueue(s, l), l)
  {
  }

  lemma EnqueueControlOk(s: State, l: nat)
    requires ControlOk(s) && ServerOk(s) && CanEnqueue(s, l) && LinkOk(s, l)
    ensures ControlOk(Enqueue(s, l)) && ServerOk(Enqueue(s, l))
  {
  }

  lemma EnqueueStructure(s: State, l: nat)
    requires StructureOk(s) && CanEnqueue(s, l)
    ensures StructureOk(Enqueue(s, l))
  {
    assert QueueOk(s.packets, s.links[l]);
    EnqueueLinkOk(s, l);
    OneLinkOk(s, Enqueue(s, l), l);
    EnqueueControlOk(s, l);
  }

  lemma LockFrontStructure(s: State, l: nat)
    requires StructureOk(s) && CanLockFront(s, l)
    ensures StructureOk(LockFront(s, l))
  {
    var s' := LockFront(s, l);
    var k, k' := s.links[l], s'.links[l];
    assert QueueOk(s.packets, k) && LockOk(s, k) && FlushedOk(k) && ReferenceOk(s, l, k);
    assert QueueOk(s'.packets, k') && LockOk(s', k') && FlushedOk(k') && ReferenceOk(s', l, k');
    OneLinkOk(s, s', l);
  }

  lemma DropLinkStructure(s: State, l: nat)
    requires StructureOk(s) && CanDropLink(s, l)
    ensures StructureOk(DropLink(s, l))
  {
    var s' := DropLink(s, l);
    var k, k' := s.links[l], s'.links[l];
    assert QueueOk(s.packets, k) && LockOk(s, k) && FlushedOk(k) && ReferenceOk(s, l, k);
    assert QueueOk(s'.packets, k') && LockOk(s', k') && FlushedOk(k') && ReferenceOk(s', l, k');
    OneLinkOk(s, s', l);
  }

  // ----- Structure: steps that change many links -----

  lemma AllLinksOk(s: State)
    requires forall l :: 0 <= l < |s.links| ==> LinkOk(s, l)
    ensures LinksOk(s)
  {
    forall l | 0 <= l < |s.links|
      ensures QueueOk(s.packets, s.links[l]) && LockOk(s, s.links[l])
      ensures FlushedOk(s.links[l]) && ReferenceOk(s, l, s.links[l])
    {
      assert LinkOk(s, l);
    }
  }

  lemma ShutdownTrackLinkOk(s: State, t: nat, l: nat)
    requires ControlOk(s) && CanShutdownTrack(s, t) && l < |s.links| && LinkOk(s, l)
    ensures LinkOk(ShutdownTrack(s, t), l)
  {
    var k, k' := s.links[l], ShutdownTrack(s, t).links[l];
    assert k' == DropTrackReference(k, t);
    assert QueueOk(s.packets, k');
  }

  lemma ShutdownTrackStructure(s: State, t: nat)
    requires StructureOk(s) && CanShutdownTrack(s, t)
    ensures StructureOk(ShutdownTrack(s, t))
  {
    var s' := ShutdownTrack(s, t);
    forall l | 0 <= l < |s'.links|
      ensures LinkOk(s', l)
    {
      assert QueueOk(s.packets, s.links[l]);
      ShutdownTrackLinkOk(s, t, l);
    }
    AllLinksOk(s');
  }

  lemma UnlinkAllLinkOk(s: State, l: nat)
    requires ControlOk(s) && CanUnlinkAll(s) && l < |s.links| && LinkOk(s, l)
    ensures LinkOk(UnlinkAll(s), l)
  {
    var k, k' := s.links[l], UnlinkAll(s).links[l];
    assert k' == Unlink(k, s.main.output);
    assert QueueOk(s.packets, k');
  }

  lemma UnlinkAllStructure(s: State)
    requires StructureOk(s) && CanUnlinkAll(s)
    ensures StructureOk(UnlinkAll(s))
  {
    var s' := UnlinkAll(s);
    forall l | 0 <= l < |s'.links|
      ensures LinkOk(s', l)
    {
      assert QueueOk(s.packets, s.links[l]);
      UnlinkAllLinkOk(s, l);
    }
    AllLinksOk(s');
  }

  // ----- Structure: the other steps -----

  lemma UnlockKeepStructure(s: State, l: nat)
    requires StructureOk(s) && CanUnlockKeep(s, l)
    ensures StructureOk(UnlockKeep(s, l))
  {
    var s' := UnlockKeep(s, l);
    assert QueueOk(s.packets, s.links[l]) && QueueOk(s'.packets, s'.links[l]);
    OneLinkOk(s, s', l);
  }

  lemma SwapOutStructure(s: State, l: nat)
    requires StructureOk(s) && CanSwapOut(s, l)
    ensures StructureOk(SwapOut(s, l))
  {
  }

  lemma CreateTrackStructure(s: State)
    requires StructureOk(s) && CanCreateTrack(s)
    ensures StructureOk(CreateTrack(s))
  {
  }

  lemma SelectOutputStructure(s: State, t: nat, o: nat)
    requires StructureOk(s) && CanSelectOutput(s, t, o)
    ensures StructureOk(SelectOutput(s, t, o))
  {
  }

  lemma AddTrackLinkStructure(s: State)
    requires StructureOk(s) && CanAddTrackLink(s)
    ensures StructureOk(AddTrackLink(s))
  {
  }

  lemma AddOutputStructure(s: State)
    requires StructureOk(s) && CanAddOutput(s)
    ensures StructureOk(AddOutput(s))
  {
  }

  lemma EndShutdownTrackStructure(s: State)
    requires StructureOk(s) && CanEndShutdownTrack(s)
    ensures StructureOk(EndShutdownTrack(s))
  {
  }

  lemma AcceptStructure(s: State, t: nat)
    requires StructureOk(s) && CanAccept(s, t)
    ensures StructureOk(Accept(s, t))
  {
  }

  lemma DropOwnCopyStructure(s: State)
    requires StructureOk(s) && CanDropOwnCopy(s)
    ensures StructureOk(DropOwnCopy(s))
  {
  }

  lemma EnqueueOwnStructure(s: State)
    requires StructureOk(s) && CanEnqueueOwn(s)
    ensures StructureOk(EnqueueOwn(s))
  {
  }

  lemma BeginFlushStructure(s: State, t: nat)
    requires StructureOk(s) && CanBeginFlush(s, t)
    ensures StructureOk(BeginFlush(s, t))
  {
  }

  lemma EndSwapOutStructure(s: State)
    requires StructureOk(s) && CanEndSwapOut(s)
    ensures StructureOk(EndSwapOut(s))
  {
  }

  lemma EndFlushStructure(s: State)
    requires StructureOk(s) && CanEndFlush(s)
    ensures StructureOk(EndFlush(s))
  {
  }

  lemma BeginCleanupStructure(s: State)
    requires StructureOk(s) && CanBeginCleanup(s)
    ensures StructureOk(BeginCleanup(s))
  {
  }

  lemma CallBackStructure(s: State)
    requires StructureOk(s) && CanCallBack(s)
    ensures StructureOk(CallBack(s))
  {
  }

  lemma EndCleanupStructure(s: State)
    requires StructureOk(s) && CanEndCleanup(s)
    ensures StructureOk(EndCleanup(s))
  {
  }

  lemma StopStructure(s: State)
    requires StructureOk(s) && CanStop(s)
    ensures StructureOk(Stop(s))
  {
  }

  lemma ShutdownOutputStructure(s: State, o: nat)
    requires StructureOk(s) && CanShutdownOutput(s, o)
    ensures StructureOk(ShutdownOutput(s, o))
  {
  }

  lemma BeginOutputStructure(s: State)
    requires StructureOk(s) && CanBeginOutput(s)
    ensures StructureOk(BeginOutput(s))
  {
  }

  lemma PassBarrierStructure(s: State)
    requires StructureOk(s) && CanPassBarrier(s)
    ensures StructureOk(PassBarrier(s))
  {
  }

  lemma EndOutputStructure(s: State)
    requires StructureOk(s) && CanEndOutput(s)
    ensures StructureOk(EndOutput(s))
  {
  }

  lemma EnterStructure(s: State, o: nat)
    requires StructureOk(s) && CanEnter(s, o)
    ensures StructureOk(Enter(s, o))
  {
  }

  lemma CheckStructure(s: State, o: nat)
    requires StructureOk(s) && CanCheck(s, o)
    ensures StructureOk(Check(s, o))
  {
  }

  lemma LeaveStructure(s: State, o: nat)
    requires StructureOk(s) && CanLeave(s, o)
    ensures StructureOk(Leave(s, o))
  {
  }

  lemma ShutdownSelfStructure(s: State, o: nat)
    requires StructureOk(s) && CanShutdownSelf(s, o)
    ensures StructureOk(ShutdownSelf(s, o))
  {
  }

  lemma PostFinishStructure(s: State, o: nat)
    requires StructureOk(s) && CanPostFinish(s, o)
    ensures StructureOk(PostFinish(s, o))
  {
  }

  lemma TrackStepKeepsStructure(s: State, e: TrackEvent)
    requires StructureOk(s) && TrackEnabled(s, e)
    ensures StructureOk(TrackApply(s, e))
  {
    match e
    case ECreateTrack => CreateTrackStructure(s);
    case ESelectOutput(t, o) => SelectOutputStructure(s, t, o);
    case EAddTrackLink => AddTrackLinkStructure(s);
    case EAddOutput => AddOutputStructure(s);
    case EShutdownTrack(t) => ShutdownTrackStructure(s, t);
    case EEndShutdownTrack => EndShutdownTrackStructure(s);
  }

  lemma PacketStepKeepsStructure(s: State, e: PacketEvent)
    requires StructureOk(s) && PacketEnabled(s, e)
    ensures StructureOk(PacketApply(s, e))
  {
    match e
    case EAccept(t) => AcceptStructure(s, t);
    case EPush(l) => PushStructure(s, l);
    case EDropOwnCopy => DropOwnCopyStructure(s);
    case EEnqueueOwn => EnqueueOwnStructure(s);
  }

  lemma FlushStepKeepsStructure(s: State, e: FlushEvent)
    requires StructureOk(s) && FlushEnabled(s, e)
    ensures StructureOk(FlushApply(s, e))
  {
    match e
    case EBeginFlush(t) => BeginFlushStructure(s, t);
    case ESwapOut(l) => SwapOutStructure(s, l);
    case ERelease(l) => ReleaseStructure(s, l);
    case EEnqueue(l) => EnqueueStructure(s, l);
    case EEndSwapOut => EndSwapOutStructure(s);
    case EEndFlush => EndFlushStructure(s);
  }

  lemma ServerStepKeepsStructure(s: State, e: ServerEvent)
    requires StructureOk(s) && ServerEnabled(s, e)
    ensures StructureOk(ServerApply(s, e))
  {
    match e
    case EBeginCleanup => BeginCleanupStructure(s);
    case ECallBack => CallBackStructure(s);
    case EEndCleanup => EndCleanupStructure(s);
    case EStop => StopStructure(s);
  }

  lemma OutputStepKeepsStructure(s: State, e: OutputEvent)
    requires StructureOk(s) && OutputEnabled(s, e)
    ensures StructureOk(OutputApply(s, e))
  {
    match e
    case EShutdownOutput(o) => ShutdownOutputStructure(s, o);
    case EBeginOutput => BeginOutputStructure(s);
    case EPassBarrier => PassBarrierStructure(s);
    case EUnlinkAll => UnlinkAllStructure(s);
    case EEndOutput => EndOutputStructure(s);
  }

  lemma WorkerStepKeepsStructure(s: State, e: WorkerEvent)
    requires StructureOk(s) && WorkerEnabled(s, e)
    ensures StructureOk(WorkerApply(s, e))
  {
    match e
    case EEnter(o) => EnterStructure(s, o);
    case ECheck(o) => CheckStructure(s, o);
    case ELeave(o) => LeaveStructure(s, o);
    case EShutdownSelf(o) => ShutdownSelfStructure(s, o);
    case EPostFinish(o) => PostFinishStructure(s, o);
  }

  lemma MixerStepKeepsStructure(s: State, e: MixerEvent)
    requires StructureOk(s) && MixerEnabled(s, e)
    ensures StructureOk(MixerApply(s, e))
  {
    match e
    case ELockFront(l) => LockFrontStructure(s, l);
    case EUnlockKeep(l) => UnlockKeepStructure(s, l);
    case EUnlockPop(l) => UnlockPopStructure(s, l);
    case EDropLink(l) => DropLinkStructure(s, l);
  }

  lemma StepKeepsStructure(s: State, e: Event)
    requires StructureOk(s) && Enabled(s, e)
    ensures StructureOk(Apply(s, e))
  {
    match e
    case TrackStep(x) => TrackStepKeepsStructure(s, x);
    case PacketStep(x) => PacketStepKeepsStructure(s, x);
    case FlushStep(x) => FlushStepKeepsStructure(s, x);
    case ServerStep(x) => ServerStepKeepsStructure(s, x);
    case OutputStep(x) => OutputStepKeepsStructure(s, x);
    case WorkerStep(x) => WorkerStepKeepsStructure(s, x);
    case MixerStep(x) => MixerStepKeepsStructure(s, x);
  }
}
