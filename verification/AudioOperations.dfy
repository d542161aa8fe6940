/**
  The operations of the audio server from their first step to their last: those of the main loop, from any state in
  which it can begin them, and those of a mixer on one link.  Where the main loop has to wait for a lock, the worker
  that has it takes the steps that give it back.

  Each loop is written as the source has it, over the sets and queues it works on, and every step it takes is a step
  of the state machine; so what holds of all runs holds of what is done here, and the loops are seen to end.
 */
module AudioOperations {
  import opened Wrappers
  import opened AudioSystem
  import opened AudioInvariant
  import opened AudioTheorems

  /** The state is the last of a run of the state machine. */
  ghost predicate Reached(run: seq<State>, s: State) {
    IsRun(run) && run[|run| - 1] == s
  }

  lemma ReachedInv(run: seq<State>, s: State)
    requires Reached(run, s)
    ensures Inv(s)
  {
    RunKeepsInv(run, |run| - 1);
  }

  lemma ReachedNext(run: seq<State>, s: State, s': State)
    requires Reached(run, s) && Next(s, s')
    ensures Reached(run + [s'], s')
  {
    var longer := run + [s'];
    forall i | 0 <= i < |longer| - 1
      ensures StepAt(longer, i)
    {
      if i < |run| - 1 {
        assert StepAt(run, i);
        assert longer[i] == run[i] && longer[i + 1] == run[i + 1];
      } else {
        assert longer[i] == s && longer[i + 1] == s';
      }
    }
  }

  lemma IsNext(s: State, s': State, e: Event)
    requires Enabled(s, e) && s' == Apply(s, e)
    ensures Next(s, s')
  {
  }

  // ----- ReleaseQueue -----

  /** ReleaseQueue is at work on link l: in a flush of the link, or in its destructor. */
  ghost predicate Releasing(s: State, l: nat) {
    && l < |s.links| && s.links[l].pending == []
    && ((s.main.Flushing? && s.main.current == Some(l)) || !Referenced(s.links[l]))
  }

  /** Packets keep their tracks. */
  ghost predicate SameTracks(packets: seq<Packet>, packets': seq<Packet>) {
    |packets'| == |packets| && forall p :: 0 <= p < |packets| ==> packets'[p].track == packets[p].track
  }

  ghost predicate OthersSame(links: seq<Link>, links': seq<Link>, l: nat) {
    |links'| == |links| && forall m :: 0 <= m < |links| && m != l ==> links'[m] == links[m]
  }

  /** Of a link only what ReleaseQueue works on has changed. */
  ghost predicate ReleasedSome(k: Link, k': Link) {
    && k' == k.(releasing := k'.releasing, stuck := k'.stuck, released := k'.released)
    && k'.released + k'.releasing == k.released + k.releasing
  }

  /** Apart from links, results and the cleanup queue nothing has changed. */
  ghost predicate OnlyLinks(s: State, s': State) {
    && s'.tracks == s.tracks && s'.outputs == s.outputs && s'.main == s.main && s'.server == s.server
    && s'.called == s.called && SameTracks(s.packets, s'.packets)
  }

  ghost predicate OnlyReleased(s: State, s': State, l: nat) {
    && OnlyLinks(s, s') && l < |s.links| && OthersSame(s.links, s'.links, l) && ReleasedSome(s.links[l], s'.links[l])
  }

  /** One round: the front packet is dropped ... */
  lemma ReleaseRound(run: seq<State>, s: State, l: nat)
    requires Reached(run, s) && Releasing(s, l) && s.links[l].stuck.NotStuck? && s.links[l].releasing != []
    ensures CanRelease(s, l) && Next(s, Release(s, l))
    ensures Releasing(Release(s, l), l) && OnlyReleased(s, Release(s, l), l)
    ensures |Release(s, l).links[l].releasing| < |s.links[l].releasing|
  {
    ReachedInv(run, s);
    var k := s.links[l];
    var p := k.releasing[0];
    assert QueueOk(s.packets, k) && p in k.pushed;
    assert k.released + [p] + k.releasing[1..] == k.released + k.releasing;
    IsNext(s, Release(s, l), FlushStep(ERelease(l)));
  }

  /** ... or a destroyed one reaches the cleanup queue. */
  lemma EnqueueRound(run: seq<State>, s: State, l: nat)
    requires Reached(run, s) && Releasing(s, l) && s.links[l].stuck.InRelease?
    ensures CanEnqueue(s, l) && Next(s, Enqueue(s, l))
    ensures Releasing(Enqueue(s, l), l) && OnlyReleased(s, Enqueue(s, l), l)
    ensures Enqueue(s, l).links[l].releasing == s.links[l].releasing && Enqueue(s, l).links[l].stuck.NotStuck?
  {
    IsNext(s, Enqueue(s, l), FlushStep(EEnqueue(l)));
  }

  lemma OnlyReleasedThen(s0: State, s: State, s': State, l: nat)
    requires OnlyReleased(s0, s, l) && OnlyReleased(s, s', l)
    ensures OnlyReleased(s0, s', l)
  {
  }

  // ----- Waiting for the locks of a link -----

  /** Whoever had the locks of link l has given them back, and has kept the front or finished releasing it. */
  ghost predicate Freed(s: State, s': State, l: nat) {
    && OnlyLinks(s, s') && s'.packets == s.packets && l < |s.links| && OthersSame(s.links, s'.links, l)
    && s'.links[l] == s.links[l].(lock := Free, stuck := s'.links[l].stuck)
    && s'.links[l].stuck == if s.links[l].stuck.InPop? then NotStuck else s.links[l].stuck
  }

  lemma FreeByEnqueue(run: seq<State>, s: State, l: nat)
    requires Reached(run, s) && l < |s.links| && s.links[l].stuck.InPop?
    ensures Next(s, Enqueue(s, l)) && Freed(s, Enqueue(s, l), l)
    ensures Enqueue(s, l).queue == s.queue + [s.links[l].stuck.packet]
  {
    IsNext(s, Enqueue(s, l), FlushStep(EEnqueue(l)));
  }

  lemma FreeByUnlock(run: seq<State>, s: State, l: nat)
    requires Reached(run, s) && l < |s.links| && s.links[l].lock.Mixer? && !s.links[l].stuck.InPop?
    ensures CanUnlockKeep(s, l) && Next(s, UnlockKeep(s, l)) && Freed(s, UnlockKeep(s, l), l)
  {
    ReachedInv(run, s);
    assert LockOk(s, s.links[l]);
    IsNext(s, UnlockKeep(s, l), MixerStep(EUnlockKeep(l)));
  }

  lemma FreeAlready(run: seq<State>, s: State, l: nat)
    requires Reached(run, s) && l < |s.links| && s.links[l].lock.Free?
    ensures Freed(s, s, l)
  {
    ReachedInv(run, s);
    assert LockOk(s, s.links[l]);
  }

  // ----- Locking and unlocking the front of a queue -----

  lemma LockRound(s: State, l: nat)
    requires CanLockFront(s, l)
    ensures Next(s, LockFront(s, l))
  {
    IsNext(s, LockFront(s, l), MixerStep(ELockFront(l)));
  }

  /** What became of a link whose front was given out: the front is gone, or nothing has changed. */
  ghost predicate Unlocked(k: Link, k': Link, release: bool)
    requires k.lock.Mixer?
  {
    if release && k.lock.front.Some?
    then k.pending == [k.lock.front.value] + k'.pending && k'.released == k.released + [k.lock.front.value]
    else k'.pending == k.pending && k'.released == k.released
  }

  ghost predicate AtRest(k: Link) {
    k.lock.Free? && !k.stuck.InPop?
  }

  lemma KeepRound(s: State, l: nat, release: bool)
    requires CanUnlockKeep(s, l) && !(release && s.links[l].lock.front.Some?)
    ensures
      var s' := UnlockKeep(s, l);
      && Next(s, s') && OthersSame(s.links, s'.links, l)
      && Unlocked(s.links[l], s'.links[l], release) && AtRest(s'.links[l])
  {
    IsNext(s, UnlockKeep(s, l), MixerStep(EUnlockKeep(l)));
  }

  /** The packet given out is still at the front. */
  lemma PopRound(run: seq<State>, s: State, l: nat)
    requires Reached(run, s) && CanUnlockKeep(s, l) && s.links[l].lock.front.Some?
    ensures CanUnlockPop(s, l) && s.links[l].pending[0] == s.links[l].lock.front.value
    ensures
      var s' := UnlockPop(s, l);
      && Next(s, s') && OthersSame(s.links, s'.links, l)
      && Unlocked(s.links[l], s'.links[l], true) && (AtRest(s'.links[l]) || s'.links[l].stuck.InPop?)
  {
    ReachedInv(run, s);
    assert LockOk(s, s.links[l]) && QueueOk(s.packets, s.links[l]);
    IsNext(s, UnlockPop(s, l), MixerStep(EUnlockPop(l)));
  }

  lemma PoppedRound(s0: State, s: State, l: nat)
    requires l < |s0.links| && s0.links[l].lock.Mixer? && OthersSame(s0.links, s.links, l)
    requires Unlocked(s0.links[l], s.links[l], true) && s.links[l].stuck.InPop?
    ensures CanEnqueue(s, l)
    ensures
      var s' := Enqueue(s, l);
      && Next(s, s') && OthersSame(s0.links, s'.links, l)
      && Unlocked(s0.links[l], s'.links[l], true) && AtRest(s'.links[l])
  {
    IsNext(s, Enqueue(s, l), FlushStep(EEnqueue(l)));
  }

  // ----- OnPacketReceived -----

  /** A link once the mixer that was popping its front has finished. */
  ghost function Popped(k: Link): Link {
    if k.stuck.InPop? then EnqueueLink(k) else k
  }

  /** Packet p has been pushed to these links, after waiting for a pop, and nothing else has happened to any. */
  ghost predicate PushedTo(links: seq<Link>, links': seq<Link>, p: nat, done: set<nat>) {
    && |links'| == |links|
    && forall l :: 0 <= l < |links| ==> links'[l] == if l in done then PushLink(Popped(links[l]), p) else links[l]
  }

  /** Only packets of pops that were waited for have reached the cleanup queue. */
  ghost predicate QueueGrew(links: seq<Link>, queue: seq<nat>, queue': seq<nat>) {
    queue <= queue' && forall q :: q in queue'[|queue|..] ==> PoppedBy(links, q)
  }

  ghost predicate PoppedBy(links: seq<Link>, q: nat) {
    exists l :: 0 <= l < |links| && links[l].stuck == InPop(q)
  }

  ghost predicate PushedAll(s0: State, s: State, t: nat) {
    && s.packets == s0.packets + [Packet(t, CONSUMED)] && s.outputs == s0.outputs
    && PushedTo(s0.links, s.links, |s0.packets|, LinksOf(s0, t))
  }

  ghost predicate PushedSoFar(s0: State, s: State, t: nat) {
    && s.main.Pushing? && s.main.packet == |s0.packets| && s.main.todo <= LinksOf(s0, t)
    && s.packets == s0.packets + [Packet(t, CONSUMED)] && s.outputs == s0.outputs
    && QueueGrew(s0.links, s0.queue, s.queue) && (LinksOf(s0, t) == {} ==> s.queue == s0.queue)
    && PushedTo(s0.links, s.links, |s0.packets|, LinksOf(s0, t) - s.main.todo)
  }

  lemma PushStarts(s: State, t: nat)
    requires CanAccept(s, t)
    ensures Next(s, Accept(s, t)) && PushedSoFar(s, Accept(s, t), t)
  {
    IsNext(s, Accept(s, t), PacketStep(EAccept(t)));
  }

  lemma PushedOneMore(links: seq<Link>, links': seq<Link>, p: nat, done: set<nat>, l: nat)
    requires PushedTo(links, links', p, done) && l < |links| && l !in done
    ensures PushedTo(links, links'[l := PushLink(Popped(links'[l]), p)], p, done + {l})
  {
  }

  /** The state once the pop that blocks a push to link l has finished. */
  ghost function AfterPop(s: State, l: nat): State
    requires l < |s.links|
  {
    if s.links[l].stuck.InPop? then Enqueue(s, l) else s
  }

  lemma QueueGrewByPop(links: seq<Link>, queue: seq<nat>, queue': seq<nat>, q: nat)
    requires QueueGrew(links, queue, queue') && PoppedBy(links, q)
    ensures QueueGrew(links, queue, queue' + [q])
  {
    assert (queue' + [q])[|queue|..] == queue'[|queue|..] + [q];
  }

  lemma PushRound(s0: State, s: State, t: nat, l: nat)
    requires PushedSoFar(s0, s, t) && l in s.main.todo
    ensures l < |s.links| && (s.links[l].stuck.InPop? ==> CanEnqueue(s, l) && Next(s, Enqueue(s, l)))
    ensures
      var s1 := AfterPop(s, l);
      && CanPush(s1, l) && Next(s1, Push(s1, l)) && PushedSoFar(s0, Push(s1, l), t)
      && Push(s1, l).main.todo == s.main.todo - {l}
  {
    var s1 := AfterPop(s, l);
    if s.links[l].stuck.InPop? {
      IsNext(s, Enqueue(s, l), FlushStep(EEnqueue(l)));
      assert s0.links[l].stuck == InPop(s.links[l].stuck.packet);
      QueueGrewByPop(s0.links, s0.queue, s.queue, s.links[l].stuck.packet);
    }
    IsNext(s1, Push(s1, l), PacketStep(EPush(l)));
    PushedOneMore(s0.links, s.links, |s0.packets|, LinksOf(s0, t) - s.main.todo, l);
    assert s1.links[l := PushLink(s1.links[l], |s0.packets|)]
        == s.links[l := PushLink(Popped(s.links[l]), |s0.packets|)];
    assert LinksOf(s0, t) - s.main.todo + {l} == LinksOf(s0, t) - (s.main.todo - {l});
  }

  lemma HeldWherePushed(s0: State, links: seq<Link>, done: set<nat>, l: nat)
    requires Inv(s0) && PushedTo(s0.links, links, |s0.packets|, done) && l < |links|
    ensures Holds(links[l], |s0.packets|) <==> l in done
  {
    assert QueueOk(s0.packets, s0.links[l]);
    assert |s0.packets| !in s0.links[l].pushed;
  }

  lemma PushEnds(s0: State, s: State, t: nat)
    requires Inv(s0) && PushedSoFar(s0, s, t) && s.main.todo == {}
    ensures
      var s' := DropOwnCopy(s);
      && Next(s, s') && PushedAll(s0, s', t) && s'.queue == s.queue
      && s'.main == (if LinksOf(s0, t) == {} then Dropping(|s0.packets|) else Idle)
  {
    IsNext(s, DropOwnCopy(s), PacketStep(EDropOwnCopy));
    assert LinksOf(s0, t) - {} == LinksOf(s0, t);
    forall l | 0 <= l < |s.links|
      ensures Holds(s.links[l], |s0.packets|) <==> l in LinksOf(s0, t)
    {
      HeldWherePushed(s0, s.links, LinksOf(s0, t), l);
    }
  }

  lemma DropEnds(s0: State, s: State, t: nat)
    requires s.main.Dropping? && PushedAll(s0, s, t)
    ensures Next(s, EnqueueOwn(s)) && PushedAll(s0, EnqueueOwn(s), t)
  {
    IsNext(s, EnqueueOwn(s), PacketStep(EEnqueueOwn));
  }

  // ----- OnFlushRequested -----

  ghost predicate FlushedLink(k: Link, k': Link) {
    && Drained(k') && k'.flushed && k'.released == k.released + k.pending && k'.pushed == k.pushed
    && k'.track == k.track && k'.inTrack == k.inTrack
  }

  /** These links have been flushed, and nothing has happened to any other. */
  ghost predicate FlushedTo(links: seq<Link>, links': seq<Link>, done: set<nat>) {
    && |links'| == |links|
    && forall l :: 0 <= l < |links| ==> if l in done then FlushedLink(links[l], links'[l]) else links'[l] == links[l]
  }

  ghost predicate FlushedAll(s0: State, s: State, t: nat) {
    && s.tracks == s0.tracks && s.outputs == s0.outputs && SameTracks(s0.packets, s.packets)
    && FlushedTo(s0.links, s.links, LinksOf(s0, t))
  }

  ghost predicate FlushedSoFar(s0: State, s: State, t: nat) {
    && s.main.Flushing? && s.main.track == t && s.main.current.None? && s.main.todo <= LinksOf(s0, t)
    && s.tracks == s0.tracks && s.outputs == s0.outputs && SameTracks(s0.packets, s.packets)
    && FlushedTo(s0.links, s.links, LinksOf(s0, t) - s.main.todo)
  }

  lemma FlushStarts(s: State, t: nat)
    requires CanBeginFlush(s, t)
    ensures Next(s, BeginFlush(s, t)) && FlushedSoFar(s, BeginFlush(s, t), t)
  {
    IsNext(s, BeginFlush(s, t), FlushStep(EBeginFlush(t)));
  }

  /** Once its locks are free, link l can be swapped out. */
  lemma FlushRound(run: seq<State>, s0: State, s: State, s1: State, t: nat, l: nat)
    requires Reached(run, s) && FlushedSoFar(s0, s, t) && l in s.main.todo && Freed(s, s1, l)
    ensures CanSwapOut(s1, l) && Next(s1, SwapOut(s1, l))
    ensures Releasing(SwapOut(s1, l), l) && !SwapOut(s1, l).links[l].stuck.InPop?
  {
    IsNext(s1, SwapOut(s1, l), FlushStep(ESwapOut(l)));
  }

  lemma FlushedOneMore(links: seq<Link>, links': seq<Link>, links'': seq<Link>, done: set<nat>, k: Link, l: nat)
    requires FlushedTo(links, links', done) && l < |links| && l !in done && links[l].releasing == []
    requires k == links[l].(lock := k.lock, stuck := k.stuck)
    requires OthersSame(links', links'', l) && ReleasedSome(SwapOutLink(k), links''[l]) && Drained(links''[l])
    ensures FlushedTo(links, links'', done + {l})
  {
    assert FlushedLink(links[l], links''[l]);
  }

  lemma FlushRoundEnds(run: seq<State>, s0: State, s: State, s1: State, s': State, t: nat, l: nat)
    requires Reached(run, s) && FlushedSoFar(s0, s, t) && l in s.main.todo && Freed(s, s1, l) && CanSwapOut(s1, l)
    requires OnlyReleased(SwapOut(s1, l), s', l) && Drained(s'.links[l])
    ensures CanEndSwapOut(s') && Next(s', EndSwapOut(s')) && FlushedSoFar(s0, EndSwapOut(s'), t)
    ensures EndSwapOut(s').main.todo == s.main.todo - {l}
  {
    ReachedInv(run, s);
    assert ReferenceOk(s, l, s.links[l]);
    IsNext(s', EndSwapOut(s'), FlushStep(EEndSwapOut));
    FlushedOneMore(s0.links, s.links, s'.links, LinksOf(s0, t) - s.main.todo, s1.links[l], l);
    assert LinksOf(s0, t) - s.main.todo + {l} == LinksOf(s0, t) - (s.main.todo - {l});
  }

  lemma FlushEnds(s0: State, s: State, t: nat)
    requires FlushedSoFar(s0, s, t) && s.main.todo == {}
    ensures Next(s, EndFlush(s)) && FlushedAll(s0, EndFlush(s), t)
  {
    IsNext(s, EndFlush(s), FlushStep(EEndFlush));
    assert LinksOf(s0, t) - {} == LinksOf(s0, t);
  }

  /** A bound track has packets only in the links of its outputs_. */
  lemma FlushedIsDrained(s0: State, s: State, t: nat, l: nat)
    requires Inv(s) && s.main.Idle? && FlushedAll(s0, s, t) && t < |s.tracks| && s.tracks[t].bound
    requires l < |s.links| && s.links[l].track == t
    ensures Drained(s.links[l])
  {
    assert ReferenceOk(s, l, s.links[l]);
  }

  lemma FlushedIsOut(run: seq<State>, s0: State, s: State, t: nat)
    requires Reached(run, s) && s.main.Idle? && FlushedAll(s0, s, t) && t < |s.tracks| && s.tracks[t].bound
    ensures forall p :: 0 <= p < |s.packets| && s.packets[p].track == t ==> p in Out(s)
  {
    ReachedInv(run, s);
    forall p | 0 <= p < |s.packets| && s.packets[p].track == t
      ensures p in Out(s)
    {
      forall l | 0 <= l < |s.links|
        ensures !Carries(s.links[l], p)
      {
        assert QueueOk(s.packets, s.links[l]);
        if s.links[l].track == t {
          FlushedIsDrained(s0, s, t, l);
        }
      }
      assert Loose(s, p);
    }
  }

  // ----- DoPacketCleanup -----

  ghost predicate CleanedSoFar(s0: State, s: State) {
    && s.main.Draining? && s.queue == [] && !s.scheduled
    && s.called + s.draining == s0.called + s0.queue
    && s.server == s0.server && s.packets == s0.packets && s.links == s0.links && s.outputs == s0.outputs
    && s.tracks == s0.tracks
  }

  lemma CleanupStarts(run: seq<State>, s: State)
    requires Reached(run, s) && CanBeginCleanup(s)
    ensures Next(s, BeginCleanup(s)) && CleanedSoFar(s, BeginCleanup(s))
  {
    IsNext(s, BeginCleanup(s), ServerStep(EBeginCleanup));
  }

  lemma CleanupRound(run: seq<State>, s0: State, s: State)
    requires Reached(run, s) && CleanedSoFar(s0, s) && s.draining != []
    ensures CanCallBack(s) && Next(s, CallBack(s)) && CleanedSoFar(s0, CallBack(s))
  {
    ReachedInv(run, s);
    assert Out(s)[|s.called|] == s.draining[0] && s.draining[0] in Out(s);
    assert s.called + [s.draining[0]] + s.draining[1..] == s.called + s.draining;
    IsNext(s, CallBack(s), ServerStep(ECallBack));
  }

  lemma CleanupEnds(s: State)
    requires CanEndCleanup(s)
    ensures Next(s, EndCleanup(s))
  {
    IsNext(s, EndCleanup(s), ServerStep(EEndCleanup));
  }

  // ----- SelectOutputsForTrack -----

  /** Output o takes links. */
  predicate TakesLinks(x: Output) {
    x.managed && !x.shuttingDown
  }

  /** Some link from number n on joins track t and output o at both ends. */
  ghost predicate LinkedTo(links: seq<Link>, n: nat, t: nat, o: nat) {
    exists l :: n <= l < |links| && Joins(links[l], t, o)
  }

  ghost predicate Joins(k: Link, t: nat, o: nat) {
    k.track == t && k.output == o && k.inTrack && k.inOutput
  }

  /** Old links are where they were; the new ones join track t to exactly those outputs before n that take links. */
  ghost predicate SelectedSoFar(s0: State, s: State, t: nat, n: nat) {
    && s.main.Idle? && s.server.Running? && s.tracks == s0.tracks && |s.packets| == |s0.packets|
    && SameTakers(s0.outputs, s.outputs)
    && |s0.links| <= |s.links| && SameReferences(s0.links, s.links[..|s0.links|])
    && (forall l :: |s0.links| <= l < |s.links| ==> s.links[l].output < n && Joins(s.links[l], t, s.links[l].output))
    && forall o :: 0 <= o < n && o < |s.outputs| ==>
         (LinkedTo(s.links, |s0.links|, t, o) <==> TakesLinks(s0.outputs[o]))
  }

  ghost predicate SameTakers(outputs: seq<Output>, outputs': seq<Output>) {
    && |outputs'| == |outputs|
    && forall o :: 0 <= o < |outputs| ==>
         outputs'[o].managed == outputs[o].managed && outputs'[o].shuttingDown == outputs[o].shuttingDown
  }

  lemma SelectedNone(s: State, t: nat)
    requires s.main.Idle? && s.server.Running?
    ensures SelectedSoFar(s, s, t, 0)
  {
    assert s.links[..|s.links|] == s.links;
  }

  lemma SelectRound(s: State, t: nat, o: nat)
    requires CanSelectOutput(s, t, o)
    ensures Next(s, SelectOutput(s, t, o))
  {
    IsNext(s, SelectOutput(s, t, o), TrackStep(ESelectOutput(t, o)));
  }

  lemma JoinRound(s: State)
    requires CanAddTrackLink(s)
    ensures Next(s, AddTrackLink(s))
    ensures AddTrackLink(s).main.Linking? ==>
      CanAddOutput(AddTrackLink(s)) && Next(AddTrackLink(s), AddOutput(AddTrackLink(s)))
  {
    IsNext(s, AddTrackLink(s), TrackStep(EAddTrackLink));
    if AddTrackLink(s).main.Linking? {
      IsNext(AddTrackLink(s), AddOutput(AddTrackLink(s)), TrackStep(EAddOutput));
    }
  }

  /** Links that are where they were join what they joined. */
  lemma StillLinked(links: seq<Link>, links': seq<Link>, n: nat, t: nat, o: nat)
    requires |links| <= |links'| && SameReferences(links, links'[..|links|])
    requires forall l :: |links| <= l < |links'| ==> links'[l].output != o
    ensures LinkedTo(links', n, t, o) <==> LinkedTo(links, n, t, o)
  {
    assert forall l :: 0 <= l < |links| ==> links'[..|links|][l] == links'[l];
    assert forall l :: 0 <= l < |links| ==> SameReference(links[l], links'[..|links|][l]);
    if LinkedTo(links, n, t, o) {
      var l :| n <= l < |links| && Joins(links[l], t, o);
      assert Joins(links'[l], t, o);
    }
    if LinkedTo(links', n, t, o) {
      var l :| n <= l < |links'| && Joins(links'[l], t, o);
      assert Joins(links[l], t, o);
    }
  }

  /** One output: the worker was waited for, and a link was made or thrown away. */
  lemma SelectedOneMore(s0: State, s: State, s1: State, t: nat, o: nat)
    requires SelectedSoFar(s0, s, t, o) && o < |s.outputs| && s.outputs[o].managed
    requires Left(Turned(s, t, o), s1, o) && CanAddTrackLink(s1)
    ensures SelectedSoFar(s0, Joined(s1), t, o + 1)
  {
    var s' := Joined(s1);
    var n, m := |s0.links|, |s.links|;
    assert SameReferences(s.links, s'.links[..m]) by {
      assert forall l :: 0 <= l < m ==> s'.links[..m][l] == s1.links[l];
    }
    assert forall l :: 0 <= l < m ==> SameReference(s.links[l], s1.links[l]) && s'.links[l] == s1.links[l];
    assert SameReferences(s0.links, s'.links[..n]) by {
      assert forall l :: 0 <= l < n ==> s.links[..n][l] == s.links[l] && s'.links[..n][l] == s'.links[l];
    }
    forall x | 0 <= x < o
      ensures LinkedTo(s'.links, n, t, x) <==> TakesLinks(s0.outputs[x])
    {
      StillLinked(s.links, s'.links, n, t, x);
    }
    if TakesLinks(s0.outputs[o]) {
      assert Joins(s'.links[m], t, o);
    } else {
      assert forall l :: n <= l < |s'.links| ==> s'.links[l].output < o;
    }
  }

  /** The main loop has turned to output o. */
  ghost function Turned(s: State, t: nat, o: nat): State {
    s.(main := Joining(t, o))
  }

  /** AddTrackLink, and AddOutput if the link was taken. */
  ghost function Joined(s: State): State
    requires CanAddTrackLink(s)
  {
    var s' := AddTrackLink(s);
    if s'.main.Linking? && CanAddOutput(s') then AddOutput(s') else s'
  }

  lemma SelectedSkip(s0: State, s: State, t: nat, o: nat)
    requires SelectedSoFar(s0, s, t, o) && o < |s.outputs| && !s.outputs[o].managed
    ensures SelectedSoFar(s0, s, t, o + 1)
  {
    assert forall l :: |s0.links| <= l < |s.links| ==> s.links[l].output < o;
  }

  // ----- Shutdown -----

  /** tracks_ of the server. */
  function Listed(tracks: seq<Track>): set<nat> {
    set t: nat | t < |tracks| && tracks[t].listed
  }

  /** The links of other tracks are untouched, and those of this one lose nothing but the track's reference. */
  ghost predicate OthersUnlinked(links: seq<Link>, links': seq<Link>, t: nat) {
    && |links'| == |links|
    && forall l :: 0 <= l < |links| ==>
         links'[l] == if links[l].track == t then links[l].(inTrack := false) else links[l]
  }

  /** Shutting down a listed track takes it, and only it, out of tracks_; its outputs_ needs no waiting. */
  lemma TrackRound(run: seq<State>, s: State, t: nat)
    requires Reached(run, s) && s.main.Idle? && (s.server.Running? || s.server.StopTracks?) && t in Listed(s.tracks)
    ensures CanShutdownTrack(s, t) && Next(s, ShutdownTrack(s, t))
    ensures
      var s1 := ShutdownTrack(s, t);
      && CanEndShutdownTrack(s1) && Next(s1, EndShutdownTrack(s1))
      && Listed(EndShutdownTrack(s1).tracks) == Listed(s.tracks) - {t}
      && LinksOf(EndShutdownTrack(s1), t) == {}
      && OthersUnlinked(s.links, s1.links, t)
  {
    ReachedInv(run, s);
    assert TrackOk(s, t, s.tracks[t]);
    IsNext(s, ShutdownTrack(s, t), TrackStep(EShutdownTrack(t)));
    var s1 := ShutdownTrack(s, t);
    forall l | l in LinksOf(s, t)
      ensures s.links[l].inOutput
    {
      assert ReferenceOk(s, l, s.links[l]);
    }
    assert s1.main.wait == {};
    forall l | 0 <= l < |s.links|
      ensures s1.links[l] == if s.links[l].track == t then s.links[l].(inTrack := false) else s.links[l]
    {
      assert ReferenceOk(s, l, s.links[l]);
    }
    IsNext(s1, EndShutdownTrack(s1), TrackStep(EEndShutdownTrack));
  }

  /** The stages of an output's shutdown up to the processing lock ... */
  lemma OutputBegins(run: seq<State>, s: State, o: nat)
    requires Reached(run, s) && CanShutdownOutput(s, o)
    ensures
      var s1 := ShutdownOutput(s, o);
      && Next(s, s1) && s1.main == OutBegin(o) && CanBeginOutput(s1) && Next(s1, BeginOutput(s1))
  {
    ReachedInv(run, s);
    assert OutputOk(s, o, s.outputs[o]);
    var s1 := ShutdownOutput(s, o);
    IsNext(s, s1, OutputStep(EShutdownOutput(o)));
    IsNext(s1, BeginOutput(s1), OutputStep(EBeginOutput));
  }

  /** ... and from there to the clearing of links_. */
  lemma OutputUnlinks(s: State)
    requires CanPassBarrier(s)
    ensures
      var s1 := PassBarrier(s);
      Next(s, s1) && CanUnlinkAll(s1) && Next(s1, UnlinkAll(s1))
  {
    var s1 := PassBarrier(s);
    IsNext(s, s1, OutputStep(EPassBarrier));
    IsNext(s1, UnlinkAll(s1), OutputStep(EUnlinkAll));
  }

  /** Links are where they were: in the same tracks and outputs. */
  ghost predicate SameReferences(links: seq<Link>, links': seq<Link>) {
    && |links'| == |links|
    && forall l :: 0 <= l < |links| ==> SameReference(links[l], links'[l])
  }

  ghost predicate SameReference(k: Link, k': Link) {
    k'.track == k.track && k'.output == k.output && k'.inTrack == k.inTrack && k'.inOutput == k.inOutput
  }

  /** The links of output o before n are as a worker has to leave them. */
  ghost predicate TidiedSoFar(s0: State, s: State, o: nat, n: nat) {
    && OnlyLinks(s0, s) && SameReferences(s0.links, s.links) && n <= |s.links|
    && forall l :: 0 <= l < n && s.links[l].output == o ==> Tidy(s.links[l])
  }

  ghost predicate Tidy(k: Link) {
    k.lock.Free? && (!k.inOutput ==> Drained(k))
  }

  lemma TidiedOneMore(s0: State, s: State, s': State, o: nat, n: nat)
    requires TidiedSoFar(s0, s, o, n) && n < |s.links| && OnlyLinks(s, s') && OthersSame(s.links, s'.links, n)
    requires SameReference(s.links[n], s'.links[n])
    requires s'.links[n].output == o ==> Tidy(s'.links[n])
    ensures TidiedSoFar(s0, s', o, n + 1)
  {
  }

  /** A link that has left links_ is being destroyed. */
  lemma UnlistedIsReleasing(run: seq<State>, s: State, l: nat)
    requires Reached(run, s) && l < |s.links| && !s.links[l].inOutput
    ensures Releasing(s, l) && s.links[l].lock.Free? && !s.links[l].stuck.InPop?
  {
    ReachedInv(run, s);
    assert ReferenceOk(s, l, s.links[l]) && LockOk(s, s.links[l]);
  }

  /** With all links tidied, the worker posts its task if it still has to, and leaves. */
  lemma WorkerLeaves(s: State, o: nat)
    requires o < |s.outputs| && s.outputs[o].owner.Processing? && TidiedSoFar(s, s, o, |s.links|)
    ensures s.outputs[o].mustPost ==> CanPostFinish(s, o) && Next(s, PostFinish(s, o))
    ensures
      var s1 := if s.outputs[o].mustPost then PostFinish(s, o) else s;
      CanLeave(s1, o) && Next(s1, Leave(s1, o))
  {
    if s.outputs[o].mustPost {
      IsNext(s, PostFinish(s, o), WorkerStep(EPostFinish(o)));
    }
    var s1 := if s.outputs[o].mustPost then PostFinish(s, o) else s;
    IsNext(s1, Leave(s1, o), WorkerStep(ELeave(o)));
  }

  /** Nobody has the processing lock of output o; nothing else has changed but what its worker had to finish. */
  ghost predicate Left(s: State, s': State, o: nat) {
    && s'.main == s.main && s'.server == s.server && s'.tracks == s.tracks && |s'.packets| == |s.packets|
    && SameReferences(s.links, s'.links)
    && |s'.outputs| == |s.outputs| && o < |s.outputs| && s'.outputs[o].owner.Nobody?
    && s'.outputs[o].shutDown == s.outputs[o].shutDown && s'.outputs[o].managed == s.outputs[o].managed
    && s'.outputs[o].shuttingDown == s.outputs[o].shuttingDown
    && forall x :: 0 <= x < |s.outputs| && x != o ==> s'.outputs[x] == s.outputs[x]
  }

  lemma WorkerChecks(s: State, o: nat)
    requires CanCheck(s, o)
    ensures Next(s, Check(s, o))
  {
    IsNext(s, Check(s, o), WorkerStep(ECheck(o)));
  }

  lemma ClearRound(run: seq<State>, s: State, l: nat)
    requires Reached(run, s) && s.main.OutClear? && l < |s.links| && s.links[l].output == s.main.output
    ensures Releasing(s, l) && !s.links[l].stuck.InPop?
  {
    ReachedInv(run, s);
    assert ReferenceOk(s, l, s.links[l]) && LockOk(s, s.links[l]);
  }

  /** Since state s1, where links_ of output o began to be cleared, the links before n have been. */
  ghost predicate ClearedSoFar(s1: State, s: State, o: nat, n: nat) {
    && s1.main == OutClear(o) && s.main == OutClear(o) && s.tracks == s1.tracks && s.outputs == s1.outputs
    && s.server == s1.server && |s.packets| == |s1.packets| && n <= |s.links|
    && forall l :: 0 <= l < n && s.links[l].output == o ==> Drained(s.links[l])
  }

  lemma ClearedOneMore(s1: State, s: State, s': State, o: nat, n: nat)
    requires ClearedSoFar(s1, s, o, n) && OnlyReleased(s, s', n) && Drained(s'.links[n])
    ensures ClearedSoFar(s1, s', o, n + 1)
  {
  }

  lemma OutputEnds(s1: State, s: State, o: nat)
    requires ClearedSoFar(s1, s, o, |s.links|) && o < |s.outputs|
    ensures CanEndOutput(s) && Next(s, EndOutput(s))
  {
    IsNext(s, EndOutput(s), OutputStep(EEndOutput));
  }

  lemma Stops(s: State)
    requires CanStop(s)
    ensures Next(s, Stop(s))
  {
    IsNext(s, Stop(s), ServerStep(EStop));
  }

  class AudioServer {
    var s: State
    ghost var run: seq<State>

    ghost predicate Valid()
      reads this
    {
      Reached(run, s)
    }

    constructor (outputs: nat)
      ensures Valid() && Init(s) && |s.outputs| == outputs
    {
      var output := Output(false, false, Nobody, false, 0, true, 0, 0);
      var start := State([], [], [], seq(outputs, i => output), Idle, Running, [], [], false, 0, [], []);
      s := start;
      run := [start];
    }

    /** One step of the state machine. */
    method Go(s': State)
      requires Valid() && Next(s, s')
      modifies this
      ensures Valid() && s == s'
    {
      ReachedNext(run, s, s');
      s := s';
      run := run + [s'];
    }

    /** The packets are dropped front to back; destroyed ones reach the cleanup queue. */
    method ReleaseQueue(l: nat)
      requires Valid() && Releasing(s, l) && !s.links[l].stuck.InPop?
      modifies this
      ensures Valid() && OnlyReleased(old(s), s, l) && Drained(s.links[l])
    {
      while s.links[l].releasing != [] || !s.links[l].stuck.NotStuck?
        invariant Valid() && Releasing(s, l) && OnlyReleased(old(s), s, l) && !s.links[l].stuck.InPop?
        decreases |s.links[l].releasing|, if s.links[l].stuck.NotStuck? then 0 else 1
      {
        ghost var before := s;
        if s.links[l].stuck.NotStuck? {
          ReleaseRound(run, s, l);
          Go(Release(s, l));
        } else {
          EnqueueRound(run, s, l);
          Go(Enqueue(s, l));
        }
        OnlyReleasedThen(old(s), before, s, l);
      }
    }

    /** A mixer learns the front of the queue, and whether it may take it for a continuation. */
    method LockPendingQueueFront(l: nat) returns (front: Option<nat>, wasFlushed: bool)
      requires Valid() && CanLockFront(s, l)
      modifies this
      ensures Valid() && s == LockFront(old(s), l) && s.links[l].lock == Mixer(wasFlushed, front)
      ensures
        var k := old(s.links[l]);
        var next := k.cursorAtLock + (if k.poppedSinceLock then 1 else 0);
        && (wasFlushed <==> k.locks == 0 || k.flushes > k.flushesAtLock)
        && (!wasFlushed ==> next <= |k.pushed| && front == if next < |k.pushed| then Some(k.pushed[next]) else None)
    {
      WasFlushedIsExact(run, |run| - 1, l);
      front := if s.links[l].pending == [] then None else Some(s.links[l].pending[0]);
      wasFlushed := s.links[l].flushed;
      LockRound(s, l);
      Go(LockFront(s, l));
    }

    /** The mixer is done with the front; what it releases is what it was given. */
    method UnlockPendingQueueFront(l: nat, release: bool)
      requires Valid() && CanUnlockKeep(s, l)
      modifies this
      ensures Valid() && OthersSame(old(s.links), s.links, l)
      ensures Unlocked(old(s.links[l]), s.links[l], release) && AtRest(s.links[l])
    {
      if release && s.links[l].lock.front.Some? {
        PopRound(run, s, l);
        Go(UnlockPop(s, l));
        if s.links[l].stuck.InPop? {
          PoppedRound(old(s), s, l);
          Go(Enqueue(s, l));
        }
      } else {
        KeepRound(s, l, release);
        Go(UnlockKeep(s, l));
      }
    }

    /** Waits until link l is not locked: the mixer that has its locks unlocks, or finishes what it is popping. */
    method AwaitLocks(l: nat)
      requires Valid() && l < |s.links|
      modifies this
      ensures Valid() && Freed(old(s), s, l)
    {
      if s.links[l].stuck.InPop? {
        FreeByEnqueue(run, s, l);
        Go(Enqueue(s, l));
      } else if s.links[l].lock.Mixer? {
        FreeByUnlock(run, s, l);
        Go(UnlockKeep(s, l));
      } else {
        FreeAlready(run, s, l);
      }
    }

    /** AudioTrackImpl::OnPacketReceived, and the end of the copy that AudioPipe made. */
    method OnPacketReceived(t: nat)
      requires Valid() && CanAccept(s, t)
      modifies this
      ensures Valid() && s.main.Idle? && PushedAll(old(s), s, t)
      ensures
        if LinksOf(old(s), t) == {} then s.queue == old(s.queue) + [|old(s.packets)|]
        else QueueGrew(old(s.links), old(s.queue), s.queue)
    {
      ReachedInv(run, s);
      PushStarts(s, t);
      Go(Accept(s, t));
      while s.main.todo != {}
        invariant Valid() && PushedSoFar(old(s), s, t)
        decreases |s.main.todo|
      {
        var l :| l in s.main.todo;
        PushRound(old(s), s, t, l);
        if s.links[l].stuck.InPop? {
          Go(Enqueue(s, l));
        }
        Go(Push(s, l));
      }
      PushEnds(old(s), s, t);
      Go(DropOwnCopy(s));
      if s.main.Dropping? {
        DropEnds(old(s), s, t);
        Go(EnqueueOwn(s));
      }
    }

    /** AudioTrackImpl::OnFlushRequested: afterwards every packet of the track is on its way back to the client. */
    method OnFlushRequested(t: nat)
      requires Valid() && CanBeginFlush(s, t)
      modifies this
      ensures Valid() && s.main.Idle? && FlushedAll(old(s), s, t)
      ensures forall p :: 0 <= p < |s.packets| && s.packets[p].track == t ==> p in Out(s)
    {
      FlushStarts(s, t);
      Go(BeginFlush(s, t));
      while s.main.todo != {}
        invariant Valid() && FlushedSoFar(old(s), s, t)
        decreases |s.main.todo|
      {
        var l :| l in s.main.todo;
        ghost var before, reached := s, run;
        AwaitLocks(l);
        ghost var free := s;
        FlushRound(reached, old(s), before, s, t, l);
        Go(SwapOut(s, l));
        ReleaseQueue(l);
        FlushRoundEnds(reached, old(s), before, free, s, t, l);
        Go(EndSwapOut(s));
      }
      FlushEnds(old(s), s, t);
      Go(EndFlush(s));
      FlushedIsOut(run, old(s), s, t);
    }

    /** AudioOutputManager::SelectOutputsForTrack: the track gets a link to every output that is not shutting down. */
    method SelectOutputsForTrack(t: nat)
      requires Valid() && s.main.Idle? && s.server.Running? && t < |s.tracks| && s.tracks[t].bound
      modifies this
      ensures Valid() && SelectedSoFar(old(s), s, t, |s.outputs|)
    {
      SelectedNone(s, t);
      for o := 0 to |s.outputs|
        invariant Valid() && |s.outputs| == |old(s.outputs)| && SelectedSoFar(old(s), s, t, o)
      {
        ghost var before := s;
        if s.outputs[o].managed {
          SelectRound(s, t, o);
          Go(SelectOutput(s, t, o));
          AwaitWorker(o);
          JoinRound(s);
          SelectedOneMore(old(s), before, s, t, o);
          Go(AddTrackLink(s));
          if s.main.Linking? {
            Go(AddOutput(s));
          }
        } else {
          SelectedSkip(old(s), s, t, o);
        }
      }
    }

    /** The queue is swapped out, and its callbacks run front to back. */
    method DoPacketCleanup()
      requires Valid() && CanBeginCleanup(s)
      modifies this
      ensures Valid() && s.main.Idle? && s.queue == [] && s.called == old(s.called) + old(s.queue)
      ensures s.server == (if old(s.server).StopCleanup? then Stopped else old(s.server)) && s.packets == old(s.packets)
    {
      CleanupStarts(run, s);
      Go(BeginCleanup(s));
      while s.draining != []
        invariant Valid() && CleanedSoFar(old(s), s)
        decreases |s.draining|
      {
        CleanupRound(run, old(s), s);
        Go(CallBack(s));
      }
      CleanupEnds(s);
      Go(EndCleanup(s));
    }

    /** AudioTrackImpl::Shutdown. */
    method ShutdownTrack(t: nat)
      requires Valid() && s.main.Idle? && (s.server.Running? || s.server.StopTracks?) && t in Listed(s.tracks)
      modifies this
      ensures Valid() && s.main.Idle? && s.server == old(s.server) && s.outputs == old(s.outputs)
      ensures Listed(s.tracks) == Listed(old(s.tracks)) - {t} && s.packets == old(s.packets)
      ensures s.tracks == old(s.tracks)[t := Track(false, false)]
      ensures LinksOf(s, t) == {} && OthersUnlinked(old(s.links), s.links, t)
    {
      TrackRound(run, s, t);
      Go(AudioSystem.ShutdownTrack(s, t));
      Go(EndShutdownTrack(s));
    }

    /** AudioOutput::Shutdown, as the manager calls it; it waits for a worker that is in Process. */
    method ShutdownOutput(o: nat)
      requires Valid() && CanShutdownOutput(s, o)
      modifies this
      ensures Valid() && s.main.Idle? && s.server == old(s.server) && s.tracks == old(s.tracks)
      ensures |s.packets| == |old(s.packets)| && |s.outputs| == |old(s.outputs)|
      ensures s.outputs[o].shutDown && !s.outputs[o].managed && s.outputs[o].owner.Nobody?
      ensures forall x :: 0 <= x < |s.outputs| && x != o ==> s.outputs[x] == old(s.outputs[x])
    {
      OutputBegins(run, s, o);
      Go(AudioSystem.ShutdownOutput(s, o));
      Go(BeginOutput(s));
      AwaitWorker(o);
      OutputUnlinks(s);
      Go(PassBarrier(s));
      Go(UnlinkAll(s));
      ghost var s1 := s;
      ClearLinks(o);
      OutputEnds(s1, s, o);
      Go(EndOutput(s));
    }

    /** processing_lock_.Acquire(): the worker that has the lock, if any, ends what it is doing and gives it back. */
    method AwaitWorker(o: nat)
      requires Valid() && o < |s.outputs|
      modifies this
      ensures Valid() && Left(old(s), s, o)
    {
      if s.outputs[o].owner.Checking? {
        WorkerChecks(s, o);
        Go(Check(s, o));
      }
      if s.outputs[o].owner.Processing? {
        TidyLinks(o);
        WorkerLeaves(s, o);
        if s.outputs[o].mustPost {
          Go(PostFinish(s, o));
        }
        Go(Leave(s, o));
      }
    }

    /** A worker about to leave Process unlocks what it has locked and finishes the destructors it has begun. */
    method TidyLinks(o: nat)
      requires Valid()
      modifies this
      ensures Valid() && OnlyLinks(old(s), s) && SameReferences(old(s.links), s.links)
      ensures TidiedSoFar(s, s, o, |s.links|)
    {
      for l := 0 to |s.links|
        invariant Valid() && |s.links| == |old(s.links)| && TidiedSoFar(old(s), s, o, l)
      {
        ghost var before := s;
        if s.links[l].output == o && s.links[l].inOutput {
          AwaitLocks(l);
        } else if s.links[l].output == o {
          UnlistedIsReleasing(run, s, l);
          ReleaseQueue(l);
        }
        TidiedOneMore(old(s), before, s, o, l);
      }
    }

    /** links_.clear(): the links that were unlinked are destroyed, one after the other. */
    method ClearLinks(o: nat)
      requires Valid() && s.main == OutClear(o)
      modifies this
      ensures Valid() && ClearedSoFar(old(s), s, o, |s.links|)
    {
      for l := 0 to |s.links|
        invariant Valid() && ClearedSoFar(old(s), s, o, l) && |s.links| == |old(s.links)|
      {
        if s.links[l].output == o {
          ghost var before := s;
          ClearRound(run, s, l);
          ReleaseQueue(l);
          ClearedOneMore(old(s), before, s, o, l);
        }
      }
    }

    /** The first loop of AudioServerImpl::Shutdown; tracks_ gets smaller in every round. */
    method ShutdownTracks()
      requires Valid() && s.main.Idle? && s.server.StopTracks?
      modifies this
      ensures Valid() && CanStop(s) && s.server.StopTracks?
      ensures s.outputs == old(s.outputs) && s.packets == old(s.packets)
    {
      while Listed(s.tracks) != {}
        invariant Valid() && s.main.Idle? && s.server.StopTracks?
        invariant s.outputs == old(s.outputs) && s.packets == old(s.packets)
        decreases |Listed(s.tracks)|
      {
        var t :| t in Listed(s.tracks);
        ShutdownTrack(t);
      }
      AllUnlisted(s.tracks);
    }

    /** AudioOutputManager::Shutdown. */
    method ShutdownOutputs()
      requires Valid() && s.main.Idle? && s.server.StopOutputs?
      modifies this
      ensures Valid() && CanStop(s) && s.server.StopOutputs? && |s.packets| == |old(s.packets)|
    {
      for o := 0 to |s.outputs|
        invariant Valid() && s.main.Idle? && s.server.StopOutputs?
        invariant |s.packets| == |old(s.packets)| && |s.outputs| == |old(s.outputs)|
        invariant forall x :: 0 <= x < o ==> !s.outputs[x].managed
      {
        if s.outputs[o].managed {
          ShutdownOutput(o);
        }
      }
    }

    /** AudioServerImpl::Shutdown: it comes to an end, and by then the client has every packet back. */
    method Shutdown()
      requires Valid() && s.main.Idle? && s.server.Running?
      modifies this
      ensures Valid() && s.server.Stopped? && |s.packets| == |old(s.packets)|
      ensures forall p :: 0 <= p < |s.packets| ==> p in s.called
      ensures forall t :: Returned(s, t) == Sent(s, t)
    {
      Stops(s);
      Go(Stop(s));
      ShutdownTracks();
      Stops(s);
      Go(Stop(s));
      ShutdownOutputs();
      Stops(s);
      Go(Stop(s));
      DoPacketCleanup();
      AllReturned(run, s);
    }
  }

  lemma AllUnlisted(tracks: seq<Track>)
    requires Listed(tracks) == {}
    ensures forall t :: 0 <= t < |tracks| ==> !tracks[t].listed
  {
    forall t | 0 <= t < |tracks|
      ensures !tracks[t].listed
    {
      assert t !in Listed(tracks);
    }
  }

  lemma AllReturned(run: seq<State>, s: State)
    requires Reached(run, s) && s.server.Stopped?
    ensures forall p :: 0 <= p < |s.packets| ==> p in s.called
    ensures forall t :: Returned(s, t) == Sent(s, t)
  {
    forall t: nat
      ensures (forall p :: 0 <= p < |s.packets| ==> p in s.called) && Returned(s, t) == Sent(s, t)
    {
      ShutdownReturnsEveryPacket(run, |run| - 1, t);
    }
    ShutdownReturnsEveryPacket(run, |run| - 1, 0);
  }
}
