/** What holds of every run of the audio server. */
module AudioTheorems {
  import opened Wrappers
  import opened AudioSystem
  import opened AudioInvariant
  import AudioPacketSteps
  import AudioStructureSteps

  // ----- Every reachable state satisfies the invariant -----

  lemma StepKeepsInv(s: State, s': State)
    requires Inv(s) && Next(s, s')
    ensures Inv(s')
  {
    var e :| Enabled(s, e) && s' == Apply(s, e);
    AudioStructureSteps.StepKeepsStructure(s, e);
    AudioPacketSteps.StepKeepsPackets(s, e);
  }

  lemma InvAfterStep(run: seq<State>, i: nat)
    requires IsRun(run) && i + 1 < |run| && Inv(run[i])
    ensures Inv(run[i + 1])
  {
    assert StepAt(run, i);
    StepKeepsInv(run[i], run[i + 1]);
  }

  lemma {:induction false} RunKeepsInv(run: seq<State>, i: nat)
    requires IsRun(run) && i < |run|
    ensures Inv(run[i])
  {
    if i == 0 {
      InitInv(run[0]);
    } else {
      RunKeepsInv(run, i - 1);
      InvAfterStep(run, i - 1);
    }
  }

  // ----- Packets come back in the order they were sent -----

  /** The packets of track t among xs, in the order of xs. */
  function OfTrack(packets: seq<Packet>, xs: seq<nat>, t: nat): (r: seq<nat>)
    ensures forall x :: x in r <==> x in xs && x < |packets| && packets[x].track == t
  {
    if xs == [] then []
    else
      var rest := OfTrack(packets, xs[..|xs| - 1], t);
      var x := xs[|xs| - 1];
      if x < |packets| && packets[x].track == t then rest + [x] else rest
  }

  function UpTo(n: nat): (r: seq<nat>)
    ensures |r| == n && forall i :: 0 <= i < n ==> r[i] == i
  {
    seq(n, i => i)
  }

  /** The packets accepted for track t, in the order they were sent. */
  function Sent(s: State, t: nat): seq<nat> {
    OfTrack(s.packets, UpTo(|s.packets|), t)
  }

  /** The packets of track t whose callbacks have run, in the order of the callbacks. */
  function Returned(s: State, t: nat): seq<nat> {
    OfTrack(s.packets, s.called, t)
  }

  ghost predicate IncreasingWithin(packets: seq<Packet>, xs: seq<nat>) {
    forall a, b ::
      0 <= a < b < |xs| && xs[a] < |packets| && xs[b] < |packets| && packets[xs[a]].track == packets[xs[b]].track ==>
        xs[a] < xs[b]
  }

  lemma {:induction false} OfTrackIncreasing(packets: seq<Packet>, xs: seq<nat>, t: nat)
    requires IncreasingWithin(packets, xs)
    ensures Increasing(OfTrack(packets, xs, t))
  {
    if xs != [] {
      var front, x := xs[..|xs| - 1], xs[|xs| - 1];
      assert xs == front + [x];
      forall a, b |
        0 <= a < b < |front| && front[a] < |packets| && front[b] < |packets| &&
        packets[front[a]].track == packets[front[b]].track
        ensures front[a] < front[b]
      {
        assert xs[a] < xs[b];
      }
      OfTrackIncreasing(packets, front, t);
      var rest := OfTrack(packets, front, t);
      if x < |packets| && packets[x].track == t {
        forall i | 0 <= i < |rest|
          ensures rest[i] < x
        {
          assert rest[i] in front;
          var a :| 0 <= a < |front| && front[a] == rest[i];
          assert xs[a] < xs[|xs| - 1];
        }
      }
    }
  }

  /** An increasing sequence that leaves out nothing below what it contains is a prefix. */
  lemma {:induction false} ClosedIsPrefix(a: seq<nat>, b: seq<nat>, k: nat)
    requires Increasing(a) && Increasing(b) && k <= |a|
    requires forall x :: x in a ==> x in b
    requires forall x, y :: x in a && y in b && y < x ==> y in a
    ensures k <= |b| && a[..k] == b[..k]
  {
    if k > 0 {
      ClosedIsPrefix(a, b, k - 1);
      var x := a[k - 1];
      assert x in a;
      var m :| 0 <= m < |b| && b[m] == x;
      forall n | 0 <= n < k - 1
        ensures a[n] == b[n]
      {
        assert a[..k - 1][n] == b[..k - 1][n];
      }
      assert k - 1 <= m;
      if k - 1 < m {
        var y := b[k - 1];
        assert y in b && y < x;
        var n :| 0 <= n < |a| && a[n] == y;
        assert false;
      }
      assert a[..k] == a[..k - 1] + [x] && b[..k] == b[..k - 1] + [b[k - 1]];
    }
  }

  /** A packet does not reach the cleanup queue before every earlier packet of its track has. */
  lemma EarlierIsOut(s: State, i: nat, j: nat)
    requires Inv(s) && i < j && SameTrack(s, i, j) && j in Out(s)
    ensures i in Out(s)
  {
    assert Loose(s, j);
    forall l | 0 <= l < |s.links|
      ensures !Carries(s.links[l], i)
    {
      assert !Carries(s.links[l], j) && !Awaits(s, l, j);
    }
    assert Loose(s, i);
  }

  /** ... and its callback does not run before theirs. */
  lemma EarlierIsCalled(s: State, i: nat, j: nat)
    requires Inv(s) && i < j && SameTrack(s, i, j) && j in s.called
    ensures i in s.called
  {
    var b :| 0 <= b < |s.called| && s.called[b] == j;
    assert Out(s)[b] == j;
    EarlierIsOut(s, i, j);
    var a :| 0 <= a < |Out(s)| && Out(s)[a] == i;
    assert SameTrack(s, Out(s)[b], Out(s)[a]);
    assert a < b;
    assert s.called[a] == i;
  }

  lemma CalledSorted(s: State)
    requires Sorted(s)
    ensures IncreasingWithin(s.packets, s.called)
  {
    forall a, b |
      0 <= a < b < |s.called| && s.called[a] < |s.packets| && s.called[b] < |s.packets| &&
      s.packets[s.called[a]].track == s.packets[s.called[b]].track
      ensures s.called[a] < s.called[b]
    {
      assert Out(s)[a] == s.called[a] && Out(s)[b] == s.called[b];
      assert SameTrack(s, Out(s)[a], Out(s)[b]);
    }
  }

  /** In every run, at every moment and for every track, the callbacks that have run are those of the
      first so many packets sent, in the order they were sent. */
  lemma PacketsReturnInOrder(run: seq<State>, i: nat, t: nat)
    requires IsRun(run) && i < |run|
    ensures Returned(run[i], t) <= Sent(run[i], t)
  {
    var s := run[i];
    RunKeepsInv(run, i);
    CalledSorted(s);
    OfTrackIncreasing(s.packets, s.called, t);
    OfTrackIncreasing(s.packets, UpTo(|s.packets|), t);
    var a, b := Returned(s, t), Sent(s, t);
    forall x | x in a
      ensures x in b
    {
      assert UpTo(|s.packets|)[x] == x;
    }
    forall x, y | x in a && y in b && y < x
      ensures y in a
    {
      assert SameTrack(s, y, x);
      EarlierIsCalled(s, y, x);
    }
    ClosedIsPrefix(a, b, |a|);
  }

  // ----- Each callback runs at most once, and what it reports -----

  lemma ArrivalsAreDistinct(s: State)
    requires Located(s) && Sorted(s)
    ensures forall a, b :: 0 <= a < b < |Out(s)| ==> Out(s)[a] != Out(s)[b]
  {
    forall a, b | 0 <= a < b < |Out(s)|
      ensures Out(s)[a] != Out(s)[b]
    {
      assert Out(s)[a] in Out(s);
      assert Out(s)[a] == Out(s)[b] ==> SameTrack(s, Out(s)[a], Out(s)[b]);
    }
  }

  lemma CallbacksRunAtMostOnce(run: seq<State>, i: nat)
    requires IsRun(run) && i < |run|
    ensures forall a, b :: 0 <= a < b < |run[i].called| ==> run[i].called[a] != run[i].called[b]
  {
    var s := run[i];
    RunKeepsInv(run, i);
    ArrivalsAreDistinct(s);
    assert forall a :: 0 <= a < |s.called| ==> s.called[a] == Out(s)[a];
  }

  /** A callback reports FLUSHED exactly if some link was given the packet and no mixer popped it there. */
  lemma FlushedMeansDiscarded(run: seq<State>, i: nat, a: nat)
    requires IsRun(run) && i < |run| && a < |run[i].called|
    ensures a < |run[i].results|
    ensures run[i].results[a] == FLUSHED <==>
            exists l :: 0 <= l < |run[i].links| &&
                        run[i].called[a] in run[i].links[l].pushed && run[i].called[a] !in run[i].links[l].consumed
  {
    var s := run[i];
    RunKeepsInv(run, i);
    var p := s.called[a];
    assert Out(s)[a] == p && p in Out(s);
    assert Loose(s, p);
    forall l | 0 <= l < |s.links|
      ensures Discarded(s.links[l], p) <==> p in s.links[l].pushed && p !in s.links[l].consumed
    {
      assert QueueOk(s.packets, s.links[l]);
      assert !Carries(s.links[l], p);
    }
    assert s.packets[p].result == FLUSHED <==> DiscardedSomewhere(s, p);
  }

  /** Before shutdown a non-empty cleanup queue always has a cleanup task on its way. */
  lemma NoPacketIsStranded(run: seq<State>, i: nat)
    requires IsRun(run) && i < |run|
    ensures run[i].server.Running? && run[i].queue != [] ==> run[i].tasks > 0
  {
    RunKeepsInv(run, i);
  }

  /** Every accepted packet is in exactly one place: some link or the main loop has it, or it has arrived
      in the cleanup queue and possibly been called back. */
  lemma PacketsAreConserved(run: seq<State>, i: nat, p: nat)
    requires IsRun(run) && i < |run| && p < |run[i].packets|
    ensures p in Out(run[i]) <==> Loose(run[i], p)
    ensures multiset(Out(run[i]))[p] <= 1
  {
    var s := run[i];
    RunKeepsInv(run, i);
    ArrivalsAreDistinct(s);
    DistinctCount(Out(s), p);
  }

  lemma {:induction false} DistinctCount(xs: seq<nat>, x: nat)
    requires forall a, b :: 0 <= a < b < |xs| ==> xs[a] != xs[b]
    ensures multiset(xs)[x] <= 1
  {
    if xs != [] {
      var front := xs[..|xs| - 1];
      assert xs == front + [xs[|xs| - 1]];
      DistinctCount(front, x);
      if x == xs[|xs| - 1] {
        assert x !in front;
      }
    }
  }

  // ----- Links -----

  /** pushed = released ++ being flushed ++ pending, and a packet that LockPendingQueueFront gave out is
      still the front of the queue. */
  lemma LinkQueues(run: seq<State>, i: nat, l: nat)
    requires IsRun(run) && i < |run| && l < |run[i].links|
    ensures var k := run[i].links[l];
            && k.pushed == k.released + k.releasing + k.pending
            && Increasing(k.pushed)
            && (k.lock.Mixer? && k.lock.front.Some? ==> k.pending != [] && k.pending[0] == k.lock.front.value)
  {
    RunKeepsInv(run, i);
    assert QueueOk(run[i].packets, run[i].links[l]) && LockOk(run[i], run[i].links[l]);
  }

  /** What LockPendingQueueFront tells a mixer: was_flushed is true exactly on the first lock and after a
      flush took effect; when it is false, the front is the packet after the one that the previous lock
      was undone with (the same one if it was kept). */
  lemma WasFlushedIsExact(run: seq<State>, i: nat, l: nat)
    requires IsRun(run) && i < |run| && CanLockFront(run[i], l)
    ensures var k := run[i].links[l];
            var given := LockFront(run[i], l).links[l].lock;
            var next := k.cursorAtLock + (if k.poppedSinceLock then 1 else 0);
            && (given.wasFlushed <==> k.locks == 0 || k.flushes > k.flushesAtLock)
            && (!given.wasFlushed ==>
                  next <= |k.pushed| && given.front == (if next < |k.pushed| then Some(k.pushed[next]) else None))
  {
    RunKeepsInv(run, i);
    var k := run[i].links[l];
    assert QueueOk(run[i].packets, k) && FlushedOk(k);
    assert k.pushed[Cursor(k)..] == k.pending;
  }

  // ----- The lifecycle of an output -----

  ghost predicate PastBarrier(s: State, o: nat) {
    o < |s.outputs| && (s.outputs[o].shutDown || s.main == OutWalk(o) || s.main == OutClear(o))
  }

  lemma StepStaysPastBarrier(s: State, e: Event, o: nat)
    requires Enabled(s, e) && PastBarrier(s, o)
    ensures PastBarrier(Apply(s, e), o)
  {
  }

  lemma NextStaysPastBarrier(s: State, s': State, o: nat)
    requires Next(s, s') && PastBarrier(s, o)
    ensures PastBarrier(s', o)
  {
    var e :| Enabled(s, e) && s' == Apply(s, e);
    StepStaysPastBarrier(s, e, o);
  }

  lemma PastBarrierAfterStep(run: seq<State>, i: nat, o: nat)
    requires IsRun(run) && i + 1 < |run| && PastBarrier(run[i], o)
    ensures PastBarrier(run[i + 1], o)
  {
    assert StepAt(run, i);
    NextStaysPastBarrier(run[i], run[i + 1], o);
  }

  lemma {:induction false} RunStaysPastBarrier(run: seq<State>, i: nat, j: nat, o: nat)
    requires IsRun(run) && i <= j < |run| && PastBarrier(run[i], o)
    ensures PastBarrier(run[j], o)
  {
    if i < j {
      RunStaysPastBarrier(run, i, j - 1, o);
      PastBarrierAfterStep(run, j - 1, o);
    }
  }

  /** Once Shutdown has passed the processing lock, no worker is in Process, now or ever after, and no
      mixer step on a link of that output is possible. */
  lemma BarrierExcludesMixers(run: seq<State>, i: nat, j: nat, o: nat)
    requires IsRun(run) && i <= j < |run| && PastBarrier(run[i], o)
    ensures o < |run[j].outputs| && run[j].outputs[o].shuttingDown && !run[j].outputs[o].owner.Processing?
    ensures forall l :: 0 <= l < |run[j].links| && run[j].links[l].output == o ==>
              !Mixable(run[j], l) && run[j].links[l].lock.Free?
  {
    RunStaysPastBarrier(run, i, j, o);
    RunKeepsInv(run, j);
    var s := run[j];
    assert OutputOk(s, o, s.outputs[o]);
    forall l | 0 <= l < |s.links| && s.links[l].output == o
      ensures !Mixable(s, l) && s.links[l].lock.Free?
    {
      assert LockOk(s, s.links[l]);
    }
  }

  /** The main loop is shutting the output down. */
  ghost predicate Ending(main: Main, o: nat) {
    main == OutBegin(o) || main == OutBarrier(o) || main == OutWalk(o) || main == OutClear(o)
  }

  /** A shutdown that has begun is going to be finished: its finishing task is about to be posted, is waiting
      in the message loop, or the main loop is at it. */
  ghost predicate UnderWay(s: State, o: nat) {
    o < |s.outputs| && s.outputs[o].shuttingDown && !s.outputs[o].shutDown ==>
      s.outputs[o].mustPost || s.outputs[o].finishTasks > 0 || Ending(s.main, o)
  }

  lemma OutputStepKeepsUnderWay(s: State, e: OutputEvent, o: nat)
    requires OutputEnabled(s, e) && UnderWay(s, o)
    ensures UnderWay(OutputApply(s, e), o)
  {
  }

  lemma WorkerStepKeepsUnderWay(s: State, e: WorkerEvent, o: nat)
    requires WorkerEnabled(s, e) && UnderWay(s, o)
    ensures UnderWay(WorkerApply(s, e), o)
  {
  }

  lemma StepKeepsUnderWay(s: State, e: Event, o: nat)
    requires Enabled(s, e) && UnderWay(s, o)
    ensures UnderWay(Apply(s, e), o)
  {
    match e
    case OutputStep(x) => OutputStepKeepsUnderWay(s, x, o);
    case WorkerStep(x) => WorkerStepKeepsUnderWay(s, x, o);
    case _ => assert Apply(s, e).outputs == s.outputs;
  }

  lemma UnderWayAfterStep(run: seq<State>, i: nat, o: nat)
    requires IsRun(run) && i + 1 < |run| && UnderWay(run[i], o)
    ensures UnderWay(run[i + 1], o)
  {
    assert StepAt(run, i);
    var e :| Enabled(run[i], e) && run[i + 1] == Apply(run[i], e);
    StepKeepsUnderWay(run[i], e, o);
  }

  lemma {:induction false} RunKeepsUnderWay(run: seq<State>, i: nat, o: nat)
    requires IsRun(run) && i < |run|
    ensures UnderWay(run[i], o)
  {
    if i > 0 {
      RunKeepsUnderWay(run, i - 1, o);
      UnderWayAfterStep(run, i - 1, o);
    }
  }

  /** However a shutdown starts, a task or the main loop is going to finish it; Cleanup runs at most once and the
      finishing task is posted at most once; a link in a track's outputs_ is in its output's links_; and when the
      output is shut down, no track has a link to it and every link it had is empty. */
  lemma OutputLifecycle(run: seq<State>, i: nat, o: nat)
    requires IsRun(run) && i < |run| && o < |run[i].outputs|
    ensures var s := run[i];
            && s.outputs[o].cleanups <= 1 && s.outputs[o].posted <= 1
            && (s.outputs[o].shutDown <==> s.outputs[o].cleanups == 1)
            && (s.outputs[o].shuttingDown && !s.outputs[o].shutDown ==>
                  || s.outputs[o].mustPost || s.outputs[o].finishTasks > 0
                  || s.main == OutBegin(o) || s.main == OutBarrier(o) || s.main == OutWalk(o) || s.main == OutClear(o))
            && forall l :: 0 <= l < |s.links| && s.links[l].output == o ==>
                 && (s.links[l].inTrack ==> s.links[l].inOutput)
                 && (s.outputs[o].shutDown ==> !s.links[l].inTrack && !s.links[l].inOutput && Drained(s.links[l]))
  {
    var s := run[i];
    RunKeepsInv(run, i);
    RunKeepsUnderWay(run, i, o);
    assert OutputOk(s, o, s.outputs[o]);
    forall l | 0 <= l < |s.links| && s.links[l].output == o
      ensures s.links[l].inTrack ==> s.links[l].inOutput
      ensures s.outputs[o].shutDown ==> !s.links[l].inTrack && !s.links[l].inOutput && Drained(s.links[l])
    {
      assert ReferenceOk(s, l, s.links[l]);
    }
  }

  // ----- Shutting down the server -----

  /** Between two messages the server's set of tracks is exactly the set of tracks that are still bound;
      so every round of the Shutdown loop finds a bound track and takes it out. */
  lemma ListedTracksAreBound(run: seq<State>, i: nat, t: nat)
    requires IsRun(run) && i < |run| && t < |run[i].tracks| && !run[i].main.TrackClear?
    ensures run[i].tracks[t].listed <==> run[i].tracks[t].bound
    ensures run[i].main.Idle? && run[i].server.StopTracks? && run[i].tracks[t].listed ==> CanShutdownTrack(run[i], t)
  {
    RunKeepsInv(run, i);
    assert TrackOk(run[i], t, run[i].tracks[t]);
  }

  /** When Shutdown has returned, the callback of every packet ever accepted has run. */
  lemma ShutdownReturnsEveryPacket(run: seq<State>, i: nat, t: nat)
    requires IsRun(run) && i < |run| && run[i].server.Stopped?
    ensures forall p :: 0 <= p < |run[i].packets| ==> p in run[i].called
    ensures Returned(run[i], t) == Sent(run[i], t)
  {
    var s := run[i];
    RunKeepsInv(run, i);
    forall p | 0 <= p < |s.packets|
      ensures p in s.called
    {
      forall l | 0 <= l < |s.links|
        ensures !Carries(s.links[l], p)
      {
        assert ReferenceOk(s, l, s.links[l]);
        assert OutputOk(s, s.links[l].output, s.outputs[s.links[l].output]);
        assert Drained(s.links[l]);
      }
      assert Loose(s, p);
      assert Out(s) == s.called;
    }
    PacketsReturnInOrder(run, i, t);
    var a, b := Returned(s, t), Sent(s, t);
    if |a| < |b| {
      assert b[|a|] in b && b[|a|] in a;
      var k :| 0 <= k < |a| && a[k] == b[|a|];
      assert b[k] == a[k];
      OfTrackIncreasing(s.packets, UpTo(|s.packets|), t);
      assert false;
    }
  }
}
