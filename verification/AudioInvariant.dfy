/** What every step of the audio server keeps. */
module AudioInvariant {
  import opened Wrappers
  import opened AudioSystem

  ghost predicate Increasing(a: seq<nat>) {
    forall i, j :: 0 <= i < j < |a| ==> a[i] < a[j]
  }

  // ----- One link -----

  /** The queue of a link and its history. */
  ghost predicate QueueOk(packets: seq<Packet>, k: Link) {
    && k.pushed == k.released + k.releasing + k.pending
    && Increasing(k.pushed)
    && (forall p :: p in k.pushed ==> p < |packets| && packets[p].track == k.track)
    && (forall p :: p in k.consumed ==> p in k.released)
    && (!k.stuck.NotStuck? ==> k.released != [] && k.released[|k.released| - 1] == k.stuck.packet)
    && (k.releasing != [] || k.stuck.InRelease? ==> k.pending == [])
  }

  /** What a mixer that owns the flush lock may rely on. */
  ghost predicate LockOk(s: State, k: Link) {
    && k.track < |s.tracks| && k.output < |s.outputs|
    && (k.lock.Mixer? ==> k.inOutput && s.outputs[k.output].owner.Processing?)
    && (k.stuck.InPop? ==> k.lock.Mixer? && k.lock.front.None?)
    && (k.lock.Mixer? && k.lock.front.Some? ==> k.pending != [] && k.pending[0] == k.lock.front.value)
  }

  /** flushed_ and the consumption cursor. */
  ghost predicate FlushedOk(k: Link) {
    && k.flushesAtLock <= k.flushes
    && (k.flushed <==> k.locks == 0 || k.flushes > k.flushesAtLock)
    && (Referenced(k) && !k.flushed ==> Cursor(k) == k.cursorAtLock + (if k.poppedSinceLock then 1 else 0))
    && (k.lock.Mixer? && k.lock.front.Some? ==> !k.poppedSinceLock)
  }

  /** References to the link, and what may be left in it once they are gone. */
  ghost predicate ReferenceOk(s: State, l: nat, k: Link) {
    && k.track < |s.tracks| && k.output < |s.outputs|
    && (k.inTrack ==> k.inOutput && s.tracks[k.track].bound)
    && (!Referenced(k) ==> k.pending == [])
    && (Referenced(k) && (k.releasing != [] || k.stuck.InRelease?) ==> s.main.Flushing? && s.main.current == Some(l))
    && (s.tracks[k.track].bound && !k.inTrack && !Drained(k) ==> s.main == OutClear(k.output))
    && (!k.inOutput && !Drained(k) ==> s.outputs[k.output].owner.Processing? || s.main == OutClear(k.output))
    && (s.outputs[k.output].shutDown || s.main == OutClear(k.output) ==> !k.inOutput)
  }

  ghost predicate LinksOk(s: State) {
    && (forall l :: 0 <= l < |s.links| ==> QueueOk(s.packets, s.links[l]))
    && (forall l :: 0 <= l < |s.links| ==> LockOk(s, s.links[l]))
    && (forall l :: 0 <= l < |s.links| ==> FlushedOk(s.links[l]))
    && (forall l :: 0 <= l < |s.links| ==> ReferenceOk(s, l, s.links[l]))
  }

  // ----- The main loop, outputs, tracks and server -----

  ghost predicate MainOk(s: State) {
    match s.main
    case Joining(t, o) =>
      t < |s.tracks| && s.tracks[t].bound && o < |s.outputs| && s.outputs[o].managed && s.server.Running?
    case Linking(l) =>
      && l < |s.links| && s.links[l].inOutput && !s.links[l].inTrack && s.links[l].pushed == []
      && s.links[l].track < |s.tracks| && s.tracks[s.links[l].track].bound && s.server.Running?
    case Pushing(p, todo) =>
      && p + 1 == |s.packets|
      && forall l :: l in todo ==>
           l < |s.links| && s.links[l].inTrack && s.links[l].track == s.packets[p].track && p !in s.links[l].pushed
    case Dropping(p) => p + 1 == |s.packets|
    case Flushing(t, todo, cur) =>
      && (forall l :: l in todo ==> l < |s.links| && s.links[l].inTrack)
      && (cur.Some? ==>
            cur.value < |s.links| && s.links[cur.value].inTrack
            && s.links[cur.value].pending == [] && !s.links[cur.value].stuck.InPop?)
    case TrackClear(t, wait) =>
      && t < |s.tracks| && !s.tracks[t].bound && s.tracks[t].listed && (s.server.Running? || s.server.StopTracks?)
      && wait == {}
    case OutBegin(o) => o < |s.outputs| && !s.outputs[o].shutDown
    case OutBarrier(o) => o < |s.outputs| && !s.outputs[o].shutDown && s.outputs[o].shuttingDown
    case OutWalk(o) => o < |s.outputs| && !s.outputs[o].shutDown && s.outputs[o].shuttingDown
    case OutClear(o) => o < |s.outputs| && !s.outputs[o].shutDown && s.outputs[o].shuttingDown
    case _ => true
  }

  ghost predicate OutputOk(s: State, o: nat, x: Output) {
    && (x.shutDown || s.main == OutWalk(o) || s.main == OutClear(o) ==> x.shuttingDown && !x.owner.Processing?)
    && x.cleanups == (if x.shutDown then 1 else 0)
    && x.posted + (if x.mustPost then 1 else 0) <= (if x.shuttingDown then 1 else 0)
    && x.finishTasks <= x.posted
    && (x.mustPost ==> x.owner.Processing?)
    && x.managed == !x.shutDown
  }

  ghost predicate TrackOk(s: State, t: nat, x: Track) {
    && (x.bound ==> x.listed)
    && (x.listed && !x.bound ==> s.main.TrackClear? && s.main.track == t)
  }

  ghost predicate ControlOk(s: State) {
    && MainOk(s)
    && (forall o :: 0 <= o < |s.outputs| ==> OutputOk(s, o, s.outputs[o]))
    && (forall t :: 0 <= t < |s.tracks| ==> TrackOk(s, t, s.tracks[t]))
  }

  ghost predicate ServerOk(s: State) {
    && (s.scheduled ==> s.tasks > 0)
    && (s.server.Running? && s.queue != [] ==> s.scheduled)
    && (!s.server.Running? && !s.server.StopTracks? ==> forall t :: 0 <= t < |s.tracks| ==> !s.tracks[t].listed)
    && (s.server.StopCleanup? || s.server.Stopped? ==> forall o :: 0 <= o < |s.outputs| ==> s.outputs[o].shutDown)
    && (s.draining != [] ==> s.main.Draining?)
    && (!s.server.Running? ==>
          s.main.Idle? || s.main.TrackClear? || s.main.OutBegin? || s.main.OutBarrier? || s.main.OutWalk?
          || s.main.OutClear? || s.main.Draining?)
    && (!s.server.Running? && s.main.Draining? ==> s.server.StopCleanup? && s.queue == [])
    && (s.server.Stopped? ==> s.main.Idle? && s.queue == [])
    && (s.server.StopCleanup? ==> s.main.Idle? || s.main.Draining?)
  }

  // ----- Packets -----

  ghost predicate Awaits(s: State, l: nat, p: nat) {
    s.main.Pushing? && s.main.packet == p && l in s.main.todo
  }

  ghost predicate SameTrack(s: State, i: nat, j: nat) {
    i < |s.packets| && j < |s.packets| && s.packets[i].track == s.packets[j].track
  }

  /** A link that has not finished with a packet still holds every later packet of the same track,
      except for the packet that the main loop is just about to push to it. */
  ghost predicate Ordered(s: State) {
    forall l, i, j ::
      0 <= l < |s.links| && 0 <= i < j < |s.packets| && SameTrack(s, i, j) && Carries(s.links[l], i) ==>
        Holds(s.links[l], j) || Awaits(s, l, j)
  }

  /** No copy of p is left, and nobody is about to put it in the cleanup queue. */
  ghost predicate Loose(s: State, p: nat) {
    && !(s.main.Pushing? && s.main.packet == p)
    && !(s.main.Dropping? && s.main.packet == p)
    && forall l :: 0 <= l < |s.links| ==> !Carries(s.links[l], p)
  }

  /** A packet is in the cleanup queue or past it exactly when nobody has it any more. */
  ghost predicate Located(s: State) {
    && (forall p :: p in Out(s) ==> p < |s.packets|)
    && (forall p :: 0 <= p < |s.packets| ==> (p in Out(s) <==> Loose(s, p)))
  }

  /** Only one thread is about to enqueue a packet, and no copy of it is left. */
  ghost predicate Alone(s: State) {
    && (forall l, p :: 0 <= l < |s.links| && StuckOn(s.links[l], p) ==>
          && !Holds(s.links[l], p)
          && !(s.main.Pushing? && s.main.packet == p) && !(s.main.Dropping? && s.main.packet == p))
    && (forall l, m, p :: 0 <= l < |s.links| && 0 <= m < |s.links| && l != m && StuckOn(s.links[l], p) ==>
          !Carries(s.links[m], p))
    && (s.main.Dropping? ==> forall l :: 0 <= l < |s.links| ==> !Carries(s.links[l], s.main.packet))
  }

  ghost predicate Sorted(s: State) {
    forall a, b ::
      0 <= a < b < |Out(s)| && SameTrack(s, Out(s)[a], Out(s)[b]) ==> Out(s)[a] < Out(s)[b]
  }

  /** Link k dropped p in a flush or in its destructor. */
  ghost predicate Discarded(k: Link, p: nat) {
    p in k.released && p !in k.consumed
  }

  ghost predicate DiscardedSomewhere(s: State, p: nat) {
    exists l :: 0 <= l < |s.links| && Discarded(s.links[l], p)
  }

  ghost predicate ResultsOk(s: State) {
    && (forall p :: 0 <= p < |s.packets| ==> (s.packets[p].result == FLUSHED <==> DiscardedSomewhere(s, p)))
    && |s.results| == |s.called|
    && (forall a :: 0 <= a < |s.called| ==> s.called[a] < |s.packets| && s.results[a] == s.packets[s.called[a]].result)
  }

  ghost predicate PacketsOk(s: State) {
    Ordered(s) && Located(s) && Alone(s) && Sorted(s) && ResultsOk(s)
  }

  ghost predicate StructureOk(s: State) {
    LinksOk(s) && ControlOk(s) && ServerOk(s)
  }

  ghost predicate Inv(s: State) {
    StructureOk(s) && PacketsOk(s)
  }

  lemma InitInv(s: State)
    requires Init(s)
    ensures Inv(s)
  {
  }
}
