/**
  The audio server as a state machine over the atomic sections of its threads.

  One main loop (tracks, flushes, cleanup, shutdowns) interleaves freely with any number of mixer
  threads.  A mixer works on the links of one output, only inside `Process`, that is while it owns that
  output's processing lock.  A packet is shared by reference: it is destroyed by the drop of its last
  copy, on whichever thread that happens, and is put in the cleanup queue in a later, separate step.

  Tracks, outputs, links and packets are numbered in the order of their creation; so a packet's number
  is its place in the order in which packets were accepted.
 */
module AudioSystem {
  import opened Wrappers

  datatype SendResult = CONSUMED | FLUSHED

  /** A MediaPacketState: the track it was sent to, and the result its callback is going to report. */
  datatype Packet = Packet(track: nat, result: SendResult)

  /** A thread that has dropped a packet's last copy but has not yet put it in the cleanup queue.
      In `InPop` the mixer still owns both locks of the link; in `InRelease` no lock is held. */
  datatype Stuck = NotStuck | InPop(packet: nat) | InRelease(packet: nat)

  /** The flush lock of a link.  While a mixer owns it, it remembers what LockPendingQueueFront gave it. */
  datatype FlushLock = Free | Mixer(wasFlushed: bool, front: Option<nat>)

  datatype Link = Link(
    track: nat,
    output: nat,
    inTrack: bool,            // the track's outputs_ has a reference to the link
    inOutput: bool,           // the output's links_ has a reference to the link
    pending: seq<nat>,        // pending_queue_
    releasing: seq<nat>,      // what ReleaseQueue still has to drop (a flush, or the destructor)
    stuck: Stuck,
    flushed: bool,            // flushed_
    lock: FlushLock,
    // history
    pushed: seq<nat>,         // every packet ever pushed
    released: seq<nat>,       // every packet dropped, in the order of dropping
    consumed: set<nat>,       // those of them that a mixer popped
    locks: nat,               // calls of LockPendingQueueFront
    flushes: nat,             // flushes that took effect
    flushesAtLock: nat,       // value of `flushes` at the latest lock
    cursorAtLock: nat,        // place in `pushed` of the front at the latest lock
    poppedSinceLock: bool     // the latest lock was undone with a release of the packet
  )

  datatype Track = Track(bound: bool, listed: bool)

  /** Who owns an output's processing lock: a worker that has yet to look at shutting_down_, or one that
      found it false and is in Process. */
  datatype Owner = Nobody | Checking | Processing

  datatype Output = Output(
    shuttingDown: bool,
    shutDown: bool,
    owner: Owner,
    mustPost: bool,           // ShutdownSelf began the shutdown and has still to post the finishing task
    finishTasks: nat,         // finishing tasks waiting in the message loop
    managed: bool,            // in the manager's outputs_
    // history
    posted: nat,              // finishing tasks ever posted
    cleanups: nat             // calls of Cleanup
  )

  /** What the main loop is in the middle of. */
  datatype Main =
    | Idle
    | Joining(track: nat, output: nat)                             // AddTrackLink, before the processing lock
    | Linking(link: nat)                                           // between AddTrackLink and AddOutput
    | Pushing(packet: nat, todo: set<nat>)                         // OnPacketReceived, own copy alive
    | Dropping(packet: nat)                                        // its own copy was the last one
    | Flushing(track: nat, todo: set<nat>, current: Option<nat>)   // OnFlushRequested
    | TrackClear(track: nat, wait: set<nat>)                       // AudioTrackImpl::Shutdown
    | OutBegin(output: nat)                                        // AudioOutput::Shutdown, stage by stage
    | OutBarrier(output: nat)
    | OutWalk(output: nat)
    | OutClear(output: nat)
    | Draining                                                     // DoPacketCleanup, after the swap

  datatype Server = Running | StopTracks | StopOutputs | StopCleanup | Stopped

  datatype State = State(
    packets: seq<Packet>,
    links: seq<Link>,
    tracks: seq<Track>,
    outputs: seq<Output>,
    main: Main,
    server: Server,
    queue: seq<nat>,          // cleanup_queue_
    draining: seq<nat>,       // tmp_queue of DoPacketCleanup
    scheduled: bool,          // cleanup_scheduled_
    tasks: nat,               // cleanup tasks posted to the message loop
    // history
    called: seq<nat>,         // packets whose callback has run, in order
    results: seq<SendResult>  // what those callbacks reported
  )

  // ----- Where packets are -----

  predicate Holds(k: Link, p: nat) {
    p in k.releasing || p in k.pending
  }

  predicate StuckOn(k: Link, p: nat) {
    k.stuck == InPop(p) || k.stuck == InRelease(p)
  }

  predicate Carries(k: Link, p: nat) {
    Holds(k, p) || StuckOn(k, p)
  }

  predicate Drained(k: Link) {
    k.pending == [] && k.releasing == [] && k.stuck.NotStuck?
  }

  predicate Referenced(k: Link) {
    k.inTrack || k.inOutput
  }

  /** Some copy of packet p exists apart from the ones that link l holds. */
  predicate HeldApartFrom(s: State, l: nat, p: nat) {
    (s.main.Pushing? && s.main.packet == p) ||
    exists m :: 0 <= m < |s.links| && m != l && Holds(s.links[m], p)
  }

  /** Everything that has reached the cleanup queue, in order of arrival. */
  function Out(s: State): seq<nat> {
    s.called + s.draining + s.queue
  }

  // ----- The main loop: tracks and links -----

  predicate CanCreateTrack(s: State) {
    s.main.Idle? && s.server.Running?
  }

  function CreateTrack(s: State): State
    requires CanCreateTrack(s)
  {
    s.(tracks := s.tracks + [Track(true, true)])
  }

  function NewLink(t: nat, o: nat): Link {
    Link(t, o, false, true, [], [], NotStuck, true, Free, [], [], {}, 0, 0, 0, 0, false)
  }

  /** SelectOutputsForTrack turns to an output. */
  predicate CanSelectOutput(s: State, t: nat, o: nat) {
    && s.main.Idle? && s.server.Running?
    && t < |s.tracks| && s.tracks[t].bound
    && o < |s.outputs| && s.outputs[o].managed
  }

  function SelectOutput(s: State, t: nat, o: nat): State
    requires CanSelectOutput(s, t, o)
  {
    s.(main := Joining(t, o))
  }

  /** AddTrackLink waits for the processing lock; if the output is shutting down the new link is thrown away. */
  predicate CanAddTrackLink(s: State) {
    s.main.Joining? && s.main.output < |s.outputs| && s.outputs[s.main.output].owner.Nobody?
  }

  function AddTrackLink(s: State): State
    requires CanAddTrackLink(s)
  {
    var Joining(t, o) := s.main;
    if s.outputs[o].shuttingDown then s.(main := Idle)
    else s.(links := s.links + [NewLink(t, o)], main := Linking(|s.links|))
  }

  predicate CanAddOutput(s: State) {
    s.main.Linking? && s.main.link < |s.links|
  }

  function AddOutput(s: State): State
    requires CanAddOutput(s)
  {
    var l := s.main.link;
    s.(links := s.links[l := s.links[l].(inTrack := true)], main := Idle)
  }

  // ----- The main loop: packets -----

  /** The links in a track's outputs_. */
  function LinksOf(s: State, t: nat): set<nat> {
    set l | 0 <= l < |s.links| && s.links[l].inTrack && s.links[l].track == t
  }

  predicate CanAccept(s: State, t: nat) {
    s.main.Idle? && s.server.Running? && t < |s.tracks| && s.tracks[t].bound
  }

  function Accept(s: State, t: nat): State
    requires CanAccept(s, t)
  {
    s.(packets := s.packets + [Packet(t, CONSUMED)], main := Pushing(|s.packets|, LinksOf(s, t)))
  }

  /** PushToPendingQueue waits for the pending queue lock, which a mixer owns while it pops. */
  predicate CanPush(s: State, l: nat) {
    s.main.Pushing? && l in s.main.todo && l < |s.links| && !s.links[l].stuck.InPop?
  }

  function PushLink(k: Link, p: nat): Link {
    k.(pending := k.pending + [p], pushed := k.pushed + [p])
  }

  function Push(s: State, l: nat): State
    requires CanPush(s, l)
  {
    s.(links := s.links[l := PushLink(s.links[l], s.main.packet)],
       main := Pushing(s.main.packet, s.main.todo - {l}))
  }

  predicate CanDropOwnCopy(s: State) {
    s.main.Pushing? && s.main.todo == {}
  }

  function DropOwnCopy(s: State): State
    requires CanDropOwnCopy(s)
  {
    var p := s.main.packet;
    if exists m :: 0 <= m < |s.links| && Holds(s.links[m], p) then s.(main := Idle) else s.(main := Dropping(p))
  }

  /** SchedulePacketCleanup, under the cleanup queue lock. */
  function Schedule(s: State, p: nat): State {
    var post := !s.scheduled && s.server.Running?;
    s.(queue := s.queue + [p], scheduled := s.scheduled || post, tasks := if post then s.tasks + 1 else s.tasks)
  }

  predicate CanEnqueueOwn(s: State) {
    s.main.Dropping?
  }

  function EnqueueOwn(s: State): State
    requires CanEnqueueOwn(s)
  {
    Schedule(s, s.main.packet).(main := Idle)
  }

  // ----- The main loop: flushing -----

  predicate CanBeginFlush(s: State, t: nat) {
    s.main.Idle? && s.server.Running? && t < |s.tracks| && s.tracks[t].bound
  }

  function BeginFlush(s: State, t: nat): State
    requires CanBeginFlush(s, t)
  {
    s.(main := Flushing(t, LinksOf(s, t), None))
  }

  /** FlushPendingQueue up to the release of both locks; it waits for the flush lock. */
  predicate CanSwapOut(s: State, l: nat) {
    && s.main.Flushing? && s.main.current.None? && l in s.main.todo && l < |s.links|
    && s.links[l].lock.Free?
  }

  function SwapOutLink(k: Link): Link {
    k.(releasing := k.pending, pending := [], flushed := true, flushes := k.flushes + 1)
  }

  function SwapOut(s: State, l: nat): State
    requires CanSwapOut(s, l)
  {
    s.(links := s.links[l := SwapOutLink(s.links[l])],
       main := Flushing(s.main.track, s.main.todo - {l}, Some(l)))
  }

  /** One round of ReleaseQueue: SetResult(FLUSHED) and the drop of the copy.  It runs in a flush of this
      link, or in the destructor, on whichever thread dropped the last reference to the link. */
  predicate CanRelease(s: State, l: nat) {
    && l < |s.links| && s.links[l].releasing != [] && s.links[l].stuck.NotStuck?
    && s.links[l].releasing[0] < |s.packets|
    && ((s.main.Flushing? && s.main.current == Some(l)) || !Referenced(s.links[l]))
  }

  function ReleaseLink(k: Link, last: bool): Link
    requires k.releasing != []
  {
    var p := k.releasing[0];
    k.(releasing := k.releasing[1..], released := k.released + [p], stuck := if last then InRelease(p) else NotStuck)
  }

  function Release(s: State, l: nat): State
    requires CanRelease(s, l)
  {
    var p := s.links[l].releasing[0];
    s.(links := s.links[l := ReleaseLink(s.links[l], !HeldApartFrom(s, l, p))],
       packets := s.packets[p := s.packets[p].(result := FLUSHED)])
  }

  /** The destroyed packet reaches the cleanup queue; a mixer then also lets go of its locks. */
  predicate CanEnqueue(s: State, l: nat) {
    l < |s.links| && !s.links[l].stuck.NotStuck?
  }

  function EnqueueLink(k: Link): Link {
    if k.stuck.InPop? then k.(stuck := NotStuck, lock := Free) else k.(stuck := NotStuck)
  }

  function Enqueue(s: State, l: nat): State
    requires CanEnqueue(s, l)
  {
    Schedule(s, s.links[l].stuck.packet).(links := s.links[l := EnqueueLink(s.links[l])])
  }

  predicate CanEndSwapOut(s: State) {
    && s.main.Flushing? && s.main.current.Some? && s.main.current.value < |s.links|
    && s.links[s.main.current.value].releasing == [] && s.links[s.main.current.value].stuck.NotStuck?
  }

  function EndSwapOut(s: State): State
    requires CanEndSwapOut(s)
  {
    s.(main := s.main.(current := None))
  }

  predicate CanEndFlush(s: State) {
    s.main.Flushing? && s.main.current.None? && s.main.todo == {}
  }

  function EndFlush(s: State): State
    requires CanEndFlush(s)
  {
    s.(main := Idle)
  }

  // ----- The main loop: cleanup -----

  /** The cleanup posted by SchedulePacketCleanup, or the last line of AudioServerImpl::Shutdown. */
  predicate CanBeginCleanup(s: State) {
    s.main.Idle? && ((s.server.Running? && s.tasks > 0) || s.server.StopCleanup?)
  }

  function BeginCleanup(s: State): State
    requires CanBeginCleanup(s)
  {
    s.(main := Draining, draining := s.queue, queue := [], scheduled := false,
       tasks := if s.server.Running? then s.tasks - 1 else s.tasks)
  }

  predicate CanCallBack(s: State) {
    s.main.Draining? && s.draining != [] && s.draining[0] < |s.packets|
  }

  function CallBack(s: State): State
    requires CanCallBack(s)
  {
    var p := s.draining[0];
    s.(draining := s.draining[1..], called := s.called + [p], results := s.results + [s.packets[p].result])
  }

  predicate CanEndCleanup(s: State) {
    s.main.Draining? && s.draining == []
  }

  function EndCleanup(s: State): State
    requires CanEndCleanup(s)
  {
    s.(main := Idle, server := if s.server.StopCleanup? then Stopped else s.server)
  }

  // ----- The main loop: shutting down a track -----

  /** The track's reference to a link goes away; if it was the last one the destructor starts. */
  function DropTrackReference(k: Link, t: nat): Link {
    if k.track == t && k.inTrack then
      if k.inOutput then k.(inTrack := false) else k.(inTrack := false, releasing := k.pending, pending := [])
    else k
  }

  predicate CanShutdownTrack(s: State, t: nat) {
    && s.main.Idle? && (s.server.Running? || s.server.StopTracks?)
    && t < |s.tracks| && s.tracks[t].bound
  }

  function ShutdownTrack(s: State, t: nat): State
    requires CanShutdownTrack(s, t)
  {
    s.(tracks := s.tracks[t := s.tracks[t].(bound := false)],
       links := seq(|s.links|, i requires 0 <= i < |s.links| => DropTrackReference(s.links[i], t)),
       main := TrackClear(t, set l | l in LinksOf(s, t) && !s.links[l].inOutput))
  }

  predicate CanEndShutdownTrack(s: State) {
    && s.main.TrackClear? && s.main.track < |s.tracks|
    && forall l :: l in s.main.wait && l < |s.links| ==> Drained(s.links[l])
  }

  function EndShutdownTrack(s: State): State
    requires CanEndShutdownTrack(s)
  {
    var t := s.main.track;
    s.(tracks := s.tracks[t := s.tracks[t].(listed := false)], main := Idle)
  }

  // ----- The main loop: shutting down an output -----

  /** FinishShutdownSelf, or the loop of AudioOutputManager::Shutdown. */
  predicate CanShutdownOutput(s: State, o: nat) {
    && s.main.Idle? && o < |s.outputs| && s.outputs[o].managed
    && ((s.server.Running? && s.outputs[o].finishTasks > 0) || s.server.StopOutputs?)
  }

  function ShutdownOutput(s: State, o: nat): State
    requires CanShutdownOutput(s, o)
  {
    var x := s.outputs[o];
    var x' := x.(finishTasks := if s.server.Running? then x.finishTasks - 1 else x.finishTasks);
    if x.shutDown then s.(outputs := s.outputs[o := x'.(managed := false)])
    else s.(outputs := s.outputs[o := x'], main := OutBegin(o))
  }

  predicate CanBeginOutput(s: State) {
    s.main.OutBegin? && s.main.output < |s.outputs|
  }

  function BeginOutput(s: State): State
    requires CanBeginOutput(s)
  {
    var o := s.main.output;
    s.(outputs := s.outputs[o := s.outputs[o].(shuttingDown := true)], main := OutBarrier(o))
  }

  /** Acquire and release of the processing lock: possible only while nobody owns it. */
  predicate CanPassBarrier(s: State) {
    s.main.OutBarrier? && s.main.output < |s.outputs| && s.outputs[s.main.output].owner.Nobody?
  }

  function PassBarrier(s: State): State
    requires CanPassBarrier(s)
  {
    s.(main := OutWalk(s.main.output))
  }

  /** A link found in links_ loses both its references and is destroyed. */
  function Unlink(k: Link, o: nat): Link {
    if k.output == o && k.inOutput
    then k.(inTrack := false, inOutput := false, releasing := k.pending, pending := [])
    else k
  }

  predicate CanUnlinkAll(s: State) {
    s.main.OutWalk?
  }

  function UnlinkAll(s: State): State
    requires CanUnlinkAll(s)
  {
    var o := s.main.output;
    s.(links := seq(|s.links|, i requires 0 <= i < |s.links| => Unlink(s.links[i], o)), main := OutClear(o))
  }

  /** links_.clear() has returned, so every destructor it ran has finished; then Cleanup. */
  predicate CanEndOutput(s: State) {
    && s.main.OutClear? && s.main.output < |s.outputs|
    && forall l :: 0 <= l < |s.links| && s.links[l].output == s.main.output ==> Drained(s.links[l])
  }

  function EndOutput(s: State): State
    requires CanEndOutput(s)
  {
    var o := s.main.output;
    var x := s.outputs[o];
    s.(outputs := s.outputs[o := x.(shutDown := true, managed := false, cleanups := x.cleanups + 1)], main := Idle)
  }

  // ----- The main loop: shutting down the server -----

  predicate CanStop(s: State) {
    && s.main.Idle?
    && match s.server {
         case Running => true
         case StopTracks => forall t :: 0 <= t < |s.tracks| ==> !s.tracks[t].listed
         case StopOutputs => forall o :: 0 <= o < |s.outputs| ==> !s.outputs[o].managed
         case _ => false
       }
  }

  function Stop(s: State): State
    requires CanStop(s)
  {
    s.(server := if s.server.Running? then StopTracks else if s.server.StopTracks? then StopOutputs else StopCleanup)
  }

  // ----- Workers -----

  predicate CanEnter(s: State, o: nat) {
    o < |s.outputs| && s.outputs[o].owner.Nobody?
  }

  function Enter(s: State, o: nat): State
    requires CanEnter(s, o)
  {
    s.(outputs := s.outputs[o := s.outputs[o].(owner := Checking)])
  }

  predicate CanCheck(s: State, o: nat) {
    o < |s.outputs| && s.outputs[o].owner.Checking?
  }

  function Check(s: State, o: nat): State
    requires CanCheck(s, o)
  {
    s.(outputs := s.outputs[o := s.outputs[o].(owner := if s.outputs[o].shuttingDown then Nobody else Processing)])
  }

  /** Process returns: every lock was paired with an unlock, and the destructors it ran have finished. */
  predicate CanLeave(s: State, o: nat) {
    && o < |s.outputs| && s.outputs[o].owner.Processing? && !s.outputs[o].mustPost
    && forall l :: 0 <= l < |s.links| && s.links[l].output == o ==>
         s.links[l].lock.Free? && (!s.links[l].inOutput ==> Drained(s.links[l]))
  }

  function Leave(s: State, o: nat): State
    requires CanLeave(s, o)
  {
    s.(outputs := s.outputs[o := s.outputs[o].(owner := Nobody)])
  }

  predicate CanShutdownSelf(s: State, o: nat) {
    o < |s.outputs| && s.outputs[o].owner.Processing? && !s.outputs[o].mustPost
  }

  function ShutdownSelf(s: State, o: nat): State
    requires CanShutdownSelf(s, o)
  {
    var x := s.outputs[o];
    if x.shuttingDown then s else s.(outputs := s.outputs[o := x.(shuttingDown := true, mustPost := true)])
  }

  predicate CanPostFinish(s: State, o: nat) {
    o < |s.outputs| && s.outputs[o].mustPost
  }

  function PostFinish(s: State, o: nat): State
    requires CanPostFinish(s, o)
  {
    var x := s.outputs[o];
    s.(outputs := s.outputs[o := x.(mustPost := false, posted := x.posted + 1, finishTasks := x.finishTasks + 1)])
  }

  // ----- Mixing -----

  /** A worker in Process reaches the links in its output's links_. */
  predicate Mixable(s: State, l: nat) {
    && l < |s.links| && s.links[l].inOutput
    && s.links[l].output < |s.outputs| && s.outputs[s.links[l].output].owner.Processing?
  }

  predicate CanLockFront(s: State, l: nat) {
    Mixable(s, l) && s.links[l].lock.Free?
  }

  function Cursor(k: Link): nat {
    |k.released| + |k.releasing|
  }

  function LockFrontLink(k: Link): Link {
    k.(lock := Mixer(k.flushed, if k.pending == [] then None else Some(k.pending[0])),
       flushed := false, locks := k.locks + 1, flushesAtLock := k.flushes,
       cursorAtLock := Cursor(k), poppedSinceLock := false)
  }

  function LockFront(s: State, l: nat): State
    requires CanLockFront(s, l)
  {
    s.(links := s.links[l := LockFrontLink(s.links[l])])
  }

  /** UnlockPendingQueueFront that keeps the packet, or that was given none. */
  predicate CanUnlockKeep(s: State, l: nat) {
    Mixable(s, l) && s.links[l].lock.Mixer? && !s.links[l].stuck.InPop?
  }

  function UnlockKeep(s: State, l: nat): State
    requires CanUnlockKeep(s, l)
  {
    s.(links := s.links[l := s.links[l].(lock := Free)])
  }

  /** UnlockPendingQueueFront that releases the packet it was given: it pops whatever is at the front. */
  predicate CanUnlockPop(s: State, l: nat) {
    && Mixable(s, l) && s.links[l].lock.Mixer? && s.links[l].stuck.NotStuck?
    && s.links[l].lock.front.Some? && s.links[l].pending != []
  }

  function PopLink(k: Link, last: bool): Link
    requires k.pending != [] && k.lock.Mixer?
  {
    var p := k.pending[0];
    k.(pending := k.pending[1..], released := k.released + [p], consumed := k.consumed + {p}, poppedSinceLock := true,
       stuck := if last then InPop(p) else NotStuck,
       lock := if last then Mixer(k.lock.wasFlushed, None) else Free)
  }

  function UnlockPop(s: State, l: nat): State
    requires CanUnlockPop(s, l)
  {
    s.(links := s.links[l := PopLink(s.links[l], !HeldApartFrom(s, l, s.links[l].pending[0]))])
  }

  /** ForeachTrack finds the track gone and erases the link from links_, which destroys it here and now. */
  predicate CanDropLink(s: State, l: nat) {
    && Mixable(s, l) && s.links[l].lock.Free?
    && s.links[l].track < |s.tracks| && !s.tracks[s.links[l].track].bound
  }

  function DropLinkLink(k: Link): Link {
    if k.inTrack then k.(inOutput := false) else k.(inOutput := false, releasing := k.pending, pending := [])
  }

  function DropLink(s: State, l: nat): State
    requires CanDropLink(s, l)
  {
    s.(links := s.links[l := DropLinkLink(s.links[l])])
  }

  // ----- Runs -----

  datatype TrackEvent =
    | ECreateTrack | ESelectOutput(t: nat, o: nat) | EAddTrackLink | EAddOutput
    | EShutdownTrack(t: nat) | EEndShutdownTrack

  datatype PacketEvent = EAccept(t: nat) | EPush(l: nat) | EDropOwnCopy | EEnqueueOwn

  datatype FlushEvent =
    | EBeginFlush(t: nat) | ESwapOut(l: nat) | ERelease(l: nat) | EEnqueue(l: nat) | EEndSwapOut | EEndFlush

  datatype ServerEvent = EBeginCleanup | ECallBack | EEndCleanup | EStop

  datatype OutputEvent = EShutdownOutput(o: nat) | EBeginOutput | EPassBarrier | EUnlinkAll | EEndOutput

  datatype WorkerEvent = EEnter(o: nat) | ECheck(o: nat) | ELeave(o: nat) | EShutdownSelf(o: nat) | EPostFinish(o: nat)

  datatype MixerEvent = ELockFront(l: nat) | EUnlockKeep(l: nat) | EUnlockPop(l: nat) | EDropLink(l: nat)

  datatype Event =
    | TrackStep(etrack: TrackEvent)
    | PacketStep(epacket: PacketEvent)
    | FlushStep(eflush: FlushEvent)
    | ServerStep(eserver: ServerEvent)
    | OutputStep(eoutput: OutputEvent)
    | WorkerStep(eworker: WorkerEvent)
    | MixerStep(emixer: MixerEvent)

  predicate TrackEnabled(s: State, e: TrackEvent) {
    match e
    case ECreateTrack => CanCreateTrack(s)
    case ESelectOutput(t, o) => CanSelectOutput(s, t, o)
    case EAddTrackLink => CanAddTrackLink(s)
    case EAddOutput => CanAddOutput(s)
    case EShutdownTrack(t) => CanShutdownTrack(s, t)
    case EEndShutdownTrack => CanEndShutdownTrack(s)
  }

  function TrackApply(s: State, e: TrackEvent): State
    requires TrackEnabled(s, e)
  {
    match e
    case ECreateTrack => CreateTrack(s)
    case ESelectOutput(t, o) => SelectOutput(s, t, o)
    case EAddTrackLink => AddTrackLink(s)
    case EAddOutput => AddOutput(s)
    case EShutdownTrack(t) => ShutdownTrack(s, t)
    case EEndShutdownTrack => EndShutdownTrack(s)
  }

  predicate PacketEnabled(s: State, e: PacketEvent) {
    match e
    case EAccept(t) => CanAccept(s, t)
    case EPush(l) => CanPush(s, l)
    case EDropOwnCopy => CanDropOwnCopy(s)
    case EEnqueueOwn => CanEnqueueOwn(s)
  }

  function PacketApply(s: State, e: PacketEvent): State
    requires PacketEnabled(s, e)
  {
    match e
    case EAccept(t) => Accept(s, t)
    case EPush(l) => Push(s, l)
    case EDropOwnCopy => DropOwnCopy(s)
    case EEnqueueOwn => EnqueueOwn(s)
  }

  predicate FlushEnabled(s: State, e: FlushEvent) {
    match e
    case EBeginFlush(t) => CanBeginFlush(s, t)
    case ESwapOut(l) => CanSwapOut(s, l)
    case ERelease(l) => CanRelease(s, l)
    case EEnqueue(l) => CanEnqueue(s, l)
    case EEndSwapOut => CanEndSwapOut(s)
    case EEndFlush => CanEndFlush(s)
  }

  function FlushApply(s: State, e: FlushEvent): State
    requires FlushEnabled(s, e)
  {
    match e
    case EBeginFlush(t) => BeginFlush(s, t)
    case ESwapOut(l) => SwapOut(s, l)
    case ERelease(l) => Release(s, l)
    case EEnqueue(l) => Enqueue(s, l)
    case EEndSwapOut => EndSwapOut(s)
    case EEndFlush => EndFlush(s)
  }

  predicate ServerEnabled(s: State, e: ServerEvent) {
    match e
    case EBeginCleanup => CanBeginCleanup(s)
    case ECallBack => CanCallBack(s)
    case EEndCleanup => CanEndCleanup(s)
    case EStop => CanStop(s)
  }

  function ServerApply(s: State, e: ServerEvent): State
    requires ServerEnabled(s, e)
  {
    match e
    case EBeginCleanup => BeginCleanup(s)
    case ECallBack => CallBack(s)
    case EEndCleanup => EndCleanup(s)
    case EStop => Stop(s)
  }

  predicate OutputEnabled(s: State, e: OutputEvent) {
    match e
    case EShutdownOutput(o) => CanShutdownOutput(s, o)
    case EBeginOutput => CanBeginOutput(s)
    case EPassBarrier => CanPassBarrier(s)
    case EUnlinkAll => CanUnlinkAll(s)
    case EEndOutput => CanEndOutput(s)
  }

  function OutputApply(s: State, e: OutputEvent): State
    requires OutputEnabled(s, e)
  {
    match e
    case EShutdownOutput(o) => ShutdownOutput(s, o)
    case EBeginOutput => BeginOutput(s)
    case EPassBarrier => PassBarrier(s)
    case EUnlinkAll => UnlinkAll(s)
    case EEndOutput => EndOutput(s)
  }

  predicate WorkerEnabled(s: State, e: WorkerEvent) {
    match e
    case EEnter(o) => CanEnter(s, o)
    case ECheck(o) => CanCheck(s, o)
    case ELeave(o) => CanLeave(s, o)
    case EShutdownSelf(o) => CanShutdownSelf(s, o)
    case EPostFinish(o) => CanPostFinish(s, o)
  }

  function WorkerApply(s: State, e: WorkerEvent): State
    requires WorkerEnabled(s, e)
  {
    match e
    case EEnter(o) => Enter(s, o)
    case ECheck(o) => Check(s, o)
    case ELeave(o) => Leave(s, o)
    case EShutdownSelf(o) => ShutdownSelf(s, o)
    case EPostFinish(o) => PostFinish(s, o)
  }

  predicate MixerEnabled(s: State, e: MixerEvent) {
    match e
    case ELockFront(l) => CanLockFront(s, l)
    case EUnlockKeep(l) => CanUnlockKeep(s, l)
    case EUnlockPop(l) => CanUnlockPop(s, l)
    case EDropLink(l) => CanDropLink(s, l)
  }

  function MixerApply(s: State, e: MixerEvent): State
    requires MixerEnabled(s, e)
  {
    match e
    case ELockFront(l) => LockFront(s, l)
    case EUnlockKeep(l) => UnlockKeep(s, l)
    case EUnlockPop(l) => UnlockPop(s, l)
    case EDropLink(l) => DropLink(s, l)
  }

  predicate Enabled(s: State, e: Event) {
    match e
    case TrackStep(x) => TrackEnabled(s, x)
    case PacketStep(x) => PacketEnabled(s, x)
    case FlushStep(x) => FlushEnabled(s, x)
    case ServerStep(x) => ServerEnabled(s, x)
    case OutputStep(x) => OutputEnabled(s, x)
    case WorkerStep(x) => WorkerEnabled(s, x)
    case MixerStep(x) => MixerEnabled(s, x)
  }

  function Apply(s: State, e: Event): State
    requires Enabled(s, e)
  {
    match e
    case TrackStep(x) => TrackApply(s, x)
    case PacketStep(x) => PacketApply(s, x)
    case FlushStep(x) => FlushApply(s, x)
    case ServerStep(x) => ServerApply(s, x)
    case OutputStep(x) => OutputApply(s, x)
    case WorkerStep(x) => WorkerApply(s, x)
    case MixerStep(x) => MixerApply(s, x)
  }

  ghost predicate Init(s: State) {
    && s.packets == [] && s.links == [] && s.tracks == []
    && (forall o :: 0 <= o < |s.outputs| ==> s.outputs[o] == Output(false, false, Nobody, false, 0, true, 0, 0))
    && s.main.Idle? && s.server.Running?
    && s.queue == [] && s.draining == [] && !s.scheduled && s.tasks == 0
    && s.called == [] && s.results == []
  }

  ghost predicate Next(s: State, s': State) {
    exists e :: Enabled(s, e) && s' == Apply(s, e)
  }

  ghost predicate StepAt(run: seq<State>, i: nat) {
    i + 1 < |run| && Next(run[i], run[i + 1])
  }

  /** A run from an initial state: any finite interleaving of the steps above. */
  ghost predicate IsRun(run: seq<State>) {
    && |run| > 0 && Init(run[0])
    && forall i :: 0 <= i < |run| - 1 ==> StepAt(run, i)
  }
}
