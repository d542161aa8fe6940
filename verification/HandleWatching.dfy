/**
  Watching handles from threads that do not run MessagePumpMojo.

  Client threads (each with any number of HandleWatcher objects) add start and stop requests to a locked
  vector; the watcher thread swaps the vector out, works through the batch and drives the backend's map
  from handle to watch beside the pump's own table of handlers; a watch that becomes ready, fails, expires
  or is displaced is removed and its notification is posted to the thread that started it.

  Each step is one atomic section: a region under the lock, one action of the watcher thread (which alone
  touches the backend and its pump), one atomic draw of an id, or one posting of a task.
 */
module HandleWatching {
  import opened Wrappers

  /** WatchData: one call of Start. */
  datatype Watch = Watch(id: nat, handle: nat, thread: nat)

  datatype Request = StartRequest(watch: Watch) | StopRequest(id: nat, thread: nat)

  /** What happens once the old state of a HandleWatcher has been destroyed. */
  datatype After = Nothing | Restart(handle: nat) | Abort

  datatype Phase =
    | Ready
    | Drawing(watcher: nat, handle: nat)             // StartWatching, before the id is drawn
    | Numbered(watcher: nat, watch: Watch)           // before the request is added
    | Posting                                        // the vector was empty: a task is still to be posted
    | Searching(watcher: nat, id: nat, after: After) // StopWatching, before its search of the vector
    | Adding(watcher: nat, id: nat, after: After)    // the search failed; before the stop request is added
    | Stopping(watcher: nat, id: nat, after: After, mustPost: bool, signalled: bool)

  datatype Client = Client(
    phase: Phase,
    tasks: seq<nat>,             // notifications posted to this thread: the ids they are for
    watching: map<nat, nat>      // HandleWatcher object -> id of its current state
  )

  /** Where the watch with some id is. */
  datatype Place =
    | Flying(thread: nat)        // drawn, its start request not yet added
    | Queued                     // in the request vector
    | Batched                    // in the batch that the watcher thread is working through
    | Mapped(handle: nat)        // in the backend's map
    | Notified(index: nat)       // its notification was posted
    | Dropped                    // removed without notification

  datatype Holder = Nobody | Held(thread: nat, watcher: nat)

  /** A record kept for every id: where its watch is, and which HandleWatcher object of which thread has
      it for its state. */
  datatype Record = Record(place: Place, holder: Holder)

  datatype Backend = Resting | Woken | Working(batch: seq<Request>)

  datatype State = State(
    clients: seq<Client>,
    requests: seq<Request>,      // requests_
    tasks: nat,                  // processing tasks posted to the watcher thread
    backend: Backend,
    watches: map<nat, Watch>,    // handle_to_data_
    handlers: set<nat>,          // handles registered with the watcher thread's pump
    // history
    ids: seq<Record>,            // one record for each id drawn; so |ids| is what watcher_id_generator_ gives next
    notified: seq<nat>,          // ids whose notification was posted
    dropped: set<nat>,           // ids removed without notification
    stopped: set<nat>,           // ids whose HandleWatcher was stopped, restarted or destroyed
    ran: seq<nat>                // ids whose user callback has run
  )

  function Batch(s: State): seq<Request> {
    if s.backend.Working? then s.backend.batch else []
  }

  function WithClient(s: State, c: nat, x: Client): State
    requires c < |s.clients|
  {
    s.(clients := s.clients[c := x])
  }

  function WithPlace(s: State, id: nat, place: Place): State {
    if id < |s.ids| then s.(ids := s.ids[id := s.ids[id].(place := place)]) else s
  }

  function LetGo(s: State, id: nat): State {
    if id < |s.ids| then s.(ids := s.ids[id := s.ids[id].(holder := Nobody)]) else s
  }

  // ----- HandleWatcher -----

  predicate CanStart(s: State, c: nat) {
    c < |s.clients| && s.clients[c].phase.Ready?
  }

  function Start(s: State, c: nat, w: nat, h: nat): State
    requires CanStart(s, c)
  {
    var x := s.clients[c];
    WithClient(s, c, x.(phase :=
      if w in x.watching then Searching(w, x.watching[w], Restart(h)) else Drawing(w, h)))
  }

  /** Stop, or the destructor of the HandleWatcher; and the end of the thread's message loop. */
  predicate CanReset(s: State, c: nat, w: nat, after: After) {
    c < |s.clients| && s.clients[c].phase.Ready? && w in s.clients[c].watching && !after.Restart?
  }

  function Reset(s: State, c: nat, w: nat, after: After): State
    requires CanReset(s, c, w, after)
  {
    var x := s.clients[c];
    WithClient(s, c, x.(phase := Searching(w, x.watching[w], after)))
  }

  predicate CanRunTask(s: State, c: nat) {
    c < |s.clients| && s.clients[c].phase.Ready? && s.clients[c].tasks != []
  }

  /** A posted notification: it does nothing if the state it was bound to is gone. */
  function RunTask(s: State, c: nat): State
    requires CanRunTask(s, c)
  {
    var x := s.clients[c];
    var id := x.tasks[0];
    var x' := x.(tasks := x.tasks[1..], watching := map w | w in x.watching && x.watching[w] != id :: x.watching[w]);
    if exists w :: w in x.watching && x.watching[w] == id then LetGo(WithClient(s, c, x').(ran := s.ran + [id]), id)
    else WithClient(s, c, x')
  }

  // ----- WatcherThreadManager, client side -----

  predicate CanDraw(s: State, c: nat) {
    c < |s.clients| && s.clients[c].phase.Drawing?
  }

  function Draw(s: State, c: nat): State
    requires CanDraw(s, c)
  {
    var x := s.clients[c];
    WithClient(s, c, x.(phase := Numbered(x.phase.watcher, Watch(|s.ids|, x.phase.handle, c))))
    .(ids := s.ids + [Record(Flying(c), Held(c, x.phase.watcher))])
  }

  predicate CanAddStart(s: State, c: nat) {
    c < |s.clients| && s.clients[c].phase.Numbered?
  }

  function AddStart(s: State, c: nat): State
    requires CanAddStart(s, c)
  {
    var x := s.clients[c];
    var watch := x.phase.watch;
    WithPlace(WithClient(s, c, x.(watching := x.watching[x.phase.watcher := watch.id],
                                  phase := if s.requests == [] then Posting else Ready)), watch.id, Queued)
    .(requests := s.requests + [StartRequest(watch)])
  }

  predicate CanPost(s: State, c: nat) {
    c < |s.clients| && (s.clients[c].phase.Posting? || (s.clients[c].phase.Stopping? && s.clients[c].phase.mustPost))
  }

  function Post(s: State, c: nat): State
    requires CanPost(s, c)
  {
    var x := s.clients[c];
    WithClient(s, c, x.(phase := if x.phase.Posting? then Ready else x.phase.(mustPost := false)))
    .(tasks := s.tasks + 1)
  }

  /** The request to start watching id is at place i of the vector. */
  predicate StartsAt(requests: seq<Request>, i: nat, id: nat) {
    i < |requests| && requests[i].StartRequest? && requests[i].watch.id == id
  }

  /** The old state is gone. */
  function Finish(s: State, c: nat, w: nat, id: nat, after: After): State
    requires c < |s.clients|
  {
    var x := s.clients[c];
    var s' := WithClient(s, c, x.(watching := x.watching - {w},
                                  phase := if after.Restart? then Drawing(w, after.handle) else Ready));
    LetGo(if after.Abort? then s'.(ran := s.ran + [id]) else s'.(stopped := s.stopped + {id}), id)
  }

  predicate CanSearch(s: State, c: nat) {
    c < |s.clients| && s.clients[c].phase.Searching?
  }

  /** The first half of StopWatching: a start request still in the vector is taken out, and that is all. */
  predicate SearchFinds(s: State, c: nat, i: nat)
    requires CanSearch(s, c)
  {
    && StartsAt(s.requests, i, s.clients[c].phase.id)
    && forall j :: 0 <= j < i ==> !StartsAt(s.requests, j, s.clients[c].phase.id)
  }

  function TakeOut(s: State, i: nat, id: nat): State
    requires i < |s.requests|
  {
    WithPlace(s, id, Dropped).(requests := s.requests[..i] + s.requests[i + 1..], dropped := s.dropped + {id})
  }

  function EraseRequest(s: State, c: nat, i: nat): State
    requires CanSearch(s, c) && SearchFinds(s, c, i)
  {
    var p := s.clients[c].phase;
    Finish(TakeOut(s, i, p.id), c, p.watcher, p.id, p.after)
  }

  predicate SearchFails(s: State, c: nat)
    requires CanSearch(s, c)
  {
    forall i :: 0 <= i < |s.requests| ==> !StartsAt(s.requests, i, s.clients[c].phase.id)
  }

  function GiveUpSearch(s: State, c: nat): State
    requires CanSearch(s, c) && SearchFails(s, c)
  {
    var x := s.clients[c];
    WithClient(s, c, x.(phase := Adding(x.phase.watcher, x.phase.id, x.phase.after)))
  }

  predicate CanAddStop(s: State, c: nat) {
    c < |s.clients| && s.clients[c].phase.Adding?
  }

  function AddStop(s: State, c: nat): State
    requires CanAddStop(s, c)
  {
    var x := s.clients[c];
    var p := x.phase;
    WithClient(s, c, x.(phase := Stopping(p.watcher, p.id, p.after, s.requests == [], false)))
    .(requests := s.requests + [StopRequest(p.id, c)])
  }

  predicate CanAwake(s: State, c: nat) {
    && c < |s.clients| && s.clients[c].phase.Stopping?
    && !s.clients[c].phase.mustPost && s.clients[c].phase.signalled
  }

  function Awake(s: State, c: nat): State
    requires CanAwake(s, c)
  {
    var p := s.clients[c].phase;
    Finish(s, c, p.watcher, p.id, p.after)
  }

  // ----- The watcher thread -----

  predicate CanWake(s: State) {
    s.backend.Resting? && s.tasks > 0
  }

  function Wake(s: State): State
    requires CanWake(s)
  {
    s.(backend := Woken, tasks := s.tasks - 1)
  }

  predicate CanSwap(s: State) {
    s.backend.Woken?
  }

  function Swap(s: State): State
    requires CanSwap(s)
  {
    s.(backend := Working(s.requests), requests := [],
       ids := seq(|s.ids|, i requires 0 <= i < |s.ids| =>
                s.ids[i].(place := if s.ids[i].place.Queued? then Batched else s.ids[i].place)))
  }

  /** WatcherBackend::RemoveAndNotify. */
  function RemoveAndNotify(s: State, h: nat): State {
    if h !in s.watches then s
    else
      var watch := s.watches[h];
      var s' := WithPlace(s, watch.id, Notified(|s.notified|))
                .(watches := s.watches - {h}, handlers := s.handlers - {h}, notified := s.notified + [watch.id]);
      if watch.thread < |s.clients|
      then WithClient(s', watch.thread, s.clients[watch.thread].(tasks := s.clients[watch.thread].tasks + [watch.id]))
      else s'
  }

  predicate CanProcessStart(s: State) {
    s.backend.Working? && s.backend.batch != [] && s.backend.batch[0].StartRequest?
  }

  /** The rest of WatcherBackend::StartWatching: the new watch goes into the map and the pump. */
  function Insert(s: State): State
    requires CanProcessStart(s)
  {
    var watch := s.backend.batch[0].watch;
    WithPlace(s, watch.id, Mapped(watch.handle))
    .(backend := Working(s.backend.batch[1..]),
      watches := s.watches[watch.handle := watch], handlers := s.handlers + {watch.handle})
  }

  /** WatcherBackend::StartWatching: a watch on the same handle is displaced first. */
  function ProcessStart(s: State): State
    requires CanProcessStart(s)
  {
    Insert(RemoveAndNotify(s, s.backend.batch[0].watch.handle))
  }

  /** WatcherBackend::GetMojoHandleByWatcherID. */
  ghost function FindHandle(watches: map<nat, Watch>, id: nat): (r: Option<nat>)
    ensures r.Some? ==> r.value in watches && watches[r.value].id == id
    ensures r.None? ==> forall h :: h in watches ==> watches[h].id != id
  {
    if exists h :: h in watches && watches[h].id == id
    then var h :| h in watches && watches[h].id == id; Some(h)
    else None
  }

  predicate CanProcessStop(s: State) {
    s.backend.Working? && s.backend.batch != [] && s.backend.batch[0].StopRequest?
  }

  /** WatcherBackend::StopWatching. */
  ghost function StopWatch(s: State, id: nat): State {
    match FindHandle(s.watches, id)
    case None => s
    case Some(h) =>
      WithPlace(s, id, Dropped).(watches := s.watches - {h}, handlers := s.handlers - {h}, dropped := s.dropped + {id})
  }

  /** stop_event->Signal(). */
  function Signal(s: State): State
    requires CanProcessStop(s)
  {
    var c := s.backend.batch[0].thread;
    var s' := s.(backend := Working(s.backend.batch[1..]));
    if c < |s.clients| && s.clients[c].phase.Stopping?
    then WithClient(s', c, s.clients[c].(phase := s.clients[c].phase.(signalled := true)))
    else s'
  }

  ghost function ProcessStop(s: State): State
    requires CanProcessStop(s)
  {
    Signal(StopWatch(s, s.backend.batch[0].id))
  }

  predicate CanRest(s: State) {
    s.backend.Working? && s.backend.batch == []
  }

  function Rest(s: State): State
    requires CanRest(s)
  {
    s.(backend := Resting)
  }

  /** The pump finds a handler ready, or its deadline passed.  It calls the backend, and after a deadline
      it also erases the handle itself. */
  predicate CanFire(s: State, h: nat) {
    s.backend.Resting? && h in s.handlers
  }

  function Fire(s: State, h: nat, expired: bool): State
    requires CanFire(s, h)
  {
    var s1 := RemoveAndNotify(s, h);
    if expired then s1.(handlers := s1.handlers - {h}) else s1
  }

  /** RemoveInvalidHandle: the pump erases the handle first and calls the backend afterwards. */
  function FireInvalid(s: State, h: nat): State
    requires CanFire(s, h)
  {
    RemoveAndNotify(s.(handlers := s.handlers - {h}), h)
  }

  // ----- Runs -----

  datatype ClientEvent =
    | EStart(c: nat, w: nat, h: nat) | EReset(c: nat, w: nat, after: After) | ERunTask(c: nat)
    | EDraw(c: nat) | EAddStart(c: nat) | EPost(c: nat)
    | EEraseRequest(c: nat, i: nat) | EGiveUpSearch(c: nat) | EAddStop(c: nat) | EAwake(c: nat)

  datatype WatcherEvent =
    | EWake | ESwap | EProcessStart | EProcessStop | ERest | EFire(h: nat, expired: bool) | EFireInvalid(h: nat)

  datatype Event = ClientStep(client: ClientEvent) | WatcherStep(watcher: WatcherEvent)

  predicate ClientEnabled(s: State, e: ClientEvent) {
    match e
    case EStart(c, w, h) => CanStart(s, c)
    case EReset(c, w, after) => CanReset(s, c, w, after)
    case ERunTask(c) => CanRunTask(s, c)
    case EDraw(c) => CanDraw(s, c)
    case EAddStart(c) => CanAddStart(s, c)
    case EPost(c) => CanPost(s, c)
    case EEraseRequest(c, i) => CanSearch(s, c) && SearchFinds(s, c, i)
    case EGiveUpSearch(c) => CanSearch(s, c) && SearchFails(s, c)
    case EAddStop(c) => CanAddStop(s, c)
    case EAwake(c) => CanAwake(s, c)
  }

  ghost function ClientApply(s: State, e: ClientEvent): State
    requires ClientEnabled(s, e)
  {
    match e
    case EStart(c, w, h) => Start(s, c, w, h)
    case EReset(c, w, after) => Reset(s, c, w, after)
    case ERunTask(c) => RunTask(s, c)
    case EDraw(c) => Draw(s, c)
    case EAddStart(c) => AddStart(s, c)
    case EPost(c) => Post(s, c)
    case EEraseRequest(c, i) => EraseRequest(s, c, i)
    case EGiveUpSearch(c) => GiveUpSearch(s, c)
    case EAddStop(c) => AddStop(s, c)
    case EAwake(c) => Awake(s, c)
  }

  predicate WatcherEnabled(s: State, e: WatcherEvent) {
    match e
    case EWake => CanWake(s)
    case ESwap => CanSwap(s)
    case EProcessStart => CanProcessStart(s)
    case EProcessStop => CanProcessStop(s)
    case ERest => CanRest(s)
    case EFire(h, expired) => CanFire(s, h)
    case EFireInvalid(h) => CanFire(s, h)
  }

  ghost function WatcherApply(s: State, e: WatcherEvent): State
    requires WatcherEnabled(s, e)
  {
    match e
    case EWake => Wake(s)
    case ESwap => Swap(s)
    case EProcessStart => ProcessStart(s)
    case EProcessStop => ProcessStop(s)
    case ERest => Rest(s)
    case EFire(h, expired) => Fire(s, h, expired)
    case EFireInvalid(h) => FireInvalid(s, h)
  }

  predicate Enabled(s: State, e: Event) {
    match e
    case ClientStep(x) => ClientEnabled(s, x)
    case WatcherStep(x) => WatcherEnabled(s, x)
  }

  ghost function Apply(s: State, e: Event): State
    requires Enabled(s, e)
  {
    match e
    case ClientStep(x) => ClientApply(s, x)
    case WatcherStep(x) => WatcherApply(s, x)
  }

  ghost predicate Init(s: State) {
    && (forall c :: 0 <= c < |s.clients| ==> s.clients[c] == Client(Ready, [], map[]))
    && s.ids == [] && s.requests == [] && s.tasks == 0 && s.backend.Resting?
    && s.watches == map[] && s.handlers == {}
    && s.notified == [] && s.dropped == {} && s.stopped == {} && s.ran == []
  }

  ghost predicate StepAt(run: seq<State>, i: nat) {
    i + 1 < |run| && exists e :: Enabled(run[i], e) && run[i + 1] == Apply(run[i], e)
  }

  ghost predicate IsRun(run: seq<State>) {
    |run| > 0 && Init(run[0]) && forall i :: 0 <= i < |run| - 1 ==> StepAt(run, i)
  }
}
