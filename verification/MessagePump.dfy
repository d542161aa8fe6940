/**
  MessagePumpMojo: the table of handlers, the choice of the wait deadline, and one round of DoInternalWork,
  in which a ready or invalid handle is signalled and then every handler whose deadline has passed.

  A callback may add and remove handlers as it likes.  What the callbacks of one round do is a parameter:
  the first list of operations is what the first signalled callback does, and so on.
 */
module MessagePump {
  import opened Wrappers

  /** A handler: who is called, what it waits for, its deadline (0 is TimeTicks() and means none) and its id. */
  datatype Handler = Handler(owner: nat, signals: nat, deadline: int, id: nat)

  datatype Table = Table(handlers: map<nat, Handler>, nextId: nat)

  datatype Operation = Add(handle: nat, owner: nat, signals: nat, deadline: int) | Remove(handle: nat)

  type Entry = (nat, Handler)

  /** Ids are distinct and below the next one. */
  ghost predicate Valid(t: Table) {
    && (forall h :: h in t.handlers ==> t.handlers[h].id < t.nextId)
    && (forall h, g :: h in t.handlers && g in t.handlers && t.handlers[h].id == t.handlers[g].id ==> h == g)
  }

  /** The handler with this id is registered for this handle. */
  predicate Registered(t: Table, h: nat, id: nat) {
    h in t.handlers && t.handlers[h].id == id
  }

  // ----- What one operation, one callback, one turn of the sweep does -----

  function Register(t: Table, h: nat, owner: nat, signals: nat, deadline: int): Table {
    Table(t.handlers[h := Handler(owner, signals, deadline, t.nextId)], t.nextId + 1)
  }

  function Erase(t: Table, h: nat): Table {
    t.(handlers := t.handlers - {h})
  }

  /** None: adding a handle that is registered already fails the CHECK in AddHandler. */
  function Run(t: Table, ops: seq<Operation>): Option<Table>
    decreases |ops|
  {
    if ops == [] then Some(t)
    else
      match ops[0]
      case Add(h, owner, signals, deadline) =>
        if h in t.handlers then None else Run(Register(t, h, owner, signals, deadline), ops[1..])
      case Remove(h) => Run(Erase(t, h), ops[1..])
  }

  predicate Expired(x: Handler, now: int) {
    x.deadline != 0 && x.deadline < now
  }

  function First(script: seq<seq<Operation>>): seq<Operation> {
    if script == [] then [] else script[0]
  }

  function Rest(script: seq<seq<Operation>>): seq<seq<Operation>> {
    if script == [] then [] else script[1..]
  }

  /** The table after the sweep and the entries that were notified, in order; None if a CHECK failed. */
  datatype Swept = Swept(table: Table, notified: seq<Entry>)

  function Sweep(t: Table, clone: seq<Entry>, now: int, script: seq<seq<Operation>>): Option<Swept>
    decreases |clone|
  {
    if clone == [] then Some(Swept(t, []))
    else
      var (h, x) := clone[0];
      if Expired(x, now) && Registered(t, h, x.id) then
        match Run(t, First(script))
        case None => None
        case Some(t1) =>
          match Sweep(Erase(t1, h), clone[1..], now, Rest(script))
          case None => None
          case Some(r) => Some(Swept(r.table, [(h, x)] + r.notified))
      else Sweep(t, clone[1..], now, script)
  }

  /** clone is a copy of the table, handle by handle. */
  ghost predicate Copies(clone: seq<Entry>, t: Table) {
    && (forall i :: 0 <= i < |clone| ==> clone[i].0 in t.handlers && t.handlers[clone[i].0] == clone[i].1)
    && (forall i, j :: 0 <= i < j < |clone| ==> clone[i].0 < clone[j].0)
    && (forall h :: h in t.handlers ==> Lists(clone, h))
  }

  ghost predicate Lists(clone: seq<Entry>, h: nat) {
    exists i :: 0 <= i < |clone| && clone[i].0 == h
  }

  /** Half-way through the copying: the handles in rest, all of them larger, are still to come. */
  ghost predicate CopiesAllBut(clone: seq<Entry>, handlers: map<nat, Handler>, rest: set<nat>) {
    && rest <= handlers.Keys
    && (forall i :: 0 <= i < |clone| ==> clone[i].0 in handlers && handlers[clone[i].0] == clone[i].1)
    && (forall i, j :: 0 <= i < j < |clone| ==> clone[i].0 < clone[j].0)
    && (forall i, h :: 0 <= i < |clone| && h in rest ==> clone[i].0 < h)
    && (forall h :: h in handlers && h !in rest ==> Lists(clone, h))
  }

  function Drop(script: seq<seq<Operation>>, n: nat): seq<seq<Operation>> {
    if n <= |script| then script[n..] else []
  }

  predicate AddsNothing(script: seq<seq<Operation>>) {
    forall i, j :: 0 <= i < |script| && 0 <= j < |script[i]| ==> script[i][j].Remove?
  }

  // ----- Handlers added in a deadline callback -----

  ghost predicate Removes(ops: seq<Operation>, g: nat) {
    Remove(g) in ops
  }

  ghost predicate NeverRemoves(script: seq<seq<Operation>>, g: nat) {
    forall i :: 0 <= i < |script| ==> !Removes(script[i], g)
  }

  /** The callbacks from the turn of entry k on, and the tables when it begins and when its callback returns. */
  function CallsAt(t: Table, clone: seq<Entry>, k: nat, now: int, script: seq<seq<Operation>>): seq<seq<Operation>>
    requires k <= |clone|
  {
    match Sweep(t, clone[..k], now, script) case None => [] case Some(r) => Drop(script, |r.notified|)
  }

  function TableAt(t: Table, clone: seq<Entry>, k: nat, now: int, script: seq<seq<Operation>>): Option<Table>
    requires k <= |clone|
  {
    match Sweep(t, clone[..k], now, script) case None => None case Some(r) => Some(r.table)
  }

  function TableAfterCall(t: Table, clone: seq<Entry>, k: nat, now: int, script: seq<seq<Operation>>): Option<Table>
    requires k <= |clone|
  {
    match TableAt(t, clone, k, now, script)
    case None => None
    case Some(t') => Run(t', First(CallsAt(t, clone, k, now, script)))
  }

  /** The callback of entry k has registered handle g, and it is registered when the callback returns. */
  ghost predicate AddedAt(t: Table, clone: seq<Entry>, k: nat, now: int, script: seq<seq<Operation>>, g: nat)
    requires k < |clone|
  {
    && TableAt(t, clone, k, now, script).Some? && TableAfterCall(t, clone, k, now, script).Some?
    && g in TableAfterCall(t, clone, k, now, script).value.handlers
    && TableAfterCall(t, clone, k, now, script).value.handlers[g].id >= TableAt(t, clone, k, now, script).value.nextId
  }

  // ----- WatcherBackend's own callback -----

  /** What WatcherBackend::OnHandleError does to the pump: it removes the handle. */
  function BackendScript(clone: seq<Entry>, now: int): seq<seq<Operation>> {
    if clone == [] then []
    else (if Expired(clone[0].1, now) then [[Remove(clone[0].0)]] else []) + BackendScript(clone[1..], now)
  }

  function ExpiredOf(clone: seq<Entry>, now: int): seq<Entry> {
    if clone == [] then []
    else (if Expired(clone[0].1, now) then [clone[0]] else []) + ExpiredOf(clone[1..], now)
  }

  ghost predicate Hit(clone: seq<Entry>, now: int, h: nat) {
    exists i :: 0 <= i < |clone| && clone[i].0 == h && Expired(clone[i].1, now)
  }

  /** The result of a whole sweep from what has been notified so far and the result of the rest. */
  function Continue(notified: seq<Entry>, rest: Option<Swept>): Option<Swept> {
    if rest.None? then None else Some(Swept(rest.value.table, notified + rest.value.notified))
  }

  // ----- Waiting, and what WaitMany reports -----

  const INDEFINITE: nat := 0xFFFF_FFFF_FFFF_FFFF

  /** How long to wait for a point in time, in microseconds. */
  function ToMojoDeadline(time: int, now: int): nat {
    if time == 0 then INDEFINITE else if time < now then 0 else time - now
  }

  /** What WaitMany reported: the control pipe, the i-th registered handle ready or invalid, or a timeout. */
  datatype Wake = ControlPipe | ReadyHandle(index: nat) | InvalidHandle(index: nat) | TimedOut

  /** The first half of DoInternalWork: the callback of the handle that WaitMany reported.  An invalid handle
      is erased before its callback runs. */
  function FirstHalf(t: Table, handles: seq<Entry>, wake: Wake, ops: seq<Operation>): Option<Table> {
    match wake
    case ControlPipe => Some(t)
    case TimedOut => Some(t)
    case ReadyHandle(i) => Run(t, ops)
    case InvalidHandle(i) => if i < |handles| then Run(Erase(t, handles[i].0), ops) else Some(t)
  }
}
