/** MessagePumpMojo, the object: its table of handlers and its loops over it. */
module MessagePumpMojo {
  import opened Wrappers
  import opened MessagePump
  import opened MessagePumpTheorems

  class Pump {
    var handlers: map<nat, Handler>
    var nextId: nat

    function Contents(): Table
      reads this
    {
      Table(handlers, nextId)
    }

    constructor ()
      ensures Contents() == Table(map[], 0) && Valid(Contents())
    {
      handlers, nextId := map[], 0;
    }

    /** Adding a handle twice fails a CHECK: callers must not do it. */
    method AddHandler(owner: nat, handle: nat, signals: nat, deadline: int)
      requires Valid(Contents()) && handle !in handlers
      modifies this
      ensures Contents() == Register(old(Contents()), handle, owner, signals, deadline)
      ensures handlers == old(handlers)[handle := Handler(owner, signals, deadline, old(nextId))]
      ensures Valid(Contents()) && Registered(Contents(), handle, old(nextId))
    {
      handlers := handlers[handle := Handler(owner, signals, deadline, nextId)];
      nextId := nextId + 1;
    }

    method RemoveHandler(handle: nat)
      requires Valid(Contents())
      modifies this
      ensures Contents() == Erase(old(Contents()), handle) && Valid(Contents()) && handle !in handlers
    {
      handlers := handlers - {handle};
    }

    /** A signalled callback, which may use AddHandler and RemoveHandler as it likes. */
    method Signal(ops: seq<Operation>) returns (ok: bool)
      requires Valid(Contents())
      modifies this
      ensures Valid(Contents()) && ok == Run(old(Contents()), ops).Some?
      ensures ok ==> Contents() == Run(old(Contents()), ops).value
    {
      var i := 0;
      ghost var start := Contents();
      while i < |ops|
        invariant 0 <= i <= |ops| && Valid(Contents())
        invariant Run(start, ops) == Run(Contents(), ops[i..])
      {
        assert ops[i..][0] == ops[i] && ops[i..][1..] == ops[i + 1..];
        match ops[i] {
          case Add(h, owner, signals, deadline) =>
            if h in handlers {
              return false;
            }
            AddHandler(owner, h, signals, deadline);
          case Remove(h) =>
            RemoveHandler(h);
        }
        i := i + 1;
      }
      assert ops[i..] == [];
      ok := true;
    }

    /** The copy of handlers_, in the order of the map: by handle. */
    method Clone() returns (clone: seq<Entry>)
      ensures Copies(clone, Contents())
    {
      var rest := handlers.Keys;
      clone := [];
      while rest != {}
        invariant CopiesAllBut(clone, handlers, rest)
        decreases |rest|
      {
        var h := Least(rest);
        CopyOne(clone, handlers, rest, h);
        clone := clone + [(h, handlers[h])];
        rest := rest - {h};
      }
    }

    /** The deadline for WaitMany: the nearest of all deadlines and of the next delayed work. */
    method GetDeadlineForWait(delayedWorkTime: int, now: int) returns (deadline: nat)
      ensures delayedWorkTime != 0 ==> deadline == 0 || now + deadline <= delayedWorkTime
      ensures forall h :: h in handlers && handlers[h].deadline != 0 ==>
                deadline == 0 || now + deadline <= handlers[h].deadline
      ensures deadline != INDEFINITE ==>
                || (delayedWorkTime != 0 && now + deadline >= delayedWorkTime)
                || exists h :: h in handlers && handlers[h].deadline != 0 && now + deadline >= handlers[h].deadline
      ensures deadline <= ToMojoDeadline(delayedWorkTime, now)
      ensures forall h :: h in handlers ==> deadline <= ToMojoDeadline(handlers[h].deadline, now)
      ensures || deadline == ToMojoDeadline(delayedWorkTime, now)
              || exists h :: h in handlers && deadline == ToMojoDeadline(handlers[h].deadline, now)
    {
      deadline := ToMojoDeadline(delayedWorkTime, now);
      var rest := handlers.Keys;
      while rest != {}
        invariant rest <= handlers.Keys
        invariant deadline <= ToMojoDeadline(delayedWorkTime, now)
        invariant forall h :: h in handlers && h !in rest ==> deadline <= ToMojoDeadline(handlers[h].deadline, now)
        invariant || deadline == ToMojoDeadline(delayedWorkTime, now)
                  || exists h :: h in handlers && deadline == ToMojoDeadline(handlers[h].deadline, now)
        decreases |rest|
      {
        var h := Least(rest);
        if ToMojoDeadline(handlers[h].deadline, now) < deadline {
          deadline := ToMojoDeadline(handlers[h].deadline, now);
        }
        rest := rest - {h};
      }
    }

    /** The second half of DoInternalWork: the sweep over a copy of the table. */
    method SweepExpired(now: int, script: seq<seq<Operation>>)
      returns (ok: bool, ghost clone: seq<Entry>, notified: seq<Entry>)
      requires Valid(Contents())
      modifies this
      ensures Copies(clone, old(Contents())) && Valid(Contents())
      ensures ok == Sweep(old(Contents()), clone, now, script).Some?
      ensures ok ==> Swept(Contents(), notified) == Sweep(old(Contents()), clone, now, script).value
      ensures forall e :: e in notified ==> e in clone && e.1.deadline != 0 && e.1.deadline < now
      ensures AddsNothing(script) ==>
                ok && forall h :: h in handlers ==> handlers[h].deadline == 0 || handlers[h].deadline >= now
    {
      var list := Clone();
      clone, notified, ok := list, [], true;
      ghost var start := Contents();
      if AddsNothing(script) {
        NothingExpiredIsLeft(start, list, now, script);
      }
      var i, calls := 0, script;
      assert list[0..] == list;
      ContinueFromStart(Sweep(start, list, now, script));
      while i < |list|
        invariant 0 <= i <= |list| && ok && clone == list && Valid(Contents())
        invariant forall e :: e in notified ==> e in list && e.1.deadline != 0 && e.1.deadline < now
        invariant Sweep(start, list, now, script) == Continue(notified, Sweep(Contents(), list[i..], now, calls))
      {
        var (h, x) := list[i];
        SweepStep(Contents(), list, i, now, calls);
        if x.deadline != 0 && x.deadline < now && h in handlers && handlers[h].id == x.id {
          ok := Signal(First(calls));
          if !ok {
            return;
          }
          RemoveHandler(h);
          ContinueTwice(notified, (h, x), Sweep(Contents(), list[i + 1..], now, Rest(calls)));
          notified := notified + [(h, x)];
          calls := Rest(calls);
        }
        i := i + 1;
      }
      assert list[i..] == [];
      ContinueToEnd(notified, Contents());
    }

    /** DoInternalWork.  The handles that WaitMany was given are the registered ones, so the handle it reports is found,
        and its handler is called; `script` is what the callbacks do, the first of them that of the reported handle. */
    method DoInternalWork(wake: Wake, now: int, script: seq<seq<Operation>>)
      returns (
        ok: bool, didWork: bool, signalled: Option<Entry>,
        ghost handles: seq<Entry>, ghost clone: seq<Entry>, notified: seq<Entry>)
      requires Valid(Contents())
      requires wake.ReadyHandle? || wake.InvalidHandle? ==> wake.index < |handlers|
      modifies this
      ensures Copies(handles, old(Contents())) && Valid(Contents())
      ensures wake.ReadyHandle? || wake.InvalidHandle? ==>
                wake.index < |handles| && signalled == Some(handles[wake.index])
      ensures wake.ControlPipe? || wake.TimedOut? ==> signalled.None?
      ensures ok ==>
                var calls := if wake.ReadyHandle? || wake.InvalidHandle? then Rest(script) else script;
                var middle := FirstHalf(old(Contents()), handles, wake, First(script));
                && middle.Some? && Copies(clone, middle.value)
                && Sweep(middle.value, clone, now, calls) == Some(Swept(Contents(), notified))
      ensures ok ==> (didWork <==> !wake.TimedOut? || notified != [])
      ensures forall e :: e in notified ==> e.1.deadline != 0 && e.1.deadline < now
      ensures ok ==> forall h :: h in handlers && handlers[h].deadline != 0 && handlers[h].deadline < now ==>
                handlers[h].id >= old(nextId)
      ensures ok && wake.InvalidHandle? ==> !Registered(Contents(), handles[wake.index].0, handles[wake.index].1.id)
      ensures script == [] ==>
                && ok && nextId == old(nextId)
                && handlers == map h | h in old(handlers) && Remains(old(Contents()), handles, wake, now, h) ::
                                 old(handlers)[h]
    {
      var list := Clone();
      handles, clone, notified, didWork, ok := list, [], [], true, true;
      signalled := None;
      CopiesLength(list, Contents());
      var calls := script;
      match wake {
        case ControlPipe =>
        case TimedOut =>
          didWork := false;
        case ReadyHandle(i) =>
          signalled := Some(list[i]);
          ok := Signal(First(script));
          calls := Rest(script);
        case InvalidHandle(i) =>
          signalled := Some(list[i]);
          RemoveHandler(list[i].0);
          ok := Signal(First(script));
          calls := Rest(script);
      }
      if !ok {
        return;
      }
      ghost var middle := Contents();
      ok, clone, notified := SweepExpired(now, calls);
      if script == [] {
        QuietRound(old(Contents()), list, wake, clone, now);
      }
      if ok {
        FirstHalfKeepsIds(old(Contents()), list, wake, First(script));
        OnlyNewHandlersAreExpired(middle, clone, now, calls);
        SweepKeepsIds(middle, clone, now, calls);
        didWork := didWork || notified != [];
      }
    }
  }

  method Least(s: set<nat>) returns (x: nat)
    requires s != {}
    ensures x in s && forall y :: y in s ==> x <= y
  {
    x :| x in s;
    var rest := s - {x};
    while rest != {}
      invariant x in s && rest <= s && forall y :: y in s && y !in rest ==> x <= y
      decreases |rest|
    {
      var y :| y in rest;
      if y < x {
        x := y;
      }
      rest := rest - {y};
    }
  }
}
