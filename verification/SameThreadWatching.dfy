/**
  A HandleWatcher on a thread that runs MessagePumpMojo registers with that pump directly.  When its deadline passes,
  its state removes the handle and is destroyed, and then the user's callback runs, which may start watchers again, on
  the same handle too.  What becomes of those watches is what becomes of their registrations with the pump.
 */
module SameThreadWatching {
  import opened Wrappers
  import opened MessagePump
  import opened MessagePumpTheorems

  /** OnHandleError of the state of a watcher on handle h, whose user's callback does these operations. */
  function DeadlineCall(h: nat, user: seq<Operation>): seq<Operation> {
    [Remove(h)] + user
  }

  /** The j-th operation starts a watch on handle g, and no later one stops it. */
  ghost predicate Starts(ops: seq<Operation>, j: nat, g: nat) {
    j < |ops| && ops[j].Add? && ops[j].handle == g && !Removes(ops[j + 1..], g)
  }

  lemma {:induction false} RunAppend(t: Table, a: seq<Operation>, b: seq<Operation>)
    ensures Run(t, a + b) == match Run(t, a) case None => None case Some(t') => Run(t', b)
    decreases |a|
  {
    if a == [] {
      assert a + b == b;
    } else {
      assert (a + b)[0] == a[0] && (a + b)[1..] == a[1..] + b;
      match a[0]
      case Add(h, owner, signals, deadline) =>
        RunAppend(Register(t, h, owner, signals, deadline), a[1..], b);
      case Remove(h) => RunAppend(Erase(t, h), a[1..], b);
    }
  }

  /** A watch started and not stopped is registered, under a new id, when the callback returns. */
  lemma StartedIsRegistered(t: Table, ops: seq<Operation>, j: nat, g: nat)
    requires Valid(t) && Run(t, ops).Some? && Starts(ops, j, g)
    ensures g in Run(t, ops).value.handlers && Run(t, ops).value.handlers[g].id >= t.nextId
    ensures Run(t, ops).value.handlers[g].owner == ops[j].owner
  {
    var before, rest, after := ops[..j], ops[j..], ops[j + 1..];
    assert ops == before + rest && rest[0] == ops[j] && rest[1..] == after;
    RunAppend(t, before, rest);
    RunKeepsIds(t, before);
    var t1 := Run(t, before).value;
    var t2 := Register(t1, g, ops[j].owner, ops[j].signals, ops[j].deadline);
    assert Run(t1, rest) == Run(t2, after);
    RunKeepsHandler(t2, after, g);
  }

  lemma StartedInCall(h: nat, user: seq<Operation>, j: nat, g: nat)
    requires Starts(user, j, g)
    ensures Starts(DeadlineCall(h, user), j + 1, g)
  {
    assert DeadlineCall(h, user)[j + 2..] == user[j + 1..];
  }

  /**
    A watch that the callback of an expired watch starts, and that nobody stops before the sweep is over, is registered
    after the sweep if and only if it is not on the handle that had expired.
   */
  lemma StartInDeadlineCallback(
    t: Table, clone: seq<Entry>, k: nat, now: int, script: seq<seq<Operation>>, user: seq<Operation>, j: nat, g: nat)
    requires Valid(t) && Copies(clone, t) && k < |clone| && Sweep(t, clone, now, script).Some?
    requires clone[k] in Sweep(t, clone, now, script).value.notified
    requires First(CallsAt(t, clone, k, now, script)) == DeadlineCall(clone[k].0, user)
    requires Starts(user, j, g) && NeverRemoves(Rest(CallsAt(t, clone, k, now, script)), g)
    ensures AddedAt(t, clone, k, now, script, g)
    ensures
      var id := TableAfterCall(t, clone, k, now, script).value.handlers[g].id;
      Registered(Sweep(t, clone, now, script).value.table, g, id) <==> g != clone[k].0
  {
    SweepAroundTurn(t, clone, k, now, script);
    SweepKeepsIds(t, clone[..k], now, script);
    StartedInCall(clone[k].0, user, j, g);
    StartedIsRegistered(TableAt(t, clone, k, now, script).value, DeadlineCall(clone[k].0, user), j + 1, g);
    ReRegistrationIsLost(t, clone, k, now, script, g);
  }

  // ----- What is lost is lost for good -----

  /** What may happen on the thread later: callbacks and other code, and further sweeps. */
  datatype Happening = Calls(ops: seq<Operation>) | Sweeping(clone: seq<Entry>, now: int, script: seq<seq<Operation>>)

  function TableAfter(t: Table, e: Happening): Option<Table> {
    match e
    case Calls(ops) => Run(t, ops)
    case Sweeping(clone, now, script) =>
      match Sweep(t, clone, now, script) case None => None case Some(r) => Some(r.table)
  }

  ghost predicate Follow(tables: seq<Table>, es: seq<Happening>) {
    |tables| == |es| + 1 && forall i :: 0 <= i < |es| ==> TableAfter(tables[i], es[i]) == Some(tables[i + 1])
  }

  /** A registration that is gone is never back, so that neither a ready handle nor a sweep calls its watcher. */
  lemma {:induction false} LostForGood(tables: seq<Table>, es: seq<Happening>, n: nat, g: nat, x: Handler)
    requires Follow(tables, es) && n < |tables| && Valid(tables[0])
    requires x.id < tables[0].nextId && !Registered(tables[0], g, x.id)
    ensures Valid(tables[n]) && x.id < tables[n].nextId && !Registered(tables[n], g, x.id)
    ensures n < |es| && es[n].Sweeping? ==>
      var swept := Sweep(tables[n], es[n].clone, es[n].now, es[n].script);
      swept.Some? && (g, x) !in swept.value.notified
  {
    if n > 0 {
      LostForGood(tables, es, n - 1, g, x);
      assert TableAfter(tables[n - 1], es[n - 1]) == Some(tables[n]);
      match es[n - 1]
      case Calls(ops) => RunKeepsIds(tables[n - 1], ops);
      case Sweeping(clone, now, script) => SweepKeepsIds(tables[n - 1], clone, now, script);
    }
    if n < |es| && es[n].Sweeping? {
      assert TableAfter(tables[n], es[n]) == Some(tables[n + 1]);
      GoneIsNotNotified(tables[n], es[n].clone, es[n].now, es[n].script, g, x);
    }
  }
}
