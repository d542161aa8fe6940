/** What every step of handle watching keeps. */
module HandleInvariant {
  import opened Wrappers
  import opened HandleWatching

  // ----- Where watch ids are: every collection agrees with the records, and the other way round -----

  ghost predicate At(ids: seq<Record>, id: nat, place: Place) {
    id < |ids| && ids[id].place == place
  }

  ghost predicate FlyingOk(clients: seq<Client>, ids: seq<Record>) {
    && (forall c :: 0 <= c < |clients| && clients[c].phase.Numbered? ==> At(ids, clients[c].phase.watch.id, Flying(c)))
    && (forall id :: 0 <= id < |ids| && ids[id].place.Flying? ==>
          var c := ids[id].place.thread;
          c < |clients| && clients[c].phase.Numbered? && clients[c].phase.watch.id == id)
  }

  ghost predicate Starts(requests: seq<Request>, id: nat) {
    exists i :: 0 <= i < |requests| && StartsAt(requests, i, id)
  }

  /** `place` is Queued for the request vector and Batched for the batch. */
  ghost predicate QueueOk(requests: seq<Request>, ids: seq<Record>, place: Place) {
    && (forall i :: 0 <= i < |requests| && requests[i].StartRequest? ==> At(ids, requests[i].watch.id, place))
    && (forall i, j :: 0 <= i < j < |requests| && requests[i].StartRequest? && requests[j].StartRequest? ==>
          requests[i].watch.id != requests[j].watch.id)
    && (forall id :: 0 <= id < |ids| && ids[id].place == place ==> Starts(requests, id))
  }

  ghost predicate MapOk(watches: map<nat, Watch>, ids: seq<Record>) {
    && (forall h :: h in watches ==> At(ids, watches[h].id, Mapped(h)))
    && (forall id :: 0 <= id < |ids| && ids[id].place.Mapped? ==>
          ids[id].place.handle in watches && watches[ids[id].place.handle].id == id)
  }

  ghost predicate NotifiedOk(notified: seq<nat>, ids: seq<Record>) {
    && (forall i :: 0 <= i < |notified| ==> At(ids, notified[i], Notified(i)))
    && (forall id :: 0 <= id < |ids| && ids[id].place.Notified? ==>
          ids[id].place.index < |notified| && notified[ids[id].place.index] == id)
  }

  ghost predicate DroppedOk(dropped: set<nat>, ids: seq<Record>) {
    && (forall id :: id in dropped ==> At(ids, id, Dropped))
    && (forall id :: 0 <= id < |ids| && ids[id].place.Dropped? ==> id in dropped)
  }

  ghost predicate PlacesOk(s: State) {
    && FlyingOk(s.clients, s.ids)
    && QueueOk(s.requests, s.ids, Queued) && QueueOk(Batch(s), s.ids, Batched)
    && MapOk(s.watches, s.ids)
    && NotifiedOk(s.notified, s.ids) && DroppedOk(s.dropped, s.ids)
  }

  // ----- The backend and its pump -----

  ghost predicate ThreadsKnown(requests: seq<Request>, n: nat) {
    forall i :: 0 <= i < |requests| && requests[i].StartRequest? ==> requests[i].watch.thread < n
  }

  ghost predicate PumpOk(s: State) {
    && s.handlers == s.watches.Keys
    && (forall h :: h in s.watches ==> s.watches[h].handle == h && s.watches[h].thread < |s.clients|)
    && ThreadsKnown(s.requests, |s.clients|) && ThreadsKnown(Batch(s), |s.clients|)
  }

  // ----- No request is forgotten -----

  ghost predicate Posts(x: Client) {
    x.phase.Posting? || (x.phase.Stopping? && x.phase.mustPost)
  }

  ghost predicate SomeonePosts(s: State) {
    exists c :: 0 <= c < |s.clients| && Posts(s.clients[c])
  }

  ghost predicate WakeOk(s: State) {
    s.requests != [] ==> s.tasks > 0 || s.backend.Woken? || SomeonePosts(s)
  }

  // ----- Client threads -----

  /** The watch is over: its notification was posted, or it was dropped for good. */
  ghost predicate Settled(ids: seq<Record>, id: nat) {
    id < |ids| && (ids[id].place.Notified? || ids[id].place.Dropped?)
  }

  /** The start request has left the vector for good. */
  ghost predicate Underway(ids: seq<Record>, id: nat) {
    id < |ids| && !ids[id].place.Queued? && !ids[id].place.Flying?
  }

  ghost predicate PhaseOk(s: State, c: nat, x: Client) {
    match x.phase
    case Drawing(w, _) => w !in x.watching
    case Numbered(w, watch) =>
      w !in x.watching && watch.thread == c && watch.id < |s.ids| && s.ids[watch.id].holder == Held(c, w)
    case Searching(w, id, _) => w in x.watching && x.watching[w] == id
    case Adding(w, id, _) => w in x.watching && x.watching[w] == id && Underway(s.ids, id)
    case Stopping(w, id, _, _, signalled) =>
      && w in x.watching && x.watching[w] == id && Underway(s.ids, id)
      && (if signalled then Settled(s.ids, id) else StopRequest(id, c) in s.requests || StopRequest(id, c) in Batch(s))
    case _ => true
  }

  ghost predicate PhasesOk(s: State) {
    forall c :: 0 <= c < |s.clients| ==> PhaseOk(s, c, s.clients[c])
  }

  ghost predicate TasksOk(clients: seq<Client>, ids: seq<Record>) {
    forall c, i :: 0 <= c < |clients| && 0 <= i < |clients[c].tasks| ==>
      clients[c].tasks[i] < |ids| && ids[clients[c].tasks[i]].place.Notified?
  }

  /** Records and HandleWatcher objects agree on who holds what. */
  ghost predicate HoldersOk(clients: seq<Client>, ids: seq<Record>) {
    && (forall c, w :: 0 <= c < |clients| && w in clients[c].watching ==>
          && clients[c].watching[w] < |ids|
          && ids[clients[c].watching[w]].holder == Held(c, w)
          && !ids[clients[c].watching[w]].place.Flying?)
    && (forall id :: 0 <= id < |ids| && ids[id].holder.Held? && !ids[id].place.Flying? ==>
          var Held(c, w) := ids[id].holder;
          c < |clients| && w in clients[c].watching && clients[c].watching[w] == id)
    && (forall id :: 0 <= id < |ids| && ids[id].holder.Nobody? ==> Settled(ids, id))
  }

  ghost predicate ThreadsOk(s: State) {
    PhasesOk(s) && TasksOk(s.clients, s.ids) && HoldersOk(s.clients, s.ids)
  }

  /** A stop request belongs to a thread that is waiting for it. */
  ghost predicate StopOk(clients: seq<Client>, r: Request) {
    r.StopRequest? ==>
      && r.thread < |clients| && clients[r.thread].phase.Stopping?
      && clients[r.thread].phase.id == r.id && !clients[r.thread].phase.signalled
  }

  ghost predicate StopsIn(clients: seq<Client>, requests: seq<Request>) {
    && (forall i :: 0 <= i < |requests| ==> StopOk(clients, requests[i]))
    && (forall i, j :: 0 <= i < j < |requests| && requests[i].StopRequest? && requests[j].StopRequest? ==>
          requests[i].thread != requests[j].thread)
  }

  ghost predicate StopsOk(s: State) {
    && StopsIn(s.clients, s.requests) && StopsIn(s.clients, Batch(s))
    && (forall i, j ::
          0 <= i < |Batch(s)| && 0 <= j < |s.requests| && Batch(s)[i].StopRequest? && s.requests[j].StopRequest? ==>
            Batch(s)[i].thread != s.requests[j].thread)
    && (forall i :: 0 <= i < |Batch(s)| && Batch(s)[i].StopRequest? ==> !At(s.ids, Batch(s)[i].id, Batched))
  }

  ghost predicate Free(ids: seq<Record>, id: nat) {
    id < |ids| && ids[id].holder.Nobody?
  }

  ghost predicate CallbacksOk(ran: seq<nat>, stopped: set<nat>, ids: seq<Record>) {
    && (forall i :: 0 <= i < |ran| ==> Free(ids, ran[i]))
    && (forall i, j :: 0 <= i < j < |ran| ==> ran[i] != ran[j])
    && (forall id :: id in stopped ==> Free(ids, id) && id !in ran)
  }

  ghost predicate Inv(s: State) {
    && PlacesOk(s) && PumpOk(s) && WakeOk(s) && ThreadsOk(s) && StopsOk(s)
    && CallbacksOk(s.ran, s.stopped, s.ids)
  }

  lemma InitInv(s: State)
    requires Init(s)
    ensures Inv(s)
  {
  }
}
