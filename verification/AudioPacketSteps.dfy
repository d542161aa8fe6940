/** How single steps move packets, and why each move keeps what AudioInvariant says about packets. */
module AudioPacketSteps {
  import opened Wrappers
  import opened AudioSystem
  import opened AudioInvariant

  // ----- Facts about one link -----

  lemma CarriedIsPushed(s: State, k: Link, p: nat)
    requires QueueOk(s.packets, k) && Carries(k, p)
    ensures p in k.pushed && p < |s.packets| && s.packets[p].track == k.track && !Drained(k)
  {
    if StuckOn(k, p) {
      assert k.pushed[|k.released| - 1] == p;
    } else if p in k.releasing {
      var i :| 0 <= i < |k.releasing| && k.releasing[i] == p;
      assert k.pushed[|k.released| + i] == p;
    } else {
      var i :| 0 <= i < |k.pending| && k.pending[i] == p;
      assert k.pushed[|k.released| + |k.releasing| + i] == p;
    }
  }

  /** The head of the queue is older than whatever else the link holds, and was never dropped before. */
  lemma HeadIsOldest(s: State, k: Link, p: nat)
    requires QueueOk(s.packets, k)
    requires |k.releasing + k.pending| > 0 && p == (k.releasing + k.pending)[0]
    ensures p !in (k.releasing + k.pending)[1..] && p !in k.released
    ensures forall q :: Holds(k, q) ==> p <= q
  {
    var rest := k.releasing + k.pending;
    assert k.pushed == k.released + rest;
    assert k.pushed[|k.released|] == p;
    forall i | 0 < i < |rest|
      ensures p < rest[i]
    {
      assert k.pushed[|k.released| + i] == rest[i];
    }
    forall i | 0 <= i < |k.released|
      ensures k.released[i] < p
    {
      assert k.pushed[i] == k.released[i];
    }
    forall q | Holds(k, q)
      ensures p <= q
    {
      assert q in rest;
    }
  }

  // ----- Steps that leave every packet where it is -----

  ghost predicate SameCopies(k: Link, k': Link) {
    && (forall p :: Holds(k', p) <==> Holds(k, p))
    && k'.stuck == k.stuck && k'.released == k.released && k'.consumed == k.consumed
  }

  ghost predicate SamePackets(s: State, s': State) {
    && s'.packets == s.packets && |s'.links| == |s.links|
    && (forall l :: 0 <= l < |s.links| ==> SameCopies(s.links[l], s'.links[l]))
    && (s.main.Pushing? || s'.main.Pushing? ==> s'.main == s.main)
    && (s.main.Dropping? || s'.main.Dropping? ==> s'.main == s.main)
    && Out(s') == Out(s)
  }

  lemma SamePacketsOk(s: State, s': State)
    requires SamePackets(s, s') && PacketsOk(s)
    ensures Ordered(s') && Located(s') && Alone(s') && Sorted(s')
    ensures s'.called == s.called && s'.results == s.results ==> PacketsOk(s')
  {
    forall l, p | 0 <= l < |s.links|
      ensures StuckOn(s'.links[l], p) <==> StuckOn(s.links[l], p)
      ensures Carries(s'.links[l], p) <==> Carries(s.links[l], p)
      ensures Discarded(s'.links[l], p) <==> Discarded(s.links[l], p)
    {
    }
    assert Ordered(s') by {
      forall l, i, j |
        0 <= l < |s'.links| && 0 <= i < j < |s'.packets| && SameTrack(s', i, j) && Carries(s'.links[l], i)
        ensures Holds(s'.links[l], j) || Awaits(s', l, j)
      {
        assert SameTrack(s, i, j) && Carries(s.links[l], i);
        assert Holds(s.links[l], j) || Awaits(s, l, j);
      }
    }
    assert Located(s') by {
      forall p | 0 <= p < |s.packets|
        ensures Loose(s', p) <==> Loose(s, p)
      {
      }
    }
    assert Alone(s') by {
      forall l, p | 0 <= l < |s'.links| && StuckOn(s'.links[l], p)
        ensures !Holds(s'.links[l], p)
        ensures !(s'.main.Pushing? && s'.main.packet == p) && !(s'.main.Dropping? && s'.main.packet == p)
        ensures forall m :: 0 <= m < |s'.links| && l != m ==> !Carries(s'.links[m], p)
      {
        assert StuckOn(s.links[l], p);
      }
    }
    assert Sorted(s') by {
      assert forall i, j :: SameTrack(s', i, j) <==> SameTrack(s, i, j);
    }
    forall p | 0 <= p < |s'.packets|
      ensures DiscardedSomewhere(s', p) <==> DiscardedSomewhere(s, p)
    {
    }
  }

  ghost predicate HoldsNone(main: Main) {
    !main.Pushing? && !main.Dropping?
  }

  /** The main loop goes on to something else, having no packet of its own. */
  lemma MainPackets(s: State, main: Main)
    requires PacketsOk(s) && HoldsNone(s.main) && HoldsNone(main)
    ensures PacketsOk(s.(main := main))
  {
    SamePacketsOk(s, s.(main := main));
  }

  /** A step on one link that leaves its packets alone. */
  lemma OneLinkPackets(s: State, l: nat, k: Link)
    requires PacketsOk(s) && l < |s.links| && SameCopies(s.links[l], k)
    ensures PacketsOk(s.(links := s.links[l := k]))
  {
    SamePacketsOk(s, s.(links := s.links[l := k]));
  }

  lemma MainLinkPackets(s: State, l: nat, k: Link, main: Main)
    requires PacketsOk(s) && l < |s.links| && SameCopies(s.links[l], k) && HoldsNone(s.main) && HoldsNone(main)
    ensures PacketsOk(s.(links := s.links[l := k], main := main))
  {
    OneLinkPackets(s, l, k);
    MainPackets(s.(links := s.links[l := k]), main);
  }

  /** A step on the outputs. */
  lemma OutputPackets(s: State, outputs: seq<Output>)
    requires PacketsOk(s)
    ensures PacketsOk(s.(outputs := outputs))
  {
    SamePacketsOk(s, s.(outputs := outputs));
  }

  // ----- A link drops the head of its queue -----

  /** Link l drops its copy of p, the oldest one it holds; it gets stuck on p exactly if no copy is left. */
  ghost predicate Drops(s: State, s': State, l: nat, p: nat) {
    && l < |s.links| && |s'.links| == |s.links| && |s'.packets| == |s.packets| && p < |s.packets|
    && (forall i :: 0 <= i < |s.packets| ==> s'.packets[i].track == s.packets[i].track)
    && (forall i :: 0 <= i < |s.links| && i != l ==> s'.links[i] == s.links[i])
    && s'.main == s.main && Out(s') == Out(s)
    && Holds(s.links[l], p) && s.links[l].stuck.NotStuck?
    && (forall q :: Holds(s.links[l], q) ==> p <= q)
    && (forall q :: Holds(s'.links[l], q) <==> Holds(s.links[l], q) && q != p)
    && (if HeldApartFrom(s, l, p) then s'.links[l].stuck.NotStuck?
        else s'.links[l].stuck == InPop(p) || s'.links[l].stuck == InRelease(p))
  }

  lemma DropKeepsOrdered(s: State, s': State, l: nat, p: nat)
    requires Drops(s, s', l, p) && Ordered(s)
    ensures Ordered(s')
  {
    forall m, i, j | 0 <= m < |s'.links| && 0 <= i < j < |s'.packets| && SameTrack(s', i, j) && Carries(s'.links[m], i)
      ensures Holds(s'.links[m], j) || Awaits(s', m, j)
    {
      assert SameTrack(s, i, j) && Carries(s.links[m], i);
      assert Holds(s.links[m], j) || Awaits(s, m, j);
    }
  }

  lemma DropKeepsLocated(s: State, s': State, l: nat, p: nat)
    requires Drops(s, s', l, p) && Located(s)
    ensures Located(s') && p !in Out(s)
  {
    assert Carries(s.links[l], p);
    forall q | 0 <= q < |s.packets|
      ensures Loose(s', q) <==> Loose(s, q)
    {
      if q == p {
        if HeldApartFrom(s, l, p) {
          if !(s.main.Pushing? && s.main.packet == p) {
            var m :| 0 <= m < |s.links| && m != l && Holds(s.links[m], p);
            assert Carries(s'.links[m], p);
          }
        } else {
          assert Carries(s'.links[l], p);
        }
      } else {
        forall m | 0 <= m < |s.links|
          ensures Carries(s'.links[m], q) <==> Carries(s.links[m], q)
        {
        }
      }
    }
  }

  lemma DropKeepsAlone(s: State, s': State, l: nat, p: nat)
    requires Drops(s, s', l, p) && Alone(s)
    ensures Alone(s')
  {
    assert Carries(s.links[l], p);
    forall m, q | 0 <= m < |s'.links| && StuckOn(s'.links[m], q)
      ensures !Holds(s'.links[m], q)
      ensures !(s'.main.Pushing? && s'.main.packet == q) && !(s'.main.Dropping? && s'.main.packet == q)
      ensures forall n :: 0 <= n < |s'.links| && m != n ==> !Carries(s'.links[n], q)
    {
      if m == l {
        assert q == p;
        forall n | 0 <= n < |s'.links| && m != n
          ensures !Carries(s'.links[n], q)
        {
          assert !Holds(s.links[n], p);
          assert !StuckOn(s.links[n], p);
        }
      } else {
        assert StuckOn(s.links[m], q);
      }
    }
  }

  lemma DropKeepsPackets(s: State, s': State, l: nat, p: nat)
    requires Drops(s, s', l, p) && PacketsOk(s) && s'.called == s.called && s'.results == s.results
    requires p !in s.links[l].released
    requires s'.links[l].released == s.links[l].released + [p]
    requires forall q :: q != p ==> (q in s'.links[l].consumed <==> q in s.links[l].consumed)
    requires forall q :: 0 <= q < |s.packets| && q != p ==> s'.packets[q] == s.packets[q]
    requires s'.packets[p].result == (if p in s'.links[l].consumed then s.packets[p].result else FLUSHED)
    ensures PacketsOk(s')
  {
    DropKeepsOrdered(s, s', l, p);
    DropKeepsLocated(s, s', l, p);
    DropKeepsAlone(s, s', l, p);
    assert forall i, j :: SameTrack(s', i, j) <==> SameTrack(s, i, j);
    forall q | 0 <= q < |s.packets|
      ensures s'.packets[q].result == FLUSHED <==> DiscardedSomewhere(s', q)
    {
      assert forall m :: 0 <= m < |s.links| && (m != l || q != p) ==>
          (Discarded(s'.links[m], q) <==> Discarded(s.links[m], q));
      if q == p {
        assert !Discarded(s.links[l], p);
        assert Discarded(s'.links[l], p) <==> p !in s'.links[l].consumed;
      }
    }
    forall a | 0 <= a < |s.called|
      ensures s.called[a] != p
    {
      assert Out(s)[a] == s.called[a];
    }
  }

  // ----- A destroyed packet reaches the cleanup queue -----

  /** p, which nobody has any more, arrives in the cleanup queue from link l or from the main loop. */
  lemma ArrivalIsInOrder(s: State, p: nat)
    requires Ordered(s) && Located(s) && Sorted(s) && p < |s.packets|
    requires !Loose(s, p)
    requires p + 1 == |s.packets| || exists l :: 0 <= l < |s.links| && StuckOn(s.links[l], p)
    ensures p !in Out(s)
    ensures forall q :: q in Out(s) && SameTrack(s, q, p) ==> q < p
  {
    forall q | q in Out(s) && SameTrack(s, q, p)
      ensures q < p
    {
      assert Loose(s, q) && SameTrack(s, p, q);
      if p + 1 != |s.packets| {
        var l :| 0 <= l < |s.links| && StuckOn(s.links[l], p);
        assert Carries(s.links[l], p) && !Carries(s.links[l], q) && !Awaits(s, l, q);
      }
    }
  }

  lemma AppendKeepsSorted(s: State, s': State, p: nat)
    requires Sorted(s) && s'.packets == s.packets && Out(s') == Out(s) + [p]
    requires forall q :: q in Out(s) && SameTrack(s, q, p) ==> q < p
    ensures Sorted(s')
  {
    forall a, b | 0 <= a < b < |Out(s')| && SameTrack(s', Out(s')[a], Out(s')[b])
      ensures Out(s')[a] < Out(s')[b]
    {
      assert Out(s')[a] == Out(s)[a];
      assert SameTrack(s, Out(s')[a], Out(s')[b]);
      if b == |Out(s)| {
        assert Out(s)[a] in Out(s);
      } else {
        assert Out(s')[b] == Out(s)[b];
      }
    }
  }

  // ----- The steps -----

  lemma NewLinkPackets(s: State, t: nat, o: nat, main: Main)
    requires PacketsOk(s) && HoldsNone(s.main) && HoldsNone(main)
    ensures PacketsOk(s.(links := s.links + [NewLink(t, o)], main := main))
  {
    var s' := s.(links := s.links + [NewLink(t, o)], main := main);
    assert Out(s') == Out(s);
    assert forall l :: 0 <= l < |s.links| ==> s'.links[l] == s.links[l];
    assert forall p :: !Carries(NewLink(t, o), p) && !Discarded(NewLink(t, o), p);
    assert Ordered(s') by {
      forall l, i, j |
        0 <= l < |s'.links| && 0 <= i < j < |s'.packets| && SameTrack(s', i, j) && Carries(s'.links[l], i)
        ensures Holds(s'.links[l], j)
      {
        assert SameTrack(s, i, j) && Carries(s.links[l], i);
      }
    }
    forall p | 0 <= p < |s.packets|
      ensures Loose(s', p) <==> Loose(s, p)
      ensures DiscardedSomewhere(s', p) <==> DiscardedSomewhere(s, p)
    {
      assert forall l :: 0 <= l < |s.links| ==> (Carries(s'.links[l], p) <==> Carries(s.links[l], p));
      assert forall l :: 0 <= l < |s.links| ==> (Discarded(s'.links[l], p) <==> Discarded(s.links[l], p));
    }
    assert forall i, j :: SameTrack(s', i, j) <==> SameTrack(s, i, j);
  }

  lemma AddTrackLinkPackets(s: State)
    requires PacketsOk(s) && CanAddTrackLink(s)
    ensures PacketsOk(AddTrackLink(s))
  {
    NewLinkPackets(s, s.main.track, s.main.output, Linking(|s.links|));
    MainPackets(s, Idle);
  }

  lemma AcceptOrdered(s: State, t: nat)
    requires StructureOk(s) && Ordered(s) && CanAccept(s, t)
    ensures Ordered(Accept(s, t))
  {
    var s' := Accept(s, t);
    forall l, i, j | 0 <= l < |s'.links| && 0 <= i < j < |s'.packets| && SameTrack(s', i, j) && Carries(s'.links[l], i)
      ensures Holds(s'.links[l], j) || Awaits(s', l, j)
    {
      if j < |s.packets| {
        assert SameTrack(s, i, j);
      } else {
        CarriedIsPushed(s, s.links[l], i);
        assert ReferenceOk(s, l, s.links[l]);
      }
    }
  }

  lemma AcceptSorted(s: State, t: nat)
    requires Located(s) && Sorted(s) && CanAccept(s, t)
    ensures Sorted(Accept(s, t))
  {
    var s' := Accept(s, t);
    assert Out(s') == Out(s);
    forall a, b | 0 <= a < b < |Out(s')| && SameTrack(s', Out(s')[a], Out(s')[b])
      ensures Out(s')[a] < Out(s')[b]
    {
      assert Out(s)[a] in Out(s) && Out(s)[b] in Out(s);
      assert SameTrack(s, Out(s)[a], Out(s)[b]);
    }
  }

  lemma KnownPacketsAreOld(s: State, l: nat, p: nat)
    requires LinksOk(s) && l < |s.links| && (Carries(s.links[l], p) || p in s.links[l].released)
    ensures p < |s.packets|
  {
    assert QueueOk(s.packets, s.links[l]);
    if Carries(s.links[l], p) {
      CarriedIsPushed(s, s.links[l], p);
    } else {
      assert p in s.links[l].pushed;
    }
  }

  lemma AcceptPackets(s: State, t: nat)
    requires StructureOk(s) && PacketsOk(s) && CanAccept(s, t)
    ensures PacketsOk(Accept(s, t))
  {
    var s' := Accept(s, t);
    var n := |s.packets|;
    AcceptOrdered(s, t);
    AcceptSorted(s, t);
    forall l, p: nat | 0 <= l < |s.links| && (Carries(s.links[l], p) || p in s.links[l].released)
      ensures p < n
    {
      KnownPacketsAreOld(s, l, p);
    }
    forall p | 0 <= p < n
      ensures Loose(s', p) <==> Loose(s, p)
      ensures DiscardedSomewhere(s', p) <==> DiscardedSomewhere(s, p)
    {
    }
    assert Out(s') == Out(s);
    assert Located(s');
    assert Alone(s') by {
      assert forall l, p :: 0 <= l < |s.links| && StuckOn(s.links[l], p) ==> Carries(s.links[l], p);
    }
    assert !DiscardedSomewhere(s', n);
  }

  lemma PushPackets(s: State, l: nat)
    requires PacketsOk(s) && MainOk(s) && CanPush(s, l)
    ensures PacketsOk(Push(s, l))
  {
    var s' := Push(s, l);
    var p := s.main.packet;
    assert Out(s') == Out(s);
    assert forall m, q :: 0 <= m < |s.links| && (m != l || q != p) ==>
        (Holds(s'.links[m], q) <==> Holds(s.links[m], q)) && (Carries(s'.links[m], q) <==> Carries(s.links[m], q));
    assert Ordered(s') by {
      forall m, i, j |
        0 <= m < |s'.links| && 0 <= i < j < |s'.packets| && SameTrack(s', i, j) && Carries(s'.links[m], i)
        ensures Holds(s'.links[m], j) || Awaits(s', m, j)
      {
        assert SameTrack(s, i, j) && Carries(s.links[m], i);
        assert Holds(s.links[m], j) || Awaits(s, m, j);
      }
    }
    forall q | 0 <= q < |s.packets|
      ensures Loose(s', q) <==> Loose(s, q)
      ensures DiscardedSomewhere(s', q) <==> DiscardedSomewhere(s, q)
    {
      assert forall m :: 0 <= m < |s.links| ==> (Discarded(s'.links[m], q) <==> Discarded(s.links[m], q));
    }
    assert Alone(s') by {
      forall m, q | 0 <= m < |s'.links| && StuckOn(s'.links[m], q)
        ensures q != p && !Holds(s'.links[m], q)
        ensures forall n :: 0 <= n < |s'.links| && m != n ==> !Carries(s'.links[n], q)
      {
        assert StuckOn(s.links[m], q);
      }
    }
    assert forall i, j :: SameTrack(s', i, j) <==> SameTrack(s, i, j);
  }

  lemma DropOwnCopyPackets(s: State)
    requires PacketsOk(s) && CanDropOwnCopy(s)
    ensures PacketsOk(DropOwnCopy(s))
  {
    var s' := DropOwnCopy(s);
    var p := s.main.packet;
    assert Out(s') == Out(s);
    assert Ordered(s') by {
      forall l, i, j |
        0 <= l < |s'.links| && 0 <= i < j < |s'.packets| && SameTrack(s', i, j) && Carries(s'.links[l], i)
        ensures Holds(s'.links[l], j)
      {
        assert SameTrack(s, i, j) && Carries(s.links[l], i) && !Awaits(s, l, j);
      }
    }
    assert forall l :: 0 <= l < |s.links| ==> !StuckOn(s.links[l], p);
    if s'.main.Idle? {
      var m :| 0 <= m < |s.links| && Holds(s.links[m], p);
      assert Carries(s'.links[m], p);
    }
    forall q | 0 <= q < |s.packets|
      ensures Loose(s', q) <==> Loose(s, q)
      ensures DiscardedSomewhere(s', q) <==> DiscardedSomewhere(s, q)
    {
    }
    assert Alone(s');
    assert forall i, j :: SameTrack(s', i, j) <==> SameTrack(s, i, j);
  }

  lemma ReleasePackets(s: State, l: nat)
    requires StructureOk(s) && PacketsOk(s) && CanRelease(s, l)
    ensures PacketsOk(Release(s, l))
  {
    var s' := Release(s, l);
    var k, k' := s.links[l], s'.links[l];
    var p := k.releasing[0];
    assert QueueOk(s.packets, k);
    HeadIsOldest(s, k, p);
    assert k.releasing == [p] + k.releasing[1..];
    assert (k.releasing + k.pending)[1..] == k'.releasing + k'.pending;
    forall q
      ensures Holds(k', q) <==> Holds(k, q) && q != p
    {
      assert Holds(k', q) <==> q in k'.releasing + k'.pending;
    }
    assert Out(s') == Out(s);
    DropKeepsPackets(s, s', l, p);
  }

  lemma PopTakesHead(s: State, k: Link, last: bool)
    requires QueueOk(s.packets, k) && k.pending != [] && k.lock.Mixer?
    ensures
      var p := k.pending[0];
      && p < |s.packets| && Holds(k, p) && p !in k.released
      && (forall q :: Holds(k, q) ==> p <= q)
      && (forall q :: Holds(PopLink(k, last), q) <==> Holds(k, q) && q != p)
  {
    var p := k.pending[0];
    assert k.releasing + k.pending == k.pending;
    HeadIsOldest(s, k, p);
    assert k.pending == [p] + k.pending[1..];
    CarriedIsPushed(s, k, p);
  }

  lemma UnlockPopPackets(s: State, l: nat)
    requires StructureOk(s) && PacketsOk(s) && CanUnlockPop(s, l)
    ensures PacketsOk(UnlockPop(s, l))
  {
    var s' := UnlockPop(s, l);
    var k := s.links[l];
    var p := k.pending[0];
    assert QueueOk(s.packets, k);
    PopTakesHead(s, k, !HeldApartFrom(s, l, p));
    assert Out(s') == Out(s);
    DropKeepsPackets(s, s', l, p);
  }

  lemma EnqueueSorted(s: State, l: nat)
    requires PacketsOk(s) && CanEnqueue(s, l) && QueueOk(s.packets, s.links[l])
    ensures Sorted(Enqueue(s, l)) && Out(Enqueue(s, l)) == Out(s) + [s.links[l].stuck.packet]
    ensures s.links[l].stuck.packet < |s.packets|
  {
    var s' := Enqueue(s, l);
    var p := s.links[l].stuck.packet;
    assert StuckOn(s.links[l], p) && Carries(s.links[l], p);
    CarriedIsPushed(s, s.links[l], p);
    ArrivalIsInOrder(s, p);
    assert Out(s') == Out(s) + [p];
    AppendKeepsSorted(s, s', p);
  }

  lemma EnqueuePackets(s: State, l: nat)
    requires PacketsOk(s) && CanEnqueue(s, l) && QueueOk(s.packets, s.links[l])
    ensures PacketsOk(Enqueue(s, l))
  {
    var s' := Enqueue(s, l);
    var p := s.links[l].stuck.packet;
    assert StuckOn(s.links[l], p);
    EnqueueSorted(s, l);
    assert forall m, q :: 0 <= m < |s.links| && (m != l || q != p) ==>
        (Holds(s'.links[m], q) <==> Holds(s.links[m], q)) && (Carries(s'.links[m], q) <==> Carries(s.links[m], q));
    assert !Carries(s'.links[l], p);
    assert Ordered(s') by {
      forall m, i, j |
        0 <= m < |s'.links| && 0 <= i < j < |s'.packets| && SameTrack(s', i, j) && Carries(s'.links[m], i)
        ensures Holds(s'.links[m], j) || Awaits(s', m, j)
      {
        assert SameTrack(s, i, j) && Carries(s.links[m], i);
        assert Holds(s.links[m], j) || Awaits(s, m, j);
      }
    }
    forall q | 0 <= q < |s.packets|
      ensures Loose(s', q) <==> Loose(s, q) || q == p
      ensures DiscardedSomewhere(s', q) <==> DiscardedSomewhere(s, q)
    {
      assert forall m :: 0 <= m < |s.links| ==> (Discarded(s'.links[m], q) <==> Discarded(s.links[m], q));
    }
    assert Alone(s') by {
      forall m, q | 0 <= m < |s'.links| && StuckOn(s'.links[m], q)
        ensures !Holds(s'.links[m], q)
        ensures forall n :: 0 <= n < |s'.links| && m != n ==> !Carries(s'.links[n], q)
      {
        assert StuckOn(s.links[m], q);
      }
    }
  }

  lemma EnqueueOwnPackets(s: State)
    requires MainOk(s) && PacketsOk(s) && CanEnqueueOwn(s)
    ensures PacketsOk(EnqueueOwn(s))
  {
    var s' := EnqueueOwn(s);
    var p := s.main.packet;
    ArrivalIsInOrder(s, p);
    assert Out(s') == Out(s) + [p];
    AppendKeepsSorted(s, s', p);
    assert Ordered(s') by {
      forall m, i, j |
        0 <= m < |s'.links| && 0 <= i < j < |s'.packets| && SameTrack(s', i, j) && Carries(s'.links[m], i)
        ensures Holds(s'.links[m], j)
      {
        assert SameTrack(s, i, j) && Carries(s.links[m], i);
      }
    }
    forall q | 0 <= q < |s.packets|
      ensures Loose(s', q) <==> Loose(s, q) || q == p
      ensures DiscardedSomewhere(s', q) <==> DiscardedSomewhere(s, q)
    {
    }
  }

  lemma CallBackPackets(s: State)
    requires PacketsOk(s) && CanCallBack(s)
    ensures PacketsOk(CallBack(s))
  {
    var s' := CallBack(s);
    assert s.draining == [s.draining[0]] + s.draining[1..];
    assert Out(s') == Out(s);
    SamePacketsOk(s, s');
    forall p | 0 <= p < |s.packets|
      ensures DiscardedSomewhere(s', p) <==> DiscardedSomewhere(s, p)
    {
    }
  }

  lemma TrackStepKeepsPackets(s: State, e: TrackEvent)
    requires StructureOk(s) && PacketsOk(s) && TrackEnabled(s, e)
    ensures PacketsOk(TrackApply(s, e))
  {
    match e
    case ECreateTrack => SamePacketsOk(s, CreateTrack(s));
    case ESelectOutput(t, o) => MainPackets(s, Joining(t, o));
    case EAddTrackLink => AddTrackLinkPackets(s);
    case EAddOutput => MainLinkPackets(s, s.main.link, AddOutput(s).links[s.main.link], Idle);
    case EShutdownTrack(t) => SamePacketsOk(s, ShutdownTrack(s, t));
    case EEndShutdownTrack => SamePacketsOk(s, EndShutdownTrack(s));
  }

  lemma PacketStepKeepsPackets(s: State, e: PacketEvent)
    requires StructureOk(s) && PacketsOk(s) && PacketEnabled(s, e)
    ensures PacketsOk(PacketApply(s, e))
  {
    match e
    case EAccept(t) => AcceptPackets(s, t);
    case EPush(l) => PushPackets(s, l);
    case EDropOwnCopy => DropOwnCopyPackets(s);
    case EEnqueueOwn => EnqueueOwnPackets(s);
  }

  lemma FlushStepKeepsPackets(s: State, e: FlushEvent)
    requires StructureOk(s) && PacketsOk(s) && FlushEnabled(s, e)
    ensures PacketsOk(FlushApply(s, e))
  {
    match e
    case EBeginFlush(t) => MainPackets(s, BeginFlush(s, t).main);
    case ESwapOut(l) => MainLinkPackets(s, l, SwapOutLink(s.links[l]), SwapOut(s, l).main);
    case ERelease(l) => ReleasePackets(s, l);
    case EEnqueue(l) => EnqueuePackets(s, l);
    case EEndSwapOut => MainPackets(s, EndSwapOut(s).main);
    case EEndFlush => MainPackets(s, Idle);
  }

  lemma ServerStepKeepsPackets(s: State, e: ServerEvent)
    requires StructureOk(s) && PacketsOk(s) && ServerEnabled(s, e)
    ensures PacketsOk(ServerApply(s, e))
  {
    match e
    case EBeginCleanup => SamePacketsOk(s, BeginCleanup(s));
    case ECallBack => CallBackPackets(s);
    case EEndCleanup => SamePacketsOk(s, EndCleanup(s));
    case EStop => SamePacketsOk(s, Stop(s));
  }

  lemma OutputStepKeepsPackets(s: State, e: OutputEvent)
    requires StructureOk(s) && PacketsOk(s) && OutputEnabled(s, e)
    ensures PacketsOk(OutputApply(s, e))
  {
    match e
    case EShutdownOutput(o) => SamePacketsOk(s, ShutdownOutput(s, o));
    case EBeginOutput => SamePacketsOk(s, BeginOutput(s));
    case EPassBarrier => SamePacketsOk(s, PassBarrier(s));
    case EUnlinkAll => SamePacketsOk(s, UnlinkAll(s));
    case EEndOutput => SamePacketsOk(s, EndOutput(s));
  }

  lemma WorkerStepKeepsPackets(s: State, e: WorkerEvent)
    requires StructureOk(s) && PacketsOk(s) && WorkerEnabled(s, e)
    ensures PacketsOk(WorkerApply(s, e))
  {
    match e
    case EEnter(o) => OutputPackets(s, Enter(s, o).outputs);
    case ECheck(o) => OutputPackets(s, Check(s, o).outputs);
    case ELeave(o) => OutputPackets(s, Leave(s, o).outputs);
    case EShutdownSelf(o) => OutputPackets(s, ShutdownSelf(s, o).outputs);
    case EPostFinish(o) => OutputPackets(s, PostFinish(s, o).outputs);
  }

  lemma MixerStepKeepsPackets(s: State, e: MixerEvent)
    requires StructureOk(s) && PacketsOk(s) && MixerEnabled(s, e)
    ensures PacketsOk(MixerApply(s, e))
  {
    match e
    case ELockFront(l) => OneLinkPackets(s, l, LockFront(s, l).links[l]);
    case EUnlockKeep(l) => OneLinkPackets(s, l, UnlockKeep(s, l).links[l]);
    case EUnlockPop(l) => UnlockPopPackets(s, l);
    case EDropLink(l) => OneLinkPackets(s, l, DropLink(s, l).links[l]);
  }

  lemma StepKeepsPackets(s: State, e: Event)
    requires StructureOk(s) && PacketsOk(s) && Enabled(s, e)
    ensures PacketsOk(Apply(s, e))
  {
    match e
    case TrackStep(x) => TrackStepKeepsPackets(s, x);
    case PacketStep(x) => PacketStepKeepsPackets(s, x);
    case FlushStep(x) => FlushStepKeepsPackets(s, x);
    case ServerStep(x) => ServerStepKeepsPackets(s, x);
    case OutputStep(x) => OutputStepKeepsPackets(s, x);
    case WorkerStep(x) => WorkerStepKeepsPackets(s, x);
    case MixerStep(x) => MixerStepKeepsPackets(s, x);
  }
}
