/** What AudioPipe guarantees over every run: when 32-bit counting is exact, and a timeline without gaps. */
module AudioPipeTheorems {
  import opened Wrappers
  import opened AudioPipe

  // ----- Counting frames -----

  /** No region is large enough to carry a running total of at most MaxFrames past 32 bits. */
  ghost predicate NoRegionWraps(regions: seq<Region>, frameSize: FrameSize) {
    forall i :: 0 <= i < |regions| ==> Frames(regions[i], frameSize) < Two32 - MaxFrames
  }

  lemma {:induction false} TotalGrows(regions: seq<Region>, frameSize: FrameSize, i: nat)
    requires i < |regions|
    ensures Frames(regions[i], frameSize) <= TotalFrames(regions, frameSize)
    ensures TotalFrames(regions[..i + 1], frameSize) <= TotalFrames(regions, frameSize)
  {
    if i == |regions| - 1 {
      assert regions[..i + 1] == regions;
    } else {
      var init := regions[..|regions| - 1];
      TotalGrows(init, frameSize, i);
      assert init[..i + 1] == regions[..i + 1];
    }
  }

  /** Without such a region the 32-bit totals are the true ones, as far as the loop gets. */
  lemma {:induction false} CountedIsTrue(regions: seq<Region>, frameSize: FrameSize, n: nat)
    requires n <= |regions| && NoRegionWraps(regions, frameSize)
    requires forall i :: 0 <= i < n ==> Counted(regions, frameSize, i) <= MaxFrames
    ensures TotalFrames(regions[..n], frameSize) <= MaxFrames
  {
    if n > 0 {
      CountedIsTrue(regions, frameSize, n - 1);
      assert regions[..n][..n - 1] == regions[..n - 1] && regions[..n][n - 1] == regions[n - 1];
      assert Counted(regions, frameSize, n - 1) == TotalFrames(regions[..n], frameSize) % Two32;
    }
  }

  /** An accepted packet is counted rightly if and only if none of its regions wraps. */
  lemma AcceptedCountIsExact(regions: seq<Region>, frameSize: FrameSize)
    requires |regions| > 0 && Countable(regions, frameSize)
    ensures Counted(regions, frameSize, |regions| - 1) == TotalFrames(regions, frameSize)
      <==> NoRegionWraps(regions, frameSize)
  {
    assert regions[..|regions|] == regions;
    if NoRegionWraps(regions, frameSize) {
      CountedIsTrue(regions, frameSize, |regions|);
    } else {
      var i :| 0 <= i < |regions| && Frames(regions[i], frameSize) >= Two32 - MaxFrames;
      TotalGrows(regions, frameSize, i);
    }
  }

  /** When none wraps, exactly the packets of at most MaxFrames whole frames are accepted. */
  lemma AcceptedIffItFits(regions: seq<Region>, frameSize: FrameSize)
    requires NoRegionWraps(regions, frameSize)
    ensures Countable(regions, frameSize)
      <==> WholeFrames(regions, frameSize) && TotalFrames(regions, frameSize) <= MaxFrames
  {
    assert regions[..|regions|] == regions;
    if Countable(regions, frameSize) {
      CountedIsTrue(regions, frameSize, |regions|);
    } else if WholeFrames(regions, frameSize) {
      var i :| 0 <= i < |regions| && Counted(regions, frameSize, i) > MaxFrames;
      TotalGrows(regions, frameSize, i);
    }
  }

  /** A region of exactly 2^32 frames is accepted and counted as none: the packet takes no time at all. */
  lemma HugeRegionCountsAsNothing(toFrames: int64 -> Option<int64>, packet: Packet)
    requires packet == Packet(NoTimestamp, Some(Region(0, Two32)), [])
    ensures
      var s := Run(Initial(Config(1, toFrames)), [SetBuffer(Some(Two32), true), SendPacket(packet)]);
      && |s.log| == 1
      && s.log[0] == Delivered(packet, Two32, Config(1, toFrames), AudioPacket([AudioRegion(0, 0)], 0, 0))
      && TotalFrames(Present(Payload(packet)), 1) == Two32
  {
    var events := [SetBuffer(Some(Two32), true), SendPacket(packet)];
    var s := Initial(Config(1, toFrames));
    assert events[..1] == [events[0]] && events[..1][..0] == [];
    assert Run(s, events[..0]) == s;
    var s1 := Run(s, events[..1]);
    assert s1 == s.(buffer := Some(Two32));
    var regions := Present(Payload(packet));
    assert regions == [Region(0, Two32)];
    assert regions[..1] == regions && regions[..0] == [];
    assert TotalFrames(regions, 1) == TotalFrames(regions[..0], 1) + Two32;
    assert Counted(regions, 1, 0) == 0;
    assert AudioRegions(regions, 1) == [AudioRegion(0, 0)];
    assert Accepts(s1, packet);
  }

  // ----- The timeline -----

  /** The end of the packet delivered just before entry i, if no flush came between. */
  function PreviousEnd(log: seq<Entry>, i: nat): Option<int64>
    requires i <= |log|
  {
    if i == 0 || log[i - 1].Flushed? then None else Some(log[i - 1].audio.endPts)
  }

  /** What a packet became, apart from where it starts. */
  ghost predicate AudioOk(e: Entry)
    requires e.Delivered?
  {
    && InsideBuffer(Payload(e.packet), e.size)
    && var regions := Present(Payload(e.packet));
    && Countable(regions, e.config.frameSize)
    && e.audio.regions == AudioRegions(regions, e.config.frameSize)
    && e.audio.endPts == Wrap64(e.audio.startPts + Counted(regions, e.config.frameSize, |regions| - 1) * FracUnit)
  }

  ghost predicate EntryOk(log: seq<Entry>, i: nat)
    requires i < |log|
  {
    log[i].Delivered? ==>
      && AudioOk(log[i])
      && var start := log[i].audio.startPts;
      if log[i].packet.pts != NoTimestamp then log[i].config.toFrames(log[i].packet.pts) == Some(start)
      else start == match PreviousEnd(log, i) case Some(end) => end case None => 0
  }

  ghost predicate LogOk(log: seq<Entry>, nextPts: Option<int64>) {
    && nextPts == PreviousEnd(log, |log|)
    && forall i :: 0 <= i < |log| ==> EntryOk(log, i)
  }

  lemma LogGrows(log: seq<Entry>, nextPts: Option<int64>, e: Entry)
    requires LogOk(log, nextPts) && EntryOk(log + [e], |log|)
    ensures LogOk(log + [e], PreviousEnd(log + [e], |log| + 1))
  {
    forall i | 0 <= i < |log|
      ensures EntryOk(log + [e], i)
    {
      assert EntryOk(log, i);
      assert PreviousEnd(log + [e], i) == PreviousEnd(log, i);
    }
  }

  lemma DeliveryKeepsLog(s: State, packet: Packet)
    requires LogOk(s.log, s.nextPts) && Accepts(s, packet)
    ensures
      var e := Delivered(packet, s.buffer.value, s.config, Audio(s, packet));
      LogOk(s.log + [e], Some(e.audio.endPts))
  {
    var e := Delivered(packet, s.buffer.value, s.config, Audio(s, packet));
    assert PreviousEnd(s.log + [e], |s.log|) == s.nextPts;
    LogGrows(s.log, s.nextPts, e);
  }

  lemma StepKeepsLog(s: State, e: Event)
    requires LogOk(s.log, s.nextPts)
    ensures LogOk(Step(s, e).log, Step(s, e).nextPts)
  {
    if e.SendPacket? && Accepts(s, e.packet) {
      DeliveryKeepsLog(s, e.packet);
    } else if e.Flush? {
      LogGrows(s.log, s.nextPts, Flushed);
    }
  }

  lemma {:induction false} RunKeepsLog(config: Config, events: seq<Event>)
    ensures LogOk(Run(Initial(config), events).log, Run(Initial(config), events).nextPts)
  {
    if events != [] {
      RunKeepsLog(config, events[..|events| - 1]);
      StepKeepsLog(Run(Initial(config), events[..|events| - 1]), events[|events| - 1]);
    }
  }

  /**
    Over every run: an untimed packet starts where the packet before it ended, at 0 if there is none since the
    last flush; a timed one starts at its transformed time stamp.
   */
  lemma TimelineIsContinuous(config: Config, events: seq<Event>, i: nat)
    requires i < |Run(Initial(config), events).log| && Run(Initial(config), events).log[i].Delivered?
    ensures
      var log := Run(Initial(config), events).log;
      var start := log[i].audio.startPts;
      if log[i].packet.pts != NoTimestamp then log[i].config.toFrames(log[i].packet.pts) == Some(start)
      else if i > 0 && log[i - 1].Delivered? then start == log[i - 1].audio.endPts
      else start == 0
  {
    RunKeepsLog(config, events);
    assert EntryOk(Run(Initial(config), events).log, i);
  }

  /** Every region of an accepted packet, as it was sent, lies inside the buffer and is whole frames. */
  lemma DeliveredRegionsAreInside(config: Config, events: seq<Event>, i: nat, k: nat)
    requires i < |Run(Initial(config), events).log| && Run(Initial(config), events).log[i].Delivered?
    requires k < |Payload(Run(Initial(config), events).log[i].packet)|
    ensures
      var e := Run(Initial(config), events).log[i];
      var sent := Payload(e.packet)[k];
      && sent.Some?
      && |e.audio.regions| == |Payload(e.packet)|
      && e.audio.regions[k].base == sent.value.offset
      && sent.value.offset + sent.value.length <= e.size
      && sent.value.length % e.config.frameSize == 0
  {
    RunKeepsLog(config, events);
    assert EntryOk(Run(Initial(config), events).log, i);
  }

  /**
    Over every run, for a packet of which no region wraps: its entries are the prefix sums of its true frame
    counts, the last is the length of the packet, and end minus start is that length exactly when it is not
    beyond 64 bits.
   */
  lemma DeliveredLengthsAddUp(config: Config, events: seq<Event>, i: nat, k: nat)
    requires i < |Run(Initial(config), events).log| && Run(Initial(config), events).log[i].Delivered?
    requires k < |Payload(Run(Initial(config), events).log[i].packet)|
    requires
      var e := Run(Initial(config), events).log[i];
      forall j :: 0 <= j < |Payload(e.packet)| && Payload(e.packet)[j].Some? ==>
        Frames(Payload(e.packet)[j].value, e.config.frameSize) < Two32 - MaxFrames
    ensures
      var e := Run(Initial(config), events).log[i];
      && InsideBuffer(Payload(e.packet), e.size)
      && var regions := Present(Payload(e.packet));
      var length := FracUnit * TotalFrames(regions, e.config.frameSize);
      && |e.audio.regions| == |regions|
      && e.audio.regions[k].fracFrameLen == FracUnit * TotalFrames(regions[..k + 1], e.config.frameSize)
      && e.audio.regions[|regions| - 1].fracFrameLen == length < Two32
      && (e.audio.endPts - e.audio.startPts == length <==> e.audio.startPts + length < Two63)
  {
    RunKeepsLog(config, events);
    assert EntryOk(Run(Initial(config), events).log, i);
    EntryAddsUp(Run(Initial(config), events).log[i], k);
  }

  lemma EntryAddsUp(e: Entry, k: nat)
    requires e.Delivered? && AudioOk(e) && k < |Payload(e.packet)|
    requires NoRegionWraps(Present(Payload(e.packet)), e.config.frameSize)
    ensures
      var regions := Present(Payload(e.packet));
      var length := FracUnit * TotalFrames(regions, e.config.frameSize);
      && |e.audio.regions| == |regions|
      && e.audio.regions[k].fracFrameLen == FracUnit * TotalFrames(regions[..k + 1], e.config.frameSize)
      && e.audio.regions[|regions| - 1].fracFrameLen == length < Two32
      && (e.audio.endPts - e.audio.startPts == length <==> e.audio.startPts + length < Two63)
  {
    var regions := Present(Payload(e.packet));
    PrefixIsTrue(regions, e.config.frameSize, k);
    PrefixIsTrue(regions, e.config.frameSize, |regions| - 1);
    assert regions[..|regions|] == regions;
  }

  lemma PrefixIsTrue(regions: seq<Region>, frameSize: FrameSize, k: nat)
    requires k < |regions| && NoRegionWraps(regions, frameSize) && Countable(regions, frameSize)
    ensures Counted(regions, frameSize, k) == TotalFrames(regions[..k + 1], frameSize) <= MaxFrames
  {
    CountedIsTrue(regions, frameSize, k + 1);
  }

  // ----- What a mixer is given -----

  /** One past the last byte of region k as it is handed on: a mixer takes fracFrameLen for the region's own length. */
  function HandedEnd(e: Entry, k: nat): int
    requires e.Delivered? && k < |e.audio.regions|
  {
    e.audio.regions[k].base + e.audio.regions[k].fracFrameLen / FracUnit * e.config.frameSize
  }

  function Bytes(regions: seq<Region>): nat {
    if regions == [] then 0 else Bytes(regions[..|regions| - 1]) + regions[|regions| - 1].length
  }

  lemma {:induction false} WholeFramesMakeBytes(regions: seq<Region>, frameSize: FrameSize)
    requires WholeFrames(regions, frameSize)
    ensures TotalFrames(regions, frameSize) * frameSize == Bytes(regions)
  {
    if regions != [] {
      var front, last := regions[..|regions| - 1], regions[|regions| - 1];
      WholeFramesMakeBytes(front, frameSize);
      assert last.length % frameSize == 0;
      Distribute(TotalFrames(front, frameSize), Frames(last, frameSize), frameSize);
    }
  }

  lemma Distribute(a: int, b: int, c: int)
    ensures (a + b) * c == a * c + b * c
  {
  }

  lemma EntryHandsOn(e: Entry, k: nat)
    requires e.Delivered? && AudioOk(e) && k < |Payload(e.packet)|
    requires NoRegionWraps(Present(Payload(e.packet)), e.config.frameSize)
    ensures
      var regions := Present(Payload(e.packet));
      && |e.audio.regions| == |regions|
      && HandedEnd(e, k) == regions[k].offset + Bytes(regions[..k + 1])
      && (e.audio.regions[k].fracFrameLen == FracUnit * Frames(regions[k], e.config.frameSize)
          <==> TotalFrames(regions[..k], e.config.frameSize) == 0)
  {
    var regions, frameSize := Present(Payload(e.packet)), e.config.frameSize;
    EntryAddsUp(e, k);
    WholeFramesMakeBytes(regions[..k + 1], frameSize);
    assert regions[..k + 1][..k] == regions[..k] && regions[..k + 1][k] == regions[k];
  }

  /**
    Over every run, for a packet of which no region wraps: region k as handed on ends where the bytes of all regions
    up to and including k, laid out from its own offset, end.  So it stays inside the buffer if and only if they
    would, which the first region always does; and its length is its own if and only if no earlier region has a frame.
   */
  lemma HandedRegionIsInsideIff(config: Config, events: seq<Event>, i: nat, k: nat)
    requires i < |Run(Initial(config), events).log| && Run(Initial(config), events).log[i].Delivered?
    requires k < |Payload(Run(Initial(config), events).log[i].packet)|
    requires
      var e := Run(Initial(config), events).log[i];
      forall j :: 0 <= j < |Payload(e.packet)| && Payload(e.packet)[j].Some? ==>
        Frames(Payload(e.packet)[j].value, e.config.frameSize) < Two32 - MaxFrames
    ensures
      var e := Run(Initial(config), events).log[i];
      && InsideBuffer(Payload(e.packet), e.size) && |e.audio.regions| == |Payload(e.packet)|
      && var regions := Present(Payload(e.packet));
      && (HandedEnd(e, k) <= e.size <==> regions[k].offset + Bytes(regions[..k + 1]) <= e.size)
      && (HandedEnd(e, k) <= e.size
          <==> regions[k].offset + TotalFrames(regions[..k + 1], e.config.frameSize) * e.config.frameSize <= e.size)
      && (k == 0 ==> HandedEnd(e, k) <= e.size)
      && (e.audio.regions[k].fracFrameLen == FracUnit * Frames(regions[k], e.config.frameSize)
          <==> TotalFrames(regions[..k], e.config.frameSize) == 0)
  {
    RunKeepsLog(config, events);
    assert EntryOk(Run(Initial(config), events).log, i);
    var e := Run(Initial(config), events).log[i];
    var regions := Present(Payload(e.packet));
    EntryHandsOn(e, k);
    WholeFramesMakeBytes(regions[..k + 1], e.config.frameSize);
    if k == 0 {
      assert Bytes(regions[..1]) == Bytes(regions[..1][..0]) + regions[0].length;
    }
  }

  /** Two regions of four bytes fill a buffer of eight; the second is handed on with eight frames, four too many. */
  lemma SecondRegionPassesTheBuffer(toFrames: int64 -> Option<int64>, packet: Packet)
    requires packet == Packet(NoTimestamp, Some(Region(0, 4)), [Some(Region(4, 4))])
    ensures
      var s := Run(Initial(Config(1, toFrames)), [SetBuffer(Some(8), true), SendPacket(packet)]);
      && |s.log| == 1 && s.log[0].Delivered?
      && s.log[0].audio.regions == [AudioRegion(0, 4 * FracUnit), AudioRegion(4, 8 * FracUnit)]
      && HandedEnd(s.log[0], 1) == 12 > s.log[0].size
  {
    var events := [SetBuffer(Some(8), true), SendPacket(packet)];
    var s := Initial(Config(1, toFrames));
    assert events[..1] == [events[0]] && events[..1][..0] == [];
    assert Run(s, events[..0]) == s;
    var s1 := Run(s, events[..1]);
    assert s1 == s.(buffer := Some(8));
    var regions := Present(Payload(packet));
    assert regions == [Region(0, 4), Region(4, 4)];
    assert regions[..2] == regions && regions[..1] == [Region(0, 4)] && regions[..1][..0] == [];
    assert TotalFrames(regions[..1], 1) == 4;
    assert regions[..|regions| - 1] == regions[..1] && TotalFrames(regions, 1) == 8;
    assert Counted(regions, 1, 0) == 4 && Counted(regions, 1, 1) == 8;
    assert AudioRegions(regions, 1) == [AudioRegion(0, 4 * FracUnit), AudioRegion(4, 8 * FracUnit)];
    assert Accepts(s1, packet);
  }

  // ----- Packets in a row -----

  /** The length of the packets in the entries i to j - 1, each as its last region gives it. */
  function LengthOf(log: seq<Entry>, i: nat, j: nat): int
    requires i <= j <= |log|
  {
    if i == j then 0 else
      var e := log[j - 1];
      LengthOf(log, i, j - 1)
        + if e.Flushed? || e.audio.regions == [] then 0 else e.audio.regions[|e.audio.regions| - 1].fracFrameLen
  }

  /** Packets delivered back to back, all but the first untimed, fill the timeline from first start to last end. */
  lemma UntimedRunsAddUp(config: Config, events: seq<Event>, i: nat, j: nat)
    requires i < j <= |Run(Initial(config), events).log|
    requires forall k :: i <= k < j ==> Run(Initial(config), events).log[k].Delivered?
    requires forall k :: i < k < j ==> Run(Initial(config), events).log[k].packet.pts == NoTimestamp
    requires Run(Initial(config), events).log[i].audio.startPts
      + LengthOf(Run(Initial(config), events).log, i, j) < Two63
    ensures
      var log := Run(Initial(config), events).log;
      log[j - 1].audio.endPts == log[i].audio.startPts + LengthOf(log, i, j)
  {
    RunKeepsLog(config, events);
    LogAddsUp(Run(Initial(config), events).log, i, j);
  }

  lemma {:induction false} LogAddsUp(log: seq<Entry>, i: nat, j: nat)
    requires i < j <= |log|
    requires forall k :: 0 <= k < |log| ==> EntryOk(log, k)
    requires forall k :: i <= k < j ==> log[k].Delivered?
    requires forall k :: i < k < j ==> log[k].packet.pts == NoTimestamp
    requires log[i].audio.startPts + LengthOf(log, i, j) < Two63
    ensures log[j - 1].audio.endPts == log[i].audio.startPts + LengthOf(log, i, j)
  {
    assert EntryOk(log, j - 1);
    if j == i + 1 {
      assert LengthOf(log, i, i) == 0;
    } else {
      LogAddsUp(log, i, j - 1);
    }
  }

  // ----- Which packets are delivered -----

  /**
    From any state, for a packet of which no region wraps: it is delivered if and only if it is in order, with or
    without a time stamp; then it starts at its transformed time stamp, or where the timeline is, and is as long as its
    true number of frames.  Otherwise the pipe is closed and nothing else changes.
   */
  lemma DeliveredIffInOrder(s: State, packet: Packet)
    requires NothingWraps(packet, s.config.frameSize)
    ensures
      var s' := Step(s, SendPacket(packet));
      && (|s'.log| == |s.log| + 1 <==> InOrder(s.buffer, s.config, packet))
      && if InOrder(s.buffer, s.config, packet) then
           && s'.bound == s.bound && s'.buffer == s.buffer && s'.config == s.config
           && s'.log[..|s.log|] == s.log && s'.log[|s.log|].Delivered? && s'.log[|s.log|].packet == packet
           && var audio := s'.log[|s.log|].audio;
           && Some(audio.startPts) ==
                (if packet.pts != NoTimestamp then s.config.toFrames(packet.pts)
                 else if s.nextPts.Some? then s.nextPts
                 else Some(0))
           && audio.endPts ==
                Wrap64(audio.startPts + FracUnit * TotalFrames(Present(Payload(packet)), s.config.frameSize))
           && s'.nextPts == Some(audio.endPts)
         else s' == s.(bound := false, buffer := None)
  {
    if s.buffer.Some? && InsideBuffer(Payload(packet), s.buffer.value) {
      var regions := Present(Payload(packet));
      AcceptedIffItFits(regions, s.config.frameSize);
      assert Accepts(s, packet) <==> InOrder(s.buffer, s.config, packet);
      if Accepts(s, packet) {
        AcceptedCountIsExact(regions, s.config.frameSize);
        assert Counted(regions, s.config.frameSize, |regions| - 1) == TotalFrames(regions, s.config.frameSize);
      }
    }
  }

  /** In short, for every packet: what a call of SendPacket shows. */
  ghost predicate SentAsPromised(s: State, packet: Packet, s': State) {
    NothingWraps(packet, s.config.frameSize) ==>
      if InOrder(s.buffer, s.config, packet)
      then |s'.log| == |s.log| + 1 && s'.buffer == s.buffer && s'.bound == s.bound
      else s' == s.(bound := false, buffer := None)
  }

  lemma SendKeepsPromise(s: State, packet: Packet)
    ensures SentAsPromised(s, packet, Step(s, SendPacket(packet)))
  {
    if NothingWraps(packet, s.config.frameSize) {
      DeliveredIffInOrder(s, packet);
    }
  }

  // ----- Rejection -----

  /** A rejected packet closes the pipe: until a new buffer is set, nothing gets through or moves the timeline. */
  lemma {:induction false} ClosedPipeIsSilent(s: State, packet: Packet, events: seq<Event>)
    requires !Accepts(s, packet)
    requires forall i :: 0 <= i < |events| ==> !events[i].SetBuffer?
    ensures
      var s' := Run(Step(s, SendPacket(packet)), events);
      && s'.log == s.log && s'.nextPts == s.nextPts && s'.buffer.None?
      && (events == [] ==> !s'.bound && s'.primed == s.primed && s'.primeCallback == s.primeCallback)
  {
    if events != [] {
      ClosedPipeIsSilent(s, packet, events[..|events| - 1]);
    }
  }

  /** A client that reconnects, with any configuration, goes on in the timeline where it was. */
  lemma ReconnectContinuesTimeline(config: Config, events: seq<Event>, again: Config, size: uint64, packet: Packet)
    requires packet.pts == NoTimestamp
    requires Accepts(Reconnected(Run(Initial(config), events), again, size), packet)
    ensures
      var s := Run(Initial(config), events);
      var s' := Step(Reconnected(s, again, size), SendPacket(packet));
      && |s'.log| == |s.log| + 1 && s'.log[|s.log|].Delivered? && s'.log[|s.log|].config == again
      && s'.log[|s.log|].audio.startPts ==
           if s.log != [] && s.log[|s.log| - 1].Delivered? then s.log[|s.log| - 1].audio.endPts else 0
  {
    RunKeepsLog(config, events);
  }

  /** The connection is lost, the track is configured again, and a buffer is set. */
  ghost function Reconnected(s: State, config: Config, size: uint64): State {
    Step(Step(Step(s, Disconnect), Configure(config)), SetBuffer(Some(size), true))
  }

  /** Whatever the pipe was doing, after that it is open again, and nothing else has changed. */
  lemma ReconnectedIsOpen(s: State, config: Config, size: uint64)
    requires 0 < size <= MaxBufferLen
    ensures Reconnected(s, config, size) == s.(bound := true, buffer := Some(size), config := config)
  {
  }

  // ----- Priming -----

  function PrimeRequests(events: seq<Event>): seq<int> {
    if events == [] then [] else
      var last := events[|events| - 1];
      PrimeRequests(events[..|events| - 1]) + (if last.Prime? then [last.callback] else [])
  }

  function Waiting(s: State): seq<int> {
    if s.primeCallback.Some? then [s.primeCallback.value] else []
  }

  lemma PrimeStep(s: State, e: Event)
    ensures Step(s, e).primed + Waiting(Step(s, e)) == s.primed + Waiting(s) + if e.Prime? then [e.callback] else []
  {
  }

  /** Prime callbacks run once each, in the order requested; only the latest can be waiting. */
  lemma {:induction false} PrimesRunInOrder(config: Config, events: seq<Event>)
    ensures Run(Initial(config), events).primed + Waiting(Run(Initial(config), events)) == PrimeRequests(events)
  {
    if events != [] {
      PrimesRunInOrder(config, events[..|events| - 1]);
      PrimeStep(Run(Initial(config), events[..|events| - 1]), events[|events| - 1]);
    }
  }

  /** An accepted packet leaves no prime callback waiting. */
  lemma AcceptedPacketCompletesPrime(config: Config, events: seq<Event>, packet: Packet)
    requires Accepts(Run(Initial(config), events), packet)
    ensures Run(Initial(config), events + [SendPacket(packet)]).primed == PrimeRequests(events)
  {
    var longer := events + [SendPacket(packet)];
    assert longer[..|longer| - 1] == events;
    PrimesRunInOrder(config, events);
  }
}
