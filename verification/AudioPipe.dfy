/**
  AudioPipe and its base MediaPipeBase: the checks a packet passes before it becomes audio, the counting of its
  frames in 32 bits, and the timeline that gives a start to packets sent without a time stamp.

  The transform from media time to fractional frames is a partial function.  A sum of time stamps that leaves the
  signed 64-bit range, which C++ leaves undefined, wraps around here.
 */
module AudioPipe {
  import opened Wrappers

  const Two32: int := 0x1_0000_0000
  const Two63: int := 0x8000_0000_0000_0000
  const Two64: int := 0x1_0000_0000_0000_0000

  type uint32 = x: int | 0 <= x < Two32
  type uint64 = x: int | 0 <= x < Two64
  type int64 = x: int | -Two63 <= x < Two63
  type FrameSize = x: int | 0 < x < Two32 witness 1

  const NoTimestamp: int64 := 0x7fff_ffff_ffff_ffff
  const MaxBufferLen: uint64 := 0x3fff_ffff_ffff_ffff

  /** Time stamps count frames with 12 fractional bits; a count of frames must leave room for them in 32 bits. */
  const FracUnit: int := 4096
  const MaxFrames: uint32 := (Two32 - 1) / FracUnit

  // ----- Packets -----

  /** A region of the shared buffer, as sent. */
  datatype Region = Region(offset: uint64, length: uint64)

  /** MediaPacket: any of its regions may be missing. */
  datatype Packet = Packet(pts: int64, payload: Option<Region>, extraPayload: seq<Option<Region>>)

  /** AudioPacketRef::Region; the base is an offset from the start of the buffer. */
  datatype AudioRegion = AudioRegion(base: uint64, fracFrameLen: uint32)

  /** AudioPacketRef. */
  datatype AudioPacket = AudioPacket(regions: seq<AudioRegion>, startPts: int64, endPts: int64)

  /** What Configure decides: bytes per frame, and the transform of explicit time stamps. */
  datatype Config = Config(frameSize: FrameSize, toFrames: int64 -> Option<int64>)

  function Wrap64(x: int): (r: int64)
    ensures (r - x) % Two64 == 0
    ensures r == x <==> -Two63 <= x < Two63
  {
    (x + Two63) % Two64 - Two63
  }

  // ----- What a packet must satisfy -----

  /** Every region is there and lies inside a buffer of this size. */
  ghost predicate InsideBuffer(regions: seq<Option<Region>>, size: uint64) {
    forall i :: 0 <= i < |regions| ==> regions[i].Some? && regions[i].value.offset + regions[i].value.length <= size
  }

  function Payload(packet: Packet): seq<Option<Region>> {
    [packet.payload] + packet.extraPayload
  }

  function Present(regions: seq<Option<Region>>): (r: seq<Region>)
    requires forall i :: 0 <= i < |regions| ==> regions[i].Some?
    ensures |r| == |regions|
    ensures forall i :: 0 <= i < |r| ==> regions[i] == Some(r[i])
  {
    seq(|regions|, i requires 0 <= i < |regions| => regions[i].value)
  }

  function Frames(region: Region, frameSize: FrameSize): (r: nat) {
    region.length / frameSize
  }

  /** The true number of frames, without a bound. */
  function TotalFrames(regions: seq<Region>, frameSize: FrameSize): nat {
    if regions == [] then 0
    else TotalFrames(regions[..|regions| - 1], frameSize) + Frames(regions[|regions| - 1], frameSize)
  }

  /** The running total up to and including region i, as 32 bits show it. */
  function Counted(regions: seq<Region>, frameSize: FrameSize, i: nat): (r: uint32)
    requires i < |regions|
  {
    TotalFrames(regions[..i + 1], frameSize) % Two32
  }

  ghost predicate WholeFrames(regions: seq<Region>, frameSize: FrameSize) {
    forall i :: 0 <= i < |regions| ==> regions[i].length % frameSize == 0
  }

  /** Whole frames only, and no running total that shows more than MaxFrames. */
  ghost predicate Countable(regions: seq<Region>, frameSize: FrameSize) {
    && WholeFrames(regions, frameSize)
    && forall i :: 0 <= i < |regions| ==> Counted(regions, frameSize, i) <= MaxFrames
  }

  function AudioRegions(regions: seq<Region>, frameSize: FrameSize): (r: seq<AudioRegion>)
    requires Countable(regions, frameSize)
  {
    seq(|regions|, i requires 0 <= i < |regions| =>
      AudioRegion(regions[i].offset, Counted(regions, frameSize, i) * FracUnit))
  }

  // ----- The pipe -----

  /** What the track got to see: packets, with all they were judged by, and flushes. */
  datatype Entry =
    | Delivered(packet: Packet, size: uint64, config: Config, audio: AudioPacket)
    | Flushed

  datatype State = State(
    bound: bool,
    buffer: Option<uint64>,
    config: Config,
    nextPts: Option<int64>,
    primeCallback: Option<int>,
    primed: seq<int>,
    log: seq<Entry>)

  datatype Event =
    | Configure(config: Config)
    | SetBuffer(size: Option<uint64>, mapped: bool)
    | SendPacket(packet: Packet)
    | Flush
    | Prime(callback: int)
    | Disconnect

  function Closed(s: State): State {
    s.(bound := false, buffer := None)
  }

  /** The start of a packet: its own time stamp transformed, or the end of what came before. */
  function Start(s: State, pts: int64): Option<int64> {
    if pts != NoTimestamp then s.config.toFrames(pts)
    else if s.nextPts.Some? then s.nextPts
    else Some(0)
  }

  /** The packet becomes audio. */
  ghost predicate Accepts(s: State, packet: Packet) {
    && s.buffer.Some?
    && InsideBuffer(Payload(packet), s.buffer.value)
    && Countable(Present(Payload(packet)), s.config.frameSize)
    && Start(s, packet.pts).Some?
  }

  ghost function Audio(s: State, packet: Packet): AudioPacket
    requires Accepts(s, packet)
  {
    var regions := Present(Payload(packet));
    var start := Start(s, packet.pts).value;
    AudioPacket(
      AudioRegions(regions, s.config.frameSize),
      start,
      Wrap64(start + Counted(regions, s.config.frameSize, |regions| - 1) * FracUnit))
  }

  // ----- What the pipe promises -----

  /** No region is large enough to carry a running total of at most MaxFrames past 32 bits. */
  ghost predicate NothingWraps(packet: Packet, frameSize: FrameSize) {
    forall i :: 0 <= i < |Payload(packet)| && Payload(packet)[i].Some? ==>
      Frames(Payload(packet)[i].value, frameSize) < Two32 - MaxFrames
  }

  /** The packet is in order: a buffer is set, every region is there and inside it, the regions are whole frames and at
      most MaxFrames of them, and a time stamp, if there is one, can be transformed. */
  ghost predicate InOrder(buffer: Option<uint64>, config: Config, packet: Packet) {
    && buffer.Some?
    && (forall i :: 0 <= i < |Payload(packet)| ==>
          && Payload(packet)[i].Some?
          && Payload(packet)[i].value.offset + Payload(packet)[i].value.length <= buffer.value
          && Payload(packet)[i].value.length % config.frameSize == 0)
    && TotalFrames(Present(Payload(packet)), config.frameSize) <= MaxFrames
    && (packet.pts == NoTimestamp || config.toFrames(packet.pts).Some?)
  }

  function RunPrime(s: State): State {
    if s.primeCallback.Some? then s.(primed := s.primed + [s.primeCallback.value], primeCallback := None) else s
  }

  ghost function Step(s: State, e: Event): State {
    match e
    case Configure(config) =>
      if s.bound then Closed(s) else s.(bound := true, config := config)
    case SetBuffer(size, mapped) =>
      if s.buffer.None? && size.Some? && 0 < size.value <= MaxBufferLen && mapped then s.(buffer := size)
      else Closed(s)
    case SendPacket(packet) =>
      if Accepts(s, packet) then
        var audio := Audio(s, packet);
        RunPrime(s.(
          nextPts := Some(audio.endPts),
          log := s.log + [Delivered(packet, s.buffer.value, s.config, audio)]))
      else Closed(s)
    case Flush =>
      if s.buffer.Some? then s.(nextPts := None, log := s.log + [Flushed]) else Closed(s)
    case Prime(callback) =>
      RunPrime(s).(primeCallback := Some(callback))
    case Disconnect =>
      Closed(s)
  }

  ghost function Run(s: State, events: seq<Event>): State {
    if events == [] then s else Step(Run(s, events[..|events| - 1]), events[|events| - 1])
  }

  /** A pipe just configured: nothing sent, nothing primed. */
  function Initial(config: Config): State {
    State(true, None, config, None, None, [], [])
  }
}
