/** AudioPipe and its base MediaPipeBase, the object. */
module MediaPipe {
  import opened Wrappers
  import opened AudioPipe
  import opened AudioPipeLoops
  import opened AudioPipeTheorems

  class Pipe {
    var bound: bool
    var buffer: Option<uint64>
    var config: Config
    var nextPtsKnown: bool
    var nextPts: int64
    var primeCallback: Option<int>
    var primed: seq<int>
    var log: seq<Entry>

    ghost function View(): State
      reads this
    {
      State(bound, buffer, config, if nextPtsKnown then Some(nextPts) else None, primeCallback, primed, log)
    }

    constructor (config: Config)
      ensures View() == Initial(config)
    {
      this.bound := true;
      this.buffer := None;
      this.config := config;
      this.nextPtsKnown := false;
      this.nextPts := 0;
      this.primeCallback := None;
      this.primed := [];
      this.log := [];
    }

    method Reset()
      modifies this`bound, this`buffer
      ensures View() == Closed(old(View()))
    {
      if bound {
        bound := false;
      }
      buffer := None;
    }

    /** A track that is configured already is shut down, and its pipe with it. */
    method Configure(config: Config)
      modifies this
      ensures View() == Step(old(View()), Event.Configure(config))
      ensures bound == !old(bound) && (bound ==> this.config == config && buffer == old(buffer))
      ensures nextPtsKnown == old(nextPtsKnown) && nextPts == old(nextPts) && log == old(log)
    {
      if bound {
        Reset();
        return;
      }
      this.config := config;
      bound := true;
    }

    method SetBuffer(size: Option<uint64>, mapped: bool)
      modifies this
      ensures View() == Step(old(View()), Event.SetBuffer(size, mapped))
      ensures buffer.Some? <==> old(buffer).None? && size.Some? && 0 < size.value <= MaxBufferLen && mapped
      ensures if buffer.Some? then buffer == size && bound == old(bound) else !bound
    {
      if buffer.Some? {
        Reset();
        return;
      }
      if size.None? {
        Reset();
        return;
      }
      if size.value == 0 || size.value > MaxBufferLen {
        Reset();
        return;
      }
      buffer := size;
      if !mapped {
        Reset();
      }
    }

    method SendPacket(packet: Packet)
      modifies this
      ensures View() == Step(old(View()), Event.SendPacket(packet))
      ensures SentAsPromised(old(View()), packet, View())
    {
      if buffer.None? {
        SendKeepsPromise(View(), packet);
        Reset();
        return;
      }
      var ok := CheckRegions(packet.payload, packet.extraPayload, buffer.value);
      if !ok {
        SendKeepsPromise(View(), packet);
        Reset();
        return;
      }
      OnPacketReceived(packet);
    }

    method OnPacketReceived(packet: Packet)
      requires buffer.Some? && InsideBuffer(Payload(packet), buffer.value)
      modifies this
      ensures View() == Step(old(View()), Event.SendPacket(packet))
      ensures SentAsPromised(old(View()), packet, View())
    {
      SendKeepsPromise(View(), packet);
      var regions := Present(Payload(packet));
      var counted := CountFrames(regions[0], regions[1..], config.frameSize);
      assert [regions[0]] + regions[1..] == regions;
      if counted.None? {
        Reset();
        return;
      }
      var (audioRegions, frameCount) := counted.value;
      var startPts: int64;
      if packet.pts != NoTimestamp {
        var transformed := config.toFrames(packet.pts);
        if transformed.None? {
          Reset();
          return;
        }
        startPts := transformed.value;
      } else {
        startPts := if nextPtsKnown then nextPts else 0;
      }
      nextPts := Wrap64(startPts + frameCount * FracUnit);
      nextPtsKnown := true;
      log := log + [Delivered(packet, buffer.value, config, AudioPacket(audioRegions, startPts, nextPts))];
      if primeCallback.Some? {
        primed := primed + [primeCallback.value];
        primeCallback := None;
      }
    }

    method Flush()
      modifies this
      ensures View() == Step(old(View()), Event.Flush)
      ensures old(buffer).Some? ==> Start(View(), NoTimestamp) == Some(0)
      ensures buffer == old(buffer) && bound == (old(bound) && buffer.Some?)
      ensures log == (if buffer.Some? then old(log) + [Flushed] else old(log))
    {
      if buffer.None? {
        Reset();
        return;
      }
      nextPtsKnown := false;
      log := log + [Flushed];
    }

    method Prime(callback: int)
      modifies this
      ensures View() == Step(old(View()), Event.Prime(callback))
    {
      if primeCallback.Some? {
        primed := primed + [primeCallback.value];
      }
      primeCallback := Some(callback);
    }
  }
}
