/** The two loops over the regions of a packet, and the 32-bit running total. */
module AudioPipeLoops {
  import opened Wrappers
  import opened AudioPipe

  /** The loop of MediaPipeBase::SendPacket; no sum of an offset and a length is ever formed. */
  method CheckRegions(payload: Option<Region>, extraPayload: seq<Option<Region>>, size: uint64) returns (ok: bool)
    ensures ok <==> InsideBuffer([payload] + extraPayload, size)
  {
    var region := payload;
    var i := 0;
    ghost var all := [payload] + extraPayload;
    while true
      invariant 0 <= i <= |extraPayload| && region == all[i]
      invariant InsideBuffer(all[..i], size)
      decreases |extraPayload| - i
    {
      if region.None? {
        return false;
      }
      if region.value.offset > size || region.value.length > size - region.value.offset {
        return false;
      }
      assert all[..i + 1] == all[..i] + [region];
      if i >= |extraPayload| {
        assert all[..i + 1] == all;
        return true;
      }
      region := extraPayload[i];
      i := i + 1;
    }
  }

  /** The loop of AudioPipe::OnPacketReceived, which adds 64-bit counts into a 32-bit total. */
  method CountFrames(payload: Region, extraPayload: seq<Region>, frameSize: FrameSize)
    returns (counted: Option<(seq<AudioRegion>, uint32)>)
    ensures counted.Some? <==> Countable([payload] + extraPayload, frameSize)
    ensures counted.Some? ==>
      && counted.value.0 == AudioRegions([payload] + extraPayload, frameSize)
      && counted.value.1 == Counted([payload] + extraPayload, frameSize, |extraPayload|)
  {
    var frameCount: uint32 := 0;
    var region := payload;
    var ndx := 0;
    var regions: seq<AudioRegion> := [];
    ghost var all := [payload] + extraPayload;
    while true
      invariant 0 <= ndx <= |extraPayload| && region == all[ndx]
      invariant frameCount == TotalFrames(all[..ndx], frameSize) % Two32
      invariant Countable(all[..ndx], frameSize) && regions == AudioRegions(all[..ndx], frameSize)
      decreases |extraPayload| - ndx
    {
      CountableNext(all, frameSize, ndx);
      if frameSize > 1 && region.length % frameSize != 0 {
        return None;
      }
      frameCount := (frameCount + region.length / frameSize) % Two32;
      if frameCount > MaxFrames {
        return None;
      }
      regions := regions + [AudioRegion(region.offset, frameCount * FracUnit)];
      if ndx >= |extraPayload| {
        assert all[..ndx + 1] == all;
        return Some((regions, frameCount));
      }
      region := extraPayload[ndx];
      ndx := ndx + 1;
    }
  }

  lemma CountedNext(regions: seq<Region>, frameSize: FrameSize, i: nat)
    requires i < |regions|
    ensures Counted(regions, frameSize, i)
      == (TotalFrames(regions[..i], frameSize) % Two32 + Frames(regions[i], frameSize)) % Two32
  {
    assert regions[..i + 1][..i] == regions[..i];
  }

  lemma CountedInPrefix(regions: seq<Region>, frameSize: FrameSize, n: nat, i: nat)
    requires i < n <= |regions|
    ensures Counted(regions[..n], frameSize, i) == Counted(regions, frameSize, i)
  {
    assert regions[..n][..i + 1] == regions[..i + 1];
  }

  /** What a prefix shows, the whole shows; and one more region is one more comparison. */
  lemma CountableNext(regions: seq<Region>, frameSize: FrameSize, n: nat)
    requires n < |regions| && Countable(regions[..n], frameSize)
    ensures Countable(regions[..n + 1], frameSize)
      <==> regions[n].length % frameSize == 0 && Counted(regions, frameSize, n) <= MaxFrames
    ensures Countable(regions, frameSize) ==> Countable(regions[..n + 1], frameSize)
    ensures Countable(regions[..n + 1], frameSize) ==>
      AudioRegions(regions[..n + 1], frameSize) == AudioRegions(regions[..n], frameSize)
        + [AudioRegion(regions[n].offset, Counted(regions, frameSize, n) * FracUnit)]
    ensures Counted(regions, frameSize, n)
      == (TotalFrames(regions[..n], frameSize) % Two32 + Frames(regions[n], frameSize)) % Two32
  {
    CountedNext(regions, frameSize, n);
    forall i: nat | i <= n
      ensures Counted(regions[..n + 1], frameSize, i) == Counted(regions, frameSize, i)
      ensures i < n ==> Counted(regions[..n], frameSize, i) == Counted(regions, frameSize, i)
      ensures i < n ==> regions[..n + 1][i] == regions[..n][i] == regions[i]
    {
      CountedInPrefix(regions, frameSize, n + 1, i);
      if i < n {
        CountedInPrefix(regions, frameSize, n, i);
      }
    }
    assert regions[..n + 1][n] == regions[n];
  }
}
