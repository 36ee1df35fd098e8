/**
 * One mixer channel (Core/AudioEngine/Track.cpp): its name, its gain clamped
 * to [0, 2], its mute and solo flags, and the muted/gain stages of rendering a
 * block. The transport source, the effects chain and the plugin host are
 * foreign DSP and are not modelled: the block reaching the gain stage is the
 * buffer as passed in.
 */
module Tracks {

  const MinGain: real := 0.0
  const MaxGain: real := 2.0

  /** `juce::jlimit(lo, hi, v)`. */
  function Limit(lo: real, hi: real, v: real): (r: real)
    requires lo <= hi
    ensures lo <= r <= hi
    ensures lo <= v <= hi ==> r == v
    ensures v < lo ==> r == lo
    ensures hi < v ==> r == hi
  {
    if v < lo then lo else if hi < v then hi else v
  }

  /** Limiting a value already in range changes nothing, so limiting twice is limiting once. */
  lemma LimitIdempotent(lo: real, hi: real, v: real)
    requires lo <= hi
    ensures Limit(lo, hi, Limit(lo, hi, v)) == Limit(lo, hi, v)
  {
  }

  /** The region `[start, start + n)` of a channels-by-samples buffer. */
  predicate InRegion(i: int, start: int, n: int) {
    start <= i < start + n
  }

  class Track {
    var name: string
    var gain: real
    var muted: bool
    var solo: bool
    /** Whether `prepareToPlay` has been called. */
    var prepared: bool

    ghost predicate Valid()
      reads this
    {
      MinGain <= gain <= MaxGain
    }

    /** `Track(name)`: unit gain, neither muted nor soloed. */
    constructor (trackName: string)
      ensures Valid()
      ensures name == trackName && gain == 1.0 && !muted && !solo && !prepared
    {
      name := trackName;
      gain := 1.0;
      muted := false;
      solo := false;
      prepared := false;
    }

    /** `prepareToPlay`: the stages are prepared; the controls are untouched. */
    method PrepareToPlay(samplesPerBlockExpected: int, sampleRate: real)
      modifies this`prepared
      ensures prepared
    {
      prepared := true;
    }

    /** `setGain(newGain)`: the stored gain is the request limited to [0, 2]. */
    method SetGain(newGain: real)
      modifies this`gain
      ensures Valid()
      ensures gain == Limit(MinGain, MaxGain, newGain)
    {
      gain := Limit(MinGain, MaxGain, newGain);
    }

    /** `setMuted`: only the mute flag changes. */
    method SetMuted(shouldMute: bool)
      modifies this`muted
      ensures muted == shouldMute
    {
      muted := shouldMute;
    }

    /** `setSolo`: only the solo flag changes. */
    method SetSolo(shouldSolo: bool)
      modifies this`solo
      ensures solo == shouldSolo
    {
      solo := shouldSolo;
    }

    /**
     * The mute and gain stages of `getNextAudioBlock`: a muted track clears
     * the region of every channel and does nothing else; otherwise every
     * sample of the region is scaled by the gain. The multiplication is
     * skipped when the gain is exactly 1, which the contract shows changes
     * nothing. On the unmuted path `buffer` stands for what the transport
     * source, the built-in effects and the plugin have already written, over
     * the whole buffer; these two stages leave samples outside the region alone.
     */
    method GetNextAudioBlock(buffer: array2<real>, startSample: int, numSamples: int)
      requires 0 <= startSample && 0 <= numSamples && startSample + numSamples <= buffer.Length1
      modifies buffer
      ensures forall c, i :: 0 <= c < buffer.Length0 && 0 <= i < buffer.Length1 ==>
        buffer[c, i] == (if !InRegion(i, startSample, numSamples) then old(buffer[c, i])
                         else if muted then 0.0
                         else old(buffer[c, i]) * gain)
    {
      if muted {
        ClearRegion(buffer, startSample, numSamples);
        return;
      }
      if gain != 1.0 {
        for channel := 0 to buffer.Length0
          invariant forall c, i :: 0 <= c < buffer.Length0 && 0 <= i < buffer.Length1 ==>
            buffer[c, i] == (if c < channel && InRegion(i, startSample, numSamples)
                             then old(buffer[c, i]) * gain else old(buffer[c, i]))
        {
          ApplyGain(buffer, channel, startSample, numSamples, gain);
        }
      }
    }
  }

  /** `AudioBuffer::clear` over the region of every channel. */
  method ClearRegion(buffer: array2<real>, startSample: int, numSamples: int)
    requires 0 <= startSample && 0 <= numSamples && startSample + numSamples <= buffer.Length1
    modifies buffer
    ensures forall c, i :: 0 <= c < buffer.Length0 && 0 <= i < buffer.Length1 ==>
      buffer[c, i] == if InRegion(i, startSample, numSamples) then 0.0 else old(buffer[c, i])
  {
    for channel := 0 to buffer.Length0
      invariant forall c, i :: 0 <= c < buffer.Length0 && 0 <= i < buffer.Length1 ==>
        buffer[c, i] == if c < channel && InRegion(i, startSample, numSamples) then 0.0 else old(buffer[c, i])
    {
      for s := startSample to startSample + numSamples
        invariant forall c, i :: 0 <= c < buffer.Length0 && 0 <= i < buffer.Length1 ==>
          buffer[c, i] == if (c < channel && InRegion(i, startSample, numSamples))
                             || (c == channel && startSample <= i < s) then 0.0 else old(buffer[c, i])
      {
        buffer[channel, s] := 0.0;
      }
    }
  }

  /** `AudioBuffer::applyGain(channel, start, n, gain)`: one channel's region scaled. */
  method ApplyGain(buffer: array2<real>, channel: int, startSample: int, numSamples: int, gain: real)
    requires 0 <= channel < buffer.Length0
    requires 0 <= startSample && 0 <= numSamples && startSample + numSamples <= buffer.Length1
    modifies buffer
    ensures forall c, i :: 0 <= c < buffer.Length0 && 0 <= i < buffer.Length1 ==>
      buffer[c, i] == if c == channel && InRegion(i, startSample, numSamples)
                      then old(buffer[c, i]) * gain else old(buffer[c, i])
  {
    for s := startSample to startSample + numSamples
      invariant forall c, i :: 0 <= c < buffer.Length0 && 0 <= i < buffer.Length1 ==>
        buffer[c, i] == if c == channel && startSample <= i < s
                        then old(buffer[c, i]) * gain else old(buffer[c, i])
    {
      buffer[channel, s] := buffer[channel, s] * gain;
    }
  }
}
