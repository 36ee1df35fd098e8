/**
 * The recorder's disk side (Core/AudioEngine/DiskWriter.cpp): the audio thread
 * interleaves each block of per-channel samples into the FIFO, the disk thread
 * reads blocks back out and de-interleaves them into per-channel buffers for
 * the WAV writer. The thread, the condition variable and the file output are
 * not modelled; their outcomes enter as parameters.
 */
module DiskWriting {
  import opened LockFreeAudioFifo

  /** How many samples the disk thread asks the FIFO for at a time. */
  const DiskWriteBufferSize: int := 1024

  /** A non-zero multiple of `n` is at least `n` away from zero. */
  lemma MultipleBound(d: int, n: int)
    requires n > 0
    ensures d >= 1 ==> d * n >= n
    ensures d <= -1 ==> d * n <= -n
  {
    if d >= 1 {
      assert (d - 1) * n >= 0;
    } else if d <= -1 {
      assert (-d - 1) * n >= 0;
    }
  }

  /** `x == q * n + r` with `0 <= r < n` fixes the quotient and the remainder. */
  lemma DivModUnique(x: int, n: int, q: int, r: int)
    requires n > 0 && 0 <= r < n && x == q * n + r
    ensures x / n == q && x % n == r
  {
    var q', r' := x / n, x % n;
    var d := q' - q;
    assert d * n == r - r' by {
      assert q' * n - q * n == d * n;
    }
    MultipleBound(d, n);
  }

  /** Sample `c` of frame `s` sits at `s * channels + c`, inside a block of `frames` frames. */
  lemma FrameIndex(s: int, c: int, frames: int, channels: int)
    requires 0 <= s < frames && 0 <= c < channels
    ensures 0 <= s * channels + c < frames * channels
    ensures (s * channels + c) / channels == s
    ensures (s * channels + c) % channels == c
  {
    FrameBlock(s, frames, channels);
    assert s * channels >= 0;
    DivModUnique(s * channels + c, channels, s, c);
  }

  /** Frame `s` of a block of `frames` frames ends where frame `s + 1` starts, inside the block. */
  lemma FrameBlock(s: int, frames: int, channels: int)
    requires 0 <= s < frames && 0 <= channels
    ensures (s + 1) * channels == s * channels + channels <= frames * channels
  {
    assert frames * channels == (s + 1) * channels + (frames - s - 1) * channels;
    assert (frames - s - 1) * channels >= 0;
  }

  /** Every channel has at least `frames` samples. */
  predicate Planar(chans: seq<seq<real>>, frames: int, channels: int) {
    0 <= channels <= |chans| && forall c :: 0 <= c < channels ==> frames <= |chans[c]|
  }

  /** Frame `s`: sample `s` of each of the first `channels` channels. */
  function Frame(chans: seq<seq<real>>, s: nat, channels: nat): (f: seq<real>)
    requires Planar(chans, s + 1, channels)
    ensures |f| == channels
    ensures forall c :: 0 <= c < channels ==> f[c] == chans[c][s]
  {
    seq(channels, c requires 0 <= c < channels => chans[c][s])
  }

  /** The first `frames` frames laid out one after the other. */
  function Interleaved(chans: seq<seq<real>>, frames: nat, channels: nat): (out: seq<real>)
    requires Planar(chans, frames, channels)
    ensures |out| == frames * channels
  {
    if frames == 0 then [] else Interleaved(chans, frames - 1, channels) + Frame(chans, frames - 1, channels)
  }

  /** Sample `s` of channel `c` lands at `s * channels + c` of the interleaved block. */
  lemma {:induction false} InterleavedAt(chans: seq<seq<real>>, frames: nat, channels: nat, s: int, c: int)
    requires Planar(chans, frames, channels)
    requires 0 <= s < frames && 0 <= c < channels
    ensures 0 <= s * channels + c < frames * channels
    ensures Interleaved(chans, frames, channels)[s * channels + c] == chans[c][s]
  {
    FrameIndex(s, c, frames, channels);
    if s < frames - 1 {
      InterleavedAt(chans, frames - 1, channels, s, c);
      FrameIndex(s, c, frames - 1, channels);
    } else {
      assert s * channels == |Interleaved(chans, frames - 1, channels)|;
    }
  }

  /** Channel `c` of a block of `frames` whole frames: every `channels`-th sample from `c`. */
  function Deinterleaved(buf: seq<real>, frames: nat, channels: nat): (chans: seq<seq<real>>)
    requires frames * channels <= |buf|
    ensures |chans| == channels
    ensures forall c :: 0 <= c < channels ==> |chans[c]| == frames
  {
    seq(channels, c requires 0 <= c < channels =>
      seq(frames, i requires 0 <= i < frames =>
        FrameIndex(i, c, frames, channels); buf[i * channels + c]))
  }

  /** De-interleaving an interleaved block of whole frames gives back the channels. */
  lemma DeinterleaveInterleave(chans: seq<seq<real>>, frames: nat)
    requires forall c :: 0 <= c < |chans| ==> |chans[c]| == frames
    ensures Deinterleaved(Interleaved(chans, frames, |chans|), frames, |chans|) == chans
  {
    var channels := |chans|;
    var back := Deinterleaved(Interleaved(chans, frames, channels), frames, channels);
    forall c | 0 <= c < channels
      ensures back[c] == chans[c]
    {
      forall i | 0 <= i < frames
        ensures back[c][i] == chans[c][i]
      {
        InterleavedAt(chans, frames, channels, i, c);
      }
    }
  }

  /** The interleaving loop of `pushNextBufferToFIFO`. */
  method Interleave(inputChannels: seq<seq<real>>, numSamples: nat, numChannels: nat)
    returns (interleavedBuffer: seq<real>)
    requires Planar(inputChannels, numSamples, numChannels)
    ensures interleavedBuffer == Interleaved(inputChannels, numSamples, numChannels)
  {
    var buffer := new real[numSamples * numChannels];
    for sample := 0 to numSamples
      invariant sample * numChannels <= buffer.Length
      invariant buffer[..sample * numChannels] == Interleaved(inputChannels, sample, numChannels)
    {
      var base := sample * numChannels;
      FrameBlock(sample, numSamples, numChannels);
      ghost var done := Interleaved(inputChannels, sample, numChannels);
      ghost var frame := Frame(inputChannels, sample, numChannels);
      for channel := 0 to numChannels
        invariant buffer[..base + channel] == done + frame[..channel]
      {
        ghost var written := buffer[..base + channel];
        buffer[base + channel] := inputChannels[channel][sample];
        assert buffer[..base + channel + 1] == written + [frame[channel]];
        assert frame[..channel + 1] == frame[..channel] + [frame[channel]];
      }
      assert frame[..numChannels] == frame;
    }
    interleavedBuffer := buffer[..];
  }

  /**
   * The de-interleaving loop of `run`: `samplesRead / numChannels` whole frames
   * (C++ integer division; both operands are positive here) are split into
   * one buffer per channel.
   */
  method Deinterleave(readBufferData: seq<real>, samplesRead: int, numChannels: int)
    returns (numFrames: int, channelData: seq<seq<real>>)
    requires 0 < samplesRead <= |readBufferData| && numChannels > 0
    ensures 0 <= numFrames * numChannels <= samplesRead < (numFrames + 1) * numChannels
    ensures channelData == Deinterleaved(readBufferData, numFrames, numChannels)
  {
    numFrames := samplesRead / numChannels;
    DivModUnique(samplesRead, numChannels, numFrames, samplesRead % numChannels);
    ghost var planar := Deinterleaved(readBufferData, numFrames, numChannels);
    channelData := [];
    for ch := 0 to numChannels
      invariant channelData == planar[..ch]
    {
      var samples := new real[numFrames];
      for i := 0 to numFrames
        invariant samples[..i] == planar[ch][..i]
      {
        FrameIndex(i, ch, numFrames, numChannels);
        ghost var filled := samples[..i];
        samples[i] := readBufferData[i * numChannels + ch];
        assert samples[..i + 1] == filled + [planar[ch][i]];
        assert planar[ch][..i + 1] == planar[ch][..i] + [planar[ch][i]];
      }
      assert samples[..] == planar[ch];
      assert planar[..ch + 1] == planar[..ch] + [planar[ch]];
      channelData := channelData + [samples[..]];
    }
  }

  /**
   * The request size the disk thread should use: the largest multiple of the
   * channel count that fits the 1024-sample read buffer.
   */
  function BlockRequest(numChannels: int): (n: int)
    ensures 0 < n <= DiskWriteBufferSize
    ensures 0 < numChannels <= DiskWriteBufferSize ==>
      n % numChannels == 0 && DiskWriteBufferSize - numChannels < n
  {
    if numChannels <= 0 || DiskWriteBufferSize < numChannels then
      DiskWriteBufferSize
    else
      var q := DiskWriteBufferSize / numChannels;
      DivModUnique(q * numChannels, numChannels, q, 0);
      q * numChannels
  }

  /** With the corrected request, a FIFO holding whole frames hands out whole frames only. */
  lemma {:induction false} WholeFramesRead(available: int, numChannels: int)
    requires 0 < numChannels <= DiskWriteBufferSize
    requires 0 <= available && available % numChannels == 0
    ensures Transfer(available, BlockRequest(numChannels)) % numChannels == 0
    ensures available > 0 ==> Transfer(available, BlockRequest(numChannels)) > 0
  {
  }

  /** A whole number of frames de-interleaves without remainder. */
  lemma FrameCount(samples: int, channels: int, frames: int)
    requires channels > 0 && samples % channels == 0
    requires 0 <= frames * channels <= samples < (frames + 1) * channels
    ensures frames * channels == samples
  {
    DivModUnique(samples, channels, samples / channels, 0);
    MultipleBound(samples / channels - frames, channels);
    assert (samples / channels - frames) * channels == samples - frames * channels;
  }

  /**
   * As written, `run` always asks for 1024 samples. With three channels and 682
   * whole frames waiting, it reads 1024 samples but writes only 341 frames
   * (1023 samples): the 1024th sample is lost and the next block starts on
   * channel 1 of frame 341, so channel 0 of the next file block receives it.
   */
  lemma PartialFrameDropped(chans: seq<seq<real>>)
    requires |chans| == 3 && forall c :: 0 <= c < 3 ==> |chans[c]| == 682
    ensures Transfer(682 * 3, DiskWriteBufferSize) == 1024
    ensures 1024 / 3 * 3 == 1023
    ensures Deinterleaved(Interleaved(chans, 682, 3)[1024..], 1, 3)[0][0] == chans[1][341]
  {
    InterleavedAt(chans, 682, 3, 341, 1);
  }

  /** The recorder state that `startRecording` resets and `pushNextBufferToFIFO` reads. */
  class DiskWriter {
    const audioFIFO: Fifo?<real>
    var isRecording: bool
    var shouldExit: bool
    var outputFile: string
    var sampleRate: real
    var numChannels: int
    var bitDepth: int
    /** Whether a WAV writer is open (`wavWriter != nullptr`). */
    var hasWriter: bool
    /** Whether the disk thread has been started and not yet joined. */
    var threadRunning: bool

    /** A writer is open and the disk thread runs exactly while recording. */
    ghost predicate Valid()
      reads this, audioFIFO, if audioFIFO != null then {audioFIFO.buffer} else {}
    {
      && (audioFIFO != null ==> audioFIFO.Valid())
      && hasWriter == isRecording
      && threadRunning == isRecording
    }

    constructor (fifo: Fifo?<real>)
      requires fifo != null ==> fifo.Valid()
      ensures Valid() && audioFIFO == fifo
      ensures !isRecording && !shouldExit && outputFile == ""
      ensures sampleRate == 0.0 && numChannels == 0 && bitDepth == 0
      ensures !hasWriter && !threadRunning
    {
      audioFIFO := fifo;
      isRecording := false;
      shouldExit := false;
      outputFile := "";
      sampleRate := 0.0;
      numChannels := 0;
      bitDepth := 0;
      hasWriter := false;
      threadRunning := false;
    }

    /**
     * `pushNextBufferToFIFO`: while recording with a FIFO attached, the block
     * is interleaved and written (as much as fits); otherwise nothing happens.
     */
    method PushNextBufferToFIFO(inputChannels: seq<seq<real>>, numSamples: nat) returns (samplesWritten: int)
      requires Valid()
      requires numChannels >= 0 && Planar(inputChannels, numSamples, numChannels)
      modifies if audioFIFO != null then {audioFIFO, audioFIFO.buffer} else {}
      ensures Valid()
      ensures !(isRecording && audioFIFO != null) ==> samplesWritten == 0
      ensures audioFIFO != null && !isRecording ==> audioFIFO.Contents == old(audioFIFO.Contents)
      ensures isRecording && audioFIFO != null ==>
        var block := Interleaved(inputChannels, numSamples, numChannels);
        && samplesWritten == Transfer(audioFIFO.bufferSize - 1 - |old(audioFIFO.Contents)|, |block|)
        && audioFIFO.Contents == old(audioFIFO.Contents) + block[..samplesWritten]
    {
      samplesWritten := 0;
      if isRecording && audioFIFO != null {
        var interleavedBuffer := Interleave(inputChannels, numSamples, numChannels);
        samplesWritten := audioFIFO.Write(interleavedBuffer, |interleavedBuffer|);
      }
    }

    /**
     * One pass of the disk thread's loop in `run`, reading with the corrected
     * request size `BlockRequest`: the samples read leave the FIFO and, when a
     * writer is open and the channel count is positive, the whole frames among
     * them become the block handed to the WAV writer.
     */
    method DrainBlock() returns (samplesRead: int, numFrames: int, block: seq<seq<real>>)
      requires Valid()
      modifies if audioFIFO != null then {audioFIFO} else {}
      ensures Valid()
      ensures audioFIFO == null ==> samplesRead == 0 && block == []
      ensures audioFIFO != null ==>
        && samplesRead == Transfer(|old(audioFIFO.Contents)|, BlockRequest(numChannels))
        && audioFIFO.Contents == old(audioFIFO.Contents)[samplesRead..]
      ensures audioFIFO != null && samplesRead > 0 && hasWriter && numChannels > 0 ==>
        && 0 <= numFrames && numFrames * numChannels <= samplesRead < (numFrames + 1) * numChannels
        && block == Deinterleaved(old(audioFIFO.Contents)[..samplesRead], numFrames, numChannels)
        && (numChannels <= DiskWriteBufferSize && |old(audioFIFO.Contents)| % numChannels == 0 ==>
              numFrames * numChannels == samplesRead)
      ensures !(samplesRead > 0 && hasWriter && numChannels > 0) ==> block == []
    {
      samplesRead, numFrames, block := 0, 0, [];
      if audioFIFO != null {
        var readBufferData := new real[DiskWriteBufferSize];
        samplesRead := audioFIFO.Read(readBufferData, BlockRequest(numChannels));
        if samplesRead > 0 && hasWriter && numChannels > 0 {
          numFrames, block := Deinterleave(readBufferData[..samplesRead], samplesRead, numChannels);
          if numChannels <= DiskWriteBufferSize && |old(audioFIFO.Contents)| % numChannels == 0 {
            WholeFramesRead(|old(audioFIFO.Contents)|, numChannels);
            FrameCount(samplesRead, numChannels, numFrames);
          }
        }
      }
    }

    /**
     * The flag effects of `stopRecording`: a running recording is ended, the
     * thread told to exit and the writer and file released; when not
     * recording, only a leftover thread is told to exit.
     */
    method StopRecording()
      modifies this
      ensures !isRecording && !threadRunning
      ensures shouldExit == (old(isRecording) || old(threadRunning) || old(shouldExit))
      ensures old(isRecording) ==> !hasWriter && outputFile == ""
      ensures !old(isRecording) ==> hasWriter == old(hasWriter) && outputFile == old(outputFile)
      ensures sampleRate == old(sampleRate) && numChannels == old(numChannels) && bitDepth == old(bitDepth)
    {
      if !isRecording {
        if threadRunning {
          shouldExit := true;
          threadRunning := false;
        }
        return;
      }
      isRecording := false;
      shouldExit := true;
      threadRunning := false;
      hasWriter := false;
      outputFile := "";
    }

    /**
     * `startRecording(file, sr, channels, bitD)`. Opening the output stream and
     * creating the WAV writer are outside the model; `streamOpened` and
     * `writerCreated` say how they went. The FIFO is emptied, the format is
     * stored with the bit depth forced to 32, and recording stays on only if
     * both steps succeeded.
     */
    method StartRecording(file: string, sr: real, channels: int, bitD: int, streamOpened: bool, writerCreated: bool)
      requires Valid()
      modifies this, if audioFIFO != null then {audioFIFO} else {}
      ensures Valid()
      ensures audioFIFO != null ==> audioFIFO.Contents == []
      ensures outputFile == file && sampleRate == sr && numChannels == channels
      ensures bitDepth == 32
      ensures !shouldExit
      ensures isRecording == (streamOpened && writerCreated)
      ensures hasWriter == (streamOpened && writerCreated)
      ensures threadRunning == (streamOpened && writerCreated)
    {
      StopRecording();
      if audioFIFO != null {
        audioFIFO.Clear();
      }
      outputFile := file;
      sampleRate := sr;
      numChannels := channels;
      bitDepth := 32;
      shouldExit := false;
      isRecording := true;
      if !streamOpened {
        isRecording := false;
        return;
      }
      hasWriter := writerCreated;
      if !writerCreated {
        isRecording := false;
        return;
      }
      threadRunning := true;
    }
  }
}
