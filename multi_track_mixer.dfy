/**
 * The track list and transport flag of the mixer
 * (Core/AudioEngine/MultiTrackMixer.cpp), and the solo/mute rule that decides
 * which tracks are summed into each output block. Summing the sample data
 * itself is floating-point work on JUCE buffers and is not modelled.
 */
module Mixing {
  import opened Tracks

  /** Some track in the list is soloed. */
  predicate AnySolo(ts: seq<Track>)
    reads set t | t in ts
  {
    exists k :: 0 <= k < |ts| && ts[k].solo
  }

  /** A track is summed when it is not muted and, if any track is soloed, it is soloed too. */
  predicate Contributes(t: Track, hasSolo: bool)
    reads t
  {
    !t.muted && (!hasSolo || t.solo)
  }

  /** The tracks that pass the rule, in list order. */
  function Selected(ts: seq<Track>, hasSolo: bool): (r: seq<Track>)
    reads set t | t in ts
    ensures |r| <= |ts|
  {
    if ts == [] then []
    else
      var last := ts[|ts| - 1];
      Selected(ts[..|ts| - 1], hasSolo) + (if Contributes(last, hasSolo) then [last] else [])
  }

  /** A track is selected exactly when it is in the list and passes the rule. */
  lemma {:induction false} SelectedIff(ts: seq<Track>, hasSolo: bool, t: Track)
    ensures t in Selected(ts, hasSolo) <==> t in ts && Contributes(t, hasSolo)
  {
    if ts != [] {
      var init := ts[..|ts| - 1];
      SelectedIff(init, hasSolo, t);
      assert ts == init + [ts[|ts| - 1]];
    }
  }

  /** With nothing soloed, exactly the unmuted tracks are summed. */
  lemma NoSoloPlaysUnmuted(ts: seq<Track>, t: Track)
    requires !AnySolo(ts)
    ensures t in Selected(ts, AnySolo(ts)) <==> t in ts && !t.muted
  {
    SelectedIff(ts, false, t);
  }

  /** With something soloed, only soloed tracks that are not muted are summed. */
  lemma SoloSilencesOthers(ts: seq<Track>, t: Track)
    requires AnySolo(ts)
    ensures t in Selected(ts, AnySolo(ts)) <==> t in ts && t.solo && !t.muted
  {
    SelectedIff(ts, true, t);
  }

  class MultiTrackMixer {
    var tracks: seq<Track>
    var playing: bool
    var samplesPerBlock: int
    var currentSampleRate: real

    /** Each track is owned once by the list and keeps its gain in range. */
    ghost predicate Valid()
      reads this, set t | t in tracks
    {
      && (forall i, j :: 0 <= i < j < |tracks| ==> tracks[i] != tracks[j])
      && (forall t :: t in tracks ==> t.Valid())
    }

    constructor ()
      ensures Valid()
      ensures tracks == [] && !playing && samplesPerBlock == 0 && currentSampleRate == 0.0
    {
      tracks := [];
      playing := false;
      samplesPerBlock := 0;
      currentSampleRate := 0.0;
    }

    /**
     * `addTrack(name)`: a new track is appended, prepared only when a sample
     * rate above zero is already known, and its index (the old count) returned.
     */
    method AddTrack(name: string) returns (index: int, track: Track)
      requires Valid()
      modifies this`tracks
      ensures Valid() && fresh(track)
      ensures tracks == old(tracks) + [track]
      ensures index == |old(tracks)| && tracks[index] == track
      ensures track.name == name && track.gain == 1.0 && !track.muted && !track.solo
      ensures track.prepared == (currentSampleRate > 0.0)
    {
      track := new Track(name);
      if currentSampleRate > 0.0 {
        track.PrepareToPlay(samplesPerBlock, currentSampleRate);
      }
      tracks := tracks + [track];
      index := |tracks| - 1;
    }

    /** `removeTrack(i)`: an index outside the list is ignored; otherwise exactly that track goes. */
    method RemoveTrack(trackIndex: int)
      requires Valid()
      modifies this`tracks
      ensures Valid()
      ensures tracks == if 0 <= trackIndex < |old(tracks)|
                        then old(tracks)[..trackIndex] + old(tracks)[trackIndex + 1..]
                        else old(tracks)
    {
      if 0 <= trackIndex < |tracks| {
        tracks := tracks[..trackIndex] + tracks[trackIndex + 1..];
      }
    }

    /** `getTrack(i)`: the track at `i`, or null outside `[0, count)`. */
    method GetTrack(trackIndex: int) returns (track: Track?)
      ensures track == null <==> !(0 <= trackIndex < |tracks|)
      ensures track != null ==> track == tracks[trackIndex]
    {
      if 0 <= trackIndex < |tracks| {
        return tracks[trackIndex];
      }
      return null;
    }

    /** `getNumTracks()`. */
    function GetNumTracks(): (n: int)
      reads this
      ensures n == |tracks|
    {
      |tracks|
    }

    method Play()
      modifies this`playing
      ensures playing
    {
      playing := true;
    }

    method Stop()
      modifies this`playing
      ensures !playing
    {
      playing := false;
    }

    /** `prepareToPlay`: the block size and rate are remembered and every track prepared. */
    method PrepareToPlay(samplesPerBlockExpected: int, sampleRate: real)
      requires Valid()
      modifies this`samplesPerBlock, this`currentSampleRate, set t | t in tracks
      ensures Valid()
      ensures samplesPerBlock == samplesPerBlockExpected && currentSampleRate == sampleRate
      ensures forall t :: t in tracks ==> t.prepared
      ensures forall t :: t in tracks ==> t.gain == old(t.gain) && t.muted == old(t.muted) && t.solo == old(t.solo)
    {
      samplesPerBlock := samplesPerBlockExpected;
      currentSampleRate := sampleRate;
      for k := 0 to |tracks|
        invariant samplesPerBlock == samplesPerBlockExpected && currentSampleRate == sampleRate
        invariant forall j :: 0 <= j < k ==> tracks[j].prepared
        invariant forall t :: t in tracks ==> t.gain == old(t.gain) && t.muted == old(t.muted) && t.solo == old(t.solo)
      {
        tracks[k].PrepareToPlay(samplesPerBlockExpected, sampleRate);
      }
    }

    /**
     * The selection part of `getNextAudioBlock`: after the output region is
     * cleared, nothing is summed when stopped or empty; otherwise a first scan
     * stops at the first soloed track, and a second collects, in order, every
     * track that is not muted and, if something is soloed, is soloed.
     */
    method GetNextAudioBlock() returns (mixed: seq<Track>)
      ensures mixed == if !playing || tracks == [] then [] else Selected(tracks, AnySolo(tracks))
    {
      if !playing || |tracks| == 0 {
        return [];
      }
      var hasSolo := false;
      var i := 0;
      while i < |tracks|
        invariant 0 <= i <= |tracks|
        invariant !hasSolo ==> forall k :: 0 <= k < i ==> !tracks[k].solo
        invariant hasSolo ==> AnySolo(tracks)
      {
        if tracks[i].solo {
          hasSolo := true;
          break;
        }
        i := i + 1;
      }
      mixed := [];
      for j := 0 to |tracks|
        invariant mixed == Selected(tracks[..j], hasSolo)
      {
        assert tracks[..j + 1][..j] == tracks[..j];
        if tracks[j].muted || (hasSolo && !tracks[j].solo) {
          continue;
        }
        mixed := mixed + [tracks[j]];
      }
      assert tracks[..|tracks|] == tracks;
    }
  }
}
