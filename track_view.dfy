/**
 * The timeline's file drop target (Source/GUI/TrackView.cpp): which drags it
 * accepts, the drag-over highlight flag, and which track each dropped file is
 * handed to. Painting is left out; the `onFileDropped` callback is modelled by
 * returning the list of calls it receives, in order.
 */
module TrackViews {
  import opened Text

  /** Height of one track lane, in pixels. */
  const TrackHeight: int := 60

  const AudioExtensions: seq<string> := [".wav", ".mp3", ".aiff", ".flac", ".ogg"]

  /** A path the view recognises as audio, by its extension, ignoring case. */
  predicate IsAudioFile(path: string) {
    exists e :: e in AudioExtensions && EndsWithIgnoreCase(path, e)
  }

  /** The lane under a vertical position: `y / trackHeight`. */
  function LaneAt(y: int): (lane: int)
    ensures y >= 0 ==> lane >= 0 && lane * TrackHeight <= y < (lane + 1) * TrackHeight
  {
    TruncDiv(y, TrackHeight)
  }

  /** A drop inside lane k of the visible lanes goes to track k. */
  lemma LaneOfPosition(k: nat, offset: int)
    requires 0 <= offset < TrackHeight
    ensures LaneAt(k * TrackHeight + offset) == k
  {
  }

  /** One call of `onFileDropped(file, trackIndex)`. */
  datatype Drop = Drop(file: string, trackIndex: int)

  /**
   * The calls a drop of `files` at height `y` makes: one per file, every
   * file regardless of extension, the first to the lane under the pointer
   * and each later one to the next track.
   */
  function DropCalls(files: seq<string>, y: int): (calls: seq<Drop>)
    ensures |calls| == |files|
    ensures forall i :: 0 <= i < |files| ==> calls[i] == Drop(files[i], LaneAt(y) + i)
  {
    if files == [] then []
    else DropCalls(files[..|files| - 1], y) + [Drop(files[|files| - 1], LaneAt(y) + |files| - 1)]
  }

  class TrackView {
    var isDragOver: bool
    /** Whether the owner has installed an `onFileDropped` callback. */
    var hasFileDroppedCallback: bool

    constructor ()
      ensures !isDragOver && !hasFileDroppedCallback
    {
      isDragOver := false;
      hasFileDroppedCallback := false;
    }

    /** `isInterestedInFileDrag`: true iff at least one dragged path is an audio file. */
    method IsInterestedInFileDrag(files: seq<string>) returns (interested: bool)
      ensures interested <==> exists i :: 0 <= i < |files| && IsAudioFile(files[i])
    {
      for i := 0 to |files|
        invariant forall j :: 0 <= j < i ==> !IsAudioFile(files[j])
      {
        var path := files[i];
        if EndsWithIgnoreCase(path, ".wav") || EndsWithIgnoreCase(path, ".mp3")
          || EndsWithIgnoreCase(path, ".aiff") || EndsWithIgnoreCase(path, ".flac")
          || EndsWithIgnoreCase(path, ".ogg")
        {
          assert IsAudioFile(files[i]) by {
            if EndsWithIgnoreCase(path, ".wav") { assert AudioExtensions[0] == ".wav"; }
            else if EndsWithIgnoreCase(path, ".mp3") { assert AudioExtensions[1] == ".mp3"; }
            else if EndsWithIgnoreCase(path, ".aiff") { assert AudioExtensions[2] == ".aiff"; }
            else if EndsWithIgnoreCase(path, ".flac") { assert AudioExtensions[3] == ".flac"; }
            else { assert AudioExtensions[4] == ".ogg"; }
          }
          return true;
        }
      }
      return false;
    }

    method FileDragEnter(files: seq<string>, x: int, y: int)
      modifies this`isDragOver
      ensures isDragOver
    {
      isDragOver := true;
    }

    method FileDragExit(files: seq<string>)
      modifies this`isDragOver
      ensures !isDragOver
    {
      isDragOver := false;
    }

    /**
     * `filesDropped`: clears the highlight and, when a callback is
     * installed, hands every file to consecutive tracks starting at the lane
     * under the pointer.
     */
    method FilesDropped(files: seq<string>, x: int, y: int) returns (calls: seq<Drop>)
      modifies this`isDragOver
      ensures !isDragOver
      ensures calls == if hasFileDroppedCallback then DropCalls(files, y) else []
    {
      isDragOver := false;
      var trackIndex := y / TrackHeight;
      if y < 0 {
        trackIndex := -((-y) / TrackHeight);
      }
      calls := [];
      for i := 0 to |files|
        invariant trackIndex == LaneAt(y) + i
        invariant calls == if hasFileDroppedCallback then DropCalls(files[..i], y) else []
      {
        if hasFileDroppedCallback {
          assert files[..i + 1][..i] == files[..i];
          calls := calls + [Drop(files[i], trackIndex)];
        }
        trackIndex := trackIndex + 1;
      }
      assert files[..|files|] == files;
    }
  }

  /** Dropping the same files lower down shifts every target by the same number of lanes. */
  lemma DropShift(files: seq<string>, k: nat, y: int)
    requires y >= 0
    ensures forall i :: 0 <= i < |files| ==>
      DropCalls(files, y + k * TrackHeight)[i].trackIndex == DropCalls(files, y)[i].trackIndex + k
  {
    var q := LaneAt(y);
    var r := y - q * TrackHeight;
    assert y + k * TrackHeight == (q + k) * TrackHeight + r;
    LaneOfPosition(q + k, r);
  }

}
