/**
 * The real-time analyzer panel of the mixing page: the analyser's byte
 * spectrum scaled to percentages, the live suggestion drawn from the low,
 * mid and high bands, the "m:ss" clock, and the play, pause and stop
 * controls over the panel's playing flag and current time.
 */
module RealTimeAnalyzer {
  import opened Wrappers
  import opened Text
  import opened Transport

  /** One bin of `getByteFrequencyData`. */
  newtype byte = x: int | 0 <= x < 256

  /** `Array.from(dataArray).map(value => (value / 255) * 100)`: each bin as a percentage. */
  function Normalize(data: seq<byte>): (levels: seq<real>)
    ensures |levels| == |data|
    ensures forall i :: 0 <= i < |data| ==> 0.0 <= levels[i] <= 100.0
    ensures forall i :: 0 <= i < |data| ==> (levels[i] == 0.0 <==> data[i] == 0)
    ensures forall i :: 0 <= i < |data| ==> (levels[i] == 100.0 <==> data[i] == 255)
  {
    seq(|data|, i requires 0 <= i < |data| => data[i] as real / 255.0 * 100.0)
  }

  /** A louder bin never shows a lower percentage. */
  lemma NormalizeMonotone(data: seq<byte>, i: nat, j: nat)
    requires i < |data| && j < |data| && data[i] <= data[j]
    ensures Normalize(data)[i] <= Normalize(data)[j]
  {
  }

  /** `reduce((a, b) => a + b)` on a non-empty array. */
  function Total(s: seq<real>): real {
    if s == [] then 0.0 else Total(s[..|s| - 1]) + s[|s| - 1]
  }

  /** Values within `[lo, hi]` add up to a total within `|s|` times those bounds. */
  lemma {:induction false} TotalBounds(s: seq<real>, lo: real, hi: real)
    requires forall i :: 0 <= i < |s| ==> lo <= s[i] <= hi
    ensures |s| as real * lo <= Total(s) <= |s| as real * hi
    decreases |s|
  {
    if s != [] {
      TotalBounds(s[..|s| - 1], lo, hi);
    }
  }

  /** Every value equal to `v` adds up to `|s|` times `v`. */
  lemma {:induction false} TotalConstant(s: seq<real>, v: real)
    requires forall i :: 0 <= i < |s| ==> s[i] == v
    ensures Total(s) == |s| as real * v
    decreases |s|
  {
    if s != [] {
      TotalConstant(s[..|s| - 1], v);
    }
  }

  /** `data.slice(0, 8).reduce(+) / 8`. */
  function AvgLow(data: seq<real>): real {
    Total(data[..if |data| < 8 then |data| else 8]) / 8.0
  }

  /** `data.slice(8, 24).reduce(+) / 16`. */
  function AvgMid(data: seq<real>): real
    requires |data| > 8
  {
    Total(data[8..if |data| < 24 then |data| else 24]) / 16.0
  }

  /** `data.slice(24).reduce(+) / 8`: the sum of every bin from 24 on, over 8. */
  function AvgHigh(data: seq<real>): real
    requires |data| > 24
  {
    Total(data[24..]) / 8.0
  }

  datatype Kind = Warning | Info | Success

  datatype Suggestion = Suggestion(kind: Kind, message: string, frequency: string)

  /**
   * `generateLiveSuggestion`. Each band's `reduce` has no initial value, so
   * it throws on an empty slice: there is a suggestion only when the spectrum
   * has more than 24 bins. Then exactly one suggestion, by the first test
   * that holds: low above 70, mid below 30, high above 65, else balanced.
   */
  function LiveSuggestion(data: seq<real>): (r: Option<Suggestion>)
    ensures r.None? <==> |data| <= 24
    ensures r.Some? ==>
      && (r.value == Suggestion(Warning, "Excessive low-end energy detected", "80-200 Hz")
          <==> AvgLow(data) > 70.0)
      && (r.value == Suggestion(Info, "Mid-range could use more presence", "1-4 kHz")
          <==> AvgLow(data) <= 70.0 && AvgMid(data) < 30.0)
      && (r.value == Suggestion(Warning, "High frequencies may be harsh", "8-12 kHz")
          <==> AvgLow(data) <= 70.0 && AvgMid(data) >= 30.0 && AvgHigh(data) > 65.0)
      && (r.value == Suggestion(Success, "Frequency balance looks good", "Full spectrum")
          <==> AvgLow(data) <= 70.0 && AvgMid(data) >= 30.0 && AvgHigh(data) <= 65.0)
  {
    if |data| <= 24 then None
    else if AvgLow(data) > 70.0 then Some(Suggestion(Warning, "Excessive low-end energy detected", "80-200 Hz"))
    else if AvgMid(data) < 30.0 then Some(Suggestion(Info, "Mid-range could use more presence", "1-4 kHz"))
    else if AvgHigh(data) > 65.0 then Some(Suggestion(Warning, "High frequencies may be harsh", "8-12 kHz"))
    else Some(Suggestion(Success, "Frequency balance looks good", "Full spectrum"))
  }

  /** Bins the analyser yields with `fftSize = 64`. */
  const BinCount: nat := 32

  /**
   * On the analyser's 32 bins, each band's figure is a true mean of its
   * bins and so a percentage itself.
   */
  lemma BandsArePercentages(data: seq<byte>)
    requires |data| == BinCount
    ensures var levels := Normalize(data);
      && 0.0 <= AvgLow(levels) <= 100.0
      && 0.0 <= AvgMid(levels) <= 100.0
      && 0.0 <= AvgHigh(levels) <= 100.0
  {
    var levels := Normalize(data);
    TotalBounds(levels[..8], 0.0, 100.0);
    TotalBounds(levels[8..24], 0.0, 100.0);
    TotalBounds(levels[24..], 0.0, 100.0);
  }

  /** The panel's resting spectrum, 32 bins at 50, reads as a balanced mix. */
  lemma RestingSpectrumIsBalanced(data: seq<real>)
    requires |data| == BinCount && forall i :: 0 <= i < |data| ==> data[i] == 50.0
    ensures LiveSuggestion(data) == Some(Suggestion(Success, "Frequency balance looks good", "Full spectrum"))
  {
    TotalConstant(data[..8], 50.0);
    TotalConstant(data[8..24], 50.0);
    TotalConstant(data[24..], 50.0);
  }

  /** What `onLiveFeedback` receives. */
  datatype Feedback = Feedback(time: real, frequency: real, suggestion: Option<Suggestion>)

  /** `Math.max(...levels)`. */
  function Peak(levels: seq<real>): (m: real)
    requires levels != []
    ensures forall i :: 0 <= i < |levels| ==> levels[i] <= m
    ensures exists i :: 0 <= i < |levels| && levels[i] == m
  {
    if |levels| == 1 then levels[0]
    else
      var m := Peak(levels[..|levels| - 1]);
      var last := levels[|levels| - 1];
      assert forall i :: 0 <= i < |levels| - 1 ==> levels[..|levels| - 1][i] == levels[i];
      if last > m then last else m
  }

  /**
   * The live-feedback trigger of one frame of the drawing loop: while
   * playing, when the frame's random draw fell below 0.1 (`lucky`), and the
   * mean level is above 40, the callback (if any) gets the current time, the
   * peak level and the suggestion. The mean's `reduce` throws on an empty
   * spectrum and the suggestion's on 24 bins or fewer, so no feedback is
   * sent then.
   */
  function LiveFeedback(levels: seq<real>, currentTime: real, isPlaying: bool, lucky: bool, hasCallback: bool)
    : (f: Option<Feedback>)
    ensures f.Some? <==>
      isPlaying && lucky && |levels| > 24 && Total(levels) / |levels| as real > 40.0 && hasCallback
    ensures f.Some? ==>
      && f.value.time == currentTime && f.value.suggestion.Some? && f.value.suggestion == LiveSuggestion(levels)
      && (exists i :: 0 <= i < |levels| && levels[i] == f.value.frequency)
      && (forall i :: 0 <= i < |levels| ==> levels[i] <= f.value.frequency)
  {
    if isPlaying && lucky && levels != [] && Total(levels) / |levels| as real > 40.0 && hasCallback && |levels| > 24 then
      Some(Feedback(currentTime, Peak(levels), LiveSuggestion(levels)))
    else None
  }

  /** Whole minutes of a playback time: `Math.floor(time / 60)`. */
  function MinutesOf(time: real): int {
    (time / 60.0).Floor
  }

  /** `Math.floor(time % 60)`: JavaScript's `%` keeps the sign of `time`, and times are never negative. */
  function SecondsOf(time: real): int
    requires time >= 0.0
  {
    (time - 60.0 * MinutesOf(time) as real).Floor
  }

  /** The minutes and seconds together are the whole seconds of the time. */
  lemma ClockFields(time: real)
    requires time >= 0.0
    ensures MinutesOf(time) >= 0 && 0 <= SecondsOf(time) < 60
    ensures MinutesOf(time) * 60 + SecondsOf(time) == time.Floor
  {
    var m := MinutesOf(time);
    var r := time - 60.0 * m as real;
    assert 0.0 <= r < 60.0;
    var s := r.Floor;
    assert s as real <= r < s as real + 1.0;
    assert (m * 60 + s) as real <= time < (m * 60 + s) as real + 1.0;
  }

  /**
   * `formatTime`: `${minutes}:${seconds.padStart(2, '0')}`, a run of minute
   * digits, a colon and exactly two second digits.
   */
  function FormatTime(time: real): (text: string)
    requires time >= 0.0
    ensures |text| >= 4 && text[|text| - 3] == ':'
    ensures AllDigits(text[..|text| - 3]) && AllDigits(text[|text| - 2..])
  {
    ClockFields(time);
    var m, s := Decimal(MinutesOf(time) as nat), PadZeros(Decimal(SecondsOf(time) as nat), 2);
    DecimalUpTo(SecondsOf(time) as nat, 2);
    PaddedRoundTrip(SecondsOf(time) as nat, 2);
    ColonSplit(m, s);
    m + ":" + s
  }

  /**
   * The clock reads "m:ss": the minutes in as many digits as they need, a
   * colon, two digits of seconds below 60, together the whole seconds played.
   */
  lemma FormatTimeRoundTrip(time: real)
    requires time >= 0.0
    ensures var t := FormatTime(time);
      && |t| >= 4 && t[|t| - 3] == ':'
      && AllDigits(t[..|t| - 3]) && AllDigits(t[|t| - 2..])
      && DecimalValue(t[|t| - 2..]) < 60
      && DecimalValue(t[..|t| - 3]) * 60 + DecimalValue(t[|t| - 2..]) == time.Floor
  {
    ClockFields(time);
    var t := FormatTime(time);
    var m, s := MinutesOf(time) as nat, SecondsOf(time) as nat;
    ClockText(m, s);
    assert ClockReads(t, m, s);
    assert m * 60 + s == time.Floor;
  }

  /** `t` is "m:ss" whose minute digits read `minutes` and whose two second digits read `seconds`. */
  predicate ClockReads(t: string, minutes: nat, seconds: nat) {
    && |t| >= 4 && t[|t| - 3] == ':'
    && AllDigits(t[..|t| - 3]) && AllDigits(t[|t| - 2..])
    && DecimalValue(t[..|t| - 3]) == minutes && DecimalValue(t[|t| - 2..]) == seconds
  }

  /** The "m:ss" text of whole minutes and seconds below 60 reads back as those fields. */
  lemma ClockText(minutes: nat, seconds: nat)
    requires seconds < 60
    ensures ClockReads(Decimal(minutes) + ":" + PadZeros(Decimal(seconds), 2), minutes, seconds)
  {
    var m, s := Decimal(minutes), PadZeros(Decimal(seconds), 2);
    assert |s| == 2 by {
      DecimalUpTo(seconds, 2);
    }
    assert AllDigits(m) && DecimalValue(m) == minutes by {
      DecimalRoundTrip(minutes);
    }
    assert AllDigits(s) && DecimalValue(s) == seconds by {
      PaddedRoundTrip(seconds, 2);
    }
    ColonSplit(m, s);
  }

  /** Splitting `m:ss` at its third-last character gives back both sides. */
  lemma ColonSplit(m: string, s: string)
    requires |m| >= 1 && |s| == 2
    ensures var t := m + ":" + s;
      |t| >= 4 && t[|t| - 3] == ':' && t[..|t| - 3] == m && t[|t| - 2..] == s
  {
    var t := m + ":" + s;
    assert t[..|t| - 3] == m;
    assert t[|t| - 2..] == s;
  }

  /**
   * The panel's playback state. `hasAudio` is whether the audio element is
   * mounted. The first play click creates the audio context and starts the
   * drawing loop, whose closure keeps the `isPlaying` and `currentTime` of
   * that click's render: `loopPlaying` and `loopTime`.
   */
  class Player {
    var isPlaying: bool
    var currentTime: real
    const hasAudio: bool
    var hasContext: bool
    var loopPlaying: bool
    var loopTime: real

    /**
     * Playback time is never negative; nothing plays before the first
     * click; and the loop's closure saw the panel paused.
     */
    ghost predicate Valid()
      reads this
    {
      && currentTime >= 0.0
      && (!hasContext ==> !isPlaying)
      && (hasContext ==> !loopPlaying)
    }

    constructor (hasAudio: bool)
      ensures Valid() && this.hasAudio == hasAudio && !isPlaying && currentTime == 0.0 && !hasContext
    {
      this.hasAudio := hasAudio;
      isPlaying, currentTime := false, 0.0;
      hasContext, loopPlaying, loopTime := false, false, 0.0;
    }

    /**
     * `handlePlayPause`: with the audio element present, the first click
     * starts the drawing loop in its own render's closure, and every click
     * flips between playing and paused.
     */
    method HandlePlayPause()
      requires Valid()
      modifies this
      ensures Valid()
      ensures isPlaying == (if hasAudio then !old(isPlaying) else old(isPlaying))
      ensures currentTime == old(currentTime)
      ensures hasContext == (old(hasContext) || hasAudio)
      ensures if hasAudio && !old(hasContext) then loopPlaying == old(isPlaying) && loopTime == old(currentTime)
              else loopPlaying == old(loopPlaying) && loopTime == old(loopTime)
    {
      if hasAudio {
        if !hasContext {
          hasContext, loopPlaying, loopTime := true, isPlaying, currentTime;
        }
        isPlaying := !isPlaying;
      }
    }

    /** `handleStop`: with the audio element present, stops and rewinds to the start. */
    method HandleStop()
      requires Valid()
      modifies this
      ensures Valid()
      ensures hasAudio ==> !isPlaying && currentTime == 0.0
      ensures !hasAudio ==> isPlaying == old(isPlaying) && currentTime == old(currentTime)
      ensures hasContext == old(hasContext) && loopPlaying == old(loopPlaying) && loopTime == old(loopTime)
    {
      if hasAudio {
        isPlaying, currentTime := false, 0.0;
      }
    }

    /** `handleTimeUpdate`: the clock follows the audio element's position. */
    method HandleTimeUpdate(position: real)
      requires Valid() && position >= 0.0
      modifies this
      ensures Valid()
      ensures currentTime == (if hasAudio then position else old(currentTime))
      ensures isPlaying == old(isPlaying)
      ensures hasContext == old(hasContext) && loopPlaying == old(loopPlaying) && loopTime == old(loopTime)
    {
      if hasAudio {
        currentTime := position;
      }
    }

    /** The element's `onEnded`: playback stops where it ended. */
    method HandleEnded()
      requires Valid()
      modifies this
      ensures Valid()
      ensures !isPlaying && currentTime == old(currentTime)
      ensures hasContext == old(hasContext) && loopPlaying == old(loopPlaying) && loopTime == old(loopTime)
    {
      isPlaying := false;
    }

    /**
     * One frame of the drawing loop as written: no loop before the first
     * click, and after it the trigger reads the closure's stale flag and
     * time. That flag is always false, so no feedback is ever sent.
     */
    method DrawFrame(levels: seq<real>, lucky: bool, hasCallback: bool) returns (f: Option<Feedback>)
      requires Valid()
      ensures f == (if hasContext then LiveFeedback(levels, loopTime, loopPlaying, lucky, hasCallback) else None)
      ensures f.None?
    {
      if hasContext {
        f := LiveFeedback(levels, loopTime, loopPlaying, lucky, hasCallback);
      } else {
        f := None;
      }
    }

    /**
     * One frame of the drawing loop as evidently intended: the trigger reads
     * the panel's current flag and time, so feedback is sent exactly while
     * playing, on a lucky frame, with more than 24 bins, a mean above 40 and
     * a callback.
     */
    method IntendedFrame(levels: seq<real>, lucky: bool, hasCallback: bool) returns (f: Option<Feedback>)
      requires Valid()
      ensures f == (if hasContext then LiveFeedback(levels, currentTime, isPlaying, lucky, hasCallback) else None)
      ensures f.Some? <==> isPlaying && lucky && |levels| > 24 && Total(levels) / |levels| as real > 40.0 && hasCallback
    {
      if hasContext {
        f := LiveFeedback(levels, currentTime, isPlaying, lucky, hasCallback);
      } else {
        f := None;
      }
    }
  }

  /**
   * The resting spectrum while playing, on a lucky frame with a callback:
   * the loop as written sends nothing, the intended one sends the balanced
   * suggestion.
   */
  method StaleLoopScenario() returns (sent: Option<Feedback>, intended: Option<Feedback>)
    ensures sent.None?
    ensures intended.Some? && intended.value.suggestion == Some(Suggestion(Success, "Frequency balance looks good", "Full spectrum"))
  {
    var levels := seq(BinCount, _ => 50.0);
    RestingSpectrumIsBalanced(levels);
    TotalConstant(levels, 50.0);
    var player := new Player(true);
    player.HandlePlayPause();
    sent := player.DrawFrame(levels, true, true);
    intended := player.IntendedFrame(levels, true, true);
  }

  /** The clock of a stopped player, rewound to the start, reads "0:00". */
  lemma StoppedClock(time: real)
    requires time == 0.0
    ensures FormatTime(time) == "0:00"
  {
    assert MinutesOf(time) == 0 && SecondsOf(time) == 0;
    assert Decimal(0) == "0";
  }
}
