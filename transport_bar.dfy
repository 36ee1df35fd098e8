/**
 * The desktop transport bar (Source/GUI/TransportBarComponent.cpp): play,
 * stop, record and loop buttons over four flags, a 100 ms timer that advances
 * the clock while playing, and the "MM:SS:mmm" time display. Time is kept in
 * whole tenths of a second, which is what the timer adds; the drift of the
 * source's repeated floating-point `+= 0.1` is not modelled.
 */
module Transport {
  import opened Text
  import opened Wrappers

  datatype Button = Play | Stop | Record | Rewind | FastForward | Loop | AiMixing | AiMastering

  /** Whole minutes of a time in tenths: `(int)(currentTime / 60.0)`. */
  function Minutes(tenths: nat): nat { tenths / 600 }

  /** Seconds within the minute: `(int)currentTime % 60`. */
  function Seconds(tenths: nat): nat { (tenths / 10) % 60 }

  /** Milliseconds within the second: `(int)((currentTime - (int)currentTime) * 1000)`. */
  function Millis(tenths: nat): nat { (tenths % 10) * 100 }

  /** The three fields always describe the time exactly, each within its range. */
  lemma FieldsExact(tenths: nat)
    ensures Seconds(tenths) < 60 && Millis(tenths) < 1000 && Millis(tenths) % 100 == 0
    ensures Minutes(tenths) * 600 + Seconds(tenths) * 10 + Millis(tenths) / 100 == tenths
  {
    var s := tenths / 10;
    assert s / 60 == tenths / 600;
  }

  /** One `%0<width>d` field. */
  function Field(n: nat, width: nat): string {
    PadZeros(Decimal(n), width)
  }

  /**
   * `String::formatted("%02d:%02d:%03d", minutes, seconds, milliseconds)`: at
   * least two minute digits, then exactly two second and three millisecond
   * digits, colon-separated.
   */
  function Display(tenths: nat): (d: string)
    ensures |d| >= 9 && d[|d| - 4] == ':' && d[|d| - 7] == ':'
    ensures AllDigits(d[..|d| - 7]) && AllDigits(d[|d| - 6..|d| - 4]) && AllDigits(d[|d| - 3..])
  {
    var m, s, ms := Field(Minutes(tenths), 2), Field(Seconds(tenths), 2), Field(Millis(tenths), 3);
    FieldsExact(tenths);
    DecimalUpTo(Seconds(tenths), 2);
    DecimalUpTo(Millis(tenths), 3);
    PaddedRoundTrip(Minutes(tenths), 2);
    PaddedRoundTrip(Seconds(tenths), 2);
    PaddedRoundTrip(Millis(tenths), 3);
    FieldsSplit(m, s, ms);
    var d := m + ":" + s + ":" + ms;
    assert d[|d| - 4] == ':' && d[|d| - 7] == ':';
    d
  }

  /** A display string cut back into its three digit fields. */
  function DisplayFields(d: string): (string, string, string)
    requires |d| >= 7
  {
    (d[..|d| - 7], d[|d| - 6..|d| - 4], d[|d| - 3..])
  }

  predicate AllDigits(s: string) {
    forall i :: 0 <= i < |s| ==> IsDigit(s[i])
  }

  /**
   * The display is at least "00:00:000" long, its fields are digits, and
   * reading them back gives the time it shows.
   */
  lemma DisplayRoundTrip(tenths: nat)
    ensures |Display(tenths)| >= 9
    ensures var (m, s, ms) := DisplayFields(Display(tenths));
      && |s| == 2 && |ms| == 3 && |m| >= 2
      && AllDigits(m) && AllDigits(s) && AllDigits(ms)
      && DecimalValue(m) * 600 + DecimalValue(s) * 10 + DecimalValue(ms) / 100 == tenths
  {
    FieldsExact(tenths);
    var m := Field(Minutes(tenths), 2);
    var s := Field(Seconds(tenths), 2);
    var ms := Field(Millis(tenths), 3);
    assert |m| >= 2 && AllDigits(m) && DecimalValue(m) == Minutes(tenths) by {
      PaddedRoundTrip(Minutes(tenths), 2);
    }
    assert |s| == 2 && AllDigits(s) && DecimalValue(s) == Seconds(tenths) by {
      DecimalUpTo(Seconds(tenths), 2);
      PaddedRoundTrip(Seconds(tenths), 2);
    }
    assert |ms| == 3 && AllDigits(ms) && DecimalValue(ms) == Millis(tenths) by {
      DecimalUpTo(Millis(tenths), 3);
      PaddedRoundTrip(Millis(tenths), 3);
    }
    FieldsSplit(m, s, ms);
  }

  /** Cutting "m:ss:mmm" back into fields gives the three fields that were joined. */
  lemma FieldsSplit(m: string, s: string, ms: string)
    requires |m| >= 2 && |s| == 2 && |ms| == 3
    ensures var d := m + ":" + s + ":" + ms;
      |d| >= 9 && DisplayFields(d) == (m, s, ms)
  {
    var d := m + ":" + s + ":" + ms;
    assert d[..|d| - 7] == m;
    assert d[|d| - 6..|d| - 4] == s;
    assert d[|d| - 3..] == ms;
  }

  /** A number below `10^width` prints in at most `width` digits. */
  lemma DecimalUpTo(n: nat, width: nat)
    requires (width == 2 && n < 100) || (width == 3 && n < 1000)
    ensures |Decimal(n)| <= width
  {
    if n >= 10 {
      assert |Decimal(n)| == |Decimal(n / 10)| + 1;
      if n / 10 >= 10 {
        assert |Decimal(n / 10)| == |Decimal(n / 100)| + 1;
      }
    }
  }

  class TransportBar {
    var isPlaying: bool
    var isRecording: bool
    var isLooping: bool
    /** `currentTime`, in tenths of a second. */
    var currentTenths: nat
    var bpm: real
    /** The text of the time label. */
    var timeDisplay: string
    /** Toggle states of the play, record and loop buttons. */
    var playButtonOn: bool
    var recordButtonOn: bool
    var loopButtonOn: bool

    /** The play and record buttons show the flags, and looping follows the loop button. */
    ghost predicate Valid()
      reads this
    {
      playButtonOn == isPlaying && recordButtonOn == isRecording && isLooping == loopButtonOn
    }

    constructor ()
      ensures Valid()
      ensures !isPlaying && !isRecording && !isLooping
      ensures currentTenths == 0 && bpm == 120.0 && timeDisplay == "00:00:000"
    {
      isPlaying, isRecording, isLooping := false, false, false;
      currentTenths := 0;
      bpm := 120.0;
      timeDisplay := "00:00:000";
      playButtonOn, recordButtonOn, loopButtonOn := false, false, false;
    }

    /**
     * `buttonClicked`. Play toggles playback; Stop stops playback and
     * recording and rewinds the clock (the label is left as it was); Record
     * toggles recording and, when that turns recording on while stopped,
     * starts playback too; Loop (a toggling button) flips and is copied into
     * the loop flag. The two AI buttons only show a message box, named in the
     * result; rewind and fast-forward have no handler.
     */
    method ButtonClicked(button: Button) returns (messageBox: Option<string>)
      requires Valid()
      modifies this
      ensures Valid()
      ensures bpm == old(bpm) && timeDisplay == old(timeDisplay)
      ensures messageBox == match button
        case AiMixing => Some("AI Mixing")
        case AiMastering => Some("AI Mastering")
        case _ => None
      ensures match button
        case Play =>
          isPlaying == !old(isPlaying) && isRecording == old(isRecording)
          && isLooping == old(isLooping) && currentTenths == old(currentTenths)
        case Stop =>
          !isPlaying && !isRecording && currentTenths == 0 && isLooping == old(isLooping)
        case Record =>
          isRecording == !old(isRecording)
          && isPlaying == (old(isPlaying) || isRecording)
          && isLooping == old(isLooping) && currentTenths == old(currentTenths)
        case Loop =>
          isLooping == !old(isLooping) && isPlaying == old(isPlaying)
          && isRecording == old(isRecording) && currentTenths == old(currentTenths)
        case _ =>
          isPlaying == old(isPlaying) && isRecording == old(isRecording)
          && isLooping == old(isLooping) && currentTenths == old(currentTenths)
    {
      messageBox := None;
      match button {
        case Play =>
          isPlaying := !isPlaying;
          playButtonOn := isPlaying;
        case Stop =>
          isPlaying := false;
          isRecording := false;
          currentTenths := 0;
          playButtonOn := false;
          recordButtonOn := false;
        case Record =>
          isRecording := !isRecording;
          recordButtonOn := isRecording;
          if isRecording && !isPlaying {
            isPlaying := true;
            playButtonOn := true;
          }
        case Loop =>
          loopButtonOn := !loopButtonOn;
          isLooping := loopButtonOn;
        case AiMixing =>
          messageBox := Some("AI Mixing");
        case AiMastering =>
          messageBox := Some("AI Mastering");
        case Rewind =>
        case FastForward =>
      }
    }

    /**
     * `timerCallback`, every 100 ms: while playing the clock advances one
     * tenth and the label shows the new time; the tempo is read from the
     * slider either way.
     */
    method TimerCallback(tempoSliderValue: real)
      requires Valid()
      modifies this`currentTenths, this`timeDisplay, this`bpm
      ensures Valid()
      ensures bpm == tempoSliderValue
      ensures isPlaying ==> currentTenths == old(currentTenths) + 1 && timeDisplay == Display(currentTenths)
      ensures !isPlaying ==> currentTenths == old(currentTenths) && timeDisplay == old(timeDisplay)
    {
      if isPlaying {
        currentTenths := currentTenths + 1;
        timeDisplay := Display(currentTenths);
      }
      bpm := tempoSliderValue;
    }
  }

  /** Recording from a stopped transport also starts playback, and stopping recording never stops it. */
  method RecordScenario() returns (playingAfterRecord: bool, playingAfterSecondRecord: bool, recordingAfter: bool)
    ensures playingAfterRecord && playingAfterSecondRecord && !recordingAfter
  {
    var bar := new TransportBar();
    var _ := bar.ButtonClicked(Record);
    playingAfterRecord := bar.isPlaying;
    var _ := bar.ButtonClicked(Record);
    playingAfterSecondRecord := bar.isPlaying;
    recordingAfter := bar.isRecording;
  }

  /** One minute, one second and a tenth of playing shows "01:01:100". */
  lemma DisplayExample()
    ensures Display(611) == "01:01:100"
  {
    assert Minutes(611) == 1 && Seconds(611) == 1 && Millis(611) == 100;
    assert Field(1, 2) == "01";
    assert Decimal(100) == Decimal(10) + "0" == "100";
    assert Field(100, 3) == "100";
  }
}
