/**
 * The mixer view of the mixing page: a strip per track (sixteen placeholder
 * tracks when none are given), each with a level meter coloured by level,
 * an alert when the live suggestion names the track, and a dB readout of
 * the level against the 75 mark. Levels are whole numbers here.
 */
module MixerView {
  import opened Wrappers
  import opened Text
  import opened Transport
  import opened RealTimeAnalyzer

  datatype MixerTrack = MixerTrack(name: string, level: int, pan: int)

  /** `trackCount` when the page does not pass one. */
  const DefaultTrackCount: nat := 16

  /** Level every placeholder track starts at, and the 0 dB mark of the readout. */
  const UnityLevel: int := 75

  /** `Track ${i + 1}`. */
  function TrackName(i: nat): string {
    "Track " + Decimal(i + 1)
  }

  /**
   * `defaultTracks`: the tracks given, when there are any; otherwise
   * `trackCount` placeholders "Track 1" to "Track N" at level 75, centred.
   */
  function DefaultTracks(tracks: seq<MixerTrack>, trackCount: nat): (strips: seq<MixerTrack>)
    ensures tracks != [] ==> strips == tracks
    ensures tracks == [] ==> |strips| == trackCount
    ensures tracks == [] ==> forall i :: 0 <= i < trackCount ==>
      strips[i].name == TrackName(i) && strips[i].level == UnityLevel && strips[i].pan == 0
  {
    if tracks != [] then tracks
    else seq(trackCount, i requires 0 <= i < trackCount => MixerTrack(TrackName(i), UnityLevel, 0))
  }

  /** No two placeholder tracks share a name, so a name-based alert picks out one strip. */
  lemma PlaceholderNamesDistinct(trackCount: nat)
    ensures var strips := DefaultTracks([], trackCount);
      forall i, j :: 0 <= i < j < |strips| ==> strips[i].name != strips[j].name
  {
    forall i: nat, j: nat | i < j
      ensures TrackName(i) != TrackName(j)
    {
      if TrackName(i) == TrackName(j) {
        assert TrackName(i)[6..] == Decimal(i + 1);
        assert TrackName(j)[6..] == Decimal(j + 1);
        DecimalRoundTrip(i + 1);
        DecimalRoundTrip(j + 1);
        assert false;
      }
    }
  }

  /**
   * `getTrackAlert`: the type of the live suggestion when its message,
   * lower-cased, contains the track's name, lower-cased; otherwise none.
   */
  function TrackAlert(liveFeedback: Option<Feedback>, trackName: string): (alert: Option<Kind>)
    ensures alert.Some? <==>
      liveFeedback.Some? && liveFeedback.value.suggestion.Some?
      && exists i :: OccursAt(LowerStr(liveFeedback.value.suggestion.value.message), LowerStr(trackName), i)
    ensures alert.Some? ==> alert == Some(liveFeedback.value.suggestion.value.kind)
  {
    match liveFeedback
    case None => None
    case Some(f) =>
      match f.suggestion
      case None => None
      case Some(s) => if Contains(LowerStr(s.message), LowerStr(trackName)) then Some(s.kind) else None
  }

  /**
   * A track is alerted only when its name is no longer than the message, and
   * a track with an empty name is alerted by every suggestion.
   */
  lemma AlertNeedsName(f: Feedback, trackName: string)
    ensures TrackAlert(Some(f), trackName).Some? ==> f.suggestion.Some? && |trackName| <= |f.suggestion.value.message|
    ensures f.suggestion.Some? ==> TrackAlert(Some(f), "").Some?
  {
    if f.suggestion.Some? {
      assert OccursAt(LowerStr(f.suggestion.value.message), LowerStr(""), 0);
    }
  }

  datatype Border = YellowBorder | BlueBorder | SlateBorder

  /** The strip's border: yellow for a warning, blue for an info, plain otherwise (a success too). */
  function BorderOf(alert: Option<Kind>): (b: Border)
    ensures b == YellowBorder <==> alert == Some(Warning)
    ensures b == BlueBorder <==> alert == Some(Info)
    ensures b == SlateBorder <==> alert.None? || alert == Some(Success)
  {
    match alert
    case Some(Warning) => YellowBorder
    case Some(Info) => BlueBorder
    case _ => SlateBorder
  }

  datatype MeterColor = GreenMeter | YellowMeter | RedMeter

  /** The level meter: red above 85, yellow above 70, green otherwise. */
  function MeterColorOf(level: int): (c: MeterColor)
    ensures c == RedMeter <==> level > 85
    ensures c == YellowMeter <==> 70 < level <= 85
    ensures c == GreenMeter <==> level <= 70
  {
    if level > 85 then RedMeter else if level > 70 then YellowMeter else GreenMeter
  }

  function MeterRank(c: MeterColor): nat {
    match c
    case GreenMeter => 0
    case YellowMeter => 1
    case RedMeter => 2
  }

  /** A higher level never shows a calmer colour, and the placeholder level 75 shows yellow. */
  lemma MeterMonotone(a: int, b: int)
    requires a <= b
    ensures MeterRank(MeterColorOf(a)) <= MeterRank(MeterColorOf(b))
    ensures MeterColorOf(UnityLevel) == YellowMeter
  {
  }

  /** The readout as written: the "+" is decided by `level > 0`, the figure is `level - 75`. */
  function ReadoutAsWritten(level: int): (text: string)
    ensures EndsWith(text, " dB")
  {
    (if level > 0 then "+" else "") + IntToString(level - UnityLevel) + " dB"
  }

  /** The readout with the sign decided by the figure it shows. */
  function Readout(level: int): (text: string)
    ensures EndsWith(text, " dB")
  {
    (if level > UnityLevel then "+" else "") + IntToString(level - UnityLevel) + " dB"
  }

  /** An optional sign followed by at least one decimal digit. */
  predicate SignedDecimal(s: string) {
    |s| >= 1 &&
    if s[0] == '+' || s[0] == '-' then |s| >= 2 && AllDigits(s[1..]) else AllDigits(s)
  }

  function SignedValue(s: string): int
    requires SignedDecimal(s)
  {
    if s[0] == '-' then -(DecimalValue(s[1..]) as int)
    else if s[0] == '+' then DecimalValue(s[1..]) as int
    else DecimalValue(s) as int
  }

  /** The figure printed by `IntToString` reads back as the number. */
  lemma {:induction false} IntToStringRoundTrip(i: int)
    ensures SignedDecimal(IntToString(i)) && SignedValue(IntToString(i)) == i
    ensures IntToString(i)[0] != '+'
  {
    var d := if i < 0 then Decimal(-i) else Decimal(i);
    DecimalRoundTrip(if i < 0 then -i else i);
    if i < 0 {
      assert IntToString(i)[1..] == d;
    }
  }

  /**
   * The readout is one signed number then " dB": "+" exactly above 75, "-"
   * exactly below, and the number is the level's distance from 75.
   */
  lemma ReadoutRoundTrip(level: int)
    ensures var t := Readout(level);
      && SignedDecimal(t[..|t| - 3]) && SignedValue(t[..|t| - 3]) == level - UnityLevel
      && (t[0] == '+' <==> level > UnityLevel)
      && (t[0] == '-' <==> level < UnityLevel)
  {
    var n := IntToString(level - UnityLevel);
    IntToStringRoundTrip(level - UnityLevel);
    var t := Readout(level);
    if level > UnityLevel {
      assert t[..|t| - 3] == "+" + n;
      assert ("+" + n)[1..] == n;
      assert n[0] != '+' && n[0] != '-';
    } else {
      assert t[..|t| - 3] == n;
    }
  }

  /** Between 0 and 75 the readout as written shows two signs, as in "+-25 dB" for level 50. */
  lemma ReadoutAsWrittenDoubleSign(level: int)
    requires 0 < level < UnityLevel
    ensures var t := ReadoutAsWritten(level);
      t[..2] == "+-" && !SignedDecimal(t[..|t| - 3])
    ensures ReadoutAsWritten(50) == "+-25 dB"
  {
    var d := Decimal(UnityLevel - level);
    assert ReadoutAsWritten(level) == "+-" + d + " dB";
    DoubleSignNotSigned(d);
    ReadoutAtFifty();
  }

  /** A second sign after the first leaves no digits-only field. */
  lemma DoubleSignNotSigned(d: string)
    ensures var t := "+-" + d + " dB";
      t[..2] == "+-" && !SignedDecimal(t[..|t| - 3])
  {
    var t := "+-" + d + " dB";
    assert t[..|t| - 3] == "+-" + d;
    assert ("+-" + d)[1..][0] == '-';
    assert !IsDigit('-');
  }

  /** Level 50, a quarter of the way below unity. */
  lemma ReadoutAtFifty()
    ensures ReadoutAsWritten(50) == "+-25 dB"
  {
    assert Decimal(25) == Decimal(2) + [Digit(5)];
  }
}
