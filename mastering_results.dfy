/**
 * The mastering results card: the five spectral-balance bars and their
 * colours, the dynamic-range verdict, the starting positions of the two
 * fine-tune sliders, and "Apply", which marks the analysis record applied.
 * Numbers the record may lack are `Option`s; JavaScript's `x || d` replaces
 * both a missing value and a zero by `d`.
 */
module MasteringResults {
  import opened Wrappers

  datatype SpectralBalance = SpectralBalance(
    low: Option<real>, lowMid: Option<real>, mid: Option<real>, highMid: Option<real>, high: Option<real>)

  datatype Recommendations = Recommendations(limiterThreshold: Option<real>)

  /** A `MasteringAnalysis` record, as far as this card reads and writes it. */
  datatype Analysis = Analysis(
    id: string,
    targetLufs: Option<real>,
    recommendations: Option<Recommendations>,
    spectralBalance: Option<SpectralBalance>,
    dynamicRange: Option<real>,
    applied: bool)

  /** JavaScript `v || d` on a number that may be missing: a missing value and 0 are both falsy. */
  function OrElse(v: Option<real>, d: real): real {
    if v.Some? && v.value != 0.0 then v.value else d
  }

  /** Value of a band bar when the record does not give one. */
  const DefaultBand: real := 50.0

  datatype Bar = Bar(name: string, value: real, range: string)

  /**
   * The five bars, low to high. A band that is missing, zero, or whose whole
   * `spectral_balance` object is missing shows 50.
   */
  function Bars(a: Analysis): (bars: seq<Bar>)
    ensures |bars| == 5
    ensures bars[0].name == "Low" && bars[1].name == "Low-Mid" && bars[2].name == "Mid"
    ensures bars[3].name == "High-Mid" && bars[4].name == "High"
    ensures bars[0].range == "20-250 Hz" && bars[1].range == "250-500 Hz" && bars[2].range == "500-2k Hz"
    ensures bars[3].range == "2-8k Hz" && bars[4].range == "8-20k Hz"
    ensures forall i :: 0 <= i < 5 ==> bars[i].value != 0.0
  {
    var s := a.spectralBalance.GetOr(SpectralBalance(None, None, None, None, None));
    [ Bar("Low", OrElse(s.low, DefaultBand), "20-250 Hz"),
      Bar("Low-Mid", OrElse(s.lowMid, DefaultBand), "250-500 Hz"),
      Bar("Mid", OrElse(s.mid, DefaultBand), "500-2k Hz"),
      Bar("High-Mid", OrElse(s.highMid, DefaultBand), "2-8k Hz"),
      Bar("High", OrElse(s.high, DefaultBand), "8-20k Hz") ]
  }

  /** A band's bar shows the recorded value when it is non-zero, and 50 in every other case. */
  lemma BarValues(a: Analysis)
    ensures var bars := Bars(a);
      a.spectralBalance.None? ==> forall i :: 0 <= i < 5 ==> bars[i].value == DefaultBand
    ensures var bars := Bars(a);
      a.spectralBalance.Some? ==>
        var s := a.spectralBalance.value;
        var given := [s.low, s.lowMid, s.mid, s.highMid, s.high];
        forall i :: 0 <= i < 5 ==>
          (given[i].Some? && given[i].value != 0.0 ==> bars[i].value == given[i].value)
          && (given[i].None? || given[i].value == 0.0 ==> bars[i].value == DefaultBand)
  {
  }

  datatype BarColor = Red | Green | Blue

  /** `getBarColor`: red above 70, green above 40, blue otherwise. */
  function ColorOf(value: real): (c: BarColor)
    ensures c == Red <==> value > 70.0
    ensures c == Green <==> 40.0 < value <= 70.0
    ensures c == Blue <==> value <= 40.0
  {
    if value > 70.0 then Red else if value > 40.0 then Green else Blue
  }

  /** Position of a colour on the scale blue, green, red. */
  function Heat(c: BarColor): nat {
    match c
    case Blue => 0
    case Green => 1
    case Red => 2
  }

  /** A taller bar is never shown in a cooler colour than a shorter one. */
  lemma ColorMonotone(v: real, w: real)
    requires v <= w
    ensures Heat(ColorOf(v)) <= Heat(ColorOf(w))
  {
  }

  datatype RangeVerdict = Wide | Good | Compressed

  /**
   * The verdict under the dynamic-range figure: wide above 12 dB, good above
   * 8 dB, compressed otherwise, and also when the record has no figure
   * (`undefined > 12` is false).
   */
  function RangeLabel(dynamicRange: Option<real>): (v: RangeVerdict)
    ensures v == Wide <==> dynamicRange.Some? && dynamicRange.value > 12.0
    ensures v == Good <==> dynamicRange.Some? && 8.0 < dynamicRange.value <= 12.0
    ensures v == Compressed <==> dynamicRange.None? || dynamicRange.value <= 8.0
  {
    match dynamicRange
    case None => Compressed
    case Some(dr) => if dr > 12.0 then Wide else if dr > 8.0 then Good else Compressed
  }

  function Rank(v: RangeVerdict): nat {
    match v
    case Compressed => 0
    case Good => 1
    case Wide => 2
  }

  /** More dynamic range never earns a worse verdict. */
  lemma RangeMonotone(d: real, e: real)
    requires d <= e
    ensures Rank(RangeLabel(Some(d))) <= Rank(RangeLabel(Some(e)))
  {
  }

  /** Loudness target the slider starts at when the record has none. */
  const DefaultLufs: real := -14.0

  /** Limiter threshold the slider starts at when the record has none. */
  const DefaultThreshold: real := -1.0

  /**
   * The starting values of the target-LUFS and limiter-threshold sliders: the
   * record's own values, or -14 and -1 when they are missing or zero.
   */
  function InitialSliders(a: Analysis): (sliders: (real, real))
    ensures a.targetLufs.Some? && a.targetLufs.value != 0.0 ==> sliders.0 == a.targetLufs.value
    ensures a.targetLufs.None? || a.targetLufs.value == 0.0 ==> sliders.0 == DefaultLufs
    ensures var t := if a.recommendations.Some? then a.recommendations.value.limiterThreshold else None;
      (t.Some? && t.value != 0.0 ==> sliders.1 == t.value)
      && (t.None? || t.value == 0.0 ==> sliders.1 == DefaultThreshold)
  {
    var threshold := match a.recommendations
      case None => None
      case Some(r) => r.limiterThreshold;
    (OrElse(a.targetLufs, DefaultLufs), OrElse(threshold, DefaultThreshold))
  }

  /** Neither slider ever starts at zero. */
  lemma SlidersNeverZero(a: Analysis)
    ensures InitialSliders(a).0 != 0.0 && InitialSliders(a).1 != 0.0
  {
  }

  /** The fine-tune and apply buttons are offered only while the analysis is not applied. */
  predicate ActionsOffered(a: Analysis) {
    !a.applied
  }

  /**
   * `handleApply` against the store of analysis records, keyed by id. The
   * update fails when the record is gone or the store call fails
   * (`storeFails`); then nothing changes and `onUpdate` is not called.
   * Otherwise exactly that record becomes applied, and `onUpdate` is called
   * when the card was given one.
   */
  function HandleApply(store: map<string, Analysis>, a: Analysis, hasOnUpdate: bool, storeFails: bool)
    : (result: (map<string, Analysis>, bool))
    ensures var (store', onUpdateCalled) := result;
      && (a.id !in store || storeFails ==> store' == store && !onUpdateCalled)
      && (a.id in store && !storeFails ==>
        && store'.Keys == store.Keys
        && store'[a.id] == store[a.id].(applied := true)
        && (forall id :: id in store && id != a.id ==> store'[id] == store[id])
        && (onUpdateCalled <==> hasOnUpdate))
  {
    if a.id !in store || storeFails then (store, false)
    else (store[a.id := store[a.id].(applied := true)], hasOnUpdate)
  }

  /** Applying an analysis hides its actions, and applying it again changes nothing further. */
  lemma ApplyOnce(store: map<string, Analysis>, a: Analysis, hasOnUpdate: bool)
    requires a.id in store
    ensures var once := HandleApply(store, a, hasOnUpdate, false).0;
      !ActionsOffered(once[a.id]) && HandleApply(once, a, hasOnUpdate, false).0 == once
  {
  }
}
