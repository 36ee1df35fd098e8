/**
 * The mastering preset manager: saving the current settings as a custom
 * preset, seeding the four genre presets into an empty list, and which
 * actions each listed preset offers.
 */
module PresetManager {
  import opened Wrappers
  import opened Text

  datatype EqBand = EqBand(frequency: int, gain: real, q: real, shape: string)

  /** Mastering settings; each may be missing from the settings object. */
  datatype Settings = Settings(
    targetLufs: Option<real>,
    limiterThreshold: Option<real>,
    limiterRelease: Option<real>,
    eqCurve: Option<seq<EqBand>>,
    compressionRatio: Option<string>,
    stereoWidth: Option<real>)

  /** The fields sent to `MasteringPreset.create`. */
  datatype PresetData = PresetData(name: string, genre: string, settings: Settings, isDefault: bool)

  /** A stored preset: the store's id and the data. */
  datatype Preset = Preset(id: string, data: PresetData)

  /** The record `handleSave` creates from the current settings: a custom, non-default preset with an EQ curve. */
  function CustomPreset(name: string, current: Settings): (p: PresetData)
    ensures p.name == name && p.genre == "custom" && !p.isDefault
    ensures p.settings.eqCurve == Some(current.eqCurve.GetOr([]))
    ensures p.settings.targetLufs == current.targetLufs && p.settings.limiterThreshold == current.limiterThreshold
    ensures p.settings.limiterRelease == current.limiterRelease && p.settings.compressionRatio == current.compressionRatio
    ensures p.settings.stereoWidth == current.stereoWidth
  {
    PresetData(name, "custom", current.(eqCurve := Some(current.eqCurve.GetOr([]))), false)
  }

  /**
   * `handleSave`: a name that is blank after trimming is refused; otherwise the
   * name as typed, untrimmed, is saved.
   */
  function HandleSave(presetName: string, current: Settings): (created: Option<PresetData>)
    ensures created.None? <==> forall i :: 0 <= i < |presetName| ==> IsSpace(presetName[i])
    ensures created.Some? ==> created.value == CustomPreset(presetName, current)
  {
    TrimEmptyIffBlank(presetName);
    if Trim(presetName) == "" then None else Some(CustomPreset(presetName, current))
  }

  function Band(frequency: int, gain: real, q: real, shape: string): EqBand {
    EqBand(frequency, gain, q, shape)
  }

  /** The four genre presets, in creation order. */
  const DefaultPresets: seq<PresetData> := [
    PresetData("Pop Master", "pop",
      Settings(Some(-11.0), Some(-0.3), Some(50.0),
        Some([Band(60, 1.0, 0.7, "bell"), Band(250, -0.5, 1.0, "bell"), Band(3000, 1.5, 1.2, "bell"), Band(10000, 2.0, 0.7, "shelf")]),
        Some("2:1"), Some(105.0)), true),
    PresetData("Rock Master", "rock",
      Settings(Some(-9.0), Some(-0.5), Some(30.0),
        Some([Band(80, 2.0, 0.7, "bell"), Band(400, -1.0, 1.0, "bell"), Band(2500, 1.0, 1.2, "bell"), Band(8000, 1.5, 0.7, "shelf")]),
        Some("3:1"), Some(110.0)), true),
    PresetData("Electronic Master", "electronic",
      Settings(Some(-8.0), Some(-0.2), Some(100.0),
        Some([Band(40, 2.5, 0.7, "bell"), Band(200, -1.0, 1.0, "bell"), Band(5000, 2.0, 1.2, "bell"), Band(12000, 2.5, 0.7, "shelf")]),
        Some("4:1"), Some(120.0)), true),
    PresetData("Hip-Hop Master", "hip_hop",
      Settings(Some(-10.0), Some(-0.4), Some(40.0),
        Some([Band(50, 3.0, 0.7, "bell"), Band(300, -0.5, 1.0, "bell"), Band(4000, 1.0, 1.2, "bell"), Band(10000, 1.5, 0.7, "shelf")]),
        Some("3:1"), Some(95.0)), true)
  ]

  /**
   * The seeding effect: once loading has finished with an empty list, each
   * genre preset is created in turn; otherwise nothing is created. The creates
   * are awaited one by one with nothing to catch a refusal: `failAt` numbers
   * the create the store refuses, if any, and seeding stops there, keeping the
   * presets created before it. Only when every create succeeds is the list
   * refreshed and the "loaded" notice shown (`refreshed`).
   */
  method SeedDefaults(loaded: seq<Preset>, isLoading: bool, failAt: Option<nat>)
    returns (created: seq<PresetData>, refreshed: bool)
    ensures loaded == [] && !isLoading && failAt.None? ==> created == DefaultPresets
    ensures loaded == [] && !isLoading && failAt.Some? ==>
      created == DefaultPresets[..if failAt.value < |DefaultPresets| then failAt.value else |DefaultPresets|]
    ensures loaded != [] || isLoading ==> created == []
    ensures refreshed <==> loaded == [] && !isLoading && (failAt.None? || failAt.value >= |DefaultPresets|)
  {
    created := [];
    refreshed := false;
    if loaded == [] && !isLoading {
      var i := 0;
      while i < |DefaultPresets| && failAt != Some(i)
        invariant i <= |DefaultPresets|
        invariant failAt.None? || failAt.value >= i
        invariant created == DefaultPresets[..i]
      {
        created := created + [DefaultPresets[i]];
        i := i + 1;
      }
      refreshed := i == |DefaultPresets|;
    }
  }

  /** The seeded presets are pop, rock, electronic and hip-hop, in that order, every one a default with a four-band EQ. */
  lemma DefaultsAreGenrePresets()
    ensures |DefaultPresets| == 4
    ensures DefaultPresets[0].genre == "pop" && DefaultPresets[1].genre == "rock"
    ensures DefaultPresets[2].genre == "electronic" && DefaultPresets[3].genre == "hip_hop"
    ensures forall i :: 0 <= i < |DefaultPresets| ==>
      DefaultPresets[i].isDefault && DefaultPresets[i].settings.eqCurve.Some? && |DefaultPresets[i].settings.eqCurve.value| == 4
  {
  }

  /** The delete button: offered for custom presets only. */
  predicate CanDelete(p: Preset) {
    !p.data.isDefault
  }

  /** A seeded preset can never be deleted from the list, and a saved custom preset always can. */
  lemma DeleteOnlyCustom(id: string, name: string, current: Settings)
    ensures forall i :: 0 <= i < |DefaultPresets| ==> !CanDelete(Preset(id, DefaultPresets[i]))
    ensures CanDelete(Preset(id, CustomPreset(name, current)))
  {
  }

  /** `handleApply`: the preset goes to `onApplyPreset` only when that callback is given. */
  function HandleApply(p: Preset, hasOnApplyPreset: bool): (applied: Option<Preset>)
    ensures applied.Some? <==> hasOnApplyPreset
    ensures applied.Some? ==> applied.value == p
  {
    if hasOnApplyPreset then Some(p) else None
  }

  /** `genreColors[genre]?.label || genre`: the display name of a genre. */
  function GenreLabel(genre: string): (name: string)
    ensures genre == "pop" ==> name == "Pop"
    ensures genre == "rock" ==> name == "Rock"
    ensures genre == "electronic" ==> name == "Electronic"
    ensures genre == "hip_hop" ==> name == "Hip-Hop"
    ensures genre == "custom" ==> name == "Custom"
    ensures genre !in {"pop", "rock", "electronic", "hip_hop", "custom"} ==> name == genre
  {
    if genre == "pop" then "Pop"
    else if genre == "rock" then "Rock"
    else if genre == "electronic" then "Electronic"
    else if genre == "hip_hop" then "Hip-Hop"
    else if genre == "custom" then "Custom"
    else genre
  }
}
