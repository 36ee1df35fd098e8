/**
 * The stem-mastering workflow panel: the user ticks separated stems, may
 * assign a preset to each, and then masters the selection one stem at a
 * time, each stem becoming one `analyzeMastering` job.
 */
module StemMasteringWorkflow {
  import opened Wrappers
  import opened Seqs
  import opened Counting
  import opened Stems
  import opened PresetManager

  datatype StemInfo = StemInfo(key: string, name: string, defaultPreset: string)

  /** `stemConfig`: the four stems this panel offers. */
  const StemConfig: seq<StemInfo> := [
    StemInfo("vocals", "Vocals", "pop"),
    StemInfo("drums", "Drums", "rock"),
    StemInfo("bass", "Bass", "hip_hop"),
    StemInfo("other", "Other", "electronic")
  ]

  predicate IsStemKey(key: string) {
    exists i :: 0 <= i < |StemConfig| && StemConfig[i].key == key
  }

  /** `stemConfig[key].label`. */
  function StemLabel(key: string): (name: string)
    requires IsStemKey(key)
    ensures exists i :: 0 <= i < |StemConfig| && StemConfig[i] == StemInfo(key, name, StemConfig[i].defaultPreset)
  {
    var found := Find(StemConfig, (s: StemInfo) => s.key == key);
    found.value.name
  }

  /** Loudness target used when no preset applies. */
  const DefaultTargetLufs: real := -14.0

  /**
   * The loudness target for one stem: -14 unless the stem's assigned preset id is
   * non-empty and names a loaded preset, in which case that preset's target.
   */
  function TargetLufs(stemPresets: map<string, string>, key: string, presets: seq<Preset>): (target: Option<real>)
    ensures key !in stemPresets || stemPresets[key] == "" ==> target == Some(DefaultTargetLufs)
    ensures key in stemPresets && stemPresets[key] != "" ==>
      match Find(presets, (p: Preset) => p.id == stemPresets[key])
      case None => target == Some(DefaultTargetLufs)
      case Some(p) => target == p.data.settings.targetLufs && p in presets
  {
    if key in stemPresets && stemPresets[key] != "" then
      match Find(presets, (p: Preset) => p.id == stemPresets[key])
      case None => Some(DefaultTargetLufs)
      case Some(p) =>
        assert p in presets;
        p.data.settings.targetLufs
    else Some(DefaultTargetLufs)
  }

  /** The job for the `i`-th selected stem. */
  function JobFor(projectId: string, separation: Separation, stemPresets: map<string, string>,
                  presets: seq<Preset>, key: string): MasteringJob
    requires IsStemKey(key)
  {
    MasteringJob(projectId, JobTrackName(separation.trackName, StemLabel(key)), StemUrl(separation, key),
      "stem", key, TargetLufs(stemPresets, key, presets))
  }

  /** The jobs for a whole selection, one per selected stem, in selection order. */
  function JobsFor(projectId: string, separation: Separation, stemPresets: map<string, string>,
                   presets: seq<Preset>, selected: seq<string>): (jobs: seq<MasteringJob>)
    requires forall i :: 0 <= i < |selected| ==> IsStemKey(selected[i])
    ensures |jobs| == |selected|
    ensures forall i :: 0 <= i < |selected| ==> jobs[i] == JobFor(projectId, separation, stemPresets, presets, selected[i])
  {
    seq(|selected|, i requires 0 <= i < |selected| => JobFor(projectId, separation, stemPresets, presets, selected[i]))
  }

  /** The first `i + 1` jobs are the first `i` and then job `i`. */
  lemma TakeOneMore(all: seq<MasteringJob>, i: nat)
    requires i < |all|
    ensures all[..i + 1] == all[..i] + [all[i]]
  {
  }

  /**
   * The loop of `handleMasterStems`: one mastering call per selected stem, in
   * selection order. `failAt`, when present, is the index of the call that
   * throws; it is still sent, and the loop ends there.
   */
  method SendStemJobs(projectId: string, separation: Separation, stemPresets: map<string, string>,
                      presets: seq<Preset>, keys: seq<string>, failAt: Option<nat>)
    returns (sent: seq<MasteringJob>, failed: bool)
    requires forall i :: 0 <= i < |keys| ==> IsStemKey(keys[i])
    ensures failed <==> failAt.Some? && failAt.value < |keys|
    ensures var all := JobsFor(projectId, separation, stemPresets, presets, keys);
      sent == all[..if failed then failAt.value + 1 else |all|]
  {
    var all := JobsFor(projectId, separation, stemPresets, presets, keys);
    sent, failed := [], false;
    var i := 0;
    while i < |keys| && !failed
      invariant 0 <= i <= |keys|
      invariant sent == all[..i]
      invariant !failed ==> failAt.None? || failAt.value >= i
      invariant failed ==> 0 < i && failAt == Some(i - 1)
    {
      var job := JobFor(projectId, separation, stemPresets, presets, keys[i]);
      assert job == all[i];
      TakeOneMore(all, i);
      sent := sent + [job];
      failed := failAt == Some(i);
      i := i + 1;
    }
    assert all[..|all|] == all;
  }

  /** Every job is a stem job for its own stem, and no stem is mastered twice in one run. */
  lemma JobsOnePerStem(projectId: string, separation: Separation, stemPresets: map<string, string>,
                       presets: seq<Preset>, selected: seq<string>)
    requires forall i :: 0 <= i < |selected| ==> IsStemKey(selected[i])
    requires Distinct(selected)
    ensures var jobs := JobsFor(projectId, separation, stemPresets, presets, selected);
      (forall i :: 0 <= i < |jobs| ==>
        jobs[i].masteringType == "stem" && jobs[i].stemType == selected[i]
        && jobs[i].projectId == projectId && jobs[i].fileUrl == StemUrl(separation, selected[i]))
      && (forall i, j :: 0 <= i < j < |jobs| ==> jobs[i].stemType != jobs[j].stemType)
  {
  }

  /** A `MasteringAnalysis` record of this project, as far as the "Mastered" badge reads it. */
  datatype MasteredStem = MasteredStem(stemType: Option<string>)

  /** The "Mastered" badge: some stem-mastering record has this stem type. */
  function IsMastered(mastered: seq<MasteredStem>, key: string): (shown: bool)
    ensures shown <==> exists i :: 0 <= i < |mastered| && mastered[i].stemType == Some(key)
  {
    Find(mastered, (m: MasteredStem) => m.stemType == Some(key)).Some?
  }

  /** The preset choices: the default presets only, in loaded order. */
  function OfferedPresets(presets: seq<Preset>): (offered: seq<Preset>)
    ensures forall i :: 0 <= i < |offered| ==> offered[i].data.isDefault && offered[i] in presets
    ensures forall i :: 0 <= i < |presets| && presets[i].data.isDefault ==> presets[i] in offered
  {
    Filter(presets, (p: Preset) => p.data.isDefault)
  }

  class Workflow {
    var selectedStems: seq<string>
    var stemPresets: map<string, string>
    var processing: bool

    /** The selection holds stems of this panel, each at most once. */
    ghost predicate Valid()
      reads this
    {
      Distinct(selectedStems) && forall i :: 0 <= i < |selectedStems| ==> IsStemKey(selectedStems[i])
    }

    constructor ()
      ensures Valid()
      ensures selectedStems == [] && stemPresets == map[] && !processing
    {
      selectedStems, stemPresets, processing := [], map[], false;
    }

    /** `toggleStem`, from a stem's checkbox. */
    method ToggleStem(key: string)
      requires Valid() && IsStemKey(key)
      modifies this
      ensures Valid()
      ensures selectedStems == Toggle(old(selectedStems), key)
      ensures stemPresets == old(stemPresets) && processing == old(processing)
    {
      ToggleKeepsDistinct(selectedStems, key);
      selectedStems := Toggle(selectedStems, key);
    }

    /** `setPresetForStem`: only that stem's entry changes. */
    method SetPresetForStem(key: string, presetId: string)
      requires Valid()
      modifies this
      ensures Valid()
      ensures stemPresets == old(stemPresets)[key := presetId]
      ensures selectedStems == old(selectedStems) && processing == old(processing)
    {
      stemPresets := stemPresets[key := presetId];
    }

    /**
     * `handleMasterStems`. An empty selection is refused with no job. Otherwise
     * the jobs are sent one by one in selection order; `failAt`, when present,
     * is the index of the first call that fails, which ends the run. Only a run
     * in which every call succeeds clears the selection and the preset choices
     * and reports completion.
     */
    method HandleMasterStems(projectId: string, separation: Separation, presets: seq<Preset>, failAt: Option<nat>)
      returns (rejected: bool, sent: seq<MasteringJob>, completed: bool)
      requires Valid()
      modifies this
      ensures Valid()
      ensures rejected ==> processing == old(processing)
      ensures !rejected ==> !processing
      ensures rejected <==> old(selectedStems) == []
      ensures rejected ==> sent == [] && !completed
      ensures var all := JobsFor(projectId, separation, old(stemPresets), presets, old(selectedStems));
        var n := if failAt.Some? && failAt.value < |all| then failAt.value + 1 else |all|;
        sent == all[..n]
      ensures completed <==> !rejected && (failAt.None? || failAt.value >= |old(selectedStems)|)
      ensures completed ==> selectedStems == [] && stemPresets == map[]
      ensures !completed ==> selectedStems == old(selectedStems) && stemPresets == old(stemPresets)
    {
      sent, completed := [], false;
      rejected := selectedStems == [];
      if rejected {
        return;
      }
      processing := true;
      var failed;
      sent, failed := SendStemJobs(projectId, separation, stemPresets, presets, selectedStems, failAt);
      if !failed {
        selectedStems, stemPresets := [], map[];
        completed := true;
      }
      processing := false;
    }
  }
}
