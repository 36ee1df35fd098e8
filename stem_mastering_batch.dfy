/**
 * The batch stem-mastering panel: each ticked stem of the latest separation
 * is mastered with a fixed per-stem loudness target; stems the separation
 * lacks are skipped and the rest still go through.
 */
module StemMasteringBatch {
  import opened Wrappers
  import opened Seqs
  import opened Counting
  import opened Stems

  datatype BatchStem = BatchStem(key: string, name: string, targetLufs: real)

  /** `availableStems` with their fixed loudness targets. */
  const AvailableStems: seq<BatchStem> := [
    BatchStem("vocals", "Vocals", -11.0),
    BatchStem("drums", "Drums", -9.0),
    BatchStem("bass", "Bass", -11.0),
    BatchStem("guitar", "Guitar", -13.0),
    BatchStem("keys", "Keys", -15.0),
    BatchStem("other", "Other", -15.0)
  ]

  predicate IsBatchKey(key: string) {
    exists i :: 0 <= i < |AvailableStems| && AvailableStems[i].key == key
  }

  /** `availableStems.find(s => s.key === key)`. */
  function StemOf(key: string): (s: BatchStem)
    requires IsBatchKey(key)
    ensures s.key == key && s in AvailableStems
  {
    if key == "vocals" then AvailableStems[0]
    else if key == "drums" then AvailableStems[1]
    else if key == "bass" then AvailableStems[2]
    else if key == "guitar" then AvailableStems[3]
    else if key == "keys" then AvailableStems[4]
    else AvailableStems[5]
  }

  /** The fixed loudness target of each stem. */
  lemma FixedTargets(key: string)
    requires IsBatchKey(key)
    ensures StemOf(key).targetLufs ==
      if key == "drums" then -9.0
      else if key == "guitar" then -13.0
      else if key == "keys" || key == "other" then -15.0
      else -11.0
  {
    var a, s := AvailableStems, StemOf(key);
    var i :| 0 <= i < |a| && a[i] == s;
    assert i == 0 || i == 1 || i == 2 || i == 3 || i == 4 || i == 5;
  }

  /** `!stemUrl` is false: the separation has a non-empty URL for this stem. */
  predicate HasUrl(separation: Separation, key: string) {
    StemUrl(separation, key).Some? && StemUrl(separation, key).value != ""
  }

  function BatchJob(projectId: string, separation: Separation, key: string): MasteringJob
    requires IsBatchKey(key)
  {
    MasteringJob(projectId, JobTrackName(separation.trackName, StemOf(key).name), StemUrl(separation, key),
      "stem", key, Some(StemOf(key).targetLufs))
  }

  /** A job `handleBatchMaster` may send: a stem job with a non-empty file URL. */
  predicate Sendable(job: MasteringJob) {
    job.fileUrl.Some? && job.fileUrl.value != "" && job.masteringType == "stem"
  }

  /**
   * The jobs a whole run sends: one per selected stem that has a URL, in
   * selection order, each one sendable.
   */
  function BatchJobs(projectId: string, separation: Separation, selected: seq<string>): (jobs: seq<MasteringJob>)
    requires forall i :: 0 <= i < |selected| ==> IsBatchKey(selected[i])
    ensures |jobs| <= |selected|
    decreases |selected|
  {
    if selected == [] then []
    else
      var key := selected[|selected| - 1];
      var rest := BatchJobs(projectId, separation, selected[..|selected| - 1]);
      if HasUrl(separation, key) then rest + [BatchJob(projectId, separation, key)] else rest
  }

  /**
   * Each job is the job of its own stem, one of the panel's: titled with that
   * stem's label and carrying that stem's fixed loudness target.
   */
  predicate StemJobs(projectId: string, separation: Separation, jobs: seq<MasteringJob>) {
    forall j :: 0 <= j < |jobs| ==>
      Sendable(jobs[j]) && IsBatchKey(jobs[j].stemType) && jobs[j] == BatchJob(projectId, separation, jobs[j].stemType)
  }

  /** Every job sent has a URL and is the job of its own stem. */
  lemma {:induction false} JobsAreStemJobs(projectId: string, separation: Separation, selected: seq<string>)
    requires forall i :: 0 <= i < |selected| ==> IsBatchKey(selected[i])
    ensures StemJobs(projectId, separation, BatchJobs(projectId, separation, selected))
    decreases |selected|
  {
    if selected != [] {
      var init := selected[..|selected| - 1];
      JobsAreStemJobs(projectId, separation, init);
      var rest := BatchJobs(projectId, separation, init);
      var key := selected[|selected| - 1];
      var sent := BatchJobs(projectId, separation, selected);
      forall j | 0 <= j < |sent|
        ensures Sendable(sent[j]) && IsBatchKey(sent[j].stemType)
          && sent[j] == BatchJob(projectId, separation, sent[j].stemType)
      {
        if j < |rest| {
          assert sent[j] == rest[j];
        } else {
          assert sent[j] == BatchJob(projectId, separation, key);
        }
      }
    }
  }

  function StemTypes(jobs: seq<MasteringJob>): (keys: seq<string>)
    ensures |keys| == |jobs|
    ensures forall j :: 0 <= j < |jobs| ==> keys[j] == jobs[j].stemType
  {
    seq(|jobs|, j requires 0 <= j < |jobs| => jobs[j].stemType)
  }

  /** The stems mastered are exactly the selected stems with a URL, in selection order: the others are skipped. */
  lemma {:induction false} JobsSkipMissingStems(projectId: string, separation: Separation, selected: seq<string>)
    requires forall i :: 0 <= i < |selected| ==> IsBatchKey(selected[i])
    ensures StemTypes(BatchJobs(projectId, separation, selected)) == Filter(selected, (k: string) => HasUrl(separation, k))
    decreases |selected|
  {
    if selected != [] {
      var init := selected[..|selected| - 1];
      JobsSkipMissingStems(projectId, separation, init);
      var rest := BatchJobs(projectId, separation, init);
      var key := selected[|selected| - 1];
      if HasUrl(separation, key) {
        assert StemTypes(rest + [BatchJob(projectId, separation, key)]) == StemTypes(rest) + [key];
      }
    }
  }

  /** A run over a longer selection begins with the jobs of a shorter one. */
  lemma {:induction false} BatchJobsPrefix(projectId: string, separation: Separation, selected: seq<string>, i: nat)
    requires forall k :: 0 <= k < |selected| ==> IsBatchKey(selected[k])
    requires i <= |selected|
    ensures BatchJobs(projectId, separation, selected[..i]) <= BatchJobs(projectId, separation, selected)
    decreases |selected|
  {
    if i < |selected| {
      var init := selected[..|selected| - 1];
      assert selected[..i] == init[..i];
      BatchJobsPrefix(projectId, separation, init, i);
    } else {
      assert selected[..i] == selected;
    }
  }

  /** One more selected stem adds its job exactly when it has a URL. */
  lemma BatchJobsStep(projectId: string, separation: Separation, selected: seq<string>, i: nat)
    requires forall k :: 0 <= k < |selected| ==> IsBatchKey(selected[k])
    requires i < |selected|
    ensures BatchJobs(projectId, separation, selected[..i + 1])
      == BatchJobs(projectId, separation, selected[..i])
        + (if HasUrl(separation, selected[i]) then [BatchJob(projectId, separation, selected[i])] else [])
  {
    assert selected[..i + 1][..i] == selected[..i];
  }

  /** Some call of the run `all` fails: the call numbered `failAt` is one the run makes. */
  predicate FailsWithin(all: seq<MasteringJob>, failAt: Option<nat>) {
    failAt.Some? && failAt.value < |all|
  }

  /** The calls made before the loop stops: the whole run, or the run up to and including the failing call. */
  function SentBeforeFailure(all: seq<MasteringJob>, failAt: Option<nat>): (sent: seq<MasteringJob>)
    ensures sent <= all
    ensures FailsWithin(all, failAt) ==> |sent| == failAt.value + 1
    ensures !FailsWithin(all, failAt) ==> sent == all
  {
    if FailsWithin(all, failAt) then all[..failAt.value + 1] else all
  }

  /**
   * A loop that stopped either after the whole run without a failure, or right
   * after the call numbered `failAt`, sent what `SentBeforeFailure` says.
   */
  lemma StopsAtFailure(all: seq<MasteringJob>, failAt: Option<nat>, sent: seq<MasteringJob>, failed: bool)
    requires sent <= all
    requires failed ==> failAt == Some(|sent| - 1)
    requires !failed ==> sent == all && (failAt.None? || failAt.value >= |sent|)
    ensures sent == SentBeforeFailure(all, failAt)
    ensures failed <==> FailsWithin(all, failAt)
  {
    if failed {
      assert all[..|sent|] == sent;
    }
  }

  /**
   * The loop of `handleBatchMaster` over the selection: stems without a URL are
   * skipped, the others are sent in order until the call numbered `failAt`
   * fails, which ends the loop.
   */
  method SendJobs(projectId: string, latest: Separation, selected: seq<string>, failAt: Option<nat>)
    returns (sent: seq<MasteringJob>, failed: bool)
    requires forall k :: 0 <= k < |selected| ==> IsBatchKey(selected[k])
    ensures sent == SentBeforeFailure(BatchJobs(projectId, latest, selected), failAt)
    ensures failed <==> FailsWithin(BatchJobs(projectId, latest, selected), failAt)
  {
    sent, failed := [], false;
    var i := 0;
    while i < |selected| && !failed
      invariant 0 <= i <= |selected|
      invariant sent == BatchJobs(projectId, latest, selected[..i])
      invariant !failed ==> failAt.None? || failAt.value >= |sent|
      invariant failed ==> failAt == Some(|sent| - 1)
    {
      var key := selected[i];
      BatchJobsStep(projectId, latest, selected, i);
      if HasUrl(latest, key) {
        var before := |sent|;
        failed := failAt.Some? && failAt.value == before;
        sent := sent + [BatchJob(projectId, latest, key)];
        assert |sent| == before + 1;
      }
      i := i + 1;
    }
    BatchJobsPrefix(projectId, latest, selected, i);
    if !failed {
      assert selected[..i] == selected;
    }
    StopsAtFailure(BatchJobs(projectId, latest, selected), failAt, sent, failed);
  }

  datatype BatchOutcome = NoSelection | NoSeparations | Failed | Completed

  class Batch {
    var selectedStems: seq<string>
    var processing: bool

    /** The selection holds stems of this panel, each at most once. */
    ghost predicate Valid()
      reads this
    {
      Distinct(selectedStems) && forall i :: 0 <= i < |selectedStems| ==> IsBatchKey(selectedStems[i])
    }

    constructor ()
      ensures Valid() && selectedStems == [] && !processing
    {
      selectedStems, processing := [], false;
    }

    /** `toggleStem`, from a stem's checkbox. */
    method ToggleStem(key: string)
      requires Valid() && IsBatchKey(key)
      modifies this
      ensures Valid()
      ensures selectedStems == Toggle(old(selectedStems), key) && processing == old(processing)
    {
      ToggleKeepsDistinct(selectedStems, key);
      selectedStems := Toggle(selectedStems, key);
    }

    /**
     * `handleBatchMaster`. With no stem ticked, or no separation at all, nothing is
     * sent. Otherwise only `stems[0]` is used; a ticked stem without a URL is skipped
     * and the loop goes on. `failAt`, when present, is the index of the first call
     * that fails, which ends the run. Only a run without failure clears the selection.
     */
    method HandleBatchMaster(projectId: string, stems: seq<Separation>, failAt: Option<nat>)
      returns (outcome: BatchOutcome, sent: seq<MasteringJob>)
      requires Valid()
      modifies this
      ensures Valid()
      ensures old(selectedStems) == [] ==> outcome == NoSelection
      ensures old(selectedStems) != [] && stems == [] ==> outcome == NoSeparations
      ensures outcome in {NoSelection, NoSeparations} ==>
        sent == [] && selectedStems == old(selectedStems) && processing == old(processing)
      ensures old(selectedStems) != [] && stems != [] ==>
        var all := BatchJobs(projectId, stems[0], old(selectedStems));
        var n := if failAt.Some? && failAt.value < |all| then failAt.value + 1 else |all|;
        sent == all[..n] && !processing
        && (outcome == Completed <==> failAt.None? || failAt.value >= |all|)
        && (outcome == Completed || outcome == Failed)
      ensures outcome == Completed ==> selectedStems == []
      ensures outcome != Completed ==> selectedStems == old(selectedStems)
    {
      sent := [];
      if selectedStems == [] {
        return NoSelection, sent;
      }
      if stems == [] {
        return NoSeparations, sent;
      }
      processing := true;
      var failed;
      sent, failed := SendJobs(projectId, stems[0], selectedStems, failAt);
      if failed {
        outcome := Failed;
      } else {
        selectedStems := [];
        outcome := Completed;
      }
      processing := false;
    }
  }
}
