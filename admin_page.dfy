/**
 * The administrator's page (WebInterface/src/pages/Admin.jsx): creating and
 * toggling subscriptions, and managing the installer versions offered per
 * platform, of which one per platform is meant to be active. The remote
 * store is a sequence of records that the mutations rewrite one update or
 * create at a time.
 */
module AdminPage {
  import opened Wrappers
  import opened Text
  import opened Calendar

  // ---------------------------------------------------------------- subscriptions

  /** `getDurationLabel(type, months)`. */
  function DurationLabel(subscriptionType: string, months: int): (r: string)
    ensures subscriptionType == "trial" ==> r == "3 Days"
    ensures subscriptionType == "yearly" ==> r == "12 Months"
    ensures subscriptionType == "multi_year" ==> r == "24 Months"
    ensures subscriptionType !in {"trial", "yearly", "multi_year"} ==> r == IntToString(months) + " Months"
  {
    if subscriptionType == "trial" then "3 Days"
    else if subscriptionType == "custom" || subscriptionType == "charity" then IntToString(months) + " Months"
    else if subscriptionType == "yearly" then "12 Months"
    else if subscriptionType == "multi_year" then "24 Months"
    else IntToString(months) + " Months"
  }

  /** The months the form fills in when a type is chosen. */
  function MonthsForType(subscriptionType: string): (months: int)
    ensures subscriptionType == "trial" ==> months == 0
    ensures subscriptionType == "yearly" ==> months == 12
    ensures subscriptionType == "multi_year" ==> months == 24
    ensures subscriptionType !in {"trial", "yearly", "multi_year"} ==> months == 6
  {
    if subscriptionType == "trial" then 0
    else if subscriptionType == "yearly" then 12
    else if subscriptionType == "multi_year" then 24
    else 6
  }

  /**
   * For every type but the trial, the label of the months the type selector
   * fills in reads that number of months; a trial stores 0 months but reads
   * "3 Days".
   */
  lemma LabelMatchesChosenMonths(subscriptionType: string)
    ensures subscriptionType != "trial" ==>
      DurationLabel(subscriptionType, MonthsForType(subscriptionType)) == IntToString(MonthsForType(subscriptionType)) + " Months"
    ensures DurationLabel("trial", MonthsForType("trial")) == "3 Days" && MonthsForType("trial") == 0
  {
    assert Decimal(12) == "12" by { assert Decimal(1) == "1"; }
    assert Decimal(24) == "24" by { assert Decimal(2) == "2"; }
  }

  datatype SubscriptionForm = SubscriptionForm(email: string, subscriptionType: string, durationMonths: int, notes: string)

  /** The create form as the page opens it and as it is reset: a 12-month yearly plan. */
  const BlankSubscriptionForm: SubscriptionForm := SubscriptionForm("", "yearly", 12, "")

  /** Choosing a type in the form. */
  function ChooseType(form: SubscriptionForm, subscriptionType: string): (r: SubscriptionForm)
    ensures r == form.(subscriptionType := subscriptionType, durationMonths := MonthsForType(subscriptionType))
  {
    form.(subscriptionType := subscriptionType, durationMonths := MonthsForType(subscriptionType))
  }

  datatype Subscription = Subscription(
    userEmail: string, subscriptionType: string, status: string,
    startDate: Date, endDate: Option<Date>, durationMonths: int, isAdminCreated: bool, notes: string)

  /** The record `createSubscriptionMutation` creates on `today`. */
  function CreateSubscription(form: SubscriptionForm, today: Date): (s: Subscription)
    requires Valid(today)
    ensures s.userEmail == form.email && s.subscriptionType == form.subscriptionType && s.notes == form.notes
    ensures s.status == "active" && s.isAdminCreated && s.startDate == today
    ensures s.durationMonths == form.durationMonths
    ensures form.subscriptionType == "trial" ==> s.endDate == Some(AddDays(today, 3))
    ensures form.subscriptionType != "trial" ==> s.endDate == Some(AddMonths(today, form.durationMonths))
    ensures s.endDate.Some? && Valid(s.endDate.value)
  {
    var end := if form.subscriptionType == "trial" then AddDays(today, 3) else AddMonths(today, form.durationMonths);
    Subscription(form.email, form.subscriptionType, "active", today, Some(end), form.durationMonths, true, form.notes)
  }

  /** A subscription created from the type selector's months always ends after it starts. */
  lemma CreatedSubscriptionEndsLater(subscriptionType: string, email: string, notes: string, today: Date)
    requires Valid(today)
    ensures var s := CreateSubscription(ChooseType(SubscriptionForm(email, "", 0, notes), subscriptionType), today);
      && Before(s.startDate, s.endDate.value)
      && (subscriptionType == "trial" ==> DaysBetween(s.startDate, s.endDate.value) == 3)
  {
    if subscriptionType == "trial" {
      AddDaysNumber(today, 3);
    } else {
      AddMonthsLater(today, MonthsForType(subscriptionType));
    }
  }

  /** `toggleStatusMutation`: active becomes cancelled, anything else becomes active. */
  function ToggledStatus(status: string): (r: string)
    ensures r == "cancelled" <==> status == "active"
    ensures r == "active" <==> status != "active"
  {
    if status == "active" then "cancelled" else "active"
  }

  /** Two toggles restore an active or cancelled subscription. */
  lemma ToggleTwice(status: string)
    requires status == "active" || status == "cancelled"
    ensures ToggledStatus(ToggledStatus(status)) == status
  {
  }

  // ---------------------------------------------------------------- installer versions

  datatype DownloadFile = DownloadFile(
    id: nat, platform: string, version: string, fileUrl: string, fileSize: string,
    requirements: string, releaseDate: string, isActive: bool, downloadCount: Option<nat>)

  predicate UniqueIds(files: seq<DownloadFile>) {
    forall i, j :: 0 <= i < j < |files| ==> files[i].id != files[j].id
  }

  /** `DownloadFile.update(id, { is_active })`. */
  function SetActiveFlag(files: seq<DownloadFile>, id: nat, active: bool): (r: seq<DownloadFile>)
    ensures |r| == |files|
    ensures forall i :: 0 <= i < |files| ==>
      r[i] == if files[i].id == id then files[i].(isActive := active) else files[i]
  {
    seq(|files|, i requires 0 <= i < |files| => if files[i].id == id then files[i].(isActive := active) else files[i])
  }

  /** The ids of a platform's files, in store order. */
  function PlatformIds(files: seq<DownloadFile>, platform: string): (ids: seq<nat>)
    ensures forall k :: 0 <= k < |ids| ==> exists i :: 0 <= i < |files| && files[i].id == ids[k] && files[i].platform == platform
    ensures forall i :: 0 <= i < |files| && files[i].platform == platform ==> files[i].id in ids
    decreases |files|
  {
    if files == [] then []
    else
      var rest := PlatformIds(files[..|files| - 1], platform);
      var last := files[|files| - 1];
      if last.platform == platform then rest + [last.id] else rest
  }

  /** With unique ids, a file of another platform is not among a platform's ids. */
  lemma OtherPlatformId(files: seq<DownloadFile>, platform: string, i: nat)
    requires UniqueIds(files) && i < |files| && files[i].platform != platform
    ensures files[i].id !in PlatformIds(files, platform)
  {
  }

  /** Only the active flag of records with a platform's ids changes. */
  predicate DeactivatedFor(before: seq<DownloadFile>, after: seq<DownloadFile>, ids: seq<nat>) {
    |after| == |before|
    && forall i :: 0 <= i < |before| ==>
      after[i] == if before[i].id in ids then before[i].(isActive := false) else before[i]
  }

  /** One record per platform is active, the one with id `id`. */
  predicate OnlyActive(files: seq<DownloadFile>, platform: string, id: nat) {
    forall i :: 0 <= i < |files| && files[i].platform == platform ==> (files[i].isActive <==> files[i].id == id)
  }

  /**
   * The loop both mutations share: every listed id gets `is_active: false`,
   * one update at a time. `failAt`, when present, numbers the update that
   * throws; the loop stops there, and `done` updates have gone through.
   */
  method DeactivateAll(files: seq<DownloadFile>, ids: seq<nat>, failAt: Option<nat>) returns (r: seq<DownloadFile>, done: nat)
    ensures done == if failAt.Some? && failAt.value < |ids| then failAt.value else |ids|
    ensures DeactivatedFor(files, r, ids[..done])
  {
    r := files;
    done := 0;
    while done < |ids| && failAt != Some(done)
      invariant done <= |ids|
      invariant failAt.None? || failAt.value >= done
      invariant DeactivatedFor(files, r, ids[..done])
    {
      r := SetActiveFlag(r, ids[done], false);
      assert forall i :: 0 <= i < |files| ==> (files[i].id in ids[..done + 1] <==> files[i].id in ids[..done] || files[i].id == ids[done]) by {
        assert ids[..done + 1] == ids[..done] + [ids[done]];
      }
      done := done + 1;
    }
  }

  /**
   * `toggleActiveVersionMutation` ("Set Active"): every file of the platform
   * is deactivated, then the chosen one activated. The store calls are
   * numbered from 0 (the deactivations, then the activation); `failAt`, when
   * present, is the one that throws, and the mutation stops there.
   *
   * On success, when the chosen file belongs to that platform, it is the
   * platform's only active file. On failure, exactly the deactivations made
   * before it stand. Either way, only active flags change, and files of other
   * platforms keep everything.
   */
  method SetActiveVersion(files: seq<DownloadFile>, fileId: nat, platform: string, failAt: Option<nat>)
    returns (r: seq<DownloadFile>, ok: bool)
    requires UniqueIds(files)
    ensures ok <==> failAt.None? || failAt.value > |PlatformIds(files, platform)|
    ensures |r| == |files|
    ensures ok ==> OnlyActive(r, platform, fileId)
    ensures ok ==> forall i :: 0 <= i < |files| && files[i].id == fileId ==> r[i].isActive
    ensures !ok ==> DeactivatedFor(files, r, PlatformIds(files, platform)[..failAt.value])
    ensures forall i :: 0 <= i < |files| && files[i].platform != platform && files[i].id != fileId ==> r[i] == files[i]
    ensures forall i :: 0 <= i < |files| ==> r[i] == files[i].(isActive := r[i].isActive)
  {
    var ids := PlatformIds(files, platform);
    OtherPlatformIds(files, platform);
    var cleared, done := DeactivateAll(files, ids, failAt);
    if done < |ids| || failAt == Some(|ids|) {
      assert ids[..|ids|] == ids;
      FlagsOnly(files, cleared, ids[..done]);
      r, ok := cleared, false;
    } else {
      assert ids[..done] == ids;
      r, ok := SetActiveFlag(cleared, fileId, true), true;
      ActivateChosen(files, cleared, ids, platform, fileId);
    }
  }

  /** A partial deactivation changes active flags only, and only of the listed ids. */
  lemma FlagsOnly(files: seq<DownloadFile>, r: seq<DownloadFile>, ids: seq<nat>)
    requires DeactivatedFor(files, r, ids)
    ensures forall i :: 0 <= i < |files| ==> r[i] == files[i].(isActive := r[i].isActive)
    ensures forall i :: 0 <= i < |files| && files[i].id !in ids ==> r[i] == files[i]
  {
  }

  /** With unique ids, no file of another platform is among a platform's ids. */
  lemma OtherPlatformIds(files: seq<DownloadFile>, platform: string)
    requires UniqueIds(files)
    ensures forall i :: 0 <= i < |files| && files[i].platform != platform ==> files[i].id !in PlatformIds(files, platform)
  {
    forall i | 0 <= i < |files| && files[i].platform != platform
      ensures files[i].id !in PlatformIds(files, platform)
    {
      OtherPlatformId(files, platform, i);
    }
  }

  /** Activating the chosen id after clearing the whole platform leaves it the platform's only active file. */
  lemma ActivateChosen(files: seq<DownloadFile>, cleared: seq<DownloadFile>, ids: seq<nat>, platform: string, fileId: nat)
    requires ids == PlatformIds(files, platform) && DeactivatedFor(files, cleared, ids)
    requires forall i :: 0 <= i < |files| && files[i].platform != platform ==> files[i].id !in ids
    ensures OnlyActive(SetActiveFlag(cleared, fileId, true), platform, fileId)
    ensures forall i :: 0 <= i < |files| && files[i].id == fileId ==> SetActiveFlag(cleared, fileId, true)[i].isActive
    ensures forall i :: 0 <= i < |files| && files[i].platform != platform && files[i].id != fileId ==>
      SetActiveFlag(cleared, fileId, true)[i] == files[i]
    ensures forall i :: 0 <= i < |files| ==>
      SetActiveFlag(cleared, fileId, true)[i] == files[i].(isActive := SetActiveFlag(cleared, fileId, true)[i].isActive)
  {
  }

  /** `requirements || default`: the default requirements text of each platform. */
  function DefaultRequirements(platform: string): (r: string)
    ensures platform == "macOS" ==> r == "macOS 11.0 or later (Intel & Apple Silicon)"
    ensures platform == "Windows" ==> r == "Windows 10 (64-bit) or later"
    ensures platform != "macOS" && platform != "Windows" ==> r == "Ubuntu 20.04+, Fedora 34+, or equivalent"
  {
    if platform == "macOS" then "macOS 11.0 or later (Intel & Apple Silicon)"
    else if platform == "Windows" then "Windows 10 (64-bit) or later"
    else "Ubuntu 20.04+, Fedora 34+, or equivalent"
  }

  /** `(size / (1024 * 1024)).toFixed(0)`: whole megabytes, halves rounded up. */
  function MegabytesRounded(bytes: nat): (mb: nat)
    ensures mb * 1048576 <= bytes + 524288 < (mb + 1) * 1048576
  {
    (bytes + 524288) / 1048576
  }

  /** What the new installer record holds, before the store assigns its id. */
  function NewInstaller(id: nat, platform: string, version: string, requirements: string,
                        fileUrl: string, bytes: nat, releaseDate: string): (f: DownloadFile)
    ensures f.platform == platform && f.fileUrl == fileUrl && f.isActive && f.releaseDate == releaseDate
    ensures f.id == id && f.downloadCount.None?
    ensures f.version == if version == "" then "1.0.0" else version
    ensures f.requirements == if requirements == "" then DefaultRequirements(platform) else requirements
    ensures f.fileSize == Decimal(MegabytesRounded(bytes)) + " MB"
  {
    DownloadFile(id, platform, if version == "" then "1.0.0" else version, fileUrl,
      Decimal(MegabytesRounded(bytes)) + " MB",
      if requirements == "" then DefaultRequirements(platform) else requirements,
      releaseDate, true, None)
  }

  /** Some file of `files` has id `id` and belongs to `platform`. */
  predicate PlatformFileId(files: seq<DownloadFile>, platform: string, id: nat) {
    exists i :: 0 <= i < |files| && files[i].id == id && files[i].platform == platform
  }

  lemma PlatformFileIdGrows(files: seq<DownloadFile>, more: DownloadFile, platform: string, id: nat)
    requires PlatformFileId(files, platform, id)
    ensures PlatformFileId(files + [more], platform, id)
  {
    var i :| 0 <= i < |files| && files[i].id == id && files[i].platform == platform;
    assert (files + [more])[i] == files[i];
  }

  /** The ids of a platform's files that are active. */
  function ActivePlatformIds(files: seq<DownloadFile>, platform: string): (ids: seq<nat>)
    ensures forall i :: 0 <= i < |files| && files[i].platform == platform && files[i].isActive ==> files[i].id in ids
    ensures forall k :: 0 <= k < |ids| ==> PlatformFileId(files, platform, ids[k])
    decreases |files|
  {
    if files == [] then []
    else
      var init := files[..|files| - 1];
      var rest := ActivePlatformIds(init, platform);
      var last := files[|files| - 1];
      assert files == init + [last];
      assert forall k :: 0 <= k < |rest| ==> PlatformFileId(files, platform, rest[k]) by {
        forall k | 0 <= k < |rest| ensures PlatformFileId(files, platform, rest[k]) {
          PlatformFileIdGrows(init, last, platform, rest[k]);
        }
      }
      assert PlatformFileId(files, platform, last.id) <== last.platform == platform by {
        if last.platform == platform {
          assert files[|files| - 1] == last;
        }
      }
      if last.platform == platform && last.isActive then rest + [last.id] else rest
  }

  /**
   * The `download-files` query the page reads its versions from
   * (`const { data: downloadFiles = [] }`): pending until it returns, failed
   * if it throws.
   */
  datatype DownloadQuery = Pending | Failed | Fetched(list: seq<DownloadFile>)

  /** `downloadFiles`: the fetched list once the query has succeeded, and `[]` otherwise. */
  function CachedFiles(q: DownloadQuery): (files: seq<DownloadFile>)
    ensures q.Fetched? ==> files == q.list
    ensures !q.Fetched? ==> files == []
  {
    if q.Fetched? then q.list else []
  }

  /**
   * Every cached record whose id is still in the store belongs to the same
   * platform there: records never change platform.
   */
  predicate CacheAgrees(cache: seq<DownloadFile>, store: seq<DownloadFile>) {
    forall j, i :: 0 <= j < |cache| && 0 <= i < |store| && store[i].id == cache[j].id ==> store[i].platform == cache[j].platform
  }

  /** With an agreeing cache, no store file of another platform is among the platform's cached active ids. */
  lemma OtherPlatformCachedIds(store: seq<DownloadFile>, cache: seq<DownloadFile>, platform: string)
    requires CacheAgrees(cache, store)
    ensures forall i :: 0 <= i < |store| && store[i].platform != platform ==> store[i].id !in ActivePlatformIds(cache, platform)
  {
    var ids := ActivePlatformIds(cache, platform);
    forall i | 0 <= i < |store| && store[i].platform != platform
      ensures store[i].id !in ids
    {
      forall k | 0 <= k < |ids|
        ensures ids[k] != store[i].id
      {
        assert PlatformFileId(cache, platform, ids[k]);
        var j :| 0 <= j < |cache| && cache[j].id == ids[k] && cache[j].platform == platform;
      }
    }
  }

  /**
   * `uploadInstallerMutation`: the file upload (which returns `fileUrl`), then
   * the platform's active files deactivated one by one, then the new version
   * created active. The files to deactivate are taken from `cache`, the
   * page's `downloadFiles`; the updates and the create go to `store`. The
   * store calls are numbered from 0 in that order; `failAt`, when present, is
   * the one that throws, and the mutation stops there.
   *
   * On success the new version is appended, and exactly the cached active
   * files of the platform have been deactivated; when the cache is the store,
   * the new version is the platform's only active file. On failure nothing
   * is created, and exactly the deactivations made before the failing call
   * stand. Either way old records change at most their active flag, and
   * other platforms are untouched.
   */
  method UploadInstaller(store: seq<DownloadFile>, cache: seq<DownloadFile>, platform: string, version: string,
                         requirements: string, fileUrl: string, bytes: nat, releaseDate: string, newId: nat,
                         failAt: Option<nat>)
    returns (r: seq<DownloadFile>, ok: bool)
    requires UniqueIds(store) && forall i :: 0 <= i < |store| ==> store[i].id != newId
    requires CacheAgrees(cache, store)
    ensures ok <==> failAt.None? || failAt.value > |ActivePlatformIds(cache, platform)| + 1
    ensures |r| == if ok then |store| + 1 else |store|
    ensures ok ==> r[|store|] == NewInstaller(newId, platform, version, requirements, fileUrl, bytes, releaseDate)
    ensures ok ==> DeactivatedFor(store, r[..|store|], ActivePlatformIds(cache, platform))
    ensures ok && cache == store ==> OnlyActive(r, platform, newId)
    ensures failAt == Some(0) ==> r == store
    ensures !ok && failAt.value > 0 ==> DeactivatedFor(store, r, ActivePlatformIds(cache, platform)[..failAt.value - 1])
    ensures forall i :: 0 <= i < |store| && store[i].platform != platform ==> r[i] == store[i]
    ensures forall i :: 0 <= i < |store| ==> r[i] == store[i].(isActive := r[i].isActive)
  {
    if failAt == Some(0) {
      return store, false;
    }
    var ids := ActivePlatformIds(cache, platform);
    OtherPlatformCachedIds(store, cache, platform);
    var shifted := if failAt.Some? then Some(failAt.value - 1) else None;
    var cleared, done := DeactivateAll(store, ids, shifted);
    if done < |ids| || failAt == Some(|ids| + 1) {
      assert ids[..|ids|] == ids;
      FlagsOnly(store, cleared, ids[..done]);
      r, ok := cleared, false;
    } else {
      assert ids[..done] == ids;
      var created := NewInstaller(newId, platform, version, requirements, fileUrl, bytes, releaseDate);
      FlagsOnly(store, cleared, ids);
      if cache == store {
        AppendActive(store, cleared, ids, platform, created);
      }
      r, ok := cleared + [created], true;
      assert r[..|store|] == cleared;
    }
  }

  /**
   * As written: while the query is pending or has failed, `downloadFiles` is
   * `[]`, so an upload deactivates nothing. An active file the platform
   * already has stays active beside the new version.
   */
  lemma PendingUploadKeepsOldActive(store: seq<DownloadFile>, q: DownloadQuery, r: seq<DownloadFile>,
                                    created: DownloadFile, i: nat)
    requires !q.Fetched?
    requires i < |store| && store[i].platform == created.platform && store[i].isActive && store[i].id != created.id
    requires |r| == |store| + 1 && r[|store|] == created && created.isActive
    requires DeactivatedFor(store, r[..|store|], ActivePlatformIds(CachedFiles(q), created.platform))
    ensures r[i] == store[i]
    ensures !OnlyActive(r, created.platform, created.id)
  {
    assert ActivePlatformIds(CachedFiles(q), created.platform) == [];
    assert r[..|store|][i] == r[i];
  }

  /** The same on one macOS installer: an upload before the list arrives leaves two active macOS versions. */
  method PendingUploadExample() returns (r: seq<DownloadFile>, ok: bool)
    ensures ok && |r| == 2 && r[0].isActive && r[1].isActive && r[0].platform == r[1].platform == "macOS"
    ensures !OnlyActive(r, "macOS", 2)
  {
    var store := [DownloadFile(1, "macOS", "1.0.0", "u", "1 MB", "", "", true, None)];
    r, ok := UploadInstaller(store, CachedFiles(Pending), "macOS", "2.0.0", "", "v", 0, "", 2, None);
    PendingUploadKeepsOldActive(store, Pending, r, r[1], 0);
  }

  /**
   * The upload as intended: nothing is sent until the versions have been
   * fetched, and from then on it is the upload deactivating from that list.
   * A fetched list is the store as it stands.
   */
  method LoadedUploadInstaller(store: seq<DownloadFile>, q: DownloadQuery, platform: string, version: string,
                               requirements: string, fileUrl: string, bytes: nat, releaseDate: string, newId: nat,
                               failAt: Option<nat>)
    returns (r: seq<DownloadFile>, ok: bool)
    requires UniqueIds(store) && forall i :: 0 <= i < |store| ==> store[i].id != newId
    requires q.Fetched? ==> q.list == store
    ensures ok <==> q.Fetched? && (failAt.None? || failAt.value > |ActivePlatformIds(store, platform)| + 1)
    ensures |r| == if ok then |store| + 1 else |store|
    ensures !q.Fetched? ==> r == store
    ensures ok ==> r[|store|] == NewInstaller(newId, platform, version, requirements, fileUrl, bytes, releaseDate)
    ensures ok ==> OnlyActive(r, platform, newId)
    ensures forall i :: 0 <= i < |store| && store[i].platform != platform ==> r[i] == store[i]
    ensures forall i :: 0 <= i < |store| ==> r[i] == store[i].(isActive := r[i].isActive)
  {
    if !q.Fetched? {
      return store, false;
    }
    r, ok := UploadInstaller(store, q.list, platform, version, requirements, fileUrl, bytes, releaseDate, newId, failAt);
  }

  /** After the platform's active files are cleared, an appended active record of that platform is its only active one. */
  lemma AppendActive(files: seq<DownloadFile>, cleared: seq<DownloadFile>, ids: seq<nat>, platform: string, created: DownloadFile)
    requires ids == ActivePlatformIds(files, platform) && DeactivatedFor(files, cleared, ids)
    requires created.platform == platform && created.isActive
    requires forall i :: 0 <= i < |files| ==> files[i].id != created.id
    ensures OnlyActive(cleared + [created], platform, created.id)
  {
    var r := cleared + [created];
    forall i | 0 <= i < |r| && r[i].platform == platform
      ensures r[i].isActive <==> r[i].id == created.id
    {
      if i < |files| {
        assert r[i] == cleared[i];
      }
    }
  }

  /** The version form: `file` is absent until one is picked. */
  datatype NewVersion = NewVersion(platform: string, version: string, requirements: string, fileBytes: Option<nat>)

  datatype Submission = Rejected | Upload(platform: string, version: string, requirements: string, bytes: nat)

  /** `submitNewVersion`: no upload without a file and a version number. */
  function SubmitNewVersion(data: NewVersion): (s: Submission)
    ensures s == Rejected <==> data.fileBytes.None? || data.version == ""
    ensures s.Upload? ==> s == Upload(data.platform, data.version, data.requirements, data.fileBytes.value)
  {
    if data.fileBytes.None? || data.version == "" then Rejected
    else Upload(data.platform, data.version, data.requirements, data.fileBytes.value)
  }

  /** Through the form, the typed version is always the one stored; the "1.0.0" fallback is never used. */
  lemma SubmittedVersionKept(data: NewVersion, id: nat, fileUrl: string, releaseDate: string)
    requires SubmitNewVersion(data).Upload?
    ensures var s := SubmitNewVersion(data);
      NewInstaller(id, s.platform, s.version, s.requirements, fileUrl, s.bytes, releaseDate).version == data.version
  {
  }
}
