/**
 * The installer download page (WebInterface/src/pages/Downloads.jsx): the
 * signed-in user's active subscription, the active installer of each
 * platform, the version shown in the header, and what a download click does.
 */
module DownloadsPage {
  import opened Wrappers
  import opened Seqs
  import opened Calendar
  import opened AdminPage

  predicate IsActiveSubscription(s: Subscription) {
    s.status == "active"
  }

  /** `subs.find(s => s.status === 'active')`: the subscription the page keeps. */
  function ActiveSubscription(subs: seq<Subscription>): (r: Option<Subscription>)
    ensures r.Some? ==> r.value in subs && r.value.status == "active"
    ensures r.Some? ==> exists i :: (0 <= i < |subs| && subs[i] == r.value
      && forall j :: 0 <= j < i ==> subs[j].status != "active")
  {
    Find(subs, IsActiveSubscription)
  }

  /** `hasActiveSubscription`. */
  function HasActiveSubscription(subscription: Option<Subscription>): bool {
    subscription.Some? && subscription.value.status == "active"
  }

  /** The download buttons unlock exactly when one of the user's subscriptions is active. */
  lemma UnlockedIffSomeActive(subs: seq<Subscription>)
    ensures HasActiveSubscription(ActiveSubscription(subs)) <==> exists i :: 0 <= i < |subs| && subs[i].status == "active"
  {
  }

  predicate IsActiveFile(f: DownloadFile) {
    f.isActive
  }

  /** `DownloadFile.filter({ is_active: true })`. */
  function LoadDownloadFiles(store: seq<DownloadFile>): (files: seq<DownloadFile>)
    ensures forall i :: 0 <= i < |files| ==> files[i].isActive && files[i] in store
    ensures forall i :: 0 <= i < |store| && store[i].isActive ==> store[i] in files
  {
    Filter(store, IsActiveFile)
  }

  /** The header version: the first file's, or "1.0.0" when there is none or it is empty. */
  function CurrentVersion(files: seq<DownloadFile>): (v: string)
    ensures files == [] ==> v == "1.0.0"
    ensures files != [] && files[0].version != "" ==> v == files[0].version
    ensures v != ""
  {
    if files != [] && files[0].version != "" then files[0].version else "1.0.0"
  }

  /** The header release date: the first file's, or "January 2026". */
  function ReleaseDate(files: seq<DownloadFile>): (d: string)
    ensures files == [] ==> d == "January 2026"
    ensures files != [] && files[0].releaseDate != "" ==> d == files[0].releaseDate
    ensures d != ""
  {
    if files != [] && files[0].releaseDate != "" then files[0].releaseDate else "January 2026"
  }

  /** The usage record a tracked download creates. */
  datatype UsageEvent = UsageEvent(userEmail: string, actionType: string, platform: string, version: string)

  /** What a click on a platform's download button does. */
  /**
   * What a click leads to. `Stopped` is a handler that threw on a store call:
   * the browser stays on the page, and `files` holds the writes made before.
   */
  datatype ClickEffect =
    | RedirectToLogin
    | StartDownload(url: string, files: seq<DownloadFile>, logged: Option<UsageEvent>)
    | Stopped(files: seq<DownloadFile>)

  /** `(file.download_count || 0) + 1` written to every record with that id. */
  function CountDownload(files: seq<DownloadFile>, id: nat): (r: seq<DownloadFile>)
    ensures |r| == |files|
    ensures forall i :: 0 <= i < |files| ==> r[i] == if files[i].id == id
      then files[i].(downloadCount := Some(files[i].downloadCount.GetOr(0) + 1)) else files[i]
  {
    seq(|files|, i requires 0 <= i < |files| =>
      if files[i].id == id then files[i].(downloadCount := Some(files[i].downloadCount.GetOr(0) + 1)) else files[i])
  }

  /**
   * The download button's handler. Without an active subscription it only
   * sends the user to the login page. With one, the platform's first active
   * file has its download count raised by one and a "download_daw" event is
   * logged, and then the browser goes to the installer's address; with no
   * such file it goes there straight away. The two store calls are numbered
   * 0 (the count) and 1 (the event); `failAt`, when present, is the one that
   * throws, and the handler stops there without redirecting.
   */
  function Click(files: seq<DownloadFile>, subscribed: bool, userEmail: string,
                 platform: string, version: string, url: string, failAt: Option<nat>): (e: ClickEffect)
    ensures !subscribed <==> e == RedirectToLogin
    ensures e.Stopped? <==> subscribed && (exists i :: 0 <= i < |files| && files[i].platform == platform && files[i].isActive)
                             && failAt.Some? && failAt.value <= 1
    ensures e.Stopped? && failAt == Some(0) ==> e.files == files
    ensures e.StartDownload? ==> e.url == url
    ensures e.StartDownload? ==> (e.logged.Some? <==> exists i :: 0 <= i < |files| && files[i].platform == platform && files[i].isActive)
    ensures e.StartDownload? && e.logged.Some? ==> e.logged.value == UsageEvent(userEmail, "download_daw", platform, version)
    ensures e.StartDownload? && e.logged.None? ==> e.files == files
  {
    if !subscribed then RedirectToLogin
    else
      match Find(files, (f: DownloadFile) => f.platform == platform && f.isActive)
      case Some(file) =>
        if failAt == Some(0) then Stopped(files)
        else if failAt == Some(1) then Stopped(CountDownload(files, file.id))
        else StartDownload(url, CountDownload(files, file.id), Some(UsageEvent(userEmail, "download_daw", platform, version)))
      case None => StartDownload(url, files, None)
  }

  /**
   * A subscribed click on a platform with one active file adds exactly one to
   * that file's counter and changes nothing else, unless the count update
   * itself throws; it stops short of the download exactly when the event
   * cannot be logged.
   */
  lemma ClickCountsOnce(files: seq<DownloadFile>, userEmail: string, platform: string, version: string, url: string,
                        failAt: Option<nat>, k: nat)
    requires UniqueIds(files)
    requires k < |files| && files[k].platform == platform && files[k].isActive
    requires forall j :: 0 <= j < |files| && j != k ==> !(files[j].platform == platform && files[j].isActive)
    requires failAt != Some(0)
    ensures var e := Click(files, true, userEmail, platform, version, url, failAt);
      && !e.RedirectToLogin? && |e.files| == |files|
      && (e.Stopped? <==> failAt == Some(1))
      && e.files[k].downloadCount == Some(files[k].downloadCount.GetOr(0) + 1)
      && e.files[k] == files[k].(downloadCount := e.files[k].downloadCount)
      && forall j :: 0 <= j < |files| && j != k ==> e.files[j] == files[j]
  {
    var r := Find(files, (f: DownloadFile) => f.platform == platform && f.isActive);
    assert r == Some(files[k]);
  }

}
