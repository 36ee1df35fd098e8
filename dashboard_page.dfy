/**
 * The signed-in user's home (WebInterface/src/pages/Dashboard.jsx): the plan
 * badge, the days left on the subscription and the five most recently
 * opened projects.
 */
module DashboardPage {
  import opened Wrappers
  import opened Text
  import opened Seqs
  import opened Calendar
  import opened AdminPage
  import opened DownloadsPage
  import opened ProjectsPage

  /** The user's records with status "active", in store order. */
  function ActiveFor(email: string): Subscription -> bool {
    (s: Subscription) => s.userEmail == email && s.status == "active"
  }

  /** `Subscription.filter({ user_email, status: 'active' })[0] || null`; no query without an email. */
  function CurrentSubscription(store: seq<Subscription>, email: Option<string>): (r: Option<Subscription>)
    ensures email.None? || email.value == "" ==> r.None?
    ensures r.Some? ==> r.value in store && r.value.status == "active" && r.value.userEmail == email.value
  {
    if email.None? || email.value == "" then None
    else
      var subs := Filter(store, ActiveFor(email.value));
      if subs == [] then None else Some(subs[0])
  }

  predicate BelongsTo(email: string, s: Subscription) {
    s.userEmail == email
  }

  /**
   * The dashboard and the download page settle on the same subscription:
   * the first active record of the user.
   */
  lemma SameSubscriptionAsDownloads(store: seq<Subscription>, email: string)
    requires email != ""
    ensures CurrentSubscription(store, Some(email)) == ActiveSubscription(Filter(store, s => BelongsTo(email, s)))
  {
    var mine := Filter(store, s => BelongsTo(email, s));
    FilterHeadIsFind(store, ActiveFor(email));
    FindOfFilter(store, s => BelongsTo(email, s), IsActiveSubscription, ActiveFor(email));
  }

  /** Milliseconds in a day. */
  const DayMs: int := 86400000

  /**
   * date-fns `differenceInDays(end, now)`, where `end` is midnight of an end
   * date and `now` is `msOfDay` milliseconds into `today`: the number of
   * whole days between the two instants, rounded toward zero.
   */
  function FullDaysUntil(today: Date, msOfDay: int, end: Date): (days: int)
    requires Valid(today) && Valid(end) && 0 <= msOfDay < DayMs
    ensures DaysBetween(today, end) - 1 <= days <= DaysBetween(today, end)
  {
    TruncDiv(DaysBetween(today, end) * DayMs - msOfDay, DayMs)
  }

  /**
   * Once the day has begun, an end date still ahead counts one day fewer
   * than the calendar days to it; one today or behind counts its calendar days.
   */
  lemma FullDaysCases(today: Date, msOfDay: int, end: Date)
    requires Valid(today) && Valid(end) && 0 <= msOfDay < DayMs
    ensures FullDaysUntil(today, msOfDay, end)
         == if msOfDay > 0 && DaysBetween(today, end) > 0 then DaysBetween(today, end) - 1 else DaysBetween(today, end)
  {
  }

  /**
   * `getDaysRemaining`, at `msOfDay` milliseconds into `today`: none without
   * a subscription or an end date, otherwise the whole days until the end
   * date's midnight.
   */
  function DaysRemaining(subscription: Option<Subscription>, today: Date, msOfDay: int): (r: Option<int>)
    requires Valid(today) && 0 <= msOfDay < DayMs
    ensures r.Some? <==> subscription.Some? && subscription.value.endDate.Some? && Valid(subscription.value.endDate.value)
    ensures r.Some? ==> r.value == FullDaysUntil(today, msOfDay, subscription.value.endDate.value)
  {
    if subscription.None? || subscription.value.endDate.None? then None
    else if !Valid(subscription.value.endDate.value) then None
    else Some(FullDaysUntil(today, msOfDay, subscription.value.endDate.value))
  }

  /** A trial created today shows three days left at midnight, and two for the rest of the day. */
  lemma FreshTrialDays(email: string, notes: string, today: Date, msOfDay: int)
    requires Valid(today) && 0 <= msOfDay < DayMs
    ensures DaysRemaining(Some(CreateSubscription(SubscriptionForm(email, "trial", 0, notes), today)), today, msOfDay)
         == Some(if msOfDay == 0 then 3 else 2)
  {
    AddDaysNumber(today, 3);
    FullDaysCases(today, msOfDay, AddDays(today, 3));
  }

  datatype Badge = Badge(text: string, colour: string)

  /** `getSubscriptionBadge`. */
  function SubscriptionBadge(subscription: Option<Subscription>): (b: Badge)
    ensures subscription.None? <==> b.text == "No Active Subscription"
    ensures subscription.Some? ==> var t := subscription.value.subscriptionType;
      && (t == "trial" <==> b.text == "Free Trial")
      && (t == "yearly" <==> b.text == "Yearly Plan")
      && (t == "multi_year" <==> b.text == "Multi-Year Plan")
      && (t == "charity" <==> b.text == "Charity License")
      && (t !in {"trial", "yearly", "multi_year", "charity"} <==> b.text == "Custom Plan")
  {
    if subscription.None? then Badge("No Active Subscription", "bg-slate-700")
    else
      var t := subscription.value.subscriptionType;
      if t == "trial" then Badge("Free Trial", "bg-blue-600")
      else if t == "yearly" then Badge("Yearly Plan", "bg-indigo-600")
      else if t == "multi_year" then Badge("Multi-Year Plan", "bg-purple-600")
      else if t == "charity" then Badge("Charity License", "bg-green-600")
      else Badge("Custom Plan", "bg-indigo-600")
  }

  function LastOpened(p: ProjectRecord): int {
    p.lastOpened
  }

  /** `Project.list('-last_opened', 5)`: the five most recently opened projects,
      most recent first. */
  function RecentProjects(store: seq<ProjectRecord>): (r: seq<ProjectRecord>)
    ensures |r| == if |store| < 5 then |store| else 5
    ensures Descending(r, LastOpened)
    ensures forall i :: 0 <= i < |r| ==> r[i] in store
    ensures multiset(r) <= multiset(store)
    ensures forall q :: q in multiset(store) - multiset(r) ==>
      forall i :: 0 <= i < |r| ==> LastOpened(q) <= LastOpened(r[i])
  {
    var sorted := SortDescending(store, LastOpened);
    TopFive(store, sorted);
    Take(sorted, 5)
  }

  /** What taking the first five of the store, sorted by last opening, gives. */
  lemma TopFive(store: seq<ProjectRecord>, sorted: seq<ProjectRecord>)
    requires Descending(sorted, LastOpened) && multiset(sorted) == multiset(store)
    ensures |Take(sorted, 5)| == if |store| < 5 then |store| else 5
    ensures Descending(Take(sorted, 5), LastOpened)
    ensures forall i :: 0 <= i < |Take(sorted, 5)| ==> Take(sorted, 5)[i] in store
    ensures multiset(Take(sorted, 5)) <= multiset(store)
    ensures forall q :: q in multiset(store) - multiset(Take(sorted, 5)) ==>
      forall i :: 0 <= i < |Take(sorted, 5)| ==> LastOpened(q) <= LastOpened(Take(sorted, 5)[i])
  {
    TakeTopOfDescending(sorted, LastOpened, 5);
    var top := Take(sorted, 5);
    assert |sorted| == |multiset(sorted)| == |store|;
    forall i | 0 <= i < |top| ensures top[i] in store {
      assert top[i] in multiset(top);
    }
  }
}
