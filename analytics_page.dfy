/**
 * The usage-analytics page: headline statistics over the recorded actions,
 * the per-type breakdown, the per-day activity chart, the latest reading of
 * each system-health metric and the recent-activity list.
 */
module AnalyticsPage {
  import opened Wrappers
  import opened Seqs
  import opened Counting
  import opened Calendar

  /** A `UsageAnalytics` record; `created` is the calendar day of its `created_date`. */
  datatype UsageRecord = UsageRecord(
    actionType: string,
    userEmail: string,
    success: bool,
    processingSeconds: Option<nat>,
    created: Date)

  /** A `SystemHealth` record; `createdAt` is its `created_date` as a timestamp. */
  datatype HealthMetric = HealthMetric(metricName: string, value: int, createdAt: int)

  datatype User = User(email: string, role: string)

  /** The chart span; the page never changes it from its initial value. */
  const DefaultDateRange: nat := 7

  /** How many actions the recent-activity list shows. */
  const RecentLimit: nat := 10

  function Succeeded(a: UsageRecord): bool {
    a.success
  }

  /** `successRate`: the percentage of successful actions, 0 when there are none. */
  function SuccessRate(analytics: seq<UsageRecord>): (rate: real)
    ensures analytics == [] ==> rate == 0.0
    ensures 0.0 <= rate <= 100.0
    ensures analytics != [] ==> (rate == 100.0 <==> forall i :: 0 <= i < |analytics| ==> analytics[i].success)
    ensures rate == 0.0 <==> forall i :: 0 <= i < |analytics| ==> !analytics[i].success
  {
    if |analytics| == 0 then 0.0
    else
      SuccessCount(analytics);
      Percentage(|Filter(analytics, Succeeded)|, |analytics|);
      (|Filter(analytics, Succeeded)| as real) / (|analytics| as real) * 100.0
  }

  /** The successful actions number between none and all, and reach either bound exactly when every action agrees. */
  lemma SuccessCount(analytics: seq<UsageRecord>)
    ensures |Filter(analytics, Succeeded)| <= |analytics|
    ensures |Filter(analytics, Succeeded)| == |analytics| <==> forall i :: 0 <= i < |analytics| ==> analytics[i].success
    ensures |Filter(analytics, Succeeded)| == 0 <==> forall i :: 0 <= i < |analytics| ==> !analytics[i].success
  {
    var ok := Filter(analytics, Succeeded);
    if forall i :: 0 <= i < |analytics| ==> analytics[i].success {
      FilterAll(analytics, Succeeded);
    } else {
      var i :| 0 <= i < |analytics| && !analytics[i].success;
      FilterDrops(analytics, Succeeded, i);
    }
    if forall i :: 0 <= i < |analytics| ==> !analytics[i].success {
      FilterNone(analytics, Succeeded);
    } else {
      var i :| 0 <= i < |analytics| && analytics[i].success;
      assert analytics[i] in ok;
    }
  }

  /** A part of a whole, as a percentage: 0 for none, 100 for all, in between otherwise. */
  lemma Percentage(part: nat, whole: nat)
    requires 0 < whole && part <= whole
    ensures 0.0 <= (part as real) / (whole as real) * 100.0 <= 100.0
    ensures (part as real) / (whole as real) * 100.0 == 100.0 <==> part == whole
    ensures (part as real) / (whole as real) * 100.0 == 0.0 <==> part == 0
  {
    var w, q := whole as real, (part as real) / (whole as real);
    assert q * w == part as real;
    if part == whole {
      assert q == 1.0;
    } else if part == 0 {
      assert q == 0.0;
    } else {
      // Strictly between none and all: the quotient is strictly between 0 and 1.
      ScaledBetween(q, w);
    }
  }

  /** A positive scale keeps a product strictly between 0 and the scale only for factors strictly between 0 and 1. */
  lemma ScaledBetween(q: real, w: real)
    requires 0.0 < w
    ensures 0.0 < q * w ==> 0.0 < q
    ensures q * w < w ==> q < 1.0
  {
    assert (q - 1.0) * w == q * w - w;
  }

  function ProcessingSeconds(a: UsageRecord): int {
    a.processingSeconds.GetOr(0)
  }

  /** `avgProcessingTime`: the mean processing time, a missing time counting 0, and 0 when there are no actions. */
  function AverageProcessingTime(analytics: seq<UsageRecord>): (avg: real)
    ensures analytics == [] ==> avg == 0.0
    ensures avg >= 0.0
    ensures avg * (|analytics| as real) == Sum(analytics, ProcessingSeconds) as real
  {
    SumNonNegative(analytics, ProcessingSeconds);
    if |analytics| == 0 then 0.0
    else (Sum(analytics, ProcessingSeconds) as real) / (|analytics| as real)
  }

  /** When every action took at most `bound` seconds, so does the average. */
  lemma AverageAtMost(analytics: seq<UsageRecord>, bound: nat)
    requires forall i :: 0 <= i < |analytics| ==> ProcessingSeconds(analytics[i]) <= bound
    ensures AverageProcessingTime(analytics) <= bound as real
  {
    SumAtMost(analytics, ProcessingSeconds, bound);
    var n := |analytics| as real;
    if n > 0.0 {
      var avg := AverageProcessingTime(analytics);
      assert avg * n <= (bound as real) * n;
    }
  }

  function ActionTypes(analytics: seq<UsageRecord>): (keys: seq<string>)
    ensures |keys| == |analytics|
    ensures forall i :: 0 <= i < |analytics| ==> keys[i] == analytics[i].actionType
  {
    seq(|analytics|, i requires 0 <= i < |analytics| => analytics[i].actionType)
  }

  /** `actionsByType`: the counting `reduce`, one update of the accumulator per action. */
  method ActionsByType(analytics: seq<UsageRecord>) returns (byType: map<string, nat>)
    ensures byType == Tally(ActionTypes(analytics))
  {
    byType := map[];
    for i := 0 to |analytics|
      invariant byType == Tally(ActionTypes(analytics[..i]))
    {
      var k := analytics[i].actionType;
      assert ActionTypes(analytics[..i + 1])[..i] == ActionTypes(analytics[..i]);
      byType := byType[k := Count(byType, k) + 1];
    }
    assert analytics[..|analytics|] == analytics;
  }

  /** The per-type counts add up to the number of actions, for any list naming each type once. */
  lemma ActionsByTypeTotal(analytics: seq<UsageRecord>, types: seq<string>)
    requires Distinct(types)
    requires forall i :: 0 <= i < |analytics| ==> analytics[i].actionType in types
    ensures TotalOver(Tally(ActionTypes(analytics)), types) == |analytics|
  {
    TallyTotal(ActionTypes(analytics), types);
  }

  /** One point of the activity chart: a `MM/dd` label and the number of actions on that label. */
  type Label = (int, int)

  datatype DayCount = DayCount(date: Label, count: nat)

  function OnLabel(l: Label): UsageRecord -> bool {
    (a: UsageRecord) => MonthDay(a.created) == l
  }

  function PointFor(analytics: seq<UsageRecord>, day: Date): DayCount {
    DayCount(MonthDay(day), |Filter(analytics, OnLabel(MonthDay(day)))|)
  }

  /** The day of the `k`-th chart point: `dateRange - 1 - k` days before today. */
  function ChartDay(today: Date, dateRange: nat, k: nat): Date
    requires Valid(today) && k < dateRange
  {
    SubDays(today, dateRange - 1 - k)
  }

  /** `actionsOverTime`: one point per day of the range, built from the oldest day forward. */
  method ActionsOverTime(analytics: seq<UsageRecord>, today: Date, dateRange: nat) returns (points: seq<DayCount>)
    requires Valid(today)
    ensures |points| == dateRange
    ensures forall k :: 0 <= k < dateRange ==> points[k] == PointFor(analytics, ChartDay(today, dateRange, k))
  {
    points := [];
    var i: int := dateRange - 1;
    while i >= 0
      invariant -1 <= i < dateRange
      invariant |points| == dateRange - 1 - i
      invariant forall k :: 0 <= k < |points| ==> points[k] == PointFor(analytics, ChartDay(today, dateRange, k))
    {
      var day := SubDays(today, i);
      var date := MonthDay(day);
      var count := |Filter(analytics, OnLabel(date))|;
      points := points + [DayCount(date, count)];
      i := i - 1;
    }
  }

  /** The chart runs over consecutive days, oldest first, and ends today. */
  lemma ChartDaysConsecutive(today: Date, dateRange: nat, k: nat)
    requires Valid(today) && k + 1 < dateRange
    ensures DaysBetween(ChartDay(today, dateRange, k), ChartDay(today, dateRange, k + 1)) == 1
    ensures ChartDay(today, dateRange, dateRange - 1) == today
  {
    SubDaysNumber(today, dateRange - 1 - k);
    SubDaysNumber(today, dateRange - 2 - k);
  }

  /**
   * Points are matched on month and day only: an action from the same date a year
   * earlier is counted in today's point.
   */
  lemma SameDateOtherYearCounted(analytics: seq<UsageRecord>, today: Date, dateRange: nat, i: nat)
    requires Valid(today) && dateRange > 0
    requires i < |analytics| && analytics[i].created == Date(today.year - 1, today.month, today.day)
    ensures analytics[i] in Filter(analytics, OnLabel(PointFor(analytics, ChartDay(today, dateRange, dateRange - 1)).date))
  {
  }

  /** `latestHealth`: for each metric name, the record with the greatest timestamp, the first one on ties. */
  function LatestMap(metrics: seq<HealthMetric>): (latest: map<string, HealthMetric>)
    ensures forall k :: k in latest ==> latest[k].metricName == k
    decreases |metrics|
  {
    if metrics == [] then map[]
    else
      var m := LatestMap(metrics[..|metrics| - 1]);
      var x := metrics[|metrics| - 1];
      if x.metricName !in m || x.createdAt > m[x.metricName].createdAt then m[x.metricName := x] else m
  }

  /** The accumulating `reduce` over the health records. */
  method LatestHealth(metrics: seq<HealthMetric>) returns (latest: map<string, HealthMetric>)
    ensures latest == LatestMap(metrics)
  {
    latest := map[];
    for i := 0 to |metrics|
      invariant latest == LatestMap(metrics[..i])
    {
      var metric := metrics[i];
      assert metrics[..i + 1][..i] == metrics[..i];
      if metric.metricName !in latest || metric.createdAt > latest[metric.metricName].createdAt {
        latest := latest[metric.metricName := metric];
      }
    }
    assert metrics[..|metrics|] == metrics;
  }

  /** Every record of `name` before position `i` is strictly older than the record at `i`. */
  predicate OlderBefore(metrics: seq<HealthMetric>, name: string, i: nat)
    requires i < |metrics|
  {
    forall j :: 0 <= j < i && metrics[j].metricName == name ==> metrics[j].createdAt < metrics[i].createdAt
  }

  /** `kept` is one of the records, and every earlier record of `name` is strictly older than it. */
  predicate FirstNewest(metrics: seq<HealthMetric>, name: string, kept: HealthMetric) {
    exists i :: 0 <= i < |metrics| && metrics[i] == kept && OlderBefore(metrics, name, i)
  }

  /** Appending a record keeps what held for an earlier position. */
  lemma FirstNewestGrows(init: seq<HealthMetric>, x: HealthMetric, name: string, kept: HealthMetric)
    requires FirstNewest(init, name, kept)
    ensures FirstNewest(init + [x], name, kept)
  {
    var metrics := init + [x];
    var i :| 0 <= i < |init| && init[i] == kept && OlderBefore(init, name, i);
    assert metrics[i] == kept;
    forall j | 0 <= j < i && metrics[j].metricName == name ensures metrics[j].createdAt < metrics[i].createdAt {
      assert init[j] == metrics[j];
    }
    assert OlderBefore(metrics, name, i);
  }

  /** Every metric name that occurs is kept, and no record of that name is newer than the kept one. */
  lemma {:induction false} LatestKeepsEveryName(metrics: seq<HealthMetric>)
    ensures forall i :: 0 <= i < |metrics| ==>
      metrics[i].metricName in LatestMap(metrics)
      && metrics[i].createdAt <= LatestMap(metrics)[metrics[i].metricName].createdAt
    decreases |metrics|
  {
    if metrics != [] {
      var init := metrics[..|metrics| - 1];
      LatestKeepsEveryName(init);
      var m' := LatestMap(metrics);
      forall i | 0 <= i < |metrics|
        ensures metrics[i].metricName in m' && metrics[i].createdAt <= m'[metrics[i].metricName].createdAt
      {
        if i < |init| {
          assert metrics[i] == init[i];
        }
      }
    }
  }

  /** Each kept record is one of the records, and every earlier record of its name is strictly older. */
  lemma {:induction false} LatestKeepsFirstNewest(metrics: seq<HealthMetric>)
    ensures forall k :: k in LatestMap(metrics) ==> FirstNewest(metrics, k, LatestMap(metrics)[k])
    decreases |metrics|
  {
    if metrics != [] {
      var init := metrics[..|metrics| - 1];
      LatestKeepsFirstNewest(init);
      LatestKeepsEveryName(init);
      var m, m' := LatestMap(init), LatestMap(metrics);
      var x := metrics[|metrics| - 1];
      assert metrics == init + [x];
      forall k | k in m' ensures FirstNewest(metrics, k, m'[k]) {
        if k == x.metricName && (k !in m || x.createdAt > m[k].createdAt) {
          var i := |metrics| - 1;
          forall j | 0 <= j < i && metrics[j].metricName == k ensures metrics[j].createdAt < metrics[i].createdAt {
            assert init[j] == metrics[j];
          }
          assert OlderBefore(metrics, k, i);
        } else {
          FirstNewestGrows(init, x, k, m[k]);
        }
      }
    }
  }

  /**
   * Every metric name that occurs is kept; its kept record is one of the records, no
   * record of that name is newer, and every earlier record of that name is strictly older.
   */
  lemma LatestIsNewestFirst(metrics: seq<HealthMetric>)
    ensures forall i :: 0 <= i < |metrics| ==>
      metrics[i].metricName in LatestMap(metrics)
      && metrics[i].createdAt <= LatestMap(metrics)[metrics[i].metricName].createdAt
    ensures forall k :: k in LatestMap(metrics) ==> FirstNewest(metrics, k, LatestMap(metrics)[k])
  {
    LatestKeepsEveryName(metrics);
    LatestKeepsFirstNewest(metrics);
  }

  /** `analytics.slice(0, 10)`: the newest ten actions of a newest-first list. */
  function RecentActivity(analytics: seq<UsageRecord>): (recent: seq<UsageRecord>)
    ensures |recent| <= RecentLimit && |recent| <= |analytics|
    ensures |analytics| >= RecentLimit ==> |recent| == RecentLimit
    ensures recent == analytics[..|recent|]
  {
    Take(analytics, RecentLimit)
  }

  /** The user list: everyone for an administrator, nobody otherwise. */
  function UserList(currentRole: Option<string>, allUsers: seq<User>): (users: seq<User>)
    ensures currentRole != Some("admin") ==> users == []
    ensures currentRole == Some("admin") ==> users == allUsers
  {
    if currentRole == Some("admin") then allUsers else []
  }
}
