/**
 * Dashboard metrics and recommendations (server/controllers/metricsController.js).
 * The database counts are inputs; dates are whole UTC days counted from
 * 1970-01-01, and the referrals handed to the trend tally are those the
 * 84-day window already selected.
 */
module Metrics {
  import opened Wrappers
  import opened Http
  import opened ReferralModel

  /** `req.user?.tenantId || req.tenant?.tenantId`: the first present, non-zero id. */
  function TenantIdOf(userTenantId: Option<int>, contextTenantId: Option<int>): (r: Option<int>)
    ensures r.Some? ==> r.value != 0
    ensures r.None? <==> (userTenantId.None? || userTenantId.value == 0) && (contextTenantId.None? || contextTenantId.value == 0)
    ensures userTenantId.Some? && userTenantId.value != 0 ==> r == userTenantId
  {
    if userTenantId.Some? && userTenantId.value != 0 then userTenantId
    else if contextTenantId.Some? && contextTenantId.value != 0 then contextTenantId
    else None
  }

  // ---------------------------------------------------------- conversion

  /**
   * `Math.round(usedCount / totalReferrals * 100)`, or 0 without referrals:
   * the percentage rounded to the nearest integer, halves upwards.
   */
  function ConversionRate(used: nat, total: nat): (rate: nat)
    ensures total == 0 ==> rate == 0
    ensures total > 0 ==> -(total as int) <= 200 * used - 2 * total * rate < total
  {
    if total == 0 then 0 else (200 * used + total) / (2 * total)
  }

  /** While used referrals do not outnumber all referrals the rate is a percentage. */
  lemma ConversionRateAtMost100(used: nat, total: nat)
    requires used <= total
    ensures ConversionRate(used, total) <= 100
  {
    var rate := ConversionRate(used, total);
    if total > 0 && rate > 100 {
      assert 2 * total * rate >= 2 * total * 101 by {
        MulMono(2 * total, 101, rate);
      }
      assert false;
    }
  }

  /** More used referrals never lower the rate. */
  lemma ConversionRateMonotone(u1: nat, u2: nat, total: nat)
    requires u1 <= u2
    ensures ConversionRate(u1, total) <= ConversionRate(u2, total)
  {
    var r1, r2 := ConversionRate(u1, total), ConversionRate(u2, total);
    if total > 0 && r1 > r2 {
      assert 2 * total * r1 >= 2 * total * (r2 + 1) by {
        MulMono(2 * total, r2 + 1, r1);
      }
      assert false;
    }
  }

  lemma MulMono(k: nat, a: nat, b: nat)
    requires a <= b
    ensures k * a <= k * b
  {
  }

  // ------------------------------------------------------------- weeks

  /** `getUTCDay()` of day `d` (1970-01-01 was a Thursday): 0 is Sunday, 1 Monday, … 6 Saturday. */
  function WeekDay(d: int): (w: int)
    ensures 0 <= w < 7
  {
    (d + 4) % 7
  }

  /** The week key: the Monday on or before day `d`; a Sunday goes back six days. */
  function WeekStart(d: int): (m: int)
    ensures WeekDay(m) == 1 && m <= d < m + 7
    ensures WeekDay(d) == 0 ==> m == d - 6
    ensures WeekDay(d) != 0 ==> m == d - (WeekDay(d) - 1)
  {
    var day := WeekDay(d);
    var q := (d + 4) / 7;
    assert d + 4 == 7 * q + day;
    if day == 0 then
      assert d - 6 + 4 == 7 * (q - 1) + 1;
      d - 6
    else
      assert d - (day - 1) + 4 == 7 * q + 1;
      d - (day - 1)
  }

  /** Every day of a Monday-to-Sunday week lands in that week's bucket. */
  lemma SameWeekSameKey(d: int, e: int)
    requires WeekStart(d) <= e < WeekStart(d) + 7
    ensures WeekStart(e) == WeekStart(d)
  {
    var m := WeekStart(d);
    var q := (m + 4) / 7;
    assert m + 4 == 7 * q + 1;
    var k := e - m;
    if k < 6 {
      assert e + 4 == 7 * q + (1 + k);
      assert WeekDay(e) == 1 + k;
    } else {
      assert e + 4 == 7 * (q + 1);
      assert WeekDay(e) == 0;
    }
  }

  // ------------------------------------------------------------ trends

  /** A referral as the trend query returns it: its status, its creation day and how many estimates it has. */
  datatype TrendReferral = TrendReferral(status: Status, createdDay: int, estimateCount: nat)

  datatype Bucket = OpenBucket | UsedBucket | ClosedBucket

  /** Closed if the status is Closed, else used if it has an estimate, else open. */
  function BucketOf(r: TrendReferral): Bucket {
    if r.status == Closed then ClosedBucket else if r.estimateCount > 0 then UsedBucket else OpenBucket
  }

  datatype Counts = Counts(open: nat, used: nat, closed: nat)

  /** How many referrals of `s` fall in week `week` and bucket `b`. */
  function CountIn(s: seq<TrendReferral>, week: int, b: Bucket): nat {
    if s == [] then 0
    else CountIn(s[..|s| - 1], week, b)
         + (if WeekStart(s[|s| - 1].createdDay) == week && BucketOf(s[|s| - 1]) == b then 1 else 0)
  }

  /** How many referrals of `s` fall in week `week`. */
  function InWeek(s: seq<TrendReferral>, week: int): nat {
    if s == [] then 0
    else InWeek(s[..|s| - 1], week) + (if WeekStart(s[|s| - 1].createdDay) == week then 1 else 0)
  }

  /** The tally the `forEach` loop must produce for week `week`. */
  function WeekCounts(s: seq<TrendReferral>, week: int): Counts {
    Counts(CountIn(s, week, OpenBucket), CountIn(s, week, UsedBucket), CountIn(s, week, ClosedBucket))
  }

  /** Each referral is counted in exactly one bucket of its week. */
  lemma {:induction false} BucketsPartitionWeek(s: seq<TrendReferral>, week: int)
    ensures CountIn(s, week, OpenBucket) + CountIn(s, week, UsedBucket) + CountIn(s, week, ClosedBucket) == InWeek(s, week)
    decreases |s|
  {
    if s != [] {
      BucketsPartitionWeek(s[..|s| - 1], week);
    }
  }

  /** A week appears in the tally exactly when some referral was created in it. */
  predicate HasWeek(s: seq<TrendReferral>, week: int) {
    exists i :: 0 <= i < |s| && WeekStart(s[i].createdDay) == week
  }

  /** The `trendMap` loop: one bucket per week of creation, one increment per referral. */
  method TallyTrends(refs: seq<TrendReferral>) returns (trendMap: map<int, Counts>, weeks: seq<int>)
    ensures forall w :: w in trendMap <==> HasWeek(refs, w)
    ensures forall w :: w in trendMap ==> trendMap[w] == WeekCounts(refs, w)
    ensures forall w :: w in weeks <==> w in trendMap
    ensures forall i, j :: 0 <= i < j < |weeks| ==> weeks[i] != weeks[j]
  {
    trendMap, weeks := map[], [];
    var k := 0;
    while k < |refs|
      invariant 0 <= k <= |refs|
      invariant forall w :: w in trendMap <==> HasWeek(refs[..k], w)
      invariant forall w :: w in trendMap ==> trendMap[w] == WeekCounts(refs[..k], w)
      invariant forall w :: w in weeks <==> w in trendMap
      invariant forall i, j :: 0 <= i < j < |weeks| ==> weeks[i] != weeks[j]
    {
      var r := refs[k];
      var week := WeekStart(r.createdDay);
      ghost var done := refs[..k + 1];
      assert done[..k] == refs[..k] && done[k] == r;
      if week !in trendMap {
        assert !HasWeek(refs[..k], week);
        assert WeekCounts(refs[..k], week) == Counts(0, 0, 0) by {
          NoWeekNoCounts(refs[..k], week);
        }
        trendMap := trendMap[week := Counts(0, 0, 0)];
        weeks := weeks + [week];
      }
      var c := trendMap[week];
      if r.status == Closed {
        trendMap := trendMap[week := c.(closed := c.closed + 1)];
      } else if r.estimateCount > 0 {
        trendMap := trendMap[week := c.(used := c.used + 1)];
      } else {
        trendMap := trendMap[week := c.(open := c.open + 1)];
      }
      forall w ensures w in trendMap <==> HasWeek(done, w) {
        if HasWeek(done, w) && w != week {
          var i :| 0 <= i < |done| && WeekStart(done[i].createdDay) == w;
          assert i < k && refs[..k][i] == done[i];
        }
        if w in trendMap && w != week {
          var i :| 0 <= i < k && WeekStart(refs[..k][i].createdDay) == w;
          assert done[i] == refs[..k][i];
        }
      }
      k := k + 1;
    }
    assert refs[..k] == refs;
  }

  lemma {:induction false} NoWeekNoCounts(s: seq<TrendReferral>, week: int)
    requires !HasWeek(s, week)
    ensures WeekCounts(s, week) == Counts(0, 0, 0)
    decreases |s|
  {
    if s != [] {
      var p := s[..|s| - 1];
      NoWeekNoCounts(p, week);
      assert WeekStart(s[|s| - 1].createdDay) != week;
    }
  }

  datatype Trend = Trend(weekStart: int, counts: Counts)

  predicate StrictlyAscending(t: seq<Trend>) {
    forall i, j :: 0 <= i < j < |t| ==> t[i].weekStart < t[j].weekStart
  }

  /** The entries of `trendMap` in the order `weeks` lists their keys. */
  function Entries(trendMap: map<int, Counts>, weeks: seq<int>): (t: seq<Trend>)
    requires forall i :: 0 <= i < |weeks| ==> weeks[i] in trendMap
    ensures |t| == |weeks|
    ensures forall i :: 0 <= i < |weeks| ==> t[i] == Trend(weeks[i], trendMap[weeks[i]])
  {
    seq(|weeks|, i requires 0 <= i < |weeks| => Trend(weeks[i], trendMap[weeks[i]]))
  }

  /** One step of the sort: `x` placed before the first later week. */
  function InsertTrend(t: seq<Trend>, x: Trend): (r: seq<Trend>)
    requires StrictlyAscending(t)
    requires forall y :: y in t ==> y.weekStart != x.weekStart
    ensures StrictlyAscending(r)
    ensures forall y :: y in r <==> y in t || y == x
  {
    if t == [] || x.weekStart < t[0].weekStart then [x] + t
    else
      var rest := InsertTrend(t[1..], x);
      assert forall y :: y in t[1..] ==> y in t;
      assert forall i :: 0 <= i < |rest| ==> rest[i] in rest;
      [t[0]] + rest
  }

  /**
   * `.sort((a, b) => (a[0] < b[0] ? -1 : 1))` on entries with distinct
   * weeks: the same entries, earliest week first.
   */
  function SortTrends(t: seq<Trend>): (r: seq<Trend>)
    requires forall i, j :: 0 <= i < j < |t| ==> t[i].weekStart != t[j].weekStart
    ensures StrictlyAscending(r)
    ensures forall y :: y in r <==> y in t
  {
    if t == [] then []
    else
      assert forall i, j :: 0 <= i < j < |t[1..]| ==> t[1..][i].weekStart != t[1..][j].weekStart;
      var rest := SortTrends(t[1..]);
      assert forall y :: y in rest ==> y.weekStart != t[0].weekStart;
      InsertTrend(rest, t[0])
  }

  // ---------------------------------------------------------- dashboard

  /** The counts the dashboard queries return for the tenant. */
  datatype TenantCounts = TenantCounts(totalReferrals: nat, openCount: nat, closedCount: nat, usedCount: nat, totalEstimates: nat)

  datatype Summary = Summary(
    totalReferrals: nat, openCount: nat, usedCount: nat, closedCount: nat, totalEstimates: nat, conversionRate: nat)

  datatype Dashboard = Dashboard(summary: Summary, trends: seq<Trend>)

  /**
   * `getDashboardMetrics` without the top-referrer and top-reward groupings:
   * 400 without a tenant, otherwise the summary with its conversion rate and
   * the weekly trends in ascending week order.
   */
  method GetDashboardMetrics(userTenantId: Option<int>, contextTenantId: Option<int>, counts: TenantCounts,
                             recent: seq<TrendReferral>) returns (resp: Response<Dashboard>)
    ensures TenantIdOf(userTenantId, contextTenantId).None? ==> resp == Refuse(400, "Tenant context is required")
    ensures TenantIdOf(userTenantId, contextTenantId).Some? ==> resp.Reply? && resp.status == 200
    ensures resp.Reply? ==>
      && resp.body.summary == Summary(counts.totalReferrals, counts.openCount, counts.usedCount, counts.closedCount,
                                      counts.totalEstimates, ConversionRate(counts.usedCount, counts.totalReferrals))
      && StrictlyAscending(resp.body.trends)
      && (forall y :: y in resp.body.trends <==> HasWeek(recent, y.weekStart) && y.counts == WeekCounts(recent, y.weekStart))
  {
    if TenantIdOf(userTenantId, contextTenantId).None? {
      return Refuse(400, "Tenant context is required");
    }
    var rate := ConversionRate(counts.usedCount, counts.totalReferrals);
    var trendMap, weeks := TallyTrends(recent);
    assert forall w :: w in weeks ==> w in trendMap;
    assert forall i :: 0 <= i < |weeks| ==> weeks[i] in weeks;
    var entries := Entries(trendMap, weeks);
    var trends := SortTrends(entries);
    forall y ensures y in trends <==> HasWeek(recent, y.weekStart) && y.counts == WeekCounts(recent, y.weekStart) {
      if y.weekStart in trendMap && y.counts == trendMap[y.weekStart] {
        var i :| 0 <= i < |weeks| && weeks[i] == y.weekStart;
        assert entries[i] == y;
      }
    }
    return Reply(200, Dashboard(Summary(counts.totalReferrals, counts.openCount, counts.usedCount,
                                        counts.closedCount, counts.totalEstimates, rate), trends));
  }

  // ---------------------------------------------------- recommendations

  /** The six recommendations the endpoint can give. */
  datatype Advice = ConfigureRewards | AddClients | SendInvitations | ReviewOpenReferrals | FollowUpEstimates | CustomizeSettings

  datatype Recommendation = Recommendation(id: string, title: string, description: string, actionLabel: string, actionHref: string)

  /** The `id` of each recommendation's card. */
  function CardId(a: Advice): string {
    match a
    case ConfigureRewards => "configure-rewards"
    case AddClients => "add-clients"
    case SendInvitations => "send-invitations"
    case ReviewOpenReferrals => "review-open-referrals"
    case FollowUpEstimates => "follow-up-estimates"
    case CustomizeSettings => "customize-settings"
  }

  /** The object literal pushed for each recommendation. */
  function Card(a: Advice): (r: Recommendation)
    ensures r.id == CardId(a)
  {
    var id := CardId(a);
    match a
    case ConfigureRewards => Recommendation(id, "Configure your rewards",
      "Set up at least one reward so clients have an incentive to refer.", "Add Rewards", "/admin/rewards")
    case AddClients => Recommendation(id, "Add your first clients",
      "Import or add clients so you can send referral invitations.", "Go to Clients", "/admin/clients")
    case SendInvitations => Recommendation(id, "Send invitations to generate referral links",
      "Invite your clients to start sharing referral links.", "Send Invitations", "/admin/clients")
    case ReviewOpenReferrals => Recommendation(id, "Review open referrals",
      "You have open referrals awaiting action.", "View Referrals", "/admin/referrals")
    case FollowUpEstimates => Recommendation(id, "Follow up to capture estimates",
      "Convert referrals into estimates to track performance.", "View Referrals", "/admin/referrals")
    case CustomizeSettings => Recommendation(id, "Customize tenant settings",
      "Update your branding, logo, and email settings.", "Tenant Settings", "/admin/tenants/settings")
  }

  /** The cards sent for a list of recommendations, in the same order. */
  function Cards(recs: seq<Advice>): (cs: seq<Recommendation>)
    ensures |cs| == |recs| && forall i :: 0 <= i < |recs| ==> cs[i] == Card(recs[i])
  {
    seq(|recs|, i requires 0 <= i < |recs| => Card(recs[i]))
  }

  /** Each recommendation's card has its own `id`, so a client can tell the cards apart by it. */
  lemma CardIdsDistinct(a: Advice, b: Advice)
    ensures Card(a).id == Card(b).id <==> a == b
  {
    // The six ids even differ in length.
    if CardId(a) == CardId(b) {
      assert |CardId(a)| == |CardId(b)|;
    }
  }

  /** The position of a recommendation in the order the endpoint pushes them. */
  function Rank(a: Advice): nat {
    match a
    case ConfigureRewards => 0
    case AddClients => 1
    case SendInvitations => 2
    case ReviewOpenReferrals => 3
    case FollowUpEstimates => 4
    case CustomizeSettings => 5
  }

  /** The recommendations appear in push order, each at most once. */
  predicate InPushOrder(recs: seq<Advice>) {
    forall i, j :: 0 <= i < j < |recs| ==> Rank(recs[i]) < Rank(recs[j])
  }

  /**
   * The rules of `getRecommendations` for the given counts: each
   * recommendation exactly under its condition, in push order, and the
   * settings nudge last.
   */
  predicate Recommended(recs: seq<Advice>, rewardCount: nat, clientCount: nat, totalReferrals: nat,
                        openReferrals: nat, estimateCount: nat)
  {
    && |recs| >= 1 && recs[|recs| - 1] == CustomizeSettings
    && (ConfigureRewards in recs <==> rewardCount == 0)
    && (AddClients in recs <==> clientCount == 0)
    && (SendInvitations in recs <==> clientCount > 0 && totalReferrals == 0)
    && (ReviewOpenReferrals in recs <==> openReferrals > 0)
    && (FollowUpEstimates in recs <==> totalReferrals > 0 && estimateCount == 0)
    && InPushOrder(recs)
  }

  /** Two push-ordered lists with the same recommendations are the same list. */
  lemma {:induction false} PushOrderDetermined(x: seq<Advice>, y: seq<Advice>)
    requires InPushOrder(x) && InPushOrder(y)
    requires forall a :: a in x <==> a in y
    ensures x == y
    decreases |x|
  {
    // A list with a head shares it with the other, so both are empty or neither is.
    assert (|x| > 0 ==> x[0] in y) && (|y| > 0 ==> y[0] in x);
    if x != [] {
      // The head of each list is the recommendation of lowest rank in it.
      assert x[0] in y;
      assert y[0] in x;
      HeadHasLowestRank(x, y[0]);
      HeadHasLowestRank(y, x[0]);
      forall a ensures a in x[1..] <==> a in y[1..] {
        if a in x[1..] {
          var k :| 1 <= k < |x| && x[k] == a;
          assert Rank(x[0]) < Rank(a);
          assert a in y;
        }
        if a in y[1..] {
          var k :| 1 <= k < |y| && y[k] == a;
          assert Rank(y[0]) < Rank(a);
          assert a in x;
        }
      }
      PushOrderDetermined(x[1..], y[1..]);
      assert x == [x[0]] + x[1..];
      assert y == [y[0]] + y[1..];
    }
  }

  /** In a push-ordered list, a member other than the head ranks above the head. */
  lemma HeadHasLowestRank(x: seq<Advice>, a: Advice)
    requires InPushOrder(x) && a in x && x != []
    ensures a == x[0] || Rank(x[0]) < Rank(a)
  {
  }

  /** The rules below pick exactly one list for any counts. */
  lemma RecommendedUnique(x: seq<Advice>, y: seq<Advice>, rewardCount: nat, clientCount: nat, totalReferrals: nat,
                          openReferrals: nat, estimateCount: nat)
    requires Recommended(x, rewardCount, clientCount, totalReferrals, openReferrals, estimateCount)
    requires Recommended(y, rewardCount, clientCount, totalReferrals, openReferrals, estimateCount)
    ensures x == y
  {
    forall a ensures a in x <==> a in y {
      match a
      case ConfigureRewards =>
      case AddClients =>
      case SendInvitations =>
      case ReviewOpenReferrals =>
      case FollowUpEstimates =>
      case CustomizeSettings => assert x[|x| - 1] in x && y[|y| - 1] in y;
    }
    PushOrderDetermined(x, y);
  }


  /**
   * The `recommendations.push` sequence of `getRecommendations`: each
   * recommendation under its own condition, in the fixed order, with the
   * settings nudge always last.
   */
  method Recommend(rewardCount: nat, clientCount: nat, totalReferrals: nat, openReferrals: nat, estimateCount: nat)
    returns (recs: seq<Advice>)
    ensures 1 <= |recs| <= 5 && recs[|recs| - 1] == CustomizeSettings
    ensures ConfigureRewards in recs <==> rewardCount == 0
    ensures AddClients in recs <==> clientCount == 0
    ensures SendInvitations in recs <==> clientCount > 0 && totalReferrals == 0
    ensures ReviewOpenReferrals in recs <==> openReferrals > 0
    ensures FollowUpEstimates in recs <==> totalReferrals > 0 && estimateCount == 0
    ensures !(AddClients in recs && SendInvitations in recs)
    ensures InPushOrder(recs)
  {
    recs := [];
    recs := PushIf(recs, rewardCount == 0, ConfigureRewards);
    recs := PushIf(recs, clientCount == 0, AddClients);
    recs := PushIf(recs, clientCount > 0 && totalReferrals == 0, SendInvitations);
    recs := PushIf(recs, openReferrals > 0, ReviewOpenReferrals);
    recs := PushIf(recs, totalReferrals > 0 && estimateCount == 0, FollowUpEstimates);
    recs := PushIf(recs, true, CustomizeSettings);
  }

  /** Every recommendation so far ranks below `k`, in push order and without repeats. */
  predicate Below(recs: seq<Advice>, k: nat) {
    InPushOrder(recs) && |recs| <= k && forall i :: 0 <= i < |recs| ==> Rank(recs[i]) < k
  }

  /** `if (c) recommendations.push(a)`, after recommendations that all rank below `a`. */
  function PushIf(recs: seq<Advice>, c: bool, a: Advice): (r: seq<Advice>)
    requires Below(recs, Rank(a))
    ensures Below(r, Rank(a) + 1)
    ensures c ==> |r| == |recs| + 1 && r[|recs|] == a
    ensures forall x :: x in r <==> x in recs || (c && x == a)
    ensures forall x :: x in recs ==> Rank(x) < Rank(a)
  {
    if c then recs + [a] else recs
  }

  /**
   * `getRecommendations`: 400 without a tenant, otherwise the cards of the
   * recommendations that `Recommend` picks, in push order.
   */
  method GetRecommendations(userTenantId: Option<int>, contextTenantId: Option<int>, rewardCount: nat, clientCount: nat,
                            totalReferrals: nat, openReferrals: nat, estimateCount: nat)
    returns (resp: Response<seq<Recommendation>>)
    ensures TenantIdOf(userTenantId, contextTenantId).None? ==> resp == Refuse(400, "Tenant context is required")
    ensures TenantIdOf(userTenantId, contextTenantId).Some? ==>
      && resp.Reply? && resp.status == 200 && 1 <= |resp.body| <= 5
      && resp.body[|resp.body| - 1] == Card(CustomizeSettings)
      && exists recs :: resp.body == Cards(recs)
                        && Recommended(recs, rewardCount, clientCount, totalReferrals, openReferrals, estimateCount)
  {
    if TenantIdOf(userTenantId, contextTenantId).None? {
      return Refuse(400, "Tenant context is required");
    }
    var recs := Recommend(rewardCount, clientCount, totalReferrals, openReferrals, estimateCount);
    assert Cards(recs) == Cards(recs) && Recommended(recs, rewardCount, clientCount, totalReferrals, openReferrals, estimateCount);
    return Reply(200, Cards(recs));
  }
}
