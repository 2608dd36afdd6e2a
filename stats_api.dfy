/**
 * The statistics endpoints (stats/api): totals for one campaign or for
 * all of an advertiser's campaigns, and the same figures per day. The
 * daily variants group the Impression and Click rows by date, then merge
 * the two grouped lists into one dictionary keyed by date, impressions
 * first, and list it in insertion order.
 */
module StatsApi {
  import opened Common
  import opened AdvertiserModels
  import opened Database
  import opened StatsSchemas

  // ------------------------------------------------------------ totals

  /** `Sum("cost", default=0)` over a list of rows. */
  function SumCost(rows: seq<Record>): (s: real)
    ensures rows == [] ==> s == 0.0
    ensures CostsNonNegative(rows) ==> s >= 0.0
    decreases |rows|
  {
    if |rows| == 0 then 0.0
    else
      assert forall r :: r in rows[..|rows| - 1] ==> r in rows;
      SumCost(rows[..|rows| - 1]) + rows[|rows| - 1].cost
  }

  /**
   * `get_campaign_stat`: not found for an unknown campaign; otherwise its
   * stored counters and what its impressions and clicks cost.
   */
  function CampaignStat(t: Tables, campaignId: CampaignId): (r: Result<BaseStat>)
    ensures r.Err? <==> !HasCampaign(t.campaigns, campaignId)
    ensures r.Err? ==> r.error == NotFound
    ensures r.Ok? ==>
      var c := t.campaigns[IndexOf(t.campaigns, campaignId)];
      && r.value.impressionsCount == c.impressionsCount && r.value.clicksCount == c.clicksCount
      && r.value.spentImpressions == SumCost(RowsOf(t.impressions, {campaignId}))
      && r.value.spentClicks == SumCost(RowsOf(t.clicks, {campaignId}))
  {
    var k := IndexOf(t.campaigns, campaignId);
    if k == |t.campaigns| then Err(NotFound)
    else
      var c := t.campaigns[k];
      Ok(BaseStat(c.impressionsCount, c.clicksCount,
                  SumCost(RowsOf(t.impressions, {campaignId})), SumCost(RowsOf(t.clicks, {campaignId}))))
  }

  /**
   * In a consistent store the stored counters of a campaign are the numbers
   * of its Impression and Click rows, and what it spent is never negative
   * and is zero while it has no rows.
   */
  lemma CampaignStatCountsRows(t: Tables, campaignId: CampaignId)
    requires Consistent(t) && HasCampaign(t.campaigns, campaignId)
    ensures var s := CampaignStat(t, campaignId).value;
      && s.impressionsCount == |RowsOf(t.impressions, {campaignId})|
      && s.clicksCount == |RowsOf(t.clicks, {campaignId})|
      && s.spentImpressions >= 0.0 && s.spentClicks >= 0.0
      && (s.impressionsCount == 0 ==> s.spentImpressions == 0.0)
      && (s.clicksCount == 0 ==> s.spentClicks == 0.0)
  {
    var k := IndexOf(t.campaigns, campaignId);
    assert t.campaigns[k] in t.campaigns;
    var imp := RowsOf(t.impressions, {campaignId});
    var clk := RowsOf(t.clicks, {campaignId});
    assert CostsNonNegative(imp) && CostsNonNegative(clk);
  }

  /** The ids of an advertiser's campaigns. */
  function CampaignIdsOf(campaigns: seq<Campaign>, advertiserId: AdvertiserId): (ids: set<CampaignId>)
    ensures forall id :: id in ids <==> exists c :: c in campaigns && c.advertiser == advertiserId && c.id == id
  {
    set c | c in campaigns && c.advertiser == advertiserId :: c.id
  }

  /**
   * `get_advertiser_stat`: not found for an unknown advertiser; otherwise
   * the rows of all its campaigns are counted and their costs summed.
   */
  function AdvertiserStat(t: Tables, advertiserId: AdvertiserId): (r: Result<BaseStat>)
    ensures r.Err? <==> advertiserId !in t.advertisers
    ensures r.Err? ==> r.error == NotFound
    ensures r.Ok? ==>
      var ids := CampaignIdsOf(t.campaigns, advertiserId);
      && r.value.impressionsCount == |RowsOf(t.impressions, ids)| && r.value.clicksCount == |RowsOf(t.clicks, ids)|
      && r.value.spentImpressions == SumCost(RowsOf(t.impressions, ids))
      && r.value.spentClicks == SumCost(RowsOf(t.clicks, ids))
  {
    if advertiserId !in t.advertisers then Err(NotFound)
    else
      var ids := CampaignIdsOf(t.campaigns, advertiserId);
      var imp := RowsOf(t.impressions, ids);
      var clk := RowsOf(t.clicks, ids);
      Ok(BaseStat(|imp|, |clk|, SumCost(imp), SumCost(clk)))
  }

  /** An advertiser without campaigns has all four values zero. */
  lemma AdvertiserStatNoCampaigns(t: Tables, advertiserId: AdvertiserId)
    requires advertiserId in t.advertisers
    requires forall c :: c in t.campaigns ==> c.advertiser != advertiserId
    ensures AdvertiserStat(t, advertiserId) == Ok(ZeroStat)
  {
    var ids := CampaignIdsOf(t.campaigns, advertiserId);
    assert ids == {};
    RowsOfNone(t.impressions, ids);
    RowsOfNone(t.clicks, ids);
  }

  /** An advertiser with a single campaign has exactly that campaign's figures. */
  lemma AdvertiserStatSingleCampaign(t: Tables, c: Campaign)
    requires Consistent(t) && c in t.campaigns
    requires forall x :: x in t.campaigns && x.advertiser == c.advertiser ==> x == c
    ensures AdvertiserStat(t, c.advertiser) == CampaignStat(t, c.id)
  {
    assert c.advertiser in t.advertisers;
    assert CampaignIdsOf(t.campaigns, c.advertiser) == {c.id};
    InHasCampaign(t.campaigns, c);
    var k := IndexOf(t.campaigns, c.id);
    assert t.campaigns[k] == c by {
      var i :| 0 <= i < |t.campaigns| && t.campaigns[i] == c;
      assert t.campaigns[i].id == t.campaigns[k].id;
    }
  }

  // ------------------------------------------------------ grouping by day

  /** The days on which some row was recorded. */
  function Days(rows: seq<Record>): (s: set<int>)
    ensures forall d :: d in s <==> exists i :: 0 <= i < |rows| && rows[i].date == d
  {
    set i | 0 <= i < |rows| :: rows[i].date
  }

  /** `Count("id")` over the rows of one day. */
  function CountOn(rows: seq<Record>, d: int): (n: nat)
    ensures n <= |rows|
    ensures n > 0 <==> exists i :: 0 <= i < |rows| && rows[i].date == d
    decreases |rows|
  {
    if |rows| == 0 then 0
    else
      var init := rows[..|rows| - 1];
      assert forall i :: 0 <= i < |init| ==> init[i] == rows[i];
      CountOn(init, d) + (if rows[|rows| - 1].date == d then 1 else 0)
  }

  /** `Sum("cost")` over the rows of one day. */
  function SpentOn(rows: seq<Record>, d: int): (s: real)
    ensures (forall i :: 0 <= i < |rows| ==> rows[i].date != d) ==> s == 0.0
    decreases |rows|
  {
    if |rows| == 0 then 0.0
    else
      var init := rows[..|rows| - 1];
      assert forall i :: 0 <= i < |init| ==> init[i] == rows[i];
      SpentOn(init, d) + (if rows[|rows| - 1].date == d then rows[|rows| - 1].cost else 0.0)
  }

  /** Strictly ascending, hence free of repeats. */
  predicate Ascending(xs: seq<int>) {
    forall i, j :: 0 <= i < j < |xs| ==> xs[i] < xs[j]
  }

  predicate NoDup(xs: seq<int>) {
    forall i, j :: 0 <= i < j < |xs| ==> xs[i] != xs[j]
  }

  /** A set is empty exactly when nothing is in it. */
  lemma EmptyIffNoMember(s: set<int>)
    ensures s == {} <==> forall y :: y !in s
  {
    if forall y :: y !in s {
      assert s == {};
    }
  }

  lemma {:induction false} MinExists(s: set<int>)
    requires s != {}
    ensures exists m :: m in s && forall x :: x in s ==> m <= x
    decreases |s|
  {
    EmptyIffNoMember(s);
    var y :| y in s;
    if s == {y} {
      assert forall x :: x in s ==> x == y;
    } else {
      var rest := s - {y};
      assert rest != {} by { assert s == rest + {y}; }
      MinExists(rest);
      var m :| m in rest && forall x :: x in rest ==> m <= x;
      var least := if y < m then y else m;
      forall x | x in s
        ensures least <= x
      {
        if x != y {
          assert x in rest;
        }
      }
      assert least in s;
    }
  }

  /** The earliest day of a non-empty set of days. */
  function SetMin(s: set<int>): (m: int)
    requires s != {}
    ensures m in s && forall x :: x in s ==> m <= x
  {
    MinExists(s);
    var m :| m in s && forall x :: x in s ==> m <= x;
    m
  }

  /** A set of days listed in ascending order (`order_by("date")`). */
  function SortedDays(s: set<int>): (r: seq<int>)
    ensures forall d :: d in r <==> d in s
    ensures Ascending(r)
    decreases |s|
  {
    if s == {} then []
    else
      var m := SetMin(s);
      var rest := SortedDays(s - {m});
      assert forall j :: 0 <= j < |rest| ==> m < rest[j] by {
        forall j | 0 <= j < |rest| ensures m < rest[j] {
          assert rest[j] in s - {m};
        }
      }
      [m] + rest
  }

  lemma HeadIsMember(xs: seq<int>)
    ensures |xs| > 0 ==> xs[0] in xs
  {
  }

  /** Two ascending lists holding the same days are the same list. */
  lemma {:induction false} AscendingUnique(a: seq<int>, b: seq<int>)
    requires Ascending(a) && Ascending(b)
    requires forall d :: d in a <==> d in b
    ensures a == b
    decreases |a|
  {
    if |a| == 0 {
      HeadIsMember(b);
    } else {
      assert a[0] in a;
      assert a[0] in b;
      assert b[0] in b;
      assert b[0] in a;
      var i :| 0 <= i < |b| && b[i] == a[0];
      var j :| 0 <= j < |a| && a[j] == b[0];
      assert a[0] == b[0];
      forall d ensures d in a[1..] ==> d in b[1..] {
        if d in a[1..] {
          var p :| 1 <= p < |a| && a[p] == d;
          assert a[0] < a[p];
          assert d in a;
          var q :| 0 <= q < |b| && b[q] == d;
          assert q != 0;
          assert b[1..][q - 1] == d;
        }
      }
      forall d ensures d in b[1..] ==> d in a[1..] {
        if d in b[1..] {
          var p :| 1 <= p < |b| && b[p] == d;
          assert b[0] < b[p];
          assert d in b;
          var q :| 0 <= q < |a| && a[q] == d;
          assert q != 0;
          assert a[1..][q - 1] == d;
        }
      }
      AscendingUnique(a[1..], b[1..]);
    }
  }

  /** One entry of a grouped query: a day, its row count and its total cost. */
  datatype DayGroup = DayGroup(date: int, count: int, spent: real)

  /**
   * `values("date").order_by("date").annotate(Count, Sum)`: one entry per
   * day that has rows, days ascending, with that day's count and cost.
   */
  function GroupByDate(rows: seq<Record>): (g: seq<DayGroup>)
    ensures DatesOf(g) == SortedDays(Days(rows))
    ensures forall i :: 0 <= i < |g| ==> g[i].count == CountOn(rows, g[i].date) && g[i].spent == SpentOn(rows, g[i].date)
  {
    var days := SortedDays(Days(rows));
    seq(|days|, i requires 0 <= i < |days| => DayGroup(days[i], CountOn(rows, days[i]), SpentOn(rows, days[i])))
  }

  // ------------------------------------------------------- the daily merge

  /** The dates of a grouped list, in its order. */
  function DatesOf(groups: seq<DayGroup>): (ds: seq<int>)
    ensures |ds| == |groups| && forall i :: 0 <= i < |groups| ==> ds[i] == groups[i].date
  {
    seq(|groups|, i requires 0 <= i < |groups| => groups[i].date)
  }

  /** Each value once, where it first occurs: the key order of a dictionary filled in this order. */
  function FirstOccurrences(xs: seq<int>): (r: seq<int>)
    ensures forall x :: x in r <==> x in xs
    ensures NoDup(r)
    decreases |xs|
  {
    if |xs| == 0 then []
    else
      var init := xs[..|xs| - 1];
      assert forall x :: x in xs <==> x in init || x == xs[|xs| - 1];
      var prev := FirstOccurrences(init);
      if xs[|xs| - 1] in prev then prev else prev + [xs[|xs| - 1]]
  }

  /** The values of ys that are not in seen, in the order of ys. */
  function KeepNew(ys: seq<int>, seen: seq<int>): (r: seq<int>)
    ensures forall x :: x in r <==> x in ys && x !in seen
    ensures Ascending(ys) ==> Ascending(r)
    decreases |ys|
  {
    if |ys| == 0 then []
    else
      var init := ys[..|ys| - 1];
      var y := ys[|ys| - 1];
      assert forall x :: x in ys <==> x in init || x == y;
      var prev := KeepNew(init, seen);
      assert Ascending(ys) ==> Ascending(init);
      assert Ascending(ys) ==> forall i :: 0 <= i < |prev| ==> prev[i] < y by {
        if Ascending(ys) {
          forall i | 0 <= i < |prev| ensures prev[i] < y {
            assert prev[i] in prev;
            var p :| 0 <= p < |init| && init[p] == prev[i];
            assert ys[p] < ys[|ys| - 1];
          }
        }
      }
      if y in seen then prev else prev + [y]
  }

  /** The grouped count recorded for day d (0 when the day is absent). */
  function CountIn(groups: seq<DayGroup>, d: int): int
    decreases |groups|
  {
    if |groups| == 0 then 0
    else CountIn(groups[..|groups| - 1], d) + (if groups[|groups| - 1].date == d then groups[|groups| - 1].count else 0)
  }

  /** The grouped cost recorded for day d (0 when the day is absent). */
  function SpentIn(groups: seq<DayGroup>, d: int): real
    decreases |groups|
  {
    if |groups| == 0 then 0.0
    else SpentIn(groups[..|groups| - 1], d) + (if groups[|groups| - 1].date == d then groups[|groups| - 1].spent else 0.0)
  }

  /** The dictionary entry for day d after both loops have added to it. */
  function Merged(impressionDays: seq<DayGroup>, clickDays: seq<DayGroup>, d: int): BaseStat {
    BaseStat(CountIn(impressionDays, d), CountIn(clickDays, d), SpentIn(impressionDays, d), SpentIn(clickDays, d))
  }

  /**
   * The merged report: one entry per date of either list, keyed in the
   * order the dictionary first saw each date.
   */
  function DailyReport(impressionDays: seq<DayGroup>, clickDays: seq<DayGroup>): (report: seq<DailyStat>)
    ensures var keys := FirstOccurrences(DatesOf(impressionDays) + DatesOf(clickDays));
      |report| == |keys| && forall k :: 0 <= k < |report| ==> report[k] == DailyStat(keys[k], Merged(impressionDays, clickDays, keys[k]))
  {
    var keys := FirstOccurrences(DatesOf(impressionDays) + DatesOf(clickDays));
    seq(|keys|, k requires 0 <= k < |keys| => DailyStat(keys[k], Merged(impressionDays, clickDays, keys[k])))
  }

  /** The dictionary's value for d, or the all-zero default of `defaultdict`. */
  function Lookup(result: map<int, BaseStat>, d: int): BaseStat {
    if d in result then result[d] else ZeroStat
  }

  lemma DatesOfPrefix(groups: seq<DayGroup>, i: nat)
    requires i < |groups|
    ensures DatesOf(groups[..i + 1]) == DatesOf(groups[..i]) + [groups[i].date]
  {
  }

  /** One impression entry added to a day's figures. */
  function AddImpressionDay(s: BaseStat, e: DayGroup): BaseStat {
    s.(impressionsCount := s.impressionsCount + e.count, spentImpressions := s.spentImpressions + e.spent)
  }

  /** One click entry added to a day's figures. */
  function AddClickDay(s: BaseStat, e: DayGroup): BaseStat {
    s.(clicksCount := s.clicksCount + e.count, spentClicks := s.spentClicks + e.spent)
  }

  /** A key seen for the first time goes to the end of the key order. */
  lemma KeyStep(keys: seq<int>, result: map<int, BaseStat>, xs: seq<int>, x: int, after: map<int, BaseStat>)
    requires keys == FirstOccurrences(xs)
    requires forall d :: d in result <==> d in keys
    requires x in after && after == result[x := after[x]]
    ensures (if x in result then keys else keys + [x]) == FirstOccurrences(xs + [x])
    ensures forall d :: d in after <==> d in (if x in result then keys else keys + [x])
  {
    assert (xs + [x])[..|xs|] == xs;
  }

  lemma ImpressionStep(impressionDays: seq<DayGroup>, i: nat, result: map<int, BaseStat>, after: map<int, BaseStat>)
    requires i < |impressionDays|
    requires forall d :: Lookup(result, d) == Merged(impressionDays[..i], [], d)
    requires after == result[impressionDays[i].date := AddImpressionDay(Lookup(result, impressionDays[i].date), impressionDays[i])]
    ensures forall d :: Lookup(after, d) == Merged(impressionDays[..i + 1], [], d)
  {
    assert impressionDays[..i + 1][..i] == impressionDays[..i];
    forall d ensures Lookup(after, d) == Merged(impressionDays[..i + 1], [], d) {
      assert Lookup(result, d) == Merged(impressionDays[..i], [], d);
    }
  }

  lemma ClickStep(impressionDays: seq<DayGroup>, clickDays: seq<DayGroup>, j: nat, result: map<int, BaseStat>, after: map<int, BaseStat>)
    requires j < |clickDays|
    requires forall d :: Lookup(result, d) == Merged(impressionDays, clickDays[..j], d)
    requires after == result[clickDays[j].date := AddClickDay(Lookup(result, clickDays[j].date), clickDays[j])]
    ensures forall d :: Lookup(after, d) == Merged(impressionDays, clickDays[..j + 1], d)
  {
    assert clickDays[..j + 1][..j] == clickDays[..j];
    forall d ensures Lookup(after, d) == Merged(impressionDays, clickDays[..j + 1], d) {
      assert Lookup(result, d) == Merged(impressionDays, clickDays[..j], d);
    }
  }

  /** The dictionary state after a list of keys and values: keys in insertion order, values by key. */
  ghost predicate Holds(keys: seq<int>, result: map<int, BaseStat>, impressionDays: seq<DayGroup>, clickDays: seq<DayGroup>) {
    && keys == FirstOccurrences(DatesOf(impressionDays) + DatesOf(clickDays))
    && (forall d :: d in result <==> d in keys)
    && (forall d :: Lookup(result, d) == Merged(impressionDays, clickDays, d))
  }

  /** The first loop: every impression entry is added to its day, in order. */
  method AddImpressionDays(impressionDays: seq<DayGroup>) returns (keys: seq<int>, result: map<int, BaseStat>)
    ensures Holds(keys, result, impressionDays, [])
  {
    keys := [];
    result := map[];
    for i := 0 to |impressionDays|
      invariant keys == FirstOccurrences(DatesOf(impressionDays[..i]))
      invariant forall d :: d in result <==> d in keys
      invariant forall d :: Lookup(result, d) == Merged(impressionDays[..i], [], d)
    {
      var entry := impressionDays[i];
      var data := AddImpressionDay(Lookup(result, entry.date), entry);
      DatesOfPrefix(impressionDays, i);
      ghost var after := result[entry.date := data];
      KeyStep(keys, result, DatesOf(impressionDays[..i]), entry.date, after);
      ImpressionStep(impressionDays, i, result, after);
      if entry.date !in result {
        keys := keys + [entry.date];
      }
      result := result[entry.date := data];
    }
    assert impressionDays[..|impressionDays|] == impressionDays;
    assert DatesOf(impressionDays) + DatesOf([]) == DatesOf(impressionDays);
  }

  /** The second loop: every click entry is added to its day, in order, after the impressions. */
  method AddClickDays(impressionDays: seq<DayGroup>, clickDays: seq<DayGroup>, keys0: seq<int>, result0: map<int, BaseStat>)
    returns (keys: seq<int>, result: map<int, BaseStat>)
    requires Holds(keys0, result0, impressionDays, [])
    ensures Holds(keys, result, impressionDays, clickDays)
  {
    keys, result := keys0, result0;
    assert clickDays[..0] == [];
    for j := 0 to |clickDays|
      invariant Holds(keys, result, impressionDays, clickDays[..j])
    {
      var entry := clickDays[j];
      var data := AddClickDay(Lookup(result, entry.date), entry);
      DatesOfPrefix(clickDays, j);
      assert DatesOf(impressionDays) + DatesOf(clickDays[..j + 1]) == (DatesOf(impressionDays) + DatesOf(clickDays[..j])) + [entry.date];
      ghost var after := result[entry.date := data];
      KeyStep(keys, result, DatesOf(impressionDays) + DatesOf(clickDays[..j]), entry.date, after);
      ClickStep(impressionDays, clickDays, j, result, after);
      if entry.date !in result {
        keys := keys + [entry.date];
      }
      result := result[entry.date := data];
    }
    assert clickDays[..|clickDays|] == clickDays;
  }

  /**
   * `get_campaign_stat_daily` / `get_advertiser_stat_daily` after the
   * queries: the two accumulation loops, then the loop that lists the
   * dictionary, proved against `DailyReport`.
   */
  method MergeDaily(impressionDays: seq<DayGroup>, clickDays: seq<DayGroup>) returns (response: seq<DailyStat>)
    ensures response == DailyReport(impressionDays, clickDays)
  {
    var keys, result := AddImpressionDays(impressionDays);
    keys, result := AddClickDays(impressionDays, clickDays, keys, result);
    response := [];
    for k := 0 to |keys|
      invariant |response| == k
      invariant forall n :: 0 <= n < k ==> response[n] == DailyStat(keys[n], Merged(impressionDays, clickDays, keys[n]))
    {
      assert Lookup(result, keys[k]) == result[keys[k]];
      response := response + [DailyStat(keys[k], result[keys[k]])];
    }
  }

  /** The daily report over two lists of rows: grouped by day, then merged. */
  function DailyStats(impressions: seq<Record>, clicks: seq<Record>): seq<DailyStat> {
    DailyReport(GroupByDate(impressions), GroupByDate(clicks))
  }

  // -------------------------------------------- what the daily report says

  /**
   * The grouped totals of a day with rows are that day's count and cost;
   * a day without rows reads as zero.
   */
  lemma {:induction false} GroupedTotals(groups: seq<DayGroup>, d: int)
    requires NoDup(DatesOf(groups))
    ensures forall i :: 0 <= i < |groups| && groups[i].date == d ==>
      CountIn(groups, d) == groups[i].count && SpentIn(groups, d) == groups[i].spent
    ensures (forall i :: 0 <= i < |groups| ==> groups[i].date != d) ==> CountIn(groups, d) == 0 && SpentIn(groups, d) == 0.0
    decreases |groups|
  {
    if |groups| > 0 {
      var init := groups[..|groups| - 1];
      assert DatesOf(init) == DatesOf(groups)[..|groups| - 1];
      GroupedTotals(init, d);
      assert forall i :: 0 <= i < |init| ==> init[i] == groups[i];
      if groups[|groups| - 1].date == d {
        assert forall i :: 0 <= i < |init| ==> init[i].date != d by {
          forall i | 0 <= i < |init| ensures init[i].date != d {
            assert DatesOf(groups)[i] != DatesOf(groups)[|groups| - 1];
          }
        }
      }
    }
  }

  /** Merging recovers, for every day, the per-day count and cost of the rows. */
  lemma GroupByDateTotals(rows: seq<Record>, d: int)
    ensures CountIn(GroupByDate(rows), d) == CountOn(rows, d)
    ensures SpentIn(GroupByDate(rows), d) == SpentOn(rows, d)
  {
    var g := GroupByDate(rows);
    GroupedTotals(g, d);
    if d in Days(rows) {
      assert d in DatesOf(g);
      var i :| 0 <= i < |g| && DatesOf(g)[i] == d;
    } else {
      assert forall i :: 0 <= i < |g| ==> g[i].date != d by {
        forall i | 0 <= i < |g| ensures g[i].date != d {
          assert DatesOf(g)[i] in SortedDays(Days(rows));
        }
      }
    }
  }

  /** The dates of a report, in its order. */
  function ReportDates(report: seq<DailyStat>): (ds: seq<int>)
    ensures |ds| == |report| && forall k :: 0 <= k < |report| ==> ds[k] == report[k].date
  {
    seq(|report|, k requires 0 <= k < |report| => report[k].date)
  }

  /**
   * A date is listed exactly when some impression or click happened on it;
   * each date is listed once; with no rows the report is empty.
   */
  lemma DailyDays(impressions: seq<Record>, clicks: seq<Record>)
    ensures var report := DailyStats(impressions, clicks);
      && (forall d :: d in ReportDates(report) <==> d in Days(impressions) || d in Days(clicks))
      && NoDup(ReportDates(report))
      && (report == [] <==> impressions == [] && clicks == [])
  {
    var gi := GroupByDate(impressions);
    var gc := GroupByDate(clicks);
    var report := DailyStats(impressions, clicks);
    var keys := FirstOccurrences(DatesOf(gi) + DatesOf(gc));
    assert ReportDates(report) == keys;
    if impressions != [] {
      assert impressions[0].date in Days(impressions);
      assert impressions[0].date in keys;
    }
    if clicks != [] {
      assert clicks[0].date in Days(clicks);
      assert clicks[0].date in keys;
    }
  }

  /** Every listed day carries that day's impression and click counts and costs. */
  lemma DailyValues(impressions: seq<Record>, clicks: seq<Record>)
    ensures var report := DailyStats(impressions, clicks);
      forall k :: 0 <= k < |report| ==>
        var d := report[k].date;
        report[k].stat == BaseStat(CountOn(impressions, d), CountOn(clicks, d), SpentOn(impressions, d), SpentOn(clicks, d))
  {
    var report := DailyStats(impressions, clicks);
    forall k | 0 <= k < |report|
      ensures var d := report[k].date;
        report[k].stat == BaseStat(CountOn(impressions, d), CountOn(clicks, d), SpentOn(impressions, d), SpentOn(clicks, d))
    {
      GroupByDateTotals(impressions, report[k].date);
      GroupByDateTotals(clicks, report[k].date);
    }
  }

  /** First occurrences of a repeat-free list followed by another repeat-free list. */
  lemma {:induction false} FirstOccurrencesAppend(xs: seq<int>, ys: seq<int>)
    requires NoDup(xs) && NoDup(ys)
    ensures FirstOccurrences(xs + ys) == xs + KeepNew(ys, xs)
    decreases |ys|
  {
    if |ys| == 0 {
      assert xs + ys == xs;
      FirstOccurrencesOfNoDup(xs);
    } else {
      var init := ys[..|ys| - 1];
      var y := ys[|ys| - 1];
      assert (xs + ys)[..|xs + ys| - 1] == xs + init;
      assert (xs + ys)[|xs + ys| - 1] == y;
      FirstOccurrencesAppend(xs, init);
      var prev := FirstOccurrences(xs + init);
      assert forall i :: 0 <= i < |init| ==> init[i] != y;
      assert y in prev <==> y in xs;
      assert FirstOccurrences(xs + ys) == if y in prev then prev else prev + [y];
      assert KeepNew(ys, xs) == if y in xs then KeepNew(init, xs) else KeepNew(init, xs) + [y];
    }
  }

  lemma {:induction false} FirstOccurrencesOfNoDup(xs: seq<int>)
    requires NoDup(xs)
    ensures FirstOccurrences(xs) == xs
    decreases |xs|
  {
    if |xs| > 0 {
      var init := xs[..|xs| - 1];
      FirstOccurrencesOfNoDup(init);
      assert forall i :: 0 <= i < |init| ==> init[i] != xs[|xs| - 1];
      assert init + [xs[|xs| - 1]] == xs;
    }
  }

  /**
   * The listing order: the days with impressions ascending, then the days
   * that only have clicks, ascending.
   */
  lemma DailyOrder(impressions: seq<Record>, clicks: seq<Record>)
    ensures ReportDates(DailyStats(impressions, clicks))
         == SortedDays(Days(impressions)) + SortedDays(Days(clicks) - Days(impressions))
  {
    var di := SortedDays(Days(impressions));
    var dc := SortedDays(Days(clicks));
    var report := DailyStats(impressions, clicks);
    assert ReportDates(report) == FirstOccurrences(di + dc);
    FirstOccurrencesAppend(di, dc);
    AscendingUnique(KeepNew(dc, di), SortedDays(Days(clicks) - Days(impressions)));
  }

  /** How often d occurs in a list of days. */
  function Occurrences(days: seq<int>, d: int): nat
    decreases |days|
  {
    if |days| == 0 then 0
    else Occurrences(days[..|days| - 1], d) + (if days[|days| - 1] == d then 1 else 0)
  }

  /** The per-day counts of rows, added up over a list of days. */
  function CountOver(days: seq<int>, rows: seq<Record>): int
    decreases |days|
  {
    if |days| == 0 then 0
    else CountOver(days[..|days| - 1], rows) + CountOn(rows, days[|days| - 1])
  }

  lemma {:induction false} CountOverAppend(days: seq<int>, rows: seq<Record>, x: Record)
    ensures CountOver(days, rows + [x]) == CountOver(days, rows) + Occurrences(days, x.date)
    decreases |days|
  {
    if |days| > 0 {
      CountOverAppend(days[..|days| - 1], rows, x);
      assert (rows + [x])[..|rows|] == rows;
    }
  }

  lemma {:induction false} OccursOnce(days: seq<int>, d: int)
    requires NoDup(days) && d in days
    ensures Occurrences(days, d) == 1
    decreases |days|
  {
    var init := days[..|days| - 1];
    if days[|days| - 1] == d {
      assert forall i :: 0 <= i < |init| ==> init[i] != d;
      OccursNever(init, d);
    } else {
      assert d in init;
      OccursOnce(init, d);
    }
  }

  lemma {:induction false} OccursNever(days: seq<int>, d: int)
    ensures d !in days ==> Occurrences(days, d) == 0
    decreases |days|
  {
    if |days| > 0 {
      OccursNever(days[..|days| - 1], d);
    }
  }

  /** Over a repeat-free list of days covering every row, the per-day counts add up to the number of rows. */
  lemma {:induction false} CountOverCovering(days: seq<int>, rows: seq<Record>)
    requires NoDup(days)
    requires forall i :: 0 <= i < |rows| ==> rows[i].date in days
    ensures CountOver(days, rows) == |rows|
    decreases |rows|
  {
    if |rows| == 0 {
      CountOverZero(days);
    } else {
      var init := rows[..|rows| - 1];
      CountOverCovering(days, init);
      assert init + [rows[|rows| - 1]] == rows;
      CountOverAppend(days, init, rows[|rows| - 1]);
      OccursOnce(days, rows[|rows| - 1].date);
    }
  }

  lemma {:induction false} CountOverZero(days: seq<int>)
    ensures CountOver(days, []) == 0
    decreases |days|
  {
    if |days| > 0 {
      CountOverZero(days[..|days| - 1]);
    }
  }

  /** The per-day costs of rows, added up over a list of days. */
  function SpentOver(days: seq<int>, rows: seq<Record>): real
    decreases |days|
  {
    if |days| == 0 then 0.0
    else SpentOver(days[..|days| - 1], rows) + SpentOn(rows, days[|days| - 1])
  }

  lemma {:induction false} SpentOverAppend(days: seq<int>, rows: seq<Record>, x: Record)
    ensures SpentOver(days, rows + [x]) == SpentOver(days, rows) + Occurrences(days, x.date) as real * x.cost
    decreases |days|
  {
    if |days| > 0 {
      SpentOverAppend(days[..|days| - 1], rows, x);
      assert (rows + [x])[..|rows|] == rows;
    }
  }

  lemma {:induction false} SpentOverZero(days: seq<int>)
    ensures SpentOver(days, []) == 0.0
    decreases |days|
  {
    if |days| > 0 {
      SpentOverZero(days[..|days| - 1]);
    }
  }

  /** Over a repeat-free list of days covering every row, the per-day costs add up to the cost of all rows. */
  lemma {:induction false} SpentOverCovering(days: seq<int>, rows: seq<Record>)
    requires NoDup(days)
    requires forall i :: 0 <= i < |rows| ==> rows[i].date in days
    ensures SpentOver(days, rows) == SumCost(rows)
    decreases |rows|
  {
    if |rows| == 0 {
      SpentOverZero(days);
    } else {
      var init := rows[..|rows| - 1];
      SpentOverCovering(days, init);
      assert init + [rows[|rows| - 1]] == rows;
      SpentOverAppend(days, init, rows[|rows| - 1]);
      OccursOnce(days, rows[|rows| - 1].date);
    }
  }

  /** The impression counts of a report, added up. */
  function ImpressionsTotal(report: seq<DailyStat>): int
    decreases |report|
  {
    if |report| == 0 then 0
    else ImpressionsTotal(report[..|report| - 1]) + report[|report| - 1].stat.impressionsCount
  }

  /** The click counts of a report, added up. */
  function ClicksTotal(report: seq<DailyStat>): int
    decreases |report|
  {
    if |report| == 0 then 0
    else ClicksTotal(report[..|report| - 1]) + report[|report| - 1].stat.clicksCount
  }

  lemma {:induction false} TotalsAsCountOver(report: seq<DailyStat>, impressions: seq<Record>, clicks: seq<Record>)
    requires forall k :: 0 <= k < |report| ==>
      report[k].stat.impressionsCount == CountOn(impressions, report[k].date)
      && report[k].stat.clicksCount == CountOn(clicks, report[k].date)
    ensures ImpressionsTotal(report) == CountOver(ReportDates(report), impressions)
    ensures ClicksTotal(report) == CountOver(ReportDates(report), clicks)
    decreases |report|
  {
    if |report| > 0 {
      var init := report[..|report| - 1];
      TotalsAsCountOver(init, impressions, clicks);
      assert ReportDates(report)[..|report| - 1] == ReportDates(init);
    }
  }

  /** The impression spends of a report, added up. */
  function SpentImpressionsTotal(report: seq<DailyStat>): real
    decreases |report|
  {
    if |report| == 0 then 0.0
    else SpentImpressionsTotal(report[..|report| - 1]) + report[|report| - 1].stat.spentImpressions
  }

  /** The click spends of a report, added up. */
  function SpentClicksTotal(report: seq<DailyStat>): real
    decreases |report|
  {
    if |report| == 0 then 0.0
    else SpentClicksTotal(report[..|report| - 1]) + report[|report| - 1].stat.spentClicks
  }

  lemma {:induction false} SpentTotalsAsSpentOver(report: seq<DailyStat>, impressions: seq<Record>, clicks: seq<Record>)
    requires forall k :: 0 <= k < |report| ==>
      report[k].stat.spentImpressions == SpentOn(impressions, report[k].date)
      && report[k].stat.spentClicks == SpentOn(clicks, report[k].date)
    ensures SpentImpressionsTotal(report) == SpentOver(ReportDates(report), impressions)
    ensures SpentClicksTotal(report) == SpentOver(ReportDates(report), clicks)
    decreases |report|
  {
    if |report| > 0 {
      var init := report[..|report| - 1];
      SpentTotalsAsSpentOver(init, impressions, clicks);
      assert ReportDates(report)[..|report| - 1] == ReportDates(init);
    }
  }

  /** The daily impression counts add up to the number of impressions, and likewise for clicks. */
  lemma DailyTotals(impressions: seq<Record>, clicks: seq<Record>)
    ensures ImpressionsTotal(DailyStats(impressions, clicks)) == |impressions|
    ensures ClicksTotal(DailyStats(impressions, clicks)) == |clicks|
  {
    var report := DailyStats(impressions, clicks);
    DailyDays(impressions, clicks);
    DailyValues(impressions, clicks);
    TotalsAsCountOver(report, impressions, clicks);
    CountOverCovering(ReportDates(report), impressions);
    CountOverCovering(ReportDates(report), clicks);
  }

  /** The daily spends add up to the cost of all impressions, and likewise for clicks. */
  lemma DailySpentTotals(impressions: seq<Record>, clicks: seq<Record>)
    ensures SpentImpressionsTotal(DailyStats(impressions, clicks)) == SumCost(impressions)
    ensures SpentClicksTotal(DailyStats(impressions, clicks)) == SumCost(clicks)
  {
    var report := DailyStats(impressions, clicks);
    DailyDays(impressions, clicks);
    DailyValues(impressions, clicks);
    SpentTotalsAsSpentOver(report, impressions, clicks);
    SpentOverCovering(ReportDates(report), impressions);
    SpentOverCovering(ReportDates(report), clicks);
  }

  // -------------------------------------------------- the daily endpoints

  /** `get_campaign_stat_daily`: not found for an unknown campaign, else the report over its rows. */
  function CampaignDaily(t: Tables, campaignId: CampaignId): (r: Result<seq<DailyStat>>)
    ensures r.Err? <==> !HasCampaign(t.campaigns, campaignId)
    ensures r.Err? ==> r.error == NotFound
  {
    if !HasCampaign(t.campaigns, campaignId) then Err(NotFound)
    else Ok(DailyStats(RowsOf(t.impressions, {campaignId}), RowsOf(t.clicks, {campaignId})))
  }

  /** `get_advertiser_stat_daily`: the same report over the rows of all the advertiser's campaigns. */
  function AdvertiserDaily(t: Tables, advertiserId: AdvertiserId): (r: Result<seq<DailyStat>>)
    ensures r.Err? <==> advertiserId !in t.advertisers
    ensures r.Err? ==> r.error == NotFound
  {
    if advertiserId !in t.advertisers then Err(NotFound)
    else
      var ids := CampaignIdsOf(t.campaigns, advertiserId);
      Ok(DailyStats(RowsOf(t.impressions, ids), RowsOf(t.clicks, ids)))
  }

  /** In a consistent store a campaign's daily counts and spends add up to its totals. */
  lemma CampaignDailyAddsUp(t: Tables, campaignId: CampaignId)
    requires Consistent(t) && HasCampaign(t.campaigns, campaignId)
    ensures ImpressionsTotal(CampaignDaily(t, campaignId).value) == CampaignStat(t, campaignId).value.impressionsCount
    ensures ClicksTotal(CampaignDaily(t, campaignId).value) == CampaignStat(t, campaignId).value.clicksCount
    ensures SpentImpressionsTotal(CampaignDaily(t, campaignId).value) == CampaignStat(t, campaignId).value.spentImpressions
    ensures SpentClicksTotal(CampaignDaily(t, campaignId).value) == CampaignStat(t, campaignId).value.spentClicks
  {
    CampaignStatCountsRows(t, campaignId);
    DailyTotals(RowsOf(t.impressions, {campaignId}), RowsOf(t.clicks, {campaignId}));
    DailySpentTotals(RowsOf(t.impressions, {campaignId}), RowsOf(t.clicks, {campaignId}));
  }

  /** An advertiser's daily counts and spends add up to its totals. */
  lemma AdvertiserDailyAddsUp(t: Tables, advertiserId: AdvertiserId)
    requires advertiserId in t.advertisers
    ensures ImpressionsTotal(AdvertiserDaily(t, advertiserId).value) == AdvertiserStat(t, advertiserId).value.impressionsCount
    ensures ClicksTotal(AdvertiserDaily(t, advertiserId).value) == AdvertiserStat(t, advertiserId).value.clicksCount
    ensures SpentImpressionsTotal(AdvertiserDaily(t, advertiserId).value) == AdvertiserStat(t, advertiserId).value.spentImpressions
    ensures SpentClicksTotal(AdvertiserDaily(t, advertiserId).value) == AdvertiserStat(t, advertiserId).value.spentClicks
  {
    var ids := CampaignIdsOf(t.campaigns, advertiserId);
    DailyTotals(RowsOf(t.impressions, ids), RowsOf(t.clicks, ids));
    DailySpentTotals(RowsOf(t.impressions, ids), RowsOf(t.clicks, ids));
  }

  /** `get_campaign_stat_daily` on the store, proved against `CampaignDaily`. */
  method GetCampaignStatDaily(db: Db, campaignId: CampaignId) returns (r: Result<seq<DailyStat>>)
    ensures r == CampaignDaily(db.Snapshot(), campaignId)
  {
    if IndexOf(db.campaigns, campaignId) == |db.campaigns| {
      return Err(NotFound);
    }
    var impressionDays := GroupByDate(RowsOf(db.impressions, {campaignId}));
    var clickDays := GroupByDate(RowsOf(db.clicks, {campaignId}));
    var response := MergeDaily(impressionDays, clickDays);
    r := Ok(response);
  }

  /** `get_advertiser_stat_daily` on the store, proved against `AdvertiserDaily`. */
  method GetAdvertiserStatDaily(db: Db, advertiserId: AdvertiserId) returns (r: Result<seq<DailyStat>>)
    ensures r == AdvertiserDaily(db.Snapshot(), advertiserId)
  {
    if advertiserId !in db.advertisers {
      return Err(NotFound);
    }
    var campaigns := CampaignIdsOf(db.campaigns, advertiserId);
    var impressionDays := GroupByDate(RowsOf(db.impressions, campaigns));
    var clickDays := GroupByDate(RowsOf(db.clicks, campaigns));
    var response := MergeDaily(impressionDays, clickDays);
    r := Ok(response);
  }
}
