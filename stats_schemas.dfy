/**
 * The statistics payloads (stats/schemas): four counters and two derived
 * fields, `conversion` and `spent_total`, recomputed from the counters
 * every time a stat is built. The campaign, advertiser and daily variants
 * all share them; the daily ones add a date.
 */
module StatsSchemas {
  import opened Common

  /** `BaseStat`: the four stored values every stat carries. */
  datatype BaseStat = BaseStat(impressionsCount: int, clicksCount: int, spentImpressions: real, spentClicks: real)

  /** `CampaignStatDaily` / `AdvertiserCampaignStatDaily`: a stat for one day. */
  datatype DailyStat = DailyStat(date: int, stat: BaseStat)

  /** All four counters zero: the default of a day with no data. */
  const ZeroStat := BaseStat(0, 0, 0.0, 0.0)

  /**
   * Rounding to two decimals, to the nearest hundredth with ties upwards;
   * the result is a whole number of hundredths within half a hundredth of x.
   */
  function Round2(x: real): (r: real)
    ensures (r * 100.0).Floor as real == r * 100.0
    ensures x - 0.005 < r <= x + 0.005
  {
    var k := (x * 100.0 + 0.5).Floor;
    assert k as real <= x * 100.0 + 0.5 < k as real + 1.0;
    k as real / 100.0
  }

  /** A value between 0 and 100 stays between 0 and 100 once rounded. */
  lemma Round2Bounds(x: real)
    requires 0.0 <= x <= 100.0
    ensures 0.0 <= Round2(x) <= 100.0
  {
    var k := (x * 100.0 + 0.5).Floor;
    assert 0 <= k <= 10000;
  }

  /**
   * `conversion`: 0 without impressions, otherwise the click-through rate
   * as a percentage rounded to two decimals.
   */
  function Conversion(s: BaseStat): (c: real)
    ensures s.impressionsCount <= 0 ==> c == 0.0
    ensures s.impressionsCount > 0 ==>
      var exact := s.clicksCount as real / s.impressionsCount as real * 100.0;
      exact - 0.005 < c <= exact + 0.005
  {
    if s.impressionsCount > 0 then
      Round2(s.clicksCount as real / s.impressionsCount as real * 100.0)
    else
      0.0
  }

  /** With no more clicks than impressions, the conversion is a percentage. */
  lemma ConversionIsPercentage(s: BaseStat)
    requires 0 <= s.clicksCount <= s.impressionsCount
    ensures 0.0 <= Conversion(s) <= 100.0
  {
    if s.impressionsCount > 0 {
      var q := s.clicksCount as real / s.impressionsCount as real;
      QuotientInUnit(s.clicksCount as real, s.impressionsCount as real);
      Round2Bounds(q * 100.0);
    }
  }

  /** Every impression clicked reads as exactly 100 percent, none as exactly 0. */
  lemma ConversionExtremes(s: BaseStat)
    requires s.impressionsCount > 0
    ensures s.clicksCount == s.impressionsCount ==> Conversion(s) == 100.0
    ensures s.clicksCount == 0 ==> Conversion(s) == 0.0
  {
    if s.clicksCount == s.impressionsCount {
      assert s.clicksCount as real / s.impressionsCount as real == 1.0;
      assert (100.0 * 100.0 + 0.5).Floor == 10000;
    }
    if s.clicksCount == 0 {
      assert (0.0 * 100.0 + 0.5).Floor == 0;
    }
  }

  /** `spent_total`: what was spent on impressions and clicks together. */
  function SpentTotal(s: BaseStat): (total: real)
    ensures total - s.spentClicks == s.spentImpressions
    ensures s.spentImpressions >= 0.0 && s.spentClicks >= 0.0 ==>
      total >= s.spentImpressions && total >= s.spentClicks
  {
    s.spentImpressions + s.spentClicks
  }
}
