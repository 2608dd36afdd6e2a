/**
 * Campaign selection and ranking (ads/score.py).
 *
 * Given a client and the campaigns that passed targeting, the selector
 * drops the campaigns already shown to the client and those over 103% of
 * their impression budget, computes a relevance, a profit and a pacing
 * factor per survivor, normalises profit and relevance across the
 * survivors (by the maximum below ten candidates, min-max from ten on)
 * and returns the first candidate with the strictly highest weighted score.
 *
 * Python floats are modelled by exact reals.
 */
module AdScore {
  import opened Common
  import opened AdvertiserModels

  /** ML relevance scores keyed by (client, advertiser). */
  type ScoreTable = map<(ClientId, AdvertiserId), int>

  // ------------------------------------------------------------ Normalisation

  /** `linear_normalization`: min-max scaling, or all ones when every value is equal. */
  function LinearNormalization(values: seq<real>): (r: seq<real>)
    requires |values| > 0
    ensures |r| == |values|
    ensures Min(values) == Max(values) ==> forall i :: 0 <= i < |r| ==> r[i] == 1.0
    ensures Min(values) != Max(values) ==>
              forall i :: 0 <= i < |r| ==>
                && 0.0 <= r[i] <= 1.0
                && (values[i] == Min(values) ==> r[i] == 0.0)
                && (values[i] == Max(values) ==> r[i] == 1.0)
  {
    var lo, hi := Min(values), Max(values);
    if lo == hi then
      seq(|values|, _ => 1.0)
    else
      var r := seq(|values|, i requires 0 <= i < |values| => Scaled(values[i], lo, hi));
      assert forall i :: 0 <= i < |values| ==>
               && 0.0 <= r[i] <= 1.0
               && (values[i] == lo ==> r[i] == 0.0)
               && (values[i] == hi ==> r[i] == 1.0) by {
        forall i | 0 <= i < |values|
          ensures 0.0 <= r[i] <= 1.0 && (values[i] == lo ==> r[i] == 0.0) && (values[i] == hi ==> r[i] == 1.0)
        {
          ScaledBounds(values[i], lo, hi);
        }
      }
      r
  }

  /** `(v - min_v) / (max_v - min_v)` for one value. */
  function Scaled(v: real, lo: real, hi: real): real
    requires lo != hi
  {
    (v - lo) / (hi - lo)
  }

  lemma ScaledBounds(v: real, lo: real, hi: real)
    requires lo <= v <= hi && lo < hi
    ensures 0.0 <= Scaled(v, lo, hi) <= 1.0
    ensures v == lo ==> Scaled(v, lo, hi) == 0.0
    ensures v == hi ==> Scaled(v, lo, hi) == 1.0
  {
    QuotientInUnit(v - lo, hi - lo);
  }

  /** Linear normalisation keeps the order of the values. */
  lemma LinearNormalizationMonotone(values: seq<real>, i: nat, j: nat)
    requires i < |values| && j < |values| && values[i] <= values[j]
    ensures LinearNormalization(values)[i] <= LinearNormalization(values)[j]
  {
    var lo, hi := Min(values), Max(values);
    if lo != hi {
      ScaledMonotone(values[i], values[j], lo, hi);
    }
  }

  lemma ScaledMonotone(a: real, b: real, lo: real, hi: real)
    requires a <= b && lo < hi
    ensures Scaled(a, lo, hi) <= Scaled(b, lo, hi)
  {
    var d := hi - lo;
    assert Scaled(b, lo, hi) - Scaled(a, lo, hi) == (b - a) / d;
  }

  /** `max(values) or 1`: the maximum, with 0 replaced by 1. */
  function MaxOr1(values: seq<real>): (m: real)
    requires |values| > 0
    ensures m != 0.0
    ensures m == Max(values) || (Max(values) == 0.0 && m == 1.0)
  {
    if Max(values) == 0.0 then 1.0 else Max(values)
  }

  /** `max_normalization`: every value divided by `max(values) or 1`. */
  function MaxNormalization(values: seq<real>): (r: seq<real>)
    requires |values| > 0
    ensures |r| == |values|
    ensures (forall i :: 0 <= i < |values| ==> values[i] >= 0.0) ==>
              forall i :: 0 <= i < |r| ==> 0.0 <= r[i] <= 1.0
    ensures (forall i :: 0 <= i < |values| ==> values[i] == 0.0) ==>
              forall i :: 0 <= i < |r| ==> r[i] == 0.0
    ensures Max(values) > 0.0 ==>
              forall i :: 0 <= i < |r| ==> (values[i] == Max(values) <==> r[i] == 1.0)
  {
    var m := MaxOr1(values);
    var r := seq(|values|, i requires 0 <= i < |values| => values[i] / m);
    assert forall i :: 0 <= i < |values| ==>
             && (values[i] >= 0.0 ==> 0.0 <= r[i] <= 1.0)
             && (values[i] == 0.0 ==> r[i] == 0.0)
             && (m == Max(values) ==> (values[i] == m <==> r[i] == 1.0)) by {
      forall i | 0 <= i < |values|
        ensures && (values[i] >= 0.0 ==> 0.0 <= r[i] <= 1.0)
                && (values[i] == 0.0 ==> r[i] == 0.0)
                && (m == Max(values) ==> (values[i] == m <==> r[i] == 1.0))
      {
        DividedByMax(values[i], m, Max(values));
      }
    }
    r
  }

  /** One value divided by `max or 1`, where the value is at most the maximum. */
  lemma DividedByMax(v: real, m: real, max: real)
    requires v <= max && m != 0.0
    requires m == max || (max == 0.0 && m == 1.0)
    ensures v >= 0.0 ==> 0.0 <= v / m <= 1.0
    ensures v == 0.0 ==> v / m == 0.0
    ensures m == max ==> (v == m <==> v / m == 1.0)
  {
    if v >= 0.0 {
      QuotientInUnit(v, m);
    }
    if v / m == 1.0 {
      assert v == (v / m) * m;
    }
  }

  // --------------------------------------------------------------- Eligibility

  /** Whether the Impression (or Click) table has a row for this client and campaign. */
  predicate HasRow(rows: seq<Record>, client: ClientId, campaign: CampaignId) {
    exists k :: 0 <= k < |rows| && rows[k].client == client && rows[k].campaign == campaign
  }

  /** `impressions_count <= impressions_limit * 1.03`, over exact rationals. */
  predicate WithinCap(c: Campaign) {
    c.impressionsCount as real <= c.impressionsLimit as real * 1.03
  }

  /** The cap test is the integer test `100 * count <= 103 * limit`. */
  lemma WithinCapIntegerForm(c: Campaign)
    ensures WithinCap(c) <==> 100 * c.impressionsCount <= 103 * c.impressionsLimit
  {
  }

  predicate Eligible(c: Campaign, client: ClientId, impressions: seq<Record>) {
    !HasRow(impressions, client, c.id) && WithinCap(c)
  }

  /** The list comprehension that keeps unshown campaigns within the cap, in order. */
  function Filter(campaigns: seq<Campaign>, client: ClientId, impressions: seq<Record>): (r: seq<Campaign>)
    ensures |r| <= |campaigns|
    ensures forall c :: c in r <==> c in campaigns && Eligible(c, client, impressions)
  {
    if |campaigns| == 0 then []
    else
      var front := Filter(campaigns[..|campaigns| - 1], client, impressions);
      var last := campaigns[|campaigns| - 1];
      assert campaigns == campaigns[..|campaigns| - 1] + [last];
      if Eligible(last, client, impressions) then front + [last] else front
  }

  /** Filtering distributes over concatenation, so it keeps the original order. */
  lemma {:induction false} FilterConcat(a: seq<Campaign>, b: seq<Campaign>, client: ClientId, impressions: seq<Record>)
    ensures Filter(a + b, client, impressions) == Filter(a, client, impressions) + Filter(b, client, impressions)
    decreases |b|
  {
    if |b| == 0 {
      assert a + b == a;
    } else {
      var b' := b[..|b| - 1];
      assert (a + b)[..|a + b| - 1] == a + b';
      FilterConcat(a, b', client, impressions);
    }
  }

  // ------------------------------------------------------ Per-candidate factors

  /** The ML score of (client, campaign's advertiser), 0 when there is none. */
  function Relevance(c: Campaign, client: ClientId, scores: ScoreTable): int {
    if (client, c.advertiser) in scores then scores[(client, c.advertiser)] else 0
  }

  function Relevances(filtered: seq<Campaign>, client: ClientId, scores: ScoreTable): (r: seq<real>)
    ensures |r| == |filtered|
  {
    seq(|filtered|, i requires 0 <= i < |filtered| => Relevance(filtered[i], client, scores) as real)
  }

  /** Expected yield of one impression: its price plus the click price weighted by the click probability. */
  function Profit(c: Campaign, clickProb: real): real {
    c.costPerImpression + clickProb * c.costPerClick
  }

  function Profits(filtered: seq<Campaign>, relevances: seq<real>): (r: seq<real>)
    requires |relevances| == |filtered| > 0
    ensures |r| == |filtered|
  {
    var maxRelevance := MaxOr1(relevances);
    seq(|filtered|, i requires 0 <= i < |filtered| => Profit(filtered[i], relevances[i] / maxRelevance))
  }

  /** Click probabilities of non-negative relevances lie in [0, 1], so profit is at least the impression price. */
  lemma ClickProbabilityBounds(filtered: seq<Campaign>, relevances: seq<real>, i: nat)
    requires |relevances| == |filtered| > 0 && i < |filtered|
    requires forall k :: 0 <= k < |relevances| ==> relevances[k] >= 0.0
    requires filtered[i].costPerImpression >= 0.0 && filtered[i].costPerClick >= 0.0
    ensures 0.0 <= relevances[i] / MaxOr1(relevances) <= 1.0
    ensures Profits(filtered, relevances)[i] >= filtered[i].costPerImpression
    ensures Profits(filtered, relevances)[i] <= filtered[i].costPerImpression + filtered[i].costPerClick
  {
    var m := MaxOr1(relevances);
    QuotientInUnit(relevances[i], m);
    var p := relevances[i] / m;
    ProductNonNegative(p, filtered[i].costPerClick);
    ProductNonNegative(1.0 - p, filtered[i].costPerClick);
    assert Profits(filtered, relevances)[i] == filtered[i].costPerImpression + p * filtered[i].costPerClick;
  }

  /** `impressions_count / (impressions_limit or 1)`. */
  function Progress(c: Campaign): real {
    c.impressionsCount as real / (if c.impressionsLimit == 0 then 1 else c.impressionsLimit) as real
  }

  function TotalDays(c: Campaign): int {
    c.endDate - c.startDate + 1
  }

  /** Fraction of the campaign's window still ahead, today included. */
  function DaysLeft(c: Campaign, today: int): real
    requires TotalDays(c) != 0
  {
    (c.endDate - today + 1) as real / TotalDays(c) as real
  }

  /** Inside its window a campaign has a positive fraction of at most 1 left. */
  lemma DaysLeftInWindow(c: Campaign, today: int)
    requires c.startDate <= today <= c.endDate
    ensures TotalDays(c) != 0
    ensures 0.0 < DaysLeft(c, today) <= 1.0
  {
    QuotientInUnit((c.endDate - today + 1) as real, TotalDays(c) as real);
    assert DaysLeft(c, today) * TotalDays(c) as real == (c.endDate - today + 1) as real;
  }

  /**
   * The pacing factor: a boost of up to 0.85 below 95% delivery that grows
   * with the shortfall and the time left, neutral from 95% to 100%, and
   * 10% less per 1% of overshoot above 100%, floored at 0.
   */
  function LimitFactor(progress: real, daysLeft: real): (f: real)
    ensures progress < 0.95 && daysLeft > 0.0 ==> 1.0 < f <= 1.85
    ensures progress < 0.95 && daysLeft <= 0.0 ==> f <= 1.0
    ensures 0.95 <= progress <= 1.0 ==> f == 1.0
    ensures progress > 1.0 ==> 0.0 <= f < 1.0
    ensures progress > 1.0 ==> f == (if 1.0 - 10.0 * (progress - 1.0) > 0.0 then 1.0 - 10.0 * (progress - 1.0) else 0.0)
  {
    if progress < 0.95 then
      var boost := (0.95 - progress) * daysLeft;
      assert daysLeft > 0.0 ==> boost > 0.0;
      assert daysLeft <= 0.0 ==> boost <= 0.0;
      1.0 + (if 0.85 < boost then 0.85 else boost)
    else if progress <= 1.0 then
      1.0
    else
      var excess := (progress - 1.0) / 0.01;
      var f := 1.0 - excess * 0.10;
      if 0.0 > f then 0.0 else f
  }

  /** The worked examples: 1% over the budget gives 0.9, 10% or more gives 0. */
  lemma LimitFactorExamples(daysLeft: real, progress: real)
    ensures LimitFactor(1.01, daysLeft) == 0.9
    ensures progress >= 1.10 ==> LimitFactor(progress, daysLeft) == 0.0
  {
  }

  /** With non-negative time left, more delivered progress never raises the pacing factor. */
  lemma LimitFactorMonotone(p1: real, p2: real, daysLeft: real)
    requires p1 <= p2 && daysLeft >= 0.0
    ensures LimitFactor(p1, daysLeft) >= LimitFactor(p2, daysLeft)
  {
    if p2 < 0.95 {
      assert (0.95 - p1) * daysLeft - (0.95 - p2) * daysLeft == (p2 - p1) * daysLeft;
      ProductNonNegative(p2 - p1, daysLeft);
    } else if p1 < 0.95 {
      ProductNonNegative(0.95 - p1, daysLeft);
    }
  }

  function LimitFactors(filtered: seq<Campaign>, today: int): (r: seq<real>)
    requires forall c :: c in filtered ==> TotalDays(c) != 0
    ensures |r| == |filtered|
  {
    seq(|filtered|, i requires 0 <= i < |filtered| => LimitFactor(Progress(filtered[i]), DaysLeft(filtered[i], today)))
  }

  // ------------------------------------------------------------ Scores and winner

  /** The weighted sum; the weights add up to 0.9 in the design. */
  function Weighted(profitNorm: real, relevanceNorm: real, limitFactor: real): real {
    0.5 * profitNorm + 0.25 * relevanceNorm + 0.15 * limitFactor
  }

  /** Fewer than ten candidates are normalised by their maximum, ten or more by min-max. */
  function Normalize(values: seq<real>): (r: seq<real>)
    requires |values| > 0
    ensures |r| == |values|
    ensures (forall i :: 0 <= i < |values| ==> values[i] >= 0.0) ==>
              forall i :: 0 <= i < |r| ==> 0.0 <= r[i] <= 1.0
    ensures Max(values) > 0.0 ==> forall i :: 0 <= i < |r| && values[i] == Max(values) ==> r[i] == 1.0
  {
    if |values| < 10 then MaxNormalization(values) else LinearNormalization(values)
  }

  /** The weighted score of every candidate from its normalised factors. */
  function WeightedScores(profitNorms: seq<real>, relevanceNorms: seq<real>, limits: seq<real>): (s: seq<real>)
    requires |profitNorms| == |relevanceNorms| == |limits|
    ensures |s| == |limits|
  {
    seq(|limits|, i requires 0 <= i < |limits| => Weighted(profitNorms[i], relevanceNorms[i], limits[i]))
  }

  function CompositeScores(filtered: seq<Campaign>, client: ClientId, today: int, scores: ScoreTable): (s: seq<real>)
    requires |filtered| > 0
    requires forall c :: c in filtered ==> TotalDays(c) != 0
    ensures |s| == |filtered|
  {
    var relevances := Relevances(filtered, client, scores);
    WeightedScores(Normalize(Profits(filtered, relevances)), Normalize(relevances), LimitFactors(filtered, today))
  }

  /** The index a left-to-right scan with a strict `>` ends on: the first maximum. */
  function FirstArgMax(s: seq<real>): (k: nat)
    requires |s| > 0
    ensures k < |s|
    ensures forall j :: 0 <= j < |s| ==> s[j] <= s[k]
    ensures forall j :: 0 <= j < k ==> s[j] < s[k]
  {
    if |s| == 1 then 0
    else
      var k := FirstArgMax(s[..|s| - 1]);
      assert forall j :: 0 <= j < |s| - 1 ==> s[..|s| - 1][j] == s[j];
      if s[|s| - 1] > s[k] then |s| - 1 else k
  }

  /** The campaigns whose pacing factor can be computed (a window of non-zero length). */
  predicate Rankable(campaigns: seq<Campaign>) {
    forall c :: c in campaigns ==> TotalDays(c) != 0
  }

  /**
   * `select_best_campaign`: none when no campaign survives the filter,
   * otherwise the first survivor with the highest composite score.
   */
  function SelectBest(client: ClientId, campaigns: seq<Campaign>, today: int,
                      impressions: seq<Record>, scores: ScoreTable): (r: Option<Campaign>)
    requires Rankable(campaigns)
    ensures r.None? <==> Filter(campaigns, client, impressions) == []
    ensures r.Some? ==> r.value in campaigns && Eligible(r.value, client, impressions)
    ensures r.Some? ==>
              var f := Filter(campaigns, client, impressions);
              var s := CompositeScores(f, client, today, scores);
              exists k :: 0 <= k < |f| && f[k] == r.value
                && (forall j :: 0 <= j < |f| ==> s[j] <= s[k])
                && (forall j :: 0 <= j < k ==> s[j] < s[k])
  {
    var filtered := Filter(campaigns, client, impressions);
    if |filtered| == 0 then None
    else
      var k := FirstArgMax(CompositeScores(filtered, client, today, scores));
      assert filtered[k] in filtered;
      Some(filtered[k])
  }

  /** The first loop of `select_best_campaign`: the relevance of every candidate, by appending. */
  method CollectRelevances(filtered: seq<Campaign>, client: ClientId, scores: ScoreTable) returns (relevances: seq<real>)
    ensures relevances == Relevances(filtered, client, scores)
  {
    relevances := [];
    for i := 0 to |filtered|
      invariant |relevances| == i
      invariant forall j :: 0 <= j < i ==> relevances[j] == Relevance(filtered[j], client, scores) as real
    {
      relevances := relevances + [Relevance(filtered[i], client, scores) as real];
    }
  }

  /** The second loop: profit and pacing factor of every candidate, by appending. */
  method CollectFactors(filtered: seq<Campaign>, relevances: seq<real>, today: int)
    returns (profits: seq<real>, limitFactors: seq<real>)
    requires |relevances| == |filtered| > 0
    requires forall c :: c in filtered ==> TotalDays(c) != 0
    ensures profits == Profits(filtered, relevances)
    ensures limitFactors == LimitFactors(filtered, today)
  {
    var maxRelevance := MaxOr1(relevances);
    profits, limitFactors := [], [];
    for i := 0 to |filtered|
      invariant |profits| == |limitFactors| == i
      invariant forall j :: 0 <= j < i ==> profits[j] == Profit(filtered[j], relevances[j] / maxRelevance)
      invariant forall j :: 0 <= j < i ==>
                  limitFactors[j] == LimitFactor(Progress(filtered[j]), DaysLeft(filtered[j], today))
    {
      var clickProb := relevances[i] / maxRelevance;
      profits := profits + [Profit(filtered[i], clickProb)];
      assert filtered[i] in filtered;
      var limitFactor := LimitFactor(Progress(filtered[i]), DaysLeft(filtered[i], today));
      limitFactors := limitFactors + [limitFactor];
    }
  }

  /**
   * The last loop: a running best whose score starts at minus infinity
   * (`None`) and is replaced only by a strictly greater score.
   */
  method PickBest(filtered: seq<Campaign>, profitNorms: seq<real>, relevanceNorms: seq<real>, limitFactors: seq<real>)
    returns (best: Option<Campaign>)
    requires |profitNorms| == |relevanceNorms| == |limitFactors| == |filtered| > 0
    ensures best == Some(filtered[FirstArgMax(WeightedScores(profitNorms, relevanceNorms, limitFactors))])
  {
    ghost var s := WeightedScores(profitNorms, relevanceNorms, limitFactors);
    var bestScore: Option<real> := None;
    best := None;
    for i := 0 to |filtered|
      invariant i == 0 ==> best.None? && bestScore.None?
      invariant i > 0 ==> best == Some(filtered[FirstArgMax(s[..i])]) && bestScore == Some(s[FirstArgMax(s[..i])])
    {
      var score := Weighted(profitNorms[i], relevanceNorms[i], limitFactors[i]);
      assert s[..i + 1][..i] == s[..i];
      if bestScore.None? || score > bestScore.value {
        bestScore, best := Some(score), Some(filtered[i]);
      }
    }
    assert s[..|filtered|] == s;
  }

  /** `select_best_campaign`, proved against `SelectBest`. */
  method SelectBestCampaign(client: ClientId, campaigns: seq<Campaign>, today: int,
                            impressions: seq<Record>, scores: ScoreTable) returns (best: Option<Campaign>)
    requires Rankable(campaigns)
    ensures best == SelectBest(client, campaigns, today, impressions, scores)
  {
    var filtered := Filter(campaigns, client, impressions);
    if |filtered| == 0 {
      return None;
    }
    var relevances := CollectRelevances(filtered, client, scores);
    var profits, limitFactors := CollectFactors(filtered, relevances, today);
    var profitNorms, relevanceNorms;
    if |filtered| < 10 {
      profitNorms := MaxNormalization(profits);
      relevanceNorms := MaxNormalization(relevances);
    } else {
      profitNorms := LinearNormalization(profits);
      relevanceNorms := LinearNormalization(relevances);
    }
    best := PickBest(filtered, profitNorms, relevanceNorms, limitFactors);
  }

  /** Once the client has an impression of a campaign, no later selection returns that campaign. */
  lemma NeverReselected(client: ClientId, campaigns: seq<Campaign>, today: int,
                        impressions: seq<Record>, scores: ScoreTable, served: Record)
    requires Rankable(campaigns)
    requires served.client == client
    ensures var r := SelectBest(client, campaigns, today, impressions + [served], scores);
            r.Some? ==> r.value.id != served.campaign
  {
    var after := impressions + [served];
    assert after[|impressions|] == served;
    assert HasRow(after, client, served.campaign);
  }
}
