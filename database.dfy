/**
 * The relational store behind the endpoints, as in-memory tables: the
 * advertisers, the campaigns (a sequence in storage order, which is the
 * order of every query result and so decides ties and pages), the
 * clients, the ML scores keyed by (client, advertiser), and the
 * Impression and Click tables. `Consistent` states the integrity the
 * model keeps: foreign keys, unique ids, at most one impression and one
 * click per (client, campaign), a click only after an impression, and
 * campaign counters equal to the number of their rows.
 */
module Database {
  import opened Common
  import opened AdvertiserModels
  import opened ClientModels
  import opened AdScore

  /** A snapshot of every table. */
  datatype Tables = Tables(
    advertisers: map<AdvertiserId, string>,
    campaigns: seq<Campaign>,
    clients: map<ClientId, Client>,
    scores: ScoreTable,
    impressions: seq<Record>,
    clicks: seq<Record>)

  const EmptyTables := Tables(map[], [], map[], map[], [], [])

  /** What a request answers, and the tables once it has committed. */
  datatype Outcome<T> = Outcome(response: Result<T>, after: Tables)

  // ------------------------------------------------------------------ Lookups

  predicate HasCampaign(campaigns: seq<Campaign>, id: CampaignId) {
    exists i :: 0 <= i < |campaigns| && campaigns[i].id == id
  }

  /** Position of the first campaign with this id, or the length when there is none. */
  function IndexOf(campaigns: seq<Campaign>, id: CampaignId): (k: nat)
    ensures k <= |campaigns|
    ensures k < |campaigns| ==> campaigns[k].id == id
    ensures forall j :: 0 <= j < k ==> campaigns[j].id != id
    ensures k == |campaigns| <==> !HasCampaign(campaigns, id)
  {
    if |campaigns| == 0 then 0
    else if campaigns[0].id == id then 0
    else
      var k := 1 + IndexOf(campaigns[1..], id);
      assert forall j :: 1 <= j < |campaigns| ==> campaigns[j] == campaigns[1..][j - 1];
      k
  }

  /** The rows of the given campaigns, in table order (`filter(campaign__in=...)`). */
  function RowsOf(rows: seq<Record>, ids: set<CampaignId>): (r: seq<Record>)
    ensures |r| <= |rows|
    ensures forall x :: x in r <==> x in rows && x.campaign in ids
  {
    if |rows| == 0 then []
    else
      var init := rows[..|rows| - 1];
      var last := rows[|rows| - 1];
      assert rows == init + [last];
      var p := RowsOf(init, ids);
      if last.campaign in ids then p + [last] else p
  }

  /** Rows of none of the given campaigns filter to nothing. */
  lemma {:induction false} RowsOfNone(rows: seq<Record>, ids: set<CampaignId>)
    requires forall x :: x in rows ==> x.campaign !in ids
    ensures RowsOf(rows, ids) == []
  {
    if |rows| > 0 {
      var init := rows[..|rows| - 1];
      assert rows == init + [rows[|rows| - 1]];
      RowsOfNone(init, ids);
    }
  }

  /** Number of rows of one campaign. */
  function CountFor(rows: seq<Record>, id: CampaignId): nat {
    |RowsOf(rows, {id})|
  }

  /** The rows of every campaign but one: what a cascading delete leaves. */
  function RowsExcept(rows: seq<Record>, id: CampaignId): (r: seq<Record>)
    ensures |r| <= |rows|
    ensures forall x :: x in r <==> x in rows && x.campaign != id
  {
    if |rows| == 0 then []
    else
      var init := rows[..|rows| - 1];
      var last := rows[|rows| - 1];
      assert rows == init + [last];
      var p := RowsExcept(init, id);
      if last.campaign != id then p + [last] else p
  }

  lemma RowsOfAppend(rows: seq<Record>, x: Record, ids: set<CampaignId>)
    ensures RowsOf(rows + [x], ids) == if x.campaign in ids then RowsOf(rows, ids) + [x] else RowsOf(rows, ids)
  {
    assert (rows + [x])[..|rows|] == rows;
  }

  /** Appending a row adds one to its own campaign's count and nothing to the others'. */
  lemma CountForAppend(rows: seq<Record>, x: Record, id: CampaignId)
    ensures CountFor(rows + [x], id) == CountFor(rows, id) + (if x.campaign == id then 1 else 0)
  {
    RowsOfAppend(rows, x, {id});
  }

  /** Removing one campaign's rows leaves every other campaign's count as it was. */
  lemma {:induction false} CountForExcept(rows: seq<Record>, removed: CampaignId, id: CampaignId)
    requires id != removed
    ensures CountFor(RowsExcept(rows, removed), id) == CountFor(rows, id)
  {
    if |rows| > 0 {
      var init := rows[..|rows| - 1];
      var last := rows[|rows| - 1];
      assert rows == init + [last];
      CountForExcept(init, removed, id);
      RowsOfAppend(init, last, {id});
      if last.campaign != removed {
        RowsOfAppend(RowsExcept(init, removed), last, {id});
      }
    }
  }

  lemma InHasCampaign(campaigns: seq<Campaign>, c: Campaign)
    requires c in campaigns
    ensures HasCampaign(campaigns, c.id)
  {
    var i :| 0 <= i < |campaigns| && campaigns[i] == c;
  }

  /** Overwriting one campaign by a campaign with the same id keeps the set of ids and their uniqueness. */
  lemma ReplaceKeepsIds(campaigns: seq<Campaign>, k: nat, c: Campaign)
    requires k < |campaigns| && campaigns[k].id == c.id
    ensures forall id :: HasCampaign(campaigns[k := c], id) <==> HasCampaign(campaigns, id)
    ensures UniqueIds(campaigns) ==> UniqueIds(campaigns[k := c])
  {
    var after := campaigns[k := c];
    forall id | HasCampaign(campaigns, id)
      ensures HasCampaign(after, id)
    {
      var i :| 0 <= i < |campaigns| && campaigns[i].id == id;
      assert after[i].id == id;
    }
    forall id | HasCampaign(after, id)
      ensures HasCampaign(campaigns, id)
    {
      var i :| 0 <= i < |after| && after[i].id == id;
      assert campaigns[i].id == id;
    }
  }

  /** A row, once present, stays present when rows are appended. */
  lemma HasRowAppend(rows: seq<Record>, x: Record, client: ClientId, campaign: CampaignId)
    ensures HasRow(rows + [x], client, campaign) <==>
              HasRow(rows, client, campaign) || (x.client == client && x.campaign == campaign)
  {
    var after := rows + [x];
    if HasRow(rows, client, campaign) {
      var k :| 0 <= k < |rows| && rows[k].client == client && rows[k].campaign == campaign;
      assert after[k] == rows[k];
    }
    if x.client == client && x.campaign == campaign {
      assert after[|rows|] == x;
    }
    if HasRow(after, client, campaign) {
      var k :| 0 <= k < |after| && after[k].client == client && after[k].campaign == campaign;
      if k < |rows| {
        assert rows[k] == after[k];
      }
    }
  }

  // ---------------------------------------------------------------- Integrity

  predicate UniqueIds(campaigns: seq<Campaign>) {
    forall i, j :: 0 <= i < j < |campaigns| ==> campaigns[i].id != campaigns[j].id
  }

  /** At most one row per (client, campaign): the M2M `add` never duplicates a pair. */
  predicate UniquePairs(rows: seq<Record>) {
    forall i, j :: 0 <= i < j < |rows| ==>
      rows[i].client != rows[j].client || rows[i].campaign != rows[j].campaign
  }

  /** A stored campaign passed validation when it was saved and belongs to a stored advertiser. */
  predicate StoredCampaign(c: Campaign, advertisers: map<AdvertiserId, string>) {
    && CampaignFieldsValid(c)
    && c.startDate <= c.endDate
    && c.clicksLimit <= c.impressionsLimit
    && (c.targeting.Some? ==> TargetingValid(c.targeting.value))
    && c.advertiser in advertisers
  }

  /** Costs are copied from a validated campaign, so they are never negative. */
  predicate CostsNonNegative(rows: seq<Record>) {
    forall r :: r in rows ==> r.cost >= 0.0
  }

  predicate RowsRefer(rows: seq<Record>, t: Tables) {
    forall r :: r in rows ==> r.client in t.clients && HasCampaign(t.campaigns, r.campaign)
  }

  /** Every campaign's two counters equal the number of its rows. */
  predicate CountsMatch(campaigns: seq<Campaign>, impressions: seq<Record>, clicks: seq<Record>) {
    forall c :: c in campaigns ==>
      c.impressionsCount == CountFor(impressions, c.id) && c.clicksCount == CountFor(clicks, c.id)
  }

  predicate CountersMatch(t: Tables) {
    CountsMatch(t.campaigns, t.impressions, t.clicks)
  }

  /** Stored entities are valid, campaign ids unique and every score keyed by stored entities. */
  predicate EntitiesOk(t: Tables) {
    && (forall a :: a in t.advertisers ==> |t.advertisers[a]| > 0)
    && (forall id :: id in t.clients ==> t.clients[id].id == id && ClientValid(t.clients[id]))
    && UniqueIds(t.campaigns)
    && (forall c :: c in t.campaigns ==> StoredCampaign(c, t.advertisers))
    && (forall k :: k in t.scores ==> t.scores[k] >= 0 && k.0 in t.clients && k.1 in t.advertisers)
  }

  /** Impression and Click rows refer to stored objects, cost nothing negative, pair up once, and clicks follow impressions. */
  predicate RowsOk(t: Tables) {
    && RowsRefer(t.impressions, t) && RowsRefer(t.clicks, t)
    && CostsNonNegative(t.impressions) && CostsNonNegative(t.clicks)
    && UniquePairs(t.impressions) && UniquePairs(t.clicks)
    && (forall r :: r in t.clicks ==> HasRow(t.impressions, r.client, r.campaign))
  }

  predicate Consistent(t: Tables) {
    EntitiesOk(t) && RowsOk(t) && CountersMatch(t)
  }

  /** Adding a row with a non-negative cost keeps every cost non-negative. */
  lemma CostsAppend(rows: seq<Record>, x: Record)
    requires CostsNonNegative(rows) && x.cost >= 0.0
    ensures CostsNonNegative(rows + [x])
  {
  }

  /** Adding a row for a pair that has none keeps the pairs unique. */
  lemma UniquePairsAppend(rows: seq<Record>, x: Record)
    requires UniquePairs(rows) && !HasRow(rows, x.client, x.campaign)
    ensures UniquePairs(rows + [x])
  {
    var after := rows + [x];
    forall i, j | 0 <= i < j < |after|
      ensures after[i].client != after[j].client || after[i].campaign != after[j].campaign
    {
      if j == |rows| {
        assert after[i] == rows[i];
      }
    }
  }

  /** Overwriting a campaign with one that also passed validation keeps every campaign stored. */
  lemma ReplaceKeepsStored(campaigns: seq<Campaign>, k: nat, c: Campaign, advertisers: map<AdvertiserId, string>)
    requires k < |campaigns| && StoredCampaign(c, advertisers)
    requires forall x :: x in campaigns ==> StoredCampaign(x, advertisers)
    ensures forall x :: x in campaigns[k := c] ==> StoredCampaign(x, advertisers)
  {
    forall x | x in campaigns[k := c]
      ensures StoredCampaign(x, advertisers)
    {
      var j :| 0 <= j < |campaigns[k := c]| && campaigns[k := c][j] == x;
      if j != k {
        assert campaigns[j] in campaigns;
      }
    }
  }

  /** Replacing campaign k by a copy that differs only in its counters keeps the entities consistent. */
  lemma EntitiesAfterCounterBump(t: Tables, k: nat, t2: Tables)
    requires EntitiesOk(t) && k < |t.campaigns| && |t2.campaigns| == |t.campaigns|
    requires t2.campaigns == t.campaigns[k := t2.campaigns[k]]
    requires t2.campaigns[k] == t.campaigns[k].(impressionsCount := t2.campaigns[k].impressionsCount,
                                                clicksCount := t2.campaigns[k].clicksCount)
    requires t2.advertisers == t.advertisers && t2.clients == t.clients && t2.scores == t.scores
    ensures EntitiesOk(t2)
  {
    ReplaceKeepsIds(t.campaigns, k, t2.campaigns[k]);
    assert t.campaigns[k] in t.campaigns;
    ReplaceKeepsStored(t.campaigns, k, t2.campaigns[k], t.advertisers);
  }

  /** Raising campaign k's impression counter together with adding one of its Impression rows keeps the counts. */
  lemma BumpImpressions(campaigns: seq<Campaign>, k: nat, impressions: seq<Record>, clicks: seq<Record>, x: Record)
    requires k < |campaigns| && UniqueIds(campaigns) && x.campaign == campaigns[k].id
    requires CountsMatch(campaigns, impressions, clicks)
    ensures CountsMatch(campaigns[k := campaigns[k].(impressionsCount := campaigns[k].impressionsCount + 1)],
                        impressions + [x], clicks)
  {
    var after := campaigns[k := campaigns[k].(impressionsCount := campaigns[k].impressionsCount + 1)];
    forall c | c in after
      ensures c.impressionsCount == CountFor(impressions + [x], c.id) && c.clicksCount == CountFor(clicks, c.id)
    {
      var j :| 0 <= j < |after| && after[j] == c;
      assert campaigns[j] in campaigns;
      CountForAppend(impressions, x, c.id);
    }
  }

  /** Raising campaign k's click counter together with adding one of its Click rows keeps the counts. */
  lemma BumpClicks(campaigns: seq<Campaign>, k: nat, impressions: seq<Record>, clicks: seq<Record>, x: Record)
    requires k < |campaigns| && UniqueIds(campaigns) && x.campaign == campaigns[k].id
    requires CountsMatch(campaigns, impressions, clicks)
    ensures CountsMatch(campaigns[k := campaigns[k].(clicksCount := campaigns[k].clicksCount + 1)],
                        impressions, clicks + [x])
  {
    var after := campaigns[k := campaigns[k].(clicksCount := campaigns[k].clicksCount + 1)];
    forall c | c in after
      ensures c.impressionsCount == CountFor(impressions, c.id) && c.clicksCount == CountFor(clicks + [x], c.id)
    {
      var j :| 0 <= j < |after| && after[j] == c;
      assert campaigns[j] in campaigns;
      CountForAppend(clicks, x, c.id);
    }
  }

  /** An empty store is consistent. */
  lemma EmptyConsistent()
    ensures Consistent(EmptyTables)
  {
  }

  /** The store, one mutable field per table. */
  class Db {
    var advertisers: map<AdvertiserId, string>
    var campaigns: seq<Campaign>
    var clients: map<ClientId, Client>
    var scores: ScoreTable
    var impressions: seq<Record>
    var clicks: seq<Record>

    constructor()
      ensures Snapshot() == EmptyTables
      ensures Valid()
    {
      advertisers, campaigns, clients, scores := map[], [], map[], map[];
      impressions, clicks := [], [];
    }

    function Snapshot(): Tables
      reads this
    {
      Tables(advertisers, campaigns, clients, scores, impressions, clicks)
    }

    ghost predicate Valid()
      reads this
    {
      Consistent(Snapshot())
    }
  }
}
