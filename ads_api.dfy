/**
 * The serving endpoints (ads/api.py): `get_ads` picks the campaigns whose
 * targeting and dates admit the client, ranks them with
 * `select_best_campaign` and records an impression of the winner; `click`
 * records at most one click per client and campaign, and only after an
 * impression.
 */
module AdsApi {
  import opened Common
  import opened AdvertiserModels
  import opened ClientModels
  import opened AdScore
  import opened Database
  import opened TimeEmulation

  // --------------------------------------------------------------- Candidates

  /**
   * The targeting part of the candidate query. A campaign without
   * targeting joins to nulls, so it passes every clause.
   */
  predicate TargetingMatches(targeting: Option<Targeting>, client: Client) {
    targeting.None? ||
    var t := targeting.value;
    && (t.gender.None? || t.gender.value == "ALL" || t.gender.value == client.gender)
    && (t.ageFrom.None? || t.ageFrom.value <= client.age)
    && (t.ageTo.None? || t.ageTo.value >= client.age)
    && (t.location.None? || t.location.value == client.location)
  }

  /** A candidate matches the client's targeting and runs today. */
  predicate IsCandidate(c: Campaign, client: Client, today: int) {
    TargetingMatches(c.targeting, client) && c.startDate <= today <= c.endDate
  }

  /** The candidate query, in storage order. */
  function Candidates(campaigns: seq<Campaign>, client: Client, today: int): (r: seq<Campaign>)
    ensures |r| <= |campaigns|
    ensures forall c :: c in r <==> c in campaigns && IsCandidate(c, client, today)
    ensures Rankable(r)
  {
    if |campaigns| == 0 then []
    else
      var init := campaigns[..|campaigns| - 1];
      var last := campaigns[|campaigns| - 1];
      assert campaigns == init + [last];
      var p := Candidates(init, client, today);
      if IsCandidate(last, client, today) then p + [last] else p
  }

  /** A campaign without targeting is a candidate for every client exactly on the days of its window. */
  lemma UntargetedMatchesEveryone(c: Campaign, client: Client, today: int)
    requires c.targeting.None?
    ensures IsCandidate(c, client, today) <==> c.startDate <= today <= c.endDate
  {
  }

  // -------------------------------------------------------------------- Serve

  /** The campaign `get_ads` would pick for a stored client. */
  function Winner(t: Tables, clientId: ClientId, today: int): Option<Campaign>
    requires clientId in t.clients
  {
    SelectBest(clientId, Candidates(t.campaigns, t.clients[clientId], today), today, t.impressions, t.scores)
  }

  /**
   * `get_ads`: not found for an unknown client or when nothing can be
   * shown; otherwise the winner's impression counter goes up by one and
   * one Impression row (client, today, cost per impression) is added.
   */
  function Serve(t: Tables, clientId: ClientId, today: int): (o: Outcome<Campaign>)
    ensures o.response.Err? ==> o.response.error == NotFound && o.after == t
    ensures o.response.Ok? <==> clientId in t.clients && Winner(t, clientId, today).Some?
    ensures o.response.Ok? ==>
              var c := Winner(t, clientId, today).value;
              var k := IndexOf(t.campaigns, c.id);
              && k < |t.campaigns|
              && IsCandidate(c, t.clients[clientId], today)
              && !HasRow(t.impressions, clientId, c.id)
              && o.response.value == c.(impressionsCount := c.impressionsCount + 1)
              && o.after == t.(campaigns := t.campaigns[k := o.response.value],
                               impressions := t.impressions + [Record(clientId, c.id, today, c.costPerImpression)])
  {
    if clientId !in t.clients then Outcome(Err(NotFound), t)
    else
      var candidates := Candidates(t.campaigns, t.clients[clientId], today);
      if |candidates| == 0 then Outcome(Err(NotFound), t)
      else match Winner(t, clientId, today)
        case None => Outcome(Err(NotFound), t)
        case Some(best) =>
          InHasCampaign(t.campaigns, best);
          var served := best.(impressionsCount := best.impressionsCount + 1);
          var k := IndexOf(t.campaigns, best.id);
          Outcome(Ok(served), t.(campaigns := t.campaigns[k := served],
                                 impressions := t.impressions + [Record(clientId, best.id, today, best.costPerImpression)]))
  }

  /** Overwriting campaign k and appending a row of k's campaign to one table keeps the row tables referring. */
  lemma ReplaceKeepsRowsReferring(t: Tables, t2: Tables, k: nat)
    requires RowsRefer(t.impressions, t) && RowsRefer(t.clicks, t)
    requires k < |t.campaigns| && |t2.campaigns| == |t.campaigns|
    requires t2.campaigns[k].id == t.campaigns[k].id
    requires forall j :: 0 <= j < |t.campaigns| && j != k ==> t2.campaigns[j] == t.campaigns[j]
    requires t2.clients == t.clients
    requires forall r :: r in t2.impressions ==> r in t.impressions || (r.client in t.clients && r.campaign == t.campaigns[k].id)
    requires forall r :: r in t2.clicks ==> r in t.clicks || (r.client in t.clients && r.campaign == t.campaigns[k].id)
    ensures RowsRefer(t2.impressions, t2) && RowsRefer(t2.clicks, t2)
  {
    assert t2.campaigns == t.campaigns[k := t2.campaigns[k]];
    ReplaceKeepsIds(t.campaigns, k, t2.campaigns[k]);
    assert HasCampaign(t2.campaigns, t.campaigns[k].id) by {
      assert t2.campaigns[k].id == t.campaigns[k].id;
    }
  }

  /** Serving keeps the store consistent. */
  lemma ServeKeepsConsistent(t: Tables, clientId: ClientId, today: int)
    requires Consistent(t)
    ensures Consistent(Serve(t, clientId, today).after)
  {
    var o := Serve(t, clientId, today);
    if o.response.Ok? {
      var c := Winner(t, clientId, today).value;
      var k := IndexOf(t.campaigns, c.id);
      var row := Record(clientId, c.id, today, c.costPerImpression);
      ServedIsStored(t, c, k);
      assert o.after == t.(campaigns := t.campaigns[k := c.(impressionsCount := c.impressionsCount + 1)],
                           impressions := t.impressions + [row]);
      ImpressionKeepsConsistent(t, k, row);
    }
  }

  /** With unique ids, a stored campaign sits at the index of its id. */
  lemma ServedIsStored(t: Tables, c: Campaign, k: nat)
    requires UniqueIds(t.campaigns) && c in t.campaigns && k == IndexOf(t.campaigns, c.id)
    ensures k < |t.campaigns| && t.campaigns[k] == c
  {
    var i :| 0 <= i < |t.campaigns| && t.campaigns[i] == c;
    InHasCampaign(t.campaigns, c);
  }

  /** Bumping campaign k's impression counter and appending a first impression row of it keeps the store consistent. */
  lemma ImpressionKeepsConsistent(t: Tables, k: nat, row: Record)
    requires Consistent(t)
    requires k < |t.campaigns| && row.campaign == t.campaigns[k].id && row.client in t.clients
    requires row.cost == t.campaigns[k].costPerImpression
    requires !HasRow(t.impressions, row.client, row.campaign)
    ensures var c := t.campaigns[k];
            Consistent(t.(campaigns := t.campaigns[k := c.(impressionsCount := c.impressionsCount + 1)],
                          impressions := t.impressions + [row]))
  {
    var c := t.campaigns[k];
    var t2 := t.(campaigns := t.campaigns[k := c.(impressionsCount := c.impressionsCount + 1)],
                 impressions := t.impressions + [row]);
    EntitiesAfterCounterBump(t, k, t2);
    ImpressionRowsKept(t, k, row, t2);
    BumpImpressions(t.campaigns, k, t.impressions, t.clicks, row);
  }

  /** Appending a first impression of campaign k keeps the row tables well formed. */
  lemma ImpressionRowsKept(t: Tables, k: nat, row: Record, t2: Tables)
    requires Consistent(t)
    requires k < |t.campaigns| && row.campaign == t.campaigns[k].id && row.client in t.clients
    requires row.cost == t.campaigns[k].costPerImpression
    requires !HasRow(t.impressions, row.client, row.campaign)
    requires |t2.campaigns| == |t.campaigns| && t2.campaigns == t.campaigns[k := t2.campaigns[k]]
    requires t2.campaigns[k].id == row.campaign
    requires t2.clients == t.clients && t2.clicks == t.clicks && t2.impressions == t.impressions + [row]
    ensures RowsOk(t2)
  {
    ReplaceKeepsRowsReferring(t, t2, k);
    assert t.campaigns[k] in t.campaigns;
    CostsAppend(t.impressions, row);
    UniquePairsAppend(t.impressions, row);
    forall r | r in t2.clicks
      ensures HasRow(t2.impressions, r.client, r.campaign)
    {
      HasRowAppend(t.impressions, row, r.client, r.campaign);
    }
  }

  /** Once served to a client, a campaign is never served to that client again, whatever the day. */
  lemma NeverServedTwice(t: Tables, clientId: ClientId, today: int, later: int)
    requires Serve(t, clientId, today).response.Ok?
    ensures var first := Serve(t, clientId, today);
            var second := Serve(first.after, clientId, later);
            second.response.Ok? ==> second.response.value.id != first.response.value.id
  {
    var first := Serve(t, clientId, today);
    var c := Winner(t, clientId, today).value;
    HasRowAppend(t.impressions, Record(clientId, c.id, today, c.costPerImpression), clientId, c.id);
  }

  /** `get_ads` on the store, proved against `Serve`; the store stays consistent. */
  method GetAds(db: Db, clock: Clock, clientId: ClientId) returns (r: Result<Campaign>)
    requires db.Valid()
    modifies db
    ensures Outcome(r, db.Snapshot()) == Serve(old(db.Snapshot()), clientId, clock.date)
    ensures db.Valid()
  {
    ServeKeepsConsistent(db.Snapshot(), clientId, clock.date);
    r := ServeFromStore(db, clock, clientId);
  }

  /** The body of `get_ads`: select among the candidates, then record the impression of the winner. */
  method ServeFromStore(db: Db, clock: Clock, clientId: ClientId) returns (r: Result<Campaign>)
    modifies db
    ensures Outcome(r, db.Snapshot()) == Serve(old(db.Snapshot()), clientId, clock.date)
  {
    ghost var t := db.Snapshot();
    var best := None;
    if clientId in db.clients {
      var today := clock.GetDate();
      best := PickWinner(db, clientId, today);
    }
    if best.None? {
      r := Err(NotFound);
    } else {
      var c := best.value;
      InHasCampaign(db.campaigns, c);
      r := RecordImpression(db, clientId, clock.GetDate(), c);
      ServeWinner(t, clientId, clock.date, c);
    }
  }

  /** When the client is stored and there is a winner, `Serve` records an impression of it. */
  lemma ServeWinner(t: Tables, clientId: ClientId, today: int, c: Campaign)
    requires clientId in t.clients && Winner(t, clientId, today) == Some(c)
    ensures HasCampaign(t.campaigns, c.id)
    ensures Serve(t, clientId, today).response == Ok(c.(impressionsCount := c.impressionsCount + 1))
    ensures Serve(t, clientId, today).after ==
              t.(campaigns := t.campaigns[IndexOf(t.campaigns, c.id) := c.(impressionsCount := c.impressionsCount + 1)],
                 impressions := t.impressions + [Record(clientId, c.id, today, c.costPerImpression)])
  {
    assert Serve(t, clientId, today).response.Ok?;
  }

  /** The candidate query and `select_best_campaign`; an empty candidate list gives no winner. */
  method PickWinner(db: Db, clientId: ClientId, today: int) returns (best: Option<Campaign>)
    requires clientId in db.clients
    ensures best == Winner(db.Snapshot(), clientId, today)
  {
    var campaigns := Candidates(db.campaigns, db.clients[clientId], today);
    if |campaigns| == 0 {
      return None;
    }
    best := SelectBestCampaign(clientId, campaigns, today, db.impressions, db.scores);
  }

  /** Records an impression of a stored campaign: its counter rises by one and one Impression row is added. */
  method RecordImpression(db: Db, clientId: ClientId, today: int, c: Campaign) returns (r: Result<Campaign>)
    requires HasCampaign(db.campaigns, c.id)
    modifies db
    ensures r == Ok(c.(impressionsCount := c.impressionsCount + 1))
    ensures db.Snapshot() == old(db.Snapshot()).(campaigns := old(db.campaigns)[IndexOf(old(db.campaigns), c.id) := r.value],
                                                 impressions := old(db.impressions) + [Record(clientId, c.id, today, c.costPerImpression)])
  {
    var k := IndexOf(db.campaigns, c.id);
    var served := c.(impressionsCount := c.impressionsCount + 1);
    db.impressions := db.impressions + [Record(clientId, c.id, today, c.costPerImpression)];
    db.campaigns := db.campaigns[k := served];
    r := Ok(served);
  }

  // -------------------------------------------------------------------- Click

  /**
   * `click`: not found for an unknown campaign, then for an unknown
   * client; forbidden without an impression; the first click raises the
   * click counter and adds one Click row (client, today, cost per click),
   * a repeated click changes nothing.
   */
  function ClickOn(t: Tables, adId: CampaignId, clientId: ClientId, today: int): (o: Outcome<()>)
    ensures o.response == Err(NotFound) <==> !HasCampaign(t.campaigns, adId) || clientId !in t.clients
    ensures o.response == Err(Forbidden) <==>
              HasCampaign(t.campaigns, adId) && clientId in t.clients && !HasRow(t.impressions, clientId, adId)
    ensures o.response.Ok? <==>
              HasCampaign(t.campaigns, adId) && clientId in t.clients && HasRow(t.impressions, clientId, adId)
    ensures o.response.Err? ==> o.after == t
    ensures o.response.Ok? && HasRow(t.clicks, clientId, adId) ==> o.after == t
    ensures o.response.Ok? && !HasRow(t.clicks, clientId, adId) ==>
              var k := IndexOf(t.campaigns, adId);
              var c := t.campaigns[k];
              && |o.after.campaigns| == |t.campaigns|
              && o.after.campaigns[k] == c.(clicksCount := c.clicksCount + 1)
              && (forall j :: 0 <= j < |t.campaigns| && j != k ==> o.after.campaigns[j] == t.campaigns[j])
              && o.after.clicks == t.clicks + [Record(clientId, adId, today, c.costPerClick)]
              && o.after.impressions == t.impressions
              && o.after.advertisers == t.advertisers
              && o.after.clients == t.clients
              && o.after.scores == t.scores
  {
    var k := IndexOf(t.campaigns, adId);
    if k == |t.campaigns| then Outcome(Err(NotFound), t)
    else if clientId !in t.clients then Outcome(Err(NotFound), t)
    else if !HasRow(t.impressions, clientId, adId) then Outcome(Err(Forbidden), t)
    else if HasRow(t.clicks, clientId, adId) then Outcome(Ok(()), t)
    else
      var c := t.campaigns[k];
      Outcome(Ok(()), t.(campaigns := t.campaigns[k := c.(clicksCount := c.clicksCount + 1)],
                         clicks := t.clicks + [Record(clientId, adId, today, c.costPerClick)]))
  }

  /** Clicking keeps the store consistent. */
  lemma ClickKeepsConsistent(t: Tables, adId: CampaignId, clientId: ClientId, today: int)
    requires Consistent(t)
    ensures Consistent(ClickOn(t, adId, clientId, today).after)
  {
    var o := ClickOn(t, adId, clientId, today);
    if o.response.Ok? && !HasRow(t.clicks, clientId, adId) {
      var k := IndexOf(t.campaigns, adId);
      var c := t.campaigns[k];
      var row := Record(clientId, adId, today, c.costPerClick);
      assert o.after == t.(campaigns := t.campaigns[k := c.(clicksCount := c.clicksCount + 1)], clicks := t.clicks + [row]);
      FirstClickKeepsConsistent(t, k, row);
    }
  }

  /** Bumping campaign k's click counter and appending a first click row of it keeps the store consistent. */
  lemma FirstClickKeepsConsistent(t: Tables, k: nat, row: Record)
    requires Consistent(t)
    requires k < |t.campaigns| && row.campaign == t.campaigns[k].id && row.client in t.clients
    requires row.cost == t.campaigns[k].costPerClick
    requires HasRow(t.impressions, row.client, row.campaign) && !HasRow(t.clicks, row.client, row.campaign)
    ensures var c := t.campaigns[k];
            Consistent(t.(campaigns := t.campaigns[k := c.(clicksCount := c.clicksCount + 1)],
                          clicks := t.clicks + [row]))
  {
    var c := t.campaigns[k];
    var t2 := t.(campaigns := t.campaigns[k := c.(clicksCount := c.clicksCount + 1)],
                 clicks := t.clicks + [row]);
    EntitiesAfterCounterBump(t, k, t2);
    ClickRowsKept(t, k, row, t2);
    BumpClicks(t.campaigns, k, t.impressions, t.clicks, row);
    assert CountersMatch(t2);
  }

  /** Appending a first click of campaign k, which the client saw, keeps the row tables well formed. */
  lemma ClickRowsKept(t: Tables, k: nat, row: Record, t2: Tables)
    requires Consistent(t)
    requires k < |t.campaigns| && row.campaign == t.campaigns[k].id && row.client in t.clients
    requires row.cost == t.campaigns[k].costPerClick
    requires HasRow(t.impressions, row.client, row.campaign) && !HasRow(t.clicks, row.client, row.campaign)
    requires |t2.campaigns| == |t.campaigns| && t2.campaigns == t.campaigns[k := t2.campaigns[k]]
    requires t2.campaigns[k].id == row.campaign
    requires t2.clients == t.clients && t2.impressions == t.impressions && t2.clicks == t.clicks + [row]
    ensures RowsOk(t2)
  {
    ReplaceKeepsRowsReferring(t, t2, k);
    assert t.campaigns[k] in t.campaigns;
    CostsAppend(t.clicks, row);
    UniquePairsAppend(t.clicks, row);
    forall r | r in t2.clicks
      ensures HasRow(t2.impressions, r.client, r.campaign)
    {
      if r !in t.clicks {
        assert r == row;
      }
    }
  }

  /** A click that succeeded leaves a Click row for the pair. */
  lemma ClickRecorded(t: Tables, adId: CampaignId, clientId: ClientId, today: int)
    requires ClickOn(t, adId, clientId, today).response.Ok?
    ensures HasRow(ClickOn(t, adId, clientId, today).after.clicks, clientId, adId)
  {
    if !HasRow(t.clicks, clientId, adId) {
      HasRowAppend(t.clicks, Record(clientId, adId, today, t.campaigns[IndexOf(t.campaigns, adId)].costPerClick), clientId, adId);
    }
  }

  /** A second click by the same client, on any day, succeeds and changes nothing. */
  lemma ClickIdempotent(t: Tables, adId: CampaignId, clientId: ClientId, today: int, later: int)
    requires ClickOn(t, adId, clientId, today).response.Ok?
    ensures var first := ClickOn(t, adId, clientId, today);
            ClickOn(first.after, adId, clientId, later) == Outcome(Ok(()), first.after)
  {
    var first := ClickOn(t, adId, clientId, today);
    ClickRecorded(t, adId, clientId, today);
    if !HasRow(t.clicks, clientId, adId) {
      var k := IndexOf(t.campaigns, adId);
      ReplaceKeepsIds(t.campaigns, k, first.after.campaigns[k]);
      assert first.after.campaigns == t.campaigns[k := first.after.campaigns[k]];
    }
  }

  /** Two clicks by a client who saw the ad and had not clicked raise the counter by exactly one. */
  lemma TwoClicksCountOnce(t: Tables, adId: CampaignId, clientId: ClientId, today: int, later: int)
    requires HasCampaign(t.campaigns, adId) && clientId in t.clients
    requires HasRow(t.impressions, clientId, adId) && !HasRow(t.clicks, clientId, adId)
    ensures var k := IndexOf(t.campaigns, adId);
            var twice := ClickOn(ClickOn(t, adId, clientId, today).after, adId, clientId, later).after;
            twice.campaigns[k].clicksCount == t.campaigns[k].clicksCount + 1
  {
    ClickIdempotent(t, adId, clientId, today, later);
  }

  /** `click` on the store, proved against `ClickOn`; the store stays consistent. */
  method Click(db: Db, clock: Clock, adId: CampaignId, clientId: ClientId) returns (r: Result<()>)
    requires db.Valid()
    modifies db
    ensures Outcome(r, db.Snapshot()) == ClickOn(old(db.Snapshot()), adId, clientId, clock.date)
    ensures db.Valid()
  {
    ClickKeepsConsistent(db.Snapshot(), adId, clientId, clock.date);
    r := ClickOnStore(db, clock, adId, clientId);
  }

  /** The body of `click`: the lookups, the impression check, and the first click's row and counter. */
  method ClickOnStore(db: Db, clock: Clock, adId: CampaignId, clientId: ClientId) returns (r: Result<()>)
    modifies db
    ensures Outcome(r, db.Snapshot()) == ClickOn(old(db.Snapshot()), adId, clientId, clock.date)
  {
    var k := IndexOf(db.campaigns, adId);
    if k == |db.campaigns| {
      return Err(NotFound);
    }
    if clientId !in db.clients {
      return Err(NotFound);
    }
    if !HasRow(db.impressions, clientId, adId) {
      return Err(Forbidden);
    }
    if !HasRow(db.clicks, clientId, adId) {
      var campaign := db.campaigns[k];
      campaign := campaign.(clicksCount := campaign.clicksCount + 1);
      db.clicks := db.clicks + [Record(clientId, adId, clock.GetDate(), campaign.costPerClick)];
      db.campaigns := db.campaigns[k := campaign];
    }
    r := Ok(());
  }
}
