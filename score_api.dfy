/**
 * The ML score endpoint (score/api): an upsert keyed by (client,
 * advertiser). An existing pair has its score overwritten; a new pair
 * needs both the client and the advertiser to exist. Either way the
 * record is validated (a score is never negative) before it is saved.
 */
module ScoreApi {
  import opened Common
  import opened AdvertiserModels
  import opened AdScore
  import opened Database

  /** `MLScore` as returned to the caller. */
  datatype ScoreRecord = ScoreRecord(client: ClientId, advertiser: AdvertiserId, score: int)

  /** The only field check of an `MLScore`: the score is at least 0. */
  predicate ScoreValid(score: int) {
    score >= 0
  }

  /**
   * `create_or_update_score`: a known pair is overwritten after validation;
   * an unknown pair reports a missing client, then a missing advertiser,
   * then an invalid score, and is otherwise inserted.
   */
  function UpsertScore(t: Tables, clientId: ClientId, advertiserId: AdvertiserId, score: int): (o: Outcome<ScoreRecord>)
    ensures o.response.Ok? <==>
      ScoreValid(score) && ((clientId, advertiserId) in t.scores || (clientId in t.clients && advertiserId in t.advertisers))
    ensures o.response.Err? ==> o.after == t
    ensures o.response.Err? && (clientId, advertiserId) in t.scores ==> o.response.error == ValidationError
    ensures o.response.Err? && (clientId, advertiserId) !in t.scores ==>
      o.response.error == (if clientId !in t.clients || advertiserId !in t.advertisers then NotFound else ValidationError)
    ensures o.response.Ok? ==>
      && o.response.value == ScoreRecord(clientId, advertiserId, score)
      && o.after == t.(scores := t.scores[(clientId, advertiserId) := score])
  {
    var key := (clientId, advertiserId);
    if key !in t.scores && clientId !in t.clients then Outcome(Err(NotFound), t)
    else if key !in t.scores && advertiserId !in t.advertisers then Outcome(Err(NotFound), t)
    else if !ScoreValid(score) then Outcome(Err(ValidationError), t)
    else Outcome(Ok(ScoreRecord(clientId, advertiserId, score)), t.(scores := t.scores[key := score]))
  }

  /** An upsert on an existing pair creates no record: the set of pairs is unchanged. */
  lemma UpsertExistingKeepsPairs(t: Tables, clientId: ClientId, advertiserId: AdvertiserId, score: int)
    requires (clientId, advertiserId) in t.scores
    ensures UpsertScore(t, clientId, advertiserId, score).after.scores.Keys == t.scores.Keys
  {
  }

  /** At most one pair is ever added, and the pairs already stored are kept. */
  lemma UpsertAddsAtMostOnePair(t: Tables, clientId: ClientId, advertiserId: AdvertiserId, score: int)
    ensures var after := UpsertScore(t, clientId, advertiserId, score).after;
      t.scores.Keys <= after.scores.Keys <= t.scores.Keys + {(clientId, advertiserId)}
  {
  }

  /**
   * After a successful upsert the score is what ranking reads as the
   * relevance of every campaign of that advertiser for that client.
   */
  lemma UpsertSetsRelevance(t: Tables, clientId: ClientId, advertiserId: AdvertiserId, score: int, c: Campaign)
    requires UpsertScore(t, clientId, advertiserId, score).response.Ok?
    requires c.advertiser == advertiserId
    ensures Relevance(c, clientId, UpsertScore(t, clientId, advertiserId, score).after.scores) == score
  {
  }

  /** The upsert keeps the store consistent. */
  lemma UpsertKeepsConsistent(t: Tables, clientId: ClientId, advertiserId: AdvertiserId, score: int)
    requires Consistent(t)
    ensures Consistent(UpsertScore(t, clientId, advertiserId, score).after)
  {
    var o := UpsertScore(t, clientId, advertiserId, score);
    assert o.after.campaigns == t.campaigns && o.after.impressions == t.impressions && o.after.clicks == t.clicks;
  }

  /** `create_or_update_score` on the store, proved against `UpsertScore`. */
  method CreateOrUpdateScore(db: Db, clientId: ClientId, advertiserId: AdvertiserId, score: int) returns (r: Result<ScoreRecord>)
    requires db.Valid()
    modifies db
    ensures Outcome(r, db.Snapshot()) == UpsertScore(old(db.Snapshot()), clientId, advertiserId, score)
    ensures db.Valid()
  {
    UpsertKeepsConsistent(db.Snapshot(), clientId, advertiserId, score);
    var key := (clientId, advertiserId);
    if key !in db.scores {
      if clientId !in db.clients {
        return Err(NotFound);
      }
      if advertiserId !in db.advertisers {
        return Err(NotFound);
      }
    }
    if !ScoreValid(score) {
      return Err(ValidationError);
    }
    db.scores := db.scores[key := score];
    r := Ok(ScoreRecord(clientId, advertiserId, score));
  }
}
