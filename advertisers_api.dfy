/**
 * The advertiser endpoints (advertisers/api.py): the bulk advertiser
 * upsert that keeps only valid entries, campaign creation behind the
 * moderation gate, the paginated campaign list, the field-by-field
 * campaign update and the cascading campaign delete.
 *
 * The moderation switch and the verdict of the external moderation
 * service on the request's text are parameters.
 */
module AdvertisersApi {
  import opened Common
  import opened AdvertiserModels
  import opened AdScore
  import opened Database
  import opened TimeEmulation

  // ------------------------------------------------------ Bulk advertiser upsert

  /** The entries that pass validation, in request order. */
  function ValidAdvertisers(payload: seq<Advertiser>): (r: seq<Advertiser>)
    ensures |r| <= |payload|
    ensures forall a :: a in r <==> a in payload && AdvertiserValid(a)
  {
    if |payload| == 0 then []
    else
      var init := payload[..|payload| - 1];
      var last := payload[|payload| - 1];
      assert payload == init + [last];
      var p := ValidAdvertisers(init);
      if AdvertiserValid(last) then p + [last] else p
  }

  predicate DistinctAdvertiserIds(entries: seq<Advertiser>) {
    forall i, j :: 0 <= i < j < |entries| ==> entries[i].id != entries[j].id
  }

  /**
   * `bulk_create(update_conflicts=True, update_fields=["name"])`: a new id
   * is inserted, an existing id only has its name overwritten.
   */
  function PutAdvertisers(m: map<AdvertiserId, string>, entries: seq<Advertiser>): (r: map<AdvertiserId, string>)
    ensures forall id :: id in r <==> id in m || exists a :: a in entries && a.id == id
    ensures forall id :: id in m && (forall a :: a in entries ==> a.id != id) ==> r[id] == m[id]
  {
    if |entries| == 0 then m
    else
      var init := entries[..|entries| - 1];
      var last := entries[|entries| - 1];
      assert entries == init + [last];
      PutAdvertisers(m, init)[last.id := last.name]
  }

  /** With distinct ids, every entry of the batch ends with its own name. */
  lemma {:induction false} PutAdvertisersNames(m: map<AdvertiserId, string>, entries: seq<Advertiser>)
    requires DistinctAdvertiserIds(entries)
    ensures forall a :: a in entries ==> PutAdvertisers(m, entries)[a.id] == a.name
  {
    if |entries| > 0 {
      var init := entries[..|entries| - 1];
      var last := entries[|entries| - 1];
      assert entries == init + [last];
      PutAdvertisersNames(m, init);
      forall a | a in init
        ensures a.id != last.id
      {
        var i :| 0 <= i < |init| && init[i] == a;
        assert entries[i] == a;
      }
    }
  }

  /** Upserting only ids that already exist leaves the number of advertisers unchanged. */
  lemma UpsertExistingKeepsCount(m: map<AdvertiserId, string>, entries: seq<Advertiser>)
    requires forall a :: a in entries ==> a.id in m
    ensures |PutAdvertisers(m, entries)| == |m|
  {
    assert PutAdvertisers(m, entries).Keys == m.Keys;
  }

  /** An all-invalid batch changes no advertiser. */
  lemma InvalidBatchChangesNothing(m: map<AdvertiserId, string>, payload: seq<Advertiser>)
    requires forall a :: a in payload ==> !AdvertiserValid(a)
    ensures PutAdvertisers(m, ValidAdvertisers(payload)) == m
  {
  }

  /** `create_or_update_advertiser`: a loop keeps the valid entries, then they are upserted. */
  method CreateOrUpdateAdvertisers(db: Db, payload: seq<Advertiser>) returns (created: seq<Advertiser>)
    requires db.Valid()
    modifies db
    ensures created == ValidAdvertisers(payload)
    ensures db.Snapshot() == old(db.Snapshot()).(advertisers := PutAdvertisers(old(db.advertisers), created))
    ensures db.Valid()
  {
    var kept: seq<Advertiser> := [];
    for i := 0 to |payload|
      invariant kept == ValidAdvertisers(payload[..i])
    {
      assert payload[..i + 1][..i] == payload[..i];
      if AdvertiserValid(payload[i]) {
        kept := kept + [payload[i]];
      }
    }
    assert payload[..|payload|] == payload;
    var before := db.advertisers;
    db.advertisers := PutAdvertisers(db.advertisers, kept);
    created := kept;
    forall id | id in db.advertisers
      ensures |db.advertisers[id]| > 0
    {
      if id in before && forall a :: a in kept ==> a.id != id {
      } else {
        PutNameFromBatch(before, kept, id);
      }
    }
  }

  /** An id touched by a batch of valid entries ends with the name of one of them. */
  lemma {:induction false} PutNameFromBatch(m: map<AdvertiserId, string>, entries: seq<Advertiser>, id: AdvertiserId)
    requires exists a :: a in entries && a.id == id
    ensures exists a :: a in entries && a.id == id && PutAdvertisers(m, entries)[id] == a.name
  {
    var init := entries[..|entries| - 1];
    var last := entries[|entries| - 1];
    assert entries == init + [last];
    if last.id != id {
      PutNameFromBatch(m, init, id);
    } else {
      assert last in entries;
    }
  }

  // --------------------------------------------------------------- Create

  /** The campaign a create request builds: counters at 0, inactive until cleaned. */
  function NewCampaign(id: CampaignId, advertiser: AdvertiserId, p: CampaignIn): (c: Campaign)
    ensures forall f :: CampaignField(c, f) == PayloadField(p, f)
    ensures c.id == id && c.advertiser == advertiser
    ensures c.impressionsCount == 0 && c.clicksCount == 0
  {
    Campaign(id, advertiser, p.impressionsLimit, 0, p.clicksLimit, 0, p.costPerImpression, p.costPerClick,
             p.adTitle, p.adText, p.startDate, p.endDate, p.targeting, false)
  }

  /**
   * `create_campaign`: not found for an unknown advertiser; with
   * moderation on, a text the service rejects fails; then the targeting
   * and the campaign are validated; on success the campaign is stored.
   */
  function Create(t: Tables, today: int, moderationMode: bool, textPasses: bool,
                  advertiserId: AdvertiserId, newId: CampaignId, p: CampaignIn): (o: Outcome<Campaign>)
    ensures o.response.Err? ==> o.after == t
    ensures advertiserId !in t.advertisers ==> o.response == Err(NotFound)
    ensures advertiserId in t.advertisers && moderationMode && !textPasses ==> o.response == Err(ValidationError)
    ensures o.response.Err? && o.response.error != NotFound ==> o.response.error == ValidationError
    ensures o.response.Ok? <==>
              && advertiserId in t.advertisers
              && (!moderationMode || textPasses)
              && TargetingOk(p.targeting)
              && CampaignFieldsValid(NewCampaign(newId, advertiserId, p))
              && p.startDate <= p.endDate && today <= p.startDate && p.clicksLimit <= p.impressionsLimit
    ensures o.response.Ok? ==>
              var c := o.response.value;
              && c.id == newId && c.advertiser == advertiserId
              && c.impressionsCount == 0 && c.clicksCount == 0
              && (forall f :: CampaignField(c, f) == PayloadField(p, f))
              && (c.isActive <==> p.startDate == today)
              && o.after == t.(campaigns := t.campaigns + [c])
  {
    if advertiserId !in t.advertisers then Outcome(Err(NotFound), t)
    else if moderationMode && !textPasses then Outcome(Err(ValidationError), t)
    else if !TargetingOk(p.targeting) then Outcome(Err(ValidationError), t)
    else match FullClean(NewCampaign(newId, advertiserId, p), today)
      case Err(e) => Outcome(Err(e), t)
      case Ok(c) => Outcome(Ok(c), t.(campaigns := t.campaigns + [c]))
  }

  /** No row refers to a campaign that is not stored, so such a campaign has no rows. */
  lemma AbsentHasNoRows(t: Tables, rows: seq<Record>, id: CampaignId)
    requires RowsRefer(rows, t) && !HasCampaign(t.campaigns, id)
    ensures CountFor(rows, id) == 0
  {
    assert forall x :: x in rows ==> x.campaign !in {id};
    RowsOfNone(rows, {id});
  }

  /** Creating a campaign under a fresh id keeps the store consistent. */
  lemma CreateKeepsConsistent(t: Tables, today: int, moderationMode: bool, textPasses: bool,
                              advertiserId: AdvertiserId, newId: CampaignId, p: CampaignIn)
    requires Consistent(t) && !HasCampaign(t.campaigns, newId)
    ensures Consistent(Create(t, today, moderationMode, textPasses, advertiserId, newId, p).after)
  {
    var o := Create(t, today, moderationMode, textPasses, advertiserId, newId, p);
    if o.response.Ok? {
      var c := o.response.value;
      var t2 := o.after;
      forall id | HasCampaign(t.campaigns, id)
        ensures HasCampaign(t2.campaigns, id)
      {
        var i :| 0 <= i < |t.campaigns| && t.campaigns[i].id == id;
        assert t2.campaigns[i] == t.campaigns[i];
      }
      forall i, j | 0 <= i < j < |t2.campaigns|
        ensures t2.campaigns[i].id != t2.campaigns[j].id
      {
        if j == |t.campaigns| {
          assert t2.campaigns[i] == t.campaigns[i];
        }
      }
      AbsentHasNoRows(t, t.impressions, newId);
      AbsentHasNoRows(t, t.clicks, newId);
      assert CountsMatch(t2.campaigns, t2.impressions, t2.clicks) by {
        forall x | x in t2.campaigns
          ensures x.impressionsCount == CountFor(t2.impressions, x.id) && x.clicksCount == CountFor(t2.clicks, x.id)
        {
          if x != c {
            assert x in t.campaigns;
          }
        }
      }
    }
  }

  /** `create_campaign` on the store, proved against `Create`; the new id is the fresh UUID. */
  method CreateCampaign(db: Db, clock: Clock, moderationMode: bool, textPasses: bool,
                        advertiserId: AdvertiserId, newId: CampaignId, p: CampaignIn) returns (r: Result<Campaign>)
    requires db.Valid() && !HasCampaign(db.campaigns, newId)
    modifies db
    ensures Outcome(r, db.Snapshot()) == Create(old(db.Snapshot()), clock.date, moderationMode, textPasses, advertiserId, newId, p)
    ensures db.Valid()
  {
    CreateKeepsConsistent(db.Snapshot(), clock.date, moderationMode, textPasses, advertiserId, newId, p);
    if advertiserId !in db.advertisers {
      return Err(NotFound);
    }
    if moderationMode && !textPasses {
      return Err(ValidationError);
    }
    if !TargetingOk(p.targeting) {
      return Err(ValidationError);
    }
    var cleaned := FullClean(NewCampaign(newId, advertiserId, p), clock.GetDate());
    if cleaned.Err? {
      return Err(cleaned.error);
    }
    db.campaigns := db.campaigns + [cleaned.value];
    r := Ok(cleaned.value);
  }

  // ------------------------------------------------------------ Pagination

  /** The campaigns of one advertiser, in storage order. */
  function OfAdvertiser(campaigns: seq<Campaign>, advertiserId: AdvertiserId): (r: seq<Campaign>)
    ensures |r| <= |campaigns|
    ensures forall c :: c in r <==> c in campaigns && c.advertiser == advertiserId
  {
    if |campaigns| == 0 then []
    else
      var init := campaigns[..|campaigns| - 1];
      var last := campaigns[|campaigns| - 1];
      assert campaigns == init + [last];
      var p := OfAdvertiser(init, advertiserId);
      if last.advertiser == advertiserId then p + [last] else p
  }

  /** Where page `page` of size `size` starts. */
  function Offset(page: int, size: int): (n: nat)
    requires page > 0 && size > 0
    ensures n == (page - 1) * size
  {
    NonNegativeProduct(page - 1, size);
    (page - 1) * size
  }

  lemma NonNegativeProduct(a: int, b: int)
    requires a >= 0 && b >= 0
    ensures a * b >= 0
  {
  }

  /** `queryset[offset : offset + size]`: Python slicing clips both ends to the list. */
  function Page<T>(xs: seq<T>, page: int, size: int): (r: seq<T>)
    requires page > 0 && size > 0
    ensures |r| <= size
    ensures Offset(page, size) >= |xs| ==> r == []
    ensures Offset(page, size) + size <= |xs| ==> |r| == size
    ensures forall i :: 0 <= i < |r| ==> Offset(page, size) + i < |xs| && r[i] == xs[Offset(page, size) + i]
  {
    var lo := Offset(page, size);
    var hi := lo + size;
    xs[if lo < |xs| then lo else |xs| .. if hi < |xs| then hi else |xs|]
  }

  /** Every element is on page `i / size + 1`, at position `i % size`. */
  lemma ElementOnItsPage<T>(xs: seq<T>, size: int, i: nat)
    requires size > 0 && i < |xs|
    ensures var r := Page(xs, i / size + 1, size);
            i % size < |r| && r[i % size] == xs[i]
  {
    assert Offset(i / size + 1, size) == i / size * size;
    assert i / size * size + i % size == i;
  }

  /**
   * `get_campaigns`: a page size or number below 1 fails validation; an
   * unknown advertiser is not found; otherwise the slice of its campaigns,
   * in storage order, that starts at `(page - 1) * size`.
   */
  function GetCampaigns(t: Tables, advertiserId: AdvertiserId, page: int, size: int): (r: Result<seq<Campaign>>)
    ensures page < 1 || size < 1 ==> r == Err(ValidationError)
    ensures page >= 1 && size >= 1 && advertiserId !in t.advertisers ==> r == Err(NotFound)
    ensures r.Ok? <==> page >= 1 && size >= 1 && advertiserId in t.advertisers
    ensures r.Ok? ==> r.value == Page(OfAdvertiser(t.campaigns, advertiserId), page, size)
    ensures r.Ok? ==> |r.value| <= size && forall c :: c in r.value ==> c in t.campaigns && c.advertiser == advertiserId
  {
    if page < 1 || size < 1 then Err(ValidationError)
    else if advertiserId !in t.advertisers then Err(NotFound)
    else
      var owned := OfAdvertiser(t.campaigns, advertiserId);
      var r := Page(owned, page, size);
      assert forall i :: 0 <= i < |r| ==> r[i] in owned;
      Ok(r)
  }

  // --------------------------------------------------------------- Update

  /** Position of the campaign with this id owned by this advertiser, or the length when there is none. */
  function OwnedIndex(campaigns: seq<Campaign>, advertiserId: AdvertiserId, id: CampaignId): (k: nat)
    ensures k <= |campaigns|
    ensures k < |campaigns| ==> campaigns[k].id == id && campaigns[k].advertiser == advertiserId
    ensures k == |campaigns| <==>
              forall j :: 0 <= j < |campaigns| ==> campaigns[j].id != id || campaigns[j].advertiser != advertiserId
  {
    if |campaigns| == 0 then 0
    else if campaigns[0].id == id && campaigns[0].advertiser == advertiserId then 0
    else
      var k := 1 + OwnedIndex(campaigns[1..], advertiserId, id);
      assert forall j :: 1 <= j < |campaigns| ==> campaigns[j] == campaigns[1..][j - 1];
      k
  }

  /**
   * The update loop with the locked fields fixed before it starts:
   * every listed field not locked takes the payload's value.
   */
  function ApplyFields(c: Campaign, p: CampaignIn, fields: seq<Field>, locked: seq<Field>): (r: Campaign)
    ensures forall f :: CampaignField(r, f) == if f in fields && f !in locked then PayloadField(p, f) else CampaignField(c, f)
    ensures SameNonSchemaFields(r, c)
  {
    if |fields| == 0 then c
    else
      var init := fields[..|fields| - 1];
      var f := fields[|fields| - 1];
      assert fields == init + [f];
      var prev := ApplyFields(c, p, init, locked);
      if f in locked then prev else SetField(prev, f, p)
  }

  /**
   * The update loop as the endpoint writes it: the locked fields are
   * asked for again at every step, and asking re-runs the activity check
   * on the campaign as updated so far.
   */
  function ApplyFieldsAsWritten(c: Campaign, p: CampaignIn, fields: seq<Field>, today: int): Campaign {
    if |fields| == 0 then c
    else StepAsWritten(ApplyFieldsAsWritten(c, p, fields[..|fields| - 1], today), fields[|fields| - 1], p, today)
  }

  /** One iteration as written: ask for the locked fields (refreshing the flag), then set the field unless locked. */
  function StepAsWritten(prev: Campaign, f: Field, p: CampaignIn, today: int): Campaign {
    var checked := ActiveCheck(prev, today);
    if f in NonEditableFields(prev, today) then checked else SetField(checked, f, p)
  }

  /**
   * On a running campaign, as long as no date has been touched, the
   * as-written loop sets every field from the payload.
   */
  lemma {:induction false} AsWrittenBeforeDates(c: Campaign, p: CampaignIn, fields: seq<Field>, today: int)
    requires c.startDate <= today <= c.endDate
    requires |fields| > 0 && StartDateField !in fields && EndDateField !in fields
    ensures ApplyFieldsAsWritten(c, p, fields, today) == ApplyFields(ActiveCheck(c, today), p, fields, [])
  {
    var init := fields[..|fields| - 1];
    var f := fields[|fields| - 1];
    assert fields == init + [f];
    if |init| > 0 {
      AsWrittenBeforeDates(c, p, init, today);
      var prev := ApplyFields(ActiveCheck(c, today), p, init, []);
      assert CampaignField(prev, StartDateField) == CampaignField(c, StartDateField);
      assert CampaignField(prev, EndDateField) == CampaignField(c, EndDateField);
      assert ActiveCheck(prev, today) == prev;
    }
  }

  /**
   * The as-written loop on a running campaign: every field takes the
   * payload's value, except that a new start after today makes the
   * campaign inactive by the time the end date comes up, so the
   * requested end date is then dropped.
   */
  lemma AsWrittenOnRunning(c: Campaign, p: CampaignIn, today: int)
    requires c.startDate <= today <= c.endDate
    ensures var written := ApplyFieldsAsWritten(c, p, InputFields, today);
            && written.endDate == (if p.startDate > today then c.endDate else p.endDate)
            && forall f :: f != EndDateField ==> CampaignField(written, f) == PayloadField(p, f)
  {
    var six := InputFields[..6];
    assert InputFields == six + [StartDateField, EndDateField, TargetingField];
    forall f
      ensures f in six || f == StartDateField || f == EndDateField || f == TargetingField
    {
      InputFieldsComplete();
      assert f in InputFields;
    }
    AsWrittenDatesLast(c, p, six, today);
  }

  /** The same, for any date-free list of fields followed by start date, end date and targeting. */
  lemma AsWrittenDatesLast(c: Campaign, p: CampaignIn, pre: seq<Field>, today: int)
    requires c.startDate <= today <= c.endDate
    requires |pre| > 0 && StartDateField !in pre && EndDateField !in pre && TargetingField !in pre
    requires forall f :: f in pre || f == StartDateField || f == EndDateField || f == TargetingField
    ensures var written := ApplyFieldsAsWritten(c, p, pre + [StartDateField, EndDateField, TargetingField], today);
            && written.endDate == (if p.startDate > today then c.endDate else p.endDate)
            && forall f :: f != EndDateField ==> CampaignField(written, f) == PayloadField(p, f)
  {
    AsWrittenBeforeDates(c, p, pre, today);
    var s6 := ApplyFieldsAsWritten(c, p, pre, today);
    assert CampaignField(s6, StartDateField) == CampaignField(c, StartDateField);
    assert CampaignField(s6, EndDateField) == CampaignField(c, EndDateField);
    var f7 := pre + [StartDateField];
    var f8 := f7 + [EndDateField];
    var all := f8 + [TargetingField];
    assert all == pre + [StartDateField, EndDateField, TargetingField];
    assert f7[..|pre|] == pre;
    var s7 := ApplyFieldsAsWritten(c, p, f7, today);
    assert s7 == StepAsWritten(s6, StartDateField, p, today);
    assert ActiveCheck(s6, today) == s6;
    assert s7 == SetField(s6, StartDateField, p);
    assert f8[..|f7|] == f7;
    var s8 := ApplyFieldsAsWritten(c, p, f8, today);
    assert s8 == StepAsWritten(s7, EndDateField, p, today);
    if p.startDate > today {
      assert EndDateField in NonEditableFields(s7, today);
      assert s8 == ActiveCheck(s7, today);
    } else {
      assert NonEditableFields(s7, today) == [];
      assert s8 == SetField(ActiveCheck(s7, today), EndDateField, p);
      assert CampaignField(s8, EndDateField) == PayloadField(p, EndDateField);
    }
    assert all[..|f8|] == f8;
    var written := ApplyFieldsAsWritten(c, p, all, today);
    assert written == StepAsWritten(s8, TargetingField, p, today);
    assert TargetingField !in NonEditableFields(s8, today);
    assert written == SetField(ActiveCheck(s8, today), TargetingField, p);
    assert written.endDate == s8.endDate;
    ActiveCheckKeepsFields(s7, today);
    ActiveCheckKeepsFields(s8, today);
    forall f | f != EndDateField
      ensures CampaignField(written, f) == PayloadField(p, f)
    {
      if f != TargetingField {
        assert CampaignField(written, f) == CampaignField(s7, f);
        if f != StartDateField {
          assert CampaignField(s7, f) == CampaignField(s6, f);
          assert f in pre;
        }
      }
    }
  }

  /** A campaign holding a payload's valid limits, costs and texts in those fields. */
  lemma PayloadFieldsValid(w: Campaign, p: CampaignIn)
    requires forall f :: f != EndDateField ==> CampaignField(w, f) == PayloadField(p, f)
    requires p.impressionsLimit >= 0 && p.clicksLimit >= 0 && p.clicksLimit <= p.impressionsLimit
    requires p.costPerImpression >= 0.0 && p.costPerClick >= 0.0 && |p.adTitle| > 0 && |p.adText| > 0
    ensures w.impressionsLimit == p.impressionsLimit && w.clicksLimit == p.clicksLimit
    ensures w.costPerImpression >= 0.0 && w.costPerClick >= 0.0 && |w.adTitle| > 0 && |w.adText| > 0
    ensures w.startDate == p.startDate
  {
    assert CampaignField(w, ImpressionsLimitField) == PayloadField(p, ImpressionsLimitField);
    assert CampaignField(w, ClicksLimitField) == PayloadField(p, ClicksLimitField);
    assert CampaignField(w, CostPerImpressionField) == PayloadField(p, CostPerImpressionField);
    assert CampaignField(w, CostPerClickField) == PayloadField(p, CostPerClickField);
    assert CampaignField(w, AdTitleField) == PayloadField(p, AdTitleField);
    assert CampaignField(w, AdTextField) == PayloadField(p, AdTextField);
    assert CampaignField(w, StartDateField) == PayloadField(p, StartDateField);
  }

  /** A campaign that passes `full_clean` keeps its schema fields and passes it again. */
  lemma CleanKeepsFields(c: Campaign, today: int)
    requires FullClean(c, today).Ok?
    ensures forall f :: CampaignField(FullClean(c, today).value, f) == CampaignField(c, f)
    ensures FullClean(FullClean(c, today).value, today).Ok?
  {
    ActiveCheckKeepsFields(c, today);
  }

  /** The activity check changes no schema field. */
  lemma ActiveCheckKeepsFields(c: Campaign, today: int)
    ensures forall f :: CampaignField(ActiveCheck(c, today), f) == CampaignField(c, f)
  {
  }

  /**
   * A run on any day d >= 0: a campaign running from d to d + 5 is moved
   * to d + 2 .. d + 15. As written it is saved as d + 2 .. d + 5 and
   * passes validation; with the locked fields fixed first it is saved as
   * d + 2 .. d + 15. (Day 5, a window 5..10 moved to 7..20, is one case.)
   */
  lemma AsWrittenCounterexample(d: int)
    requires d >= 0
    ensures var c := Campaign(1, 1, 100, 0, 10, 0, 1.0, 1.0, "title", "text", d, d + 5, None, true);
            var p := CampaignIn(100, 10, 1.0, 1.0, "title", "text", d + 2, d + 15, None);
            var written := ApplyFieldsAsWritten(c, p, InputFields, d);
            && written.startDate == d + 2 && written.endDate == d + 5
            && FullClean(written, d).Ok?
  {
    var c := Campaign(1, 1, 100, 0, 10, 0, 1.0, 1.0, "title", "text", d, d + 5, None, true);
    var p := CampaignIn(100, 10, 1.0, 1.0, "title", "text", d + 2, d + 15, None);
    AsWrittenOnRunning(c, p, d);
    PayloadFieldsValid(ApplyFieldsAsWritten(c, p, InputFields, d), p);
  }

  /** The same run through the corrected loop keeps the requested window d + 2 .. d + 15. */
  lemma CorrectedKeepsEndDate(d: int)
    requires d >= 0
    ensures var c := Campaign(1, 1, 100, 0, 10, 0, 1.0, 1.0, "title", "text", d, d + 5, None, true);
            var p := CampaignIn(100, 10, 1.0, 1.0, "title", "text", d + 2, d + 15, None);
            var intended := Edit(c, p, d);
            && intended.startDate == d + 2 && intended.endDate == d + 15
            && FullClean(intended, d).Ok?
  {
    var c := Campaign(1, 1, 100, 0, 10, 0, 1.0, 1.0, "title", "text", d, d + 5, None, true);
    var p := CampaignIn(100, 10, 1.0, 1.0, "title", "text", d + 2, d + 15, None);
    EditOfRunningTakesPayload(c, p, d);
  }

  /** On a running campaign the corrected loop takes every field from the payload, the dates included. */
  lemma EditOfRunningTakesPayload(c: Campaign, p: CampaignIn, today: int)
    requires c.startDate <= today <= c.endDate
    ensures Edit(c, p, today) ==
              c.(impressionsLimit := p.impressionsLimit, clicksLimit := p.clicksLimit,
                 costPerImpression := p.costPerImpression, costPerClick := p.costPerClick,
                 adTitle := p.adTitle, adText := p.adText, startDate := p.startDate, endDate := p.endDate,
                 targeting := p.targeting, isActive := true)
  {
    var r := Edit(c, p, today);
    var expected := c.(impressionsLimit := p.impressionsLimit, clicksLimit := p.clicksLimit,
                       costPerImpression := p.costPerImpression, costPerClick := p.costPerClick,
                       adTitle := p.adTitle, adText := p.adText, startDate := p.startDate, endDate := p.endDate,
                       targeting := p.targeting, isActive := true);
    assert NonEditableFields(c, today) == [];
    assert r.isActive by {
      assert r == ApplyFields(ActiveCheck(c, today), p, InputFields, []);
    }
    CampaignExtensionality(r, expected);
  }

  /** The as-written loop, like the corrected one, only touches schema fields and the activity flag. */
  lemma {:induction false} AsWrittenKeepsNonSchemaFields(c: Campaign, p: CampaignIn, fields: seq<Field>, today: int)
    ensures var r := ApplyFieldsAsWritten(c, p, fields, today);
            r.id == c.id && r.advertiser == c.advertiser
            && r.impressionsCount == c.impressionsCount && r.clicksCount == c.clicksCount
  {
    if |fields| > 0 {
      AsWrittenKeepsNonSchemaFields(c, p, fields[..|fields| - 1], today);
    }
  }

  /**
   * On a campaign that is not running the as-written loop locks the same
   * four fields at every step, since the locked dates never change: it
   * is the loop with those fields locked from the start.
   */
  lemma {:induction false} AsWrittenWhileInactive(c: Campaign, p: CampaignIn, fields: seq<Field>, today: int)
    requires !(c.startDate <= today <= c.endDate)
    requires |fields| > 0
    ensures ApplyFieldsAsWritten(c, p, fields, today) == ApplyFields(ActiveCheck(c, today), p, fields, LockedWhenInactive)
  {
    var init := fields[..|fields| - 1];
    var f := fields[|fields| - 1];
    assert fields == init + [f];
    if |init| > 0 {
      AsWrittenWhileInactive(c, p, init, today);
      var prev := ApplyFields(ActiveCheck(c, today), p, init, LockedWhenInactive);
      assert CampaignField(prev, StartDateField) == CampaignField(c, StartDateField);
      assert CampaignField(prev, EndDateField) == CampaignField(c, EndDateField);
      assert ActiveCheck(prev, today) == prev;
      assert NonEditableFields(prev, today) == LockedWhenInactive;
    }
  }

  /**
   * Whether the loop as written drops the requested end date: the stored
   * campaign is running and the payload moves its start past today.
   */
  predicate EndDateDropped(before: Campaign, p: CampaignIn, today: int) {
    before.startDate <= today <= before.endDate && p.startDate > today
  }

  /** The field-by-field result of the loop as written, over the whole payload. */
  lemma AsWrittenFields(before: Campaign, p: CampaignIn, today: int)
    ensures forall f :: CampaignField(ApplyFieldsAsWritten(before, p, InputFields, today), f) ==
              if f in NonEditableFields(before, today) || (f == EndDateField && EndDateDropped(before, p, today))
              then CampaignField(before, f) else PayloadField(p, f)
  {
    var written := ApplyFieldsAsWritten(before, p, InputFields, today);
    if before.startDate <= today <= before.endDate {
      AsWrittenOnRunning(before, p, today);
      assert CampaignField(written, EndDateField) == IntValue(written.endDate);
    } else {
      AsWrittenWhileInactive(before, p, InputFields, today);
      InputFieldsComplete();
      ActiveCheckKeepsFields(before, today);
    }
  }

  /**
   * The campaign `update_campaign`'s loop leaves behind before
   * `full_clean`: the fields locked on the stored campaign keep their
   * value, and so does the end date when the loop drops it; every other
   * field comes from the payload; identity, owner and counters are kept.
   */
  function EditAsWritten(before: Campaign, p: CampaignIn, today: int): (r: Campaign)
    ensures forall f :: CampaignField(r, f) ==
              if f in NonEditableFields(before, today) || (f == EndDateField && EndDateDropped(before, p, today))
              then CampaignField(before, f) else PayloadField(p, f)
    ensures r.id == before.id && r.advertiser == before.advertiser
    ensures r.impressionsCount == before.impressionsCount && r.clicksCount == before.clicksCount
  {
    AsWrittenFields(before, p, today);
    AsWrittenKeepsNonSchemaFields(before, p, InputFields, today);
    ApplyFieldsAsWritten(before, p, InputFields, today)
  }

  /**
   * The loop as written and the corrected loop save the same campaign,
   * unless a running campaign's start moves past today.
   */
  lemma AsWrittenAgreesWithEdit(before: Campaign, p: CampaignIn, today: int)
    requires !EndDateDropped(before, p, today)
    ensures FullClean(EditAsWritten(before, p, today), today) == FullClean(Edit(before, p, today), today)
  {
    var a := EditAsWritten(before, p, today);
    var b := Edit(before, p, today);
    FlagKeepsFields(a, false);
    FlagKeepsFields(b, false);
    CampaignExtensionality(a.(isActive := false), b.(isActive := false));
  }

  /** Setting the activity flag changes no schema field. */
  lemma FlagKeepsFields(c: Campaign, flag: bool)
    ensures forall f :: CampaignField(c.(isActive := flag), f) == CampaignField(c, f)
  {
  }

  /**
   * The campaign the corrected update loop produces: the locked fields
   * are those of the stored campaign, every other field comes from the
   * payload, and the identity, owner and counters are kept.
   */
  function Edit(before: Campaign, p: CampaignIn, today: int): (r: Campaign)
    ensures forall f :: CampaignField(r, f) ==
              if f in NonEditableFields(before, today) then CampaignField(before, f) else PayloadField(p, f)
    ensures r.id == before.id && r.advertiser == before.advertiser
    ensures r.impressionsCount == before.impressionsCount && r.clicksCount == before.clicksCount
  {
    InputFieldsComplete();
    ApplyFields(ActiveCheck(before, today), p, InputFields, NonEditableFields(before, today))
  }

  /**
   * `update_campaign`: not found for an unknown advertiser or a campaign
   * it does not own; a non-empty text the moderation rejects fails; an
   * invalid targeting fails; then the campaign as the field loop leaves
   * it must pass `full_clean`.
   */
  function Update(t: Tables, today: int, moderationMode: bool, textPasses: bool,
                  advertiserId: AdvertiserId, campaignId: CampaignId, p: CampaignIn): (o: Outcome<Campaign>)
    ensures o.response.Err? ==> o.after == t
    ensures advertiserId !in t.advertisers || OwnedIndex(t.campaigns, advertiserId, campaignId) == |t.campaigns| ==>
              o.response == Err(NotFound)
    ensures o.response.Err? && o.response.error != NotFound ==> o.response.error == ValidationError
    ensures o.response.Ok? <==>
              && advertiserId in t.advertisers
              && OwnedIndex(t.campaigns, advertiserId, campaignId) < |t.campaigns|
              && !(|p.adText| > 0 && moderationMode && !textPasses)
              && TargetingOk(p.targeting)
              && FullClean(EditAsWritten(t.campaigns[OwnedIndex(t.campaigns, advertiserId, campaignId)], p, today), today).Ok?
    ensures o.response.Ok? ==>
              var k := OwnedIndex(t.campaigns, advertiserId, campaignId);
              var before := t.campaigns[k];
              var c := o.response.value;
              && k < |t.campaigns|
              && (forall f :: CampaignField(c, f) ==
                    if f in NonEditableFields(before, today) || (f == EndDateField && EndDateDropped(before, p, today))
                    then CampaignField(before, f) else PayloadField(p, f))
              && c.id == before.id && c.advertiser == before.advertiser
              && c.impressionsCount == before.impressionsCount && c.clicksCount == before.clicksCount
              && (c.isActive <==> c.startDate <= today <= c.endDate)
              && FullClean(c, today).Ok?
              && o.after == t.(campaigns := t.campaigns[k := c])
  {
    if advertiserId !in t.advertisers then Outcome(Err(NotFound), t)
    else
      var k := OwnedIndex(t.campaigns, advertiserId, campaignId);
      if k == |t.campaigns| then Outcome(Err(NotFound), t)
      else if |p.adText| > 0 && moderationMode && !textPasses then Outcome(Err(ValidationError), t)
      else if !TargetingOk(p.targeting) then Outcome(Err(ValidationError), t)
      else
        match FullClean(EditAsWritten(t.campaigns[k], p, today), today)
        case Err(e) => Outcome(Err(e), t)
        case Ok(c) =>
          CleanKeepsFields(EditAsWritten(t.campaigns[k], p, today), today);
          Outcome(Ok(c), t.(campaigns := t.campaigns[k := c]))
  }

  /** A campaign that has already ended can no longer be updated: its dates are locked in the past. */
  lemma UpdateOfEndedFails(t: Tables, today: int, moderationMode: bool, textPasses: bool,
                           advertiserId: AdvertiserId, campaignId: CampaignId, p: CampaignIn)
    requires advertiserId in t.advertisers
    requires OwnedIndex(t.campaigns, advertiserId, campaignId) < |t.campaigns|
    requires t.campaigns[OwnedIndex(t.campaigns, advertiserId, campaignId)].endDate < today
    ensures Update(t, today, moderationMode, textPasses, advertiserId, campaignId, p).response.Err?
  {
    var o := Update(t, today, moderationMode, textPasses, advertiserId, campaignId, p);
    var before := t.campaigns[OwnedIndex(t.campaigns, advertiserId, campaignId)];
    assert EndDateField in NonEditableFields(before, today);
  }

  /** Updating keeps the store consistent. */
  lemma UpdateKeepsConsistent(t: Tables, today: int, moderationMode: bool, textPasses: bool,
                              advertiserId: AdvertiserId, campaignId: CampaignId, p: CampaignIn)
    requires Consistent(t)
    ensures Consistent(Update(t, today, moderationMode, textPasses, advertiserId, campaignId, p).after)
  {
    var o := Update(t, today, moderationMode, textPasses, advertiserId, campaignId, p);
    if o.response.Ok? {
      var k := OwnedIndex(t.campaigns, advertiserId, campaignId);
      var c := o.response.value;
      var t2 := o.after;
      assert t.campaigns[k] in t.campaigns;
      assert CampaignField(c, TargetingField) == PayloadField(p, TargetingField);
      ReplaceKeepsIds(t.campaigns, k, c);
      ReplaceKeepsStored(t.campaigns, k, c, t.advertisers);
      assert CountsMatch(t2.campaigns, t2.impressions, t2.clicks) by {
        forall x | x in t2.campaigns
          ensures x.impressionsCount == CountFor(t2.impressions, x.id) && x.clicksCount == CountFor(t2.clicks, x.id)
        {
          var j :| 0 <= j < |t2.campaigns| && t2.campaigns[j] == x;
          assert t.campaigns[j] in t.campaigns;
        }
      }
    }
  }

  /**
   * The field loop of `update_campaign`: at every field the locked fields
   * are asked for again, which re-runs the activity check on the campaign
   * as updated so far, and the field is copied from the payload unless
   * locked; invalid targeting stops the loop when it reaches that field.
   */
  method EditFields(before: Campaign, p: CampaignIn, today: int) returns (r: Option<Campaign>)
    ensures r.None? <==> !TargetingOk(p.targeting)
    ensures r.Some? ==> r.value == EditAsWritten(before, p, today)
  {
    var campaign := before;
    for i := 0 to |InputFields|
      invariant campaign == ApplyFieldsAsWritten(before, p, InputFields[..i], today)
      invariant i == |InputFields| ==> TargetingOk(p.targeting)
    {
      assert InputFields[..i + 1][..i] == InputFields[..i];
      var f := InputFields[i];
      if f == TargetingField && !TargetingOk(p.targeting) {
        return None;
      }
      var locked := NonEditableFields(campaign, today);
      campaign := ActiveCheck(campaign, today);
      if f !in locked {
        campaign := SetField(campaign, f, p);
      }
    }
    assert InputFields[..|InputFields|] == InputFields;
    r := Some(campaign);
  }

  /** `update_campaign` on the store, proved against `Update`. */
  method UpdateCampaign(db: Db, clock: Clock, moderationMode: bool, textPasses: bool,
                        advertiserId: AdvertiserId, campaignId: CampaignId, p: CampaignIn) returns (r: Result<Campaign>)
    requires db.Valid()
    modifies db
    ensures Outcome(r, db.Snapshot()) == Update(old(db.Snapshot()), clock.date, moderationMode, textPasses, advertiserId, campaignId, p)
    ensures db.Valid()
  {
    UpdateKeepsConsistent(db.Snapshot(), clock.date, moderationMode, textPasses, advertiserId, campaignId, p);
    if advertiserId !in db.advertisers {
      return Err(NotFound);
    }
    var k := OwnedIndex(db.campaigns, advertiserId, campaignId);
    if k == |db.campaigns| {
      return Err(NotFound);
    }
    if |p.adText| > 0 && moderationMode && !textPasses {
      return Err(ValidationError);
    }
    var today := clock.GetDate();
    var edited := EditFields(db.campaigns[k], p, today);
    if edited.None? {
      return Err(ValidationError);
    }
    var campaign := edited.value;
    var cleaned := FullClean(campaign, today);
    if cleaned.Err? {
      return Err(cleaned.error);
    }
    db.campaigns := db.campaigns[k := cleaned.value];
    r := Ok(cleaned.value);
  }

  // --------------------------------------------------------------- Delete

  /**
   * `delete_campaign`: not found for an unknown advertiser or a campaign
   * it does not own; otherwise the campaign goes, and with it, by the
   * cascade, its Impression and Click rows.
   */
  function Delete(t: Tables, advertiserId: AdvertiserId, campaignId: CampaignId): (o: Outcome<()>)
    ensures o.response.Err? ==> o.response == Err(NotFound) && o.after == t
    ensures o.response.Ok? <==>
              advertiserId in t.advertisers && OwnedIndex(t.campaigns, advertiserId, campaignId) < |t.campaigns|
    ensures o.response.Ok? ==>
              && |o.after.campaigns| == |t.campaigns| - 1
              && (forall c :: c in o.after.campaigns ==> c in t.campaigns)
              && (forall r :: r in o.after.impressions <==> r in t.impressions && r.campaign != campaignId)
              && (forall r :: r in o.after.clicks <==> r in t.clicks && r.campaign != campaignId)
              && o.after.advertisers == t.advertisers && o.after.clients == t.clients && o.after.scores == t.scores
  {
    if advertiserId !in t.advertisers then Outcome(Err(NotFound), t)
    else
      var k := OwnedIndex(t.campaigns, advertiserId, campaignId);
      if k == |t.campaigns| then Outcome(Err(NotFound), t)
      else
        var rest := t.campaigns[..k] + t.campaigns[k + 1..];
        assert forall c :: c in rest ==> c in t.campaigns;
        Outcome(Ok(()), t.(campaigns := rest,
                           impressions := RowsExcept(t.impressions, campaignId),
                           clicks := RowsExcept(t.clicks, campaignId)))
  }

  /** Removing position k of a sequence with unique ids leaves exactly the other ids. */
  lemma RemoveKeepsOtherIds(campaigns: seq<Campaign>, k: nat)
    requires k < |campaigns| && UniqueIds(campaigns)
    ensures var rest := campaigns[..k] + campaigns[k + 1..];
            && UniqueIds(rest)
            && !HasCampaign(rest, campaigns[k].id)
            && forall id :: id != campaigns[k].id ==> (HasCampaign(rest, id) <==> HasCampaign(campaigns, id))
  {
    var rest := campaigns[..k] + campaigns[k + 1..];
    assert forall i :: 0 <= i < |rest| ==> rest[i] == campaigns[if i < k then i else i + 1];
    forall id | id != campaigns[k].id && HasCampaign(campaigns, id)
      ensures HasCampaign(rest, id)
    {
      var i :| 0 <= i < |campaigns| && campaigns[i].id == id;
      assert rest[if i < k then i else i - 1].id == id;
    }
  }

  /** Order-preserving filtering keeps the pairs unique. */
  lemma {:induction false} RowsExceptKeepsUnique(rows: seq<Record>, id: CampaignId)
    requires UniquePairs(rows)
    ensures UniquePairs(RowsExcept(rows, id))
  {
    if |rows| > 0 {
      var init := rows[..|rows| - 1];
      var last := rows[|rows| - 1];
      assert rows == init + [last];
      RowsExceptKeepsUnique(init, id);
      if last.campaign != id {
        UniquePairsAppend(RowsExcept(init, id), last);
      }
    }
  }

  /** Deleting keeps the store consistent; the campaign is gone and so are all its rows. */
  lemma DeleteKeepsConsistent(t: Tables, advertiserId: AdvertiserId, campaignId: CampaignId)
    requires Consistent(t)
    ensures Consistent(Delete(t, advertiserId, campaignId).after)
    ensures Delete(t, advertiserId, campaignId).response.Ok? ==>
              !HasCampaign(Delete(t, advertiserId, campaignId).after.campaigns, campaignId)
  {
    var o := Delete(t, advertiserId, campaignId);
    if o.response.Ok? {
      var k := OwnedIndex(t.campaigns, advertiserId, campaignId);
      var t2 := o.after;
      RemoveKeepsOtherIds(t.campaigns, k);
      DeletedEntitiesOk(t, k, t2);
      DeletedRowsOk(t, k, t2);
      DeletedCountersMatch(t, k, t2);
    }
  }

  /** Removing campaign k keeps the entities consistent. */
  lemma DeletedEntitiesOk(t: Tables, k: nat, t2: Tables)
    requires EntitiesOk(t) && k < |t.campaigns|
    requires t2.campaigns == t.campaigns[..k] + t.campaigns[k + 1..]
    requires t2.advertisers == t.advertisers && t2.clients == t.clients && t2.scores == t.scores
    ensures EntitiesOk(t2)
  {
    RemoveKeepsOtherIds(t.campaigns, k);
    assert forall c :: c in t2.campaigns ==> c in t.campaigns;
  }

  /** Removing campaign k and all of its rows keeps the row tables well formed. */
  lemma DeletedRowsOk(t: Tables, k: nat, t2: Tables)
    requires RowsOk(t) && UniqueIds(t.campaigns) && k < |t.campaigns|
    requires t2.campaigns == t.campaigns[..k] + t.campaigns[k + 1..] && t2.clients == t.clients
    requires t2.impressions == RowsExcept(t.impressions, t.campaigns[k].id)
    requires t2.clicks == RowsExcept(t.clicks, t.campaigns[k].id)
    ensures RowsOk(t2)
  {
    var id := t.campaigns[k].id;
    DeletedRowsRefer(t, k, t2);
    RowsExceptKeepsUnique(t.impressions, id);
    RowsExceptKeepsUnique(t.clicks, id);
    DeletedClicksFollowImpressions(t.impressions, t.clicks, id);
  }

  /** The rows left after a delete refer to campaigns that are still stored. */
  lemma DeletedRowsRefer(t: Tables, k: nat, t2: Tables)
    requires RowsRefer(t.impressions, t) && RowsRefer(t.clicks, t) && UniqueIds(t.campaigns) && k < |t.campaigns|
    requires t2.campaigns == t.campaigns[..k] + t.campaigns[k + 1..] && t2.clients == t.clients
    requires t2.impressions == RowsExcept(t.impressions, t.campaigns[k].id)
    requires t2.clicks == RowsExcept(t.clicks, t.campaigns[k].id)
    ensures RowsRefer(t2.impressions, t2) && RowsRefer(t2.clicks, t2)
  {
    RemoveKeepsOtherIds(t.campaigns, k);
  }

  /** Dropping one campaign's rows from both tables keeps every click after an impression. */
  lemma DeletedClicksFollowImpressions(impressions: seq<Record>, clicks: seq<Record>, id: CampaignId)
    requires forall r :: r in clicks ==> HasRow(impressions, r.client, r.campaign)
    ensures forall r :: r in RowsExcept(clicks, id) ==> HasRow(RowsExcept(impressions, id), r.client, r.campaign)
  {
    var kept := RowsExcept(impressions, id);
    forall r | r in RowsExcept(clicks, id)
      ensures HasRow(kept, r.client, r.campaign)
    {
      var i :| 0 <= i < |impressions| && impressions[i].client == r.client && impressions[i].campaign == r.campaign;
      assert impressions[i] in kept;
      var j :| 0 <= j < |kept| && kept[j] == impressions[i];
    }
  }

  /** The campaigns left after removing campaign k and its rows still count their rows. */
  lemma DeletedCountersMatch(t: Tables, k: nat, t2: Tables)
    requires Consistent(t) && k < |t.campaigns|
    requires t2.campaigns == t.campaigns[..k] + t.campaigns[k + 1..]
    requires t2.impressions == RowsExcept(t.impressions, t.campaigns[k].id)
    requires t2.clicks == RowsExcept(t.clicks, t.campaigns[k].id)
    ensures CountersMatch(t2)
  {
    var id := t.campaigns[k].id;
    RemoveKeepsOtherIds(t.campaigns, k);
    forall x | x in t2.campaigns
      ensures x.impressionsCount == CountFor(t2.impressions, x.id) && x.clicksCount == CountFor(t2.clicks, x.id)
    {
      assert x in t.campaigns;
      assert x.id != id by {
        assert HasCampaign(t2.campaigns, x.id) by {
          var i :| 0 <= i < |t2.campaigns| && t2.campaigns[i] == x;
        }
      }
      CountForExcept(t.impressions, id, x.id);
      CountForExcept(t.clicks, id, x.id);
    }
  }

  /** Deleting the same campaign twice: the second request is not found. */
  lemma DeleteTwiceNotFound(t: Tables, advertiserId: AdvertiserId, campaignId: CampaignId)
    requires Consistent(t)
    requires Delete(t, advertiserId, campaignId).response.Ok?
    ensures Delete(Delete(t, advertiserId, campaignId).after, advertiserId, campaignId).response == Err(NotFound)
  {
    DeleteKeepsConsistent(t, advertiserId, campaignId);
    var after := Delete(t, advertiserId, campaignId).after;
    var k := OwnedIndex(after.campaigns, advertiserId, campaignId);
    if k < |after.campaigns| {
      assert HasCampaign(after.campaigns, campaignId);
    }
  }

  /** `delete_campaign` on the store, proved against `Delete`. */
  method DeleteCampaign(db: Db, advertiserId: AdvertiserId, campaignId: CampaignId) returns (r: Result<()>)
    requires db.Valid()
    modifies db
    ensures Outcome(r, db.Snapshot()) == Delete(old(db.Snapshot()), advertiserId, campaignId)
    ensures db.Valid()
  {
    DeleteKeepsConsistent(db.Snapshot(), advertiserId, campaignId);
    if advertiserId !in db.advertisers {
      return Err(NotFound);
    }
    var k := OwnedIndex(db.campaigns, advertiserId, campaignId);
    if k == |db.campaigns| {
      return Err(NotFound);
    }
    db.campaigns := db.campaigns[..k] + db.campaigns[k + 1..];
    db.impressions := RowsExcept(db.impressions, campaignId);
    db.clicks := RowsExcept(db.clicks, campaignId);
    r := Ok(());
  }
}
