/**
 * The advertiser-side entities (advertisers/models.py): targeting,
 * campaigns, impression and click rows, the field validators and
 * `clean` methods that `full_clean` runs, the activity check and the
 * table of fields an update may not change.
 */
module AdvertiserModels {
  import opened Common

  datatype Advertiser = Advertiser(id: AdvertiserId, name: string)

  /** `name` is a required character field: an empty name fails validation. */
  predicate AdvertiserValid(a: Advertiser) {
    |a.name| > 0
  }

  /** Optional audience restriction of a campaign; every part may be null. */
  datatype Targeting = Targeting(
    gender: Option<string>,
    ageFrom: Option<int>,
    ageTo: Option<int>,
    location: Option<string>)

  datatype Campaign = Campaign(
    id: CampaignId,
    advertiser: AdvertiserId,
    impressionsLimit: int,
    impressionsCount: int,
    clicksLimit: int,
    clicksCount: int,
    costPerImpression: real,
    costPerClick: real,
    adTitle: string,
    adText: string,
    startDate: int,
    endDate: int,
    targeting: Option<Targeting>,
    isActive: bool)

  /** A row of the Impression table or of the Click table. */
  datatype Record = Record(client: ClientId, campaign: CampaignId, date: int, cost: real)

  // ---------------------------------------------------------------- Targeting

  /** An age bound is null or lies in [0, 100]. */
  predicate AgeBoundValid(a: Option<int>) {
    a.None? || 0 <= a.value <= 100
  }

  /** The gender choices; a blank string passes because the field is `blank=True`. */
  predicate TargetingGenderValid(g: Option<string>) {
    g.None? || g.value == "" || g.value == "MALE" || g.value == "FEMALE" || g.value == "ALL"
  }

  /** Python truthiness of a nullable integer: null and 0 are false. */
  predicate Truthy(a: Option<int>) {
    a.Some? && a.value != 0
  }

  /**
   * `Targeting.full_clean()`: the field validators, then `clean`, which
   * compares the two ages only when both are truthy.
   */
  predicate TargetingValid(t: Targeting) {
    && TargetingGenderValid(t.gender)
    && AgeBoundValid(t.ageFrom)
    && AgeBoundValid(t.ageTo)
    && !(Truthy(t.ageFrom) && Truthy(t.ageTo) && t.ageFrom.value > t.ageTo.value)
  }

  /** The targeting part of a request: absent, or valid. */
  predicate TargetingOk(t: Option<Targeting>) {
    t.None? || TargetingValid(t.value)
  }

  /** A valid targeting has its present ages in [0, 100] and, when both are non-zero, ordered. */
  lemma TargetingValidBounds(t: Targeting)
    requires TargetingValid(t)
    ensures t.ageFrom.Some? ==> 0 <= t.ageFrom.value <= 100
    ensures t.ageTo.Some? ==> 0 <= t.ageTo.value <= 100
    ensures t.ageFrom.Some? && t.ageTo.Some? && t.ageFrom.value != 0 && t.ageTo.value != 0 ==>
              t.ageFrom.value <= t.ageTo.value
  {
  }

  /** A zero bound is falsy, so `age_from > age_to` is not rejected when `age_to` is 0. */
  lemma TargetingZeroBoundSkipsOrder(from: int)
    requires 0 < from <= 100
    ensures TargetingValid(Targeting(None, Some(from), Some(0), None))
  {
  }

  // ----------------------------------------------------------------- Campaign

  /**
   * The field validators of a campaign: limits, costs and dates are
   * non-negative and the two text fields are required (non-blank).
   */
  predicate CampaignFieldsValid(c: Campaign) {
    && c.impressionsLimit >= 0
    && c.clicksLimit >= 0
    && c.costPerImpression >= 0.0
    && c.costPerClick >= 0.0
    && |c.adTitle| > 0
    && |c.adText| > 0
    && c.startDate >= 0
    && c.endDate >= 0
  }

  /** `active_check`: sets `is_active` to whether today lies in the campaign's window. */
  function ActiveCheck(c: Campaign, today: int): (r: Campaign)
    ensures r.isActive <==> c.startDate <= today <= c.endDate
    ensures r.(isActive := c.isActive) == c
  {
    c.(isActive := c.startDate <= today <= c.endDate)
  }

  /**
   * `Campaign.full_clean()`: the field validators, then `clean`, which
   * rejects an end before the start, a start or end in the past and more
   * clicks than impressions, and on success refreshes `is_active`.
   */
  function FullClean(c: Campaign, today: int): (r: Result<Campaign>)
    ensures r.Ok? <==>
              && CampaignFieldsValid(c)
              && c.startDate <= c.endDate
              && today <= c.startDate
              && c.clicksLimit <= c.impressionsLimit
    ensures r.Err? ==> r.error == ValidationError
    ensures r.Ok? ==> r.value.(isActive := c.isActive) == c
    ensures r.Ok? ==> (r.value.isActive <==> c.startDate == today)
  {
    if !CampaignFieldsValid(c) then Err(ValidationError)
    else if c.endDate < c.startDate then Err(ValidationError)
    else if c.endDate < today || c.startDate < today then Err(ValidationError)
    else if c.clicksLimit > c.impressionsLimit then Err(ValidationError)
    else Ok(ActiveCheck(c, today))
  }

  // ------------------------------------------------- Editable fields of a campaign

  /** The writable fields of the campaign input schema, in the order the payload lists them. */
  datatype Field =
    | ImpressionsLimitField
    | ClicksLimitField
    | CostPerImpressionField
    | CostPerClickField
    | AdTitleField
    | AdTextField
    | StartDateField
    | EndDateField
    | TargetingField

  const InputFields: seq<Field> := [
    ImpressionsLimitField, ClicksLimitField, CostPerImpressionField, CostPerClickField,
    AdTitleField, AdTextField, StartDateField, EndDateField, TargetingField
  ]

  /** The input schema lists every writable field. */
  lemma InputFieldsComplete()
    ensures forall f: Field :: f in InputFields
  {
    forall f: Field
      ensures f in InputFields
    {
      match f
      case ImpressionsLimitField => assert InputFields[0] == f;
      case ClicksLimitField => assert InputFields[1] == f;
      case CostPerImpressionField => assert InputFields[2] == f;
      case CostPerClickField => assert InputFields[3] == f;
      case AdTitleField => assert InputFields[4] == f;
      case AdTextField => assert InputFields[5] == f;
      case StartDateField => assert InputFields[6] == f;
      case EndDateField => assert InputFields[7] == f;
      case TargetingField => assert InputFields[8] == f;
    }
  }

  /** The fields locked while a campaign is outside its window. */
  const LockedWhenInactive: seq<Field> := [
    ImpressionsLimitField, ClicksLimitField, StartDateField, EndDateField
  ]

  /** `get_non_editable_fields`: nothing when the campaign is active, the four budget and date fields otherwise. */
  function NonEditableFields(c: Campaign, today: int): (r: seq<Field>)
    ensures c.startDate <= today <= c.endDate ==> r == []
    ensures !(c.startDate <= today <= c.endDate) ==>
              forall f :: f in r <==>
                f == ImpressionsLimitField || f == ClicksLimitField || f == StartDateField || f == EndDateField
  {
    if ActiveCheck(c, today).isActive then [] else LockedWhenInactive
  }

  /** The body of a campaign create or update request. */
  datatype CampaignIn = CampaignIn(
    impressionsLimit: int,
    clicksLimit: int,
    costPerImpression: real,
    costPerClick: real,
    adTitle: string,
    adText: string,
    startDate: int,
    endDate: int,
    targeting: Option<Targeting>)

  /** The value of one writable field, whatever its type. */
  datatype FieldValue =
    | IntValue(i: int)
    | RealValue(r: real)
    | TextValue(s: string)
    | TargetingValue(t: Option<Targeting>)

  function CampaignField(c: Campaign, f: Field): FieldValue {
    match f
    case ImpressionsLimitField => IntValue(c.impressionsLimit)
    case ClicksLimitField => IntValue(c.clicksLimit)
    case CostPerImpressionField => RealValue(c.costPerImpression)
    case CostPerClickField => RealValue(c.costPerClick)
    case AdTitleField => TextValue(c.adTitle)
    case AdTextField => TextValue(c.adText)
    case StartDateField => IntValue(c.startDate)
    case EndDateField => IntValue(c.endDate)
    case TargetingField => TargetingValue(c.targeting)
  }

  function PayloadField(p: CampaignIn, f: Field): FieldValue {
    match f
    case ImpressionsLimitField => IntValue(p.impressionsLimit)
    case ClicksLimitField => IntValue(p.clicksLimit)
    case CostPerImpressionField => RealValue(p.costPerImpression)
    case CostPerClickField => RealValue(p.costPerClick)
    case AdTitleField => TextValue(p.adTitle)
    case AdTextField => TextValue(p.adText)
    case StartDateField => IntValue(p.startDate)
    case EndDateField => IntValue(p.endDate)
    case TargetingField => TargetingValue(p.targeting)
  }

  /** The fields outside the input schema: identity, owner, counters and activity flag. */
  predicate SameNonSchemaFields(a: Campaign, b: Campaign) {
    && a.id == b.id
    && a.advertiser == b.advertiser
    && a.impressionsCount == b.impressionsCount
    && a.clicksCount == b.clicksCount
    && a.isActive == b.isActive
  }

  /** `setattr(campaign, attr, value)` for one schema field. */
  function SetField(c: Campaign, f: Field, p: CampaignIn): (r: Campaign)
    ensures CampaignField(r, f) == PayloadField(p, f)
    ensures forall g :: g != f ==> CampaignField(r, g) == CampaignField(c, g)
    ensures SameNonSchemaFields(r, c)
  {
    match f
    case ImpressionsLimitField => c.(impressionsLimit := p.impressionsLimit)
    case ClicksLimitField => c.(clicksLimit := p.clicksLimit)
    case CostPerImpressionField => c.(costPerImpression := p.costPerImpression)
    case CostPerClickField => c.(costPerClick := p.costPerClick)
    case AdTitleField => c.(adTitle := p.adTitle)
    case AdTextField => c.(adText := p.adText)
    case StartDateField => c.(startDate := p.startDate)
    case EndDateField => c.(endDate := p.endDate)
    case TargetingField => c.(targeting := p.targeting)
  }

  /** Two campaigns that agree on every schema field and every other field are equal. */
  lemma {:induction false} CampaignExtensionality(a: Campaign, b: Campaign)
    requires forall f :: CampaignField(a, f) == CampaignField(b, f)
    requires SameNonSchemaFields(a, b)
    ensures a == b
  {
    assert CampaignField(a, ImpressionsLimitField) == CampaignField(b, ImpressionsLimitField);
    assert CampaignField(a, ClicksLimitField) == CampaignField(b, ClicksLimitField);
    assert CampaignField(a, CostPerImpressionField) == CampaignField(b, CostPerImpressionField);
    assert CampaignField(a, CostPerClickField) == CampaignField(b, CostPerClickField);
    assert CampaignField(a, AdTitleField) == CampaignField(b, AdTitleField);
    assert CampaignField(a, AdTextField) == CampaignField(b, AdTextField);
    assert CampaignField(a, StartDateField) == CampaignField(b, StartDateField);
    assert CampaignField(a, EndDateField) == CampaignField(b, EndDateField);
    assert CampaignField(a, TargetingField) == CampaignField(b, TargetingField);
  }
}
