# Ad platform core, modelled in Dafny

This project models the decision logic of a Django ad-serving backend. Advertisers run
campaigns with budgets (impression and click limits), prices per impression and per
click, a date window and optional targeting (gender, age range, location). Clients ask
for an ad. The backend:

- picks the candidate that best combines profit, an ML relevance score and pacing;
- records the impression;
- records at most one click per client and campaign;
- reports statistics over the recorded impressions and clicks.

A simulated day counter stands in for the calendar.

The database is modelled as in-memory tables. `Database.Tables` is a value holding:
- advertisers and clients as maps keyed by id;
- campaigns as a sequence in storage order, which decides ties;
- ML scores as a map keyed by (client, advertiser);
- Impression and Click rows as sequences.

`Database.Db` is a class holding the same six tables as fields, which the endpoint
methods update in place. Every endpoint is written twice:
- A pure function returns an `Outcome` (the response, plus the tables after the call).
  Lemmas about the endpoint are stated over this function.
- A method on `Db` is proved to produce exactly that outcome, and to keep the store
  `Consistent`. Consistency covers:
  - valid entities and unique ids;
  - rows referring to stored clients and campaigns;
  - at most one row per client and campaign;
  - every click having an impression;
  - non-negative costs;
  - counters equal to the number of rows.

Python floats are modelled as exact `real`s. Ids (UUIDs) are natural numbers. Every
missing object or failed validation is an `Err` of `NotFound`, `Forbidden` or
`ValidationError`.

Modules, one per source file:
- `Common`: Option, Result and the error kinds; `Max`/`Min`.
- `ClientModels`, `AdvertiserModels`: entities and their field validation, `active_check`, editable fields, `clean`.
- `AdScore`: the ranking of `select_best_campaign`.
- `Database`: tables, integrity, the `Db` class.
- `TimeEmulation`: the day counter.
- `AdsApi`: serving and clicks.
- `AdvertisersApi`: advertiser upsert, campaign create/list/update/delete.
- `StatsSchemas`, `StatsApi`: statistics.
- `ScoreApi`: ML score upsert.
- `ClientsApi`: client upsert and lookup.

## Model

| member | source | states |
|---|---|---|
| Common.Max | solution/ads/score.py:7 | the maximum is an element of the list and bounds every element |
| Common.Min | solution/ads/score.py:7 | the minimum is an element of the list and bounds every element from below |
| Common.MinEqualsMaxIffConstant | solution/ads/score.py:7-10 | `min == max` exactly when every value equals the first, the test that selects the all-ones branch |
| AdScore.LinearNormalization | solution/ads/score.py:6-12 | same length as the input; all ones when min equals max; otherwise every value lies in [0, 1], the minimum maps to 0 and the maximum to 1 |
| AdScore.ScaledBounds | solution/ads/score.py:11 | a value between min and max scales into [0, 1], min to 0 and max to 1 |
| AdScore.LinearNormalizationMonotone | solution/ads/score.py:6-12 | min-max scaling keeps the order of the values |
| AdScore.MaxOr1 | solution/ads/score.py:16 | `max(values) or 1` is never 0 and is the maximum unless that is 0 |
| AdScore.MaxNormalization | solution/ads/score.py:15-17 | same length as the input; non-negative values land in [0, 1]; all zeros stay zeros; with a positive maximum exactly the maximal values become 1 |
| AdScore.DividedByMax | solution/ads/score.py:17 | dividing by `max or 1` maps [0, max] into [0, 1] and only the maximum to 1 |
| AdScore.WithinCapIntegerForm | solution/ads/score.py:29 | the 3% cap `count <= limit * 1.03` is the integer test `100 * count <= 103 * limit` |
| AdScore.Filter | solution/ads/score.py:23-30 | keeps exactly the campaigns not yet shown to the client and within the cap |
| AdScore.FilterConcat | solution/ads/score.py:23-30 | the filter distributes over concatenation, so the survivors keep their order |
| AdScore.ClickProbabilityBounds | solution/ads/score.py:44-52 | the click probability `relevance / (max or 1)` lies in [0, 1], so profit lies between the impression price and impression plus click price |
| AdScore.DaysLeftInWindow | solution/ads/score.py:57-58 | inside its window a campaign has a fraction of days left in (0, 1] and no division by zero |
| AdScore.LimitFactor | solution/ads/score.py:60-68 | below 95% progress with time left the factor is in (1, 1.85]; between 95% and 100% it is 1; over budget it is `max(0, 1 - 10 * excess)` and below 1 |
| AdScore.LimitFactorExamples | solution/ads/score.py:66-68 | 1% over budget gives 0.9; 10% or more over gives 0 |
| AdScore.LimitFactorMonotone | solution/ads/score.py:60-68 | with time left, more delivered progress never raises the pacing factor |
| AdScore.Normalize | solution/ads/score.py:72-77 | either regime keeps the length, maps non-negative values into [0, 1] and a positive maximum to 1 |
| AdScore.FirstArgMax | solution/ads/score.py:79-88 | the strict `>` scan ends on a maximal score that beats every earlier one, i.e. the first maximum |
| AdScore.SelectBest | solution/ads/score.py:20-90 | no winner exactly when no campaign survives the filter; a winner is an eligible campaign of the input with the first maximal weighted score |
| AdScore.CollectRelevances | solution/ads/score.py:35-42 | the appending loop yields the relevance (ML score, 0 when absent) of every survivor |
| AdScore.CollectFactors | solution/ads/score.py:46-70 | the appending loop yields every survivor's profit and pacing factor |
| AdScore.PickBest | solution/ads/score.py:79-90 | the running best-so-far loop returns the campaign at the first maximal weighted score |
| AdScore.SelectBestCampaign | solution/ads/score.py:20-90 | the whole imperative selection returns exactly `SelectBest` |
| AdScore.NeverReselected | solution/ads/score.py:26-28 | once the client has an impression of a campaign, no later selection returns it |
| AdvertiserModels.TargetingValidBounds | solution/advertisers/models.py:31-47 | valid targeting has ages in [0, 100] and, when both are non-zero, `age_from <= age_to` |
| AdvertiserModels.TargetingZeroBoundSkipsOrder | solution/advertisers/models.py:57-60 | a zero `age_to` is falsy, so `age_from > age_to` is not refused |
| AdvertiserModels.ActiveCheck | solution/advertisers/models.py:145-151 | `is_active` becomes whether today lies in the window; nothing else changes |
| AdvertiserModels.FullClean | solution/advertisers/models.py:164-177 | accepted iff the fields are valid, `start <= end`, neither date is in the past and `clicks_limit <= impressions_limit`; refusal is a validation error; an accepted campaign is active iff it starts today |
| AdvertiserModels.InputFieldsComplete | solution/advertisers/api.py:201 | the payload field list covers every editable field |
| AdvertiserModels.NonEditableFields | solution/advertisers/models.py:153-162 | a running campaign locks nothing; otherwise both limits and both dates are locked |
| AdvertiserModels.SetField | solution/advertisers/api.py:212 | `setattr` changes exactly the named field to the payload value |
| AdvertiserModels.CampaignExtensionality | solution/advertisers/models.py:65-124 | two campaigns agreeing on every payload field and every other column are equal |
| AdvertisersApi.ValidAdvertisers | solution/advertisers/api.py:36-48 | keeps exactly the entries passing validation (non-empty name) |
| AdvertisersApi.PutAdvertisers | solution/advertisers/api.py:50-55 | after the upsert the ids are the old ones plus the batch's; untouched ids keep their names |
| AdvertisersApi.PutAdvertisersNames | solution/advertisers/api.py:50-55 | with distinct ids every entry of the batch ends with its own name |
| AdvertisersApi.UpsertExistingKeepsCount | solution/advertisers/api.py:50-55 | upserting existing ids does not change the number of advertisers |
| AdvertisersApi.InvalidBatchChangesNothing | solution/advertisers/api.py:33-55 | an all-invalid batch leaves the advertisers unchanged |
| AdvertisersApi.CreateOrUpdateAdvertisers | solution/advertisers/api.py:33-55 | the loop returns the valid entries in order and the store changes only by their upsert |
| AdvertisersApi.NewCampaign | solution/advertisers/api.py:102-106 | the new campaign takes every field from the payload, counters 0, the given advertiser |
| AdvertisersApi.Create | solution/advertisers/api.py:81-110 | not found for an unknown advertiser; every other refusal (failed moderation, invalid targeting, failed `clean`) is a validation error; succeeds exactly when the advertiser is known, moderation passes or is off, the targeting is valid and the new campaign passes `clean`; on success the campaign is appended with payload fields, counters 0 and active iff it starts today |
| AdvertisersApi.CreateKeepsConsistent | solution/advertisers/api.py:81-110 | creating a campaign under a fresh id keeps the store consistent |
| AdvertisersApi.CreateCampaign | solution/advertisers/api.py:81-110 | the store method yields exactly `Create` and keeps the store consistent |
| AdvertisersApi.OfAdvertiser | solution/advertisers/api.py:130 | keeps exactly the advertiser's campaigns, in storage order |
| AdvertisersApi.Page | solution/advertisers/api.py:128-132 | at most `size` items; empty past the end; a full page when one fits; item i is the element at `(page - 1) * size + i` |
| AdvertisersApi.ElementOnItsPage | solution/advertisers/api.py:128-132 | every element appears on page `i / size + 1` |
| AdvertisersApi.GetCampaigns | solution/advertisers/api.py:122-132 | page or size below 1 is a validation error; an unknown advertiser is not found; otherwise succeeds with exactly `Page` of the advertiser's campaigns in storage order, i.e. item i is campaign `(page - 1) * size + i` of the advertiser |
| AdvertisersApi.ApplyFields | solution/advertisers/api.py:201-212 | every field in the list and not locked takes the payload value; the rest and all other columns are kept |
| AdvertisersApi.AsWrittenBeforeDates | solution/advertisers/api.py:201-212 | before the date fields the as-written loop on a running campaign copies every field |
| AdvertisersApi.AsWrittenOnRunning | solution/advertisers/api.py:201-212 | as written, on a running campaign every field but the end date takes the payload value; the end date is the payload's unless the new start lies after today, in which case the old end date stays |
| AdvertisersApi.AsWrittenDatesLast | solution/advertisers/api.py:201-212 | the same for any date-free field list followed by start date, end date and targeting |
| AdvertisersApi.AsWrittenCounterexample | solution/advertisers/api.py:201-213 | for any day d, the window d..d+5 edited to d+2..d+15 is saved as d+2..d+5 and passes `clean` |
| AdvertisersApi.CorrectedKeepsEndDate | solution/advertisers/models.py:153-162 | with the lock decided once from the stored campaign, the same edit is saved as d+2..d+15 |
| AdvertisersApi.EditOfRunningTakesPayload | solution/advertisers/models.py:153-162 | editing a running campaign takes every payload field |
| AdvertisersApi.AsWrittenKeepsNonSchemaFields | solution/advertisers/api.py:201-212 | the as-written loop never touches id, advertiser or counters |
| AdvertisersApi.AsWrittenWhileInactive | solution/advertisers/api.py:209-212 | on a campaign that is not running, re-asking for the locks at every step locks the same four fields throughout |
| AdvertisersApi.AsWrittenFields | solution/advertisers/api.py:201-212 | field by field, the loop as written keeps the locked fields and, when it drops it, the end date; every other field takes the payload value |
| AdvertisersApi.EditAsWritten | solution/advertisers/api.py:201-212 | the campaign the program's loop leaves: locked fields and a dropped end date keep the stored value, the rest comes from the payload; id, advertiser and counters are kept |
| AdvertisersApi.AsWrittenAgreesWithEdit | solution/advertisers/api.py:201-213 | unless a running campaign's start moves past today, the program's loop and the corrected loop save the same campaign after `full_clean` |
| AdvertisersApi.Edit | solution/advertisers/models.py:153-162 | the corrected loop, with the locks decided once from the stored campaign: locked fields keep the stored value, the others take the payload value; id, advertiser and counters are kept |
| AdvertisersApi.OwnedIndex | solution/advertisers/api.py:190-192 | the position of the campaign with this id and advertiser, or the length exactly when the advertiser owns no such campaign |
| AdvertisersApi.CleanKeepsFields | solution/advertisers/models.py:164-177 | a campaign passing `full_clean` keeps every payload field and passes it again |
| AdvertisersApi.ActiveCheckKeepsFields | solution/advertisers/models.py:145-151 | the activity check changes no payload field |
| AdvertisersApi.Update | solution/advertisers/api.py:183-216 | not found for an unknown advertiser or a campaign it does not own; every other refusal is a validation error; succeeds exactly when the campaign is owned, moderation of a non-empty text passes or is off, the targeting is valid and the campaign as the loop leaves it passes `full_clean`; on success only that campaign changes: locked fields and a dropped end date keep the stored value, the rest take the payload value |
| AdvertisersApi.UpdateOfEndedFails | solution/advertisers/models.py:157-171 | an ended campaign keeps its past end date, so every update of it fails validation |
| AdvertisersApi.UpdateKeepsConsistent | solution/advertisers/api.py:183-216 | updating keeps the store consistent |
| AdvertisersApi.EditFields | solution/advertisers/api.py:201-212 | the loop, re-running the activity check and re-reading the locks at every field, stops on invalid targeting and otherwise yields `EditAsWritten` |
| AdvertisersApi.UpdateCampaign | solution/advertisers/api.py:183-216 | the store method, with the program's field loop, yields exactly `Update` and keeps the store consistent |
| AdvertisersApi.Delete | solution/advertisers/api.py:254-263 | not found unless the advertiser owns the campaign; on success the campaign and, by cascade, its rows are gone and nothing else changes |
| AdvertisersApi.DeleteKeepsConsistent | solution/advertisers/api.py:254-263 | deleting keeps the store consistent and the campaign is no longer stored |
| AdvertisersApi.DeleteTwiceNotFound | solution/advertisers/api.py:259-263 | a second delete of the same campaign is not found |
| AdvertisersApi.DeleteCampaign | solution/advertisers/api.py:254-263 | the store method yields exactly `Delete` and keeps the store consistent |
| Database.IndexOf | solution/ads/api.py:104 | the first position holding the id, or the length when there is none |
| Database.RowsOf | solution/stats/api.py:26-27 | keeps exactly the rows of the given campaigns, in order |
| Database.RowsOfNone | solution/stats/api.py:50-51 | no row of the given campaigns means an empty selection |
| Database.CountForExcept | solution/advertisers/api.py:263 | removing one campaign's rows leaves every other campaign's row count |
| Database.BumpImpressions | solution/ads/api.py:62-70 | adding one impression row of a campaign and one to its counter keeps every counter equal to its row count |
| Database.BumpClicks | solution/ads/api.py:110-119 | adding one click row of a campaign and one to its counter keeps every counter equal to its row count |
| Database.EmptyConsistent | solution/advertisers/models.py:65-124 | the empty store is consistent |
| Database.Db.constructor | solution/advertisers/models.py:65-124 | a new store is empty and consistent |
| TimeEmulation.Clock.constructor | solution/time_emulation/cache.py:8-9 | an unset clock reads as day 0 |
| TimeEmulation.Advance | solution/time_emulation/api.py:15-20 | succeeds iff the day is non-negative and not before the current one, then returns the payload; otherwise a validation error |
| TimeEmulation.Clock.SetData | solution/time_emulation/api.py:10-20 | the method returns `Advance`; the clock moves to the requested day on success and is unchanged otherwise |
| TimeEmulation.AfterAllMonotone | solution/time_emulation/api.py:15-19 | over any series of requests the clock never goes back |
| AdsApi.Candidates | solution/ads/api.py:31-52 | keeps exactly the campaigns whose targeting matches the client (unset, `ALL` or equal gender; age bounds; location) and whose window contains today |
| AdsApi.UntargetedMatchesEveryone | solution/ads/api.py:32 | a campaign without targeting is a candidate exactly within its window |
| AdsApi.Serve | solution/ads/api.py:27-70 | not found (and nothing changes) for an unknown client or no winner; otherwise the winner is a never-shown candidate, its counter rises by one and one impression row (client, today, cost per impression) is added |
| AdsApi.ServeKeepsConsistent | solution/ads/api.py:62-70 | serving keeps the store consistent, counters equal to row counts included |
| AdsApi.NeverServedTwice | solution/ads/score.py:26-28 | a campaign served to a client is never served to that client again |
| AdsApi.GetAds | solution/ads/api.py:27-70 | the store method yields exactly `Serve` and keeps the store consistent |
| AdsApi.ServeFromStore | solution/ads/api.py:28-70 | the store part of `get_ads` yields exactly `Serve` |
| AdsApi.PickWinner | solution/ads/api.py:31-57 | the candidate query followed by `select_best_campaign` yields the winner `Serve` uses; no candidates, no winner |
| AdsApi.RecordImpression | solution/ads/api.py:62-70 | the served campaign's counter rises by one at its position and one impression row at the cost per impression is appended; nothing else changes |
| AdsApi.ServeWinner | solution/ads/api.py:57-70 | a stored client with a winner gets that winner, counted once more, and the store gains exactly its impression |
| AdsApi.ImpressionKeepsConsistent | solution/ads/api.py:62-70 | a first impression row of a stored client, priced per impression, with its counter bumped keeps the store consistent |
| AdsApi.ClickOn | solution/ads/api.py:99-126 | not found iff the campaign or client is unknown; forbidden iff there is no impression; succeeds exactly when the campaign and client are stored and the client has an impression of it; a repeated click changes nothing; a first click raises the click counter and adds one click row at the cost per click |
| AdsApi.ClickKeepsConsistent | solution/ads/api.py:107-119 | clicking keeps the store consistent |
| AdsApi.ClickRecorded | solution/ads/api.py:110-118 | after a successful click the pair has a click row |
| AdsApi.ClickIdempotent | solution/ads/api.py:110 | a second click by the same client, on any day, succeeds and changes nothing |
| AdsApi.TwoClicksCountOnce | solution/ads/api.py:110-119 | two clicks raise the counter by exactly one |
| AdsApi.Click | solution/ads/api.py:99-126 | the store method yields exactly `ClickOn` and keeps the store consistent |
| AdsApi.ClickOnStore | solution/ads/api.py:99-126 | the store part of `click` yields exactly `ClickOn` |
| AdsApi.FirstClickKeepsConsistent | solution/ads/api.py:110-119 | a first click row after an impression, priced per click, with its counter bumped keeps the store consistent |
| StatsSchemas.Round2 | solution/stats/schemas.py:15 | rounding gives a whole number of hundredths within half a hundredth of the value |
| StatsSchemas.Round2Bounds | solution/stats/schemas.py:15 | a value in [0, 100] stays in [0, 100] once rounded |
| StatsSchemas.Conversion | solution/stats/schemas.py:13-16 | 0 without impressions; otherwise within 0.005 of `clicks / impressions * 100` |
| StatsSchemas.ConversionIsPercentage | solution/stats/schemas.py:13-16 | with no more clicks than impressions the conversion lies in [0, 100] |
| StatsSchemas.ConversionExtremes | solution/stats/schemas.py:15 | all impressions clicked reads 100, none clicked reads 0 |
| StatsSchemas.SpentTotal | solution/stats/schemas.py:18-21 | the total is the two spends added; with non-negative spends it bounds each |
| StatsApi.SumCost | solution/stats/api.py:29-34 | the cost sum is 0 for no rows and never negative for non-negative costs |
| StatsApi.CampaignStat | solution/stats/api.py:24-36 | not found iff the campaign is unknown; otherwise the counts are its stored counters and the spends are the cost sums of its impression and click rows |
| StatsApi.CampaignStatCountsRows | solution/stats/api.py:24-36 | in a consistent store the counts equal the campaign's rows and the spends are non-negative, 0 without rows |
| StatsApi.AdvertiserStat | solution/stats/api.py:46-65 | not found iff the advertiser is unknown; otherwise counts are the numbers of rows over all its campaigns and spends are the cost sums of those rows |
| StatsApi.AdvertiserStatNoCampaigns | solution/stats/api.py:46-65 | an advertiser without campaigns has all four values 0 |
| StatsApi.AdvertiserStatSingleCampaign | solution/stats/api.py:46-65 | with a single campaign the advertiser stat equals that campaign's stat |
| StatsApi.SortedDays | solution/stats/api.py:80-82 | the days of the grouped query, ascending, each once |
| StatsApi.GroupByDate | solution/stats/api.py:80-91 | one entry per day that has rows, days ascending, with that day's row count and cost sum |
| StatsApi.AscendingUnique | solution/stats/api.py:82 | two ascending lists with the same days are equal |
| StatsApi.FirstOccurrences | solution/stats/api.py:93-112 | the dictionary's keys: every date of the input, each exactly once |
| StatsApi.DailyReport | solution/stats/api.py:93-124 | one entry per first-seen date, holding both sides' grouped counts and costs (0 for a side without the date) |
| StatsApi.AddImpressionDays | solution/stats/api.py:102-105 | after the first loop the keys are the impression dates in first-seen order and each holds that date's impression figures |
| StatsApi.AddClickDays | solution/stats/api.py:107-110 | after the second loop the keys extend in first-seen order over the click dates and each holds both sides' figures |
| StatsApi.MergeDaily | solution/stats/api.py:93-124 | the three loops produce exactly `DailyReport` |
| StatsApi.GroupByDateTotals | solution/stats/api.py:80-110 | merging recovers every day's row count and cost sum |
| StatsApi.DailyDays | solution/stats/api.py:93-126 | a date is listed iff an impression or click exists on it, each once; the list is empty iff there are no rows |
| StatsApi.DailyValues | solution/stats/api.py:93-124 | every listed date carries that day's impression and click counts and costs |
| StatsApi.DailyOrder | solution/stats/api.py:80-115 | the order is impression dates ascending, then click-only dates ascending |
| StatsApi.DailyTotals | solution/stats/api.py:102-110 | the daily impression counts add up to the number of impressions, likewise clicks |
| StatsApi.DailySpentTotals | solution/stats/api.py:80-110 | the daily impression spends add up to the cost of all impressions, likewise clicks |
| StatsApi.SpentOverCovering | solution/stats/api.py:80-91 | over days listed once and covering every row, the per-day cost sums add up to the total cost |
| StatsApi.CampaignDaily | solution/stats/api.py:75-126 | not found iff the campaign is unknown |
| StatsApi.AdvertiserDaily | solution/stats/api.py:136-189 | not found iff the advertiser is unknown |
| StatsApi.CampaignDailyAddsUp | solution/stats/api.py:24-126 | a campaign's daily counts add up to its stored counters and its daily spends to its total spends |
| StatsApi.AdvertiserDailyAddsUp | solution/stats/api.py:46-189 | an advertiser's daily counts and spends add up to its totals |
| StatsApi.GetCampaignStatDaily | solution/stats/api.py:75-126 | the endpoint method returns exactly `CampaignDaily` |
| StatsApi.GetAdvertiserStatDaily | solution/stats/api.py:136-189 | the endpoint method returns exactly `AdvertiserDaily` |
| ScoreApi.UpsertScore | solution/score/api.py:24-44 | a known pair with a valid score is overwritten; an unknown pair is not found without the client or advertiser; a negative score is a validation error; errors change nothing |
| ScoreApi.UpsertExistingKeepsPairs | solution/score/api.py:26-29 | updating a known pair creates no record |
| ScoreApi.UpsertAddsAtMostOnePair | solution/score/api.py:26-41 | the stored pairs are kept and at most the requested one is added |
| ScoreApi.UpsertSetsRelevance | solution/score/api.py:42-44 | after success ranking reads the payload score as relevance for every campaign of that advertiser |
| ScoreApi.UpsertKeepsConsistent | solution/score/api.py:24-44 | the upsert keeps the store consistent |
| ScoreApi.CreateOrUpdateScore | solution/score/api.py:24-44 | the store method yields exactly `UpsertScore` and keeps the store consistent |
| ClientsApi.ValidClients | solution/clients/api.py:31-42 | keeps exactly the entries with a non-empty login and location, age in [0, 100] and gender MALE or FEMALE |
| ClientsApi.PutClients | solution/clients/api.py:44-49 | after the upsert the ids are the old ones plus the batch's; untouched ids keep their client |
| ClientsApi.PutClientsStores | solution/clients/api.py:44-49 | with distinct ids every entry is stored as given |
| ClientsApi.UpsertExistingKeepsCount | solution/clients/api.py:44-49 | upserting existing ids does not change the number of clients |
| ClientsApi.InvalidBatchChangesNothing | solution/clients/api.py:33-49 | an all-invalid batch leaves the clients unchanged |
| ClientsApi.CreateOrUpdateClients | solution/clients/api.py:28-49 | the loop returns the valid entries in order, the store changes only by their upsert and stays consistent |
| ClientsApi.GetClient | solution/clients/api.py:60-61 | not found iff the id is unknown |
| ClientsApi.GetClientFound | solution/clients/api.py:60-61 | a found client carries the requested id and is valid |
| ClientsApi.UpsertThenGet | solution/clients/api.py:44-61 | a valid entry of a batch reads back as given |
| ClientsApi.KeptInOrder | solution/clients/api.py:33-42 | filtering keeps the batch order |

## Left out

- HTTP routing, status-code mapping, ORM querysets and `get_object_or_404` are modelled as map and sequence lookups and `Result` errors. UUID and schema parsing of ids and bodies is not modelled; only the checks that decide behaviour are kept: non-negative day, page and size at least 1.
- Prometheus metrics in stats/metrics.py and the metric calls of the ad endpoints are not modelled.
- Text moderation calls an external language model. Its verdict is the `textPasses` parameter.
- The moderation switch lives in Redis. It is the `moderationMode` parameter.
- Image upload (MinIO storage), ad text generation, `get_advertiser` and `get_campaign` are not modelled. They are plain storage or external calls with no decision logic.
- Concurrency is not modelled. Requests run one at a time, so the race between selection and the counter increment is absent.
- Floats are exact rationals. In Python, `limit * 1.03` may round differently at exact boundaries.
- StatsSchemas.Round2: rounds half-up on exact rationals. Python's `round` rounds half-to-even on binary doubles, so ties and binary representation errors can differ.
- Duplicate ids within one bulk batch are a database conflict. The upsert lemmas assume distinct ids.
- AdvertisersApi.CreateCampaign: requires a fresh campaign id. The database generates a new UUID, and the model takes it as the `newId` parameter.
- When `clean` fails after a Targeting row was saved, that orphan row stays in the database. The model does not keep a separate Targeting table.
- AdScore.SelectBest: requires campaign windows of non-zero length. Python would divide by zero on `end = start - 1`, which `clean` already excludes for stored campaigns.
- Query results without an explicit order are taken in storage order.
- AdvertisersApi.GetCampaigns: the query defaults `size` 10 and `page` 1 are not modelled; page and size are always explicit arguments.

## Findings

| source | as written | input that shows it | evidently intended | confidence | as-written member | corrected member |
|---|---|---|---|---|---|---|
| solution/advertisers/api.py:201-212 | the loop calls `get_non_editable_fields()` on the campaign being edited, after earlier fields were already set; once `start_date` is set past today the campaign is no longer active, so `end_date` becomes locked and the payload's end date is silently dropped | today d, running campaign with window d..d+5, payload window d+2..d+15: saved as d+2..d+5, which still passes `clean` | the locked fields are decided once, from the stored campaign, so a running campaign takes every payload field | not executed | AdvertisersApi.AsWrittenCounterexample | AdvertisersApi.CorrectedKeepsEndDate |

The endpoint (`Update`, `UpdateCampaign`) follows the loop as written, through `EditAsWritten`; the corrected loop is `Edit`, and `AsWrittenAgreesWithEdit` shows the two save the same campaign in every other case.
