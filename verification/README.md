# Bikeability ratings and surveys: a functional model

The Bikeability Assessment service collects crowd-sourced ratings of road
segments and a one-time demographic survey per browser session. This project
models the three pieces of logic under its web plumbing:

- **Rating admission.** The `addRating` handler checks that `ratings` is present and that `safety`, `comfort` and `total` are defined and in [1, 10]. It then overwrites `ipAddress`/`userAgent` with the request's values and calls `Rating.create`. That call runs the schema validators first (required coordinates and scores, `min: 1`/`max: 10`, also on the four optional legacy scores). It then runs the `pre('save')` hook (lat in [-90, 90], lng in [-180, 180], the three scores in [1, 10] again).
- **Rating queries** over the collection, held newest-first:
  - paging (`page`/`limit` defaults, `skip`, `Math.ceil(total / limit)`);
  - the inclusive bounding-box query;
  - the road query with its per-dimension means;
  - the statistics: `$avg` averages with `|| 0` fallbacks, the `$bucket` distribution of `total` over boundaries [1, 3, 5, 7, 9, 11], and the per-day trend of the last 30 days.
- **Survey store.** `submitSurvey` refuses a falsy session id or payload, refuses a second survey for a session, and otherwise stores one record. `getSurvey` returns the session's record or NotFound.

Each store is an immutable `seq` and every handler is a pure function. A
write returns the new store together with its reply. The rating collection
is a `seq<Rating>`, newest first. The survey collection is a
`seq<SurveyRecord>` in insertion order, and `SurveyController.AsMap` reads it
as a map from session to record.

Modules: `Values` holds Option, Result and JSON values with JavaScript
truthiness. `SeqLib` and `Grouping` hold the filter, mean and group/bucket
machinery. `RatingModel` models models/Rating.js. `RatingAdd`, `RatingList`,
`RatingFilters` and `RatingStats` model controllers/ratingController.js.
`SurveyController` models controllers/surveyController.js.

Points where the code behaves differently from what its surface suggests:

- The score scale is 1–10 with fields `safety`/`comfort`/`total`, although the version banner in server.js (lines 37 and 47) advertises a 4-point `comfortable`/`safe`/`overall` scale.
- The schema puts no bounds on `location.lat`/`lng`; only the `pre('save')` hook checks them. It raises a plain `Error`, not a `ValidationError`, so out-of-range coordinates are answered with 500, not 400 (`RatingAdd.AddRating`, `RatingAdd.BadCoordinatesAnswer500`).
- `parseInt(x) || d` defaults only a missing/NaN value or 0 to 1 (page) or 50 (limit). A negative page with a positive limit gives a negative skip, which the store refuses, and the handler answers 500; so does a page above 1 with a negative limit. A negative page with a negative limit gives a positive skip and an ordinary page.
- The distribution buckets are [1, 3), [3, 5), [5, 7), [7, 9) and [9, 11), not one bucket per score.
- `getRatingsByRoad` is modelled, but routes/ratings.js does not expose it.

## Model

| member | source | states |
|---|---|---|
| `RatingModel.SchemaErrors` | models/Rating.js:12-79 | a path is reported iff its validator fails: lat/lng required; safety/comfort/total required and in [1, 10]; each legacy score in [1, 10] when present |
| `RatingModel.SchemaErrorsEmptyIff` | models/Rating.js:12-79 | validation reports nothing iff the candidate meets every rule, stated field by field |
| `RatingModel.RoadWithDefaults` | models/Rating.js:24-36 | an omitted `road.name`/`road.type` takes its default; given values and `road.id` are kept |
| `RatingModel.RoadWithDefaultsRoundTrip` | models/Rating.js:24-36 | casting a stored road with its id, name and type given yields the same road: the defaults never override given values |
| `RatingModel.Cast` | models/Rating.js:3-104 | the built document equals the candidate on every schema path, with defaults filled in (`selectedTags` defaults to [], `createdAt` is `now`); it fails with exactly the failing paths |
| `RatingModel.PreSave` | models/Rating.js:135-153 | rejects on coordinates iff lng ∉ [-180, 180] or lat ∉ [-90, 90] (bounds included); otherwise rejects on scores iff a current score is outside [1, 10] |
| `RatingModel.PreSaveScoresRedundant` | models/Rating.js:146-152 | after schema validation the hook's score check never fires |
| `RatingModel.Create` | models/Rating.js:135-153 | `create` succeeds iff the schema passes and the coordinates are in range; the created document is valid |
| `RatingModel.FormattedLocation` | models/Rating.js:113-121 | returns `{latitude, longitude}` iff both coordinates are present and non-zero |
| `RatingModel.FormattedLocationDropsEquator` | models/Rating.js:113-121 | a valid location with latitude 0 gets no formatted location |
| `RatingModel.FormattedLocationIntended` | models/Rating.js:113-121 | the intended virtual returns the coordinates iff both are present |
| `RatingModel.FormattedLocationDiffers` | models/Rating.js:113-121 | the as-written virtual and the intended one differ exactly when both coordinates are given and one of them is 0 |
| `RatingModel.FormattedLocationIntendedTotal` | models/Rating.js:12-21 | under the intended reading, every persisted rating has its formatted location |
| `RatingModel.RatingSummary` | models/Rating.js:124-131 | copies the three scores; `hasPreferences` iff `selectedTags` is non-empty; `preferenceCount` is its length, 0 when absent; the two agree |
| `RatingAdd.AcceptedSummary` | models/Rating.js:124-131 | the summary of a rating accepted by `addRating` counts exactly the submitted tags (none when omitted, through the `[]` default), and has preferences iff some tag was submitted |
| `RatingAdd.AddRating` | controllers/ratingController.js:80-129 | refuses with MissingScores iff ratings or a current score is undefined; with ScoresOutOfRange iff one is outside [1, 10]; with the schema's failing paths (400) when validation fails; with ServerError (500) iff the body passes the handler's checks and the schema but the cast coordinates are out of range; accepts iff the body is admissible; a refusal leaves the store unchanged; an acceptance prepends exactly one valid rating |
| `RatingAdd.Status` | controllers/ratingController.js:84-128 | the handler's own checks and schema errors answer 400; hook errors answer 500 |
| `RatingAdd.WithProvenance` | controllers/ratingController.js:100-104 | `ipAddress`/`userAgent` come from the request (a missing User-Agent overwrites with undefined); every other field is unchanged |
| `RatingAdd.AcceptedRatingIsBody` | controllers/ratingController.js:100-107 | the stored rating is the body field by field, apart from provenance and schema defaults |
| `RatingAdd.BadCoordinatesAnswer500` | controllers/ratingController.js:114-129 | a body that is admissible apart from latitude 91 is refused with status 500 |
| `RatingAdd.AddRatingKeepsValid` | controllers/ratingController.js:107 | writing through `addRating` keeps every stored rating valid |
| `RatingAdd.AddRatingKeepsOrder` | controllers/ratingController.js:107 | with a clock not behind the newest rating, the store stays newest-first |
| `RatingList.OrDefault` | controllers/ratingController.js:8-9 | NaN and 0 fall back to the default; every other integer, negative ones included, is kept |
| `RatingList.Ceil` | controllers/ratingController.js:26 | `Math.ceil`: the result c satisfies c - 1 < x ≤ c |
| `RatingList.Page` | controllers/ratingController.js:13-16 | the page holds min(n, total - skip) records (none past the end), and element i is record skip + i |
| `RatingList.ListRatings` | controllers/ratingController.js:5-28 | fails iff skip < 0; otherwise count = length ≤ abs(limit), element i is record skip + i, total counts the whole store, and pages is the ceiling of total/limit |
| `RatingList.PagesBounds` | controllers/ratingController.js:19-26 | for limit ≥ 1: pages·limit ≥ total, (pages-1)·limit < total when total > 0, and pages = 0 iff total = 0 |
| `RatingList.PageCount` | controllers/ratingController.js:26 | the same bounds as a function of total and limit |
| `RatingList.DefaultListing` | controllers/ratingController.js:8-16 | no page and no limit give the newest 50 records; 0 behaves as missing |
| `RatingList.PagesUpToPrefix` | controllers/ratingController.js:10-16 | pages 1..k concatenated are the newest min(k·limit, total) records |
| `RatingList.PagesCoverStore` | controllers/ratingController.js:10-26 | pages 1..pages concatenated are exactly the store |
| `RatingList.LaterPagesEmpty` | controllers/ratingController.js:10-26 | every page after the last is empty |
| `RatingList.SecondPageOfTwentyFive` | controllers/ratingController.js:8-27 | page 2 with limit 10 over 25 records is records 11–20, total 25, 3 pages |
| `RatingFilters.ByLocation` | controllers/ratingController.js:42-59 | a rating is returned iff it is stored and lies in the inclusive box of half-width r (default 0.005); the answer is newest-first when the store is |
| `RatingFilters.ByLocationExact` | controllers/ratingController.js:50-58 | every stored copy inside the box is returned and nothing else (multiset exactness) |
| `RatingFilters.ByLocationAppend` | controllers/ratingController.js:50-59 | the query distributes over concatenation, so it never reorders |
| `RatingFilters.BoxEdges` | controllers/ratingController.js:42-58 | a rating on a corner of the default box is found; one any distance beyond an edge is not |
| `RatingFilters.FilterKeepsNewestFirst` | controllers/ratingController.js:59 | filtering a newest-first store keeps it newest-first |
| `RatingFilters.ByRoad` | controllers/ratingController.js:243-264 | returns exactly the stored ratings with `road.id == roadId`; count is its length; averages are taken over them |
| `RatingFilters.ByRoadExact` | controllers/ratingController.js:243-244 | every stored copy of a rating of the road is returned, with its multiplicity, and nothing else, so `count` is the number of matching stored ratings |
| `RatingFilters.Averages` | controllers/ratingController.js:247-264 | all 0 for no ratings; otherwise each average times the count is the dimension's sum |
| `RatingFilters.RoadAveragesInRange` | controllers/ratingController.js:253-263 | over valid ratings, a road with ratings has each average in [1, 10] |
| `RatingFilters.TwoRatingsOfOneRoad` | controllers/ratingController.js:243-264 | ratings (4,3,2) and (2,1,4) of road R1 average to safety 3, comfort 2, total 3 |
| `RatingStats.Present` | controllers/ratingController.js:145-152 | `$avg` sees exactly the present values of a field, never more than there are records |
| `RatingStats.PresentCount` | controllers/ratingController.js:145-152 | each present value is seen as many times as it occurs, so the mean is over values with their multiplicities |
| `RatingStats.AvgOrZero` | controllers/ratingController.js:208-215 | 0 when no value is present; otherwise average times count is the sum |
| `RatingStats.AverageRatingsAsWritten` | controllers/ratingController.js:197-216 | an empty store answers the seven `avg…` keys, all 0; a non-empty one answers the seven plain keys, each its field's `$avg` or 0 (the same map as `AverageRatings`) |
| `RatingStats.AsWrittenKeysDisagree` | controllers/ratingController.js:197-216 | the two key sets are disjoint: `safety` is missing exactly when the store is empty |
| `RatingStats.AverageRatings` | controllers/ratingController.js:141-216 | always the seven plain keys; each is its field's `$avg` or 0; all 0 on an empty store |
| `RatingStats.AvgOrZeroInRange` | controllers/ratingController.js:208-215 | a field in range wherever present averages to 0 or into [1, 10] |
| `RatingStats.AverageRatingsInRange` | controllers/ratingController.js:207-216 | over valid ratings every average is 0 or in [1, 10]; the three required ones are in range once there is a rating |
| `RatingStats.MissingLegacyFieldIsZero` | controllers/ratingController.js:212 | a legacy field that no rating carries averages to 0 |
| `RatingStats.BucketOf` | controllers/ratingController.js:160-164 | v goes to bucket b_i iff b_i ≤ v < b_(i+1), and to `other` iff it is below the first boundary or at or above the last |
| `RatingStats.BucketIds` | controllers/ratingController.js:162-163 | the bucket list is duplicate-free and contains every bucket a value can fall in |
| `RatingStats.Distribution` | controllers/ratingController.js:158-169 | lists only non-empty buckets, each with its exact count; every rating's bucket is listed; the counts add up to the number of ratings |
| `RatingStats.BucketEdges` | controllers/ratingController.js:162-163 | 1 and 2.9 go to bucket 1, 3 to bucket 3, 9 and 10 to bucket 9, and 0.5 and 11 to `other` |
| `RatingStats.ValidStoreHasNoOther` | controllers/ratingController.js:163 | valid ratings never fall in the default bucket |
| `RatingStats.Recent` | controllers/ratingController.js:173-179 | keeps exactly the ratings created at or after now - 30 days |
| `RatingStats.RecentExact` | controllers/ratingController.js:173-179 | every stored copy of a rating of the window is kept, with its multiplicity, and every older one dropped |
| `RatingStats.PointsFor` | controllers/ratingController.js:181-190 | one point per day, with that day's count and mean overall score |
| `RatingStats.CountSumIsSumSizes` | controllers/ratingController.js:188 | the points' counts add up to the day groups' sizes |
| `RatingStats.RecentTrend` | controllers/ratingController.js:172-195 | days strictly ascending; each has a positive count and its mean total; every recent rating's day is listed; counts add up to the number of recent ratings |
| `RatingStats.TrendAveragesInRange` | controllers/ratingController.js:189 | over valid ratings every day's mean total is in [1, 10] |
| `RatingStats.RatingStats` | controllers/ratingController.js:135-226 | `totalRatings` counts the store; `averageRatings`, `ratingDistribution` and `recentTrends` are the corrected averages, the bucket tally and the 30-day trend of the store; an empty store gives all-zero averages and empty distribution and trend; the distribution adds up to the total and the trend to at most the total |
| `SeqLib.Filter` | controllers/ratingController.js:50-59 | keeps exactly the elements satisfying the predicate, never more than the input |
| `SeqLib.FilterCount` | controllers/ratingController.js:50-59 | every occurrence satisfying the predicate is kept, with its multiplicity |
| `SeqLib.FilterAppend` | controllers/ratingController.js:59 | filtering distributes over concatenation |
| `SeqLib.Mean` | controllers/ratingController.js:253-263 | 0 for an empty sequence (no division), otherwise mean times count is the sum |
| `SeqLib.MeanBounds` | controllers/ratingController.js:253-263 | the mean of values in [lo, hi] lies in [lo, hi] |
| `Grouping.Partition` | controllers/ratingController.js:158-169 | the groups of a duplicate-free key list covering every key account for each element exactly once |
| `Grouping.Tally` | controllers/ratingController.js:158-169 | per-key counts, listing exactly the keys with a non-empty group |
| `Grouping.SortedKeys` | controllers/ratingController.js:181-194 | the distinct keys of the input, strictly ascending |
| `SurveyController.FindOne` | controllers/surveyController.js:17 | returns nothing iff no record has the session; otherwise a stored record of that session |
| `SurveyController.SubmitSurvey` | controllers/surveyController.js:5-42 | refuses MissingFields iff the session id or payload is falsy; AlreadySubmitted iff the session already has a record; a refusal leaves the store unchanged; a success appends exactly (session, payload, now) |
| `SurveyController.GetSurvey` | controllers/surveyController.js:46-69 | NotFound iff no record has the session; otherwise a stored record of that session |
| `SurveyController.SubmitKeepsUnique` | controllers/surveyController.js:17-29 | submission keeps at most one record per session |
| `SurveyController.ReplayUnique` | controllers/surveyController.js:17-29 | any run of submissions from an empty store leaves at most one record per session |
| `SurveyController.AsMap` | controllers/surveyController.js:50 | the map view has a key iff some record has that session |
| `SurveyController.GetSurveyIsMapLookup` | controllers/surveyController.js:50-62 | `getSurvey` answers exactly the map view's entry |
| `SurveyController.AsMapAppend` | controllers/surveyController.js:26-29 | appending a new session's record adds that one key and no other |
| `SurveyController.SubmitOnMap` | controllers/surveyController.js:9-33 | on the map view, a refusal changes nothing; a success adds exactly session ↦ record, and the map grows by one |
| `SurveyController.SubmitThenGet` | controllers/surveyController.js:26-62 | after a success the session reads back the submitted payload; every other session reads back as before |
| `SurveyController.DuplicateKeepsOriginal` | controllers/surveyController.js:17-24 | a second submission for a session is refused and leaves its stored survey as it was |
| `SurveyController.FalsyPayloadsRefused` | controllers/surveyController.js:9-14 | 0, "" and null payloads, and an empty session id, are refused; an empty object is accepted |

## Findings

| source | as written | input that shows it | evidently intended | confidence | as-written member | corrected member |
|---|---|---|---|---|---|---|
| controllers/ratingController.js:197-216 | on an empty collection `averageRatings` is the fallback object with keys `avgSafety`…`avgConnectivity`; otherwise the keys are `safety`…`connectivity` | a store with no ratings | the same seven keys `safety`…`connectivity`, all 0 | high; not executed | `RatingStats.AsWrittenKeysDisagree` | `RatingStats.AverageRatings` |
| models/Rating.js:113-121 | `formattedLocation` tests `lat && lng` for truthiness | a rating at lat 0, lng 10 (on the equator, a valid location) yields null | null only when a coordinate is missing | medium; not executed | `RatingModel.FormattedLocationDropsEquator` | `RatingModel.FormattedLocationIntended` |

`RatingStats.RatingStats` uses the corrected averages.

## Left out

- HTTP transport, routing, middleware, CORS, logging and process start-up (server.js, routes/*.js) are wiring only. The response envelopes and the error message strings are not modelled; statuses appear as `RatingAdd.Status` and in the error datatypes.
- The database connection (config/db.js) is I/O and exits the process. A store failure other than those modelled (a negative skip, a hook error) is not modelled.
- Mongoose/Mongo internals are not modelled: the index declarations, the `2dsphere` index and `timestamps`. The clock is a parameter `now` that stamps `createdAt`; a client-supplied `createdAt` is not modelled.
- The `sort({createdAt: -1})` is not re-performed. The store is assumed newest-first (`RatingModel.NewestFirst`), and ties keep store order.
- Parsing is not modelled: `parseInt`/`parseFloat` of route and query strings, NaN, and Mongoose casting of non-numeric values (`CastError`). Inputs arrive already parsed. For `page`/`limit`, `None` stands for NaN or undefined, which `|| d` treats alike. For `RatingFilters.ByLocation`'s `radius`, `None` means the route gave no radius, so the 0.005 default applies. A radius or coordinate that parses to NaN (for example "abc") is not modelled: `parseFloat` would make the box bounds NaN and match nothing.
- JavaScript coercion in the handler's comparisons is not modelled (strings, `null`). A body field is either a number or missing.
- Mongoose strict mode drops unknown body fields. `RatingModel.RatingInput` therefore has only the schema's paths, and "every other field unchanged" is stated for those paths.
- A negative `limit` is modelled as the driver's single batch of `abs(limit)` documents. This is the driver's behaviour and is not visible in the repository's code.
- RatingFilters.Averages: the means are exact. The `parseFloat(x.toFixed(1))` rounding to one decimal is not modelled.
- RatingStats.AverageRatings: the means are exact. The one-decimal rounding is not modelled.
- RatingStats.AverageRatings: the store holds only documents of the current schema, so `safety`, `comfort` and `total` are always present. Older documents without them, which the comments at models/Rating.js:7 and :59 allow for, are not modelled. On such documents `$avg` would skip the missing values, and the `|| 0` fallback on the three current averages (controllers/ratingController.js:208-210) would fire when none carries a value. In the model that fallback fires only for the legacy fields and the empty store.
- RatingStats.Distribution: for the same reason, a document without `ratings.total`, which `$bucket` would put in `other` (controllers/ratingController.js:160-163), is not modelled.
- RatingFilters.ByRoad: for the same reason, a road rating without one of the three current scores is not modelled. The handler would add `undefined` there, and that average would become NaN (controllers/ratingController.js:254-262).
- RatingStats.RecentTrend: `$dateToString` day keys are modelled as UTC day numbers (`createdAt` div 86 400 000). These sort like the `%Y-%m-%d` strings for years 0–9999; the strings themselves are not produced.
- RatingStats.RatingStats: the trend's `avgTotal` is an exact mean with no rounding. The wall clock is the parameter `now`.
- RatingStats.RatingStats: on an empty store it answers the corrected `safety`…`connectivity` keys with value 0, not the `avg…` keys of the `defaultStats` fallback at controllers/ratingController.js:197-205. The as-written answer is `RatingStats.AverageRatingsAsWritten` (see Findings).
- The race between `findOne` and `create` in `submitSurvey` and the unique index of models/Survey.js are not modelled, because concurrency is out of scope. `SurveyController.ReplayUnique` covers sequential submissions only.
- The field list of models/Survey.js and its casting of `surveyData` are not modelled. The payload is stored as the JSON value submitted.
- A non-string session id (which Mongoose would cast) is not modelled. Session ids are strings, and only the empty string is falsy.
