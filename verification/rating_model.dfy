/** The rating document of models/Rating.js: the candidate a client submits
    (every field may be missing), the schema's required fields, bounds and
    defaults, the `pre('save')` hook, the `formattedLocation` virtual and
    `getRatingSummary`. Numbers are exact reals. */
module RatingModel {
  import opened Values
  import opened SeqLib

  const MinScore: real := 1.0
  const MaxScore: real := 10.0
  const DefaultRoadName: string := "未命名道路"
  const DefaultRoadType: string := "未知"

  datatype Location = Location(lat: real, lng: real)

  /** `kind` is the schema's `road.type`. */
  datatype Road = Road(id: Option<string>, name: string, kind: string)

  /** The three current dimensions are required; the four legacy ones are optional. */
  datatype Scores = Scores(
    safety: real, comfort: real, total: real,
    bikelanes: Option<real>, surface: Option<real>, traffic: Option<real>, connectivity: Option<real>)

  /** A persisted rating. `createdAt` is in milliseconds since the epoch. */
  datatype Rating = Rating(
    sessionId: Option<string>,
    location: Location,
    road: Road,
    ratings: Scores,
    selectedTags: Option<seq<string>>,
    ipAddress: Option<string>,
    userAgent: Option<string>,
    surveyData: Option<Json>,
    createdAt: int)

  /** The candidate document: a request body after Mongoose has cast it onto
      the schema's paths, with unknown paths dropped. */
  datatype LocationInput = LocationInput(lat: Option<real>, lng: Option<real>)
  datatype RoadInput = RoadInput(id: Option<string>, name: Option<string>, kind: Option<string>)
  datatype ScoresInput = ScoresInput(
    safety: Option<real>, comfort: Option<real>, total: Option<real>,
    bikelanes: Option<real>, surface: Option<real>, traffic: Option<real>, connectivity: Option<real>)
  datatype RatingInput = RatingInput(
    sessionId: Option<string>,
    location: Option<LocationInput>,
    road: Option<RoadInput>,
    ratings: Option<ScoresInput>,
    selectedTags: Option<seq<string>>,
    ipAddress: Option<string>,
    userAgent: Option<string>,
    surveyData: Option<Json>)

  const NoLocation := LocationInput(None, None)
  const NoScores := ScoresInput(None, None, None, None, None, None, None)

  /** A missing nested object leaves all of its paths undefined. */
  function LocationOf(c: RatingInput): LocationInput { c.location.GetOr(NoLocation) }
  function ScoresOf(c: RatingInput): ScoresInput { c.ratings.GetOr(NoScores) }

  predicate InScoreRange(v: real) { MinScore <= v <= MaxScore }

  /** Bounds the `pre('save')` hook enforces on coordinates, boundaries included. */
  predicate ValidLocation(l: Location) {
    -90.0 <= l.lat <= 90.0 && -180.0 <= l.lng <= 180.0
  }

  predicate OptionalInRange(v: Option<real>) { v.None? || InScoreRange(v.value) }

  predicate ValidScores(s: Scores) {
    && InScoreRange(s.safety) && InScoreRange(s.comfort) && InScoreRange(s.total)
    && OptionalInRange(s.bikelanes) && OptionalInRange(s.surface)
    && OptionalInRange(s.traffic) && OptionalInRange(s.connectivity)
  }

  function SafetyOf(r: Rating): real { r.ratings.safety }
  function ComfortOf(r: Rating): real { r.ratings.comfort }
  function TotalOf(r: Rating): real { r.ratings.total }

  /** What every persisted rating satisfies. */
  predicate Valid(r: Rating) { ValidLocation(r.location) && ValidScores(r.ratings) }

  /** Every rating in the store passes the schema and the hook. */
  predicate AllValid(store: seq<Rating>) {
    forall i :: 0 <= i < |store| ==> Valid(store[i])
  }

  /** Ordered by `createdAt`, newest first (the `sort({createdAt: -1})` order). */
  predicate NewestFirst(store: seq<Rating>) {
    forall i, j :: 0 <= i < j < |store| ==> store[j].createdAt <= store[i].createdAt
  }

  /** The schema paths that carry a validator. */
  datatype Path =
    | LocationLat | LocationLng
    | RatingsSafety | RatingsComfort | RatingsTotal
    | RatingsBikelanes | RatingsSurface | RatingsTraffic | RatingsConnectivity

  const SchemaPaths: seq<Path> := [
    LocationLat, LocationLng, RatingsSafety, RatingsComfort, RatingsTotal,
    RatingsBikelanes, RatingsSurface, RatingsTraffic, RatingsConnectivity]

  /** A required number with `min: 1, max: 10`. */
  predicate RequiredScore(v: Option<real>) { v.Some? && InScoreRange(v.value) }

  /** Whether the candidate passes the validators of path `p`: `required`
      for the coordinates, `required` plus `min`/`max` for the current
      dimensions, `min`/`max` only for the legacy ones. */
  predicate PathPasses(c: RatingInput, p: Path) {
    match p
    case LocationLat => LocationOf(c).lat.Some?
    case LocationLng => LocationOf(c).lng.Some?
    case RatingsSafety => RequiredScore(ScoresOf(c).safety)
    case RatingsComfort => RequiredScore(ScoresOf(c).comfort)
    case RatingsTotal => RequiredScore(ScoresOf(c).total)
    case RatingsBikelanes => OptionalInRange(ScoresOf(c).bikelanes)
    case RatingsSurface => OptionalInRange(ScoresOf(c).surface)
    case RatingsTraffic => OptionalInRange(ScoresOf(c).traffic)
    case RatingsConnectivity => OptionalInRange(ScoresOf(c).connectivity)
  }

  lemma AllPathsListed(p: Path)
    ensures p in SchemaPaths
  {
    match p
    case LocationLat => assert SchemaPaths[0] == p;
    case LocationLng => assert SchemaPaths[1] == p;
    case RatingsSafety => assert SchemaPaths[2] == p;
    case RatingsComfort => assert SchemaPaths[3] == p;
    case RatingsTotal => assert SchemaPaths[4] == p;
    case RatingsBikelanes => assert SchemaPaths[5] == p;
    case RatingsSurface => assert SchemaPaths[6] == p;
    case RatingsTraffic => assert SchemaPaths[7] == p;
    case RatingsConnectivity => assert SchemaPaths[8] == p;
  }

  /** The paths whose validators fail, in schema order; Mongoose reports
      them all together in one ValidationError. */
  function SchemaErrors(c: RatingInput): (errs: seq<Path>)
    ensures forall p :: p in errs <==> !PathPasses(c, p)
  {
    var errs := Filter(SchemaPaths, p => !PathPasses(c, p));
    assert forall p :: !PathPasses(c, p) ==> p in errs by {
      forall p | !PathPasses(c, p) ensures p in errs {
        AllPathsListed(p);
      }
    }
    errs
  }

  /** The schema's rules spelled out field by field. */
  predicate Conforms(c: RatingInput) {
    && LocationOf(c).lat.Some? && LocationOf(c).lng.Some?
    && RequiredScore(ScoresOf(c).safety) && RequiredScore(ScoresOf(c).comfort)
    && RequiredScore(ScoresOf(c).total)
    && OptionalInRange(ScoresOf(c).bikelanes) && OptionalInRange(ScoresOf(c).surface)
    && OptionalInRange(ScoresOf(c).traffic) && OptionalInRange(ScoresOf(c).connectivity)
  }

  lemma ConformingPathPasses(c: RatingInput, p: Path)
    requires Conforms(c)
    ensures PathPasses(c, p)
  {
    match p
    case LocationLat =>
    case LocationLng =>
    case RatingsSafety =>
    case RatingsComfort =>
    case RatingsTotal =>
    case RatingsBikelanes =>
    case RatingsSurface =>
    case RatingsTraffic =>
    case RatingsConnectivity =>
  }

  /** A candidate that does not conform fails on some path. */
  lemma FailingPath(c: RatingInput) returns (p: Path)
    requires !Conforms(c)
    ensures !PathPasses(c, p)
  {
    if !PathPasses(c, LocationLat) { p := LocationLat; }
    else if !PathPasses(c, LocationLng) { p := LocationLng; }
    else if !PathPasses(c, RatingsSafety) { p := RatingsSafety; }
    else if !PathPasses(c, RatingsComfort) { p := RatingsComfort; }
    else if !PathPasses(c, RatingsTotal) { p := RatingsTotal; }
    else if !PathPasses(c, RatingsBikelanes) { p := RatingsBikelanes; }
    else if !PathPasses(c, RatingsSurface) { p := RatingsSurface; }
    else if !PathPasses(c, RatingsTraffic) { p := RatingsTraffic; }
    else { p := RatingsConnectivity; }
  }

  /** Validation reports no path exactly when the candidate conforms. */
  lemma SchemaErrorsEmptyIff(c: RatingInput)
    ensures SchemaErrors(c) == [] <==> Conforms(c)
  {
    var errs := SchemaErrors(c);
    if Conforms(c) {
      forall p ensures p !in errs {
        ConformingPathPasses(c, p);
      }
    } else {
      var p := FailingPath(c);
      assert p in errs;
    }
  }

  /** `road.name` and `road.type` take their defaults when omitted. */
  function RoadWithDefaults(r: Option<RoadInput>): (road: Road)
    ensures r.None? ==> road == Road(None, DefaultRoadName, DefaultRoadType)
    ensures r.Some? ==> road.id == r.value.id
    ensures r.Some? && r.value.name.Some? ==> road.name == r.value.name.value
    ensures r.Some? && r.value.name.None? ==> road.name == DefaultRoadName
    ensures r.Some? && r.value.kind.Some? ==> road.kind == r.value.kind.value
    ensures r.Some? && r.value.kind.None? ==> road.kind == DefaultRoadType
  {
    var given := r.GetOr(RoadInput(None, None, None));
    Road(given.id, given.name.GetOr(DefaultRoadName), given.kind.GetOr(DefaultRoadType))
  }

  /** Re-casting a stored road with all its fields given yields it back. */
  lemma RoadWithDefaultsRoundTrip(r: Road)
    ensures RoadWithDefaults(Some(RoadInput(r.id, Some(r.name), Some(r.kind)))) == r
  {
  }

  /** Schema casting and validation: the document Mongoose would build from
      the candidate (defaults applied, `selectedTags` defaulting to an empty
      array, `createdAt` set to `now`), or the failing paths. */
  function Cast(c: RatingInput, now: int): (r: Result<Rating, seq<Path>>)
    ensures r.Err? <==> SchemaErrors(c) != []
    ensures r.Err? ==> r.error == SchemaErrors(c)
    ensures r.Ok? ==> ValidScores(r.value.ratings)
    ensures r.Ok? ==>
      && Some(r.value.location.lat) == LocationOf(c).lat
      && Some(r.value.location.lng) == LocationOf(c).lng
      && Some(r.value.ratings.safety) == ScoresOf(c).safety
      && Some(r.value.ratings.comfort) == ScoresOf(c).comfort
      && Some(r.value.ratings.total) == ScoresOf(c).total
      && r.value.ratings.bikelanes == ScoresOf(c).bikelanes
      && r.value.ratings.surface == ScoresOf(c).surface
      && r.value.ratings.traffic == ScoresOf(c).traffic
      && r.value.ratings.connectivity == ScoresOf(c).connectivity
      && r.value.road == RoadWithDefaults(c.road)
      && r.value.sessionId == c.sessionId
      && r.value.selectedTags == Some(c.selectedTags.GetOr([]))
      && r.value.ipAddress == c.ipAddress
      && r.value.userAgent == c.userAgent
      && r.value.surveyData == c.surveyData
      && r.value.createdAt == now
  {
    SchemaErrorsEmptyIff(c);
    if !Conforms(c) then Err(SchemaErrors(c))
    else
      var l := LocationOf(c);
      var s := ScoresOf(c);
      Ok(Rating(
        c.sessionId,
        Location(l.lat.value, l.lng.value),
        RoadWithDefaults(c.road),
        Scores(s.safety.value, s.comfort.value, s.total.value,
               s.bikelanes, s.surface, s.traffic, s.connectivity),
        Some(c.selectedTags.GetOr([])),
        c.ipAddress, c.userAgent, c.surveyData, now))
  }

  /** The two plain errors the `pre('save')` hook can raise. */
  datatype HookError = BadCoordinates | ScoreOutOfRange

  /** The `pre('save')` hook: coordinates first, then the three current dimensions. */
  function PreSave(r: Rating): (e: Option<HookError>)
    ensures e == Some(BadCoordinates) <==> !ValidLocation(r.location)
    ensures e == Some(ScoreOutOfRange) <==>
      ValidLocation(r.location) &&
      !(InScoreRange(r.ratings.safety) && InScoreRange(r.ratings.comfort) && InScoreRange(r.ratings.total))
    ensures e.None? ==> ValidLocation(r.location) && InScoreRange(r.ratings.total)
  {
    var l := r.location;
    var s := r.ratings;
    if l.lng < -180.0 || l.lng > 180.0 || l.lat < -90.0 || l.lat > 90.0 then Some(BadCoordinates)
    else if s.safety < 1.0 || s.safety > 10.0 || s.comfort < 1.0 || s.comfort > 10.0
         || s.total < 1.0 || s.total > 10.0 then Some(ScoreOutOfRange)
    else None
  }

  /** After schema validation the hook's score check can never fire: every
      document that reaches it fails, if at all, on its coordinates. */
  lemma PreSaveScoresRedundant(c: RatingInput, now: int)
    requires Cast(c, now).Ok?
    ensures PreSave(Cast(c, now).value) != Some(ScoreOutOfRange)
  {
  }

  datatype CreateError = Invalid(paths: seq<Path>) | Hook(e: HookError)

  /** `Rating.create`: cast and validate, then run the hook. */
  function Create(c: RatingInput, now: int): (r: Result<Rating, CreateError>)
    ensures r.Ok? <==> SchemaErrors(c) == [] && ValidLocation(Cast(c, now).value.location)
    ensures r.Ok? ==> Valid(r.value) && r.value == Cast(c, now).value
    ensures r == Err(Hook(BadCoordinates)) <==>
      SchemaErrors(c) == [] && !ValidLocation(Cast(c, now).value.location)
    ensures r.Err? && r.error.Invalid? ==> r.error.paths == SchemaErrors(c) && r.error.paths != []
    ensures r != Err(Hook(ScoreOutOfRange))
  {
    match Cast(c, now)
    case Err(paths) => Err(Invalid(paths))
    case Ok(doc) =>
      match PreSave(doc)
      case Some(e) => Err(Hook(e))
      case None => Ok(doc)
  }

  /** The shape `formattedLocation` returns. */
  datatype LatLng = LatLng(latitude: real, longitude: real)

  /** The `formattedLocation` virtual as written: it tests both coordinates
      for truthiness, so a coordinate of exactly 0 reads as missing. */
  function FormattedLocation(l: LocationInput): (f: Option<LatLng>)
    ensures f.Some? <==> l.lat.Some? && l.lat.value != 0.0 && l.lng.Some? && l.lng.value != 0.0
    ensures f.Some? ==> f.value == LatLng(l.lat.value, l.lng.value)
  {
    if l.lat.Some? && l.lat.value != 0.0 && l.lng.Some? && l.lng.value != 0.0
    then Some(LatLng(l.lat.value, l.lng.value))
    else None
  }

  /** A point on the equator is a valid location, yet the virtual reports none. */
  lemma FormattedLocationDropsEquator()
    ensures ValidLocation(Location(0.0, 10.0))
    ensures FormattedLocation(LocationInput(Some(0.0), Some(10.0))).None?
  {
  }

  /** `formattedLocation` as intended: null only when a coordinate is missing. */
  function FormattedLocationIntended(l: LocationInput): (f: Option<LatLng>)
    ensures f.Some? <==> l.lat.Some? && l.lng.Some?
    ensures f.Some? ==> f.value.latitude == l.lat.value && f.value.longitude == l.lng.value
  {
    if l.lat.Some? && l.lng.Some? then Some(LatLng(l.lat.value, l.lng.value)) else None
  }

  /** A persisted rating always has a formatted location under the intended
      reading, whatever its coordinates. */
  lemma FormattedLocationIntendedTotal(r: Rating)
    ensures FormattedLocationIntended(LocationInput(Some(r.location.lat), Some(r.location.lng)))
         == Some(LatLng(r.location.lat, r.location.lng))
  {
  }

  /** The truthiness test and the intended presence test disagree exactly
      when both coordinates are given and one of them is 0. */
  lemma FormattedLocationDiffers(l: LocationInput)
    ensures FormattedLocation(l) != FormattedLocationIntended(l) <==>
      l.lat.Some? && l.lng.Some? && (l.lat.value == 0.0 || l.lng.value == 0.0)
  {
  }

  datatype Summary = Summary(safety: real, comfort: real, total: real, hasPreferences: bool, preferenceCount: nat)

  /** `getRatingSummary`; an absent `selectedTags` counts as no preferences. */
  function RatingSummary(r: Rating): (s: Summary)
    ensures s.safety == r.ratings.safety && s.comfort == r.ratings.comfort && s.total == r.ratings.total
    ensures s.hasPreferences <==> r.selectedTags.Some? && |r.selectedTags.value| > 0
    ensures s.preferenceCount == if r.selectedTags.Some? then |r.selectedTags.value| else 0
    ensures s.hasPreferences <==> s.preferenceCount > 0
  {
    var tags := r.selectedTags;
    Summary(r.ratings.safety, r.ratings.comfort, r.ratings.total,
            tags.Some? && |tags.value| > 0,
            if tags.Some? then |tags.value| else 0)
  }
}
