/** The `addRating` handler of controllers/ratingController.js over a store of
    ratings held newest-first: the controller's own presence and range checks,
    the provenance overwrite, then `Rating.create` with its schema validation
    and `pre('save')` hook. */
module RatingAdd {
  import opened Values
  import opened RatingModel

  /** Why a submission was refused. `SchemaInvalid` is a Mongoose ValidationError;
      a hook error is a plain Error, which the handler does not recognise. */
  datatype AddError = MissingScores | ScoresOutOfRange | SchemaInvalid(paths: seq<Path>) | ServerError

  /** The HTTP status the handler answers each refusal with. */
  function Status(e: AddError): (code: int)
    ensures code == 400 || code == 500
    ensures code == 500 <==> e == ServerError
  {
    match e
    case MissingScores => 400
    case ScoresOutOfRange => 400
    case SchemaInvalid(_) => 400
    case ServerError => 500
  }

  datatype AddResult = AddResult(store: seq<Rating>, reply: Result<Rating, AddError>)

  /** `ratings` is present and none of the three current dimensions is undefined. */
  predicate ScoresPresent(body: RatingInput) {
    && body.ratings.Some?
    && body.ratings.value.safety.Some?
    && body.ratings.value.comfort.Some?
    && body.ratings.value.total.Some?
  }

  predicate ScoresInRange(body: RatingInput)
    requires ScoresPresent(body)
  {
    var s := body.ratings.value;
    InScoreRange(s.safety.value) && InScoreRange(s.comfort.value) && InScoreRange(s.total.value)
  }

  /** The body spread into a new object with `ipAddress` and `userAgent`
      taken from the request; a missing User-Agent header overwrites the
      body's value with `undefined`. */
  function WithProvenance(body: RatingInput, ip: string, userAgent: Option<string>): (d: RatingInput)
    ensures d.ipAddress == Some(ip) && d.userAgent == userAgent
    ensures d.sessionId == body.sessionId && d.location == body.location && d.road == body.road
    ensures d.ratings == body.ratings && d.selectedTags == body.selectedTags
    ensures d.surveyData == body.surveyData
  {
    body.(ipAddress := Some(ip), userAgent := userAgent)
  }

  /** Everything a body must satisfy to be stored, rule by rule. */
  predicate Admissible(body: RatingInput) {
    && body.ratings.Some?
    && RequiredScore(body.ratings.value.safety)
    && RequiredScore(body.ratings.value.comfort)
    && RequiredScore(body.ratings.value.total)
    && OptionalInRange(body.ratings.value.bikelanes)
    && OptionalInRange(body.ratings.value.surface)
    && OptionalInRange(body.ratings.value.traffic)
    && OptionalInRange(body.ratings.value.connectivity)
    && body.location.Some?
    && body.location.value.lat.Some? && body.location.value.lng.Some?
    && ValidLocation(Location(body.location.value.lat.value, body.location.value.lng.value))
  }

  /** `addRating`: a refusal leaves the store as it was; an acceptance puts
      exactly one new rating, stamped `now`, at the newest end. */
  function AddRating(store: seq<Rating>, body: RatingInput, ip: string, userAgent: Option<string>, now: int)
    : (r: AddResult)
    ensures r.reply.Err? ==> r.store == store
    ensures r.reply.Ok? ==> r.store == [r.reply.value] + store
    ensures r.reply == Err(MissingScores) <==> !ScoresPresent(body)
    ensures r.reply == Err(ScoresOutOfRange) <==> ScoresPresent(body) && !ScoresInRange(body)
    ensures r.reply.Ok? <==> Admissible(body)
    ensures r.reply.Ok? ==> Valid(r.reply.value) && r.reply.value.createdAt == now
    ensures r.reply.Ok? ==> r.reply.value == Cast(WithProvenance(body, ip, userAgent), now).value
    ensures r.reply.Err? && r.reply.error.SchemaInvalid? ==>
      && ScoresPresent(body) && ScoresInRange(body)
      && r.reply.error.paths == SchemaErrors(WithProvenance(body, ip, userAgent))
      && r.reply.error.paths != []
    ensures r.reply == Err(ServerError) <==>
      && ScoresPresent(body) && ScoresInRange(body)
      && SchemaErrors(WithProvenance(body, ip, userAgent)) == []
      && !ValidLocation(Cast(WithProvenance(body, ip, userAgent), now).value.location)
  {
    if !ScoresPresent(body) then AddResult(store, Err(MissingScores))
    else if !ScoresInRange(body) then AddResult(store, Err(ScoresOutOfRange))
    else
      var data := WithProvenance(body, ip, userAgent);
      SchemaErrorsEmptyIff(data);
      match Create(data, now)
      case Ok(rating) => AddResult([rating] + store, Ok(rating))
      case Err(Invalid(paths)) => AddResult(store, Err(SchemaInvalid(paths)))
      case Err(Hook(_)) => AddResult(store, Err(ServerError))
  }

  /** The stored rating is the body with provenance overwritten and schema
      defaults filled in; no other field changes. */
  lemma AcceptedRatingIsBody(store: seq<Rating>, body: RatingInput, ip: string, userAgent: Option<string>, now: int)
    requires AddRating(store, body, ip, userAgent, now).reply.Ok?
    ensures var rec := AddRating(store, body, ip, userAgent, now).reply.value;
      && rec.ipAddress == Some(ip) && rec.userAgent == userAgent
      && rec.sessionId == body.sessionId
      && Some(rec.location.lat) == body.location.value.lat
      && Some(rec.location.lng) == body.location.value.lng
      && rec.road == RoadWithDefaults(body.road)
      && Some(rec.ratings.safety) == body.ratings.value.safety
      && Some(rec.ratings.comfort) == body.ratings.value.comfort
      && Some(rec.ratings.total) == body.ratings.value.total
      && rec.ratings.bikelanes == body.ratings.value.bikelanes
      && rec.ratings.surface == body.ratings.value.surface
      && rec.ratings.traffic == body.ratings.value.traffic
      && rec.ratings.connectivity == body.ratings.value.connectivity
      && rec.selectedTags == Some(body.selectedTags.GetOr([]))
      && rec.surveyData == body.surveyData
  {
  }

  /** The summary of an accepted rating reports the submitted tags, an
      omitted `selectedTags` counting as the empty default. */
  lemma AcceptedSummary(store: seq<Rating>, body: RatingInput, ip: string, userAgent: Option<string>, now: int)
    requires AddRating(store, body, ip, userAgent, now).reply.Ok?
    ensures var s := RatingSummary(AddRating(store, body, ip, userAgent, now).reply.value);
      && s.preferenceCount == |body.selectedTags.GetOr([])|
      && (s.hasPreferences <==> body.selectedTags.GetOr([]) != [])
  {
    AcceptedRatingIsBody(store, body, ip, userAgent, now);
  }

  /** Out-of-range coordinates get past the controller and the schema and
      are refused by the hook, which the handler answers with 500. */
  lemma BadCoordinatesAnswer500(store: seq<Rating>, body: RatingInput, ip: string, userAgent: Option<string>, now: int)
    requires Admissible(body)
    ensures var r := AddRating(store, body.(location := Some(LocationInput(Some(91.0), Some(0.0)))), ip, userAgent, now);
      r.reply == Err(ServerError) && Status(r.reply.error) == 500
  {
  }

  /** Writing only through `addRating` keeps every stored rating valid. */
  lemma AddRatingKeepsValid(store: seq<Rating>, body: RatingInput, ip: string, userAgent: Option<string>, now: int)
    requires AllValid(store)
    ensures AllValid(AddRating(store, body, ip, userAgent, now).store)
  {
    var r := AddRating(store, body, ip, userAgent, now);
    if r.reply.Ok? {
      forall i | 0 <= i < |r.store| ensures Valid(r.store[i]) {
        if i > 0 {
          assert r.store[i] == store[i - 1];
        }
      }
    }
  }

  /** A rating no older than the newest one keeps the store newest-first
      when put in front. */
  lemma PrependKeepsOrder(store: seq<Rating>, x: Rating)
    requires NewestFirst(store)
    requires store != [] ==> store[0].createdAt <= x.createdAt
    ensures NewestFirst([x] + store)
  {
    var s := [x] + store;
    forall i, j | 0 <= i < j < |s| ensures s[j].createdAt <= s[i].createdAt {
      assert s[j] == store[j - 1];
      if i > 0 {
        assert s[i] == store[i - 1];
      }
    }
  }

  /** With a clock that never runs behind the newest stored rating, the store
      stays ordered newest-first. */
  lemma AddRatingKeepsOrder(store: seq<Rating>, body: RatingInput, ip: string, userAgent: Option<string>, now: int)
    requires NewestFirst(store)
    requires store != [] ==> store[0].createdAt <= now
    ensures NewestFirst(AddRating(store, body, ip, userAgent, now).store)
  {
    var r := AddRating(store, body, ip, userAgent, now);
    if r.reply.Ok? {
      PrependKeepsOrder(store, r.reply.value);
    }
  }
}
