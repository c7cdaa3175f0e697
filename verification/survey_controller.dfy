/** The survey handlers of controllers/surveyController.js over the survey
    collection, held in insertion order: `submitSurvey` refuses missing fields
    and a second survey for a session, `getSurvey` looks a session up. */
module SurveyController {
  import opened Values

  datatype SurveyRecord = SurveyRecord(sessionId: string, surveyData: Json, createdAt: int)

  /** Both refusals are answered with 400. */
  datatype SubmitError = MissingFields | AlreadySubmitted

  /** A lookup for an unknown session is answered with 404. */
  datatype LookupError = NotFound

  datatype Submitted = Submitted(store: seq<SurveyRecord>, reply: Result<SurveyRecord, SubmitError>)

  predicate HasSession(store: seq<SurveyRecord>, sessionId: string) {
    exists i :: 0 <= i < |store| && store[i].sessionId == sessionId
  }

  /** `Survey.findOne({sessionId})`: the first record of the session. */
  function FindOne(store: seq<SurveyRecord>, sessionId: string): (r: Option<SurveyRecord>)
    ensures r.None? <==> !HasSession(store, sessionId)
    ensures r.Some? ==> r.value in store && r.value.sessionId == sessionId
  {
    if store == [] then None
    else if store[0].sessionId == sessionId then Some(store[0])
    else
      var r := FindOne(store[1..], sessionId);
      assert forall i :: 1 <= i < |store| ==> store[i] == store[1..][i - 1];
      assert r.None? ==> !HasSession(store, sessionId) by {
        if r.None? {
          forall i | 0 <= i < |store| ensures store[i].sessionId != sessionId {
            if i > 0 { assert store[1..][i - 1] == store[i]; }
          }
        }
      }
      r
  }

  /** `submitSurvey`. A refusal leaves the collection as it was; a success
      appends exactly one record, stamped `now`. */
  function SubmitSurvey(store: seq<SurveyRecord>, sessionId: Option<string>, surveyData: Option<Json>, now: int)
    : (r: Submitted)
    ensures r.reply == Err(MissingFields) <==> !(TruthyString(sessionId) && Truthy(surveyData))
    ensures r.reply == Err(AlreadySubmitted) <==>
      TruthyString(sessionId) && Truthy(surveyData) && HasSession(store, sessionId.value)
    ensures r.reply.Err? ==> r.store == store
    ensures r.reply.Ok? ==>
      && r.reply.value == SurveyRecord(sessionId.value, surveyData.value, now)
      && r.store == store + [r.reply.value]
  {
    if !TruthyString(sessionId) || !Truthy(surveyData) then Submitted(store, Err(MissingFields))
    else if FindOne(store, sessionId.value).Some? then Submitted(store, Err(AlreadySubmitted))
    else
      var rec := SurveyRecord(sessionId.value, surveyData.value, now);
      Submitted(store + [rec], Ok(rec))
  }

  /** `getSurvey`. */
  function GetSurvey(store: seq<SurveyRecord>, sessionId: string): (r: Result<SurveyRecord, LookupError>)
    ensures r.Err? <==> !HasSession(store, sessionId)
    ensures r.Ok? ==> r.value in store && r.value.sessionId == sessionId
  {
    match FindOne(store, sessionId)
    case Some(rec) => Ok(rec)
    case None => Err(NotFound)
  }

  /** At most one record per session. */
  predicate UniqueSessions(store: seq<SurveyRecord>) {
    forall i, j :: 0 <= i < j < |store| ==> store[i].sessionId != store[j].sessionId
  }

  /** Submitting keeps the sessions unique. */
  lemma SubmitKeepsUnique(store: seq<SurveyRecord>, sessionId: Option<string>, surveyData: Option<Json>, now: int)
    requires UniqueSessions(store)
    ensures UniqueSessions(SubmitSurvey(store, sessionId, surveyData, now).store)
  {
  }

  /** One submission request: session id, payload and the clock at arrival. */
  datatype Request = Request(sessionId: Option<string>, surveyData: Option<Json>, now: int)

  /** The collection after a run of submissions against an empty one. */
  function Replay(requests: seq<Request>): seq<SurveyRecord> {
    if requests == [] then []
    else
      var last := requests[|requests| - 1];
      SubmitSurvey(Replay(requests[..|requests| - 1]), last.sessionId, last.surveyData, last.now).store
  }

  /** When surveys are written only through `submitSurvey`, no session has
      two records. */
  lemma {:induction false} ReplayUnique(requests: seq<Request>)
    ensures UniqueSessions(Replay(requests))
  {
    if requests != [] {
      var last := requests[|requests| - 1];
      ReplayUnique(requests[..|requests| - 1]);
      SubmitKeepsUnique(Replay(requests[..|requests| - 1]), last.sessionId, last.surveyData, last.now);
    }
  }

  /** The collection read as a map from session to its record (the first
      one, as `findOne` reads it). */
  function AsMap(store: seq<SurveyRecord>): (m: map<string, SurveyRecord>)
    ensures forall s :: s in m <==> HasSession(store, s)
  {
    if store == [] then map[]
    else
      var rest := AsMap(store[1..]);
      assert forall i :: 1 <= i < |store| ==> store[i] == store[1..][i - 1];
      assert forall s :: HasSession(store[1..], s) ==> HasSession(store, s);
      assert forall s :: HasSession(store, s) ==> s == store[0].sessionId || HasSession(store[1..], s) by {
        forall s | HasSession(store, s) ensures s == store[0].sessionId || HasSession(store[1..], s) {
          var i :| 0 <= i < |store| && store[i].sessionId == s;
          if i > 0 { assert store[1..][i - 1].sessionId == s; }
        }
      }
      rest[store[0].sessionId := store[0]]
  }

  /** The map view is exactly what `getSurvey` answers. */
  lemma {:induction false} GetSurveyIsMapLookup(store: seq<SurveyRecord>, s: string)
    ensures GetSurvey(store, s).Ok? <==> s in AsMap(store)
    ensures s in AsMap(store) ==> GetSurvey(store, s) == Ok(AsMap(store)[s])
  {
    if store != [] && store[0].sessionId != s {
      GetSurveyIsMapLookup(store[1..], s);
    }
  }

  /** Appending a record of a new session adds that one key and no other. */
  lemma {:induction false} AsMapAppend(store: seq<SurveyRecord>, rec: SurveyRecord)
    requires !HasSession(store, rec.sessionId)
    ensures AsMap(store + [rec]) == AsMap(store)[rec.sessionId := rec]
  {
    if store == [] {
      assert store + [rec] == [rec];
    } else {
      assert (store + [rec])[1..] == store[1..] + [rec];
      assert !HasSession(store[1..], rec.sessionId) by {
        forall i | 0 <= i < |store[1..]| ensures store[1..][i].sessionId != rec.sessionId {
          assert store[1..][i] == store[i + 1];
        }
      }
      AsMapAppend(store[1..], rec);
    }
  }

  /** Submission on the map view: a refusal changes nothing; a success adds
      exactly `sessionId ↦ record` and leaves every other session's entry
      as it was. */
  lemma SubmitOnMap(store: seq<SurveyRecord>, sessionId: Option<string>, surveyData: Option<Json>, now: int)
    ensures var r := SubmitSurvey(store, sessionId, surveyData, now);
      && (r.reply.Err? ==> AsMap(r.store) == AsMap(store))
      && (r.reply.Ok? ==>
        && sessionId.value !in AsMap(store)
        && AsMap(r.store) == AsMap(store)[sessionId.value := r.reply.value]
        && |AsMap(r.store)| == |AsMap(store)| + 1)
  {
    var r := SubmitSurvey(store, sessionId, surveyData, now);
    if r.reply.Ok? {
      AsMapAppend(store, r.reply.value);
    }
  }

  /** After a successful submission the session reads back exactly what was
      submitted, and every other session reads back as before. */
  lemma SubmitThenGet(store: seq<SurveyRecord>, sessionId: Option<string>, surveyData: Option<Json>, now: int, other: string)
    requires SubmitSurvey(store, sessionId, surveyData, now).reply.Ok?
    ensures var r := SubmitSurvey(store, sessionId, surveyData, now);
      && GetSurvey(r.store, sessionId.value) == Ok(SurveyRecord(sessionId.value, surveyData.value, now))
      && (other != sessionId.value ==> GetSurvey(r.store, other) == GetSurvey(store, other))
  {
    var r := SubmitSurvey(store, sessionId, surveyData, now);
    SubmitOnMap(store, sessionId, surveyData, now);
    GetSurveyIsMapLookup(r.store, sessionId.value);
    GetSurveyIsMapLookup(r.store, other);
    GetSurveyIsMapLookup(store, other);
  }

  /** A duplicate submission leaves the stored survey of the session as it was. */
  lemma DuplicateKeepsOriginal(store: seq<SurveyRecord>, sessionId: string, surveyData: Option<Json>, now: int)
    requires HasSession(store, sessionId) && sessionId != ""
    ensures var r := SubmitSurvey(store, Some(sessionId), surveyData, now);
      && r.reply.Err?
      && GetSurvey(r.store, sessionId) == GetSurvey(store, sessionId)
  {
  }

  /** Falsy payloads are refused even for a fresh session; an empty object is not. */
  lemma FalsyPayloadsRefused(store: seq<SurveyRecord>, s: string, now: int)
    requires s != "" && !HasSession(store, s)
    ensures SubmitSurvey(store, Some(s), Some(JNum(0.0)), now).reply == Err(MissingFields)
    ensures SubmitSurvey(store, Some(s), Some(JStr("")), now).reply == Err(MissingFields)
    ensures SubmitSurvey(store, Some(s), Some(JNull), now).reply == Err(MissingFields)
    ensures SubmitSurvey(store, Some(s), Some(JObj([])), now).reply.Ok?
    ensures SubmitSurvey(store, Some(""), Some(JObj([])), now).reply == Err(MissingFields)
  {
  }
}
