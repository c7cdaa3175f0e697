/** The `getRatingsByLocation` and `getRatingsByRoad` handlers of
    controllers/ratingController.js: an inclusive latitude/longitude box and
    an exact road-id match over the newest-first store, and the road's
    per-dimension means. */
module RatingFilters {
  import opened Values
  import opened SeqLib
  import opened RatingModel

  /** About 500 m in degrees; used when the route carries no radius. */
  const DefaultRadius: real := 0.005

  /** The query box: `$gte`/`$lte` on both coordinates, all four edges included. */
  predicate InBox(r: Rating, lat: real, lng: real, radius: real) {
    && lat - radius <= r.location.lat <= lat + radius
    && lng - radius <= r.location.lng <= lng + radius
  }

  /** A filtered newest-first store is still newest-first. */
  lemma {:induction false} FilterKeepsNewestFirst(s: seq<Rating>, p: Rating -> bool)
    requires NewestFirst(s)
    ensures NewestFirst(Filter(s, p))
  {
    if s != [] {
      FilterKeepsNewestFirst(s[1..], p);
      var rest := Filter(s[1..], p);
      forall j | 0 <= j < |rest| ensures rest[j].createdAt <= s[0].createdAt {
        assert rest[j] in s[1..];
      }
    }
  }

  datatype LocationView = LocationView(count: nat, data: seq<Rating>)

  /** `getRatingsByLocation`; `radius` is `None` when the route has none. */
  function ByLocation(store: seq<Rating>, lat: real, lng: real, radius: Option<real>): (v: LocationView)
    ensures v.count == |v.data| <= |store|
    ensures forall x :: x in v.data <==> x in store && InBox(x, lat, lng, radius.GetOr(DefaultRadius))
    ensures NewestFirst(store) ==> NewestFirst(v.data)
  {
    var r := radius.GetOr(DefaultRadius);
    var data := Filter(store, x => InBox(x, lat, lng, r));
    if NewestFirst(store) then
      FilterKeepsNewestFirst(store, x => InBox(x, lat, lng, r));
      LocationView(|data|, data)
    else
      LocationView(|data|, data)
  }

  /** Exactness: every stored copy of a rating in the box is returned and
      nothing else; the answer keeps the store's order. */
  lemma ByLocationExact(store: seq<Rating>, lat: real, lng: real, radius: Option<real>)
    ensures var v := ByLocation(store, lat, lng, radius);
      forall x :: multiset(v.data)[x] ==
        if InBox(x, lat, lng, radius.GetOr(DefaultRadius)) then multiset(store)[x] else 0
  {
    var r := radius.GetOr(DefaultRadius);
    FilterCount(store, x => InBox(x, lat, lng, r));
  }

  /** The box query over two stretches of the store is the two answers
      concatenated: it never reorders. */
  lemma ByLocationAppend(a: seq<Rating>, b: seq<Rating>, lat: real, lng: real, radius: Option<real>)
    ensures ByLocation(a + b, lat, lng, radius).data
         == ByLocation(a, lat, lng, radius).data + ByLocation(b, lat, lng, radius).data
  {
    var r := radius.GetOr(DefaultRadius);
    FilterAppend(a, b, x => InBox(x, lat, lng, r));
  }

  /** A rating on a corner of the box is found; one any distance beyond an
      edge is not. */
  lemma BoxEdges(x: Rating, lat: real, lng: real, d: real)
    requires d > 0.0
    ensures x.location == Location(lat + DefaultRadius, lng - DefaultRadius) ==>
      ByLocation([x], lat, lng, None).data == [x]
    ensures x.location.lat == lat + DefaultRadius + d || x.location.lng == lng - DefaultRadius - d ==>
      ByLocation([x], lat, lng, None).data == []
  {
  }

  predicate OnRoad(r: Rating, roadId: string) { r.road.id == Some(roadId) }

  datatype RoadAverages = RoadAverages(safety: real, comfort: real, total: real)
  datatype RoadView = RoadView(count: nat, averageRatings: RoadAverages, data: seq<Rating>)

  /** The per-dimension means of a set of ratings, all 0 for none. */
  function Averages(rs: seq<Rating>): (a: RoadAverages)
    ensures rs == [] ==> a == RoadAverages(0.0, 0.0, 0.0)
    ensures rs != [] ==>
      && a.safety * (|rs| as real) == Sum(MapSeq(rs, SafetyOf))
      && a.comfort * (|rs| as real) == Sum(MapSeq(rs, ComfortOf))
      && a.total * (|rs| as real) == Sum(MapSeq(rs, TotalOf))
  {
    RoadAverages(Mean(MapSeq(rs, SafetyOf)), Mean(MapSeq(rs, ComfortOf)), Mean(MapSeq(rs, TotalOf)))
  }

  /** `getRatingsByRoad`. */
  function ByRoad(store: seq<Rating>, roadId: string): (v: RoadView)
    ensures v.count == |v.data| <= |store|
    ensures forall x :: x in v.data <==> x in store && x.road.id == Some(roadId)
    ensures v.averageRatings == Averages(v.data)
    ensures NewestFirst(store) ==> NewestFirst(v.data)
  {
    var data := Filter(store, x => OnRoad(x, roadId));
    if NewestFirst(store) then
      FilterKeepsNewestFirst(store, x => OnRoad(x, roadId));
      RoadView(|data|, Averages(data), data)
    else
      RoadView(|data|, Averages(data), data)
  }

  /** Exactness: every stored copy of a rating of the road is returned and
      nothing else, so `count` is the number of matching stored ratings. */
  lemma ByRoadExact(store: seq<Rating>, roadId: string)
    ensures var v := ByRoad(store, roadId);
      forall x :: multiset(v.data)[x] == if x.road.id == Some(roadId) then multiset(store)[x] else 0
  {
    FilterCount(store, x => OnRoad(x, roadId));
  }

  /** When every stored rating is valid, a road's averages are 0 (no
      ratings) or lie within the 1–10 scale. */
  lemma RoadAveragesInRange(store: seq<Rating>, roadId: string)
    requires AllValid(store)
    ensures var v := ByRoad(store, roadId);
      v.data != [] ==>
        && InScoreRange(v.averageRatings.safety)
        && InScoreRange(v.averageRatings.comfort)
        && InScoreRange(v.averageRatings.total)
  {
    var data := ByRoad(store, roadId).data;
    if data != [] {
      assert forall i :: 0 <= i < |data| ==> data[i] in store;
      MeanBounds(MapSeq(data, SafetyOf), MinScore, MaxScore);
      MeanBounds(MapSeq(data, ComfortOf), MinScore, MaxScore);
      MeanBounds(MapSeq(data, TotalOf), MinScore, MaxScore);
    }
  }

  /** Two ratings of road "R1", (safety 4, comfort 3, total 2) and
      (safety 2, comfort 1, total 4), average to (3, 2, 3). */
  lemma TwoRatingsOfOneRoad(a: Rating, b: Rating)
    requires a.road.id == Some("R1") && b.road.id == Some("R1")
    requires a.ratings.safety == 4.0 && a.ratings.comfort == 3.0 && a.ratings.total == 2.0
    requires b.ratings.safety == 2.0 && b.ratings.comfort == 1.0 && b.ratings.total == 4.0
    ensures ByRoad([a, b], "R1").count == 2
    ensures ByRoad([a, b], "R1").averageRatings == RoadAverages(3.0, 2.0, 3.0)
  {
    var data := ByRoad([a, b], "R1").data;
    assert data == [a, b];
    assert MapSeq(data, SafetyOf) == [4.0, 2.0];
    assert MapSeq(data, ComfortOf) == [3.0, 1.0];
    assert MapSeq(data, TotalOf) == [2.0, 4.0];
    assert Sum([4.0, 2.0]) == 4.0 + Sum([2.0]);
    assert Sum([3.0, 1.0]) == 3.0 + Sum([1.0]);
    assert Sum([2.0, 4.0]) == 2.0 + Sum([4.0]);
  }
}
