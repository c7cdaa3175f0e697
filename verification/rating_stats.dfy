/** The `getRatingStats` handler of controllers/ratingController.js: the total
    count, the `$avg` averages with their `|| 0` fallbacks, the `$bucket`
    distribution of the overall score, and the per-day trend of the last 30
    days. */
module RatingStats {
  import opened Values
  import opened SeqLib
  import opened Grouping
  import opened RatingModel

  // ---------------------------------------------------------------- averages

  /** The numeric values a `$avg` accumulator sees; missing ones are skipped. */
  function Present(xs: seq<Option<real>>): (ps: seq<real>)
    ensures |ps| <= |xs|
    ensures forall v :: v in ps <==> Some(v) in xs
  {
    if xs == [] then []
    else
      var rest := Present(xs[1..]);
      assert xs == [xs[0]] + xs[1..];
      if xs[0].Some? then [xs[0].value] + rest else rest
  }

  /** `$avg` sees every present value as often as it occurs, so the mean is
      taken over the values with their multiplicities. */
  lemma {:induction false} PresentCount(xs: seq<Option<real>>)
    ensures forall v :: multiset(Present(xs))[v] == multiset(xs)[Some(v)]
  {
    if xs != [] {
      PresentCount(xs[1..]);
      assert xs == [xs[0]] + xs[1..];
    }
  }

  lemma {:induction false} PresentOfAbsent(xs: seq<Option<real>>)
    requires forall i :: 0 <= i < |xs| ==> xs[i].None?
    ensures Present(xs) == []
  {
    if xs != [] {
      PresentOfAbsent(xs[1..]);
    }
  }

  /** `($avg || 0)`: a `$avg` over no numeric value is null, read as 0. */
  function AvgOrZero(xs: seq<Option<real>>): (a: real)
    ensures Present(xs) == [] ==> a == 0.0
    ensures Present(xs) != [] ==> a * (|Present(xs)| as real) == Sum(Present(xs))
  {
    Mean(Present(xs))
  }

  function SafetyOpt(r: Rating): Option<real> { Some(r.ratings.safety) }
  function ComfortOpt(r: Rating): Option<real> { Some(r.ratings.comfort) }
  function TotalOpt(r: Rating): Option<real> { Some(r.ratings.total) }
  function BikelanesOf(r: Rating): Option<real> { r.ratings.bikelanes }
  function SurfaceOf(r: Rating): Option<real> { r.ratings.surface }
  function TrafficOf(r: Rating): Option<real> { r.ratings.traffic }
  function ConnectivityOf(r: Rating): Option<real> { r.ratings.connectivity }

  /** The keys of `averageRatings` for a non-empty store. */
  const AverageKeys: set<string> :=
    {"safety", "comfort", "total", "bikelanes", "surface", "traffic", "connectivity"}

  /** The keys of the fallback object used when the store is empty. */
  const DefaultKeys: set<string> :=
    {"avgSafety", "avgComfort", "avgTotal", "avgBikelanes", "avgSurface", "avgTraffic", "avgConnectivity"}

  /** `averageRatings` as written: an empty collection makes `$group` emit
      nothing, and the fallback object then carries the `avg…` keys. */
  function AverageRatingsAsWritten(store: seq<Rating>): (m: map<string, real>)
    ensures store == [] ==> m.Keys == DefaultKeys && forall k :: k in m ==> m[k] == 0.0
    ensures store != [] ==> m.Keys == AverageKeys && m == AverageRatings(store)
  {
    if |store| == 0 then
      map["avgSafety" := 0.0, "avgComfort" := 0.0, "avgTotal" := 0.0, "avgBikelanes" := 0.0,
          "avgSurface" := 0.0, "avgTraffic" := 0.0, "avgConnectivity" := 0.0]
    else
      AverageRatings(store)
  }

  /** The two branches answer with disjoint key sets, so a client reading
      `averageRatings.safety` finds nothing on an empty store. */
  lemma AsWrittenKeysDisagree(r: Rating)
    ensures AverageRatingsAsWritten([]).Keys !! AverageRatingsAsWritten([r]).Keys
    ensures "safety" !in AverageRatingsAsWritten([])
    ensures "safety" in AverageRatingsAsWritten([r])
  {
    assert forall k :: k in DefaultKeys ==> |k| > 0 && k[0] == 'a';
    assert forall k :: k in AverageKeys ==> |k| > 0 && k[0] != 'a';
  }

  /** `averageRatings` as intended: the same seven keys whatever the store,
      each the `$avg` of its field or 0 when no rating carries that field. */
  function AverageRatings(store: seq<Rating>): (m: map<string, real>)
    ensures m.Keys == AverageKeys
    ensures store == [] ==> forall k :: k in m ==> m[k] == 0.0
    ensures m["safety"] == AvgOrZero(MapSeq(store, SafetyOpt))
    ensures m["comfort"] == AvgOrZero(MapSeq(store, ComfortOpt))
    ensures m["total"] == AvgOrZero(MapSeq(store, TotalOpt))
    ensures m["bikelanes"] == AvgOrZero(MapSeq(store, BikelanesOf))
    ensures m["surface"] == AvgOrZero(MapSeq(store, SurfaceOf))
    ensures m["traffic"] == AvgOrZero(MapSeq(store, TrafficOf))
    ensures m["connectivity"] == AvgOrZero(MapSeq(store, ConnectivityOf))
  {
    map["safety" := AvgOrZero(MapSeq(store, SafetyOpt)),
        "comfort" := AvgOrZero(MapSeq(store, ComfortOpt)),
        "total" := AvgOrZero(MapSeq(store, TotalOpt)),
        "bikelanes" := AvgOrZero(MapSeq(store, BikelanesOf)),
        "surface" := AvgOrZero(MapSeq(store, SurfaceOf)),
        "traffic" := AvgOrZero(MapSeq(store, TrafficOf)),
        "connectivity" := AvgOrZero(MapSeq(store, ConnectivityOf))]
  }

  /** The mean of the present values of a field that is in range wherever it
      is present is 0 (field absent everywhere) or in range. */
  lemma AvgOrZeroInRange(xs: seq<Option<real>>)
    requires forall i :: 0 <= i < |xs| ==> OptionalInRange(xs[i])
    ensures AvgOrZero(xs) == 0.0 || InScoreRange(AvgOrZero(xs))
    ensures Present(xs) != [] ==> InScoreRange(AvgOrZero(xs))
  {
    var ps := Present(xs);
    if ps != [] {
      forall i | 0 <= i < |ps| ensures MinScore <= ps[i] <= MaxScore {
        assert ps[i] in ps;
        var j :| 0 <= j < |xs| && xs[j] == Some(ps[i]);
      }
      MeanBounds(ps, MinScore, MaxScore);
    }
  }

  /** One field's average over valid ratings is 0 or on the scale. */
  lemma FieldAverageInRange(store: seq<Rating>, f: Rating -> Option<real>)
    requires AllValid(store)
    requires forall r :: Valid(r) ==> OptionalInRange(f(r))
    ensures AvgOrZero(MapSeq(store, f)) == 0.0 || InScoreRange(AvgOrZero(MapSeq(store, f)))
    ensures store != [] && f(store[0]).Some? ==> InScoreRange(AvgOrZero(MapSeq(store, f)))
  {
    var xs := MapSeq(store, f);
    forall i | 0 <= i < |xs| ensures OptionalInRange(xs[i]) {
      assert Valid(store[i]);
    }
    AvgOrZeroInRange(xs);
    if store != [] && f(store[0]).Some? {
      assert Some(f(store[0]).value) in xs;
    }
  }

  /** Over a store of valid ratings, every average is 0 or on the 1–10 scale,
      and the three required ones are on the scale once there is a rating. */
  lemma AverageRatingsInRange(store: seq<Rating>)
    requires AllValid(store)
    ensures forall k :: k in AverageKeys ==>
      AverageRatings(store)[k] == 0.0 || InScoreRange(AverageRatings(store)[k])
    ensures store != [] ==>
      && InScoreRange(AverageRatings(store)["safety"])
      && InScoreRange(AverageRatings(store)["comfort"])
      && InScoreRange(AverageRatings(store)["total"])
  {
    var m := AverageRatings(store);
    forall k | k in AverageKeys ensures m[k] == 0.0 || InScoreRange(m[k]) {
      if k == "safety" { FieldAverageInRange(store, SafetyOpt); }
      else if k == "comfort" { FieldAverageInRange(store, ComfortOpt); }
      else if k == "total" { FieldAverageInRange(store, TotalOpt); }
      else if k == "bikelanes" { FieldAverageInRange(store, BikelanesOf); }
      else if k == "surface" { FieldAverageInRange(store, SurfaceOf); }
      else if k == "traffic" { FieldAverageInRange(store, TrafficOf); }
      else { FieldAverageInRange(store, ConnectivityOf); }
    }
    if store != [] {
      FieldAverageInRange(store, SafetyOpt);
      FieldAverageInRange(store, ComfortOpt);
      FieldAverageInRange(store, TotalOpt);
    }
  }

  /** A legacy field no stored rating carries averages to 0. */
  lemma MissingLegacyFieldIsZero(store: seq<Rating>)
    requires forall i :: 0 <= i < |store| ==> store[i].ratings.bikelanes.None?
    ensures AverageRatings(store)["bikelanes"] == 0.0
  {
    PresentOfAbsent(MapSeq(store, BikelanesOf));
  }

  // ------------------------------------------------------------ distribution

  /** The `$bucket` boundaries for the overall score. */
  const Boundaries: seq<int> := [1, 3, 5, 7, 9, 11]

  /** A bucket is named by its lower boundary; `Other` is the default bucket. */
  datatype BucketId = Lower(bound: int) | Other

  /** The bucket of `v`: `Lower(b[i])` when `b[i] <= v < b[i+1]`, else `Other`. */
  function BucketOf(bounds: seq<int>, v: real): (b: BucketId)
    requires Increasing(bounds)
    ensures b.Lower? ==> exists i :: (0 <= i < |bounds| - 1 && bounds[i] == b.bound
      && bounds[i] as real <= v < bounds[i + 1] as real)
    ensures b.Other? <==> |bounds| < 2 || v < bounds[0] as real || v >= bounds[|bounds| - 1] as real
  {
    if |bounds| < 2 then Other
    else if v < bounds[0] as real then Other
    else if v < bounds[1] as real then Lower(bounds[0])
    else
      var b := BucketOf(bounds[1..], v);
      assert b.Lower? ==> exists i :: (1 <= i < |bounds| - 1 && bounds[i] == b.bound
        && bounds[i] as real <= v < bounds[i + 1] as real);
      b
  }

  /** The buckets in `$bucket` output order: by boundary, default last. */
  function BucketIds(bounds: seq<int>): (ids: seq<BucketId>)
    requires Increasing(bounds)
    ensures Distinct(ids)
    ensures forall v :: BucketOf(bounds, v) in ids
  {
    var lowers := seq(if |bounds| < 2 then 0 else |bounds| - 1, i requires 0 <= i < |bounds| - 1 => Lower(bounds[i]));
    var ids := lowers + [Other];
    forall v | BucketOf(bounds, v).Lower? ensures BucketOf(bounds, v) in lowers {
      var i :| 0 <= i < |bounds| - 1 && bounds[i] == BucketOf(bounds, v).bound;
      assert lowers[i] == BucketOf(bounds, v);
    }
    ids
  }

  function TotalBucket(r: Rating): BucketId {
    BucketOf(Boundaries, r.ratings.total)
  }

  /** `ratingDistribution`: the non-empty buckets of the overall score with
      their counts, which add up to the number of ratings. */
  function Distribution(store: seq<Rating>): (d: seq<(BucketId, nat)>)
    ensures forall e :: e in d ==> e.1 == |Group(store, TotalBucket, e.0)| && e.1 > 0
    ensures forall i :: 0 <= i < |store| ==> (TotalBucket(store[i]), |Group(store, TotalBucket, TotalBucket(store[i]))|) in d
    ensures TallySum(d) == |store|
  {
    var ids := BucketIds(Boundaries);
    var d := Tally(store, TotalBucket, ids);
    forall i | 0 <= i < |store|
      ensures (TotalBucket(store[i]), |Group(store, TotalBucket, TotalBucket(store[i]))|) in d
    {
      assert store[i] in Group(store, TotalBucket, TotalBucket(store[i]));
    }
    TallySumIsSumSizes(store, TotalBucket, ids);
    Partition(store, TotalBucket, ids);
    d
  }

  /** Bucket edges: each lower boundary opens its bucket, and values off the
      boundaries' span land in the default bucket. */
  lemma BucketEdges()
    ensures BucketOf(Boundaries, 1.0) == Lower(1)
    ensures BucketOf(Boundaries, 2.9) == Lower(1)
    ensures BucketOf(Boundaries, 3.0) == Lower(3)
    ensures BucketOf(Boundaries, 9.0) == Lower(9)
    ensures BucketOf(Boundaries, 10.0) == Lower(9)
    ensures BucketOf(Boundaries, 0.5) == Other
    ensures BucketOf(Boundaries, 11.0) == Other
  {
  }

  /** A store of valid ratings has nothing in the default bucket. */
  lemma ValidStoreHasNoOther(store: seq<Rating>)
    requires AllValid(store)
    ensures forall e :: e in Distribution(store) ==> e.0 != Other
  {
    forall e | e in Distribution(store) ensures e.0 != Other {
      var g := Group(store, TotalBucket, e.0);
      assert g[0] in g;
    }
  }

  // ------------------------------------------------------------------- trend

  const DayMs: int := 24 * 60 * 60 * 1000

  /** The `$match` window: the last 30 days before `now`. */
  const WindowMs: int := 30 * DayMs

  /** The UTC day of a millisecond timestamp. Day numbers ascend exactly as
      the `%Y-%m-%d` strings do. */
  function DayOf(t: int): int { t / DayMs }

  function RecordDay(r: Rating): int { DayOf(r.createdAt) }

  predicate IsRecent(r: Rating, now: int) { r.createdAt >= now - WindowMs }

  function Recent(store: seq<Rating>, now: int): (rs: seq<Rating>)
    ensures forall x :: x in rs <==> x in store && IsRecent(x, now)
  {
    Filter(store, x => IsRecent(x, now))
  }

  /** Exactness: every stored copy of a rating of the window is kept, every
      older one dropped. */
  lemma RecentExact(store: seq<Rating>, now: int)
    ensures forall x :: multiset(Recent(store, now))[x] == (if IsRecent(x, now) then multiset(store)[x] else 0)
  {
    FilterCount(store, x => IsRecent(x, now));
  }

  datatype TrendPoint = TrendPoint(day: int, count: nat, avgTotal: real)

  /** One point per listed day: its ratings' count and mean overall score. */
  function PointsFor(recent: seq<Rating>, days: seq<int>): (t: seq<TrendPoint>)
    ensures |t| == |days|
    ensures forall i :: 0 <= i < |t| ==>
      && t[i].day == days[i]
      && t[i].count == |Group(recent, RecordDay, days[i])|
      && t[i].avgTotal == Mean(MapSeq(Group(recent, RecordDay, days[i]), TotalOf))
  {
    if days == [] then []
    else
      var g := Group(recent, RecordDay, days[0]);
      [TrendPoint(days[0], |g|, Mean(MapSeq(g, TotalOf)))] + PointsFor(recent, days[1..])
  }

  function CountSum(t: seq<TrendPoint>): nat {
    if t == [] then 0 else t[0].count + CountSum(t[1..])
  }

  lemma {:induction false} CountSumIsSumSizes(recent: seq<Rating>, days: seq<int>)
    ensures CountSum(PointsFor(recent, days)) == SumSizes(recent, RecordDay, days)
  {
    if days != [] {
      CountSumIsSumSizes(recent, days[1..]);
      assert PointsFor(recent, days)[1..] == PointsFor(recent, days[1..]);
    }
  }

  /** Every listed day holds at least one rating. */
  lemma TrendCountsPositive(recent: seq<Rating>)
    ensures var days := SortedKeys(recent, RecordDay);
      forall i :: 0 <= i < |days| ==> |Group(recent, RecordDay, days[i])| > 0
  {
    var days := SortedKeys(recent, RecordDay);
    forall i | 0 <= i < |days| ensures |Group(recent, RecordDay, days[i])| > 0 {
      assert days[i] in days;
      var k :| 0 <= k < |recent| && RecordDay(recent[k]) == days[i];
      assert recent[k] in Group(recent, RecordDay, days[i]);
    }
  }

  /** The day points account for every rating of the window exactly once. */
  lemma TrendCountSum(recent: seq<Rating>)
    ensures CountSum(PointsFor(recent, SortedKeys(recent, RecordDay))) == |recent|
  {
    var days := SortedKeys(recent, RecordDay);
    IncreasingIsDistinct(days);
    forall i | 0 <= i < |recent| ensures RecordDay(recent[i]) in days {
    }
    Partition(recent, RecordDay, days);
    CountSumIsSumSizes(recent, days);
  }

  /** Every rating of the window has its day listed. */
  lemma TrendCoversWindow(store: seq<Rating>, now: int)
    ensures var days := SortedKeys(Recent(store, now), RecordDay);
      forall j :: 0 <= j < |store| && IsRecent(store[j], now) ==> RecordDay(store[j]) in days
  {
    var recent := Recent(store, now);
    var days := SortedKeys(recent, RecordDay);
    forall j | 0 <= j < |store| && IsRecent(store[j], now) ensures RecordDay(store[j]) in days {
      assert store[j] in recent;
      var k :| 0 <= k < |recent| && recent[k] == store[j];
    }
  }

  /** The day points come out strictly ascending. */
  lemma TrendAscending(recent: seq<Rating>)
    ensures var t := PointsFor(recent, SortedKeys(recent, RecordDay));
      forall i, j :: 0 <= i < j < |t| ==> t[i].day < t[j].day
  {
  }

  /** Every listed day of the window has its point. */
  lemma TrendPointOfDay(recent: seq<Rating>, d: int)
    requires d in SortedKeys(recent, RecordDay)
    ensures var t := PointsFor(recent, SortedKeys(recent, RecordDay));
      exists i :: 0 <= i < |t| && t[i].day == d
  {
    var days := SortedKeys(recent, RecordDay);
    var i :| 0 <= i < |days| && days[i] == d;
    assert PointsFor(recent, days)[i].day == d;
  }

  /** `recentTrends`: the days of the window that hold a rating, ascending,
      each with its count and mean overall score. */
  function RecentTrend(store: seq<Rating>, now: int): (t: seq<TrendPoint>)
    ensures forall i, j :: 0 <= i < j < |t| ==> t[i].day < t[j].day
    ensures forall i :: 0 <= i < |t| ==>
      && t[i].count == |Group(Recent(store, now), RecordDay, t[i].day)|
      && t[i].count > 0
      && t[i].avgTotal == Mean(MapSeq(Group(Recent(store, now), RecordDay, t[i].day), TotalOf))
    ensures forall j :: 0 <= j < |store| && IsRecent(store[j], now) ==>
      exists i :: 0 <= i < |t| && t[i].day == RecordDay(store[j])
    ensures CountSum(t) == |Recent(store, now)|
  {
    var recent := Recent(store, now);
    var days := SortedKeys(recent, RecordDay);
    var t := PointsFor(recent, days);
    TrendAscending(recent);
    TrendCountsPositive(recent);
    TrendCountSum(recent);
    TrendCoversWindow(store, now);
    forall j | 0 <= j < |store| && IsRecent(store[j], now)
      ensures exists i :: 0 <= i < |t| && t[i].day == RecordDay(store[j])
    {
      TrendPointOfDay(recent, RecordDay(store[j]));
    }
    t
  }

  /** Over valid ratings every day's mean overall score is on the 1–10 scale. */
  lemma TrendAveragesInRange(store: seq<Rating>, now: int)
    requires AllValid(store)
    ensures forall p :: p in RecentTrend(store, now) ==> InScoreRange(p.avgTotal)
  {
    var t := RecentTrend(store, now);
    forall p | p in t ensures InScoreRange(p.avgTotal) {
      var i :| 0 <= i < |t| && t[i] == p;
      var g := Group(Recent(store, now), RecordDay, p.day);
      forall k | 0 <= k < |g| ensures MinScore <= TotalOf(g[k]) <= MaxScore {
        assert g[k] in g;
        var j :| 0 <= j < |store| && store[j] == g[k];
      }
      MeanBounds(MapSeq(g, TotalOf), MinScore, MaxScore);
    }
  }

  // ------------------------------------------------------------------- stats

  datatype Stats = Stats(
    totalRatings: nat,
    averageRatings: map<string, real>,
    ratingDistribution: seq<(BucketId, nat)>,
    recentTrends: seq<TrendPoint>)

  /** `getRatingStats`, recomputed from the whole store on every call. */
  function RatingStats(store: seq<Rating>, now: int): (s: Stats)
    ensures s.totalRatings == |store|
    ensures s.averageRatings.Keys == AverageKeys
    ensures store == [] ==> s == Stats(0, s.averageRatings, [], []) && forall k :: k in s.averageRatings ==> s.averageRatings[k] == 0.0
    ensures TallySum(s.ratingDistribution) == s.totalRatings
    ensures CountSum(s.recentTrends) <= s.totalRatings
    ensures s.averageRatings == AverageRatings(store)
    ensures s.ratingDistribution == Distribution(store)
    ensures s.recentTrends == RecentTrend(store, now)
  {
    var d := Distribution(store);
    var t := RecentTrend(store, now);
    if store == [] then
      TallyOfEmpty(store, TotalBucket, BucketIds(Boundaries));
      Stats(0, AverageRatings(store), d, t)
    else
      Stats(|store|, AverageRatings(store), d, t)
  }
}
