/** The `getRatings` handler of controllers/ratingController.js: page and limit
    defaults, `skip`/`limit` over the newest-first store, and the page count
    `Math.ceil(total / limit)`. */
module RatingList {
  import opened Values
  import opened RatingModel

  const DefaultPage: int := 1
  const DefaultLimit: int := 50

  /** `parseInt(x) || d`, with `None` for a NaN parse: NaN and 0 are falsy and
      fall back to `d`; every other integer, negative ones included, is kept. */
  function OrDefault(x: Option<int>, d: int): (r: int)
    requires d != 0
    ensures r != 0
    ensures x.Some? && x.value != 0 ==> r == x.value
    ensures x.None? || x.value == 0 ==> r == d
  {
    if x.Some? && x.value != 0 then x.value else d
  }

  /** `Math.ceil` on exact reals. */
  function Ceil(x: real): (c: int)
    ensures (c as real) - 1.0 < x <= c as real
  {
    var f := x.Floor;
    if f as real == x then f else f + 1
  }

  function Abs(n: int): nat { if n < 0 then -n else n }

  function Min(a: int, b: int): int { if a <= b then a else b }

  /** At most `n` elements of `store` after the first `skip` (Mongo `skip`
      then `limit`). */
  function Page(store: seq<Rating>, skip: nat, n: nat): (data: seq<Rating>)
    ensures |data| == if skip >= |store| then 0 else Min(n, |store| - skip)
    ensures forall i :: 0 <= i < |data| ==> data[i] == store[skip + i]
  {
    var rest := if skip <= |store| then store[skip..] else [];
    if n <= |rest| then rest[..n] else rest
  }

  datatype PageView = PageView(data: seq<Rating>, count: nat, total: nat, page: int, pages: int)

  /** The store refuses a negative skip; the handler answers 500. */
  datatype ListError = NegativeSkip

  /** `getRatings`. A negative limit is taken by the driver as a single batch
      of `|limit|` documents. */
  function ListRatings(store: seq<Rating>, pageParam: Option<int>, limitParam: Option<int>)
    : (r: Result<PageView, ListError>)
    ensures
      var page := OrDefault(pageParam, DefaultPage);
      var limit := OrDefault(limitParam, DefaultLimit);
      var skip := (page - 1) * limit;
      && (r.Err? <==> skip < 0)
      && (r.Ok? ==>
        && r.value.page == page
        && r.value.total == |store|
        && r.value.count == |r.value.data| <= Abs(limit)
        && r.value.count == (if skip >= |store| then 0 else Min(Abs(limit), |store| - skip))
        && (forall i :: 0 <= i < r.value.count ==> r.value.data[i] == store[skip + i])
        && (r.value.pages as real) - 1.0 < (|store| as real) / (limit as real) <= r.value.pages as real)
  {
    var page := OrDefault(pageParam, DefaultPage);
    var limit := OrDefault(limitParam, DefaultLimit);
    var skip := (page - 1) * limit;
    if skip < 0 then Err(NegativeSkip)
    else
      var data := Page(store, skip, Abs(limit));
      Ok(PageView(data, |data|, |store|, page, Ceil((|store| as real) / (limit as real))))
  }

  lemma MulNonneg(a: int, b: int)
    requires a >= 0 && b >= 0
    ensures a * b >= 0
  {
  }

  /** Multiplying a real inequality by a positive limit. */
  lemma ScaleByLimit(a: real, b: real, l: real)
    requires l > 0.0 && a <= b
    ensures a * l <= b * l
  {
  }

  lemma ScaleByLimitStrict(a: real, b: real, l: real)
    requires l > 0.0 && a < b
    ensures a * l < b * l
  {
  }

  lemma CastProduct(a: int, b: int)
    ensures (a * b) as real == (a as real) * (b as real)
  {
  }

  /** Reading an integer comparison back from the reals. */
  lemma AtLeastFromReal(m: int, x: real, y: real, t: int)
    requires m as real == x && y <= x && y == t as real
    ensures m >= t
  {
  }

  lemma BelowFromReal(m: int, x: real, y: real, t: int)
    requires m as real == x && x < y && y == t as real
    ensures m < t
  {
  }

  /** `pages` full pages hold at least `total` records. */
  lemma PagesHoldTotal(pages: int, limit: int, q: real, total: nat)
    requires limit >= 1
    requires q <= pages as real
    requires q * (limit as real) == total as real
    ensures pages * limit >= total
  {
    ScaleByLimit(q, pages as real, limit as real);
    CastProduct(pages, limit);
    AtLeastFromReal(pages * limit, (pages as real) * (limit as real), q * (limit as real), total);
  }

  /** One page fewer holds fewer than `total` records. */
  lemma FewerPagesShort(pages: int, limit: int, q: real, total: nat)
    requires limit >= 1
    requires (pages as real) - 1.0 < q
    requires q * (limit as real) == total as real
    ensures (pages - 1) * limit < total
  {
    var p := pages - 1;
    assert p as real < q;
    ScaleByLimitStrict(p as real, q, limit as real);
    CastProduct(p, limit);
    BelowFromReal(p * limit, (p as real) * (limit as real), q * (limit as real), total);
  }

  /** For a positive limit, `pages` pages hold every record and one page
      fewer would not. */
  lemma PagesBounds(total: nat, limit: int)
    requires limit >= 1
    ensures var pages := Ceil((total as real) / (limit as real));
      && pages >= 0
      && pages * limit >= total
      && (total > 0 ==> (pages - 1) * limit < total)
      && (total == 0 <==> pages == 0)
  {
    var l := limit as real;
    var q := (total as real) / l;
    var pages := Ceil(q);
    assert q * l == total as real;
    assert q >= 0.0 by {
      if q < 0.0 {
        ScaleByLimitStrict(q, 0.0, l);
        assert false;
      }
    }
    PagesHoldTotal(pages, limit, q, total);
    FewerPagesShort(pages, limit, q, total);
    if total == 0 {
      assert q == 0.0 by {
        if q > 0.0 {
          ScaleByLimitStrict(0.0, q, l);
          assert false;
        }
      }
    }
  }

  /** The defaults: no page and no limit give the newest 50 records. */
  lemma DefaultListing(store: seq<Rating>)
    ensures ListRatings(store, None, None).Ok?
    ensures ListRatings(store, None, None).value.data == store[..Min(50, |store|)]
    ensures ListRatings(store, Some(0), Some(0)) == ListRatings(store, None, None)
  {
    var data := ListRatings(store, None, None).value.data;
    assert |data| == Min(50, |store|);
  }

  /** The pages 1..k, concatenated. */
  function PagesUpTo(store: seq<Rating>, limit: int, k: nat): seq<Rating>
    requires limit >= 1
  {
    if k == 0 then []
    else
      MulNonneg(k - 1, limit);
      PagesUpTo(store, limit, k - 1) + ListRatings(store, Some(k), Some(limit)).value.data
  }

  /** How many records the first `k` pages hold. */
  function PrefixLength(k: nat, limit: int, total: nat): (m: nat)
    requires limit >= 1
    ensures m == Min(k * limit, total)
  {
    MulNonneg(k, limit);
    Min(k * limit, total)
  }

  /** The first k pages are the newest `min(k * limit, total)` records. */
  lemma {:induction false} PagesUpToPrefix(store: seq<Rating>, limit: int, k: nat)
    requires limit >= 1
    ensures PagesUpTo(store, limit, k) == store[..PrefixLength(k, limit, |store|)]
  {
    if k > 0 {
      PagesUpToPrefix(store, limit, k - 1);
      MulNonneg(k - 1, limit);
      var a := PrefixLength(k - 1, limit, |store|);
      var b := PrefixLength(k, limit, |store|);
      var page := ListRatings(store, Some(k), Some(limit)).value.data;
      assert |page| == b - a;
      assert page == store[a..b];
      assert store[..a] + store[a..b] == store[..b];
    }
  }

  /** The page count the handler reports for a positive limit. */
  function PageCount(total: nat, limit: int): (pages: nat)
    requires limit >= 1
    ensures pages * limit >= total
    ensures total > 0 ==> (pages - 1) * limit < total
    ensures total == 0 <==> pages == 0
  {
    PagesBounds(total, limit);
    Ceil((total as real) / (limit as real))
  }

  /** Paging through all `pages` pages with a positive limit returns the
      whole store, newest first, each record exactly once. */
  lemma PagesCoverStore(store: seq<Rating>, limit: int)
    requires limit >= 1
    ensures ListRatings(store, None, Some(limit)).value.pages == PageCount(|store|, limit)
    ensures PagesUpTo(store, limit, PageCount(|store|, limit)) == store
  {
    PagesUpToPrefix(store, limit, PageCount(|store|, limit));
  }

  /** Every page after the last one is empty. */
  lemma LaterPagesEmpty(store: seq<Rating>, limit: int, p: int)
    requires limit >= 1 && p > PageCount(|store|, limit)
    ensures ListRatings(store, Some(p), Some(limit)) == Ok(PageView([], 0, |store|, p, PageCount(|store|, limit)))
  {
    var pages := PageCount(|store|, limit);
    MulNonneg(p - 1 - pages, limit);
    assert (p - 1) * limit == pages * limit + (p - 1 - pages) * limit;
  }

  /** Page 2 of 10 over 25 records is records 11 to 20, with 3 pages in all. */
  lemma SecondPageOfTwentyFive(store: seq<Rating>)
    requires |store| == 25
    ensures ListRatings(store, Some(2), Some(10)) == Ok(PageView(store[10..20], 10, 25, 2, 3))
  {
    var data := ListRatings(store, Some(2), Some(10)).value.data;
    assert data == store[10..20];
    assert Ceil(25.0 / 10.0) == 3;
  }
}
