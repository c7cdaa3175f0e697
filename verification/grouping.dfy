/** Grouping of a sequence by a key, as a Mongo `$group`/`$bucket` stage does:
    the group of a key, per-key counts, the partition law (the group sizes over
    all keys add up to the input's length), and the ascending list of distinct
    integer keys that a `$sort: {_id: 1}` after a `$group` produces. */
module Grouping {
  import opened SeqLib

  /** The elements of `xs` whose key is `k`, in their original order. */
  function Group<T(!new), K(==)>(xs: seq<T>, key: T -> K, k: K): (g: seq<T>)
    ensures forall x :: x in g <==> x in xs && key(x) == k
  {
    Filter(xs, x => key(x) == k)
  }

  /** Peeling the first element off the input changes one group size by one. */
  lemma GroupSizeCons<T(!new), K>(xs: seq<T>, key: T -> K, k: K)
    requires xs != []
    ensures |Group(xs, key, k)| == (if key(xs[0]) == k then 1 else 0) + |Group(xs[1..], key, k)|
  {
  }

  /** The total size of the groups of the keys in `ks`. */
  function SumSizes<T(!new), K(==)>(xs: seq<T>, key: T -> K, ks: seq<K>): nat {
    if ks == [] then 0 else |Group(xs, key, ks[0])| + SumSizes(xs, key, ks[1..])
  }

  /** How many times `v` occurs in `ks`. */
  function Occurrences<K(==)>(ks: seq<K>, v: K): nat {
    if ks == [] then 0 else (if ks[0] == v then 1 else 0) + Occurrences(ks[1..], v)
  }

  predicate Distinct<K(==)>(ks: seq<K>) {
    forall i, j :: 0 <= i < j < |ks| ==> ks[i] != ks[j]
  }

  lemma {:induction false} OccurrencesAbsent<K>(ks: seq<K>, v: K)
    requires v !in ks
    ensures Occurrences(ks, v) == 0
  {
    if ks != [] {
      OccurrencesAbsent(ks[1..], v);
    }
  }

  lemma {:induction false} OccurrencesDistinct<K>(ks: seq<K>, v: K)
    requires Distinct(ks) && v in ks
    ensures Occurrences(ks, v) == 1
  {
    if ks[0] == v {
      assert v !in ks[1..] by {
        forall j | 0 <= j < |ks[1..]| ensures ks[1..][j] != v {
          assert ks[0] != ks[j + 1];
        }
      }
      OccurrencesAbsent(ks[1..], v);
    } else {
      OccurrencesDistinct(ks[1..], v);
    }
  }

  lemma {:induction false} SumSizesEmpty<T(!new), K>(xs: seq<T>, key: T -> K, ks: seq<K>)
    requires xs == []
    ensures SumSizes(xs, key, ks) == 0
  {
    if ks != [] {
      SumSizesEmpty(xs, key, ks[1..]);
    }
  }

  lemma {:induction false} SumSizesCons<T(!new), K>(xs: seq<T>, key: T -> K, ks: seq<K>)
    requires xs != []
    ensures SumSizes(xs, key, ks) == Occurrences(ks, key(xs[0])) + SumSizes(xs[1..], key, ks)
  {
    if ks != [] {
      GroupSizeCons(xs, key, ks[0]);
      SumSizesCons(xs, key, ks[1..]);
    }
  }

  /** The partition law: when every key occurring in `xs` is listed exactly
      once in `ks`, the groups of `ks` account for every element once. */
  lemma {:induction false} Partition<T(!new), K>(xs: seq<T>, key: T -> K, ks: seq<K>)
    requires Distinct(ks)
    requires forall i :: 0 <= i < |xs| ==> key(xs[i]) in ks
    ensures SumSizes(xs, key, ks) == |xs|
  {
    if xs == [] {
      SumSizesEmpty(xs, key, ks);
    } else {
      SumSizesCons(xs, key, ks);
      OccurrencesDistinct(ks, key(xs[0]));
      Partition(xs[1..], key, ks);
    }
  }

  /** Per-key counts of the keys in `ks`, leaving out keys with an empty
      group (a `$bucket` stage outputs only buckets that hold a document). */
  function Tally<T(!new), K(==)>(xs: seq<T>, key: T -> K, ks: seq<K>): (t: seq<(K, nat)>)
    ensures forall e :: e in t ==> e.0 in ks && e.1 == |Group(xs, key, e.0)| && e.1 > 0
    ensures forall k :: k in ks && |Group(xs, key, k)| > 0 ==> (k, |Group(xs, key, k)|) in t
  {
    if ks == [] then []
    else
      var n := |Group(xs, key, ks[0])|;
      var rest := Tally(xs, key, ks[1..]);
      if n > 0 then [(ks[0], n)] + rest else rest
  }

  lemma {:induction false} TallyOfEmpty<T(!new), K>(xs: seq<T>, key: T -> K, ks: seq<K>)
    requires xs == []
    ensures Tally(xs, key, ks) == []
  {
    if ks != [] {
      TallyOfEmpty(xs, key, ks[1..]);
    }
  }

  function TallySum<K>(t: seq<(K, nat)>): nat {
    if t == [] then 0 else t[0].1 + TallySum(t[1..])
  }

  /** Leaving out the empty groups does not change the total. */
  lemma {:induction false} TallySumIsSumSizes<T(!new), K>(xs: seq<T>, key: T -> K, ks: seq<K>)
    ensures TallySum(Tally(xs, key, ks)) == SumSizes(xs, key, ks)
  {
    if ks != [] {
      TallySumIsSumSizes(xs, key, ks[1..]);
    }
  }

  predicate Increasing(ds: seq<int>) {
    forall i, j :: 0 <= i < j < |ds| ==> ds[i] < ds[j]
  }

  lemma IncreasingIsDistinct(ds: seq<int>)
    requires Increasing(ds)
    ensures Distinct(ds)
  {
  }

  /** Inserts `d` into an ascending list of distinct keys. */
  function Insert(ds: seq<int>, d: int): (r: seq<int>)
    requires Increasing(ds)
    ensures Increasing(r)
    ensures forall e :: e in r <==> e in ds || e == d
  {
    if ds == [] then [d]
    else if d < ds[0] then [d] + ds
    else if d == ds[0] then ds
    else
      var rest := Insert(ds[1..], d);
      forall e | e in ds[1..] ensures ds[0] < e {
        var k :| 0 <= k < |ds[1..]| && ds[1..][k] == e;
        assert ds[k + 1] == e;
      }
      forall i | 0 <= i < |rest| ensures ds[0] < rest[i] {
        assert rest[i] in rest;
      }
      [ds[0]] + rest
  }

  /** The distinct keys of `xs`, ascending. */
  function SortedKeys<T>(xs: seq<T>, key: T -> int): (r: seq<int>)
    ensures Increasing(r)
    ensures forall e :: e in r <==> exists i :: 0 <= i < |xs| && key(xs[i]) == e
  {
    if xs == [] then []
    else
      var rest := SortedKeys(xs[1..], key);
      assert forall i :: 1 <= i < |xs| ==> xs[i] == xs[1..][i - 1];
      Insert(rest, key(xs[0]))
  }
}
