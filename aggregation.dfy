/** Group-by aggregation of prix_m2 (pandas `groupby(...)['prix_m2']
    .agg(['mean', 'count'])`): one (count, sum) bucket per key that occurs,
    the mean as sum / count, and the sample-size thresholds applied to the
    groups. A key function returns None for a row whose key has a missing
    column: pandas leaves such rows out of every group. */
module Aggregation {
  import opened Wrappers
  import opened Records

  datatype Bucket = Bucket(count: nat, sum: real)

  /** One output row of an aggregate: the mean and the count of a group. */
  datatype Stat = Stat(mean: real, count: nat)

  function SumPrix(rows: seq<Sale>): real {
    if rows == [] then 0.0 else SumPrix(rows[..|rows| - 1]) + rows[|rows| - 1].prixM2
  }

  /** The rows of group k, in input order. */
  function Members<K(==)>(rows: seq<Sale>, key: Sale -> Option<K>, k: K): seq<Sale> {
    if rows == [] then []
    else
      var front := Members(rows[..|rows| - 1], key, k);
      if key(rows[|rows| - 1]) == Some(k) then front + [rows[|rows| - 1]] else front
  }

  /** The rows that belong to some group (the key has no missing column). */
  function Keyed<K(==)>(rows: seq<Sale>, key: Sale -> Option<K>): seq<Sale> {
    if rows == [] then []
    else
      var front := Keyed(rows[..|rows| - 1], key);
      if key(rows[|rows| - 1]).Some? then front + [rows[|rows| - 1]] else front
  }

  /** Adds one value to the bucket of k, creating the bucket on first use. */
  function AddTo<K>(m: map<K, Bucket>, k: K, x: real): map<K, Bucket> {
    if k in m then m[k := Bucket(m[k].count + 1, m[k].sum + x)] else m[k := Bucket(1, x)]
  }

  /** The buckets of a frame, built row by row. */
  function GroupBy<K(==)>(rows: seq<Sale>, key: Sale -> Option<K>): (m: map<K, Bucket>)
    ensures forall k :: k in m ==> m[k].count > 0
  {
    if rows == [] then map[]
    else
      var m := GroupBy(rows[..|rows| - 1], key);
      var r := rows[|rows| - 1];
      match key(r)
      case None => m
      case Some(k) => AddTo(m, k, r.prixM2)
  }

  /** A group exists exactly for the keys that occur, and its bucket holds
      the size of the group and the sum of its prix_m2. */
  lemma {:induction false} GroupBySpec<K>(rows: seq<Sale>, key: Sale -> Option<K>, k: K)
    ensures k in GroupBy(rows, key) <==> Members(rows, key, k) != []
    ensures k in GroupBy(rows, key) ==>
              GroupBy(rows, key)[k] == Bucket(|Members(rows, key, k)|, SumPrix(Members(rows, key, k)))
  {
    if rows != [] {
      var front := rows[..|rows| - 1];
      var last := rows[|rows| - 1];
      GroupBySpec(front, key, k);
      var ms := Members(front, key, k);
      if key(last) == Some(k) {
        assert (ms + [last])[..|ms|] == ms;
      }
    }
  }

  lemma {:induction false} MembersConcat<K>(xs: seq<Sale>, ys: seq<Sale>, key: Sale -> Option<K>, k: K)
    ensures Members(xs + ys, key, k) == Members(xs, key, k) + Members(ys, key, k)
    decreases |ys|
  {
    if ys == [] {
      assert xs + ys == xs;
    } else {
      var ys' := ys[..|ys| - 1];
      assert (xs + ys)[..|xs + ys| - 1] == xs + ys';
      MembersConcat(xs, ys', key, k);
    }
  }

  lemma {:induction false} SumPrixConcat(xs: seq<Sale>, ys: seq<Sale>)
    ensures SumPrix(xs + ys) == SumPrix(xs) + SumPrix(ys)
    decreases |ys|
  {
    if ys == [] {
      assert xs + ys == xs;
    } else {
      var ys' := ys[..|ys| - 1];
      assert (xs + ys)[..|xs + ys| - 1] == xs + ys';
      SumPrixConcat(xs, ys');
    }
  }

  function Mean(b: Bucket): real
    requires b.count > 0
  {
    b.sum / b.count as real
  }

  /** The (mean, count) rows of an aggregate. */
  function Summarize<K>(m: map<K, Bucket>): (r: map<K, Stat>)
    requires forall k :: k in m ==> m[k].count > 0
    ensures r.Keys == m.Keys
    ensures forall k :: k in r ==> r[k].count == m[k].count && r[k].count > 0
                                   && r[k].mean * (r[k].count as real) == m[k].sum
  {
    map k | k in m :: Stat(Mean(m[k]), m[k].count)
  }

  /** The groups with at least n sales (`nb_ventes >= n`). */
  function AtLeast<K>(m: map<K, Stat>, n: int): map<K, Stat> {
    map k | k in m && m[k].count >= n :: m[k]
  }

  /** The groups with more than n sales (`nb_ventes > n`). */
  function MoreThan<K>(m: map<K, Stat>, n: int): map<K, Stat> {
    map k | k in m && m[k].count > n :: m[k]
  }

  /** The full aggregate of a frame: for each key, its mean and count. */
  function Aggregate<K(==)>(rows: seq<Sale>, key: Sale -> Option<K>): (r: map<K, Stat>)
    ensures forall k :: k in r ==> r[k].count > 0
  {
    Summarize(GroupBy(rows, key))
  }

  /** Exactly one aggregate row per distinct key among the rows, with its
      count the group size and its mean the mean prix_m2 of the group. */
  lemma AggregateSpec<K>(rows: seq<Sale>, key: Sale -> Option<K>, k: K)
    ensures k in Aggregate(rows, key) <==> Members(rows, key, k) != []
    ensures k in Aggregate(rows, key) ==>
              Aggregate(rows, key)[k] == Stat(SumPrix(Members(rows, key, k)) / |Members(rows, key, k)| as real,
                                              |Members(rows, key, k)|)
  {
    GroupBySpec(rows, key, k);
  }

  /** If every prix_m2 lies in the open band (lo, hi), so does the sum over
      n rows scaled by n. */
  lemma {:induction false} SumPrixBounds(rows: seq<Sale>, lo: real, hi: real)
    requires forall i :: 0 <= i < |rows| ==> lo < rows[i].prixM2 < hi
    ensures rows != [] ==> (|rows| as real) * lo < SumPrix(rows) < (|rows| as real) * hi
  {
    if rows != [] {
      var front := rows[..|rows| - 1];
      SumPrixBounds(front, lo, hi);
      assert (|rows| as real) * lo == (|front| as real) * lo + lo;
      assert (|rows| as real) * hi == (|front| as real) * hi + hi;
    }
  }

  lemma {:induction false} MembersInBand<K>(rows: seq<Sale>, key: Sale -> Option<K>, k: K, lo: real, hi: real)
    requires forall i :: 0 <= i < |rows| ==> lo < rows[i].prixM2 < hi
    ensures forall i :: 0 <= i < |Members(rows, key, k)| ==> lo < Members(rows, key, k)[i].prixM2 < hi
  {
    if rows != [] {
      MembersInBand(rows[..|rows| - 1], key, k, lo, hi);
    }
  }

  /** The mean of a group lies strictly inside any open band that holds every
      prix_m2 of the frame. */
  lemma GroupMeanInBand<K>(rows: seq<Sale>, key: Sale -> Option<K>, k: K, lo: real, hi: real)
    requires forall i :: 0 <= i < |rows| ==> lo < rows[i].prixM2 < hi
    requires k in Aggregate(rows, key)
    ensures lo < Aggregate(rows, key)[k].mean < hi
  {
    AggregateSpec(rows, key, k);
    MembersInBand(rows, key, k, lo, hi);
    MeanOfBand(Members(rows, key, k), lo, hi);
  }

  lemma MeanOfBand(ms: seq<Sale>, lo: real, hi: real)
    requires ms != []
    requires forall i :: 0 <= i < |ms| ==> lo < ms[i].prixM2 < hi
    ensures lo < SumPrix(ms) / |ms| as real < hi
  {
    SumPrixBounds(ms, lo, hi);
    var n := |ms| as real;
    var mean := SumPrix(ms) / n;
    assert mean * n == SumPrix(ms);
    MeanBetween(mean, n, lo, hi);
  }

  lemma MeanBetween(mean: real, n: real, lo: real, hi: real)
    requires n > 0.0 && n * lo < mean * n < n * hi
    ensures lo < mean < hi
  {
    assert (mean - lo) * n > 0.0;
    assert (hi - mean) * n > 0.0;
  }

  lemma {:induction false} SumPrixClosedBounds(rows: seq<Sale>, lo: real, hi: real)
    requires forall i :: 0 <= i < |rows| ==> lo <= rows[i].prixM2 <= hi
    ensures (|rows| as real) * lo <= SumPrix(rows) <= (|rows| as real) * hi
  {
    if rows != [] {
      SumPrixClosedBounds(rows[..|rows| - 1], lo, hi);
    }
  }

  /** The mean prix_m2 of a non-empty frame lies in any closed range that
      holds every prix_m2 of the frame. */
  lemma MeanInClosedRange(rows: seq<Sale>, lo: real, hi: real)
    requires rows != []
    requires forall i :: 0 <= i < |rows| ==> lo <= rows[i].prixM2 <= hi
    ensures lo <= SumPrix(rows) / |rows| as real <= hi
  {
    SumPrixClosedBounds(rows, lo, hi);
    var n := |rows| as real;
    var mean := SumPrix(rows) / n;
    assert mean * n == SumPrix(rows);
    assert (mean - lo) * n >= 0.0;
    assert (hi - mean) * n >= 0.0;
  }

  /** Sum of the counts of all buckets. */
  ghost function TotalCount<K>(m: map<K, Bucket>): nat
    decreases |m|
  {
    if m == map[] then 0
    else
      var k :| k in m;
      m[k].count + TotalCount(m - {k})
  }

  lemma {:induction false} TotalCountRemove<K>(m: map<K, Bucket>, k: K)
    requires k in m
    ensures TotalCount(m) == m[k].count + TotalCount(m - {k})
    decreases |m|
  {
    var j :| j in m && TotalCount(m) == m[j].count + TotalCount(m - {j});
    if j != k {
      TotalCountRemove(m - {j}, k);
      TotalCountRemove(m - {k}, j);
      assert (m - {j}) - {k} == (m - {k}) - {j};
    }
  }

  lemma TotalCountAddTo<K>(m: map<K, Bucket>, k: K, x: real)
    ensures TotalCount(AddTo(m, k, x)) == TotalCount(m) + 1
  {
    var m' := AddTo(m, k, x);
    TotalCountRemove(m', k);
    if k in m {
      TotalCountRemove(m, k);
      assert m' - {k} == m - {k};
    } else {
      assert m' - {k} == m;
    }
  }

  /** Before any threshold, the counts of all groups add up to the number of
      rows that belong to a group. */
  lemma {:induction false} TotalCountGroupBy<K>(rows: seq<Sale>, key: Sale -> Option<K>)
    ensures TotalCount(GroupBy(rows, key)) == |Keyed(rows, key)|
  {
    if rows != [] {
      var front := rows[..|rows| - 1];
      TotalCountGroupBy(front, key);
      var last := rows[|rows| - 1];
      if key(last).Some? {
        TotalCountAddTo(GroupBy(front, key), key(last).value, last.prixM2);
      }
    }
  }

  /** When no row has a missing key column, every row belongs to a group. */
  lemma {:induction false} KeyedAll<K>(rows: seq<Sale>, key: Sale -> Option<K>)
    requires forall i :: 0 <= i < |rows| ==> key(rows[i]).Some?
    ensures Keyed(rows, key) == rows
  {
    if rows != [] {
      KeyedAll(rows[..|rows| - 1], key);
      assert rows[..|rows| - 1] + [rows[|rows| - 1]] == rows;
    }
  }

  /** Merge of two bucket sets: buckets sharing a key add up component-wise,
      the others are kept as they are. */
  function Merge<K>(a: map<K, Bucket>, b: map<K, Bucket>): map<K, Bucket> {
    map k | k in a.Keys + b.Keys ::
      if k in a && k in b then Bucket(a[k].count + b[k].count, a[k].sum + b[k].sum)
      else if k in a then a[k] else b[k]
  }

  lemma MergeCommutative<K>(a: map<K, Bucket>, b: map<K, Bucket>)
    ensures Merge(a, b) == Merge(b, a)
  {
  }

  lemma MergeAssociative<K>(a: map<K, Bucket>, b: map<K, Bucket>, c: map<K, Bucket>)
    ensures Merge(Merge(a, b), c) == Merge(a, Merge(b, c))
  {
  }

  lemma GroupByConcatAt<K>(xs: seq<Sale>, ys: seq<Sale>, key: Sale -> Option<K>, k: K)
    ensures k in GroupBy(xs + ys, key) <==> k in Merge(GroupBy(xs, key), GroupBy(ys, key))
    ensures k in GroupBy(xs + ys, key) ==>
              GroupBy(xs + ys, key)[k] == Merge(GroupBy(xs, key), GroupBy(ys, key))[k]
  {
    GroupBySpec(xs + ys, key, k);
    GroupBySpec(xs, key, k);
    GroupBySpec(ys, key, k);
    MembersConcat(xs, ys, key, k);
    var a, b := Members(xs, key, k), Members(ys, key, k);
    SumPrixConcat(a, b);
    assert |a + b| == |a| + |b|;
  }

  /** Grouping two consecutive frames and merging the results equals
      grouping their concatenation. */
  lemma GroupByConcat<K>(xs: seq<Sale>, ys: seq<Sale>, key: Sale -> Option<K>)
    ensures GroupBy(xs + ys, key) == Merge(GroupBy(xs, key), GroupBy(ys, key))
  {
    var l := GroupBy(xs + ys, key);
    var r := Merge(GroupBy(xs, key), GroupBy(ys, key));
    forall k | k in l.Keys + r.Keys ensures k in l && k in r && l[k] == r[k] {
      GroupByConcatAt(xs, ys, key, k);
    }
    assert l.Keys == r.Keys;
  }
}
