/** The city rankings of the dashboard: the best city among those with
    enough sales (`idxmax` / `max`) and the ten best (`nlargest(10)` then an
    ascending sort). Among cities with equal means the one chosen is left
    open, as pandas' own tie order is not part of the model. */
module Ranking {
  import opened Aggregation

  /** c has a mean no smaller than that of any city of m. */
  ghost predicate IsMaximal(m: map<string, Stat>, c: string) {
    c in m && forall c' :: c' in m ==> m[c'].mean <= m[c].mean
  }

  lemma RemoveOne(m: map<string, Stat>, k: string)
    requires k in m
    ensures |m - {k}| == |m| - 1
  {
    assert (m - {k}).Keys == m.Keys - {k};
  }

  lemma {:induction false} MaximalExists(m: map<string, Stat>)
    requires m != map[]
    ensures exists c :: IsMaximal(m, c)
    decreases |m|
  {
    var k :| k in m;
    RemoveOne(m, k);
    assert forall c' :: c' in m ==> c' == k || c' in m - {k};
    if m - {k} == map[] {
      assert IsMaximal(m, k);
    } else {
      MaximalExists(m - {k});
      var c :| IsMaximal(m - {k}, c);
      if m[k].mean <= m[c].mean {
        assert IsMaximal(m, c);
      } else {
        assert IsMaximal(m, k);
      }
    }
  }

  datatype TopCity = NoCity | City(name: string, price: real)

  /** The top-city KPI: a city of maximal mean among the given ones, or
      none when there is no city. */
  ghost function TopCityOf(valid: map<string, Stat>): (t: TopCity)
    ensures t.NoCity? <==> valid == map[]
    ensures t.City? ==> IsMaximal(valid, t.name) && t.price == valid[t.name].mean
  {
    if valid == map[] then NoCity
    else
      MaximalExists(valid);
      var c :| IsMaximal(valid, c);
      City(c, valid[c].mean)
  }

  datatype Ranked = Ranked(name: string, stat: Stat)

  ghost predicate EntriesOf(m: map<string, Stat>, r: seq<Ranked>) {
    forall i :: 0 <= i < |r| ==> r[i].name in m && r[i].stat == m[r[i].name]
  }

  ghost predicate DistinctNames(r: seq<Ranked>) {
    forall i, j :: 0 <= i < j < |r| ==> r[i].name != r[j].name
  }

  ghost predicate Ascending(r: seq<Ranked>) {
    forall i, j :: 0 <= i <= j < |r| ==> r[i].stat.mean <= r[j].stat.mean
  }

  ghost predicate Listed(r: seq<Ranked>, c: string) {
    exists j :: 0 <= j < |r| && r[j].name == c
  }

  ghost predicate NoneLeftOutIsLarger(m: map<string, Stat>, r: seq<Ranked>) {
    forall c, i :: c in m && 0 <= i < |r| && !Listed(r, c) ==> m[c].mean <= r[i].stat.mean
  }

  /** r lists min(n, |m|) distinct cities of m with their statistics, in
      ascending order of mean, and no city of m left out of r has a larger
      mean than a city in r. */
  ghost predicate RanksTop(m: map<string, Stat>, n: nat, r: seq<Ranked>) {
    && |r| == (if n < |m| then n else |m|)
    && EntriesOf(m, r)
    && DistinctNames(r)
    && Ascending(r)
    && NoneLeftOutIsLarger(m, r)
  }

  lemma EntriesStep(m: map<string, Stat>, c: string, r: seq<Ranked>)
    requires c in m && EntriesOf(m - {c}, r)
    ensures EntriesOf(m, r + [Ranked(c, m[c])])
  {
    var r' := r + [Ranked(c, m[c])];
    forall i | 0 <= i < |r'| ensures r'[i].name in m && r'[i].stat == m[r'[i].name] {
      if i < |r| {
        assert r'[i] == r[i];
      }
    }
  }

  lemma DistinctStep(m: map<string, Stat>, c: string, r: seq<Ranked>)
    requires c in m && EntriesOf(m - {c}, r) && DistinctNames(r)
    ensures DistinctNames(r + [Ranked(c, m[c])])
  {
    var r' := r + [Ranked(c, m[c])];
    forall i, j | 0 <= i < j < |r'| ensures r'[i].name != r'[j].name {
      assert r'[i] == r[i];
      if j < |r| {
        assert r'[j] == r[j];
      } else {
        assert r[i].name in m - {c};
      }
    }
  }

  lemma AscendingStep(m: map<string, Stat>, c: string, r: seq<Ranked>)
    requires IsMaximal(m, c) && EntriesOf(m - {c}, r) && Ascending(r)
    ensures Ascending(r + [Ranked(c, m[c])])
  {
    var r' := r + [Ranked(c, m[c])];
    forall i, j | 0 <= i <= j < |r'| ensures r'[i].stat.mean <= r'[j].stat.mean {
      if j < |r| {
        assert r'[i] == r[i] && r'[j] == r[j];
      } else if i < |r| {
        assert r'[i] == r[i];
        assert r[i].name in m;
      }
    }
  }

  lemma LargestStep(m: map<string, Stat>, c: string, r: seq<Ranked>)
    requires IsMaximal(m, c) && NoneLeftOutIsLarger(m - {c}, r)
    ensures NoneLeftOutIsLarger(m, r + [Ranked(c, m[c])])
  {
    var r' := r + [Ranked(c, m[c])];
    forall c2, i | c2 in m && 0 <= i < |r'| && !Listed(r', c2)
      ensures m[c2].mean <= r'[i].stat.mean
    {
      assert r'[|r|].name == c;
      assert c2 != c;
      assert c2 in m - {c};
      if i < |r| {
        assert r'[i] == r[i];
        forall j | 0 <= j < |r| ensures r[j].name != c2 {
          assert r'[j] == r[j];
        }
      }
    }
  }

  lemma RanksTopStep(m: map<string, Stat>, n: nat, c: string, r: seq<Ranked>)
    requires n > 0 && IsMaximal(m, c)
    requires RanksTop(m - {c}, n - 1, r)
    ensures RanksTop(m, n, r + [Ranked(c, m[c])])
  {
    RemoveOne(m, c);
    EntriesStep(m, c, r);
    DistinctStep(m, c, r);
    AscendingStep(m, c, r);
    LargestStep(m, c, r);
  }

  /** The n cities of largest mean, in ascending order of mean. */
  ghost function TopAscending(m: map<string, Stat>, n: nat): (r: seq<Ranked>)
    ensures RanksTop(m, n, r)
    decreases n
  {
    if n == 0 || m == map[] then []
    else
      MaximalExists(m);
      var c :| IsMaximal(m, c);
      var rest := TopAscending(m - {c}, n - 1);
      RanksTopStep(m, n, c, rest);
      rest + [Ranked(c, m[c])]
  }
}
