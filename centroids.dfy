/** The department centres that seed the dashboard's map view (main.py,
    before the app is built): each commune feature of the GeoJSON gives the
    unweighted mean of the vertices of its outer ring, and each department
    the unweighted mean of its features' points. */
module Centroids {
  import opened Wrappers

  /** A GeoJSON position: [longitude, latitude, ...]. */
  type Position = seq<real>

  datatype Geometry =
    | Polygon(rings: seq<seq<Position>>)
    | MultiPolygon(polygons: seq<seq<seq<Position>>>)
    | OtherGeometry(kind: string)

  /** A feature: properties.code (None when missing or not a string) and
      its geometry (None when missing or null). */
  datatype Feature = Feature(code: Option<string>, geometry: Option<Geometry>)

  datatype Point = Point(lat: real, lon: real)

  /** The two lists kept per department while reading the features. */
  datatype Coords = Coords(lats: seq<real>, lons: seq<real>)

  predicate StartsWith(s: string, p: string) {
    |p| <= |s| && s[..|p|] == p
  }

  /** Python's s[:n]. */
  function Prefix(s: string, n: nat): string {
    if |s| <= n then s else s[..n]
  }

  /** The department of a commune code: three characters for an overseas
      code (starting with "97"), two otherwise. */
  function DeptKey(code: string): (d: string)
    ensures StartsWith(code, d)
    ensures |d| == (var n := if StartsWith(code, "97") then 3 else 2; if |code| < n then |code| else n)
  {
    if StartsWith(code, "97") then Prefix(code, 3) else Prefix(code, 2)
  }

  /** The department key is a prefix of the code; for codes of at least
      three characters it has three characters exactly when the code starts
      with "97" and two otherwise. */
  lemma DeptKeyShape(code: string)
    ensures StartsWith(code, DeptKey(code))
    ensures |code| >= 3 ==> (|DeptKey(code)| == 3 <==> StartsWith(code, "97"))
    ensures |code| >= 3 ==> (|DeptKey(code)| == 2 <==> !StartsWith(code, "97"))
  {
  }

  /** The ring whose vertices are averaged: the first ring of a Polygon, the
      first ring of the first polygon of a MultiPolygon, and no vertex for
      any other geometry. None when the indexing raises (no such ring). */
  function OuterRing(g: Geometry): (r: Option<seq<Position>>)
    ensures r.None? <==> (g.Polygon? && g.rings == []) || (g.MultiPolygon? && (g.polygons == [] || g.polygons[0] == []))
    ensures g.Polygon? && r.Some? ==> r.value == g.rings[0]
    ensures g.MultiPolygon? && r.Some? ==> r.value == g.polygons[0][0]
    ensures g.OtherGeometry? ==> r == Some([])
  {
    match g
    case Polygon(rings) => if |rings| == 0 then None else Some(rings[0])
    case MultiPolygon(polys) => if |polys| == 0 || |polys[0]| == 0 then None else Some(polys[0][0])
    case OtherGeometry(_) => Some([])
  }

  predicate WellFormedRing(ring: seq<Position>) {
    forall i :: 0 <= i < |ring| ==> |ring[i]| >= 2
  }

  function Lons(ring: seq<Position>): (xs: seq<real>)
    requires WellFormedRing(ring)
    ensures |xs| == |ring|
  {
    seq(|ring|, i requires 0 <= i < |ring| => ring[i][0])
  }

  function Lats(ring: seq<Position>): (xs: seq<real>)
    requires WellFormedRing(ring)
    ensures |xs| == |ring|
  {
    seq(|ring|, i requires 0 <= i < |ring| => ring[i][1])
  }

  function Sum(xs: seq<real>): real {
    if xs == [] then 0.0 else Sum(xs[..|xs| - 1]) + xs[|xs| - 1]
  }

  /** sum(xs) / len(xs). */
  function Average(xs: seq<real>): real
    requires xs != []
  {
    Sum(xs) / |xs| as real
  }

  /** What a feature adds to the department lists: its department and the
      mean of its outer ring; None when the feature is skipped (missing
      code or geometry, missing ring, empty ring, or a vertex with fewer
      than two coordinates). */
  function Contribution(f: Feature): (c: Option<(string, Point)>)
    ensures c.None? <==>
              || f.code.None? || f.geometry.None?
              || OuterRing(f.geometry.value).None?
              || OuterRing(f.geometry.value).value == []
              || !WellFormedRing(OuterRing(f.geometry.value).value)
    ensures c.Some? ==> f.code.Some? && c.value.0 == DeptKey(f.code.value)
    ensures c.Some? ==> var ring := OuterRing(f.geometry.value).value;
                        c.value.1 == Point(Average(Lats(ring)), Average(Lons(ring)))
  {
    if f.code.None? || f.geometry.None? then None
    else
      match OuterRing(f.geometry.value)
      case None => None
      case Some(ring) =>
        if ring == [] || !WellFormedRing(ring) then None
        else Some((DeptKey(f.code.value), Point(Average(Lats(ring)), Average(Lons(ring)))))
  }

  /** The points the features contribute to department d, in input order. */
  function Contributions(fs: seq<Feature>, d: string): (ps: seq<Point>)
    ensures |ps| <= |fs|
  {
    if fs == [] then []
    else
      var front := Contributions(fs[..|fs| - 1], d);
      var c := Contribution(fs[|fs| - 1]);
      if c.Some? && c.value.0 == d then front + [c.value.1] else front
  }

  /** Every listed point of d is some feature's contribution to d. */
  lemma {:induction false} ContributionsSound(fs: seq<Feature>, d: string, i: nat)
    requires i < |Contributions(fs, d)|
    ensures exists j :: 0 <= j < |fs| && Contribution(fs[j]) == Some((d, Contributions(fs, d)[i]))
  {
    var n := |fs| - 1;
    var front := fs[..n];
    if i < |Contributions(front, d)| {
      ContributionsSound(front, d, i);
      var j :| 0 <= j < |front| && Contribution(front[j]) == Some((d, Contributions(front, d)[i]));
      assert fs[j] == front[j];
    } else {
      assert Contribution(fs[n]) == Some((d, Contributions(fs, d)[i]));
    }
  }

  /** Every feature's contribution to d is listed for d. */
  lemma {:induction false} ContributionsComplete(fs: seq<Feature>, d: string, j: nat)
    requires j < |fs| && Contribution(fs[j]).Some? && Contribution(fs[j]).value.0 == d
    ensures Contribution(fs[j]).value.1 in Contributions(fs, d)
  {
    var n := |fs| - 1;
    var front := fs[..n];
    if j < n {
      assert front[j] == fs[j];
      ContributionsComplete(front, d, j);
    }
  }

  /** A point is listed for d exactly when some feature contributes it to d. */
  lemma ContributionsMembership(fs: seq<Feature>, d: string, p: Point)
    ensures p in Contributions(fs, d) <==> exists j :: 0 <= j < |fs| && Contribution(fs[j]) == Some((d, p))
  {
    var ps := Contributions(fs, d);
    if p in ps {
      var i :| 0 <= i < |ps| && ps[i] == p;
      ContributionsSound(fs, d, i);
    }
    if exists j :: 0 <= j < |fs| && Contribution(fs[j]) == Some((d, p)) {
      var j :| 0 <= j < |fs| && Contribution(fs[j]) == Some((d, p));
      ContributionsComplete(fs, d, j);
    }
  }

  function LatsOf(ps: seq<Point>): (xs: seq<real>)
    ensures |xs| == |ps| && forall i :: 0 <= i < |ps| ==> xs[i] == ps[i].lat
  {
    seq(|ps|, i requires 0 <= i < |ps| => ps[i].lat)
  }

  function LonsOf(ps: seq<Point>): (xs: seq<real>)
    ensures |xs| == |ps| && forall i :: 0 <= i < |ps| ==> xs[i] == ps[i].lon
  {
    seq(|ps|, i requires 0 <= i < |ps| => ps[i].lon)
  }

  /** The unweighted mean of a department's feature points. */
  function MeanPoint(ps: seq<Point>): Point
    requires ps != []
  {
    Point(Average(LatsOf(ps)), Average(LonsOf(ps)))
  }

  /** The relation DeptCenters establishes between the features and the
      department centres. */
  ghost predicate IsDeptCenters(features: seq<Feature>, centers: map<string, Point>) {
    && (forall d :: d in centers <==> Contributions(features, d) != [])
    && (forall d :: d in centers ==> centers[d] == MeanPoint(Contributions(features, d)))
  }

  /** The two loops: the first appends each feature's mean latitude and
      longitude to its department's lists, the second turns every
      non-empty pair of lists into the department centre. */
  method DeptCenters(features: seq<Feature>) returns (centers: map<string, Point>)
    ensures forall d :: d in centers <==> Contributions(features, d) != []
    ensures forall d :: d in centers ==> centers[d] == MeanPoint(Contributions(features, d))
  {
    var temp: map<string, Coords> := map[];
    for i := 0 to |features|
      invariant forall d :: d in temp <==> Contributions(features[..i], d) != []
      invariant forall d :: d in temp ==>
                  temp[d] == Coords(LatsOf(Contributions(features[..i], d)), LonsOf(Contributions(features[..i], d)))
    {
      assert features[..i + 1][..i] == features[..i];
      var c := Contribution(features[i]);
      if c.Some? {
        var (d, p) := c.value;
        if d !in temp {
          temp := temp[d := Coords([], [])];
        }
        temp := temp[d := Coords(temp[d].lats + [p.lat], temp[d].lons + [p.lon])];
      }
    }
    assert features[..|features|] == features;
    centers := map[];
    var pending := temp.Keys;
    while pending != {}
      invariant pending <= temp.Keys
      invariant forall d :: d in centers <==> d in temp && d !in pending && temp[d].lats != []
      invariant forall d :: d in centers ==>
                  temp[d].lats != [] && temp[d].lons != []
                  && centers[d] == Point(Average(temp[d].lats), Average(temp[d].lons))
      decreases pending
    {
      var d :| d in pending;
      if temp[d].lats != [] {
        centers := centers[d := Point(Average(temp[d].lats), Average(temp[d].lons))];
      }
      pending := pending - {d};
    }
  }

  lemma {:induction false} SumBounds(xs: seq<real>, lo: real, hi: real)
    requires forall i :: 0 <= i < |xs| ==> lo <= xs[i] <= hi
    ensures (|xs| as real) * lo <= Sum(xs) <= (|xs| as real) * hi
  {
    if xs != [] {
      SumBounds(xs[..|xs| - 1], lo, hi);
    }
  }

  lemma AverageBetween(xs: seq<real>, lo: real, hi: real)
    requires xs != []
    requires forall i :: 0 <= i < |xs| ==> lo <= xs[i] <= hi
    ensures lo <= Average(xs) <= hi
  {
    SumBounds(xs, lo, hi);
    var n := |xs| as real;
    var a := Average(xs);
    assert a * n == Sum(xs);
    assert (a - lo) * n >= 0.0;
    assert (hi - a) * n >= 0.0;
  }

  /** A feature's point lies in the latitude and longitude ranges of the
      vertices of its outer ring. */
  lemma ContributionWithinRing(f: Feature, ring: seq<Position>, latLo: real, latHi: real, lonLo: real, lonHi: real)
    requires Contribution(f).Some?
    requires f.geometry.Some? && OuterRing(f.geometry.value) == Some(ring)
    requires forall i :: 0 <= i < |ring| ==>
               |ring[i]| >= 2 && latLo <= ring[i][1] <= latHi && lonLo <= ring[i][0] <= lonHi
    ensures var p := Contribution(f).value.1;
            latLo <= p.lat <= latHi && lonLo <= p.lon <= lonHi
  {
    AverageBetween(Lats(ring), latLo, latHi);
    AverageBetween(Lons(ring), lonLo, lonHi);
  }

  /** A department centre lies in the latitude and longitude ranges of its
      features' points. */
  lemma CenterWithinRange(ps: seq<Point>, latLo: real, latHi: real, lonLo: real, lonHi: real)
    requires ps != []
    requires forall i :: 0 <= i < |ps| ==> latLo <= ps[i].lat <= latHi && lonLo <= ps[i].lon <= lonHi
    ensures latLo <= MeanPoint(ps).lat <= latHi && lonLo <= MeanPoint(ps).lon <= lonHi
  {
    AverageBetween(LatsOf(ps), latLo, latHi);
    AverageBetween(LonsOf(ps), lonLo, lonHi);
  }

  lemma AverageOfTwo(a: real, b: real)
    ensures Average([a, b]) == (a + b) / 2.0
  {
    assert [a, b][..1] == [a];
    assert [a][..0] == [];
    assert Sum([a]) == a;
    assert Sum([a, b]) == a + b;
  }

  const ParisFirst: Feature := Feature(Some("75101"), Some(Polygon([[[2.2, 48.84], [2.4, 48.86]]])))
  const ParisSecond: Feature := Feature(Some("75102"), Some(MultiPolygon([[[[2.3, 48.86], [2.5, 48.88]]]])))
  const ParisNoGeometry: Feature := Feature(Some("75103"), None)

  /** The Polygon feature's outer ring averages to (48.85, 2.30), the
      MultiPolygon feature's first ring to (48.87, 2.40), and a feature
      without geometry is skipped. */
  lemma ParisContributions()
    ensures Contribution(ParisFirst) == Some(("75", Point(48.85, 2.3)))
    ensures Contribution(ParisSecond) == Some(("75", Point(48.87, 2.4)))
    ensures Contribution(ParisNoGeometry) == None
  {
    assert "75101"[..2] == "75" && "75102"[..2] == "75";
    assert !StartsWith("75101", "97") && !StartsWith("75102", "97");
    assert DeptKey("75101") == "75" && DeptKey("75102") == "75";
    var r1: seq<Position> := [[2.2, 48.84], [2.4, 48.86]];
    assert Lats(r1) == [48.84, 48.86] && Lons(r1) == [2.2, 2.4];
    var r2: seq<Position> := [[2.3, 48.86], [2.5, 48.88]];
    assert Lats(r2) == [48.86, 48.88] && Lons(r2) == [2.3, 2.5];
    AverageOfTwo(48.84, 48.86);
    AverageOfTwo(2.2, 2.4);
    AverageOfTwo(48.86, 48.88);
    AverageOfTwo(2.3, 2.5);
  }

  /** The two Paris features give department 75 the centre (48.86, 2.35);
      the feature without geometry adds nothing. */
  lemma ParisExample()
    ensures Contributions([ParisFirst, ParisSecond, ParisNoGeometry], "75") == [Point(48.85, 2.3), Point(48.87, 2.4)]
    ensures MeanPoint([Point(48.85, 2.3), Point(48.87, 2.4)]) == Point(48.86, 2.35)
  {
    ParisContributions();
    var f1, f2, f3 := ParisFirst, ParisSecond, ParisNoGeometry;
    assert [f1, f2, f3][..2] == [f1, f2];
    assert [f1, f2][..1] == [f1];
    assert [f1][..0] == [];
    assert Contributions([f1], "75") == [Point(48.85, 2.3)];
    assert Contributions([f1, f2], "75") == [Point(48.85, 2.3), Point(48.87, 2.4)];
    var ps := [Point(48.85, 2.3), Point(48.87, 2.4)];
    assert LatsOf(ps) == [48.85, 48.87] && LonsOf(ps) == [2.3, 2.4];
    AverageOfTwo(48.85, 48.87);
    AverageOfTwo(2.3, 2.4);
  }
}
