/** The non-plotting logic of the dashboard callback (update_dashboard in
    main.py): the date inputs and their fallbacks, the filter mask, the
    sentinel for an empty selection, the KPIs, the city statistics with the
    top city and the top ten, the per-commune map aggregate with its
    minimum-sales threshold, the monthly series, and the map centre and
    zoom. The rows are those of the national detail file. */
module Dashboard {
  import opened Wrappers
  import opened Calendar
  import opened Records
  import opened Aggregation
  import opened Ranking
  import opened Centroids
  import opened DayPicker

  const DefaultStart: Date := Date(DashboardYear, 1, 1)
  const DefaultEnd: Date := Date(DashboardYear, 12, 31)

  /** pd.to_datetime("2023-{month}-{day}", errors='coerce'): a date when the
      triple is a real calendar date, None (NaT) otherwise. */
  function ParseDate(month: int, day: int): (r: Option<Date>)
    ensures r.Some? <==> ValidDate(Date(DashboardYear, month, day))
    ensures r.Some? ==> r.value == Date(DashboardYear, month, day)
  {
    var d := Date(DashboardYear, month, day);
    if ValidDate(d) then Some(d) else None
  }

  /** The start of the window: always a real date of 2023. */
  function StartDate(month: int, day: int): (d: Date)
    ensures ValidDate(d) && d.year == DashboardYear
    ensures d == Date(DashboardYear, month, day) || d == DefaultStart
  {
    match ParseDate(month, day)
    case Some(d) => d
    case None => DefaultStart
  }

  /** The end of the window: always a real date of 2023. */
  function EndDate(month: int, day: int): (d: Date)
    ensures ValidDate(d) && d.year == DashboardYear
    ensures d == Date(DashboardYear, month, day) || d == DefaultEnd
  {
    match ParseDate(month, day)
    case Some(d) => d
    case None => DefaultEnd
  }

  /** The state of the filter panel when the button is pressed. */
  datatype Query = Query(
    dept: string,                // filter-dept: "all" or a department code
    types: seq<string>,          // filter-type
    startDay: int, startMonth: int,
    endDay: int, endMonth: int,
    priceLo: real, priceHi: real, // filter-price
    minSales: Option<int>)       // filter-min-sales (None when cleared)

  /** The row mask: inclusive date window, selected type, inclusive price
      range and, unless "all", the selected department. */
  predicate InMask(q: Query, s: Sale): (b: bool)
    ensures b ==> s.date.year == DashboardYear
    ensures b ==> s.typeLocal in q.types && q.priceLo <= s.prixM2 <= q.priceHi
    ensures b && q.dept != "all" ==> s.dept == Some(q.dept)
  {
    var start := StartDate(q.startMonth, q.startDay);
    var end := EndDate(q.endMonth, q.endDay);
    && DateLe(start, s.date) && DateLe(s.date, end)
    && s.typeLocal in q.types
    && q.priceLo <= s.prixM2 <= q.priceHi
    && (q.dept != "all" ==> s.dept == Some(q.dept))
  }

  /** df[mask], in row order. */
  function Filtered(rows: seq<Sale>, q: Query): (f: seq<Sale>)
    ensures |f| <= |rows|
    ensures forall i :: 0 <= i < |f| ==> InMask(q, f[i])
  {
    if rows == [] then []
    else
      var front := Filtered(rows[..|rows| - 1], q);
      if InMask(q, rows[|rows| - 1]) then front + [rows[|rows| - 1]] else front
  }

  /** A row is selected exactly when it is one of the rows and passes the mask. */
  lemma {:induction false} FilteredMembership(rows: seq<Sale>, q: Query, s: Sale)
    ensures s in Filtered(rows, q) <==> s in rows && InMask(q, s)
  {
    if rows != [] {
      var front := rows[..|rows| - 1];
      FilteredMembership(front, q, s);
      assert rows == front + [rows[|rows| - 1]];
    }
  }

  function SumSurface(rows: seq<Sale>): real {
    if rows == [] then 0.0 else SumSurface(rows[..|rows| - 1]) + rows[|rows| - 1].surface
  }

  /** Keys of the three group-bys; pandas leaves out rows with a missing key. */
  function CityKey(s: Sale): Option<string> {
    if s.name.Some? then Some(s.name.value) else None
  }

  /** (code_commune, nom_commune, code_departement). */
  type MapKey = (string, string, string)

  function MapKeyOf(s: Sale): Option<MapKey> {
    if s.code.Some? && s.name.Some? && s.dept.Some? then Some((s.code.value, s.name.value, s.dept.value)) else None
  }

  function MonthKey(s: Sale): Option<YearMonth> {
    Some(MonthOf(s.date))
  }

  /** Sample-size thresholds of the city and commune outputs. */
  const TopCityMinSales: int := 5
  const TopTenMoreThan: int := 10
  const TopTenSize: nat := 10

  datatype MapView = BlankMap(zoom: real) | Choropleth(center: Point, zoom: real)

  const FranceCenter: Point := Point(46.5, 2.5)

  /** Centre and zoom of the choropleth. */
  function ViewFor(dept: string, centers: map<string, Point>): (v: MapView)
    ensures v.Choropleth?
    ensures v.zoom == 5.0 <==> dept == "all"
    ensures v.zoom == 11.0 <==> dept == "75" && dept in centers
    ensures v.zoom == 6.0 <==> dept != "all" && dept !in centers
    ensures dept != "all" && dept in centers && dept != "75" ==> v.zoom == 8.5
    ensures v.center == (if dept != "all" && dept in centers then centers[dept] else FranceCenter)
  {
    if dept == "all" then Choropleth(FranceCenter, 5.0)
    else if dept in centers then
      Choropleth(centers[dept], if |dept| == 3 then 8.5 else if dept == "75" then 11.0 else 8.5)
    else Choropleth(FranceCenter, 6.0)
  }

  /** The map figure as the callback is evidently meant to build it: the
      choropleth when some commune passes the threshold, a blank map at
      zoom 5 otherwise. */
  function MapFigure(mapRows: map<MapKey, Stat>, dept: string, centers: map<string, Point>): (v: MapView)
    ensures v.BlankMap? <==> mapRows == map[]
    ensures v.BlankMap? ==> v.zoom == 5.0
  {
    if mapRows == map[] then BlankMap(5.0) else ViewFor(dept, centers)
  }

  /** The map figure as written: the blank-map branch passes `bs=` to
      px.scatter_mapbox, which takes no such argument, so that branch raises
      a TypeError and the whole callback fails. */
  function MapFigureAsWritten(mapRows: map<MapKey, Stat>, dept: string, centers: map<string, Point>)
    : (r: Result<MapView, string>)
    ensures r.Failure? <==> mapRows == map[]
    ensures r.Success? ==> r.value == MapFigure(mapRows, dept, centers)
  {
    if mapRows == map[] then Failure("TypeError: scatter_mapbox() got an unexpected keyword argument 'bs'")
    else Success(ViewFor(dept, centers))
  }

  /** The outputs of one callback run. NoData stands for the empty figures
      and the five KPI texts "-", "0", "-", "-", "-". */
  datatype Report =
    | NoData
    | Report(
        avgPrice: real,
        totalVolume: nat,
        topCity: TopCity,
        avgSurface: real,
        communes: map<MapKey, Stat>,
        view: MapView,
        evolution: map<YearMonth, real>,
        topTen: seq<Ranked>)

  function Means<K>(m: map<K, Stat>): map<K, real> {
    map k | k in m :: m[k].mean
  }

  function MinSalesOf(q: Query): int {
    if q.minSales.Some? then q.minSales.value else 0
  }

  ghost function UpdateDashboard(rows: seq<Sale>, q: Query, centers: map<string, Point>): (rep: Report)
    ensures rep.NoData? <==> Filtered(rows, q) == []
    ensures rep.Report? ==> rep.totalVolume == |Filtered(rows, q)| > 0
  {
    var f := Filtered(rows, q);
    if f == [] then NoData
    else
      var cityStats := Aggregate(f, CityKey);
      var topCity := TopCityOf(AtLeast(cityStats, TopCityMinSales));
      var mapRows := AtLeast(Aggregate(f, MapKeyOf), MinSalesOf(q));
      Report(
        SumPrix(f) / |f| as real,
        |f|,
        topCity,
        SumSurface(f) / |f| as real,
        mapRows,
        MapFigure(mapRows, q.dept, centers),
        Means(Aggregate(f, MonthKey)),
        TopAscending(MoreThan(cityStats, TopTenMoreThan), TopTenSize))
  }

  /** The callback as written, where the blank-map branch raises. */
  ghost function UpdateDashboardAsWritten(rows: seq<Sale>, q: Query, centers: map<string, Point>)
    : (r: Result<Report, string>)
    ensures r.Success? ==> r.value == UpdateDashboard(rows, q, centers)
  {
    var rep := UpdateDashboard(rows, q, centers);
    if rep.NoData? then Success(rep)
    else match MapFigureAsWritten(rep.communes, q.dept, centers)
      case Failure(e) => Failure(e)
      case Success(_) => Success(rep)
  }

  /** An unparseable start date falls back to 2023-01-01 and an unparseable
      end date to 2023-12-31, each on its own. */
  lemma DateFallbacks(q: Query)
    ensures var d := Date(DashboardYear, q.startMonth, q.startDay);
            StartDate(q.startMonth, q.startDay) == if ValidDate(d) then d else Date(2023, 1, 1)
    ensures var d := Date(DashboardYear, q.endMonth, q.endDay);
            EndDate(q.endMonth, q.endDay) == if ValidDate(d) then d else Date(2023, 12, 31)
  {
  }

  /** A day clamped by the day picker never triggers the fallback: the
      window starts (or ends) on the day shown. */
  lemma ClampedDayIsUsed(month: int, currentDay: int)
    requires 1 <= month <= 12 && currentDay >= 1
    ensures var day := UpdateDay(month, currentDay).day;
            StartDate(month, day) == Date(DashboardYear, month, day)
            && EndDate(month, day) == Date(DashboardYear, month, day)
  {
    UpdateDayGivesValidDate(month, currentDay);
  }

  /** Without the clamp, 30 February is not a date and the start of the
      window falls back to 1 January. */
  lemma UnclampedFebruaryFallsBack()
    ensures StartDate(2, 30) == Date(2023, 1, 1) && EndDate(2, 30) == Date(2023, 12, 31)
  {
  }

  /** The sentinel KPIs are produced exactly when no row passes the mask. */
  lemma NoDataIffNothingSelected(rows: seq<Sale>, q: Query, centers: map<string, Point>)
    ensures UpdateDashboard(rows, q, centers).NoData? <==> forall i :: 0 <= i < |rows| ==> !InMask(q, rows[i])
  {
    var f := Filtered(rows, q);
    if f != [] {
      FilteredMembership(rows, q, f[0]);
    }
    forall i | 0 <= i < |rows| && InMask(q, rows[i]) ensures f != [] {
      FilteredMembership(rows, q, rows[i]);
    }
  }

  /** The overall KPIs are taken over every selected row, whatever the city
      thresholds: volume is the number of selected rows, the price and
      surface KPIs are their means, and the price KPI lies in the selected
      price range. */
  lemma OverallKpis(rows: seq<Sale>, q: Query, centers: map<string, Point>)
    requires Filtered(rows, q) != []
    ensures var rep := UpdateDashboard(rows, q, centers);
            var f := Filtered(rows, q);
            && rep.totalVolume == |f|
            && rep.avgPrice == SumPrix(f) / |f| as real
            && rep.avgSurface == SumSurface(f) / |f| as real
            && q.priceLo <= rep.avgPrice <= q.priceHi
  {
    var f := Filtered(rows, q);
    MeanInClosedRange(f, q.priceLo, q.priceHi);
  }

  /** The number of selected sales of city c, and their mean prix_m2. */
  function CitySales(f: seq<Sale>, c: string): nat {
    |Members(f, CityKey, c)|
  }

  function CityMean(f: seq<Sale>, c: string): real
    requires CitySales(f, c) > 0
  {
    SumPrix(Members(f, CityKey, c)) / CitySales(f, c) as real
  }

  lemma CityStats(f: seq<Sale>, c: string)
    ensures c in Aggregate(f, CityKey) <==> CitySales(f, c) > 0
    ensures c in Aggregate(f, CityKey) ==> Aggregate(f, CityKey)[c] == Stat(CityMean(f, c), CitySales(f, c))
  {
    AggregateSpec(f, CityKey, c);
  }

  /** The top city has at least 5 selected sales and a mean no smaller than
      that of any other city with at least 5; there is none ("-" and 0)
      exactly when no city has 5 selected sales. */
  lemma TopCityRule(rows: seq<Sale>, q: Query, centers: map<string, Point>)
    requires Filtered(rows, q) != []
    ensures var t := UpdateDashboard(rows, q, centers).topCity;
            var f := Filtered(rows, q);
            && (t.NoCity? <==> forall c :: CitySales(f, c) < 5)
            && (t.City? ==> CitySales(f, t.name) >= 5 && t.price == CityMean(f, t.name)
                            && forall c :: CitySales(f, c) >= 5 ==> CityMean(f, c) <= t.price)
  {
    var f := Filtered(rows, q);
    var valid := AtLeast(Aggregate(f, CityKey), TopCityMinSales);
    var t := TopCityOf(valid);
    forall c ensures c in valid <==> CitySales(f, c) >= 5 {
      CityStats(f, c);
    }
    if t.City? {
      CityStats(f, t.name);
      forall c | CitySales(f, c) >= 5 ensures CityMean(f, c) <= t.price {
        CityStats(f, c);
      }
    } else {
      forall c ensures CitySales(f, c) < 5 {
        CityStats(f, c);
      }
    }
  }

  /** The top-ten list: at most 10 distinct cities, each with more than 10
      selected sales and its own mean and count, in ascending order of mean;
      as many as there are such cities up to 10; and no city with more than
      10 sales that is left out has a larger mean than a listed one. */
  lemma TopTenRule(rows: seq<Sale>, q: Query, centers: map<string, Point>)
    requires Filtered(rows, q) != []
    ensures var top := UpdateDashboard(rows, q, centers).topTen;
            var f := Filtered(rows, q);
            var eligible := MoreThan(Aggregate(f, CityKey), TopTenMoreThan);
            && |top| == (if |eligible| < 10 then |eligible| else 10)
            && (forall i :: 0 <= i < |top| ==>
                  CitySales(f, top[i].name) > 10
                  && top[i].stat == Stat(CityMean(f, top[i].name), CitySales(f, top[i].name)))
            && (forall i, j :: 0 <= i < j < |top| ==> top[i].name != top[j].name)
            && (forall i, j :: 0 <= i <= j < |top| ==> top[i].stat.mean <= top[j].stat.mean)
            && (forall c, i :: CitySales(f, c) > 10 && 0 <= i < |top| && !Listed(top, c)
                               ==> CityMean(f, c) <= top[i].stat.mean)
  {
    var f := Filtered(rows, q);
    var eligible := MoreThan(Aggregate(f, CityKey), TopTenMoreThan);
    var top := TopAscending(eligible, TopTenSize);
    forall i | 0 <= i < |top|
      ensures CitySales(f, top[i].name) > 10
              && top[i].stat == Stat(CityMean(f, top[i].name), CitySales(f, top[i].name))
    {
      CityStats(f, top[i].name);
    }
    forall c, i | CitySales(f, c) > 10 && 0 <= i < |top| && !Listed(top, c)
      ensures CityMean(f, c) <= top[i].stat.mean
    {
      CityStats(f, c);
      assert c in eligible;
    }
  }

  /** The map aggregate has one row per (code_commune, nom_commune,
      code_departement) with at least min_sales selected sales, holding the
      group's mean and count; a cleared min_sales counts as 0, so then every
      group is kept. */
  lemma MapAggregateRule(rows: seq<Sale>, q: Query, centers: map<string, Point>, k: MapKey)
    requires Filtered(rows, q) != []
    ensures var rep := UpdateDashboard(rows, q, centers);
            var ms := Members(Filtered(rows, q), MapKeyOf, k);
            && (k in rep.communes <==> ms != [] && |ms| >= MinSalesOf(q))
            && (k in rep.communes ==> rep.communes[k] == Stat(SumPrix(ms) / |ms| as real, |ms|))
            && (q.minSales.None? ==> rep.communes == Aggregate(Filtered(rows, q), MapKeyOf))
  {
    AggregateSpec(Filtered(rows, q), MapKeyOf, k);
  }

  /** The monthly series has a point for every month with a selected sale,
      and no other, at the mean prix_m2 of that month's sales. */
  lemma EvolutionRule(rows: seq<Sale>, q: Query, centers: map<string, Point>, p: YearMonth)
    requires Filtered(rows, q) != []
    ensures var rep := UpdateDashboard(rows, q, centers);
            var ms := Members(Filtered(rows, q), MonthKey, p);
            && (p in rep.evolution <==> ms != [])
            && (p in rep.evolution ==> rep.evolution[p] == SumPrix(ms) / |ms| as real)
  {
    AggregateSpec(Filtered(rows, q), MonthKey, p);
  }

  /** With the department centres computed from the GeoJSON features:
      "all" shows France at zoom 5; a department with a contributing feature
      is centred on the mean of its features' points at zoom 8.5, or 11 for
      "75"; a department without one keeps the default centre at zoom 6;
      with no commune on the map, a blank map at zoom 5. */
  lemma ViewRule(rows: seq<Sale>, q: Query, features: seq<Feature>, centers: map<string, Point>)
    requires IsDeptCenters(features, centers)
    requires Filtered(rows, q) != []
    ensures var rep := UpdateDashboard(rows, q, centers);
            var ps := Contributions(features, q.dept);
            rep.view ==
              if rep.communes == map[] then BlankMap(5.0)
              else if q.dept == "all" then Choropleth(Point(46.5, 2.5), 5.0)
              else if ps != [] then Choropleth(MeanPoint(ps), if q.dept == "75" then 11.0 else 8.5)
              else Choropleth(Point(46.5, 2.5), 6.0)
  {
  }

  /** The callback as written fails exactly when some row is selected but
      no commune reaches min_sales. */
  lemma AsWrittenFailsOnBlankMap(rows: seq<Sale>, q: Query, centers: map<string, Point>)
    ensures var rep := UpdateDashboard(rows, q, centers);
            UpdateDashboardAsWritten(rows, q, centers).Failure? <==> rep.Report? && rep.communes == map[]
  {
  }

  const LoneSale: Sale := Sale(Date(2023, 6, 1), "Vente", 300000.0, Some("75"), Some("75101"), Some("Paris 1er"),
                               "Appartement", 60.0, 5000.0)
  const LoneQuery: Query := Query("all", ["Appartement"], 1, 1, 31, 12, 0.0, 20000.0, Some(2))

  /** The lone sale is selected, and its commune has one sale: below 2. */
  lemma LoneSaleSelected()
    ensures Filtered([LoneSale], LoneQuery) == [LoneSale]
    ensures AtLeast(Aggregate([LoneSale], MapKeyOf), 2) == map[]
  {
    var s, q := LoneSale, LoneQuery;
    assert InMask(q, s);
    assert [s][..0] == [];
    var k := ("75101", "Paris 1er", "75");
    assert MapKeyOf(s) == Some(k);
    assert GroupBy([s], MapKeyOf) == map[k := Bucket(1, 5000.0)];
    var a := Aggregate([s], MapKeyOf);
    assert a.Keys == {k} && a[k].count == 1;
  }

  /** One selected sale and min_sales = 2: the corrected callback returns a
      report over a blank map, the callback as written raises. */
  lemma BlankMapCounterexample()
    ensures UpdateDashboard([LoneSale], LoneQuery, map[]).Report?
    ensures UpdateDashboard([LoneSale], LoneQuery, map[]).view == BlankMap(5.0)
    ensures UpdateDashboardAsWritten([LoneSale], LoneQuery, map[]).Failure?
  {
    LoneSaleSelected();
    var rep := UpdateDashboard([LoneSale], LoneQuery, map[]);
    assert rep.Report?;
    assert MinSalesOf(LoneQuery) == 2;
    assert rep.communes == AtLeast(Aggregate([LoneSale], MapKeyOf), 2);
  }

  function ExampleSale(name: string, code: string, value: real): Sale {
    Sale(Date(2023, 3, 1), "Vente", value, Some("75"), Some(code), Some(name), "Maison", 100.0, value / 100.0)
  }

  const SaleA1: Sale := ExampleSale("A", "A1", 200000.0)
  const SaleA2: Sale := ExampleSale("A", "A1", 300000.0)
  const SaleA3: Sale := ExampleSale("A", "A1", 400000.0)
  const SaleB: Sale := ExampleSale("B", "B1", 900000.0)
  const ScenarioRows: seq<Sale> := [SaleA1, SaleA2, SaleA3, SaleB]
  const ScenarioQuery: Query := Query("all", ["Maison"], 1, 1, 31, 12, 0.0, 100000.0, Some(2))

  lemma ScenarioFiltered()
    ensures Filtered(ScenarioRows, ScenarioQuery) == ScenarioRows
  {
    var q := ScenarioQuery;
    assert InMask(q, SaleA1) && InMask(q, SaleA2) && InMask(q, SaleA3) && InMask(q, SaleB);
    assert [SaleA1, SaleA2, SaleA3, SaleB][..3] == [SaleA1, SaleA2, SaleA3];
    assert [SaleA1, SaleA2, SaleA3][..2] == [SaleA1, SaleA2];
    assert [SaleA1, SaleA2][..1] == [SaleA1];
    assert [SaleA1][..0] == [];
    assert Filtered([SaleA1], q) == [SaleA1];
    assert Filtered([SaleA1, SaleA2], q) == [SaleA1, SaleA2];
    assert Filtered([SaleA1, SaleA2, SaleA3], q) == [SaleA1, SaleA2, SaleA3];
  }

  lemma ScenarioSums()
    ensures SumPrix([SaleA1, SaleA2, SaleA3]) == 9000.0
    ensures SumPrix(ScenarioRows) == 18000.0
  {
    assert [SaleA1, SaleA2, SaleA3, SaleB][..3] == [SaleA1, SaleA2, SaleA3];
    assert [SaleA1, SaleA2, SaleA3][..2] == [SaleA1, SaleA2];
    assert [SaleA1, SaleA2][..1] == [SaleA1];
    assert [SaleA1][..0] == [];
    assert SaleA1.prixM2 == 2000.0 && SaleA2.prixM2 == 3000.0 && SaleA3.prixM2 == 4000.0 && SaleB.prixM2 == 9000.0;
    assert SumPrix([SaleA1]) == 2000.0;
    assert SumPrix([SaleA1, SaleA2]) == 5000.0;
  }

  lemma ScenarioGroups()
    ensures Members(ScenarioRows, MapKeyOf, ("A1", "A", "75")) == [SaleA1, SaleA2, SaleA3]
    ensures Members(ScenarioRows, MapKeyOf, ("B1", "B", "75")) == [SaleB]
  {
    assert [SaleA1, SaleA2, SaleA3, SaleB][..3] == [SaleA1, SaleA2, SaleA3];
    assert [SaleA1, SaleA2, SaleA3][..2] == [SaleA1, SaleA2];
    assert [SaleA1, SaleA2][..1] == [SaleA1];
    assert [SaleA1][..0] == [];
    var ka, kb := ("A1", "A", "75"), ("B1", "B", "75");
    assert MapKeyOf(SaleA1) == Some(ka) && MapKeyOf(SaleA2) == Some(ka) && MapKeyOf(SaleA3) == Some(ka);
    assert MapKeyOf(SaleB) == Some(kb) && ka != kb;
    assert Members([SaleA1], MapKeyOf, ka) == [SaleA1];
    assert Members([SaleA1, SaleA2], MapKeyOf, ka) == [SaleA1, SaleA2];
    assert Members([SaleA1, SaleA2, SaleA3], MapKeyOf, ka) == [SaleA1, SaleA2, SaleA3];
    assert Members([SaleA1], MapKeyOf, kb) == [];
    assert Members([SaleA1, SaleA2], MapKeyOf, kb) == [];
    assert Members([SaleA1, SaleA2, SaleA3], MapKeyOf, kb) == [];
  }

  lemma ScenarioMap()
    ensures var m := AtLeast(Aggregate(ScenarioRows, MapKeyOf), 2);
            && ("A1", "A", "75") in m && m[("A1", "A", "75")] == Stat(3000.0, 3)
            && ("B1", "B", "75") !in m
  {
    ScenarioSums();
    ScenarioGroups();
    AggregateSpec(ScenarioRows, MapKeyOf, ("A1", "A", "75"));
    AggregateSpec(ScenarioRows, MapKeyOf, ("B1", "B", "75"));
    assert |[SaleA1, SaleA2, SaleA3]| == 3;
  }

  /** Three sales in commune A at 2000, 3000 and 4000 per square metre and
      one in commune B at 9000, with min_sales = 2: A is on the map with
      mean 3000 and count 3, B is not, and the overall KPIs still count B:
      volume 4, mean price 4500. */
  lemma ThresholdScenario()
    ensures var rep := UpdateDashboard(ScenarioRows, ScenarioQuery, map[]);
            && rep.Report?
            && rep.totalVolume == 4 && rep.avgPrice == 4500.0
            && ("A1", "A", "75") in rep.communes && rep.communes[("A1", "A", "75")] == Stat(3000.0, 3)
            && ("B1", "B", "75") !in rep.communes
  {
    ScenarioFiltered();
    ScenarioSums();
    assert |ScenarioRows| == 4;
    var rep := UpdateDashboard(ScenarioRows, ScenarioQuery, map[]);
    assert rep.Report?;
    OverallKpis(ScenarioRows, ScenarioQuery, map[]);
    assert rep.avgPrice == 18000.0 / 4.0;
    ScenarioMap();
    assert rep.communes == AtLeast(Aggregate(ScenarioRows, MapKeyOf), 2);
  }
}
