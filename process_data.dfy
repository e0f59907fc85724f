/** The Ile-de-France build of process_data.py: the whole file goes through
    the cleaning chain with the Ile-de-France configuration, then the kept
    rows are aggregated per (code_commune, nom_commune) and only communes
    with more than 10 sales are kept. */
module ProcessData {
  import opened Wrappers
  import opened Records
  import opened Cleaning
  import opened Aggregation

  /** (code_commune, nom_commune). */
  type CommuneKey = (string, string)

  /** The group key of a row; a row without a commune code or name is in
      no group. */
  function CommuneKeyOf(s: Sale): Option<CommuneKey> {
    if s.code.Some? && s.name.Some? then Some((s.code.value, s.name.value)) else None
  }

  /** Communes need strictly more than this many sales to be kept. */
  const MinCommuneSales: nat := 10

  /** The two files the build writes: the detail rows and the per-commune
      table (prix_moyen, nb_ventes). */
  datatype Output = Output(detail: seq<Sale>, communes: map<CommuneKey, Stat>)

  function Process(rows: seq<RawRow>): (out: Output)
    ensures out.detail == Clean(IleDeFrance, rows)
    ensures forall k :: k in out.communes ==> out.communes[k].count > MinCommuneSales
  {
    var detail := Clean(IleDeFrance, rows);
    Output(detail, MoreThan(Aggregate(detail, CommuneKeyOf), MinCommuneSales))
  }

  /** Every detail row: one of the eight departments, a sale of a house or
      an apartment, surface > 9, value > 1000, prix_m2 = value / surface and
      1000 < prix_m2 < 40000. */
  lemma DetailRowRules(rows: seq<RawRow>, i: nat)
    requires i < |Process(rows).detail|
    ensures var s := Process(rows).detail[i];
            && s.dept.Some? && s.dept.value in ["75", "77", "78", "91", "92", "93", "94", "95"]
            && s.nature == "Vente" && (s.typeLocal == "Maison" || s.typeLocal == "Appartement")
            && s.surface > 9.0 && s.value > 1000.0
            && s.prixM2 == s.value / s.surface && 1000.0 < s.prixM2 < 40000.0
  {
  }

  /** The commune table has exactly one row per commune of the detail rows
      with more than 10 sales; nb_ventes is the number of its sales and
      prix_moyen the mean of their prix_m2. A commune with exactly 10 sales
      is left out. */
  lemma CommuneTable(rows: seq<RawRow>, k: CommuneKey)
    ensures var out := Process(rows);
            var ms := Members(out.detail, CommuneKeyOf, k);
            && (k in out.communes <==> |ms| > 10)
            && (k in out.communes ==> out.communes[k] == Stat(SumPrix(ms) / |ms| as real, |ms|))
  {
    AggregateSpec(Clean(IleDeFrance, rows), CommuneKeyOf, k);
  }

  /** Every prix_moyen lies strictly inside (1000, 40000): it is the mean of
      prices in that open band. */
  lemma CommuneMeansInBand(rows: seq<RawRow>, k: CommuneKey)
    requires k in Process(rows).communes
    ensures 1000.0 < Process(rows).communes[k].mean < 40000.0
  {
    var detail := Clean(IleDeFrance, rows);
    GroupMeanInBand(detail, CommuneKeyOf, k, 1000.0, 40000.0);
  }

  /** Before the threshold, the nb_ventes of all communes add up to the
      number of detail rows that have both a commune code and a commune
      name; so to the number of detail rows when none lacks either. */
  lemma CountsBeforeThreshold(rows: seq<RawRow>)
    ensures var detail := Process(rows).detail;
            TotalCount(GroupBy(detail, CommuneKeyOf)) == |Keyed(detail, CommuneKeyOf)|
    ensures var detail := Process(rows).detail;
            (forall i :: 0 <= i < |detail| ==> detail[i].code.Some? && detail[i].name.Some?) ==>
              TotalCount(GroupBy(detail, CommuneKeyOf)) == |detail|
  {
    var detail := Clean(IleDeFrance, rows);
    TotalCountGroupBy(detail, CommuneKeyOf);
    if forall i :: 0 <= i < |detail| ==> detail[i].code.Some? && detail[i].name.Some? {
      KeyedAll(detail, CommuneKeyOf);
    }
  }
}
