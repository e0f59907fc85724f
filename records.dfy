/** The transaction records the pipeline reads and writes. */
module Records {
  import opened Wrappers
  import opened Calendar

  /** One row of the raw transaction file, restricted to the eight columns
      the pipeline reads. Numeric, code and name columns may be missing
      (NaN), hence Option; the date is taken as already parsed. */
  datatype RawRow = RawRow(
    date: Date,                  // date_mutation
    nature: string,              // nature_mutation
    value: Option<real>,         // valeur_fonciere
    dept: Option<string>,        // code_departement
    code: Option<string>,        // code_commune
    name: Option<string>,        // nom_commune
    typeLocal: string,           // type_local
    surface: Option<real>)       // surface_reelle_bati

  /** A row that passed the cleaning chain: value and surface are present,
      and the derived price per square metre is attached. */
  datatype Sale = Sale(
    date: Date,
    nature: string,
    value: real,
    dept: Option<string>,
    code: Option<string>,
    name: Option<string>,
    typeLocal: string,
    surface: real,
    prixM2: real)                // prix_m2 = valeur_fonciere / surface_reelle_bati

  /** A row of the national detail file: a sale with its `mois` period. */
  datatype Detail = Detail(sale: Sale, mois: YearMonth)

  /** The raw row a sale was derived from, without the derived column. */
  function AsRaw(s: Sale): RawRow {
    RawRow(s.date, s.nature, Some(s.value), s.dept, s.code, s.name, s.typeLocal, Some(s.surface))
  }
}
