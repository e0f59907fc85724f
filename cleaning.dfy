/** The row-cleaning chain shared by the national build
    (src/utils/clean_data.py) and the Ile-de-France build (process_data.py):
    a fixed conjunction of row filters, the derived price per square metre,
    and an open plausibility band on that price. The two builds differ only
    in the configuration below. */
module Cleaning {
  import opened Wrappers
  import opened Calendar
  import opened Records

  /** Strict lower bounds on surface_reelle_bati and valeur_fonciere. */
  const MinSurface: real := 9.0
  const MinValue: real := 1000.0

  /** An open band (lo, hi) of plausible prices per square metre. */
  datatype Band = Band(lo: real, hi: real)

  predicate InBand(b: Band, x: real) {
    b.lo < x < b.hi
  }

  /** depts: the departments kept (None: no department filter);
      requireCode: code_commune is among the columns that must be present;
      fixCodes: code_commune is rewritten by FixPlmCodes. */
  datatype Config = Config(depts: Option<seq<string>>, requireCode: bool, fixCodes: bool, band: Band)

  const IdfDepartments: seq<string> := ["75", "77", "78", "91", "92", "93", "94", "95"]

  /** src/utils/clean_data.py: all of France, band (500, 25000). */
  const National: Config := Config(None, true, true, Band(500.0, 25000.0))

  /** process_data.py: the eight Ile-de-France departments, band (1000, 40000). */
  const IleDeFrance: Config := Config(Some(IdfDepartments), false, false, Band(1000.0, 40000.0))

  /** Keeps an arrondissement code as it is (the PLM sub-district codes are
      already those of the map geometry). */
  function FixPlmCodes(code: string): (r: string)
    ensures r == code
  {
    code
  }

  lemma FixPlmCodesIdempotent(code: string)
    ensures FixPlmCodes(FixPlmCodes(code)) == FixPlmCodes(code)
  {
  }

  // The filter stages, in the order the source applies them.

  /** Department filter; a missing department is never in the list. */
  predicate InScope(cfg: Config, r: RawRow) {
    cfg.depts.None? || (r.dept.Some? && r.dept.value in cfg.depts.value)
  }

  predicate IsSale(r: RawRow) {
    r.nature == "Vente"
  }

  predicate IsDwelling(r: RawRow) {
    r.typeLocal == "Maison" || r.typeLocal == "Appartement"
  }

  /** The dropna stage: the listed columns must be present. */
  predicate HasRequiredFields(cfg: Config, r: RawRow) {
    r.value.Some? && r.surface.Some? && (cfg.requireCode ==> r.code.Some?)
  }

  /** The threshold stages; they only look at rows the dropna stage kept. */
  predicate PassesThresholds(r: RawRow)
    requires r.value.Some? && r.surface.Some?
  {
    r.surface.value > MinSurface && r.value.value > MinValue
  }

  predicate PassesFilters(cfg: Config, r: RawRow) {
    InScope(cfg, r) && IsSale(r) && IsDwelling(r) && HasRequiredFields(cfg, r) && PassesThresholds(r)
  }

  function PriceOf(r: RawRow): real
    requires r.value.Some? && r.surface.Some? && r.surface.value > 0.0
  {
    r.value.value / r.surface.value
  }

  /** A row survives the whole chain: the filters, then the price band. */
  predicate Accepts(cfg: Config, r: RawRow): (b: bool)
    ensures b ==> PassesFilters(cfg, r) && IsCleanSale(cfg, Derive(cfg, r))
  {
    PassesFilters(cfg, r) && InBand(cfg.band, PriceOf(r))
  }

  /** The kept row, with prix_m2 attached and the commune code rewritten. */
  function Derive(cfg: Config, r: RawRow): (s: Sale)
    requires PassesFilters(cfg, r)
    ensures AsRaw(s) == r
    ensures s.prixM2 == s.value / s.surface
  {
    var code := if cfg.fixCodes && r.code.Some? then Some(FixPlmCodes(r.code.value)) else r.code;
    Sale(r.date, r.nature, r.value.value, r.dept, code, r.name, r.typeLocal, r.surface.value, PriceOf(r))
  }

  /** What every kept row satisfies, stated on the output record. */
  predicate IsCleanSale(cfg: Config, s: Sale) {
    && (cfg.depts.Some? ==> s.dept.Some? && s.dept.value in cfg.depts.value)
    && s.nature == "Vente"
    && (s.typeLocal == "Maison" || s.typeLocal == "Appartement")
    && (cfg.requireCode ==> s.code.Some?)
    && s.surface > MinSurface
    && s.value > MinValue
    && s.prixM2 == s.value / s.surface
    && cfg.band.lo < s.prixM2 < cfg.band.hi
  }

  /** The chain applied to a frame: order-preserving filter, then derive. */
  function Clean(cfg: Config, rows: seq<RawRow>): (out: seq<Sale>)
    ensures |out| <= |rows|
    ensures forall i :: 0 <= i < |out| ==> IsCleanSale(cfg, out[i])
  {
    if rows == [] then []
    else
      var rest := Clean(cfg, rows[1..]);
      if Accepts(cfg, rows[0]) then [Derive(cfg, rows[0])] + rest else rest
  }

  /** A sale is in the output iff it was derived from an accepted input row. */
  lemma {:induction false} CleanMembership(cfg: Config, rows: seq<RawRow>, s: Sale)
    ensures s in Clean(cfg, rows) <==>
            exists i :: 0 <= i < |rows| && Accepts(cfg, rows[i]) && s == Derive(cfg, rows[i])
  {
    if rows != [] {
      CleanMembership(cfg, rows[1..], s);
      if s in Clean(cfg, rows[1..]) {
        var i :| 0 <= i < |rows[1..]| && Accepts(cfg, rows[1..][i]) && s == Derive(cfg, rows[1..][i]);
        assert rows[i + 1] == rows[1..][i];
      }
      if exists i :: 0 <= i < |rows| && Accepts(cfg, rows[i]) && s == Derive(cfg, rows[i]) {
        var i :| 0 <= i < |rows| && Accepts(cfg, rows[i]) && s == Derive(cfg, rows[i]);
        if i > 0 {
          assert rows[1..][i - 1] == rows[i];
        }
      }
    }
  }

  /** Cleaning distributes over concatenation: the output of a concatenation
      is the concatenation of the outputs, in input order. */
  lemma {:induction false} CleanConcat(cfg: Config, a: seq<RawRow>, b: seq<RawRow>)
    ensures Clean(cfg, a + b) == Clean(cfg, a) + Clean(cfg, b)
  {
    if a != [] {
      assert (a + b)[0] == a[0];
      assert (a + b)[1..] == a[1..] + b;
      CleanConcat(cfg, a[1..], b);
    } else {
      assert a + b == b;
    }
  }

  function AsRawRows(ss: seq<Sale>): (rs: seq<RawRow>)
    ensures |rs| == |ss|
    ensures forall i :: 0 <= i < |ss| ==> rs[i] == AsRaw(ss[i])
  {
    if ss == [] then [] else [AsRaw(ss[0])] + AsRawRows(ss[1..])
  }

  /** Re-running the chain on rows that are already clean keeps all of them
      and leaves them unchanged. */
  lemma {:induction false} CleanKeepsCleanRows(cfg: Config, ss: seq<Sale>)
    requires forall i :: 0 <= i < |ss| ==> IsCleanSale(cfg, ss[i])
    ensures Clean(cfg, AsRawRows(ss)) == ss
  {
    if ss != [] {
      var rs := AsRawRows(ss);
      assert rs[1..] == AsRawRows(ss[1..]);
      CleanKeepsCleanRows(cfg, ss[1..]);
      assert Accepts(cfg, rs[0]);
      assert ss == [ss[0]] + ss[1..];
    }
  }

  /** The chain is idempotent on its own output. */
  lemma CleanIdempotent(cfg: Config, rows: seq<RawRow>)
    ensures Clean(cfg, AsRawRows(Clean(cfg, rows))) == Clean(cfg, rows)
  {
    CleanKeepsCleanRows(cfg, Clean(cfg, rows));
  }

  /** The bounds are strict: a row exactly at a threshold or at a band edge
      is dropped. */
  lemma BoundsAreStrict(cfg: Config, r: RawRow)
    ensures r.surface == Some(MinSurface) ==> Clean(cfg, [r]) == []
    ensures r.value == Some(MinValue) ==> Clean(cfg, [r]) == []
    ensures PassesFilters(cfg, r) && (PriceOf(r) == cfg.band.lo || PriceOf(r) == cfg.band.hi)
            ==> Clean(cfg, [r]) == []
  {
  }

  /** A row that passes every filter survives exactly when its price lies
      strictly inside the band. */
  lemma KeptIffInBand(cfg: Config, r: RawRow)
    requires PassesFilters(cfg, r)
    ensures Clean(cfg, [r]) == if InBand(cfg.band, PriceOf(r)) then [Derive(cfg, r)] else []
  {
  }
}
