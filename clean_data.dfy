/** The national build of src/utils/clean_data.py: the raw file is read in
    chunks of CHUNK_SIZE rows, each chunk goes through the cleaning chain
    with the national configuration, the kept chunks are concatenated and
    the `mois` column is added. */
module CleanData {
  import opened Calendar
  import opened Records
  import opened Cleaning

  const ChunkSize: nat := 100000

  /** pd.concat of a list of frames. */
  function Flatten<T>(chunks: seq<seq<T>>): seq<T> {
    if chunks == [] then [] else Flatten(chunks[..|chunks| - 1]) + chunks[|chunks| - 1]
  }

  lemma FlattenSnoc<T>(chunks: seq<seq<T>>, c: seq<T>)
    ensures Flatten(chunks + [c]) == Flatten(chunks) + c
  {
    assert (chunks + [c])[..|chunks|] == chunks;
  }

  lemma {:induction false} FlattenConcat<T>(a: seq<seq<T>>, b: seq<seq<T>>)
    ensures Flatten(a + b) == Flatten(a) + Flatten(b)
    decreases |b|
  {
    if b == [] {
      assert a + b == a;
    } else {
      var b' := b[..|b| - 1];
      assert a + b == (a + b') + [b[|b| - 1]];
      FlattenSnoc(a + b', b[|b| - 1]);
      FlattenConcat(a, b');
      FlattenSnoc(b', b[|b| - 1]);
      assert b == b' + [b[|b| - 1]];
    }
  }

  /** The reader's split of a file into consecutive chunks of at most
      `size` rows (the last one possibly shorter). */
  function SplitIntoChunks<T>(rows: seq<T>, size: nat): (chunks: seq<seq<T>>)
    requires size > 0
    ensures Flatten(chunks) == rows
    ensures forall j :: 0 <= j < |chunks| ==> 0 < |chunks[j]| <= size
    decreases |rows|
  {
    if |rows| <= size then
      (if rows == [] then [] else (assert Flatten([rows]) == Flatten([]) + rows; [rows]))
    else
      var rest := SplitIntoChunks(rows[size..], size);
      FlattenConcat([rows[..size]], rest);
      assert Flatten([rows[..size]]) == Flatten([]) + rows[..size];
      assert rows[..size] + rows[size..] == rows;
      [rows[..size]] + rest
  }

  /** The chain applied to each chunk on its own. */
  function CleanEach(cfg: Config, chunks: seq<seq<RawRow>>): (kept: seq<seq<Sale>>)
    ensures |kept| == |chunks|
    ensures forall j :: 0 <= j < |chunks| ==> kept[j] == Clean(cfg, chunks[j])
  {
    seq(|chunks|, j requires 0 <= j < |chunks| => Clean(cfg, chunks[j]))
  }

  /** Chunk invariance: for any split of the input into consecutive chunks,
      concatenating the per-chunk results equals cleaning the whole input. */
  lemma {:induction false} ChunkInvariance(cfg: Config, chunks: seq<seq<RawRow>>)
    ensures Flatten(CleanEach(cfg, chunks)) == Clean(cfg, Flatten(chunks))
    decreases |chunks|
  {
    if chunks != [] {
      var n := |chunks| - 1;
      var front := chunks[..n];
      ChunkInvariance(cfg, front);
      assert CleanEach(cfg, chunks) == CleanEach(cfg, front) + [Clean(cfg, chunks[n])];
      FlattenSnoc(CleanEach(cfg, front), Clean(cfg, chunks[n]));
      CleanConcat(cfg, Flatten(front), chunks[n]);
    }
  }

  /** The year-month column added after the concatenation. */
  function AddMois(df: seq<Sale>): seq<Detail> {
    seq(|df|, k requires 0 <= k < |df| => Detail(df[k], MonthOf(df[k].date)))
  }

  /** The chunk loop. `chunksKept` receives one cleaned chunk per iteration
      and `totalRows` counts the rows kept so far. */
  method Process(chunks: seq<seq<RawRow>>) returns (detail: seq<Detail>, totalRows: nat)
    ensures totalRows == |detail|
    ensures |detail| == |Clean(National, Flatten(chunks))|
    ensures forall k :: 0 <= k < |detail| ==>
              detail[k].sale == Clean(National, Flatten(chunks))[k]
              && detail[k].mois == MonthOf(detail[k].sale.date)
  {
    var chunksKept: seq<seq<Sale>> := [];
    totalRows := 0;
    for i := 0 to |chunks|
      invariant |chunksKept| == i
      invariant forall j :: 0 <= j < i ==> chunksKept[j] == Clean(National, chunks[j])
      invariant Flatten(chunksKept) == Clean(National, Flatten(chunks[..i]))
      invariant totalRows == |Flatten(chunksKept)|
    {
      var chunk := Clean(National, chunks[i]);
      FlattenSnoc(chunksKept, chunk);
      assert chunks[..i + 1] == chunks[..i] + [chunks[i]];
      FlattenSnoc(chunks[..i], chunks[i]);
      CleanConcat(National, Flatten(chunks[..i]), chunks[i]);
      chunksKept := chunksKept + [chunk];
      totalRows := totalRows + |chunk|;
    }
    assert chunks[..|chunks|] == chunks;
    var df := Flatten(chunksKept);
    detail := AddMois(df);
  }

  /** Every row of the national detail file satisfies the national rules:
      a sale of a house or an apartment, value, surface and commune code
      present, surface > 9, value > 1000, prix_m2 = value / surface and
      500 < prix_m2 < 25000. */
  lemma NationalRowRules(s: Sale)
    requires IsCleanSale(National, s)
    ensures s.nature == "Vente" && (s.typeLocal == "Maison" || s.typeLocal == "Appartement")
    ensures s.code.Some? && s.surface > 9.0 && s.value > 1000.0
    ensures s.prixM2 == s.value / s.surface && 500.0 < s.prixM2 < 25000.0
  {
  }

  /** Cleaning the chunks the reader produces gives the same rows as
      cleaning the whole file at once. */
  lemma ProcessOnReaderChunks(rows: seq<RawRow>)
    ensures Flatten(CleanEach(National, SplitIntoChunks(rows, ChunkSize))) == Clean(National, rows)
  {
    ChunkInvariance(National, SplitIntoChunks(rows, ChunkSize));
  }
}
