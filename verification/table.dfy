/** `BaseSentence2VecPreparer`: the lifecycle of the sentence-vector table. A fresh preparation
    replaces the table by zero rows; an update appends zero rows after the existing ones.
    Both drop the cached normalised copy. */
module SentenceTable {
  import opened Results

  /** One float32 row of the table. */
  type Row = seq<real>

  /** The sentence vectors of a model: the row width, the rows, the cached normalised rows,
      and the base path of a file-backed table, if any. */
  datatype SentenceVectors = SentenceVectors(
    vectorSize: nat,
    vectors: seq<Row>,
    vectorsNorm: Option<seq<Row>>,
    mapfilePath: Option<string>)

  /** `zeros(n, dtype=REAL)`. */
  function Zeros(n: nat): (z: Row)
    ensures |z| == n
    ensures forall k :: 0 <= k < n ==> z[k] == 0.0
  {
    seq(n, _ => 0.0)
  }

  /** `count` rows of `width` zeros. */
  function ZeroRows(count: nat, width: nat): (rows: seq<Row>)
    ensures |rows| == count
    ensures forall i :: 0 <= i < count ==> rows[i] == Zeros(width)
  {
    seq(count, _ => Zeros(width))
  }

  /** Every row has the table's width. */
  predicate WellShaped(sv: SentenceVectors) {
    forall i :: 0 <= i < |sv.vectors| ==> |sv.vectors[i]| == sv.vectorSize
  }

  /** Rows `from` onwards are all zero. */
  predicate ZeroFrom(sv: SentenceVectors, from: nat) {
    forall i :: from <= i < |sv.vectors| ==> sv.vectors[i] == Zeros(sv.vectorSize)
  }

  /** `reset_vectors`: exactly `totalSentences` zero rows of the table's width, whatever the
      table held before; the cache is dropped. The file-backed branch creates the file anew
      and zeroes it the same way. */
  function ResetVectors(sv: SentenceVectors, totalSentences: nat): (r: SentenceVectors)
    ensures |r.vectors| == totalSentences
    ensures ZeroFrom(r, 0)
    ensures WellShaped(r)
    ensures r.vectorsNorm == None
    ensures r.vectorSize == sv.vectorSize && r.mapfilePath == sv.mapfilePath
  {
    sv.(vectors := ZeroRows(totalSentences, sv.vectorSize), vectorsNorm := None)
  }

  /** `update_vectors`: the existing rows followed by `totalSentences` new zero rows; the
      cache is dropped. The file-backed branch reopens the file with the larger shape, which
      extends it with zero bytes after the rows already stored. */
  function UpdateVectors(sv: SentenceVectors, totalSentences: nat): (r: SentenceVectors)
    ensures |r.vectors| == |sv.vectors| + totalSentences
    ensures r.vectors[..|sv.vectors|] == sv.vectors
    ensures ZeroFrom(r, |sv.vectors|)
    ensures WellShaped(sv) ==> WellShaped(r)
    ensures r.vectorsNorm == None
    ensures r.vectorSize == sv.vectorSize && r.mapfilePath == sv.mapfilePath
  {
    sv.(vectors := sv.vectors + ZeroRows(totalSentences, sv.vectorSize), vectorsNorm := None)
  }

  /** `prepare_vectors`: a fresh table of `totalSentences` zero rows, or, with `update`, the
      old rows kept in front of `totalSentences` new zero rows. */
  function PrepareVectors(sv: SentenceVectors, totalSentences: nat, update: bool): (r: SentenceVectors)
    ensures var kept := if update then |sv.vectors| else 0;
            && |r.vectors| == kept + totalSentences
            && r.vectors[..kept] == sv.vectors[..kept]
            && ZeroFrom(r, kept)
    ensures !update || WellShaped(sv) ==> WellShaped(r)
    ensures r.vectorsNorm == None
    ensures r.vectorSize == sv.vectorSize && r.mapfilePath == sv.mapfilePath
  {
    if !update then ResetVectors(sv, totalSentences) else UpdateVectors(sv, totalSentences)
  }

  /** A fresh table of `n` rows grown by `m` rows has `n + m` rows, all zero. */
  lemma ResetThenUpdate(sv: SentenceVectors, n: nat, m: nat)
    ensures var r := UpdateVectors(ResetVectors(sv, n), m);
            |r.vectors| == n + m && ZeroFrom(r, 0) && WellShaped(r) && r.vectorsNorm == None
  {
  }

  /** Two updates in a row are one update by their sum. */
  lemma UpdatesCompose(sv: SentenceVectors, a: nat, b: nat)
    ensures UpdateVectors(UpdateVectors(sv, a), b) == UpdateVectors(sv, a + b)
  {
  }

  /** A fresh preparation keeps nothing of the old table: two tables of the same width and
      file path prepare to the same table, whatever rows and cache they held. */
  lemma FreshPreparationForgetsRows(sv1: SentenceVectors, sv2: SentenceVectors, n: nat)
    requires sv1.vectorSize == sv2.vectorSize && sv1.mapfilePath == sv2.mapfilePath
    ensures PrepareVectors(sv1, n, false) == PrepareVectors(sv2, n, false)
  {
  }

  /** A fresh preparation of 4 rows of width 10 is a 4 by 10 table of zeros with no cache. */
  lemma FreshFourByTen(sv: SentenceVectors)
    requires sv.vectorSize == 10
    ensures var r := PrepareVectors(sv, 4, false);
            |r.vectors| == 4 && (forall i, k :: 0 <= i < 4 && 0 <= k < 10 ==> r.vectors[i][k] == 0.0)
            && r.vectorsNorm == None
  {
  }
}
