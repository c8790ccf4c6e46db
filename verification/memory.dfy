/** `estimate_memory`: the byte sizes of the word weights, the word vectors and the
    sentence-vector table, their total, and the advisory comparison with available memory. */
module Memory {
  import opened Results

  /** Byte width of numpy's float32, the element type of every table. */
  const REAL_SIZE: nat := 4

  const WORD_WEIGHTS: string := "Word Weights"
  const WORD_VECTORS: string := "Word Vectors"
  const SENTENCE_VECTORS: string := "Sentence Vectors"
  const TOTAL: string := "Total"

  /** A report is a Python dict from component name to bytes, kept in insertion order. */
  datatype Entry = Entry(key: string, bytes: int)
  type Report = seq<Entry>

  /** A report together with the "will likely not fit into RAM" warning flag. */
  datatype MemoryEstimate = MemoryEstimate(report: Report, ramWarning: bool)

  function Keys(r: Report): set<string> {
    if |r| == 0 then {} else {r[0].key} + Keys(r[1..])
  }

  /** No key occurs twice, as in any dict. */
  predicate UniqueKeys(r: Report) {
    |r| == 0 || (r[0].key !in Keys(r[1..]) && UniqueKeys(r[1..]))
  }

  /** `report[k]` when `k` is present. */
  function Lookup(r: Report, k: string): (v: Option<int>)
    ensures v.Some? <==> k in Keys(r)
  {
    if |r| == 0 then None else if r[0].key == k then Some(r[0].bytes) else Lookup(r[1..], k)
  }

  /** `report.get(k, 0)`. */
  function BytesOr0(r: Report, k: string): int {
    if Lookup(r, k).Some? then Lookup(r, k).value else 0
  }

  /** `report[k] = v`: an existing key keeps its place, a new key goes last. */
  function Assign(r: Report, k: string, v: int): (r': Report)
    ensures Lookup(r', k) == Some(v)
    ensures forall k' :: k' != k ==> Lookup(r', k') == Lookup(r, k')
    ensures UniqueKeys(r) ==> UniqueKeys(r')
  {
    if |r| == 0 then [Entry(k, v)]
    else if r[0].key == k then [Entry(k, v)] + r[1..]
    else
      var rest := Assign(r[1..], k, v);
      assert ([r[0]] + rest)[1..] == rest;
      assert Lookup(rest, r[0].key) == Lookup(r[1..], r[0].key);
      [r[0]] + rest
  }

  /** `sum(report.values())`. */
  function Sum(r: Report): int {
    if |r| == 0 then 0 else r[0].bytes + Sum(r[1..])
  }

  /** The sum of the values of every entry whose key is not `k`. */
  function SumExcept(r: Report, k: string): int {
    if |r| == 0 then 0 else (if r[0].key == k then 0 else r[0].bytes) + SumExcept(r[1..], k)
  }

  /** The sum of a dict is the value at `k`, if any, plus the sum of the others. */
  lemma {:induction false} SumSplit(r: Report, k: string)
    requires UniqueKeys(r)
    ensures Sum(r) == SumExcept(r, k) + BytesOr0(r, k)
  {
    if |r| > 0 {
      SumSplit(r[1..], k);
    }
  }

  /** Assigning to `k` leaves the sum of the other entries alone. */
  lemma {:induction false} SumExceptAssign(r: Report, k: string, v: int)
    ensures SumExcept(Assign(r, k, v), k) == SumExcept(r, k)
  {
    if |r| > 0 && r[0].key != k {
      var rest := Assign(r[1..], k, v);
      assert ([r[0]] + rest)[1..] == rest;
      SumExceptAssign(r[1..], k, v);
    }
  }

  /** The four report keys are pairwise different strings. */
  lemma KeysDistinct()
    ensures WORD_WEIGHTS != WORD_VECTORS && WORD_WEIGHTS != SENTENCE_VECTORS && WORD_WEIGHTS != TOTAL
    ensures WORD_VECTORS != SENTENCE_VECTORS && WORD_VECTORS != TOTAL && SENTENCE_VECTORS != TOTAL
  {
  }

  predicate IsEstimateKey(k: string) {
    k == WORD_WEIGHTS || k == WORD_VECTORS || k == SENTENCE_VECTORS || k == TOTAL
  }

  /** The report after the three component sizes are written into it. */
  function Components(r: Report, vocabSize: nat, vectorSize: nat, totalSentences: nat): (parts: Report)
    ensures Lookup(parts, WORD_WEIGHTS) == Some(vocabSize * REAL_SIZE)
    ensures Lookup(parts, WORD_VECTORS) == Some(vocabSize * vectorSize * REAL_SIZE)
    ensures Lookup(parts, SENTENCE_VECTORS) == Some(totalSentences * vectorSize * REAL_SIZE)
    ensures forall k :: k != WORD_WEIGHTS && k != WORD_VECTORS && k != SENTENCE_VECTORS ==>
              Lookup(parts, k) == Lookup(r, k)
    ensures UniqueKeys(r) ==> UniqueKeys(parts)
  {
    var r1 := Assign(r, WORD_WEIGHTS, vocabSize * REAL_SIZE);
    var r2 := Assign(r1, WORD_VECTORS, vocabSize * vectorSize * REAL_SIZE);
    Assign(r2, SENTENCE_VECTORS, totalSentences * vectorSize * REAL_SIZE)
  }

  /** `total >= 0.95 * available`, compared exactly. */
  predicate ExceedsRam(total: int, availableMemory: nat) {
    100 * total >= 95 * availableMemory
  }

  /** `report["Total"] = total` followed by the RAM comparison. */
  function WithTotal(parts: Report, total: int, availableMemory: nat): (e: MemoryEstimate)
    requires UniqueKeys(parts)
    ensures Lookup(e.report, TOTAL) == Some(total)
    ensures forall k :: k != TOTAL ==> Lookup(e.report, k) == Lookup(parts, k)
    ensures SumExcept(e.report, TOTAL) == SumExcept(parts, TOTAL)
    ensures UniqueKeys(e.report)
    ensures e.ramWarning == ExceedsRam(total, availableMemory)
  {
    SumExceptAssign(parts, TOTAL, total);
    MemoryEstimate(Assign(parts, TOTAL, total), ExceedsRam(total, availableMemory))
  }

  /** `estimate_memory` as written: the total is the sum of every value in the report once the
      three components are written, so a "Total" already in the caller's report is counted in. */
  function EstimateMemory(vocabSize: nat, vectorSize: nat, totalSentences: nat, prior: Report, availableMemory: nat)
    : (e: MemoryEstimate)
    requires UniqueKeys(prior)
    ensures Lookup(e.report, WORD_WEIGHTS) == Some(vocabSize * REAL_SIZE)
    ensures Lookup(e.report, WORD_VECTORS) == Some(vocabSize * vectorSize * REAL_SIZE)
    ensures Lookup(e.report, SENTENCE_VECTORS) == Some(totalSentences * vectorSize * REAL_SIZE)
    ensures Lookup(e.report, TOTAL) == Some(SumExcept(e.report, TOTAL) + BytesOr0(prior, TOTAL))
    ensures forall k :: !IsEstimateKey(k) ==> Lookup(e.report, k) == Lookup(prior, k)
    ensures UniqueKeys(e.report)
    ensures e.ramWarning == ExceedsRam(Lookup(e.report, TOTAL).value, availableMemory)
  {
    var parts := Components(prior, vocabSize, vectorSize, totalSentences);
    KeysDistinct();
    assert BytesOr0(parts, TOTAL) == BytesOr0(prior, TOTAL);
    SumCountsPriorTotal(prior, parts, availableMemory);
    WithTotal(parts, Sum(parts), availableMemory)
  }

  /** Writing `sum(report.values())` as "Total" makes it the other entries plus the
      "Total" the report already held. */
  lemma SumCountsPriorTotal(prior: Report, parts: Report, availableMemory: nat)
    requires UniqueKeys(parts)
    requires BytesOr0(parts, TOTAL) == BytesOr0(prior, TOTAL)
    ensures var e := WithTotal(parts, Sum(parts), availableMemory);
            Lookup(e.report, TOTAL) == Some(SumExcept(e.report, TOTAL) + BytesOr0(prior, TOTAL))
  {
    SumSplit(parts, TOTAL);
  }

  /** The estimator with the total taken over the other entries only, so that
      "Total" is the sum of the other entries whatever the caller passed in. */
  function EstimateMemoryCorrected(vocabSize: nat, vectorSize: nat, totalSentences: nat, prior: Report, availableMemory: nat)
    : (e: MemoryEstimate)
    requires UniqueKeys(prior)
    ensures Lookup(e.report, WORD_WEIGHTS) == Some(vocabSize * REAL_SIZE)
    ensures Lookup(e.report, WORD_VECTORS) == Some(vocabSize * vectorSize * REAL_SIZE)
    ensures Lookup(e.report, SENTENCE_VECTORS) == Some(totalSentences * vectorSize * REAL_SIZE)
    ensures Lookup(e.report, TOTAL) == Some(SumExcept(e.report, TOTAL))
    ensures forall k :: !IsEstimateKey(k) ==> Lookup(e.report, k) == Lookup(prior, k)
    ensures UniqueKeys(e.report)
    ensures e.ramWarning == ExceedsRam(Lookup(e.report, TOTAL).value, availableMemory)
  {
    var parts := Components(prior, vocabSize, vectorSize, totalSentences);
    KeysDistinct();
    WithTotal(parts, SumExcept(parts, TOTAL), availableMemory)
  }

  /** Assigning to a key not yet present appends it. */
  lemma {:induction false} AssignAbsent(r: Report, k: string, v: int)
    requires k !in Keys(r)
    ensures Assign(r, k, v) == r + [Entry(k, v)]
  {
    if |r| > 0 {
      AssignAbsent(r[1..], k, v);
      assert r == [r[0]] + r[1..];
    }
  }

  /** Appending an entry adds its key and, unless its key is `k`, its value to the sum of the others. */
  lemma {:induction false} AppendEntry(r: Report, e: Entry, k: string)
    ensures Keys(r + [e]) == Keys(r) + {e.key}
    ensures SumExcept(r + [e], k) == SumExcept(r, k) + (if e.key == k then 0 else e.bytes)
  {
    if |r| > 0 {
      assert (r + [e])[1..] == r[1..] + [e];
      AppendEntry(r[1..], e, k);
    }
  }

  /** Starting from an empty report, as training does, both estimators hold exactly the three
      components in insertion order and their sum as "Total". */
  lemma FreshReport(vocabSize: nat, vectorSize: nat, totalSentences: nat, availableMemory: nat)
    ensures var ww, wv, sv := vocabSize * REAL_SIZE, vocabSize * vectorSize * REAL_SIZE, totalSentences * vectorSize * REAL_SIZE;
            var expected := MemoryEstimate([Entry(WORD_WEIGHTS, ww), Entry(WORD_VECTORS, wv), Entry(SENTENCE_VECTORS, sv),
                                         Entry(TOTAL, ww + wv + sv)],
                                        ExceedsRam(ww + wv + sv, availableMemory));
            && EstimateMemoryCorrected(vocabSize, vectorSize, totalSentences, [], availableMemory) == expected
            && EstimateMemory(vocabSize, vectorSize, totalSentences, [], availableMemory) == expected
  {
    var ww, wv, sv := vocabSize * REAL_SIZE, vocabSize * vectorSize * REAL_SIZE, totalSentences * vectorSize * REAL_SIZE;
    KeysDistinct();
    var r0: Report := [];
    AssignAbsent(r0, WORD_WEIGHTS, ww);
    AppendEntry(r0, Entry(WORD_WEIGHTS, ww), TOTAL);
    var r1 := r0 + [Entry(WORD_WEIGHTS, ww)];
    AssignAbsent(r1, WORD_VECTORS, wv);
    AppendEntry(r1, Entry(WORD_VECTORS, wv), TOTAL);
    var r2 := r1 + [Entry(WORD_VECTORS, wv)];
    AssignAbsent(r2, SENTENCE_VECTORS, sv);
    AppendEntry(r2, Entry(SENTENCE_VECTORS, sv), TOTAL);
    var r3 := r2 + [Entry(SENTENCE_VECTORS, sv)];
    AssignAbsent(r3, TOTAL, ww + wv + sv);
    EstimatesAgreeWithoutPriorTotal(vocabSize, vectorSize, totalSentences, r0, availableMemory);
  }

  /** A caller's report that already holds a "Total" of 7 bytes yields a "Total" of 7 bytes
      for components that take no space, although the other entries sum to 0. */
  lemma PriorTotalCountedTwice()
    ensures var e := EstimateMemory(0, 0, 0, [Entry(TOTAL, 7)], 0);
            Lookup(e.report, TOTAL) == Some(7) && SumExcept(e.report, TOTAL) == 0
  {
    KeysDistinct();
    var r0 := [Entry(TOTAL, 7)];
    assert Keys(r0) == {TOTAL} by {
      assert r0[1..] == [];
    }
    AssignAbsent(r0, WORD_WEIGHTS, 0);
    AppendEntry(r0, Entry(WORD_WEIGHTS, 0), TOTAL);
    var r1 := r0 + [Entry(WORD_WEIGHTS, 0)];
    AssignAbsent(r1, WORD_VECTORS, 0);
    AppendEntry(r1, Entry(WORD_VECTORS, 0), TOTAL);
    var r2 := r1 + [Entry(WORD_VECTORS, 0)];
    AssignAbsent(r2, SENTENCE_VECTORS, 0);
    AppendEntry(r2, Entry(SENTENCE_VECTORS, 0), TOTAL);
    assert SumExcept(r0, TOTAL) == 0 by {
      assert r0[1..] == [];
    }
  }

  /** When the caller's report holds no "Total", as in training, which passes none, the
      estimator as written and the corrected one agree. */
  lemma EstimatesAgreeWithoutPriorTotal(vocabSize: nat, vectorSize: nat, totalSentences: nat, prior: Report, availableMemory: nat)
    requires UniqueKeys(prior)
    requires TOTAL !in Keys(prior)
    ensures EstimateMemory(vocabSize, vectorSize, totalSentences, prior, availableMemory)
         == EstimateMemoryCorrected(vocabSize, vectorSize, totalSentences, prior, availableMemory)
  {
  }
}
