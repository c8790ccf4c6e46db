/** The corpus a model is trained on and the single pass `scan_sentences` makes over it:
    sentence, token and empty-sentence counts, the maximum sentence index, and the
    truncated average sentence length. */
module Corpus {
  import opened Results

  /** A token of a sentence: a Python str, or any other object. */
  datatype Token = StrToken(text: string) | OtherToken

  /** The token container of a sentence. `isList` tells whether it is a Python list
      (as opposed to a tuple, a str or another sized container); `tokens` are its elements. */
  datatype Words = Words(isList: bool, tokens: seq<Token>)

  /** A plain token container, or an IndexedSentence carrying its own index. */
  datatype Sentence = Plain(words: Words) | Indexed(index: int, words: Words)

  /** The statistics `scan_sentences` returns. */
  datatype ScanReport = ScanReport(totalSentences: nat, totalWords: nat, averageLength: nat, emptySentences: nat)

  /** The index a sentence at `position` stands for: a plain sentence's position, an indexed sentence's own index. */
  function IndexOf(x: Sentence, position: nat): int {
    match x
    case Plain(_) => position
    case Indexed(i, _) => i
  }

  /** The type check applied to the first sentence: a list whose every element is a str. */
  predicate IsListOfStr(w: Words) {
    w.isList && forall k :: 0 <= k < |w.tokens| ==> w.tokens[k].StrToken?
  }

  /** The number of tokens over all sentences of `s`. */
  function TotalWords(s: seq<Sentence>): nat {
    if |s| == 0 then 0 else TotalWords(s[..|s| - 1]) + |s[|s| - 1].words.tokens|
  }

  /** The number of sentences of `s` without any token. */
  function EmptySentences(s: seq<Sentence>): (r: nat)
    ensures r <= |s|
  {
    if |s| == 0 then 0
    else EmptySentences(s[..|s| - 1]) + (if |s[|s| - 1].words.tokens| == 0 then 1 else 0)
  }

  /** The maximum of 0 and every index of `s`. */
  function MaxIndex(s: seq<Sentence>): (m: int)
    ensures m >= 0
    ensures forall j :: 0 <= j < |s| ==> IndexOf(s[j], j) <= m
  {
    if |s| == 0 then 0
    else
      var before := MaxIndex(s[..|s| - 1]);
      var last := IndexOf(s[|s| - 1], |s| - 1);
      assert forall j :: 0 <= j < |s| - 1 ==> s[..|s| - 1][j] == s[j];
      if last > before then last else before
  }

  /** The maximum is 0, where it started, or the index of some sentence. */
  lemma {:induction false} MaxIndexAttained(s: seq<Sentence>)
    ensures MaxIndex(s) == 0 || exists j :: 0 <= j < |s| && IndexOf(s[j], j) == MaxIndex(s)
  {
    if |s| > 0 {
      var n := |s| - 1;
      MaxIndexAttained(s[..n]);
      if MaxIndex(s) != IndexOf(s[n], n) && MaxIndex(s) != 0 {
        var j :| 0 <= j < n && IndexOf(s[..n][j], j) == MaxIndex(s[..n]);
        assert s[..n][j] == s[j];
      }
    }
  }

  /** `int(total_words / total_sentences)`: for these non-negative counts, floor division. */
  function AverageLength(totalWords: nat, totalSentences: nat): (a: nat)
    requires totalSentences > 0
    ensures a * totalSentences <= totalWords < (a + 1) * totalSentences
  {
    FloorDivision(totalWords, totalSentences);
    totalWords / totalSentences
  }

  /** The outcome of scanning `s`: the first sentence's type error, then the index check,
      then the report. */
  function Scan(s: seq<Sentence>): Result<ScanReport> {
    if |s| > 0 && !IsListOfStr(s[0].words) then Err(NotListOfStr)
    else if MaxIndex(s) >= |s| then Err(IndexTooLarge(MaxIndex(s), |s|))
    else Ok(ScanReport(|s|, TotalWords(s), AverageLength(TotalWords(s), |s|), EmptySentences(s)))
  }

  /** How the counts of the first `n + 1` sentences follow from those of the first `n`. */
  lemma PrefixStep(s: seq<Sentence>, n: nat)
    requires n < |s|
    ensures TotalWords(s[..n + 1]) == TotalWords(s[..n]) + |s[n].words.tokens|
    ensures EmptySentences(s[..n + 1]) == EmptySentences(s[..n]) + (if |s[n].words.tokens| == 0 then 1 else 0)
    ensures MaxIndex(s[..n + 1]) == if IndexOf(s[n], n) > MaxIndex(s[..n]) then IndexOf(s[n], n) else MaxIndex(s[..n])
  {
    assert s[..n + 1][..n] == s[..n];
  }

  /** The one pass of `scan_sentences` over the corpus. */
  method ScanSentences(sentences: seq<Sentence>) returns (r: Result<ScanReport>)
    ensures r == Scan(sentences)
  {
    var totalSentences: nat := 0;
    var totalWords: nat := 0;
    var emptySentences: nat := 0;
    var checkedStringTypes := false;
    var maxIndex := 0;
    for objNo := 0 to |sentences|
      invariant totalSentences == objNo
      invariant totalWords == TotalWords(sentences[..objNo])
      invariant emptySentences == EmptySentences(sentences[..objNo])
      invariant maxIndex == MaxIndex(sentences[..objNo])
      invariant checkedStringTypes <==> objNo > 0
      invariant objNo > 0 ==> IsListOfStr(sentences[0].words)
    {
      var obj := sentences[objNo];
      var index := IndexOf(obj, objNo);
      var sent := obj.words;
      if !checkedStringTypes {
        if !IsListOfStr(sent) {
          return Err(NotListOfStr);
        }
        checkedStringTypes := true;
      }
      PrefixStep(sentences, objNo);
      maxIndex := if index > maxIndex then index else maxIndex;
      totalSentences := totalSentences + 1;
      totalWords := totalWords + |sent.tokens|;
      if |sent.tokens| == 0 {
        emptySentences := emptySentences + 1;
      }
    }
    assert sentences[..|sentences|] == sentences;
    if maxIndex >= totalSentences {
      return Err(IndexTooLarge(maxIndex, totalSentences));
    }
    var averageLength := AverageLength(totalWords, totalSentences);
    r := Ok(ScanReport(totalSentences, totalWords, averageLength, emptySentences));
  }

  /** The scan succeeds exactly when the corpus is non-empty, its first sentence is a list
      of str and every index lies below the number of sentences. */
  lemma ScanSucceedsIff(s: seq<Sentence>)
    ensures Scan(s).Ok? <==>
              && |s| > 0
              && IsListOfStr(s[0].words)
              && forall j :: 0 <= j < |s| ==> IndexOf(s[j], j) < |s|
  {
    MaxIndexAttained(s);
  }

  /** An empty corpus passes the type check but fails the index check, 0 >= 0,
      so the average length is never computed for it. */
  lemma EmptyCorpusFails()
    ensures Scan([]) == Err(IndexTooLarge(0, 0))
  {
  }

  /** A failing scan reports either the first sentence's type or the maximum index. */
  lemma ScanErrors(s: seq<Sentence>)
    ensures Scan(s) == Err(NotListOfStr) <==> |s| > 0 && !IsListOfStr(s[0].words)
    ensures Scan(s).Err? && Scan(s).error != NotListOfStr ==>
              Scan(s).error == IndexTooLarge(MaxIndex(s), |s|) && MaxIndex(s) >= |s|
  {
  }

  /** On success the report holds the corpus's counts, and the average length is the
      floor of words per sentence. */
  lemma ScanReportCounts(s: seq<Sentence>)
    requires Scan(s).Ok?
    ensures Scan(s).value.totalSentences == |s| > 0
    ensures Scan(s).value.totalWords == TotalWords(s)
    ensures Scan(s).value.emptySentences == EmptySentences(s)
    ensures Scan(s).value.averageLength == AverageLength(TotalWords(s), |s|)
  {
  }

  /** Euclidean division of non-negative numbers is floor division. */
  lemma FloorDivision(a: nat, b: nat)
    requires b > 0
    ensures 0 <= a / b
    ensures (a / b) * b <= a < (a / b + 1) * b
  {
  }

  /** Every sentence with a token contributes at least one word, so there are no words
      exactly when every sentence is empty. */
  lemma {:induction false} WordsAndEmptySentences(s: seq<Sentence>)
    ensures TotalWords(s) >= |s| - EmptySentences(s)
    ensures TotalWords(s) == 0 <==> EmptySentences(s) == |s|
  {
    if |s| > 0 {
      WordsAndEmptySentences(s[..|s| - 1]);
    }
  }

  /** Two corpora whose sentences agree position by position in index and length have the same counts. */
  lemma {:induction false} CountsAgree(s: seq<Sentence>, t: seq<Sentence>)
    requires |s| == |t|
    requires forall j :: 0 <= j < |s| ==> IndexOf(s[j], j) == IndexOf(t[j], j)
    requires forall j :: 0 <= j < |s| ==> |s[j].words.tokens| == |t[j].words.tokens|
    ensures TotalWords(s) == TotalWords(t)
    ensures EmptySentences(s) == EmptySentences(t)
    ensures MaxIndex(s) == MaxIndex(t)
  {
    if |s| > 0 {
      var n := |s| - 1;
      CountsAgree(s[..n], t[..n]);
      PrefixStep(s, n);
      PrefixStep(t, n);
      assert s[..n + 1] == s && t[..n + 1] == t;
    }
  }

  /** Only the first sentence is type-checked: replacing any later sentence by one with the
      same index and length, whatever its container or token types, does not change the scan. */
  lemma OnlyFirstSentenceTypeChecked(s: seq<Sentence>, t: seq<Sentence>)
    requires |s| == |t| > 0
    requires s[0].words == t[0].words
    requires forall j :: 0 <= j < |s| ==> IndexOf(s[j], j) == IndexOf(t[j], j)
    requires forall j :: 0 <= j < |s| ==> |s[j].words.tokens| == |t[j].words.tokens|
    ensures Scan(s) == Scan(t)
  {
    CountsAgree(s, t);
  }

  /** A non-empty corpus of plain sentences whose first one is a list of str always passes the index check. */
  lemma PlainCorpusPasses(s: seq<Sentence>)
    requires |s| > 0 && IsListOfStr(s[0].words)
    requires forall j :: 0 <= j < |s| ==> s[j].Plain?
    ensures Scan(s).Ok?
  {
    ScanSucceedsIff(s);
  }

  /** The index check is an upper bound only: duplicate and negative indices pass it. */
  lemma DuplicateAndNegativeIndicesPass()
    ensures Scan([Indexed(1, Words(true, [])), Indexed(1, Words(true, [])), Indexed(-5, Words(true, []))]).Ok?
  {
    ScanSucceedsIff([Indexed(1, Words(true, [])), Indexed(1, Words(true, [])), Indexed(-5, Words(true, []))]);
  }

  /** [["a", "b"], ["c"]] scans to 2 sentences, 3 words, average length 1, no empty sentence. */
  lemma TwoSentenceScan()
    ensures Scan([Plain(Words(true, [StrToken("a"), StrToken("b")])), Plain(Words(true, [StrToken("c")]))])
         == Ok(ScanReport(2, 3, 1, 0))
  {
    var s := [Plain(Words(true, [StrToken("a"), StrToken("b")])), Plain(Words(true, [StrToken("c")]))];
    assert s[..0] == [] && s[..2] == s;
    PrefixStep(s, 0);
    PrefixStep(s, 1);
  }

  /** An empty sentence among three is counted, not rejected. */
  lemma EmptySentenceCounted()
    ensures Scan([Plain(Words(true, [StrToken("a")])), Plain(Words(true, [])), Plain(Words(true, [StrToken("b")]))])
         == Ok(ScanReport(3, 2, 0, 1))
  {
    var s := [Plain(Words(true, [StrToken("a")])), Plain(Words(true, [])), Plain(Words(true, [StrToken("b")]))];
    assert s[..0] == [] && s[..3] == s;
    PrefixStep(s, 0);
    PrefixStep(s, 1);
    PrefixStep(s, 2);
  }

  /** An indexed sentence with index 5 in a corpus of 3 sentences fails the index check. */
  lemma IndexBeyondCorpusFails()
    ensures Scan([Plain(Words(true, [])), Indexed(5, Words(true, [])), Plain(Words(true, []))])
         == Err(IndexTooLarge(5, 3))
  {
    var s := [Plain(Words(true, [])), Indexed(5, Words(true, [])), Plain(Words(true, []))];
    assert s[..0] == [] && s[..3] == s;
    PrefixStep(s, 0);
    PrefixStep(s, 1);
    PrefixStep(s, 2);
  }
}
