# fse sentence-embedding preparation pipeline, in Dafny

This project models the preparation pipeline of `BaseSentence2VecModel` in
`fse/models/base_s2v.py`, the step that runs before any sentence embedding is
computed:

- **Corpus scan** (`scan_sentences`). One pass over a corpus of plain token lists
  and `IndexedSentence`s. It counts sentences, tokens and empty sentences, and tracks
  the maximum index, starting from 0. It type-checks the first sentence only. It
  rejects the corpus when the maximum index reaches the sentence count, and reports
  the truncated average length.
- **Memory estimate** (`estimate_memory`). Float32 byte sizes of the word weights,
  the word vectors and the sentence vectors, a `Total` entry, and a warning, never an
  error, when the total reaches 95% of available memory.
- **Sentence-vector table** (`BaseSentence2VecPreparer`). `reset_vectors` makes
  `total_sentences` zero rows. `update_vectors` appends that many zero rows after the
  existing ones. Both clear `vectors_norm`.
- **Training orchestration** (`_check_input_data_sanity`, `train`). Validate, scan,
  estimate, prepare, run the training job, then return the scan's
  `(total_sentences, total_words)`.

Modules:
- `Results` (results.dfy): `Option`, `Result` and the raised errors.
- `Corpus` (corpus.dfy): sentences and the scan.
- `Memory` (memory.dfy): the report, kept as an insertion-ordered association list like a Python dict.
- `SentenceTable` (table.dfy): the table lifecycle.
- `Training` (training.dfy): validation and `train`.

The scan is written twice. `Corpus.Scan` is a functional reference. `Corpus.ScanSentences`
is the source's loop, proved equal to it. `train`'s training job `_do_train_job` is a
function parameter. The base class's job, `Training.BaseTrainJob`, always fails as not implemented.

Behaviour of `base_s2v.py` worth noting:
- Sentence indices are only bounded from above. Negative and duplicate indices pass the scan, so the index space is not dense.
- The average length is not guarded against an empty corpus. An empty corpus already fails the index check (0 >= 0), so the division is never reached.
- `train` returns only the scan's counts, not the job's effective counts.
- Only the first sentence is checked to be a list of str.
- An absent training job raises `NotImplementedError` (`Results.Error.NotImplemented`).
- `prepare_vectors` changes the table before the job runs, and the job writes into it in place. So a job that raises leaves the prepared table behind, with any rows it wrote before raising. The base class's job raises at once, so it leaves exactly the prepared table. Only validation and scan errors leave the model untouched.
- With `update`, the scan bounds indices by the new corpus's count n, while the new rows sit at [L, L + n) behind the L old rows. When L >= n, no index of a corpus that scans reaches an appended row, and an `IndexedSentence` with index L is rejected.
- Validation rejects generators only, so a one-shot iterator such as `iter(list)` or a `map` object is accepted. The scan uses it up, and the job's second pass sees no sentences.

## Model

| member | source | states |
|---|---|---|
| `Corpus.EmptySentences` | fse/models/base_s2v.py:243-244 | the number of token-less sentences never exceeds the number of sentences |
| `Corpus.MaxIndex` | fse/models/base_s2v.py:220-228 | the tracked maximum is at least 0 and at least every sentence's index: a plain sentence's position, an indexed sentence's own index |
| `Corpus.MaxIndexAttained` | fse/models/base_s2v.py:220 | the tracked maximum is 0, its starting value, or the index of some sentence |
| `Corpus.AverageLength` | fse/models/base_s2v.py:252 | the average length is the floor of words per sentence: `a * n <= words < (a + 1) * n` |
| `Corpus.ScanSentences` | fse/models/base_s2v.py:211-257 | the loop with its first-sentence type check, running counters and final index check returns exactly the reference scan's result |
| `Corpus.ScanSucceedsIff` | fse/models/base_s2v.py:230-233 | the scan succeeds if and only if the corpus is non-empty, its first sentence is a list of str, and every index is below the number of sentences |
| `Corpus.EmptyCorpusFails` | fse/models/base_s2v.py:249-252 | an empty corpus fails the index check with maximum 0 and count 0, before any division |
| `Corpus.ScanErrors` | fse/models/base_s2v.py:249-250 | the type error occurs exactly when the first sentence is not a list of str; any other failure is the index error carrying the maximum index and the count, with maximum >= count |
| `Corpus.ScanReportCounts` | fse/models/base_s2v.py:239-244 | a successful report holds the number of sentences (positive), the sum of token-list lengths, the number of empty sentences and their floor average |
| `Corpus.WordsAndEmptySentences` | fse/models/base_s2v.py:241-244 | total words are at least the number of non-empty sentences, and are 0 exactly when every sentence is empty |
| `Corpus.OnlyFirstSentenceTypeChecked` | fse/models/base_s2v.py:219 | changing any sentence after the first, keeping its index and length, leaves the scan's result unchanged whatever its container or token types |
| `Corpus.PlainCorpusPasses` | fse/models/base_s2v.py:226-227 | a non-empty corpus of plain sentences whose first sentence is a list of str always passes the index check |
| `Corpus.DuplicateAndNegativeIndicesPass` | fse/models/base_s2v.py:239 | a corpus with indices 1, 1 and -5 is accepted: the check is an upper bound only |
| `Corpus.TwoSentenceScan` | fse/models/base_s2v.py:240-241 | `[["a","b"],["c"]]` scans to 2 sentences, 3 words, average 1, no empty sentence |
| `Corpus.EmptySentenceCounted` | fse/models/base_s2v.py:243-247 | an empty sentence among three is counted, and the scan still succeeds |
| `Corpus.IndexBeyondCorpusFails` | fse/models/base_s2v.py:249-250 | an indexed sentence with index 5 in a corpus of 3 fails with maximum index 5 and count 3 |
| `Memory.Components` | fse/models/base_s2v.py:282-284 | the report maps "Word Weights" to vocab×4, "Word Vectors" to vocab×dim×4, "Sentence Vectors" to n×dim×4, and keeps every other key of the given report |
| `Memory.EstimateMemory` | fse/models/base_s2v.py:259-294 | as written: the three sizes, a "Total" equal to the other entries plus any "Total" the caller's report held, the caller's other keys kept, and a warning flag equal to Total >= 95% of available memory, never an error |
| `Memory.EstimateMemoryCorrected` | fse/models/base_s2v.py:285 | the same report with "Total" always equal to the sum of the other entries |
| `Memory.FreshReport` | fse/models/base_s2v.py:281-285 | from an empty report both the estimator as written and the corrected one give exactly Word Weights, Word Vectors, Sentence Vectors, Total in that order, with Total their sum |
| `Memory.PriorTotalCountedTwice` | fse/models/base_s2v.py:285 | a caller's report holding "Total": 7, with nothing else to count, yields Total 7 while the other entries sum to 0 |
| `Memory.EstimatesAgreeWithoutPriorTotal` | fse/models/base_s2v.py:281 | when the caller's report has no "Total", as in `train`, the estimator as written and the corrected one give the same estimate |
| `SentenceTable.ResetVectors` | fse/models/base_s2v.py:364-376 | the table becomes exactly `total_sentences` rows, each a zero vector of the table's width, the cache is cleared, and the width and file path are kept |
| `SentenceTable.UpdateVectors` | fse/models/base_s2v.py:378-393 | the table grows from L to L + `total_sentences` rows, rows [0, L) are unchanged, the new rows are zero, uniform width is preserved, and the cache is cleared |
| `SentenceTable.PrepareVectors` | fse/models/base_s2v.py:357-362 | without `update` the table is `total_sentences` zero rows; with `update` the old rows are kept in front of `total_sentences` zero rows; the cache is cleared either way |
| `SentenceTable.ResetThenUpdate` | fse/models/base_s2v.py:374-375 | a reset to n rows followed by an update by m rows gives n + m rows, all zero, of uniform width, with no cache |
| `SentenceTable.UpdatesCompose` | fse/models/base_s2v.py:389-392 | two successive updates by a and b give the same table as one update by a + b |
| `SentenceTable.FreshPreparationForgetsRows` | fse/models/base_s2v.py:359-376 | without `update` the prepared table depends only on the width and file path, never on the rows or cache held before |
| `SentenceTable.FreshFourByTen` | fse/models/base_s2v.py:372-376 | a fresh preparation of 4 rows of width 10 is a 4×10 table of zeros with no cache |
| `Training.CheckInputDataSanity` | fse/models/base_s2v.py:168-177 | the input is accepted if and only if it is an object with `__iter__` that is not None, a str or a generator; each rejected kind gets its own error |
| `Training.BaseTrainJob` | fse/models/base_s2v.py:345-348 | the base class's training job always fails as not implemented and, raising at once, leaves the table as it was handed |
| `Training.Train` | fse/models/base_s2v.py:297-319 | validation and scan errors return that error with the model unchanged; once the input passes, the model holds the table the job leaves after running on the prepared table and a second pass over the input (empty for a one-shot iterator), whether it succeeds or raises; a raised error is returned; the RAM flag compares vocab×4 + vocab×dim×4 + n×dim×4 bytes with 95% of available memory; on success the returned counts are the corpus's sentence and word counts; the word-vector sizes never change |
| `Training.TrainSucceedsIff` | fse/models/base_s2v.py:299-309 | training succeeds if and only if validation passes, the scan succeeds, and the job succeeds on the table prepared for the corpus's sentence count and the second pass over the input |
| `Training.MemoryIsAdvisory` | fse/models/base_s2v.py:292-293 | the resulting model and outcome do not depend on the available memory |
| `Training.BaseJobFailsAfterPreparing` | fse/models/base_s2v.py:302 | with the base class's job a scannable corpus fails as not implemented, leaving the prepared table in the model |
| `Training.PartialWritesSurvive` | fse/models/base_s2v.py:302-309 | a job that raises after writing into the table leaves its written table in the model and its error as the result |
| `Training.EffectiveCountsIgnored` | fse/models/base_s2v.py:319 | two jobs that agree on success, error and the table they leave give the same result, whatever effective counts they report |
| `Training.OneShotIteratorStarvesJob` | fse/models/base_s2v.py:297-309 | for a one-shot iterator the result depends on the job only through what it does with an empty corpus |
| `Training.UpdateIndicesMissNewRows` | fse/models/base_s2v.py:249-250 | when an `update` retrain appends n rows behind L >= n old ones, every index of a corpus that scans is below L, so none addresses an appended row |
| `Training.FirstNewRowIndexRejected` | fse/models/base_s2v.py:249-250 | a one-sentence corpus whose sentence is indexed 2, the row an update would append to a two-row table, is rejected with maximum 2 and count 1 |
| `Training.InvalidInputsRejected` | fse/models/base_s2v.py:170-177 | None, a str, a generator and an object without `__iter__` are each rejected with their own error, leaving the model unchanged |
| `Training.RetrainingGrowsTable` | fse/models/base_s2v.py:361-362 | a successful retraining with `update`, by a job that keeps the prepared table, leaves the old rows in front of one zero row per new sentence |

## Findings

| source | as written | input that shows it | evidently intended | confidence | as-written member | corrected member |
|---|---|---|---|---|---|---|
| fse/models/base_s2v.py:281-285 | `report["Total"] = sum(report.values())` runs while a "Total" from the caller's report is still in the dict, so that old Total is added into the new one | `estimate_memory(0, report={"Total": 7})` with an empty vocabulary: Total is 7 while the component entries sum to 0 | "Total" is the sum of the other entries | low, not executed | `Memory.PriorTotalCountedTwice` | `Memory.EstimateMemoryCorrected` |

The error never shows in training: `train` calls `estimate_memory` without a report, and `Memory.EstimatesAgreeWithoutPriorTotal` shows that the estimator as written and the corrected one agree on such a call.

## Left out

- Logging, the wall-clock progress message and the "found empty sentences" warning: side effects that depend on time. `Memory.EstimateMemory` keeps only the RAM warning, as a flag. The MB/GB figures it logs are left out.
- `psutil.virtual_memory()`: the available memory is a parameter.
- Memory.EstimateMemory: compares `100 * Total >= 95 * available` exactly. The source compares against the float `0.95 * available`, which can round differently for very large memory sizes.
- Corpus.AverageLength: exact floor division. The source computes `int(total_words / total_sentences)` in floating point, which gives the same value while `total_words` is below 2^53.
- File-backed tables (`np_memmap`): the `<mapfile_path>.vectors` file, its creation, reopening and flushing are file I/O. They are given the same row semantics as the in-memory branch: fresh zero rows, or old rows followed by zero rows.
- Table entries are mathematical reals, not float32. Only zeros are ever written by this core.
- `vstack` failing on rows of a different width: the table is assumed rectangular. `SentenceTable.UpdateVectors` preserves uniform width when it is already there.
- A later sentence without `len()`, and an `IndexedSentence` index that is not an int: every sentence is modelled as a sized container with an integer index.
- `SentenceVectors` (fse/models/sentencevectors.py) and `IndexedSentence` (fse/models/inputs.py) are modelled only through the fields this core uses (`SentenceTable.SentenceVectors`, `Corpus.Sentence.Indexed`). Their constructors and the table's state before its first preparation are not modelled.
- `_check_and_include_model`, the `__init__` warnings and the FastText `NotImplementedError` guards: runtime type checks against gensim classes.
- `_check_language_settings` and `_induce_frequencies`: they depend on the external wordfreq lists and on float multiplication.
- `save` and `load`: generic pickling persistence.
- `infer`, `_pre_train_calls`, `_post_train_calls`, `_check_training_sanity`, `_check_parameter_sanity`, `_log_progress`, `_log_train_end`, `__str__` and `_check_dtypes`: they only raise `NotImplementedError` and `train` does not call them. `_do_train_job` is modelled as the job parameter.
- Worker threads: the training job is one function call.
- Memory.EstimateMemory: returns a new report. The source writes into a non-empty caller `report` and returns that same object, so that caller sees its dict changed; an empty or absent report is replaced by a new dict (line 281) and the caller's is left alone. `train` passes no report, so nothing observes the aliasing there.
