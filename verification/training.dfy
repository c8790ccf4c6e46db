/** `BaseSentence2VecModel.train` and the input validation before it: validate the input,
    scan it, estimate memory (advisory only), prepare the table, then hand the corpus to the
    training job and return the scan's counts. */
module Training {
  import opened Results
  import opened Corpus
  import opened SentenceTable
  import Memory

  /** What `train` may be handed, as the validation tells objects apart: None, a str,
      a generator, or any other object, which may or may not provide `__iter__`. An object
      that is not `reiterable`, such as `iter(list)` or a `map` object, yields its sentences
      on the first pass only. */
  datatype Input =
    | NoneInput
    | StrInput(text: string)
    | GeneratorInput
    | ObjectInput(hasIter: bool, reiterable: bool, sentences: seq<Sentence>)

  /** The state `train` reads and writes: the size of the word-vector vocabulary, the word
      vectors' dimension, and the sentence vectors. */
  datatype Model = Model(vocabSize: nat, vectorSize: nat, sv: SentenceVectors)

  /** What a training job leaves behind: the table as it stands when the job returns or raises,
      which keeps the rows the job wrote before raising, and its effective sentence and word
      counts or the error it raised. */
  datatype JobOutcome = JobOutcome(sv: SentenceVectors, counts: Result<(nat, nat)>)

  /** `_do_train_job`: a strategy that writes into the prepared table from the corpus it is handed. */
  type TrainJob = (seq<Sentence>, SentenceVectors) -> JobOutcome

  /** What a call of `train` leaves behind: the model, whether the memory estimate warned,
      and the `(total_sentences, total_words)` it returns or the error it raises. */
  datatype TrainResult = TrainResult(model: Model, ramWarning: bool, counts: Result<(nat, nat)>)

  /** The sentences a second pass over an accepted input yields: all of them again, or none
      once the scan has used up a one-shot iterator. */
  function SecondPass(data: Input): seq<Sentence>
    requires data.ObjectInput?
  {
    if data.reiterable then data.sentences else []
  }

  /** `_check_input_data_sanity`: only an iterable object other than a str or a generator
      passes; each rejected kind raises its own error, in the source's order. */
  function CheckInputDataSanity(data: Input): (r: Result<seq<Sentence>>)
    ensures r.Ok? <==> data.ObjectInput? && data.hasIter
    ensures r.Ok? ==> r.value == data.sentences
    ensures data.NoneInput? ==> r == Err(MissingData)
    ensures data.StrInput? ==> r == Err(StringData)
    ensures data.GeneratorInput? ==> r == Err(GeneratorData)
    ensures data.ObjectInput? && !data.hasIter ==> r == Err(NotIterable)
  {
    match data
    case NoneInput => Err(MissingData)
    case StrInput(_) => Err(StringData)
    case GeneratorInput => Err(GeneratorData)
    case ObjectInput(hasIter, _, sentences) => if !hasIter then Err(NotIterable) else Ok(sentences)
  }

  /** The base class's `_do_train_job`, which raises at once and so writes nothing. */
  function BaseTrainJob(sentences: seq<Sentence>, sv: SentenceVectors): (r: JobOutcome)
    ensures r.counts == Err(NotImplemented)
    ensures r.sv == sv
  {
    JobOutcome(sv, Err(NotImplemented))
  }

  /** `train`. Validation and scan errors leave the model as it was. Once the input passes,
      the memory estimate is taken over an empty report, the table is prepared, and the job
      runs on the table prepared and on what a second pass over the input yields; the model
      keeps the table the job leaves, whether the job succeeds or raises. On success the
      returned counts are the scan's, not the job's effective counts. */
  function Train(m: Model, data: Input, update: bool, availableMemory: nat, doTrainJob: TrainJob): (r: TrainResult)
    ensures CheckInputDataSanity(data).Err? ==> r == TrainResult(m, false, Err(CheckInputDataSanity(data).error))
    ensures CheckInputDataSanity(data).Ok? && Scan(data.sentences).Err? ==>
              r == TrainResult(m, false, Err(Scan(data.sentences).error))
    ensures CheckInputDataSanity(data).Ok? && Scan(data.sentences).Ok? ==>
              var job := doTrainJob(SecondPass(data), PrepareVectors(m.sv, |data.sentences|, update));
              && r.model == m.(sv := job.sv)
              && (r.counts.Ok? <==> job.counts.Ok?)
              && (job.counts.Err? ==> r.counts == Err(job.counts.error))
    ensures CheckInputDataSanity(data).Ok? && Scan(data.sentences).Ok? ==>
              var n := |data.sentences|;
              r.ramWarning == Memory.ExceedsRam((m.vocabSize + m.vocabSize * m.vectorSize + n * m.vectorSize) * Memory.REAL_SIZE,
                                                availableMemory)
    ensures r.counts.Ok? ==> r.counts.value == (|data.sentences|, TotalWords(data.sentences))
    ensures r.model.vocabSize == m.vocabSize && r.model.vectorSize == m.vectorSize
  {
    match CheckInputDataSanity(data)
    case Err(e) => TrainResult(m, false, Err(e))
    case Ok(sentences) =>
      match Scan(sentences)
      case Err(e) => TrainResult(m, false, Err(e))
      case Ok(report) =>
        Memory.FreshReport(m.vocabSize, m.vectorSize, report.totalSentences, availableMemory);
        var estimate := Memory.EstimateMemory(m.vocabSize, m.vectorSize, report.totalSentences, [], availableMemory);
        var prepared := PrepareVectors(m.sv, report.totalSentences, update);
        var job := doTrainJob(SecondPass(data), prepared);
        match job.counts
        case Err(e) => TrainResult(m.(sv := job.sv), estimate.ramWarning, Err(e))
        case Ok(_) => TrainResult(m.(sv := job.sv), estimate.ramWarning, Ok((report.totalSentences, report.totalWords)))
  }

  /** Training succeeds exactly when the input is a valid corpus that scans and the job succeeds. */
  lemma TrainSucceedsIff(m: Model, data: Input, update: bool, availableMemory: nat, doTrainJob: TrainJob)
    ensures Train(m, data, update, availableMemory, doTrainJob).counts.Ok? <==>
              && data.ObjectInput? && data.hasIter
              && Scan(data.sentences).Ok?
              && doTrainJob(SecondPass(data), PrepareVectors(m.sv, |data.sentences|, update)).counts.Ok?
  {
  }

  /** The memory estimate only warns: the model and the outcome do not depend on the memory available. */
  lemma MemoryIsAdvisory(m: Model, data: Input, update: bool, a1: nat, a2: nat, doTrainJob: TrainJob)
    ensures Train(m, data, update, a1, doTrainJob).model == Train(m, data, update, a2, doTrainJob).model
    ensures Train(m, data, update, a1, doTrainJob).counts == Train(m, data, update, a2, doTrainJob).counts
  {
  }

  /** The job handed a corpus always sees the table prepared for it: with the base class's job
      training fails as not implemented, after the table has already been prepared. */
  lemma BaseJobFailsAfterPreparing(m: Model, sentences: seq<Sentence>, reiterable: bool, update: bool, availableMemory: nat)
    requires Scan(sentences).Ok?
    ensures var r := Train(m, ObjectInput(true, reiterable, sentences), update, availableMemory, BaseTrainJob);
            && r.counts == Err(NotImplemented)
            && r.model.sv == PrepareVectors(m.sv, |sentences|, update)
  {
  }

  /** A job that raises part-way keeps the rows it wrote before raising in the model. */
  lemma PartialWritesSurvive(m: Model, sentences: seq<Sentence>, update: bool, availableMemory: nat,
                             written: SentenceVectors, e: Error)
    requires Scan(sentences).Ok?
    ensures var job: TrainJob := (s, sv) => JobOutcome(written, Err(e));
            var r := Train(m, ObjectInput(true, true, sentences), update, availableMemory, job);
            r.model.sv == written && r.counts == Err(e)
  {
  }

  /** The counts `train` returns are the scan's whatever effective counts the job reports:
      two jobs that leave the same table and agree on success and on the error give the same result. */
  lemma EffectiveCountsIgnored(m: Model, data: Input, update: bool, availableMemory: nat, job1: TrainJob, job2: TrainJob)
    requires forall s, sv :: job1(s, sv).sv == job2(s, sv).sv
    requires forall s, sv :: job1(s, sv).counts.Ok? == job2(s, sv).counts.Ok?
    requires forall s, sv :: job1(s, sv).counts.Err? ==> job1(s, sv).counts.error == job2(s, sv).counts.error
    ensures Train(m, data, update, availableMemory, job1) == Train(m, data, update, availableMemory, job2)
  {
  }

  /** A one-shot iterator passes validation and is used up by the scan, so the job is handed no
      sentences: the result depends on the job only through what it does with an empty corpus,
      while the returned counts are still the scan's. */
  lemma OneShotIteratorStarvesJob(m: Model, sentences: seq<Sentence>, update: bool, availableMemory: nat,
                                  job1: TrainJob, job2: TrainJob)
    requires forall sv :: job1([], sv) == job2([], sv)
    ensures Train(m, ObjectInput(true, false, sentences), update, availableMemory, job1)
         == Train(m, ObjectInput(true, false, sentences), update, availableMemory, job2)
  {
  }

  /** A str, a generator, None, or an object without `__iter__` is rejected before anything else. */
  lemma InvalidInputsRejected(m: Model, update: bool, availableMemory: nat, doTrainJob: TrainJob, text: string,
                              reiterable: bool, s: seq<Sentence>)
    ensures Train(m, NoneInput, update, availableMemory, doTrainJob) == TrainResult(m, false, Err(MissingData))
    ensures Train(m, StrInput(text), update, availableMemory, doTrainJob) == TrainResult(m, false, Err(StringData))
    ensures Train(m, GeneratorInput, update, availableMemory, doTrainJob) == TrainResult(m, false, Err(GeneratorData))
    ensures Train(m, ObjectInput(false, reiterable, s), update, availableMemory, doTrainJob) == TrainResult(m, false, Err(NotIterable))
  {
  }

  /** A retraining call with `update` that succeeds with a job that keeps the prepared table
      leaves the old rows in front of as many zero rows as the new corpus has sentences. */
  lemma RetrainingGrowsTable(m: Model, sentences: seq<Sentence>, reiterable: bool, availableMemory: nat, doTrainJob: TrainJob)
    requires Scan(sentences).Ok?
    requires forall s, sv :: doTrainJob(s, sv).counts.Ok? && doTrainJob(s, sv).sv == sv
    ensures var r := Train(m, ObjectInput(true, reiterable, sentences), true, availableMemory, doTrainJob);
            && r.counts.Ok?
            && |r.model.sv.vectors| == |m.sv.vectors| + |sentences|
            && r.model.sv.vectors[..|m.sv.vectors|] == m.sv.vectors
            && ZeroFrom(r.model.sv, |m.sv.vectors|)
  {
  }

  /** With `update` the scan bounds every index by the new corpus's size n, while the new rows
      sit behind the L old ones: when L >= n, every index of a corpus that scans addresses an
      old row, never one of the rows appended for it. */
  lemma UpdateIndicesMissNewRows(sv: SentenceVectors, s: seq<Sentence>)
    requires Scan(s).Ok?
    requires |sv.vectors| >= |s|
    ensures forall j :: 0 <= j < |s| ==> IndexOf(s[j], j) < |sv.vectors|
    ensures |PrepareVectors(sv, |s|, true).vectors| == |sv.vectors| + |s|
  {
    ScanSucceedsIff(s);
  }

  /** A one-sentence corpus appended to a table of two rows gets row 2, yet the sentence
      indexed 2 that would address it is rejected. */
  lemma FirstNewRowIndexRejected()
    ensures Scan([Indexed(2, Words(true, []))]) == Err(IndexTooLarge(2, 1))
  {
    var s := [Indexed(2, Words(true, []))];
    assert s[..0] == [] && s[..1] == s;
    PrefixStep(s, 0);
  }
}
