/** The analyzer object (app.js:6-46 and its state-changing methods): the matches and
    their signature memory, the processed-file log, the analysis cache and its in-progress
    flag, the archive, and the learning model. Its invariant ties the memory to the stored
    matches, keeps their signatures distinct, and keeps the weights positive and summing
    to one. */
module BettingAnalyzer {
  import opened Common
  import opened Types
  import opened Ingest
  import opened Signature
  import opened Dedup
  import opened MatchFactors
  import opened Forecast
  import opened Analysis
  import opened Archive
  import opened Learning

  /** One entry of `processedFiles`. */
  datatype FileRecord = FileRecord(name: string, size: nat, totalMatches: nat, newMatches: nat, duplicates: nat)

  /** How `handleFileUpload` ends: nothing given, no Excel file among them, every file
      read (with the totals the toast reports), or stopped at the file with the given
      index among the Excel files because it could not be read. */
  datatype UploadOutcome = NoFiles | NoExcelFiles | Uploaded(newMatches: nat, duplicates: nat) | Aborted(processed: nat)

  /** How `startRealAnalysis` ends: a run already in progress, no match on the date, an
      analysis that threw, or the results handed to the completion timer. */
  datatype AnalysisOutcome = Busy | NoMatches | Failed | Scheduled(found: nat)

  /** An archive file as `JSON.parse` returns it. */
  datatype ArchiveFile = ArchiveFile(archive: Option<seq<ArchiveEntry>>, learningModel: Option<ImportedModel>)

  /** `analyzeMatchWithAI` with a learning model's patterns and weights. */
  function AnalyzeWith(lm: LearningModel): Match -> Result<Prediction, AnalysisError> {
    m => Analyze(m, lm.successPatterns, lm.weights)
  }

  /** `extractMatchesFromExcel` on a readable upload: the matches of its first sheet. */
  function ReadSheet(isoDate: Cell -> Option<string>, parseFloat: string -> Option<real>): Upload -> seq<Match> {
    (u: Upload) => SheetMatches(u.sheet.GetOr([]), u.name, isoDate, parseFloat)
  }

  /** The matches of a sequence of uploads, file after file, as `read` extracts them. */
  function Batch(files: seq<Upload>, read: Upload -> seq<Match>): seq<Match> {
    if files == [] then []
    else Batch(files[..|files| - 1], read) + read(files[|files| - 1])
  }

  /** The batch of the first `k + 1` uploads extends the batch of the first `k` by the
      matches of upload `k`. */
  lemma BatchPush(xs: seq<Upload>, k: nat, read: Upload -> seq<Match>)
    requires k < |xs|
    ensures Batch(xs[..k + 1], read) == Batch(xs[..k], read) + read(xs[k])
  {
    assert xs[..k + 1][..k] == xs[..k];
  }

  /** The record the upload appends for upload `j`: its name and size, its match count,
      the matches the dedup loop admits against the memory left by the uploads before it,
      and the rest as duplicates. */
  function RecordOf(key: Match -> string, read: Upload -> seq<Match>, xs: seq<Upload>, j: nat,
                    memory0: set<string>): (r: FileRecord)
    requires j < |xs|
    ensures r.name == xs[j].name && r.size == xs[j].size && r.totalMatches == |read(xs[j])|
    ensures CountsAddUp(r)
  {
    var matches := read(xs[j]);
    var memory := memory0 + Signatures(key, Batch(xs[..j], read));
    AdmitLength(key, memory, matches);
    var added := |Admit(key, memory, matches)|;
    FileRecord(xs[j].name, xs[j].size, |matches|, added, |matches| - added)
  }

  /** What the upload loop has done after the first `k` uploads: each was readable, their
      matches went through the dedup loop, and one record per file was appended, in file
      order, each describing its own file. */
  predicate Uploading(key: Match -> string, read: Upload -> seq<Match>, xs: seq<Upload>, k: nat,
                      stored0: seq<Match>, memory0: set<string>, records0: seq<FileRecord>,
                      stored: seq<Match>, memory: set<string>, records: seq<FileRecord>)
  {
    && k <= |xs|
    && (forall j :: 0 <= j < k ==> xs[j].sheet.Some?)
    && Stored(key, memory0, stored0, stored, memory, Batch(xs[..k], read))
    && |records| == |records0| + k
    && records[..|records0|] == records0
    && (forall j :: 0 <= j < k ==> records[|records0| + j] == RecordOf(key, read, xs, j, memory0))
  }

  /** The totals the upload reports after the first `k` uploads: the matches stored, and
      the rest of the batch counted as duplicates. */
  predicate Totals(key: Match -> string, read: Upload -> seq<Match>, xs: seq<Upload>, k: nat, memory0: set<string>,
                   totalNew: nat, duplicates: nat)
    requires k <= |xs|
  {
    && totalNew == |Admit(key, memory0, Batch(xs[..k], read))|
    && totalNew + duplicates == |Batch(xs[..k], read)|
  }

  /** The upload loop's step over a readable upload: storing its matches and appending
      its record continues the bookkeeping, and the totals grow by that file's counts. */
  lemma UploadNext(key: Match -> string, read: Upload -> seq<Match>, xs: seq<Upload>, k: nat,
                   stored0: seq<Match>, memory0: set<string>, records0: seq<FileRecord>,
                   stored: seq<Match>, memory: set<string>, records: seq<FileRecord>,
                   stored1: seq<Match>, memory1: set<string>, record: FileRecord)
    requires k < |xs| && xs[k].sheet.Some?
    requires Uploading(key, read, xs, k, stored0, memory0, records0, stored, memory, records)
    requires Stored(key, memory, stored, stored1, memory1, read(xs[k]))
    requires record == RecordOf(key, read, xs, k, memory0)
    ensures Uploading(key, read, xs, k + 1, stored0, memory0, records0, stored1, memory1, records + [record])
    ensures |Admit(key, memory0, Batch(xs[..k + 1], read))|
         == |Admit(key, memory0, Batch(xs[..k], read))| + |Admit(key, memory, read(xs[k]))|
    ensures |Batch(xs[..k + 1], read)| == |Batch(xs[..k], read)| + |read(xs[k])|
  {
    BatchPush(xs, k, read);
    UploadStep(key, stored0, memory0, Batch(xs[..k], read), read(xs[k]), stored, memory, stored1, memory1);
    RecordPush(key, read, xs, k, memory0, records0, records, record);
  }

  /** Storing one more file's matches continues the dedup bookkeeping of the upload so far. */
  lemma UploadStep(key: Match -> string, stored0: seq<Match>, memory0: set<string>, before: seq<Match>,
                   matches: seq<Match>, stored: seq<Match>, memory: set<string>,
                   stored1: seq<Match>, memory1: set<string>)
    requires Stored(key, memory0, stored0, stored, memory, before)
    requires Stored(key, memory, stored, stored1, memory1, matches)
    ensures Stored(key, memory0, stored0, stored1, memory1, before + matches)
    ensures |Admit(key, memory0, before + matches)| == |Admit(key, memory0, before)| + |Admit(key, memory, matches)|
  {
    AdmitConcat(key, memory0, before, matches);
    SignaturesConcat(key, before, matches);
  }

  /** Appending the record of upload `k` keeps the log's earlier part and extends the
      records of the uploads so far by one. */
  lemma RecordPush(key: Match -> string, read: Upload -> seq<Match>, xs: seq<Upload>, k: nat,
                   memory0: set<string>, records0: seq<FileRecord>, records: seq<FileRecord>, record: FileRecord)
    requires k < |xs|
    requires |records| == |records0| + k && records[..|records0|] == records0
    requires forall j :: 0 <= j < k ==> records[|records0| + j] == RecordOf(key, read, xs, j, memory0)
    requires record == RecordOf(key, read, xs, k, memory0)
    ensures (records + [record])[..|records0|] == records0
    ensures forall j :: 0 <= j < k + 1 ==> (records + [record])[|records0| + j] == RecordOf(key, read, xs, j, memory0)
  {
    assert (records + [record])[..|records0|] == records[..|records0|];
  }

  /** The loop of `handleFileUpload` over the Excel uploads: each one is read and its
      matches stored through the dedup loop; the first one that cannot be read stops the
      loop, reported by its index, and what the earlier ones stored stays. */
  method UploadFiles(key: Match -> string, read: Upload -> seq<Match>, xs: seq<Upload>,
                     stored0: seq<Match>, memory0: set<string>, records0: seq<FileRecord>)
    returns (stored: seq<Match>, memory: set<string>, records: seq<FileRecord>, totalNew: nat,
             duplicates: nat, stopped: Option<nat>)
    requires memory0 == Signatures(key, stored0) && DistinctSignatures(key, stored0)
    ensures memory == Signatures(key, stored) && DistinctSignatures(key, stored)
    ensures stopped.None? ==>
      && Uploading(key, read, xs, |xs|, stored0, memory0, records0, stored, memory, records)
      && Totals(key, read, xs, |xs|, memory0, totalNew, duplicates)
    ensures stopped.Some? ==>
      && stopped.value < |xs| && xs[stopped.value].sheet.None?
      && Uploading(key, read, xs, stopped.value, stored0, memory0, records0, stored, memory, records)
  {
    stored, memory, records := stored0, memory0, records0;
    totalNew, duplicates := 0, 0;
    var k := 0;
    while k < |xs|
      invariant Uploading(key, read, xs, k, stored0, memory0, records0, stored, memory, records)
      invariant Totals(key, read, xs, k, memory0, totalNew, duplicates)
    {
      var f := xs[k];
      if f.sheet.None? {
        return stored, memory, records, totalNew, duplicates, Some(k);
      }
      var matches := read(f);
      var stored1, memory1, added := StoreAll(key, stored, memory, matches);
      var record := FileRecord(f.name, f.size, |matches|, added, |matches| - added);
      assert record == RecordOf(key, read, xs, k, memory0);
      UploadNext(key, read, xs, k, stored0, memory0, records0, stored, memory, records, stored1, memory1, record);
      stored, memory := stored1, memory1;
      records := records + [record];
      totalNew := totalNew + added;
      duplicates := duplicates + (|matches| - added);
      k := k + 1;
    }
    stopped := None;
  }

  predicate CountsAddUp(f: FileRecord) {
    f.newMatches + f.duplicates == f.totalMatches
  }

  class Analyzer {
    var allMatches: seq<Match>
    var processedFiles: seq<FileRecord>
    var predictions: seq<Prediction>
    var archive: seq<ArchiveEntry>
    var analysisInProgress: bool
    var model: LearningModel
    var matchMemory: set<string>
    var analysisCache: map<string, Prediction>
    /** The results a finished run hands to its completion timer. */
    var scheduled: Option<seq<Prediction>>
    /** `generateMatchSignature`: the key of the signature memory and of the analysis cache. */
    const sign: Match -> string

    /** The memory holds exactly the signatures of the stored matches, which are distinct. */
    ghost predicate MemoryValid()
      reads this`allMatches, this`matchMemory
    {
      && matchMemory == Signatures(sign, allMatches)
      && DistinctSignatures(sign, allMatches)
    }

    /** The flag is set exactly while a run's results wait for the completion timer. Only
        the run and its timer change these two fields, so only they state it. */
    ghost predicate FlagValid()
      reads this`analysisInProgress, this`scheduled
    {
      analysisInProgress <==> scheduled.Some?
    }

    /** The signature memory agrees with the stored matches, and the weights stay positive
        and sum to one. */
    ghost predicate Valid()
      reads this
    {
      MemoryValid() && Normalised(model.weights)
    }

    constructor()
      ensures Valid() && FlagValid()
      ensures sign == MatchSignature
      ensures allMatches == [] && processedFiles == [] && predictions == [] && archive == []
      ensures !analysisInProgress && model == InitialModel
      ensures matchMemory == {} && analysisCache == map[]
    {
      allMatches := [];
      processedFiles := [];
      predictions := [];
      archive := [];
      analysisInProgress := false;
      model := InitialModel;
      matchMemory := {};
      analysisCache := map[];
      scheduled := None;
      sign := MatchSignature;
    }

    /** `handleFileUpload(files)`: the Excel files are read one after the other and their
        matches stored through the dedup loop; a file that cannot be read stops the upload,
        and what the earlier files stored stays. The loop runs on the stored matches, the
        memory and the file log and writes them back. */
    method HandleFileUpload(files: seq<Upload>, isoDate: Cell -> Option<string>, parseFloat: string -> Option<real>)
      returns (outcome: UploadOutcome)
      requires Valid()
      modifies this`allMatches, this`matchMemory, this`processedFiles
      ensures Valid()
      ensures files == [] ==> outcome == NoFiles
      ensures files != [] && ExcelUploads(files) == [] ==> outcome == NoExcelFiles
      ensures outcome == NoFiles || outcome == NoExcelFiles ==>
        allMatches == old(allMatches) && matchMemory == old(matchMemory) && processedFiles == old(processedFiles)
      ensures outcome.Uploaded? ==>
        var xs := ExcelUploads(files);
        && xs != []
        && Uploading(sign, ReadSheet(isoDate, parseFloat), xs, |xs|, old(allMatches), old(matchMemory),
                     old(processedFiles), allMatches, matchMemory, processedFiles)
        && Totals(sign, ReadSheet(isoDate, parseFloat), xs, |xs|, old(matchMemory),
                  outcome.newMatches, outcome.duplicates)
      ensures outcome.Aborted? ==>
        var xs := ExcelUploads(files);
        var k := outcome.processed;
        && k < |xs| && xs[k].sheet.None?
        && Uploading(sign, ReadSheet(isoDate, parseFloat), xs, k, old(allMatches), old(matchMemory),
                     old(processedFiles), allMatches, matchMemory, processedFiles)
    {
      if files == [] {
        return NoFiles;
      }
      var xs := ExcelUploads(files);
      if xs == [] {
        return NoExcelFiles;
      }
      var totalNew, duplicates, stopped;
      allMatches, matchMemory, processedFiles, totalNew, duplicates, stopped :=
        UploadFiles(sign, ReadSheet(isoDate, parseFloat), xs, allMatches, matchMemory, processedFiles);
      if stopped.Some? {
        return Aborted(stopped.value);
      }
      outcome := Uploaded(totalNew, duplicates);
    }

    /** `startRealAnalysis(selectedDate, minConfidence)` up to the completion timer: a run
        while another is in progress does nothing; otherwise the matches of the date are
        analysed through the cache and the ones at or above the threshold are handed to
        the timer, or the flag is reset when an analysis throws. */
    method StartRealAnalysis(date: string, minConfidence: int) returns (outcome: AnalysisOutcome)
      requires Valid() && FlagValid()
      modifies this`analysisInProgress, this`analysisCache, this`scheduled
      ensures Valid() && FlagValid()
      ensures old(analysisInProgress) ==>
        outcome == Busy && analysisCache == old(analysisCache) && scheduled == old(scheduled)
      ensures !old(analysisInProgress) && MatchesOn(allMatches, date) == [] ==>
        outcome == NoMatches && analysisCache == old(analysisCache) && !analysisInProgress
      ensures !old(analysisInProgress) && MatchesOn(allMatches, date) != [] ==>
        var st := Run(old(analysisCache), MatchesOn(allMatches, date), AnalyzeWith(model), sign, minConfidence);
        && analysisCache == st.cache
        && (st.failed ==> outcome == Failed && !analysisInProgress)
        && (!st.failed ==> outcome == Scheduled(|st.results|) && scheduled == Some(st.results))
    {
      if analysisInProgress {
        return Busy;
      }
      var ms := MatchesOn(allMatches, date);
      if ms == [] {
        return NoMatches;
      }
      analysisInProgress := true;
      var results, failed;
      analysisCache, results, failed := RunMatches(analysisCache, ms, AnalyzeWith(model), sign, minConfidence);
      if failed {
        analysisInProgress := false;
        return Failed;
      }
      scheduled := Some(results);
      outcome := Scheduled(|results|);
    }

    /** The completion timer of `startRealAnalysis`: the flag is reset and, when the run
        found anything, its predictions replace the shown ones and go to the archive. */
    method CompleteAnalysis(freshId: nat -> string)
      requires Valid() && FlagValid()
      modifies this`analysisInProgress, this`scheduled, this`predictions, this`archive
      ensures Valid() && FlagValid()
      ensures old(scheduled).None? ==>
        analysisInProgress == old(analysisInProgress) && predictions == old(predictions) && archive == old(archive)
      ensures old(scheduled).Some? ==>
        var results := old(scheduled).value;
        && !analysisInProgress && scheduled.None?
        && (results != [] ==>
              predictions == results && archive == old(archive) + NewEntries(results, freshId, |old(archive)|))
        && (results == [] ==> predictions == old(predictions) && archive == old(archive))
    {
      if scheduled.None? {
        return;
      }
      var results := scheduled.value;
      analysisInProgress := false;
      scheduled := None;
      if results != [] {
        predictions := results;
        AddPredictionsToArchive(results, freshId);
      }
    }

    /** `addPredictionsToArchive(predictions)`: each prediction is appended as a pending
        entry under the id `freshId` gives for its position. */
    method AddPredictionsToArchive(ps: seq<Prediction>, freshId: nat -> string)
      modifies this`archive
      ensures archive == old(archive) + NewEntries(ps, freshId, |old(archive)|)
    {
      var k := 0;
      while k < |ps|
        invariant 0 <= k <= |ps|
        invariant archive == old(archive) + NewEntries(ps[..k], freshId, |old(archive)|)
      {
        var entry := ArchiveEntry(freshId(|archive|), ps[k], Pending, false, None);
        assert NewEntries(ps[..k + 1], freshId, |old(archive)|)
            == NewEntries(ps[..k], freshId, |old(archive)|) + [entry];
        archive := archive + [entry];
        k := k + 1;
      }
      assert ps[..k] == ps;
    }

    /** `verifyResults()` with the outcome of the k-th pending entry given by `outcome(k)`:
        with nothing pending nothing changes; otherwise every pending entry is settled, its
        pattern and counters recorded, and the learning model updated. */
    method VerifyResults(outcome: nat -> Settlement) returns (checked: nat, correct: nat)
      requires Valid()
      modifies this`archive, this`model
      ensures Valid()
      ensures checked == Count(old(archive), IsPending)
      ensures checked == 0 ==> archive == old(archive) && model == old(model)
      ensures checked > 0 ==>
        && archive == SettleAll(old(archive), outcome)
        && model == UpdatedModel(Recorded(old(model), old(archive), outcome))
        && correct == |NewSuccesses(old(archive), outcome)|
    {
      checked := Count(archive, IsPending);
      correct := 0;
      if checked == 0 {
        return;
      }
      ghost var m0 := model;
      archive, model, correct := SettleEntries(archive, model, outcome);
      RecordedTotals(m0, old(archive), outcome);
      UpdateLearningModel();
    }

    /** `updateLearningModel()` */
    method UpdateLearningModel()
      requires Valid()
      modifies this`model
      ensures Valid()
      ensures model == UpdatedModel(old(model))
    {
      if model.totalPredictions > 0 {
        var accuracy := Accuracy(model.correctPredictions, model.totalPredictions);
        model := model.(learningProgress := MinReal(100.0, (model.totalPredictions as real / 100.0) * 100.0));
        if |model.failurePatterns| > 5 {
          AdjustModelWeights();
        }
        model := model.(accuracyHistory := model.accuracyHistory + [AccuracyPoint(accuracy * 100.0, model.totalPredictions)]);
        if |model.accuracyHistory| > 50 {
          model := model.(accuracyHistory := model.accuracyHistory[|model.accuracyHistory| - 50..]);
        }
      }
    }

    /** `adjustModelWeights()` */
    method AdjustModelWeights()
      requires Positive(model.weights)
      modifies this`model
      ensures model == old(model).(weights := Learning.AdjustModelWeights(old(model).weights, |old(model).failurePatterns|))
    {
      var recentFailures := Min(10, |model.failurePatterns|);
      if recentFailures >= 5 {
        var w := Rescaled(model.weights);
        var totalWeight := Total(w);
        model := model.(weights := Divided(w, totalWeight));
      }
    }

    /** `importArchive(file)` once the file is parsed (`None` when it is not JSON): an
        archive without an entry list is refused; otherwise the entries with unknown ids
        are appended and the learning model's lists and counters are merged. */
    method ImportArchive(file: Option<ArchiveFile>) returns (added: Option<nat>)
      requires Valid()
      modifies this`archive, this`model
      ensures Valid()
      ensures file.None? || file.value.archive.None? ==>
        added.None? && archive == old(archive) && model == old(model)
      ensures file.Some? && file.value.archive.Some? ==>
        var kept := KeepUnknown(Ids(old(archive)), file.value.archive.value);
        && archive == old(archive) + kept
        && added == Some(|kept|)
        && model == (if file.value.learningModel.Some? then MergeModel(old(model), file.value.learningModel.value)
                     else old(model))
    {
      if file.None? || file.value.archive.None? {
        return None;
      }
      var kept := KeepUnknown(Ids(archive), file.value.archive.value);
      archive := archive + kept;
      if file.value.learningModel.Some? {
        model := MergeModel(model, file.value.learningModel.value);
      }
      added := Some(|kept|);
    }

    /** `clearAllData()` once the user has answered the confirmation: everything but the
        analysis flag goes back to its initial value. */
    method ClearAllData(confirmed: bool)
      requires Valid()
      modifies this`allMatches, this`processedFiles, this`predictions, this`archive,
               this`matchMemory, this`analysisCache, this`model
      ensures Valid()
      ensures !confirmed ==>
        && allMatches == old(allMatches) && processedFiles == old(processedFiles)
        && predictions == old(predictions) && archive == old(archive) && matchMemory == old(matchMemory)
        && analysisCache == old(analysisCache) && model == old(model)
      ensures confirmed ==>
        && allMatches == [] && processedFiles == [] && predictions == [] && archive == []
        && matchMemory == {} && analysisCache == map[] && model == InitialModel
    {
      if confirmed {
        allMatches := [];
        processedFiles := [];
        predictions := [];
        archive := [];
        matchMemory := {};
        analysisCache := map[];
        model := InitialModel;
      }
    }
  }
}
