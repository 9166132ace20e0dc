# Betting analyzer core, modelled in Dafny

This project models the computational core of `RealBettingAnalyzer`, the single class of
`app.js`. It is a browser application that reads football fixtures from Excel sheets and
scores each fixture with a handful of deterministic "factors". It turns the scores into a
bet tip with a confidence between 50 and 95, keeps the tips in an archive, settles them
later and feeds the outcome back into a learning model.

The model is split into modules that follow the stages of that pipeline:

| module | file | what it models |
|---|---|---|
| `Common` | common.dfy | `Option`, `Result`, integer and real min/max/abs |
| `Text` | text.dfy | the JavaScript string operations the class uses: `toLowerCase`, `trim`, `replace(/\s+/g, ' ')`, `includes`, `split`/`join`, `replace(/[^a-z0-9]/g, '')` |
| `Hash` | hash.dfy | `simpleHash` and its 32-bit wrap-around |
| `Types` | types.dfy | matches, factors, predictions, archive entries, the learning model |
| `Ingest` | ingest.dfy | `extractMatchesFromData`, `findColumnIndex`, `cleanTeamName`, `cleanString`, `parseDate`, `parseOdds`, the Excel file-name filter |
| `Signature` | signature.dfy | `generateMatchSignature` and the date filter of an analysis run |
| `Dedup` | dedup.dfy | the signature-memory loop of `handleFileUpload` |
| `MatchFactors` | factors.dfy | `calculateAnalysisFactors` and every factor function, `similarString`, `findLearningPatterns` |
| `Forecast` | prediction.dfy | `generateAIPrediction`, `getModelWeights`, `analyzeMatchWithAI` |
| `Learning` | learning.dfy | `updateLearningModel`, `adjustModelWeights`, the model merge of `importArchive` |
| `Archive` | archive.dfy | `addPredictionsToArchive`, `verifyResults`, the entry merge of `importArchive`, `calculateOverallAccuracy` |
| `Analysis` | analysis.dfy | the cached, thresholded loop of `startRealAnalysis` |
| `BettingAnalyzer` | analyzer.dfy | the class itself (`Analyzer`), whose methods update its fields in place |

The pure parts of the source are functions with contracts, plus lemmas relating them. These
are the signature, the factors, the prediction and the learning arithmetic. The source's
loops are methods with loop invariants, each proved equal to a specification function:
- the column search;
- the row extraction;
- the hash fold;
- the pattern search;
- the upload loop;
- the analysis loop;
- the settlement loop of `verifyResults`.

Each stateful loop is a method over plain values. The class method calls it on the field
values and writes the results back. The class `Analyzer` holds the fields the source
mutates: `allMatches`, `processedFiles`, `predictions`, `archive`, `analysisInProgress`,
`learningModel` (`model`), `matchMemory` and `analysisCache`.

The environment enters as parameters, never as hidden state:
- `parseDate` becomes `isoDate: Cell -> Option<string>`.
- `parseFloat` becomes `parseFloat: string -> Option<real>`.
- The coin and the alternative outcome drawn with `Math.random` in `verifyResults` become
  `outcome: nat -> Settlement`, queried with the rank of each pending entry.
- `generateId` becomes `freshId: nat -> string`, queried with the archive position.
- The answer of `confirm()` in `clearAllData` becomes `confirmed: bool`.

Behaviour worth knowing, taken from the code:
- The `try` of `handleFileUpload` wraps the whole file loop (app.js:287-342). The first file
  that cannot be read therefore aborts the remaining files. Matches and file records of
  earlier files stay. `HandleFileUpload` returns `Aborted(k)` in that case.
- `extractMatchesFromData` gives `league` the value `null` when the league column exists but
  the cell is empty. `calculateHomeAdvantage` then calls `toLowerCase` on `null` and throws.
  The `catch` of `startRealAnalysis` ends the whole run, but the cache entries made before
  the failing match stay. This is the `Failure` path of `Analyze` and `Run`.
- The merge in `importArchive` appends the imported accuracy history without the 50-entry
  cap that `updateLearningModel` applies.
- It deduplicates imported entries only against the ids already in the archive. Two
  entries with the same id inside one import file are both kept.
- `match.date || 'nodate'` also maps an empty date text to `nodate`.
- The search term `'1'` of the home-odds column also hits a header such as `team1`. Column
  choice is "first term, in list order, that some header contains", exactly as written.
- The analysis cache is keyed by signature and never invalidated by learning. A second run
  over analysed matches returns the cached predictions even after the weights changed
  (`Analysis.RerunIsCached`).
- The odds margin is `(1/o1 + 1/oX + 1/o2 - 1) * 100`. For odds 1.8 / 3.5 / 4.2 it is
  about 7.94, so the recommendation is `normal`.

## Model

| member | source | states |
|---|---|---|
| Text.TrimStart | app.js:375 | the result is a suffix of the input, every removed character is JavaScript whitespace, and the first kept one is not |
| Text.TrimEnd | app.js:375 | the result is a prefix of the input, every removed character is whitespace, and the last kept one is not |
| Text.Trim | app.js:442 | `trim()` removes no more than the input and leaves neither leading nor trailing whitespace |
| Text.CollapseSpaces | app.js:437 | `replace(/\s+/g, ' ')` never lengthens the text, is empty exactly when the input is, and starts with a space exactly when the input starts with whitespace |
| Text.CollapseKeepsLast | app.js:437 | collapsing keeps a non-space last character in last place |
| Text.CollapseSingleSpaced | app.js:437 | after collapsing, all whitespace is a plain space and no two whitespace characters are adjacent |
| Text.CollapseFixed | app.js:437 | collapsing leaves already single-spaced text that starts with a non-space unchanged |
| Text.CleanName | app.js:435-438 | a cleaned team name is tidy (single-spaced, no outer whitespace) and empty exactly when the input is all whitespace |
| Text.CleanNameIdempotent | app.js:435-438 | cleaning a team name twice gives the same name as cleaning it once |
| Text.Split | app.js:714-715 | `split(' ')` yields at least one part and no part contains the separator |
| Text.JoinSplit | app.js:714-715 | joining the parts of a split with the separator gives back the original text |
| Text.KeepKeyChars | app.js:479-480 | stripping keeps only `[a-z0-9]`, never lengthens, and leaves text made only of key characters unchanged |
| Hash.Wrap32 | app.js:1594 | `hash & hash` lands in the signed 32-bit range |
| Hash.Wrap32Shift | app.js:1594 | the 32-bit conversion ignores multiples of 2^32 |
| Hash.Wrap32Offset | app.js:1594 | the 32-bit conversion differs from its input by a multiple of 2^32 |
| Hash.HashStepMultiplies | app.js:1592-1594 | `((h << 5) - h) + c` followed by the 32-bit conversion equals `31 * h + c` modulo 2^32 |
| Hash.HashFold | app.js:1590-1595 | the hash of the loop stays a signed 32-bit value |
| Hash.HashIsPolynomial | app.js:1589-1597 | the wrapping loop computes the polynomial hash `sum c_i * 31^(n-1-i)` reduced to signed 32 bits |
| Hash.HashOf | app.js:1596 | `Math.abs` of the hash lies in [0, 2^31] |
| Hash.SimpleHash | app.js:1589-1597 | the character loop returns exactly the absolute folded hash |
| Ingest.Headers | app.js:375 | one header per header cell: empty for a falsy cell, otherwise the lower-cased cell text with outer whitespace removed; no header has outer whitespace |
| Ingest.CleanTeamName | app.js:435-438 | falsy cells give `null`; otherwise the name is tidy and empty exactly when the text is all whitespace |
| Ingest.CleanString | app.js:440-443 | falsy cells give `null`; otherwise the text has no outer whitespace |
| Ingest.ParseDate | app.js:445-467 | falsy cells give `null`; otherwise the result is the date parser's answer |
| Ingest.ParseOdds | app.js:469-476 | the result exists exactly when the cell is truthy and its text, with the first comma read as a point, parses to a positive number, and then it is positive |
| Ingest.FindIndex | app.js:429 | `findIndex` returns the first non-empty header containing the lower-cased term, or nothing when no header does |
| Ingest.ColumnIndex | app.js:427-433 | a found column is a valid header index |
| Ingest.ColumnIndexIsFirstHit | app.js:427-433 | no column exactly when no term hits any header; otherwise the first header hit by the earliest term that hits one |
| Ingest.FindColumnIndex | app.js:427-433 | the loop over search terms returns exactly the column of the specification |
| Ingest.ColumnsOf | app.js:383-394 | the teams' columns are found exactly when both the home and the away search find a column, and they are those columns |
| Ingest.OddsAt | app.js:410-412 | an odds field is absent or positive |
| Ingest.RowMatch | app.js:396-421 | a row yields a match exactly when it is non-empty and both team cells clean to non-empty names; the match is well formed, carries the file name, row number `index + 2` and id `file_index+1` |
| Ingest.Present | app.js:418-421 | keeping the produced matches never lengthens the list |
| Ingest.PresentMembers | app.js:418-421 | a match is kept exactly when some row produced it |
| Ingest.RowsToMatches | app.js:396-424 | the extracted matches are exactly the matches produced by some row, all well formed and from this file, no more of them than rows |
| Ingest.SheetMatches | app.js:372-425 | fewer than two rows, or a missing team column, give no matches; otherwise fewer matches than rows, all well formed |
| Ingest.ExtractMatches | app.js:372-425 | the extraction method returns exactly the specified matches |
| Ingest.CollectRows | app.js:396-422 | the `forEach` over the data rows collects exactly the specified matches |
| Ingest.ExcelUploads | app.js:276-278 | the kept files are exactly the uploads whose lower-cased name ends in `.xlsx` or `.xls`, and no more than were given |
| Ingest.ExcelUploadsPush | app.js:276-278 | the filter keeps order and multiplicity: an upload added at the end is kept at the end exactly when its name is an Excel name |
| Signature.TeamKeyIsKeepLower | app.js:479-480 | the team key is the lower-cased name stripped to `[a-z0-9]` |
| Signature.TeamKeyChars | app.js:479-480 | a team key holds only `[a-z0-9]` and is no longer than the name |
| Signature.DateKey | app.js:481 | the date part is never empty and is the date itself when the date is a non-empty text |
| Signature.SplitAtFirst | app.js:482 | a field free of the separator is read back from `field + sep + rest` |
| Signature.SignatureInjective | app.js:478-483 | two matches get the same signature exactly when their home keys, away keys and date parts agree |
| Signature.ReadBack | app.js:478-483 | home key, away key and date part can be read back from a signature by splitting at `_` |
| Signature.MatchesOn | app.js:492 | an analysis run takes exactly the matches whose date equals the selected date |
| Signature.MatchesOnPush | app.js:492 | the date filter keeps order and multiplicity: a match added at the end is kept at the end exactly when it is on the date |
| Dedup.Signatures | app.js:296-307 | the memory holds the signature of every stored match |
| Dedup.SignaturesExact | app.js:296-307 | a text is in the memory exactly when some stored match has it as signature |
| Dedup.SignaturesConcat | app.js:296-307 | the memory of two batches is the union of their memories |
| Dedup.AdmitSpec | app.js:296-307 | the admitted matches are those of the batch whose signature is not remembered, free of duplicates even within one file, and memory afterwards covers the whole batch |
| Dedup.DistinctCount | app.js:296-307 | without duplicate signatures, there are as many signatures as stored matches |
| Dedup.AdmitCount | app.js:296-307 | the number of admitted matches is the number of new signatures in the batch |
| Dedup.AdmitConcat | app.js:296-307 | admitting two batches in turn is the same as admitting their concatenation |
| Dedup.AdmitRemembered | app.js:296-307 | a batch whose signatures are all remembered admits nothing |
| Dedup.AdmitLength | app.js:296-307 | no more matches are admitted than arrive |
| Dedup.StoreAll | app.js:296-307 | the dedup loop appends exactly the admitted matches, keeps memory equal to the stored signatures and counts the admitted matches |
| MatchFactors.NameBonus | app.js:632-646 | the keyword bonus of a team name lies in [-0.5, 3.1] |
| MatchFactors.HashOffset | app.js:648-650 | the hash offset `((hash % 1000) / 1000 - 0.5) * 2` lies in [-1, 0.998] |
| MatchFactors.TeamForm | app.js:629-653 | the team form lies in [3.5, 9.098] |
| MatchFactors.FormClampInactive | app.js:652 | the clamp to [1, 10] never changes the form |
| MatchFactors.HeadToHeadOf | app.js:655-665 | equal hashes give balanced; `strong_*` when diff/max > 0.5, `*_slight` when > 0.3, on the side with the larger hash |
| MatchFactors.HeadToHeadSwap | app.js:655-665 | swapping the teams mirrors the head-to-head verdict, and a team against itself is balanced |
| MatchFactors.FirstKey | app.js:679-682 | the first table key, in order, contained in the league, or none |
| MatchFactors.TableValue | app.js:742-745 | a table lookup gives the value of the earliest table key contained in the text, and the default when no key is contained |
| MatchFactors.HomeAdvantage | app.js:667-685 | home advantage lies in [1.15, 1.35] and is 1.25 when no key matches |
| MatchFactors.LeagueImportance | app.js:730-748 | league importance lies in [0.7, 1.2] and is 0.7 when no key matches |
| MatchFactors.AnalyzeOdds | app.js:687-701 | `hasValue` exactly when all three odds are given; excellent below 4 percent margin, good in [4, 6), poor above 12 |
| MatchFactors.Motivation | app.js:703-728 | top league, derby and cup tags appear exactly when their conditions hold, each at most once |
| MatchFactors.DerbySymmetric | app.js:713-720 | the derby tag does not depend on which team plays at home, and a team always shares a word with itself |
| MatchFactors.PatternScore | app.js:756-772 | a pattern's score lies in [0, 1], is 1 exactly when league, team and odds all fit, and 0 exactly when none does |
| MatchFactors.BestPattern | app.js:750-778 | the best score bounds every pattern's score and is reached by one unless it is 0 |
| MatchFactors.StrongPatternMatch | app.js:750-778 | the best score exceeds 0.7 exactly when some pattern fits league, team and odds |
| MatchFactors.FindLearningPatterns | app.js:750-778 | the loop over success patterns returns exactly the best score |
| MatchFactors.FactorsOf | app.js:600-627 | factors fail exactly when the league is `null`; otherwise forms, advantage, importance and pattern match are in their ranges and odds have value exactly when all three are given |
| Forecast.ModelMultiplier | app.js:874-882 | with non-negative form and weights and home advantage at least 1, the multiplier is at least 1 |
| Forecast.HeadToHeadPoints | app.js:795-817 | the head-to-head points lie in [-15, 15], are positive exactly for a home verdict and zero exactly for a balanced one |
| Forecast.HeadToHeadPointsOrder | app.js:795-817 | the points are strictly ordered from strong home down to strong away, and mirroring a verdict negates its points |
| Forecast.SwapNegatesPoints | app.js:655-665 | swapping home and away negates the head-to-head points of the match |
| Forecast.Round | app.js:860 | `Math.round` is the integer within half a unit, ties rounding up |
| Forecast.RoundClampMonotone | app.js:860 | rounding then clamping preserves order |
| Forecast.Clamp | app.js:860 | the clamp lands in [50, 95] and is the identity inside it |
| Forecast.Confidence | app.js:790-860 | the confidence lies in [50, 95] |
| Forecast.GeneratePrediction | app.js:780-872 | confidence in [50, 95]; draw exactly in a derby, away exactly for an away head-to-head outside a derby; odds exactly when all three are given and then those of the tip; value 20/10/0 by recommendation; the reasoning starts with the head-to-head and ends with the form summary |
| Forecast.ConfidenceMonotone | app.js:790-860 | a head-to-head verdict worth more points never lowers the confidence |
| Forecast.RawScoreMonotone | app.js:790-857 | a head-to-head verdict worth more points never lowers the unrounded score |
| Forecast.PointsMonotone | app.js:790-852 | a head-to-head verdict worth more points never lowers the additive score |
| Forecast.Analyze | app.js:575-598 | analysis fails exactly when the league is `null`; otherwise the prediction copies the match's identity and fixture text, with confidence in [50, 95] and the odds of the tip |
| Learning.Rescaled | app.js:1009-1014 | scaling the four weights keeps positive weights positive |
| Learning.DividedSumsToOne | app.js:1016-1020 | dividing positive weights by their total makes them sum to 1 |
| Learning.AdjustedWeights | app.js:1003-1024 | the adjusted weights sum to 1 and keep the ratios among motivation, injuries and weather |
| Learning.AdjustModelWeights | app.js:1003-1024 | weights stay positive; they are adjusted exactly when the last ten failures number at least five, else unchanged |
| Learning.Window | app.js:996-999 | the history window keeps the newest min(50, n) entries, in order |
| Learning.WindowPush | app.js:990-999 | pushing onto a window then cutting equals pushing onto the full history then cutting |
| Learning.ReplayIsWindow | app.js:990-999 | repeated push-and-cut from a short history keeps exactly the newest 50 entries |
| Learning.Accuracy | app.js:981 | the accuracy of at most `total` correct tips lies in [0, 1] |
| Learning.UpdatedModel | app.js:979-1001 | with no predictions nothing changes; otherwise progress is min(100, total), the history gains the current accuracy and keeps at most 50 newest entries, weights are adjusted exactly when more than five failures exist, and normalised weights stay normalised |
| Learning.MergeModel | app.js:1069-1078 | merging keeps weights and progress, appends the imported success patterns, failure patterns and accuracy history, and adds both counters |
| Learning.MergeLaws | app.js:1069-1078 | merging an empty import changes nothing, and merging two imports in turn is merging their sum |
| Archive.Without | app.js:942 | the alternatives filter removes exactly the predicted type |
| Archive.Alternatives | app.js:942 | there are two distinct alternatives, exactly the types other than the tip |
| Archive.Settle | app.js:918-955 | a settled entry keeps id and prediction, is verified, is correct exactly on a hit and incorrect exactly on a miss, and its result equals the tip exactly on a hit |
| Archive.Count | app.js:904 | a filter count is at most the archive length |
| Archive.CountConcat | app.js:904 | counts add over concatenation |
| Archive.CountZero | app.js:904 | the count is zero exactly when no entry satisfies the filter |
| Archive.CountImplied | app.js:904 | a weaker filter counts at least as many entries |
| Archive.SettleAllAt | app.js:913-961 | the i-th entry is settled with the outcome of its rank among pending entries |
| Archive.SettledEntries | app.js:913-961 | entries that were not pending are unchanged; pending ones end verified as correct or incorrect, correct exactly when the result equals the tip |
| Archive.PatternCount | app.js:913-961 | one success or failure pattern is recorded per pending entry |
| Archive.SettleLast | app.js:913-961 | settling an archive settles its prefix and then its last entry |
| Archive.CorrectCount | app.js:913-966 | settling adds exactly the new successes to the correct entries |
| Archive.NonePending | app.js:913-961 | after settling no entry is pending |
| Archive.Recorded | app.js:913-961 | recording settlements leaves the weights alone |
| Archive.RecordedTotals | app.js:913-961 | the patterns gain exactly the new successes and failures; total grows by the pending count and correct by the number of hits |
| Archive.RecordedConsistent | app.js:913-961 | recording keeps correct at most total, and the gap grows by the new failures |
| Archive.VerifyStep | app.js:913-961 | one step of the loop settles the current entry and extends the running totals |
| Archive.SettleStep | app.js:913-961 | the loop invariant survives settling a pending entry and skipping a settled one |
| Archive.SettleEntries | app.js:913-966 | the settlement loop returns exactly the settled archive, the recorded model and the number of correct tips |
| Archive.SettleIdle | app.js:904-911 | with no pending entry, settling changes nothing and records no pattern |
| Archive.SettleOnce | app.js:904-961 | settling twice is settling once, whatever the second outcomes |
| Archive.SettlePreservesConsistency | app.js:913-961 | settling keeps every correct entry verified |
| Archive.NewEntries | app.js:885-901 | each prediction becomes one pending, unverified, unresolved entry with a fresh id, in order |
| Archive.AllPending | app.js:885-901 | an all-pending archive counts all its entries as pending |
| Archive.KeepUnknown | app.js:1063-1065 | the import keeps exactly the incoming entries whose id is not yet known |
| Archive.KeepAllUnknown | app.js:1063-1065 | into an empty archive every entry is imported |
| Archive.KeepNoneKnown | app.js:1063-1065 | entries whose ids are all known import nothing |
| Archive.ImportTwice | app.js:1052-1090 | importing the same entries a second time adds nothing |
| Archive.OverallAccuracy | app.js:1621-1625 | accuracy is 0 with no verified entry and never negative |
| Archive.OverallAccuracyAtMost100 | app.js:1621-1625 | on a consistent archive, where every correct entry is verified, accuracy is at most 100 |
| Analysis.RunPush | app.js:510-537 | the run over one more match is one more step |
| Analysis.RunStopsAtFailure | app.js:504-571 | once a match fails, the rest of the run changes nothing |
| Analysis.RunMatches | app.js:504-537 | the analysis loop yields exactly the specified cache, results and failure flag |
| Analysis.RunKeepsCache | app.js:522-529 | cached entries are never replaced |
| Analysis.RunThreshold | app.js:531-533 | every kept prediction reaches the threshold |
| Analysis.RunCacheEntries | app.js:522-529 | every new cache entry is the successful analysis of a match of the run, under its signature |
| Analysis.RunCovers | app.js:510-537 | a run where every analysis succeeds does not fail, and a run that does not fail caches every match |
| Analysis.RunFromCache | app.js:522-533 | with every match cached, the run reads the cache and keeps the hits above the threshold |
| Analysis.HitsStable | app.js:522-533 | extending the cache does not change the hits of cached matches |
| Analysis.RunResults | app.js:510-537 | a run that does not fail returns the cached predictions of its matches above the threshold |
| Analysis.RerunIsCached | app.js:522-529 | repeating a successful run with a different analysis gives the same state |
| BettingAnalyzer.BatchPush | app.js:287-342 | the matches of one more file follow those read so far |
| BettingAnalyzer.UploadStep | app.js:296-307 | storing two batches in turn stores their concatenation |
| BettingAnalyzer.RecordOf | app.js:310-317 | the record of an upload carries its name, size and match count, and its new and duplicate counts add up to the match count |
| BettingAnalyzer.RecordPush | app.js:310-317 | appending the record of the next upload keeps earlier records and extends the per-file records in file order |
| BettingAnalyzer.UploadNext | app.js:287-342 | the upload invariant survives one more readable file |
| BettingAnalyzer.UploadFiles | app.js:287-342 | memory equals the stored signatures, without duplicates; every file is stored, recorded with its own name, size and counts, and totalled, or the first unreadable file is named with the earlier files stored and recorded |
| BettingAnalyzer.Analyzer.constructor | app.js:7-46 | the state starts empty, with the initial learning model and the flag cleared |
| BettingAnalyzer.Analyzer.HandleFileUpload | app.js:273-343 | no files, or no Excel files, change nothing; otherwise every Excel file, or every file before the first unreadable one, is deduplicated into the matches and gets a record of its name, size, match count, new matches and duplicates |
| BettingAnalyzer.Analyzer.StartRealAnalysis | app.js:486-572 | a run while busy does nothing; no match on the date does nothing; otherwise the cache and results are those of the run, a failure clears the flag, and success schedules the results |
| BettingAnalyzer.Analyzer.CompleteAnalysis | app.js:542-564 | the timer callback clears the flag and, when results exist, publishes and archives them as new pending entries |
| BettingAnalyzer.Analyzer.AddPredictionsToArchive | app.js:885-901 | the archive gains one pending entry per prediction, in order |
| BettingAnalyzer.Analyzer.VerifyResults | app.js:903-977 | with no pending entry nothing changes; otherwise the archive is settled, the learning model records every settlement and is then updated, and the number of correct tips is returned |
| BettingAnalyzer.Analyzer.UpdateLearningModel | app.js:979-1001 | the learning model becomes its update, keeping weights normalised |
| BettingAnalyzer.Analyzer.AdjustModelWeights | app.js:1003-1024 | only the weights change, to their adjustment for the failure count |
| BettingAnalyzer.Analyzer.ImportArchive | app.js:1052-1090 | a file without an archive changes nothing; otherwise entries with unknown ids are appended, their number returned, and an included learning model is merged |
| BettingAnalyzer.Analyzer.ClearAllData | app.js:1492-1524 | without confirmation nothing changes; with it every collection is emptied and the learning model reset |

## Left out

- The user interface: DOM access, event wiring, tabs, toasts, the progress bar, the loading
  overlay, the list renderers and the learning chart. They only render state.
- `parseXLSXFile`, `FileReader` and the XLSX library are foreign calls. An upload is a
  file name plus the sheet the library would produce, or nothing when reading fails.
- `init`, `loadSavedData` and `saveData` use `localStorage`. The constructor starts from the
  empty state that `init` fills when nothing is stored.
- `exportArchive`, `downloadFile` and `formatFileSize` are serialisation and I/O plumbing.
- `sleep`, the random delay in the analysis loop and the one-second `setTimeout` are timers.
  The callback after the timer is the separate method `CompleteAnalysis`.
- Timestamps (`processedAt`, `analyzedAt`, `addedAt`, `verifiedAt`, the history timestamp) come
  from `new Date()`, which reads the clock.
- `Math.random` is left out. In `verifyResults` it becomes the outcome parameter, and in
  `generateId` it becomes the fresh-id parameter.
- Ingest.ParseDate: JavaScript `Date` parsing is a parameter. The model does not describe
  which texts parse, only that a falsy cell gives `null`.
- Ingest.ParseOdds: `parseFloat` is a parameter. The model keeps the first-comma
  replacement and the positive filter.
- Text.Lower: `toLowerCase` is modelled for ASCII and the Polish capitals of the column
  names and team names. Other Unicode case mappings are not modelled.
- Floating point: all numbers are exact reals. `toFixed` in the odds margin and in
  `calculateOverallAccuracy` is not modelled. OverallAccuracy returns the unrounded
  percentage.
- The reasoning texts are not modelled. Each reasoning line is a tag carrying the numbers
  the text prints.
- JavaScript `Map` insertion order of `analysisCache` is not modelled. The cache is a map.
- The `await`s are not modelled: the per-file `parseXLSXFile` of `handleFileUpload`, the
  `file.text()` of `importArchive`, and the delays of the analysis and settlement loops.
  Other events that could interleave there are left out; each method runs to completion.
- Text.Lower and the other string members count Unicode scalar values, while JavaScript's
  `length` and `charCodeAt` count UTF-16 code units. For text outside the Basic
  Multilingual Plane the name-length bonus and `simpleHash` therefore differ from the
  source.
