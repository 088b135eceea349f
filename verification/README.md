# Lotto prediction core, modelled in Dafny

This project models the combination pipeline of a Korean lotto (6 of 45)
prediction service, plus the validation, formatting and counting logic
around it.

The pipeline has three parts:

- The random generator draws six distinct numbers of 1..45. It sorts them
  and throws them away when they match one of five "extreme" patterns.
- The duplicate checker compares a combination with the past winning
  combinations. It keeps them in a cache that lives for one hour.
- The simplified prediction service builds a batch of 1..20 predictions.
  Each slot retries at most 100 times. The batch fails as a whole when a
  slot runs out of retries.

Around the pipeline:

- the data service's loading, lookups and the parameters of a saved
  prediction;
- `LottoDraw.from_db_row` and `get_numbers_tuple`;
- the `LottoPrediction` dictionary round trip;
- `LottoValidator.validate_numbers`;
- the pydantic field validators of the API;
- the Telegram bot's `/generate` argument, its message chunker and its
  `/result` matching and ranking;
- the notifier's message text;
- the integer histograms of the analysis service;
- the parsers and filters of the RAG service.

Everything outside the program arrives as a parameter:

- the random source, as a sequence of draws or a function from the attempt
  number to a draw;
- the clock, as an integer in microseconds;
- every database, repository or data-service answer, as a value or an
  error outcome.

Exceptions are the error half of `Errors.Result`.

Imperative code is modelled imperatively:

- The duplicate checker, the prediction service and the data service are
  classes whose methods update their fields.
- Loops stay loops. Each is proved against a function that specifies it,
  and the source's promises are proved about those functions as lemmas.

Files: `errors.dfy`, `text.dfy` (the Python string builtins used),
`combination.dfy`, `ranking.dfy` (Python's stable `sort(reverse=True)` by
count), then one file per source file.

## Model

| member | source | states |
|---|---|---|
| RandomGenerator.MaxConsecutive | services/random_generator.py:66-76 | the run counter reaches 5 exactly when the sorted numbers hold five or more consecutive integers |
| RandomGenerator.SameWideGap | services/random_generator.py:79-81 | the check on the set of the five gaps fires exactly when all gaps are equal and wider than one |
| RandomGenerator.MaxBandCount | services/random_generator.py:94-102 | the largest band count is at least 5 exactly when five numbers share one of the bands 1-10, 11-20, 21-30, 31-40, 41-45 |
| RandomGenerator.IsExtremePattern | services/random_generator.py:47-104 | the verdict equals `Extreme`, the OR of the five rules (run of five, equal gaps above 1, sum outside 80..200, single parity, five in one band) on the sorted numbers |
| RandomGenerator.SingleValueSet | services/random_generator.py:79-80 | `len(set(gaps)) == 1` holds iff every gap equals the first |
| RandomGenerator.ExtremeOrderIndependent | services/random_generator.py:63 | the verdict depends only on the multiset of numbers |
| RandomGenerator.ExtremeOfSorted | services/random_generator.py:63-104 | for numbers already ascending the rules apply to them as given |
| RandomGenerator.RunAtStartExample | services/random_generator.py:66-76 | [1,2,3,4,5,10] is extreme |
| RandomGenerator.SixInARowExample | services/random_generator.py:66-76 | [10..15] is extreme |
| RandomGenerator.EqualGapsExample | services/random_generator.py:79-81 | [5,10,15,20,25,30] is extreme |
| RandomGenerator.SumOf80Passes | services/random_generator.py:84-86 | a sum of exactly 80 is not rejected |
| RandomGenerator.SumOf200Passes | services/random_generator.py:84-86 | a sum of exactly 200 is not rejected |
| RandomGenerator.SumOutsideBoundsRejected | services/random_generator.py:84-86 | sums of 79 and 201 are rejected |
| RandomGenerator.ParityExample | services/random_generator.py:89-91 | all even is extreme |
| RandomGenerator.BucketExample | services/random_generator.py:94-102 | five numbers in 21..30 is extreme |
| RandomGenerator.SpreadNotExtreme | services/random_generator.py:104 | [7,14,23,28,35,42] passes every rule |
| RandomGenerator.FourInARowNotExtreme | services/random_generator.py:66-76 | four consecutive numbers, as in [10,11,12,13,25,40], pass |
| RandomGenerator.GenerateCombination | services/random_generator.py:36-45 | the loop returns the first draw of the stream that is not extreme, sorted (`FirstAcceptable`) |
| RandomGenerator.FirstAcceptableValid | services/random_generator.py:36-45 | what is returned is six distinct numbers of 1..45, strictly ascending, not extreme |
| RandomGenerator.FirstAcceptableNone | services/random_generator.py:36-45 | the loop has not returned within the prefix iff every draw in it was extreme |
| RandomGenerator.FirstAcceptableIsFirst | services/random_generator.py:36-45 | the result is the first non-extreme draw, sorted |
| DuplicateCheck.DuplicateChecker.constructor | services/duplicate_checker.py:17-25 | both cache fields start unset |
| DuplicateCheck.DuplicateChecker.GetWinningCombinations | services/duplicate_checker.py:27-53 | result and new fields are `Winning` of the old fields: refresh iff a field is unset or older than the TTL, otherwise the cache is returned untouched |
| DuplicateCheck.DuplicateChecker.IsDuplicate | services/duplicate_checker.py:55-87 | verdict and new fields are `Query` of the old fields |
| DuplicateCheck.DuplicateChecker.IsNewCombination | services/duplicate_checker.py:89-100 | the negation of `is_duplicate` on the same input and state, with the same state change |
| DuplicateCheck.DuplicateChecker.ClearCache | services/duplicate_checker.py:102-109 | both fields are unset afterwards |
| DuplicateCheck.MalformedIsDuplicate | services/duplicate_checker.py:68-70 | input of length other than 6, empty included, is a duplicate and the cache is untouched |
| DuplicateCheck.QueryIsSortedMembership | services/duplicate_checker.py:73-77 | for six numbers the verdict is membership of the sorted tuple in the set in use |
| DuplicateCheck.QueryOrderIndependent | services/duplicate_checker.py:73 | every permutation gets the same verdict and leaves the same cache |
| DuplicateCheck.FreshCacheIsUsed | services/duplicate_checker.py:38-53 | a fresh cache is returned as is, whatever the data service would answer, and neither field changes |
| DuplicateCheck.RefreshStoresSnapshot | services/duplicate_checker.py:45-49 | a refresh stores the snapshot and stamps it with now |
| DuplicateCheck.StalenessIsStrict | services/duplicate_checker.py:40 | exactly one hour old is fresh; one microsecond more is stale |
| DuplicateCheck.ProviderFailureIsDuplicate | services/duplicate_checker.py:84-87 | an exception while refreshing answers "duplicate" and leaves the fields alone |
| DuplicateCheck.NotDuplicateMeansAbsent | services/duplicate_checker.py:66-82 | "not a duplicate" means six numbers whose sorted tuple is absent from the winning set in use |
| DuplicateCheck.ClearedCacheRefreshes | services/duplicate_checker.py:102-109 | after clearing, the next valid query loads the snapshot and answers by it |
| PredictionService.SimplifiedPredictionService.constructor | services/simplified_prediction_service.py:28-43 | `max_retries` is 100 and the checker is the one given |
| PredictionService.SimplifiedPredictionService.GenerateSinglePrediction | services/simplified_prediction_service.py:119-173 | result and checks made are `Slot` from retry count 0; the checker ends in the state those checks leave |
| PredictionService.SimplifiedPredictionService.GeneratePredictions | services/simplified_prediction_service.py:45-117 | result is `Generate` on the candidates and the checker's verdicts; the checker ends in the state those checks leave |
| PredictionService.Predictions | services/simplified_prediction_service.py:92-97 | one prediction per combination |
| PredictionService.PredictionsAt | services/simplified_prediction_service.py:92-96 | every prediction has score 0.0 and common_with_last 0, in generation order |
| PredictionService.SlotAccepted | services/simplified_prediction_service.py:138-165 | the accepted candidate passed the duplicate check and is new to the batch; every earlier attempt of the slot was rejected; at most the remaining retries were used |
| PredictionService.SlotExhausted | services/simplified_prediction_service.py:136-173 | a slot that gives up has made exactly its retry budget of checks, every one rejected |
| PredictionService.SlotExhaustedIff | services/simplified_prediction_service.py:138-173 | a slot gives up iff every candidate within its budget is a historical or in-batch duplicate |
| PredictionService.BatchDone | services/simplified_prediction_service.py:83-97 | a finished batch holds `count` pairwise different combinations extending the earlier ones, each a candidate that passed its check |
| PredictionService.GenerateRejectsInvalidCount | services/simplified_prediction_service.py:64-72 | a non-integer or out-of-range count raises the matching ValidationError before any check |
| PredictionService.GenerateSucceeded | services/simplified_prediction_service.py:83-107 | success returns exactly n predictions, pairwise distinct, score 0.0 and 0 common, each one passed its check |
| PredictionService.GenerateFailed | services/simplified_prediction_service.py:109-111 | a failed batch raises the PredictionGenerationError with the retry-limit message |
| PredictionService.GenerateValidPredictions | services/simplified_prediction_service.py:140 | when every candidate is a valid non-extreme sorted combination, so is every prediction |
| PredictionService.AllDuplicatesExhaust | services/simplified_prediction_service.py:143-151 | a slot where every check says duplicate gives up after exactly its remaining retries |
| PredictionService.RetryLimitExample | services/simplified_prediction_service.py:136-173 | all duplicates with a limit of ten: ten checks, then the error |
| PredictionService.SkipsDuplicateExample | services/simplified_prediction_service.py:138-165 | duplicate answers [T,F,F,F]: three predictions take exactly four checks |
| PredictionService.FixedSnapshotCache | services/duplicate_checker.py:38-49 | with a data service that always returns the same set, the checker's cache never holds anything else |
| PredictionService.PassedCheckIsNotWinning | services/simplified_prediction_service.py:143-151 | under such a data service, a candidate that passed its check is six numbers whose sorted form is not a winning combination |
| PredictionService.GeneratedPredictionsAreFresh | services/simplified_prediction_service.py:83-151 | with candidates from `generate_combination` and a fixed set of winning combinations, a successful call returns exactly n predictions, pairwise different, each a strictly ascending valid combination with no extreme pattern and not a past winning combination |
| DataService.AsyncDataService.constructor | services/data_service.py:15-17 | no draws, empty tuple set, invariant holds |
| DataService.AsyncDataService.LoadHistoricalData | services/data_service.py:19-79 | result and new fields are `Load` of the old fields |
| DataService.ValidDrawsAppend | services/data_service.py:55-61 | filtering rows keeps their order: the filter of a concatenation is the concatenation of the filters |
| DataService.ValidDrawsSingle | services/data_service.py:56-61 | a row contributes its draw when `from_db_row` accepts it and nothing otherwise |
| DataService.ValidDrawsAreDraws | services/data_service.py:55-61 | every kept draw is valid, and no more draws than rows are kept |
| DataService.LoadChecksRangeFirst | services/data_service.py:22-28 | `start_no <= 0` or `end_no < start_no` raises ValidationError before any repository call, and nothing changes |
| DataService.DefaultLoadErrors | services/data_service.py:19-28 | with the defaults (`start_no=601`, no `end_no`) neither range check fires; any error is the repository's or the missing `no` key |
| DataService.LoadFalseKeepsState | services/data_service.py:34-38 | a `False` result leaves both fields as they were |
| DataService.LoadTrueReplacesState | services/data_service.py:66-74 | `True` means the draws are exactly the valid fetched ones in order, and the tuple set is built from them |
| DataService.LoadKeepsInv | services/data_service.py:19-79 | every outcome of a load keeps the invariant (valid draws, tuple set of exactly them) |
| DataService.ExistingAreCombinations | services/data_service.py:71 | under the invariant every stored tuple is a strictly ascending valid combination |
| DataService.AsyncDataService.GetLastDraw | services/data_service.py:81-85 | `None` iff there are no draws, otherwise the last one |
| DataService.AsyncDataService.IsNewCombination | services/data_service.py:95-106 | true iff six numbers whose sorted tuple is not in the stored set |
| DataService.AsyncDataService.GetAllWinningCombinations | services/data_service.py:108-133 | each draw's numbers sorted, in draw order; under the invariant their set is the stored tuple set |
| DataService.SaveParams | services/data_service.py:156-179 | accepted iff six numbers in 1..45 and a next number exists; the parameters are `(next_no, sorted numbers)`; a wrong length, then a number outside 1..45, is the matching ValidationError; otherwise the TypeError of `next_no` passes through |
| DataService.RepeatsNotRefused | services/data_service.py:156-160 | repeated numbers pass validation; only the length and the range are checked |
| DataService.StoreFailurePrefixedTwice | services/data_service.py:184-186 | as written, a refused INSERT is reported with the failure prefix twice |
| DataService.Rewrap | services/data_service.py:200-205 | the corrected handler keeps ValidationError and DataLoadError unchanged, and every error it gives is one of the two |
| DataService.SaveOutcomes | services/data_service.py:154-205 | a refused INSERT is reported once; invalid input is a ValidationError whatever the database does; every other failure is a DataLoadError; otherwise the code as written agrees |
| DataService.AsyncDataService.SavePrediction | services/data_service.py:135-205 | the result is the corrected `Save` on the current draws |
| DataService.IsNewAgreesWithChecker | services/data_service.py:95-106 | the data service's answer is the duplicate checker's negated when the checker loads the same tuples |
| DataService.IsNewOrderFree | services/data_service.py:102 | every ordering of the same numbers is equally new |
| DataService.LastDrawAfterLoad | services/data_service.py:70-85 | after a successful load the last draw is the last valid fetched row |
| LottoDraws.FirstMissing | models/lotto_draw.py:27-29 | the first missing number column, or none iff all are present |
| LottoDraws.ReadColumns | models/lotto_draw.py:32-39 | accepted iff every column holds an integer in 1..45; the numbers are in column order |
| LottoDraws.ReadColumnsErrorStays | models/lotto_draw.py:33-38 | once a column fails, that column's error is the loop's result |
| LottoDraws.FromDbRow | models/lotto_draw.py:19-70 | the result equals `DrawOfRow` |
| LottoDraws.DrawOfRowAccepts | models/lotto_draw.py:22-43 | accepted iff the row has `no`, all six columns are integers in 1..45, and no two are equal |
| LottoDraws.DrawOfRowFields | models/lotto_draw.py:32-63 | an accepted row gives its six numbers in column order, unsorted; `draw_no` is `row['no']` and `bonus` is `row.get('bonus')` |
| LottoDraws.MissingNoRejected | models/lotto_draw.py:24-25 | without `no`, the `no` ValidationError is raised |
| LottoDraws.MissingColumnRejected | models/lotto_draw.py:27-29 | the first missing column is reported before any value is checked |
| LottoDraws.BadCellRejected | models/lotto_draw.py:33-38 | the first column holding a non-integer is refused with the "정수가 아닙니다" ValidationError, and the first one out of 1..45 with the "유효한 범위(1-45)를 벗어났습니다" ValidationError; each message names the column and its value, and it comes before any repeat check |
| LottoDraws.RepeatedNumbersRejected | models/lotto_draw.py:42-43 | six integers in 1..45 with a repeat are refused with the "중복된 번호가 있습니다" ValidationError listing the numbers in column order |
| LottoDraws.DrawOfRowErrors | models/lotto_draw.py:22-65 | every refusal is a ValidationError, passed through unchanged |
| LottoDraws.NumbersTuple | models/lotto_draw.py:72-74 | ascending, same length |
| LottoDraws.NumbersTupleIsSortedPermutation | models/lotto_draw.py:72-74 | the tuple is a permutation of the numbers; for a valid draw it is a strictly ascending combination |
| LottoDraws.NumbersTupleOrderFree | models/lotto_draw.py:72-74 | draws with the same numbers in any order have equal tuples |
| Prediction.ToDict | models/prediction.py:14-20 | exactly the keys combination, score and common_with_last, each holding its field unchanged |
| Prediction.FromDict | models/prediction.py:26-33 | succeeds iff the three keys are present; the KeyError names the first missing key; the fields are read unchanged |
| Prediction.FromDictToDict | models/prediction.py:14-33 | `from_dict(to_dict(p)) == p` |
| Prediction.FromDictIgnoresOtherKeys | models/prediction.py:29-33 | keys other than the three make no difference |
| Validators.ValidateNumbers | utils/validators.py:12-30 | true iff length = count, no repeat, and all in [min_num, max_num] |
| Validators.DefaultsAcceptDraws | utils/validators.py:12 | with the defaults 1, 45, 6 it accepts exactly the valid draws |
| Validators.RepeatRejected | utils/validators.py:22-24 | a repeated number is refused even when count and range are right |
| Schemas.ValidateCount | api/schemas/prediction.py:10-15 | accepted iff 1..20, returned unchanged, otherwise the ValueError |
| Schemas.CountAgreesWithService | api/schemas/prediction.py:13-15 | the API accepts exactly the counts the prediction service accepts |
| Schemas.DefaultCountAccepted | api/schemas/prediction.py:8 | the default count 5 passes `validate_count` and the service's 1..20 check |
| Schemas.ValidateDrawNo | api/schemas/prediction.py:62-67 | accepted iff at least 1, returned unchanged |
| Schemas.ValidateNumbers | api/schemas/prediction.py:69-81 | accepted iff a valid draw, returned unchanged; the count, repeat and range errors come in that order |
| Schemas.NumbersAgreeWithValidator | api/schemas/prediction.py:69-81 | the request validator and `validate_numbers` with its defaults accept the same lists |
| Schemas.ValidateBonus | api/schemas/prediction.py:83-88 | accepted iff `None` or 1..45, returned unchanged |
| Schemas.JoinedIntegersParse | api/schemas/prediction.py:34 | splitting `", ".join` of integers at the commas and reading each piece with `int()` gives the integers back |
| Schemas.FormatNumbersReadsBack | api/schemas/prediction.py:32-34 | the formatted text reads back as the ascending list of the combination |
| Schemas.FormatNumbersOrderFree | api/schemas/prediction.py:32-34 | the stored order of the numbers makes no difference |
| Bot.GenerateCount | telegram_bot_handler.py:335-348 | no argument gives 5; otherwise a count iff `int()` reads 1..20, the range reply for another number, the number reply when `int()` fails |
| Bot.GenerateCountOfPrinted | telegram_bot_handler.py:338-339 | every count in 1..20, written out, is taken as given |
| Bot.GenerateCountOutOfRange | telegram_bot_handler.py:339-343 | a number outside 1..20 gets the range reply |
| Bot.SplitMessage | telegram_bot_handler.py:472-499 | the chunks are the greedy groups, each joined by "\n" |
| Bot.GroupsSpec | telegram_bot_handler.py:486-497 | lines come out once each in order; no group is empty; a group of two or more lines fits; a group ends only because the next line would not fit |
| Bot.GroupsFlatten | telegram_bot_handler.py:486-497 | the groups, put back together, are the open chunk followed by the remaining lines |
| Bot.GroupsNonEmpty | telegram_bot_handler.py:486-497 | no group is empty |
| Bot.GroupsFit | telegram_bot_handler.py:486-497 | a group of two or more lines is within the length limit |
| Bot.GroupsMaximal | telegram_bot_handler.py:488-491 | a group is closed only when the next line would push it over the limit |
| Bot.SplitMessageSpec | telegram_bot_handler.py:482-499 | every line lands in exactly one chunk, in order; joining the chunks gives the message; no chunk is empty; only a one-line chunk can exceed the limit; the chunker is greedy |
| Bot.JoinJoinEach | telegram_bot_handler.py:489-497 | joining the joined chunks with "\n" is joining all their lines with "\n" |
| Bot.SplitNothing | telegram_bot_handler.py:496-499 | no lines give no chunks |
| Bot.FitsInOneChunk | telegram_bot_handler.py:486-497 | lines that fit are sent as one chunk |
| Bot.CostPrefix | telegram_bot_handler.py:487 | a chunk costs at least its prefix's cost plus one per further line |
| Bot.Matches | telegram_bot_handler.py:579-581 | the match count is at most the size of either set |
| Bot.MatchesOfWinner | telegram_bot_handler.py:579-581 | the winning numbers themselves match all of them |
| Bot.MatchesOrderFree | telegram_bot_handler.py:579-581 | the prediction's order does not change its match count |
| Bot.Score | telegram_bot_handler.py:577-582 | every prediction with its match count, in the order given |
| Bot.ScorePredictions | telegram_bot_handler.py:577-582 | the loop computes `Score` |
| Bot.BestMatchIsMaximum | telegram_bot_handler.py:584-604 | after the sort, `best_match` is the largest match count of any prediction |
| Bot.BestLines | telegram_bot_handler.py:604-610 | no lines below three matches; otherwise the best-match line, the rank line iff the count has a rank, and a blank line |
| Bot.RankNames | telegram_bot_handler.py:597-602 | 6 is 1등, 5 is 2등/3등, 4 is 4등, 3 is 5등; no rank line otherwise |
| Bot.Mark | telegram_bot_handler.py:616 | "O" iff at least three matches, "X" otherwise |
| Bot.Details | telegram_bot_handler.py:612-619 | one detail line per result, numbered from 1 in the sorted order |
| Bot.DetailLines | telegram_bot_handler.py:614-619 | the loop computes `Details` |
| Bot.CheckResultLines | telegram_bot_handler.py:557-619 | the reply lines equal `ResultLines`, the early replies included |
| Bot.ResultDetails | telegram_bot_handler.py:576-619 | the results are a permutation of the scored predictions, sorted by matches descending, and the reply ends with exactly their detail lines |
| Bot.OutgoingIsWholeMessage | telegram_bot_handler.py:621-628 | what is sent, whole or in chunks, joined with "\n" is the whole reply |
| Ranking.SortDesc | telegram_bot_handler.py:584 | a permutation of the input, with counts descending |
| Ranking.InsertDescSorted | telegram_bot_handler.py:584 | inserting into a descending list keeps it descending |
| Ranking.SortDescStable | services/analysis_service.py:123-127 | pairs with equal counts keep their input order |
| Ranking.FirstIsLargest | telegram_bot_handler.py:604 | the first pair of a descending list has the largest count |
| Notifier.FormatMessage | services/telegram_notifier.py:86-127 | the message is `MessageLines` joined by "\n" |
| Notifier.Marker | services/telegram_notifier.py:117 | beyond 20 the marker is the index and a dot |
| Notifier.MarkersAreTable | services/telegram_notifier.py:112-117 | up to 20 the marker is `number_emojis[idx-1]` |
| Notifier.Opening | services/telegram_notifier.py:101-109 | two opening lines, four with a timestamp |
| Notifier.PredictionLines | services/telegram_notifier.py:115-121 | one line per prediction, in order |
| Notifier.MessageLinesShape | services/telegram_notifier.py:101-125 | header first and footer last; the timestamp line and a blank line iff the timestamp is truthy; one line per prediction in order |
| Notifier.PredictionLineChars | services/telegram_notifier.py:117-121 | a prediction line starts with a digit or the keycap ten and has no line break |
| Notifier.NoTimestampNoLabel | services/telegram_notifier.py:107-109 | without a truthy timestamp no line carries the timestamp label |
| Notifier.LineCount | services/telegram_notifier.py:101-127 | 4 + n lines, 2 more with a timestamp |
| Notifier.MessageSplitsIntoLines | services/telegram_notifier.py:127 | a timestamp without a line break: splitting the message at "\n" gives its lines back |
| Notifier.NoBreakInLines | services/telegram_notifier.py:101-125 | no line of the message contains a line break |
| Analysis.BumpKeepsWellFormed | services/analysis_service.py:27 | counting one more value keeps the counter well formed |
| Analysis.TallyOf | services/analysis_service.py:49 | `Counter(xs)` is well formed |
| Analysis.TallyOfCounts | services/analysis_service.py:24-29 | the keys are exactly the values of `xs`, each with its number of occurrences |
| Analysis.TotalOfTally | services/analysis_service.py:49 | the counts add up to the length |
| Analysis.Items | services/analysis_service.py:124 | the items are the keys in insertion order with their counts |
| Analysis.Update | services/analysis_service.py:27 | `Counter.update` counts the new numbers on top of the old |
| Analysis.AnalyzeNumberFrequency | services/analysis_service.py:17-32 | the result is `Counter` of all the draws' numbers, empty for no draws |
| Analysis.FrequencyCountsDraws | services/analysis_service.py:20-29 | for draws without repeats, a number's frequency is the number of draws it appears in, and undrawn numbers are absent |
| Analysis.FrequencyTotal | services/analysis_service.py:20-29 | the frequencies of six-number draws add up to 6 × draws |
| Analysis.CommonCounts | services/analysis_service.py:43-47 | one count per consecutive pair: the size of the intersection |
| Analysis.AnalyzeContinuity | services/analysis_service.py:34-53 | empty below two draws, otherwise `Counter` of the common counts |
| Analysis.ContinuityShape | services/analysis_service.py:37-50 | the counts add up to draws − 1; with six-number draws every key is in 0..6 |
| Analysis.OddCounts | services/analysis_service.py:62-66 | each draw's number of odd numbers |
| Analysis.AnalyzeNumberParity | services/analysis_service.py:55-77 | the numerators are `ParityCounts`: the odd counts counted, keyed `odd_k_even_(6-k)` |
| Analysis.CountOdds | services/analysis_service.py:62-66 | one odd count per draw, in draw order |
| Analysis.KeyByParity | services/analysis_service.py:71-74 | one entry per distinct odd count k, in first-seen order, keyed `odd_k_even_(6-k)` with the count of draws having k odd numbers |
| Analysis.ParityKeyOfCount | services/analysis_service.py:71-74 | every key names the odd count of some draw |
| Analysis.ParityTotal | services/analysis_service.py:68-74 | the numerators add up to the number of draws |
| Analysis.RangeOf | services/analysis_service.py:86-99 | a sum falls in low iff 0..100, medium iff 101..150, high iff 151..270, none otherwise |
| Analysis.AnalyzeSumDistribution | services/analysis_service.py:79-108 | all three keys present; each draw counted in the first range that holds its sum; empty for no draws |
| Analysis.RangeCountsSnoc | services/analysis_service.py:94-99 | one more draw adds one to its range's count and nothing else |
| Analysis.SumBounds | services/analysis_service.py:95 | numbers in 1..45 sum to between 1 and 45 per number |
| Analysis.RangeCountsTotal | services/analysis_service.py:86-99 | for valid draws the three counts add up to the number of draws |
| Analysis.GetComprehensiveAnalysis | services/analysis_service.py:110-148 | the result equals `Comprehensive` |
| Analysis.ComprehensiveOutcome | services/analysis_service.py:113-131 | error iff no draws, with the AnalysisError message; otherwise `total_draws` is the number of draws |
| Analysis.ReportRanking | services/analysis_service.py:123-129 | for any non-empty draws the report succeeds, its hot numbers are the first ten of the frequency ranking and its cold numbers the last ten |
| Analysis.HotNumbers | services/analysis_service.py:123-128 | up to ten distinct drawn numbers, none less frequent than a number left out |
| Analysis.ColdNumbers | services/analysis_service.py:123-129 | the last ten of the ranking, distinct, none more frequent than a number ranked before them |
| Analysis.RankedItemsAreItems | services/analysis_service.py:123-127 | the ranking is the counter's items reordered, each number once |
| Analysis.TiesKeepFirstSeenOrder | services/analysis_service.py:123-127 | equally frequent numbers keep the order in which they were first drawn |
| Rag.Values | services/rag_service.py:361 | the integer values of the items |
| Rag.ValidateCombination | services/rag_service.py:357-364 | the sorted combination iff a list of six distinct integers in 1..45, otherwise `None`; the result is strictly ascending |
| Rag.ValidateAcceptsDraws | services/rag_service.py:357-364 | any valid combination, in any order, is accepted as its sorted form |
| Rag.KeptNumbers | services/rag_service.py:373 | the kept numbers are in 1..45, at most one per token |
| Rag.KeptNumbersMembers | services/rag_service.py:373 | a number is kept iff some all-digit token spells it and it is in 1..45 |
| Rag.Windows | services/rag_service.py:376-379 | at most one combination per window |
| Rag.WindowCombos | services/rag_service.py:374-379 | the loop over windows computes `Windows`; nothing for fewer than six numbers |
| Rag.FallbackExtraction | services/rag_service.py:366-381 | the result is `Extracted` of the lines of the text |
| Rag.WindowsAreCombinations | services/rag_service.py:376-379 | every emitted window is six distinct numbers of 1..45, ascending |
| Rag.ExtractedAreCombinations | services/rag_service.py:366-381 | every emitted combination is six distinct numbers of 1..45, ascending |
| Rag.LineCombosAreWindows | services/rag_service.py:374-379 | a line with fewer than six kept numbers gives nothing; otherwise each combination is a sorted window, at most k − 5 of them |
| Rag.WindowsFromWindows | services/rag_service.py:376-377 | each combination of the first n windows is one of those windows sorted |
| Rag.RandomCombinationGenerator | services/rag_service.py:266-292 | the result is `Kept` after exactly the attempts the loop makes: it stops at the first point where `num_combinations` are kept or `num_combinations × 5` attempts are made, and not before; at most `num_combinations` combinations, all of them distinct, each a sorted sample with sum in 90..200 |
| Rag.KeepIfPlausible | services/rag_service.py:281-289 | a sample is appended exactly when its sum is in 90..200 and it is not already present; otherwise the list is unchanged |
| Rag.KeptStep | services/rag_service.py:274-289 | attempt k appends its sorted sample exactly when the sum is in 90..200 and it is new; otherwise the list is unchanged |
| Rag.KeptIsGenerated | services/rag_service.py:274-289 | the kept combinations have no repeats, each is a sorted sample of an earlier attempt with sum in 90..200, and each is a valid combination whenever the samples are draws |
| Rag.KeptHasEveryPlausible | services/rag_service.py:274-289 | every sorted sample with sum in 90..200 among the attempts made is kept; nothing plausible is dropped |
| Rag.KeptGrows | services/rag_service.py:288-289 | later attempts only append: the combinations kept earlier stay in place, in the order they were found |
| Rag.KeepAllSound | services/rag_service.py:281-289 | keeping candidates in turn yields no repeats, and only candidates whose sum is in 90..200 |
| Rag.KeepAllComplete | services/rag_service.py:281-289 | every candidate whose sum is in 90..200 ends up kept |
| Combos.SortAscPermutes | services/duplicate_checker.py:73 | `sorted()` gives a permutation of its input |
| Combos.SortAscOfPermutation | services/duplicate_checker.py:73 | permutations sort to the same list |
| Combos.SortAscOfDraw | services/random_generator.py:41 | a valid draw sorts to a strictly ascending valid combination |
| Combos.DistinctIffSetSize | utils/validators.py:22 | `len(set(s)) == len(s)` iff no value repeats |

## Left out

- Randomness: `secrets.SystemRandom` and `random.sample` are inputs. The
  model makes no claim about distribution or unpredictability.
- RandomGenerator.GenerateCombination: the endless `while True` loop is run
  over a finite prefix of the draw stream. `None` means it has not returned
  within that prefix.
- The clock: `datetime.now()` is an integer parameter in microseconds.
  Timestamp formatting, `draw_date` and the date parsing in
  `from_db_row` are not modelled.
- Database, repository and network calls are inputs: their value or the
  fact that they raised. This covers the repository fetches, the INSERT and
  `LAST_INSERT_ID`, the data service behind the duplicate checker, and the
  Telegram and LLM calls.
- PredictionService.SimplifiedPredictionService.GeneratePredictions: the
  generic `except Exception` wrap cannot fire, because no other exception
  can arise in the modelled code. The PredictionGenerationError
  pass-through is modelled.
- Analysis.GetComprehensiveAnalysis and the analyzers: their
  `except Exception` wraps into AnalysisError cannot fire for integer
  draws, so they are not modelled.
- Analysis.AnalyzeNumberParity and Analysis.AnalyzeSumDistribution: they
  return the integer numerators. Dividing by the number of draws (floating
  point) is left out.
- Prediction.FromDict: it requires every present key to hold its field's
  type (`WellTyped`). The dataclass converts nothing, so `from_dict` would
  store a value of any other type as it is; such dicts are outside the model.
- LottoDraws: a cell is an integer, a string or `None`. Other Python
  types are not distinguished.
- Text.ParseInt models `int()` on ASCII digits, optional sign,
  underscores and surrounding whitespace. Unicode digits are not covered.
- Rag.IsDigitToken models `str.isdigit()` on ASCII digits only.
- Rag.ValidateCombination: floats and objects are refused without their
  payload, since `_validate_combination` refuses every non-integer.
- The JSON extraction of the RAG service, the LLM call, its retries and cost
  accounting, and the statistical fallback are not modelled.
- Rag.RandomCombinationGenerator returns the attempt count that the service
  only logs.
- Logging and `user_id` have no effect on results and are left out.
- Concurrency: `asyncio` callers sharing the duplicate checker's cache are
  not modelled; the model is sequential.
- The bot's other commands, polling, retries of `send_message`, and the
  lookups behind `/result` are not modelled. Only the reply lines and their
  split are.
- `TelegramNotifier.send_predictions` is not modelled; `_format_message` is.

## Findings

| source | as written | input that shows it | evidently intended | confidence | as-written member | corrected member |
|---|---|---|---|---|---|---|
| services/data_service.py:184-186, 203-205 | a refused INSERT raises `DataLoadError("예측 저장 실패: 데이터베이스 오류")` inside the `try`; the generic `except Exception` catches it and raises a new DataLoadError whose message is `"예측 저장 실패: " + "예측 저장 실패: 데이터베이스 오류"` | a valid combination with the INSERT reporting 0 affected rows | the service's own DataLoadError passes through unchanged, as ValidationError does | not executed | DataService.StoreFailurePrefixedTwice | DataService.SaveOutcomes |
