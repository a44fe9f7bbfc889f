# LottoForecast core, modelled in Dafny

LottoForecast is a EuroMillions companion app. Its server stores draws,
predictions and model records in memory. It ingests draw histories from
uploaded CSV files and generates predictions by sampling from the most
frequently drawn numbers. It also reports a frequency analysis of the stored
history and computes when the next Tuesday or Friday draw takes place. The
client has its own scoring engine, which scores a random line by its
odd/even, low/high and consecutive-number balance. It also has a budget
dashboard, which splits a jackpot converted to rand over four categories and
taxes the interest the fixed-deposit share earns. A euro-to-rand converter
filters what the user types and shows the amount converted to two decimals.

The model is split into these modules:

- `Common`: sequence predicates, sorts, random choice of distinct values.
- `JsText`: JavaScript `trim`, `split`, `parseInt`, `parseFloat`, `/\d+/g`.
- `Schema`: the records.
- `Storage`: the `MemStorage` class.
- `Frequency`: frequency maps in insertion order, decile buckets.
- `NextDraw`: the next-draw rule.
- `CsvIngest`: the upload route.
- `PredictionGenerator`: the prediction route.
- `FrequencyAnalysis`: the analysis route.
- `MLEngine`: the client engine.
- `Budget`: the budget dashboard.
- `PredictionsPanel`: the panel's next-draw label.
- `CurrencyConverter`: the currency converter.

Some things the source gets from its runtime are modelled differently:

- **JavaScript `Map`s** are sequences in insertion order.
- **`Math.random()`** is a nondeterministic choice.
- **The clock** is a `now` parameter.
- **Date strings** are compared through a caller-supplied `dateKey` function.
- **JavaScript numbers** are mathematical integers and reals.

The code is followed wherever it departs from its own comments or its
documentation:

- A CSV row whose second field is empty or equal to the date gets a draw number from 1000 to 10998 (`Math.floor(Math.random() * 9999) + 1000`), not from 1000 to 9999. A second field that is present, differs from the date and is no number gives draw number 0.
- Numbers scanned from a CSV row are not deduplicated.
- The jackpot field's currency strip `/[€,EUR]/g` removes each of the characters `€ , E U R`, not the word "EUR".
- An odd/even tally with `num % 2 === 1` counts negative odd numbers as even.
- The client engine's "Low" label can never be reached.

## Model

| member | source | states |
|---|---|---|
| NextDraw.DrawDayOffset | server/routes.ts:20-52 | the offset lands on a Tuesday or Friday whose 21:05 is still ahead, no earlier such draw exists, and it is at most 4 days away |
| NextDraw.SameDayIffBeforeDraw | server/routes.ts:29-46 | the draw is today exactly on a Tuesday or Friday before 21:05 |
| PredictionsPanel.NextDrawLabelSpec | client/src/components/predictions-panel.tsx:20-69 | the client label names the weekday and the date of the server's next draw: both copies of the weekday table agree |
| PredictionsPanel.NextDrawLabelShape | client/src/components/predictions-panel.tsx:20-69 | every label is "Tuesday, " or "Friday, " plus a date at most 4 days ahead plus " at 21:05 CET" |
| PredictionsPanel.SameDayLabel | client/src/components/predictions-panel.tsx:30-54 | on a draw day before 21:05 the label names today and today's date |
| Schema.PatternLabel | server/routes.ts:318 | "High" iff the confidence is at least 85, "Medium" iff it is in [70, 85), "Low" iff below 70 |
| Storage.ActiveIndex | server/storage.ts:136-138 | `find` returns the first model whose isActive is "true", and none exactly when no model is active |
| Storage.TrainedAccuracyBounds | server/storage.ts:73-79 | the retrained accuracy lies in [85, 98.5], exceeds 85 once a draw is stored, saturates from 675 draws on, and is 87 at 100 draws |
| Storage.FreshIdAppend | server/storage.ts:62-68 | setting a value under the next id appends it and keeps ids distinct and increasing |
| Storage.IndexOfStored | server/storage.ts:141 | looking up a stored record by its id finds that record |
| Storage.DefaultStore | server/storage.ts:42-57 | a store holding only the default model satisfies the store invariant: ids increasing below the next ids, an active model, and its training count equal to the number of draws |
| Storage.DrawAdded | server/storage.ts:61-84 | on a valid store, `draws.set` of the next id appends, `models.set` of the active model's id rewrites it in place, and the store stays valid |
| Storage.PredictionAdded | server/storage.ts:101-110 | on a valid store, `predictionsList.set` of the next id appends and the store stays valid |
| Storage.ModelAdded | server/storage.ts:125-134 | `models.set` of the next id appends, keeps the ids increasing, and keeps a valid store valid because an earlier active model stays the one `find` returns |
| Storage.ModelUpdated | server/storage.ts:140-148 | rewriting a stored model under its own id, its isActive unchanged, replaces it in place and keeps the store valid |
| Storage.MemStorage.constructor | server/storage.ts:42-57 | the store starts empty except for the default active model v2.4.1 with id 1; the next ids are 1, 1 and 2 |
| Storage.MemStorage.CreateDraw | server/storage.ts:61-84 | the draw gets the next id and is appended; the active model's training count, accuracy and training time are updated; nothing else changes |
| Common.SortDescStable | server/storage.ts:86-90 | the sort is stable: among equal dates the draws keep the `Map`'s insertion order, so their ids increase |
| Storage.MemStorage.GetAllDraws | server/storage.ts:86-90 | a permutation of the stored draws, newest date first, and in ascending id (insertion) order among draws of the same date |
| Storage.DrawsByDateUnique | server/storage.ts:86-90 | there is only one such listing of draws with distinct ids, so the history every route sees is determined by the stored draws |
| Storage.MemStorage.GetDrawsByDateRange | server/storage.ts:92-99 | exactly the stored draws whose date lies in the inclusive range, each once and in insertion (ascending id) order |
| Storage.MemStorage.CreatePrediction | server/storage.ts:101-110 | the prediction gets the next id and is appended; nothing else changes |
| Storage.MemStorage.GetLatestPrediction | server/storage.ts:112-117 | none iff there are no predictions, else the earliest-inserted one among those with the latest createdAt |
| Storage.MemStorage.GetAllPredictions | server/storage.ts:119-123 | a permutation of the predictions, newest first, and in insertion (ascending id) order among equal creation times |
| Storage.MemStorage.CreateModel | server/storage.ts:125-134 | the model gets the next id and is appended; nothing else changes |
| Storage.MemStorage.GetActiveModel | server/storage.ts:136-138 | the first active model, none iff no model is active |
| Storage.ModelMissing | server/storage.ts:141-144 | `models.get(id)` finds nothing exactly when no stored model has the id |
| Storage.MemStorage.UpdateModelAccuracy | server/storage.ts:140-148 | fails with ModelNotFound when the lookup finds no model (by ModelMissing: when no model has the id), leaving the models unchanged; otherwise the model found alone gets the new accuracy and training time, in place |
| Storage.MemStorage.GetAllModels | server/storage.ts:150-154 | a permutation of the models, most recently trained first, and in insertion (ascending id) order among equal training times |
| Storage.MemStorage.ClearAllData | server/storage.ts:156-171 | the store is back to its initial state: only the default active model remains |
| JsText.TrimStartSpec | server/routes.ts:92 | the start of `trim` drops exactly the leading white space: what remains is a suffix that starts with a non-space or is empty |
| JsText.TrimEndSpec | server/routes.ts:92 | the end of `trim` drops exactly the trailing white space: what remains is a prefix that ends with a non-space or is empty |
| JsText.TrimEmptyIffBlank | server/routes.ts:86 | a line is dropped by `filter(line => line.trim())` iff it is all whitespace |
| JsText.SplitJoin | server/routes.ts:86-92 | splitting on a separator and joining back gives the original text |
| JsText.ParseIntOfDigits | server/routes.ts:102 | `parseInt` of a digit string is its decimal value |
| JsText.ParseFloatOrZero | client/src/components/budget-dashboard.tsx:53-55 | `parseFloat(x) \|\| 0` is 0 when the text does not parse |
| CsvIngest.TrimAll | server/routes.ts:92 | each field is the trimmed piece at the same position |
| CsvIngest.NonBlankLines | server/routes.ts:86 | a line is in the result iff it is a non-blank line of the input: none is added, none is lost |
| CsvIngest.PersistableFields | server/routes.ts:93-101 | a line is stored iff it has at least two fields and a non-empty date; the date is the first field |
| CsvIngest.StripCurrency | server/routes.ts:120 | a character is left iff it is in the field and is not one of `€ , E U R` |
| CsvIngest.Keep | server/routes.ts:131-132 | a number is kept iff it is in the input and lies in the range |
| CsvIngest.KeepKeep | server/routes.ts:131-147 | the second range test in the push loop lets everything through that the filter kept |
| CsvIngest.AdmitSpec | server/routes.ts:134-150 | the capped push loop yields the first `cap` of the in-range numbers |
| CsvIngest.AdmitLoop | server/routes.ts:136-149 | the push loop computes the admitted numbers |
| CsvIngest.ScanOneField | server/routes.ts:116-150 | one field's pass: jackpot field, won field or number field |
| CsvIngest.ScanRow | server/routes.ts:115-151 | the loop over fields 2 and up computes the row scan |
| CsvIngest.ScanNumbers | server/routes.ts:131-150 | the scanned main numbers are the first five in-range numbers of the number fields, and the stars the first two |
| CsvIngest.ScanWon | server/routes.ts:125-128 | the row reads as won iff some field that is not a jackpot field mentions "yes" or "won" |
| CsvIngest.ScanAmount | server/routes.ts:119-122 | the jackpot is the value of the last jackpot field, 0 when there is none |
| CsvIngest.ScanFieldFlags | server/routes.ts:119-128 | a jackpot field sets the amount only; a won field sets the flag only |
| CsvIngest.PadAndSort | server/routes.ts:154-169 | padding and sorting gives exactly `target` sorted in-range numbers; each scanned value occurs as often as in the scan, and each added value is new and occurs once |
| CsvIngest.ChooseDrawNumber | server/routes.ts:99-106 | the parsed draw number when one is given and differs from the date, else a random one in [1000, 10998] |
| CsvIngest.BuildDrawInput | server/routes.ts:96-169 | the record built from a row: its date, draw number, padded numbers, jackpot and won flag |
| CsvIngest.PersistableSnoc | server/routes.ts:171-182 | the counted lines grow by a line exactly when it is stored |
| CsvIngest.RecordedAt | server/routes.ts:171-182 | the k-th stored draw is built from the fields of the k-th stored line: its date, its draw number rule, its first five and two in-range numbers padded and sorted, its jackpot and won flag |
| CsvIngest.IngestLine | server/routes.ts:92-186 | a line is stored iff it is persistable; the appended draw is built from that line's fields; the active model is retrained for the new count; predictions are untouched |
| CsvIngest.IngestTurn | server/routes.ts:91-186 | one turn of the upload loop extends the persisted lines and the stored draws by the line exactly when it is persistable |
| CsvIngest.IngestRows | server/routes.ts:91-188 | the count equals the number of persistable rows; one draw per such row is appended in order, each built from its row's fields; earlier draws and the predictions are untouched; the store stays valid |
| CsvIngest.Ingest | server/routes.ts:86-188 | the same for the whole upload, after the header line |
| CsvSample.SplitOfJoin | server/routes.ts:92 | splitting joined fields that hold no comma gives the fields back |
| CsvSample.DigitField | server/routes.ts:116-132 | a field of digits is a number field whose only number is its decimal value |
| CsvSample.PaddedFull | server/routes.ts:154-169 | when five (two) numbers were already scanned, padding adds nothing and the sorted scan is kept |
| CsvSample.SampleRowStored | server/routes.ts:91-182 | the row `2025-07-04,1851,3,16,23,38,47,7,11` is stored as date 2025-07-04, draw 1851, main numbers [3, 16, 23, 38, 47], stars [3, 7] (11 is cut off by the cap of two), jackpot 0 and not won |
| Frequency.TallyKeys | server/routes.ts:404-408 | the frequency map has one entry per distinct drawn value |
| Frequency.TallyCounts | server/routes.ts:404-408 | each entry counts its value's occurrences |
| Frequency.TallyOrder | server/routes.ts:404-408 | the entries follow the order of each value's first occurrence |
| Frequency.EntriesOrdered | server/routes.ts:421 | of two entries, the earlier one's value first occurs earlier |
| Frequency.CountFrequencies | server/routes.ts:404-408 | the nested forEach builds the frequency map of the flattened history |
| Frequency.MostFrequent | server/routes.ts:424 | `\|\| 23` never yields 0 |
| Frequency.LeastFrequent | server/routes.ts:425 | `\|\| 11` never yields 0 |
| Frequency.MostFrequentAgainst | server/routes.ts:421-424 | the entry first of the highest count occurs at least as often as any drawn value, and no later than one occurring as often |
| Frequency.LeastFrequentAgainst | server/routes.ts:421-425 | the entry last of the lowest count occurs at most as often as any drawn value, and no earlier than one occurring as rarely |
| Frequency.MostFrequentSpec | server/routes.ts:421-424 | the reported number is the most frequent value, ties going to the first drawn; a value 0 reads as 23 |
| Frequency.LeastFrequentSpec | server/routes.ts:421-425 | the reported number is the least frequent value, ties going to the last drawn; a value 0 reads as 11 |
| Frequency.BucketCountFlat | server/routes.ts:411-418 | the per-draw reduce counts the in-range numbers of the flattened history |
| Frequency.FrequencyDataSum | server/routes.ts:396-418 | the five decile counts add up to the number of drawn values in 1..50 |
| FrequencyAnalysis.SequentialAccuracyBounds | server/routes.ts:454 | the accuracy lies in [70, 95], is 70 only without draws, and saturates from 1250 draws on |
| FrequencyAnalysis.CountPatternGroup | server/routes.ts:432-437 | the inner `forEach` over one draw moves the odd/even and low/high tallies on from the numbers seen before to those numbers followed by the draw's |
| FrequencyAnalysis.CountPatterns | server/routes.ts:428-439 | the odd, even, low and high tallies and the sum over all drawn numbers |
| FrequencyAnalysis.Analyze | server/routes.ts:393-460 | 404 iff there is no history; otherwise buckets, most and least frequent, trending equal to most frequent, tallies, rounded average sum ±20 and accuracy |
| FrequencyAnalysis.FrequencyRoute | server/routes.ts:388-462 | 404 iff the store has no draws; otherwise, over the stored draws listed as `getAllDraws` lists them: the buckets adding up to the drawn values in 1..50, the most and least frequent numbers (with a maximal and a minimal count when no 0 was drawn), trending set to the most frequent number (never 0), odd + even and low + high equal to the count of drawn values, the average sum rounded over the number of draws ±20, and the accuracy |
| PredictionGenerator.VersionOf | server/routes.ts:317 | the active model's version when it is set, else "v2.4.1"; never empty |
| PredictionGenerator.Pool | server/routes.ts:245-285 | the values a selection loop can pick: 1..n without history, the top of the ranking (or the fallback) otherwise |
| PredictionGenerator.GenerateInput | server/routes.ts:237-319 | none iff a selection loop can never finish; else five distinct sorted numbers and two stars from their pools, the history confidence, its label and the version |
| PredictionGenerator.GeneratePrediction | server/routes.ts:237-321 | over the stored draws listed as `getAllDraws` lists them: none iff a selection loop can never finish, else five numbers and two stars chosen from that history's pools; the prediction is appended under the next id; draws and models are untouched; without history the numbers lie in 1..50 and 1..12 |
| PredictionGenerator.ConfidenceBounds | server/routes.ts:243-288 | the confidence lies in [75, 97], is 75 iff there is no history, saturates from 147 draws on, and is "High" iff there are 67 or more draws; never "Low" |
| PredictionGenerator.RankedKeysDistinct | server/routes.ts:260-263 | the ranking holds each value once |
| PredictionGenerator.RankedEntry | server/routes.ts:260-263 | each ranked entry is a drawn value with its count |
| PredictionGenerator.RankedLength | server/routes.ts:260-263 | the ranking has one entry per distinct drawn value |
| PredictionGenerator.TopKeysCount | server/routes.ts:268-269 | the first m ranked entries give m distinct candidates |
| PredictionGenerator.CandidatesCount | server/routes.ts:268-269 | without a drawn 0 the pool is the top min(top, distinct values) values and the fallback is unreachable |
| PredictionGenerator.StallsIff | server/routes.ts:267-285 | without a drawn 0, the request hangs iff fewer than 5 distinct main numbers or 2 distinct stars were ever drawn |
| PredictionGenerator.CandidatesMostFrequent | server/routes.ts:260-269 | every candidate was drawn at least as often as any drawn value left out |
| MLEngine.GenerateMainNumbers | client/src/lib/ml-engine.ts:46-60 | five distinct sorted numbers in 1..50 |
| MLEngine.GenerateLuckyStars | client/src/lib/ml-engine.ts:62-75 | two distinct sorted stars in 1..12 |
| MLEngine.CountConsecutive | client/src/lib/ml-engine.ts:107-111 | the loop counts adjacent consecutive pairs |
| MLEngine.AnalyzeNumberPatterns | client/src/lib/ml-engine.ts:94-120 | the score of the odd/even, low/high and consecutive tests |
| MLEngine.NumberScoreBounds | client/src/lib/ml-engine.ts:114-119 | the score lies in [0, 1] and is 1 iff all three tests pass |
| MLEngine.FiveNumberBalance | client/src/lib/ml-engine.ts:96-105 | for five numbers, the balance tests pass iff there are two or three odd (resp. low) ones |
| MLEngine.StarScoreBounds | client/src/lib/ml-engine.ts:122-130 | the star score lies in [0, 1], is 1 iff the sum is 13, and is 0 iff the sum is 10 or more from 13 |
| MLEngine.ConfidenceRange | client/src/lib/ml-engine.ts:77-92 | the confidence lies in [75, 95], so the label is never "Low" |
| MLEngine.CalculateConfidence | client/src/lib/ml-engine.ts:77-84 | `min(95, 75 + 15 * numberScore + 10 * starScore)`, within [75, 95] |
| MLEngine.AnalyzePatternMatch | client/src/lib/ml-engine.ts:86-92 | "High" iff the confidence is at least 85, otherwise "Medium" |
| MLEngine.GeneratePrediction | client/src/lib/ml-engine.ts:33-44 | a valid line, its confidence, its label (never "Low") and version v2.4.1 |
| MLEngine.AnalyzeHistoricalPatterns | client/src/lib/ml-engine.ts:133-193 | the fixed default without draws; else the buckets (adding up to the in-range count), the most and least frequent numbers and the constants |
| Budget.JackpotZar | client/src/components/budget-dashboard.tsx:53-54 | a zero jackpot is zero rand; with no live rate a positive jackpot is worth more rand than euros |
| Budget.AmountsSum | client/src/components/budget-dashboard.tsx:58-61 | the four amounts add up to the jackpot times the total percentage, which is the whole jackpot iff the total is 100 |
| Budget.SetShare | client/src/components/budget-dashboard.tsx:92-95 | the edited category takes the value; the others keep theirs |
| Budget.SetShareTotal | client/src/components/budget-dashboard.tsx:92-97 | an edit moves the total by exactly the change in that share |
| Budget.BadgeVariant | client/src/components/budget-dashboard.tsx:106 | "default" iff the percentages total 100, "destructive" otherwise |
| Budget.DefaultAllocationComplete | client/src/components/budget-dashboard.tsx:41-46 | the starting split totals 100 |
| Budget.TaxRate | client/src/components/budget-dashboard.tsx:69-76 | the rate lies in [0.18, 0.45]; it is 0.18 iff the interest is at most 237100 and 0.45 iff above 1817000 |
| Budget.TaxRateMonotone | client/src/components/budget-dashboard.tsx:69-76 | more interest is never taxed at a lower rate |
| Budget.CalculateTax | client/src/components/budget-dashboard.tsx:64-88 | annual interest is amount × rate / 100 and 12 × monthly; all of it is taxable at its bracket's rate; net is monthly × (1 − rate) |
| Budget.NetIncomeShare | client/src/components/budget-dashboard.tsx:64-88 | between 55 % and 82 % of the monthly interest is kept, and the tax never exceeds the interest |
| Budget.BracketCliff | client/src/components/budget-dashboard.tsx:69-79 | at each of the six bracket bounds, an interest up to 3 % above the bound nets less than the bound itself, because the whole interest is taxed at one rate |
| Budget.Render | client/src/components/budget-dashboard.tsx:53-97 | the figures: jackpot, investment share, amounts adding up to jackpot × total / 100, and the tax on the investment |
| CurrencyConverter.MatchesAmountIff | client/src/components/currency-converter.tsx:45 | `/^\d*\.?\d*$/` accepts exactly texts of digits and points with at most one point |
| CurrencyConverter.MatchesAmountPrefix | client/src/components/currency-converter.tsx:45 | deleting the last character of an accepted text leaves an accepted text |
| CurrencyConverter.AmountReads | client/src/components/currency-converter.tsx:31-32 | an accepted text fails `parseFloat` iff it is "" or "."; otherwise it reads as a non-negative number |
| CurrencyConverter.ParseAmount | client/src/components/currency-converter.tsx:31 | an accepted text reads as its whole digits plus its fraction digits |
| CurrencyConverter.DecimalStringValue | client/src/components/currency-converter.tsx:34 | the digits written for a whole number read back as that number |
| CurrencyConverter.Cents | client/src/components/currency-converter.tsx:34 | `toFixed(2)` rounds to the nearest cent |
| CurrencyConverter.ParseFixed2 | client/src/lib/currency-api.ts:64 | `parseFloat` of a two-decimal text gives back its cents over 100 |
| CurrencyConverter.CentsOfCents | client/src/lib/currency-api.ts:64 | rounding an exact cent amount to cents changes nothing |
| CurrencyConverter.RoundTripCents | client/src/lib/currency-api.ts:63-65 | `convertCurrency` rounds a non-negative product to the nearest cent, within half a cent |
| CurrencyConverter.RoundTripText | client/src/lib/currency-api.ts:63-65 | formatting the converted amount to two decimals again shows the same text |
| CurrencyConverter.ZarTextEmpty | client/src/components/currency-converter.tsx:29-41 | the rand field is blank iff the euro text is "" or "." or no rate has loaded |
| CurrencyConverter.ZarTextShows | client/src/components/currency-converter.tsx:29-41 | otherwise it shows amount × rate to two decimals |
| CurrencyConverter.Converter.constructor | client/src/components/currency-converter.tsx:10-11 | both fields start empty |
| CurrencyConverter.Converter.HandleEuroChange | client/src/components/currency-converter.tsx:43-48 | the euro text becomes the new text when that is empty or accepted by the pattern and otherwise stays, so it is always accepted; the rand text is untouched |
| CurrencyConverter.Converter.Refresh | client/src/components/currency-converter.tsx:29-41 | the effect sets the rand text from the euro text and the rate, leaving the euro text alone |

## Left out

- The exchange-rate service, the database storage, the HTTP framing and status codes other than the frequency route's 404, the file upload and the file system are not part of this model. A route is modelled from the storage calls it makes.
- The rendering of the React components is left out; only the values they compute are modelled.
- The singletons (`getInstance`) are left out: they only share one instance.
- JavaScript numbers are modelled as exact integers and reals. IEEE rounding, `NaN` other than a failed parse, `Infinity`, and `toFixed` above 1e21 are not modelled.
- `parseFloat` does not accept "Infinity" in this model, and `parseInt` is exact for any number of digits.
- Dates and time zones are left out. Date strings are compared through a caller-supplied `dateKey`, and the locale-formatted label date is a caller-supplied function of the day offset.
- One `now` stands for every `new Date()` within one call.
- `Math.random()` is a nondeterministic choice. The random accuracies and fallback figures of other routes are not part of this model.
- PredictionGenerator.GenerateInput: a selection loop that can never collect enough distinct values hangs the request in the source; the model returns None instead of looping.
- A rejection loop keeps only the draws that add a value: rejected draws change no state.
- The ratio strings "a:b" and "lo-hi" of the frequency analysis keep their numbers (the tallies and the average sum) instead of the formatted text.
- CsvIngest.IngestRows and CsvIngest.Ingest keep the store valid (the active model counts every draw) but do not state the active model's retrained accuracy and training time after the whole upload; CsvIngest.IngestLine states them for each stored line.
- The `catch` around a CSV row is not modelled: no step of the row can throw once the row has two fields.
- CurrencyConverter.RoundTripCents, CurrencyConverter.RoundTripText and CurrencyConverter.ZarTextShows are stated for non-negative products only. A negative rate, which a live rate never is, is not covered.
- Budget.Dashboard has no contract of its own: it only parses the two typed amounts (0 when they do not parse) and hands them to Budget.Render, which carries the contracts.
