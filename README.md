# cctracker usage accounting, in Dafny

A model of the usage-accounting core of cctracker, a terminal monitor for Claude usage logs.
The model covers the whole path from the log files to the screen:

- path-list parsing and the de-duplicated, modification-ordered list of log files;
- reading JSONL lines into usage entries, with `messageId:requestId` deduplication across files, then a stable sort by timestamp;
- cutting the entries into 5-hour session blocks aligned to reset hours, with gap blocks between distant sessions, and marking the active ones;
- weighting tokens (Opus records count 5 times), plan limits, percentage and status;
- the trailing-hour burn rate, the projection to the end of the session and the depletion time;
- plan auto-detection, confidence analysis and the estimate of unweighted tokens;
- the arithmetic of the display: time remaining, progress-bar cells, colour bands, plan labels;
- one refresh of the monitor, including its switch from the Pro plan to the auto-detected limit.

Instants are integer milliseconds. The clock reading `now` and a fixed local UTC offset are parameters. Token counts are integers; rates, percentages and shares are exact reals. `Math.round` is `floor(x + 1/2)`. The file reader, `JSON.parse` and `new Date(string)` are parameters: `decode` and `parseTime`.

Files:

- `types.dfy`: the shared records.
- `time.dfy`: the date-fns arithmetic the core uses.
- `text.dfy`: the JavaScript string operations the core uses.
- `js_math.dfy`: `Math.round`.
- `stable_sort.dfy`: `Array.prototype.sort` with a numeric comparator.
- One file per core source file: `token_calculator.dfy`, `session_identifier.dfy`, `burn_rate.dfy`, `plan_detector.dfy`, `data_loader.dfy`, `path_discovery.dfy`, `formatter.dfy` and `monitor.dfy`.

Where the source loops or updates objects in place, the model does too, and each such method is proved equal to a specification function:

- `SessionIdentifier` keeps a mutable current block (`OpenBlock`);
- the loops of `calculateWeightedTokens`, `detectMaxTokensFromHistory`, `calculateHourlyBurnRate`, `estimateActualTokens`, `parseJsonlFile`, `loadUsageData` and `findJsonlFiles` are methods;
- `Monitor` is a class whose `Update` reassigns the plan field.

The properties are then proved about those functions.

## Model

| member | source | states |
|---|---|---|
| Types.OrString | src/core/dataLoader.ts:77 | `a \|\| b` on optional strings: `a` when it is a non-empty string, else `b` |
| Time.MinutesBetween | src/core/sessionIdentifier.ts:28-31 | `differenceInMinutes`: whole minutes truncated toward zero, bracketing the difference from the correct side for either sign |
| Time.MinutesBetweenAntisymmetric | src/core/burnRateCalculator.ts:33 | swapping the instants negates the minutes |
| Time.MinutesBetweenMonotone | src/core/burnRateCalculator.ts:33 | a later first instant never gives fewer minutes |
| Time.MinutesBetweenAntitone | src/core/burnRateCalculator.ts:33 | a later second instant never gives more minutes |
| Time.LocalHour | src/core/sessionIdentifier.ts:103 | `getHours()` in the local zone lies in 0..23 |
| Time.LocalDayStart | src/core/sessionIdentifier.ts:108 | local midnight of the day of `t` is at most `t`, less than a day before it, on a day boundary |
| Time.SetHoursWholeHour | src/core/sessionIdentifier.ts:108 | `setHours(h, 0, 0, 0)` lands on a whole local hour, so `startOfHour` changes nothing |
| Time.SetHoursOnHour | src/core/sessionIdentifier.ts:108 | for `h < 24` the result's local hour is `h` |
| Time.SetHoursNotLater | src/core/sessionIdentifier.ts:108 | an hour not after the current local hour gives an instant not after `t` |
| Time.SetHoursLater | src/core/sessionIdentifier.ts:108 | a later hour of the day gives an instant after `t` |
| Text.ToLower | src/core/tokenCalculator.ts:14 | `toLowerCase` keeps the length and lowers each capital letter A-Z |
| Text.ContainsAt | src/core/tokenCalculator.ts:17 | an occurrence at a known position makes `includes` true |
| Text.ContainsChars | src/core/tokenCalculator.ts:17 | every character of a contained string occurs in the string searched |
| Text.MissingCharNotContained | src/core/tokenCalculator.ts:17 | a string with a character the other lacks is not contained in it |
| Text.ToLowerNoCapitals | src/core/tokenCalculator.ts:14 | lower-casing a string without capitals changes nothing |
| Text.Trim | src/utils/pathDiscovery.ts:81 | `trim()` returns a substring of the input with no whitespace at either end |
| Text.TrimTrimmed | src/utils/pathDiscovery.ts:97 | trimming a string with no whitespace at either end changes nothing |
| Text.TrimEmptyIff | src/core/dataLoader.ts:50 | trimming gives the empty string exactly when the line is all whitespace |
| Text.Split | src/utils/pathDiscovery.ts:96 | `split(sep)` gives at least one piece, none containing the separator |
| Text.JoinSplit | src/utils/pathDiscovery.ts:96 | joining the pieces of a split with the separator gives the string back |
| Text.SplitJoin | src/utils/pathDiscovery.ts:96 | splitting a join of separator-free pieces gives the pieces back |
| Text.IndexOfFirst | src/utils/pathDiscovery.ts:96 | the first occurrence of a character is the one with none before it |
| Text.NatToString | src/utils/pathDiscovery.ts:41 | the decimal rendering of a number is a non-empty string of digits |
| Text.ParseNatToString | src/utils/pathDiscovery.ts:41 | reading the decimal rendering back gives the number |
| JsMath.Round | src/core/planDetector.ts:113 | `Math.round(x)` is the integer within one half of `x`, halves rounding up |
| JsMath.RoundMonotone | src/cli/formatter.ts:7 | rounding never reverses the order of two values |
| JsMath.RoundWhole | src/cli/formatter.ts:7 | a whole number rounds to itself |
| StableSort.Insert | src/core/dataLoader.ts:35 | placing one element adds exactly that element |
| StableSort.SortBy | src/core/dataLoader.ts:35 | the sort result is ordered by key and is a permutation of the input |
| StableSort.InsertSorted | src/core/dataLoader.ts:35 | inserting into an ordered sequence keeps it ordered |
| StableSort.FilterKeyAppend | src/core/dataLoader.ts:35 | the elements of one key in a concatenation are those of each part, in order |
| StableSort.InsertFilterKey | src/core/dataLoader.ts:35 | an inserted element goes after every element with its own key; other keys are unchanged |
| StableSort.SortByStable | src/core/dataLoader.ts:35 | for every key, the elements with that key keep their input order |
| StableSort.SortBySortedIdentity | src/utils/pathDiscovery.ts:50-54 | sorting an already ordered sequence changes nothing |
| TokenCalculator.CalculateWeightedTokens | src/core/tokenCalculator.ts:10-30 | the loop over the three model branches computes the reference weighted sum |
| TokenCalculator.CalculateBlockWeightedTokens | src/core/tokenCalculator.ts:32-34 | a block weighs what its entries weigh |
| TokenCalculator.WeightedTokensAppend | src/core/tokenCalculator.ts:13-27 | weighting is additive over concatenated entry lists |
| TokenCalculator.WeightedTokensBounds | src/core/tokenCalculator.ts:15-26 | for non-negative counts the weighted total lies between the raw input+output total and five times it |
| TokenCalculator.WeightedTokensIgnoresCache | src/core/tokenCalculator.ts:15 | cache counts, timestamps, costs and ids never change the weight |
| TokenCalculator.OpusModelIsOpus | src/core/tokenCalculator.ts:17 | the Opus model name of the tests is weighted 5 times |
| TokenCalculator.OpusModelIsLowerCase | src/core/tokenCalculator.ts:14 | that name is already lower case |
| TokenCalculator.SonnetModelIsNotOpus | src/core/tokenCalculator.ts:20 | the Sonnet model name of the tests is weighted once |
| TokenCalculator.SonnetModelIsLowerCase | src/core/tokenCalculator.ts:14 | that name is already lower case |
| TokenCalculator.OpusAndSonnetExamples | src/core/tokenCalculator.ts:17-22 | 100+50 Opus tokens weigh 750; with 200+100 Sonnet tokens, 1050 |
| TokenCalculator.TotalWeightedTokensIsWeightOfNonGapEntries | src/core/tokenCalculator.ts:36-40 | the total over blocks is the weight of all entries of the non-gap blocks |
| TokenCalculator.LastLiveIndex | src/core/tokenCalculator.ts:43-50 | the last block that is active and not a gap, or none when there is none |
| TokenCalculator.ActiveSessionTokens | src/core/tokenCalculator.ts:42-52 | 0 without a live block, else the weight of the last live block |
| TokenCalculator.MaxHistory | src/core/tokenCalculator.ts:54-65 | the maximum is non-negative, bounds every non-gap block's weight and is 0 or one of them |
| TokenCalculator.DetectMaxTokensFromHistory | src/core/tokenCalculator.ts:54-65 | the loop computes that maximum |
| TokenCalculator.MaxHistoryAttained | src/core/tokenCalculator.ts:54-65 | with non-negative counts and a non-gap block, the maximum is some non-gap block's weight |
| TokenCalculator.NonGapEntriesContains | src/core/tokenCalculator.ts:37-39 | every entry of a non-gap block is among the non-gap entries |
| TokenCalculator.DeterminePlanLimit | src/core/tokenCalculator.ts:67-74 | a fixed plan's limit; for custom_max the history maximum, or 44000 when it is 0; always positive |
| TokenCalculator.CustomLimitCoversHistory | src/core/tokenCalculator.ts:67-71 | the auto-detected limit is at least every non-gap block's weight |
| TokenCalculator.TokenPercentage | src/core/tokenCalculator.ts:76-79 | 0 for a zero limit; at most 100; exactly 100 at or over the limit; otherwise `p * limit = 100 * current` |
| TokenCalculator.TokenStatus | src/core/tokenCalculator.ts:81-85 | critical iff at least 90, warning iff in [50, 90), safe iff below 50 |
| TokenCalculator.TokenStatusMonotone | src/core/tokenCalculator.ts:81-85 | a higher percentage never gives a milder status |
| Sessions.LastAtOrBefore | src/core/sessionIdentifier.ts:104-105 | `filter(h => h <= hour).pop()`: none iff every reset hour is after `hour`, else a listed hour not after it |
| Sessions.LastAtOrBeforeIsGreatest | src/core/sessionIdentifier.ts:104-105 | for ascending reset hours that hour is the greatest one not after `hour` |
| Sessions.AlignedHour | src/core/sessionIdentifier.ts:104-106 | the hour picked is always one of the reset hours |
| Sessions.AlignedHourCases | src/core/sessionIdentifier.ts:104-106 | it is a non-zero reset hour not after `hour`, or the last reset hour when none is (0 is falsy) |
| Sessions.AlignedStartOnResetHour | src/core/sessionIdentifier.ts:102-109 | a block start is on a whole local hour, and on a reset hour when they are hours of a day |
| Sessions.AlignedStartBeforeOrAfter | src/core/sessionIdentifier.ts:102-109 | the start is not after the record when a reset hour fits, and later the same day when none does |
| Sessions.GapBlock | src/core/sessionIdentifier.ts:82-100 | a gap block is empty, inactive, spans the given instants and lasts their whole minutes |
| Sessions.MarkActive | src/core/sessionIdentifier.ts:144-151 | a block is active iff it is not a gap and ends after `now`; nothing else changes |
| Sessions.DistinctModelsSpec | src/core/sessionIdentifier.ts:123-125 | `models` holds no name twice and holds exactly the non-empty model names of the records |
| Sessions.FlattenAppend | src/core/sessionIdentifier.ts:25 | the records of concatenated block lists are concatenated |
| Sessions.FlattenMarkActive | src/core/sessionIdentifier.ts:147-150 | marking activity keeps every record in place |
| Sessions.NewWindowOk | src/core/sessionIdentifier.ts:59-80 | a new block holding its first record is well formed |
| Sessions.AddEntryKeepsWindowOk | src/core/sessionIdentifier.ts:111-128 | adding a record not after the block end keeps the block well formed |
| Sessions.FinalizeKeepsWindowOk | src/core/sessionIdentifier.ts:130-142 | finalising keeps it well formed and fixes its duration to the last record |
| Sessions.StepOk | src/core/sessionIdentifier.ts:21-45 | one loop iteration preserves the loop invariant |
| Sessions.StepHeld | src/core/sessionIdentifier.ts:21-45 | one iteration loses no record and adds the new one |
| Sessions.ClosedBlocksAppend | src/core/sessionIdentifier.ts:24-38 | closing a block and perhaps emitting a gap keeps the closed blocks well formed |
| Sessions.RunOkAll | src/core/sessionIdentifier.ts:21-45 | the invariant holds after every prefix of the records |
| Sessions.RunHeld | src/core/sessionIdentifier.ts:21-45 | after the pass the blocks hold the input records in order |
| Sessions.RunHasOpenBlock | src/core/sessionIdentifier.ts:22 | only the first record finds no open block |
| Sessions.CloseOk | src/core/sessionIdentifier.ts:47-50 | the closed blocks are well formed and never end with a gap |
| Sessions.PartitionWindows | src/core/sessionIdentifier.ts:13-53 | every session block is well formed, finalised, and active iff it ends after `now` |
| Sessions.PartitionGaps | src/core/sessionIdentifier.ts:28-38 | every gap is empty, inactive, longer than a session and between two session blocks |
| Sessions.PartitionEmptyIff | src/core/sessionIdentifier.ts:14-16 | no blocks exactly when there are no records |
| Sessions.PartitionKeepsRecords | src/core/sessionIdentifier.ts:13-53 | the blocks hold exactly the input records in input order, up to re-stamped first records |
| Sessions.SumsIgnoreTimestamps | src/core/sessionIdentifier.ts:114-125 | counts, cost and models depend on the records, not their timestamps |
| Sessions.JoinRule | src/core/sessionIdentifier.ts:21-44 | a record not after the open block's end (`shouldStartNewBlock`, lines 55-57) joins it and leaves the closed blocks alone |
| Sessions.NewBlockRule | src/core/sessionIdentifier.ts:22-41 | a later record closes the block, may emit a gap, and opens a new block holding only itself |
| Sessions.SingleWindowShape | src/core/sessionIdentifier.ts:13-53 | records all within the first block's window make exactly one block |
| Sessions.SingleWindow | src/core/sessionIdentifier.ts:13-53 | that block holds them all, with their counts, cost and models |
| Sessions.TwoWindows | src/core/sessionIdentifier.ts:22-41 | two distant records make two blocks, with a gap between them exactly when they are over a session apart |
| Sessions.LateStartExample | src/core/sessionIdentifier.ts:104-108 | a record at 02:00 opens a block at 23:00 of the same day |
| Sessions.GapExample | src/core/sessionIdentifier.ts:28-38 | records at 08:00 and 20:00 make a block, a gap and a block |
| Sessions.OpenBlock.constructor | src/core/sessionIdentifier.ts:63-79 | the object holds the fields of the block literal |
| Sessions.SessionIdentifier.constructor | src/core/sessionIdentifier.ts:8-11 | the identifier keeps the session length and reset hours given |
| Sessions.SessionIdentifier.Default | src/core/sessionIdentifier.ts:8 | the defaults are 5 hours and reset hours 4, 9, 14, 18 and 23 |
| Sessions.SessionIdentifier.CreateSessionBlocks | src/core/sessionIdentifier.ts:13-53 | the in-place pass returns the reference partition of the records |
| Sessions.SessionIdentifier.CreateNewBlock | src/core/sessionIdentifier.ts:59-80 | a fresh empty block from the aligned start, and the record re-stamped to it |
| Sessions.SessionIdentifier.AlignToResetHour | src/core/sessionIdentifier.ts:102-109 | the aligned start, and the record whose Date `setHours` moved to it |
| Sessions.SessionIdentifier.AddEntryToBlock | src/core/sessionIdentifier.ts:111-128 | the block gains the record, its counts, its cost when truthy, its new model and its end time |
| Sessions.SessionIdentifier.FinalizeBlock | src/core/sessionIdentifier.ts:130-142 | the duration runs to the last record, or to `now` when there is none |
| BurnRateCalculator.HourlyBurnRate | src/core/burnRateCalculator.ts:53-62 | tokens per minute times the contributing minutes is the proportional token total; 0 without minutes |
| BurnRateCalculator.CalculateHourlyBurnRate | src/core/burnRateCalculator.ts:12-63 | the loop computes that rate |
| BurnRateCalculator.GapsIgnoredInTotals | src/core/burnRateCalculator.ts:20 | gap blocks add neither tokens nor minutes |
| BurnRateCalculator.GapsIgnored | src/core/burnRateCalculator.ts:20 | dropping gap blocks leaves the rate unchanged |
| BurnRateCalculator.WindowMinutesAtMostHour | src/core/burnRateCalculator.ts:26-33 | no block has more than 60 minutes inside the trailing hour |
| BurnRateCalculator.OverlapTestRedundant | src/core/burnRateCalculator.ts:23-35 | for a block with a last record the overlap test decides nothing beyond the positive-minutes test |
| BurnRateCalculator.OverlapTestExcludesStaleOpenBlock | src/core/burnRateCalculator.ts:23-24 | an open block whose end is over an hour ago never contributes |
| BurnRateCalculator.ProportionalAtMostWeight | src/core/burnRateCalculator.ts:37-45 | a finalised block adds between 0 and its whole weight |
| BurnRateCalculator.BurnRateNonNegative | src/core/burnRateCalculator.ts:43-57 | with non-negative weights the rate and the hourly cost are non-negative |
| BurnRateCalculator.RecentBlockRate | src/core/burnRateCalculator.ts:26-53 | a block from 30 minutes ago to now burns its weight over 30 a minute |
| BurnRateCalculator.RecentBlockExamples | src/core/burnRateCalculator.ts:53 | 150 weighted tokens in 30 minutes burn 5 a minute; 750 burn 25 |
| BurnRateCalculator.PartialOverlapExample | src/core/burnRateCalculator.ts:43-45 | 900 tokens over 90 minutes, 30 of them in the hour, burn 10 a minute |
| BurnRateCalculator.ThreeBlocksExample | src/core/burnRateCalculator.ts:19-53 | only the two recent blocks count: 1050 tokens over 60 minutes |
| BurnRateCalculator.ProjectUsage | src/core/burnRateCalculator.ts:65-93 | none without a block, at a zero rate or without a whole minute left; else current plus rate times the minutes left |
| BurnRateCalculator.DepletionTime | src/core/burnRateCalculator.ts:95-108 | none at a zero rate or at the limit; else `now` plus the remaining tokens over the rate, after `now` for a positive rate |
| BurnRateCalculator.ProjectionMeetsDepletion | src/core/burnRateCalculator.ts:82-107 | the projection after m minutes reaches the limit iff depletion is at most m minutes away |
| BurnRateCalculator.ProjectionExample | src/core/burnRateCalculator.ts:76-83 | 500 tokens at 10 a minute with two hours left project to 1700 |
| BurnRateCalculator.BurnRateIndicator | src/core/burnRateCalculator.ts:110-118 | each emoji of the source iff the rate is in its band: 0, below 10, 50, 100, 200, 500, the rest |
| BurnRateCalculator.BurnRateIndicatorMonotone | src/core/burnRateCalculator.ts:110-118 | a faster non-negative rate never shows a slower symbol |
| BurnRateCalculator.NegativeRateShowsSnail | src/core/burnRateCalculator.ts:112 | a negative rate shows the snail |
| PlanDetector.DetectPlan | src/core/planDetector.ts:14-41 | never custom_max; Max20 iff M is at least 80% of 880000; Max5 iff M is over 44000 and below that; Pro iff M is at most 44000 |
| PlanDetector.DetectPlanMonotone | src/core/planDetector.ts:25-40 | a larger history maximum never detects a smaller plan |
| PlanDetector.DetectPlanIgnoresGaps | src/core/planDetector.ts:16 | removing gap blocks never changes the plan |
| PlanDetector.MaxHistoryWithoutGaps | src/core/tokenCalculator.ts:57-58 | removing gap blocks never changes the history maximum |
| PlanDetector.SonnetBlockWeight | src/core/tokenCalculator.ts:20-22 | a one-record Sonnet block weighs its token count |
| PlanDetector.SingleSonnetHistory | src/core/tokenCalculator.ts:54-65 | its history maximum is that count |
| PlanDetector.ThresholdExamples | src/core/planDetector.ts:31-37 | 35200 and 35300 tokens are Pro; 176000 is Max5 |
| PlanDetector.Assess | src/core/planDetector.ts:58-76 | low iff no usage; medium iff over 80% of Pro and at most 95% of Max5; high otherwise; with the source's recommendation texts |
| PlanDetector.AnalyzePlanUsage | src/core/planDetector.ts:46-84 | the analysis carries the detected plan, the history maximum and the confidence of that maximum |
| PlanDetector.ConfidenceMatchesPlan | src/core/planDetector.ts:27-76 | low comes only with Pro; high above 95% of Max5 with Max5 or Max20; medium only with Pro or Max5 |
| PlanDetector.OpusCount | src/core/planDetector.ts:97-99 | the Opus records are at most all records |
| PlanDetector.EstimateActualTokens | src/core/planDetector.ts:89-114 | the nested loop and the ratio compute the reference estimate |
| PlanDetector.AverageWeightIsRatio | src/core/planDetector.ts:110-113 | dividing by `ratio * 5 + (1 - ratio)` is taking the share `total / (total + 4 * opus)` |
| PlanDetector.ShareWithoutOpus | src/core/planDetector.ts:111 | without Opus records the share is the whole weighted total |
| PlanDetector.ShareAllOpus | src/core/planDetector.ts:111 | with only Opus records it is a fifth |
| PlanDetector.ShareBounds | src/core/planDetector.ts:111 | it is always between a fifth and the whole |
| PlanDetector.EstimateWithoutOpus | src/core/planDetector.ts:105-113 | without Opus records, or without records, the weighted total comes back unchanged |
| PlanDetector.EstimateAllOpus | src/core/planDetector.ts:110-113 | with only Opus records the estimate is the total over 5, rounded |
| PlanDetector.EstimateBounds | src/core/planDetector.ts:105-113 | the estimate lies between the all-Opus and the no-Opus estimates |
| PlanDetector.MixedModelsExample | src/core/planDetector.ts:89-114 | one Opus and two Sonnet records of 10000: 70000 weighted tokens are 30000 |
| DataLoader.OrNumber | src/core/dataLoader.ts:116 | `a \|\| b` on optional numbers: `a` when present and non-zero, else `b` |
| DataLoader.SelectUsage | src/core/dataLoader.ts:103-106 | the top-level usage unless missing or keyless, then the message's usage, else an empty one |
| DataLoader.ConvertToUsageEntry | src/core/dataLoader.ts:92-132 | none iff the timestamp is missing, empty or unparseable; else every field from its fallback chain |
| DataLoader.CreateUniqueHash | src/core/dataLoader.ts:75-90 | `messageId:requestId` with `message.id` when `message` is an object, and `requestId` before `request_id`; none when either is missing or empty |
| DataLoader.StepLine | src/core/dataLoader.ts:49-70 | a blank or undecodable line changes nothing; otherwise nothing changes or exactly its entry and record are appended; the state changes exactly when the record is kept (not blank, decodes, key new or absent, converts) |
| DataLoader.LoadUsageData | src/core/dataLoader.ts:27-35 | the result is ordered by timestamp and is a permutation of all files' entries |
| DataLoader.ParseJsonlFile | src/core/dataLoader.ts:38-73 | the loop returns the file's entries and the grown key set of the reference scan |
| DataLoader.LoadUsage | src/core/dataLoader.ts:13-36 | the method returns the reference load |
| DataLoader.KeysOfMember | src/core/dataLoader.ts:55-64 | a key is remembered iff some accepted record has it |
| DataLoader.StepLineConsistent | src/core/dataLoader.ts:55-66 | one line keeps the load consistent: entries from records, keys remembered, keys distinct and new |
| DataLoader.ScanLinesConsistent | src/core/dataLoader.ts:49-70 | a whole file keeps the load consistent |
| DataLoader.KeysOfAppend | src/core/dataLoader.ts:64 | the keys of two record lists together are the union |
| DataLoader.ConsistentAppend | src/core/dataLoader.ts:30-33 | two consistent loads in a row, sharing the key set, make one |
| DataLoader.DistinctKeysAppend | src/core/dataLoader.ts:28-33 | two key-distinct lists with disjoint keys are key-distinct together |
| DataLoader.LoadFilesConsistent | src/core/dataLoader.ts:27-33 | across all files, entries come from accepted records whose keys are distinct and exactly those remembered |
| DataLoader.LoadedRecordsDistinct | src/core/dataLoader.ts:55-66 | no two loaded entries come from records with the same key, and every entry has a parsed timestamp |
| DataLoader.SeenKeyDropped | src/core/dataLoader.ts:56-58 | a record whose key was already remembered is dropped |
| DataLoader.MissingIdNeverDeduplicated | src/core/dataLoader.ts:55-66 | a record lacking either id has no key (lines 85-87), so it is kept whenever it converts |
| DataLoader.FreshRecordKept | src/core/dataLoader.ts:55-66 | a record with a new key, or none, that converts is appended with its record, and its key is remembered |
| DataLoader.RejectedRecordRemembersNothing | src/core/dataLoader.ts:60-66 | a record that does not convert changes nothing, so a following line that would be kept is still kept |
| DataLoader.LoadUsageDataStable | src/core/dataLoader.ts:35 | entries with equal timestamps keep their file-then-line order |
| DataLoader.KeyAndIdsDiffer | src/core/dataLoader.ts:114-115 | the ids stored on an entry prefer the other field from the key's (lines 77-83), so they can differ from those the key was made from |
| PathDiscovery.TrimParts | src/utils/pathDiscovery.ts:97-98 | every kept path is non-empty and trimmed |
| PathDiscovery.ParsePathList | src/utils/pathDiscovery.ts:80-99 | all-whitespace input gives no paths; every path is non-empty and trimmed and free of a given separator |
| PathDiscovery.TrimFree | src/utils/pathDiscovery.ts:97 | trimming never introduces a character |
| PathDiscovery.SplitTrimPartsFree | src/utils/pathDiscovery.ts:96-98 | no path contains the separator it was split by |
| PathDiscovery.AutoSeparator | src/utils/pathDiscovery.ts:85-93 | without a separator: ',' whenever present, ':' only without ',', else the whole trimmed string |
| PathDiscovery.TrimPartsIdentity | src/utils/pathDiscovery.ts:97-98 | clean paths pass through trimming and filtering unchanged |
| PathDiscovery.ParsePathListJoin | src/utils/pathDiscovery.ts:80-99 | joining clean paths with a separator and parsing with it gives the paths back |
| PathDiscovery.ParsePathListCommaJoin | src/utils/pathDiscovery.ts:85-99 | the automatic choice reads a comma-joined list of two or more clean paths back |
| PathDiscovery.FindJsonlFiles | src/utils/pathDiscovery.ts:28-55 | the method returns the first file of each signature, sorted by modification time |
| PathDiscovery.CollectFiles | src/utils/pathDiscovery.ts:29-48 | the loop over the data paths, skipping missing ones, keeps exactly the first file of each signature, in walk order |
| PathDiscovery.CollectListing | src/utils/pathDiscovery.ts:39-47 | one data path's files extend the walk; `allFiles` stays the first file of each signature walked and `seenFiles` the signatures walked |
| PathDiscovery.FirstOccurrencesCover | src/utils/pathDiscovery.ts:43-46 | every signature found is kept |
| PathDiscovery.FirstOccurrencesDistinct | src/utils/pathDiscovery.ts:43-46 | no signature is kept twice |
| PathDiscovery.FirstOccurrencesSubset | src/utils/pathDiscovery.ts:43-46 | the kept files are files of the input |
| PathDiscovery.FindJsonlFilesSpec | src/utils/pathDiscovery.ts:28-55 | the result is ordered by modification time, drawn from the input, with distinct signatures covering all found |
| Formatter.JsRem | src/cli/formatter.ts:38 | JavaScript `%`: the remainder has the dividend's sign and divides it back exactly for non-negative input |
| Formatter.FormatTimeRemaining | src/cli/formatter.ts:36-44 | the text ends in 'm' and contains 'h' iff there is a whole hour |
| Formatter.ReadFormatTimeRemaining | src/cli/formatter.ts:36-44 | reading the text back gives the minutes, for every non-negative count |
| Formatter.TimeRemainingExamples | src/cli/formatter.ts:36-44 | 150 is "2h 30m", 45 is "45m", 0 is "0m" |
| Formatter.ProgressCellsFill | src/cli/formatter.ts:7-8 | for a non-negative percentage the cells add up to the width; none filled at 0%, all from 100% |
| Formatter.ProgressCellsMonotone | src/cli/formatter.ts:7 | a higher percentage never fills fewer cells |
| Formatter.ProgressCellsExamples | src/cli/formatter.ts:6-8 | 25% of 20 cells is 5 filled and 15 empty; 0% and 150% of 40 |
| Formatter.BarColor | src/cli/formatter.ts:10-17 | red iff at least 90, green iff below 50 |
| Formatter.StatusMarker | src/cli/formatter.ts:28 | the red marker iff at least 90, the green one iff below 50 |
| Formatter.BandsAgree | src/cli/formatter.ts:10-28 | the bar colour, the marker and `getTokenStatus` cut at the same two places |
| Formatter.RemainingMinutes | src/cli/formatter.ts:52-55 | non-negative; 0 once the end has passed; else the whole minutes to the end |
| Formatter.RemainingMinutesIsClampedDifference | src/cli/formatter.ts:52-55 | the floor here equals the truncated `differenceInMinutes` once clamped at 0 |
| Formatter.FormatSessionInfo | src/cli/formatter.ts:46-58 | no block gives the no-session line; else the block's end and a time-remaining text that reads back as the minutes left |
| Formatter.FormatPlan | src/cli/formatter.ts:72-81 | the fixed label of each plan |
| Formatter.FormatPlanInjective | src/cli/formatter.ts:73-78 | no two plans share a label |
| UsageMonitor.RefreshInterval | src/cli/monitor.ts:42 | an absent or zero interval falls back to 3000 ms |
| UsageMonitor.FirstLiveIndex | src/cli/monitor.ts:73 | the first block that is active and not a gap, or none |
| UsageMonitor.SwitchedPlan | src/cli/monitor.ts:88-89 | the plan changes iff it is Pro and the active block weighs over 44000, and then to custom_max |
| UsageMonitor.SnapshotOf | src/cli/monitor.ts:69-122 | the first live block, its weight, the limit of the pre-switch plan, and the figures computed from them |
| UsageMonitor.Display | src/cli/monitor.ts:132-173 | the warnings fire iff their conditions hold; the near-limit warning iff the marker is red |
| UsageMonitor.Monitor.constructor | src/cli/monitor.ts:25-32 | a stopped monitor on the given plan with a default session identifier |
| UsageMonitor.Monitor.Update | src/cli/monitor.ts:66-130 | the refresh returns the snapshot of the loaded records and stores its plan; nothing else changes |
| UsageMonitor.Monitor.Start | src/cli/monitor.ts:34-52 | running, one refresh, and a timer at the refresh interval |
| UsageMonitor.Monitor.Tick | src/cli/monitor.ts:43-47 | a tick refreshes exactly when the monitor is running |
| UsageMonitor.Monitor.Stop | src/cli/monitor.ts:54-64 | stopped, without a timer, on the same plan |
| UsageMonitor.SwitchIsOneWay | src/cli/monitor.ts:88-89 | custom_max never switches back, and a second switch changes nothing |
| UsageMonitor.SwitchingRefreshIsOverLimit | src/cli/monitor.ts:80-109 | the switching refresh measured against 44000: 100%, near-limit warning, no depletion |
| UsageMonitor.NoRecordsQuietSnapshot | src/cli/monitor.ts:73-109 | without blocks: no active block, 0 tokens, 0%, no projection, no warning |
| UsageMonitor.FirstAndLastActiveAgree | src/cli/monitor.ts:73 | the first live block and `getActiveSessionTokens`' last one agree when at most one block is live |
| UsageMonitor.FirstActiveIsEarlier | src/cli/monitor.ts:73 | with two live blocks the monitor shows the earlier one |
| UsageMonitor.DepletionWarningNeeds | src/cli/monitor.ts:162-166 | the depletion warning needs a non-zero rate, usage below the limit and an active block |

## Left out

- I/O is outside the model: reading files and lines, `JSON.parse`, `new Date(string)`, `statSync`, the recursive directory walk, `existsSync`, environment variables and the home directory. Decoding and date parsing are parameters. A data path comes with the files found under it, or `None` when it does not exist.
- Data-path discovery is not part of this model: `getStandardClaudePaths`, `discoverClaudeDataPaths` and `getDefaultDataPaths`.
- The clock is a parameter `now`, read once per call. The source reads `new Date()` several times within one refresh.
- Local time is UTC plus a fixed offset. Daylight-saving changes are not modelled.
- Floating point is not modelled. Token counts are integers, and rates and percentages are exact reals. `addMinutes` with a fractional number of minutes is kept exact rather than truncated.
- JSON `null` is not told apart from an absent field, and non-numeric values in numeric fields are not modelled.
- `toLowerCase` maps only the ASCII capitals A-Z. Non-ASCII case mappings are not modelled.
- Sessions.SessionIdentifier.constructor: the reset-hour list is required to be non-empty (its type excludes the empty list), its hours are natural numbers, and session lengths are whole non-negative hours. Negative or fractional reset hours and session lengths, which the source's `number` parameters accept, are not modelled.
- Date objects shared between records are not modelled. The model reproduces the in-place `setHours` on each record's own Date as an explicit re-stamp of that record.
- PathDiscovery.ParsePathList: the separator is a single character. Multi-character separators are not modelled.
- PathDiscovery.FindJsonlFiles: the sort comparator's fresh `statSync` calls are not modelled. Each file carries the size and modification time read when it was found.
- Formatter: colours, `toFixed`, `toLocaleString` digit grouping, the `HH:mm` rendering of the session end, the warning, error and success decorations, and the cursor and screen control codes are not modelled.
- Formatter.ProgressCellsFill: stated for non-negative percentages only. For a negative percentage the filled count can be negative, and `repeat` would throw.
- UsageMonitor.Monitor.Update: the error path (catch and print) is not modelled. The one failure inside the refresh that the model could reach is `repeat` throwing on a negative progress-bar count, which needs a negative percentage; the model states no screen output, so it does not capture that failure or the message printed for it. Console output of the plan switch and of the screen is not modelled.
- UsageMonitor.Monitor.Start and UsageMonitor.Monitor.Stop: timers are a field holding the interval; signal handlers and `process.exit` are not modelled.
