# galilei-galileo automation bot: a verified model of its control logic

This project models the control logic of the 0G testnet automation bot. The
bot runs a fixed list of features in cycles: a file upload to 0G storage, token
swaps and liquidity additions on two DEXes (Jaine and Zer0). Between cycles it
waits a random cooldown. It reports to Telegram.

Every ledger, SDK, filesystem and Telegram call is an abstract collaborator
whose outcome is a parameter, an `Outcome` (`Ok(value)` / `Err(message)`). The
model records what the code does with those outcomes as a sequence of events:
- attempts;
- notices;
- waits;
- chain calls;
- file calls.

Randomness is a stream of draws in [0, 1) with a cursor. Wall-clock time is
passed in as numbers and as already formatted text.

## Modules

| file | module | models |
|---|---|---|
| `outcomes.dfy` | `Outcomes` | `Outcome`/`Option` and the `error.message \|\| error` fallback |
| `text.dfy` | `Text` | the JavaScript string operations the code relies on: number rendering, `toFixed`, `toLowerCase`/`toUpperCase`, `<` on strings, `trim`, `join`, line splitting |
| `config.dfy` | `Config` | the constants of `src/config/index.js` |
| `random.dfy` | `Random` | `Math.floor(Math.random() * n)` over a draw stream, and the redraw loop for two distinct indices |
| `events.dfy` | `Events` | the event log (attempts, notices, waits) and its views |
| `notifier.dfy` | `Notifier` | `TelegramNotifier`: construction gating, `sendMessage`, and the message formatters as line-structured text |
| `retry.dfy` | `Retry` | `RetryManager`: the attempt loop, backoff, retry and failure notices, custom configuration |
| `cooldown.dfy` | `Cooldown` | `CooldownManager`: the random cooldown, `waitForCooldown`, `formatDuration`, `getTimeUntilNextRun` |
| `dex.dfy` | `Dex` | `BaseDex` and `dex/index.js`: token registry, random pairs, canonical liquidity order, `createDexInstance`, `AVAILABLE_DEX`, abstract members |
| `dex_actions.dfy` | `DexActions` | `performSwap` / `performAddLiquidity` of `JaineDex` and `Zer0Dex`: allowance gating, pool check, receipt status, log scan, fixed parameters |
| `filegen.dfy` | `FileGenerator` | `FileGenerator`: extension and size draws, text/CSV/JSON/Markdown shapes, `generateRandomFile` dispatch |
| `feature.dfy` | `Feature` | `BaseFeature`: the `execute` template, balance reads, default hooks, and the repetition structure shared by the DEX features |
| `swap_feature.dfy` | `SwapFeatures` | `SwapFeature` as a class with a lazily created DEX |
| `liquidity_feature.dfy` | `LiquidityFeatures` | `AddLiquidityFeature` as a class with a lazily created DEX |
| `upload_feature.dfy` | `UploadFeatures` | `UploadFeature`: generate, stat, upload and guaranteed cleanup; the balance preflight |
| `upload_manager.dfy` | `UploadManager` | the legacy `UploadManager.processUpload` attempt loop |
| `automation.dfy` | `Automation` | `AutomationManager` as a class: `executeCycle`, one step of `run`, the startup notice, summary and report gating, administration and status |

Two quirks of the code are modelled as written. First, `execute` never calls
`preExecutionChecks` (`Feature.Execute`). Second, both swap features are named
`Token Swap`, so they share one success counter (`Automation.SwapsShareCounter`).

## Model

| member | source | states |
|---|---|---|
| `Outcomes.ErrorText` | src/utils/telegramNotifier.js:89 | the shown error text is never empty, and a non-empty message is shown unchanged |
| `Text.ToFixedReadsBack` | src/features/uploadFeature.js:28 | `toFixed(k)` renders digits, one point and exactly k fraction digits, and reading the digits back gives the value rounded half up to k places |
| `Text.ParseNatToString` | src/core/automationManager.js:156 | the decimal rendering `${n}` of a natural number reads back to that number |
| `Text.StrOrder` | src/features/dex/baseDex.js:66 | "not less than" on strings is "greater than or equal", so the else branch of the pair ordering receives every non-ascending pair, the equal one included |
| `Random.Index` | src/features/dex/baseDex.js:30-31 | `Math.floor(draw * n)` is a valid index below n for every n > 0 |
| `Random.IndexCovers` | src/features/dex/baseDex.js:30-31 | every index below n is produced by some draw |
| `Random.FairNeedsTwo` | src/features/dex/baseDex.js:33-35 | a stream on which the redraw loop terminates needs at least two registry entries |
| `Random.DrawDistinct` | src/features/dex/baseDex.js:30-35 | two distinct indices below n: the first from the first draw, the second from the first later draw that differs from it, every draw in between equal to the first |
| `Notifier.NewTelegramNotifier` | src/utils/telegramNotifier.js:6-13 | the enabled flag is copied; a bot exists iff notifications are enabled and a token is present, and then it holds that token |
| `Notifier.MessageOptions` | src/utils/telegramNotifier.js:25-32 | `parse_mode` is the caller's or else HTML; `message_thread_id` is set iff a thread id is configured or passed in, and the configured one wins; every other caller option is kept and nothing else is added |
| `Notifier.SendMessage` | src/utils/telegramNotifier.js:15-39 | a bot call is made iff enabled and a bot exists, with the chat id, the message and the merged options; disabled, sent and failed deliveries each log their own line, and a failed delivery is not propagated |
| `Notifier.SuccessTags` | src/utils/telegramNotifier.js:61-83 | the Wallet, Transaction, Balance and File Size entries are present each iff that detail is non-empty |
| `Notifier.SuccessMessageOpening` | src/utils/telegramNotifier.js:61-83 | the success message has 3 lines plus one per non-empty detail, and always opens with the header, Feature and Time lines |
| `Notifier.SuccessMessageFields` | src/utils/telegramNotifier.js:66-80 | the message has a Wallet, Transaction, Balance or File Size line iff that detail is non-empty |
| `Notifier.FailureTags` | src/utils/telegramNotifier.js:91-97 | the failure message's Wallet entry is present iff the wallet is non-empty, and its Attempt entry iff the attempt is non-zero |
| `Notifier.FailureMessageOpening` | src/utils/telegramNotifier.js:85-100 | the failure message has 4 lines plus the optional two, opening with header, Feature, Time and an Error line that falls back from the message to the error's text |
| `Notifier.FailureMessageFields` | src/utils/telegramNotifier.js:91-97 | the message has a Wallet line iff the wallet is non-empty, and an Attempt line iff `details.attempt` is truthy |
| `Notifier.WalletErrorMessageLines` | src/utils/telegramNotifier.js:102-114 | the wallet-error message has the header, Wallet, Feature, Time and Error lines in that order, then a Balance line iff the balance is non-empty |
| `Notifier.RetryMessageLines` | src/utils/telegramNotifier.js:116-124 | the retry message has five lines: the retry title first, `Attempt: attempt/maxRetries` third, and the Error line with its fallback last |
| `Notifier.Bullets` | src/utils/telegramNotifier.js:141-143 | one bullet per entry of the feature map, in its order |
| `Notifier.DailyReportLines` | src/utils/telegramNotifier.js:131-147 | the report has 8 fixed lines, a blank line and the Feature Breakdown heading at lines 6 and 7, then exactly one bullet per feature entry |
| `Retry.Merge` | src/utils/retryManager.js:63-69 | every field given in the custom configuration replaces the default, and every absent one keeps it |
| `Retry.MergeNothing` | src/utils/retryManager.js:63-69 | an empty custom configuration is the default configuration |
| `Retry.Delay` | src/utils/retryManager.js:53-57 | the wait after attempt 1 is the base delay, and no wait is shorter than the base delay when the multiplier is at least 1; with multiplier 1 every wait is the base delay |
| `Retry.DelayBackoff` | src/utils/retryManager.js:53-57 | the delay after attempt 1 is the base delay, and each further attempt multiplies it by the backoff multiplier |
| `Retry.Execute` | src/utils/retryManager.js:10-50 | the attempt loop returns exactly the result and event log of the specification `Executed` |
| `Retry.ExecuteWithRetry` | src/utils/retryManager.js:10-51 | `executeWithRetry` is the loop under the shipped configuration |
| `Retry.ExecuteWithCustomRetry` | src/utils/retryManager.js:63-110 | `executeWithCustomRetry` is the same loop under the merged configuration |
| `Retry.FailedAttemptViews` | src/utils/retryManager.js:27-38 | a failed attempt k makes one call, sends one retry notice carrying (k, max, error), and waits `Delay(k)` only when k < max |
| `Retry.FromSucceeds` | src/utils/retryManager.js:14-38 | from attempt k, when j is the first attempt that succeeds, the run is the failed attempts k..j-1 followed by attempt j, with j's value |
| `Retry.FromExhausts` | src/utils/retryManager.js:14-50 | from attempt k, when every attempt up to max fails, the run is the failed attempts then one failure notice, with the last error |
| `Retry.FromOk` | src/utils/retryManager.js:14-26 | from attempt k the run succeeds iff some attempt from k to max succeeds, and makes at most max - k + 1 calls |
| `Retry.AttemptsBounded` | src/utils/retryManager.js:14-26 | the operation is called at most `maxRetries` times, and the result is a success iff one of attempts 1..max succeeds |
| `Retry.SucceedsOnAttempt` | src/utils/retryManager.js:14-26 | when attempt k is the first success, the result is that attempt's value and the calls are exactly attempts 1..k |
| `Retry.SucceedsWaits` | src/utils/retryManager.js:34-38 | when attempt k is the first success, the waits are exactly `Delay(1)..Delay(k-1)` |
| `Retry.SucceedsNotices` | src/utils/retryManager.js:27-32 | when attempt k is the first success, the notices are exactly the k-1 retry notices and no failure notice |
| `Retry.ExhaustsAllAttempts` | src/utils/retryManager.js:14-50 | when every attempt fails, the result is the last error. The calls are attempts 1..max, the notices are the max retry notices followed by one failure notice with `attempt = maxRetries`, and the waits are `Delay(1)..Delay(max-1)`, none after the last attempt |
| `Retry.NoAttempts` | src/utils/retryManager.js:42 | with `maxRetries <= 0` nothing is attempted or sent, and reading `lastError.message` on null throws |
| `Retry.DefaultWaits` | src/config/index.js:31-35 | under the shipped configuration an action that always fails waits exactly 5000 ms and then 10000 ms |
| `Retry.FromNoticeKinds` | src/utils/retryManager.js:27-50 | every notice the executor sends is a retry notice or a failure notice |
| `Cooldown.GenerateRandomCooldown` | src/utils/cooldownManager.js:5-22 | hours lie in [10, 16] and minutes in [0, 59]; the total is hours·3600000 + minutes·60000 ms, and the next run is now plus the total |
| `Cooldown.CooldownCovers` | src/utils/cooldownManager.js:11-12 | every hour and minute in the configured ranges is produced by some pair of draws |
| `Cooldown.CooldownSplits` | src/utils/cooldownManager.js:14 | the total splits back into the drawn hours and minutes with no remainder below a minute |
| `Cooldown.WaitForCooldown` | src/utils/cooldownManager.js:24-33 | exactly one wait, of exactly the generated total |
| `Cooldown.JsRem` | src/utils/cooldownManager.js:42-43 | JavaScript `%`: the mathematical remainder for a non-negative dividend, a value in (-b, 0] for a negative one |
| `Cooldown.FloorDiv` | src/utils/cooldownManager.js:41 | `Math.floor(a / b)` is the q with q·b ≤ a < q·b + b |
| `Cooldown.DurationPartsSplit` | src/utils/cooldownManager.js:41-43 | for ms ≥ 0 the hours are ≥ 0, minutes and seconds are < 60, and together they approximate ms to within one second; a negative ms gives negative hours and no positive minutes or seconds |
| `Cooldown.Component` | src/utils/cooldownManager.js:46-48 | a component is a non-empty number followed by its unit letter |
| `Cooldown.TrimComponents` | src/utils/cooldownManager.js:45-50 | trimming the space-terminated components gives them joined by single spaces |
| `Cooldown.DurationWordsEmpty` | src/utils/cooldownManager.js:45-50 | there is no component, and the text is empty, iff ms < 1000 |
| `Cooldown.FormatDuration` | src/utils/cooldownManager.js:40-51 | the result is the non-zero components (h, m, s) joined by single spaces, and it is empty iff ms < 1000 |
| `Cooldown.GetTimeUntilNextRun` | src/utils/cooldownManager.js:53-62 | `Ready to run` iff the difference is ≤ 0, and otherwise the formatted difference |
| `Cooldown.NotReady` | src/utils/cooldownManager.js:57-61 | a formatted duration is never `Ready to run`, so the two outcomes are told apart |
| `Dex.LookupAt` | src/features/dex/baseDex.js:43-44 | looking up a registry key gives the address registered under it |
| `Dex.GetAvailableTokens` | src/features/dex/baseDex.js:97-99 | exactly the registry keys, in registry order |
| `Dex.AvailableTokensResolve` | src/features/dex/baseDex.js:97-99 | a key is listed iff the registry resolves it, and the listed keys are distinct |
| `Dex.GetRandomTokenPair` | src/features/dex/baseDex.js:27-48 | the keys are those of two distinct drawn indices, the second redrawn until it differs; the addresses are their registry lookups and the names equal the keys |
| `Dex.OrderForLiquidity` | src/features/dex/baseDex.js:66-84 | in the liquidity pair each name equals its key |
| `Dex.OrderKeepsOrSwaps` | src/features/dex/baseDex.js:66-84 | the drawn order is kept iff the first lowercase address is strictly less, the equal case excepted only for identical tokens; otherwise the two sides are swapped together |
| `Dex.OrderSorted` | src/features/dex/baseDex.js:66-84 | lower(token0Address) ≤ lower(token1Address) always holds |
| `Dex.OrderPermutes` | src/features/dex/baseDex.js:60-84 | the pair's two sides are a permutation of the two drawn tokens, with key, address and name kept aligned |
| `Dex.GetRandomTokenPairForLiquidity` | src/features/dex/baseDex.js:50-85 | two distinct drawn tokens, ordered canonically, and every field agrees with the registry |
| `Dex.DexFeatureName` | src/features/dex/baseDex.js:6-9 | an exchange's feature name is its DEX name followed by " DEX" |
| `Dex.CreateDexInstance` | src/features/dex/index.js:3-14 | `zer0` in any letter case yields a Zer0Dex and `jaine` a JaineDex; any other tag fails with `Unsupported DEX type: <tag>` |
| `Dex.CreateIgnoresCase` | src/features/dex/index.js:4 | two tags that agree after lowercasing create the same instance |
| `Dex.UpperCaseTagsAccepted` | src/features/dex/index.js:4-10 | `ZER0` and `JAINE` are accepted |
| `Dex.AvailableDexMatchesFactory` | src/features/dex/index.js:16-19 | a lowercase tag is accepted by the factory iff it is a key of `AVAILABLE_DEX`, and each entry's label is the created exchange's name |
| `Dex.StubError` | src/features/dex/baseDex.js:11-25 | the error of an abstract member names that member |
| `Dex.SwapContract` | src/features/dex/baseDex.js:11-13 | `getSwapContract` throws iff the instance does not override it, with the stub error |
| `Dex.LiquidityContract` | src/features/dex/baseDex.js:15-17 | `getLiquidityContract` throws iff the instance does not override it, with the stub error |
| `DexActions.Deadline` | src/features/dex/jaineDex.js:172 | the deadline is ⌊now/1000⌋ + 600 |
| `DexActions.GateAllowance` | src/features/dex/jaineDex.js:177-189 | the allowance step succeeds iff the read succeeds and either the allowance covers the amount or the approval, and any re-read, succeed. A read or approval error propagates, and the value used is the re-read one after an approval |
| `DexActions.GateApprovesIffShort` | src/features/dex/jaineDex.js:177-189 | an approval of exactly the amount is issued iff the allowance is short, and it is the only approval; a re-read happens iff the allowance was short and the approval succeeded |
| `DexActions.SwapParamsFor` | src/features/dex/jaineDex.js:166-200 | the swap parameters carry the pair's addresses, fee 500, minimum output 0, no price limit, the recipient and the deadline |
| `DexActions.PerformSwap` | src/features/dex/jaineDex.js:163-223 | a plain BaseDex throws the stub error. An exchange reads the allowance first and approves iff it is short. A re-read still short throws `Approve failed`. The swap is submitted iff the allowance step clears. A receipt status other than 1 throws that exchange's revert, and success returns amount, names, hash and receipt. No mint or pool call is made. The Zer0 flow at `zer0Dex.js:87-147` is the same |
| `DexActions.SwapOutcome` | src/features/dex/jaineDex.js:163-223 | `performSwap` succeeds iff the instance is an exchange, the allowance clears (after an approval and re-read when short), and the router transaction and its receipt succeed with status 1. Success carries the amount, both names, the hash and the receipt; a failed allowance read or router submission throws that error |
| `DexActions.FirstIncreaseFirst` | src/features/dex/jaineDex.js:376-390 | the scan finds nothing iff no log is a parsable `IncreaseLiquidity`; otherwise it returns the first such log's arguments |
| `DexActions.ScanLogs` | src/features/dex/jaineDex.js:378-390 | the loop with `break` returns the first parsable `IncreaseLiquidity` event |
| `DexActions.LiquidityResultFrom` | src/features/dex/jaineDex.js:396-405 | with no event, `tokenId` and `liquidity` are `unknown`; amounts fall back to the desired ones when absent or zero; names, hash and receipt are passed through |
| `DexActions.UnknownMeansNoEvent` | src/features/dex/jaineDex.js:397 | `tokenId` is `unknown` iff no event was found |
| `DexActions.MintAndScan` | src/features/dex/jaineDex.js:366-405 | one mint call. A submit error propagates and a receipt status other than 1 throws the revert. Success is the result built from the first event |
| `DexActions.MintParamsFor` | src/features/dex/jaineDex.js:295-307 | mint parameters carry both tokens and amounts, fee 100, zero minimums, the given ticks, the recipient and the deadline |
| `DexActions.Zer0GatesOutcome` | src/features/dex/zer0Dex.js:167-185 | Zer0's gates succeed iff both allowance reads answer and each approval needed for a short allowance succeeds |
| `DexActions.Zer0Gates` | src/features/dex/zer0Dex.js:167-185 | the gates pass iff both reads and every needed approval succeed, and then the calls are the two gates with no re-read; a token0 read error stops after that one read; only allowance reads and approvals are made |
| `DexActions.Zer0AddLiquidity` | src/features/dex/zer0Dex.js:149-249 | Zer0 mints the pair in the given order with ticks -56040/55454, after exactly the gate calls. It succeeds iff the gates pass and the receipt status is 1, and a status other than 1 throws its revert |
| `DexActions.SortLegs` | src/features/dex/jaineDex.js:240-255 | the legs end up ordered by lowercase address, and address, name and amount are swapped together exactly when the first address is not strictly less |
| `DexActions.ResortKeepsCanonical` | src/features/dex/jaineDex.js:241-247 | a canonical pair with distinct lowercase addresses keeps its order |
| `DexActions.ResortSwapsEqualAddresses` | src/features/dex/jaineDex.js:248-255 | legs whose lowercase addresses are equal are swapped |
| `DexActions.CheckPool` | src/features/dex/jaineDex.js:327-361 | the pool check makes the factory, `getPool` and optional `createPool` calls of `PoolCalls` and returns no outcome, so a failure in it never aborts the addition |
| `DexActions.PoolCreatedOnlyWhenMissing` | src/features/dex/jaineDex.js:342-361 | a pool is created iff the factory answers and `getPool` returns the zero address, with fee 100 and the fixed initial price; at most three calls |
| `DexActions.JaineGatesOutcome` | src/features/dex/jaineDex.js:264-293 | Jaine's gates succeed iff each final allowance, read again after an approval, covers its amount |
| `DexActions.JaineGates` | src/features/dex/jaineDex.js:264-293 | the gate passes iff both final allowances cover the amounts, and then the calls are both re-reading gates. Otherwise it throws `Insufficient allowance` naming the first token that falls short, or the token0 read error. Token0's approval follows its read iff it is short, and only allowance reads and approvals are made |
| `DexActions.JaineMint` | src/features/dex/jaineDex.js:264-405 | Jaine mints only when both allowances cover, after the gates and the pool check, with ticks ±887272. It succeeds iff the receipt status is 1 |
| `DexActions.AdditionOutcomeReported` | src/features/dex/jaineDex.js:225-411 | the outcome (`AdditionOutcome`) and calls (`AdditionCalls`) of `performAddLiquidity` on each kind of instance are as reported: the stub error with no call on a plain BaseDex. Jaine mints iff both re-sorted allowances cover, after both gates and the pool check, and otherwise throws `Insufficient allowance` naming the first short token. Zer0 mints iff both gates pass, and a failed first read stops after that one call. A receipt status other than 1 throws the revert, and success is the result built from the first event (`zer0Dex.js:149-249`) |
| `DexActions.PerformAddLiquidity` | src/features/dex/jaineDex.js:225-411 | a plain BaseDex throws the stub error. Jaine re-sorts the legs and then gates, checks the pool and mints. Zer0 keeps the given order (`zer0Dex.js:149-249`). Each succeeds iff its gates pass and the receipt status is 1, with the result built from the first event |
| `Feature.CheckBalance` | src/features/baseFeature.js:19-27 | a failed read gives `0.000000`, and a successful one gives the balance in 0G with six decimals |
| `Feature.BalanceSixDecimals` | src/features/baseFeature.js:22-25 | the balance text is always digits, a point and six digits |
| `Feature.CheckTokenBalance` | src/features/baseFeature.js:29-44 | a failed read gives `0`, and a successful one gives the formatted amount, a space and the symbol |
| `Feature.BalanceBelowCases` | src/features/swapFeature.js:78-80 | an unreadable balance is below every positive amount, and a readable 18-decimal balance is below iff it is smaller than the amount |
| `Feature.SuccessDetails` | src/features/baseFeature.js:78-83 | the success details are the context with the wallet and balance, then the action's fields spread last: an upload's transaction hash and file size |
| `Feature.Execute` | src/features/baseFeature.js:46-111 | `execute` never throws. It runs the action only through the retry executor under the shipped configuration, with the context extended by wallet and balance. On success it returns the success record and sends one success notice, and on failure the failure record with the error and one wallet-error notice |
| `Feature.ExecuteNotifiesOnce` | src/features/baseFeature.js:78-100 | the last notice of an `execute` is its single success or wallet-error notice, and every earlier one comes from the retry executor |
| `Feature.ExecuteOutcome` | src/features/baseFeature.js:72-76 | `execute` succeeds iff one of the three attempts succeeds, and when all fail it reports the third attempt's error |
| `Feature.DefaultActionFails` | src/features/baseFeature.js:113-115 | the default `performAction` throws on every attempt, so its run always fails with the stub error |
| `Feature.ValidateContext` | src/features/baseFeature.js:117-119 | the default `validateContext` returns `true` for every context, exactly as the base class does |
| `Feature.PreExecutionChecks` | src/features/baseFeature.js:121-123 | the default `preExecutionChecks` returns `true` for every context, exactly as the base class does; the swap, liquidity and upload features override it |
| `Feature.PostExecutionCleanup` | src/features/baseFeature.js:125-127 | the default `postExecutionCleanup` returns `true` for every context and result, exactly as the base class does |
| `Feature.AlternatingCounts` | src/features/swapFeature.js:43-62 | an alternating run of actions and pauses of any length has ⌈len/2⌉ actions and ⌊len/2⌋ pauses |
| `Feature.CompletedCounts` | src/features/swapFeature.js:43-62 | a completed run of n repetitions has exactly n actions and n-1 pauses, and ends with an action |
| `Feature.RandomAmount` | src/features/dex/baseDex.js:87-95 | a drawn amount lies in [min, max) |
| `Feature.RandomAmountCovers` | src/features/dex/baseDex.js:88 | every amount in [min, max) is produced by some draw |
| `FileGenerator.GetRandomExtension` | src/utils/fileGenerator.js:14-16 | always an element of `FILE_EXTENSIONS` |
| `FileGenerator.ExtensionsCovered` | src/utils/fileGenerator.js:14-16 | every configured extension is produced by some draw |
| `FileGenerator.GetRandomFileSize` | src/utils/fileGenerator.js:18-20 | the size is a multiple of 1024, and it is k·1024 for some k in [minKB, maxKB] when the bounds are in order |
| `FileGenerator.AlphabetShape` | src/utils/fileGenerator.js:23 | the alphabet has 63 characters: letters, digits and space |
| `FileGenerator.RandomChar` | src/utils/fileGenerator.js:25 | every drawn character is in the alphabet |
| `FileGenerator.GenerateRandomText` | src/utils/fileGenerator.js:22-27 | exactly n characters, each from the alphabet |
| `FileGenerator.TextOneLine` | src/utils/fileGenerator.js:22-27 | random text contains no newline |
| `FileGenerator.TextCovers` | src/utils/fileGenerator.js:22-27 | every string over the alphabet is produced by some stream |
| `FileGenerator.CsvRows` | src/utils/fileGenerator.js:31-34 | exactly n rows |
| `FileGenerator.RowOneLine` | src/utils/fileGenerator.js:33 | a row is a non-empty single line |
| `FileGenerator.RowsOneLine` | src/utils/fileGenerator.js:31-34 | every row is a non-empty single line |
| `FileGenerator.GenerateRandomCSV` | src/utils/fileGenerator.js:29-36 | the CSV splits into the header line `id,name,score` and exactly the ⌊n/20⌋ rows, in order |
| `FileGenerator.CsvRowScores` | src/utils/fileGenerator.js:33 | row i is `i,Name<i>,score` with score in [0, 99] |
| `FileGenerator.KeysDistinct` | src/utils/fileGenerator.js:42 | `key<i>` and `key<j>` differ for i ≠ j |
| `FileGenerator.JsonEntries` | src/utils/fileGenerator.js:40-43 | exactly n entries |
| `FileGenerator.Stringify` | src/utils/fileGenerator.js:44 | the text is a JSON object: `{}` iff there are no entries, and otherwise it opens with `{` and a line break and closes with a line break and `}` |
| `FileGenerator.JsonKeys` | src/utils/fileGenerator.js:38-45 | the object has exactly ⌊n/50⌋ entries, entry i has key `key<i>`, and the keys are distinct |
| `FileGenerator.GenerateRandomJSON` | src/utils/fileGenerator.js:38-45 | the loop builds the object of those entries and renders it |
| `FileGenerator.MarkdownItems` | src/utils/fileGenerator.js:49-52 | exactly n items |
| `FileGenerator.GenerateRandomMarkdown` | src/utils/fileGenerator.js:47-54 | the title line followed by ⌊n/30⌋ item lines, each ending in a newline |
| `FileGenerator.ItemShape` | src/utils/fileGenerator.js:51 | item i is `- Item i: ` followed by 10 alphabet characters, on one line |
| `FileGenerator.MarkdownLines` | src/utils/fileGenerator.js:47-54 | the Markdown splits back into the title and exactly the items |
| `FileGenerator.ShapeOf` | src/utils/fileGenerator.js:80-101 | an unknown extension gets plain text |
| `FileGenerator.ConfiguredShapes` | src/utils/fileGenerator.js:80-98 | each configured extension maps to its generator |
| `FileGenerator.GenerateRandomFile` | src/utils/fileGenerator.js:73-106 | the extension is configured and the size is a multiple of 1024 between 10 and 1024 KB. The path is `<baseDir>/data_<now><ext>` iff the write succeeds, a write error propagates, and the content comes from the generator its extension dispatches to |
| `SwapFeatures.DrawSwap` | src/features/swapFeature.js:46-47 | a fresh valid swap pair and an amount in [0.01, 0.1) |
| `SwapFeatures.SwapOnce` | src/features/swapFeature.js:46-57 | the pair's input key comes from the first draw and its output key from the last redraw, and the amount from the draw after it, in [0.01, 0.1). The outcome and the chain calls are exactly those of the exchange's `performSwap` (`SwapOutcome`, `SwapCalls`) on that pair and amount, and a success is recorded with its execution number, pair, amount and the exchange's result |
| `SwapFeatures.RunSwaps` | src/features/swapFeature.js:43-62 | swaps and pauses alternate. Step 2k holds the outcome and calls of `performSwap` on the k-th sample against `chains(k)` at `clock(k)`. Completion means exactly n swaps, numbered 1..n in order and matching their samples, with n-1 pauses of 10000 ms. A failing swap aborts the remaining iterations, and its error is the one the exchange returned for that sample. When every chain accepts any in-range swap, the run completes |
| `SwapFeatures.SwapFeature.constructor` | src/features/swapFeature.js:6-11 | the DEX type and count are stored and no DEX exists yet |
| `SwapFeatures.SwapFeature.InitializeDex` | src/features/swapFeature.js:13-18 | an existing DEX is reused; otherwise one is created from the DEX type, once |
| `SwapFeatures.SwapFeature.SetDex` | src/features/swapFeature.js:91-95 | the DEX type is replaced and a new DEX created from it; a failed creation leaves the old instance |
| `SwapFeatures.SwapFeature.PerformAction` | src/features/swapFeature.js:39-69 | an unknown DEX type fails before any swap. Every swap's outcome and calls are those of the created exchange's `performSwap` on its sample. On completion the result has `totalExecutions = executionCount` and one recorded swap per iteration, matching the samples, and the summary text. An abort propagates the error the exchange returned for the last sample, and a run on chains that accept every in-range swap completes |
| `SwapFeatures.SwapFeature.PreExecutionChecks` | src/features/swapFeature.js:71-89 | one sample per iteration. It fails at the first sample whose amount exceeds the tokenIn balance, with that sample's error, all earlier samples covered, and otherwise returns true |
| `LiquidityFeatures.DrawAddition` | src/features/addLiquidityFeature.js:41-43 | a canonically ordered pair and two independently drawn amounts in [0.001, 0.01) |
| `LiquidityFeatures.AddOnce` | src/features/addLiquidityFeature.js:41-54 | the canonically ordered pair comes from the first draw and the last redraw, and the two amounts from the next two draws, each in [0.001, 0.01). The outcome and the chain calls are exactly those of the exchange's `performAddLiquidity` (`AdditionOutcome`, `AdditionCalls`) on them, and a success is recorded with its execution number, pair, amounts and the exchange's result |
| `LiquidityFeatures.RunAdditions` | src/features/addLiquidityFeature.js:38-59 | additions alternate with 10000 ms pauses. Step 2k holds the outcome and calls of `performAddLiquidity` on the k-th sample against `chains(k)` at `clock(k)`. Completion means exactly n in order, numbered 1..n and matching their samples, with n-1 pauses. A failure aborts the rest, and its error is the one the exchange returned for that sample. When every chain accepts any in-range addition, the run completes |
| `LiquidityFeatures.AcceptedAdditionSucceeds` | src/features/dex/jaineDex.js:225-411 | on a chain whose allowances cover the largest amount and whose mint receipt has status 1, every in-range addition succeeds on Jaine and on Zer0, whichever way Jaine orders the legs |
| `LiquidityFeatures.AddLiquidityFeature.constructor` | src/features/addLiquidityFeature.js:6-11 | the DEX type and count are stored and no DEX exists yet |
| `LiquidityFeatures.AddLiquidityFeature.InitializeDex` | src/features/addLiquidityFeature.js:13-18 | an existing DEX is reused; otherwise one is created from the DEX type, once |
| `LiquidityFeatures.AddLiquidityFeature.SetDex` | src/features/addLiquidityFeature.js:97-101 | the DEX type is replaced and a new DEX created from it; a failed creation leaves the old instance |
| `LiquidityFeatures.AddLiquidityFeature.PerformAction` | src/features/addLiquidityFeature.js:34-66 | an unknown DEX type fails before any addition. Every addition's outcome and calls are those of the created exchange's `performAddLiquidity` on its sample. On completion `totalExecutions = executionCount`, with one entry per iteration matching the samples, and the summary. An abort propagates the error the exchange returned for the last sample, and a run on chains that accept every in-range addition completes |
| `LiquidityFeatures.AddLiquidityFeature.PreExecutionChecks` | src/features/addLiquidityFeature.js:68-95 | token0 then token1 is checked for each iteration. It fails at the first shortfall naming that token, with every earlier sample covered, and otherwise returns true |
| `UploadFeatures.TxHashOf` | src/features/uploadFeature.js:33 | the first element when the upload returned an array, and null otherwise |
| `UploadFeatures.Cleanup` | src/features/uploadFeature.js:35-38 | exactly one deletion of a non-empty path, none for the empty path |
| `UploadFeatures.FileSizeKBReadsBack` | src/features/uploadFeature.js:28 | the shown size is digits, a point and two digits, which read back as size/1024 in hundredths, rounded half up |
| `UploadFeatures.PerformAction` | src/features/uploadFeature.js:20-53 | a generation failure propagates with nothing deleted. Otherwise stat is the first call, and a non-empty path is deleted exactly once, as the last call, whether stat or upload succeed or throw. The upload happens iff stat succeeded, errors are rethrown after cleanup, and success is `{txHash, fileSize, filePath}` with the generated path |
| `UploadFeatures.PreExecutionChecks` | src/features/uploadFeature.js:55-64 | passes with true iff the balance is at least 0.001 0G, and otherwise fails with the insufficient-balance message |
| `UploadManager.AttemptsAsWritten` | src/core/uploadManager.js:18 | the attempt count is NaN iff `MAX_ATTEMPTS` is undefined, and otherwise the corrected count |
| `UploadManager.ShippedConfigNeverUploads` | src/core/uploadManager.js:18-20 | under the shipped configuration the count is NaN and the loop runs zero iterations |
| `UploadManager.Attempts` | src/core/uploadManager.js:18 | `⌊draw·max⌋ + 1` lies in [1, max] for max ≥ 1 |
| `UploadManager.AttemptsCover` | src/core/uploadManager.js:18 | every count in [1, max] is produced by some draw |
| `UploadManager.IterationRules` | src/core/uploadManager.js:20-47 | each iteration generates once. A failed generation deletes nothing, a failed upload deletes the generated path, and a successful upload deletes it only when the hash is a string. The delay follows only a successful, non-last iteration |
| `UploadManager.EveryIterationRuns` | src/core/uploadManager.js:20-47 | iterations 0..k-1 all run, failures included |
| `UploadManager.DelaysBounded` | src/core/uploadManager.js:37-40 | at most one delay per iteration, and a full run has at most attempts - 1 |
| `UploadManager.ProcessUpload` | src/core/uploadManager.js:17-49 | the attempt count is in [1, max], every iteration runs, and there are fewer delays than attempts |
| `Automation.BumpCounts` | src/core/automationManager.js:85-86 | the success counter of the feature's name grows by one and every other counter is unchanged; a new name is appended once |
| `Automation.Recorded` | src/core/automationManager.js:81-101 | a recorded result is a success iff the feature returned a success; a throw is recorded as a failure with the feature name and the error message |
| `Automation.FailedOnes` | src/core/automationManager.js:123 | only failed results are kept, and the list is empty iff every result succeeded |
| `Automation.TallyCounts` | src/core/automationManager.js:81-101 | one feature adds exactly one to `successful + failed`, and adds one to its name's counter iff it succeeded |
| `Automation.TalliedCounts` | src/core/automationManager.js:72-103 | k features add exactly k to `successful + failed`, and each name's counter grows by the successes of features with that name |
| `Automation.ResultsInOrder` | src/core/automationManager.js:72-103 | result j is feature j's recorded outcome, in list order |
| `Automation.CycleTallies` | src/core/automationManager.js:63-103 | `totalRuns` grows by exactly one and `lastRunTime` is set. When no feature throws null, every feature yields exactly one result and `successful + failed` grows by the number of features. Otherwise the cycle escapes at the first such feature with no notice sent |
| `Automation.Cycle` | src/core/automationManager.js:63-120 | a cycle adds one to `totalRuns`, sets `lastRunTime` and keeps the start. A completed cycle has one result per feature and at most two notices; an escaping one ends with the error of reading `message` on null and sends nothing |
| `Automation.SummaryShape` | src/core/automationManager.js:122-138 | the summary opens with its title and the cycle number. When nothing failed, its status line says all succeeded and ends it. Otherwise the status says partial success and is followed by the `Failed Features` heading and the bullets of the failed results |
| `Automation.ReportSpacing` | src/core/automationManager.js:116-119 | the daily report (`ReportDue`) is due only once 86400000 ms have passed since the start. Once due it stays due at later times for the same statistics, and two cycles that send it are at least 24 runs apart |
| `Automation.CycleNotifications` | src/core/automationManager.js:105-119 | at most two notices. The summary comes first iff some result failed, and the daily report comes last iff at least 24 hours have passed and `totalRuns % 24 == 0` |
| `Automation.CycleFailures` | src/core/automationManager.js:93-101 | result j is a success iff feature j returned a success, so a throwing feature is recorded and later features still run |
| `Automation.SwapsShareCounter` | src/core/automationManager.js:11-17 | in the default list a cycle where every feature succeeds adds two to the one `Token Swap` counter |
| `Automation.DexFeatureOf` | src/core/automationManager.js:198-206 | a DEX feature's descriptor has its feature name, its kind (`swap` or `liquidity`), its DEX type and its execution count |
| `Automation.DexInfos` | src/core/automationManager.js:209-210 | one status line per DEX feature, in order |
| `Automation.FeatureNames` | src/core/automationManager.js:221 | the names of all features, in order |
| `Automation.SuccessRatePerRun` | src/core/automationManager.js:217-218 | the success rate is `toFixed(2)` of 100·successful/totalRuns followed by %, and is at least 100·m when successful ≥ m·totalRuns |
| `Automation.UptimeParts` | src/core/automationManager.js:152-157 | a non-negative uptime gives hours ≥ 0 and minutes in [0, 60), and they account for the uptime to within a minute |
| `Automation.StartupDexInfos` | src/core/automationManager.js:33-34 | one startup entry per DEX feature, in order |
| `Automation.FindFrom` | src/core/automationManager.js:183-187 | `findIndex`: the first matching index from lo, or -1 iff none matches |
| `Automation.FeatureStep` | src/core/automationManager.js:81-101 | one feature's result is pushed and the statistics are tallied |
| `Automation.RunFeatures` | src/core/automationManager.js:72-103 | the loop tallies exactly the features it reaches, escapes iff some feature throws null, and otherwise yields one result per feature in order |
| `Automation.NotifyAfterCycle` | src/core/automationManager.js:105-119 | the notices sent after a cycle are exactly the gated summary and report |
| `Automation.AutomationManager.constructor` | src/core/automationManager.js:9-27 | the default feature list and zeroed statistics started now |
| `Automation.AutomationManager.ExecuteCycle` | src/core/automationManager.js:63-120 | the feature list is unchanged, and the new statistics, result and notices are those of the specification `Cycle` |
| `Automation.AutomationManager.Announce` | src/core/automationManager.js:30-42 | exactly one startup notice listing the features and DEX features |
| `Automation.AutomationManager.RunStep` | src/core/automationManager.js:44-60 | a cycle followed by one cooldown wait; if the cycle escapes, one critical notice and a 5-minute wait instead |
| `Automation.AutomationManager.AddFeature` | src/core/automationManager.js:159-162 | the feature is appended and nothing else changes |
| `Automation.AutomationManager.AddDexFeature` | src/core/automationManager.js:164-180 | `swap` or `liquidity` in any case appends exactly one feature, with the given DEX type and count, and returns it; any other type fails with `Unsupported feature type` and leaves the list unchanged |
| `Automation.AutomationManager.RemoveDexFeature` | src/core/automationManager.js:182-196 | only the first feature matching kind and DEX type is removed and returned, the others keep their order; with no match the result is null and the list is unchanged |
| `Automation.AutomationManager.GetDexFeatures` | src/core/automationManager.js:198-206 | a read-only list with no more entries than features |
| `Automation.AutomationManager.GetUptime` | src/core/automationManager.js:152-157 | for a non-negative uptime the text is `<h>h <m>m` with m < 60, where h hours and m minutes account for the uptime to within one minute |
| `Automation.AutomationManager.GetStatus` | src/core/automationManager.js:208-224 | read-only: running, the counters, the success rate, the last run, the feature names and the DEX status lines |
| `Automation.DexFeaturesAfterAdd` | src/core/automationManager.js:177 | adding a DEX feature appends exactly its descriptor to the DEX list, and adding an upload changes nothing there |
| `Automation.DexFeaturesAfterRemove` | src/core/automationManager.js:190 | removing a DEX feature removes exactly its descriptor, and the others keep their order |
| `Automation.DefaultDexFeatures` | src/core/automationManager.js:11-17 | the default DEX features are jaine swap ×3, jaine liquidity ×3 and zer0 swap ×2 |
| `Automation.DefaultStartup` | src/core/automationManager.js:33-40 | the startup notice lists File Upload, Token Swap, Add Liquidity and Token Swap, and then the three default DEX entries |
| `Automation.StartupInfoOf` | src/core/automationManager.js:34 | for a count below 10, a startup entry is the upper-case kind, then the DEX type and count in the form `(type, nx)` |

## Left out

- Logging (winston, chalk, `console.log`) is not modelled. Only notices, waits and collaborator calls are recorded.
- Floating point is not modelled. Amounts and balances are natural numbers of base units (10^-18 token). The following roundings are left out:
  - the `toFixed(4)`/`toFixed(5)` rounding of drawn amounts;
  - `parseFloat` of balance text;
  - `parseUnits`.
- `Feature.CheckBalance`: renders `formatEther` and then `toFixed(6)` as one exact rounding. It does not model the intermediate JavaScript double.
- `Feature.BalanceBelowCases`: compares base units instead of parsed floats.
- Wall-clock time and `toLocaleString` are parameters: numbers for arithmetic and text for messages. Sleeping is a recorded wait event.
- The `CONTRACTS` registry of `src/config/constant.js` is not part of this model. It is a parameter: a sequence of distinct keys with addresses.
- ABIs, `ethers` contracts, `encodeFunctionData` and `parseLog` are left out. Receipts are records with a status and a list of tagged logs.
- The storage SDK is left out. The upload's reply is only modelled as an array whose first element may be a string, or something else.
- `path.join` is modelled as `baseDir + "/" + name`.
- Concurrency is not modelled: `Promise.all` in `checkTokenBalance` is one call, and the bot is single-threaded.
- The infinite `run()` loop is modelled by one step (`RunStep`) and the startup notice (`Announce`). Nothing is said about non-termination, and signal handlers in `main.js` are not part of this model.
- `Feature.Execute` does not model the three token balance reads. They only log, and `checkTokenBalance` never throws.
- `Feature.Execute`: the wallet address is a parameter (`signer.address`).
- `UploadFeatures.PreExecutionChecks` takes the balance as a parameter. As written, the source calls `getWalletBalance`, which `BaseFeature` does not define, so the check would always throw a TypeError. No path calls it.
- `UploadManager.ProcessUpload`: the delay is a parameter, because `DELAY_BETWEEN_ATTEMPTS` is not defined in the configuration either.
- `UploadManager.ProcessUpload`: a reply whose first element is not a string is folded into "no hash".
- JSON escaping and the `toString(36)` fragments of `generateRandomJSON` are left out. The fragment is a parameter of the draw.
- Image and binary contents are modelled only by their size: canvas, `randomBytes`, and the bytes written by `writeFile`.
- The orchestrator holds value descriptors for its features. A feature object's own lazily created DEX and its repetitions are modelled in `SwapFeatures` and `LiquidityFeatures`, and a cycle takes the feature outcomes as a parameter.
- `Automation.Recorded`: records thrown results with an empty wallet field; the source's record has no wallet key at all.
- `Automation.Recorded`: a feature that throws null is treated as a throw with an empty message. Such a run never reaches recording, because the cycle escapes first.
- The notices of feature runs (their retry, success and wallet-error messages) are not part of the cycle log. The cycle log holds the orchestrator's own summary, report, critical and startup notices.
- `Automation.AutomationManager.AddDexFeature`: the default `executionCount = 1` is not modelled. The count is always passed explicitly, and `DefaultExecutionCount` names the default.
- `Text.ToLower`: folds only the ASCII letters A-Z, not full Unicode case mapping. This is enough for the hexadecimal addresses and DEX tags it is applied to.
- `Retry.Execute`: each failure is carried as its message string. A thrown value without a `.message` is logged as `undefined` (`src/utils/retryManager.js:29,41`), the notices fall back to the value itself, and it is rethrown unchanged. The model does not tell such a value apart from an error with that message.
- `SwapFeatures.RunSwaps`, `LiquidityFeatures.RunAdditions`: `executionCount` is an integer. JavaScript also accepts a fractional count, where `i < 2.5` runs three iterations; the model does not cover that.
- `Automation.AutomationManager.GetDexFeatures`: states only the size bound in its own contract. The contents are stated by `DexFeatureOf`, `DexFeaturesAfterAdd`, `DexFeaturesAfterRemove` and `DefaultDexFeatures`.

## Findings

| source | as written | input that shows it | evidently intended | confidence | as-written member | corrected member |
|---|---|---|---|---|---|---|
| src/core/uploadManager.js:18 | the attempt count multiplies the draw by `CONFIG.MAX_ATTEMPTS`, which `src/config/index.js` does not define. The product is NaN, and `i < NaN` is false, so the loop never runs | the shipped configuration, with any draw | between 1 and `MAX_ATTEMPTS` upload iterations | not executed | `UploadManager.ShippedConfigNeverUploads` | `UploadManager.ProcessUpload` |
