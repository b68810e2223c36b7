# foxy-miner relay core, modelled in Dafny

This project models three parts of the foxy-miner relay, which sits between
miners and the Foxy-Pool multi-coin gateway.

- **The Foxy-Pool upstream** (`FoxyPool.FoxyPoolMulti`, lib/upstream/foxy-pool-multi.js).
  - A round notification:
    - takes a configured `sendTargetDL` in place of the pool's target deadline;
    - is ignored when it repeats the current round (same height and base target);
    - otherwise recomputes the submit-probability target deadline and applies the halt override;
    - then installs and emits the round, looks up the previous round's winner and counts a won block if the winner is one of the accounts this session has submitted for.
  - A nonce submission records its account and forwards the submission with options merged by a fixed precedence.
- **The winner lookup** (`UpstreamUtil`, lib/upstream/util.js).
  - One attempt asks the wallet node who forged the block at a height, over either of two protocols:
    - Bitcoin-like JSON-RPC: `getblockhash`, then `getblock`, then `plotterId`;
    - Burst-like query: `getBlock`, then `generator`.
  - Every error during an attempt becomes "no answer".
  - The retry loop repeats the attempt after each five-second wait, up to 24 times, until it gets an answer.
- **The dashboard** (`DashboardStats` and `CliDashboard.Dashboard`, lib/services/cli-dashboard.js).
  - It merges every proxy's upstream snapshots by name: the smallest non-null best deadline, summed capacity, and mean progress.
  - It attaches each miner to the first merged upstream whose height it is scanning, unless its scan is complete.
  - It classifies each upstream's progress.
  - It keeps a level-filtered buffer of the most recent log lines.

The state-changing code is modelled as classes.
- Each method's new state is tied to a function of the old state:
  - `FoxyPoolMulti.OnNewMiningInfo` to `RoundTransition`;
  - `MergeUpstreams` to `MergedAll`;
  - `AttachMiners` to `AttachAll`;
  - `Dashboard.BuildTable` to `TableRows`;
  - `UpstreamUtil.GetBlockWinnerAccountId` to `Resolve`.
- The properties the code promises are proved about those functions.

JavaScript value rules are written out in `JsValues`:
- truthiness;
- `a || b`;
- `Math.round` as floor(x + 0.5);
- `slice` with a negative start;
- ASCII `toUpperCase`;
- the decimal `toString` of an id.

The wallet node is an oracle: `node(i)` holds its answers to every call the i-th attempt can make.

Three behaviours of the code differ from what a reader might expect:
- **Attempt count.** `retries < 24` bounds the retries, not the attempts. The
  retry loop makes up to 25 attempts (the first one and 24 retries) with at
  most 24 waits, not 24 attempts.
- **Dynamic deadline and capacity.** The dynamic deadline is inversely
  proportional to the capacity. A larger farm is therefore held to a stricter
  deadline, not a more permissive one: more capacity never gives a larger
  deadline (`FoxyPool.DynamicDeadlineNonIncreasing`).
- **First round.** The first notification reads the previous round's height
  without a guard (foxy-pool-multi.js:43). So the handler throws unless the
  base class, which is not part of this model, has set `miningInfo`. The model keeps
  `miningInfo` optional, and an absent one yields the outcome `Threw` with
  nothing changed.

## Model

| member | source | states |
|---|---|---|
| `JsValues.RoundHalfUp` | lib/upstream/foxy-pool-multi.js:47 | `Math.round` gives the integer within half of x, rounding halves up |
| `JsValues.RoundHalfUpMonotone` | lib/upstream/foxy-pool-multi.js:47 | rounding preserves order |
| `JsValues.Upper` | lib/upstream/foxy-pool-multi.js:13 | upper-casing keeps the length and maps each character (ASCII letters only) |
| `JsValues.SliceFrom` | lib/services/cli-dashboard.js:65 | `slice(start)` is the suffix of length `-start` for a negative start, clamped to the whole array, and `|s| - start` otherwise |
| `JsValues.Decimal` | lib/upstream/util.js:46 | an id is rendered as a non-empty string of digits with no leading zero |
| `JsValues.DecimalRoundTrip` | lib/upstream/util.js:46 | reading the rendered digits back gives the id |
| `JsValues.DecimalInjective` | lib/upstream/util.js:46 | two different ids never render to the same text |
| `UpstreamUtil.QueryOfKeys` | lib/upstream/util.js:17-22 | the query's keys are `requestType` plus the keys of `params` |
| `UpstreamUtil.QueryOfParamValue` | lib/upstream/util.js:20-22 | each key of `params` carries its last value, so a `requestType` key overwrites the method |
| `UpstreamUtil.QueryOfRequestType` | lib/upstream/util.js:17-19 | with no such key, `requestType` is the method |
| `UpstreamUtil.DoBurstApiCall` | lib/upstream/util.js:16-23 | the loop builds exactly that query; the path is `url/endpoint`, with `burst` when the endpoint is absent |
| `UpstreamUtil.BitcoinAttempt` | lib/upstream/util.js:42-46 | the calls are `getblockhash [height]`, then `getblock [hash]` unless the first call failed; the winner is present iff both calls succeed, the block is non-null and `plotterId` is present, and it is then the id as text |
| `UpstreamUtil.BurstAttempt` | lib/upstream/util.js:47-55 | one `getBlock` call with `height` at `url/endpoint`; the winner is present iff the block came back with a non-empty `generator`, and it is then that generator |
| `UpstreamUtil.WinnerAttempt` | lib/upstream/util.js:40-59 | an attempt makes one or two calls, over JSON-RPC iff the upstream is Bitcoin-like; a failed call or a null block is caught and gives no winner rather than an error |
| `UpstreamUtil.ResolveFrom` | lib/upstream/util.js:29-37 | from attempt i, ends after at most 25 attempts in all; the answer is the last attempt's, every earlier attempt had none, and no answer means all 25 were made |
| `UpstreamUtil.ResolveNoneIff` | lib/upstream/util.js:31-37 | the loop answers null iff every one of the 25 attempts answered null |
| `UpstreamUtil.ResolveFromUsesOnlyAttemptsMade` | lib/upstream/util.js:31-35 | no answer after the first non-null one is looked at: nodes that agree on the attempts made give the same result |
| `UpstreamUtil.GetBlockWinnerAccountId` | lib/upstream/util.js:28-38 | the while loop computes `Resolve`: 1 to 25 attempts, one five-second wait per retry (at most 24), and the first non-null answer |
| `FoxyPool.RoundOf` | lib/upstream/foxy-pool-multi.js:28-38 | the round copies the notification and configured coin; a truthy `sendTargetDL` replaces the target deadline |
| `FoxyPool.DynamicTargetDeadline` | lib/upstream/foxy-pool-multi.js:44-47 | null unless submit probability is on and the capacity is non-zero; then `round(factor * netDiff / (capacity / 1024))` |
| `FoxyPool.DynamicDeadlineNonIncreasing` | lib/upstream/foxy-pool-multi.js:46-47 | for a non-negative factor and difficulty, more capacity never gives a larger dynamic deadline |
| `FoxyPool.LookupWinner` | lib/upstream/foxy-pool-multi.js:98-104 | no wallet URL: no winner, no attempt and no wait; otherwise the retry loop against the wallet with the configured endpoint, with one five-second wait before each retry |
| `FoxyPool.RoundTransition` | lib/upstream/foxy-pool-multi.js:27-74 | a repeated round changes nothing and emits nothing. An accepted round is installed and emitted once, with the target-deadline and halt overrides and the dynamic deadline. The previous winner is looked up iff the previous height is non-zero, after exactly one seven-second wait, and `wonBlocks` grows by exactly one iff that winner is one of our accounts, else it is unchanged. `myAccountIds` is untouched |
| `FoxyPool.RepeatedNotificationIgnored` | lib/upstream/foxy-pool-multi.js:39-41 | delivering the same notification twice has the effect of delivering it once |
| `FoxyPool.OptionsToSubmit` | lib/upstream/foxy-pool-multi.js:81-88 | miner name from the config, else the miner, else the default; payout address, else the account key; account name from the config, else the miner, else null; distribution ratio from the config, else null; the capacity and the user agent joined with the miner software |
| `FoxyPool.FoxyPoolMulti.constructor` | lib/upstream/foxy-pool-multi.js:11-16 | the coin is upper-cased, Bitcoin-like iff not `BURST`, and no accounts yet; the mining info, dynamic deadline and won-block count are the base class's values, passed in |
| `FoxyPool.FoxyPoolMulti.GetBlockWinnerAccountId` | lib/upstream/foxy-pool-multi.js:98-104 | returns `LookupWinner`, its retry waits included, by running the retry loop only when a wallet URL is configured |
| `FoxyPool.FoxyPoolMulti.OnNewMiningInfo` | lib/upstream/foxy-pool-multi.js:27-74 | the new state and the outcome are those of `RoundTransition`; no submission is forwarded |
| `FoxyPool.FoxyPoolMulti.SubmitNonce` | lib/upstream/foxy-pool-multi.js:76-96 | the account is added to `myAccountIds`; the submission is forwarded once with the merged options; the result has a null error and the gateway's answer; round state unchanged |
| `DashboardStats.BestOfIsMinimum` | lib/services/cli-dashboard.js:92-94 | the merged best deadline is one of the group's and no larger than any non-null one, and it is null iff all are null |
| `DashboardStats.FirstAppearancesNames` | lib/services/cli-dashboard.js:86-91 | a name has a merged record iff some snapshot has that name |
| `DashboardStats.FirstAppearancesDistinct` | lib/services/cli-dashboard.js:87-90 | no name has two merged records |
| `DashboardStats.FirstAppearancesOrdered` | lib/services/cli-dashboard.js:87-90 | records come in order of first appearance: every occurrence of a later record's name is preceded by the earlier record's name |
| `DashboardStats.MergedRecordAggregatesGroup` | lib/services/cli-dashboard.js:86-100 | a record has its first snapshot's height, the group's least best deadline and summed capacity, the mean progress, and a counter of one per snapshot of that name |
| `DashboardStats.MergeTwoSnapshotsOfOneName` | lib/services/cli-dashboard.js:86-100 | two snapshots named A with best deadlines 100 and 50 make one record with best deadline 50, summed capacity and halved progress sum |
| `DashboardStats.Absorb` | lib/services/cli-dashboard.js:92-97 | absorbing a snapshot keeps the smaller best deadline, a null one losing to any, adds the progress and capacity, and counts one more snapshot; name, height and miners are kept |
| `DashboardStats.FindByName` | lib/services/cli-dashboard.js:87 | `find` gives the first record with the name, or none when no record has it |
| `DashboardStats.MergeUpstreams` | lib/services/cli-dashboard.js:86-100 | the reduce and the division compute `MergedAll` |
| `DashboardStats.AttachTarget` | lib/services/cli-dashboard.js:103 | the first upstream at the miner's scanning height, and none iff the scan is at 100 or no upstream has that height |
| `DashboardStats.AttachedOnlyToTarget` | lib/services/cli-dashboard.js:101-109 | a miner is attached only to its target, which has its scanning height, and never at progress 100 |
| `DashboardStats.AttachedAtMostOnce` | lib/services/cli-dashboard.js:101-109 | no miner is attached to two upstreams |
| `DashboardStats.AttachedWhereTargeted` | lib/services/cli-dashboard.js:101-109 | every miner that has a target is attached there |
| `DashboardStats.AttachMiners` | lib/services/cli-dashboard.js:101-109 | the loop over the proxies computes `AttachAll` |
| `DashboardStats.ProgressCellOf` | lib/services/cli-dashboard.js:110-127 | with no miners: Waiting at 0, Done at 100, Interrupted otherwise; with miners: in progress with one line per miner, labelled only with several miners; 0 decimals iff progress is exactly 100, else 2; the aggregate percent hidden only for one miner |
| `DashboardStats.TableRowsDistinctNames` | lib/services/cli-dashboard.js:86-100 | no two table rows have the same upstream name |
| `DashboardStats.TableRowsCoverNames` | lib/services/cli-dashboard.js:86-100 | a name has a row iff some proxy has an upstream of that name |
| `DashboardStats.TableRowsMinerAtMostOnce` | lib/services/cli-dashboard.js:101-109 | a miner shows in at most one row, for the height it scans, and not once its scan is complete |
| `CliDashboard.LogLevelNumber` | lib/services/cli-dashboard.js:14-20 | debug 1, info 2, error 3, and nothing for any other level |
| `CliDashboard.LogText` | lib/services/cli-dashboard.js:49 | the line is the timestamp, ` [`, the upper-cased level, `]  ` and the message, in that order |
| `CliDashboard.IsSuppressed` | lib/services/cli-dashboard.js:50 | a line is dropped only when both levels are known; an error line, a store at debug, and a line at the store's own level are never dropped |
| `CliDashboard.SuppressionThreshold` | lib/services/cli-dashboard.js:50-52 | between known levels a line is kept iff its level is at least the store's |
| `CliDashboard.SuppressionByStoreLevel` | lib/services/cli-dashboard.js:50-52 | at store level error only errors pass, at info all but debug, at debug everything |
| `CliDashboard.Pushed` | lib/services/cli-dashboard.js:53-63 | one line for a known level and none otherwise, with the formatted text, coloured iff colours are on and the level is not info: grey for debug, red for error |
| `CliDashboard.KeepMostRecent` | lib/services/cli-dashboard.js:64-66 | the buffer is cut to its last `maxLogLines` lines, a suffix in arrival order |
| `CliDashboard.KeepMostRecentKeepsNewest` | lib/services/cli-dashboard.js:53-66 | with a limit of at least one, the newest line is always kept |
| `CliDashboard.TruncateAsWritten` | lib/services/cli-dashboard.js:64-66 | the cut as written keeps a suffix of the buffer, of at most `maxLogLines` lines for any limit of at least one |
| `CliDashboard.TruncateAsWrittenKeepsAllAtZero` | lib/services/cli-dashboard.js:64-66 | as written, a limit of 0 keeps every line |
| `CliDashboard.TruncateAsWrittenAgrees` | lib/services/cli-dashboard.js:64-66 | for every limit of at least one, the code as written and `KeepMostRecent` agree |
| `CliDashboard.Dashboard.constructor` | lib/services/cli-dashboard.js:36-40 | 16 log lines, no extended stats, an empty buffer, no proxies |
| `CliDashboard.Dashboard.OnLogs` | lib/services/cli-dashboard.js:48-68 | a suppressed line changes nothing. Otherwise the pushed line is appended and the buffer cut to the corrected `KeepMostRecent`, so it holds at most `maxLogLines` lines and stays a suffix of everything logged; for every limit of at least one this is the cut as written (`TruncateAsWrittenAgrees`). The settings and proxies are unchanged |
| `CliDashboard.Dashboard.SetProxies` | lib/services/cli-dashboard.js:181-184 | the proxies are set and `isSingleMiner` holds iff there is exactly one |
| `CliDashboard.Dashboard.Start` | lib/services/cli-dashboard.js:166-171 | the configured line limit and statistics mode take effect; nothing else changes |
| `CliDashboard.Dashboard.BuildTable` | lib/services/cli-dashboard.js:83-127 | the rows are `TableRows`: none while the proxies are unset or one lacks upstreams, otherwise merged, attached and classified |

## Left out

- JsValues.Upper: only ASCII letters are upper-cased. The non-ASCII case mappings of `toUpperCase` (`ß` to `SS`, `ſ` to `S`, and others that change the length) are not modelled, because coin names and log levels are ASCII.
- HTTP, JSON and the gateway. `superagent`, `JSONbig.parse` and `JSON.parse` are not modelled. The node's answers are an oracle, and a failed call, a bad status or a bad parse is one `Failure`. The gateway's `submitNonce` answer and its `getMiningInfo` and `onNewMiningInfo` subscriptions are parameters or are not modelled.
- UpstreamUtil.BitcoinAttempt: does not model the JSON-RPC envelope (`jsonrpc`, `id`) or the unused fourth argument `true` passed to `doBitcoinApiCall`.
- UpstreamUtil.BitcoinAttempt: renders a numeric `plotterId` in plain decimal. BigNumber switches to exponent notation from 10^21, which is not modelled.
- Timers and asynchrony. No time passes in the model; the delays become counts of waits. Each winner lookup records its 5-second retry waits (`retryWaits`), and an accepted round records the one 7-second wait for the wallet before its lookup (`graceWaits`, foxy-pool-multi.js:66). The render interval and `stop` are left out.
- FoxyPool.FoxyPoolMulti.OnNewMiningInfo: the winner lookup runs detached in the source, so other rounds or submissions can interleave with it. Here it completes within the call, and `myAccountIds` is read before the round is installed. That interleaving is not modelled.
- FoxyPool.FoxyPoolMulti.SubmitNonce: the gateway's `submitNonce` is assumed to resolve. There is no catch around the call (foxy-pool-multi.js:90), so a rejection would propagate after the account was recorded; that path is not modelled.
- FoxyPool.FoxyPoolMulti.constructor: the initial mining info, dynamic target deadline and won-block count are set by the base class, which is not part of this model, so they are parameters.
- CliDashboard.Dashboard.OnLogs: uses the corrected cut `KeepMostRecent` (see Findings). With a limit of 0 it empties the buffer, where the code as written keeps every line (`TruncateAsWrittenKeepsAllAtZero`). For every limit of at least one the two agree (`TruncateAsWrittenAgrees`).
- FoxyPool.FoxyPoolMulti.OnNewMiningInfo: the override of `para.targetDeadline` changes the caller's object (foxy-pool-multi.js:28-30). The model copies the notification instead.
- The Base class is not part of this model. `useSubmitProbability`, `targetDLFactor`, `lastCapacity`, `miningCanBeHalted()`, `defaultMinerName` and `userAgent` are parameters. `super.init`, `super.submitNonce` and `fullUpstreamName` are left out.
- The MiningInfo class is not part of this model. `netDiff` comes with the notification instead of being derived from the base target, and `getMiningInfo`/`toObject` are left out.
- The `connected` flag and the connection-state callback (foxy-pool-multi.js:14, 18-20) are left out, because no modelled operation reads them.
- The event bus is not modelled. That covers the `log/debug` and `log/info` messages of foxy-pool-multi.js:48-49 and 58-62, and the dashboard's `init` subscriptions. `new-round` emits are recorded as the sequence `newRounds`.
- Floating point. Difficulty, capacity and progress are reals, so IEEE rounding is not modelled. `toFixed`, the capacity and deadline formatting, and the elapsed-time strings are not modelled; only the number of decimals is.
- Terminal output is not modelled: chalk colours (kept as a colour tag), `log-update`, the cli-table3 layout and its column headers, `buildLogs`, `render`, and the best-ever deadline and won-block columns of extended mode. The clock is a timestamp parameter, and the store's log level and colour setting are parameters.
- DashboardStats.MergeUpstreams: the source's reduce changes the snapshot objects it receives in place. The model works on values, so aliasing between those objects and the upstreams' own stats is not captured. Every snapshot enters with `counter` 1 and no miners.
- The `proxies` getter and `_proxies` are modelled as a single field. An unset `isSingleMiner` (`undefined`) reads as false.

## Findings

| source | as written | input that shows it | evidently intended | confidence | as-written member | corrected member |
|---|---|---|---|---|---|---|
| lib/services/cli-dashboard.js:64-66 | the buffer is cut with `slice(maxLogLines * -1)` | `dashboardLogLines` 0 and one logged line: the length 1 exceeds 0, and `slice(-0)` is `slice(0)`, so every line is kept and the buffer grows without bound | keep at most `maxLogLines` lines, none for a limit of 0 | medium; not executed | `CliDashboard.TruncateAsWrittenKeepsAllAtZero` | `CliDashboard.KeepMostRecent` |
