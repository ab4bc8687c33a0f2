# Trading game economy, in Dafny

A model of the economy of a seven-day browser trading game. Two page
scripts share the browser's key-value store:

- the trading page (`gameScript.js`), where the player buys goods abroad
  (imports, paid in RM) or sells them (exports, earning RM) at exchange
  rates drawn once per day;
- the daily-task page (`taskScript.js`), where the player meets one
  scenario per day, picked without repeats from a pool of twelve, and
  chooses one of its three options, each with a fixed effect on the
  balance.

The project is split into modules:

- `Money`: rounding to a number of decimals (what `toFixed` followed by
  `parseFloat` does) and the grid of whole cents.
- `Ledger`: the session both pages keep: day, balance, history rows and the
  balance series. Its invariant: the series is the running balance of the
  history, and every sample is a whole number of cents.
- `Rates`: the daily exchange-rate snapshot, and the guard that creates it
  once per day.
- `Scenarios`: the pool, the selection of seven distinct scenarios, and the
  lookup of a day's scenario.
- `Persist`: the store as a class with one field per key, the load
  defaults, and the store invariant every write keeps.
- `Trading` and `Tasks`: the two pages. Each page is a class over the
  shared store. Its constructor is the page load and its methods are the
  handlers. The trade confirmation is proved against the pure function
  `Settle` and the task choice against `ResolveTask`; proceeding to the
  daily task and starting a new game state the new store directly.

Randomness is passed in as parameters: the five draws in [0, 1) behind a
day's rates, and the permutation that shuffles the pool.

## Model

| member | source | states |
|---|---|---|
| Money.RoundTo | improve/js/gameScript.js:66-70 | the rounded rate lies on the grid of the requested decimals, within half a step of the exact value |
| Money.Round2 | improve/js/gameScript.js:140 | the rounded RM amount is a whole number of cents within half a cent of the exact amount |
| Ledger.Start | improve/js/gameScript.js:251-254 | a new game: day 1, balance 5000, no rows; its one-sample series is consistent and in cents |
| Ledger.Append | improve/js/gameScript.js:142-158 | settling a row moves the balance by the row's amount and appends exactly one row and one sample; that sample is the new balance, earlier rows and samples are kept, and the series invariant is preserved |
| Rates.DrawRate | improve/js/gameScript.js:66-70 | a drawn rate lies in [base, base + spread] of its country and is positive |
| Rates.CreateDailyExchangeRates | improve/js/gameScript.js:64-73 | a fresh snapshot has exactly the five countries, each with its currency and a positive rate within its range |
| Rates.EnsureRates | improve/js/gameScript.js:76-79 | the rate guard uses the stored snapshot of the day when there is one, otherwise stores a fresh one under that day; the snapshots of other days are untouched |
| Rates.EnsureRatesIdempotent | improve/js/gameScript.js:76-79 | loading the page again on the same day, whatever the draws, sees the same rates and stores nothing new |
| Scenarios.Pool | improve/js/taskScript.js:16-113 | the pool has twelve scenarios with three options each |
| Scenarios.PoolEntry | improve/js/taskScript.js:16-113 | each pool scenario, with its texts, effects and messages, has three options |
| Scenarios.EntryEffects | improve/js/taskScript.js:16-113 | the three effects of each pool scenario are the ones the pool lists |
| Scenarios.PoolDistinct | improve/js/taskScript.js:16-113 | no two pool scenarios are equal, so a shuffle of the pool has no repeats |
| Scenarios.Shuffle | improve/js/taskScript.js:118 | the shuffled pool has twelve scenarios, the one at position i being the pool's scenario at perm[i] |
| Scenarios.SelectScenarios | improve/js/taskScript.js:118-119 | the first seven of a shuffle are seven pairwise distinct pool scenarios |
| Scenarios.EnsureChosen | improve/js/taskScript.js:116-122 | a stored selection is kept as it is; with none stored, a valid selection is made |
| Scenarios.EnsureChosenIdempotent | improve/js/taskScript.js:116-122 | once a selection is stored, asking again with any shuffle returns the same selection |
| Scenarios.ScenarioForDay | improve/js/taskScript.js:126-133 | there is a task exactly when 1 <= day <= the selection's length, and it is `chosen[day-1]` |
| Scenarios.EveryDayHasTask | improve/js/taskScript.js:124-133 | for a valid selection, every day from 1 to 7 has a task; it is a pool scenario with three options |
| Persist.LoadDay | improve/js/gameScript.js:11 | a missing, unparsable or zero day loads as 1, and any other stored day loads as itself |
| Persist.LoadBalanceAsWritten | improve/js/gameScript.js:12 | as written, a missing balance and a stored 0 both load as 5000; any other balance loads as itself |
| Persist.LoadBalance | improve/js/gameScript.js:12 | corrected: only a missing balance loads as 5000, and every stored balance loads as itself |
| Persist.LoadHistory | improve/js/gameScript.js:13 | no stored history loads as no rows |
| Persist.LoadSeries | improve/js/gameScript.js:14 | no stored series loads as the one-sample series of the loaded balance |
| Persist.LoadSession | improve/js/gameScript.js:11-14 | a page's state is the four loads, and the series falls back to the loaded balance |
| Persist.LoadSessionAsWritten | improve/js/taskScript.js:9-13 | the same load with the balance read as written |
| Persist.StoreThenLoad | improve/js/gameScript.js:240-243 | a state written to the store reloads unchanged |
| Persist.ZeroBalanceReloadsAsStart | improve/js/gameScript.js:12 | a consistent stored game with balance 0 reloads, as written, with balance 5000 and a series ending at 0, which breaks the series invariant |
| Persist.Store.constructor | improve/js/gameScript.js:11-14 | an empty store is valid and loads as a new game |
| Persist.Store.Clear | improve/js/gameScript.js:257 | clearing removes every key; the cleared store loads as a new game |
| Persist.Store.SaveDay | improve/js/taskScript.js:181 | storing a day from 1 to 7 keeps the store valid and changes only the day |
| Persist.Store.SaveBalance | improve/js/gameScript.js:259 | storing the starting balance with no history or series stored keeps the store valid; the store then loads that balance as a one-sample series |
| Persist.Store.SaveProgress | improve/js/gameScript.js:159-161 | storing a consistent session's balance, history and series, the series starting at 5000, keeps the store valid, and the store then loads that session |
| Persist.Store.SaveRates | improve/js/gameScript.js:78 | storing a snapshot with positive rates under a day keeps the store valid and changes only that day's entry |
| Persist.Store.SaveChosen | improve/js/taskScript.js:120 | storing a valid selection keeps the store valid and changes only the selection |
| Trading.ImportItems | improve/js/gameScript.js:23-28 | the import catalog lists four goods |
| Trading.ImportItem | improve/js/gameScript.js:23-28 | every import good has a positive unit price |
| Trading.ExportItems | improve/js/gameScript.js:29-35 | the export catalog lists five goods |
| Trading.ExportItem | improve/js/gameScript.js:29-35 | every export good has a positive unit price |
| Trading.Catalog | improve/js/gameScript.js:136 | the catalog of either direction has only positive prices |
| Trading.FindItem | improve/js/gameScript.js:137 | a good is found exactly when the list has one of that name, and what is found is in the list and has that name |
| Trading.FindItemFirst | improve/js/gameScript.js:137 | what is found is the first item of that name: no earlier item in the list has it |
| Trading.UpdateCalc | improve/js/gameScript.js:109-126 | a quote is shown exactly when an item and a country are chosen and known; it converts the foreign total exactly at the day's rate, and it shows in red exactly for an import that costs more than the balance |
| Trading.Price | improve/js/gameScript.js:130-140 | a trade is priced exactly when the quantity is positive and the item and country are chosen and known; the foreign total is price times quantity, and the RM amount is that total over the rate, rounded to cents and non-negative |
| Trading.Settle | improve/js/gameScript.js:129-158 | a refused trade changes nothing; an import is refused exactly when it costs more than the balance. An import debits and an export credits the rounded amount, so an import never leaves a negative balance. One signed row and one sample are appended, the day is unchanged, a row is a profit exactly for an export, and the series invariant is kept |
| Trading.SettlementMatchesCalculation | improve/js/gameScript.js:120-140 | a settled trade moves the balance by the quick calculation's amount rounded to cents, in the trade's direction |
| Trading.NoWarningMeansAffordable | improve/js/gameScript.js:124-144 | when the balance is in whole cents, an import the quick calculation does not show in red is never refused for lack of funds |
| Trading.RedWarningForAffordableImport | improve/js/gameScript.js:124 | the converse fails as written: with RM 36.36, 10 Electronics at 33 yen to the RM show in red, yet the import settles, leaving 0 |
| Trading.RedWarningMeansRefused | improve/js/gameScript.js:124-144 | with the warning compared on the amount rounded to cents, a quote shows red exactly when confirming it is refused for lack of funds |
| Trading.ImportElectronicsExample | improve/js/gameScript.js:139-145 | 10 Electronics at 33 yen to the RM cost 1200 yen, or RM 36.36, leaving 4963.64 of a new game's 5000 |
| Trading.FindCars | improve/js/gameScript.js:27 | the Cars of the import catalog cost 8000 |
| Trading.ChinaRateAtQuarter | improve/js/gameScript.js:66 | the draw 0.25 gives the Chinese rate 1.6 |
| Trading.ZeroBalanceReachable | improve/js/gameScript.js:139-145 | on day 1 of a new game at 1.6 yuan to the RM, one car costs exactly the whole balance, which settles at 0 |
| Trading.TradingPage.constructor | improve/js/gameScript.js:76-79 | the page loads the stored state, then takes the day's stored rates or stores fresh ones under that day; nothing else in the store changes |
| Trading.TradingPage.ConfirmTrade | improve/js/gameScript.js:129-166 | the page and the store end in the state `Settle` gives; a refused trade changes neither and returns the refusal; a settled one returns the RM amount, and the day and rates are unchanged |
| Trading.TradingPage.ProceedToTask | improve/js/gameScript.js:238-246 | the page's day, balance, history and series are written to the store; rates and selection are untouched |
| Trading.TradingPage.ResetGame | improve/js/gameScript.js:249-260 | if confirmed, the page holds a new game with fresh day-1 rates, and the store holds only those rates, the day and the balance; if not confirmed, nothing changes |
| Tasks.Advance | improve/js/taskScript.js:177-183 | after the daily task of the last day (or later) the game is complete; before it, the next day is the following one and is at most 7 |
| Tasks.TasksFrom | improve/js/taskScript.js:177-183 | counts one task per step of `Advance` until the game is complete, and that count is at least one |
| Tasks.TasksUntilResults | improve/js/taskScript.js:177-183 | from day d of the game, 8 - d tasks are played before the results |
| Tasks.GameHasSevenTasks | improve/js/taskScript.js:177-183 | a game has exactly seven tasks |
| Tasks.ResolveTask | improve/js/taskScript.js:156-184 | a choice that is not an option changes nothing. A valid one moves the balance by the option's effect, with no floor, and appends one task row and one sample equal to the new balance. The row is a profit exactly when the effect is >= 0. The day advances by one unless it was the last, the day stays within the game, and the series invariant is kept |
| Tasks.TaskPage.constructor | improve/js/taskScript.js:9-13 | the page loads the stored state |
| Tasks.TaskPage.EnsureChosenScenarios | improve/js/taskScript.js:116-122 | the store then holds the selection `EnsureChosen` gives, and nothing else in it changes |
| Tasks.TaskPage.RenderTask | improve/js/taskScript.js:124-133 | after ensuring a selection, the page shows that selection's scenario for the current day; there always is one, and it is a pool scenario with three options |
| Tasks.TaskPage.ApplyTaskChoice | improve/js/taskScript.js:156-184 | the page and the store end in the state `ResolveTask` gives; the day is stored only when the game continues, and the outcome says whether the game continues or is complete |

## Left out

- The DOM, alerts, the `confirm` dialog, the rates table, the progress bar, the chart, the penguin tips and timers are UI. The confirmation is the `confirmed` parameter of `ResetGame`. Navigation is the `Outcome` that `ApplyTaskChoice` returns.
- improve/js/resultsScript.js is not part of this model. It only displays stored values.
- `Math.random` is replaced by parameters: five draws in [0, 1) for a day's rates, and a permutation of the pool's twelve positions. The bias of the comparator-based `sort` shuffle is not modelled; every permutation is allowed.
- Balances, rates and amounts are exact reals, not IEEE doubles. `toFixed` is modelled as rounding half up. For values just below a half whose binary form rounds the other way, the page can differ by one unit in the last place.
- Stored values are held already parsed. JSON text, `parseInt` and `parseFloat` of text, and `JSON.parse` throwing on corrupt data are not modelled. A history row is a structured record, not the HTML the pages append.
- The item and the country come from the page's drop-downs. The model accepts any names. When the item or country is unknown, the page would throw before writing anything; the model returns an error result with no change.
- An option index that names no option makes the page throw before writing anything. The model returns `InvalidOption` with no change.
- The page methods require a valid store: a day from 1 to 7, a consistent series in whole cents, positive stored rates and a valid stored selection. The two pages keep this. A store edited by hand is not modelled, apart from the day lookup itself: `Scenarios.ScenarioForDay` returns no task for a day outside the selection.
- Persist.Store.Valid records only that every stored rate is positive. The full set of countries is proved for fresh snapshots by `Rates.CreateDailyExchangeRates`, but not kept as a store invariant.
- Trading.TradingPage.ConfirmTrade runs the page's checks through `Trading.Price`, in the page's order, rather than statement by statement. The quick calculation's display text is not modelled.
- Persist.LoadBalance: the model loads a stored balance of 0 as 0, not as 5000 as the pages do; see Findings.

## Findings

| source | as written | input that shows it | evidently intended | confidence | as-written member | corrected member |
|---|---|---|---|---|---|---|
| improve/js/gameScript.js:12 | `parseFloat(balance) \|\| 5000` treats a stored balance of 0 like a missing one (the same line is in improve/js/taskScript.js:11) | new game, day 1, China drawn at 1.6 (draw 0.25); import 1 Cars (8000 yuan = RM 5000.00), so the balance is 0; proceed to the daily-task page. It loads a balance of 5000 while the series ends at 0 | only a missing or unparsable balance falls back to 5000 | not executed; the input is shown reachable by `Trading.ZeroBalanceReachable` | Persist.LoadBalanceAsWritten (shown by Persist.ZeroBalanceReloadsAsStart) | Persist.LoadBalance (Persist.StoreThenLoad) |
| improve/js/gameScript.js:124 | the quick calculation turns red when the unrounded RM amount exceeds the balance, while the confirmation charges the amount rounded to cents; the tip at improve/js/gameScript.js:282 says red means the import cannot be paid | balance RM 36.36; import 10 Electronics from Japan at 33 yen to the RM: 1200 / 33 = 36.3636... shows red, yet the confirmation charges RM 36.36 and leaves 0 | red exactly when the confirmation would refuse the import | not executed | Trading.UpdateCalc (shown by Trading.RedWarningForAffordableImport) | Trading.RedWarning (Trading.RedWarningMeansRefused) |
