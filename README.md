# f1_fantasy roster engine in Dafny

This project models the roster-selection engine of the `f1_fantasy` program, a
fantasy Formula 1 team simulator, and proves properties of the model. It covers:

- the `Team` roster: two bounded, duplicate-free name lists, an unused budget, a
  points total and a DRS driver, with guarded add/remove/clear, valuation (with
  the previous race's price for a driver who has left the grid) and points with
  the DRS bonus;
- the races and seasons built from the price/points and pairing tables;
- the linear-programming scaffold of `StrategyBase`: its construction-time checks,
  the prohibitive price for departed team drivers, the selection variables, the
  total-cost, roster-size and moves constraints, and `execute`;
- the budget and zero-stop strategies, and the betting-odds parser `odds_to_pct`;
- `factory_strategy`, which turns a team and a race into strategy inputs;
- the first-pick enumeration of k-of-n 0/1 rows and its budget-window filter;
- the season loop `run_for_team`, with its free-transfer rule and result rows.

The solver is a function parameter `solve: Problem -> Selection`. A selection is
a pair of name sets, and the constraints are predicates over it (`Lp.Cost`,
`Lp.Moves`, `Lp.Feasible`). What an optimal answer promises is the predicate
`Lp.Optimal`. The strategy's DRS-driver choice is a second function parameter.
Python dictionaries are maps. Where the program relies on a dictionary's key
order, the model keeps that order as an explicit sequence (`Race.driverOrder`,
`Race.constructorOrder`, and the price and pairing orders of
`StrategyBase.StrategyInputs`). Prices and budgets are reals and points are integers.

One module per source file (`wrappers.dfy` and `text.dfy` hold shared helpers):
`Teams` (races/team.py), `Assets` (races/asset.py), `Seasons` (races/season.py),
`Lp` and `StrategyBase` (linear/strategy_base.py), `StrategyBudget`,
`StrategyZeroStop`, `StrategyOdds`, `StrategyFactory`, `FirstPicks`
(races/first_picks.py) and `RunSingleTeam` (scripts/run_single_team.py).

## Model

| member | source | states |
|---|---|---|
| Text.Sort | scripts/run_single_team.py:37-46 | `sorted()` on names: the result is in ascending order and holds exactly the input's names, with their multiplicities |
| Text.Dedup | races/season.py:74 | `unique()`: every name of the input once, and no other |
| Text.DedupOrder | races/season.py:74 | `unique()` keeps the order of first appearance: of two kept names, the earlier one occurs in the input before the later one first does |
| Text.ParseNatToString | linear/strategy_odds.py:12-13 | parsing the decimal text of a number gives the number back |
| StrategyOdds.Normalise | linear/strategy_odds.py:2-3 | every ':' and '-' becomes '/', every other character is kept, and the length is unchanged |
| StrategyOdds.Ratio | linear/strategy_odds.py:21 | for 0 < right <= left, the result q lies in (0, 1] and q * left == right |
| StrategyOdds.OddsToPct | linear/strategy_odds.py:1-21 | a successful parse lies in (0, 1], and its normalised text has exactly one '/' |
| StrategyOdds.OddsOfDigits | linear/strategy_odds.py:8-21 | for two digit strings, the result is the implied probability of their values, with the inverted-odds and zero rejections in that order |
| StrategyOdds.OddsRoundTrip | linear/strategy_odds.py:12-21 | printing two numbers as `left/right` and parsing them gives right/left, or the rejection those numbers call for |
| StrategyOdds.SeparatorsEquivalent | linear/strategy_odds.py:2-3 | "a:b" and "a-b" parse exactly as "a/b" |
| StrategyOdds.SeparatorCount | linear/strategy_odds.py:5-6 | a normalised text without exactly one '/' is rejected as invalid input |
| StrategyOdds.OddsNeedDigits | linear/strategy_odds.py:12-13 | a side that is not all digits is rejected as an invalid literal, the left side first |
| StrategyOdds.OddsExampleTenToTwo | linear/strategy_odds.py:21 | "10/2" gives 0.2 |
| StrategyOdds.OddsExampleNineToFour | linear/strategy_odds.py:21 | "9/4" gives 4/9 |
| StrategyOdds.OddsExampleHundredToOne | linear/strategy_odds.py:21 | "100/1" gives 0.01 |
| StrategyOdds.OddsExampleSeparators | linear/strategy_odds.py:2-3 | "100:1" and "100-1" give what "100/1" gives |
| StrategyOdds.OddsExampleZeroLeft | linear/strategy_odds.py:15-16 | "0/100" is rejected by the inverted-odds check, before the zero check |
| StrategyOdds.OddsExampleZeroRight | linear/strategy_odds.py:18-19 | "100/0" is rejected by the zero check |
| StrategyOdds.OddsExampleEvens | linear/strategy_odds.py:15-21 | "2/2" passes the inverted-odds check with equal sides and gives 1.0 |
| StrategyOdds.OddsExampleNoSeparator | linear/strategy_odds.py:5-6 | "100" is rejected for its separator count |
| StrategyOdds.OddsExampleTwoSeparators | linear/strategy_odds.py:5-6 | "100/100/100" is rejected |
| StrategyOdds.OddsExampleBareSeparator | linear/strategy_odds.py:12-13 | "/" is rejected as an invalid literal |
| StrategyOdds.OddsExampleEmptyLeft | linear/strategy_odds.py:12 | "/1" is rejected as an invalid literal |
| StrategyOdds.OddsExampleEmptyRight | linear/strategy_odds.py:13 | "100/" is rejected as an invalid literal |
| Assets.Matching | races/asset.py:70-73 | the matching rows are exactly the table's rows with that name and that race number |
| Assets.MatchingMultiset | races/asset.py:70-73 | the filter keeps every copy of a row with that name and race, as often as the table holds it, and no other row |
| Assets.RepeatedRowIsMultipleEntries | races/asset.py:70-79 | a row that appears twice in the table makes its asset's lookup for its race fail with "multiple entries", even though the copies agree |
| Assets.DerivsOf | races/asset.py:84-87 | the derived metrics have exactly the non-reserved columns as keys |
| Assets.DriverRecord | races/asset.py:116-122 | the driver record carries the driver's name and the given constructor |
| Assets.ConstructorRecord | races/asset.py:147-152 | the constructor record carries the constructor's name |
| Assets.FactoryAsset | races/asset.py:48-89 | no matching row gives "not found", several give "multiple entries", exactly one gives its price, its points and every non-reserved column as derived metrics |
| Assets.FactoryDriver | races/asset.py:92-122 | succeeds iff the driver has exactly one row for the race; the error names the driver and race, and is "not found" when there is no row and "multiple entries" when there are several; success is the driver record |
| Assets.FactoryConstructor | races/asset.py:125-152 | succeeds iff the constructor has exactly one row for the race; the error names it and the race, and is "not found" when there is no row and "multiple entries" when there are several; success is the constructor record |
| Seasons.RaceRows | races/season.py:60 | the rows kept are exactly the pairing rows of that race |
| Seasons.LastConstructor | races/season.py:63-70 | the constructor a driver ends up with comes from one of that driver's pairing rows |
| Seasons.BuildRace | races/season.py:43-81 | the race has the requested number, one driver per pairing driver and one constructor per pairing constructor |
| Seasons.BuildRaceWellFormed | races/season.py:63-79 | every driver's constructor is among the race's constructors, and every record is filed under its own name |
| Seasons.BuildRaceLastPairingWins | races/season.py:63-70 | a driver's constructor is the one on that driver's last pairing row |
| Seasons.FactoryDrivers | races/season.py:63-70 | succeeds iff every pairing driver has one data row; the keys are the pairing drivers in first-appearance order; a failure is the lookup error of the first pairing row, in row order, whose driver lacks exactly one data row |
| Seasons.FactoryDriversStep | races/season.py:64-70 | one pass of the drivers loop: fails iff the row's driver lacks exactly one data row, else records it under its name, keeping the keys in first-appearance order and each driver's record that of its last pairing |
| Seasons.FactoryConstructors | races/season.py:73-79 | succeeds iff every constructor has one data row; each key maps to its constructor record; a failure is the lookup error of the first constructor, in list order, that lacks exactly one data row |
| Seasons.FactoryRace | races/season.py:43-81 | succeeds iff every lookup succeeds, and then gives the race built from that race's pairing rows; a failure names the race and an asset without exactly one row: the first such driver in pairing-row order, or, when every driver is found, the first such constructor in first-appearance order |
| Seasons.FactorySeason | races/season.py:84-103 | succeeds iff every race's lookups succeed; the season has the given year and one race per race number of the pairings, keyed by that number; a failure is that of the first race number, in first-appearance order, whose lookups fail, and is the first failure within that race |
| Seasons.SeasonFailureAt | races/season.py:95-102 | a race's first failure, when every earlier race number's lookups succeed, is the season's first failure |
| Teams.IndexOf | races/team.py:54-61 | the first position of a name in a list |
| Teams.RemoveFirst | races/team.py:54-61 | `list.remove`: the length drops by one and exactly one occurrence of the name is gone |
| Teams.RemoveAfterAppend | races/team.py:43-61 | adding a new name and then removing it restores the previous list |
| Teams.DistinctRemoveFirst | races/team.py:54-61 | removing from a duplicate-free list leaves it duplicate-free and without the name |
| Teams.DriversValueIgnoresPrevious | races/team.py:84-92 | when every driver races, the previous race plays no part in the valuation |
| Teams.DriversValueNonNegative | races/team.py:84-92 | with non-negative prices, the drivers' value is non-negative |
| Teams.BestIndex | races/team.py:128-141 | the scan's result is -1 or a position in the roster |
| Teams.BestIndexIsFirstMaximum | races/team.py:128-141 | the DRS fallback picks the first driver whose price is strictly the greatest and above 0, and -1 when there is none |
| Teams.Team.constructor | races/team.py:25-36 | a new team has empty lists, no points, no DRS driver and the given sizes and budget |
| Teams.Team.AddAsset | races/team.py:43-52 | an existing name fails "already present"; otherwise a full list fails "limit reached"; otherwise the name is appended; the other list, budget, points and DRS driver never change |
| Teams.Team.RemoveAsset | races/team.py:54-61 | an absent name fails "not present"; otherwise its first occurrence is removed; nothing else changes |
| Teams.Team.RemoveAllAssets | races/team.py:63-65 | both lists become empty; sizes, budget, points and DRS driver are unchanged |
| Teams.Team.CheckAssetCounts | races/team.py:67-74 | passes iff each list has its configured length; otherwise reports the first wrong count |
| Teams.Team.TotalValueDrivers | races/team.py:84-92 | succeeds iff every driver is priced in this race or the previous one, and sums those prices; the error names an unpriced driver |
| Teams.Team.TotalValueConstructors | races/team.py:94-98 | succeeds iff every constructor races, and sums their prices |
| Teams.Team.TotalValue | races/team.py:76-82 | succeeds iff the counts are right and every asset is priced; the value is the drivers' plus the constructors' prices; wrong counts give the count error |
| Teams.Team.TotalBudget | races/team.py:100-101 | total budget minus unused budget is the total value, under the same success condition |
| Teams.Team.GetDrsPoints | races/team.py:122-141 | the DRS driver's points when that name races; else the best-priced team driver's points, 0 when none is priced above 0 |
| Teams.Team.UpdatePoints | races/team.py:103-120 | succeeds iff counts are right and every asset races; adds exactly drivers' + constructors' + DRS points to the total and returns that amount; a failure leaves the total alone |
| Teams.Team.ToString | races/team.py:38-41 | the text is the drivers in ascending order, comma-joined in parentheses, then the constructors likewise; any sorted arrangement of the names spells the same text |
| Teams.ToStringIgnoresOrder | races/team.py:38-41 | two teams with the same names in any order print the same |
| Teams.RowNames | races/team.py:155-162 | the row's keys in row order |
| Teams.RowDrivers | races/team.py:155-162 | the row's keys with a value that name a race driver, and only those |
| Teams.RowConstructors | races/team.py:155-162 | the row's keys with a value that name a race constructor, and only those |
| Teams.RowPrefixSelectsLess | races/team.py:155-162 | scanning part of the row never selects more names than the whole row |
| Teams.FactoryTeamRow | races/team.py:144-170 | succeeds iff the row names the right number of drivers and constructors; the team holds them, and unused budget is the total budget minus their values |
| Teams.AddRowEntry | races/team.py:155-162 | one pass of the row loop: a selected driver or constructor joins its roster and its value the total; a failure means the row selects more than the team holds |
| Teams.FactoryTeamLists | races/team.py:173-187 | succeeds iff the lists are duplicate-free and priced; the team is sized by the lists, and unused budget is the total budget minus their value |
| Lp.DistinctCard | linear/strategy_base.py:121-122 | a duplicate-free list has as many elements as its set of names |
| Lp.ScaffoldConstraints | linear/strategy_base.py:138-154 | a selection meets the recorded constraints iff its cost is within the ceiling, it picks the team's numbers of drivers and constructors, and its moves are within the ceiling |
| Lp.UnusedBudget | linear/strategy_base.py:142 | a feasible selection never leaves a negative unused budget |
| Lp.PickedIsCount | linear/strategy_base.py:145-146 | over a duplicate-free variable list, the roster-size sum counts the selected listed names |
| Lp.RetainedIsCount | linear/strategy_base.py:149-153 | the moves sum counts the selected names that are already on the team |
| Lp.FeasibleUnfold | linear/strategy_base.py:138-154 | feasibility is: variables only on listed names, cost within the ceiling, exact roster sizes, moves within the ceiling |
| Lp.FeasibleIff | linear/strategy_base.py:119-154 | the same, with the sums read as set sizes: drivers and constructors picked from the candidates, of the team's sizes, within budget and moves |
| Lp.KeepTeamMakesNoMoves | linear/strategy_base.py:148-154 | keeping the current team makes 0 moves, and is feasible exactly when it is affordable |
| Lp.NoMovesKeepsTeam | linear/strategy_base.py:148-154 | with a moves ceiling of 0, the only feasible selection is the current team |
| Lp.PickedCostNonNegative | linear/strategy_base.py:134-138 | with non-negative prices, the total cost is non-negative |
| Lp.UnaffordableNeverSelected | linear/strategy_base.py:138-139 | a driver priced above the cost ceiling is in no feasible selection |
| Lp.OneMoveReplacesOneDriver | linear/strategy_base.py:148-154 | with one move allowed and a team driver dropped, every other team member is kept and exactly one new driver comes in |
| StrategyBudget.MaxBudgetProblem | linear/strategy_budget.py:11-15 | the budget strategy's problem maximises total cost over the strategy's scaffold, adding no constraints of its own |
| StrategyBudget.MaxBudgetOptimalMaximisesCost | linear/strategy_budget.py:11-15 | an optimal answer to the budget problem with the scaffold's constraints is feasible and no feasible selection costs more |
| StrategyZeroStop.Unavailable | linear/strategy_zero_stop.py:15-18 | the team drivers not available, in team order; no more than the team has |
| StrategyZeroStop.UnavailableMembers | linear/strategy_zero_stop.py:16-18 | a name is counted exactly when it is a team driver missing from the available drivers |
| StrategyZeroStop.NoneUnavailable | linear/strategy_zero_stop.py:15-18 | when every team driver is available there is none to count |
| StrategyZeroStop.CountUnavailableDrivers | linear/strategy_zero_stop.py:14-18 | the count of unavailable team drivers, between 0 and the team's size, and 0 exactly when all are available |
| StrategyZeroStop.ZeroStopProblem | linear/strategy_zero_stop.py:23-28 | the zero-stop problem is the budget problem under another name |
| StrategyBase.CheckTeamShape | linear/strategy_base.py:29-40 | passes iff team constructors are available and neither team list outnumbers its available list; a failure is the first violated check |
| StrategyBase.VerifyDataAvailable | linear/strategy_base.py:82-103 | passes iff every available driver and constructor has a value and every valued name is available; a failure names the first unvalued driver, else the first unvalued constructor, else the first unavailable key in the dictionary's order |
| StrategyBase.CheckPairings | linear/strategy_base.py:50-60 | passes iff each pairing joins an available driver to an available constructor and every available driver is paired; a failure names the first bad pairing in the dictionary's order (its driver checked before its constructor), else the first unpaired available driver |
| StrategyBase.WithProhibitive | linear/strategy_base.py:62-67 | the price copy has the given names and the team drivers as keys, keeps every given price, and gives each unpriced team driver `COST_PROHIBITIVE` |
| StrategyBase.ProhibitivePrices | linear/strategy_base.py:62-67 | the copy loop builds exactly `WithProhibitive`'s map: every given price kept, each unpriced team driver at `COST_PROHIBITIVE`, nothing else added |
| StrategyBase.GetTeamSelectionDict | linear/strategy_base.py:105-114 | the keys are exactly available ∪ team, each mapped to 1 iff it is on the team |
| StrategyBase.KeysOf | linear/strategy_base.py:121-122 | the key list names every key once |
| StrategyBase.Strategy.constructor | linear/strategy_base.py:69-80 | the strategy's fields are the inputs, with no variables or constraints yet |
| StrategyBase.Strategy.Create | linear/strategy_base.py:18-80 | succeeds iff every check passes, failing with the first check's error; the zero-stop strategy's moves cap is its count of unavailable team drivers, any other strategy's is the given one |
| StrategyBase.Strategy.Initialise | linear/strategy_base.py:116-154 | builds the variable lists over available ∪ team and the constraints, keeping the moves cap |
| StrategyBase.Strategy.GetProblem | linear/strategy_base.py:175-176 | `get_problem`, dispatched on the strategy kind: each strategy's problem is posed over its scaffold with no constraints yet; the budget and zero-stop problems maximise total cost, and only the P2PM problem has no objective |
| StrategyBase.Strategy.Execute | linear/strategy_base.py:156-172 | fails "objective not set" iff the problem has no objective; otherwise hands the maximise-`TotalCost` problem with every scaffold constraint to the solver |
| StrategyBase.CandidatesPriced | linear/strategy_base.py:134-135 | every variable has a price once initialised |
| StrategyBase.DepartedDriverNeverSelected | linear/strategy_base.py:62-67 | with non-negative prices and a ceiling below `COST_PROHIBITIVE`, no feasible selection keeps a departed team driver |
| StrategyBase.ZeroStopKeepsAvailableTeam | linear/strategy_zero_stop.py:14-21 | when every team driver is still available, the zero-stop strategy's only feasible selection is the current team |
| StrategyBase.ZeroStopReplacesDepartedDriver | linear/strategy_zero_stop.py:14-21 | with one departed team driver, the zero-stop strategy keeps every other member and brings in exactly one driver |
| StrategyFactory.Pairings | linear/strategy_factory.py:17-18 | maps every race driver, and only those, to a constructor of the race |
| StrategyFactory.RacePrices | linear/strategy_factory.py:22-29 | one price per race driver and constructor: a constructor's own price, and a driver's own price unless a constructor shares its name |
| StrategyFactory.PricesOrder | linear/strategy_factory.py:22-29 | the price dictionary's key order lists each priced name once and nothing else |
| StrategyFactory.DriverDerivNames | linear/strategy_factory.py:24-26 | a derivation name is collected iff some listed driver has it |
| StrategyFactory.ConstructorDerivNames | linear/strategy_factory.py:27-29 | a derivation name is collected iff some listed constructor has it |
| StrategyFactory.CollectDriverPrices | linear/strategy_factory.py:21-26 | one price per race driver, its own, and the drivers' derivation names |
| StrategyFactory.CollectConstructorPrices | linear/strategy_factory.py:27-29 | the prices become the race's price map, and the names gain the constructors' derivation names |
| StrategyFactory.DriverDerivColumn | linear/strategy_factory.py:32-35 | succeeds iff every driver has the derivation; the error names it |
| StrategyFactory.DerivColumnOf | linear/strategy_factory.py:32-37 | succeeds iff every driver and constructor has the derivation, giving each one's value |
| StrategyFactory.DerivTable | linear/strategy_factory.py:31-37 | succeeds iff every collected derivation is everywhere; one column per name |
| StrategyFactory.FactoryStrategy | linear/strategy_factory.py:7-50 | fails with the budget error when the counts or prices fail; succeeds iff also every derivation is everywhere; passes the team lists and moves through, lists the race's names, orders the pairings by race driver and the prices drivers first, and max cost is the team's total budget |
| StrategyFactory.FactoryOutputPassesChecks | linear/strategy_factory.py:17-29 | for a well-formed race, the produced key orders fit their dictionaries and the produced prices and pairings pass every price and pairing check, leaving only the team-shape checks |
| StrategyFactory.RacePricesOwnPrice | linear/strategy_factory.py:22-29 | each race driver's and constructor's price is its own |
| FirstPicks.Prepend | races/first_picks.py:36 | puts one index before each combination |
| FirstPicks.Combos | races/first_picks.py:36 | every combination is increasing, drawn from the range, of the requested size |
| FirstPicks.CombosCount | races/first_picks.py:36 | there are C(n, k) combinations |
| FirstPicks.LexLessIrreflexive | races/first_picks.py:36 | no combination comes before itself |
| FirstPicks.CombosLexOrdered | races/first_picks.py:36 | combinations come in lexicographic order |
| FirstPicks.CombosDistinct | races/first_picks.py:36 | combinations are pairwise distinct |
| FirstPicks.Indicator | races/first_picks.py:37-40 | a row has one cell per asset |
| FirstPicks.IndicatorOnes | races/first_picks.py:37-40 | a row has exactly as many ones as its combination has indices |
| FirstPicks.IndicatorInjective | races/first_picks.py:37-40 | distinct combinations give distinct rows |
| FirstPicks.ColumnNamesDistinct | races/first_picks.py:42 | the column names prefix+1..prefix+n are distinct |
| FirstPicks.GetAllCombinations | races/first_picks.py:19-43 | C(n, k) pairwise distinct rows in combination order, each of length n with exactly k ones, under columns prefix+1..prefix+n |
| FirstPicks.CrossJoinAt | races/first_picks.py:56-60 | the cross product has |a|·|b| rows and row i·|b|+j joins a[i] and b[j] |
| FirstPicks.GetAllTeamCombinations | races/first_picks.py:46-60 | an unknown season is an error; otherwise the rows are the cross product of the driver and constructor combinations |
| FirstPicks.SetCombinationAssets | races/first_picks.py:63-76 | fails on a column count other than drivers + constructors; otherwise keeps the rows and names the columns after the drivers, then the constructors |
| FirstPicks.ColumnPrices | races/first_picks.py:107-115 | one price per column |
| FirstPicks.PriceCell | races/first_picks.py:107-115 | a 1 under a non-zero price becomes that price, a 0 becomes missing |
| FirstPicks.PriceColumnStep | races/first_picks.py:107-115 | pricing one more column extends the priced prefix by that column |
| FirstPicks.PriceCombinations | races/first_picks.py:107-115 | every cell is priced by its column's price |
| FirstPicks.PriceDriverColumns | races/first_picks.py:107-110 | after the drivers loop, each driver column holds its driver's price for a 1 and NaN for a 0, the other columns untouched |
| FirstPicks.PriceConstructorColumns | races/first_picks.py:112-115 | after the constructors loop, every column is priced |
| FirstPicks.RowTotalIsSelectedValue | races/first_picks.py:117 | a row's total is the sum of the prices of the assets it selects |
| FirstPicks.InWindow | races/first_picks.py:117-122 | a row is kept, with its total, iff min < total <= max |
| FirstPicks.GetStartingCombinations | races/first_picks.py:79-124 | fails on a shape mismatch; otherwise keeps exactly the priced rows whose total lies in the window |
| FirstPicks.StartingRowsAreChosenPrices | races/first_picks.py:107-122 | each kept row is a priced combination whose total lies in the window |
| FirstPicks.TenChooseThree | races/first_picks.py:36 | choosing 3 of 10 gives 120 rows |
| RunSingleTeam.MinOf | scripts/run_single_team.py:62 | the least race number of a non-empty set |
| RunSingleTeam.SortedInts | scripts/run_single_team.py:62 | the set's numbers, each once, strictly ascending |
| RunSingleTeam.RacesFrom | scripts/run_single_team.py:62 | exactly the season's race numbers from the start on, ascending, beginning with the start when it is a race |
| RunSingleTeam.PreviousRace | scripts/run_single_team.py:72 | for a race numbered from 1, the previous race is an earlier race, except that race 1 is its own previous race |
| RunSingleTeam.LaterRaces | scripts/run_single_team.py:75 | every race after the first comes after the start, so only the start race skips re-selection |
| RunSingleTeam.Chosen | scripts/run_single_team.py:82-83 | the selected names in variable order, exactly those, as many as the roster-size sum counts, without repeats |
| RunSingleTeam.FeasibleSelectionKeepsRosterSizes | scripts/run_single_team.py:82-99 | a feasible selection rebuilds rosters of the team's sizes without repeats |
| RunSingleTeam.ReselectionKeepsRosterSizes | scripts/run_single_team.py:77-102 | a re-selection whose answer is feasible leaves both rosters at their previous sizes and without repeats |
| RunSingleTeam.SolveRace | scripts/run_single_team.py:77-79 | the strategy built from the race and team is solved: the problem carries the team, max cost = total budget, and the zero-stop or given moves cap; the P2PM strategy always fails |
| RunSingleTeam.Rebuild | scripts/run_single_team.py:95-99 | the rosters become exactly the selected lists; budget, points and DRS driver are unchanged |
| RunSingleTeam.Reselect | scripts/run_single_team.py:77-102 | the solver is handed the total-cost problem with the scaffold's constraints over the team's old rosters and budget; afterwards the rosters are its selection in variable order, unused budget is the selection's, the DRS driver is the strategy's and the moves are the selection's; points are untouched |
| RunSingleTeam.EntryColumns | scripts/run_single_team.py:37-46 | three columns per roster entry; the i-th entry's are the prefix with number i+1, then that label with "_val" and with "_pts" |
| RunSingleTeam.RowColumns | scripts/run_single_team.py:22-48 | the twelve fixed labels from "strategy" to "drs_driver" in order, then "Di", "Di_val", "Di_pts" for each driver i from 1, then "Cj", "Cj_val", "Cj_pts" for each constructor j from 1 |
| RunSingleTeam.DriverEntries | scripts/run_single_team.py:37-41 | one entry per driver, in the given order |
| RunSingleTeam.ConstructorEntries | scripts/run_single_team.py:42-46 | one entry per constructor, in the given order |
| RunSingleTeam.CollectDriverEntries | scripts/run_single_team.py:37-41 | succeeds iff every driver races, giving each one's price and points; the error names a missing driver |
| RunSingleTeam.CollectConstructorEntries | scripts/run_single_team.py:42-46 | each constructor's price and points |
| RunSingleTeam.GetRowIntermediateResults | scripts/run_single_team.py:22-48 | succeeds iff every lookup succeeds; the row carries the run's figures, total value and budget, and both rosters sorted with their prices and points |
| RunSingleTeam.RunningTotalsStep | scripts/run_single_team.py:105-122 | appending a row whose total adds its points keeps every row's total equal to the start plus the points so far |
| RunSingleTeam.MovesScheduleStep | scripts/run_single_team.py:56-69 | appending a row allowed 3 moves exactly after a re-selection under 2 moves keeps the schedule |
| RunSingleTeam.MovesScheduleBounds | scripts/run_single_team.py:69 | under the schedule, every race allows 2 or 3 moves |
| RunSingleTeam.RowsFollowStep | scripts/run_single_team.py:108-122 | appending the next race's row keeps one row per race in order |
| RunSingleTeam.RunSoFarStep | scripts/run_single_team.py:67-122 | one pass of the loop keeps every loop invariant |
| RunSingleTeam.HistoryStep | scripts/run_single_team.py:72-102 | appending a race recorded from the lineup the previous race left (unchanged at the start race, re-selected after it) keeps the whole history of lineups and re-selections |
| RunSingleTeam.RunProgressStep | scripts/run_single_team.py:67-122 | one more race, recorded from the current lineup with the schedule's moves and its points added once, extends rows, running totals, schedule, history and roster sizes, with the bonus flag and used moves the next pass reads |
| RunSingleTeam.RunRace | scripts/run_single_team.py:69-122 | a missing previous race is an error; the start race keeps rosters, budget and DRS driver unchanged, a later race re-selects them from the solver's answer and records its moves; on success the counts are right, the row lists the team's rosters at their configured sizes, and points are added once |
| RunSingleTeam.RunNextRace | scripts/run_single_team.py:67-122 | one pass of the race loop keeps every loop invariant: rows in race order, running totals, the moves schedule, each race's re-selection history and the roster sizes |
| RunSingleTeam.RunForTeam | scripts/run_single_team.py:51-124 | a missing start race is an error; otherwise one row per race from the start in ascending order, starting value from the start race, 2 moves then 3 after a re-selection under 2, running totals that add each race's points once, each later race's rosters re-selected from the one before, and every row's rosters at the team's sizes |
| RunSingleTeam.RunRaces | scripts/run_single_team.py:67-124 | the race loop: one row per race in order, each allowed 2 moves or 3 after a re-selection under 2, with running point totals, the team's points grown by each race's points, the first race keeping the lineup and each later one re-selecting from the previous lineup, and rosters at the team's sizes throughout |

## Left out

- The linear-programming solver (the CBC call and pulp's variables and problem objects) is the parameter `solve`, and its answer is read as two name sets. `Lp.Optimal` states what an optimal answer promises, and the lemmas that rely on feasibility take it as a precondition.
- linear/strategy_p2pm.py is not part of this model. The P2PM strategy appears only as a strategy kind whose problem has no objective, so executing it always fails.
- The betting-odds strategy class and its odds loader are not part of this model; only `odds_to_pct` is.
- StrategyOdds.OddsToPct: `int()` of each side is read as ASCII digits only (`Text.ParseNat`). No '-' reaches `int()`, because the '-' separator is already rewritten to '/' (linear/strategy_odds.py:3). Python's tolerance of surrounding whitespace, a '+' sign, underscores and non-ASCII digits is not modelled.
- Empty and `None` odds are rejected, as the code does, rather than giving 0.0.
- StrategyFactory.FactoryStrategy: the strategy constructor has no parameters for the previous race's pairings or the derivation table, yet the factory passes both. The model builds both values but drops them when handing inputs to `StrategyBase.Strategy.Create` (`StrategyFactory.ToInputs`).
- RunSingleTeam.Reselect: the strategy's DRS driver (`get_drs_driver`, which no strategy shown defines) is the parameter `drs`.
- The constants for drivers per constructor and for team sizes are not defined in common.py as shown, so they are parameters of `FirstPicks.GetAllTeamCombinations`. The constructors-per-season table and the default starting budget are copied.
- Assets.FactoryAsset: a table row's points are already an integer and its derived columns already numbers. The truncation of a float by `int(points)` in `Asset.__init__` (races/asset.py:25), its ValueError on NaN, and the ValueError of `float(...)` on a non-numeric derived column (races/asset.py:87) are not modelled.
- RunSingleTeam.GetRowIntermediateResults: `round(…, 1)` of the unused and total budget is not modelled; the row carries the exact values.
- Floating-point arithmetic: prices and budgets are exact reals, and `int()` of the moves expression is the exact integer.
- `set` iteration order in `get_team_selection_dict` is arbitrary in Python. `StrategyBase.KeysOf` promises only that each key is listed once.
- FirstPicks.GetStartingCombinations: it requires the race's driver and constructor names to be distinct, because a shared name would make pandas rename one column twice. Reading the season's data files is not modelled; the race is a parameter.
- FirstPicks.GetAllCombinations: the sizes are natural numbers; negative arguments to `itertools.combinations` are not modelled.
- Reading the price/points and pairing tables from files, and the script's `__main__` block, logging and Excel/parquet output, are not modelled. The tables are parameters.
- Python's dynamic failures (KeyError, TypeError) are explicit error values of the `Result` and `Outcome` types. Each value names the missing name or race.
